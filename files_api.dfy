/**
 * `src/api/files.ts`: the query of the file listing and the download link.
 * The request itself is not sent here; the model produces what would be sent.
 */
module FilesApi {
  import opened Types
  import opened JsString

  /** What `getFiles` asks the HTTP client for: a path and, optionally, the `user_id` query parameter. */
  datatype ListRequest = ListRequest(path: string, userIdParam: Option<int>)

  const ListPath: string := "/files/"

  /**
   * `getFiles(userId)`: the parameter object is built only when `userId` is
   * truthy, so an absent id and the id 0 both list the caller's own files.
   */
  function GetFilesRequest(userId: Option<int>): (r: ListRequest)
    ensures r.path == ListPath
    ensures r.userIdParam.Some? <==> userId.Some? && userId.value != 0
    ensures r.userIdParam.Some? ==> r.userIdParam == userId
  {
    ListRequest(ListPath, if userId.Some? && userId.value != 0 then userId else None)
  }

  const DownloadPrefix: string := "/api/files/"
  const DownloadSuffix: string := "/download/"

  /** `buildDownloadUrl(fileId)`: the id in decimal between a fixed prefix and suffix. */
  function BuildDownloadUrl(fileId: int): (r: string)
    ensures |r| > |DownloadPrefix| + |DownloadSuffix|
    ensures r[..|DownloadPrefix|] == DownloadPrefix
    ensures r[|r| - |DownloadSuffix|..] == DownloadSuffix
    ensures r[|DownloadPrefix|..|r| - |DownloadSuffix|] == Decimal(fileId)
  {
    var d := Decimal(fileId);
    var r := DownloadPrefix + d + DownloadSuffix;
    assert r[..|DownloadPrefix|] == DownloadPrefix;
    assert r[|DownloadPrefix|..|r| - |DownloadSuffix|] == d;
    r
  }

  /** Distinct files get distinct download links. */
  lemma DownloadUrlInjective(a: int, b: int)
    requires BuildDownloadUrl(a) == BuildDownloadUrl(b)
    ensures a == b
  {
    var u := BuildDownloadUrl(a);
    assert Decimal(a) == u[|DownloadPrefix|..|u| - |DownloadSuffix|] == Decimal(b);
    DecimalInjective(a, b);
  }
}
