/**
 * The page-level logic of `src/pages/FilesPage/FilesPage.tsx` outside the
 * dialogs and the tooltip: which list is fetched on mount, whether the list is
 * the user's own, and the link a file name opens.
 */
module FilesPage {
  import opened Types
  import opened PageEffects
  import FilesSlice
  import FilesApi
  import JsString

  /**
   * The `userId` search parameter after `Number(userIdRaw)`: absent (or
   * empty), a finite integer, or a value that is not a finite number.
   */
  datatype UserIdParam = Absent | Parsed(n: int) | NotFinite

  /** `isOwnList`: no `userId` parameter at all. */
  predicate IsOwnList(u: UserIdParam) {
    u.Absent?
  }

  /** The mount effect: the fetch dispatched for the parameter, if any. */
  function MountFetch(u: UserIdParam): seq<Effect> {
    match u
    case Absent => [DispatchFetchFiles(FilesSlice.NoArg)]
    case Parsed(n) => [DispatchFetchFiles(FilesSlice.WithUserId(Some(n)))]
    case NotFinite => []
  }

  /** The listing request made by the fetch the mount effect dispatches, if it dispatches one. */
  function MountRequest(u: UserIdParam): Option<FilesApi.ListRequest> {
    var fx := MountFetch(u);
    if |fx| > 0 && fx[0].DispatchFetchFiles? then Some(FilesSlice.FetchFilesRequest(fx[0].arg)) else None
  }

  /**
   * At most one fetch is dispatched, and none for a non-finite `userId`. The
   * own list fetches with no argument and so with no user filter; a parsed id
   * is forwarded as `{ userId }`, and the request filters by it exactly when
   * it is non-zero.
   */
  lemma MountFilter(u: UserIdParam)
    ensures |MountFetch(u)| <= 1
    ensures forall k :: 0 <= k < |MountFetch(u)| ==> MountFetch(u)[k].DispatchFetchFiles?
    ensures |MountFetch(u)| == 1 <==> !u.NotFinite?
    ensures IsOwnList(u) ==> MountFetch(u)[0].arg == FilesSlice.NoArg
    ensures u.Parsed? ==> MountFetch(u)[0].arg == FilesSlice.WithUserId(Some(u.n))
    ensures MountRequest(u).Some? <==> !u.NotFinite?
    ensures MountRequest(u).Some? ==> MountRequest(u).value.path == FilesApi.ListPath
    ensures MountRequest(u).Some? ==>
              (MountRequest(u).value.userIdParam.Some? <==> u.Parsed? && u.n != 0)
    ensures u.Parsed? && u.n != 0 ==> MountRequest(u).value.userIdParam == Some(u.n)
  {
    if !u.NotFinite? {
      assert MountRequest(u) == Some(FilesSlice.FetchFilesRequest(MountFetch(u)[0].arg));
    }
  }

  /**
   * `?userId=0` fetches the signed-in user's own list, yet the page does not
   * treat it as the own list (no upload button; an owner badge instead).
   */
  lemma ZeroUserIdQuirk()
    ensures !IsOwnList(Parsed(0))
    ensures MountFetch(Parsed(0)) != MountFetch(Absent)
    ensures MountRequest(Parsed(0)) == MountRequest(Absent)
  {
    assert MountFetch(Parsed(0))[0].arg != MountFetch(Absent)[0].arg;
  }

  /** `openOrDownload`: opens the file's URL, built with the unused mode `'preview'`. */
  function OpenOrDownload(fileId: int): (fx: seq<Effect>)
    ensures |fx| == 1 && fx[0].WindowOpen?
  {
    [WindowOpen(FilesApi.BuildDownloadUrl(fileId))]
  }

  /**
   * The name link opens the download endpoint itself (the `'preview'` argument
   * changes nothing), and distinct files open distinct URLs.
   */
  lemma PreviewIsDownloadUrl(a: int, b: int)
    ensures var url := OpenOrDownload(a)[0].url;
            && url[..|FilesApi.DownloadPrefix|] == FilesApi.DownloadPrefix
            && url[|url| - |FilesApi.DownloadSuffix|..] == FilesApi.DownloadSuffix
            && url[|FilesApi.DownloadPrefix|..|url| - |FilesApi.DownloadSuffix|] == JsString.Decimal(a)
    ensures a != b ==> OpenOrDownload(a) != OpenOrDownload(b)
  {
    if a != b && OpenOrDownload(a) == OpenOrDownload(b) {
      assert OpenOrDownload(a)[0].url == OpenOrDownload(b)[0].url;
      FilesApi.DownloadUrlInjective(a, b);
    }
  }
}
