/**
 * What the handlers of `src/pages/FilesPage/FilesPage.tsx` hand to the outside
 * world: remote calls, Redux dispatches and browser calls. Each is recorded as
 * a value; the reducers behind `markDownloaded`, `updateFileMeta`,
 * `removeFile`, `uploadFile` and `resetUploadState` are not part of this
 * model, so nothing is said about what they do.
 */
module PageEffects {
  import opened Types
  import FilesSlice

  /** The contents of a downloaded file. */
  type Blob = seq<bv8>

  /** The identity of a `File` the user picked for upload. */
  type FileHandle = nat

  datatype Effect =
    | DispatchFetchFiles(arg: FilesSlice.FetchArg)
    | WindowOpen(url: string)
    | DownloadFile(fileId: int)
    | SaveBlob(blob: Blob, name: string)
    | DispatchMarkDownloaded(fileId: int, iso: string)
    | DispatchRemoveFile(fileId: int)
    | PatchRename(fileId: int, name: string)
    | PatchComment(fileId: int, comment: Option<string>)
    | DispatchUpdateName(fileId: int, name: string)
    | DispatchUpdateComment(fileId: int, comment: Option<string>)
    | DispatchUploadFile(file: FileHandle, comment: Option<string>)
    | DispatchResetUploadState
}
