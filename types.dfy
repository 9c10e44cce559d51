/** Values exchanged with the OpenDRIVE folder-list API and with the
    listing framework: folder and file records, listing jobs, directory
    entries and errors. Times are whole seconds since the Unix epoch. */
module Types {

  datatype Option<+T> = None | Some(value: T)

  datatype Result<+R, +E> = Success(value: R) | Failure(error: E)

  /** Errors are opaque except for the two this backend adds itself: the
      context wrapped around a failed folder-list request and the
      framework's "hash unsupported" sentinel. */
  datatype Error =
    | RemoteError(detail: string)
    | Wrapped(context: string, cause: Error)
    | HashUnsupported

  /** One sub-folder record of a folder listing. */
  datatype Folder = Folder(name: string, folderID: string, dateModified: int)

  /** One file record of a folder listing. */
  datatype File = File(name: string, fileID: string, size: int, dateModified: int)

  /** The body of a folder-list response: sub-folders, then files, each in
      the order the service returned them. */
  datatype FolderList = FolderList(folders: seq<Folder>, files: seq<File>)

  /** A pending unit of recursive listing: the remote folder to list, the
      logical path prefix of its entries (empty or ending in "/"), and the
      remaining recursion depth. */
  datatype ListDirJob = ListDirJob(dirID: string, path: string, depth: int)

  /** A directory entry handed to the listing sink. Size and count are
      unknown for this backend and given as -1. */
  datatype Dir = Dir(name: string, bytes: int, count: int, when: int)

  /** The outcome of one HTTP exchange; absent when the transport failed
      before a response arrived. */
  datatype Response = Response(statusCode: int)

  /** The identifier of the root folder on the service. */
  const RootID: string := "0"

  /** The context added to every failed folder-list request. */
  const ListFailure: string := "failed to get folder list"
}
