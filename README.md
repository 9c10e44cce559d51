# OpenDRIVE backend: leaf lookup, folder listing and retry classification

This project models the part of the OpenDRIVE backend (`opendrive/opendrive.go`)
that has real behaviour: the callbacks the directory cache uses to resolve and
walk remote folders, the classifier that tells the pacer whether a call deserves
another attempt, and the mapping from a listed file record to an object.

- **Types** (`types.dfy`): folder and file records, the folder-list response,
  listing jobs, directory entries, HTTP responses and errors. Times are integer
  seconds since the Unix epoch.
- **Retry** (`retry.dfy`): `retryErrorCodes` and `shouldRetry`. The framework's
  verdict on the error (`fs.ShouldRetry`) is a function parameter. The HTTP check
  (`fs.ShouldRetryHTTP`) is "a response is present and its status is in the
  list".
- **Objects** (`object.dfy`): `newObjectWithInfo`, the `Object` accessors
  `Remote`, `Size`, `ModTime` and `Hash`, and the backend's declared hash set.
- **Lookup** (`lookup.dfy`): `FindLeafOutcome` is the answer `FindLeaf` gives
  for a given outcome of the folder-list request. `FirstNamed` is its linear,
  first-match search.
- **Listing** (`listing.dfy`): the framework's listing sink `ListOpts` as a
  class that records every directory and object handed to it. Its answers
  (`IncludeDirectory`, and the `AddDir`/`Add` return values, which may depend on
  what it was handed before) come from a `ListPolicy`. `ListDirOutcome` gives
  everything one `ListDir` call leaves behind: the jobs, the sink's entries and
  the error. The folder pass (`WalkFolders`) and the file pass (`FileObjects`)
  are defined separately, and lemmas characterise both.
- **Backend** (`backend.dfy`): the instance `Fs`. The paced folder-list call is
  `ListFolder`. It appends the request path `/folder/list.json/<session>/<id>`
  to the `requests` log and returns what `service` gives for that path.
  `service` is the final outcome after the pacer's retries, supplied as a
  constant of the instance. `FindLeaf` and `ListDir` are loop methods written
  like the source's loops. Each is proved equal to its specification function,
  and each states which request it sends.

Points where the model makes the code's behaviour explicit:
- `newObjectWithInfo` never sets the MD5 digest. So `Hash(MD5)` of a listed
  object is the empty string, even though the backend declares MD5 as supported.
- `ListDir` ignores the answer of `out.Add`. So files are never filtered and
  never skipped.
- `AddDir` is called for every folder the filter wants, whatever the depth. Its
  answer, and then the depth, decide whether a child job is made.
- `ListDir` never calls `out.SetError` for a failed folder-list request. It
  returns no jobs and the error wrapped as "failed to get folder list", and
  leaves the sink untouched. What the directory cache does with the returned
  error is outside this model.

## Model

| member | source | states |
|---|---|---|
| Retry.ShouldRetry | opendrive/opendrive.go:322-352 | its second result is the given error unchanged; its first is true iff the framework deems the error retryable or a response is present with status 400, 401, 408, 429, 500, 502, 503 or 504 |
| Retry.RetryCodesAreErrors | opendrive/opendrive.go:322-332 | sanity example about the constant list: every retried status is a 4xx or 5xx error |
| Retry.SuccessIsFinal | opendrive/opendrive.go:351 | a 2xx response is not retried unless the framework deems the error transient |
| Retry.NoResponseDefersToTransport | opendrive/opendrive.go:351 | without a response, retrying is exactly the framework's transport verdict |
| Retry.RateLimitIsRetried | opendrive/opendrive.go:327 | example of ShouldRetry: a 429 response is always retried |
| Objects.NewObjectWithInfo | opendrive/opendrive.go:288-299 | the object has the given remote path, the record's FileID as id, its Size, its DateModified as modification time in seconds, and an empty MD5 |
| Objects.Remote | opendrive/opendrive.go:486-488 | reads the object's remote path (no contract; its meaning is stated by ObjectFromFile) |
| Objects.Size | opendrive/opendrive.go:499-501 | reads the object's size (no contract; its meaning is stated by ObjectFromFile) |
| Objects.ModTime | opendrive/opendrive.go:508-510 | reads the object's modification time (no contract; its meaning is stated by ObjectFromFile) |
| Objects.Hashes | opendrive/opendrive.go:88-90 | the declared hash set {MD5} (no contract; Hash succeeds exactly for its members) |
| Objects.Hash | opendrive/opendrive.go:491-496 | succeeds iff the kind is in the declared set {MD5}, giving the stored digest; any other kind fails with ErrHashUnsupported |
| Objects.ObjectFromFile | opendrive/opendrive.go:288-299 | a listed object reports the given path, the record's id, size and modification time (seconds), an empty MD5, and "unsupported" for other kinds |
| Objects.ObjectKeepsFile | opendrive/opendrive.go:288-299 | the file record can be rebuilt from the object and the record's name: no field is lost |
| Lookup.FirstNamed | opendrive/opendrive.go:400-414 | gives the index of the first element with the wanted name and no earlier match, or none exactly when no element has that name |
| Lookup.FindLeafOutcome | opendrive/opendrive.go:376-417 | the root lookup gives ("0", true, no error); otherwise an error occurs iff the request failed, and then it is wrapped and nothing is found; on success, found iff some folder or file has the name, the id belongs to such an entry, and a miss gives "" |
| Lookup.RootLookupIgnoresListing | opendrive/opendrive.go:380-383 | the root lookup answers ("0", true, no error) whatever the service would say |
| Lookup.FirstFolderWins | opendrive/opendrive.go:400-407 | the first folder with the name gives its FolderID with found = true, even when a file has the same name |
| Lookup.FirstFileOtherwise | opendrive/opendrive.go:408-414 | with no folder of that name, the first file with the name gives its FileID with found = true |
| Lookup.AbsentIsNotAnError | opendrive/opendrive.go:416 | a name in neither list gives ("", false, no error) |
| Lookup.FailedListingIsAnError | opendrive/opendrive.go:396-398 | a failed request gives ("", false, the error wrapped as "failed to get folder list") |
| Lookup.FolderShadowsFile | opendrive/opendrive.go:400-414 | example of FirstFolderWins: a concrete listing with folder and file both named "docs" resolves to the folder's id |
| Listing.ListDirOutcome | opendrive/opendrive.go:419-468 | an error occurs iff the request failed, and then there are no jobs, the sink is untouched and the error is wrapped |
| Listing.OfferedExactly | opendrive/opendrive.go:437-446 | the entries handed to the sink are exactly those of the folders whose path passes the filter, and there are no more entries than folders |
| Listing.WalkOffers | opendrive/opendrive.go:437-449 | the folder pass appends exactly the filtered entries to the sink's directories, whatever AddDir answers |
| Listing.WalkShape | opendrive/opendrive.go:437-454 | each job is the child job of a folder; the originating folder indices strictly increase, so jobs keep listing order; there are at most as many jobs as folders |
| Listing.WalkSound | opendrive/opendrive.go:440-452 | a job exists only for a folder that passed the filter and for which AddDir answered false, and only when the depth is positive |
| Listing.WalkComplete | opendrive/opendrive.go:440-452 | with a positive depth, every folder that passed the filter and was not skipped by AddDir yields a job |
| Listing.WalkAtDepthZero | opendrive/opendrive.go:450-452 | a depth of zero or less yields no jobs |
| Listing.FileObjectsAt | opendrive/opendrive.go:456-465 | one object per file, in listing order, built from the file at the job path followed by the file name |
| Listing.ListDirEntries | opendrive/opendrive.go:437-465 | after a successful request the sink holds its old entries plus the filtered folder entries, and its old objects plus one object per file in order |
| Listing.ListDirJobsSound | opendrive/opendrive.go:437-454 | each returned job has the folder's id, the job path + name + "/", and depth - 1; it comes only from a folder accepted by the filter and AddDir, and only at positive depth; there are no more jobs than folders, and none at depth 0 or less |
| Listing.ListDirJobsComplete | opendrive/opendrive.go:437-454 | at positive depth, every accepted folder's child job is among the returned jobs |
| Backend.Fs.ListFolder | opendrive/opendrive.go:385-395 | sends exactly one request, for the path /folder/list.json/session/id, and returns the service's answer for it |
| Backend.Fs.FindLeaf | opendrive/opendrive.go:376-417 | returns FindLeafOutcome for the service's answer; the log gains no request for the root lookup and exactly one request otherwise |
| Backend.Fs.ListDir | opendrive/opendrive.go:419-468 | sends one request for the job's folder; the jobs, the error and the sink's new directories and objects are exactly ListDirOutcome of the service's answer and the sink's old state |

## Left out

- `NewFs` (config reads, password reveal, REST client set-up, session login): I/O plumbing; the session id is a constant of `Fs`.
- The pacer and the directory cache: their code is not part of this model. The pacer's sleeping, backoff and retry loop, and the directory cache's path resolution, caching and job queue, are left out. `service` gives the final outcome of a paced call.
- `rest.Client.CallJSON`, `fs.ShouldRetry` and `time.Unix` are foreign calls. They become the `service` constant, the `transportRetryable` parameter and integer seconds.
- Stubs with no behaviour: `errorHandler`, `Mkdir`, `Rmdir`, `Put`, `CreateDir`, `Open`, `Remove`, `Update`, `SetModTime`. Also the constant accessors `Name`, `Root`, `String`, `Features`, `Precision`, `Storable` and `Object.Fs`.
- `NewObject` passes a nil file record to `newObjectWithInfo`, which dereferences it. `NewObjectWithInfo` therefore takes a present record, and `NewObject` is not modelled.
- `newObjectWithInfo` never returns an error. So the `SetError` branch of `ListDir`'s file loop cannot run, and the model omits it.
- Debug logging has no effect on behaviour.
- Integer widths: sizes and times are unbounded integers. The source's `int64` fields are copied without arithmetic, so no wrap-around can happen.
- The `fs` back-pointer of `Object` is not modelled: no accessor in scope depends on it.
- The source returns a nil slice of jobs where the model returns `[]`.
