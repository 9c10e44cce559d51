/** The backend instance and the two callbacks the directory cache drives:
    FindLeaf and ListDir. Each issues its folder-list request through the
    instance, which records every request path it sends. */
module Backend {
  import opened Types
  import opened Objects
  import opened Lookup
  import opened Listing

  /** The request path of the folder-list call for folder `dirID`. */
  function ListPath(sessionID: string, dirID: string): string
  {
    "/folder/list.json/" + sessionID + "/" + dirID
  }

  /** One backend instance. `service` gives the final outcome of a paced
      GET of a request path (retries already absorbed); `requests` is the
      log of the folder-list requests sent so far. */
  class Fs {
    const sessionID: string
    const service: string -> Result<FolderList, Error>
    var requests: seq<string>

    constructor (sessionID: string, service: string -> Result<FolderList, Error>)
      ensures this.sessionID == sessionID && this.service == service && requests == []
    {
      this.sessionID := sessionID;
      this.service := service;
      requests := [];
    }

    /** What the service answers for the listing of folder `dirID`. */
    function ListingOf(dirID: string): Result<FolderList, Error>
    {
      service(ListPath(sessionID, dirID))
    }

    /** Sends one folder-list request for `dirID`. */
    method ListFolder(dirID: string) returns (r: Result<FolderList, Error>)
      modifies this`requests
      ensures requests == old(requests) + [ListPath(sessionID, dirID)]
      ensures r == ListingOf(dirID)
    {
      requests := requests + [ListPath(sessionID, dirID)];
      r := service(ListPath(sessionID, dirID));
    }

    /** Finds the id of the child named `leaf` of folder `pathID`: the root
      lookup is answered without a request; otherwise folders, then files,
      are searched front to back. */
    method FindLeaf(pathID: string, leaf: string) returns (pathIDOut: string, found: bool, err: Option<Error>)
      modifies this`requests
      ensures LeafAnswer(pathIDOut, found, err) == FindLeafOutcome(pathID, leaf, ListingOf(pathID))
      ensures requests == old(requests) + (if IsRootLookup(pathID, leaf) then [] else [ListPath(sessionID, pathID)])
    {
      if pathID == RootID && leaf == "" {
        return pathID, true, None;
      }
      var listing := ListFolder(pathID);
      if listing.Failure? {
        return "", false, Some(Wrapped(ListFailure, listing.error));
      }
      var fl := listing.value;
      var i := 0;
      while i < |fl.folders|
        invariant 0 <= i <= |fl.folders|
        invariant forall k :: 0 <= k < i ==> fl.folders[k].name != leaf
      {
        if leaf == fl.folders[i].name {
          FirstFolderWins(pathID, leaf, fl, i);
          return fl.folders[i].folderID, true, None;
        }
        i := i + 1;
      }
      var j := 0;
      while j < |fl.files|
        invariant 0 <= j <= |fl.files|
        invariant forall k :: 0 <= k < j ==> fl.files[k].name != leaf
      {
        if leaf == fl.files[j].name {
          FirstFileOtherwise(pathID, leaf, fl, j);
          return fl.files[j].fileID, true, None;
        }
        j := j + 1;
      }
      AbsentIsNotAnError(pathID, leaf, fl);
      return "", false, None;
    }

    /** Lists the folder of `job` into `out` and returns the child jobs to
      run next. */
    method ListDir(out: ListOpts, job: ListDirJob) returns (jobs: seq<ListDirJob>, err: Option<Error>)
      modifies this`requests, out`dirs, out`objects
      ensures requests == old(requests) + [ListPath(sessionID, job.dirID)]
      ensures ListDirResult(jobs, out.dirs, out.objects, err) ==
        ListDirOutcome(job, ListingOf(job.dirID), out.policy, old(out.dirs), old(out.objects))
    {
      var listing := ListFolder(job.dirID);
      if listing.Failure? {
        return [], Some(Wrapped(ListFailure, listing.error));
      }
      var fl := listing.value;
      ghost var dirs0, objs0 := out.dirs, out.objects;
      ghost var requests1 := requests;

      jobs := [];
      var i := 0;
      while i < |fl.folders|
        invariant 0 <= i <= |fl.folders|
        invariant jobs == WalkFolders(job, fl.folders[..i], out.policy, dirs0).jobs
        invariant out.dirs == WalkFolders(job, fl.folders[..i], out.policy, dirs0).dirs
        invariant out.objects == objs0 && requests == requests1
      {
        var folder := fl.folders[i];
        assert fl.folders[..i + 1][..i] == fl.folders[..i];
        assert fl.folders[..i + 1][i] == folder;
        var remote := job.path + folder.name;
        if out.IncludeDirectory(remote) {
          var dir := Dir(remote, -1, -1, folder.dateModified);
          var skip := out.AddDir(dir);
          if !skip && job.depth > 0 {
            jobs := jobs + [ListDirJob(folder.folderID, remote + "/", job.depth - 1)];
          }
        }
        i := i + 1;
      }
      assert fl.folders[..i] == fl.folders;

      var j := 0;
      while j < |fl.files|
        invariant 0 <= j <= |fl.files|
        invariant out.objects == objs0 + FileObjects(job.path, fl.files[..j])
        invariant out.dirs == WalkFolders(job, fl.folders, out.policy, dirs0).dirs
        invariant requests == requests1
      {
        var file := fl.files[j];
        assert fl.files[..j + 1][..j] == fl.files[..j];
        assert fl.files[..j + 1][j] == file;
        var remote := job.path + file.name;
        var o := NewObjectWithInfo(remote, file);
        var _ := out.Add(o);
        j := j + 1;
      }
      assert fl.files[..j] == fl.files;
      return jobs, None;
    }
  }
}
