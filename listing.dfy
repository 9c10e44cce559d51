/** Listing one folder for the directory cache's recursive walk: which
    entries reach the framework's listing sink and which child jobs come
    back, given the outcome of the folder-list request for the job. */
module Listing {
  import opened Types
  import opened Objects

  /** How a listing sink answers: its directory filter, the answer of
      AddDir (true asks the lister to skip the directory) given the
      directories it was handed before, and the answer of Add given the
      objects it was handed before. */
  datatype ListPolicy = ListPolicy(
    includeDirectory: string -> bool,
    addDirAborts: (seq<Dir>, Dir) -> bool,
    addAborts: (seq<Object>, Object) -> bool)

  /** The framework's listing sink. It records every directory and object
      it is handed, in order. */
  class ListOpts {
    const policy: ListPolicy
    var dirs: seq<Dir>
    var objects: seq<Object>

    constructor (policy: ListPolicy)
      ensures this.policy == policy && dirs == [] && objects == []
    {
      this.policy := policy;
      dirs := [];
      objects := [];
    }

    /** Whether the directory at logical path `remote` is wanted. */
    function IncludeDirectory(remote: string): bool
    {
      policy.includeDirectory(remote)
    }

    method AddDir(dir: Dir) returns (abort: bool)
      modifies this`dirs
      ensures dirs == old(dirs) + [dir]
      ensures abort == policy.addDirAborts(old(dirs), dir)
    {
      abort := policy.addDirAborts(dirs, dir);
      dirs := dirs + [dir];
    }

    method Add(o: Object) returns (abort: bool)
      modifies this`objects
      ensures objects == old(objects) + [o]
      ensures abort == policy.addAborts(old(objects), o)
    {
      abort := policy.addAborts(objects, o);
      objects := objects + [o];
    }
  }

  /** The directory entry for folder `f` listed at logical path `remote`. */
  function DirFor(remote: string, f: Folder): Dir
  {
    Dir(remote, -1, -1, f.dateModified)
  }

  /** The job that lists folder `f`, found while running `job`, one level
      further down. */
  function ChildJob(job: ListDirJob, f: Folder): ListDirJob
  {
    ListDirJob(f.folderID, job.path + f.name + "/", job.depth - 1)
  }

  /** The directory entries the sink is handed for `folders` under `path`:
      one per folder the filter wants, in listing order. */
  function Offered(path: string, folders: seq<Folder>, wanted: string -> bool): seq<Dir>
    decreases |folders|
  {
    if folders == [] then []
    else
      var n := |folders| - 1;
      var o := Offered(path, folders[..n], wanted);
      if wanted(path + folders[n].name) then o + [DirFor(path + folders[n].name, folders[n])] else o
  }

  /** Folder `i` passed the filter and AddDir answered false for it, the
      sink having been handed `dirs0` and then the entries of the folders
      before `i`. */
  predicate Accepted(job: ListDirJob, folders: seq<Folder>, p: ListPolicy, dirs0: seq<Dir>, i: nat)
    requires i < |folders|
  {
    var remote := job.path + folders[i].name;
    p.includeDirectory(remote) &&
    !p.addDirAborts(dirs0 + Offered(job.path, folders[..i], p.includeDirectory), DirFor(remote, folders[i]))
  }

  /** The state after the folder pass of one listing: the jobs collected,
      the sink's directories, and for each job the index of the folder it
      came from. */
  datatype FolderPass = FolderPass(jobs: seq<ListDirJob>, dirs: seq<Dir>, origins: seq<nat>)

  /** The folder pass over `folders`, starting from a sink holding `dirs0`. */
  function WalkFolders(job: ListDirJob, folders: seq<Folder>, p: ListPolicy, dirs0: seq<Dir>): FolderPass
    decreases |folders|
  {
    if folders == [] then FolderPass([], dirs0, [])
    else
      var n := |folders| - 1;
      var w := WalkFolders(job, folders[..n], p, dirs0);
      var remote := job.path + folders[n].name;
      if !p.includeDirectory(remote) then w
      else
        var d := DirFor(remote, folders[n]);
        if p.addDirAborts(w.dirs, d) || job.depth <= 0 then FolderPass(w.jobs, w.dirs + [d], w.origins)
        else FolderPass(w.jobs + [ChildJob(job, folders[n])], w.dirs + [d], w.origins + [n])
  }

  /** The objects the sink is handed for `files` under `path`: one per
      file, in listing order. */
  function FileObjects(path: string, files: seq<File>): seq<Object>
    decreases |files|
  {
    if files == [] then []
    else
      var n := |files| - 1;
      FileObjects(path, files[..n]) + [NewObjectWithInfo(path + files[n].name, files[n])]
  }

  /** Everything one call of ListDir leaves behind: the jobs it returns,
      the sink's directories and objects, and its error. */
  datatype ListDirResult = ListDirResult(jobs: seq<ListDirJob>, dirs: seq<Dir>, objects: seq<Object>, err: Option<Error>)

  /** One call of ListDir for `job` when the folder-list request gave
      `listing`, the sink answering by `p` and holding `dirs0` and `objs0`. */
  function ListDirOutcome(job: ListDirJob, listing: Result<FolderList, Error>, p: ListPolicy,
                          dirs0: seq<Dir>, objs0: seq<Object>): (r: ListDirResult)
    ensures r.err.Some? <==> listing.Failure?
    ensures listing.Failure? ==>
      r == ListDirResult([], dirs0, objs0, Some(Wrapped(ListFailure, listing.error)))
  {
    match listing
    case Failure(e) => ListDirResult([], dirs0, objs0, Some(Wrapped(ListFailure, e)))
    case Success(fl) =>
      var w := WalkFolders(job, fl.folders, p, dirs0);
      ListDirResult(w.jobs, w.dirs, objs0 + FileObjects(job.path, fl.files), None)
  }

  // ---------------------------------------------------------------------
  // Directory entries

  /** Offered lists exactly the folders the filter wants, as entries named
      by their logical path, and no more entries than there are folders. */
  lemma {:induction false} OfferedExactly(path: string, folders: seq<Folder>, wanted: string -> bool)
    ensures |Offered(path, folders, wanted)| <= |folders|
    ensures forall d :: d in Offered(path, folders, wanted) <==>
      exists i :: 0 <= i < |folders| && wanted(path + folders[i].name) && d == DirFor(path + folders[i].name, folders[i])
    decreases |folders|
  {
    if folders != [] {
      var n := |folders| - 1;
      OfferedExactly(path, folders[..n], wanted);
      forall d | d in Offered(path, folders, wanted)
        ensures exists i :: 0 <= i < |folders| && wanted(path + folders[i].name) && d == DirFor(path + folders[i].name, folders[i])
      {
        if d in Offered(path, folders[..n], wanted) {
          var i :| 0 <= i < n && wanted(path + folders[..n][i].name) && d == DirFor(path + folders[..n][i].name, folders[..n][i]);
          assert folders[..n][i] == folders[i];
        } else {
          assert wanted(path + folders[n].name) && d == DirFor(path + folders[n].name, folders[n]);
        }
      }
      forall d, i | 0 <= i < |folders| && wanted(path + folders[i].name) && d == DirFor(path + folders[i].name, folders[i])
        ensures d in Offered(path, folders, wanted)
      {
        if i < n {
          assert folders[..n][i] == folders[i];
        }
      }
    }
  }

  /** The folder pass hands the sink exactly the entries of Offered. */
  lemma {:induction false} WalkOffers(job: ListDirJob, folders: seq<Folder>, p: ListPolicy, dirs0: seq<Dir>)
    ensures WalkFolders(job, folders, p, dirs0).dirs == dirs0 + Offered(job.path, folders, p.includeDirectory)
    decreases |folders|
  {
    if folders != [] {
      WalkOffers(job, folders[..|folders| - 1], p, dirs0);
    }
  }

  // ---------------------------------------------------------------------
  // Child jobs

  /** Acceptance of folder `i` depends only on the folders up to `i`. */
  lemma AcceptedPrefix(job: ListDirJob, folders: seq<Folder>, p: ListPolicy, dirs0: seq<Dir>, n: nat, i: nat)
    requires i < n <= |folders|
    ensures Accepted(job, folders[..n], p, dirs0, i) == Accepted(job, folders, p, dirs0, i)
  {
    assert folders[..n][..i] == folders[..i];
    assert folders[..n][i] == folders[i];
  }

  /** Each job is the child job of the folder it came from; the origins are
      strictly increasing, so the jobs keep the listing's folder order; and
      there are at most as many jobs as folders. */
  lemma {:induction false} WalkShape(job: ListDirJob, folders: seq<Folder>, p: ListPolicy, dirs0: seq<Dir>)
    ensures var w := WalkFolders(job, folders, p, dirs0);
      && |w.origins| == |w.jobs| <= |folders|
      && (forall k :: 0 <= k < |w.jobs| ==>
            w.origins[k] < |folders| && w.jobs[k] == ChildJob(job, folders[w.origins[k]]))
      && (forall k1, k2 :: 0 <= k1 < k2 < |w.origins| ==> w.origins[k1] < w.origins[k2])
    decreases |folders|
  {
    if folders != [] {
      var n := |folders| - 1;
      WalkShape(job, folders[..n], p, dirs0);
      var v := WalkFolders(job, folders[..n], p, dirs0);
      forall k | 0 <= k < |v.jobs|
        ensures folders[..n][v.origins[k]] == folders[v.origins[k]]
      {
      }
    }
  }

  /** A job is returned only for a folder that passed the filter and for
      which AddDir answered false, and only when the job's depth is
      positive. */
  lemma {:induction false} WalkSound(job: ListDirJob, folders: seq<Folder>, p: ListPolicy, dirs0: seq<Dir>)
    ensures var w := WalkFolders(job, folders, p, dirs0);
      forall k :: 0 <= k < |w.origins| ==>
        job.depth > 0 && w.origins[k] < |folders| && Accepted(job, folders, p, dirs0, w.origins[k])
    decreases |folders|
  {
    if folders != [] {
      var n := |folders| - 1;
      WalkSound(job, folders[..n], p, dirs0);
      WalkOffers(job, folders[..n], p, dirs0);
      var v := WalkFolders(job, folders[..n], p, dirs0);
      forall k | 0 <= k < |v.origins|
        ensures Accepted(job, folders, p, dirs0, v.origins[k])
      {
        AcceptedPrefix(job, folders, p, dirs0, n, v.origins[k]);
      }
      assert folders[..n] == folders[..n][..n];
    }
  }

  /** When the depth is positive, every folder that passed the filter and
      for which AddDir answered false yields a job. */
  lemma {:induction false} WalkComplete(job: ListDirJob, folders: seq<Folder>, p: ListPolicy, dirs0: seq<Dir>)
    requires job.depth > 0
    ensures var w := WalkFolders(job, folders, p, dirs0);
      forall i :: 0 <= i < |folders| && Accepted(job, folders, p, dirs0, i) ==> i in w.origins
    decreases |folders|
  {
    if folders != [] {
      var n := |folders| - 1;
      WalkComplete(job, folders[..n], p, dirs0);
      WalkOffers(job, folders[..n], p, dirs0);
      forall i | 0 <= i < n && Accepted(job, folders, p, dirs0, i)
        ensures i in WalkFolders(job, folders[..n], p, dirs0).origins
      {
        AcceptedPrefix(job, folders, p, dirs0, n, i);
      }
    }
  }

  /** A job whose depth is not positive yields no child jobs. */
  lemma {:induction false} WalkAtDepthZero(job: ListDirJob, folders: seq<Folder>, p: ListPolicy, dirs0: seq<Dir>)
    requires job.depth <= 0
    ensures WalkFolders(job, folders, p, dirs0).jobs == []
    decreases |folders|
  {
    if folders != [] {
      WalkAtDepthZero(job, folders[..|folders| - 1], p, dirs0);
    }
  }

  // ---------------------------------------------------------------------
  // Objects

  /** Every file of the listing yields one object, in listing order, at
      the job's path followed by the file's name. */
  lemma {:induction false} FileObjectsAt(path: string, files: seq<File>)
    ensures |FileObjects(path, files)| == |files|
    ensures forall i :: 0 <= i < |files| ==>
      FileObjects(path, files)[i] == NewObjectWithInfo(path + files[i].name, files[i])
    decreases |files|
  {
    if files != [] {
      var n := |files| - 1;
      FileObjectsAt(path, files[..n]);
      forall i | 0 <= i < n
        ensures files[..n][i] == files[i]
      {
      }
    }
  }

  // ---------------------------------------------------------------------
  // One call of ListDir

  /** After a successful request the sink holds its old directories followed
      by the wanted folders' entries, and its old objects followed by one
      object per file, in listing order; file entries are never filtered. */
  lemma ListDirEntries(job: ListDirJob, fl: FolderList, p: ListPolicy, dirs0: seq<Dir>, objs0: seq<Object>)
    ensures var r := ListDirOutcome(job, Success(fl), p, dirs0, objs0);
      && r.err == None
      && r.dirs == dirs0 + Offered(job.path, fl.folders, p.includeDirectory)
      && |r.objects| == |objs0| + |fl.files|
      && r.objects[..|objs0|] == objs0
      && forall i :: 0 <= i < |fl.files| ==>
           r.objects[|objs0| + i] == NewObjectWithInfo(job.path + fl.files[i].name, fl.files[i])
  {
    WalkOffers(job, fl.folders, p, dirs0);
    FileObjectsAt(job.path, fl.files);
    var r := ListDirOutcome(job, Success(fl), p, dirs0, objs0);
    assert r.objects == objs0 + FileObjects(job.path, fl.files);
  }

  /** After a successful request: no more jobs than folders, and none when
      the depth is not positive; every job lists a folder that passed the
      filter and was not skipped by AddDir, at that folder's path plus "/",
      one level down. */
  lemma ListDirJobsSound(job: ListDirJob, fl: FolderList, p: ListPolicy, dirs0: seq<Dir>, objs0: seq<Object>)
    ensures var r := ListDirOutcome(job, Success(fl), p, dirs0, objs0);
      && |r.jobs| <= |fl.folders|
      && (job.depth <= 0 ==> r.jobs == [])
      && forall k :: 0 <= k < |r.jobs| ==>
           job.depth > 0 &&
           exists i :: (0 <= i < |fl.folders| && Accepted(job, fl.folders, p, dirs0, i) &&
             r.jobs[k] == ListDirJob(fl.folders[i].folderID, job.path + fl.folders[i].name + "/", job.depth - 1))
  {
    var w := WalkFolders(job, fl.folders, p, dirs0);
    var r := ListDirOutcome(job, Success(fl), p, dirs0, objs0);
    assert r.jobs == w.jobs;
    WalkShape(job, fl.folders, p, dirs0);
    WalkSound(job, fl.folders, p, dirs0);
    if job.depth <= 0 {
      WalkAtDepthZero(job, fl.folders, p, dirs0);
    }
    forall k | 0 <= k < |r.jobs|
      ensures job.depth > 0
      ensures exists i :: (0 <= i < |fl.folders| && Accepted(job, fl.folders, p, dirs0, i) &&
        r.jobs[k] == ListDirJob(fl.folders[i].folderID, job.path + fl.folders[i].name + "/", job.depth - 1))
    {
      var i := w.origins[k];
      assert Accepted(job, fl.folders, p, dirs0, i);
    }
  }

  /** After a successful request with a positive depth, every folder that
      passed the filter and was not skipped by AddDir has its job. */
  lemma ListDirJobsComplete(job: ListDirJob, fl: FolderList, p: ListPolicy, dirs0: seq<Dir>, objs0: seq<Object>)
    requires job.depth > 0
    ensures var r := ListDirOutcome(job, Success(fl), p, dirs0, objs0);
      forall i :: 0 <= i < |fl.folders| && Accepted(job, fl.folders, p, dirs0, i) ==>
        ChildJob(job, fl.folders[i]) in r.jobs
  {
    var w := WalkFolders(job, fl.folders, p, dirs0);
    var r := ListDirOutcome(job, Success(fl), p, dirs0, objs0);
    assert r.jobs == w.jobs;
    WalkShape(job, fl.folders, p, dirs0);
    WalkComplete(job, fl.folders, p, dirs0);
    forall i | 0 <= i < |fl.folders| && Accepted(job, fl.folders, p, dirs0, i)
      ensures ChildJob(job, fl.folders[i]) in r.jobs
    {
      var k :| 0 <= k < |w.origins| && w.origins[k] == i;
      assert w.jobs[k] == ChildJob(job, fl.folders[i]);
    }
  }
}
