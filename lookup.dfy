/** Leaf lookup: what the directory cache learns when it asks this backend
    for the child named `leaf` of the folder `pathID`, given the outcome of
    the folder-list request for `pathID`. */
module Lookup {
  import opened Types

  /** The three results of a leaf lookup: the child's id, whether it was
      found, and the error of a failed request. */
  datatype LeafAnswer = LeafAnswer(pathIDOut: string, found: bool, err: Option<Error>)

  /** The well-known root folder with an empty leaf names the root itself. */
  predicate IsRootLookup(pathID: string, leaf: string)
  {
    pathID == RootID && leaf == ""
  }

  function FolderName(f: Folder): string
  {
    f.name
  }

  function FileName(f: File): string
  {
    f.name
  }

  /** The position of the first element of `xs` whose name is `leaf`, if
      any: the linear search of a listing, front to back. */
  function FirstNamed<T>(xs: seq<T>, name: T -> string, leaf: string): (r: Option<nat>)
    ensures r.None? <==> forall i :: 0 <= i < |xs| ==> name(xs[i]) != leaf
    ensures r.Some? ==> r.value < |xs| && name(xs[r.value]) == leaf
    ensures r.Some? ==> forall j :: 0 <= j < r.value ==> name(xs[j]) != leaf
  {
    if xs == [] then None
    else if name(xs[0]) == leaf then Some(0)
    else
      match FirstNamed(xs[1..], name, leaf)
      case None => None
      case Some(k) => Some(k + 1)
  }

  /** Some folder of the listing is named `leaf`. */
  predicate HasFolder(fl: FolderList, leaf: string)
  {
    exists i :: 0 <= i < |fl.folders| && fl.folders[i].name == leaf
  }

  /** Some file of the listing is named `leaf`. */
  predicate HasFile(fl: FolderList, leaf: string)
  {
    exists j :: 0 <= j < |fl.files| && fl.files[j].name == leaf
  }

  /** The answer to a lookup of `leaf` under `pathID` when the folder-list
      request for `pathID` gave `listing` (ignored for the root lookup,
      which issues no request). Folders are searched before files. */
  function FindLeafOutcome(pathID: string, leaf: string, listing: Result<FolderList, Error>): (a: LeafAnswer)
    ensures IsRootLookup(pathID, leaf) ==> a == LeafAnswer(pathID, true, None)
    ensures a.err.Some? <==> !IsRootLookup(pathID, leaf) && listing.Failure?
    ensures a.err.Some? ==> a.err.value == Wrapped(ListFailure, listing.error) && !a.found
    ensures !a.found ==> a.pathIDOut == ""
    ensures !IsRootLookup(pathID, leaf) && listing.Success? ==>
      (a.found <==> HasFolder(listing.value, leaf) || HasFile(listing.value, leaf))
    ensures a.found && !IsRootLookup(pathID, leaf) ==>
      listing.Success? &&
      ((exists i :: 0 <= i < |listing.value.folders| && listing.value.folders[i].name == leaf &&
                    listing.value.folders[i].folderID == a.pathIDOut) ||
       (exists j :: 0 <= j < |listing.value.files| && listing.value.files[j].name == leaf &&
                    listing.value.files[j].fileID == a.pathIDOut))
  {
    if IsRootLookup(pathID, leaf) then LeafAnswer(pathID, true, None)
    else
      match listing
      case Failure(e) => LeafAnswer("", false, Some(Wrapped(ListFailure, e)))
      case Success(fl) =>
        match FirstNamed(fl.folders, FolderName, leaf)
        case Some(i) => LeafAnswer(fl.folders[i].folderID, true, None)
        case None =>
          match FirstNamed(fl.files, FileName, leaf)
          case Some(j) => LeafAnswer(fl.files[j].fileID, true, None)
          case None => LeafAnswer("", false, None)
  }

  /** The root lookup succeeds whatever the service would have answered. */
  lemma RootLookupIgnoresListing(listing: Result<FolderList, Error>)
    ensures FindLeafOutcome(RootID, "", listing) == LeafAnswer(RootID, true, None)
  {
  }

  /** The first folder named `leaf` wins, even over an earlier-listed or
      equally named file. */
  lemma FirstFolderWins(pathID: string, leaf: string, fl: FolderList, i: nat)
    requires !IsRootLookup(pathID, leaf)
    requires i < |fl.folders| && fl.folders[i].name == leaf
    requires forall k :: 0 <= k < i ==> fl.folders[k].name != leaf
    ensures FindLeafOutcome(pathID, leaf, Success(fl)) == LeafAnswer(fl.folders[i].folderID, true, None)
  {
  }

  /** With no folder named `leaf`, the first file named `leaf` is the answer. */
  lemma FirstFileOtherwise(pathID: string, leaf: string, fl: FolderList, j: nat)
    requires !IsRootLookup(pathID, leaf)
    requires !HasFolder(fl, leaf)
    requires j < |fl.files| && fl.files[j].name == leaf
    requires forall k :: 0 <= k < j ==> fl.files[k].name != leaf
    ensures FindLeafOutcome(pathID, leaf, Success(fl)) == LeafAnswer(fl.files[j].fileID, true, None)
  {
  }

  /** A name present in neither part of the listing is reported as absent,
      not as an error. */
  lemma AbsentIsNotAnError(pathID: string, leaf: string, fl: FolderList)
    requires !IsRootLookup(pathID, leaf)
    requires !HasFolder(fl, leaf) && !HasFile(fl, leaf)
    ensures FindLeafOutcome(pathID, leaf, Success(fl)) == LeafAnswer("", false, None)
  {
  }

  /** A failed request yields no id, not found, and the wrapped error. */
  lemma FailedListingIsAnError(pathID: string, leaf: string, e: Error)
    requires !IsRootLookup(pathID, leaf)
    ensures FindLeafOutcome(pathID, leaf, Failure(e)) == LeafAnswer("", false, Some(Wrapped(ListFailure, e)))
  {
  }

  /** Example of FirstFolderWins: a folder and a file both named "docs";
      the folder's id is the answer. */
  lemma FolderShadowsFile()
    ensures FindLeafOutcome("42", "docs",
              Success(FolderList([Folder("docs", "F7", 0)], [File("docs", "X9", 3, 0)])))
            == LeafAnswer("F7", true, None)
  {
  }
}
