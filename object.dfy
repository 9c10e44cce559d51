/** Objects: the framework's view of one remote file, built from a file
    record of a folder listing. */
module Objects {
  import opened Types

  /** Hash kinds the framework may ask for; only MD5 matters here. */
  datatype HashType = HashMD5 | OtherHash(kind: string)

  /** A remote file as the framework sees it. `modTime` is in seconds;
      `md5` is the stored digest (empty when unknown). */
  datatype Object = Object(remote: string, id: string, modTime: int, md5: string, size: int)

  /** The hash kinds this backend declares it supports. */
  function Hashes(): set<HashType>
  {
    {HashMD5}
  }

  /** The object for file record `file`, listed at logical path `remote`.
      The listing carries no digest, so none is stored. */
  function NewObjectWithInfo(remote: string, file: File): (o: Object)
    ensures o.remote == remote && o.id == file.fileID
    ensures o.size == file.size && o.modTime == file.dateModified
    ensures o.md5 == ""
  {
    Object(remote, file.fileID, file.dateModified, "", file.size)
  }

  function Remote(o: Object): string
  {
    o.remote
  }

  function Size(o: Object): int
  {
    o.size
  }

  function ModTime(o: Object): int
  {
    o.modTime
  }

  /** The stored digest for MD5; every other kind is refused. */
  function Hash(o: Object, t: HashType): (r: Result<string, Error>)
    ensures r.Success? <==> t in Hashes()
    ensures r.Success? ==> r.value == o.md5
    ensures r.Failure? ==> r.error == HashUnsupported
  {
    if t != HashMD5 then Failure(HashUnsupported) else Success(o.md5)
  }

  /** The file record an object stands for, given the record's own name. */
  function FileRecord(o: Object, name: string): File
  {
    File(name, o.id, o.size, o.modTime)
  }

  /** The accessors of an object built from a listing report the listing's
      id, size and modification time, the path it was listed under, and an
      empty MD5 digest; every other hash kind is unsupported. */
  lemma ObjectFromFile(remote: string, file: File)
    ensures Remote(NewObjectWithInfo(remote, file)) == remote
    ensures NewObjectWithInfo(remote, file).id == file.fileID
    ensures Size(NewObjectWithInfo(remote, file)) == file.size
    ensures ModTime(NewObjectWithInfo(remote, file)) == file.dateModified
    ensures Hash(NewObjectWithInfo(remote, file), HashMD5) == Success("")
    ensures forall t :: t != HashMD5 ==> Hash(NewObjectWithInfo(remote, file), t) == Failure(HashUnsupported)
  {
  }

  /** No field of the file record is lost: the record can be recovered from
      the object and the record's name. */
  lemma ObjectKeepsFile(remote: string, file: File)
    ensures FileRecord(NewObjectWithInfo(remote, file), file.name) == file
  {
  }
}
