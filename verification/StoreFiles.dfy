/** A store's save on the file system: where the three fates of a save in the protocol come from. */
module StoreFiles {
  import opened Wrappers
  import opened Base32
  import opened Identity
  import opened Files
  import opened Protocol

  /** JSON text for the records of one store: what was written can be read. */
  ghost predicate FaithfulRecords<R(!new)>(encode: seq<R> -> seq<Byte>, decode: seq<Byte> -> Option<seq<R>>) {
    forall records :: decode(encode(records)) == Some(records)
  }

  /** What a store's load finds: a missing file is an empty store. */
  function Stored<R>(files: Contents, path: string, decode: seq<Byte> -> Option<seq<R>>): Result<seq<R>, Error> {
    if path !in files then Ok([])
    else match decode(files[path]) case Some(records) => Ok(records) case None => Err(IoError)
  }

  /**
   * SaveJSON. `fate` says which of the protocol's three cases this was: an error does not tell whether
   * the new records are there, and a crash may come on either side of the rename. In every case a load
   * finds all of the old records or all of the new ones, and no other file has changed.
   */
  method SaveRecords<R(!new)>(fs: FileSystem, path: string, tmp: string, records: seq<R>, encode: seq<R> -> seq<Byte>,
                              decode: seq<Byte> -> Option<seq<R>>)
    returns (o: Outcome, ghost fate: SaveOutcome)
    requires tmp !in fs.files && tmp != path && FaithfulRecords(encode, decode)
    modifies fs`files, fs`faults
    ensures fs.faults == old(fs.faults) ==> fate.Saved?
    ensures Stored(fs.files, path, decode)
         == if fate.FailedBefore? then old(Stored(fs.files, path, decode)) else Ok(records)
    ensures o.Completed? <==> fate.Saved?
    ensures fs.files - {path, tmp} == old(fs.files) - {path, tmp}
  {
    ghost var before := fs.files;
    o := AtomicWriteFile(fs, path, encode(records), tmp);
    fate := if o.Completed? then Saved
            else if fs.files == before[path := encode(records)] then FailedAfter
            else FailedBefore;
    if fate.FailedBefore? {
      TempAside(before, fs.files, path, tmp);
    }
  }

  lemma TempAside(before: Contents, after: Contents, path: string, tmp: string)
    requires SameButTemp(before, after, tmp) && tmp != path && tmp !in before
    ensures path in before <==> path in after
    ensures path in before ==> before[path] == after[path]
    ensures after - {path, tmp} == before - {path, tmp}
  {
    assert forall q :: q in before ==> q in after - {tmp} && (after - {tmp})[q] == before[q];
    assert forall q :: q in after && q != tmp ==> q in after - {tmp};
  }
}
