/** The file-system protocol under the stores: replacing a file by rename, and lock directories. */
module Files {
  import opened Wrappers
  import opened Base32
  import opened Identity

  /** How one call or one operation ends. After Crashed the process does nothing more, deferred work included. */
  datatype Outcome = Completed | Failed | Crashed

  type Contents = map<string, seq<Byte>>

  /**
   * Files by path and the directories that serve as locks; every call may do its work, fail, or be the
   * last. `faults` counts the calls that did not do their work.
   */
  class FileSystem {
    var files: Contents
    var dirs: set<string>
    ghost var faults: nat

    constructor ()
      ensures files == map[] && dirs == {}
    {
      files := map[];
      dirs := {};
      faults := 0;
    }

    /** A call without effect on the two maps: chmod, sync, close, opening a directory. */
    method Call() returns (o: Outcome)
      modifies this`faults
      ensures faults == old(faults) + if o.Completed? then 0 else 1
    {
      if * {
        o := Completed;
      } else if * {
        o := Failed;
        faults := faults + 1;
      } else {
        o := Crashed;
        faults := faults + 1;
      }
    }

    method Create(name: string) returns (o: Outcome)
      modifies this`files, this`faults
      ensures faults == old(faults) + if o.Completed? then 0 else 1
      ensures files == if o.Completed? then old(files)[name := []] else old(files)
    {
      o := Call();
      if o.Completed? {
        files := files[name := []];
      }
    }

    /** When the write does not complete, any part of the data may have reached the file. */
    method Write(name: string, data: seq<Byte>) returns (o: Outcome)
      requires name in files
      modifies this`files, this`faults
      ensures faults == old(faults) + if o.Completed? then 0 else 1
      ensures name in files && files == old(files)[name := files[name]]
      ensures o.Completed? ==> files[name] == data
    {
      o := Call();
      var part :| part <= data;
      files := files[name := if o.Completed? then data else part];
    }

    method Rename(name: string, path: string) returns (o: Outcome)
      requires name in files && name != path
      modifies this`files, this`faults
      ensures faults == old(faults) + if o.Completed? then 0 else 1
      ensures files == if o.Completed? then old(files)[path := old(files)[name]] - {name} else old(files)
    {
      o := Call();
      if o.Completed? {
        files := files[path := files[name]] - {name};
      }
    }

    method Remove(name: string) returns (o: Outcome)
      modifies this`files, this`faults
      ensures faults == old(faults) + if o.Completed? then 0 else 1
      ensures files == if o.Completed? then old(files) - {name} else old(files)
    {
      o := Call();
      if o.Completed? {
        files := files - {name};
      }
    }

    method Mkdir(path: string) returns (o: Outcome)
      requires path !in dirs
      modifies this`dirs, this`faults
      ensures faults == old(faults) + if o.Completed? then 0 else 1
      ensures dirs == if o.Completed? then old(dirs) + {path} else old(dirs)
    {
      o := Call();
      if o.Completed? {
        dirs := dirs + {path};
      }
    }

    method Rmdir(path: string) returns (o: Outcome)
      modifies this`dirs, this`faults
      ensures o.Completed? <==> faults == old(faults) && path in old(dirs)
      ensures dirs == if o.Completed? then old(dirs) - {path} else old(dirs)
    {
      o := Call();
      if path !in dirs && o.Completed? {
        o := Failed;
      }
      if o.Completed? {
        dirs := dirs - {path};
      }
    }
  }

  /** Nothing but possibly a left-over temporary file distinguishes the two. */
  predicate SameButTemp(before: Contents, after: Contents, tmp: string) {
    after - {tmp} == before
  }

  lemma TempIsExtra(before: Contents, tmp: string, part: seq<Byte>)
    requires tmp !in before
    ensures SameButTemp(before, before, tmp) && SameButTemp(before, before[tmp := part], tmp)
  {
    assert before - {tmp} == before;
    assert before[tmp := part] - {tmp} == before;
  }

  lemma RenamedTemp(before: Contents, tmp: string, path: string, data: seq<Byte>)
    requires tmp !in before && tmp != path
    ensures before[tmp := data][path := data] - {tmp} == before[path := data]
  {
  }

  /** The calls on the temporary file; a failed one still closes it, which has no effect here. */
  method FillTemp(fs: FileSystem, tmp: string, data: seq<Byte>) returns (o: Outcome)
    requires tmp in fs.files
    modifies fs`files, fs`faults
    ensures fs.faults == old(fs.faults) + if o.Completed? then 0 else 1
    ensures tmp in fs.files && fs.files == old(fs.files)[tmp := fs.files[tmp]]
    ensures o.Completed? ==> fs.files[tmp] == data
  {
    o := fs.Call();
    if !o.Completed? {
      return;
    }
    o := fs.Write(tmp, data);
    if !o.Completed? {
      return;
    }
    o := fs.Call();
    if !o.Completed? {
      return;
    }
    o := fs.Call();
  }

  /**
   * AtomicWriteFile. `tmp` is the unused name the library picks. However it ends, and wherever it
   * crashes, the target is wholly old or wholly new and no other file has changed; completing, which it
   * does whenever all calls work, means new. Failing can mean either: the calls after the rename can fail
   * too. A failure leaves no temporary file behind unless removing it fails as well.
   */
  method AtomicWriteFile(fs: FileSystem, path: string, data: seq<Byte>, tmp: string) returns (o: Outcome)
    requires tmp !in fs.files && tmp != path
    modifies fs`files, fs`faults
    ensures o.Completed? <==> fs.faults == old(fs.faults)
    ensures o.Failed? && fs.faults == old(fs.faults) + 1 ==> tmp !in fs.files
    ensures o.Completed? ==> fs.files == old(fs.files)[path := data]
    ensures fs.files == old(fs.files)[path := data] || SameButTemp(old(fs.files), fs.files, tmp)
  {
    ghost var before := fs.files;
    TempIsExtra(before, tmp, []);
    o := fs.Call();
    if !o.Completed? {
      return;
    }
    o := fs.Create(tmp);
    if !o.Completed? {
      return;
    }
    var removeTmp := true;
    o := FillTemp(fs, tmp, data);
    TempIsExtra(before, tmp, fs.files[tmp]);
    assert fs.files == before[tmp := fs.files[tmp]];
    if o.Completed? {
      RenamedTemp(before, tmp, path, data);
      o := fs.Rename(tmp, path);
      if o.Completed? {
        removeTmp := false;
        o := fs.Call();
        if o.Completed? {
          o := fs.Call();
        }
      }
    }
    if removeTmp && !o.Crashed? {
      var ignored := fs.Remove(tmp);
      if ignored.Crashed? {
        o := Crashed;
      }
    }
  }

  // ---------- lock directories ----------

  class DirLock {
    const path: string
    var held: bool

    constructor (path: string)
      ensures this.path == path && held
    {
      this.path := path;
      this.held := true;
    }

    /**
     * Release: only a held handle touches the directory, so a second Release cannot take the lock from
     * whoever has it by then; a handle whose removal failed stays held.
     */
    method Release(fs: FileSystem) returns (o: Outcome)
      modifies this`held, fs`dirs, fs`faults
      ensures old(held) && path in old(fs.dirs) && fs.faults == old(fs.faults) ==> o.Completed?
      ensures !old(held) ==> o.Completed? && !held && fs.dirs == old(fs.dirs)
      ensures old(held) && o.Completed? ==> !held && path in old(fs.dirs) && fs.dirs == old(fs.dirs) - {path}
      ensures old(held) && !o.Completed? ==> held && fs.dirs == old(fs.dirs)
    {
      if !held {
        return Completed;
      }
      o := fs.Rmdir(path);
      if o.Completed? {
        held := false;
      }
    }
  }

  /** AcquireLock: creating the directory is the lock; one that exists is held by somebody. */
  method AcquireLock(fs: FileSystem, path: string) returns (r: Result<DirLock, Error>)
    modifies fs`dirs, fs`faults
    ensures fs.faults == old(fs.faults) ==>
              if path in old(fs.dirs) then r == Err(LockHeld) else r.Ok?
    ensures r.Ok? ==> path !in old(fs.dirs) && fs.dirs == old(fs.dirs) + {path}
    ensures r.Ok? ==> fresh(r.value) && r.value.path == path && r.value.held
    ensures r.Err? ==> fs.dirs == old(fs.dirs) && (r.error == LockHeld || r.error == IoError)
    ensures r == Err(LockHeld) ==> path in old(fs.dirs)
    ensures path in old(fs.dirs) ==> r.Err?
  {
    var o := fs.Call();
    if !o.Completed? {
      return Err(IoError);
    }
    if path in fs.dirs {
      return Err(LockHeld);
    }
    o := fs.Mkdir(path);
    if !o.Completed? {
      return Err(IoError);
    }
    var lock := new DirLock(path);
    r := Ok(lock);
  }
}
