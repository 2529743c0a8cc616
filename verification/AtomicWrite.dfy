/** Replacing a file through a flushed temporary file, under crashes at any point. */
module AtomicWrite {
  import opened Text

  // A file's bytes, and whether they have reached the disk.
  datatype File = File(data: string, flushed: bool)

  type Files = map<string, File>

  // What can be found after a crash: a flushed file is as it was, any other may hold anything.
  ghost predicate Survives(before: Files, after: Files) {
    && after.Keys == before.Keys
    && forall p :: p in before && before[p].flushed ==> after[p].data == before[p].data
  }

  // After a crash in this state the path holds its old content or all of the new one.
  ghost predicate CrashSafe(files: Files, path: string, was: Option<string>, data: string) {
    forall after: Files :: Survives(files, after) ==>
      || (path in after && after[path].data == data)
      || (was.Some? && path in after && after[path].data == was.value)
      || (was.None? && path !in after)
  }

  function ContentOf(files: Files, path: string): Option<string> {
    if path in files then Some(files[path].data) else None
  }

  // Does nothing, changes the file, or fails half-way.
  datatype Answer = Done | Failed

  class FileSystem {
    var files: Files
    // Every state between two operations.
    ghost var trace: seq<Files>

    ghost predicate Valid()
      reads this
    {
      trace != [] && trace[|trace| - 1] == files
    }

    constructor (files: Files)
      ensures Valid() && this.files == files && trace == [files]
    {
      this.files, trace := files, [files];
    }

    method Put(path: string, file: File)
      requires Valid()
      modifies this
      ensures Valid() && files == old(files)[path := file] && trace == old(trace) + [files]
    {
      files := files[path := file];
      trace := trace + [files];
    }

    // `open(path, "w")`
    method Open(path: string) returns (answer: Answer)
      requires Valid()
      modifies this
      ensures Valid()
      ensures answer.Done? ==> files == old(files)[path := File("", false)] && trace == old(trace) + [files]
      ensures answer.Failed? ==> unchanged(this)
    {
      if * {
        return Failed;
      }
      Put(path, File("", false));
      return Done;
    }

    // Writes the data, or a part of it before failing.
    method WriteFile(path: string, data: string) returns (answer: Answer)
      requires Valid()
      modifies this
      ensures Valid() && path in files && !files[path].flushed
      ensures files == old(files)[path := files[path]] && trace == old(trace) + [files]
      ensures answer.Done? ==> files[path].data == data
    {
      if * {
        var n :| 0 <= n <= |data|;
        Put(path, File(data[..n], false));
        return Failed;
      }
      Put(path, File(data, false));
      return Done;
    }

    // `fsync`
    method Sync(path: string) returns (answer: Answer)
      requires Valid() && path in files
      modifies this
      ensures Valid()
      ensures answer.Done? ==> files == old(files)[path := old(files)[path].(flushed := true)] && trace == old(trace) + [files]
      ensures answer.Failed? ==> unchanged(this)
    {
      if * {
        return Failed;
      }
      Put(path, files[path].(flushed := true));
      return Done;
    }

    // `rename`: atomic within a file system.
    method Rename(from: string, to: string) returns (answer: Answer)
      requires Valid() && from in files
      modifies this
      ensures Valid()
      ensures answer.Done? ==> files == (old(files) - {from})[to := old(files)[from]] && trace == old(trace) + [files]
      ensures answer.Failed? ==> unchanged(this)
    {
      if * {
        return Failed;
      }
      files := (files - {from})[to := files[from]];
      trace := trace + [files];
      return Done;
    }

    // `atomicWriteFileWith`: on success the path holds the data; on failure it is as it was; and
    // a crash between any two operations leaves the old content or the new, never a part.
    method AtomicWriteFileWith(path: string, tmpPath: string, data: string) returns (answer: Answer)
      requires Valid() && tmpPath != path && tmpPath !in files
      requires path in files ==> files[path].flushed
      modifies this
      ensures Valid() && old(trace) <= trace
      ensures ContentOf(files, path) == if answer.Done? then Some(data) else old(ContentOf(files, path))
      ensures answer.Done? ==> files[path].flushed
      ensures forall p :: p != path && p != tmpPath ==> ContentOf(files, p) == old(ContentOf(files, p))
      ensures forall i :: |old(trace)| <= i < |trace| ==> CrashSafe(trace[i], path, old(ContentOf(files, path)), data)
    {
      hide CrashSafe;
      ghost var was := ContentOf(files, path);
      answer := Open(tmpPath);
      if answer.Failed? {
        return;
      }
      CrashSafeIff(files, path, was, data);
      answer := WriteFile(tmpPath, data);
      CrashSafeIff(files, path, was, data);
      if answer.Failed? {
        return;
      }
      answer := Sync(tmpPath);
      if answer.Failed? {
        return;
      }
      CrashSafeIff(files, path, was, data);
      answer := Rename(tmpPath, path);
      if answer.Done? {
        CrashSafeIff(files, path, was, data);
      }
    }
  }

  // A state is safe exactly when the path is flushed with the old content or the new, or missing
  // as it was: a rename before the flush, or a write in place, is not.
  lemma CrashSafeIff(files: Files, path: string, was: Option<string>, data: string)
    ensures CrashSafe(files, path, was, data) <==>
            if path in files then files[path].flushed && (files[path].data == data || was == Some(files[path].data))
            else was.None?
  {
    if path in files && files[path].flushed {
      forall after: Files | Survives(files, after)
        ensures path in after && after[path].data == files[path].data
      {
        assert path in after.Keys;
      }
      assert Survives(files, files);
    } else if path in files {
      Torn(files, path, was, data);
    } else {
      forall after: Files | Survives(files, after)
        ensures path !in after
      {
        assert path !in after.Keys;
      }
      assert Survives(files, files);
    }
  }

  lemma Torn(files: Files, path: string, was: Option<string>, data: string)
    requires path in files && !files[path].flushed
    ensures !CrashSafe(files, path, was, data)
  {
    var torn := data + (if was.Some? then was.value else "") + "x";
    assert |torn| > |data| && (was.Some? ==> |torn| > |was.value|);
    var after := files[path := File(torn, false)];
    assert after.Keys == files.Keys;
    assert Survives(files, after);
  }
}
