/** Writing a file through a staging sibling and a rename, with faults and crashes. */
module AtomicWrite {
  import opened Common

  type Bytes = seq<bv8>
  type Files = map<string, Bytes>

  /** `foo.bin` -> `foo.bin.tmp.a1b2c3d4`. */
  function TmpSibling(path: string, suffix: string): string { path + ".tmp." + suffix }

  lemma TmpDiffers(path: string, suffix: string)
    ensures TmpSibling(path, suffix) != path
  {
    assert |TmpSibling(path, suffix)| > |path|;
  }

  /** Writers with different suffixes never share a staging file. */
  lemma StagingNamesDiffer(path: string, a: string, b: string)
    requires a != b
    ensures TmpSibling(path, a) != TmpSibling(path, b)
  {
    assert TmpSibling(path, a)[|path| + 5..] == a && TmpSibling(path, b)[|path| + 5..] == b;
  }

  predicate SameAt(f: Files, g: Files, p: string) { (p in f <==> p in g) && (p in f ==> f[p] == g[p]) }

  /** The two disks agree everywhere but possibly at `p`. */
  ghost predicate SameBut(f: Files, g: Files, p: string) { forall q :: q != p ==> SameAt(f, g, q) }

  lemma SameButTrans(f: Files, g: Files, h: Files, p: string)
    requires SameBut(f, g, p) && SameBut(g, h, p)
    ensures SameBut(f, h, p)
  {
    forall q | q != p ensures SameAt(f, h, q) { assert SameAt(f, g, q) && SameAt(g, h, q); }
  }

  /** Unlinking a file that was not there before restores a disk that differs only in it. */
  lemma CleanUp(f: Files, before: Files, p: string)
    requires SameBut(f, before, p) && p !in before
    ensures f - {p} == before
  {
    forall q | q != p ensures SameAt(f, before, q) {}
    assert forall q :: q in f - {p} <==> q in before by {
      forall q ensures q in f - {p} <==> q in before { assert q != p ==> SameAt(f, before, q); }
    }
    forall q | q in before ensures (f - {p})[q] == before[q] { assert SameAt(f, before, q); }
  }

  /** A file system whose `history` records every state a crash could leave behind. */
  class Disk {
    var files: Files
    ghost var history: seq<Files>

    constructor (files: Files)
      ensures this.files == files && history == []
    {
      this.files := files;
      history := [];
    }

    /** `write`: create or empty the file, then fill it; `room` is where the disk runs full. */
    method Write(path: string, bytes: Bytes, room: Option<nat>) returns (ok: bool)
      modifies this
      ensures ok <==> room.None?
      ensures ok ==> files == old(files)[path := bytes]
      ensures SameBut(files, old(files), path)
      ensures old(history) <= history
      ensures forall i :: |old(history)| <= i < |history| ==> SameBut(history[i], old(files), path)
    {
      files := files[path := []];
      history := history + [files];
      for k := 0 to |bytes|
        invariant files == old(files)[path := bytes[..k]]
        invariant old(history) <= history
        invariant forall i :: |old(history)| <= i < |history| ==> SameBut(history[i], old(files), path)
      {
        if room == Some(k) { return false; }
        files := files[path := bytes[..k + 1]];
        history := history + [files];
      }
      assert bytes[..|bytes|] == bytes;
      ok := room.None?;
    }

    /** `rename`: replaces the target in one step, or does nothing. */
    method Rename(src: string, dst: string, fails: bool) returns (ok: bool)
      requires src in files && src != dst
      modifies this
      ensures ok == !fails
      ensures files == if ok then old(files)[dst := old(files)[src]] - {src} else old(files)
      ensures history == old(history) + [files]
    {
      if !fails { files := files[dst := files[src]] - {src}; }
      history := history + [files];
      ok := !fails;
    }

    method Remove(path: string, fails: bool) returns (ok: bool)
      modifies this
      ensures ok == !fails
      ensures files == if ok then old(files) - {path} else old(files)
      ensures history == old(history) + [files]
    {
      if !fails { files := files - {path}; }
      history := history + [files];
      ok := !fails;
    }
  }

  /** A staging file that is removed unless it was renamed into place. */
  class Staged {
    const path: string
    var committed: bool

    constructor (dest: string, suffix: string)
      ensures path == TmpSibling(dest, suffix) && !committed
    {
      path := TmpSibling(dest, suffix);
      committed := false;
    }

    method Commit()
      modifies this
      ensures committed
    {
      committed := true;
    }

    /** Runs when the value goes out of scope. */
    method Drop(disk: Disk, unlinkFails: bool)
      modifies disk
      ensures committed ==> disk.files == old(disk.files) && disk.history == old(disk.history)
      ensures !committed && !unlinkFails ==> disk.files == old(disk.files) - {path}
      ensures SameBut(disk.files, old(disk.files), path)
      ensures disk.history == old(disk.history) || disk.history == old(disk.history) + [disk.files]
    {
      if !committed { var _ := disk.Remove(path, unlinkFails); }
    }
  }

  /** The states in which a crash can find the disk: the target untouched, or completely replaced. */
  ghost predicate OldOrNew(f: Files, before: Files, path: string, bytes: Bytes, tmp: string) {
    SameBut(f, before, tmp) || f == before[path := bytes]
  }

  /** What goes wrong: the disk fills up after some bytes, or the rename is refused. */
  datatype Fault = NoFault | WriteFault(room: nat) | RenameFault

  /**
   Whatever fails, and wherever a crash stops it, the target holds its old or its new content in full and
   no other file but the staging one changes; on return the staging file is gone if it could be unlinked.
   */
  method AtomicWriteFile(disk: Disk, path: string, bytes: Bytes, suffix: string, fault: Fault, unlinkFails: bool)
    returns (ok: bool)
    requires TmpSibling(path, suffix) !in disk.files
    modifies disk
    ensures ok <==> fault.NoFault?
    ensures ok ==> disk.files == old(disk.files)[path := bytes]
    ensures !ok && !unlinkFails ==> disk.files == old(disk.files)
    ensures !ok ==> SameBut(disk.files, old(disk.files), TmpSibling(path, suffix))
    ensures old(disk.history) <= disk.history
    ensures forall i :: |old(disk.history)| <= i < |disk.history| ==>
              OldOrNew(disk.history[i], old(disk.files), path, bytes, TmpSibling(path, suffix))
  {
    TmpDiffers(path, suffix);
    var staged := new Staged(path, suffix);
    ok := disk.Write(staged.path, bytes, if fault.WriteFault? then Some(fault.room) else None);
    if ok {
      ok := disk.Rename(staged.path, path, fault.RenameFault?);
      if ok { staged.Commit(); }
    }
    ghost var f := disk.files;
    staged.Drop(disk, unlinkFails);
    if !ok {
      CleanUp(f, old(disk.files), staged.path);
      SameButTrans(disk.files, f, old(disk.files), staged.path);
    }
  }

  /** After a crash at any recorded point the target reads as before or as intended, never in part. */
  lemma CrashLeavesOldOrNew(f: Files, before: Files, path: string, bytes: Bytes, suffix: string)
    requires OldOrNew(f, before, path, bytes, TmpSibling(path, suffix))
    ensures SameAt(f, before, path) || (path in f && f[path] == bytes)
    ensures forall q :: q != path && q != TmpSibling(path, suffix) ==> SameAt(f, before, q)
  {
    TmpDiffers(path, suffix);
  }
}
