/** `resolve_input` as one undisturbed call, over the `inputs` table and the disk. */
module InputResolve {
  import opened Common
  import opened InputTable
  import opened AtomicWrite
  import opened InputCache

  /** Whatever stands at a cache path hashes to the name of that path. */
  ghost predicate Matching(hash: Bytes -> string, f: Files) {
    forall sha, path :: path in f && IsSha(sha) && IsCachePathOf(sha, path) ==> hash(f[path]) == sha
  }

  /** Some row for the hash points at a file that exists. */
  ghost predicate IsCached(t: Inputs, f: Files, sha: string) {
    exists id :: IsRowOf(t, sha, id) && t[id].path.Some? && t[id].path.value in f
  }

  /** The row is there, stamped, and its file is on disk with the right content. */
  predicate Usable(hash: Bytes -> string, t: Inputs, f: Files, ask: Ask, id: int) {
    && IsRowOf(t, ask.sha, id) && t[id].lastUsedAt == ask.now
    && t[id].path.Some? && t[id].path.value in f && hash(f[t[id].path.value]) == ask.sha
  }

  ghost predicate OtherRowsKept(t: Inputs, t': Inputs, sha: string) {
    && (forall id :: id in t ==> id in t' && (t[id].sha256 != sha ==> t'[id] == t[id]))
    && (forall id :: id in t' && id !in t ==> t'[id].sha256 == sha)
  }

  lemma OnlyRowOfItsHash(t: Inputs, f: Files, sha: string, id: int)
    requires ShasAreUnique(t) && IsRowOf(t, sha, id)
    ensures IsCached(t, f, sha) <==> t[id].path.Some? && t[id].path.value in f
  {
  }

  /** Putting the checked bytes at their own place keeps every file true to its name. */
  lemma PutKeepsMatching(hash: Bytes -> string, f: Files, ask: Ask)
    requires Matching(hash, f) && IsSha(ask.sha) && ask.upload.Some? && IsExt(ask.upload.value.ext)
    requires hash(ask.upload.value.bytes) == ask.sha
    ensures Matching(hash, f[Target(ask) := ask.upload.value.bytes]) && IsCachePathOf(ask.sha, Target(ask))
  {
    forall sha | IsSha(sha) && IsCachePathOf(sha, Target(ask)) ensures sha == ask.sha {
      CachePathOwner(sha, ask.sha, Target(ask));
    }
  }

  /** Debris of a failed write is no cache file. */
  lemma DebrisKeepsMatching(hash: Bytes -> string, f: Files, f': Files, ask: Ask, suffix: string)
    requires Matching(hash, f) && IsSha(ask.sha) && ask.upload.Some? && IsExt(ask.upload.value.ext)
    requires SameBut(f', f, TmpSibling(Target(ask), suffix))
    ensures Matching(hash, f')
  {
    var tmp := TmpSibling(Target(ask), suffix);
    CachePathAt(ask.sha, Target(ask));
    forall sha, path | path in f' && IsSha(sha) && IsCachePathOf(sha, path) ensures hash(f'[path]) == sha {
      CachePathAt(sha, path);
      assert path != tmp ==> SameAt(f', f, path);
    }
  }

  /**
   What a call with nobody else about does to table `t` and disk `f`. `newId` is the row id an INSERT would
   get, `fault` what goes wrong while writing the file, and `unlinkFails` whether its debris stays.
   */
  ghost predicate Resolves(hash: Bytes -> string, t: Inputs, f: Files, ask: Ask, newId: int, suffix: string,
                           fault: Fault, unlinkFails: bool, reply: Reply, t': Inputs, f': Files)
  {
    && OtherRowsKept(t, t', ask.sha)
    // which answer it is
    && (reply.HashMismatch? <==> ask.upload.Some? && hash(ask.upload.value.bytes) != ask.sha)
    && (reply.NeedUpload? <==> ask.upload.None? && !IsCached(t, f, ask.sha))
    && (reply.Internal? <==>
         && ask.upload.Some? && hash(ask.upload.value.bytes) == ask.sha
         && !IsCached(t, f, ask.sha) && !fault.NoFault?)
    // a hit is stamped; an upload is put in place, for the known row or for one of its own
    && (reply.Resolved? ==> Usable(hash, t', f', ask, reply.id))
    && (reply.Resolved? && IsCached(t, f, ask.sha) ==>
         reply.id in t && t' == t[reply.id := t[reply.id].(lastUsedAt := ask.now)] && f' == f)
    && (reply.Resolved? && !IsCached(t, f, ask.sha) ==>
         && ask.upload.Some? && f' == f[Target(ask) := ask.upload.value.bytes]
         && if reply.id in t
            then t'[reply.id] == t[reply.id].(path := Some(Target(ask)), lastUsedAt := ask.now)
            else reply.id == newId && t' == t[newId := Input(ask.sha, Some(Target(ask)), ask.now, ask.now)])
    // a row whose file is missing is demoted, and the answer names the row
    && (reply.NeedUpload? || reply.Internal? ==>
         t'.Keys == t.Keys && forall id :: IsRowOf(t, ask.sha, id) ==> t'[id] == t[id].(path := None))
    && (reply.NeedUpload? ==>
         f' == f && if reply.known.Some? then IsRowOf(t, ask.sha, reply.known.value) else Insertable(t, ask.sha))
    && (reply.HashMismatch? ==> t' == t && f' == f)
    && (reply.Internal? ==> SameBut(f', f, TmpSibling(Target(ask), suffix)) && (!unlinkFails ==> f' == f))
  }

  class Cache {
    var inputs: Inputs
    const disk: Disk
    const hash: Bytes -> string

    constructor (disk: Disk, hash: Bytes -> string)
      ensures inputs == map[] && this.disk == disk && this.hash == hash
    {
      inputs := map[];
      this.disk, this.hash := disk, hash;
    }

    ghost predicate Valid()
      reads this, disk
    {
      WellNamedInputs(inputs) && Matching(hash, disk.files)
    }

    method SelectBySha(sha: string) returns (row: Option<int>)
      ensures row.Some? ==> IsRowOf(inputs, sha, row.value)
      ensures row.None? ==> Insertable(inputs, sha)
    {
      if id :| id in inputs && inputs[id].sha256 == sha { return Some(id); }
      return None;
    }

    method ResolveInput(ask: Ask, newId: int, suffix: string, fault: Fault, unlinkFails: bool) returns (reply: Reply)
      requires Valid() && newId !in inputs
      requires IsSha(ask.sha) && (ask.upload.Some? ==> IsExt(ask.upload.value.ext))
      requires ask.upload.Some? ==> TmpSibling(Target(ask), suffix) !in disk.files
      modifies this, disk
      ensures Valid()
      ensures Resolves(hash, old(inputs), old(disk.files), ask, newId, suffix, fault, unlinkFails,
                       reply, inputs, disk.files)
    {
      if ask.upload.Some? && hash(ask.upload.value.bytes) != ask.sha { return HashMismatch; }
      var existing := SelectBySha(ask.sha);
      if existing.Some? {
        OnlyRowOfItsHash(inputs, disk.files, ask.sha, existing.value);
        if inputs[existing.value].path.Some? {
          var path := inputs[existing.value].path.value;
          if path in disk.files {
            inputs := Stamp(inputs, existing.value, ask.now);
            return Resolved(existing.value);
          }
          inputs := ClearPath(inputs, existing.value);
        }
      }
      if ask.upload.None? { return NeedUpload(existing); }
      ghost var before := disk.files;
      var ok := AtomicWriteFile(disk, Target(ask), ask.upload.value.bytes, suffix, fault, unlinkFails);
      PutKeepsMatching(hash, before, ask);
      if !ok {
        DebrisKeepsMatching(hash, before, disk.files, ask, suffix);
        return Internal;
      }
      if existing.Some? {
        inputs := StorePath(inputs, existing.value, Target(ask), ask.now);
        return Resolved(existing.value);
      }
      inputs := InsertInput(inputs, newId, ask.sha, Target(ask), ask.now);
      return Resolved(newId);
    }
  }
}
