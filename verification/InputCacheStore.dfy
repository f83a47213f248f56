/** The input cache refines a plain map from hashes to bytes. */
module InputCacheStore {
  import opened InputTable
  import opened AtomicWrite
  import opened InputCache
  import opened InputCacheInvariant

  /** The specification: a map to which hashed bytes are added, and from which entries vanish. */
  datatype Change = Same | Put(sha: string, bytes: Bytes) | Evict(sha: string)

  ghost function Apply(store: imap<string, Bytes>, c: Change): imap<string, Bytes> {
    match c
    case Same => store
    case Put(sha, bytes) => store[sha := bytes]
    case Evict(sha) => imap k | k in store && k != sha :: store[k]
  }

  predicate Present(f: Files, sha: string) { CachePath(sha, "jpg") in f || CachePath(sha, "png") in f }

  function Content(f: Files, sha: string): Bytes
    requires Present(f, sha)
  {
    if CachePath(sha, "jpg") in f then f[CachePath(sha, "jpg")] else f[CachePath(sha, "png")]
  }

  /** What the cache holds, under either file extension. */
  ghost function StoreOf(f: Files): imap<string, Bytes> {
    imap sha | IsSha(sha) && Present(f, sha) :: Content(f, sha)
  }

  /** No two images that were ever uploaded have the same hash. */
  ghost predicate CollisionFree(s: State) {
    forall a, b :: a in s.blobs && b in s.blobs && s.hash(a) == s.hash(b) ==> a == b
  }

  /** The path is the place of some hash. */
  predicate IsCachePath(path: string) { |path| == 81 && IsSha(path[13..77]) && IsCachePathOf(path[13..77], path) }

  lemma CachePathsAreThese(sha: string, path: string)
    requires IsSha(sha) && IsCachePathOf(sha, path)
    ensures IsCachePath(path) && path[13..77] == sha
  {
    CachePathAt(sha, path);
  }

  /** What losing the file at `path` means to the store: nothing if it was no cache file or a twin remains. */
  function Loss(f: Files, path: string): Change {
    if path in f && IsCachePath(path) && !Present(f - {path}, path[13..77]) then Evict(path[13..77]) else Same
  }

  /** The change of the store that a step of the service is. */
  function Effect(s: State, e: Event): Change
    requires Enabled(s, e)
  {
    if e.C? && e.ce.Rename? && s.calls[e.h].tmp in s.files then
      Put(s.calls[e.h].ask.sha, s.calls[e.h].ask.upload.value.bytes)
    else if e.SweepUnlink? && e.ok then Loss(s.files, s.sweep.todo[0].path)
    else if e.Lose? then Loss(s.files, e.path)
    else Same
  }

  /** Every file of a hash holds the hash's one image. */
  lemma TwinsAgree(s: State, sha: string, path: string)
    requires Sound(s) && CollisionFree(s) && IsSha(sha) && IsCachePathOf(sha, path) && path in s.files
    ensures Present(s.files, sha) && Content(s.files, sha) == s.files[path]
  {
    assert IsCachePathOf(sha, CachePath(sha, "jpg")) && IsCachePathOf(sha, CachePath(sha, "png"));
  }

  predicate SameEntry(f: Files, f': Files, sha: string) {
    Present(f', sha) == Present(f, sha) && (Present(f, sha) ==> Content(f', sha) == Content(f, sha))
  }

  /** A hash none of whose places changed keeps its entry. */
  lemma EntryFrame(f: Files, f': Files, sha: string)
    requires forall p :: IsCachePathOf(sha, p) ==> (p in f <==> p in f') && (p in f ==> f'[p] == f[p])
    ensures SameEntry(f, f', sha)
  {
    assert IsCachePathOf(sha, CachePath(sha, "jpg")) && IsCachePathOf(sha, CachePath(sha, "png"));
  }

  lemma SameStore(f: Files, f': Files)
    requires forall sha :: IsSha(sha) ==> SameEntry(f, f', sha)
    ensures StoreOf(f') == StoreOf(f)
  {
  }

  /** Files off the cache paths do not show in the store. */
  lemma OffCache(f: Files, f': Files, p: string)
    requires !IsCachePath(p)
    requires forall q :: q != p ==> (q in f <==> q in f') && (q in f ==> f'[q] == f[q])
    ensures StoreOf(f') == StoreOf(f)
  {
    forall sha | IsSha(sha) ensures SameEntry(f, f', sha) {
      if IsCachePathOf(sha, p) { CachePathsAreThese(sha, p); }
      EntryFrame(f, f', sha);
    }
    SameStore(f, f');
  }

  lemma OtherLoss(f: Files, path: string, sha: string, k: string)
    requires IsSha(sha) && IsSha(k) && k != sha && IsCachePathOf(sha, path)
    ensures SameEntry(f, f - {path}, k)
  {
    if IsCachePathOf(k, path) { CachePathOwner(k, sha, path); }
    EntryFrame(f, f - {path}, k);
  }

  lemma TwinStays(s: State, path: string, sha: string)
    requires Sound(s) && CollisionFree(s) && IsSha(sha) && IsCachePathOf(sha, path) && path in s.files
    requires Present(s.files - {path}, sha)
    ensures SameEntry(s.files, s.files - {path}, sha)
  {
    TwinsAgree(s, sha, path);
    if CachePath(sha, "jpg") in s.files { TwinsAgree(s, sha, CachePath(sha, "jpg")); }
    if CachePath(sha, "png") in s.files { TwinsAgree(s, sha, CachePath(sha, "png")); }
  }

  lemma LossIs(s: State, path: string)
    requires Sound(s) && CollisionFree(s)
    ensures StoreOf(s.files - {path}) == Apply(StoreOf(s.files), Loss(s.files, path))
  {
    var f, f' := s.files, s.files - {path};
    if !IsCachePath(path) {
      OffCache(f, f', path);
    } else if path !in f {
      assert f' == f;
    } else {
      var sha := path[13..77];
      forall k | IsSha(k) && k != sha ensures SameEntry(f, f', k) { OtherLoss(f, path, sha, k); }
      if Present(f', sha) {
        TwinStays(s, path, sha);
        SameStore(f, f');
      }
    }
  }

  lemma RenamePuts(s: State, h: nat)
    requires Sound(s) && CollisionFree(s) && CallEnabled(s, h, Rename) && s.calls[h].tmp in s.files
    ensures var sha, f := s.calls[h].ask.sha, RenameNext(s, h).files;
      IsSha(sha) && Present(f, sha) && Content(f, sha) == s.calls[h].ask.upload.value.bytes
  {
    var c := s.calls[h];
    var bytes := c.ask.upload.value.bytes;
    assert bytes[..|bytes|] == bytes;
    TargetLength(c.ask);
    CachePathAt(c.ask.sha, CachePath(c.ask.sha, "jpg"));
    if CachePath(c.ask.sha, "jpg") in s.files { assert IsCachePathOf(c.ask.sha, CachePath(c.ask.sha, "jpg")); }
  }

  lemma RenameKeepsOthers(s: State, h: nat, k: string)
    requires Sound(s) && CallEnabled(s, h, Rename) && s.calls[h].tmp in s.files
    requires IsSha(k) && k != s.calls[h].ask.sha
    ensures SameEntry(s.files, RenameNext(s, h).files, k)
  {
    var c := s.calls[h];
    TargetLength(c.ask);
    if IsCachePathOf(k, Target(c.ask)) { CachePathOwner(k, c.ask.sha, Target(c.ask)); }
    forall p | IsCachePathOf(k, p) ensures p != c.tmp { CachePathAt(k, p); }
    EntryFrame(s.files, RenameNext(s, h).files, k);
  }

  lemma RenameIs(s: State, h: nat)
    requires Sound(s) && CollisionFree(s) && CallEnabled(s, h, Rename) && s.calls[h].tmp in s.files
    ensures var c := s.calls[h];
      StoreOf(RenameNext(s, h).files) == Apply(StoreOf(s.files), Put(c.ask.sha, c.ask.upload.value.bytes))
  {
    var f, f' := s.files, RenameNext(s, h).files;
    RenamePuts(s, h);
    forall k | IsSha(k) && k != s.calls[h].ask.sha ensures SameEntry(f, f', k) { RenameKeepsOthers(s, h, k); }
  }

  /** The staging file a call's step writes or removes is no cache file. */
  lemma StagingIsOffCache(s: State, h: nat, e: CallEvent)
    requires Sound(s) && CallEnabled(s, h, e) && !e.Rename?
    ensures StoreOf(CallNext(s, h, e).files) == StoreOf(s.files)
  {
    var f, f' := s.files, CallNext(s, h, e).files;
    if e.Open? {
      TargetLength(s.calls[h].ask);
      OffCache(f, f', TmpSibling(Target(s.calls[h].ask), e.suffix));
    } else if e.Fill? || ((e.FailWrite? || e.Drop?) && s.calls[h].Staging?) {
      assert CallOk(s, s.calls[h]);
      OffCache(f, f', s.calls[h].tmp);
    }
  }

  /** Each step does to the store exactly what its effect says, and only hashed bytes are ever put. */
  lemma StepRefines(s: State, e: Event)
    requires Sound(s) && CollisionFree(s) && Enabled(s, e)
    ensures StoreOf(Next(s, e).files) == Apply(StoreOf(s.files), Effect(s, e))
    ensures Effect(s, e).Put? ==> s.hash(Effect(s, e).bytes) == Effect(s, e).sha
  {
    if e.C? && e.ce.Rename? {
      if s.calls[e.h].tmp in s.files { RenameIs(s, e.h); }
    } else if e.C? {
      StagingIsOffCache(s, e.h, e.ce);
    } else if e.SweepUnlink? && e.ok {
      LossIs(s, s.sweep.todo[0].path);
    } else if e.Lose? {
      LossIs(s, e.path);
    }
  }

  function Effects(hash: Bytes -> string, run: seq<Event>): seq<Change>
    requires Legal(Init(hash), run)
  {
    if run == [] then []
    else
      var front := run[..|run| - 1];
      Effects(hash, front) + [Effect(After(Init(hash), front), run[|run| - 1])]
  }

  ghost function Replay(cs: seq<Change>): imap<string, Bytes> {
    if cs == [] then imap[] else Apply(Replay(cs[..|cs| - 1]), cs[|cs| - 1])
  }

  /**
   Through uploads, evictions, outside deletion and crashes in any order, the cache directory is a plain
   store from hashes to bytes, changed only by putting bytes under their own hash and by losing entries.
   */
  lemma {:induction false} CacheIsAPlainStore(hash: Bytes -> string, run: seq<Event>)
    requires Legal(Init(hash), run) && CollisionFree(After(Init(hash), run))
    ensures StoreOf(After(Init(hash), run).files) == Replay(Effects(hash, run))
    ensures forall c :: c in Effects(hash, run) && c.Put? ==> hash(c.bytes) == c.sha
  {
    if run != [] {
      var front, e := run[..|run| - 1], run[|run| - 1];
      var s := After(Init(hash), front);
      AlwaysSound(hash, front);
      StepGrows(s, e);
      CacheIsAPlainStore(hash, front);
      StepRefines(s, e);
      var cs := Effects(hash, run);
      assert cs[..|cs| - 1] == Effects(hash, front);
    }
  }

  /** The worker reads what the plain store has, whichever row or file extension it went through. */
  lemma ReadIsALookup(s: State)
    requires Sound(s) && CollisionFree(s) && Enabled(s, ReadFile) && Next(s, ReadFile).reader.GotBytes?
    ensures s.reader.sha in StoreOf(s.files) && Next(s, ReadFile).reader.bytes == StoreOf(s.files)[s.reader.sha]
  {
    TwinsAgree(s, s.reader.sha, s.reader.path);
  }

  /** What `metadata` answers in `resolve_input`: a hit is an entry of the plain store. */
  lemma HitIsAnEntry(s: State, h: nat)
    requires Sound(s) && CallEnabled(s, h, Stat) && CallNext(s, h, Stat).calls[h].Stamping?
    ensures s.calls[h].ask.sha in StoreOf(s.files)
  {
    assert CallOk(s, s.calls[h]);
  }
}
