/** What every step of the input cache keeps, and what a read of it can return. */
module InputCacheInvariant {
  import opened InputTable
  import opened AtomicWrite
  import opened InputCache

  /** Whatever stands at a cache path hashes to the name of that path. */
  ghost predicate FilesMatchTheirNames(s: State) {
    forall sha, path :: path in s.files && IsSha(sha) && IsCachePathOf(sha, path) ==>
      s.hash(s.files[path]) == sha && s.files[path] in s.blobs
  }

  /** The request was checked: attached bytes have the hash they were announced with. */
  predicate Checked(s: State, ask: Ask) {
    && IsSha(ask.sha)
    && (ask.upload.Some? ==>
         IsExt(ask.upload.value.ext) && s.hash(ask.upload.value.bytes) == ask.sha && ask.upload.value.bytes in s.blobs)
  }

  predicate CallOk(s: State, c: Call) {
    && (c.Answered? || Checked(s, c.ask))
    && (c.Statting? ==> IsRowOf(s.inputs, c.ask.sha, c.id) && IsCachePathOf(c.ask.sha, c.path))
    && (c.Stamping? || c.Demoting? ==> IsRowOf(s.inputs, c.ask.sha, c.id))
    && (c.Uploading? || c.Staging? || c.Recording? ==>
         c.ask.upload.Some? && (c.row.Some? ==> IsRowOf(s.inputs, c.ask.sha, c.row.value)))
    && (c.Staging? ==>
         && |c.tmp| > 81 && c.filled <= |c.ask.upload.value.bytes|
         && (c.tmp in s.files ==> s.files[c.tmp] == c.ask.upload.value.bytes[..c.filled]))
    && (c.Answered? && c.reply.Resolved? ==> IsRowOf(s.inputs, c.ask.sha, c.reply.id))
    && (c.Answered? && c.reply.NeedUpload? ==> c.ask.upload.None?)
  }

  predicate StagingApart(s: State) {
    forall h, h' :: h in s.calls && h' in s.calls && h != h' && s.calls[h].Staging? && s.calls[h'].Staging? ==>
      s.calls[h].tmp != s.calls[h'].tmp
  }

  predicate SweepOk(s: State) {
    s.sweep.Sweeping? ==> forall i :: 0 <= i < |s.sweep.todo| ==>
      s.sweep.todo[i].id in s.inputs && IsCachePathOf(s.inputs[s.sweep.todo[i].id].sha256, s.sweep.todo[i].path)
  }

  predicate ReaderOk(s: State) {
    && (s.reader.GotPath? ==>
         && IsSha(s.reader.sha) && IsRowOf(s.inputs, s.reader.sha, s.reader.id)
         && IsCachePathOf(s.reader.sha, s.reader.path))
    && (s.reader.GotBytes? ==>
         && IsRowOf(s.inputs, s.reader.sha, s.reader.id)
         && s.hash(s.reader.bytes) == s.reader.sha && s.reader.bytes in s.blobs)
  }

  ghost predicate Sound(s: State) {
    && WellNamedInputs(s.inputs)
    && FilesMatchTheirNames(s)
    && (forall h :: h in s.calls ==> CallOk(s, s.calls[h]))
    && StagingApart(s)
    && SweepOk(s)
    && ReaderOk(s)
  }

  // ------------------------------ frames -------------------------------

  /** Rows are never removed and never change their hash; uploads are only added to. */
  ghost predicate Grows(s: State, s': State) {
    && s'.hash == s.hash && s.blobs <= s'.blobs
    && forall id :: id in s.inputs ==> id in s'.inputs && s'.inputs[id].sha256 == s.inputs[id].sha256
  }

  lemma StepGrows(s: State, e: Event)
    requires Enabled(s, e)
    ensures Grows(s, Next(s, e))
  {
  }

  /** A file that is not at `p` is as it was, or gone. */
  ghost predicate OnlyFile(f: Files, f': Files, p: string) {
    forall q :: q in f' && q != p ==> q in f && f'[q] == f[q]
  }

  lemma CallFrame(s: State, s': State, c: Call, p: string)
    requires CallOk(s, c) && Grows(s, s') && OnlyFile(s.files, s'.files, p)
    requires c.Staging? ==> c.tmp != p
    ensures CallOk(s', c)
  {
  }

  lemma FilesFrame(s: State, s': State, p: string)
    requires FilesMatchTheirNames(s) && s'.hash == s.hash && s.blobs <= s'.blobs && OnlyFile(s.files, s'.files, p)
    requires forall sha :: IsSha(sha) && IsCachePathOf(sha, p) && p in s'.files ==>
               s.hash(s'.files[p]) == sha && s'.files[p] in s'.blobs
    ensures FilesMatchTheirNames(s')
  {
  }

  lemma SweepFrame(s: State, s': State)
    requires SweepOk(s) && Grows(s, s') && s'.sweep == s.sweep
    ensures SweepOk(s')
  {
  }

  lemma ReaderFrame(s: State, s': State)
    requires ReaderOk(s) && Grows(s, s') && s'.reader == s.reader
    ensures ReaderOk(s')
  {
  }

  // ------------------------------- calls -------------------------------

  /** The one file a call's step may write: its staging file, or the cache file it renames it to. */
  function Touched(s: State, h: nat, e: CallEvent): string
    requires CallEnabled(s, h, e)
  {
    if e.Open? then TmpSibling(Target(s.calls[h].ask), e.suffix)
    else if e.Fill? then s.calls[h].tmp
    else if e.Rename? then Target(s.calls[h].ask)
    else ""
  }

  lemma TargetLength(ask: Ask)
    requires ask.upload.Some? && IsSha(ask.sha) && IsExt(ask.upload.value.ext)
    ensures |Target(ask)| == 81 && IsCachePathOf(ask.sha, Target(ask))
  {
    CachePathAt(ask.sha, Target(ask));
  }

  lemma CallTouches(s: State, h: nat, e: CallEvent)
    requires Sound(s) && CallEnabled(s, h, e)
    ensures OnlyFile(s.files, CallNext(s, h, e).files, Touched(s, h, e))
    ensures forall g :: g in s.calls && g != h && s.calls[g].Staging? ==> s.calls[g].tmp != Touched(s, h, e)
  {
    if e.Rename? { TargetLength(s.calls[h].ask); }
  }

  lemma CallKeepsFiles(s: State, h: nat, e: CallEvent)
    requires Sound(s) && CallEnabled(s, h, e)
    ensures FilesMatchTheirNames(CallNext(s, h, e))
  {
    var s', p := CallNext(s, h, e), Touched(s, h, e);
    CallTouches(s, h, e);
    if e.Open? { TargetLength(s.calls[h].ask); }
    forall sha | IsSha(sha) && IsCachePathOf(sha, p) && p in s'.files
      ensures s.hash(s'.files[p]) == sha && s'.files[p] in s'.blobs
    {
      CachePathAt(sha, p);
      if e.Rename? { RenamedMatches(s, h, sha); }
    }
    FilesFrame(s, s', p);
  }

  lemma RenamedMatches(s: State, h: nat, sha: string)
    requires Sound(s) && CallEnabled(s, h, Rename)
    requires IsSha(sha) && IsCachePathOf(sha, Target(s.calls[h].ask))
    requires Target(s.calls[h].ask) in RenameNext(s, h).files
    ensures var bytes := RenameNext(s, h).files[Target(s.calls[h].ask)]; s.hash(bytes) == sha && bytes in s.blobs
  {
    var c := s.calls[h];
    TargetLength(c.ask);
    CachePathOwner(sha, c.ask.sha, Target(c.ask));
    var bytes := c.ask.upload.value.bytes;
    assert bytes[..|bytes|] == bytes;
  }

  lemma CallKeepsRows(s: State, h: nat, e: CallEvent)
    requires Sound(s) && CallEnabled(s, h, e)
    ensures WellNamedInputs(CallNext(s, h, e).inputs)
  {
    if e.Record? { TargetLength(s.calls[h].ask); }
  }

  /** The moving call's own new state: before the upload, during it, and after. */
  lemma AskMoves(s: State, h: nat, e: CallEvent)
    requires Sound(s) && CallEnabled(s, h, e) && (e.Begin? || e.Select? || e.Stat? || e.StampRow? || e.Demote?)
    ensures var s' := CallNext(s, h, e); h in s'.calls && CallOk(s', s'.calls[h])
  {
  }

  lemma UploadMoves(s: State, h: nat, e: CallEvent)
    requires Sound(s) && CallEnabled(s, h, e) && (e.Open? || e.Fill? || e.Rename? || e.FailWrite?)
    ensures var s' := CallNext(s, h, e); h in s'.calls && CallOk(s', s'.calls[h])
  {
    if e.Open? { TargetLength(s.calls[h].ask); }
  }

  lemma RecordMoves(s: State, h: nat, newId: int)
    requires Sound(s) && CallEnabled(s, h, Record(newId))
    ensures var s' := RecordNext(s, h, newId); h in s'.calls && CallOk(s', s'.calls[h])
  {
  }

  lemma CallsStay(s: State, h: nat, e: CallEvent)
    requires CallEnabled(s, h, e)
    ensures forall g :: g in CallNext(s, h, e).calls && g != h ==>
              g in s.calls && CallNext(s, h, e).calls[g] == s.calls[g]
    ensures !e.Drop? ==> h in CallNext(s, h, e).calls
  {
  }

  lemma OtherCallsOk(s: State, s': State, h: nat, p: string)
    requires forall g :: g in s.calls ==> CallOk(s, s.calls[g])
    requires forall g :: g in s'.calls && g != h ==> g in s.calls && s'.calls[g] == s.calls[g]
    requires Grows(s, s') && OnlyFile(s.files, s'.files, p)
    requires forall g :: g in s.calls && g != h && s.calls[g].Staging? ==> s.calls[g].tmp != p
    ensures forall g :: g in s'.calls && g != h ==> CallOk(s', s'.calls[g])
  {
    forall g | g in s'.calls && g != h ensures CallOk(s', s'.calls[g]) { CallFrame(s, s', s.calls[g], p); }
  }

  lemma CallKeepsApart(s: State, h: nat, e: CallEvent)
    requires StagingApart(s) && CallEnabled(s, h, e)
    ensures StagingApart(CallNext(s, h, e))
  {
  }

  lemma CallKeepsCalls(s: State, h: nat, e: CallEvent)
    requires Sound(s) && CallEnabled(s, h, e)
    ensures forall g :: g in CallNext(s, h, e).calls ==> CallOk(CallNext(s, h, e), CallNext(s, h, e).calls[g])
  {
    CallTouches(s, h, e);
    StepGrows(s, C(h, e));
    CallsStay(s, h, e);
    OtherCallsOk(s, CallNext(s, h, e), h, Touched(s, h, e));
    if e.Begin? || e.Select? || e.Stat? || e.StampRow? || e.Demote? {
      AskMoves(s, h, e);
    } else if e.Record? {
      RecordMoves(s, h, e.newId);
    } else if !e.Drop? {
      UploadMoves(s, h, e);
    }
  }

  lemma CallKeepsSound(s: State, h: nat, e: CallEvent)
    requires Sound(s) && CallEnabled(s, h, e)
    ensures Sound(CallNext(s, h, e))
  {
    StepGrows(s, C(h, e));
    CallKeepsFiles(s, h, e);
    CallKeepsRows(s, h, e);
    CallKeepsCalls(s, h, e);
    CallKeepsApart(s, h, e);
    SweepFrame(s, CallNext(s, h, e));
    ReaderFrame(s, CallNext(s, h, e));
  }

  // ---------------------------- everybody else -------------------------

  lemma OthersKeepCalls(s: State, e: Event)
    requires Sound(s) && Enabled(s, e) && !e.C?
    ensures var s' := Next(s, e);
      && (forall g :: g in s'.calls ==> CallOk(s', s'.calls[g]))
      && StagingApart(s') && FilesMatchTheirNames(s')
  {
    var s' := Next(s, e);
    StepGrows(s, e);
    FilesFrame(s, s', "");
    forall g | g in s'.calls ensures CallOk(s', s'.calls[g]) { CallFrame(s, s', s.calls[g], ""); }
  }

  lemma OthersKeepSound(s: State, e: Event)
    requires Sound(s) && Enabled(s, e) && !e.C?
    ensures Sound(Next(s, e))
  {
    OthersKeepCalls(s, e);
    StepGrows(s, e);
    if !e.SweepSelect? && !e.SweepUnlink? && !e.SweepClear? && !e.Crash? { SweepFrame(s, Next(s, e)); }
    if !e.ReadRow? && !e.ReadFile? && !e.Crash? { ReaderFrame(s, Next(s, e)); }
  }

  lemma StepKeepsSound(s: State, e: Event)
    requires Sound(s) && Enabled(s, e)
    ensures Sound(Next(s, e))
  {
    if e.C? { CallKeepsSound(s, e.h, e.ce); } else { OthersKeepSound(s, e); }
  }

  lemma {:induction false} RunKeepsSound(s: State, run: seq<Event>)
    requires Sound(s) && Legal(s, run)
    ensures Sound(After(s, run)) && After(s, run).hash == s.hash
  {
    if run != [] {
      RunKeepsSound(s, run[..|run| - 1]);
      StepGrows(After(s, run[..|run| - 1]), run[|run| - 1]);
      StepKeepsSound(After(s, run[..|run| - 1]), run[|run| - 1]);
    }
  }

  /**
   In every reachable state hashes are unique among the rows, every row points at its own hash's place
   or nowhere, and whatever is at a cache path has the hash the path is named after.
   */
  lemma AlwaysSound(hash: Bytes -> string, run: seq<Event>)
    requires Legal(Init(hash), run)
    ensures Sound(After(Init(hash), run)) && After(Init(hash), run).hash == hash
  {
    RunKeepsSound(Init(hash), run);
  }

  /** What the worker has read for an input is an image with that input's hash, and one that was uploaded as such. */
  lemma ReadIsTheInput(hash: Bytes -> string, run: seq<Event>)
    requires Legal(Init(hash), run) && After(Init(hash), run).reader.GotBytes?
    ensures var s := After(Init(hash), run); var r := s.reader;
      r.id in s.inputs && hash(r.bytes) == r.sha == s.inputs[r.id].sha256 && r.bytes in s.blobs
  {
    AlwaysSound(hash, run);
  }
}
