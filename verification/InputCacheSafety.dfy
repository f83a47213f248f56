/** When a row of the input cache keeps its path: an invariant a caller can check, and its exact converse. */
module InputCacheSafety {
  import opened Common
  import opened InputTable
  import opened InputCache
  import opened InputCacheInvariant

  /** The call is about to clear the row's path, has to when it looks at the disk, or is about to store a lost path. */
  predicate Endangers(s: State, c: Call, id: int) {
    || (c.Demoting? && c.id == id)
    || (c.Statting? && c.id == id && c.path !in s.files)
    || (c.Recording? && c.row == Some(id) && c.ask.upload.Some? && Target(c.ask) !in s.files)
  }

  /** The row's file is on disk and no call endangers the row. */
  predicate Safe(s: State, id: int) {
    && PathIsSome(s.inputs, id) && s.inputs[id].path.value in s.files
    && forall h :: h in s.calls ==> !Endangers(s, s.calls[h], id)
  }

  /** Purge evicts the row, or somebody outside removes one of its files. */
  predicate Disturbs(s: State, e: Event, id: int)
    requires Enabled(s, e) && id in s.inputs
  {
    || (e.Lose? && IsCachePathOf(s.inputs[id].sha256, e.path))
    || (e.SweepUnlink? && e.ok && s.sweep.todo[0].id == id)
    || (e.SweepClear? && s.sweep.todo[0].id == id)
  }

  ghost predicate Undisturbed(s: State, run: seq<Event>, id: int)
    requires Legal(s, run)
  {
    run == [] ||
    (var front, t := run[..|run| - 1], After(s, run[..|run| - 1]);
     Undisturbed(s, front, id) && id in t.inputs && !Disturbs(t, run[|run| - 1], id))
  }

  // ------------------------------ it stays ------------------------------

  /** A call takes nothing off the disk but its own staging file. */
  lemma CallRemoves(s: State, h: nat, e: CallEvent, path: string)
    requires Sound(s) && CallEnabled(s, h, e) && path in s.files && |path| == 81
    ensures path in CallNext(s, h, e).files
  {
  }

  lemma CacheFileStays(s: State, e: Event, id: int, path: string)
    requires Sound(s) && Enabled(s, e) && id in s.inputs && !Disturbs(s, e, id)
    requires IsCachePathOf(s.inputs[id].sha256, path) && path in s.files
    ensures path in Next(s, e).files
  {
    CachePathAt(s.inputs[id].sha256, path);
    if e.C? {
      CallRemoves(s, e.h, e.ce, path);
    } else if e.SweepUnlink? && e.ok {
      var j := s.sweep.todo[0];
      if j.path == path { CachePathOwner(s.inputs[id].sha256, s.inputs[j.id].sha256, path); }
    }
  }

  /** The files a row and its calls rely on are places of the row's hash. */
  lemma ReliedOn(s: State, c: Call, id: int)
    requires Sound(s) && CallOk(s, c) && id in s.inputs
    ensures PathIsSome(s.inputs, id) ==> IsCachePathOf(s.inputs[id].sha256, s.inputs[id].path.value)
    ensures c.Statting? && c.id == id ==> IsCachePathOf(s.inputs[id].sha256, c.path)
    ensures c.Recording? && c.row == Some(id) ==>
              c.ask.upload.Some? && IsCachePathOf(s.inputs[id].sha256, Target(c.ask))
  {
  }

  /** A call that does not move endangers the row no more than before. */
  lemma RestingCall(s: State, e: Event, c: Call, id: int)
    requires Sound(s) && Enabled(s, e) && id in s.inputs && !Disturbs(s, e, id)
    requires CallOk(s, c) && !Endangers(s, c, id)
    ensures !Endangers(Next(s, e), c, id)
  {
    ReliedOn(s, c, id);
    if c.Statting? && c.id == id { CacheFileStays(s, e, id, c.path); }
    if c.Recording? && c.row == Some(id) { CacheFileStays(s, e, id, Target(c.ask)); }
  }

  /** The call that moves does not begin to endanger a safe row. */
  lemma MovingCall(s: State, h: nat, e: CallEvent, id: int)
    requires Sound(s) && Safe(s, id) && CallEnabled(s, h, e) && h in CallNext(s, h, e).calls
    ensures !Endangers(CallNext(s, h, e), CallNext(s, h, e).calls[h], id)
  {
    if e.Rename? { TargetLength(s.calls[h].ask); }
  }

  /** The path itself: only its own row's recording replaces it, by a file that is there. */
  lemma PathStays(s: State, e: Event, id: int)
    requires Sound(s) && Safe(s, id) && Enabled(s, e) && !Disturbs(s, e, id)
    ensures PathIsSome(Next(s, e).inputs, id) && Next(s, e).inputs[id].path.value in s.files
  {
  }

  lemma StepKeepsSafe(s: State, e: Event, id: int)
    requires Sound(s) && Safe(s, id) && Enabled(s, e) && !Disturbs(s, e, id)
    ensures Safe(Next(s, e), id)
  {
    var s' := Next(s, e);
    PathStays(s, e, id);
    StepKeepsSound(s, e);
    StepGrows(s, e);
    CacheFileStays(s, e, id, s'.inputs[id].path.value);
    forall h | h in s'.calls ensures !Endangers(s', s'.calls[h], id) {
      if e.C? && e.h == h {
        MovingCall(s, h, e.ce, id);
      } else {
        OtherCallsRest(s, e, h);
        RestingCall(s, e, s.calls[h], id);
      }
    }
  }

  lemma OtherCallsRest(s: State, e: Event, h: nat)
    requires Enabled(s, e) && h in Next(s, e).calls && !(e.C? && e.h == h)
    ensures h in s.calls && Next(s, e).calls[h] == s.calls[h]
  {
    if e.C? { CallsStay(s, e.h, e.ce); }
  }

  lemma {:induction false} RunKeepsSafe(s: State, run: seq<Event>, id: int)
    requires Sound(s) && Safe(s, id) && Legal(s, run) && Undisturbed(s, run, id)
    ensures Safe(After(s, run), id)
  {
    if run != [] {
      RunKeepsSafe(s, run[..|run| - 1], id);
      RunKeepsSound(s, run[..|run| - 1]);
      StepKeepsSafe(After(s, run[..|run| - 1]), run[|run| - 1], id);
    }
  }

  // ---------------------------- or it is lost ---------------------------

  /** One more step of a call, which is never a disturbance. */
  lemma CallOn(s: State, run: seq<Event>, id: int, h: nat, e: CallEvent)
    requires Legal(s, run) && Undisturbed(s, run, id) && CallEnabled(After(s, run), h, e) && id in After(s, run).inputs
    ensures Legal(s, run + [C(h, e)]) && Undisturbed(s, run + [C(h, e)], id)
    ensures After(s, run + [C(h, e)]) == CallNext(After(s, run), h, e)
  {
    assert (run + [C(h, e)])[..|run|] == run;
  }

  predicate OnlyCalls(run: seq<Event>) { forall i :: 0 <= i < |run| ==> run[i].C? }

  /** A call that has missed the file clears the path. */
  lemma MissClears(s: State, run: seq<Event>, id: int, h: nat) returns (run': seq<Event>)
    requires Legal(s, run) && Undisturbed(s, run, id) && OnlyCalls(run)
    requires var t := After(s, run);
      && id in t.inputs && h in t.calls
      && t.calls[h].Statting? && t.calls[h].id == id && t.calls[h].path !in t.files
    ensures Legal(s, run') && Undisturbed(s, run', id) && OnlyCalls(run') && !PathIsSome(After(s, run').inputs, id)
  {
    CallOn(s, run, id, h, Stat);
    run' := run + [C(h, Stat)];
    CallOn(s, run', id, h, Demote);
    run' := run' + [C(h, Demote)];
  }

  /** A path whose file is gone is cleared by the next request for it. */
  lemma MissingFileClears(s: State, run: seq<Event>, id: int) returns (run': seq<Event>)
    requires Legal(s, run) && Undisturbed(s, run, id) && OnlyCalls(run)
    requires var t := After(s, run);
      PathIsSome(t.inputs, id) && IsSha(t.inputs[id].sha256) && t.inputs[id].path.value !in t.files
    ensures Legal(s, run') && Undisturbed(s, run', id) && OnlyCalls(run') && !PathIsSome(After(s, run').inputs, id)
  {
    var t := After(s, run);
    var h := FreshNat(t.calls.Keys);
    var ask := Ask(t.inputs[id].sha256, None, 0);
    CallOn(s, run, id, h, Begin(ask));
    run' := run + [C(h, Begin(ask))];
    CallOn(s, run', id, h, Select(Some(id)));
    run' := run' + [C(h, Select(Some(id)))];
    run' := MissClears(s, run', id, h);
  }

  /** Recording a file that was lost leaves a path without a file. */
  lemma LostUploadClears(s: State, id: int, h: nat) returns (run: seq<Event>)
    requires Sound(s) && id in s.inputs && h in s.calls && s.calls[h].Recording? && s.calls[h].row == Some(id)
    requires s.calls[h].ask.upload.Some? && Target(s.calls[h].ask) !in s.files
    ensures Legal(s, run) && Undisturbed(s, run, id) && OnlyCalls(run) && !PathIsSome(After(s, run).inputs, id)
  {
    var newId := FreshNat(set i: nat | i in s.inputs.Keys);
    CallOn(s, [], id, h, Record(newId));
    run := [] + [C(h, Record(newId))];
    run := MissingFileClears(s, run, id);
  }

  /** If the guard fails, calls alone can clear the path. */
  lemma UnsafeCanBeLost(s: State, id: int) returns (run: seq<Event>)
    requires Sound(s) && PathIsSome(s.inputs, id) && !Safe(s, id)
    ensures Legal(s, run) && Undisturbed(s, run, id) && OnlyCalls(run) && !PathIsSome(After(s, run).inputs, id)
  {
    if s.inputs[id].path.value !in s.files {
      run := MissingFileClears(s, [], id);
    } else {
      var h :| h in s.calls && Endangers(s, s.calls[h], id);
      if s.calls[h].Demoting? {
        CallOn(s, [], id, h, Demote);
        run := [] + [C(h, Demote)];
      } else if s.calls[h].Statting? {
        run := MissClears(s, [], id, h);
      } else {
        run := LostUploadClears(s, id, h);
      }
    }
  }

  /**
   In every reachable state a row keeps its path, through any activity but an eviction by purge or a deletion
   from outside, if and only if it is safe then.
   */
  lemma KeepsItsPathExactlyWhen(hash: seq<bv8> -> string, run: seq<Event>, id: int)
    requires Legal(Init(hash), run) && PathIsSome(After(Init(hash), run).inputs, id)
    ensures var s := After(Init(hash), run);
      Safe(s, id) <==>
      forall more :: Legal(s, more) && Undisturbed(s, more, id) ==> PathIsSome(After(s, more).inputs, id)
  {
    var s := After(Init(hash), run);
    AlwaysSound(hash, run);
    if Safe(s, id) {
      forall more | Legal(s, more) && Undisturbed(s, more, id) ensures PathIsSome(After(s, more).inputs, id) {
        RunKeepsSafe(s, more, id);
      }
    } else {
      var more := UnsafeCanBeLost(s, id);
    }
  }

  /** An upload that is recorded while no other call works on the same hash leaves a safe row. */
  lemma UploadAloneIsSafe(s: State, h: nat, newId: int)
    requires Sound(s) && CallEnabled(s, h, Record(newId)) && Target(s.calls[h].ask) in s.files
    requires forall g :: g in s.calls && g != h && s.calls[g].ask.sha == s.calls[h].ask.sha ==> s.calls[g].Answered?
    ensures var c := RecordNext(s, h, newId).calls[h];
      c.reply.Resolved? ==> Safe(RecordNext(s, h, newId), c.reply.id)
  {
    var s' := RecordNext(s, h, newId);
    RecordMoves(s, h, newId);
    CallsStay(s, h, Record(newId));
    forall g | g in s'.calls && g != h ensures CallOk(s, s.calls[g]) {}
  }

  // ------------------- without eviction or deletion ---------------------

  /** Purge is not evicting, every recorded path has its file, and so has every path a call relies on. */
  ghost predicate Calm(s: State) {
    && s.sweep.Resting?
    && (forall id :: PathIsSome(s.inputs, id) ==> s.inputs[id].path.value in s.files)
    && (forall h :: h in s.calls ==> CalmCall(s.files, s.calls[h]))
  }

  predicate CalmCall(f: map<string, seq<bv8>>, c: Call) {
    && !c.Demoting?
    && (c.Statting? ==> c.path in f)
    && (c.Recording? && c.ask.upload.Some? ==> Target(c.ask) in f)
  }

  predicate EvictsOrDeletes(e: Event) { e.Lose? || e.SweepSelect? }

  /** Nothing of the cache leaves the disk. */
  lemma CalmFilesStay(s: State, e: Event)
    requires Sound(s) && Calm(s) && Enabled(s, e) && !EvictsOrDeletes(e)
    ensures forall path :: path in s.files && |path| == 81 ==> path in Next(s, e).files
  {
    forall path | path in s.files && |path| == 81 ensures path in Next(s, e).files {
      if e.C? { CallRemoves(s, e.h, e.ce, path); }
    }
  }

  lemma CallStaysCalm(s: State, c: Call, f: map<string, seq<bv8>>)
    requires Sound(s) && CallOk(s, c) && CalmCall(s.files, c)
    requires forall path :: path in s.files && |path| == 81 ==> path in f
    ensures CalmCall(f, c)
  {
    if c.Statting? { CachePathAt(c.ask.sha, c.path); }
    if c.Recording? { TargetLength(c.ask); }
  }

  lemma MovingCallIsCalm(s: State, h: nat, e: CallEvent)
    requires Sound(s) && Calm(s) && CallEnabled(s, h, e) && h in CallNext(s, h, e).calls
    ensures CalmCall(CallNext(s, h, e).files, CallNext(s, h, e).calls[h])
  {
    if e.Rename? { TargetLength(s.calls[h].ask); }
  }

  /** Rows only gain paths, and only paths of files that are there. */
  lemma CalmPaths(s: State, e: Event)
    requires Sound(s) && Calm(s) && Enabled(s, e) && !EvictsOrDeletes(e)
    ensures forall id :: PathIsSome(s.inputs, id) ==> PathIsSome(Next(s, e).inputs, id)
    ensures forall id :: PathIsSome(Next(s, e).inputs, id) ==> Next(s, e).inputs[id].path.value in s.files
  {
  }

  lemma StepKeepsCalm(s: State, e: Event)
    requires Sound(s) && Calm(s) && Enabled(s, e) && !EvictsOrDeletes(e)
    ensures Calm(Next(s, e))
  {
    var s' := Next(s, e);
    CalmFilesStay(s, e);
    CalmPaths(s, e);
    StepKeepsSound(s, e);
    forall id | PathIsSome(s'.inputs, id) ensures s'.inputs[id].path.value in s'.files {
      CachePathAt(s'.inputs[id].sha256, s'.inputs[id].path.value);
    }
    forall h | h in s'.calls ensures CalmCall(s'.files, s'.calls[h]) {
      if e.C? && e.h == h {
        MovingCallIsCalm(s, h, e.ce);
      } else {
        OtherCallsRest(s, e, h);
        CallStaysCalm(s, s.calls[h], s'.files);
      }
    }
  }

  /** As long as nobody evicts or deletes, every recorded path has its file, and no path is ever cleared. */
  lemma {:induction false} NothingIsLost(hash: seq<bv8> -> string, run: seq<Event>, n: nat)
    requires Legal(Init(hash), run) && n <= |run| && Legal(Init(hash), run[..n])
    requires forall i :: 0 <= i < |run| ==> !EvictsOrDeletes(run[i])
    ensures Calm(After(Init(hash), run))
    ensures forall id :: PathIsSome(After(Init(hash), run[..n]).inputs, id) ==>
              PathIsSome(After(Init(hash), run).inputs, id)
  {
    if n == |run| { assert run[..n] == run; }
    if run != [] {
      var front := run[..|run| - 1];
      var s := After(Init(hash), front);
      AlwaysSound(hash, front);
      if n < |run| { assert front[..n] == run[..n]; } else { assert front[..|front|] == front; }
      NothingIsLost(hash, front, if n < |run| then n else |front|);
      StepKeepsCalm(s, run[|run| - 1]);
      CalmPaths(s, run[|run| - 1]);
    }
  }
}
