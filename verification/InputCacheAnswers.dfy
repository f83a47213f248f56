/** Why `resolve_input` answers what it answers, while others use the cache; and one way an answer goes stale. */
module InputCacheAnswers {
  import opened Common
  import opened InputTable
  import opened AtomicWrite
  import opened InputCache
  import opened InputCacheInvariant

  /** No row for the hash has a path. */
  ghost predicate NoPath(t: Inputs, sha: string) { forall id :: IsRowOf(t, sha, id) ==> t[id].path.None? }

  /** What a call saw of the cache in state `s`, by the statement it was about to run or had just run. */
  ghost predicate Saw(s: State, h: nat, ask: Ask, found: bool) {
    && h in s.calls && s.calls[h].ask == ask
    && var c := s.calls[h];
       if found then
         || (c.Statting? && c.path in s.files)
         || (c.Recording? && c.ask.upload.Some? && Target(c.ask) in s.files)
       else
         || (c.Selecting? && NoPath(s.inputs, c.ask.sha))
         || (c.Statting? && c.path !in s.files)
  }

  /** What a call's state or answer takes for granted about the cached file. */
  function Claims(c: Call): Option<bool> {
    if c.Stamping? || c.Recording? || (c.Answered? && c.reply.Resolved?) then Some(true)
    else if c.Demoting? || (c.Answered? && c.reply.NeedUpload?) then Some(false)
    else None
  }

  ghost predicate SawAt(hash: Bytes -> string, run: seq<Event>, n: nat, h: nat, ask: Ask, found: bool) {
    n <= |run| && Legal(Init(hash), run[..n]) && Saw(After(Init(hash), run[..n]), h, ask, found)
  }

  /** A step either leaves the call's claim and request alone, or makes the claim on what it saw just then. */
  lemma ClaimArises(s: State, e: Event, h: nat)
    requires Sound(s) && Enabled(s, e) && h in Next(s, e).calls && Claims(Next(s, e).calls[h]).Some?
    ensures var c' := Next(s, e).calls[h]; var found := Claims(c').value;
      || (h in s.calls && s.calls[h].ask == c'.ask && Claims(s.calls[h]) == Claims(c'))
      || Saw(s, h, c'.ask, found)
      || Saw(Next(s, e), h, c'.ask, found)
  {
    if e.C? && e.h == h {
      if e.ce.Select? {
        SelectClaim(s, h, e.ce.found);
      } else if e.ce.Rename? {
        RenameClaim(s, h);
      } else {
        OtherClaim(s, h, e.ce);
      }
    } else if e.C? {
      CallsStay(s, e.h, e.ce);
    }
  }

  lemma SelectClaim(s: State, h: nat, found: Option<int>)
    requires Sound(s) && CallEnabled(s, h, Select(found)) && Claims(CallNext(s, h, Select(found)).calls[h]).Some?
    ensures Claims(CallNext(s, h, Select(found)).calls[h]) == Some(false)
    ensures CallNext(s, h, Select(found)).calls[h].ask == s.calls[h].ask && Saw(s, h, s.calls[h].ask, false)
  {
    if found.Some? {
      forall id | IsRowOf(s.inputs, s.calls[h].ask.sha, id) ensures id == found.value {}
    }
  }

  lemma RenameClaim(s: State, h: nat)
    requires Sound(s) && CallEnabled(s, h, Rename) && Claims(RenameNext(s, h).calls[h]).Some?
    ensures Claims(RenameNext(s, h).calls[h]) == Some(true)
    ensures Saw(RenameNext(s, h), h, RenameNext(s, h).calls[h].ask, true)
  {
    assert CallOk(s, s.calls[h]);
    TargetLength(s.calls[h].ask);
  }

  lemma OtherClaim(s: State, h: nat, e: CallEvent)
    requires CallEnabled(s, h, e) && !e.Select? && !e.Rename?
    requires h in CallNext(s, h, e).calls && Claims(CallNext(s, h, e).calls[h]).Some?
    ensures var c' := CallNext(s, h, e).calls[h];
      || (h in s.calls && s.calls[h].ask == c'.ask && Claims(s.calls[h]) == Claims(c'))
      || Saw(s, h, c'.ask, Claims(c').value)
  {
  }

  lemma NeedUploadSentNothing(hash: Bytes -> string, run: seq<Event>, h: nat)
    requires Legal(Init(hash), run) && h in After(Init(hash), run).calls
    ensures var c := After(Init(hash), run).calls[h]; c.Answered? && c.reply.NeedUpload? ==> c.ask.upload.None?
  {
    AlwaysSound(hash, run);
    assert CallOk(After(Init(hash), run), After(Init(hash), run).calls[h]);
  }

  /**
   Behind every answer there is a moment of the same call that justifies it: for a resolved input its file was
   on disk, and for `need_upload` no row for the hash had a path, or the selected path was missing on disk.
   */
  lemma {:induction false} AnswerHasCause(hash: Bytes -> string, run: seq<Event>, h: nat) returns (n: nat)
    requires Legal(Init(hash), run)
    requires var s := After(Init(hash), run); h in s.calls && Claims(s.calls[h]).Some?
    ensures var c := After(Init(hash), run).calls[h];
      SawAt(hash, run, n, h, c.ask, Claims(c).value) && (c.Answered? && c.reply.NeedUpload? ==> c.ask.upload.None?)
  {
    var front, e := run[..|run| - 1], run[|run| - 1];
    var s, s' := After(Init(hash), front), After(Init(hash), run);
    NeedUploadSentNothing(hash, run, h);
    AlwaysSound(hash, front);
    ClaimArises(s, e, h);
    assert run[..|run|] == run;
    var ask, found := s'.calls[h].ask, Claims(s'.calls[h]).value;
    if Saw(s', h, ask, found) {
      n := |run|;
    } else if Saw(s, h, ask, found) {
      n := |run| - 1;
    } else {
      n := AnswerHasCause(hash, front, h);
      assert run[..n] == front[..n];
    }
  }

  /** After `n` events call `h` is about to look for the file of row `id`, which is not there. */
  ghost predicate MissedAt(hash: Bytes -> string, run: seq<Event>, n: nat, h: nat, id: int) {
    && n <= |run| && Legal(Init(hash), run[..n])
    && var s := After(Init(hash), run[..n]);
       h in s.calls && s.calls[h].Statting? && s.calls[h].id == id && s.calls[h].path !in s.files
  }

  lemma {:induction false} DemotingMissed(hash: Bytes -> string, run: seq<Event>, h: nat) returns (n: nat)
    requires Legal(Init(hash), run)
    requires var s := After(Init(hash), run); h in s.calls && s.calls[h].Demoting?
    ensures MissedAt(hash, run, n, h, After(Init(hash), run).calls[h].id)
  {
    var front, e := run[..|run| - 1], run[|run| - 1];
    var s := After(Init(hash), front);
    DemotingArises(s, e, h);
    if h in s.calls && s.calls[h].Demoting? {
      n := DemotingMissed(hash, front, h);
      assert run[..n] == front[..n];
    } else {
      n := |run| - 1;
    }
  }

  lemma DemotingArises(s: State, e: Event, h: nat)
    requires Enabled(s, e) && h in Next(s, e).calls && Next(s, e).calls[h].Demoting?
    ensures h in s.calls
    ensures || s.calls[h] == Next(s, e).calls[h]
            || (s.calls[h].Statting? && s.calls[h].id == Next(s, e).calls[h].id && s.calls[h].path !in s.files)
  {
    if e.C? && e.h != h { CallsStay(s, e.h, e.ce); }
  }

  /** A row loses its path only to purge's loop, or to a call that had missed the file earlier in the run. */
  lemma PathIsLostOnlyTo(hash: Bytes -> string, run: seq<Event>, e: Event, id: int)
    requires Legal(Init(hash), run) && Enabled(After(Init(hash), run), e)
    requires PathIsSome(After(Init(hash), run).inputs, id) && !PathIsSome(Next(After(Init(hash), run), e).inputs, id)
    ensures var s := After(Init(hash), run);
      || (e.SweepClear? && s.sweep.todo[0].id == id)
      || (e.C? && e.ce.Demote? && s.calls[e.h].id == id && exists n: nat :: MissedAt(hash, run, n, e.h, id))
  {
    var s := After(Init(hash), run);
    ClearingStep(s, e, id);
    if e.C? { var n := DemotingMissed(hash, run, e.h); }
  }

  lemma ClearingStep(s: State, e: Event, id: int)
    requires Enabled(s, e) && PathIsSome(s.inputs, id) && !PathIsSome(Next(s, e).inputs, id)
    ensures (e.SweepClear? && s.sweep.todo[0].id == id) || (e.C? && e.ce.Demote? && s.calls[e.h].id == id)
  {
  }

  // --------------- a resolved input can be demoted right after ----------

  lemma Extend(s: State, run: seq<Event>, e: Event)
    requires Legal(s, run) && Enabled(After(s, run), e)
    ensures Legal(s, run + [e]) && After(s, run + [e]) == Next(After(s, run), e)
  {
    assert (run + [e])[..|run|] == run;
  }

  /** An empty image, which needs no `Fill`; its hash is its name. */
  function Image(hash: Bytes -> string): Ask { Ask(hash([]), Some(Upload([], "jpg")), 0) }

  const HERE := Resolved(1)

  lemma ReachRenamed(hash: Bytes -> string, run: seq<Event>, h: nat, row: Option<int>) returns (run': seq<Event>)
    requires Legal(Init(hash), run) && IsSha(hash([]))
    requires var s := After(Init(hash), run);
      && h in s.calls && s.calls[h] == Uploading(Image(hash), row)
      && FreshName(s, TmpSibling(Target(Image(hash)), "a"))
    ensures Legal(Init(hash), run')
    ensures var s, s' := After(Init(hash), run), After(Init(hash), run');
      && s'.hash == s.hash && s'.calls == s.calls[h := Recording(Image(hash), row)] && s'.inputs == s.inputs
      && Target(Image(hash)) in s'.files && TmpSibling(Target(Image(hash)), "a") !in s'.files
  {
    TargetLength(Image(hash));
    Extend(Init(hash), run, C(h, Open("a")));
    run' := run + [C(h, Open("a"))];
    Extend(Init(hash), run', C(h, Rename));
    run' := run' + [C(h, Rename)];
  }

  /** Stage, rename and record the image, from a call that is about to. */
  lemma ReachRecorded(hash: Bytes -> string, run: seq<Event>, h: nat, row: Option<int>) returns (run': seq<Event>)
    requires Legal(Init(hash), run) && IsSha(hash([]))
    requires var s := After(Init(hash), run);
      && h in s.calls && s.calls[h] == Uploading(Image(hash), row)
      && FreshName(s, TmpSibling(Target(Image(hash)), "a"))
      && (|| (row == None && s.inputs == map[])
          || (row == Some(1) && s.inputs.Keys == {1} && s.inputs[1].sha256 == hash([])))
    ensures Legal(Init(hash), run')
    ensures var s, s' := After(Init(hash), run), After(Init(hash), run');
      && s'.hash == s.hash && s'.calls == s.calls[h := Answered(Image(hash), HERE)]
      && s'.inputs == map[1 := Input(hash([]), Some(Target(Image(hash))),
                                     if row.None? then 0 else s.inputs[1].createdAt, 0)]
      && Target(Image(hash)) in s'.files && TmpSibling(Target(Image(hash)), "a") !in s'.files
  {
    run' := ReachRenamed(hash, run, h, row);
    var newId := if row.None? then 1 else 2;
    Extend(Init(hash), run', C(h, Record(newId)));
    run' := run' + [C(h, Record(newId))];
  }

  /** Call 0 has found no row for the image it brings. */
  lemma ReachUploading(hash: Bytes -> string) returns (run: seq<Event>)
    requires IsSha(hash([]))
    ensures Legal(Init(hash), run)
    ensures After(Init(hash), run) ==
      Init(hash).(calls := map[0 := Uploading(Image(hash), None)], blobs := {[]})
  {
    run := [];
    Extend(Init(hash), run, C(0, Begin(Image(hash))));
    run := run + [C(0, Begin(Image(hash)))];
    Extend(Init(hash), run, C(0, Select(None)));
    run := run + [C(0, Select(None))];
  }

  /** The image is cached by call 0 and then deleted behind the server's back. */
  lemma ReachLost(hash: Bytes -> string) returns (run: seq<Event>)
    requires IsSha(hash([]))
    ensures Legal(Init(hash), run)
    ensures var s := After(Init(hash), run);
      && s.hash == hash && s.calls.Keys == {0} && s.calls[0].Answered?
      && s.inputs == map[1 := Input(hash([]), Some(Target(Image(hash))), 0, 0)]
      && Target(Image(hash)) !in s.files && TmpSibling(Target(Image(hash)), "a") !in s.files
  {
    run := ReachUploading(hash);
    run := ReachRecorded(hash, run, 0, None);
    Extend(Init(hash), run, Lose(Target(Image(hash))));
    run := run + [Lose(Target(Image(hash)))];
  }

  /** Call 1 has just missed it. */
  lemma ReachMissed(hash: Bytes -> string) returns (run: seq<Event>)
    requires IsSha(hash([]))
    ensures Legal(Init(hash), run)
    ensures var s := After(Init(hash), run);
      && s.hash == hash && s.calls.Keys == {0, 1} && s.calls[0].Answered?
      && s.calls[1] == Demoting(Ask(hash([]), None, 0), 1)
      && s.inputs == map[1 := Input(hash([]), Some(Target(Image(hash))), 0, 0)]
      && Target(Image(hash)) !in s.files && TmpSibling(Target(Image(hash)), "a") !in s.files
  {
    var init, hashOnly := Init(hash), Ask(hash([]), None, 0);
    run := ReachLost(hash);
    Extend(init, run, C(1, Begin(hashOnly)));
    run := run + [C(1, Begin(hashOnly))];
    Extend(init, run, C(1, Select(Some(1))));
    run := run + [C(1, Select(Some(1)))];
    Extend(init, run, C(1, Stat));
    run := run + [C(1, Stat)];
  }

  /** Call 2, with the image attached, has missed the file as well and cleared the path. */
  lemma ReachSecondUpload(hash: Bytes -> string) returns (run: seq<Event>)
    requires IsSha(hash([]))
    ensures Legal(Init(hash), run)
    ensures var s := After(Init(hash), run);
      && s.hash == hash && s.calls.Keys == {0, 1, 2} && s.calls[0].Answered?
      && s.calls[1] == Demoting(Ask(hash([]), None, 0), 1) && s.calls[2] == Uploading(Image(hash), Some(1))
      && s.inputs == map[1 := Input(hash([]), None, 0, 0)] && TmpSibling(Target(Image(hash)), "a") !in s.files
  {
    var init := Init(hash);
    run := ReachMissed(hash);
    Extend(init, run, C(2, Begin(Image(hash))));
    run := run + [C(2, Begin(Image(hash)))];
    Extend(init, run, C(2, Select(Some(1))));
    run := run + [C(2, Select(Some(1)))];
    Extend(init, run, C(2, Stat));
    run := run + [C(2, Stat)];
    Extend(init, run, C(2, Demote));
    run := run + [C(2, Demote)];
  }

  /**
   The demotion is not guarded: a call that missed the file clears the path even after another call has
   uploaded it again and been told that its input is in place.
   */
  lemma DemotionCanLoseAFreshUpload(hash: Bytes -> string)
    requires IsSha(hash([]))
    ensures exists run ::
      && Legal(Init(hash), run)
      && var s := After(Init(hash), run);
      && 2 in s.calls && s.calls[2] == Answered(Image(hash), HERE)
      && 1 in s.inputs && s.inputs[1].path.None? && Target(Image(hash)) in s.files
  {
    var run := ReachSecondUpload(hash);
    run := ReachRecorded(hash, run, 2, Some(1));
    Extend(Init(hash), run, C(1, Demote));
    run := run + [C(1, Demote)];
  }
}
