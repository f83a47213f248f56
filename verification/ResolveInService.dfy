/** An undisturbed `resolve_input` is a run of the input cache's state machine. */
module ResolveInService {
  import opened Common
  import opened InputTable
  import opened AtomicWrite
  import opened InputCache
  import opened InputResolve

  // ---------------------------- single steps ----------------------------

  /** `t'` is `t` with the call at `c`, and with this table and these files. */
  ghost predicate Becomes(t: State, h: nat, t': State, c: Call, inputs: Inputs, files: Files) {
    && t'.calls == t.calls[h := c] && t'.inputs == inputs && t'.files == files
    && t'.hash == t.hash && t'.sweep == t.sweep && t'.reader == t.reader
  }

  ghost predicate Does(t: State, h: nat, e: CallEvent, c: Call, inputs: Inputs, files: Files) {
    CallEnabled(t, h, e) && Becomes(t, h, CallNext(t, h, e), c, inputs, files)
  }

  lemma OpenDoes(t: State, h: nat, ask: Ask, row: Option<int>, suffix: string)
    requires h in t.calls && t.calls[h] == Uploading(ask, row) && ask.upload.Some?
    requires FreshName(t, TmpSibling(Target(ask), suffix))
    ensures var tmp := TmpSibling(Target(ask), suffix);
      Does(t, h, Open(suffix), Staging(ask, row, tmp, 0), t.inputs, t.files[tmp := []])
  {
  }

  lemma FillDoes(t: State, h: nat, c: Call, files: Files)
    requires h in t.calls && t.calls[h] == c && c.Staging? && c.ask.upload.Some?
    requires c.filled < |c.ask.upload.value.bytes|
    requires t.files == files[c.tmp := c.ask.upload.value.bytes[..c.filled]]
    ensures Does(t, h, Fill, c.(filled := c.filled + 1), t.inputs,
                 files[c.tmp := c.ask.upload.value.bytes[..c.filled + 1]])
  {
  }

  lemma RenameDoes(t: State, h: nat, c: Call, files: Files)
    requires h in t.calls && t.calls[h] == c && c.Staging? && c.ask.upload.Some?
    requires c.filled == |c.ask.upload.value.bytes| && c.tmp !in files && c.tmp != Target(c.ask)
    requires t.files == files[c.tmp := c.ask.upload.value.bytes]
    ensures Does(t, h, Rename, Recording(c.ask, c.row), t.inputs, files[Target(c.ask) := c.ask.upload.value.bytes])
  {
    assert t.files[Target(c.ask) := t.files[c.tmp]] - {c.tmp} == files[Target(c.ask) := c.ask.upload.value.bytes];
  }

  lemma FailDoes(t: State, h: nat, c: Call, unlinked: bool)
    requires h in t.calls && t.calls[h] == c && c.Staging?
    ensures Does(t, h, FailWrite(unlinked), Answered(c.ask, Internal), t.inputs,
                 if unlinked then t.files - {c.tmp} else t.files)
  {
  }

  // ------------------------------- runs ---------------------------------

  /** Only the call `h` steps. */
  predicate OnlyCall(run: seq<Event>, h: nat) { forall i :: 0 <= i < |run| ==> run[i].C? && run[i].h == h }

  /** Where the call stands, and what it has changed so far; nobody else has moved. */
  ghost predicate At(s: State, run: seq<Event>, h: nat, c: Call, inputs: Inputs, files: Files) {
    Legal(s, run) && OnlyCall(run, h) && Becomes(s, h, After(s, run), c, inputs, files)
  }

  lemma Step(s: State, run: seq<Event>, h: nat, e: CallEvent, c: Call, inputs: Inputs, files: Files)
    requires Legal(s, run) && OnlyCall(run, h) && Does(After(s, run), h, e, c, inputs, files)
    requires var t := After(s, run);
      t.calls[h := c] == s.calls[h := c] && t.hash == s.hash && t.sweep == s.sweep && t.reader == s.reader
    ensures At(s, run + [C(h, e)], h, c, inputs, files)
  {
    assert (run + [C(h, e)])[..|run|] == run;
  }

  /** The staging file grows byte by byte. */
  lemma {:induction false} ReachFilled(s: State, before: seq<Event>, h: nat, c: Call, inputs: Inputs, files: Files,
                                       n: nat) returns (run: seq<Event>)
    requires c.Staging? && c.filled == 0 && c.ask.upload.Some? && n <= |c.ask.upload.value.bytes|
    requires At(s, before, h, c, inputs, files[c.tmp := []])
    ensures At(s, run, h, c.(filled := n), inputs, files[c.tmp := c.ask.upload.value.bytes[..n]])
  {
    if n == 0 {
      run := before;
      assert c.(filled := 0) == c;
    } else {
      run := ReachFilled(s, before, h, c, inputs, files, n - 1);
      FillDoes(After(s, run), h, c.(filled := n - 1), files);
      Step(s, run, h, Fill, c.(filled := n), inputs, files[c.tmp := c.ask.upload.value.bytes[..n]]);
      run := run + [C(h, Fill)];
    }
  }

  /** How many bytes reach the staging file. */
  function Room(ask: Ask, fault: Fault): nat
    requires ask.upload.Some?
  {
    var all := |ask.upload.value.bytes|;
    if fault.WriteFault? && fault.room < all then fault.room else all
  }

  /** The staging file, filled as far as there is room. */
  lemma ReachStaged(s: State, before: seq<Event>, h: nat, ask: Ask, row: Option<int>, inputs: Inputs, files: Files,
                    suffix: string, n: nat) returns (run: seq<Event>)
    requires ask.upload.Some? && n <= |ask.upload.value.bytes| && At(s, before, h, Uploading(ask, row), inputs, files)
    requires FreshName(After(s, before), TmpSibling(Target(ask), suffix))
    ensures var tmp := TmpSibling(Target(ask), suffix);
      At(s, run, h, Staging(ask, row, tmp, n), inputs, files[tmp := ask.upload.value.bytes[..n]])
  {
    var tmp := TmpSibling(Target(ask), suffix);
    OpenDoes(After(s, before), h, ask, row, suffix);
    Step(s, before, h, Open(suffix), Staging(ask, row, tmp, 0), inputs, files[tmp := []]);
    run := ReachFilled(s, before + [C(h, Open(suffix))], h, Staging(ask, row, tmp, 0), inputs, files, n);
  }

  lemma ReachRenamed(s: State, before: seq<Event>, h: nat, c: Call, inputs: Inputs, files: Files)
    returns (run: seq<Event>)
    requires c.Staging? && c.ask.upload.Some? && c.filled == |c.ask.upload.value.bytes|
    requires c.tmp !in files && c.tmp != Target(c.ask)
    requires At(s, before, h, c, inputs, files[c.tmp := c.ask.upload.value.bytes])
    ensures At(s, run, h, Recording(c.ask, c.row), inputs, files[Target(c.ask) := c.ask.upload.value.bytes])
  {
    RenameDoes(After(s, before), h, c, files);
    Step(s, before, h, Rename, Recording(c.ask, c.row), inputs, files[Target(c.ask) := c.ask.upload.value.bytes]);
    run := before + [C(h, Rename)];
  }

  lemma ReachFailed(s: State, before: seq<Event>, h: nat, c: Call, inputs: Inputs, files: Files, bytes: Bytes,
                    unlinkFails: bool) returns (run: seq<Event>, files': Files)
    requires c.Staging? && c.tmp !in files && At(s, before, h, c, inputs, files[c.tmp := bytes])
    ensures At(s, run, h, Answered(c.ask, Internal), inputs, files')
    ensures SameBut(files', files, c.tmp) && (!unlinkFails ==> files' == files)
  {
    assert files[c.tmp := bytes] - {c.tmp} == files;
    files' := if unlinkFails then files[c.tmp := bytes] else files;
    FailDoes(After(s, before), h, c, !unlinkFails);
    Step(s, before, h, FailWrite(!unlinkFails), Answered(c.ask, Internal), inputs, files');
    run := before + [C(h, FailWrite(!unlinkFails))];
  }

  /** The write of the file, as far as it gets. */
  lemma ReachWritten(s: State, before: seq<Event>, h: nat, ask: Ask, row: Option<int>, inputs: Inputs, files: Files,
                     suffix: string, fault: Fault, unlinkFails: bool) returns (run: seq<Event>, files': Files)
    requires ask.upload.Some? && At(s, before, h, Uploading(ask, row), inputs, files)
    requires FreshName(After(s, before), TmpSibling(Target(ask), suffix))
    ensures fault.NoFault? ==>
      files' == files[Target(ask) := ask.upload.value.bytes] && At(s, run, h, Recording(ask, row), inputs, files')
    ensures !fault.NoFault? ==>
      && At(s, run, h, Answered(ask, Internal), inputs, files')
      && SameBut(files', files, TmpSibling(Target(ask), suffix)) && (!unlinkFails ==> files' == files)
  {
    var tmp, bytes, n := TmpSibling(Target(ask), suffix), ask.upload.value.bytes, Room(ask, fault);
    var staged := ReachStaged(s, before, h, ask, row, inputs, files, suffix, n);
    TmpDiffers(Target(ask), suffix);
    if fault.NoFault? {
      assert bytes[..n] == bytes;
      run := ReachRenamed(s, staged, h, Staging(ask, row, tmp, n), inputs, files);
      files' := files[Target(ask) := bytes];
    } else {
      run, files' := ReachFailed(s, staged, h, Staging(ask, row, tmp, n), inputs, files, bytes[..n], unlinkFails);
    }
  }

  /** Nothing cached: take the bytes or ask for them. */
  function Missed(t: Inputs, row: Option<int>): Inputs { if row.Some? then ClearPath(t, row.value) else t }

  /** The row of the hash, if there is one. */
  lemma SelectedRow(t: Inputs, sha: string) returns (row: Option<int>)
    ensures if row.Some? then IsRowOf(t, sha, row.value) else Insertable(t, sha)
  {
    if id :| id in t && t[id].sha256 == sha { row := Some(id); } else { row := None; }
  }

  lemma SelectDoes(t: State, h: nat, ask: Ask, row: Option<int>)
    requires h in t.calls && t.calls[h] == Selecting(ask)
    requires if row.Some? then IsRowOf(t.inputs, ask.sha, row.value) else Insertable(t.inputs, ask.sha)
    ensures Does(t, h, Select(row),
                 if row.Some? && t.inputs[row.value].path.Some?
                 then Statting(ask, row.value, t.inputs[row.value].path.value) else AskForBytes(ask, row),
                 t.inputs, t.files)
  {
  }

  lemma StatDoes(t: State, h: nat, ask: Ask, id: int, path: string)
    requires h in t.calls && t.calls[h] == Statting(ask, id, path)
    ensures Does(t, h, Stat, if path in t.files then Stamping(ask, id) else Demoting(ask, id), t.inputs, t.files)
  {
  }

  lemma StampDoes(t: State, h: nat, ask: Ask, id: int)
    requires h in t.calls && t.calls[h] == Stamping(ask, id)
    ensures Does(t, h, StampRow, Answered(ask, Resolved(id)), Stamp(t.inputs, id, ask.now), t.files)
  {
  }

  lemma DemoteDoes(t: State, h: nat, ask: Ask, id: int)
    requires h in t.calls && t.calls[h] == Demoting(ask, id)
    ensures Does(t, h, Demote, AskForBytes(ask, Some(id)), ClearPath(t.inputs, id), t.files)
  {
  }

  lemma RecordDoes(t: State, h: nat, ask: Ask, row: Option<int>, newId: int)
    requires h in t.calls && t.calls[h] == Recording(ask, row) && ask.upload.Some? && newId !in t.inputs
    requires row.None? ==> Insertable(t.inputs, ask.sha)
    ensures row.Some? ==> Does(t, h, Record(newId), Answered(ask, Resolved(row.value)),
                               StorePath(t.inputs, row.value, Target(ask), ask.now), t.files)
    ensures row.None? ==> Does(t, h, Record(newId), Answered(ask, Resolved(newId)),
                               InsertInput(t.inputs, newId, ask.sha, Target(ask), ask.now), t.files)
  {
  }

  lemma ReachHit(s: State, before: seq<Event>, h: nat, ask: Ask, id: int, path: string) returns (run: seq<Event>)
    requires path in s.files && At(s, before, h, Statting(ask, id, path), s.inputs, s.files)
    ensures At(s, run, h, Answered(ask, Resolved(id)), Stamp(s.inputs, id, ask.now), s.files)
  {
    StatDoes(After(s, before), h, ask, id, path);
    Step(s, before, h, Stat, Stamping(ask, id), s.inputs, s.files);
    run := before + [C(h, Stat)];
    StampDoes(After(s, run), h, ask, id);
    Step(s, run, h, StampRow, Answered(ask, Resolved(id)), Stamp(s.inputs, id, ask.now), s.files);
    run := run + [C(h, StampRow)];
  }

  lemma ReachDemoted(s: State, before: seq<Event>, h: nat, ask: Ask, id: int, path: string) returns (run: seq<Event>)
    requires path !in s.files && At(s, before, h, Statting(ask, id, path), s.inputs, s.files)
    ensures At(s, run, h, AskForBytes(ask, Some(id)), ClearPath(s.inputs, id), s.files)
  {
    StatDoes(After(s, before), h, ask, id, path);
    Step(s, before, h, Stat, Demoting(ask, id), s.inputs, s.files);
    run := before + [C(h, Stat)];
    DemoteDoes(After(s, run), h, ask, id);
    Step(s, run, h, Demote, AskForBytes(ask, Some(id)), ClearPath(s.inputs, id), s.files);
    run := run + [C(h, Demote)];
  }

  /** The row has no path to clear. */
  lemma NothingToClear(t: Inputs, row: Option<int>)
    requires row.Some? ==> row.value in t && t[row.value].path.None?
    ensures Missed(t, row) == t
  {
  }

  /** The lookup: a stamped hit, or a row, if any, that has no file. */
  lemma ReachLookup(s: State, before: seq<Event>, h: nat, ask: Ask) returns (run: seq<Event>, row: Option<int>)
    requires ShasAreUnique(s.inputs) && At(s, before, h, Selecting(ask), s.inputs, s.files)
    ensures if row.Some? then IsRowOf(s.inputs, ask.sha, row.value) else Insertable(s.inputs, ask.sha)
    ensures IsCached(s.inputs, s.files, ask.sha) ==> row.Some?
    ensures IsCached(s.inputs, s.files, ask.sha) ==>
      At(s, run, h, Answered(ask, Resolved(row.value)), Stamp(s.inputs, row.value, ask.now), s.files)
    ensures !IsCached(s.inputs, s.files, ask.sha) ==>
      At(s, run, h, AskForBytes(ask, row), Missed(s.inputs, row), s.files)
  {
    row := SelectedRow(s.inputs, ask.sha);
    if row.Some? { OnlyRowOfItsHash(s.inputs, s.files, ask.sha, row.value); }
    SelectDoes(After(s, before), h, ask, row);
    run := before + [C(h, Select(row))];
    if row.None? || s.inputs[row.value].path.None? {
      Step(s, before, h, Select(row), AskForBytes(ask, row), s.inputs, s.files);
      NothingToClear(s.inputs, row);
    } else {
      var id, path := row.value, s.inputs[row.value].path.value;
      Step(s, before, h, Select(row), Statting(ask, id, path), s.inputs, s.files);
      if path in s.files {
        run := ReachHit(s, run, h, ask, id, path);
      } else {
        run := ReachDemoted(s, run, h, ask, id, path);
      }
    }
  }

  // ------------------------------ result --------------------------------

  lemma BeginDoes(t: State, h: nat, ask: Ask)
    requires h !in t.calls && IsSha(ask.sha) && (ask.upload.Some? ==> IsExt(ask.upload.value.ext))
    ensures Does(t, h, Begin(ask),
                 if ask.upload.Some? && t.hash(ask.upload.value.bytes) != ask.sha then Answered(ask, HashMismatch)
                 else Selecting(ask), t.inputs, t.files)
  {
  }

  /** What the lookup found, and what came of it. */
  lemma HitResolves(hash: Bytes -> string, t: Inputs, f: Files, ask: Ask, newId: int, suffix: string, fault: Fault,
                    unlinkFails: bool, id: int)
    requires WellNamedInputs(t) && Matching(hash, f) && IsSha(ask.sha)
    requires ask.upload.Some? ==> IsExt(ask.upload.value.ext) && hash(ask.upload.value.bytes) == ask.sha
    requires IsRowOf(t, ask.sha, id) && IsCached(t, f, ask.sha)
    ensures Resolves(hash, t, f, ask, newId, suffix, fault, unlinkFails, Resolved(id), Stamp(t, id, ask.now), f)
  {
    OnlyRowOfItsHash(t, f, ask.sha, id);
  }

  lemma MissResolves(hash: Bytes -> string, t: Inputs, f: Files, ask: Ask, newId: int, suffix: string, fault: Fault,
                     unlinkFails: bool, row: Option<int>, f': Files)
    requires WellNamedInputs(t) && IsSha(ask.sha) && !IsCached(t, f, ask.sha)
    requires if row.Some? then IsRowOf(t, ask.sha, row.value) else Insertable(t, ask.sha)
    requires ask.upload.None? ==> f' == f
    requires ask.upload.Some? ==>
      && IsExt(ask.upload.value.ext) && hash(ask.upload.value.bytes) == ask.sha && !fault.NoFault?
      && SameBut(f', f, TmpSibling(Target(ask), suffix)) && (!unlinkFails ==> f' == f)
    ensures Resolves(hash, t, f, ask, newId, suffix, fault, unlinkFails,
                     if ask.upload.None? then NeedUpload(row) else Internal, Missed(t, row), f')
  {
  }

  lemma UploadResolves(hash: Bytes -> string, t: Inputs, f: Files, ask: Ask, newId: int, suffix: string,
                       unlinkFails: bool, row: Option<int>)
    requires WellNamedInputs(t) && IsSha(ask.sha) && !IsCached(t, f, ask.sha) && newId !in t
    requires if row.Some? then IsRowOf(t, ask.sha, row.value) else Insertable(t, ask.sha)
    requires ask.upload.Some? && IsExt(ask.upload.value.ext) && hash(ask.upload.value.bytes) == ask.sha
    ensures Resolves(hash, t, f, ask, newId, suffix, NoFault, unlinkFails,
                     Resolved(if row.Some? then row.value else newId),
                     if row.Some? then StorePath(Missed(t, row), row.value, Target(ask), ask.now)
                     else InsertInput(t, newId, ask.sha, Target(ask), ask.now),
                     f[Target(ask) := ask.upload.value.bytes])
  {
  }

  /**
   Whatever the table and the disk hold, and whatever goes wrong with the write, a call that is left alone runs
   through the state machine to an answer that `InputResolve.Cache.ResolveInput` may give, with the same effects.
   */
  lemma ResolveIsARun(s: State, h: nat, ask: Ask, newId: int, suffix: string, fault: Fault, unlinkFails: bool)
    returns (run: seq<Event>, reply: Reply)
    requires WellNamedInputs(s.inputs) && Matching(s.hash, s.files) && h !in s.calls && newId !in s.inputs
    requires IsSha(ask.sha) && (ask.upload.Some? ==> IsExt(ask.upload.value.ext))
    requires ask.upload.Some? ==> FreshName(s, TmpSibling(Target(ask), suffix))
    ensures Legal(s, run) && OnlyCall(run, h)
    ensures var t := After(s, run);
      && t.calls == s.calls[h := Answered(ask, reply)] && t.sweep == s.sweep && t.reader == s.reader
      && Resolves(s.hash, s.inputs, s.files, ask, newId, suffix, fault, unlinkFails, reply, t.inputs, t.files)
  {
    BeginDoes(s, h, ask);
    run := [] + [C(h, Begin(ask))];
    if ask.upload.Some? && s.hash(ask.upload.value.bytes) != ask.sha {
      reply := HashMismatch;
      Step(s, [], h, Begin(ask), Answered(ask, reply), s.inputs, s.files);
    } else {
      Step(s, [], h, Begin(ask), Selecting(ask), s.inputs, s.files);
      var row;
      run, row := ReachLookup(s, run, h, ask);
      if IsCached(s.inputs, s.files, ask.sha) {
        reply := Resolved(row.value);
        HitResolves(s.hash, s.inputs, s.files, ask, newId, suffix, fault, unlinkFails, row.value);
      } else {
        run, reply := ReachAnswer(s, run, h, ask, row, newId, suffix, fault, unlinkFails);
      }
    }
  }

  /** From a miss to the answer. */
  lemma ReachAnswer(s: State, before: seq<Event>, h: nat, ask: Ask, row: Option<int>, newId: int, suffix: string,
                    fault: Fault, unlinkFails: bool) returns (run: seq<Event>, reply: Reply)
    requires WellNamedInputs(s.inputs) && h !in s.calls && newId !in s.inputs && IsSha(ask.sha)
    requires ask.upload.Some? ==>
      && IsExt(ask.upload.value.ext) && FreshName(s, TmpSibling(Target(ask), suffix))
      && s.hash(ask.upload.value.bytes) == ask.sha
    requires !IsCached(s.inputs, s.files, ask.sha)
    requires if row.Some? then IsRowOf(s.inputs, ask.sha, row.value) else Insertable(s.inputs, ask.sha)
    requires At(s, before, h, AskForBytes(ask, row), Missed(s.inputs, row), s.files)
    ensures Legal(s, run)
    ensures var t := After(s, run);
      && At(s, run, h, Answered(ask, reply), t.inputs, t.files)
      && Resolves(s.hash, s.inputs, s.files, ask, newId, suffix, fault, unlinkFails, reply, t.inputs, t.files)
  {
    var inputs := Missed(s.inputs, row);
    if ask.upload.None? {
      run, reply := before, NeedUpload(row);
      MissResolves(s.hash, s.inputs, s.files, ask, newId, suffix, fault, unlinkFails, row, s.files);
    } else {
      var files;
      run, files := ReachWritten(s, before, h, ask, row, inputs, s.files, suffix, fault, unlinkFails);
      if fault.NoFault? {
        RecordDoes(After(s, run), h, ask, row, newId);
        reply := Resolved(if row.Some? then row.value else newId);
        var inputs' := if row.Some? then StorePath(inputs, row.value, Target(ask), ask.now)
                       else InsertInput(inputs, newId, ask.sha, Target(ask), ask.now);
        Step(s, run, h, Record(newId), Answered(ask, reply), inputs', files);
        run := run + [C(h, Record(newId))];
        UploadResolves(s.hash, s.inputs, s.files, ask, newId, suffix, unlinkFails, row);
      } else {
        reply := Internal;
        MissResolves(s.hash, s.inputs, s.files, ask, newId, suffix, fault, unlinkFails, row, files);
      }
    }
  }
}
