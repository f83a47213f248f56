/** The imperative worker is a special case of the state machine: an undisturbed turn is one of its runs. */
module DrainInService {
  import opened Common
  import opened JobTable
  import opened KeyOrder
  import opened Paths
  import opened Lifecycle
  import opened LifecycleRows
  import opened Drain
  import Comfy

  /** `s` with the row of `id` replaced and the worker somewhere else. */
  function With(s: State, id: string, r: Row, w: Lifecycle.Worker): State { s.(jobs := s.jobs[id := r], worker := w) }

  function ClaimedRow(r: Row, now: int): Row { r.(status := Running, startedAt := Some(now), progress := 0.0) }

  /** Only the worker and the clock step. */
  predicate Alone(run: seq<Event>) {
    forall i :: 0 <= i < |run| ==> run[i].W? || (run[i].E? && run[i].ee.Tick?)
  }

  /** Fetch and claim. */
  lemma ReachClaimed(s: State, id: string, at: int) returns (run: seq<Event>)
    requires s.worker.Draining? && IsOldestQueued(s.jobs, id) && s.clock <= at
    ensures Legal(s, run) && Alone(run)
    ensures After(s, run) == With(s, id, ClaimedRow(s.jobs[id], at), Claimed(id)).(clock := at)
  {
    run := [];
    Extend(s, run, W(FetchSome(id)));
    run := run + [W(FetchSome(id))];
    Extend(s, run, E(Tick(at)));
    run := run + [E(Tick(at))];
    Extend(s, run, W(Claim));
    run := run + [W(Claim)];
  }

  /** The progress writer's statements, one by one. */
  lemma {:induction false} ReachProgress(s: State, before: seq<Event>, written: seq<real>) returns (run: seq<Event>)
    requires Legal(s, before) && Alone(before) && (forall p :: p in written ==> 0.0 <= p <= 1.0)
    requires var t := After(s, before); t.worker.Submitted? && HasStatus(t.jobs, t.worker.id, Running)
    ensures Legal(s, run) && Alone(run)
    ensures var t := After(s, before); var r := t.jobs[t.worker.id];
      After(s, run) == With(t, t.worker.id, r.(progress := Comfy.LastOf(r.progress, written)), t.worker)
    decreases |written|
  {
    var t := After(s, before);
    if written == [] {
      run := before;
      assert With(t, t.worker.id, t.jobs[t.worker.id], t.worker) == t;
    } else {
      var front, p := written[..|written| - 1], written[|written| - 1];
      assert forall q :: q in front ==> q in written;
      run := ReachProgress(s, before, front);
      assert p in written;
      Extend(s, run, W(Progress(p)));
      run := run + [W(Progress(p))];
    }
  }

  /** Everything up to the final statement: the row is as the imperative worker leaves it. */
  lemma ReachWorked(s: State, id: string, a: Drain.Attempt) returns (run: seq<Event>)
    requires s.worker.Draining? && IsOldestQueued(s.jobs, id) && s.clock <= a.claimedAt && Answered(a)
    ensures Legal(s, run) && Alone(run)
    ensures var w := if Submission(a).Going? then Submitted(id) else Claimed(id);
      After(s, run) == With(s, id, WorkedRow(s.jobs[id], a), w).(clock := a.claimedAt)
  {
    run := ReachClaimed(s, id, a.claimedAt);
    if Submission(a).Going? {
      var promptId := Submission(a).promptId;
      Extend(s, run, W(GotPromptId(promptId)));
      run := run + [W(GotPromptId(promptId))];
      Comfy.FractionsAreFractions(a.frames, promptId);
      Comfy.ThrottleBound(0.0, Comfy.Await(a.frames, promptId).fractions);
      run := ReachProgress(s, run, StoredProgress(a, promptId));
    }
  }

  /** An output is collected only for a submitted job, and bears its name. */
  lemma ProducedIsNamed(id: string, a: Drain.Attempt) returns (f: string)
    requires Answered(a) && IsUuid(id) && Judge(id, a).Produced?
    ensures Submission(a).Going? && OutputPrefix(id) <= f
    ensures DataPath(OUTPUTS, f) == Some(Judge(id, a).path)
  {
    var entry := Comfy.Retried(a.history, Comfy.Safe).value;
    Comfy.PrimaryOutputIsOwn(entry.value.images, id);
    f := Comfy.PrimaryOutput(entry.value.images, OutputPrefix(id)).value;
  }

  lemma ReachEnding(s: State, id: string, a: Drain.Attempt) returns (run: seq<Event>)
    requires s.worker.Draining? && IsOldestQueued(s.jobs, id) && IsUuid(id)
    requires s.clock <= a.claimedAt <= a.endedAt && Answered(a)
    ensures Legal(s, run) && Alone(run)
    ensures var t := After(s, run);
      t == With(s, id, WorkedRow(s.jobs[id], a), Ending(id, Judge(id, a))).(clock := a.endedAt, files := t.files)
  {
    run := ReachWorked(s, id, a);
    Extend(s, run, E(Tick(a.endedAt)));
    run := run + [E(Tick(a.endedAt))];
    var outcome := Judge(id, a);
    if outcome.Produced? {
      var f := ProducedIsNamed(id, a);
      Extend(s, run, W(SaveOutput(f, outcome.width, outcome.height)));
      run := run + [W(SaveOutput(f, outcome.width, outcome.height))];
    } else {
      Extend(s, run, W(Stop(outcome)));
      run := run + [W(Stop(outcome))];
    }
  }

  lemma ConcludeSettles(t: State, id: string, r: Row, a: Drain.Attempt, task: nat)
    requires Answered(a) && Coherent(id, r) && r.status.Queued?
    requires t.worker == Ending(id, Judge(id, a)) && t.clock == a.endedAt
    requires id in t.jobs && t.jobs[id] == WorkedRow(r, a)
    ensures var t' := ConcludeNext(t, task);
      && t'.jobs == t.jobs[id := SettledRow(id, r, a)]
      && t'.worker == (if Judge(id, a).Unreachable? then Backoff else Draining)
  {
    RequeueUndoesTheClaim(id, r, a);
  }

  /**
   What `Drain.Worker.ProcessAndSettle` does to the table is what the state machine's worker does when
   nobody else steps, for every answer of the backend; so everything proved of runs holds of the loop.
   */
  lemma TurnIsARun(s: State, id: string, a: Drain.Attempt, task: nat) returns (run: seq<Event>)
    requires s.worker.Draining? && IsOldestQueued(s.jobs, id) && IsUuid(id) && Coherent(id, s.jobs[id])
    requires s.clock <= a.claimedAt <= a.endedAt && Answered(a) && task !in s.calls
    ensures Legal(s, run) && Alone(run)
    ensures var t := After(s, run);
      && t.jobs == s.jobs[id := SettledRow(id, s.jobs[id], a)] && t.clock == a.endedAt
      && t.worker == (if Judge(id, a).Unreachable? then Backoff else Draining)
      && t.wake == s.wake && t.purge == s.purge && s.calls.Keys <= t.calls.Keys
  {
    run := ReachEnding(s, id, a);
    ConcludeSettles(After(s, run), id, s.jobs[id], a, task);
    var settled := SettledRow(id, s.jobs[id], a);
    assert s.jobs[id := WorkedRow(s.jobs[id], a)][id := settled] == s.jobs[id := settled];
    Extend(s, run, W(Conclude(task)));
    run := run + [W(Conclude(task))];
  }

  /** What the jobs of one drain meet comes one after the other. */
  ghost predicate Follows(from: int, world: nat -> Drain.Attempt) {
    && (forall n :: Answered(world(n)) && world(n).claimedAt <= world(n).endedAt)
    && from <= world(0).claimedAt
    && forall n: nat :: world(n).endedAt <= world(n + 1).claimedAt
  }

  ghost predicate UuidsOnly(t: Table) { forall id :: id in t ==> IsUuid(id) }

  /** The state after the first `n` jobs of a drain, none of which met a dead backend. */
  lemma {:induction false} ReachTurns(s: State, claimed: seq<string>, world: nat -> Drain.Attempt, n: nat)
    returns (run: seq<Event>)
    requires s.worker.Draining? && CoherentTable(s.jobs) && UuidsOnly(s.jobs) && Follows(s.clock, world)
    requires n <= |claimed| <= |Queue(s.jobs)| && (forall i :: 0 <= i < |claimed| ==> claimed[i] == Queue(s.jobs)[i].id)
    requires NoneUnreachable(claimed[..n], world)
    ensures Legal(s, run) && Alone(run)
    ensures var t := After(s, run);
      && t.worker.Draining? && t.clock <= world(n).claimedAt && DrainInvariant(s.jobs, t.jobs, claimed[..n], world)
  {
    if n == 0 {
      run := [];
      NothingClaimed(s.jobs, world);
      assert claimed[..0] == [];
    } else {
      OneMoreReached(claimed, world, n - 1);
      run := ReachTurns(s, claimed, world, n - 1);
      run := NextTurn(s, run, claimed, world, n - 1);
    }
  }

  lemma NothingClaimed(t: Table, world: nat -> Drain.Attempt)
    requires forall n :: Answered(world(n))
    ensures DrainInvariant(t, t, [], world)
  {
    assert Queue(t)[0..] == Queue(t);
  }

  lemma OneMoreReached(claimed: seq<string>, world: nat -> Drain.Attempt, n: nat)
    requires (forall n :: Answered(world(n))) && n < |claimed| && NoneUnreachable(claimed[..n + 1], world)
    ensures NoneUnreachable(claimed[..n], world) && !Judge(claimed[n], world(n)).Unreachable?
    ensures claimed[..n + 1] == claimed[..n] + [claimed[n]]
  {
    assert claimed[..n + 1][n] == claimed[n];
    assert forall i :: 0 <= i < n ==> claimed[..n][i] == claimed[..n + 1][i];
  }

  /** The job whose turn it is in the original queue is the oldest one now, and untouched. */
  lemma NextIsOldest(t0: Table, t: Table, claimed: seq<string>, world: nat -> Drain.Attempt, id: string)
    requires (forall n :: Answered(world(n))) && CoherentTable(t0) && DrainInvariant(t0, t, claimed, world)
    requires |claimed| < |Queue(t0)| && id == Queue(t0)[|claimed|].id
    ensures IsOldestQueued(t, id) && id !in claimed && t[id] == t0[id] && Coherent(id, t[id])
  {
    assert Queue(t)[0] == Queue(t0)[|claimed|];
    OldestIsFirst(t, id);
    NextIsUntouched(t0, t, claimed, world, id);
  }

  /** The turn that takes the next job, from the state it begins in. */
  lemma OneTurn(t0: Table, t: State, claimed: seq<string>, world: nat -> Drain.Attempt, id: string)
    returns (turn: seq<Event>)
    requires CoherentTable(t0) && UuidsOnly(t0) && forall n :: Answered(world(n))
    requires t.worker.Draining? && DrainInvariant(t0, t.jobs, claimed, world)
    requires |claimed| < |Queue(t0)| && id == Queue(t0)[|claimed|].id
    requires var a := world(|claimed|); t.clock <= a.claimedAt <= a.endedAt
    ensures Legal(t, turn) && Alone(turn)
    ensures var t', dead := After(t, turn), Judge(id, world(|claimed|)).Unreachable?;
      && t'.worker == (if dead then Backoff else Draining) && t'.clock == world(|claimed|).endedAt
      && SettledSoFar(t0, t'.jobs, claimed + [id], world)
      && (!dead ==> DrainInvariant(t0, t'.jobs, claimed + [id], world))
  {
    NextIsOldest(t0, t.jobs, claimed, world, id);
    var task := FreshNat(t.calls.Keys);
    turn := TurnIsARun(t, id, world(|claimed|), task);
    TurnKeepsDraining(t0, t.jobs, After(t, turn).jobs, claimed, world, id);
  }

  /** The turn that takes `claimed[n]`. */
  lemma NextTurn(s: State, before: seq<Event>, claimed: seq<string>, world: nat -> Drain.Attempt, n: nat)
    returns (run: seq<Event>)
    requires CoherentTable(s.jobs) && UuidsOnly(s.jobs) && Follows(s.clock, world) && Legal(s, before) && Alone(before)
    requires n < |claimed| <= |Queue(s.jobs)| && claimed[n] == Queue(s.jobs)[n].id
    requires var t := After(s, before);
      && t.worker.Draining? && t.clock <= world(n).claimedAt && DrainInvariant(s.jobs, t.jobs, claimed[..n], world)
    ensures Legal(s, run) && Alone(run)
    ensures var t, dead := After(s, run), Judge(claimed[n], world(n)).Unreachable?;
      && t.worker == (if dead then Backoff else Draining) && t.clock == world(n).endedAt
      && SettledSoFar(s.jobs, t.jobs, claimed[..n] + [claimed[n]], world)
      && (!dead ==> DrainInvariant(s.jobs, t.jobs, claimed[..n] + [claimed[n]], world))
  {
    var turn := OneTurn(s.jobs, After(s, before), claimed[..n], world, claimed[n]);
    run := before + turn;
    Compose(s, before, turn);
  }

  lemma {:induction false} Compose(s: State, a: seq<Event>, b: seq<Event>)
    requires Legal(s, a) && Legal(After(s, a), b)
    ensures Legal(s, a + b) && After(s, a + b) == After(After(s, a), b)
  {
    if b == [] {
      assert a + b == a;
    } else {
      Compose(s, a, Front(b));
      assert Front(a + b) == a + Front(b);
    }
  }

  lemma SettledIsUnique(t0: Table, t: Table, t': Table, claimed: seq<string>, world: nat -> Drain.Attempt)
    requires forall n :: Answered(world(n))
    requires SettledSoFar(t0, t, claimed, world) && SettledSoFar(t0, t', claimed, world)
    ensures t == t'
  {
    forall id | id in t ensures t[id] == t'[id] {
      if id in claimed {
        var i :| 0 <= i < |claimed| && claimed[i] == id;
      }
    }
  }

  /**
   Whatever `Drain.Worker.Drain` may do is a run of the state machine in which only the worker and the clock
   step: it ends parked on an empty queue, or backing off from a dead backend, with the very same table.
   */
  lemma DrainIsARun(s: State, t: Table, claimed: seq<string>, unreachable: bool, world: nat -> Drain.Attempt)
    returns (run: seq<Event>)
    requires s.worker.Draining? && CoherentTable(s.jobs) && UuidsOnly(s.jobs) && Follows(s.clock, world)
    requires Drained(s.jobs, t, claimed, unreachable, world)
    ensures Legal(s, run) && Alone(run) && After(s, run).jobs == t
    ensures After(s, run).worker == if unreachable then Backoff else Parked(true)
  {
    if unreachable {
      run := CutShortIsARun(s, claimed, world);
    } else {
      run := EmptiedIsARun(s, claimed, world);
    }
    SettledIsUnique(s.jobs, After(s, run).jobs, t, claimed, world);
  }

  /** All jobs but the last are settled; the last meets a dead backend. */
  lemma CutShortIsARun(s: State, claimed: seq<string>, world: nat -> Drain.Attempt) returns (run: seq<Event>)
    requires s.worker.Draining? && CoherentTable(s.jobs) && UuidsOnly(s.jobs) && Follows(s.clock, world)
    requires 0 < |claimed| <= |Queue(s.jobs)| && (forall i :: 0 <= i < |claimed| ==> claimed[i] == Queue(s.jobs)[i].id)
    requires NoneUnreachable(claimed[..|claimed| - 1], world)
    requires Judge(claimed[|claimed| - 1], world(|claimed| - 1)).Unreachable?
    ensures Legal(s, run) && Alone(run)
    ensures After(s, run).worker == Backoff && SettledSoFar(s.jobs, After(s, run).jobs, claimed, world)
  {
    var n := |claimed| - 1;
    run := ReachTurns(s, claimed, world, n);
    run := NextTurn(s, run, claimed, world, n);
    assert claimed[..n] + [claimed[n]] == claimed;
  }

  /** All jobs are settled and nothing is queued. */
  lemma EmptiedIsARun(s: State, claimed: seq<string>, world: nat -> Drain.Attempt) returns (run: seq<Event>)
    requires s.worker.Draining? && CoherentTable(s.jobs) && UuidsOnly(s.jobs) && Follows(s.clock, world)
    requires |claimed| == |Queue(s.jobs)| && (forall i :: 0 <= i < |claimed| ==> claimed[i] == Queue(s.jobs)[i].id)
    requires NoneUnreachable(claimed, world)
    ensures Legal(s, run) && Alone(run)
    ensures After(s, run).worker == Parked(true) && SettledSoFar(s.jobs, After(s, run).jobs, claimed, world)
  {
    assert claimed[..|claimed|] == claimed;
    run := ReachTurns(s, claimed, world, |claimed|);
    NothingQueued(After(s, run).jobs);
    Extend(s, run, W(FetchNone));
    run := run + [W(FetchNone)];
  }

  lemma NothingQueued(t: Table)
    requires Queue(t) == []
    ensures forall id :: id in t ==> !LiveQueued(t[id])
  {
    forall id | id in t ensures !LiveQueued(t[id]) {
      if LiveQueued(t[id]) { RowIsQueued(t, id); }
    }
  }
}
