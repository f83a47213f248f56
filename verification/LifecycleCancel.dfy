/** `cancel_job`: when it may answer 404, and whose job it may interrupt. */
module LifecycleCancel {
  import opened JobTable
  import opened Lifecycle
  import opened LifecycleInvariant
  import opened LifecycleHistory

  /** Step `n` of `run` is the UPDATE number `attempt` of cancel call `h`, which targets `id`. */
  ghost predicate UpdateAt(run: seq<Event>, n: nat, h: nat, id: string, attempt: Attempt) {
    && n < |run| && Legal(INIT, run[..n]) && run[n] == C(h, CancelUpdate)
    && var s := After(INIT, run[..n]);
    && h in s.calls && s.calls[h].Cancelling? && s.calls[h].id == id && s.calls[h].attempt == attempt
  }

  /** Step `k` of `run` is the worker putting the running row `id` back on the queue. */
  ghost predicate RequeueAt(run: seq<Event>, k: nat, id: string) {
    && k < |run| && Legal(INIT, run[..k]) && run[k].W? && run[k].we.Conclude?
    && var s := After(INIT, run[..k]);
    && s.worker == Ending(id, Unreachable) && HasStatus(s.jobs, id, Running)
  }

  ghost predicate QueuedAt(run: seq<Event>, j: nat, id: string) {
    j <= |run| && Legal(INIT, run[..j]) && HasStatus(After(INIT, run[..j]).jobs, id, Queued)
  }

  /** Step `k` put the row back, and it has been queued after every step since. */
  ghost predicate QueuedSince(run: seq<Event>, k: nat, id: string) {
    RequeueAt(run, k, id) && forall j :: k < j <= |run| ==> QueuedAt(run, j, id)
  }

  /** A row a cancel call has already missed as running is not an orphan of an earlier process. */
  ghost predicate NoOrphanMissed(s: State) {
    s.worker.Boot? ==>
      forall h :: h in s.calls && s.calls[h].Cancelling? && !s.calls[h].attempt.First? ==>
        !HasStatus(s.jobs, s.calls[h].id, Running)
  }

  lemma StepKeepsNoOrphan(s: State, e: Event)
    requires Control(s) && NoOrphanMissed(s) && Enabled(s, e)
    ensures NoOrphanMissed(Next(s, e))
  {
    var s' := Next(s, e);
    StatusMoves(s, e);
    if e.W? { WorkerStepTurn(s, e.we); WorkerStepPhase(s, e.we); }
    if s'.worker.Boot? && !(e.E? && e.ee.Crash?) {
      forall h | h in s'.calls && s'.calls[h].Cancelling? && !s'.calls[h].attempt.First?
        ensures !HasStatus(s'.jobs, s'.calls[h].id, Running)
      {
        CancellingCall(s, e, h);
        var id := s'.calls[h].id;
        if id in s'.jobs && id !in s.jobs { RowsAppearQueued(s, e, id); }
      }
    }
  }

  /** A step leaves the calls of others alone, except that `mark_done` may spawn a rendering task. */
  lemma OtherCallsStay(s: State, e: Event, h: nat)
    requires Enabled(s, e) && h in Next(s, e).calls && !(e.C? && e.h == h)
    ensures (h in s.calls && s.calls[h] == Next(s, e).calls[h]) || Next(s, e).calls[h].Rendering?
  {
    if e.W? {
      WorkerStepTurn(s, e.we);
    } else if e.C? {
      OneCallMoves(s, e.h, e.ce, h);
    }
  }

  lemma OneCallMoves(s: State, g: nat, e: CallEvent, h: nat)
    requires CallEnabled(s, g, e) && h != g && h in CallNext(s, g, e).calls
    ensures h in s.calls && s.calls[h] == CallNext(s, g, e).calls[h]
  {
  }

  /** How a call can come to be in a later cancel attempt. */
  lemma CancellingCall(s: State, e: Event, h: nat)
    requires Enabled(s, e) && h in Next(s, e).calls
    requires Next(s, e).calls[h].Cancelling? && !Next(s, e).calls[h].attempt.First?
    ensures h in s.calls && s.calls[h].Cancelling? && s.calls[h].id == Next(s, e).calls[h].id
    ensures s.calls[h] == Next(s, e).calls[h] ||
      (e == C(h, CancelUpdate) && !HasStatus(s.jobs, s.calls[h].id, CancelArm(s.calls[h].attempt)) &&
       Next(s, e).calls[h].attempt == if s.calls[h].attempt.First? then Second else Third)
  {
    if !(e.C? && e.h == h) { OtherCallsStay(s, e, h); }
  }

  lemma {:induction false} AlwaysNoOrphan(run: seq<Event>)
    requires Legal(INIT, run)
    ensures NoOrphanMissed(After(INIT, run))
  {
    if run != [] {
      AlwaysControl(Front(run));
      AlwaysNoOrphan(Front(run));
      StepKeepsNoOrphan(After(INIT, Front(run)), Last(run));
    }
  }

  /** What a cancel call that is on its third UPDATE may still find. */
  ghost predicate MissedTwice(run: seq<Event>, h: nat, id: string, m: nat)
    requires Legal(INIT, run)
  {
    var t := After(INIT, run).jobs;
    && UpdateAt(run, m, h, id, Second)
    && (id in t && !IsTerminal(t[id].status) ==> HasStatus(After(INIT, run[..m]).jobs, id, Running))
    && (HasStatus(t, id, Queued) ==> exists k :: m < k && QueuedSince(run, k, id))
  }

  lemma UpdateAtExtends(run: seq<Event>, n: nat, h: nat, id: string, attempt: Attempt)
    requires run != [] && UpdateAt(Front(run), n, h, id, attempt)
    ensures UpdateAt(run, n, h, id, attempt)
  {
    assert run[..n] == Front(run)[..n];
  }

  lemma RequeueAtExtends(run: seq<Event>, k: nat, id: string)
    requires run != [] && RequeueAt(Front(run), k, id)
    ensures RequeueAt(run, k, id)
  {
    assert run[..k] == Front(run)[..k];
  }

  lemma QueuedAtExtends(run: seq<Event>, j: nat, id: string)
    requires run != [] && QueuedAt(Front(run), j, id)
    ensures QueuedAt(run, j, id)
  {
    assert run[..j] == Front(run)[..j];
  }

  lemma QueuedNow(run: seq<Event>, id: string)
    requires Legal(INIT, run)
    ensures QueuedAt(run, |run|, id) <==> HasStatus(After(INIT, run).jobs, id, Queued)
  {
    assert run[..|run|] == run;
  }

  /** A row that is still queued has been so for one step more. */
  lemma QueuedSinceExtends(run: seq<Event>, k: nat, id: string)
    requires run != [] && QueuedAt(run, |run|, id) && QueuedSince(Front(run), k, id)
    ensures QueuedSince(run, k, id)
  {
    RequeueAtExtends(run, k, id);
    forall j | k < j < |run| ensures QueuedAt(run, j, id) { QueuedAtExtends(run, j, id); }
  }

  lemma {:induction false} ThirdArm(run: seq<Event>, h: nat) returns (m: nat)
    requires Legal(INIT, run)
    requires var s := After(INIT, run); h in s.calls && s.calls[h].Cancelling? && s.calls[h].attempt.Third?
    ensures MissedTwice(run, h, After(INIT, run).calls[h].id, m)
  {
    var s, e := After(INIT, Front(run)), Last(run);
    var id := After(INIT, run).calls[h].id;
    AlwaysControl(Front(run));
    AlwaysNoOrphan(Front(run));
    CancellingCall(s, e, h);
    if s.calls[h].attempt.Second? {
      m := |run| - 1;
    } else {
      m := ThirdArm(Front(run), h);
      UpdateAtExtends(run, m, h, id, Second);
      assert run[..m] == Front(run)[..m];
      StillMissed(run, h, id, m);
    }
  }

  lemma CauseExtends(run: seq<Event>, id: string, m: nat)
    requires run != [] && m < |run| - 1 && QueuedAt(run, |run|, id)
    requires RequeueAt(run, |run| - 1, id) || exists k :: m < k && QueuedSince(Front(run), k, id)
    ensures exists k :: m < k && QueuedSince(run, k, id)
  {
    if k :| m < k && QueuedSince(Front(run), k, id) {
      QueuedSinceExtends(run, k, id);
    } else {
      assert QueuedSince(run, |run| - 1, id);
    }
  }

  lemma LastRequeues(run: seq<Event>, id: string)
    requires run != [] && Legal(INIT, run)
    requires var s := After(INIT, Front(run));
      HasStatus(s.jobs, id, Running) && Last(run).W? && Last(run).we.Conclude? && s.worker == Ending(id, Unreachable)
    ensures RequeueAt(run, |run| - 1, id)
  {
    assert run[..|run| - 1] == Front(run);
  }

  /** One more step cannot bring a missed row back except by a requeue. */
  lemma StillMissed(run: seq<Event>, h: nat, id: string, m: nat)
    requires run != [] && Legal(INIT, run) && MissedTwice(Front(run), h, id, m)
    requires Control(After(INIT, Front(run))) && NoOrphanMissed(After(INIT, Front(run)))
    requires var s := After(INIT, Front(run));
      h in s.calls && s.calls[h].Cancelling? && s.calls[h].id == id && !s.calls[h].attempt.First?
    ensures UpdateAt(run, m, h, id, Second)
    ensures MissedTwice(run, h, id, m)
  {
    var s := After(INIT, Front(run));
    UpdateAtExtends(run, m, h, id, Second);
    assert run[..m] == Front(run)[..m];
    MissedRowMoves(s, Last(run), h, id);
    QueuedNow(run, id);
    if QueuedAt(run, |run|, id) {
      if !HasStatus(s.jobs, id, Queued) { LastRequeues(run, id); }
      CauseExtends(run, id, m);
    }
  }

  /** While a call misses it, a row neither appears nor leaves a terminal status, and only a requeue queues it. */
  lemma MissedRowMoves(s: State, e: Event, h: nat, id: string)
    requires Control(s) && NoOrphanMissed(s) && Enabled(s, e)
    requires h in s.calls && s.calls[h].Cancelling? && s.calls[h].id == id && !s.calls[h].attempt.First?
    ensures var t, t' := s.jobs, Next(s, e).jobs;
      && (id in t' && !IsTerminal(t'[id].status) ==> id in t && !IsTerminal(t[id].status))
      && (HasStatus(t', id, Queued) && !HasStatus(t, id, Queued) ==>
           HasStatus(t, id, Running) && e.W? && e.we.Conclude? && s.worker == Ending(id, Unreachable))
  {
    StatusMoves(s, e);
    if id in Next(s, e).jobs && id !in s.jobs { RowsAppearQueued(s, e, id); }
  }

  /** Call `h` missed the row while it ran, and the worker then put it back, where it has stayed. */
  ghost predicate MissedByRequeue(run: seq<Event>, h: nat, id: string) {
    exists m: nat, k: nat :: m < k && UpdateAt(run, m, h, id, Second) && QueuedSince(run, k, id)
                             && HasStatus(After(INIT, run[..m]).jobs, id, Running)
  }

  lemma QueuedSinceIsQueued(run: seq<Event>, k: nat, id: string)
    requires Legal(INIT, run) && QueuedSince(run, k, id)
    ensures HasStatus(After(INIT, run).jobs, id, Queued)
  {
    assert run[..|run|] == run;
    assert QueuedAt(run, |run|, id);
  }

  lemma MissedByRequeueIsQueued(run: seq<Event>, h: nat, id: string)
    requires Legal(INIT, run) && MissedByRequeue(run, h, id)
    ensures HasStatus(After(INIT, run).jobs, id, Queued)
  {
    var m: nat, k: nat :| m < k && UpdateAt(run, m, h, id, Second) && QueuedSince(run, k, id)
                          && HasStatus(After(INIT, run[..m]).jobs, id, Running);
    QueuedSinceIsQueued(run, k, id);
  }

  /**
   The third UPDATE of a cancel answers 404 exactly when the row is absent or terminal, or the row was running at
   the second UPDATE and the worker requeued it in between and it is queued ever since. In the last case, and only
   then, the 404 leaves the job alive.
   */
  lemma NotFoundExactlyWhen(run: seq<Event>, h: nat)
    requires Legal(INIT, run)
    requires var s := After(INIT, run); h in s.calls && s.calls[h].Cancelling? && s.calls[h].attempt.Third?
    ensures var s := After(INIT, run); var id, s' := s.calls[h].id, CallNext(s, h, CancelUpdate);
      && (s'.calls[h] == Replied(NotFound) <==>
           id !in s.jobs || IsTerminal(s.jobs[id].status) || MissedByRequeue(run, h, id))
      && (s'.calls[h] == Replied(NotFound) && id in s'.jobs && !IsTerminal(s'.jobs[id].status) <==>
           MissedByRequeue(run, h, id))
  {
    var s := After(INIT, run);
    var id := s.calls[h].id;
    var m := ThirdArm(run, h);
    if MissedByRequeue(run, h, id) { MissedByRequeueIsQueued(run, h, id); }
    if HasStatus(s.jobs, id, Queued) {
      var k :| m < k && QueuedSince(run, k, id);
      assert MissedByRequeue(run, h, id);
    }
  }

  /** A 404 is never given before the third UPDATE. */
  lemma NotFoundIsThird(s: State, h: nat)
    requires CallEnabled(s, h, CancelUpdate) && CallNext(s, h, CancelUpdate).calls[h] == Replied(NotFound)
    ensures s.calls[h].attempt.Third?
  {
  }

  /** Step `n` is the UPDATE by which call `h` cancelled the running row `id`. */
  ghost predicate WonRunningAt(run: seq<Event>, n: nat, h: nat, id: string) {
    && (UpdateAt(run, n, h, id, First) || UpdateAt(run, n, h, id, Third))
    && HasStatus(After(INIT, run[..n]).jobs, id, Running)
  }

  lemma {:induction false} InterruptingWon(run: seq<Event>, h: nat) returns (n: nat)
    requires Legal(INIT, run)
    requires var s := After(INIT, run); h in s.calls && s.calls[h].Interrupting?
    ensures WonRunningAt(run, n, h, After(INIT, run).calls[h].id)
  {
    var s, e := After(INIT, Front(run)), Last(run);
    InterruptingCall(s, e, h);
    if h in s.calls && s.calls[h].Interrupting? {
      n := InterruptingWon(Front(run), h);
      assert run[..n] == Front(run)[..n];
    } else {
      n := |run| - 1;
      assert run[..n] == Front(run);
    }
  }

  lemma InterruptingCall(s: State, e: Event, h: nat)
    requires Enabled(s, e) && h in Next(s, e).calls && Next(s, e).calls[h].Interrupting?
    ensures h in s.calls
    ensures s.calls[h] == Next(s, e).calls[h] ||
      (e == C(h, CancelUpdate) && s.calls[h].Cancelling? && !s.calls[h].attempt.Second? &&
       s.calls[h].id == Next(s, e).calls[h].id && HasStatus(s.jobs, s.calls[h].id, Running))
  {
    if !(e.C? && e.h == h) { OtherCallsStay(s, e, h); }
  }

  /** Step `n` is the winning UPDATE of `h`, and the worker was then processing that very job (or had not yet reset). */
  ghost predicate InterruptCause(run: seq<Event>, n: nat, h: nat, id: string) {
    && WonRunningAt(run, n, h, id)
    && var w := After(INIT, run[..n]).worker;
       w.Boot? || (Processing(w) && w.id == id)
  }

  /**
   An interrupt is sent only by a call whose own UPDATE cancelled a running row, and at that instant
   the worker, if past its startup reset, was processing that very job.
   */
  lemma InterruptHasCause(run: seq<Event>, h: nat)
    requires run != [] && Legal(INIT, run) && Last(run) == C(h, SendInterrupt)
    ensures exists n: nat :: n < |run| && InterruptCause(run, n, h, After(INIT, Front(run)).calls[h].id)
  {
    var id := After(INIT, Front(run)).calls[h].id;
    var n := InterruptingWon(Front(run), h);
    WonExtends(run, n, h, id);
    WinnerIsProcessed(run, n, h, id);
  }

  lemma WonExtends(run: seq<Event>, n: nat, h: nat, id: string)
    requires run != [] && WonRunningAt(Front(run), n, h, id)
    ensures WonRunningAt(run, n, h, id)
  {
    assert run[..n] == Front(run)[..n];
  }

  lemma WinnerIsProcessed(run: seq<Event>, n: nat, h: nat, id: string)
    requires WonRunningAt(run, n, h, id)
    ensures InterruptCause(run, n, h, id)
  {
    OneJobRuns(run[..n]);
  }
}
