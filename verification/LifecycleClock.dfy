/** What a job is never changes, and its timestamps are ordered (the clock never runs back). */
module LifecycleClock {
  import opened Common
  import opened JobTable
  import opened Lifecycle
  import opened LifecycleInvariant
  import opened LifecycleHistory

  predicate Within(from: int, at: Option<int>, to: int) { at.Some? ==> from <= at.value <= to }

  predicate Timely(r: Row, clock: int) {
    && r.createdAt <= clock
    && Within(r.createdAt, r.startedAt, clock)
    && Within(r.createdAt, r.completedAt, clock)
    && Within(r.createdAt, r.deletedAt, clock)
    && ((r.status.Done? || r.status.Failed?) && r.startedAt.Some? && r.completedAt.Some? ==>
         r.startedAt.value <= r.completedAt.value)
  }

  ghost predicate TimelyTable(t: Table, clock: int) { forall id :: id in t ==> Timely(t[id], clock) }

  /** The time a call read on arrival is past, and not before the row it names was created. */
  predicate TimelyCall(s: State, c: Call) {
    && (c.Submitting? ==> c.now <= s.clock)
    && (c.Cancelling? ==> c.now <= s.clock && (c.id in s.jobs ==> s.jobs[c.id].createdAt <= c.now))
    && (c.Deleting? ==> c.now <= s.clock && (c.id in s.jobs ==> s.jobs[c.id].createdAt <= c.now))
  }

  ghost predicate OnTime(s: State) {
    && TimelyTable(s.jobs, s.clock)
    && forall h :: h in s.calls ==> TimelyCall(s, s.calls[h])
  }

  /** No statement rewrites a submitted column: input, prompt, workflow, seed or creation time. */
  ghost predicate SameJobs(t: Table, t': Table) {
    forall id :: id in t && id in t' ==> t'[id].spec == t[id].spec && t'[id].createdAt == t[id].createdAt
  }

  lemma WorkerKeepsIdentity(s: State, e: WorkerEvent)
    requires WorkerEnabled(s, e)
    ensures SameJobs(s.jobs, WorkerNext(s, e).jobs)
  {
    if e.Conclude? { ConcludeKeepsIdentity(s, e.task); }
  }

  lemma ConcludeKeepsIdentity(s: State, task: nat)
    requires s.worker.Ending?
    ensures SameJobs(s.jobs, ConcludeNext(s, task).jobs)
  {
  }

  lemma CallKeepsIdentity(s: State, h: nat, e: CallEvent)
    requires PendingIdsAreNew(s) && CallEnabled(s, h, e)
    ensures SameJobs(s.jobs, CallNext(s, h, e).jobs)
  {
  }

  lemma StepKeepsIdentity(s: State, e: Event)
    requires Control(s) && Enabled(s, e)
    ensures SameJobs(s.jobs, Next(s, e).jobs)
  {
    if e.W? {
      WorkerKeepsIdentity(s, e.we);
    } else if e.C? {
      CallKeepsIdentity(s, e.h, e.ce);
    }
  }

  /** The same id means the same job at any two moments of a run. */
  lemma {:induction false} JobIdentity(run: seq<Event>, n: nat, id: string)
    requires Legal(INIT, run) && n <= |run| && Legal(INIT, run[..n])
    requires id in After(INIT, run[..n]).jobs
    ensures var t, s := After(INIT, run[..n]).jobs, After(INIT, run);
      if id in s.jobs then s.jobs[id].spec == t[id].spec && s.jobs[id].createdAt == t[id].createdAt
      else Barred(s, id)
  {
    if n == |run| {
      assert run[..n] == run;
    } else {
      assert run[..n] == Front(run)[..n];
      var s, e := After(INIT, Front(run)), Last(run);
      AlwaysControl(Front(run));
      JobIdentity(Front(run), n, id);
      StepKeepsIdentity(s, e);
      if Barred(s, id) {
        BarredForever(s, e, id);
      } else if id !in Next(s, e).jobs {
        RowGoneIsBarred(s, e, id);
      }
    }
  }

  lemma ConcludeKeepsTable(s: State, task: nat)
    requires TimelyTable(s.jobs, s.clock) && s.worker.Ending?
    ensures TimelyTable(ConcludeNext(s, task).jobs, s.clock)
  {
  }

  lemma ClaimKeepsTable(t: Table, id: string, clock: int)
    requires TimelyTable(t, clock)
    ensures TimelyTable(MarkRunning(t, id, clock), clock)
  {
  }

  lemma ResetKeepsTable(t: Table, clock: int)
    requires TimelyTable(t, clock)
    ensures TimelyTable(ResetRunning(t), clock)
  {
  }

  lemma WorkerKeepsTable(s: State, e: WorkerEvent)
    requires TimelyTable(s.jobs, s.clock) && WorkerEnabled(s, e)
    ensures TimelyTable(WorkerNext(s, e).jobs, s.clock)
  {
    if e.Conclude? {
      ConcludeKeepsTable(s, e.task);
    } else if e.Claim? {
      ClaimKeepsTable(s.jobs, s.worker.id, s.clock);
    } else if e.Reset? {
      ResetKeepsTable(s.jobs, s.clock);
    }
  }

  lemma CallKeepsTable(s: State, h: nat, e: CallEvent)
    requires OnTime(s) && CallEnabled(s, h, e)
    ensures TimelyTable(CallNext(s, h, e).jobs, s.clock)
  {
  }

  lemma CallKeepsCalls(s: State, h: nat, e: CallEvent)
    requires Control(s) && OnTime(s) && CallEnabled(s, h, e)
    ensures forall k :: k in CallNext(s, h, e).calls ==> TimelyCall(CallNext(s, h, e), CallNext(s, h, e).calls[k])
  {
    CallKeepsIdentity(s, h, e);
  }

  lemma WorkerKeepsTime(s: State, e: WorkerEvent)
    requires OnTime(s) && WorkerEnabled(s, e)
    ensures OnTime(WorkerNext(s, e))
  {
    WorkerKeepsTable(s, e);
    WorkerKeepsIdentity(s, e);
    WorkerStepTurn(s, e);
  }

  lemma CallKeepsTime(s: State, h: nat, e: CallEvent)
    requires Control(s) && OnTime(s) && CallEnabled(s, h, e)
    ensures OnTime(CallNext(s, h, e))
  {
    CallKeepsTable(s, h, e);
    CallKeepsCalls(s, h, e);
  }

  lemma PurgeKeepsTime(s: State, e: PurgeEvent)
    requires OnTime(s) && PurgeEnabled(s, e)
    ensures OnTime(PurgeNext(s, e))
  {
  }

  lemma StepKeepsTime(s: State, e: Event)
    requires Control(s) && OnTime(s) && Enabled(s, e)
    ensures OnTime(Next(s, e))
  {
    if e.W? {
      WorkerKeepsTime(s, e.we);
    } else if e.C? {
      CallKeepsTime(s, e.h, e.ce);
    } else if e.P? {
      PurgeKeepsTime(s, e.pe);
    }
  }

  /** `list_jobs` never reports a negative duration, and no finished job ended before it started. */
  lemma {:induction false} AlwaysOnTime(run: seq<Event>)
    requires Legal(INIT, run)
    ensures OnTime(After(INIT, run))
  {
    if run != [] {
      AlwaysControl(Front(run));
      AlwaysOnTime(Front(run));
      StepKeepsTime(After(INIT, Front(run)), Last(run));
    }
  }
}
