/** Row coherence: which columns are set in which status, in every reachable state. */
module LifecycleRows {
  import opened JobTable
  import opened Paths
  import opened Lifecycle
  import opened LifecycleInvariant

  predicate Pristine(r: Row) {
    && r.startedAt.None? && r.comfyPromptId.None? && r.completedAt.None? && r.errorMessage.None?
    && r.progress == 0.0
  }

  predicate HasNoOutput(r: Row) {
    && r.outputPath.None? && r.thumbPath.None? && r.previewPath.None? && r.width.None? && r.height.None?
  }

  predicate Coherent(id: string, r: Row) {
    && 0.0 <= r.progress <= 1.0
    && (r.status.Queued? ==> Pristine(r))
    && (r.completedAt.Some? <==> IsTerminal(r.status))
    && (r.status.Running? ==> r.startedAt.Some?)
    && (r.status.Done? ==> r.startedAt.Some? && r.outputPath.Some? && r.progress == 1.0)
    && (r.errorMessage.Some? <==> r.status.Failed?)
    && (!r.status.Done? ==> HasNoOutput(r))
    && NamesOwnFiles(id, r.outputPath, r.thumbPath, r.previewPath)
  }

  ghost predicate CoherentTable(t: Table) { forall id :: id in t ==> Coherent(id, t[id]) }

  ghost predicate RowsAreCoherent(s: State) {
    && CoherentTable(s.jobs)
    && (s.worker.Ending? && s.worker.outcome.Produced? ==> IsOutputOf(s.worker.id, s.worker.outcome.path))
  }

  lemma ResetKeepsRows(t: Table)
    requires CoherentTable(t)
    ensures CoherentTable(ResetRunning(t))
  {
  }

  lemma ClaimKeepsRows(t: Table, id: string, now: int)
    requires CoherentTable(t)
    ensures CoherentTable(MarkRunning(t, id, now))
  {
  }

  /** The unguarded prompt-id update is harmless because it never lands on a queued row. */
  lemma PromptIdKeepsRows(t: Table, id: string, promptId: string)
    requires CoherentTable(t) && !HasStatus(t, id, Queued)
    ensures CoherentTable(StorePromptId(t, id, promptId))
  {
  }

  lemma ProgressKeepsRows(t: Table, id: string, p: real)
    requires CoherentTable(t) && 0.0 <= p <= 1.0
    ensures CoherentTable(WriteProgress(t, id, p))
  {
  }

  lemma ConcludeKeepsRows(s: State, task: nat)
    requires RowsAreCoherent(s) && s.worker.Ending?
    ensures CoherentTable(ConcludeNext(s, task).jobs)
  {
  }

  lemma WorkerKeepsRows(s: State, e: WorkerEvent)
    requires Control(s) && RowsAreCoherent(s) && WorkerEnabled(s, e)
    ensures RowsAreCoherent(WorkerNext(s, e))
  {
    if e.Reset? {
      ResetKeepsRows(s.jobs);
    } else if e.Claim? {
      ClaimKeepsRows(s.jobs, s.worker.id, s.clock);
    } else if e.GotPromptId? {
      PromptIdKeepsRows(s.jobs, s.worker.id, e.promptId);
    } else if e.Progress? {
      ProgressKeepsRows(s.jobs, s.worker.id, e.p);
    } else if e.Conclude? {
      ConcludeKeepsRows(s, e.task);
    } else {
      assert WorkerNext(s, e).jobs == s.jobs;
    }
  }

  lemma CallKeepsRows(s: State, h: nat, e: CallEvent)
    requires Control(s) && RowsAreCoherent(s) && CallEnabled(s, h, e)
    ensures RowsAreCoherent(CallNext(s, h, e))
  {
  }

  lemma StepKeepsRows(s: State, e: Event)
    requires Control(s) && RowsAreCoherent(s) && Enabled(s, e)
    ensures RowsAreCoherent(Next(s, e))
  {
    if e.W? {
      WorkerKeepsRows(s, e.we);
    } else if e.C? {
      CallKeepsRows(s, e.h, e.ce);
    }
  }

  lemma {:induction false} AlwaysCoherent(run: seq<Event>)
    requires Legal(INIT, run)
    ensures RowsAreCoherent(After(INIT, run))
  {
    if run != [] {
      AlwaysControl(Front(run));
      AlwaysCoherent(Front(run));
      StepKeepsRows(After(INIT, Front(run)), Last(run));
    }
  }
}
