/** Safety over whole runs: who runs, who wins the terminal write, what stays final. */
module LifecycleHistory {
  import opened JobTable
  import opened Lifecycle
  import opened LifecycleInvariant

  /** At most one job runs; after the startup reset it is exactly the worker's, unless cancelled or deleted. */
  lemma OneJobRuns(run: seq<Event>)
    requires Legal(INIT, run)
    ensures var s := After(INIT, run);
      && (forall a, b :: a in s.jobs && b in s.jobs && s.jobs[a].status.Running? && s.jobs[b].status.Running? ==>
            a == b)
      && (!s.worker.Boot? ==> forall id :: id in s.jobs && s.jobs[id].status.Running? ==>
            Processing(s.worker) && s.worker.id == id)
      && (Processing(s.worker) && s.worker.id in s.jobs ==> s.jobs[s.worker.id].status in {Running, Cancelled})
  {
    AlwaysControl(run);
  }

  // ------------------------ terminal writes -----------------------------

  /** The step answers a cancel 204, or `mark_done`/`mark_failed` hits its row. */
  predicate WinsTerminal(s: State, e: Event, id: string)
    requires Enabled(s, e)
  {
    || (e.W? && e.we.Conclude? && s.worker.id == id && !s.worker.outcome.Unreachable? && HasStatus(s.jobs, id, Running))
    || (e.C? && e.ce.CancelUpdate? && s.calls[e.h].id == id
        && Next(s, e).calls[e.h] in {Interrupting(id), Replied(NoContent)})
  }

  function TerminalWrites(run: seq<Event>, id: string): nat
    requires Legal(INIT, run)
  {
    if run == [] then 0
    else TerminalWrites(Front(run), id) + if WinsTerminal(After(INIT, Front(run)), Last(run), id) then 1 else 0
  }

  /** A terminal write is exactly a step from a live status to a terminal one. */
  lemma WinMakesTerminal(s: State, e: Event, id: string)
    requires Control(s) && Enabled(s, e)
    ensures WinsTerminal(s, e, id) ==> id in s.jobs && id in Next(s, e).jobs
    ensures id in s.jobs && id in Next(s, e).jobs ==>
      (WinsTerminal(s, e, id) <==> !IsTerminal(s.jobs[id].status) && IsTerminal(Next(s, e).jobs[id].status))
  {
    StatusMoves(s, e);
  }

  predicate Pending(s: State, id: string) { exists h :: h in s.calls && s.calls[h].Submitting? && s.calls[h].id == id }

  lemma RowsAppearQueued(s: State, e: Event, id: string)
    requires Control(s) && Enabled(s, e) && id !in s.jobs && id in Next(s, e).jobs
    ensures Pending(s, id) && Next(s, e).jobs[id].status.Queued?
  {
    if e.W? {
      WorkerStepTurn(s, e.we);
      assert false;
    } else if e.C? {
      CallInserts(s, e.h, e.ce, id);
    }
  }

  lemma CallInserts(s: State, h: nat, e: CallEvent, id: string)
    requires CallEnabled(s, h, e) && id !in s.jobs && id in CallNext(s, h, e).jobs
    ensures s.calls[h].Submitting? && s.calls[h].id == id && CallNext(s, h, e).jobs[id].status.Queued?
  {
  }

  lemma PendingAppearsUnseen(s: State, e: Event, id: string)
    requires Enabled(s, e) && Pending(Next(s, e), id)
    ensures Pending(s, id) || id !in s.seen
  {
    if e.W? {
      WorkerStepTurn(s, e.we);
    } else if e.C? {
      var h :| h in Next(s, e).calls && Next(s, e).calls[h].Submitting? && Next(s, e).calls[h].id == id;
      CallSubmits(s, e.h, e.ce, h);
    }
  }

  lemma CallSubmits(s: State, h: nat, e: CallEvent, k: nat)
    requires CallEnabled(s, h, e) && k in CallNext(s, h, e).calls && CallNext(s, h, e).calls[k].Submitting?
    ensures (k in s.calls && s.calls[k] == CallNext(s, h, e).calls[k]) || CallNext(s, h, e).calls[k].id !in s.seen
  {
  }

  /** An absent id that someone has named, and that no insert is waiting for, never appears. */
  predicate Barred(s: State, id: string) { id in s.seen && id !in s.jobs && !Pending(s, id) }

  lemma SeenGrows(s: State, e: Event)
    requires Enabled(s, e)
    ensures s.seen <= Next(s, e).seen
  {
  }

  lemma BarredForever(s: State, e: Event, id: string)
    requires Control(s) && Enabled(s, e) && Barred(s, id)
    ensures Barred(Next(s, e), id)
  {
    SeenGrows(s, e);
    if id in Next(s, e).jobs { RowsAppearQueued(s, e, id); }
    if Pending(Next(s, e), id) { PendingAppearsUnseen(s, e, id); }
  }

  lemma RowGoneIsBarred(s: State, e: Event, id: string)
    requires Control(s) && Enabled(s, e) && id in s.jobs && id !in Next(s, e).jobs
    ensures Barred(Next(s, e), id)
  {
    SeenGrows(s, e);
    if Pending(Next(s, e), id) { PendingAppearsUnseen(s, e, id); }
  }

  /** No job ever gets a second terminal write; it has had one exactly when its row is terminal. */
  lemma {:induction false} TerminalWriteOnce(run: seq<Event>, id: string)
    requires Legal(INIT, run)
    ensures TerminalWrites(run, id) <= 1
    ensures var s := After(INIT, run);
      && (id in s.jobs ==> (TerminalWrites(run, id) == 1 <==> IsTerminal(s.jobs[id].status)))
      && (id !in s.jobs && !Barred(s, id) ==> TerminalWrites(run, id) == 0)
  {
    if run != [] {
      var s, e := After(INIT, Front(run)), Last(run);
      AlwaysControl(Front(run));
      TerminalWriteOnce(Front(run), id);
      WinMakesTerminal(s, e, id);
      StatusMoves(s, e);
      if Barred(s, id) { BarredForever(s, e, id); }
      if id in s.jobs && id !in Next(s, e).jobs { RowGoneIsBarred(s, e, id); }
      if id !in s.jobs && id in Next(s, e).jobs { RowsAppearQueued(s, e, id); }
    }
  }

  /** A prefix of a legal run is legal. */
  lemma {:induction false} LegalPrefix(s: State, run: seq<Event>, n: nat)
    requires Legal(s, run) && n <= |run|
    ensures Legal(s, run[..n])
  {
    if n < |run| {
      assert run[..n] == Front(run)[..n];
      LegalPrefix(s, Front(run), n);
    } else {
      assert run[..n] == run;
    }
  }

  /** Once terminal, a row keeps its status for as long as it exists, whatever happens next. */
  lemma {:induction false} TerminalIsFinal(run: seq<Event>, n: nat, id: string)
    requires Legal(INIT, run) && n <= |run|
    requires Legal(INIT, run[..n]) && id in After(INIT, run[..n]).jobs
    requires IsTerminal(After(INIT, run[..n]).jobs[id].status)
    ensures var s := After(INIT, run);
      Barred(s, id) || (id in s.jobs && s.jobs[id].status == After(INIT, run[..n]).jobs[id].status)
  {
    if n == |run| {
      assert run[..n] == run;
    } else {
      assert run[..n] == Front(run)[..n];
      var s, e := After(INIT, Front(run)), Last(run);
      AlwaysControl(Front(run));
      TerminalIsFinal(Front(run), n, id);
      StatusMoves(s, e);
      if Barred(s, id) {
        BarredForever(s, e, id);
      } else if id !in Next(s, e).jobs {
        RowGoneIsBarred(s, e, id);
      }
    }
  }
}
