/** What a submit leaves in the table, over whole runs. */
module LifecycleSubmit {
  import opened Common
  import opened JobTable
  import opened Lifecycle
  import opened LifecycleInvariant
  import opened LifecycleClock

  /** The row of a submitted job is visible, queued and pristine after the insert, and carries what was submitted. */
  lemma InsertedRow(s: State, h: nat, e: CallEvent)
    requires CallEnabled(s, h, e) && (e.DoInsert? || e.LoseInsert?)
    ensures var c, s' := s.calls[h], CallNext(s, h, e);
      && c.id in s'.jobs
      && s'.jobs[c.id] == Row(c.spec, c.now, Queued, None, None, None, None, None, None, None, None, None, None, 0.0)
      && s'.jobs[c.id].spec == c.spec && s'.jobs[c.id].createdAt == c.now
      && s'.jobs[c.id].deletedAt == None && s'.jobs[c.id].progress == 0.0
      && (forall other :: other != c.id ==> (other in s'.jobs <==> other in s.jobs))
      && (forall other :: other in s.jobs && other != c.id ==> s'.jobs[other] == s.jobs[other])
  {
  }

  /** Wherever the id stands, the submitted spec and time stand beside it. */
  ghost predicate CarriesSubmit(s: State, id: string, spec: JobSpec, now: int) {
    && id in s.seen
    && (id in s.jobs ==> s.jobs[id].spec == spec && s.jobs[id].createdAt == now)
    && (forall h :: h in s.calls && s.calls[h].Submitting? && s.calls[h].id == id ==>
         s.calls[h].spec == spec && s.calls[h].now == now)
  }

  lemma WorkerCarries(s: State, e: WorkerEvent, id: string, spec: JobSpec, now: int)
    requires CarriesSubmit(s, id, spec, now) && WorkerEnabled(s, e)
    ensures CarriesSubmit(WorkerNext(s, e), id, spec, now)
  {
    WorkerStepTurn(s, e);
    WorkerKeepsIdentity(s, e);
  }

  lemma CallCarries(s: State, h: nat, e: CallEvent, id: string, spec: JobSpec, now: int)
    requires CarriesSubmit(s, id, spec, now) && CallEnabled(s, h, e)
    ensures CarriesSubmit(CallNext(s, h, e), id, spec, now)
  {
  }

  lemma StepCarries(s: State, e: Event, id: string, spec: JobSpec, now: int)
    requires CarriesSubmit(s, id, spec, now) && Enabled(s, e)
    ensures CarriesSubmit(Next(s, e), id, spec, now)
  {
    if e.W? {
      WorkerCarries(s, e.we, id, spec, now);
    } else if e.C? {
      CallCarries(s, e.h, e.ce, id, spec, now);
    }
  }

  /** A job found in the table at any later moment is the one that was submitted, at the time it was submitted. */
  lemma {:induction false} SubmitLands(run: seq<Event>, n: nat, h: nat, id: string, spec: JobSpec)
    requires Legal(INIT, run) && n < |run| && Legal(INIT, run[..n]) && run[n] == C(h, Submit(id, spec))
    ensures CarriesSubmit(After(INIT, run), id, spec, After(INIT, run[..n]).clock)
    ensures var s := After(INIT, run);
      id in s.jobs ==> s.jobs[id].spec == spec && s.jobs[id].createdAt == After(INIT, run[..n]).clock
  {
    var s := After(INIT, Front(run));
    if n == |run| - 1 {
      assert run[..n] == Front(run);
      AlwaysControl(Front(run));
    } else {
      assert run[..n] == Front(run)[..n] && Front(run)[n] == run[n];
      SubmitLands(Front(run), n, h, id, spec);
      StepCarries(s, Last(run), id, spec, After(INIT, run[..n]).clock);
    }
  }

  // ------------------------- what calls answer --------------------------

  /** DELETE hides exactly a visible row, and answers 204 exactly then. */
  lemma DeleteAnswers(s: State, h: nat)
    requires CallEnabled(s, h, DeleteUpdate)
    ensures var c, s' := s.calls[h], CallNext(s, h, DeleteUpdate);
      if c.id in s.jobs && s.jobs[c.id].deletedAt == None then
        && s'.calls[h] == Replied(NoContent)
        && s'.jobs == s.jobs[c.id := s.jobs[c.id].(deletedAt := Some(c.now))]
      else s'.calls[h] == Replied(NotFound) && s'.jobs == s.jobs
  {
  }

  /** Restore shows exactly a hidden row, and answers 204 exactly then. */
  lemma RestoreAnswers(s: State, h: nat)
    requires CallEnabled(s, h, RestoreUpdate)
    ensures var c, s' := s.calls[h], CallNext(s, h, RestoreUpdate);
      if c.id in s.jobs && s.jobs[c.id].deletedAt != None then
        && s'.calls[h] == Replied(NoContent)
        && s'.jobs == s.jobs[c.id := s.jobs[c.id].(deletedAt := None)]
      else s'.calls[h] == Replied(NotFound) && s'.jobs == s.jobs
  {
  }

  /** A cancel's three UPDATEs try running, queued, running; a hit ends it, and only a running row is interrupted. */
  lemma CancelAnswers(s: State, h: nat)
    requires CallEnabled(s, h, CancelUpdate)
    ensures var c, s' := s.calls[h], CallNext(s, h, CancelUpdate);
      var hit := c.id in s.jobs && s.jobs[c.id].status == (if c.attempt == Second then Queued else Running);
      && (hit ==>
           && s'.jobs == s.jobs[c.id := s.jobs[c.id].(status := Cancelled, completedAt := Some(c.now))]
           && s'.calls[h] == (if c.attempt == Second then Replied(NoContent) else Interrupting(c.id)))
      && (!hit ==> s'.jobs == s.jobs)
      && (!hit && c.attempt == First ==> s'.calls[h] == Cancelling(c.id, c.now, Second))
      && (!hit && c.attempt == Second ==> s'.calls[h] == Cancelling(c.id, c.now, Third))
      && (!hit && c.attempt == Third ==> s'.calls[h] == Replied(NotFound))
  {
  }

  /** A submit's wake fills the channel, and the client learns the id of the inserted job. */
  lemma SubmitAnswers(s: State, h: nat)
    requires CallEnabled(s, h, TrySend)
    ensures var s' := CallNext(s, h, TrySend);
      s'.wake && s'.calls[h] == Replied(Accepted(s.calls[h].id)) && s'.jobs == s.jobs
  {
  }
}
