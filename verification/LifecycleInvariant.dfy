/** What every step of the lifecycle keeps, and hence what every reachable state satisfies. */
module LifecycleInvariant {
  import opened JobTable
  import opened Paths
  import opened Lifecycle

  // ------------------- who may be in which status -----------------------

  ghost predicate AtMostOneRunning(t: Table) {
    forall a, b :: a in t && b in t && t[a].status.Running? && t[b].status.Running? ==> a == b
  }

  /** Once the startup reset has run, a running row is the one being processed. */
  ghost predicate RunningIsProcessed(s: State) {
    forall id :: id in s.jobs && s.jobs[id].status.Running? && !s.worker.Boot? ==>
      Processing(s.worker) && s.worker.id == id
  }

  /** A claimed job is running, cancelled or gone until the worker's own final write. */
  ghost predicate ProcessedIsOurs(s: State) {
    Processing(s.worker) ==>
      (s.worker.id in s.jobs ==> s.jobs[s.worker.id].status.Running? || s.jobs[s.worker.id].status.Cancelled?)
  }

  predicate NamesJob(c: Call) { !c.Replied? }

  predicate HoldsJob(w: Worker) { w.Fetched? || Processing(w) }

  /** The id of a pending insert is new to the table … */
  ghost predicate PendingIdsAreNew(s: State) {
    forall h :: h in s.calls && s.calls[h].Submitting? ==>
      && s.calls[h].id !in s.jobs && IsUuid(s.calls[h].id)
      && (HoldsJob(s.worker) ==> s.calls[h].id != s.worker.id)
  }

  /** … and unknown to every other call. */
  ghost predicate PendingIdsAreSecret(s: State) {
    forall h, k :: h in s.calls && k in s.calls && h != k && s.calls[h].Submitting? && NamesJob(s.calls[k])
      ==> s.calls[h].id != s.calls[k].id
  }

  ghost predicate IdsAreSeen(s: State) {
    && (forall id :: id in s.jobs ==> id in s.seen && IsUuid(id))
    && (forall h :: h in s.calls && NamesJob(s.calls[h]) ==> s.calls[h].id in s.seen)
    && (HoldsJob(s.worker) ==> s.worker.id in s.seen && IsUuid(s.worker.id))
  }

  ghost predicate RenderedIsDone(s: State) {
    forall h :: h in s.calls && s.calls[h].Rendering? ==>
      (s.calls[h].id in s.jobs ==> s.jobs[s.calls[h].id].status.Done?)
  }

  ghost predicate Control(s: State) {
    && AtMostOneRunning(s.jobs)
    && RunningIsProcessed(s)
    && ProcessedIsOurs(s)
    && PendingIdsAreNew(s)
    && PendingIdsAreSecret(s)
    && IdsAreSeen(s)
    && RenderedIsDone(s)
  }

  // --------------------- how a status can change ------------------------

  function Verdict(o: Outcome): Status {
    match o case Unreachable => Queued case Errored(_) => Failed case Produced(_, _, _) => Done
  }

  function CancelArm(a: Attempt): Status { if a.Second? then Queued else Running }

  /** The only ways one step can take the row `id` from one status to another. */
  predicate Move(s: State, e: Event, id: string, from: Status, to: Status) {
    || from == to
    || (e.W? && e.we.Reset? && from.Running? && to.Queued?)
    || (e.W? && e.we.Claim? && s.worker.Fetched? && id == s.worker.id && from.Queued? && to.Running?)
    || (e.W? && e.we.Conclude? && s.worker.Ending? && id == s.worker.id
        && from.Running? && to == Verdict(s.worker.outcome))
    || (e.C? && e.ce.CancelUpdate? && e.h in s.calls && s.calls[e.h].Cancelling? && id == s.calls[e.h].id
        && from == CancelArm(s.calls[e.h].attempt) && to.Cancelled?)
  }

  ghost predicate Moves(s: State, e: Event, s': State) {
    forall id :: id in s'.jobs && id in s.jobs ==> Move(s, e, id, s.jobs[id].status, s'.jobs[id].status)
  }

  lemma WorkerMoves(s: State, e: WorkerEvent)
    requires WorkerEnabled(s, e)
    ensures Moves(s, W(e), WorkerNext(s, e))
  {
  }

  lemma CallMoves(s: State, h: nat, e: CallEvent)
    requires PendingIdsAreNew(s) && CallEnabled(s, h, e)
    ensures Moves(s, C(h, e), CallNext(s, h, e))
  {
  }

  /** Every step follows the status diagram: a row never moves otherwise. */
  lemma StatusMoves(s: State, e: Event)
    requires Control(s) && Enabled(s, e)
    ensures Moves(s, e, Next(s, e))
  {
    match e
    case W(we) => WorkerMoves(s, we);
    case C(h, ce) => CallMoves(s, h, ce);
    case P(pe) =>
    case E(ee) =>
  }

  // ----------------------- the worker keeps Control ----------------------

  /** What a worker step does to ids, calls and the worker's own job. */
  ghost predicate WorkerTurn(s: State, e: WorkerEvent, s': State) {
    && s'.jobs.Keys == s.jobs.Keys
    && s'.seen == s.seen
    && (HoldsJob(s'.worker) ==> (HoldsJob(s.worker) && s'.worker.id == s.worker.id) || s'.worker.id in s.jobs)
    && (forall h :: h in s'.calls ==>
         || (h in s.calls && s'.calls[h] == s.calls[h])
         || (s'.calls[h].Rendering? && e.Conclude? && s.worker.Ending? && s'.calls[h].id == s.worker.id
             && HasStatus(s.jobs, s.worker.id, Running) && s.worker.outcome.Produced?))
  }

  ghost predicate WorkerPhase(s: State, e: WorkerEvent, s': State) {
    && (s'.worker.Boot? <==> s.worker.Boot? && !e.Reset?)
    && (Processing(s.worker) && !e.Conclude? ==> Processing(s'.worker) && s'.worker.id == s.worker.id)
    && (Processing(s'.worker) ==>
         || (Processing(s.worker) && !e.Conclude? && s'.worker.id == s.worker.id)
         || (e.Claim? && s.worker.Fetched? && s'.worker.id == s.worker.id && HasStatus(s'.jobs, s.worker.id, Running)))
    && (e.Conclude? ==> Processing(s.worker) && (s.worker.id in s'.jobs ==> !s'.jobs[s.worker.id].status.Running?))
    && (e.Claim? ==> s.worker.Fetched? && (Processing(s'.worker) || s'.jobs == s.jobs))
    && (e.Reset? ==> s.worker.Boot? && forall id :: id in s'.jobs ==> !s'.jobs[id].status.Running?)
  }

  lemma WorkerStepTurn(s: State, e: WorkerEvent)
    requires WorkerEnabled(s, e)
    ensures WorkerTurn(s, e, WorkerNext(s, e))
  {
  }

  lemma WorkerStepPhase(s: State, e: WorkerEvent)
    requires WorkerEnabled(s, e)
    ensures WorkerPhase(s, e, WorkerNext(s, e))
  {
  }

  lemma TurnKeepsIds(s: State, e: WorkerEvent, s': State)
    requires Control(s) && WorkerTurn(s, e, s')
    ensures PendingIdsAreNew(s') && PendingIdsAreSecret(s') && IdsAreSeen(s')
  {
  }

  lemma PhaseKeepsStatuses(s: State, e: WorkerEvent, s': State)
    requires Control(s) && WorkerTurn(s, e, s') && WorkerPhase(s, e, s') && Moves(s, W(e), s')
    ensures AtMostOneRunning(s'.jobs) && RunningIsProcessed(s') && ProcessedIsOurs(s')
  {
  }

  lemma PhaseKeepsRendered(s: State, e: WorkerEvent, s': State)
    requires Control(s) && WorkerTurn(s, e, s') && WorkerPhase(s, e, s') && Moves(s, W(e), s')
    ensures RenderedIsDone(s')
  {
  }

  lemma WorkerKeepsControl(s: State, e: WorkerEvent)
    requires Control(s) && WorkerEnabled(s, e)
    ensures Control(WorkerNext(s, e))
  {
    var s' := WorkerNext(s, e);
    WorkerMoves(s, e);
    WorkerStepTurn(s, e);
    WorkerStepPhase(s, e);
    TurnKeepsIds(s, e, s');
    PhaseKeepsStatuses(s, e, s');
    PhaseKeepsRendered(s, e, s');
  }

  // ------------------- calls, purge and environment ---------------------

  lemma CallKeepsPendingNew(s: State, h: nat, e: CallEvent)
    requires Control(s) && CallEnabled(s, h, e)
    ensures PendingIdsAreNew(CallNext(s, h, e))
  {
  }

  lemma CallKeepsPendingSecret(s: State, h: nat, e: CallEvent)
    requires Control(s) && CallEnabled(s, h, e)
    ensures PendingIdsAreSecret(CallNext(s, h, e))
  {
  }

  lemma CallKeepsSeen(s: State, h: nat, e: CallEvent)
    requires Control(s) && CallEnabled(s, h, e)
    ensures IdsAreSeen(CallNext(s, h, e))
  {
  }

  lemma CallKeepsRunning(s: State, h: nat, e: CallEvent)
    requires Control(s) && CallEnabled(s, h, e)
    ensures AtMostOneRunning(CallNext(s, h, e).jobs) && RunningIsProcessed(CallNext(s, h, e))
  {
  }

  lemma CallKeepsProcessed(s: State, h: nat, e: CallEvent)
    requires Control(s) && CallEnabled(s, h, e)
    ensures ProcessedIsOurs(CallNext(s, h, e))
  {
  }

  lemma CallKeepsRendered(s: State, h: nat, e: CallEvent)
    requires Control(s) && CallEnabled(s, h, e)
    ensures RenderedIsDone(CallNext(s, h, e))
  {
  }

  lemma PurgeKeepsControl(s: State, e: PurgeEvent)
    requires Control(s) && PurgeEnabled(s, e)
    ensures Control(PurgeNext(s, e))
  {
  }

  lemma CallKeepsControl(s: State, h: nat, e: CallEvent)
    requires Control(s) && CallEnabled(s, h, e)
    ensures Control(CallNext(s, h, e))
  {
    CallKeepsPendingNew(s, h, e);
    CallKeepsPendingSecret(s, h, e);
    CallKeepsSeen(s, h, e);
    CallKeepsRunning(s, h, e);
    CallKeepsProcessed(s, h, e);
    CallKeepsRendered(s, h, e);
  }

  lemma EnvKeepsControl(s: State, e: EnvEvent)
    requires Control(s)
    ensures Control(EnvNext(s, e))
  {
  }

  lemma StepKeepsControl(s: State, e: Event)
    requires Control(s) && Enabled(s, e)
    ensures Control(Next(s, e))
  {
    if e.W? {
      WorkerKeepsControl(s, e.we);
    } else if e.C? {
      CallKeepsControl(s, e.h, e.ce);
    } else if e.P? {
      PurgeKeepsControl(s, e.pe);
    } else {
      EnvKeepsControl(s, e.ee);
    }
  }

  lemma {:induction false} AlwaysControl(run: seq<Event>)
    requires Legal(INIT, run)
    ensures Control(After(INIT, run))
  {
    if run != [] {
      AlwaysControl(Front(run));
      StepKeepsControl(After(INIT, Front(run)), Last(run));
    }
  }
}
