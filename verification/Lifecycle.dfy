/**
 The job lifecycle as a state machine. One event is one atomic step of one actor:
 the worker, an HTTP call (or a rendering task), the purge task, or the environment
 (clock, shutdown signal, crash). Each SQL statement is one step; between two
 statements of one actor any other actor may step.
 */
module Lifecycle {
  import opened Common
  import opened JobTable
  import opened Paths

  /** How `process_job` ends, before its last statement runs. */
  datatype Outcome =
    | Unreachable
    | Errored(message: string)
    | Produced(path: string, width: Option<int>, height: Option<int>)

  datatype Worker =
    | Boot                                  // before reset_running_jobs
    | Draining                              // about to fetch the oldest queued row
    | Fetched(id: string)                   // about to claim
    | Claimed(id: string)                   // reading input, uploading, submitting
    | Submitted(id: string)                 // ComfyUI runs it; the progress writer is alive
    | Ending(id: string, outcome: Outcome)  // about to run the final statement
    | Backoff                               // sleeping after a requeue
    | Parked(drained: bool)                 // in select!; drained = the last fetch found nothing
    | Exited

  predicate Processing(w: Worker) { w.Claimed? || w.Submitted? || w.Ending? }

  datatype Reply = Accepted(jobId: string) | NoContent | NotFound

  datatype Attempt = First | Second | Third

  datatype Call =
    | Submitting(id: string, spec: JobSpec, now: int)  // about to insert
    | Waking(id: string)                               // inserted, about to try_send
    | Lost(id: string)                                 // inserted, but the connection was dropped first
    | Cancelling(id: string, now: int, attempt: Attempt)
    | Interrupting(id: string)                         // cancelled a running row, about to interrupt
    | Deleting(id: string, now: int)
    | Restoring(id: string)
    | Rendering(id: string, tier: Tier, written: bool)
    | Replied(reply: Reply)

  datatype StaleJob = StaleJob(id: string, output: Option<string>, thumb: Option<string>, preview: Option<string>)

  function FilesOf(j: StaleJob): seq<string> { JobFiles(j.output, j.thumb, j.preview) }

  /** `Busy`: the files of `todo[0]` still to unlink, then its DELETE, then the rest. */
  datatype Purge = Idle | Busy(files: seq<string>, todo: seq<StaleJob>)

  datatype State = State(
    jobs: Table,
    files: set<string>,
    worker: Worker,
    calls: map<nat, Call>,
    purge: Purge,
    wake: bool,          // the one-slot channel holds a message
    shutdown: bool,
    clock: int,
    seen: set<string>)   // every id anyone has named

  const INIT := State(map[], {}, Boot, map[], Idle, false, false, 0, {})

  datatype WorkerEvent =
    | Reset
    | FetchSome(id: string)
    | FetchNone
    | Claim
    | GotPromptId(promptId: string)
    | Progress(p: real)
    | Stop(outcome: Outcome)
    | SaveOutput(filename: string, width: Option<int>, height: Option<int>)
    | Conclude(task: nat)
    | Resume
    | TakeWake
    | IdleTick
    | Exit

  datatype CallEvent =
    | Submit(id: string, spec: JobSpec) | DoInsert | LoseInsert | TrySend
    | Cancel(id: string) | CancelUpdate | SendInterrupt
    | Delete(id: string) | DeleteUpdate
    | Undelete(id: string) | RestoreUpdate
    | Render(id: string, tier: Tier) | WriteJpeg | WriteAvif | Record | NextTier
    | Drop

  datatype PurgeEvent = Snapshot(cutoff: int, stale: seq<StaleJob>) | Unlink(ok: bool) | DeleteRow

  datatype EnvEvent = Tick(to: int) | Shutdown | Crash

  datatype Event =
    | W(we: WorkerEvent)
    | C(h: nat, ce: CallEvent)
    | P(pe: PurgeEvent)
    | E(ee: EnvEvent)

  // ------------------------------- worker -------------------------------

  predicate WorkerEnabled(s: State, e: WorkerEvent) {
    match e
    case Reset => s.worker.Boot?
    case FetchSome(id) => s.worker.Draining? && IsOldestQueued(s.jobs, id)
    case FetchNone => s.worker.Draining? && forall id :: id in s.jobs ==> !LiveQueued(s.jobs[id])
    case Claim => s.worker.Fetched?
    case GotPromptId(_) => s.worker.Claimed?
    case Progress(p) => s.worker.Submitted? && 0.0 <= p <= 1.0
    case Stop(outcome) => (s.worker.Claimed? || s.worker.Submitted?) && !outcome.Produced?
    case SaveOutput(f, _, _) => s.worker.Submitted? && OutputPrefix(s.worker.id) <= f && DataPath(OUTPUTS, f).Some?
    case Conclude(task) => s.worker.Ending? && task !in s.calls
    case Resume => s.worker.Backoff?
    case TakeWake => s.worker.Parked? && s.wake
    case IdleTick => s.worker.Parked?
    case Exit => s.shutdown && (s.worker.Draining? || s.worker.Parked?)
  }

  function WorkerNext(s: State, e: WorkerEvent): State
    requires WorkerEnabled(s, e)
  {
    match e
    case Reset => s.(jobs := ResetRunning(s.jobs), worker := Draining)
    case FetchSome(id) => s.(worker := Fetched(id))
    case FetchNone => s.(worker := Parked(true))
    case Claim =>
      var id := s.worker.id;
      s.(jobs := MarkRunning(s.jobs, id, s.clock),
         worker := if Claimable(s.jobs, id) then Claimed(id) else Draining)
    case GotPromptId(pid) =>
      s.(jobs := StorePromptId(s.jobs, s.worker.id, pid), worker := Submitted(s.worker.id))
    case Progress(p) => s.(jobs := WriteProgress(s.jobs, s.worker.id, p))
    case Stop(outcome) => s.(worker := Ending(s.worker.id, outcome))
    case SaveOutput(f, w, h) =>
      var path := DataPath(OUTPUTS, f).value;
      s.(files := s.files + {path}, worker := Ending(s.worker.id, Produced(path, w, h)))
    case Conclude(task) => ConcludeNext(s, task)
    case Resume => s.(worker := Parked(false))
    case TakeWake => s.(wake := false, worker := Draining)
    case IdleTick => s.(worker := Draining)
    case Exit => s.(worker := Exited)
  }

  /** The last statement of a processed job, and what `run` does after it. */
  function ConcludeNext(s: State, task: nat): State
    requires s.worker.Ending?
  {
    var id := s.worker.id;
    match s.worker.outcome
    case Unreachable => s.(jobs := Requeue(s.jobs, id), worker := Backoff)
    case Errored(message) => s.(jobs := MarkFailed(s.jobs, id, message, s.clock), worker := Draining)
    case Produced(path, w, h) =>
      s.(jobs := MarkDone(s.jobs, id, path, w, h, s.clock), worker := Draining,
         calls := if HasStatus(s.jobs, id, Running) then s.calls[task := Rendering(id, Thumb, false)] else s.calls)
  }

  // ------------------------------- calls --------------------------------

  /** A request cannot name an id that is still waiting to be inserted. */
  predicate Nameable(s: State, id: string) {
    forall h :: h in s.calls && s.calls[h].Submitting? ==> s.calls[h].id != id
  }

  predicate CallEnabled(s: State, h: nat, e: CallEvent) {
    match e
    case Submit(id, _) => h !in s.calls && IsUuid(id) && id !in s.seen
    case Cancel(id) => h !in s.calls && Nameable(s, id)
    case Delete(id) => h !in s.calls && Nameable(s, id)
    case Undelete(id) => h !in s.calls && Nameable(s, id)
    case Render(id, _) => h !in s.calls && HasStatus(s.jobs, id, Done) && s.jobs[id].deletedAt.None?
    case DoInsert => h in s.calls && s.calls[h].Submitting?
    case LoseInsert => h in s.calls && s.calls[h].Submitting?
    case TrySend => h in s.calls && s.calls[h].Waking?
    case CancelUpdate => h in s.calls && s.calls[h].Cancelling?
    case SendInterrupt => h in s.calls && s.calls[h].Interrupting?
    case DeleteUpdate => h in s.calls && s.calls[h].Deleting?
    case RestoreUpdate => h in s.calls && s.calls[h].Restoring?
    case WriteJpeg => h in s.calls && s.calls[h].Rendering?
    case WriteAvif => h in s.calls && s.calls[h].Rendering?
    case Record => h in s.calls && s.calls[h].Rendering? && s.calls[h].written
    case NextTier => h in s.calls && s.calls[h].Rendering? && s.calls[h].tier.Thumb?
    case Drop => h in s.calls && !s.calls[h].Waking? && !s.calls[h].Lost?
  }

  function CallNext(s: State, h: nat, e: CallEvent): State
    requires CallEnabled(s, h, e)
  {
    match e
    case Submit(id, spec) => s.(calls := s.calls[h := Submitting(id, spec, s.clock)], seen := s.seen + {id})
    case Cancel(id) => s.(calls := s.calls[h := Cancelling(id, s.clock, First)], seen := s.seen + {id})
    case Delete(id) => s.(calls := s.calls[h := Deleting(id, s.clock)], seen := s.seen + {id})
    case Undelete(id) => s.(calls := s.calls[h := Restoring(id)], seen := s.seen + {id})
    case Render(id, tier) => s.(calls := s.calls[h := Rendering(id, tier, false)])
    case DoInsert =>
      var c := s.calls[h];
      s.(jobs := Insert(s.jobs, c.id, c.spec, c.now), calls := s.calls[h := Waking(c.id)])
    case LoseInsert =>
      var c := s.calls[h];
      s.(jobs := Insert(s.jobs, c.id, c.spec, c.now), calls := s.calls[h := Lost(c.id)])
    case TrySend => s.(wake := true, calls := s.calls[h := Replied(Accepted(s.calls[h].id))])
    case CancelUpdate => CancelNext(s, h)
    case SendInterrupt => s.(calls := s.calls[h := Replied(NoContent)])
    case DeleteUpdate =>
      var c := s.calls[h];
      s.(jobs := SoftDelete(s.jobs, c.id, c.now),
         calls := s.calls[h := Replied(if Deletable(s.jobs, c.id) then NoContent else NotFound)])
    case RestoreUpdate =>
      var id := s.calls[h].id;
      s.(jobs := Restore(s.jobs, id),
         calls := s.calls[h := Replied(if Restorable(s.jobs, id) then NoContent else NotFound)])
    case WriteJpeg =>
      var c := s.calls[h];
      s.(files := s.files + {RenditionPath(c.id, c.tier, "jpg")}, calls := s.calls[h := c.(written := true)])
    case WriteAvif =>
      var c := s.calls[h];
      s.(files := s.files + {RenditionPath(c.id, c.tier, "avif")})
    case Record =>
      var c := s.calls[h];
      s.(jobs := RecordRendition(s.jobs, c.id, c.tier, RenditionPath(c.id, c.tier, "jpg")))
    case NextTier => s.(calls := s.calls[h := s.calls[h].(tier := Preview, written := false)])
    case Drop => s.(calls := s.calls - {h})
  }

  /** The next of `cancel_job`'s three UPDATEs: running, then queued, then running again. */
  function CancelNext(s: State, h: nat): State
    requires h in s.calls && s.calls[h].Cancelling?
  {
    var c := s.calls[h];
    var from := if c.attempt.Second? then Queued else Running;
    var call' :=
      if HasStatus(s.jobs, c.id, from) then (if from.Running? then Interrupting(c.id) else Replied(NoContent))
      else if c.attempt.First? then c.(attempt := Second)
      else if c.attempt.Second? then c.(attempt := Third)
      else Replied(NotFound);
    s.(jobs := CancelFrom(s.jobs, c.id, from, c.now), calls := s.calls[h := call'])
  }

  // ------------------------------- purge --------------------------------

  predicate Stale(r: Row, cutoff: int) { r.deletedAt.Some? && r.deletedAt.value < cutoff }

  /** `stale` is the answer of purge's SELECT, in some order. */
  predicate IsSnapshot(t: Table, cutoff: int, stale: seq<StaleJob>) {
    && (forall i, j :: 0 <= i < j < |stale| ==> stale[i].id != stale[j].id)
    && (forall id :: id in t && Stale(t[id], cutoff) ==> exists i :: 0 <= i < |stale| && stale[i].id == id)
    && (forall i :: 0 <= i < |stale| ==>
         var j := stale[i];
         && j.id in t && Stale(t[j.id], cutoff)
         && j.output == t[j.id].outputPath && j.thumb == t[j.id].thumbPath && j.preview == t[j.id].previewPath)
  }

  function PurgeOf(todo: seq<StaleJob>): Purge {
    if todo == [] then Idle else Busy(FilesOf(todo[0]), todo)
  }

  predicate PurgeEnabled(s: State, e: PurgeEvent) {
    match e
    case Snapshot(cutoff, stale) => s.purge.Idle? && IsSnapshot(s.jobs, cutoff, stale)
    case Unlink(_) => s.purge.Busy? && s.purge.files != []
    case DeleteRow => s.purge.Busy? && s.purge.files == [] && s.purge.todo != []
  }

  function PurgeNext(s: State, e: PurgeEvent): State
    requires PurgeEnabled(s, e)
  {
    match e
    case Snapshot(_, stale) => s.(purge := PurgeOf(stale))
    case Unlink(ok) =>
      s.(files := if ok then s.files - {s.purge.files[0]} else s.files,
         purge := s.purge.(files := s.purge.files[1..]))
    case DeleteRow => s.(jobs := HardDelete(s.jobs, s.purge.todo[0].id), purge := PurgeOf(s.purge.todo[1..]))
  }

  // ---------------------------- environment -----------------------------

  predicate EnvEnabled(s: State, e: EnvEvent) { e.Tick? ==> s.clock <= e.to }

  function EnvNext(s: State, e: EnvEvent): State {
    match e
    case Tick(to) => s.(clock := to)
    case Shutdown => s.(shutdown := true)
    case Crash => s.(worker := Boot, calls := map[], purge := Idle, wake := false, shutdown := false)
  }

  // ------------------------------- runs ---------------------------------

  predicate Enabled(s: State, e: Event) {
    match e
    case W(we) => WorkerEnabled(s, we)
    case C(h, ce) => CallEnabled(s, h, ce)
    case P(pe) => PurgeEnabled(s, pe)
    case E(ee) => EnvEnabled(s, ee)
  }

  function Next(s: State, e: Event): State
    requires Enabled(s, e)
  {
    match e
    case W(we) => WorkerNext(s, we)
    case C(h, ce) => CallNext(s, h, ce)
    case P(pe) => PurgeNext(s, pe)
    case E(ee) => EnvNext(s, ee)
  }

  function Front<T>(run: seq<T>): seq<T>
    requires run != []
  {
    run[..|run| - 1]
  }

  function Last<T>(run: seq<T>): T
    requires run != []
  {
    run[|run| - 1]
  }

  /** Every event of `run`, from `s` on, is enabled when its turn comes. */
  predicate Legal(s: State, run: seq<Event>)
    decreases |run|, 0
  {
    run == [] || (Legal(s, Front(run)) && Enabled(After(s, Front(run)), Last(run)))
  }

  function After(s: State, run: seq<Event>): State
    requires Legal(s, run)
    decreases |run|, 1
  {
    if run == [] then s else Next(After(s, Front(run)), Last(run))
  }

  lemma Extend(s: State, run: seq<Event>, e: Event)
    requires Legal(s, run) && Enabled(After(s, run), e)
    ensures Legal(s, run + [e]) && After(s, run + [e]) == Next(After(s, run), e)
  {
    assert Front(run + [e]) == run;
  }
}
