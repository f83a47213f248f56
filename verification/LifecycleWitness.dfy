/** Concrete runs showing that two exceptions in the safety theorems do occur. */
module LifecycleWitness {
  import opened Common
  import opened JobTable
  import opened Paths
  import opened Lifecycle

  const SPEC := JobSpec(1, None, "prompt", "flux3_klein_edit", 120, 7)

  /** A submitted, claimable job: the worker has reset and is about to fetch it. */
  function QueuedState(id: string): State {
    INIT.(jobs := map[id := QueuedRow(SPEC, 0)], worker := Draining, calls := map[0 := Waking(id)], seen := {id})
  }

  lemma ReachQueued(id: string) returns (run: seq<Event>)
    requires IsUuid(id)
    ensures Legal(INIT, run) && After(INIT, run) == QueuedState(id)
  {
    Extend(INIT, [], C(0, Submit(id, SPEC)));
    run := [] + [C(0, Submit(id, SPEC))];
    Extend(INIT, run, C(0, DoInsert));
    run := run + [C(0, DoInsert)];
    Extend(INIT, run, W(Reset));
    run := run + [W(Reset)];
    assert ResetRunning(map[id := QueuedRow(SPEC, 0)]) == map[id := QueuedRow(SPEC, 0)];
  }

  function ClaimedState(id: string): State {
    var s := QueuedState(id);
    s.(jobs := MarkRunning(s.jobs, id, 0), worker := Claimed(id))
  }

  lemma ReachClaimed(id: string, before: seq<Event>) returns (run: seq<Event>)
    requires Legal(INIT, before) && After(INIT, before).worker.Draining?
    requires After(INIT, before).jobs == QueuedState(id).jobs
    ensures Legal(INIT, run)
    ensures var s := After(INIT, before);
      After(INIT, run) == s.(jobs := MarkRunning(s.jobs, id, s.clock), worker := Claimed(id))
  {
    StrLessIrreflexive(id);
    Extend(INIT, before, W(FetchSome(id)));
    run := before + [W(FetchSome(id))];
    Extend(INIT, run, W(Claim));
    run := run + [W(Claim)];
  }

  function OutputOf(id: string): string { OUTPUTS + "/" + OutputPrefix(id) }

  function DoneRow(id: string): Row {
    MarkDone(StorePromptId(ClaimedState(id).jobs, id, "p"), id, OutputOf(id), None, None, 0)[id]
  }

  lemma ReachDone(id: string) returns (run: seq<Event>)
    requires IsUuid(id)
    ensures Legal(INIT, run)
    ensures var s := After(INIT, run);
      && s.jobs == map[id := DoneRow(id)] && s.files == {OutputOf(id)} && s.purge.Idle? && s.clock == 0
      && s.worker.Draining? && s.calls.Keys == {0, 1} && !s.calls[0].Submitting? && !s.calls[1].Submitting?
  {
    run := ReachQueued(id);
    run := ReachClaimed(id, run);
    Extend(INIT, run, W(GotPromptId("p")));
    run := run + [W(GotPromptId("p"))];
    assert ValidFilename(OutputPrefix(id));
    Extend(INIT, run, W(SaveOutput(OutputPrefix(id), None, None)));
    run := run + [W(SaveOutput(OutputPrefix(id), None, None))];
    Extend(INIT, run, W(Conclude(1)));
    run := run + [W(Conclude(1))];
  }

  lemma ReachDeleted(id: string) returns (run: seq<Event>)
    requires IsUuid(id)
    ensures Legal(INIT, run)
    ensures var s := After(INIT, run);
      s.jobs == map[id := DoneRow(id).(deletedAt := Some(0))] && s.files == {OutputOf(id)} && s.purge.Idle?
  {
    run := ReachDone(id);
    Extend(INIT, run, C(2, Delete(id)));
    run := run + [C(2, Delete(id))];
    Extend(INIT, run, C(2, DeleteUpdate));
    run := run + [C(2, DeleteUpdate)];
  }

  lemma ReachUnlinked(id: string) returns (run: seq<Event>)
    requires IsUuid(id)
    ensures Legal(INIT, run)
    ensures var s := After(INIT, run);
      s.jobs == map[id := DoneRow(id).(deletedAt := Some(0))] && s.files == {}
  {
    run := ReachDeleted(id);
    var j := StaleJob(id, Some(OutputOf(id)), None, None);
    assert [j][0].id == id;
    Extend(INIT, run, P(Snapshot(1, [j])));
    run := run + [P(Snapshot(1, [j]))];
    assert FilesOf(j) == [OutputOf(id)];
    Extend(INIT, run, P(Unlink(true)));
    run := run + [P(Unlink(true))];
  }

  /**
   A crash between purge's unlink and its DELETE, followed by a restore, leaves a visible done job
   without its output file, outside every snapshot.
   */
  lemma CrashedPurgeLosesAnOutput(id: string)
    requires IsUuid(id)
    ensures exists run ::
      && Legal(INIT, run)
      && var s := After(INIT, run);
      && id in s.jobs && s.jobs[id].status.Done? && s.jobs[id].deletedAt.None? && s.purge.Idle?
      && s.jobs[id].outputPath.Some? && s.jobs[id].outputPath.value !in s.files
  {
    var run := ReachUnlinked(id);
    Extend(INIT, run, E(Crash));
    run := run + [E(Crash)];
    Extend(INIT, run, C(0, Undelete(id)));
    run := run + [C(0, Undelete(id))];
    Extend(INIT, run, C(0, RestoreUpdate));
    run := run + [C(0, RestoreUpdate)];
  }

  /** Call 3 has missed the job as running and as queued, and the job now runs. */
  lemma ReachMissedTwice(id: string) returns (run: seq<Event>)
    requires IsUuid(id)
    ensures Legal(INIT, run)
    ensures var s := After(INIT, run);
      && s.worker == Claimed(id) && HasStatus(s.jobs, id, Running)
      && 3 in s.calls && s.calls[3] == Cancelling(id, 0, Third) && s.calls.Keys == {0, 3}
  {
    run := ReachQueued(id);
    Extend(INIT, run, C(3, Cancel(id)));
    run := run + [C(3, Cancel(id))];
    Extend(INIT, run, C(3, CancelUpdate));
    run := run + [C(3, CancelUpdate)];
    run := ReachClaimed(id, run);
    Extend(INIT, run, C(3, CancelUpdate));
    run := run + [C(3, CancelUpdate)];
  }

  /** A requeue between a cancel's second and third UPDATE makes it answer 404 for a job that stays queued. */
  lemma CancelCanMissARequeuedJob(id: string)
    requires IsUuid(id)
    ensures exists run ::
      && Legal(INIT, run)
      && var s := After(INIT, run);
      && HasStatus(s.jobs, id, Queued) && 3 in s.calls && s.calls[3] == Replied(NotFound)
  {
    var run := ReachMissedTwice(id);
    Extend(INIT, run, W(Stop(Unreachable)));
    run := run + [W(Stop(Unreachable))];
    Extend(INIT, run, W(Conclude(9)));
    run := run + [W(Conclude(9))];
    Extend(INIT, run, C(3, CancelUpdate));
    run := run + [C(3, CancelUpdate)];
  }
}
