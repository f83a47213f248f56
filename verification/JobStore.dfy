/** The database handle: each method is one SQL statement; the handlers below run without interference. */
module JobStore {
  import opened Common
  import opened JobTable
  import opened KeyOrder

  class Store {
    var jobs: Table

    constructor ()
      ensures jobs == map[]
    {
      jobs := map[];
    }

    /** Everything but row `id` is as before. */
    twostate predicate OnlyRow(id: string)
      reads this
    {
      && jobs.Keys == old(jobs).Keys
      && forall other :: other in jobs && other != id ==> jobs[other] == old(jobs)[other]
    }

    method FetchOldestQueued() returns (id: Option<string>)
      ensures id.Some? ==> IsOldestQueued(jobs, id.value)
      ensures id.Some? ==>
        && id.value in jobs && jobs[id.value].status.Queued? && jobs[id.value].deletedAt.None?
        && forall other ::
             other in jobs && other != id.value && jobs[other].status.Queued? && jobs[other].deletedAt.None? ==>
             || jobs[id.value].createdAt < jobs[other].createdAt
             || (jobs[id.value].createdAt == jobs[other].createdAt && StrLess(id.value, other))
      ensures id.None? ==>
        forall other :: other in jobs ==> !(jobs[other].status.Queued? && jobs[other].deletedAt.None?)
    {
      if other :| other in jobs && LiveQueued(jobs[other]) {
        assert KeyOf(jobs, other) in LiveKeys(jobs);
        AscendingSorts(LiveKeys(jobs));
        OldestIsFirst(jobs, Queue(jobs)[0].id);
        var oldest :| oldest in jobs && IsOldestQueued(jobs, oldest);
        OldestMeans(jobs, oldest);
        return Some(oldest);
      }
      return None;
    }

    /** No row is left running, and the queue is the old one with the visible orphans sorted in. */
    method ResetRunningJobs() returns (n: nat)
      modifies this
      ensures jobs == ResetRunning(old(jobs))
      ensures forall id :: id in jobs ==> !jobs[id].status.Running?
      ensures Queue(jobs) == Ascending(LiveKeys(old(jobs)) + OrphanKeys(old(jobs)))
      ensures n == |set id | id in old(jobs) && old(jobs)[id].status.Running?|
    {
      ResetMergesOrphans(jobs);
      n := |set id | id in jobs && jobs[id].status.Running?|;
      jobs := ResetRunning(jobs);
    }

    method TryMarkRunning(id: string, now: int) returns (claimed: bool)
      modifies this
      ensures claimed == Claimable(old(jobs), id) && OnlyRow(id)
      ensures claimed ==> jobs[id] == old(jobs)[id].(status := Running, startedAt := Some(now), progress := 0.0)
      ensures !claimed ==> jobs == old(jobs)
    {
      claimed := Claimable(jobs, id);
      jobs := MarkRunning(jobs, id, now);
    }

    method UpdateComfyPromptId(id: string, promptId: string)
      modifies this
      ensures OnlyRow(id) && (id in jobs ==> jobs[id] == old(jobs)[id].(comfyPromptId := Some(promptId)))
    {
      jobs := StorePromptId(jobs, id, promptId);
    }

    method UpdateProgress(id: string, p: real)
      modifies this
      ensures OnlyRow(id)
      ensures HasStatus(old(jobs), id, Running) ==> jobs[id] == old(jobs)[id].(progress := p)
      ensures !HasStatus(old(jobs), id, Running) ==> jobs == old(jobs)
    {
      jobs := WriteProgress(jobs, id, p);
    }

    method TryMarkDone(id: string, output: string, width: Option<int>, height: Option<int>, now: int)
      returns (won: bool)
      modifies this
      ensures won == HasStatus(old(jobs), id, Running) && OnlyRow(id)
      ensures won ==> jobs[id] == old(jobs)[id].(status := Done, outputPath := Some(output), completedAt := Some(now),
                                                 width := width, height := height, progress := 1.0)
      ensures !won ==> jobs == old(jobs)
    {
      won := HasStatus(jobs, id, Running);
      jobs := MarkDone(jobs, id, output, width, height, now);
    }

    method TryMarkFailed(id: string, message: string, now: int)
      modifies this
      ensures OnlyRow(id)
      ensures HasStatus(old(jobs), id, Running) ==>
                jobs[id] == old(jobs)[id].(status := Failed, errorMessage := Some(message), completedAt := Some(now))
      ensures !HasStatus(old(jobs), id, Running) ==> jobs == old(jobs)
    {
      jobs := MarkFailed(jobs, id, message, now);
    }

    method TryRequeue(id: string)
      modifies this
      ensures OnlyRow(id)
      ensures HasStatus(old(jobs), id, Running) ==>
                jobs[id] == old(jobs)[id].(status := Queued, startedAt := None, comfyPromptId := None, progress := 0.0)
      ensures !HasStatus(old(jobs), id, Running) ==> jobs == old(jobs)
    {
      jobs := Requeue(jobs, id);
    }

    method CancelUpdate(id: string, from: Status, now: int) returns (hit: bool)
      modifies this
      ensures hit == HasStatus(old(jobs), id, from) && OnlyRow(id)
      ensures hit ==> jobs[id] == old(jobs)[id].(status := Cancelled, completedAt := Some(now))
      ensures !hit ==> jobs == old(jobs)
    {
      hit := HasStatus(jobs, id, from);
      jobs := CancelFrom(jobs, id, from, now);
    }

    /** `cancel_job` with nobody else stepping in: a queued or running job, and nothing else, is cancelled. */
    method CancelJob(id: string, now: int) returns (found: bool, interrupted: bool)
      modifies this
      ensures found <==> HasStatus(old(jobs), id, Queued) || HasStatus(old(jobs), id, Running)
      ensures interrupted <==> HasStatus(old(jobs), id, Running)
      ensures OnlyRow(id)
      ensures found ==> jobs[id] == old(jobs)[id].(status := Cancelled, completedAt := Some(now))
      ensures found ==> Queue(jobs) == Without(Queue(old(jobs)), KeyOf(old(jobs), id))
      ensures !found ==> jobs == old(jobs)
    {
      var wasRunning := CancelUpdate(id, Running, now);
      if !wasRunning {
        var wasQueued := CancelUpdate(id, Queued, now);
        if !wasQueued {
          var claimed := CancelUpdate(id, Running, now);
          if !claimed { return false, false; }
          wasRunning := true;
        }
      }
      OneLeaves(old(jobs), jobs, id);
      return true, wasRunning;
    }

    /** A deleted job leaves the queue, if it was in it, and nobody else changes place. */
    method DeleteJob(id: string, now: int) returns (found: bool)
      modifies this
      ensures found == Deletable(old(jobs), id) && OnlyRow(id)
      ensures found ==> jobs[id] == old(jobs)[id].(deletedAt := Some(now))
      ensures found ==> Queue(jobs) == Without(Queue(old(jobs)), KeyOf(old(jobs), id))
      ensures !found ==> jobs == old(jobs)
    {
      found := Deletable(jobs, id);
      jobs := SoftDelete(jobs, id, now);
      if found { OneLeaves(old(jobs), jobs, id); }
    }

    /** A restored queued job is back at its own place, and nobody else changes place. */
    method RestoreJob(id: string) returns (found: bool)
      modifies this
      ensures found == Restorable(old(jobs), id) && OnlyRow(id)
      ensures found ==> jobs[id] == old(jobs)[id].(deletedAt := None)
      ensures found ==> Queue(old(jobs)) == Without(Queue(jobs), KeyOf(jobs, id))
      ensures found ==> (KeyOf(jobs, id) in Queue(jobs) <==> jobs[id].status.Queued?)
      ensures !found ==> jobs == old(jobs)
    {
      found := Restorable(jobs, id);
      jobs := Restore(jobs, id);
      if found {
        OneLeaves(jobs, old(jobs), id);
        AscendingSorts(LiveKeys(jobs));
      }
    }
  }

  /** Restoring a deleted job gives back the very table it was deleted from. */
  lemma RestoreUndoesDelete(t: Table, id: string, now: int)
    requires Deletable(t, id)
    ensures Restorable(SoftDelete(t, id, now), id) && Restore(SoftDelete(t, id, now), id) == t
  {
    assert t[id].(deletedAt := Some(now)).(deletedAt := None) == t[id];
  }
}
