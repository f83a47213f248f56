/** No lost wake: the one-slot channel never lets a submitted job sit unnoticed. */
module LifecycleWake {
  import opened JobTable
  import opened Lifecycle

  /** Ids restored since the worker last found the queue empty. */
  function RestoredSince(run: seq<Event>): set<string>
    requires Legal(INIT, run)
  {
    if run == [] then {}
    else
      var s, e := After(INIT, Front(run)), Last(run);
      if e.W? && e.we.FetchNone? then {}
      else if e.C? && e.ce.RestoreUpdate? && Restorable(s.jobs, s.calls[e.h].id)
      then RestoredSince(Front(run)) + {s.calls[e.h].id}
      else RestoredSince(Front(run))
  }

  /** A submit has inserted this row and has not run its `try_send`. */
  predicate WakePending(s: State, id: string) {
    exists h :: h in s.calls && (s.calls[h].Waking? || s.calls[h].Lost?) && s.calls[h].id == id
  }

  ghost predicate Noticed(s: State, restored: set<string>) {
    s.worker.Parked? && s.worker.drained && !s.wake ==>
      forall id :: id in s.jobs && LiveQueued(s.jobs[id]) ==> id in restored || WakePending(s, id)
  }

  lemma WorkerKeepsNoticed(s: State, e: WorkerEvent, restored: set<string>)
    requires WorkerEnabled(s, e)
    ensures Noticed(WorkerNext(s, e), restored)
  {
  }

  /** Only an insert or a restore can make a row live and queued while the worker is parked. */
  lemma CallKeepsNoticed(s: State, h: nat, e: CallEvent, restored: set<string>, restored': set<string>)
    requires CallEnabled(s, h, e) && Noticed(s, restored) && restored <= restored'
    requires e.RestoreUpdate? && Restorable(s.jobs, s.calls[h].id) ==> s.calls[h].id in restored'
    ensures Noticed(CallNext(s, h, e), restored')
  {
    var s' := CallNext(s, h, e);
    if s'.worker.Parked? && s'.worker.drained && !s'.wake {
      forall id | id in s'.jobs && LiveQueued(s'.jobs[id])
        ensures id in restored' || WakePending(s', id)
      {
        if id in s.jobs && LiveQueued(s.jobs[id]) && id !in restored {
          var k :| k in s.calls && (s.calls[k].Waking? || s.calls[k].Lost?) && s.calls[k].id == id;
          assert k in s'.calls;
        } else if id !in restored' {
          assert s'.calls[h].id == id;
        }
      }
    }
  }

  /**
   Whenever the worker is parked after an empty fetch and no wake is waiting, every live queued
   row was restored since that fetch or belongs to a submit that has not sent its wake.
   */
  lemma {:induction false} NoLostWake(run: seq<Event>)
    requires Legal(INIT, run)
    ensures var s := After(INIT, run);
      s.worker == Parked(true) && !s.wake ==>
        forall id :: id in s.jobs && LiveQueued(s.jobs[id]) ==> id in RestoredSince(run) || WakePending(s, id)
  {
    if run != [] {
      var s, e := After(INIT, Front(run)), Last(run);
      NoLostWake(Front(run));
      assert Noticed(s, RestoredSince(Front(run)));
      if e.W? {
        WorkerKeepsNoticed(s, e.we, RestoredSince(run));
      } else if e.C? {
        CallKeepsNoticed(s, e.h, e.ce, RestoredSince(Front(run)), RestoredSince(run));
      }
    }
  }

  /** A wake, the idle tick or a restart. */
  predicate Rouses(e: Event) { e == W(TakeWake) || e == W(IdleTick) || e == E(Crash) }

  lemma WaitingStep(s: State, e: Event)
    requires Enabled(s, e) && !Rouses(e)
    ensures s.worker.Backoff? ==> Next(s, e).worker == if e == W(Resume) then Parked(false) else Backoff
    ensures s.worker.Parked? ==> Next(s, e).worker in {s.worker, Exited}
    ensures s.worker.Exited? ==> Next(s, e).worker == Exited
  {
  }

  /** After giving a job back the worker sleeps, then waits; only a wake, the idle tick or a restart make it fetch. */
  lemma {:induction false} RequeueWaits(s: State, run: seq<Event>)
    requires s.worker.Backoff? && Legal(s, run) && forall i :: 0 <= i < |run| ==> !Rouses(run[i])
    ensures After(s, run).worker in {Backoff, Parked(false), Exited}
    ensures W(Resume) in run || After(s, run).worker == Backoff
  {
    if run != [] {
      assert run == Front(run) + [Last(run)];
      RequeueWaits(s, Front(run));
      WaitingStep(After(s, Front(run)), Last(run));
    }
  }
}
