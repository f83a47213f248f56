/** Output files under purge: whose files a purge removes, and which done rows keep theirs. */
module LifecycleFiles {
  import opened Common
  import opened JobTable
  import opened Paths
  import opened Lifecycle
  import opened LifecycleInvariant
  import opened LifecycleRows
  import opened LifecycleHistory

  /** A job the running purge has still to delete: its row is there, and what was read about it is still so. */
  ghost predicate StaleJobOk(s: State, j: StaleJob) {
    && j.id in s.jobs
    && NamesOwnFiles(j.id, j.output, j.thumb, j.preview)
    && (j.output.Some? ==> s.jobs[j.id].status.Done? && s.jobs[j.id].outputPath == j.output)
  }

  ghost predicate PurgeIsSound(s: State) {
    s.purge.Busy? ==>
      && s.purge.todo != []
      && (forall p :: p in s.purge.files ==> p in FilesOf(s.purge.todo[0]))
      && (forall i :: 0 <= i < |s.purge.todo| ==> StaleJobOk(s, s.purge.todo[i]))
      && (forall i, j :: 0 <= i < j < |s.purge.todo| ==> s.purge.todo[i].id != s.purge.todo[j].id)
  }

  /** A produced file is on disk until its job is marked done, and then for as long as the row says so. */
  ghost predicate ProducedIsOnDisk(s: State) {
    s.worker.Ending? && s.worker.outcome.Produced? ==> s.worker.outcome.path in s.files
  }

  ghost predicate DoneStays(s: State, s': State) {
    forall id :: id in s.jobs && id in s'.jobs && s.jobs[id].status.Done? ==>
      s'.jobs[id].status.Done? && s'.jobs[id].outputPath == s.jobs[id].outputPath
  }

  lemma WorkerKeepsDone(s: State, e: WorkerEvent)
    requires Control(s) && WorkerEnabled(s, e)
    ensures DoneStays(s, WorkerNext(s, e))
  {
  }

  lemma CallKeepsDone(s: State, h: nat, e: CallEvent)
    requires Control(s) && CallEnabled(s, h, e)
    ensures DoneStays(s, CallNext(s, h, e))
  {
  }

  lemma StepKeepsDone(s: State, e: Event)
    requires Control(s) && Enabled(s, e)
    ensures DoneStays(s, Next(s, e))
  {
    if e.W? {
      WorkerKeepsDone(s, e.we);
    } else if e.C? {
      CallKeepsDone(s, e.h, e.ce);
    }
  }

  lemma SnapshotIsSound(s: State, cutoff: int, stale: seq<StaleJob>)
    requires RowsAreCoherent(s) && PurgeEnabled(s, Snapshot(cutoff, stale))
    ensures PurgeIsSound(PurgeNext(s, Snapshot(cutoff, stale)))
  {
  }

  /** Everybody but purge leaves the purge task alone and removes no row. */
  lemma OnlyPurgeDeletes(s: State, e: Event)
    requires Enabled(s, e) && !e.P? && !e.E?
    ensures Next(s, e).purge == s.purge && s.jobs.Keys <= Next(s, e).jobs.Keys && s.files <= Next(s, e).files
  {
    if e.W? { WorkerStepTurn(s, e.we); }
  }

  lemma DoneKeepsPurge(s: State, s': State)
    requires PurgeIsSound(s) && DoneStays(s, s') && s'.purge == s.purge && s.jobs.Keys <= s'.jobs.Keys
    ensures PurgeIsSound(s')
  {
  }

  lemma PurgeKeepsPurge(s: State, e: PurgeEvent)
    requires RowsAreCoherent(s) && PurgeIsSound(s) && PurgeEnabled(s, e)
    ensures PurgeIsSound(PurgeNext(s, e))
  {
    if e.Snapshot? { SnapshotIsSound(s, e.cutoff, e.stale); }
  }

  lemma StepKeepsPurge(s: State, e: Event)
    requires Control(s) && RowsAreCoherent(s) && PurgeIsSound(s) && Enabled(s, e)
    ensures PurgeIsSound(Next(s, e))
  {
    if e.P? {
      PurgeKeepsPurge(s, e.pe);
    } else if !e.E? {
      StepKeepsDone(s, e);
      OnlyPurgeDeletes(s, e);
      DoneKeepsPurge(s, Next(s, e));
    }
  }

  /** What one unlink of a purge can hit: a file of the job being purged, and of no other job or input. */
  lemma UnlinkIsOwn(s: State)
    requires Control(s) && PurgeIsSound(s) && s.purge.Busy? && s.purge.files != []
    ensures OwnedBy(s.purge.todo[0].id, s.purge.files[0])
    ensures forall id :: IsUuid(id) && OwnedBy(id, s.purge.files[0]) ==> id == s.purge.todo[0].id
    ensures forall f :: s.purge.files[0] != CACHE_INPUTS + "/" + f
  {
    var j, p := s.purge.todo[0], s.purge.files[0];
    assert p in s.purge.files && StaleJobOk(s, j);
    JobFilesAreOwned(j.id, j.output, j.thumb, j.preview, p);
    forall id | IsUuid(id) && OwnedBy(id, p) ensures id == j.id { OwnerIsUnique(id, j.id, p); }
    forall f ensures p != CACHE_INPUTS + "/" + f { CacheIsNobodys(j.id, f); }
  }

  // ------------------- which done rows have their file -------------------

  /** The step removes the output file of a row that still exists. */
  predicate UnlinksOutput(s: State, e: Event)
    requires Enabled(s, e)
  {
    e == P(Unlink(true)) && s.purge.todo != [] && s.purge.todo[0].output == Some(s.purge.files[0])
  }

  function GoneAfter(s: State, e: Event, gone: set<string>): set<string>
    requires Enabled(s, e)
  {
    if UnlinksOutput(s, e) then gone + {s.purge.todo[0].id} else gone
  }

  /** Every job whose output file some purge has removed. */
  function Unlinked(run: seq<Event>): set<string>
    requires Legal(INIT, run)
  {
    if run == [] then {}
    else
      var s := After(INIT, Front(run));
      GoneAfter(s, Last(run), Unlinked(Front(run)))
  }

  /** The jobs whose output was gone when a crash stopped the purge that was working on them. */
  function LostToCrash(run: seq<Event>): set<string>
    requires Legal(INIT, run)
  {
    if run == [] then {}
    else
      var s := After(INIT, Front(run));
      LostToCrash(Front(run)) +
      if Last(run) == E(Crash) && s.purge.Busy? && s.purge.todo != []
      then {s.purge.todo[0].id} * Unlinked(Front(run))
      else {}
  }

  ghost predicate OnDisk(s: State, gone: set<string>) {
    && (forall id :: id in s.jobs && s.jobs[id].status.Done? && s.jobs[id].outputPath.Some? ==>
         (s.jobs[id].outputPath.value in s.files <==> id !in gone))
    && (forall id :: id in gone && id in s.jobs ==> s.jobs[id].status.Done?)
    && (forall id :: id in gone && id !in s.jobs ==> Barred(s, id))
    && ProducedIsOnDisk(s)
  }

  lemma OutputIsNoRendition(id: string, other: string, tier: Tier, ext: string)
    ensures !IsOutputOf(id, RenditionPath(other, tier, ext))
  {
    assert RenditionPath(other, tier, ext)[0] != 'o';
  }

  /** A row becomes done only by the worker's own write of a file that is on disk. */
  ghost predicate NewDone(s: State, s': State) {
    forall id :: id in s'.jobs && s'.jobs[id].status.Done? && !HasStatus(s.jobs, id, Done) ==>
      && HasStatus(s.jobs, id, Running) && s.worker.Ending? && s.worker.id == id
      && s.worker.outcome.Produced? && s'.jobs[id].outputPath == Some(s.worker.outcome.path)
  }

  ghost predicate OutputsKept(s: State, s': State) {
    forall id :: id in s.jobs && s.jobs[id].status.Done? && s.jobs[id].outputPath.Some? ==>
      (s.jobs[id].outputPath.value in s'.files <==> s.jobs[id].outputPath.value in s.files)
  }

  lemma FrameKeepsOnDisk(s: State, s': State, gone: set<string>)
    requires OnDisk(s, gone) && ProducedIsOnDisk(s') && s.files <= s'.files && s.jobs.Keys <= s'.jobs.Keys
    requires DoneStays(s, s') && NewDone(s, s') && OutputsKept(s, s')
    requires forall id :: Barred(s, id) ==> Barred(s', id)
    ensures OnDisk(s', gone)
  {
  }

  lemma WorkerNewDone(s: State, e: WorkerEvent)
    requires WorkerEnabled(s, e)
    ensures NewDone(s, WorkerNext(s, e))
  {
    WorkerMoves(s, e);
    WorkerStepTurn(s, e);
    if e.Conclude? { ConcludeNewDone(s, e.task); }
  }

  lemma ConcludeNewDone(s: State, task: nat)
    requires s.worker.Ending?
    ensures NewDone(s, ConcludeNext(s, task))
  {
  }

  lemma CallNewDone(s: State, h: nat, e: CallEvent)
    requires Control(s) && CallEnabled(s, h, e)
    ensures NewDone(s, CallNext(s, h, e))
  {
  }

  lemma WorkerFiles(s: State, e: WorkerEvent)
    requires ProducedIsOnDisk(s) && WorkerEnabled(s, e)
    ensures ProducedIsOnDisk(WorkerNext(s, e))
    ensures WorkerNext(s, e).files == s.files ||
      (Processing(s.worker) && exists f :: IsOutputOf(s.worker.id, f) && WorkerNext(s, e).files == s.files + {f})
  {
  }

  /** Saving an output adds a file only its own job can name. */
  lemma WorkerKeepsOutputs(s: State, e: WorkerEvent)
    requires Control(s) && RowsAreCoherent(s) && ProducedIsOnDisk(s) && WorkerEnabled(s, e)
    ensures OutputsKept(s, WorkerNext(s, e))
  {
    WorkerFiles(s, e);
    var files' := WorkerNext(s, e).files;
    if files' != s.files {
      var f :| IsOutputOf(s.worker.id, f) && files' == s.files + {f};
      forall id | id in s.jobs && s.jobs[id].status.Done?
        ensures s.jobs[id].outputPath != Some(f)
      {
        if s.jobs[id].outputPath == Some(f) { OwnerIsUnique(id, s.worker.id, f); }
      }
    }
  }

  lemma CallFiles(s: State, h: nat, e: CallEvent)
    requires CallEnabled(s, h, e)
    ensures CallNext(s, h, e).files == s.files || exists id, tier, ext ::
              CallNext(s, h, e).files == s.files + {RenditionPath(id, tier, ext)}
    ensures CallNext(s, h, e).worker == s.worker
  {
    if e.WriteJpeg? {
      assert CallNext(s, h, e).files == s.files + {RenditionPath(s.calls[h].id, s.calls[h].tier, "jpg")};
    } else if e.WriteAvif? {
      assert CallNext(s, h, e).files == s.files + {RenditionPath(s.calls[h].id, s.calls[h].tier, "avif")};
    }
  }

  /** A rendition is never somebody's output. */
  lemma CallKeepsOutputs(s: State, h: nat, e: CallEvent)
    requires RowsAreCoherent(s) && CallEnabled(s, h, e)
    ensures OutputsKept(s, CallNext(s, h, e))
  {
    CallFiles(s, h, e);
    var files' := CallNext(s, h, e).files;
    if files' != s.files {
      var other, tier, ext :| files' == s.files + {RenditionPath(other, tier, ext)};
      forall id | id in s.jobs && s.jobs[id].outputPath.Some?
        ensures s.jobs[id].outputPath.value != RenditionPath(other, tier, ext)
      {
        assert Coherent(id, s.jobs[id]);
        OutputIsNoRendition(id, other, tier, ext);
      }
    }
  }

  lemma BarredStays(s: State, e: Event)
    requires Control(s) && Enabled(s, e)
    ensures forall id :: Barred(s, id) ==> Barred(Next(s, e), id)
  {
    forall id | Barred(s, id) ensures Barred(Next(s, e), id) { BarredForever(s, e, id); }
  }

  lemma UnlinkKeepsOnDisk(s: State, ok: bool, gone: set<string>)
    requires Control(s) && RowsAreCoherent(s) && PurgeIsSound(s) && OnDisk(s, gone) && PurgeEnabled(s, Unlink(ok))
    ensures OnDisk(PurgeNext(s, Unlink(ok)), GoneAfter(s, P(Unlink(ok)), gone))
  {
    var j, p := s.purge.todo[0], s.purge.files[0];
    forall id | id in s.jobs && s.jobs[id].outputPath == Some(p) ensures id == j.id && j.output == Some(p) {
      assert Coherent(id, s.jobs[id]);
      UnlinkedOutput(s, id);
    }
    if s.worker.Ending? && s.worker.outcome.Produced? && s.worker.outcome.path == p { UnlinkedOutput(s, s.worker.id); }
  }

  /** If the file about to be unlinked is an output of `id`, then `id` is being purged and had it recorded. */
  lemma UnlinkedOutput(s: State, id: string)
    requires Control(s) && PurgeIsSound(s) && s.purge.Busy? && s.purge.files != []
    requires IsUuid(id) && IsOutputOf(id, s.purge.files[0])
    ensures id == s.purge.todo[0].id && s.purge.todo[0].output == Some(s.purge.files[0])
  {
    var j, p := s.purge.todo[0], s.purge.files[0];
    UnlinkIsOwn(s);
    assert OwnedBy(id, p) && p in s.purge.files && StaleJobOk(s, j);
    if j.output != Some(p) { UnlinkedRendition(j, p); }
  }

  /** Among a job's files only the recorded output lies in the outputs directory. */
  lemma UnlinkedRendition(j: StaleJob, p: string)
    requires IsUuid(j.id) && NamesOwnFiles(j.id, j.output, j.thumb, j.preview) && p in FilesOf(j) && j.output != Some(p)
    ensures forall id :: !IsOutputOf(id, p)
  {
    AvifSiblingOfRendition(j.id, Thumb);
    AvifSiblingOfRendition(j.id, Preview);
    assert p[0] != 'o';
  }

  lemma WorkerKeepsOnDisk(s: State, e: WorkerEvent, gone: set<string>)
    requires Control(s) && RowsAreCoherent(s) && OnDisk(s, gone) && WorkerEnabled(s, e)
    ensures OnDisk(WorkerNext(s, e), gone)
  {
    BarredStays(s, W(e));
    StepKeepsDone(s, W(e));
    OnlyPurgeDeletes(s, W(e));
    WorkerNewDone(s, e);
    WorkerFiles(s, e);
    WorkerKeepsOutputs(s, e);
    FrameKeepsOnDisk(s, WorkerNext(s, e), gone);
  }

  lemma CallKeepsOnDisk(s: State, h: nat, e: CallEvent, gone: set<string>)
    requires Control(s) && RowsAreCoherent(s) && OnDisk(s, gone) && CallEnabled(s, h, e)
    ensures OnDisk(CallNext(s, h, e), gone)
  {
    BarredStays(s, C(h, e));
    StepKeepsDone(s, C(h, e));
    OnlyPurgeDeletes(s, C(h, e));
    CallNewDone(s, h, e);
    CallFiles(s, h, e);
    CallKeepsOutputs(s, h, e);
    FrameKeepsOnDisk(s, CallNext(s, h, e), gone);
  }

  lemma DeleteKeepsOnDisk(s: State, gone: set<string>)
    requires Control(s) && OnDisk(s, gone) && PurgeEnabled(s, DeleteRow)
    ensures OnDisk(PurgeNext(s, DeleteRow), gone)
  {
    var e, s' := P(DeleteRow), PurgeNext(s, DeleteRow);
    BarredStays(s, e);
    forall id | id in s.jobs && id !in s'.jobs ensures Barred(s', id) { RowGoneIsBarred(s, e, id); }
  }

  lemma SnapshotKeepsOnDisk(s: State, cutoff: int, stale: seq<StaleJob>, gone: set<string>)
    requires OnDisk(s, gone) && PurgeEnabled(s, Snapshot(cutoff, stale))
    ensures OnDisk(PurgeNext(s, Snapshot(cutoff, stale)), gone)
  {
    var s' := PurgeNext(s, Snapshot(cutoff, stale));
    assert forall id :: Barred(s, id) ==> Barred(s', id);
  }

  lemma EnvKeepsOnDisk(s: State, e: EnvEvent, gone: set<string>)
    requires Control(s) && OnDisk(s, gone) && EnvEnabled(s, e)
    ensures OnDisk(EnvNext(s, e), gone)
  {
    BarredStays(s, E(e));
  }

  lemma StepKeepsOnDisk(s: State, e: Event, gone: set<string>)
    requires Control(s) && RowsAreCoherent(s) && PurgeIsSound(s) && OnDisk(s, gone) && Enabled(s, e)
    ensures OnDisk(Next(s, e), GoneAfter(s, e, gone))
  {
    if e.W? {
      WorkerKeepsOnDisk(s, e.we, gone);
    } else if e.C? {
      CallKeepsOnDisk(s, e.h, e.ce, gone);
    } else if e.E? {
      EnvKeepsOnDisk(s, e.ee, gone);
    } else if e.pe.Unlink? {
      UnlinkKeepsOnDisk(s, e.pe.ok, gone);
    } else if e.pe.DeleteRow? {
      DeleteKeepsOnDisk(s, gone);
    } else {
      SnapshotKeepsOnDisk(s, e.pe.cutoff, e.pe.stale, gone);
    }
  }

  lemma {:induction false} AlwaysOnDisk(run: seq<Event>)
    requires Legal(INIT, run)
    ensures PurgeIsSound(After(INIT, run)) && OnDisk(After(INIT, run), Unlinked(run))
  {
    if run != [] {
      var s := After(INIT, Front(run));
      AlwaysControl(Front(run));
      AlwaysCoherent(Front(run));
      AlwaysOnDisk(Front(run));
      StepKeepsPurge(s, Last(run));
      StepKeepsOnDisk(s, Last(run), Unlinked(Front(run)));
    }
  }

  /** A done row has its output file exactly when no purge has unlinked it. */
  lemma DoneRowHasItsOutput(run: seq<Event>, id: string)
    requires Legal(INIT, run) && HasStatus(After(INIT, run).jobs, id, Done)
    ensures var s := After(INIT, run);
      s.jobs[id].outputPath.Some? && (s.jobs[id].outputPath.value in s.files <==> id !in Unlinked(run))
  {
    AlwaysCoherent(run);
    AlwaysOnDisk(run);
    assert Coherent(id, After(INIT, run).jobs[id]);
  }

  predicate BeingPurged(s: State, id: string) { s.purge.Busy? && s.purge.todo != [] && s.purge.todo[0].id == id }

  lemma BeingPurgedStays(s: State, e: Event, id: string)
    requires Enabled(s, e) && BeingPurged(s, id) && id in s.jobs && id in Next(s, e).jobs && e != E(Crash)
    ensures BeingPurged(Next(s, e), id)
  {
    if e.W? || e.C? { OnlyPurgeDeletes(s, e); }
  }

  /**
   A row that has lost its output is the one the running purge is about to delete, or one whose
   purge a crash cut short between the unlink and the DELETE.
   */
  lemma {:induction false} UnlinkedRowIsBeingPurged(run: seq<Event>, id: string)
    requires Legal(INIT, run) && id in Unlinked(run) && id in After(INIT, run).jobs
    ensures id in LostToCrash(run) || BeingPurged(After(INIT, run), id)
  {
    var s, e := After(INIT, Front(run)), Last(run);
    if id in Unlinked(Front(run)) {
      UnlinkedRowStays(Front(run), e, id);
      UnlinkedRowIsBeingPurged(Front(run), id);
      if id !in LostToCrash(Front(run)) && e != E(Crash) { BeingPurgedStays(s, e, id); }
    }
  }

  lemma UnlinkedRowStays(run: seq<Event>, e: Event, id: string)
    requires Legal(INIT, run) && Enabled(After(INIT, run), e)
    requires id in Unlinked(run) && id in Next(After(INIT, run), e).jobs
    ensures id in After(INIT, run).jobs
  {
    AlwaysOnDisk(run);
    AlwaysControl(run);
    if id !in After(INIT, run).jobs { BarredForever(After(INIT, run), e, id); }
  }

  lemma {:induction false} LostIsUnlinked(run: seq<Event>)
    requires Legal(INIT, run)
    ensures LostToCrash(run) <= Unlinked(run)
  {
    if run != [] { LostIsUnlinked(Front(run)); }
  }

  /** A done row that is not being purged has its output exactly when no crash stopped a purge that had removed it. */
  lemma OutputsSurvivePurge(run: seq<Event>, id: string)
    requires Legal(INIT, run) && HasStatus(After(INIT, run).jobs, id, Done) && !BeingPurged(After(INIT, run), id)
    ensures var s := After(INIT, run);
      s.jobs[id].outputPath.Some? && (s.jobs[id].outputPath.value in s.files <==> id !in LostToCrash(run))
  {
    DoneRowHasItsOutput(run, id);
    LostIsUnlinked(run);
    if id in Unlinked(run) { UnlinkedRowIsBeingPurged(run, id); }
  }
}
