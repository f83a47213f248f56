/** Renditions: a path is recorded only for a file that was written, over whole runs. */
module LifecycleRender {
  import opened Common
  import opened JobTable
  import opened Lifecycle
  import Paths

  /** A finished size is recorded in its own column, under its own name. */
  lemma RenditionRecorded(s: State, h: nat)
    requires CallEnabled(s, h, Record) && s.calls[h].id in s.jobs
    ensures var c := s.calls[h]; var r := CallNext(s, h, Record).jobs[c.id];
      if c.tier == Thumb then r == s.jobs[c.id].(thumbPath := Some("thumbs/" + c.id + ".jpg"))
      else r == s.jobs[c.id].(previewPath := Some("previews/" + c.id + ".jpg"))
  {
    Paths.NamesAre(s.calls[h].id);
  }

  /** Both formats of a size lie side by side. */
  lemma RenditionWritten(s: State, h: nat)
    requires CallEnabled(s, h, WriteJpeg)
    ensures var c := s.calls[h]; var stem := (if c.tier == Thumb then "thumbs/" else "previews/") + c.id;
      && CallNext(s, h, WriteJpeg).files == s.files + {stem + ".jpg"}
      && CallNext(s, h, WriteAvif).files == s.files + {stem + ".avif"}
  {
    Paths.NamesAre(s.calls[h].id);
  }

  /** The sizes of which a JPEG has been written. */
  function Written(run: seq<Event>): set<(string, Tier)>
    requires Legal(INIT, run)
  {
    if run == [] then {} else WrittenAfter(After(INIT, Front(run)), Last(run), Written(Front(run)))
  }

  function WrittenAfter(s: State, e: Event, written: set<(string, Tier)>): set<(string, Tier)>
    requires Enabled(s, e)
  {
    if e.C? && e.ce.WriteJpeg? then written + {(s.calls[e.h].id, s.calls[e.h].tier)} else written
  }

  ghost predicate RowsAreWritten(t: Table, written: set<(string, Tier)>) {
    forall id :: id in t ==>
      && (t[id].thumbPath.Some? ==> (id, Thumb) in written)
      && (t[id].previewPath.Some? ==> (id, Preview) in written)
  }

  /** A task counts a size as written only when it has been. */
  ghost predicate TasksAreHonest(s: State, written: set<(string, Tier)>) {
    forall h :: h in s.calls && s.calls[h].Rendering? && s.calls[h].written ==>
      (s.calls[h].id, s.calls[h].tier) in written
  }

  predicate RenditionsKept(t: Table, t': Table) {
    forall id :: id in t' ==>
      id in t && t'[id].thumbPath == t[id].thumbPath && t'[id].previewPath == t[id].previewPath
  }

  lemma WorkerKeepsRenditions(s: State, e: WorkerEvent)
    requires WorkerEnabled(s, e)
    ensures RenditionsKept(s.jobs, WorkerNext(s, e).jobs)
  {
    if e.Conclude? { ConcludeKeepsRenditions(s, e.task); }
  }

  lemma ConcludeKeepsRenditions(s: State, task: nat)
    requires s.worker.Ending?
    ensures RenditionsKept(s.jobs, ConcludeNext(s, task).jobs)
  {
  }

  lemma WorkerKeepsHonest(s: State, e: WorkerEvent, written: set<(string, Tier)>)
    requires WorkerEnabled(s, e) && TasksAreHonest(s, written)
    ensures TasksAreHonest(WorkerNext(s, e), written)
  {
  }

  lemma CallKeepsHonest(s: State, h: nat, e: CallEvent, written: set<(string, Tier)>)
    requires CallEnabled(s, h, e) && TasksAreHonest(s, written)
    ensures TasksAreHonest(CallNext(s, h, e), WrittenAfter(s, C(h, e), written))
  {
  }

  lemma CallKeepsWritten(s: State, h: nat, e: CallEvent, written: set<(string, Tier)>)
    requires CallEnabled(s, h, e) && TasksAreHonest(s, written) && RowsAreWritten(s.jobs, written)
    ensures RowsAreWritten(CallNext(s, h, e).jobs, WrittenAfter(s, C(h, e), written))
  {
  }

  lemma StepKeepsRenditions(s: State, e: Event, written: set<(string, Tier)>)
    requires Enabled(s, e) && TasksAreHonest(s, written) && RowsAreWritten(s.jobs, written)
    ensures TasksAreHonest(Next(s, e), WrittenAfter(s, e, written))
    ensures RowsAreWritten(Next(s, e).jobs, WrittenAfter(s, e, written))
  {
    if e.W? {
      WorkerKeepsRenditions(s, e.we);
      WorkerKeepsHonest(s, e.we, written);
    } else if e.C? {
      CallKeepsHonest(s, e.h, e.ce, written);
      CallKeepsWritten(s, e.h, e.ce, written);
    }
  }

  /** No row ever names a thumb or a preview that was not written before. */
  lemma {:induction false} RecordedWasWritten(run: seq<Event>)
    requires Legal(INIT, run)
    ensures RowsAreWritten(After(INIT, run).jobs, Written(run)) && TasksAreHonest(After(INIT, run), Written(run))
  {
    if run != [] {
      RecordedWasWritten(Front(run));
      StepKeepsRenditions(After(INIT, Front(run)), Last(run), Written(Front(run)));
    }
  }
}
