/** What a purge has done to a job's files by the time it deletes the row, over whole runs. */
module LifecyclePurge {
  import opened Common
  import opened JobTable
  import opened Paths
  import opened Lifecycle
  import opened LifecycleFiles

  /** The `k`-th step of the run is an attempt to unlink `p`, and takes away that file if it succeeds. */
  ghost predicate Tries(run: seq<Event>, k: nat, p: string) {
    && k < |run| && Legal(INIT, run[..k]) && Enabled(After(INIT, run[..k]), run[k])
    && run[k].P? && run[k].pe.Unlink?
    && var s := After(INIT, run[..k]);
    && s.purge.files[0] == p
    && Next(s, run[k]).files == if run[k].pe.ok then s.files - {p} else s.files
  }

  ghost predicate TriedSince(run: seq<Event>, m: nat, p: string) { exists k: nat :: m < k && Tries(run, k, p) }

  /** The `m`-th step of the run is the SELECT that found row `r` of job `id` deleted before its cutoff. */
  ghost predicate Selects(run: seq<Event>, m: nat, id: string, r: Row) {
    && m < |run| && Legal(INIT, run[..m]) && run[m].P? && run[m].pe.Snapshot?
    && var t := After(INIT, run[..m]).jobs;
    && id in t && t[id] == r && r.deletedAt.Some? && r.deletedAt.value < run[m].pe.cutoff
  }

  /** The job as it was selected at step `m`. */
  ghost predicate SelectedAt(run: seq<Event>, m: nat, j: StaleJob) {
    exists r :: Selects(run, m, j.id, r) && j == StaleJob(j.id, r.outputPath, r.thumbPath, r.previewPath)
  }

  /** Every file of the job is still listed or has been tried. */
  ghost predicate ListedOrTried(run: seq<Event>, m: nat, files: seq<string>, j: StaleJob) {
    forall p :: p in FilesOf(j) ==> p in files || TriedSince(run, m, p)
  }

  ghost predicate AllSelected(run: seq<Event>, m: nat, todo: seq<StaleJob>) {
    forall i :: 0 <= i < |todo| ==> SelectedAt(run, m, todo[i])
  }

  ghost predicate UnderWay(run: seq<Event>, m: nat, purge: Purge) {
    purge.Busy? ==>
      purge.todo != [] && AllSelected(run, m, purge.todo) && ListedOrTried(run, m, purge.files, purge.todo[0])
  }

  // --------------------- one more step at the end -----------------------

  lemma TriesEarlier(run: seq<Event>, k: nat, p: string)
    requires run != [] && Tries(Front(run), k, p)
    ensures Tries(run, k, p)
  {
    assert run[..k] == Front(run)[..k] && run[k] == Front(run)[k];
  }

  lemma TriedEarlier(run: seq<Event>, m: nat, p: string)
    requires run != [] && TriedSince(Front(run), m, p)
    ensures TriedSince(run, m, p)
  {
    var k: nat :| m < k && Tries(Front(run), k, p);
    TriesEarlier(run, k, p);
  }

  lemma SelectedEarlier(run: seq<Event>, m: nat, j: StaleJob)
    requires run != [] && SelectedAt(Front(run), m, j)
    ensures SelectedAt(run, m, j)
  {
    var r :| Selects(Front(run), m, j.id, r) && j == StaleJob(j.id, r.outputPath, r.thumbPath, r.previewPath);
    assert run[..m] == Front(run)[..m] && run[m] == Front(run)[m];
    assert Selects(run, m, j.id, r);
  }

  lemma UnderWayEarlier(run: seq<Event>, m: nat, purge: Purge)
    requires run != [] && UnderWay(Front(run), m, purge)
    ensures UnderWay(run, m, purge)
  {
    if purge.Busy? {
      forall i | 0 <= i < |purge.todo| ensures SelectedAt(run, m, purge.todo[i]) {
        SelectedEarlier(run, m, purge.todo[i]);
      }
      forall p | p in FilesOf(purge.todo[0]) && p !in purge.files ensures TriedSince(run, m, p) {
        TriedEarlier(run, m, p);
      }
    }
  }

  lemma UnlinkTries(run: seq<Event>, ok: bool)
    requires Legal(INIT, run) && run != [] && Last(run) == P(Unlink(ok))
    ensures Tries(run, |run| - 1, After(INIT, Front(run)).purge.files[0])
  {
    assert run[..|run| - 1] == Front(run);
  }

  lemma FirstIsTried(run: seq<Event>, m: nat, files: seq<string>, j: StaleJob)
    requires files != [] && ListedOrTried(run, m, files, j) && TriedSince(run, m, files[0])
    ensures ListedOrTried(run, m, files[1..], j)
  {
    assert files == [files[0]] + files[1..];
  }

  lemma NextIsListed(run: seq<Event>, m: nat, todo: seq<StaleJob>)
    requires todo != [] && AllSelected(run, m, todo)
    ensures UnderWay(run, m, PurgeOf(todo[1..]))
  {
  }

  lemma SnapshotUnderWay(run: seq<Event>)
    requires Legal(INIT, run) && run != [] && Last(run).P? && Last(run).pe.Snapshot?
    ensures UnderWay(run, |run| - 1, PurgeOf(Last(run).pe.stale))
  {
    var s, stale := After(INIT, Front(run)), Last(run).pe.stale;
    assert run[..|run| - 1] == Front(run);
    forall i | 0 <= i < |stale| ensures SelectedAt(run, |run| - 1, stale[i]) {
      assert Selects(run, |run| - 1, stale[i].id, s.jobs[stale[i].id]);
    }
  }

  /** Every purge under way goes back to one SELECT. */
  lemma {:induction false} PurgeStarted(run: seq<Event>) returns (m: nat)
    requires Legal(INIT, run) && After(INIT, run).purge.Busy?
    ensures m < |run| && UnderWay(run, m, After(INIT, run).purge)
  {
    var s, e := After(INIT, Front(run)), Last(run);
    if e.P? && e.pe.Snapshot? {
      m := |run| - 1;
      SnapshotUnderWay(run);
    } else {
      if e.W? || e.C? { OnlyPurgeDeletes(s, e); }
      m := PurgeStarted(Front(run));
      UnderWayEarlier(run, m, s.purge);
      if e.P? && e.pe.Unlink? {
        UnlinkTries(run, e.pe.ok);
        FirstIsTried(run, m, s.purge.files, s.purge.todo[0]);
      } else if e.P? {
        NextIsListed(run, m, s.purge.todo);
      }
    }
  }

  // ------------------------------ result --------------------------------

  lemma DeletedRowIsThere(run: seq<Event>)
    requires Legal(INIT, run) && PurgeEnabled(After(INIT, run), DeleteRow)
    ensures After(INIT, run).purge.todo[0].id in After(INIT, run).jobs
  {
    AlwaysOnDisk(run);
    assert StaleJobOk(After(INIT, run), After(INIT, run).purge.todo[0]);
  }

  lemma AllTried(run: seq<Event>, m: nat, j: StaleJob)
    requires ListedOrTried(run, m, [], j)
    ensures j.output.Some? ==> TriedSince(run, m, j.output.value)
    ensures j.thumb.Some? ==> TriedSince(run, m, j.thumb.value) && TriedSince(run, m, AvifSibling(j.thumb.value))
    ensures j.preview.Some? ==> TriedSince(run, m, j.preview.value) && TriedSince(run, m, AvifSibling(j.preview.value))
  {
    JobFilesAre(j.output, j.thumb, j.preview);
  }

  /**
   When a row is deleted, it had been selected as stale earlier in the run, and since then an unlink has been
   tried of its output, thumb and preview as selected, and of the AVIF files beside the last two.
   */
  lemma DeleteFollowsUnlinks(run: seq<Event>) returns (m: nat, id: string, r: Row)
    requires Legal(INIT, run) && PurgeEnabled(After(INIT, run), DeleteRow)
    ensures Selects(run, m, id, r)
    ensures r.outputPath.Some? ==> TriedSince(run, m, r.outputPath.value)
    ensures r.thumbPath.Some? ==>
      TriedSince(run, m, r.thumbPath.value) && TriedSince(run, m, AvifSibling(r.thumbPath.value))
    ensures r.previewPath.Some? ==>
      TriedSince(run, m, r.previewPath.value) && TriedSince(run, m, AvifSibling(r.previewPath.value))
    ensures var s := After(INIT, run); id in s.jobs && PurgeNext(s, DeleteRow).jobs == s.jobs - {id}
  {
    var j := After(INIT, run).purge.todo[0];
    m := PurgeStarted(run);
    DeletedRowIsThere(run);
    AllTried(run, m, j);
    id := j.id;
    r :| Selects(run, m, id, r) && j == StaleJob(id, r.outputPath, r.thumbPath, r.previewPath);
  }

  /** No row disappears in any other way. */
  lemma OnlyDeleteRowDeletes(s: State, e: Event, id: string)
    requires Enabled(s, e) && id in s.jobs && id !in Next(s, e).jobs
    ensures e == P(DeleteRow)
  {
    if e.W? || e.C? { OnlyPurgeDeletes(s, e); }
  }
}
