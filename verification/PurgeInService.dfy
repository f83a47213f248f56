/** The first loop of an undisturbed `purge::run` is a run of the lifecycle's state machine. */
module PurgeInService {
  import opened JobTable
  import opened Lifecycle
  import opened Purge

  /** Only purge steps. */
  predicate Alone(run: seq<Event>) { forall i :: 0 <= i < |run| ==> run[i].P? }

  /** Unlinking the files of the job at the head of the list, those that can be. */
  lemma {:induction false} ReachUnlinks(s: State, before: seq<Event>, files: seq<string>, stuck: set<string>)
    returns (run: seq<Event>)
    requires Legal(s, before) && Alone(before) && After(s, before).purge.Busy? && After(s, before).purge.files == files
    ensures Legal(s, run) && Alone(run)
    ensures var t := After(s, before);
      After(s, run) == t.(files := UnlinkAll(t.files, files, stuck), purge := t.purge.(files := []))
    decreases |files|
  {
    var t := After(s, before);
    if files == [] {
      run := before;
    } else {
      var e := P(Unlink(files[0] !in stuck));
      Extend(s, before, e);
      run := ReachUnlinks(s, before + [e], files[1..], stuck);
      FirstUnlink(t.files, files, stuck);
    }
  }

  lemma FirstUnlink(f: set<string>, files: seq<string>, stuck: set<string>)
    requires files != []
    ensures UnlinkAll(f, files, stuck) == UnlinkAll(if files[0] !in stuck then f - {files[0]} else f, files[1..], stuck)
  {
    assert files == [files[0]] + files[1..];
    UnlinkAllConcat(f, [files[0]], files[1..], stuck);
    assert UnlinkAll(f, [files[0]], stuck) == TryUnlink(UnlinkAll(f, [], stuck), files[0], stuck);
    assert files[0] !in f ==> f - {files[0]} == f;
  }

  lemma Associates(a: seq<string>, b: seq<string>, c: seq<string>)
    ensures (a + b) + c == a + (b + c) && [] + a == a == a + []
  {
  }

  lemma Slices(todo: seq<StaleJob>)
    requires |todo| > 1
    ensures var n := |todo| - 1;
      todo[..n][1..] == todo[1..][..n - 1] && todo[..n][0] == todo[0] && todo[1..][n - 1] == todo[n]
  {
  }

  lemma {:induction false} FirstNames(todo: seq<StaleJob>)
    requires todo != []
    ensures AllFiles(todo) == FilesOf(todo[0]) + AllFiles(todo[1..])
  {
    var n := |todo| - 1;
    if n == 0 {
      Associates(FilesOf(todo[0]), [], []);
    } else {
      FirstNames(todo[..n]);
      Slices(todo);
      Associates(FilesOf(todo[0]), AllFiles(todo[..n][1..]), FilesOf(todo[n]));
    }
  }

  lemma {:induction false} FirstDelete(t: Table, todo: seq<StaleJob>)
    requires todo != []
    ensures DeleteAll(t, todo) == DeleteAll(HardDelete(t, todo[0].id), todo[1..])
  {
    var n := |todo| - 1;
    if n > 0 {
      FirstDelete(t, todo[..n]);
      Slices(todo);
    }
  }

  /** The rows still on the list, one after the other. */
  lemma {:induction false} ReachDeletes(s: State, before: seq<Event>, todo: seq<StaleJob>, stuck: set<string>)
    returns (run: seq<Event>)
    requires Legal(s, before) && Alone(before) && After(s, before).purge == PurgeOf(todo)
    ensures Legal(s, run) && Alone(run)
    ensures var t := After(s, before);
      After(s, run) == t.(jobs := DeleteAll(t.jobs, todo), files := UnlinkAll(t.files, AllFiles(todo), stuck),
                          purge := Idle)
    decreases |todo|
  {
    var t := After(s, before);
    if todo == [] {
      run := before;
    } else {
      run := ReachUnlinks(s, before, FilesOf(todo[0]), stuck);
      Extend(s, run, P(DeleteRow));
      run := ReachDeletes(s, run + [P(DeleteRow)], todo[1..], stuck);
      FirstNames(todo);
      FirstDelete(t.jobs, todo);
      UnlinkAllConcat(t.files, FilesOf(todo[0]), AllFiles(todo[1..]), stuck);
    }
  }

  /**
   What `Purge.Housekeeper.PurgeJobs` does is what the state machine's purge does when nobody else steps,
   whichever files cannot be unlinked and in whatever order the rows come.
   */
  lemma PurgeIsARun(s: State, cutoff: int, stale: seq<StaleJob>, stuck: set<string>) returns (run: seq<Event>)
    requires s.purge.Idle? && IsSnapshot(s.jobs, cutoff, stale)
    ensures Legal(s, run) && Alone(run)
    ensures After(s, run) == s.(jobs := s.jobs - StaleJobs(s.jobs, cutoff),
                                files := Without(s.files, Named(s.jobs, StaleJobs(s.jobs, cutoff)), stuck))
  {
    Extend(s, [], P(Snapshot(cutoff, stale)));
    run := ReachDeletes(s, [] + [P(Snapshot(cutoff, stale))], stale, stuck);
    DeleteAllIsMinus(s.jobs, stale);
    UnlinkAllIsWithout(s.files, AllFiles(stale), stuck);
    SnapshotIsComplete(s.jobs, cutoff, stale);
    RowTotals(s.jobs, stale);
  }
}
