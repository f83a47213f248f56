/** Pagination while the service runs: the pages read the tables of one and the same run. */
module PagingInService {
  import opened Common
  import opened JobTable
  import opened Lifecycle
  import opened LifecycleClock
  import opened Paging

  /** `tables[i]` is the table after the first `at[i]` events of `run`. */
  ghost predicate TablesOf(run: seq<Event>, at: seq<nat>, tables: seq<Table>) {
    && |at| == |tables|
    && forall i :: 0 <= i < |at| ==>
         at[i] <= |run| && Legal(INIT, run[..at[i]]) && tables[i] == After(INIT, run[..at[i]]).jobs
  }

  lemma SameCreationAt(run: seq<Event>, n: nat, m: nat, id: string)
    requires n <= m <= |run| && Legal(INIT, run[..n]) && Legal(INIT, run[..m])
    requires id in After(INIT, run[..n]).jobs && id in After(INIT, run[..m]).jobs
    ensures After(INIT, run[..n]).jobs[id].createdAt == After(INIT, run[..m]).jobs[id].createdAt
  {
    assert run[..m][..n] == run[..n];
    JobIdentity(run[..m], n, id);
  }

  /**
   A client paging through the list while jobs are submitted, run, cancelled, deleted, restored and
   purged around it never sees a job twice, and misses none that matched at every query.
   */
  lemma PagingDuringService(run: seq<Event>, at: seq<nat>, tables: seq<Table>, f: Filter, limit: int)
    requires limit >= 1 && TablesOf(run, at, tables)
    ensures var l := Listed(tables, f, None, limit);
      && (forall i, j :: 0 <= i < j < |l| ==> l[i].id != l[j].id)
      && (Finished(tables, f, None, limit) ==>
           forall id :: MatchesThroughout(tables, f, id) ==> exists n :: 0 <= n < |l| && l[n].id == id)
  {
    forall i, j, id | 0 <= i < |tables| && 0 <= j < |tables| && id in tables[i] && id in tables[j]
      ensures tables[i][id].createdAt == tables[j][id].createdAt
    {
      if at[i] <= at[j] {
        SameCreationAt(run, at[i], at[j], id);
      } else {
        SameCreationAt(run, at[j], at[i], id);
      }
    }
    PagingSurvivesChanges(tables, f, limit);
  }
}
