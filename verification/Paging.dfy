/** Keyset pagination of `GET /jobs`: exact on a fixed table, and sound while the table changes. */
module Paging {
  import opened Common
  import opened JobTable
  import opened KeyOrder

  datatype Filter = Filter(status: Option<Status>, inputId: Option<int>)

  predicate Matches(r: Row, f: Filter) {
    && r.deletedAt.None?
    && (f.status.Some? ==> r.status == f.status.value)
    && (f.inputId.Some? ==> r.spec.inputId == f.inputId.value)
  }

  function MatchingKeys(t: Table, f: Filter): set<Key> { set id | id in t && Matches(t[id], f) :: KeyOf(t, id) }

  /** `(created_at, id) < cursor`. */
  predicate Beyond(k: Key, cursor: Option<Key>) { cursor.Some? ==> Precedes(k, cursor.value) }

  function KeysBeyond(t: Table, f: Filter, cursor: Option<Key>): set<Key> {
    set k | k in MatchingKeys(t, f) && Beyond(k, cursor)
  }

  function Reverse(s: seq<Key>): (r: seq<Key>)
    ensures |r| == |s| && forall i :: 0 <= i < |s| ==> r[i] == s[|s| - 1 - i]
  {
    if s == [] then [] else [s[|s| - 1]] + Reverse(s[..|s| - 1])
  }

  /** `ORDER BY created_at DESC, id DESC`. */
  ghost function Descending(ks: set<Key>): seq<Key> { Reverse(Ascending(ks)) }

  predicate Decreasing(s: seq<Key>) { forall i, j :: 0 <= i < j < |s| ==> Precedes(s[j], s[i]) }

  function ClampLimit(limit: Option<int>): int {
    if limit.None? then 50 else if limit.value < 1 then 1 else if limit.value > 200 then 200 else limit.value
  }

  ghost function Page(t: Table, f: Filter, cursor: Option<Key>, limit: int): seq<Key>
    requires limit >= 1
  {
    var all := Descending(KeysBeyond(t, f, cursor));
    if |all| <= limit then all else all[..limit]
  }

  predicate IsFull(page: seq<Key>, limit: int) { |page| == limit }

  /** The cursor handed out with a page: its last row when the page is full, none otherwise. */
  function NextCursor(page: seq<Key>, limit: int): Option<Key> {
    if IsFull(page, limit) && page != [] then Some(page[|page| - 1]) else None
  }

  lemma DescendingSorts(ks: set<Key>)
    ensures Decreasing(Descending(ks))
    ensures forall k :: k in Descending(ks) <==> k in ks
    ensures |Descending(ks)| == |ks|
  {
    AscendingSorts(ks);
    forall k ensures k in Descending(ks) <==> k in ks { ReverseHolds(Ascending(ks), k); }
  }

  lemma ReverseHolds(s: seq<Key>, k: Key)
    ensures k in Reverse(s) <==> k in s
  {
    if k in s {
      var i :| 0 <= i < |s| && s[i] == k;
      assert Reverse(s)[|s| - 1 - i] == k;
    }
  }

  lemma DecreasingIsUnique(a: seq<Key>, b: seq<Key>)
    requires Decreasing(a) && Decreasing(b) && forall k :: k in a <==> k in b
    ensures a == b
  {
    var ra, rb := Reverse(a), Reverse(b);
    forall k ensures (k in ra <==> k in a) && (k in rb <==> k in b) {
      ReverseHolds(a, k);
      ReverseHolds(b, k);
    }
    SortedIsUnique(ra, rb);
    forall i | 0 <= i < |a| ensures a[i] == b[i] {
      assert a[i] == ra[|a| - 1 - i] && b[i] == rb[|b| - 1 - i];
    }
  }

  /** After a full page, the rows beyond its last row are exactly the rest of the sorted list. */
  lemma RestAfterPage(t: Table, f: Filter, cursor: Option<Key>, limit: int)
    requires limit >= 1 && IsFull(Page(t, f, cursor, limit), limit)
    ensures var all := Descending(KeysBeyond(t, f, cursor)); var next := NextCursor(Page(t, f, cursor, limit), limit);
      && limit <= |all| && next == Some(all[limit - 1])
      && Descending(KeysBeyond(t, f, next)) == all[limit..]
  {
    RestOfList(t, f, cursor, limit);
  }

  lemma RestOfList(t: Table, f: Filter, cursor: Option<Key>, limit: int)
    requires 1 <= limit <= |Descending(KeysBeyond(t, f, cursor))|
    ensures var all := Descending(KeysBeyond(t, f, cursor));
      Descending(KeysBeyond(t, f, Some(all[limit - 1]))) == all[limit..]
  {
    var all := Descending(KeysBeyond(t, f, cursor));
    DescendingSorts(KeysBeyond(t, f, cursor));
    var rest := KeysBeyond(t, f, Some(all[limit - 1]));
    DescendingSorts(rest);
    RestIsTail(KeysBeyond(t, f, cursor), all, limit);
    assert all[limit - 1] in KeysBeyond(t, f, cursor);
    BeyondMember(t, f, cursor, all[limit - 1]);
    DecreasingIsUnique(Descending(rest), all[limit..]);
  }

  /** Moving the cursor to a row beyond it keeps exactly what precedes that row. */
  lemma BeyondMember(t: Table, f: Filter, cursor: Option<Key>, c: Key)
    requires c in KeysBeyond(t, f, cursor)
    ensures forall k :: k in KeysBeyond(t, f, Some(c)) <==> k in KeysBeyond(t, f, cursor) && Precedes(k, c)
  {
    forall k | k in KeysBeyond(t, f, Some(c)) ensures k in KeysBeyond(t, f, cursor) {
      if cursor.Some? { PrecedesTransitive(k, c, cursor.value); }
    }
  }

  /** In a descending list, what comes before the `limit`-th element in the order is what comes after it in the list. */
  lemma RestIsTail(ks: set<Key>, all: seq<Key>, limit: int)
    requires Decreasing(all) && (forall k :: k in all <==> k in ks) && 1 <= limit <= |all|
    ensures Decreasing(all[limit..])
    ensures forall k :: k in all[limit..] <==> k in ks && Precedes(k, all[limit - 1])
  {
    forall k | k in ks && Precedes(k, all[limit - 1]) ensures k in all[limit..] {
      var i :| 0 <= i < |all| && all[i] == k;
      PrecedesIrreflexive(k);
      if i < limit - 1 { PrecedesAsymmetric(k, all[limit - 1]); }
      assert all[limit..][i - limit] == k;
    }
    forall k | k in all[limit..] ensures k in ks && Precedes(k, all[limit - 1]) {
      var i :| 0 <= i < |all[limit..]| && all[limit..][i] == k;
      assert k == all[i + limit] && k in all;
    }
  }

  /** Following `next_cursor` to the end on a table that does not change. */
  ghost function Traverse(t: Table, f: Filter, cursor: Option<Key>, limit: int): seq<seq<Key>>
    requires limit >= 1
    decreases |KeysBeyond(t, f, cursor)|
  {
    var page := Page(t, f, cursor, limit);
    if NextCursor(page, limit).None? then [page]
    else
      RestAfterPage(t, f, cursor, limit);
      DescendingSorts(KeysBeyond(t, f, cursor));
      DescendingSorts(KeysBeyond(t, f, NextCursor(page, limit)));
      [page] + Traverse(t, f, NextCursor(page, limit), limit)
  }

  function Concat(pages: seq<seq<Key>>): seq<Key> { if pages == [] then [] else pages[0] + Concat(pages[1..]) }

  /** A full page is followed by the traversal from its cursor; a short one ends it. */
  lemma TraverseTurn(t: Table, f: Filter, cursor: Option<Key>, limit: int)
    requires limit >= 1
    ensures var page := Page(t, f, cursor, limit);
      Traverse(t, f, cursor, limit) ==
        if IsFull(page, limit) then [page] + Traverse(t, f, NextCursor(page, limit), limit) else [page]
  {
  }

  /** A full page is the head of the list, and its cursor leads to the tail. */
  lemma PageAndRest(t: Table, f: Filter, cursor: Option<Key>, limit: int)
    requires limit >= 1 && IsFull(Page(t, f, cursor, limit), limit)
    ensures var all := Descending(KeysBeyond(t, f, cursor)); var next := NextCursor(Page(t, f, cursor, limit), limit);
      && |all| == |KeysBeyond(t, f, cursor)| >= limit && Page(t, f, cursor, limit) == all[..limit]
      && Descending(KeysBeyond(t, f, next)) == all[limit..]
      && |KeysBeyond(t, f, next)| == |all| - limit
  {
    RestAfterPage(t, f, cursor, limit);
    DescendingSorts(KeysBeyond(t, f, cursor));
    DescendingSorts(KeysBeyond(t, f, NextCursor(Page(t, f, cursor, limit), limit)));
  }

  lemma ShortPage(t: Table, f: Filter, cursor: Option<Key>, limit: int)
    requires limit >= 1 && !IsFull(Page(t, f, cursor, limit), limit)
    ensures Page(t, f, cursor, limit) == Descending(KeysBeyond(t, f, cursor))
    ensures |KeysBeyond(t, f, cursor)| / limit == 0
  {
    DescendingSorts(KeysBeyond(t, f, cursor));
    SmallQuotient(|KeysBeyond(t, f, cursor)|, limit);
  }

  /** The pages put end to end are the filtered list in order, and there are floor(n / limit) + 1 of them. */
  lemma {:induction false} TraversalIsExact(t: Table, f: Filter, cursor: Option<Key>, limit: int)
    requires limit >= 1
    ensures Concat(Traverse(t, f, cursor, limit)) == Descending(KeysBeyond(t, f, cursor))
    ensures |Traverse(t, f, cursor, limit)| == |KeysBeyond(t, f, cursor)| / limit + 1
    decreases |KeysBeyond(t, f, cursor)|
  {
    var page := Page(t, f, cursor, limit);
    TraverseTurn(t, f, cursor, limit);
    if !IsFull(page, limit) {
      OnePage(page);
      ShortPage(t, f, cursor, limit);
    } else {
      var next := NextCursor(page, limit);
      PageAndRest(t, f, cursor, limit);
      TraversalIsExact(t, f, next, limit);
      OnePageMore(Descending(KeysBeyond(t, f, cursor)), Traverse(t, f, next, limit), limit);
    }
  }

  /** From the first page on, with whatever limit the client asks for. */
  lemma ListJobsIsExact(t: Table, f: Filter, requested: Option<int>)
    ensures var limit := ClampLimit(requested);
      && 1 <= limit <= 200
      && Concat(Traverse(t, f, None, limit)) == Descending(MatchingKeys(t, f))
      && |Traverse(t, f, None, limit)| == |MatchingKeys(t, f)| / limit + 1
  {
    assert KeysBeyond(t, f, None) == MatchingKeys(t, f);
    TraversalIsExact(t, f, None, ClampLimit(requested));
  }

  lemma OnePage(page: seq<Key>)
    ensures Concat([page]) == page
  {
    assert [page][1..] == [];
  }

  /** Putting one full page before the pages of the rest. */
  lemma OnePageMore(all: seq<Key>, rest: seq<seq<Key>>, limit: int)
    requires 1 <= limit <= |all| && Concat(rest) == all[limit..] && |rest| == |all[limit..]| / limit + 1
    ensures Concat([all[..limit]] + rest) == all
    ensures |[all[..limit]] + rest| == |all| / limit + 1
  {
    assert ([all[..limit]] + rest)[1..] == rest;
    assert all == all[..limit] + all[limit..];
    QuotientStep(|all|, limit);
  }

  lemma SmallQuotient(n: nat, d: int)
    requires 0 <= n < d
    ensures n / d == 0
  {
  }

  lemma QuotientStep(n: nat, d: int)
    requires 1 <= d <= n
    ensures n / d == (n - d) / d + 1
  {
    var q, r := (n - d) / d, (n - d) % d;
    assert d * (q + 1) == d * q + d;
    QuotientIsUnique(n, d, q + 1, r);
  }

  lemma QuotientIsUnique(n: int, d: int, q: int, r: int)
    requires 0 <= r < d && n == d * q + r
    ensures n / d == q
  {
    SameQuotient(d, q, r, n / d, n % d);
  }

  lemma SameQuotient(d: int, q: int, r: int, q': int, r': int)
    requires 0 <= r < d && 0 <= r' < d && d * q + r == d * q' + r'
    ensures q == q'
  {
    if q > q' {
      AtLeastOnce(d, q, q');
    } else if q < q' {
      AtLeastOnce(d, q', q);
    }
  }

  lemma AtLeastOnce(d: int, a: int, b: int)
    requires d > 0 && a > b
    ensures d * a - d * b >= d
  {
    PositiveProduct(d, a - b);
  }

  lemma PositiveProduct(d: int, x: int)
    requires d > 0 && x >= 1
    ensures d * x >= d
  {
  }

  // ------------------- while the table changes --------------------------

  /** What a client has seen after asking for one page of each table in turn, until no cursor is handed out. */
  ghost function Listed(tables: seq<Table>, f: Filter, cursor: Option<Key>, limit: int): seq<Key>
    requires limit >= 1
  {
    if tables == [] then []
    else
      var page := Page(tables[0], f, cursor, limit);
      if NextCursor(page, limit).None? then page else page + Listed(tables[1..], f, NextCursor(page, limit), limit)
  }

  /** The last of the tables answered the short page that ends the traversal. */
  ghost predicate Finished(tables: seq<Table>, f: Filter, cursor: Option<Key>, limit: int)
    requires limit >= 1
  {
    && tables != []
    && var page := Page(tables[0], f, cursor, limit);
       if NextCursor(page, limit).None? then |tables| == 1 else Finished(tables[1..], f, NextCursor(page, limit), limit)
  }

  lemma PageSorts(t: Table, f: Filter, cursor: Option<Key>, limit: int)
    requires limit >= 1
    ensures var page := Page(t, f, cursor, limit);
      && Decreasing(page) && (forall k :: k in page ==> k in KeysBeyond(t, f, cursor))
      && (!IsFull(page, limit) ==> forall k :: k in KeysBeyond(t, f, cursor) ==> k in page)
  {
    DescendingSorts(KeysBeyond(t, f, cursor));
  }

  /** The row of `k` matched in one of the tables. */
  ghost predicate Matched(tables: seq<Table>, f: Filter, k: Key) {
    exists i :: 0 <= i < |tables| && k in MatchingKeys(tables[i], f)
  }

  lemma {:induction false} ListingMatches(tables: seq<Table>, f: Filter, cursor: Option<Key>, limit: int, k: Key)
    requires limit >= 1 && k in Listed(tables, f, cursor, limit)
    ensures Matched(tables, f, k)
  {
    var page := Page(tables[0], f, cursor, limit);
    PageSorts(tables[0], f, cursor, limit);
    if k in page {
      assert k in MatchingKeys(tables[0], f);
    } else {
      ListingMatches(tables[1..], f, NextCursor(page, limit), limit, k);
      var i :| 0 <= i < |tables[1..]| && k in MatchingKeys(tables[1..][i], f);
      assert tables[1..][i] == tables[i + 1];
    }
  }

  /** Whatever happens between the queries, the listing is strictly descending. */
  lemma {:induction false} ListingDescends(tables: seq<Table>, f: Filter, cursor: Option<Key>, limit: int)
    requires limit >= 1
    ensures Decreasing(Listed(tables, f, cursor, limit))
    ensures forall k :: k in Listed(tables, f, cursor, limit) ==> Beyond(k, cursor)
  {
    if tables != [] {
      var page := Page(tables[0], f, cursor, limit);
      PageSorts(tables[0], f, cursor, limit);
      if IsFull(page, limit) {
        var rest := Listed(tables[1..], f, NextCursor(page, limit), limit);
        ListingDescends(tables[1..], f, NextCursor(page, limit), limit);
        AppendDescends(page, rest, cursor);
      }
    }
  }

  lemma AppendDescends(page: seq<Key>, rest: seq<Key>, cursor: Option<Key>)
    requires page != [] && Decreasing(page) && Decreasing(rest)
    requires forall k :: k in rest ==> Precedes(k, page[|page| - 1])
    requires forall k :: k in page ==> Beyond(k, cursor)
    ensures Decreasing(page + rest)
    ensures forall k :: k in page + rest ==> Beyond(k, cursor)
  {
    forall k | k in rest ensures Beyond(k, cursor) {
      assert page[|page| - 1] in page;
      if cursor.Some? { PrecedesTransitive(k, page[|page| - 1], cursor.value); }
    }
    var all := page + rest;
    forall i, j | 0 <= i < j < |all| ensures Precedes(all[j], all[i]) {
      if i < |page| <= j {
        assert all[j] in rest;
        if i < |page| - 1 { PrecedesTransitive(all[j], page[|page| - 1], all[i]); }
      }
    }
  }

  /** A row that matched at every query of a finished traversal is in the listing. */
  lemma {:induction false} ListingIsComplete(tables: seq<Table>, f: Filter, cursor: Option<Key>, limit: int, k: Key)
    requires limit >= 1 && Finished(tables, f, cursor, limit) && Beyond(k, cursor)
    requires forall i :: 0 <= i < |tables| ==> k in MatchingKeys(tables[i], f)
    ensures k in Listed(tables, f, cursor, limit)
  {
    var page := Page(tables[0], f, cursor, limit);
    PageSorts(tables[0], f, cursor, limit);
    assert k in KeysBeyond(tables[0], f, cursor);
    if IsFull(page, limit) && k !in page {
      NotInPage(tables[0], f, cursor, limit, k);
      ListingIsComplete(tables[1..], f, NextCursor(page, limit), limit, k);
    }
  }

  lemma NotInPage(t: Table, f: Filter, cursor: Option<Key>, limit: int, k: Key)
    requires limit >= 1 && k in KeysBeyond(t, f, cursor) && k !in Page(t, f, cursor, limit)
    ensures Beyond(k, NextCursor(Page(t, f, cursor, limit), limit))
  {
    var all := Descending(KeysBeyond(t, f, cursor));
    DescendingSorts(KeysBeyond(t, f, cursor));
    var i :| 0 <= i < |all| && all[i] == k;
    assert forall n :: 0 <= n < limit < |all| ==> all[..limit][n] == all[n];
  }

  /** The same id never stands for two jobs: true of the tables of one run (see `LifecycleClock.JobIdentity`). */
  ghost predicate SameCreation(tables: seq<Table>) {
    forall i, j, id :: 0 <= i < |tables| && 0 <= j < |tables| && id in tables[i] && id in tables[j] ==>
      tables[i][id].createdAt == tables[j][id].createdAt
  }

  ghost predicate MatchesThroughout(tables: seq<Table>, f: Filter, id: string) {
    forall i :: 0 <= i < |tables| ==> id in tables[i] && Matches(tables[i][id], f)
  }

  /**
   Under arbitrary changes between the page queries no job is listed twice, and a finished traversal
   lists every job that matched at all of its queries exactly once.
   */
  lemma PagingSurvivesChanges(tables: seq<Table>, f: Filter, limit: int)
    requires limit >= 1 && SameCreation(tables)
    ensures var l := Listed(tables, f, None, limit);
      && (forall i, j :: 0 <= i < j < |l| ==> l[i].id != l[j].id)
      && (Finished(tables, f, None, limit) ==>
           forall id :: MatchesThroughout(tables, f, id) ==> exists n :: 0 <= n < |l| && l[n].id == id)
  {
    var l := Listed(tables, f, None, limit);
    ListingDescends(tables, f, None, limit);
    forall i, j | 0 <= i < j < |l| ensures l[i].id != l[j].id {
      PrecedesIrreflexive(l[i]);
      ListingMatches(tables, f, None, limit, l[i]);
      ListingMatches(tables, f, None, limit, l[j]);
      var a :| 0 <= a < |tables| && l[i] in MatchingKeys(tables[a], f);
      var b :| 0 <= b < |tables| && l[j] in MatchingKeys(tables[b], f);
      assert l[i].createdAt == tables[a][l[i].id].createdAt && l[j].createdAt == tables[b][l[j].id].createdAt;
    }
    if Finished(tables, f, None, limit) {
      forall id | MatchesThroughout(tables, f, id)
        ensures exists n :: 0 <= n < |l| && l[n].id == id
      {
        var k := KeyOf(tables[0], id);
        forall i | 0 <= i < |tables| ensures k in MatchingKeys(tables[i], f) {
          assert tables[i][id].createdAt == tables[0][id].createdAt;
          assert k == KeyOf(tables[i], id);
        }
        ListingIsComplete(tables, f, None, limit, k);
      }
    }
  }

  // ------------------- the same, column by column -----------------------

  /** `limit` is 50 by default and cut to the range 1 to 200. */
  lemma ClampLimitIs(limit: Option<int>)
    ensures limit.None? ==> ClampLimit(limit) == 50
    ensures limit.Some? && limit.value <= 1 ==> ClampLimit(limit) == 1
    ensures limit.Some? && 1 <= limit.value <= 200 ==> ClampLimit(limit) == limit.value
    ensures limit.Some? && limit.value >= 200 ==> ClampLimit(limit) == 200
  {
  }

  /** The rows a request may list: visible, of the asked status and input, and older than the cursor. */
  lemma ListedRows(t: Table, f: Filter, cursor: Option<Key>, k: Key)
    ensures k in KeysBeyond(t, f, cursor) <==>
      && k.id in t && k.createdAt == t[k.id].createdAt && t[k.id].deletedAt.None?
      && (f.status.None? || t[k.id].status == f.status.value)
      && (f.inputId.None? || t[k.id].spec.inputId == f.inputId.value)
      && (cursor.None? || k.createdAt < cursor.value.createdAt
          || (k.createdAt == cursor.value.createdAt && StrLess(k.id, cursor.value.id)))
  {
    if k.id in t && k.createdAt == t[k.id].createdAt && Matches(t[k.id], f) { assert k == KeyOf(t, k.id); }
  }

  /** One page: the newest of those rows, newest first, `limit` of them or all there are. */
  lemma PageIsNewestFirst(t: Table, f: Filter, cursor: Option<Key>, limit: int)
    requires limit >= 1
    ensures var page := Page(t, f, cursor, limit);
      && |page| <= limit && (forall k :: k in page ==> k in KeysBeyond(t, f, cursor))
      && (forall i, j :: 0 <= i < j < |page| ==>
           page[j].createdAt < page[i].createdAt
           || (page[j].createdAt == page[i].createdAt && StrLess(page[j].id, page[i].id)))
      && (forall k, i :: k in KeysBeyond(t, f, cursor) && k !in page && 0 <= i < |page| ==>
           k.createdAt < page[i].createdAt || (k.createdAt == page[i].createdAt && StrLess(k.id, page[i].id)))
      && ((exists k :: k in KeysBeyond(t, f, cursor) && k !in page) ==> |page| == limit)
  {
    var all, page := Descending(KeysBeyond(t, f, cursor)), Page(t, f, cursor, limit);
    DescendingSorts(KeysBeyond(t, f, cursor));
    assert forall n :: 0 <= n < |page| ==> page[n] == all[n];
    forall k, i | k in KeysBeyond(t, f, cursor) && k !in page && 0 <= i < |page| ensures Precedes(k, page[i]) {
      var n :| 0 <= n < |all| && all[n] == k;
    }
  }

  /** The whole list, page after page: exactly the rows of the filter, newest first. */
  lemma ListIsNewestFirst(t: Table, f: Filter, requested: Option<int>)
    ensures var l := Concat(Traverse(t, f, None, ClampLimit(requested)));
      && (forall k :: k in l <==> k in KeysBeyond(t, f, None))
      && (forall i, j :: 0 <= i < j < |l| ==>
           l[j].createdAt < l[i].createdAt || (l[j].createdAt == l[i].createdAt && StrLess(l[j].id, l[i].id)))
  {
    TraversalIsExact(t, f, None, ClampLimit(requested));
    DescendingSorts(KeysBeyond(t, f, None));
  }
}
