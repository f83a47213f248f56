/**
 One sorted sequence behind three queries: the worker's pick, `queue_position`, and the pages of
 `GET /jobs` all order rows by (created_at, id).
 */
module KeyOrder {
  import opened Common
  import opened JobTable

  lemma PrecedesIrreflexive(a: Key)
    ensures !Precedes(a, a)
  {
    StrLessIrreflexive(a.id);
  }

  lemma PrecedesTransitive(a: Key, b: Key, c: Key)
    requires Precedes(a, b) && Precedes(b, c)
    ensures Precedes(a, c)
  {
    if a.createdAt == b.createdAt == c.createdAt { StrLessTransitive(a.id, b.id, c.id); }
  }

  lemma PrecedesTotal(a: Key, b: Key)
    requires a != b
    ensures Precedes(a, b) || Precedes(b, a)
  {
    if a.createdAt == b.createdAt { StrLessTotal(a.id, b.id); }
  }

  lemma PrecedesAsymmetric(a: Key, b: Key)
    requires Precedes(a, b)
    ensures !Precedes(b, a)
  {
    if Precedes(b, a) {
      PrecedesTransitive(a, b, a);
      PrecedesIrreflexive(a);
    }
  }

  ghost predicate IsLeast(ks: set<Key>, k: Key) {
    k in ks && forall other :: other in ks && other != k ==> Precedes(k, other)
  }

  lemma {:induction false} LeastExists(ks: set<Key>)
    requires ks != {}
    ensures exists k :: IsLeast(ks, k)
  {
    var any :| any in ks;
    if ks - {any} == {} {
      assert ks == {any};
      assert IsLeast(ks, any);
    } else {
      LeastExists(ks - {any});
      var k :| IsLeast(ks - {any}, k);
      PrecedesTotal(k, any);
      if Precedes(k, any) {
        assert IsLeast(ks, k);
      } else {
        forall other | other in ks && other != any && other != k ensures Precedes(any, other) {
          PrecedesTransitive(any, k, other);
        }
        assert IsLeast(ks, any);
      }
    }
  }

  /** `ORDER BY created_at ASC, id ASC`. */
  ghost function Ascending(ks: set<Key>): seq<Key>
    decreases |ks|
  {
    if ks == {} then []
    else
      LeastExists(ks);
      var k :| IsLeast(ks, k);
      [k] + Ascending(ks - {k})
  }

  predicate Increasing(s: seq<Key>) { forall i, j :: 0 <= i < j < |s| ==> Precedes(s[i], s[j]) }

  lemma {:induction false} AscendingSorts(ks: set<Key>)
    ensures Increasing(Ascending(ks))
    ensures forall k :: k in Ascending(ks) <==> k in ks
    ensures |Ascending(ks)| == |ks|
    decreases |ks|
  {
    if ks != {} {
      var s := Ascending(ks);
      AscendingSorts(ks - {s[0]});
      assert IsLeast(ks, s[0]);
      assert s[1..] == Ascending(ks - {s[0]});
      forall i, j | 0 <= i < j < |s| ensures Precedes(s[i], s[j]) {
        if i == 0 {
          assert s[j] == s[1..][j - 1] && s[j] in s[1..];
        } else {
          assert s[i] == s[1..][i - 1] && s[j] == s[1..][j - 1];
        }
      }
    }
  }

  lemma EmptyOrInhabited(s: seq<Key>)
    ensures s == [] || exists k :: k in s
  {
    if s != [] { assert s[0] in s; }
  }

  /** A sorted sequence is determined by its elements, so any way of sorting gives the same order. */
  lemma {:induction false} SortedIsUnique(a: seq<Key>, b: seq<Key>)
    requires Increasing(a) && Increasing(b) && (forall k :: k in a <==> k in b)
    ensures a == b
  {
    if a == [] || b == [] {
      EmptyOrInhabited(a);
      EmptyOrInhabited(b);
    } else {
      FirstIsLeast(a, b);
      assert a[0] == b[0];
      forall k ensures k in a[1..] <==> k in b[1..] {
        TailDropsHead(a, k);
        TailDropsHead(b, k);
      }
      SortedIsUnique(a[1..], b[1..]);
      assert a == [a[0]] + a[1..] && b == [b[0]] + b[1..];
    }
  }

  lemma FirstIsLeast(a: seq<Key>, b: seq<Key>)
    requires Increasing(a) && Increasing(b) && a != [] && b != [] && (forall k :: k in a <==> k in b)
    ensures a[0] == b[0]
  {
    assert a[0] in b && b[0] in a;
    if a[0] != b[0] {
      var i :| 0 <= i < |b| && b[i] == a[0];
      var j :| 0 <= j < |a| && a[j] == b[0];
      PrecedesAsymmetric(a[0], b[0]);
    }
  }

  lemma TailDropsHead(a: seq<Key>, k: Key)
    requires Increasing(a) && a != []
    ensures k in a[1..] <==> k in a && k != a[0]
  {
    PrecedesIrreflexive(a[0]);
    assert a == [a[0]] + a[1..];
    if k in a[1..] {
      var i :| 0 <= i < |a[1..]| && a[1..][i] == k;
      assert Precedes(a[0], a[i + 1]);
    }
  }

  // --------------------------- the queue --------------------------------

  function LiveKeys(t: Table): set<Key> { set id | id in t && LiveQueued(t[id]) :: KeyOf(t, id) }

  ghost function Queue(t: Table): seq<Key> { Ascending(LiveKeys(t)) }

  /** The count `GET /jobs/{id}` answers as `queue_position`. */
  function QueuePosition(t: Table, key: Key): nat { |set k | k in LiveKeys(t) && Precedes(k, key)| }

  /** The worker's pick is the head of the queue. */
  lemma OldestIsFirst(t: Table, id: string)
    ensures IsOldestQueued(t, id) <==> Queue(t) != [] && Queue(t)[0].id == id
  {
    AscendingSorts(LiveKeys(t));
    var q := Queue(t);
    if IsOldestQueued(t, id) {
      var k := KeyOf(t, id);
      assert k in LiveKeys(t);
      var i :| 0 <= i < |q| && q[i] == k;
      assert q[0] in LiveKeys(t) && q[0] == KeyOf(t, q[0].id);
      assert !Precedes(q[0], q[i]);
    } else if q != [] && q[0].id == id {
      assert q[0] in LiveKeys(t);
      var other :| other in t && LiveQueued(t[other]) && Precedes(KeyOf(t, other), KeyOf(t, id));
      assert KeyOf(t, other) in LiveKeys(t) && q[0] == KeyOf(t, id);
      var j :| 0 <= j < |q| && q[j] == KeyOf(t, other);
      PrecedesIrreflexive(q[0]);
      if j > 0 { PrecedesAsymmetric(q[0], q[j]); }
    }
  }

  /** `queue_position` numbers the queue 0, 1, 2, …: the row at position `i` is the `i`-th in pick order. */
  lemma PositionIsIndex(t: Table, i: nat)
    requires i < |Queue(t)|
    ensures QueuePosition(t, Queue(t)[i]) == i
  {
    var q := Queue(t);
    AscendingSorts(LiveKeys(t));
    var ahead := set k | k in LiveKeys(t) && Precedes(k, q[i]);
    forall k | k in ahead ensures k in q[..i] {
      var j :| 0 <= j < |q| && q[j] == k;
      PrecedesIrreflexive(q[i]);
      if j > i { PrecedesAsymmetric(q[i], q[j]); }
      assert q[..i][j] == k;
    }
    forall k | k in q[..i] ensures k in ahead {
      var j :| 0 <= j < i && q[..i][j] == k;
      assert k == q[j] && k in LiveKeys(t);
    }
    assert forall a, b :: 0 <= a < b < |q[..i]| ==> Precedes(q[..i][a], q[..i][b]);
    IncreasingLength(q[..i], ahead);
  }

  lemma {:induction false} IncreasingLength(s: seq<Key>, ks: set<Key>)
    requires Increasing(s) && forall k :: k in s <==> k in ks
    ensures |s| == |ks|
  {
    AscendingSorts(ks);
    SortedIsUnique(s, Ascending(ks));
  }

  lemma QueueHolds(t: Table, i: nat)
    requires i < |Queue(t)|
    ensures Claimable(t, Queue(t)[i].id) && KeyOf(t, Queue(t)[i].id) == Queue(t)[i]
  {
    AscendingSorts(LiveKeys(t));
    assert Queue(t)[i] in LiveKeys(t);
  }

  lemma RowIsQueued(t: Table, id: string)
    requires Claimable(t, id)
    ensures QueuePosition(t, KeyOf(t, id)) < |Queue(t)| && Queue(t)[QueuePosition(t, KeyOf(t, id))] == KeyOf(t, id)
  {
    AscendingSorts(LiveKeys(t));
    assert KeyOf(t, id) in LiveKeys(t);
    var i :| 0 <= i < |Queue(t)| && Queue(t)[i] == KeyOf(t, id);
    PositionIsIndex(t, i);
  }

  /** Position and queue are inverse: a bijection between the live queued rows and 0..n-1. */
  lemma PositionsAreBijective(t: Table)
    ensures |Queue(t)| == |LiveKeys(t)|
    ensures forall id :: Claimable(t, id) ==>
              var i := QueuePosition(t, KeyOf(t, id)); i < |Queue(t)| && Queue(t)[i] == KeyOf(t, id)
    ensures forall i :: 0 <= i < |Queue(t)| ==>
              var k := Queue(t)[i]; Claimable(t, k.id) && KeyOf(t, k.id) == k && QueuePosition(t, k) == i
  {
    AscendingSorts(LiveKeys(t));
    forall id | Claimable(t, id)
      ensures QueuePosition(t, KeyOf(t, id)) < |Queue(t)| && Queue(t)[QueuePosition(t, KeyOf(t, id))] == KeyOf(t, id)
    {
      RowIsQueued(t, id);
    }
    forall i | 0 <= i < |Queue(t)|
      ensures var k := Queue(t)[i]; Claimable(t, k.id) && KeyOf(t, k.id) == k && QueuePosition(t, k) == i
    {
      PositionIsIndex(t, i);
      QueueHolds(t, i);
    }
  }

  // --------------------- what changes to rows do to it -------------------

  /** The queue without one key; everybody else stays in order. */
  function Without(q: seq<Key>, k: Key): seq<Key> {
    if q == [] then [] else (if q[0] == k then [] else [q[0]]) + Without(q[1..], k)
  }

  lemma {:induction false} WithoutHolds(q: seq<Key>, k: Key, x: Key)
    ensures x in Without(q, k) <==> x in q && x != k
  {
    if q != [] {
      WithoutHolds(q[1..], k, x);
      assert q == [q[0]] + q[1..];
    }
  }

  lemma {:induction false} WithoutIncreases(q: seq<Key>, k: Key)
    requires Increasing(q)
    ensures Increasing(Without(q, k))
  {
    if q != [] {
      WithoutIncreases(q[1..], k);
      forall x | x in Without(q[1..], k) ensures Precedes(q[0], x) {
        WithoutHolds(q[1..], k, x);
        var i :| 0 <= i < |q[1..]| && q[1..][i] == x;
        assert q[i + 1] == x;
      }
    }
  }

  /** The two tables agree on every row but `id`. */
  ghost predicate SameElsewhere(t: Table, t': Table, id: string) {
    forall other :: other != id ==> (other in t <==> other in t') && (other in t ==> t'[other] == t[other])
  }

  /** When one row stops waiting, exactly its key leaves the queue. */
  lemma OneLeaves(t: Table, t': Table, id: string)
    requires SameElsewhere(t, t', id) && id in t && (id in t' ==> !LiveQueued(t'[id]))
    ensures Queue(t') == Without(Queue(t), KeyOf(t, id))
  {
    var k := KeyOf(t, id);
    forall x ensures x in LiveKeys(t') <==> x in LiveKeys(t) && x != k {
      if x in LiveKeys(t') { assert x.id != id && KeyOf(t, x.id) == x; }
      if x in LiveKeys(t) && x != k { assert x.id != id && KeyOf(t', x.id) == x; }
    }
    AscendingSorts(LiveKeys(t));
    AscendingSorts(LiveKeys(t'));
    WithoutIncreases(Queue(t), k);
    forall x ensures x in Queue(t') <==> x in Without(Queue(t), k) { WithoutHolds(Queue(t), k, x); }
    SortedIsUnique(Queue(t'), Without(Queue(t), k));
  }

  /** Keys of visible rows an earlier process left running. */
  function OrphanKeys(t: Table): set<Key> {
    set id | id in t && t[id].status.Running? && t[id].deletedAt.None? :: KeyOf(t, id)
  }

  /** The startup reset merges the visible orphans into the queue, each at the place of its own key. */
  lemma ResetMergesOrphans(t: Table)
    ensures LiveKeys(ResetRunning(t)) == LiveKeys(t) + OrphanKeys(t)
    ensures forall id :: id in ResetRunning(t) ==> !ResetRunning(t)[id].status.Running?
  {
    var t' := ResetRunning(t);
    forall k ensures k in LiveKeys(t') <==> k in LiveKeys(t) + OrphanKeys(t) {
      if k in LiveKeys(t') { assert KeyOf(t, k.id) == k; }
      if k in LiveKeys(t) + OrphanKeys(t) { assert KeyOf(t', k.id) == k; }
    }
  }

  // ------------------- the same, column by column -----------------------

  /** The worker's pick: a visible queued row, and every other one was submitted later. */
  lemma OldestMeans(t: Table, id: string)
    ensures IsOldestQueued(t, id) <==>
      && id in t && t[id].status.Queued? && t[id].deletedAt.None?
      && forall other :: other in t && other != id && t[other].status.Queued? && t[other].deletedAt.None? ==>
           t[id].createdAt < t[other].createdAt || (t[id].createdAt == t[other].createdAt && StrLess(id, other))
  {
    StrLessIrreflexive(id);
    if IsOldestQueued(t, id) {
      forall other | other in t && other != id && t[other].status.Queued? && t[other].deletedAt.None?
        ensures t[id].createdAt < t[other].createdAt || (t[id].createdAt == t[other].createdAt && StrLess(id, other))
      {
        StrLessTotal(id, other);
        assert !Precedes(KeyOf(t, other), KeyOf(t, id));
      }
    } else if id in t && LiveQueued(t[id]) {
      var other :| other in t && LiveQueued(t[other]) && Precedes(KeyOf(t, other), KeyOf(t, id));
      PrecedesAsymmetric(KeyOf(t, other), KeyOf(t, id));
      PrecedesIrreflexive(KeyOf(t, id));
      assert other != id;
    }
  }

  /** `queue_position` counts the visible queued rows with a smaller time, or the same time and a smaller id. */
  lemma PositionCounts(t: Table, id: string, ids: set<string>)
    requires id in t
    requires forall other :: other in ids <==>
      && other in t && t[other].status.Queued? && t[other].deletedAt.None?
      && (t[other].createdAt < t[id].createdAt
          || (t[other].createdAt == t[id].createdAt && StrLess(other, id)))
    ensures QueuePosition(t, Key(t[id].createdAt, id)) == |ids|
  {
    var ahead := set k | k in LiveKeys(t) && Precedes(k, KeyOf(t, id));
    assert ahead == KeysOf(t, ids) by {
      forall k ensures k in ahead <==> k in KeysOf(t, ids) {
        if k in ahead { assert KeyOf(t, k.id) == k && k.id in ids; }
      }
    }
    KeysCount(t, ids);
  }

  function KeysOf(t: Table, ids: set<string>): set<Key> { set id | id in ids && id in t :: KeyOf(t, id) }

  lemma {:induction false} KeysCount(t: Table, ids: set<string>)
    requires forall id :: id in ids ==> id in t
    ensures |KeysOf(t, ids)| == |ids|
    decreases ids
  {
    if ids == {} {
      assert KeysOf(t, ids) == {};
    } else {
      var id :| id in ids;
      KeysCount(t, ids - {id});
      assert KeysOf(t, ids) == KeysOf(t, ids - {id}) + {KeyOf(t, id)};
    }
  }

  /** The queue goes up in time, and in id where times are equal. */
  lemma QueueIsOldestFirst(t: Table)
    ensures forall i, j :: 0 <= i < j < |Queue(t)| ==>
      || Queue(t)[i].createdAt < Queue(t)[j].createdAt
      || (Queue(t)[i].createdAt == Queue(t)[j].createdAt && StrLess(Queue(t)[i].id, Queue(t)[j].id))
  {
    AscendingSorts(LiveKeys(t));
  }
}
