/** Optional values, and the byte-wise order SQLite uses for `TEXT` job ids. */
module Common {

  datatype Option<+T> = None | Some(value: T)

  /** `a < b` under SQLite's BINARY collation (character by character for ASCII text). */
  predicate StrLess(a: string, b: string) {
    if |b| == 0 then false
    else if |a| == 0 then true
    else a[0] < b[0] || (a[0] == b[0] && StrLess(a[1..], b[1..]))
  }

  lemma {:induction false} StrLessIrreflexive(a: string)
    ensures !StrLess(a, a)
  {
    if |a| > 0 { StrLessIrreflexive(a[1..]); }
  }

  lemma {:induction false} StrLessTransitive(a: string, b: string, c: string)
    requires StrLess(a, b) && StrLess(b, c)
    ensures StrLess(a, c)
  {
    if |a| > 0 && a[0] == b[0] == c[0] { StrLessTransitive(a[1..], b[1..], c[1..]); }
  }

  lemma {:induction false} StrLessTotal(a: string, b: string)
    requires a != b
    ensures StrLess(a, b) || StrLess(b, a)
  {
    if |a| > 0 && |b| > 0 && a[0] == b[0] {
      assert a == [a[0]] + a[1..] && b == [b[0]] + b[1..];
      StrLessTotal(a[1..], b[1..]);
    }
  }

  predicate DecidedAt(a: string, b: string, i: nat) {
    i <= |a| && i < |b| && a[..i] == b[..i] && (i == |a| || a[i] < b[i])
  }

  lemma {:induction false} StrLessGives(a: string, b: string) returns (i: nat)
    requires StrLess(a, b)
    ensures DecidedAt(a, b, i)
  {
    if a != [] && a[0] == b[0] {
      var n := StrLessGives(a[1..], b[1..]);
      i := n + 1;
      assert a[..i] == [a[0]] + a[1..][..n] && b[..i] == [b[0]] + b[1..][..n];
    } else {
      i := 0;
      assert a[..0] == b[..0];
    }
  }

  lemma {:induction false} StrLessFrom(a: string, b: string, i: nat)
    requires DecidedAt(a, b, i)
    ensures StrLess(a, b)
  {
    if i > 0 {
      assert a[1..][..i - 1] == a[..i][1..] && b[1..][..i - 1] == b[..i][1..];
      assert a[0] == a[..i][0] == b[..i][0] == b[0];
      StrLessFrom(a[1..], b[1..], i - 1);
    }
  }

  /** The first place where the two differ decides; a proper prefix comes first. */
  lemma StrLessIs(a: string, b: string)
    ensures StrLess(a, b) <==>
      exists i: nat :: i <= |a| && i < |b| && a[..i] == b[..i] && (i == |a| || a[i] < b[i])
  {
    if StrLess(a, b) { var i := StrLessGives(a, b); }
    forall i: nat | i <= |a| && i < |b| && a[..i] == b[..i] && (i == |a| || a[i] < b[i]) ensures StrLess(a, b) {
      StrLessFrom(a, b, i);
    }
  }

  /** There is always another number. */
  lemma FreshNat(used: set<nat>) returns (n: nat)
    ensures n !in used
  {
    n := 0;
    var left := used;
    while n in used
      invariant left <= used && forall m :: m in used && m !in left ==> m < n
      decreases left
    {
      left := set m | m in left && m > n;
      n := n + 1;
    }
  }
}
