/** Sequences without repetition, and removal of one element. */
module Sequences {

  predicate NoRepeats<T(==)>(q: seq<T>) {
    forall i, j :: 0 <= i < j < |q| ==> q[i] != q[j]
  }

  /** The sequence with its first occurrence of `x` removed. */
  function Without<T(==)>(q: seq<T>, x: T): seq<T> {
    if q == [] then []
    else if q[0] == x then q[1..]
    else [q[0]] + Without(q[1..], x)
  }

  /** Removal takes out one element and keeps every other one, once. */
  lemma {:induction false} WithoutElements<T>(q: seq<T>, x: T)
    requires NoRepeats(q)
    ensures NoRepeats(Without(q, x))
    ensures forall y :: y in Without(q, x) <==> y in q && y != x
    decreases |q|
  {
    if q != [] {
      assert q == [q[0]] + q[1..];
      assert NoRepeats(q[1..]);
      if q[0] != x {
        WithoutElements(q[1..], x);
        var rest := Without(q[1..], x);
        assert Without(q, x) == [q[0]] + rest;
        assert forall y :: y in Without(q, x) <==> y == q[0] || y in rest;
        assert q[0] !in rest;
      }
    }
  }

  lemma {:induction false} WithoutAddsNothing<T>(q: seq<T>, x: T)
    ensures forall y :: y in Without(q, x) ==> y in q
    decreases |q|
  {
    if q != [] {
      WithoutAddsNothing(q[1..], x);
    }
  }

  lemma {:induction false} WithoutAt<T>(q: seq<T>, k: nat)
    requires k < |q| && (forall i :: 0 <= i < k ==> q[i] != q[k])
    ensures Without(q, q[k]) == q[..k] + q[k + 1..]
    decreases k
  {
    if k > 0 {
      WithoutAt(q[1..], k - 1);
      assert q[1..][..k - 1] == q[1..k] && q[1..][k..] == q[k + 1..];
    }
  }

  lemma {:induction false} WithoutAbsent<T>(q: seq<T>, x: T)
    requires x !in q
    ensures Without(q, x) == q
    decreases |q|
  {
    if q != [] {
      WithoutAbsent(q[1..], x);
    }
  }

  lemma NoRepeatsConcat<T>(a: seq<T>, b: seq<T>)
    requires NoRepeats(a) && NoRepeats(b) && (forall x :: x in b ==> x !in a)
    ensures NoRepeats(a + b)
  {
    forall i, j | 0 <= i < j < |a + b|
      ensures (a + b)[i] != (a + b)[j]
    {
      if i < |a| <= j {
        assert (a + b)[j] == b[j - |a|] && b[j - |a|] in b;
      }
    }
  }

  lemma {:induction false} CountedOnce<T>(q: seq<T>, x: T)
    requires NoRepeats(q)
    ensures multiset(q)[x] == if x in q then 1 else 0
    decreases |q|
  {
    if q != [] {
      assert q == [q[0]] + q[1..];
      assert NoRepeats(q[1..]);
      CountedOnce(q[1..], x);
      assert q[0] !in q[1..];
    }
  }

  /** A sequence without repetition is as long as the set of its elements is large. */
  lemma {:induction false} DistinctCount<T>(q: seq<T>, all: set<T>)
    requires NoRepeats(q) && forall x :: x in q <==> x in all
    ensures |all| == |q|
    decreases |q|
  {
    if q == [] {
      assert all == {};
    } else {
      assert q == [q[0]] + q[1..];
      DistinctCount(q[1..], all - {q[0]});
    }
  }

  // ---- Order -----------------------------------------------------------------------

  predicate AheadAt<T(==)>(q: seq<T>, i: int, j: int, x: T, y: T) { 0 <= i < j < |q| && q[i] == x && q[j] == y }

  /** `x` stands somewhere before `y`. */
  ghost predicate Ahead<T>(q: seq<T>, x: T, y: T) { exists i, j :: AheadAt(q, i, j, x, y) }

  lemma {:induction false} WithoutKeepsOrder<T>(q: seq<T>, z: T, x: T, y: T)
    ensures Ahead(Without(q, z), x, y) ==> Ahead(q, x, y)
    decreases |q|
  {
    var r := Without(q, z);
    if i, j :| AheadAt(r, i, j, x, y) {
      if q[0] == z {
        assert AheadAt(q, i + 1, j + 1, x, y);
      } else {
        var rest := Without(q[1..], z);
        assert r == [q[0]] + rest;
        if i > 0 {
          assert AheadAt(rest, i - 1, j - 1, x, y);
          WithoutKeepsOrder(q[1..], z, x, y);
          var m, n :| AheadAt(q[1..], m, n, x, y);
          assert AheadAt(q, m + 1, n + 1, x, y);
        } else {
          WithoutAddsNothing(q[1..], z);
          assert rest[j - 1] == y && y in rest;
          var n :| 0 <= n < |q[1..]| && q[1..][n] == y;
          assert AheadAt(q, 0, n + 1, x, y);
        }
      }
    }
  }
}
