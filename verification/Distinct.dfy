/** Sequences without repetition, and the pigeonhole principle over `0..n`. */
module Distinct {

  ghost predicate IsDistinct<T>(s: seq<T>) {
    forall i, j :: 0 <= i < j < |s| ==> s[i] != s[j]
  }

  ghost function IndexOf<T>(s: seq<T>, x: T): (i: nat)
    requires x in s
    ensures i < |s| && s[i] == x
  {
    var i :| 0 <= i < |s| && s[i] == x; i
  }

  function Elements<T>(s: seq<T>): set<T> {
    set x | x in s
  }

  lemma {:induction false} DistinctSize<T>(s: seq<T>)
    requires IsDistinct(s)
    ensures |Elements(s)| == |s|
  {
    if s != [] {
      var front, x := s[..|s| - 1], s[|s| - 1];
      DistinctSize(front);
      assert s == front + [x];
      assert Elements(s) == Elements(front) + {x};
      assert x !in front;
    }
  }

  function Below(n: nat): (s: set<nat>)
    ensures |s| == n && forall x: nat :: x in s <==> x < n
  {
    if n == 0 then {} else Below(n - 1) + {n - 1}
  }

  lemma SubsetSize<T>(a: set<T>, b: set<T>)
    requires a <= b
    ensures |a| <= |b|
    ensures |a| == |b| ==> a == b
  {
    assert b == a + (b - a);
    assert |b| == |a| + |b - a|;
  }

  /** Distinct numbers below `n`: at most `n` of them, and `n` of them hit everything. */
  lemma Pigeonhole(s: seq<nat>, n: nat)
    requires IsDistinct(s) && forall i :: 0 <= i < |s| ==> s[i] < n
    ensures |s| <= n
    ensures |s| == n ==> forall c: nat :: c < n ==> c in s
  {
    DistinctSize(s);
    SubsetSize(Elements(s), Below(n));
    if |s| == n {
      forall c: nat | c < n ensures c in s { assert c in Elements(s); }
    }
  }

  /** Two distinct sequences over the same elements have the same length. */
  lemma SameElementsSameSize<T>(s: seq<T>, t: seq<T>)
    requires IsDistinct(s) && IsDistinct(t)
    requires forall x :: x in s <==> x in t
    ensures |s| == |t|
  {
    DistinctSize(s);
    DistinctSize(t);
    assert Elements(s) == Elements(t);
  }
}
