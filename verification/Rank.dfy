/** What the accepted rows determine: pivots, rank and the inverse
    (crates/primitives/math/src/echelon.rs). */
module Rank {
  import opened Algebra
  import opened Span
  import opened Distinct
  import opened Echelon

  lemma PivotsDistinct<F(!new)>(f: Field<F>, n: nat, e: Matrix<F>)
    requires f.IsField() && Staircase(f, n, e)
    ensures IsDistinct(e.pivots)
    ensures |e.rows| <= n && (|e.rows| == n ==> forall c: nat :: c < n ==> c in e.pivots)
  {
    Pigeonhole(e.pivots, n);
  }

  /** Coefficients of rows starting before the combination does are zero. */
  lemma {:induction false} CoefficientsBefore<F(!new)>(f: Field<F>, n: nat, e: Matrix<F>, cs: seq<F>, c: nat)
    requires f.IsField() && Staircase(f, n, e) && |cs| == |e.rows| && c <= n
    requires |Lin(Vec(f, n), cs, e.rows, |cs|)| == n
    requires forall i :: 0 <= i < c ==> Lin(Vec(f, n), cs, e.rows, |cs|)[i] == f.zero
    ensures forall j :: 0 <= j < |cs| && e.pivots[j] < c ==> cs[j] == f.zero
  {
    if c > 0 {
      CoefficientsBefore(f, n, e, cs, c - 1);
      forall j | 0 <= j < |cs| && e.pivots[j] == c - 1 ensures cs[j] == f.zero {
        PivotsDistinct(f, n, e);
        CoordOnly(f, n, cs, e.rows, |cs|, c - 1, j);
        f.Unit(cs[j]);
      }
    }
  }

  /** A vector of the span starting at column `c` makes `c` a pivot. */
  lemma StartIsPivot<F(!new)>(f: Field<F>, n: nat, e: Matrix<F>, cs: seq<F>, c: nat)
    requires f.IsField() && Staircase(f, n, e) && |cs| == |e.rows| && c < n
    requires |Lin(Vec(f, n), cs, e.rows, |cs|)| == n && Lin(Vec(f, n), cs, e.rows, |cs|)[c] != f.zero
    requires forall i :: 0 <= i < c ==> Lin(Vec(f, n), cs, e.rows, |cs|)[i] == f.zero
    ensures c in e.pivots
  {
    CoefficientsBefore(f, n, e, cs, c);
    if c !in e.pivots {
      forall j | 0 <= j < |cs| ensures cs[j] == f.zero || e.rows[j][c] == f.zero {
        assert e.pivots[j] != c;
      }
      CoordZero(f, n, cs, e.rows, |cs|, c);
    }
  }

  /** Pivots are determined by the span: a stored row of one matrix lying in the span of
      another starts at one of the other's pivots. */
  lemma PivotInSpan<F(!new)>(f: Field<F>, n: nat, d: Matrix<F>, e: Matrix<F>, j: nat)
    requires f.IsField() && Staircase(f, n, d) && Staircase(f, n, e) && j < |d.rows|
    requires InSpan(Vec(f, n), e.rows, d.rows[j])
    ensures d.pivots[j] in e.pivots
  {
    var cs: seq<F> :| |cs| == |e.rows| && Lin(Vec(f, n), cs, e.rows, |e.rows|) == d.rows[j];
    StartIsPivot(f, n, e, cs, d.pivots[j]);
  }

  /** Rank depends only on the span of the accepted rows. */
  lemma RankFromSpan<F(!new)>(f: Field<F>, n: nat, d: Matrix<F>, e: Matrix<F>, dAcc: seq<seq<F>>, eAcc: seq<seq<F>>)
    requires f.IsField() && Represents(f, n, d, dAcc) && Represents(f, n, e, eAcc)
    requires SameSpan(Vec(f, n), dAcc, eAcc)
    ensures |d.rows| == |e.rows| <= n
    ensures forall c: nat :: c in d.pivots <==> c in e.pivots
  {
    PivotsWithin(f, n, d, e, dAcc, eAcc);
    PivotsWithin(f, n, e, d, eAcc, dAcc);
    Parts(f, n, d, dAcc);
    Parts(f, n, e, eAcc);
    PivotsDistinct(f, n, d);
    PivotsDistinct(f, n, e);
    SameElementsSameSize(d.pivots, e.pivots);
  }

  lemma PivotsWithin<F(!new)>(f: Field<F>, n: nat, d: Matrix<F>, e: Matrix<F>, dAcc: seq<seq<F>>, eAcc: seq<seq<F>>)
    requires f.IsField() && Represents(f, n, d, dAcc) && Represents(f, n, e, eAcc)
    requires Within(Vec(f, n), dAcc, eAcc)
    ensures forall c: nat :: c in d.pivots ==> c in e.pivots
  {
    VecIsSpace(f, n);
    Parts(f, n, d, dAcc);
    Parts(f, n, e, eAcc);
    RowsSpanInputs(f, n, d, dAcc);
    forall j | 0 <= j < |d.rows| ensures d.pivots[j] in e.pivots {
      SpanTrans(Vec(f, n), dAcc, eAcc, d.rows[j]);
      RowsSpanInputs(f, n, e, eAcc);
      PivotInSpan(f, n, d, e, j);
    }
  }

  /** At full rank every column is a pivot, so nothing survives reduction. */
  lemma FullRankReduces<F(!new)>(f: Field<F>, n: nat, e: Matrix<F>, row: seq<F>)
    requires f.IsField() && Staircase(f, n, e) && |e.rows| == n == |row|
    ensures Insert(f, n, e, row).Dependent?
  {
    PivotsDistinct(f, n, e);
    var p := Arrival(f, n, n, row);
    var d := ReduceRow(f, n, e, p, n);
    AllColumnsZero(f, n, e.pivots, Reduce(f, n, e, p, n).row);
  }

  lemma AllColumnsZero<F(!new)>(f: Field<F>, n: nat, pivots: seq<nat>, r: seq<F>)
    requires |pivots| == n == |r| && (forall c: nat :: c < n ==> c in pivots)
    requires forall j :: 0 <= j < n ==> pivots[j] < n && r[pivots[j]] == f.zero
    ensures Leading(f, r) == n
  {
    if Leading(f, r) < n {
      var j := IndexOf(pivots, Leading(f, r));
    }
  }

  /** Conversely, rows that span every unit vector have full rank. */
  lemma SpanningIsFull<F(!new)>(f: Field<F>, n: nat, e: Matrix<F>)
    requires f.IsField() && Staircase(f, n, e)
    requires forall c :: 0 <= c < n ==> InSpan(Vec(f, n), e.rows, Basis(f, n, c))
    ensures |e.rows| == n
  {
    forall c: nat | c < n ensures c in e.pivots {
      assert InSpan(Vec(f, n), e.rows, Basis(f, n, c));
      var cs: seq<F> :| |cs| == |e.rows| && Lin(Vec(f, n), cs, e.rows, |e.rows|) == Basis(f, n, c);
      StartIsPivot(f, n, e, cs, c);
    }
    PivotsDistinct(f, n, e);
    DistinctSize(e.pivots);
    assert Elements(e.pivots) == Below(n);
  }

  // ---------- whole insertion sequences ----------

  /** Offers a row as the decoder does: nothing is inserted at full rank. */
  function Offer<F(!new, ==)>(f: Field<F>, n: nat, e: Matrix<F>, row: seq<F>): (r: Matrix<F>)
    requires Shaped(n, e) && |row| == n
    ensures Shaped(n, r)
  {
    if |e.rows| == n then e else
      match Insert(f, n, e, row)
      case Accepted(m) => m
      case Dependent => e
  }

  /** One offer keeps the row exactly when it is independent of those kept so far. */
  lemma OfferKeeps<F(!new)>(f: Field<F>, n: nat, e: Matrix<F>, acc: seq<seq<F>>, row: seq<F>)
    requires f.IsField() && Represents(f, n, e, acc) && |row| == n
    ensures Represents(f, n, Offer(f, n, e, row), Keep(Vec(f, n), acc, row))
  {
    InsertDecides(f, n, e, acc, row);
    if |acc| == n {
      Parts(f, n, e, acc);
      FullRankReduces(f, n, e, row);
    } else if Insert(f, n, e, row).Accepted? {
      InsertRepresents(f, n, e, acc, row);
    }
  }

  lemma EmptyRepresents<F(!new)>(f: Field<F>, n: nat)
    requires f.IsField()
    ensures Represents(f, n, Empty(), [])
  {
    assert VZero(f, 0) == [];
  }

  /** The echelon form after offering the first `k` rows, in order. */
  function Offers<F(!new, ==)>(f: Field<F>, n: nat, rows: seq<seq<F>>, k: nat): (e: Matrix<F>)
    requires k <= |rows| && forall i :: 0 <= i < k ==> |rows[i]| == n
    ensures Shaped(n, e)
  {
    if k == 0 then Empty() else Offer(f, n, Offers(f, n, rows, k - 1), rows[k - 1])
  }

  /** Whatever is offered, the form represents exactly the rows that were news when they came. */
  lemma {:induction false} OffersRepresent<F(!new)>(f: Field<F>, n: nat, rows: seq<seq<F>>, k: nat)
    requires f.IsField() && k <= |rows| && forall i :: 0 <= i < k ==> |rows[i]| == n
    ensures Represents(f, n, Offers(f, n, rows, k), KeepAll(Vec(f, n), rows, k))
  {
    if k == 0 {
      EmptyRepresents(f, n);
    } else {
      OffersRepresent(f, n, rows, k - 1);
      OfferKeeps(f, n, Offers(f, n, rows, k - 1), KeepAll(Vec(f, n), rows, k - 1), rows[k - 1]);
    }
  }

  /** Two insertion sequences spanning the same space accept equally many rows, never
      more than `n`. */
  lemma RankDependsOnSpan<F(!new)>(f: Field<F>, n: nat, us: seq<seq<F>>, vs: seq<seq<F>>)
    requires f.IsField() && AllIn(Vec(f, n), us) && AllIn(Vec(f, n), vs) && SameSpan(Vec(f, n), us, vs)
    ensures |KeepAll(Vec(f, n), us, |us|)| == |KeepAll(Vec(f, n), vs, |vs|)| <= n
  {
    VecIsSpace(f, n);
    OffersRepresent(f, n, us, |us|);
    OffersRepresent(f, n, vs, |vs|);
    var d, e := Offers(f, n, us, |us|), Offers(f, n, vs, |vs|);
    KeepAllWithin(Vec(f, n), us, vs);
    KeepAllWithin(Vec(f, n), vs, us);
    RankFromSpan(f, n, d, e, KeepAll(Vec(f, n), us, |us|), KeepAll(Vec(f, n), vs, |vs|));
  }

  /** In particular the order of arrival does not matter. */
  lemma RankIgnoresOrder<F(!new)>(f: Field<F>, n: nat, us: seq<seq<F>>, vs: seq<seq<F>>)
    requires f.IsField() && AllIn(Vec(f, n), us) && multiset(us) == multiset(vs)
    ensures |KeepAll(Vec(f, n), us, |us|)| == |KeepAll(Vec(f, n), vs, |vs|)|
  {
    VecIsSpace(f, n);
    forall i | 0 <= i < |us| ensures us[i] in vs { assert us[i] in multiset(us); }
    forall i | 0 <= i < |vs| ensures vs[i] in us { assert vs[i] in multiset(vs); }
    SubsetWithin(Vec(f, n), us, vs);
    SubsetWithin(Vec(f, n), vs, us);
    RankDependsOnSpan(f, n, us, vs);
  }

  // ---------- inverses ----------

  /** `inv·B == I` and `B·inv == I`, where the rows of `B` are `acc`. */
  ghost predicate IsInverse<F(!new)>(f: Field<F>, n: nat, inv: seq<seq<F>>, acc: seq<seq<F>>) {
    && |inv| == n == |acc|
    && (forall i :: 0 <= i < n ==> |inv[i]| == n == |acc[i]|)
    && (forall i :: 0 <= i < n ==> Lin(Vec(f, n), inv[i], acc, n) == Basis(f, n, i))
    && (forall i :: 0 <= i < n ==> Lin(Vec(f, n), acc[i], inv, n) == Basis(f, n, i))
  }

  /** A left inverse of independent rows is a right inverse. */
  lemma LeftInverseIsInverse<F(!new)>(f: Field<F>, n: nat, inv: seq<seq<F>>, acc: seq<seq<F>>)
    requires f.IsField() && |inv| == n == |acc| && AllIn(Vec(f, n), acc) && AllIn(Vec(f, n), inv)
    requires Independent(Vec(f, n), acc)
    requires forall i :: 0 <= i < n ==> Lin(Vec(f, n), inv[i], acc, n) == Basis(f, n, i)
    ensures IsInverse(f, n, inv, acc)
  {
    var s := Vec(f, n);
    VecIsSpace(f, n);
    var es := seq(n, i => Basis(f, n, i));
    forall i | 0 <= i < n ensures Lin(s, acc[i], inv, n) == Basis(f, n, i) {
      LinOfLin(s, acc[i], inv, acc, es, n);
      LinOfBasis(f, n, acc[i], es);
      LinBasis(s, acc, i);
      UniqueCoefficients(s, acc, Lin(s, acc[i], inv, n), Basis(f, n, i));
    }
  }
}
