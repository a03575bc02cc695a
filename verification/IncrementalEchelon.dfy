/** The echelon tracker as a mutable object, and matrix inversion by back-substitution
    (crates/primitives/math/src/echelon.rs). */
module EchelonTracker {
  import opened Algebra
  import opened Distinct
  import opened Linalg
  import opened Span
  import opened Echelon
  import opened Rank

  // ---------- back-substitution ----------

  /** Columns of pivots after `j` are cleared everywhere; column `pivots[j]` is cleared
      in the rows before `i`. Each row still stands for its transformation row. */
  ghost predicate Swept<F(!new)>(f: Field<F>, n: nat, e: Matrix<F>, acc: seq<seq<F>>, j: int, i: int) {
    && Shaped(n, e) && |e.rows| == n == |acc|
    && (forall a :: 0 <= a < n ==> Stands(f, n, Pending(e.rows[a], e.transform[a]), acc))
    && (forall a :: 0 <= a < n ==> e.rows[a][e.pivots[a]] == f.one)
    && (forall a, b :: 0 <= a < n && 0 <= b < n && a != b && (b < a || b > j || (b == j && a < i)) ==>
          e.rows[a][e.pivots[b]] == f.zero)
  }

  function Eliminate<F(!new, ==)>(f: Field<F>, n: nat, e: Matrix<F>, j: nat, i: nat): Matrix<F>
    requires Shaped(n, e) && i < |e.rows| && j < |e.rows|
  {
    var p := Clear(f, n, Matrix([e.rows[j]], [e.pivots[j]], [e.transform[j]]), Pending(e.rows[i], e.transform[i]), 0);
    e.(rows := e.rows[i := p.row], transform := e.transform[i := p.trow])
  }

  lemma EliminateStep<F(!new)>(f: Field<F>, n: nat, e: Matrix<F>, acc: seq<seq<F>>, j: nat, i: nat)
    requires f.IsField() && AllIn(Vec(f, n), acc) && i < j < n && Swept(f, n, e, acc, j, i)
    ensures Swept(f, n, Eliminate(f, n, e, j, i), acc, j, i + 1)
  {
    var a := e.rows[i][e.pivots[j]];
    if a != f.zero {
      f.Unit(a); f.Unit(f.zero); f.Unit(f.one); f.MulZero(a);
      f.SubIsScaled(f.one, a, f.zero); f.MulZero(f.Neg(a));
      StandsStep(f, n, acc, Pending(e.rows[i], e.transform[i]), Pending(e.rows[j], e.transform[j]), a);
    }
  }

  /** A fully swept row is a unit vector, and its transformation row a row of the inverse. */
  lemma SweptRow<F(!new)>(f: Field<F>, n: nat, e: Matrix<F>, acc: seq<seq<F>>, j: nat)
    requires Swept(f, n, e, acc, -1, 0) && (forall c: nat :: c < n ==> c in e.pivots) && j < n
    ensures Lin(Vec(f, n), e.transform[j], acc, n) == Basis(f, n, e.pivots[j])
  {
    assert Stands(f, n, Pending(e.rows[j], e.transform[j]), acc);
    forall d: nat | d < n ensures e.rows[j][d] == Basis(f, n, e.pivots[j])[d] {
      var b := IndexOf(e.pivots, d);
    }
    assert e.rows[j] == Basis(f, n, e.pivots[j]);
  }

  /** Clears the entries above each pivot, last arrival first. */
  method BackSubstitute<F(!new, ==)>(f: Field<F>, n: nat, m: Matrix<F>, ghost acc: seq<seq<F>>) returns (e: Matrix<F>)
    requires f.IsField() && AllIn(Vec(f, n), acc) && Swept(f, n, m, acc, n - 1, 0)
    ensures Swept(f, n, e, acc, -1, 0) && e.pivots == m.pivots
  {
    e := m;
    var j := n;
    while j > 0
      invariant j <= n && Swept(f, n, e, acc, j - 1, 0) && e.pivots == m.pivots
    {
      j := j - 1;
      for i := 0 to j
        invariant Swept(f, n, e, acc, j, i) && e.pivots == m.pivots
      {
        ghost var before := e;
        var factor := e.rows[i][e.pivots[j]];
        if factor != f.zero {
          var row := SubtractScaled(f, e.rows[i], factor, e.rows[j]);
          var trow := SubtractScaled(f, e.transform[i], factor, e.transform[j]);
          e := e.(rows := e.rows[i := row], transform := e.transform[i := trow]);
        }
        assert e == Eliminate(f, n, before, j, i);
        EliminateStep(f, n, before, acc, j, i);
      }
    }
  }

  /** Row `j` of the swept form is the unit vector of column `pivots[j]`, so its
      transformation row goes to place `pivots[j]`. */
  method PlaceByPivot<F(!new)>(f: Field<F>, n: nat, e: Matrix<F>, ghost acc: seq<seq<F>>)
      returns (inverse: seq<seq<F>>)
    requires f.IsField() && AllIn(Vec(f, n), acc) && Independent(Vec(f, n), acc)
    requires Swept(f, n, e, acc, -1, 0) && (forall c: nat :: c < n ==> c in e.pivots) && IsDistinct(e.pivots)
    ensures IsInverse(f, n, inverse, acc)
  {
    inverse := seq(n, _ => seq(n, _ => f.zero));
    for k := 0 to n
      invariant |inverse| == n && forall b :: 0 <= b < k ==> inverse[e.pivots[b]] == e.transform[b]
    {
      inverse := inverse[e.pivots[k] := e.transform[k]];
    }
    PlacedIsInverse(f, n, e, acc, inverse);
  }

  lemma PlacedIsInverse<F(!new)>(f: Field<F>, n: nat, e: Matrix<F>, acc: seq<seq<F>>, inverse: seq<seq<F>>)
    requires f.IsField() && AllIn(Vec(f, n), acc) && Independent(Vec(f, n), acc)
    requires Swept(f, n, e, acc, -1, 0) && (forall c: nat :: c < n ==> c in e.pivots)
    requires |inverse| == n && forall b :: 0 <= b < n ==> inverse[e.pivots[b]] == e.transform[b]
    ensures IsInverse(f, n, inverse, acc)
  {
    forall c | 0 <= c < n ensures |inverse[c]| == n && Lin(Vec(f, n), inverse[c], acc, n) == Basis(f, n, c) {
      SweptRow(f, n, e, acc, IndexOf(e.pivots, c));
    }
    LeftInverseIsInverse(f, n, inverse, acc);
  }

  // ---------- reduction of an arriving row ----------

  /** Reduces an arriving row against every stored row, in arrival order. */
  method ReduceArrival<F(!new, ==)>(f: Field<F>, n: nat, e: Matrix<F>, row: seq<F>) returns (p: Pending<F>)
    requires Shaped(n, e) && |row| == n
    ensures p == Reduce(f, n, e, Arrival(f, n, |e.rows|, row), |e.rows|)
  {
    var r := row;
    var t := seq(n, j => if j == |e.rows| then f.one else f.zero);
    for j := 0 to |e.rows|
      invariant Pending(r, t) == Reduce(f, n, e, Arrival(f, n, |e.rows|, row), j)
    {
      var factor := r[e.pivots[j]];
      if factor != f.zero {
        r := SubtractScaled(f, r, factor, e.rows[j]);
        t := SubtractScaled(f, t, factor, e.transform[j]);
      }
    }
    p := Pending(r, t);
  }

  method FindPivot<F(!new, ==)>(f: Field<F>, row: seq<F>) returns (pivot: nat)
    ensures pivot == Leading(f, row)
  {
    pivot := 0;
    while pivot < |row| && row[pivot] == f.zero
      invariant pivot <= |row| && forall c :: 0 <= c < pivot ==> row[c] == f.zero
    {
      pivot := pivot + 1;
    }
  }

  // ---------- the object ----------

  class IncrementalEchelon<F(!new, ==)> {
    const field: Field<F>
    const n: nat
    var echelon: seq<seq<F>>
    var pivots: seq<nat>
    var transform: seq<seq<F>>
    ghost var accepted: seq<seq<F>>

    function View(): Matrix<F>
      reads this
    {
      Matrix(echelon, pivots, transform)
    }

    ghost predicate Valid()
      reads this
    {
      field.IsField() && Represents(field, n, View(), accepted)
    }

    constructor (field: Field<F>, n: nat)
      requires field.IsField()
      ensures Valid() && this.field == field && this.n == n && accepted == []
    {
      this.field, this.n := field, n;
      echelon, pivots, transform, accepted := [], [], [], [];
      new;
      EmptyRepresents(field, n);
    }

    /** True exactly when `row` is outside the span of the accepted rows; a dependent
        row changes nothing. */
    method AddRow(row: seq<F>) returns (independent: bool)
      requires Valid() && |row| == n && |accepted| < n
      modifies this
      ensures Valid()
      ensures independent <==> !InSpan(Vec(field, n), old(accepted), row)
      ensures accepted == if independent then old(accepted) + [row] else old(accepted)
      ensures View() == Offer(field, n, old(View()), row) && (!independent ==> View() == old(View()))
    {
      ghost var e := View();
      InsertDecides(field, n, e, accepted, row);
      var p := ReduceArrival(field, n, Matrix(echelon, pivots, transform), row);
      var pivot := FindPivot(field, p.row);
      if pivot == n {
        return false;
      }
      var inv := field.Inv(p.row[pivot]);
      InsertRepresents(field, n, e, accepted, row);
      echelon := echelon + [VScale(field, inv, p.row)];
      pivots := pivots + [pivot];
      transform := transform + [VScale(field, inv, p.trow)];
      accepted := accepted + [row];
      return true;
    }

    function Rank(): (r: nat)
      requires Valid()
      reads this
      ensures r == |accepted| <= n
    {
      |echelon|
    }

    predicate IsFull()
      requires Valid()
      reads this
      ensures IsFull() <==> |accepted| == n
    {
      |echelon| == n
    }

    /** The two-sided inverse of the matrix of accepted rows, in acceptance order. */
    method Inverse() returns (inverse: seq<seq<F>>)
      requires Valid() && IsFull()
      ensures IsInverse(field, n, inverse, accepted)
    {
      Parts(field, n, View(), accepted);
      PivotsDistinct(field, n, View());
      var e := BackSubstitute(field, n, Matrix(echelon, pivots, transform), accepted);
      inverse := PlaceByPivot(field, n, e, accepted);
    }

    method Reset()
      requires Valid()
      modifies this
      ensures Valid() && accepted == [] && View() == Empty()
    {
      echelon, pivots, transform, accepted := [], [], [], [];
      EmptyRepresents(field, n);
    }
  }
}
