/** Incremental Gaussian elimination (crates/primitives/math/src/echelon.rs).

    Rows are kept in arrival order and pivots are never sorted, so the stored matrix
    is triangular only up to the order in which the pivots turned up. */
module Echelon {
  import opened Algebra
  import opened Linalg
  import opened Span

  datatype Matrix<F> = Matrix(rows: seq<seq<F>>, pivots: seq<nat>, transform: seq<seq<F>>)

  function Empty<F>(): Matrix<F> { Matrix([], [], []) }

  predicate Shaped<F(!new)>(n: nat, e: Matrix<F>) {
    && |e.rows| == |e.pivots| == |e.transform|
    && forall j :: 0 <= j < |e.rows| ==> |e.rows[j]| == n && |e.transform[j]| == n && e.pivots[j] < n
  }

  /** Row `j` starts at its pivot with a one and vanishes at every earlier row's pivot.
      Entries at later rows' pivots are unconstrained. */
  ghost predicate Staircase<F(!new)>(f: Field<F>, n: nat, e: Matrix<F>) {
    && Shaped(n, e)
    && (forall j :: 0 <= j < |e.rows| ==> e.rows[j][e.pivots[j]] == f.one)
    && (forall j, c :: 0 <= j < |e.rows| && 0 <= c < e.pivots[j] ==> e.rows[j][c] == f.zero)
    && (forall j, k :: 0 <= k < j < |e.rows| ==> e.rows[j][e.pivots[k]] == f.zero)
  }

  /** `transform[j]` writes row `j` as a combination of the inputs `acc`. */
  ghost predicate Traced<F(!new)>(f: Field<F>, n: nat, e: Matrix<F>, acc: seq<seq<F>>) {
    && Shaped(n, e) && |e.rows| == |acc| <= n && AllIn(Vec(f, n), acc)
    && (forall j, i :: 0 <= j < |acc| && |acc| <= i < n ==> e.transform[j][i] == f.zero)
    && (forall j :: 0 <= j < |acc| ==> Lin(Vec(f, n), e.transform[j], acc, |acc|) == e.rows[j])
  }

  /** The matrix is an echelon form of the independent input rows `acc`. Like the field
      laws, the four parts come into a proof only where it names `e` and `acc`. */
  ghost predicate Represents<F(!new)>(f: Field<F>, n: nat, e: Matrix<F>, acc: seq<seq<F>>) {
    && Shaped(n, e) && |e.rows| == |acc| <= n
    && forall a: seq<seq<F>> {:trigger At2(e, a)} :: At2(e, a) && a == acc ==>
        Staircase(f, n, e) && Traced(f, n, e, a) && Within(Vec(f, n), a, e.rows) && Independent(Vec(f, n), a)
  }

  lemma Parts<F(!new)>(f: Field<F>, n: nat, e: Matrix<F>, acc: seq<seq<F>>)
    requires Represents(f, n, e, acc)
    ensures Staircase(f, n, e) && Traced(f, n, e, acc) && Within(Vec(f, n), acc, e.rows)
      && Independent(Vec(f, n), acc)
  {
    assert At2(e, acc);
  }

  // ---------- one insertion ----------

  /** A row being inserted, with the combination of inputs it stands for. */
  datatype Pending<F> = Pending(row: seq<F>, trow: seq<F>)

  /** Clears the column of stored pivot `j`. */
  function Clear<F(!new, ==)>(f: Field<F>, n: nat, e: Matrix<F>, p: Pending<F>, j: nat): (r: Pending<F>)
    requires Shaped(n, e) && |p.row| == |p.trow| == n && j < |e.rows|
    ensures |r.row| == |r.trow| == n
  {
    var factor := p.row[e.pivots[j]];
    if factor == f.zero then p
    else Pending(SubScaled(f, p.row, factor, e.rows[j]), SubScaled(f, p.trow, factor, e.transform[j]))
  }

  /** Reduces against the first `k` stored rows, in arrival order. */
  function Reduce<F(!new, ==)>(f: Field<F>, n: nat, e: Matrix<F>, p: Pending<F>, k: nat): (r: Pending<F>)
    requires Shaped(n, e) && |p.row| == |p.trow| == n && k <= |e.rows|
    ensures |r.row| == |r.trow| == n
  {
    if k == 0 then p else Clear(f, n, e, Reduce(f, n, e, p, k - 1), k - 1)
  }

  /** The row as it arrives: it stands for itself, input number `rank`. */
  function Arrival<F(!new)>(f: Field<F>, n: nat, rank: nat, row: seq<F>): Pending<F> {
    Pending(row, Basis(f, n, rank))
  }

  /** Position of the first non-zero entry, `|row|` if there is none. */
  function Leading<F(!new, ==)>(f: Field<F>, row: seq<F>): (p: nat)
    ensures p <= |row| && (p < |row| ==> row[p] != f.zero)
    ensures forall c :: 0 <= c < p ==> row[c] == f.zero
  {
    if row == [] || row[0] != f.zero then 0 else 1 + Leading(f, row[1..])
  }

  datatype Insertion<F> = Accepted(matrix: Matrix<F>) | Dependent

  function Insert<F(!new, ==)>(f: Field<F>, n: nat, e: Matrix<F>, row: seq<F>): Insertion<F>
    requires Shaped(n, e) && |row| == n
  {
    var p := Reduce(f, n, e, Arrival(f, n, |e.rows|, row), |e.rows|);
    var pivot := Leading(f, p.row);
    if pivot == n then Dependent else
      var inv := f.Inv(p.row[pivot]);
      Accepted(Matrix(e.rows + [VScale(f, inv, p.row)], e.pivots + [pivot], e.transform + [VScale(f, inv, p.trow)]))
  }

  /** Clearing column `j` leaves the earlier ones clear. */
  lemma ClearColumns<F(!new)>(f: Field<F>, n: nat, e: Matrix<F>, p: Pending<F>, j: nat)
    requires f.IsField() && Staircase(f, n, e) && |p.row| == |p.trow| == n && j < |e.rows|
    requires forall i :: 0 <= i < j ==> p.row[e.pivots[i]] == f.zero
    ensures forall i :: 0 <= i <= j ==> Clear(f, n, e, p, j).row[e.pivots[i]] == f.zero
  {
    var a := p.row[e.pivots[j]];
    f.Unit(f.zero); f.MulZero(a); f.Unit(a);
  }

  /** Clearing column `j` leaves the earlier ones clear and moves a multiple of row `j`
      from one side of the sum to the other. */
  lemma ClearRow<F(!new)>(f: Field<F>, n: nat, e: Matrix<F>, p: Pending<F>, d: seq<F>, row: seq<F>, j: nat)
    returns (d': seq<F>)
    requires f.IsField() && Staircase(f, n, e) && |p.row| == |p.trow| == |d| == n && j < |e.rows|
    requires InSpan(Vec(f, n), e.rows, d) && row == Vec(f, n).Add(d, p.row)
    requires forall i :: 0 <= i < j ==> p.row[e.pivots[i]] == f.zero
    ensures forall i :: 0 <= i <= j ==> Clear(f, n, e, p, j).row[e.pivots[i]] == f.zero
    ensures |d'| == n && InSpan(Vec(f, n), e.rows, d')
    ensures row == Vec(f, n).Add(d', Clear(f, n, e, p, j).row)
  {
    var s, a, u := Vec(f, n), p.row[e.pivots[j]], e.rows[j];
    d' := d;
    ClearColumns(f, n, e, p, j);
    if a != f.zero {
      VecIsSpace(f, n);
      SpanMember(s, e.rows, j);
      SpanScaleAdd(s, e.rows, a, u, d);
      SubScaledIsVector(f, n, p.row, a, u);
      s.Shift(a, u, d, p.row);
      d' := s.Add(s.Scale(a, u), d);
    }
  }

  lemma ClearRowTo<F(!new)>(f: Field<F>, n: nat, e: Matrix<F>, p: Pending<F>, d: seq<F>, row: seq<F>, j: nat,
      q: Pending<F>)
    returns (d': seq<F>)
    requires f.IsField() && Staircase(f, n, e) && |p.row| == |p.trow| == |d| == n && j < |e.rows|
    requires InSpan(Vec(f, n), e.rows, d) && row == Vec(f, n).Add(d, p.row)
    requires forall i :: 0 <= i < j ==> p.row[e.pivots[i]] == f.zero
    requires q == Clear(f, n, e, p, j)
    ensures forall i :: 0 <= i <= j ==> q.row[e.pivots[i]] == f.zero
    ensures |d'| == n && InSpan(Vec(f, n), e.rows, d') && row == Vec(f, n).Add(d', q.row)
  {
    d' := ClearRow(f, n, e, p, d, row, j);
  }

  /** Reduction clears every stored pivot column and only subtracts stored rows. */
  lemma {:induction false} ReduceRow<F(!new)>(f: Field<F>, n: nat, e: Matrix<F>, p: Pending<F>, k: nat)
    returns (d: seq<F>)
    requires f.IsField() && Staircase(f, n, e) && |p.row| == |p.trow| == n && k <= |e.rows|
    ensures forall j :: 0 <= j < k ==> Reduce(f, n, e, p, k).row[e.pivots[j]] == f.zero
    ensures |d| == n && InSpan(Vec(f, n), e.rows, d)
    ensures p.row == Vec(f, n).Add(d, Reduce(f, n, e, p, k).row)
  {
    if k == 0 {
      VecIsSpace(f, n);
      d := VZero(f, n);
      SpanZero(Vec(f, n), e.rows);
      Vec(f, n).Unit(p.row);
    } else {
      var before := ReduceRow(f, n, e, p, k - 1);
      d := ClearRowTo(f, n, e, Reduce(f, n, e, p, k - 1), before, p.row, k - 1, Reduce(f, n, e, p, k));
    }
  }

  /** The pending combination evaluates to the pending row. */
  ghost predicate Stands<F(!new)>(f: Field<F>, n: nat, p: Pending<F>, inputs: seq<seq<F>>) {
    && |p.row| == |p.trow| == n && |inputs| <= n
    && Lin(Vec(f, n), p.trow, inputs, |inputs|) == p.row
    && forall i :: |inputs| <= i < n ==> p.trow[i] == f.zero
  }

  /** A new input does not disturb the stored transformation rows. */
  lemma TransformIgnores<F(!new)>(f: Field<F>, n: nat, e: Matrix<F>, acc: seq<seq<F>>, row: seq<F>, j: nat)
    requires f.IsField() && Traced(f, n, e, acc) && |row| == n && |acc| < n && j < |acc|
    ensures Stands(f, n, Pending(e.rows[j], e.transform[j]), acc + [row])
  {
    VecIsSpace(f, n);
    LinPrefix(Vec(f, n), e.transform[j], e.transform[j], acc + [row], acc, |acc|);
    Vec(f, n).Unit(row); Vec(f, n).Unit(e.rows[j]);
  }

  /** The same row update applied to a row and to its transformation row. */
  lemma StandsStep<F(!new)>(f: Field<F>, n: nat, inputs: seq<seq<F>>, p: Pending<F>, q: Pending<F>, a: F)
    requires f.IsField() && AllIn(Vec(f, n), inputs) && Stands(f, n, p, inputs) && Stands(f, n, q, inputs)
    ensures Stands(f, n, Pending(SubScaled(f, p.row, a, q.row), SubScaled(f, p.trow, a, q.trow)), inputs)
  {
    VecIsSpace(f, n);
    forall i | 0 <= i < n { f.SubIsScaled(p.trow[i], a, q.trow[i]); }
    LinScaleAdd(Vec(f, n), f.Neg(a), q.trow, p.trow, SubScaled(f, p.trow, a, q.trow), inputs, |inputs|);
    SubScaledIsVector(f, n, p.row, a, q.row);
    f.MulZero(a); f.MulZero(f.Neg(a)); f.Unit(f.zero);
  }

  lemma StandsScaled<F(!new)>(f: Field<F>, n: nat, inputs: seq<seq<F>>, p: Pending<F>, a: F)
    requires f.IsField() && AllIn(Vec(f, n), inputs) && Stands(f, n, p, inputs)
    ensures Stands(f, n, Pending(VScale(f, a, p.row), VScale(f, a, p.trow)), inputs)
  {
    var s, k := Vec(f, n), |inputs|;
    VecIsSpace(f, n);
    var t := VScale(f, a, p.trow);
    forall i | 0 <= i < k ensures t[i] == f.Add(f.Mul(a, p.trow[i]), VZero(f, n)[i]) { f.Unit(t[i]); }
    LinScaleAdd(s, a, p.trow, VZero(f, n), t, inputs, k);
    LinAllZero(s, VZero(f, n), inputs, k);
    VecOps(f, n, a, p.row, p.row); s.Unit(VScale(f, a, p.row));
    f.MulZero(a);
  }

  lemma {:induction false} ReduceStands<F(!new)>(f: Field<F>, n: nat, e: Matrix<F>, acc: seq<seq<F>>, row: seq<F>,
      k: nat)
    requires f.IsField() && Traced(f, n, e, acc) && |row| == n && |acc| < n && k <= |acc|
    ensures Stands(f, n, Reduce(f, n, e, Arrival(f, n, |acc|, row), k), acc + [row])
  {
    var p := Arrival(f, n, |acc|, row);
    if k == 0 {
      VecIsSpace(f, n);
      LinOnly(Vec(f, n), p.trow, acc + [row], |acc| + 1, |acc|);
      Vec(f, n).Unit(row);
    } else {
      ReduceStands(f, n, e, acc, row, k - 1);
      var q := Reduce(f, n, e, p, k - 1);
      TransformIgnores(f, n, e, acc, row, k - 1);
      StandsStep(f, n, acc + [row], q, Pending(e.rows[k - 1], e.transform[k - 1]), q.row[e.pivots[k - 1]]);
    }
  }

  /** A combination of stored rows that vanishes at every pivot has only zero coefficients. */
  lemma {:induction false} Triangular<F(!new)>(f: Field<F>, n: nat, e: Matrix<F>, cs: seq<F>, k: nat)
    requires f.IsField() && Staircase(f, n, e) && |cs| == |e.rows| && k <= |cs|
    requires |Lin(Vec(f, n), cs, e.rows, |cs|)| == n
    requires forall j :: 0 <= j < |cs| ==> Lin(Vec(f, n), cs, e.rows, |cs|)[e.pivots[j]] == f.zero
    ensures forall j :: 0 <= j < k ==> cs[j] == f.zero
  {
    if k > 0 {
      Triangular(f, n, e, cs, k - 1);
      CoordOnly(f, n, cs, e.rows, |cs|, e.pivots[k - 1], k - 1);
      f.Unit(cs[k - 1]);
    }
  }

  /** The reduced row is zero exactly when the row is a combination of the stored rows. */
  lemma ReducedZeroIffInSpan<F(!new)>(f: Field<F>, n: nat, e: Matrix<F>, p: Pending<F>)
    requires f.IsField() && Staircase(f, n, e) && |p.row| == |p.trow| == n
    ensures InSpan(Vec(f, n), e.rows, p.row) <==> Reduce(f, n, e, p, |e.rows|).row == VZero(f, n)
  {
    var s, k := Vec(f, n), |e.rows|;
    VecIsSpace(f, n);
    var d := ReduceRow(f, n, e, p, k);
    var r := Reduce(f, n, e, p, k).row;
    s.Unit(d);
    if InSpan(s, e.rows, p.row) {
      SpanScaleAdd(s, e.rows, f.Neg(f.one), d, p.row);
      s.Remove(d, r);
      var cs: seq<F> :| |cs| == k && Lin(s, cs, e.rows, k) == r;
      Triangular(f, n, e, cs, k);
      LinAllZero(s, cs, e.rows, k);
    }
  }

  lemma RowsSpanInputs<F(!new)>(f: Field<F>, n: nat, e: Matrix<F>, acc: seq<seq<F>>)
    requires f.IsField() && Represents(f, n, e, acc)
    ensures SameSpan(Vec(f, n), e.rows, acc)
    ensures forall v: seq<F> :: InSpan(Vec(f, n), acc, v) <==> InSpan(Vec(f, n), e.rows, v)
  {
    var s := Vec(f, n);
    VecIsSpace(f, n);
    Parts(f, n, e, acc);
    forall j | 0 <= j < |acc| ensures InSpan(s, acc, e.rows[j]) {
      LinPrefix(s, e.transform[j][..|acc|], e.transform[j], acc, acc, |acc|);
    }
    forall v: seq<F> ensures InSpan(s, acc, v) <==> InSpan(s, e.rows, v) {
      if InSpan(s, acc, v) { SpanTrans(s, acc, e.rows, v); }
      if InSpan(s, e.rows, v) { SpanTrans(s, e.rows, acc, v); }
    }
  }

  /** Insertion decides independence exactly. */
  lemma InsertDecides<F(!new)>(f: Field<F>, n: nat, e: Matrix<F>, acc: seq<seq<F>>, row: seq<F>)
    requires f.IsField() && Represents(f, n, e, acc) && |row| == n
    ensures Insert(f, n, e, row).Dependent? <==> InSpan(Vec(f, n), acc, row)
  {
    Parts(f, n, e, acc);
    RowsSpanInputs(f, n, e, acc);
    DependentIffSpanned(f, n, e, row);
  }

  lemma DependentIffSpanned<F(!new)>(f: Field<F>, n: nat, e: Matrix<F>, row: seq<F>)
    requires f.IsField() && Staircase(f, n, e) && |row| == n
    ensures Insert(f, n, e, row).Dependent? <==> InSpan(Vec(f, n), e.rows, row)
  {
    var p := Arrival(f, n, |e.rows|, row);
    ReducedZeroIffInSpan(f, n, e, p);
    var r := Reduce(f, n, e, p, |e.rows|).row;
    assert Leading(f, r) == n ==> r == VZero(f, n);
  }

  /** Insertion keeps the echelon form, now of one more input. */
  lemma InsertRepresents<F(!new)>(f: Field<F>, n: nat, e: Matrix<F>, acc: seq<seq<F>>, row: seq<F>)
    requires f.IsField() && Represents(f, n, e, acc) && |row| == n && |acc| < n && Insert(f, n, e, row).Accepted?
    ensures Represents(f, n, Insert(f, n, e, row).matrix, acc + [row])
  {
    VecIsSpace(f, n);
    Parts(f, n, e, acc);
    InsertDecides(f, n, e, acc, row);
    InsertStaircase(f, n, e, row);
    InsertTraced(f, n, e, acc, row);
    InsertWithin(f, n, e, acc, row);
    IndependentExtend(Vec(f, n), acc, row);
  }

  lemma InsertStaircase<F(!new)>(f: Field<F>, n: nat, e: Matrix<F>, row: seq<F>)
    requires f.IsField() && Staircase(f, n, e) && |row| == n && Insert(f, n, e, row).Accepted?
    ensures Staircase(f, n, Insert(f, n, e, row).matrix)
  {
    var p := Arrival(f, n, |e.rows|, row);
    var q := Reduce(f, n, e, p, |e.rows|);
    var d := ReduceRow(f, n, e, p, |e.rows|);
    var pivot := Leading(f, q.row);
    var inv := f.Inv(q.row[pivot]);
    Normalised(f, q.row, pivot);
    StaircaseMore(f, n, e, VScale(f, inv, q.row), pivot, VScale(f, inv, q.trow));
  }

  /** Dividing a row by one of its entries makes that entry one and keeps zeros. */
  lemma Normalised<F(!new)>(f: Field<F>, r: seq<F>, pivot: nat)
    requires f.IsField() && pivot < |r| && r[pivot] != f.zero
    ensures var v := VScale(f, f.Inv(r[pivot]), r);
      |v| == |r| && v[pivot] == f.one && forall c :: 0 <= c < |r| && r[c] == f.zero ==> v[c] == f.zero
  {
    f.Unit(r[pivot]); f.MulZero(f.Inv(r[pivot]));
  }

  lemma StaircaseMore<F(!new)>(f: Field<F>, n: nat, e: Matrix<F>, row: seq<F>, pivot: nat, trow: seq<F>)
    requires Staircase(f, n, e) && |row| == |trow| == n && pivot < n && row[pivot] == f.one
    requires forall c :: 0 <= c < pivot ==> row[c] == f.zero
    requires forall k :: 0 <= k < |e.rows| ==> row[e.pivots[k]] == f.zero
    ensures Staircase(f, n, Matrix(e.rows + [row], e.pivots + [pivot], e.transform + [trow]))
  {
  }

  lemma InsertTraced<F(!new)>(f: Field<F>, n: nat, e: Matrix<F>, acc: seq<seq<F>>, row: seq<F>)
    requires f.IsField() && Traced(f, n, e, acc) && |row| == n && |acc| < n && Insert(f, n, e, row).Accepted?
    ensures Traced(f, n, Insert(f, n, e, row).matrix, acc + [row])
  {
    var p := Reduce(f, n, e, Arrival(f, n, |acc|, row), |acc|);
    ReduceStands(f, n, e, acc, row, |acc|);
    StandsScaled(f, n, acc + [row], p, f.Inv(p.row[Leading(f, p.row)]));
    forall j | 0 <= j < |acc| { TransformIgnores(f, n, e, acc, row, j); }
  }

  lemma InsertWithin<F(!new)>(f: Field<F>, n: nat, e: Matrix<F>, acc: seq<seq<F>>, row: seq<F>)
    requires f.IsField() && Staircase(f, n, e) && Within(Vec(f, n), acc, e.rows) && |row| == n
      && Insert(f, n, e, row).Accepted?
    ensures Within(Vec(f, n), acc + [row], Insert(f, n, e, row).matrix.rows)
  {
    var s, k, rows := Vec(f, n), |e.rows|, Insert(f, n, e, row).matrix.rows;
    VecIsSpace(f, n);
    var r := Reduce(f, n, e, Arrival(f, n, k, row), k).row;
    var d := ReduceRow(f, n, e, Arrival(f, n, k, row), k);
    Unscale(f, n, rows, e.rows, r[Leading(f, r)], r, d);
    forall j | 0 <= j < |acc| ensures InSpan(s, rows, acc[j]) { SpanExtend(s, e.rows, rows[k], acc[j]); }
  }

  /** `d + r` is spanned once the normalised `r/p` joins a family spanning `d`. */
  lemma Unscale<F(!new)>(f: Field<F>, n: nat, rows: seq<seq<F>>, before: seq<seq<F>>, p: F, r: seq<F>, d: seq<F>)
    requires f.IsField() && p != f.zero && |r| == |d| == n && AllIn(Vec(f, n), before)
    requires rows == before + [VScale(f, f.Inv(p), r)] && InSpan(Vec(f, n), before, d)
    ensures InSpan(Vec(f, n), rows, Vec(f, n).Add(d, r))
  {
    var s, r' := Vec(f, n), VScale(f, f.Inv(p), r);
    VecIsSpace(f, n);
    SpanExtend(s, before, r', d);
    SpanMember(s, rows, |before|);
    SpanScaleAdd(s, rows, p, r', d);
    VecOps(f, n, f.Inv(p), r, r);
    f.Unit(p); s.ScaleLaws(p, f.Inv(p), r); s.Unit(r); s.Closed(p, d, r);
  }
}
