/** Linear combinations of field-element vectors (crates/primitives/math/src/linalg.rs). */
module Linalg {
  import opened Algebra

  /** `u[i] - v[i]·a`, the row update of elimination. */
  function SubScaled<F(!new)>(f: Field<F>, u: seq<F>, a: F, v: seq<F>): seq<F>
    requires |u| == |v|
  {
    seq(|u|, i requires 0 <= i < |u| => f.Sub(u[i], f.Mul(v[i], a)))
  }

  lemma SubScaledIsVector<F(!new)>(f: Field<F>, n: nat, u: seq<F>, a: F, v: seq<F>)
    requires f.IsField() && |u| == |v| == n
    ensures SubScaled(f, u, a, v) == Vec(f, n).Add(Vec(f, n).Scale(f.Neg(a), v), u)
  {
    VecOps(f, n, f.Neg(a), VScale(f, f.Neg(a), v), u);
    VecOps(f, n, f.Neg(a), v, v);
    forall i | 0 <= i < n { f.SubIsScaled(u[i], a, v[i]); }
  }

  /** Subtracts `a` times `v` from `u`, entry by entry. */
  method SubtractScaled<F(!new)>(f: Field<F>, u: seq<F>, a: F, v: seq<F>) returns (r: seq<F>)
    requires |u| == |v|
    ensures r == SubScaled(f, u, a, v)
  {
    r := u;
    for i := 0 to |u|
      invariant |r| == |u|
      invariant forall j :: 0 <= j < |u| ==> r[j] == if j < i then f.Sub(u[j], f.Mul(v[j], a)) else u[j]
    {
      r := r[i := f.Sub(r[i], f.Mul(v[i], a))];
    }
  }

  /** `result[j] = Σ_i coeffs[i]·vecs[i][j]`. */
  method LinearCombination<F(!new)>(f: Field<F>, vecs: seq<seq<F>>, coeffs: seq<F>) returns (result: seq<F>)
    requires f.IsField()
    requires vecs != [] && |vecs| == |coeffs|
    requires forall i :: 0 <= i < |vecs| ==> |vecs[i]| == |vecs[0]|
    ensures |result| == |vecs[0]|
    ensures result == Lin(Vec(f, |vecs[0]|), coeffs, vecs, |vecs|)
  {
    var len := |vecs[0]|;
    result := seq(len, _ => f.zero);
    for i := 0 to |vecs|
      invariant |result| == len
      invariant result == Lin(Vec(f, len), coeffs, vecs, i)
    {
      ghost var before := result;
      for j := 0 to len
        invariant |result| == len
        invariant forall c :: 0 <= c < len ==>
          result[c] == if c < j then f.Add(before[c], f.Mul(vecs[i][c], coeffs[i])) else before[c]
      {
        result := result[j := f.Add(result[j], f.Mul(vecs[i][j], coeffs[i]))];
      }
      forall c | 0 <= c < len { f.Comm(vecs[i][c], coeffs[i]); }
      VecOps(f, len, coeffs[i], before, vecs[i]);
      VecOps(f, len, coeffs[i], before, VScale(f, coeffs[i], vecs[i]));
      assert result == VAdd(f, before, VScale(f, coeffs[i], vecs[i]));
    }
  }

  /** One set of mixing coefficients for both the data and the coefficient vectors. */
  method Reencode<F(!new)>(f: Field<F>, dataVecs: seq<seq<F>>, coeffVecs: seq<seq<F>>, alphas: seq<F>)
    returns (newData: seq<F>, newCoeffs: seq<F>)
    requires f.IsField()
    requires dataVecs != [] && |dataVecs| == |coeffVecs| == |alphas|
    requires forall i :: 0 <= i < |dataVecs| ==> |dataVecs[i]| == |dataVecs[0]|
    requires forall i :: 0 <= i < |coeffVecs| ==> |coeffVecs[i]| == |coeffVecs[0]|
    ensures newData == Lin(Vec(f, |dataVecs[0]|), alphas, dataVecs, |alphas|)
    ensures newCoeffs == Lin(Vec(f, |coeffVecs[0]|), alphas, coeffVecs, |alphas|)
  {
    newData := LinearCombination(f, dataVecs, alphas);
    newCoeffs := LinearCombination(f, coeffVecs, alphas);
  }
}
