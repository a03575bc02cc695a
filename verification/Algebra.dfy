/** Scalars, vector spaces over them, and linear combinations.

    The code is generic over `F: Field` and over groups with a scalar action. Both
    are records of operations here, so every theorem holds for all fields and all
    groups that meet the laws. */
module Algebra {

  // ---------- instantiating laws ----------

  // A law below is used only at operands a proof names through one of these marks,
  // which keeps associativity and commutativity from being tried everywhere.
  ghost predicate At1<A>(a: A) { true }
  ghost predicate At2<A, B>(a: A, b: B) { true }
  ghost predicate At3<A, B, C>(a: A, b: B, c: C) { true }

  // ---------- fields ----------

  datatype Field<!F(!new)> = Field(zero: F, one: F, add: (F, F) -> F, neg: F -> F,
                                   mul: (F, F) -> F, inv: F -> F)
  {
    function Add(a: F, b: F): F { add(a, b) }

    function Mul(a: F, b: F): F { mul(a, b) }

    function Neg(a: F): F { neg(a) }

    function Inv(a: F): F { inv(a) }

    function Sub(a: F, b: F): F { Add(a, Neg(b)) }

    ghost predicate IsField() {
      && zero != one
      && (forall a, b {:trigger At2(a, b)} :: At2(a, b) ==>
            Add(a, b) == Add(b, a) && Mul(a, b) == Mul(b, a))
      && (forall a, b, c {:trigger At3(a, b, c)} :: At3(a, b, c) ==>
            && Add(Add(a, b), c) == Add(a, Add(b, c))
            && Mul(Mul(a, b), c) == Mul(a, Mul(b, c))
            && Mul(a, Add(b, c)) == Add(Mul(a, b), Mul(a, c)))
      && (forall a {:trigger At1(a)} :: At1(a) ==>
            && Add(a, zero) == a && Add(a, Neg(a)) == zero && Mul(a, one) == a
            && (a != zero ==> Mul(a, Inv(a)) == one))
    }

    lemma Comm(a: F, b: F)
      requires IsField()
      ensures Add(a, b) == Add(b, a) && Mul(a, b) == Mul(b, a)
    {
      assert At2(a, b);
    }

    lemma Assoc(a: F, b: F, c: F)
      requires IsField()
      ensures Add(Add(a, b), c) == Add(a, Add(b, c)) && Mul(Mul(a, b), c) == Mul(a, Mul(b, c))
    {
      assert At3(a, b, c);
    }

    lemma Dist(a: F, b: F, c: F)
      requires IsField()
      ensures Mul(a, Add(b, c)) == Add(Mul(a, b), Mul(a, c))
      ensures Mul(Add(b, c), a) == Add(Mul(b, a), Mul(c, a))
    {
      assert At3(a, b, c) && At2(a, Add(b, c)) && At2(a, b) && At2(a, c);
    }

    lemma Unit(a: F)
      requires IsField()
      ensures Add(a, zero) == a == Add(zero, a) && Mul(a, one) == a == Mul(one, a)
      ensures Add(a, Neg(a)) == zero && Sub(a, a) == zero
      ensures a != zero ==> Mul(a, Inv(a)) == one == Mul(Inv(a), a)
    {
      assert At1(a) && At2(a, zero) && At2(a, one) && At2(a, Inv(a));
    }

    lemma Cancel(a: F, b: F, c: F)
      requires IsField()
      requires Add(a, c) == Add(b, c)
      ensures a == b
    {
      Assoc(a, c, Neg(c)); Assoc(b, c, Neg(c)); Unit(c); Unit(a); Unit(b);
    }

    lemma MulZero(a: F)
      requires IsField()
      ensures Mul(a, zero) == zero == Mul(zero, a)
    {
      Unit(zero); Dist(a, zero, zero); Unit(Mul(a, zero)); Comm(a, zero);
      Cancel(Mul(a, zero), zero, Mul(a, zero));
    }

    /** `a - c·b` as a scaled sum, which is how subtraction meets the vector laws. */
    lemma SubIsScaled(a: F, b: F, c: F)
      requires IsField()
      ensures Sub(a, Mul(c, b)) == Add(Mul(Neg(b), c), a)
    {
      var p, m := Mul(c, b), Mul(Neg(b), c);
      Dist(c, Neg(b), b); Unit(b); Comm(b, Neg(b)); MulZero(c); Comm(c, b);
      assert Add(m, p) == zero;
      Unit(p); Comm(p, Neg(p)); Cancel(m, Neg(p), p); Comm(a, m);
    }
  }

  /** The two-element field: the laws above have a model. */
  function GF2(): Field<bool> {
    Field(false, true, (a, b) => a != b, a => a, (a, b) => a && b, a => a)
  }

  // ---------- vector spaces ----------

  datatype Space<!F(!new), !V(!new)> = Space(f: Field<F>, zero: V, add: (V, V) -> V, smul: (F, V) -> V,
      has: V -> bool)
  {
    function Add(u: V, v: V): V { add(u, v) }

    function Scale(a: F, v: V): V { smul(a, v) }

    predicate Has(v: V) { has(v) }

    ghost predicate IsSpace() {
      f.IsField() && IsGroup() && IsScaled()
    }

    /** Addition: closed, commutative, associative, with a zero. */
    ghost predicate IsGroup() {
      && Has(zero)
      && (forall u, v {:trigger At2(u, v)} :: At2(u, v) && Has(u) && Has(v) ==>
            Has(Add(u, v)) && Add(u, v) == Add(v, u))
      && (forall u, v, w {:trigger At3(u, v, w)} :: At3(u, v, w) && Has(u) && Has(v) && Has(w) ==>
            Add(Add(u, v), w) == Add(u, Add(v, w)))
      && (forall v {:trigger At1(v)} :: At1(v) && Has(v) ==> Add(v, zero) == v)
    }

    /** The scalar action, which also supplies negation as `(-1)·v`. */
    ghost predicate IsScaled() {
      && (forall a: F, v: V {:trigger At2(a, v)} :: At2(a, v) && Has(v) ==> Has(Scale(a, v)))
      && (forall a: F, b: F, v: V {:trigger At3(a, b, v)} :: At3(a, b, v) && Has(v) ==>
            && Scale(f.Mul(a, b), v) == Scale(a, Scale(b, v))
            && Scale(f.Add(a, b), v) == Add(Scale(a, v), Scale(b, v)))
      && (forall a: F, u: V, v: V {:trigger At3(a, u, v)} :: At3(a, u, v) && Has(u) && Has(v) ==>
            Scale(a, Add(u, v)) == Add(Scale(a, u), Scale(a, v)))
      && (forall v {:trigger At1(v)} :: At1(v) && Has(v) ==> Scale(f.one, v) == v && Scale(f.zero, v) == zero)
    }

    lemma Closed(a: F, u: V, v: V)
      requires IsSpace() && Has(u) && Has(v)
      ensures Has(Add(u, v)) && Has(Scale(a, v)) && Add(u, v) == Add(v, u)
    {
      assert At2(u, v) && At2(a, v);
    }

    lemma Assoc(u: V, v: V, w: V)
      requires IsSpace() && Has(u) && Has(v) && Has(w)
      ensures Add(Add(u, v), w) == Add(u, Add(v, w))
    {
      assert At3(u, v, w);
    }

    lemma ScaleLaws(a: F, b: F, v: V)
      requires IsSpace() && Has(v)
      ensures Scale(f.Mul(a, b), v) == Scale(a, Scale(b, v))
      ensures Scale(f.Add(a, b), v) == Add(Scale(a, v), Scale(b, v))
    {
      assert At3(a, b, v);
    }

    lemma ScaleDist(a: F, u: V, v: V)
      requires IsSpace() && Has(u) && Has(v)
      ensures Scale(a, Add(u, v)) == Add(Scale(a, u), Scale(a, v))
    {
      assert At3(a, u, v);
    }

    lemma Unit(v: V)
      requires IsSpace() && Has(v)
      ensures Has(zero) && Add(v, zero) == v == Add(zero, v)
      ensures Scale(f.one, v) == v && Scale(f.zero, v) == zero
    {
      assert At1(v) && At2(v, zero);
    }

    lemma ScaleZero(a: F)
      requires IsSpace()
      ensures Scale(a, zero) == zero
    {
      Unit(zero); ScaleLaws(a, f.zero, zero); f.MulZero(a);
    }

    /** `(a + b) + (c + d) == (a + c) + (b + d)`. */
    lemma Swap(a: V, b: V, c: V, d: V)
      requires IsSpace() && Has(a) && Has(b) && Has(c) && Has(d)
      ensures Add(Add(a, b), Add(c, d)) == Add(Add(a, c), Add(b, d))
    {
      Closed(f.one, c, d); Closed(f.one, b, d); Closed(f.one, b, c);
      Assoc(a, b, Add(c, d)); Assoc(b, c, d); Assoc(c, b, d); Assoc(a, c, Add(b, d));
    }

    lemma Cancel(u: V, v: V, w: V)
      requires IsSpace() && Has(u) && Has(v) && Has(w) && Add(u, w) == Add(v, w)
      ensures u == v
    {
      var m := Scale(f.Neg(f.one), w);
      Closed(f.Neg(f.one), w, w); Opposite(f.one, w); Unit(w); Closed(f.one, m, w);
      Assoc(u, w, m); Assoc(v, w, m); Unit(u); Unit(v);
    }

    lemma ScaleInjective(a: F, u: V, v: V)
      requires IsSpace() && Has(u) && Has(v) && a != f.zero && Scale(a, u) == Scale(a, v)
      ensures u == v
    {
      f.Unit(a); ScaleLaws(f.Inv(a), a, u); ScaleLaws(f.Inv(a), a, v); Unit(u); Unit(v);
    }

    /** `-a·u + a·u == 0`. */
    lemma Opposite(a: F, u: V)
      requires IsSpace() && Has(u)
      ensures Add(Scale(f.Neg(a), u), Scale(a, u)) == zero == Add(Scale(a, u), Scale(f.Neg(a), u))
    {
      f.Unit(a); f.Comm(a, f.Neg(a)); ScaleLaws(a, f.Neg(a), u); ScaleLaws(f.Neg(a), a, u); Unit(u);
    }

    /** Moving `a·u` from one summand to the other: `(a·u + d) + (-a·u + q) == d + q`. */
    lemma Shift(a: F, u: V, d: V, q: V)
      requires IsSpace() && Has(u) && Has(d) && Has(q)
      ensures Has(Add(Scale(a, u), d)) && Has(Add(Scale(f.Neg(a), u), q))
      ensures Add(Add(Scale(a, u), d), Add(Scale(f.Neg(a), u), q)) == Add(d, q)
    {
      var p, m := Scale(a, u), Scale(f.Neg(a), u);
      Closed(a, u, u); Closed(f.Neg(a), u, u); Closed(a, p, d); Closed(a, m, q); Closed(a, d, q);
      Swap(p, d, m, q); Opposite(a, u); Unit(Add(d, q));
    }

    /** `-d + (d + r) == r`. */
    lemma Remove(d: V, r: V)
      requires IsSpace() && Has(d) && Has(r)
      ensures Add(Scale(f.Neg(f.one), d), Add(d, r)) == r
    {
      var m := Scale(f.Neg(f.one), d);
      Closed(f.Neg(f.one), d, d); Closed(f.one, d, r); Assoc(m, d, r); Opposite(f.one, d); Unit(d); Unit(r);
    }
  }

  // ---------- linear combinations ----------

  /** `cs[0]·vs[0] + … + cs[k-1]·vs[k-1]`: both `linear_combination` on vectors and
      `msm` on group points. */
  function Lin<F(!new), V(!new)>(s: Space<F, V>, cs: seq<F>, vs: seq<V>, k: nat): V
    requires k <= |cs| && k <= |vs|
  {
    if k == 0 then s.zero else s.Add(Lin(s, cs, vs, k - 1), s.Scale(cs[k - 1], vs[k - 1]))
  }

  ghost predicate AllIn<F(!new), V(!new)>(s: Space<F, V>, vs: seq<V>) {
    forall i {:trigger vs[i]} :: 0 <= i < |vs| ==> s.Has(vs[i])
  }

  lemma {:induction false} LinIn<F(!new), V(!new)>(s: Space<F, V>, cs: seq<F>, vs: seq<V>, k: nat)
    requires s.IsSpace() && k <= |cs| && k <= |vs| && AllIn(s, vs)
    ensures s.Has(Lin(s, cs, vs, k))
  {
    if k > 0 {
      LinIn(s, cs, vs, k - 1);
      s.Closed(cs[k - 1], vs[k - 1], vs[k - 1]);
      s.Closed(cs[k - 1], Lin(s, cs, vs, k - 1), s.Scale(cs[k - 1], vs[k - 1]));
    }
  }

  lemma {:induction false} LinPrefix<F(!new), V(!new)>(s: Space<F, V>, cs: seq<F>, ds: seq<F>, us: seq<V>, vs: seq<V>,
      k: nat)
    requires k <= |cs| && k <= |ds| && k <= |us| && k <= |vs|
    requires cs[..k] == ds[..k] && us[..k] == vs[..k]
    ensures Lin(s, cs, us, k) == Lin(s, ds, vs, k)
  {
    if k > 0 {
      assert cs[k - 1] == cs[..k][k - 1] == ds[k - 1] && us[k - 1] == us[..k][k - 1] == vs[k - 1];
      assert cs[..k - 1] == cs[..k][..k - 1] && ds[..k - 1] == ds[..k][..k - 1];
      assert us[..k - 1] == us[..k][..k - 1] && vs[..k - 1] == vs[..k][..k - 1];
      LinPrefix(s, cs, ds, us, vs, k - 1);
    }
  }

  /** `Σ (a·c_i + d_i)·v_i == a·Σ c_i·v_i + Σ d_i·v_i`. */
  lemma {:induction false} LinScaleAdd<F(!new), V(!new)>(s: Space<F, V>, a: F, cs: seq<F>, ds: seq<F>, es: seq<F>,
      vs: seq<V>, k: nat)
    requires s.IsSpace() && k <= |cs| && k <= |ds| && k <= |es| && k <= |vs| && AllIn(s, vs)
    requires forall i :: 0 <= i < k ==> es[i] == s.f.Add(s.f.Mul(a, cs[i]), ds[i])
    ensures Lin(s, es, vs, k) == s.Add(s.Scale(a, Lin(s, cs, vs, k)), Lin(s, ds, vs, k))
  {
    if k == 0 {
      s.ScaleZero(a); s.Unit(s.zero);
    } else {
      var j := k - 1;
      var c, d, v := Lin(s, cs, vs, j), Lin(s, ds, vs, j), vs[j];
      LinScaleAdd(s, a, cs, ds, es, vs, j);
      LinIn(s, cs, vs, j); LinIn(s, ds, vs, j);
      s.Closed(cs[j], v, v); s.Closed(ds[j], v, v);
      var cv, dv := s.Scale(cs[j], v), s.Scale(ds[j], v);
      s.ScaleLaws(s.f.Mul(a, cs[j]), ds[j], v);
      s.ScaleLaws(a, cs[j], v);
      s.ScaleDist(a, c, cv);
      s.Closed(a, c, c); s.Closed(a, cv, cv);
      s.Swap(s.Scale(a, c), d, s.Scale(a, cv), dv);
    }
  }

  /** Coefficients that vanish wherever the vectors do not contribute. */
  lemma {:induction false} LinAllZero<F(!new), V(!new)>(s: Space<F, V>, cs: seq<F>, vs: seq<V>, k: nat)
    requires s.IsSpace() && k <= |cs| && k <= |vs| && AllIn(s, vs)
    requires forall i :: 0 <= i < k ==> cs[i] == s.f.zero || vs[i] == s.zero
    ensures Lin(s, cs, vs, k) == s.zero
  {
    if k > 0 {
      LinAllZero(s, cs, vs, k - 1);
      s.Unit(vs[k - 1]); s.Unit(s.zero); s.ScaleZero(cs[k - 1]);
    }
  }

  /** A combination with concatenated coefficients is the sum of two. */
  lemma {:induction false} LinSplit<F(!new), V(!new)>(s: Space<F, V>, cs: seq<F>, ds: seq<F>, vs: seq<V>, k: nat)
    requires s.IsSpace() && AllIn(s, vs) && |vs| == |cs| + |ds| && k <= |ds|
    ensures Lin(s, cs + ds, vs, |cs| + k) == s.Add(Lin(s, cs, vs[..|cs|], |cs|), Lin(s, ds, vs[|cs|..], k))
  {
    var front, back := vs[..|cs|], vs[|cs|..];
    LinIn(s, cs, front, |cs|);
    if k == 0 {
      assert (cs + ds)[..|cs|] == cs[..|cs|] && vs[..|cs|] == front[..|cs|];
      LinPrefix(s, cs + ds, cs, vs, front, |cs|);
      s.Unit(Lin(s, cs, front, |cs|));
    } else {
      LinSplit(s, cs, ds, vs, k - 1);
      LinIn(s, ds, back, k - 1);
      s.Closed(ds[k - 1], back[k - 1], back[k - 1]);
      s.Assoc(Lin(s, cs, front, |cs|), Lin(s, ds, back, k - 1), s.Scale(ds[k - 1], back[k - 1]));
    }
  }

  /** Only position `i` contributes. */
  lemma {:induction false} LinOnly<F(!new), V(!new)>(s: Space<F, V>, cs: seq<F>, vs: seq<V>, k: nat, i: nat)
    requires s.IsSpace() && i < k && k <= |cs| && k <= |vs| && AllIn(s, vs)
    requires forall j :: 0 <= j < k && j != i ==> cs[j] == s.f.zero || vs[j] == s.zero
    ensures Lin(s, cs, vs, k) == s.Scale(cs[i], vs[i])
  {
    var t := s.Scale(cs[k - 1], vs[k - 1]);
    s.Closed(cs[k - 1], vs[k - 1], vs[k - 1]);
    if i == k - 1 {
      LinAllZero(s, cs, vs, k - 1);
      s.Unit(t);
    } else {
      LinOnly(s, cs, vs, k - 1, i);
      s.Closed(cs[i], vs[i], vs[i]);
      s.Unit(vs[k - 1]); s.ScaleZero(cs[k - 1]); s.Unit(s.Scale(cs[i], vs[i]));
    }
  }

  /** Scaling every vector scales the combination. */
  lemma {:induction false} LinScaled<F(!new), V(!new)>(s: Space<F, V>, a: F, cs: seq<F>, vs: seq<V>, us: seq<V>,
      k: nat)
    requires s.IsSpace() && k <= |cs| && k <= |vs| && k <= |us| && AllIn(s, vs)
    requires forall i :: 0 <= i < k ==> us[i] == s.Scale(a, vs[i])
    ensures Lin(s, cs, us, k) == s.Scale(a, Lin(s, cs, vs, k))
  {
    if k == 0 {
      s.ScaleZero(a);
    } else {
      var j := k - 1;
      LinScaled(s, a, cs, vs, us, j);
      LinIn(s, cs, vs, j);
      s.Closed(cs[j], vs[j], vs[j]);
      s.ScaleDist(a, Lin(s, cs, vs, j), s.Scale(cs[j], vs[j]));
      s.ScaleLaws(a, cs[j], vs[j]); s.ScaleLaws(cs[j], a, vs[j]); s.f.Comm(a, cs[j]);
    }
  }

  /** Families that differ at most at `j` have equal combinations only if they agree there. */
  lemma {:induction false} LinDiffersAt<F(!new), V(!new)>(s: Space<F, V>, cs: seq<F>, us: seq<V>, vs: seq<V>, k: nat,
      j: nat)
    requires s.IsSpace() && j < k && k <= |cs| && k <= |us| && k <= |vs| && AllIn(s, us) && AllIn(s, vs)
    requires cs[j] != s.f.zero && forall i :: 0 <= i < k && i != j ==> us[i] == vs[i]
    requires Lin(s, cs, us, k) == Lin(s, cs, vs, k)
    ensures us[j] == vs[j]
  {
    var i := k - 1;
    var p, q := Lin(s, cs, us, i), Lin(s, cs, vs, i);
    LinIn(s, cs, us, i); LinIn(s, cs, vs, i);
    s.Closed(cs[i], us[i], us[i]); s.Closed(cs[i], vs[i], vs[i]);
    var a, b := s.Scale(cs[i], us[i]), s.Scale(cs[i], vs[i]);
    if i == j {
      assert us[..i] == vs[..i];
      LinPrefix(s, cs, cs, us, vs, i);
      s.Closed(cs[i], p, a); s.Closed(cs[i], p, b);
      s.Cancel(a, b, p);
      s.ScaleInjective(cs[i], us[i], vs[i]);
    } else {
      s.Cancel(p, q, a);
      LinDiffersAt(s, cs, us, vs, i, j);
    }
  }

  // ---------- the space F^n ----------

  function VAdd<F(!new)>(f: Field<F>, u: seq<F>, v: seq<F>): seq<F> {
    if |u| == |v| then seq(|u|, i requires 0 <= i < |u| => f.Add(u[i], v[i])) else u
  }

  function VScale<F(!new)>(f: Field<F>, a: F, v: seq<F>): seq<F> {
    seq(|v|, i requires 0 <= i < |v| => f.Mul(a, v[i]))
  }

  function VZero<F(!new)>(f: Field<F>, n: nat): seq<F> {
    seq(n, i => f.zero)
  }

  function Basis<F(!new)>(f: Field<F>, n: nat, i: int): seq<F> {
    seq(n, j => if j == i then f.one else f.zero)
  }

  function Vec<F(!new)>(f: Field<F>, n: nat): Space<F, seq<F>> {
    Space(f, VZero(f, n), (u, v) => VAdd(f, u, v), (a, v) => VScale(f, a, v), v => |v| == n)
  }

  lemma VecOps<F(!new)>(f: Field<F>, n: nat, a: F, u: seq<F>, v: seq<F>)
    ensures Vec(f, n).Add(u, v) == VAdd(f, u, v) && Vec(f, n).Scale(a, v) == VScale(f, a, v)
    ensures Vec(f, n).Has(u) <==> |u| == n
    ensures Vec(f, n).zero == VZero(f, n) && Vec(f, n).f == f
  {
  }

  lemma VecIsSpace<F(!new)>(f: Field<F>, n: nat)
    requires f.IsField()
    ensures Vec(f, n).IsSpace()
  {
    VecIsGroup(f, n);
    VecIsScaled(f, n);
  }

  lemma VecIsGroup<F(!new)>(f: Field<F>, n: nat)
    requires f.IsField()
    ensures Vec(f, n).IsGroup()
  {
    var s := Vec(f, n);
    forall u: seq<F>, v: seq<F> | At2(u, v) && s.Has(u) && s.Has(v)
      ensures s.Has(s.Add(u, v)) && s.Add(u, v) == s.Add(v, u)
    {
      forall i | 0 <= i < n { f.Comm(u[i], v[i]); }
      assert VAdd(f, u, v) == VAdd(f, v, u);
    }
    forall u: seq<F>, v: seq<F>, w: seq<F> | At3(u, v, w) && s.Has(u) && s.Has(v) && s.Has(w)
      ensures s.Add(s.Add(u, v), w) == s.Add(u, s.Add(v, w))
    {
      forall i | 0 <= i < n { f.Assoc(u[i], v[i], w[i]); }
      assert VAdd(f, VAdd(f, u, v), w) == VAdd(f, u, VAdd(f, v, w));
    }
    forall v: seq<F> | At1(v) && s.Has(v) ensures s.Add(v, s.zero) == v {
      forall i | 0 <= i < n { f.Unit(v[i]); }
      assert VAdd(f, v, VZero(f, n)) == v;
    }
  }

  lemma VecIsScaled<F(!new)>(f: Field<F>, n: nat)
    requires f.IsField()
    ensures Vec(f, n).IsScaled()
  {
    var s := Vec(f, n);
    forall a: F, b: F, v: seq<F> | At3(a, b, v) && s.Has(v)
      ensures s.Scale(f.Mul(a, b), v) == s.Scale(a, s.Scale(b, v))
      ensures s.Scale(f.Add(a, b), v) == s.Add(s.Scale(a, v), s.Scale(b, v))
    {
      forall i | 0 <= i < n { f.Assoc(a, b, v[i]); }
      forall i | 0 <= i < n { f.Dist(v[i], a, b); }
      assert VScale(f, f.Mul(a, b), v) == VScale(f, a, VScale(f, b, v));
      assert VScale(f, f.Add(a, b), v) == VAdd(f, VScale(f, a, v), VScale(f, b, v));
    }
    forall a: F, u: seq<F>, v: seq<F> | At3(a, u, v) && s.Has(u) && s.Has(v)
      ensures s.Scale(a, s.Add(u, v)) == s.Add(s.Scale(a, u), s.Scale(a, v))
    {
      forall i | 0 <= i < n { f.Dist(a, u[i], v[i]); }
      assert VScale(f, a, VAdd(f, u, v)) == VAdd(f, VScale(f, a, u), VScale(f, a, v));
    }
    forall v: seq<F> | At1(v) && s.Has(v) ensures s.Scale(f.one, v) == v && s.Scale(f.zero, v) == s.zero {
      forall i | 0 <= i < n { f.Unit(v[i]); }
      forall i | 0 <= i < n { f.MulZero(v[i]); }
      assert VScale(f, f.one, v) == v && VScale(f, f.zero, v) == VZero(f, n);
    }
  }

  /** Coordinate `c` of a combination is zero when no term has anything there. */
  lemma {:induction false} CoordZero<F(!new)>(f: Field<F>, n: nat, cs: seq<F>, vs: seq<seq<F>>, k: nat, c: nat)
    requires f.IsField() && c < n && k <= |cs| && k <= |vs| && AllIn(Vec(f, n), vs)
    requires forall i :: 0 <= i < k ==> cs[i] == f.zero || vs[i][c] == f.zero
    ensures |Lin(Vec(f, n), cs, vs, k)| == n && Lin(Vec(f, n), cs, vs, k)[c] == f.zero
  {
    if k > 0 {
      CoordZero(f, n, cs, vs, k - 1, c);
      f.MulZero(cs[k - 1]); f.MulZero(vs[k - 1][c]); f.Unit(f.zero);
      VecOps(f, n, cs[k - 1], Lin(Vec(f, n), cs, vs, k - 1), vs[k - 1]);
    }
  }

  /** Coordinate `c` of a combination from that of all but its last term. */
  lemma CoordStep<F(!new)>(f: Field<F>, n: nat, cs: seq<F>, vs: seq<seq<F>>, k: nat, c: nat)
    requires c < n && 0 < k <= |cs| && k <= |vs| && |vs[k - 1]| == n && |Lin(Vec(f, n), cs, vs, k - 1)| == n
    ensures var before, after := Lin(Vec(f, n), cs, vs, k - 1), Lin(Vec(f, n), cs, vs, k);
      |after| == n && after[c] == f.Add(before[c], f.Mul(cs[k - 1], vs[k - 1][c]))
  {
    VecOps(f, n, cs[k - 1], Lin(Vec(f, n), cs, vs, k - 1), vs[k - 1]);
    VecOps(f, n, cs[k - 1], Lin(Vec(f, n), cs, vs, k - 1), VScale(f, cs[k - 1], vs[k - 1]));
  }

  /** Coordinate `c` of a combination when only term `i` has anything there. */
  lemma {:induction false} CoordOnly<F(!new)>(f: Field<F>, n: nat, cs: seq<F>, vs: seq<seq<F>>, k: nat, c: nat,
      i: nat)
    requires f.IsField() && c < n && i < k && k <= |cs| && k <= |vs| && AllIn(Vec(f, n), vs)
    requires forall j :: 0 <= j < k && j != i ==> cs[j] == f.zero || vs[j][c] == f.zero
    ensures |Lin(Vec(f, n), cs, vs, k)| == n && Lin(Vec(f, n), cs, vs, k)[c] == f.Mul(cs[i], vs[i][c])
  {
    if i == k - 1 {
      CoordZero(f, n, cs, vs, k - 1, c);
    } else {
      CoordOnly(f, n, cs, vs, k - 1, c, i);
      f.MulZero(cs[k - 1]); f.MulZero(vs[k - 1][c]); f.Unit(f.Mul(cs[i], vs[i][c]));
    }
    CoordStep(f, n, cs, vs, k, c);
    f.Unit(f.Mul(cs[k - 1], vs[k - 1][c]));
  }

  /** Combining combinations: `Σ α_i·(Σ_j rows[i][j]·v_j) == Σ_j (Σ α_i·rows[i])_j·v_j`.
      The identity behind re-encoding, decoding and every proof mix. */
  lemma {:induction false} LinOfLin<F(!new), V(!new)>(s: Space<F, V>, alphas: seq<F>, rows: seq<seq<F>>, vs: seq<V>,
      images: seq<V>, k: nat)
    requires s.IsSpace() && AllIn(s, vs) && k <= |alphas| && k <= |rows| && k <= |images|
    requires forall i :: 0 <= i < |rows| ==> |rows[i]| == |vs|
    requires forall i :: 0 <= i < k ==> images[i] == Lin(s, rows[i], vs, |vs|)
    ensures |Lin(Vec(s.f, |vs|), alphas, rows, k)| == |vs|
    ensures Lin(s, alphas, images, k) == Lin(s, Lin(Vec(s.f, |vs|), alphas, rows, k), vs, |vs|)
  {
    var n := |vs|;
    var vec := Vec(s.f, n);
    VecIsSpace(s.f, n);
    LinIn(vec, alphas, rows, k);
    if k == 0 {
      LinAllZero(s, vec.zero, vs, n);
    } else {
      LinOfLin(s, alphas, rows, vs, images, k - 1);
      var d := Lin(vec, alphas, rows, k - 1);
      VecOps(s.f, n, alphas[k - 1], d, rows[k - 1]);
      VecOps(s.f, n, alphas[k - 1], d, VScale(s.f, alphas[k - 1], rows[k - 1]));
      LinOfSum(s, alphas[k - 1], rows[k - 1], d, vs);
    }
  }

  /** Combining with the coefficients `d + a·row`. */
  lemma LinOfSum<F(!new), V(!new)>(s: Space<F, V>, a: F, row: seq<F>, d: seq<F>, vs: seq<V>)
    requires s.IsSpace() && AllIn(s, vs) && |row| == |d| == |vs|
    ensures Lin(s, VAdd(s.f, d, VScale(s.f, a, row)), vs, |vs|) == s.Add(Lin(s, d, vs, |vs|),
      s.Scale(a, Lin(s, row, vs, |vs|)))
  {
    var n, e, image := |vs|, VAdd(s.f, d, VScale(s.f, a, row)), Lin(s, row, vs, |vs|);
    forall i | 0 <= i < n ensures e[i] == s.f.Add(s.f.Mul(a, row[i]), d[i]) {
      s.f.Comm(d[i], s.f.Mul(a, row[i]));
    }
    LinScaleAdd(s, a, row, d, e, vs, n);
    LinIn(s, row, vs, n); LinIn(s, d, vs, n);
    s.Closed(a, image, image);
    s.Closed(a, Lin(s, d, vs, n), s.Scale(a, image));
  }

  /** Coefficients read off the identity matrix. */
  lemma LinBasis<F(!new), V(!new)>(s: Space<F, V>, vs: seq<V>, i: nat)
    requires s.IsSpace() && AllIn(s, vs) && i < |vs|
    ensures Lin(s, Basis(s.f, |vs|, i), vs, |vs|) == vs[i]
  {
    LinOnly(s, Basis(s.f, |vs|, i), vs, |vs|, i);
    s.Unit(vs[i]);
  }

  /** Combining the identity's rows gives the coefficients back. */
  lemma LinOfBasis<F(!new)>(f: Field<F>, n: nat, cs: seq<F>, es: seq<seq<F>>)
    requires f.IsField() && |cs| == n == |es|
    requires forall i :: 0 <= i < n ==> es[i] == Basis(f, n, i)
    ensures Lin(Vec(f, n), cs, es, n) == cs
  {
    var r := Lin(Vec(f, n), cs, es, n);
    VecIsSpace(f, n);
    LinIn(Vec(f, n), cs, es, n);
    forall c | 0 <= c < n ensures r[c] == cs[c] {
      CoordOnly(f, n, cs, es, n, c, c);
      f.Unit(cs[c]);
    }
  }
}
