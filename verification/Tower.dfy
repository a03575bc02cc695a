/** Finite fields of `2^(2^k)` elements, as quadratic extensions of one another. They model
    all the laws assumed of scalars at once, packing of bytes included. */
module Tower {
  import opened Algebra
  import opened Wire

  // ---------- pairs as a plane ----------

  function Plane<F(!new)>(f: Field<F>): Space<F, (F, F)> {
    Space(f, (f.zero, f.zero), (u: (F, F), v: (F, F)) => (f.Add(u.0, v.0), f.Add(u.1, v.1)),
          (a: F, v: (F, F)) => (f.Mul(a, v.0), f.Mul(a, v.1)), _ => true)
  }

  lemma PlaneIsSpace<F(!new)>(f: Field<F>)
    requires f.IsField()
    ensures Plane(f).IsSpace()
  {
    var s := Plane(f);
    forall u: (F, F), v: (F, F) | At2(u, v) ensures s.Add(u, v) == s.Add(v, u) {
      f.Comm(u.0, v.0); f.Comm(u.1, v.1);
    }
    forall u: (F, F), v: (F, F), w: (F, F) | At3(u, v, w) ensures s.Add(s.Add(u, v), w) == s.Add(u, s.Add(v, w)) {
      f.Assoc(u.0, v.0, w.0); f.Assoc(u.1, v.1, w.1);
    }
    forall a: F, b: F, v: (F, F) | At3(a, b, v)
      ensures s.Scale(f.Mul(a, b), v) == s.Scale(a, s.Scale(b, v))
      ensures s.Scale(f.Add(a, b), v) == s.Add(s.Scale(a, v), s.Scale(b, v))
    {
      f.Assoc(a, b, v.0); f.Assoc(a, b, v.1); f.Dist(v.0, a, b); f.Dist(v.1, a, b);
    }
    forall a: F, u: (F, F), v: (F, F) | At3(a, u, v)
      ensures s.Scale(a, s.Add(u, v)) == s.Add(s.Scale(a, u), s.Scale(a, v))
    {
      f.Dist(a, u.0, v.0); f.Dist(a, u.1, v.1);
    }
    forall v: (F, F) | At1(v) ensures s.Add(v, s.zero) == v && s.Scale(f.one, v) == v
      && s.Scale(f.zero, v) == s.zero {
      f.Unit(v.0); f.Unit(v.1); f.MulZero(v.0); f.MulZero(v.1);
    }
  }

  // ---------- one quadratic extension ----------

  /** A field of characteristic two in which `y² + y = c` has no solution. */
  ghost predicate Extends<F(!new)>(f: Field<F>, c: F) {
    && f.IsField()
    && (forall a {:trigger At1(a)} :: At1(a) ==> f.Add(a, a) == f.zero)
    && (forall y {:trigger At1(y)} :: At1(y) ==> f.Add(f.Mul(y, y), y) != c)
  }

  /** Multiplication by the root `x` of `x² + x = c`. */
  function TimesX<F(!new)>(f: Field<F>, c: F, v: (F, F)): (F, F) {
    (f.Mul(c, v.1), f.Add(v.0, v.1))
  }

  function Times<F(!new)>(f: Field<F>, c: F, u: (F, F), v: (F, F)): (F, F) {
    Plane(f).Add(Plane(f).Scale(u.0, v), Plane(f).Scale(u.1, TimesX(f, c, v)))
  }

  /** `u·(u + u₁)`, which lies in the smaller field. */
  function Norm<F(!new)>(f: Field<F>, c: F, u: (F, F)): F {
    f.Add(f.Mul(u.0, f.Add(u.0, u.1)), f.Mul(u.1, f.Mul(c, u.1)))
  }

  /** Pairs `u₀ + u₁·x` with `x² + x = c`. */
  function Ext<F(!new)>(f: Field<F>, c: F): Field<(F, F)> {
    Field((f.zero, f.zero), (f.one, f.zero), (u: (F, F), v: (F, F)) => Plane(f).Add(u, v), (u: (F, F)) => u,
          (u: (F, F), v: (F, F)) => Times(f, c, u, v),
          (u: (F, F)) => Plane(f).Scale(f.Inv(Norm(f, c, u)), (f.Add(u.0, u.1), u.1)))
  }

  lemma XLinear<F(!new)>(f: Field<F>, c: F, a: F, u: (F, F), v: (F, F))
    requires f.IsField()
    ensures TimesX(f, c, Plane(f).Add(u, v)) == Plane(f).Add(TimesX(f, c, u), TimesX(f, c, v))
    ensures TimesX(f, c, Plane(f).Scale(a, v)) == Plane(f).Scale(a, TimesX(f, c, v))
  {
    f.Dist(c, u.1, v.1);
    Four(f, u.0, v.0, u.1, v.1);
    f.Assoc(c, a, v.1); f.Comm(c, a); f.Assoc(a, c, v.1); f.Dist(a, v.0, v.1);
  }

  /** `(a + b) + (c + d) == (a + c) + (b + d)`. */
  lemma Four<F(!new)>(f: Field<F>, a: F, b: F, c: F, d: F)
    requires f.IsField()
    ensures f.Add(f.Add(a, b), f.Add(c, d)) == f.Add(f.Add(a, c), f.Add(b, d))
  {
    f.Assoc(a, b, f.Add(c, d)); f.Assoc(b, c, d); f.Comm(b, c); f.Assoc(c, b, d); f.Assoc(a, c, f.Add(b, d));
  }

  lemma XSquared<F(!new)>(f: Field<F>, c: F, v: (F, F))
    requires f.IsField()
    ensures TimesX(f, c, TimesX(f, c, v)) == Plane(f).Add(TimesX(f, c, v), Plane(f).Scale(c, v))
  {
    f.Dist(c, v.0, v.1); f.Comm(f.Mul(c, v.0), f.Mul(c, v.1)); f.Comm(f.Mul(c, v.1), f.Add(v.0, v.1));
  }

  lemma RightLinear<F(!new)>(f: Field<F>, c: F, u: (F, F), v: (F, F), w: (F, F))
    requires f.IsField()
    ensures Times(f, c, u, Plane(f).Add(v, w)) == Plane(f).Add(Times(f, c, u, v), Times(f, c, u, w))
    ensures Times(f, c, u, TimesX(f, c, v)) == TimesX(f, c, Times(f, c, u, v))
  {
    var s := Plane(f);
    PlaneIsSpace(f);
    XLinear(f, c, f.one, v, w);
    s.ScaleDist(u.0, v, w); s.ScaleDist(u.1, TimesX(f, c, v), TimesX(f, c, w));
    s.Swap(s.Scale(u.0, v), s.Scale(u.0, w), s.Scale(u.1, TimesX(f, c, v)), s.Scale(u.1, TimesX(f, c, w)));
    XLinear(f, c, u.0, s.Scale(u.0, v), v);
    XLinear(f, c, u.1, s.Scale(u.0, v), TimesX(f, c, v));
    XLinear(f, c, f.one, s.Scale(u.0, v), s.Scale(u.1, TimesX(f, c, v)));
  }

  lemma LeftLinear<F(!new)>(f: Field<F>, c: F, a: F, u: (F, F), v: (F, F), w: (F, F))
    requires f.IsField()
    ensures Times(f, c, Plane(f).Add(u, v), w) == Plane(f).Add(Times(f, c, u, w), Times(f, c, v, w))
    ensures Times(f, c, Plane(f).Scale(a, u), w) == Plane(f).Scale(a, Times(f, c, u, w))
  {
    var s, xw := Plane(f), TimesX(f, c, w);
    PlaneIsSpace(f);
    s.ScaleLaws(u.0, v.0, w); s.ScaleLaws(u.1, v.1, xw);
    s.Swap(s.Scale(u.0, w), s.Scale(v.0, w), s.Scale(u.1, xw), s.Scale(v.1, xw));
    s.ScaleLaws(a, u.0, w); s.ScaleLaws(a, u.1, xw); s.ScaleDist(a, s.Scale(u.0, w), s.Scale(u.1, xw));
  }

  /** `(x·u)·w == x·(u·w)`. */
  lemma XMoves<F(!new)>(f: Field<F>, c: F, u: (F, F), w: (F, F))
    requires f.IsField()
    ensures Times(f, c, TimesX(f, c, u), w) == TimesX(f, c, Times(f, c, u, w))
  {
    var s, xw := Plane(f), TimesX(f, c, w);
    PlaneIsSpace(f);
    var p, q, r := s.Scale(f.Mul(c, u.1), w), s.Scale(u.0, xw), s.Scale(u.1, xw);
    s.ScaleLaws(u.0, u.1, xw);
    assert Times(f, c, TimesX(f, c, u), w) == s.Add(p, s.Add(q, r));
    RightLinear(f, c, u, w, w);
    XSquared(f, c, w);
    s.ScaleDist(u.1, xw, s.Scale(c, w)); s.ScaleLaws(u.1, c, w); f.Comm(u.1, c);
    assert TimesX(f, c, Times(f, c, u, w)) == s.Add(q, s.Add(r, p));
    s.Assoc(q, r, p); s.Closed(f.one, s.Add(q, r), p);
  }

  lemma TimesAssoc<F(!new)>(f: Field<F>, c: F, u: (F, F), v: (F, F), w: (F, F))
    requires f.IsField()
    ensures Times(f, c, Times(f, c, u, v), w) == Times(f, c, u, Times(f, c, v, w))
  {
    var s := Plane(f);
    LeftLinear(f, c, u.0, v, s.Scale(u.1, TimesX(f, c, v)), w);
    LeftLinear(f, c, f.one, s.Scale(u.0, v), s.Scale(u.1, TimesX(f, c, v)), w);
    LeftLinear(f, c, u.1, TimesX(f, c, v), v, w);
    XMoves(f, c, v, w);
  }

  lemma TimesComm<F(!new)>(f: Field<F>, c: F, u: (F, F), v: (F, F))
    requires f.IsField()
    ensures Times(f, c, u, v) == Times(f, c, v, u)
  {
    f.Comm(u.0, v.0); f.Comm(u.0, v.1); f.Comm(u.1, v.0); f.Comm(u.1, v.1);
    f.Assoc(u.1, c, v.1); f.Comm(u.1, c); f.Assoc(c, u.1, v.1); f.Assoc(c, v.1, u.1); f.Comm(v.1, c);
    f.Assoc(v.1, c, u.1);
    f.Dist(u.1, v.0, v.1); f.Dist(v.1, u.0, u.1);
    var a, b, d := f.Mul(u.0, v.1), f.Mul(u.1, v.0), f.Mul(u.1, v.1);
    f.Dist(v.1, u.0, u.1);
    f.Assoc(a, b, d); f.Comm(a, b); f.Assoc(b, a, d);
  }

  lemma TimesOne<F(!new)>(f: Field<F>, c: F, u: (F, F))
    requires f.IsField()
    ensures Times(f, c, u, (f.one, f.zero)) == u
  {
    f.Unit(u.0); f.Unit(u.1); f.MulZero(c); f.MulZero(u.0); f.MulZero(u.1); f.Unit(f.one); f.Unit(f.zero);
  }

  /** A number that is its own square minus the constant would solve the equation. */
  lemma NormNonZero<F(!new)>(f: Field<F>, c: F, u: (F, F))
    requires Extends(f, c) && u != (f.zero, f.zero)
    ensures Norm(f, c, u) != f.zero
  {
    if u.1 == f.zero {
      f.Unit(u.0); f.MulZero(c); f.MulZero(f.Mul(c, u.1)); f.Unit(f.Mul(u.0, u.0));
      if f.Mul(u.0, u.0) == f.zero { NoDivisors(f, u.0, u.0); }
    } else {
      var b := u.1;
      var t := f.Mul(u.0, f.Inv(b));
      Scaled(f, c, u.0, b, t);
      if Norm(f, c, u) == f.zero {
        f.Unit(b);
        if f.Mul(b, b) == f.zero { NoDivisors(f, b, b); }
        NoDivisors(f, f.Mul(b, b), f.Add(f.Add(f.Mul(t, t), t), c));
        assert At1(c) && At1(t) && f.Add(c, c) == f.zero;
        f.Cancel(f.Add(f.Mul(t, t), t), c, c);
      }
    }
  }

  lemma NoDivisors<F(!new)>(f: Field<F>, a: F, b: F)
    requires f.IsField() && f.Mul(a, b) == f.zero && a != f.zero
    ensures b == f.zero
  {
    f.Assoc(f.Inv(a), a, b); f.Unit(a); f.Unit(b); f.MulZero(f.Inv(a));
  }

  /** With `a = t·b` the norm is `b²·(t² + t + c)`. */
  lemma Scaled<F(!new)>(f: Field<F>, c: F, a: F, b: F, t: F)
    requires f.IsField() && b != f.zero && t == f.Mul(a, f.Inv(b))
    ensures Norm(f, c, (a, b)) == f.Mul(f.Mul(b, b), f.Add(f.Add(f.Mul(t, t), t), c))
  {
    var bb := f.Mul(b, b);
    f.Unit(b); f.Unit(a);
    f.Assoc(a, f.Inv(b), b);
    assert a == f.Mul(t, b);
    f.Dist(a, a, b);
    f.Assoc(t, b, f.Mul(t, b)); f.Assoc(b, t, b); f.Comm(b, t); f.Assoc(t, b, b);
    f.Assoc(t, t, bb);
    assert f.Mul(a, a) == f.Mul(f.Mul(t, t), bb);
    assert f.Mul(a, b) == f.Mul(t, bb);
    f.Assoc(b, c, b); f.Comm(b, c); f.Assoc(c, b, b);
    assert f.Mul(b, f.Mul(c, b)) == f.Mul(c, bb);
    f.Dist(bb, f.Mul(t, t), t); f.Dist(bb, f.Add(f.Mul(t, t), t), c);
    f.Comm(bb, f.Add(f.Add(f.Mul(t, t), t), c));
  }

  lemma TimesInverse<F(!new)>(f: Field<F>, c: F, u: (F, F))
    requires Extends(f, c) && u != (f.zero, f.zero)
    ensures Times(f, c, u, Ext(f, c).Inv(u)) == (f.one, f.zero)
  {
    var n, conj := Norm(f, c, u), (f.Add(u.0, u.1), u.1);
    NormNonZero(f, c, u);
    f.Assoc(u.0, u.1, u.1); assert At1(u.1); f.Unit(u.0);
    f.Comm(u.0, u.1); assert At1(f.Mul(u.0, u.1));
    assert Times(f, c, u, conj) == (n, f.zero);
    TimesComm(f, c, u, Plane(f).Scale(f.Inv(n), conj));
    LeftLinear(f, c, f.Inv(n), conj, conj, u);
    TimesComm(f, c, conj, u);
    f.Unit(n); f.MulZero(f.Inv(n));
  }

  lemma ExtOne<F(!new)>(f: Field<F>, c: F, u: (F, F))
    requires Extends(f, c)
    ensures var e := Ext(f, c);
      && e.Add(u, e.zero) == u && e.Add(u, e.Neg(u)) == e.zero && e.Mul(u, e.one) == u
      && (u != e.zero ==> e.Mul(u, e.Inv(u)) == e.one)
  {
    f.Unit(u.0); f.Unit(u.1);
    assert At1(u.0) && At1(u.1);
    TimesOne(f, c, u);
    if u != (f.zero, f.zero) { TimesInverse(f, c, u); }
  }

  lemma ExtTwo<F(!new)>(f: Field<F>, c: F, u: (F, F), v: (F, F))
    requires Extends(f, c)
    ensures var e := Ext(f, c); e.Add(u, v) == e.Add(v, u) && e.Mul(u, v) == e.Mul(v, u)
  {
    f.Comm(u.0, v.0); f.Comm(u.1, v.1);
    TimesComm(f, c, u, v);
  }

  lemma ExtThree<F(!new)>(f: Field<F>, c: F, u: (F, F), v: (F, F), w: (F, F))
    requires Extends(f, c)
    ensures var e := Ext(f, c);
      && e.Add(e.Add(u, v), w) == e.Add(u, e.Add(v, w))
      && e.Mul(e.Mul(u, v), w) == e.Mul(u, e.Mul(v, w))
      && e.Mul(u, e.Add(v, w)) == e.Add(e.Mul(u, v), e.Mul(u, w))
  {
    f.Assoc(u.0, v.0, w.0); f.Assoc(u.1, v.1, w.1);
    TimesAssoc(f, c, u, v, w);
    RightLinear(f, c, u, v, w);
  }

  lemma ExtIsField<F(!new)>(f: Field<F>, c: F)
    requires Extends(f, c)
    ensures Ext(f, c).IsField()
  {
    var e := Ext(f, c);
    forall u: (F, F), v: (F, F) | At2(u, v) ensures e.Add(u, v) == e.Add(v, u) && e.Mul(u, v) == e.Mul(v, u) {
      ExtTwo(f, c, u, v);
    }
    forall u: (F, F), v: (F, F), w: (F, F) | At3(u, v, w)
      ensures e.Add(e.Add(u, v), w) == e.Add(u, e.Add(v, w)) && e.Mul(e.Mul(u, v), w) == e.Mul(u, e.Mul(v, w))
      ensures e.Mul(u, e.Add(v, w)) == e.Add(e.Mul(u, v), e.Mul(u, w))
    {
      ExtThree(f, c, u, v, w);
    }
    forall u: (F, F) | At1(u)
      ensures e.Add(u, e.zero) == u && e.Add(u, e.Neg(u)) == e.zero && e.Mul(u, e.one) == u
      ensures u != e.zero ==> e.Mul(u, e.Inv(u)) == e.one
    {
      ExtOne(f, c, u);
    }
  }

  /** `y² + y` never is `c·x`: its `x` part would solve the equation one field below. */
  lemma NoRoot<F(!new)>(f: Field<F>, c: F, y: (F, F))
    requires Extends(f, c)
    ensures var e := Ext(f, c); e.Add(e.Mul(y, y), y) != (f.zero, c)
  {
    var e, p, q := Ext(f, c), f.Mul(y.0, y.1), f.Mul(y.1, y.1);
    f.Dist(y.1, y.0, y.1); f.Comm(y.0, y.1);
    f.Assoc(p, p, q); assert At1(p); f.Unit(q);
    assert e.Mul(y, y).1 == q;
    assert At1(y.1);
  }

  lemma Doubled<F(!new)>(f: Field<F>, c: F, u: (F, F))
    requires Extends(f, c)
    ensures Ext(f, c).Add(u, u) == (f.zero, f.zero)
  {
    assert At1(u.0) && At1(u.1);
  }

  lemma ExtendsFrom<E(!new)>(e: Field<E>, d: E)
    requires e.IsField()
    requires forall u {:trigger At1(u)} :: At1(u) ==> e.Add(u, u) == e.zero
    requires forall y {:trigger At1(y)} :: At1(y) ==> e.Add(e.Mul(y, y), y) != d
    ensures Extends(e, d)
  {
  }

  /** The extension can be extended again, by the root of `y² + y = c·x`. */
  lemma ExtExtends<F(!new)>(f: Field<F>, c: F)
    requires Extends(f, c)
    ensures Extends(Ext(f, c), (f.zero, c))
  {
    var e := Ext(f, c);
    ExtIsField(f, c);
    forall u: (F, F) | At1(u) ensures e.Add(u, u) == e.zero { Doubled(f, c, u); }
    forall y: (F, F) | At1(y) ensures e.Add(e.Mul(y, y), y) != (f.zero, c) { NoRoot(f, c, y); }
    ExtendsFrom(e, (f.zero, c));
  }

  lemma BitsExtend()
    ensures Extends(GF2(), true)
  {
  }

  // ---------- the tower, with a byte encoding ----------

  /** A field that can be extended, each element written as `size` bytes and every such
      string of bytes an element. */
  datatype Rung<!F(!new)> = Rung(f: Field<F>, c: F, size: nat, write: F -> seq<byte>, read: seq<byte> -> F)
  {
    ghost predicate Ok() { Extends(f, c) && Encodes() }

    ghost predicate Encodes() {
      && size > 0 && write(f.zero) == Zeros(size)
      && (forall x {:trigger write(x)} :: |write(x)| == size && read(write(x)) == x)
      && (forall bs {:trigger read(bs)} :: |bs| == size ==> write(read(bs)) == bs)
    }
  }

  function WritePair<F(!new)>(r: Rung<F>, u: (F, F)): seq<byte> {
    r.write(u.0) + r.write(u.1)
  }

  function ReadPair<F(!new)>(r: Rung<F>, bs: seq<byte>): (F, F) {
    if |bs| == 2 * r.size then (r.read(bs[..r.size]), r.read(bs[r.size..])) else (r.f.zero, r.f.zero)
  }

  function Up<F(!new)>(r: Rung<F>): Rung<(F, F)> {
    Rung(Ext(r.f, r.c), (r.f.zero, r.c), 2 * r.size, (u: (F, F)) => WritePair(r, u),
      (bs: seq<byte>) => ReadPair(r, bs))
  }

  lemma PairWritten<F(!new)>(r: Rung<F>, u: (F, F))
    requires r.Encodes()
    ensures |WritePair(r, u)| == 2 * r.size && ReadPair(r, WritePair(r, u)) == u
  {
    var bs := WritePair(r, u);
    assert bs[..r.size] == r.write(u.0) && bs[r.size..] == r.write(u.1);
  }

  lemma PairRead<F(!new)>(r: Rung<F>, bs: seq<byte>)
    requires r.Encodes() && |bs| == 2 * r.size
    ensures WritePair(r, ReadPair(r, bs)) == bs
  {
    assert r.write(r.read(bs[..r.size])) == bs[..r.size] && r.write(r.read(bs[r.size..])) == bs[r.size..];
  }

  lemma UpEncodes<F(!new)>(r: Rung<F>)
    requires r.Encodes()
    ensures Up(r).Encodes()
  {
    assert WritePair(r, (r.f.zero, r.f.zero)) == Zeros(2 * r.size);
    forall u: (F, F) ensures |WritePair(r, u)| == 2 * r.size && ReadPair(r, WritePair(r, u)) == u {
      PairWritten(r, u);
    }
    forall bs: seq<byte> | |bs| == 2 * r.size ensures WritePair(r, ReadPair(r, bs)) == bs {
      PairRead(r, bs);
    }
  }

  lemma UpOk<F(!new)>(r: Rung<F>)
    requires r.Ok()
    ensures Up(r).Ok()
  {
    ExtExtends(r.f, r.c);
    UpEncodes(r);
  }

  type Pair = (bool, bool)
  type Nibble = (Pair, Pair)
  type Octet = (Nibble, Nibble)

  function Bit(b: bool): nat { if b then 1 else 0 }

  function PairValue(p: Pair): (v: nat)
    ensures v < 4
  {
    2 * Bit(p.0) + Bit(p.1)
  }

  function NibbleValue(q: Nibble): (v: nat)
    ensures v < 16
  {
    4 * PairValue(q.0) + PairValue(q.1)
  }

  function PairOf(v: nat): (p: Pair)
    ensures v < 4 ==> PairValue(p) == v
  {
    (v / 2 % 2 == 1, v % 2 == 1)
  }

  function NibbleOf(v: nat): (q: Nibble)
    ensures v < 16 ==> NibbleValue(q) == v
  {
    (PairOf(v / 4), PairOf(v % 4))
  }

  lemma PairRoundTrip(p: Pair)
    ensures PairOf(PairValue(p)) == p
  {
  }

  lemma NibbleRoundTrip(q: Nibble)
    ensures NibbleOf(NibbleValue(q)) == q
  {
    PairRoundTrip(q.0); PairRoundTrip(q.1);
    assert NibbleValue(q) / 4 == PairValue(q.0) && NibbleValue(q) % 4 == PairValue(q.1);
  }

  function OctetValue(x: Octet): (v: nat)
    ensures v < 256
  {
    16 * NibbleValue(x.0) + NibbleValue(x.1)
  }

  function OctetOf(v: nat): (x: Octet)
    ensures v < 256 ==> OctetValue(x) == v
  {
    (NibbleOf(v / 16), NibbleOf(v % 16))
  }

  lemma OctetRoundTrip(x: Octet)
    ensures OctetOf(OctetValue(x)) == x
  {
    NibbleRoundTrip(x.0); NibbleRoundTrip(x.1);
    assert OctetValue(x) / 16 == NibbleValue(x.0) && OctetValue(x) % 16 == NibbleValue(x.1);
  }

  function WriteOctet(x: Octet): seq<byte> { [OctetValue(x)] }

  function ReadOctet(bs: seq<byte>): Octet { OctetOf(if bs == [] then 0 else bs[0]) }

  lemma Climb<F(!new)>(f: Field<F>, c: F) returns (g: Field<(F, F)>, d: (F, F))
    requires Extends(f, c)
    ensures Extends(g, d) && g.zero == (f.zero, f.zero)
  {
    g, d := Ext(f, c), (f.zero, c);
    ExtExtends(f, c);
  }

  function OctetRung(f: Field<Octet>, c: Octet): Rung<Octet> {
    Rung(f, c, 1, (x: Octet) => WriteOctet(x), (bs: seq<byte>) => ReadOctet(bs))
  }

  lemma OctetEncodes(f: Field<Octet>, c: Octet)
    requires WriteOctet(f.zero) == Zeros(1)
    ensures OctetRung(f, c).Encodes()
  {
    OctetsWritten();
    OctetsRead();
    EncodesFrom(OctetRung(f, c));
  }

  lemma OctetsWritten()
    ensures forall x: Octet {:trigger WriteOctet(x)} :: |WriteOctet(x)| == 1 && ReadOctet(WriteOctet(x)) == x
  {
    forall x: Octet ensures |WriteOctet(x)| == 1 && ReadOctet(WriteOctet(x)) == x { OctetRoundTrip(x); }
  }

  lemma OctetsRead()
    ensures forall bs: seq<byte> {:trigger ReadOctet(bs)} :: |bs| == 1 ==> WriteOctet(ReadOctet(bs)) == bs
  {
    forall bs: seq<byte> | |bs| == 1 ensures WriteOctet(ReadOctet(bs)) == bs { OctetRead(bs, bs[0]); }
  }

  lemma OctetRead(bs: seq<byte>, b: byte)
    requires bs == [b]
    ensures WriteOctet(ReadOctet(bs)) == bs
  {
    assert OctetValue(OctetOf(b)) == b;
  }

  lemma EncodesFrom<F(!new)>(r: Rung<F>)
    requires r.size > 0 && r.write(r.f.zero) == Zeros(r.size)
    requires forall x {:trigger r.write(x)} :: |r.write(x)| == r.size && r.read(r.write(x)) == x
    requires forall bs {:trigger r.read(bs)} :: |bs| == r.size ==> r.write(r.read(bs)) == bs
    ensures r.Encodes()
  {
  }

  /** The field of 256 elements, one byte each. */
  lemma Octets() returns (r: Rung<Octet>)
    ensures r.Ok() && r.size == 1
  {
    BitsExtend();
    var f1, c1 := Climb(GF2(), true);
    var f2, c2 := Climb(f1, c1);
    var f3, c3 := Climb(f2, c2);
    r := OctetRung(f3, c3);
    ZeroOctet(f3.zero);
    OctetEncodes(f3, c3);
  }

  lemma ZeroOctet(z: Octet)
    requires z.0 == z.1 && z.0.0 == z.0.1 && !z.0.0.0 && !z.0.0.1
    ensures WriteOctet(z) == Zeros(1)
  {
  }

  type Bytes2 = (Octet, Octet)
  type Bytes4 = (Bytes2, Bytes2)
  type Bytes8 = (Bytes4, Bytes4)
  type Bytes16 = (Bytes8, Bytes8)

  /** Scalars: `2^256` of them. */
  type Bytes32 = (Bytes16, Bytes16)

  lemma Scalars() returns (r: Rung<Bytes32>)
    ensures r.Ok() && r.size == 32
  {
    var r1 := Octets();
    UpOk(r1);
    var r2 := Up(r1);
    UpOk(r2);
    var r4 := Up(r2);
    UpOk(r4);
    var r8 := Up(r4);
    UpOk(r8);
    var r16 := Up(r8);
    UpOk(r16);
    r := Up(r16);
  }
}
