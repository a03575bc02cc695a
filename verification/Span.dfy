/** Spans and linear independence. */
module Span {
  import opened Algebra

  ghost predicate InSpan<F(!new), V(!new)>(s: Space<F, V>, vs: seq<V>, v: V) {
    exists cs: seq<F> :: |cs| == |vs| && Lin(s, cs, vs, |vs|) == v
  }

  ghost predicate Independent<F(!new), V(!new)>(s: Space<F, V>, vs: seq<V>) {
    forall cs: seq<F> :: |cs| == |vs| && Lin(s, cs, vs, |vs|) == s.zero ==> cs == VZero(s.f, |vs|)
  }

  /** Every vector of `us` is a combination of `vs`. */
  ghost predicate Within<F(!new), V(!new)>(s: Space<F, V>, us: seq<V>, vs: seq<V>) {
    forall i :: 0 <= i < |us| ==> InSpan(s, vs, us[i])
  }

  ghost predicate SameSpan<F(!new), V(!new)>(s: Space<F, V>, us: seq<V>, vs: seq<V>) {
    Within(s, us, vs) && Within(s, vs, us)
  }

  lemma SpanZero<F(!new), V(!new)>(s: Space<F, V>, vs: seq<V>)
    requires s.IsSpace() && AllIn(s, vs)
    ensures InSpan(s, vs, s.zero)
  {
    LinAllZero(s, VZero(s.f, |vs|), vs, |vs|);
  }

  lemma SpanScaleAdd<F(!new), V(!new)>(s: Space<F, V>, vs: seq<V>, a: F, u: V, v: V)
    requires s.IsSpace() && AllIn(s, vs) && InSpan(s, vs, u) && InSpan(s, vs, v)
    ensures InSpan(s, vs, s.Add(s.Scale(a, u), v))
  {
    var cs: seq<F> :| |cs| == |vs| && Lin(s, cs, vs, |vs|) == u;
    var ds: seq<F> :| |ds| == |vs| && Lin(s, ds, vs, |vs|) == v;
    var es := seq(|vs|, i requires 0 <= i < |vs| => s.f.Add(s.f.Mul(a, cs[i]), ds[i]));
    LinScaleAdd(s, a, cs, ds, es, vs, |vs|);
  }

  lemma SpanMember<F(!new), V(!new)>(s: Space<F, V>, vs: seq<V>, i: nat)
    requires s.IsSpace() && AllIn(s, vs) && i < |vs|
    ensures InSpan(s, vs, vs[i])
  {
    LinBasis(s, vs, i);
  }

  lemma SpanExtend<F(!new), V(!new)>(s: Space<F, V>, vs: seq<V>, w: V, v: V)
    requires s.IsSpace() && AllIn(s, vs) && s.Has(w) && InSpan(s, vs, v)
    ensures InSpan(s, vs + [w], v)
  {
    var cs: seq<F> :| |cs| == |vs| && Lin(s, cs, vs, |vs|) == v;
    LinIn(s, cs, vs, |vs|);
    LinPrefix(s, cs + [s.f.zero], cs, vs + [w], vs, |vs|);
    s.Unit(w); s.Unit(v);
    assert Lin(s, cs + [s.f.zero], vs + [w], |vs + [w]|) == v;
  }

  lemma {:induction false} LinWithin<F(!new), V(!new)>(s: Space<F, V>, cs: seq<F>, us: seq<V>, vs: seq<V>, k: nat)
    requires s.IsSpace() && AllIn(s, us) && AllIn(s, vs) && k <= |cs| && k <= |us| && Within(s, us, vs)
    ensures InSpan(s, vs, Lin(s, cs, us, k))
  {
    if k == 0 {
      SpanZero(s, vs);
    } else {
      LinWithin(s, cs, us, vs, k - 1);
      SpanScaleAdd(s, vs, cs[k - 1], us[k - 1], Lin(s, cs, us, k - 1));
      LinIn(s, cs, us, k - 1);
      s.Closed(cs[k - 1], us[k - 1], us[k - 1]);
      s.Closed(cs[k - 1], Lin(s, cs, us, k - 1), s.Scale(cs[k - 1], us[k - 1]));
    }
  }

  lemma SpanTrans<F(!new), V(!new)>(s: Space<F, V>, us: seq<V>, vs: seq<V>, v: V)
    requires s.IsSpace() && AllIn(s, us) && AllIn(s, vs) && Within(s, us, vs) && InSpan(s, us, v)
    ensures InSpan(s, vs, v)
  {
    var cs: seq<F> :| |cs| == |us| && Lin(s, cs, us, |us|) == v;
    LinWithin(s, cs, us, vs, |us|);
  }

  /** A vector outside the span keeps the family independent. */
  lemma IndependentExtend<F(!new), V(!new)>(s: Space<F, V>, vs: seq<V>, w: V)
    requires s.IsSpace() && AllIn(s, vs) && s.Has(w) && Independent(s, vs) && !InSpan(s, vs, w)
    ensures Independent(s, vs + [w])
  {
    var k, f := |vs|, s.f;
    forall cs: seq<F> | |cs| == |vs + [w]| && Lin(s, cs, vs + [w], |vs + [w]|) == s.zero
      ensures cs == VZero(f, |vs + [w]|)
    {
      var c, front := cs[k], cs[..k];
      var u := Lin(s, front, vs, k);
      LinPrefix(s, cs, front, vs + [w], vs, k);
      LinIn(s, front, vs, k);
      s.Closed(c, w, w);
      if c != f.zero {
        // w == (-1/c)·u, which lies in the span
        assert InSpan(s, vs, u);
        var a := f.Mul(f.Neg(f.one), f.Inv(c));
        f.Assoc(f.Neg(f.one), f.Inv(c), c); f.Unit(c); f.Unit(f.Neg(f.one));
        assert f.Mul(a, c) == f.Neg(f.one);
        s.ScaleDist(a, u, s.Scale(c, w)); s.ScaleLaws(a, c, w); s.ScaleZero(a);
        var m := s.Scale(f.Neg(f.one), w);
        f.Unit(f.one); f.Comm(f.one, f.Neg(f.one)); s.ScaleLaws(f.Neg(f.one), f.one, w); s.Unit(w);
        s.Closed(a, u, u); s.Closed(f.Neg(f.one), w, w); s.Closed(a, m, w);
        s.Assoc(s.Scale(a, u), m, w); s.Unit(s.Scale(a, u));
        assert s.Scale(a, u) == w;
        SpanZero(s, vs);
        SpanScaleAdd(s, vs, a, u, s.zero);
        assert false;
      }
      s.Unit(w); s.Unit(u);
      assert cs == front + [f.zero];
      assert VZero(f, k) + [f.zero] == VZero(f, k + 1);
    }
  }

  /** Independence makes coefficients unique. */
  lemma UniqueCoefficients<F(!new), V(!new)>(s: Space<F, V>, vs: seq<V>, cs: seq<F>, ds: seq<F>)
    requires s.IsSpace() && AllIn(s, vs) && Independent(s, vs) && |cs| == |ds| == |vs|
    requires Lin(s, cs, vs, |vs|) == Lin(s, ds, vs, |vs|)
    ensures cs == ds
  {
    var k, f, m := |vs|, s.f, s.f.Neg(s.f.one);
    var v := Lin(s, cs, vs, k);
    var es := seq(k, i requires 0 <= i < k => f.Add(f.Mul(m, cs[i]), ds[i]));
    LinScaleAdd(s, m, cs, ds, es, vs, k);
    LinIn(s, cs, vs, k);
    s.ScaleLaws(m, f.one, v); s.Unit(v); f.Unit(f.one); f.Comm(f.one, m);
    assert es == VZero(f, k);
    forall i | 0 <= i < k ensures cs[i] == ds[i] {
      assert es[i] == f.zero;
      f.Dist(cs[i], m, f.one); f.Unit(cs[i]); f.MulZero(cs[i]);
      assert f.Add(f.Mul(m, cs[i]), cs[i]) == f.zero;
      f.Comm(f.Mul(m, cs[i]), cs[i]); f.Comm(f.Mul(m, cs[i]), ds[i]);
      f.Cancel(cs[i], ds[i], f.Mul(m, cs[i]));
    }
  }

  lemma WithinTrans<F(!new), V(!new)>(s: Space<F, V>, us: seq<V>, vs: seq<V>, ws: seq<V>)
    requires s.IsSpace() && AllIn(s, vs) && AllIn(s, ws) && Within(s, us, vs) && Within(s, vs, ws)
    ensures Within(s, us, ws)
  {
    forall i | 0 <= i < |us| ensures InSpan(s, ws, us[i]) { SpanTrans(s, vs, ws, us[i]); }
  }

  lemma SubsetWithin<F(!new), V(!new)>(s: Space<F, V>, us: seq<V>, vs: seq<V>)
    requires s.IsSpace() && AllIn(s, vs) && forall i :: 0 <= i < |us| ==> us[i] in vs
    ensures Within(s, us, vs)
  {
    forall i | 0 <= i < |us| ensures InSpan(s, vs, us[i]) {
      assert us[i] in vs;
      var j :| 0 <= j < |vs| && vs[j] == us[i];
      SpanMember(s, vs, j);
    }
  }

  // ---------- what a decoder keeps ----------

  /** Keeps `v` exactly when it is new information. */
  ghost function Keep<F(!new), V(!new)>(s: Space<F, V>, kept: seq<V>, v: V): seq<V> {
    if InSpan(s, kept, v) then kept else kept + [v]
  }

  /** What is kept of the first `k` vectors offered. */
  ghost function KeepAll<F(!new), V(!new)>(s: Space<F, V>, vs: seq<V>, k: nat): seq<V>
    requires k <= |vs|
  {
    if k == 0 then [] else Keep(s, KeepAll(s, vs, k - 1), vs[k - 1])
  }

  lemma KeepAllAppend<F(!new), V(!new)>(s: Space<F, V>, us: seq<V>, v: V)
    ensures KeepAll(s, us + [v], |us| + 1) == Keep(s, KeepAll(s, us, |us|), v)
  {
    KeepAllPrefix(s, us, us + [v], |us|);
  }

  lemma {:induction false} KeepAllPrefix<F(!new), V(!new)>(s: Space<F, V>, us: seq<V>, vs: seq<V>, k: nat)
    requires k <= |us| <= |vs| && us == vs[..|us|]
    ensures KeepAll(s, us, k) == KeepAll(s, vs, k)
  {
    if k > 0 {
      KeepAllPrefix(s, us, vs, k - 1);
    }
  }

  lemma KeepSpans<F(!new), V(!new)>(s: Space<F, V>, us: seq<V>, kept: seq<V>, v: V)
    requires s.IsSpace() && AllIn(s, kept) && s.Has(v) && Within(s, us, kept)
    ensures AllIn(s, Keep(s, kept, v)) && Within(s, us + [v], Keep(s, kept, v))
  {
    if !InSpan(s, kept, v) {
      SpanMember(s, kept + [v], |kept|);
      forall i | 0 <= i < |us| ensures InSpan(s, kept + [v], us[i]) { SpanExtend(s, kept, v, us[i]); }
    }
  }

  /** The kept vectors are offered vectors and span everything offered. */
  lemma {:induction false} KeepAllSpans<F(!new), V(!new)>(s: Space<F, V>, vs: seq<V>, k: nat)
    requires s.IsSpace() && k <= |vs| && AllIn(s, vs)
    ensures AllIn(s, KeepAll(s, vs, k)) && Within(s, vs[..k], KeepAll(s, vs, k))
    ensures forall i :: 0 <= i < |KeepAll(s, vs, k)| ==> KeepAll(s, vs, k)[i] in vs[..k]
  {
    if k > 0 {
      KeepAllSpans(s, vs, k - 1);
      assert vs[..k] == vs[..k - 1] + [vs[k - 1]];
      KeepSpans(s, vs[..k - 1], KeepAll(s, vs, k - 1), vs[k - 1]);
    }
  }

  lemma KeepAllWithin<F(!new), V(!new)>(s: Space<F, V>, us: seq<V>, vs: seq<V>)
    requires s.IsSpace() && AllIn(s, us) && AllIn(s, vs) && Within(s, us, vs)
    ensures Within(s, KeepAll(s, us, |us|), KeepAll(s, vs, |vs|))
  {
    var a, b := KeepAll(s, us, |us|), KeepAll(s, vs, |vs|);
    KeepAllSpans(s, us, |us|);
    KeepAllSpans(s, vs, |vs|);
    assert us[..|us|] == us && vs[..|vs|] == vs;
    SubsetWithin(s, a, us);
    WithinTrans(s, a, us, vs);
    WithinTrans(s, a, vs, b);
  }
}
