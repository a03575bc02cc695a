/** Models of the assumed laws, one by one and all together, so that no theorem rests on laws
    that contradict each other. */
module Instances {
  import opened Wrappers
  import opened Algebra
  import opened Bfkw
  import opened Wire
  import opened Blocks = Block
  import opened BfkwNode
  import opened Chain
  import opened Tower

  /** A field as a one-dimensional space over itself. */
  function Line<F(!new)>(f: Field<F>): Space<F, F> {
    Space(f, f.zero, (a, b) => f.Add(a, b), (a, b) => f.Mul(a, b), _ => true)
  }

  lemma LineIsSpace<F(!new)>(f: Field<F>)
    requires f.IsField()
    ensures Line(f).IsSpace()
  {
    var s := Line(f);
    forall u: F, v: F | At2(u, v) ensures s.Add(u, v) == s.Add(v, u) { f.Comm(u, v); }
    forall u: F, v: F, w: F | At3(u, v, w)
      ensures s.Add(s.Add(u, v), w) == s.Add(u, s.Add(v, w))
      ensures s.Scale(f.Mul(u, v), w) == s.Scale(u, s.Scale(v, w))
      ensures s.Scale(f.Add(u, v), w) == s.Add(s.Scale(u, w), s.Scale(v, w))
      ensures s.Scale(u, s.Add(v, w)) == s.Add(s.Scale(u, v), s.Scale(u, w))
    {
      f.Assoc(u, v, w); f.Dist(w, u, v); f.Dist(u, v, w);
    }
    forall v: F | At1(v) ensures s.Add(v, s.zero) == v && s.Scale(f.one, v) == v && s.Scale(f.zero, v) == s.zero {
      f.Unit(v); f.MulZero(v);
    }
  }

  /** Every field pairs with itself by multiplication. */
  lemma FieldPairs<F(!new)>(f: Field<F>)
    requires f.IsField()
    ensures Pairing(Line(f), Line(f), f.one, (a: F, b: F) => f.Mul(a, b)).IsPairing()
  {
    LineIsSpace(f);
    var pg := Pairing(Line(f), Line(f), f.one, (a: F, b: F) => f.Mul(a, b));
    forall a: F, p: F, q: F | At3(a, p, q) ensures pg.E(pg.g1.Scale(a, p), q) == pg.E(p, pg.g2.Scale(a, q)) {
      f.Comm(a, p); f.Assoc(p, a, q);
    }
    forall q: F, r: F | At2(q, r) && pg.E(pg.gen, q) == pg.E(pg.gen, r) ensures q == r {
      f.Unit(q); f.Unit(r);
    }
  }

  /** Four big-endian bytes are a length prefix. */
  function FourBytes(): LengthCodec {
    LengthCodec((k: nat) => ToBE(k, 4), (buf: seq<byte>) => if |buf| < 4 then Failure("end of buffer")
      else Success((FromBE(buf[..4]), buf[4..])))
  }

  lemma FourBytesIsPrefix()
    ensures FourBytes().IsPrefix()
  {
    Pow256Values();
    forall k: nat, rest: seq<byte> | At2(k, rest) && k < 0x1_0000_0000
      ensures FourBytes().read(FourBytes().write(k) + rest) == Success((k, rest))
    {
      BERoundTrip(k, 4);
      assert (ToBE(k, 4) + rest)[..4] == ToBE(k, 4) && (ToBE(k, 4) + rest)[4..] == rest;
    }
  }

  // ---------- all laws together ----------

  /** The byte encoding of a rung as a library codec: its reader refuses zero. */
  function Codec<F(!new)>(r: Rung<F>): ElementCodec<F> {
    ElementCodec(r.size, r.f.zero, r.write, (bs: seq<byte>) => if |bs| == r.size
      && bs != Zeros(r.size) then Some(r.read(bs)) else None)
  }

  lemma CodecPacks<F(!new)>(r: Rung<F>)
    requires r.Ok() && r.size == DATA_BYTES + 1
    ensures Packs(Codec(r))
  {
    var c := Codec(r);
    forall x: F ensures |c.write(x)| == c.size && (x != c.zero ==> c.read(c.write(x)) == Some(x)) {
      assert r.read(r.write(x)) == x && r.read(r.write(r.f.zero)) == r.f.zero;
    }
  }

  function EmptyBlock(k: nat): Block {
    Block(Zeros(32), if k < 0x1_0000_0000_0000_0000 then k else 0, 0, 0, 0, Zeros(32), [])
  }

  /** For every number of chunks there are parameters and a chain of blocks that meet every
      law at once: over the field of `2^256` elements, paired with itself. */
  lemma LawsHoldTogether(n: nat) returns (ps: Params<Bytes32, Bytes32, Bytes32, Bytes32>, chain: nat -> Block)
    requires n > 0
    ensures Fits(ps, chain) && ps.gc.IsCodec() && ps.n == n
  {
    var r := Scalars();
    CodecPacks(r);
    FieldPairs(r.f);
    FourBytesIsPrefix();
    var m := ComputeM(0, n);
    var f := r.f;
    ps := Params(Pairing(Line(f), Line(f), f.one, (a: Bytes32, b: Bytes32) => f.Mul(a, b)), Codec(r), Codec(r),
      FourBytes(),
                 n, m, f.one, (k: nat) => seq(m + n, _ => f.one));
    chain := (k: nat) => EmptyBlock(k);
    assert m > 0 by { CeilCovers(100, 31 * n); }
    forall k: nat ensures AsChunks(ps.fc, ps.lc, EmptyBlock(k), n, m).Success? {
      ComputedCapacity(ps.fc, ps.lc, EmptyBlock(k), n);
    }
  }
}
