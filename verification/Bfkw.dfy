/** The BFKW linearly homomorphic signature (crates/strategy/bfkw/src/bfkw.rs). */
module Bfkw {
  import opened Algebra
  import opened Wrappers
  import opened Coding
  import opened Integrity

  /** Two groups over one scalar field and a pairing between them
      (crates/strategy/bfkw/src/pairing.rs). */
  datatype Pairing<!F(!new), !G1(!new), !G2(!new), !GT(==, !new)> =
    Pairing(g1: Space<F, G1>, g2: Space<F, G2>, gen: G1, e: (G1, G2) -> GT)
  {
    function E(p: G1, q: G2): GT { e(p, q) }

    /** Scalars move across the pairing, and pairing with the generator is injective. */
    ghost predicate IsPairing() {
      && g1.IsSpace() && g2.IsSpace() && g1.f == g2.f
      && (forall p {:trigger g1.Has(p)} :: g1.Has(p))
      && (forall q {:trigger g2.Has(q)} :: g2.Has(q))
      && (forall a: F, p: G1, q: G2 {:trigger At3(a, p, q)} :: At3(a, p, q) ==>
            E(g1.Scale(a, p), q) == E(p, g2.Scale(a, q)))
      && (forall q: G2, r: G2 {:trigger At2(q, r)} :: At2(q, r) && E(gen, q) == E(gen, r) ==> q == r)
    }

    /** `e(G1, σ) == e(pk, P)`. */
    predicate Check(pk: G1, sigma: G2, p: G2) {
      E(gen, sigma) == E(pk, p)
    }

    /** For a well-formed key the pairing equation says exactly `σ == sk·P`. */
    lemma CheckIff(sk: F, sigma: G2, p: G2)
      requires IsPairing()
      ensures Check(g1.Scale(sk, gen), sigma, p) <==> sigma == g2.Scale(sk, p)
    {
      assert At3(sk, gen, p) && At2(sigma, g2.Scale(sk, p));
    }
  }

  datatype BfkwError = PairingMismatch

  /** `m + N` hash points and the proposer's public key. */
  datatype Context<G1, G2> = Context(hashPoints: seq<G2>, publicKey: G1)

  /** `MSM(H, [w ‖ b])`. */
  function Digest<F(!new), G2(!new)>(g: Space<F, G2>, points: seq<G2>, w: seq<F>, b: seq<F>): G2
    requires |points| == |w| + |b|
  {
    Lin(g, w + b, points, |points|)
  }

  /** A chunk whose shape does not match the hash points never verifies. */
  function Verify<F(!new), G1(!new), G2(!new), GT(==, !new)>(pg: Pairing<F, G1, G2, GT>, ctx: Context<G1, G2>,
      c: CodedChunk<F>, sigma: G2): Outcome<BfkwError>
  {
    if |ctx.hashPoints| == |c.w| + |c.b| && pg.Check(ctx.publicKey, sigma, Digest(pg.g2, ctx.hashPoints, c.w, c.b))
    then Pass else Fail(PairingMismatch)
  }

  function Combine<F(!new), G2(!new)>(g: Space<F, G2>, proofs: seq<G2>, alphas: seq<F>): G2 {
    if |alphas| == |proofs| then Lin(g, alphas, proofs, |proofs|) else g.zero
  }

  /** Signature of original chunk `i`, augmented with its unit vector. */
  function Sign<F(!new), G2(!new)>(g: Space<F, G2>, sk: F, points: seq<G2>, n: nat, i: nat, v: seq<F>): G2
    requires |points| == |v| + n
  {
    g.Scale(sk, Digest(g, points, v, Basis(g.f, n, i)))
  }

  /** The proposer's proof for coefficients `b`: sign every chunk, then combine. */
  function SignCoded<F(!new), G2(!new)>(g: Space<F, G2>, sk: F, points: seq<G2>, m: nat, vs: seq<seq<F>>,
      b: seq<F>): G2
    requires |points| == m + |vs| && AllIn(Vec(g.f, m), vs)
  {
    var individual := seq(|vs|, i requires 0 <= i < |vs| => Sign(g, sk, points, |vs|, i, vs[i]));
    Combine(g, individual, b)
  }

  function BfkwScheme<F(!new), G1(!new), G2(!new), GT(==, !new)>(pg: Pairing<F, G1, G2, GT>,
      ctx: Context<G1, G2>): Scheme<F, G2, BfkwError>
  {
    Scheme((c, sigma) => Verify(pg, ctx, c, sigma), (proofs, alphas) => Combine(pg.g2, proofs, alphas))
  }

  // ---------- correctness ----------

  /** Verification decides, for a chunk of any shape, whether the shape fits the hash points
      and `σ == sk·MSM(H, [w ‖ b])`. */
  lemma VerifyIff<F(!new), G1(!new), G2(!new), GT(!new)>(pg: Pairing<F, G1, G2, GT>, ctx: Context<G1, G2>, sk: F,
      c: CodedChunk<F>, sigma: G2)
    requires pg.IsPairing() && ctx.publicKey == pg.g1.Scale(sk, pg.gen)
    ensures Verify(pg, ctx, c, sigma) == Pass <==>
      |ctx.hashPoints| == |c.w| + |c.b| && sigma == pg.g2.Scale(sk, Digest(pg.g2, ctx.hashPoints, c.w, c.b))
  {
    if |ctx.hashPoints| == |c.w| + |c.b| {
      pg.CheckIff(sk, sigma, Digest(pg.g2, ctx.hashPoints, c.w, c.b));
    }
  }

  /** The first hash points go with the data, the others with the coefficients. An original
      chunk's digest is its data's plus the hash point of its index. */
  lemma DigestParts<F(!new), G2(!new)>(g: Space<F, G2>, points: seq<G2>, w: seq<F>, b: seq<F>)
    requires g.IsSpace() && AllIn(g, points) && |points| == |w| + |b|
    ensures var m := |w|;
      && Digest(g, points, w, b) == g.Add(Lin(g, w, points[..m], m), Lin(g, b, points[m..], |b|))
      && forall i :: 0 <= i < |b| && b == Basis(g.f, |b|, i) ==>
          Digest(g, points, w, b) == g.Add(Lin(g, w, points[..m], m), points[m + i])
  {
    LinSplit(g, w, b, points, |b|);
    forall i | 0 <= i < |b| && b == Basis(g.f, |b|, i) ensures Lin(g, b, points[|w|..], |b|) == points[|w| + i] {
      LinOnly(g, b, points[|w|..], |b|, i);
      g.Unit(points[|w| + i]);
    }
  }

  /** Combining concatenations concatenates the combinations. */
  lemma {:induction false} LinConcat<F(!new)>(f: Field<F>, m: nat, n: nat, cs: seq<F>, us: seq<seq<F>>,
      vs: seq<seq<F>>, ws: seq<seq<F>>, k: nat)
    requires f.IsField() && k <= |cs| && k <= |us| && k <= |vs| && k <= |ws|
    requires AllIn(Vec(f, m), us) && AllIn(Vec(f, n), vs)
    requires forall i :: 0 <= i < k ==> ws[i] == us[i] + vs[i]
    ensures Lin(Vec(f, m + n), cs, ws, k) == Lin(Vec(f, m), cs, us, k) + Lin(Vec(f, n), cs, vs, k)
  {
    if k == 0 {
      assert VZero(f, m + n) == VZero(f, m) + VZero(f, n);
    } else {
      var j, a := k - 1, cs[k - 1];
      LinConcat(f, m, n, cs, us, vs, ws, j);
      VecIsSpace(f, m); VecIsSpace(f, n);
      LinIn(Vec(f, m), cs, us, j); LinIn(Vec(f, n), cs, vs, j);
      var u, v := Lin(Vec(f, m), cs, us, j), Lin(Vec(f, n), cs, vs, j);
      assert VAdd(f, u + v, VScale(f, a, us[j] + vs[j]))
        == VAdd(f, u, VScale(f, a, us[j])) + VAdd(f, v, VScale(f, a, vs[j]));
    }
  }

  function Messages<F>(chunks: seq<CodedChunk<F>>): (ms: seq<seq<F>>)
    ensures |ms| == |chunks| && forall i :: 0 <= i < |ms| ==> ms[i] == chunks[i].w + chunks[i].b
  {
    seq(|chunks|, i requires 0 <= i < |chunks| => chunks[i].w + chunks[i].b)
  }

  /** The augmented message of a mix is the mix of the augmented messages. */
  lemma MessageOfMix<F(!new)>(f: Field<F>, n: nat, m: nat, t: nat, chunks: seq<CodedChunk<F>>, alphas: seq<F>,
      c: CodedChunk<F>)
    requires f.IsField() && Sized(n, m, chunks) && |alphas| == |chunks| && t == m + n
    requires c == Mix(f, n, m, chunks, alphas)
    ensures |c.w| == m && |c.b| == n && c.w + c.b == Lin(Vec(f, t), alphas, Messages(chunks), |chunks|)
  {
    VecIsSpace(f, m); VecIsSpace(f, n);
    LinIn(Vec(f, m), alphas, Payloads(chunks), |chunks|);
    LinIn(Vec(f, n), alphas, Coefficients(chunks), |chunks|);
    LinConcat(f, m, n, alphas, Payloads(chunks), Coefficients(chunks), Messages(chunks), |chunks|);
  }

  /** The digest of a mix is the mix of the digests. */
  lemma DigestOfMix<F(!new), G2(!new)>(g: Space<F, G2>, points: seq<G2>, n: nat, m: nat, chunks: seq<CodedChunk<F>>,
      alphas: seq<F>, digests: seq<G2>, c: CodedChunk<F>)
    requires g.IsSpace() && AllIn(g, points) && |points| == m + n && Sized(n, m, chunks)
    requires |alphas| == |chunks| == |digests| && c == Mix(g.f, n, m, chunks, alphas)
    requires forall i :: 0 <= i < |chunks| ==>
      |Messages(chunks)[i]| == |points| && digests[i] == Lin(g, Messages(chunks)[i], points, |points|)
    ensures |c.w| == m && |c.b| == n && Digest(g, points, c.w, c.b) == Lin(g, alphas, digests, |chunks|)
  {
    MessageOfMix(g.f, n, m, |points|, chunks, alphas, c);
    DigestsOfMessages(g, points, alphas, Messages(chunks), digests);
  }

  lemma DigestsOfMessages<F(!new), G2(!new)>(g: Space<F, G2>, points: seq<G2>, alphas: seq<F>, ms: seq<seq<F>>,
      digests: seq<G2>)
    requires g.IsSpace() && AllIn(g, points) && |alphas| == |ms| == |digests|
    requires forall i :: 0 <= i < |ms| ==> |ms[i]| == |points| && digests[i] == Lin(g, ms[i], points, |points|)
    ensures |Lin(Vec(g.f, |points|), alphas, ms, |ms|)| == |points|
    ensures Lin(g, Lin(Vec(g.f, |points|), alphas, ms, |ms|), points, |points|) == Lin(g, alphas, digests, |ms|)
  {
    LinOfLin(g, alphas, ms, points, digests, |ms|);
  }

  /** The signature the proposer's key gives a chunk. */
  ghost predicate Signed<F(!new), G2(!new)>(g: Space<F, G2>, sk: F, points: seq<G2>, c: CodedChunk<F>, sigma: G2) {
    |points| == |c.w| + |c.b| && sigma == g.Scale(sk, Digest(g, points, c.w, c.b))
  }

  /** If every stored chunk carries its signature, so does every re-encoding, with the
      proofs mixed by the same coefficients. */
  lemma MixSigned<F(!new), G2(!new)>(g: Space<F, G2>, sk: F, points: seq<G2>, n: nat, m: nat, s: Store<F, G2>,
      alphas: seq<F>)
    requires g.IsSpace() && AllIn(g, points) && |points| == m + n && Sized(n, m, s.chunks)
    requires |alphas| == |s.chunks| == |s.proofs|
    requires forall i :: 0 <= i < |s.chunks| ==> Signed(g, sk, points, s.chunks[i], s.proofs[i])
    ensures Signed(g, sk, points, Mix(g.f, n, m, s.chunks, alphas), Combine(g, s.proofs, alphas))
  {
    var k := |s.chunks|;
    var ms := Messages(s.chunks);
    var digests := seq(k, i requires 0 <= i < k => Lin(g, ms[i], points, |points|));
    DigestOfMix(g, points, n, m, s.chunks, alphas, digests, Mix(g.f, n, m, s.chunks, alphas));
    forall i | 0 <= i < k ensures g.Has(digests[i]) {
      LinIn(g, ms[i], points, |points|);
    }
    LinScaled(g, sk, alphas, digests, s.proofs, k);
  }

  /** `sign_coded` gives coefficients `b` the signature `sk·MSM(H, [Σ b_i·v_i ‖ b])`. */
  lemma SignCodedSigned<F(!new), G2(!new)>(g: Space<F, G2>, sk: F, points: seq<G2>, m: nat, vs: seq<seq<F>>,
      b: seq<F>)
    requires g.IsSpace() && AllIn(g, points) && |points| == m + |vs| && AllIn(Vec(g.f, m), vs) && |b| == |vs|
    ensures Signed(g, sk, points, Encode(g.f, m, vs, b), SignCoded(g, sk, points, m, vs, b))
  {
    var n := |vs|;
    var originals := seq(n, i requires 0 <= i < n => CodedChunk(vs[i], Basis(g.f, n, i)));
    var proofs := seq(n, i requires 0 <= i < n => Sign(g, sk, points, n, i, vs[i]));
    MixSigned(g, sk, points, n, m, Store(originals, proofs), b);
    assert Payloads(originals) == vs;
    LinOfBasis(g.f, n, b, Coefficients(originals));
  }

  /** BFKW proofs survive any chain of re-encodings: the packets signed under the
      proposer's key verify and are closed under mixing. */
  lemma BfkwMixSafe<F(!new), G1(!new), G2(!new), GT(!new)>(pg: Pairing<F, G1, G2, GT>, ctx: Context<G1, G2>, sk: F,
      n: nat, m: nat)
    requires pg.IsPairing() && ctx.publicKey == pg.g1.Scale(sk, pg.gen) && |ctx.hashPoints| == m + n
    ensures MixSafe(pg.g2.f, n, m, BfkwScheme(pg, ctx),
      (c: CodedChunk<F>, p: G2) => Signed(pg.g2, sk, ctx.hashPoints, c, p))
  {
    var genuine := (c: CodedChunk<F>, p: G2) => Signed(pg.g2, sk, ctx.hashPoints, c, p);
    forall c, p | genuine(c, p) ensures BfkwScheme(pg, ctx).verify(c, p).Pass? {
      VerifyIff(pg, ctx, sk, c, p);
    }
    forall s: Store<F, G2>, alphas: seq<F> | At2(s, alphas) && Stocked(n, m, genuine, s) && s.chunks != []
      && |alphas| == |s.chunks|
      ensures genuine(Mix(pg.g2.f, n, m, s.chunks, alphas), BfkwScheme(pg, ctx).combine(s.proofs, alphas))
    {
      forall i | 0 <= i < |s.chunks| ensures Signed(pg.g2, sk, ctx.hashPoints, s.chunks[i], s.proofs[i]) {
        assert genuine(s.chunks[i], s.proofs[i]);
      }
      MixSigned(pg.g2, sk, ctx.hashPoints, n, m, s, alphas);
    }
  }

  /** For packets of the right shape, being signed and verifying are the same thing, so
      a store that verifies yields re-encodings that verify. */
  lemma MixVerifies<F(!new), G1(!new), G2(!new), GT(!new)>(pg: Pairing<F, G1, G2, GT>, ctx: Context<G1, G2>, sk: F,
      n: nat, m: nat, s: Store<F, G2>, alphas: seq<F>)
    requires pg.IsPairing() && ctx.publicKey == pg.g1.Scale(sk, pg.gen) && |ctx.hashPoints| == m + n
    requires Sized(n, m, s.chunks) && |alphas| == |s.chunks| == |s.proofs|
    requires forall i :: 0 <= i < |s.chunks| ==> Verify(pg, ctx, s.chunks[i], s.proofs[i]) == Pass
    ensures Verify(pg, ctx, Mix(pg.g2.f, n, m, s.chunks, alphas), Combine(pg.g2, s.proofs, alphas)) == Pass
  {
    forall i | 0 <= i < |s.chunks| ensures Signed(pg.g2, sk, ctx.hashPoints, s.chunks[i], s.proofs[i]) {
      VerifyIff(pg, ctx, sk, s.chunks[i], s.proofs[i]);
    }
    MixSigned(pg.g2, sk, ctx.hashPoints, n, m, s, alphas);
    VerifyIff(pg, ctx, sk, Mix(pg.g2.f, n, m, s.chunks, alphas), Combine(pg.g2, s.proofs, alphas));
  }

  /** Verification must come before storing: one chunk with a bad proof, mixed in with a
      non-zero coefficient, spoils the mix however good the others are. */
  lemma OneBadSpoils<F(!new), G1(!new), G2(!new), GT(!new)>(pg: Pairing<F, G1, G2, GT>, ctx: Context<G1, G2>, sk: F,
      n: nat, m: nat, s: Store<F, G2>, alphas: seq<F>, j: nat)
    requires pg.IsPairing() && ctx.publicKey == pg.g1.Scale(sk, pg.gen) && |ctx.hashPoints| == m + n
    requires Sized(n, m, s.chunks) && |alphas| == |s.chunks| == |s.proofs| && j < |alphas|
      && alphas[j] != pg.g2.f.zero
    requires forall i :: 0 <= i < |s.chunks| && i != j ==> Verify(pg, ctx, s.chunks[i], s.proofs[i]) == Pass
    ensures Verify(pg, ctx, Mix(pg.g2.f, n, m, s.chunks, alphas), Combine(pg.g2, s.proofs, alphas)) == Pass
      <==> Verify(pg, ctx, s.chunks[j], s.proofs[j]) == Pass
  {
    var g, k := pg.g2, |s.chunks|;
    var c := Mix(g.f, n, m, s.chunks, alphas);
    var right := seq(k, i requires 0 <= i < k =>
      g.Scale(sk, Digest(g, ctx.hashPoints, s.chunks[i].w, s.chunks[i].b)));
    MixSigned(g, sk, ctx.hashPoints, n, m, Store(s.chunks, right), alphas);
    VerifyIff(pg, ctx, sk, c, Combine(g, s.proofs, alphas));
    forall i | 0 <= i < k ensures Verify(pg, ctx, s.chunks[i], s.proofs[i]) == Pass <==> s.proofs[i] == right[i] {
      VerifyIff(pg, ctx, sk, s.chunks[i], s.proofs[i]);
    }
    if Verify(pg, ctx, c, Combine(g, s.proofs, alphas)) == Pass {
      LinDiffersAt(g, alphas, s.proofs, right, k, j);
    } else if Verify(pg, ctx, s.chunks[j], s.proofs[j]) == Pass {
      MixVerifies(pg, ctx, sk, n, m, s, alphas);
    }
  }
}
