/** Pedersen commitments (crates/strategy/pedersen/src/commitment.rs,
    crates/strategy/pedersen/src/pedersen.rs). */
module Pedersen {
  import opened Algebra
  import opened Wrappers
  import opened Coding
  import opened Integrity

  datatype PedersenError = InvalidSignature | CommitmentMismatch

  /** Commitments to the original chunks and a signature over them. */
  datatype PedersenProof<G(!new), S> = PedersenProof(commitments: seq<G>, signature: S)

  /** The proposer's signature scheme, over the list of commitments. */
  datatype Signer<!G(!new), !S> = Signer(sign: seq<G> -> S, verify: (seq<G>, S) -> bool)
  {
    ghost predicate Correct() {
      forall cs {:trigger sign(cs)} :: verify(cs, sign(cs))
    }
  }

  function Commit<F(!new), G(!new)>(g: Space<F, G>, key: seq<G>, v: seq<F>): G
    requires |v| == |key|
  {
    Lin(g, v, key, |key|)
  }

  /** `MSM(G, w) == MSM(C, b)`. */
  predicate Matches<F(!new), G(==, !new)>(g: Space<F, G>, key: seq<G>, commitments: seq<G>, c: CodedChunk<F>) {
    && |c.w| == |key| && |c.b| == |commitments|
    && Commit(g, key, c.w) == Lin(g, c.b, commitments, |commitments|)
  }

  /** The signature first, then the commitment equation. */
  function Verify<F(!new), G(==, !new), S>(g: Space<F, G>, signer: Signer<G, S>, key: seq<G>, c: CodedChunk<F>,
      p: PedersenProof<G, S>): Outcome<PedersenError>
  {
    if !signer.verify(p.commitments, p.signature) then Fail(InvalidSignature)
    else if !Matches(g, key, p.commitments, c) then Fail(CommitmentMismatch)
    else Pass
  }

  /** Commitments are to the originals, so any stored proof does. */
  function Combine<F, G(!new), S>(proofs: seq<PedersenProof<G, S>>, alphas: seq<F>): PedersenProof<G, S>
    requires proofs != []
  {
    proofs[0]
  }

  function SignBlock<F(!new), G(!new), S>(g: Space<F, G>, signer: Signer<G, S>, key: seq<G>,
      vs: seq<seq<F>>): PedersenProof<G, S>
    requires forall i :: 0 <= i < |vs| ==> |vs[i]| == |key|
  {
    var commitments := seq(|vs|, i requires 0 <= i < |vs| => Commit(g, key, vs[i]));
    PedersenProof(commitments, signer.sign(commitments))
  }

  /** `fallback` stands for the panic on an empty store. */
  function PedersenScheme<F(!new), G(==, !new), S>(g: Space<F, G>, signer: Signer<G, S>, key: seq<G>,
      fallback: PedersenProof<G, S>): Scheme<F, PedersenProof<G, S>, PedersenError>
  {
    Scheme((c, p) => Verify(g, signer, key, c, p),
           (proofs: seq<PedersenProof<G, S>>, alphas: seq<F>) => if proofs == [] then fallback
             else Combine(proofs, alphas))
  }

  // ---------- correctness ----------

  /** The commitment equation is linear: it survives every re-encoding. */
  lemma MixMatches<F(!new), G(!new)>(g: Space<F, G>, key: seq<G>, commitments: seq<G>, n: nat,
      chunks: seq<CodedChunk<F>>, alphas: seq<F>)
    requires g.IsSpace() && AllIn(g, key) && AllIn(g, commitments) && |commitments| == n
    requires |alphas| == |chunks| && Sized(n, |key|, chunks)
    requires forall i :: 0 <= i < |chunks| ==> Matches(g, key, commitments, chunks[i])
    ensures Matches(g, key, commitments, Mix(g.f, n, |key|, chunks, alphas))
  {
    var m, k := |key|, |chunks|;
    var images := seq(k, i requires 0 <= i < k => Commit(g, key, chunks[i].w));
    LinOfLin(g, alphas, Payloads(chunks), key, images, k);
    LinOfLin(g, alphas, Coefficients(chunks), commitments, images, k);
  }

  /** Every chunk encoded from the committed block satisfies the equation. */
  lemma EncodedMatches<F(!new), G(!new)>(g: Space<F, G>, key: seq<G>, vs: seq<seq<F>>, commitments: seq<G>, b: seq<F>)
    requires g.IsSpace() && AllIn(g, key) && |commitments| == |vs| == |b|
    requires forall i :: 0 <= i < |vs| ==> |vs[i]| == |key| && commitments[i] == Commit(g, key, vs[i])
    ensures AllIn(g, commitments) && Matches(g, key, commitments, Encode(g.f, |key|, vs, b))
  {
    forall i | 0 <= i < |vs| ensures g.Has(commitments[i]) { LinIn(g, vs[i], key, |key|); }
    LinOfLin(g, b, vs, key, commitments, |vs|);
  }

  /** What `Verify` decides, for any chunk and any proof: the signature first, and then, over
      the commitments of block `vs`, whether the chunk's shape fits and its data commits to the
      same as the combination of `vs` its coefficients name. */
  lemma VerifyIff<F(!new), G(!new), S>(g: Space<F, G>, signer: Signer<G, S>, key: seq<G>, vs: seq<seq<F>>,
      c: CodedChunk<F>, p: PedersenProof<G, S>)
    requires g.IsSpace() && AllIn(g, key) && |p.commitments| == |vs|
    requires forall i :: 0 <= i < |vs| ==> |vs[i]| == |key| && p.commitments[i] == Commit(g, key, vs[i])
    ensures Verify(g, signer, key, c, p) == Fail(InvalidSignature) <==> !signer.verify(p.commitments, p.signature)
    ensures Verify(g, signer, key, c, p) == Pass <==>
      && signer.verify(p.commitments, p.signature) && |c.w| == |key| && |c.b| == |vs|
      && var encoded := Encode(g.f, |key|, vs, c.b).w;
         |encoded| == |key| && Commit(g, key, c.w) == Commit(g, key, encoded)
  {
    if |c.b| == |vs| { EncodedMatches(g, key, vs, p.commitments, c.b); }
  }

  /** Verification must come before storing: among chunks that match the commitments, one that
      does not, mixed in with a non-zero coefficient, spoils the mix. */
  lemma OneBadSpoils<F(!new), G(!new), S>(g: Space<F, G>, signer: Signer<G, S>, key: seq<G>, n: nat,
      s: Store<F, PedersenProof<G, S>>, alphas: seq<F>, j: nat)
    requires g.IsSpace() && AllIn(g, key) && |alphas| == |s.chunks| == |s.proofs| && Sized(n, |key|, s.chunks)
    requires j < |alphas| && alphas[j] != g.f.zero && |s.proofs[0].commitments| == n
    requires AllIn(g, s.proofs[0].commitments) && forall i :: 0 <= i < |s.proofs| ==> s.proofs[i] == s.proofs[0]
    requires forall i :: 0 <= i < |s.chunks| && i != j ==> Verify(g, signer, key, s.chunks[i], s.proofs[i]) == Pass
    ensures Verify(g, signer, key, Mix(g.f, n, |key|, s.chunks, alphas), Combine(s.proofs, alphas)) == Pass
      <==> Verify(g, signer, key, s.chunks[j], s.proofs[j]) == Pass
  {
    var commitments := s.proofs[0].commitments;
    forall i | 0 <= i < |s.chunks| && i != j ensures Matches(g, key, commitments, s.chunks[i]) {
      assert Verify(g, signer, key, s.chunks[i], s.proofs[i]) == Pass;
    }
    OneBadMismatches(g, key, commitments, n, s.chunks, alphas, j);
  }

  lemma OneBadMismatches<F(!new), G(!new)>(g: Space<F, G>, key: seq<G>, commitments: seq<G>, n: nat,
      chunks: seq<CodedChunk<F>>, alphas: seq<F>, j: nat)
    requires g.IsSpace() && AllIn(g, key) && AllIn(g, commitments) && |commitments| == n
    requires |alphas| == |chunks| && Sized(n, |key|, chunks) && j < |alphas| && alphas[j] != g.f.zero
    requires forall i :: 0 <= i < |chunks| && i != j ==> Matches(g, key, commitments, chunks[i])
    ensures Matches(g, key, commitments, Mix(g.f, n, |key|, chunks, alphas)) <==>
      Matches(g, key, commitments, chunks[j])
  {
    var k := |chunks|;
    if Matches(g, key, commitments, chunks[j]) {
      MixMatches(g, key, commitments, n, chunks, alphas);
    } else if Matches(g, key, commitments, Mix(g.f, n, |key|, chunks, alphas)) {
      var left := seq(k, i requires 0 <= i < k => Lin(g, chunks[i].w, key, |key|));
      var right := seq(k, i requires 0 <= i < k => Lin(g, chunks[i].b, commitments, n));
      LinOfLin(g, alphas, Payloads(chunks), key, left, k);
      LinOfLin(g, alphas, Coefficients(chunks), commitments, right, k);
      forall i | 0 <= i < k ensures g.Has(left[i]) && g.Has(right[i]) {
        LinIn(g, chunks[i].w, key, |key|);
        LinIn(g, chunks[i].b, commitments, n);
      }
      LinDiffersAt(g, alphas, left, right, k, j);
    }
  }

  /** If every stored proof carries the same signed commitments and every stored chunk
      verifies, the cloned first proof verifies every re-encoding. */
  lemma MixVerifies<F(!new), G(!new), S>(g: Space<F, G>, signer: Signer<G, S>, key: seq<G>, n: nat,
      s: Store<F, PedersenProof<G, S>>, alphas: seq<F>)
    requires g.IsSpace() && AllIn(g, key) && s.chunks != [] && |alphas| == |s.chunks| == |s.proofs|
      && Sized(n, |key|, s.chunks)
    requires AllIn(g, s.proofs[0].commitments) && forall i :: 0 <= i < |s.proofs| ==>
      s.proofs[i].commitments == s.proofs[0].commitments
    requires forall i :: 0 <= i < |s.chunks| ==> Verify(g, signer, key, s.chunks[i], s.proofs[i]) == Pass
    ensures Verify(g, signer, key, Mix(g.f, n, |key|, s.chunks, alphas), Combine(s.proofs, alphas)) == Pass
  {
    var commitments := s.proofs[0].commitments;
    forall i | 0 <= i < |s.chunks| ensures Matches(g, key, commitments, s.chunks[i]) {
      assert Verify(g, signer, key, s.chunks[i], s.proofs[i]) == Pass;
    }
    assert |s.chunks[0].b| == |commitments|;
    MixMatches(g, key, commitments, n, s.chunks, alphas);
  }

  /** The packets of one signed block verify and are closed under mixing. */
  lemma PedersenMixSafe<F(!new), G(!new), S(!new)>(g: Space<F, G>, signer: Signer<G, S>, key: seq<G>,
      proof: PedersenProof<G, S>, n: nat)
    requires g.IsSpace() && AllIn(g, key) && AllIn(g, proof.commitments) && |proof.commitments| == n
    requires signer.verify(proof.commitments, proof.signature)
    ensures MixSafe(g.f, n, |key|, PedersenScheme(g, signer, key, proof),
      (c: CodedChunk<F>, p: PedersenProof<G, S>) => p == proof && Matches(g, key, proof.commitments, c))
  {
    var genuine := (c: CodedChunk<F>, p: PedersenProof<G, S>) => p == proof && Matches(g, key, proof.commitments, c);
    var scheme := PedersenScheme<F, G, S>(g, signer, key, proof);
    forall s: Store<F, PedersenProof<G, S>>, alphas: seq<F> | At2(s, alphas) && Stocked(n, |key|, genuine, s)
      && s.chunks != [] && |alphas| == |s.chunks|
      ensures genuine(Mix(g.f, n, |key|, s.chunks, alphas), scheme.combine(s.proofs, alphas))
    {
      forall i | 0 <= i < |s.chunks| ensures Matches(g, key, proof.commitments, s.chunks[i]) && s.proofs[i] == proof {
        assert genuine(s.chunks[i], s.proofs[i]);
      }
      MixMatches(g, key, proof.commitments, n, s.chunks, alphas);
    }
  }
}
