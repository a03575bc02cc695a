/** Coded chunks and the block decoder (crates/primitives/types/src/coding.rs). */
module Coding {
  import opened Algebra
  import opened Linalg
  import opened Span
  import opened Echelon
  import opened Rank
  import opened EchelonTracker

  datatype CodedChunk<F> = CodedChunk(w: seq<F>, b: seq<F>)

  function Coefficients<F>(chunks: seq<CodedChunk<F>>): (bs: seq<seq<F>>)
    ensures |bs| == |chunks| && forall i :: 0 <= i < |bs| ==> bs[i] == chunks[i].b
  {
    seq(|chunks|, i requires 0 <= i < |chunks| => chunks[i].b)
  }

  function Payloads<F>(chunks: seq<CodedChunk<F>>): (ws: seq<seq<F>>)
    ensures |ws| == |chunks| && forall i :: 0 <= i < |ws| ==> ws[i] == chunks[i].w
  {
    seq(|chunks|, i requires 0 <= i < |chunks| => chunks[i].w)
  }

  /** `n` coefficients and `m` data elements each. */
  predicate Sized<F>(n: nat, m: nat, chunks: seq<CodedChunk<F>>) {
    forall i :: 0 <= i < |chunks| ==> |chunks[i].b| == n && |chunks[i].w| == m
  }

  // ---------- encoding, mixing, keeping, decoding ----------

  /** The chunk `w = Σ b_i·v_i` that the proposer sends. */
  function Encode<F(!new)>(f: Field<F>, m: nat, vs: seq<seq<F>>, b: seq<F>): CodedChunk<F>
    requires |b| == |vs|
  {
    CodedChunk(Lin(Vec(f, m), b, vs, |vs|), b)
  }

  /** `vs` explains the chunk: it is what encoding `vs` with the chunk's coefficients gives. */
  ghost predicate Explains<F(!new)>(f: Field<F>, m: nat, vs: seq<seq<F>>, c: CodedChunk<F>) {
    |c.b| == |vs| && c == Encode(f, m, vs, c.b)
  }

  /** `vs` has `n` chunks of `m` elements and explains every collected chunk: `B·V == W`. */
  ghost predicate Solves<F(!new)>(f: Field<F>, n: nat, m: nat, vs: seq<seq<F>>, chunks: seq<CodedChunk<F>>) {
    |vs| == n && AllIn(Vec(f, m), vs) && forall k :: 0 <= k < |chunks| ==> Explains(f, m, vs, chunks[k])
  }

  /** Re-encoding: the same combination of data and of coefficients. */
  function Mix<F(!new)>(f: Field<F>, n: nat, m: nat, chunks: seq<CodedChunk<F>>, alphas: seq<F>): CodedChunk<F>
    requires |alphas| == |chunks|
  {
    CodedChunk(Lin(Vec(f, m), alphas, Payloads(chunks), |chunks|),
      Lin(Vec(f, n), alphas, Coefficients(chunks), |chunks|))
  }

  /** The decoder keeps a chunk exactly when its coefficients are new information. */
  ghost function KeepChunk<F(!new)>(f: Field<F>, n: nat, chunks: seq<CodedChunk<F>>,
      c: CodedChunk<F>): seq<CodedChunk<F>>
  {
    if InSpan(Vec(f, n), Coefficients(chunks), c.b) then chunks else chunks + [c]
  }

  /** Some echelon form represents the kept coefficients. */
  ghost predicate HasForm<F(!new)>(f: Field<F>, n: nat, chunks: seq<CodedChunk<F>>) {
    exists e: Matrix<F> :: Represents(f, n, e, Coefficients(chunks))
  }

  lemma KeepChunkForm<F(!new)>(f: Field<F>, n: nat, chunks: seq<CodedChunk<F>>, c: CodedChunk<F>)
    requires f.IsField() && HasForm(f, n, chunks) && |c.b| == n
    ensures HasForm(f, n, KeepChunk(f, n, chunks, c)) && |KeepChunk(f, n, chunks, c)| <= n
  {
    var e: Matrix<F> :| Represents(f, n, e, Coefficients(chunks));
    OfferKeeps(f, n, e, Coefficients(chunks), c.b);
    assert Coefficients(KeepChunk(f, n, chunks, c)) == Keep(Vec(f, n), Coefficients(chunks), c.b);
  }

  /** With `n` chunks kept, every coefficient vector is spanned. */
  lemma CompleteSpansAll<F(!new)>(f: Field<F>, n: nat, chunks: seq<CodedChunk<F>>, b: seq<F>)
    requires f.IsField() && HasForm(f, n, chunks) && |chunks| == n == |b|
    ensures InSpan(Vec(f, n), Coefficients(chunks), b)
  {
    var e: Matrix<F> :| Represents(f, n, e, Coefficients(chunks));
    Parts(f, n, e, Coefficients(chunks));
    FullRankReduces(f, n, e, b);
    InsertDecides(f, n, e, Coefficients(chunks), b);
  }

  lemma KeptCoefficients<F(!new)>(f: Field<F>, n: nat, chunks: seq<CodedChunk<F>>, c: CodedChunk<F>)
    ensures Coefficients(KeepChunk(f, n, chunks, c)) == Keep(Vec(f, n), Coefficients(chunks), c.b)
  {
  }

  /** Conversely, coefficients that span every unit vector number `n`. */
  lemma SpanningIsComplete<F(!new)>(f: Field<F>, n: nat, chunks: seq<CodedChunk<F>>)
    requires f.IsField() && HasForm(f, n, chunks)
    requires forall c :: 0 <= c < n ==> InSpan(Vec(f, n), Coefficients(chunks), Basis(f, n, c))
    ensures |chunks| == n
  {
    var e: Matrix<F> :| Represents(f, n, e, Coefficients(chunks));
    RowsSpanInputs(f, n, e, Coefficients(chunks));
    Parts(f, n, e, Coefficients(chunks));
    SpanningIsFull(f, n, e);
  }

  /** What is kept of a box of coefficient vectors is complete exactly when the box spans. */
  lemma CompleteIffBoxSpans<F(!new)>(f: Field<F>, n: nat, chunks: seq<CodedChunk<F>>, box: seq<seq<F>>)
    requires f.IsField() && HasForm(f, n, chunks) && AllIn(Vec(f, n), box)
    requires Coefficients(chunks) == KeepAll(Vec(f, n), box, |box|)
    ensures |chunks| == n <==> forall c :: 0 <= c < n ==> InSpan(Vec(f, n), box, Basis(f, n, c))
  {
    var s := Vec(f, n);
    VecIsSpace(f, n);
    KeepAllSpans(s, box, |box|);
    assert box[..|box|] == box;
    SubsetWithin(s, Coefficients(chunks), box);
    if |chunks| == n {
      forall c | 0 <= c < n ensures InSpan(s, box, Basis(f, n, c)) {
        CompleteSpansAll(f, n, chunks, Basis(f, n, c));
        SpanTrans(s, Coefficients(chunks), box, Basis(f, n, c));
      }
    }
    if forall c :: 0 <= c < n ==> InSpan(s, box, Basis(f, n, c)) {
      forall c | 0 <= c < n ensures InSpan(s, Coefficients(chunks), Basis(f, n, c)) {
        SpanTrans(s, box, Coefficients(chunks), Basis(f, n, c));
      }
      SpanningIsComplete(f, n, chunks);
    }
  }

  /** `n` kept chunks leave exactly one explanation. */
  lemma SolutionUnique<F(!new)>(f: Field<F>, n: nat, m: nat, us: seq<seq<F>>, vs: seq<seq<F>>,
      chunks: seq<CodedChunk<F>>)
    requires f.IsField() && HasForm(f, n, chunks) && |chunks| == n && Sized(n, m, chunks)
    requires Solves(f, n, m, us, chunks) && Solves(f, n, m, vs, chunks)
    ensures us == vs
  {
    forall i | 0 <= i < n ensures us[i] == vs[i] {
      CompleteSpansAll(f, n, chunks, Basis(f, n, i));
      var bs := Coefficients(chunks);
      var cs: seq<F> :| |cs| == |bs| && Lin(Vec(f, n), cs, bs, |bs|) == Basis(f, n, i);
      RecoverAt(f, n, m, us, chunks, cs, i);
      RecoverAt(f, n, m, vs, chunks, cs, i);
    }
  }

  /** Coefficients that combine the `b`s to a unit vector combine the `w`s to that chunk. */
  lemma RecoverAt<F(!new)>(f: Field<F>, n: nat, m: nat, vs: seq<seq<F>>, chunks: seq<CodedChunk<F>>, cs: seq<F>,
      i: nat)
    requires f.IsField() && Sized(n, m, chunks) && Solves(f, n, m, vs, chunks) && i < n && |cs| == |chunks|
    requires Lin(Vec(f, n), cs, Coefficients(chunks), |chunks|) == Basis(f, n, i)
    ensures Lin(Vec(f, m), cs, Payloads(chunks), |chunks|) == vs[i]
  {
    VecIsSpace(f, m);
    LinOfLin(Vec(f, m), cs, Coefficients(chunks), vs, Payloads(chunks), |chunks|);
    LinBasis(Vec(f, m), vs, i);
  }

  /** Mixing explained chunks gives an explained chunk, for any coefficients. */
  lemma MixExplained<F(!new)>(f: Field<F>, n: nat, m: nat, vs: seq<seq<F>>, chunks: seq<CodedChunk<F>>,
      alphas: seq<F>)
    requires f.IsField() && Sized(n, m, chunks) && Solves(f, n, m, vs, chunks) && |alphas| == |chunks|
    ensures Explains(f, m, vs, Mix(f, n, m, chunks, alphas))
    ensures |Mix(f, n, m, chunks, alphas).w| == m && |Mix(f, n, m, chunks, alphas).b| == n
  {
    VecIsSpace(f, m); VecIsSpace(f, n);
    LinOfLin(Vec(f, m), alphas, Coefficients(chunks), vs, Payloads(chunks), |chunks|);
    LinIn(Vec(f, m), alphas, Payloads(chunks), |chunks|);
  }

  /** A node's own re-encodings are never news to it. */
  lemma MixNotNew<F(!new)>(f: Field<F>, n: nat, m: nat, chunks: seq<CodedChunk<F>>, alphas: seq<F>)
    requires |alphas| == |chunks|
    ensures KeepChunk(f, n, chunks, Mix(f, n, m, chunks, alphas)) == chunks
  {
    assert Lin(Vec(f, n), alphas, Coefficients(chunks), |Coefficients(chunks)|) == Mix(f, n, m, chunks, alphas).b;
  }

  /** One linear combination of the collected data per row of the inverse. */
  method Recover<F(!new)>(f: Field<F>, m: nat, inv: seq<seq<F>>, ws: seq<seq<F>>) returns (vs: seq<seq<F>>)
    requires f.IsField() && |inv| == |ws| && forall i :: 0 <= i < |ws| ==> |inv[i]| == |ws| && |ws[i]| == m
    ensures |vs| == |inv|
    ensures forall k :: 0 <= k < |vs| ==> |vs[k]| == m && vs[k] == Lin(Vec(f, m), inv[k], ws, |ws|)
  {
    vs := [];
    for i := 0 to |inv|
      invariant |vs| == i
      invariant forall k :: 0 <= k < i ==> |vs[k]| == m && vs[k] == Lin(Vec(f, m), inv[k], ws, |ws|)
    {
      var recovered := LinearCombination(f, ws, inv[i]);
      vs := vs + [recovered];
    }
  }

  // ---------- the decoder object ----------

  class BlockDecoder<F(!new, ==)> {
    const field: Field<F>
    const n: nat
    var codedChunks: seq<CodedChunk<F>>
    const echelon: IncrementalEchelon<F>

    ghost predicate Valid()
      reads this, echelon
    {
      && echelon.Valid() && echelon.field == field && echelon.n == n
      && echelon.accepted == Coefficients(codedChunks)
    }

    constructor (field: Field<F>, n: nat)
      requires field.IsField()
      ensures Valid() && fresh(this) && fresh(echelon)
      ensures this.field == field && this.n == n && codedChunks == []
    {
      this.field, this.n, codedChunks := field, n, [];
      echelon := new IncrementalEchelon(field, n);
    }

    /** True exactly when the coefficients are independent of those collected. */
    method Add(coded: CodedChunk<F>) returns (added: bool)
      requires Valid() && |coded.b| == n
      modifies this, echelon
      ensures Valid()
      ensures added <==> !InSpan(Vec(field, n), old(Coefficients(codedChunks)), coded.b)
      ensures codedChunks == KeepChunk(field, n, old(codedChunks), coded)
      ensures echelon.View() == Offer(field, n, old(echelon.View()), coded.b)
    {
      if echelon.IsFull() {
        Form();
        CompleteSpansAll(field, n, codedChunks, coded.b);
        return false;
      }
      added := echelon.AddRow(coded.b);
      if added {
        codedChunks := codedChunks + [coded];
      }
    }

    function Rank(): (r: nat)
      requires Valid()
      reads this, echelon
      ensures r == |codedChunks| <= n
    {
      echelon.Rank()
    }

    predicate IsComplete()
      requires Valid()
      reads this, echelon
      ensures IsComplete() <==> |codedChunks| == n
    {
      echelon.IsFull()
    }

    lemma Form()
      requires Valid()
      ensures HasForm(field, n, codedChunks)
    {
      assert Represents(field, n, echelon.View(), Coefficients(codedChunks));
    }

    /** The `n` chunks that explain everything collected; there is exactly one such
        answer, so it is the proposer's. */
    method Decode(m: nat) returns (vs: seq<seq<F>>)
      requires Valid() && IsComplete() && m > 0 && Sized(n, m, codedChunks)
      ensures Solves(field, n, m, vs, codedChunks)
      ensures forall us :: Solves(field, n, m, us, codedChunks) ==> us == vs
    {
      var inv := echelon.Inverse();
      vs := Recover(field, m, inv, Payloads(codedChunks));
      InverseSolves(field, n, m, codedChunks, inv, vs);
      Form();
      forall us | Solves(field, n, m, us, codedChunks) ensures us == vs {
        SolutionUnique(field, n, m, us, vs, codedChunks);
      }
    }

    /** Re-encodes everything collected with the caller's mixing coefficients. */
    method ReencodeWith(alphas: seq<F>, m: nat) returns (c: CodedChunk<F>)
      requires Valid() && codedChunks != [] && |alphas| == |codedChunks| && Sized(n, m, codedChunks)
      ensures c == Mix(field, n, m, codedChunks, alphas)
    {
      var data, coeffs := Reencode(field, Payloads(codedChunks), Coefficients(codedChunks), alphas);
      c := CodedChunk(data, coeffs);
    }

    method Reset()
      requires Valid()
      modifies this, echelon
      ensures Valid() && codedChunks == []
    {
      codedChunks := [];
      echelon.Reset();
    }
  }

  /** `V = B⁻¹·W` satisfies `B·V == W`, which needs the inverse on the right. */
  lemma InverseSolves<F(!new)>(f: Field<F>, n: nat, m: nat, chunks: seq<CodedChunk<F>>, inv: seq<seq<F>>,
      vs: seq<seq<F>>)
    requires f.IsField() && Sized(n, m, chunks) && IsInverse(f, n, inv, Coefficients(chunks)) && |vs| == n
    requires forall i :: 0 <= i < n ==> |vs[i]| == m && vs[i] == Lin(Vec(f, m), inv[i], Payloads(chunks), n)
    ensures Solves(f, n, m, vs, chunks)
  {
    var s, ws := Vec(f, m), Payloads(chunks);
    VecIsSpace(f, m);
    forall k | 0 <= k < n ensures Explains(f, m, vs, chunks[k]) {
      LinOfLin(s, chunks[k].b, inv, ws, vs, n);
      LinBasis(s, ws, k);
    }
  }
}
