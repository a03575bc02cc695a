/** The BFKW protocol object driven by the node actor (crates/node/src/bfkw.rs). */
module BfkwNode {
  import opened Wrappers
  import opened StrategyCore
  import opened Algebra
  import opened Span
  import opened Echelon
  import opened Rank
  import opened Coding
  import opened Integrity
  import opened Bfkw
  import opened Wire
  import opened Blocks = Block
  import opened ActorModel
  import opened ActorProofs

  /** Long-lived parameters: groups, codecs, dimensions, the proposer's key, and the hash
      points of each block. */
  datatype Params<!F(!new), !G1(!new), !G2(!new), !GT(==, !new)> = Params(
    pg: Pairing<F, G1, G2, GT>, fc: ElementCodec<F>, gc: ElementCodec<G2>, lc: LengthCodec,
    n: nat, m: nat, proposerPk: G1, points: nat -> seq<G2>)
  {
    function Field(): Field<F> { pg.g2.f }

    function Codec(): ProofCodec<G2> { BfkwProofCodec(gc) }

    ghost predicate IsParams() {
      && pg.IsPairing() && n > 0 && m > 0 && fc.zero == Field().zero && gc.zero == pg.g2.zero
      && forall k: nat {:trigger points(k)} :: |points(k)| == m + n
    }
  }

  /** Per-block state. */
  datatype State<F, G1, G2> = State(store: Store<F, G2>, ctx: Option<Context<G1, G2>>, byteLen: nat)

  function Fresh<F, G1, G2>(): State<F, G1, G2> { State(Store([], []), None, 0) }

  ghost function Taken<F(!new), G1(!new), G2(!new), GT(!new)>(ps: Params<F, G1, G2, GT>, ctx: Context<G1, G2>,
      store: Store<F, G2>, pkt: SignedPacket<F, G2>): (Receipt<string>, Store<F, G2>)
  {
    var scheme := BfkwScheme(ps.pg, ctx);
    var receipt := match ReceiptOf(ps.Field(), ps.n, scheme, store, pkt)
      case Useful => Useful
      case Redundant => Redundant
      case Rejected(_) => Rejected("BFKW pairing check failed");
    (receipt, Receive(ps.Field(), ps.n, scheme, store, pkt))
  }

  ghost function Absorb<F(!new), G1(!new), G2(!new), GT(!new)>(ps: Params<F, G1, G2, GT>, s: State<F, G1, G2>,
      channel: Channel, block: nat, data: seq<byte>): (Receipt<string>, State<F, G1, G2>)
  {
    match channel
    case Announce =>
      if |data| < 8 then (Rejected("announcement too short"), s)
      else (Useful, s.(byteLen := FromBE(data[..8]), ctx := Some(Context(ps.points(block), ps.proposerPk))))
    case Data =>
      if s.ctx.None? then (Rejected("data received before announcement"), s) else
        match Deserialize(ps.fc, ps.Codec(), ps.n, ps.m, data)
        case Failure(e) => (Rejected(e), s)
        case Success(pkt) =>
          var (receipt, store) := Taken(ps, s.ctx.value, s.store, pkt);
          (receipt, s.(store := store))
  }

  /** What decoding gives: the block rebuilt from chunks that explain the store. On a complete
      store there is exactly one such list. A failure is a panic. */
  ghost function Decoded<F(!new), G1(!new), G2(!new), GT(!new)>(ps: Params<F, G1, G2, GT>,
      s: State<F, G1, G2>): Result<Block, string>
  {
    if vs :| Solves(ps.Field(), ps.n, ps.m, vs, s.store.chunks) then FromChunks(ps.fc, ps.lc, vs, s.byteLen)
    else Failure("no solution")
  }

  lemma DecodedFrom<F(!new), G1(!new), G2(!new), GT(!new)>(ps: Params<F, G1, G2, GT>, s: State<F, G1, G2>,
      vs: seq<seq<F>>)
    requires ps.IsParams() && StoreOk(ps.Field(), ps.n, ps.m, s.store) && |s.store.chunks| == ps.n
    requires Solves(ps.Field(), ps.n, ps.m, vs, s.store.chunks)
    ensures Decoded(ps, s) == FromChunks(ps.fc, ps.lc, vs, s.byteLen)
  {
    forall us | Solves(ps.Field(), ps.n, ps.m, us, s.store.chunks) ensures us == vs {
      SolutionUnique(ps.Field(), ps.n, ps.m, us, vs, s.store.chunks);
    }
  }

  // ---------- the actor's contract ----------

  ghost function Behaviour<F(!new), G1(!new), G2(!new), GT(!new)>(ps: Params<F, G1, G2, GT>)
      : Protocol<State<F, G1, G2>, seq<byte>, string, Block>
  {
    Protocol(UntilDecode,
             (s: State<F, G1, G2>, channel: Channel, block: nat, data: seq<byte>) =>
               Absorb(ps, s, channel, block, data),
             (s: State<F, G1, G2>) => |s.store.chunks| == ps.n,
             (s: State<F, G1, G2>) => Decoded(ps, s),
             (s: State<F, G1, G2>) => Fresh())
  }

  /** One proof per stored chunk, everything of the right size, independent coefficients. */
  ghost predicate StoreOk<F(!new), G2>(f: Field<F>, n: nat, m: nat, s: Store<F, G2>) {
    |s.proofs| == |s.chunks| && Sized(n, m, s.chunks) && HasForm(f, n, s.chunks)
  }

  ghost function BehaviourGauge<F(!new), G1(!new), G2(!new), GT(!new)>(ps: Params<F, G1, G2, GT>)
      : Gauge<State<F, G1, G2>>
  {
    Gauge(ps.n, (s: State<F, G1, G2>) => |s.store.chunks|,
      (s: State<F, G1, G2>) => StoreOk(ps.Field(), ps.n, ps.m, s.store),
          (s: State<F, G1, G2>) => s.ctx.Some?)
  }

  lemma FreshOk<F(!new), G2>(f: Field<F>, n: nat, m: nat)
    requires f.IsField()
    ensures StoreOk<F, G2>(f, n, m, Store([], []))
  {
    EmptyRepresents(f, n);
    assert Represents(f, n, Empty(), Coefficients<F>([]));
  }

  lemma DeserializedSize<F(!new), P(!new)>(fc: ElementCodec<F>, pc: ProofCodec<P>, n: nat, m: nat, data: seq<byte>)
    requires Deserialize(fc, pc, n, m, data).Success?
    ensures var c := Deserialize(fc, pc, n, m, data).value.chunk; |c.b| == n && |c.w| == m
  {
  }

  lemma ReceiveOk<F(!new), P, E>(f: Field<F>, n: nat, m: nat, scheme: Scheme<F, P, E>, s: Store<F, P>,
      pkt: SignedPacket<F, P>)
    requires f.IsField() && StoreOk(f, n, m, s) && |pkt.chunk.b| == n && |pkt.chunk.w| == m
    ensures StoreOk(f, n, m, Receive(f, n, scheme, s, pkt))
    ensures var useful := ReceiptOf(f, n, scheme, s, pkt) == Useful;
      |Receive(f, n, scheme, s, pkt).chunks| == |s.chunks| + if useful then 1 else 0
  {
    KeepChunkForm(f, n, s.chunks, pkt.chunk);
  }

  lemma StoreBound<F(!new), P>(f: Field<F>, n: nat, m: nat, s: Store<F, P>)
    requires StoreOk(f, n, m, s)
    ensures |s.chunks| <= n
  {
  }

  /** The BFKW protocol discharges what the actor relies on, so every actor run over it
      decodes block after block from exactly `n` useful packets each. */
  lemma BfkwConforms<F(!new), G1(!new), G2(!new), GT(!new)>(ps: Params<F, G1, G2, GT>)
    requires ps.IsParams()
    ensures Conforms(Behaviour(ps), BehaviourGauge(ps))
    ensures BehaviourGauge(ps).ok(Fresh()) && BehaviourGauge(ps).rank(Fresh()) == 0
  {
    var p, g, f := Behaviour(ps), BehaviourGauge(ps), ps.Field();
    FreshOk<F, G2>(f, ps.n, ps.m);
    forall s, n: nat, d | Ask(s, n, d) && g.ok(s) && g.armed(s) && g.rank(s) < g.bound
      ensures var (receipt, s') := p.ingest(s, Data, n, d);
        g.ok(s') && g.armed(s') && g.rank(s') == g.rank(s) + if receipt == Useful then 1 else 0
    {
      var parsed := Deserialize(ps.fc, ps.Codec(), ps.n, ps.m, d);
      if parsed.Success? {
        DeserializedSize(ps.fc, ps.Codec(), ps.n, ps.m, d);
        ReceiveOk(f, ps.n, ps.m, BfkwScheme(ps.pg, s.ctx.value), s.store, parsed.value);
      }
    }
    forall s | g.ok(s) ensures g.rank(s) <= g.bound {
      StoreBound(f, ps.n, ps.m, s.store);
    }
  }

  // ---------- the proposer ----------

  /** The proposer's own store: original chunk `i` with unit coefficients `i`. */
  function Originals<F(!new)>(f: Field<F>, vs: seq<seq<F>>, k: nat): seq<CodedChunk<F>>
    requires k <= |vs|
  {
    seq(k, i requires 0 <= i < k => CodedChunk(vs[i], Basis(f, |vs|, i)))
  }

  /** Unit vectors are independent, so every original chunk is kept. */
  lemma OriginalKept<F(!new)>(f: Field<F>, vs: seq<seq<F>>, i: nat)
    requires f.IsField() && i < |vs|
    ensures KeepChunk(f, |vs|, Originals(f, vs, i), Originals(f, vs, |vs|)[i]) == Originals(f, vs, i + 1)
  {
    var n, bs := |vs|, Coefficients(Originals(f, vs, i));
    if InSpan(Vec(f, n), bs, Basis(f, n, i)) {
      var cs: seq<F> :| |cs| == |bs| && Lin(Vec(f, n), cs, bs, |bs|) == Basis(f, n, i);
      CoordZero(f, n, cs, bs, |bs|, i);
      assert false;
    }
    assert Originals(f, vs, i) + [Originals(f, vs, |vs|)[i]] == Originals(f, vs, i + 1);
  }

  /** A re-encoded packet; re-encoding consults no context. */
  function Remixed<F(!new), G1(!new), G2(!new), GT(!new)>(ps: Params<F, G1, G2, GT>, store: Store<F, G2>,
      alphas: seq<F>): SignedPacket<F, G2>
    requires |alphas| == |store.chunks|
  {
    SignedPacket(Mix(ps.Field(), ps.n, ps.m, store.chunks, alphas), Combine(ps.pg.g2, store.proofs, alphas))
  }

  /** What the proposer holds after proposing: every original chunk and its signature. */
  function ProposerStore<F(!new), G2(!new)>(g: Space<F, G2>, sk: F, points: seq<G2>, m: nat,
      vs: seq<seq<F>>): Store<F, G2>
    requires |points| == m + |vs| && AllIn(Vec(g.f, m), vs)
  {
    Store(Originals(g.f, vs, |vs|), seq(|vs|, i requires 0 <= i < |vs| => Sign(g, sk, points, |vs|, i, vs[i])))
  }

  /** The bytes sent for coefficients `b`. */
  function Proposed<F(!new), G1(!new), G2(!new), GT(!new)>(ps: Params<F, G1, G2, GT>, sk: F, block: nat,
      vs: seq<seq<F>>, b: seq<F>): seq<byte>
    requires |b| == |vs| && |ps.points(block)| == ps.m + |vs| && AllIn(Vec(ps.Field(), ps.m), vs)
  {
    Serialize(ps.fc, ps.Codec(), SignedPacket(Encode(ps.Field(), ps.m, vs, b),
      SignCoded(ps.pg.g2, sk, ps.points(block), ps.m, vs, b)))
  }

  /** Everything the proposer holds carries its signature, so what it forwards verifies, and
      its own chunks decode to the block. */
  lemma ProposerSigned<F(!new), G2(!new)>(g: Space<F, G2>, sk: F, points: seq<G2>, m: nat, vs: seq<seq<F>>)
    requires g.IsSpace() && |points| == m + |vs| && AllIn(Vec(g.f, m), vs)
    ensures Stocked(|vs|, m, (c: CodedChunk<F>, p: G2) => Signed(g, sk, points, c, p),
      ProposerStore(g, sk, points, m, vs))
    ensures forall us :: Solves(g.f, |vs|, m, us, ProposerStore(g, sk, points, m, vs).chunks) <==> us == vs
  {
    var n, chunks := |vs|, Originals(g.f, vs, |vs|);
    forall us: seq<seq<F>>, i | |us| == n && AllIn(Vec(g.f, m), us) && 0 <= i < n
      ensures Lin(Vec(g.f, m), chunks[i].b, us, n) == us[i]
    {
      VecIsSpace(g.f, m);
      LinOnly(Vec(g.f, m), chunks[i].b, us, n, i);
      Vec(g.f, m).Unit(us[i]);
    }
    forall us | Solves(g.f, n, m, us, chunks) ensures us == vs {
      forall i | 0 <= i < n ensures us[i] == vs[i] { assert Explains(g.f, m, us, chunks[i]); }
    }
  }

  lemma ProposedVerifies<F(!new), G1(!new), G2(!new), GT(!new)>(pg: Pairing<F, G1, G2, GT>, ctx: Context<G1, G2>,
      sk: F, m: nat, vs: seq<seq<F>>, b: seq<F>)
    requires pg.IsPairing() && ctx.publicKey == pg.g1.Scale(sk, pg.gen) && |ctx.hashPoints| == m + |vs|
    requires |b| == |vs| && AllIn(Vec(pg.g2.f, m), vs)
    ensures var c := Encode(pg.g2.f, m, vs, b);
      |c.w| == m && Verify(pg, ctx, c, SignCoded(pg.g2, sk, ctx.hashPoints, m, vs, b)) == Pass
  {
    VecIsSpace(pg.g2.f, m);
    LinIn(Vec(pg.g2.f, m), b, vs, |vs|);
    SignCodedSigned(pg.g2, sk, ctx.hashPoints, m, vs, b);
    VerifyIff(pg, ctx, sk, Encode(pg.g2.f, m, vs, b), SignCoded(pg.g2, sk, ctx.hashPoints, m, vs, b));
  }

  /** What a reader makes of a packet: itself, or an error when the signature is the identity. */
  lemma Arrives<F(!new), G(!new)>(fc: ElementCodec<F>, gc: ElementCodec<G>, pkt: SignedPacket<F, G>)
    requires fc.IsCodec() && fc.ZeroIsZeros() && gc.IsCodec() && pkt.chunk.w != []
    ensures var r := Deserialize(fc, BfkwProofCodec(gc), |pkt.chunk.b|, |pkt.chunk.w|,
      Serialize(fc, BfkwProofCodec(gc), pkt));
      if pkt.proof == gc.zero then r.Failure? else r == Success(pkt)
  {
    BfkwPacketRoundTrip(fc, gc, pkt);
  }

  /** The proposer's bytes do their job at any receiver that heard the announcement: they
      are read back as sent, verify, and are kept exactly when their coefficients are news.
      The one exception is a digest that the key takes to the identity, whose signature no
      reader accepts. */
  lemma ProposedAbsorbed<F(!new), G1(!new), G2(!new), GT(!new)>(ps: Params<F, G1, G2, GT>, sk: F, block: nat,
      vs: seq<seq<F>>, b: seq<F>, s: State<F, G1, G2>)
    requires ps.IsParams() && ps.fc.IsCodec() && ps.fc.ZeroIsZeros() && ps.gc.IsCodec()
    requires ps.proposerPk == ps.pg.g1.Scale(sk, ps.pg.gen) && s.ctx == Some(Context(ps.points(block), ps.proposerPk))
    requires |b| == |vs| == ps.n && AllIn(Vec(ps.Field(), ps.m), vs)
    ensures |Encode(ps.Field(), ps.m, vs, b).w| == ps.m
    ensures var c, f := Encode(ps.Field(), ps.m, vs, b), ps.Field();
      var (receipt, s') := Absorb(ps, s, Data, block, Proposed(ps, sk, block, vs, b));
      if ps.pg.g2.Scale(sk, Digest(ps.pg.g2, ps.points(block), c.w, b)) == ps.pg.g2.zero then receipt.Rejected?
        && s' == s else
        && !receipt.Rejected? && (receipt == Useful <==> !InSpan(Vec(f, ps.n), Coefficients(s.store.chunks), b))
        && s'.store.chunks == KeepChunk(f, ps.n, s.store.chunks, c)
  {
    var pkt := SignedPacket(Encode(ps.Field(), ps.m, vs, b), SignCoded(ps.pg.g2, sk, ps.points(block), ps.m, vs, b));
    ProposedVerifies(ps.pg, s.ctx.value, sk, ps.m, vs, b);
    SignCodedSigned(ps.pg.g2, sk, ps.points(block), ps.m, vs, b);
    Arrives(ps.fc, ps.gc, pkt);
  }

  /** Any bytes at all that reach a node on the data channel. Before the announcement, and when
      they do not parse, they are rejected; a packet is rejected unless its signature is exactly
      `sk·MSM(H, [w ‖ b])`; a signed one is redundant exactly when its coefficients are
      spanned. Only a useful packet changes the state: its chunk and its signature are kept. */
  lemma DataJudgedBySignature<F(!new), G1(!new), G2(!new), GT(!new)>(ps: Params<F, G1, G2, GT>, sk: F, block: nat,
      s: State<F, G1, G2>, data: seq<byte>)
    requires ps.IsParams() && ps.proposerPk == ps.pg.g1.Scale(sk, ps.pg.gen)
      && (s.ctx.Some? ==> s.ctx.value == Context(ps.points(block), ps.proposerPk))
    ensures s.ctx.None? ==> Absorb(ps, s, Data, block, data) == (Rejected("data received before announcement"), s)
    ensures s.ctx.Some? ==>
      var (receipt, s') := Absorb(ps, s, Data, block, data);
      match Deserialize(ps.fc, ps.Codec(), ps.n, ps.m, data)
      case Failure(e) => receipt == Rejected(e) && s' == s
      case Success(pkt) =>
        var c, g := pkt.chunk, ps.pg.g2;
        && |c.w + c.b| == |ps.points(block)|
        && (receipt == Rejected("BFKW pairing check failed") <==>
              pkt.proof != g.Scale(sk, Lin(g, c.w + c.b, ps.points(block), |c.w + c.b|)))
        && (receipt.Rejected? ==> receipt == Rejected("BFKW pairing check failed"))
        && (receipt == Redundant ==> InSpan(Vec(ps.Field(), ps.n), Coefficients(s.store.chunks), c.b))
        && (receipt == Useful ==> !InSpan(Vec(ps.Field(), ps.n), Coefficients(s.store.chunks), c.b))
        && s' == if receipt == Useful then s.(store := Store(s.store.chunks + [c], s.store.proofs + [pkt.proof])) else s
  {
    var parsed := Deserialize(ps.fc, ps.Codec(), ps.n, ps.m, data);
    if s.ctx.Some? && parsed.Success? {
      DeserializedSize(ps.fc, ps.Codec(), ps.n, ps.m, data);
      VerifyIff(ps.pg, s.ctx.value, sk, parsed.value.chunk, parsed.value.proof);
    }
  }

  method ProposedPackets<F(!new), G1(!new), G2(!new), GT(!new)>(ps: Params<F, G1, G2, GT>, sk: F, block: nat,
      vs: seq<seq<F>>, draws: seq<seq<F>>) returns (packets: seq<seq<byte>>)
    requires |ps.points(block)| == ps.m + |vs| && AllIn(Vec(ps.Field(), ps.m), vs)
    requires forall i :: 0 <= i < |draws| ==> |draws[i]| == |vs|
    ensures |packets| == |draws| && forall i :: 0 <= i < |draws| ==>
      packets[i] == Proposed(ps, sk, block, vs, draws[i])
  {
    packets := [];
    for k := 0 to |draws|
      invariant |packets| == k && forall i :: 0 <= i < k ==> packets[i] == Proposed(ps, sk, block, vs, draws[i])
    {
      var sigma := SignCoded(ps.pg.g2, sk, ps.points(block), ps.m, vs, draws[k]);
      var bytes := SerializePacket(ps.fc, ps.Codec(), SignedPacket(Encode(ps.Field(), ps.m, vs, draws[k]), sigma));
      packets := packets + [bytes];
    }
  }

  method SerializeAll<F(!new), P(!new)>(fc: ElementCodec<F>, pc: ProofCodec<P>, coded: seq<SignedPacket<F, P>>)
      returns (packets: seq<seq<byte>>)
    ensures |packets| == |coded| && forall i :: 0 <= i < |coded| ==> packets[i] == Serialize(fc, pc, coded[i])
  {
    packets := [];
    for k := 0 to |coded|
      invariant |packets| == k && forall i :: 0 <= i < k ==> packets[i] == Serialize(fc, pc, coded[i])
    {
      var bytes := SerializePacket(fc, pc, coded[k]);
      packets := packets + [bytes];
    }
  }

  /** Adds original chunk `i` to a decoder holding those before it. */
  method KeepOriginal<F(!new, ==)>(decoder: BlockDecoder<F>, vs: seq<seq<F>>, i: nat)
    requires decoder.Valid() && decoder.n == |vs| && i < |vs|
      && decoder.codedChunks == Originals(decoder.field, vs, i)
    modifies decoder, decoder.echelon
    ensures decoder.Valid() && decoder.codedChunks == Originals(decoder.field, vs, i + 1)
  {
    OriginalKept(decoder.field, vs, i);
    var added := decoder.Add(CodedChunk(vs[i], Basis(decoder.field, |vs|, i)));
  }

  /** Fills a decoder with the original chunks; none of them is refused. */
  method LoadOriginals<F(!new, ==), G2(!new)>(g: Space<F, G2>, sk: F, points: seq<G2>, m: nat, vs: seq<seq<F>>)
      returns (decoder: BlockDecoder<F>, proofs: seq<G2>)
    requires g.f.IsField() && |points| == m + |vs| && AllIn(Vec(g.f, m), vs)
    ensures decoder.Valid() && fresh(decoder) && fresh(decoder.echelon) && decoder.n == |vs| && decoder.field == g.f
    ensures Store(decoder.codedChunks, proofs) == ProposerStore(g, sk, points, m, vs)
  {
    var n := |vs|;
    ghost var store := ProposerStore(g, sk, points, m, vs);
    decoder := new BlockDecoder(g.f, n);
    proofs := [];
    for i := 0 to n
      invariant decoder.Valid() && decoder.field == g.f && decoder.n == n && fresh(decoder) && fresh(decoder.echelon)
      invariant decoder.codedChunks == Originals(g.f, vs, i)
      invariant proofs == store.proofs[..i]
    {
      KeepOriginal(decoder, vs, i);
      proofs := proofs + [Sign(g, sk, points, n, i, vs[i])];
    }
  }

  // ---------- the object ----------

  class BfkwProtocol<F(!new, ==), G1(!new), G2(!new, ==), GT(==, !new)> {
    const ps: Params<F, G1, G2, GT>
    var decoder: BlockDecoder<F>
    var proofs: seq<G2>
    var ctx: Option<Context<G1, G2>>
    var byteLen: nat

    ghost predicate Valid()
      reads this, decoder, decoder.echelon
    {
      && ps.IsParams() && decoder.Valid() && decoder.n == ps.n && decoder.field == ps.Field()
      && |proofs| == |decoder.codedChunks| && Sized(ps.n, ps.m, decoder.codedChunks)
    }

    ghost function View(): State<F, G1, G2>
      reads this, decoder
    {
      State(Store(decoder.codedChunks, proofs), ctx, byteLen)
    }

    constructor (ps: Params<F, G1, G2, GT>)
      requires ps.IsParams()
      ensures Valid() && fresh(decoder) && fresh(decoder.echelon) && this.ps == ps && View() == Fresh()
    {
      this.ps, proofs, ctx, byteLen := ps, [], None, 0;
      decoder := new BlockDecoder(ps.Field(), ps.n);
    }

    method Ingest(channel: Channel, block: nat, data: seq<byte>) returns (receipt: Receipt<string>)
      requires Valid()
      modifies this, decoder, decoder.echelon
      ensures Valid() && decoder == old(decoder)
      ensures (receipt, View()) == Absorb(ps, old(View()), channel, block, data)
    {
      match channel {
        case Announce =>
          if |data| < 8 {
            return Rejected("announcement too short");
          }
          byteLen := FromBE(data[..8]);
          ctx := Some(Context(ps.points(block), ps.proposerPk));
          return Useful;
        case Data =>
          if ctx.None? {
            return Rejected("data received before announcement");
          }
          var parsed := DeserializePacket(ps.fc, ps.Codec(), ps.n, ps.m, data);
          if parsed.Failure? {
            return Rejected(parsed.error);
          }
          DeserializedSize(ps.fc, ps.Codec(), ps.n, ps.m, data);
          receipt := TakePacket(ctx.value, parsed.value);
      }
    }

    method TakePacket(context: Context<G1, G2>, pkt: SignedPacket<F, G2>) returns (receipt: Receipt<string>)
      requires Valid() && ctx == Some(context) && |pkt.chunk.b| == ps.n && |pkt.chunk.w| == ps.m
      modifies this`proofs, decoder, decoder.echelon
      ensures Valid() && decoder == old(decoder) && ctx == old(ctx) && byteLen == old(byteLen)
      ensures (receipt, View().store) == Taken(ps, context, old(View().store), pkt)
    {
      var result, kept := CodedReceive(decoder, proofs, BfkwScheme(ps.pg, context), pkt);
      proofs := kept;
      match result {
        case Useful => receipt := Useful;
        case Redundant => receipt := Redundant;
        case Rejected(_) => receipt := Rejected("BFKW pairing check failed");
      }
    }

    predicate IsComplete()
      requires Valid()
      reads this, decoder, decoder.echelon
      ensures IsComplete() <==> |View().store.chunks| == ps.n
    {
      decoder.IsComplete()
    }

    /** One serialized re-encoding per target, each with its own mixing coefficients. */
    method Recode(draws: seq<seq<F>>) returns (packets: seq<seq<byte>>)
      requires Valid() && decoder.codedChunks != []
      requires forall i :: 0 <= i < |draws| ==> |draws[i]| == |decoder.codedChunks|
      ensures |packets| == |draws|
      ensures forall i :: 0 <= i < |draws| ==>
        packets[i] == Serialize(ps.fc, ps.Codec(), Remixed(ps, View().store, draws[i]))
    {
      var coded := CodedForward(decoder, proofs, BfkwScheme(ps.pg, Context([], ps.proposerPk)), ps.m, draws);
      packets := SerializeAll(ps.fc, ps.Codec(), coded);
    }

    /** Decodes the chunks, of which there is only one solution, and rebuilds the block. */
    method Decode() returns (r: Result<Block, string>)
      requires Valid() && IsComplete()
      ensures r == Decoded(ps, View())
      ensures exists vs ::
        Solves(ps.Field(), ps.n, ps.m, vs, View().store.chunks) && r == FromChunks(ps.fc, ps.lc, vs, byteLen)
    {
      var vs := decoder.Decode(ps.m);
      assert Solves(ps.Field(), ps.n, ps.m, vs, View().store.chunks);
      r := FromChunks(ps.fc, ps.lc, vs, byteLen);
    }

    method Reset()
      requires Valid()
      modifies this, decoder, decoder.echelon
      ensures Valid() && decoder == old(decoder) && View() == Fresh()
    {
      decoder.Reset();
      proofs, ctx, byteLen := [], None, 0;
    }

    /** Proposes a block with secret key `sk`: announces its length, signs one coded chunk
        per target, and leaves the proposer holding all original chunks. */
    method Propose(sk: F, block: Block, draws: seq<seq<F>>) returns (announcement: seq<byte>, packets: seq<seq<byte>>)
      requires Valid() && AsChunks(ps.fc, ps.lc, block, ps.n, ps.m).Success?
      requires forall i :: 0 <= i < |draws| ==> |draws[i]| == ps.n
      modifies this
      ensures Valid() && fresh(decoder) && fresh(decoder.echelon)
      ensures var (vs, len) := AsChunks(ps.fc, ps.lc, block, ps.n, ps.m).value;
        && View() == State(ProposerStore(ps.pg.g2, sk, ps.points(block.number), ps.m, vs),
          Some(Context(ps.points(block.number), ps.pg.g1.Scale(sk, ps.pg.gen))), len)
        && announcement == ToBE(len, 8) && |packets| == |draws|
        && forall i :: 0 <= i < |draws| ==> packets[i] == Proposed(ps, sk, block.number, vs, draws[i])
    {
      var (vs, len) := AsChunks(ps.fc, ps.lc, block, ps.n, ps.m).value;
      packets := ProposedPackets(ps, sk, block.number, vs, draws);
      var points := ps.points(block.number);
      decoder, proofs := LoadOriginals(ps.pg.g2, sk, points, ps.m, vs);
      ctx, byteLen := Some(Context(points, ps.pg.g1.Scale(sk, ps.pg.gen))), len;
      announcement := ToBE(len, 8);
    }
  }
}
