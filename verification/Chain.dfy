/** A chain of blocks through a BFKW node's actor, and through any network of such nodes
    (crates/node/src/actor.rs, crates/node/src/bfkw.rs). */
module Chain {
  import opened Wrappers
  import opened StrategyCore
  import opened Algebra
  import opened Coding
  import opened Integrity
  import opened Wire
  import opened Blocks = Block
  import opened ActorModel
  import opened ActorProofs
  import opened ActorSoundness
  import opened BfkwNode
  import Bfkw

  // ---------- the chain ----------

  /** Every block of the chain fits its chunks and carries its own number. */
  ghost predicate Fits<F(!new), G1(!new), G2(!new), GT(!new)>(ps: Params<F, G1, G2, GT>, chain: nat -> Block) {
    && ps.IsParams() && Packs(ps.fc) && ps.lc.IsPrefix()
    && forall k: nat {:trigger chain(k)} ::
        && chain(k).IsBlock() && |chain(k).transactions| <= MAX_TRANSACTIONS_BYTES
        && AsChunks(ps.fc, ps.lc, chain(k), ps.n, ps.m).Success?
        && (k < 0x1_0000_0000_0000_0000 ==> chain(k).number == k)
  }

  ghost function ChunksOf<F(!new), G1(!new), G2(!new), GT(!new)>(ps: Params<F, G1, G2, GT>, b: Block): seq<seq<F>> {
    var r := AsChunks(ps.fc, ps.lc, b, ps.n, ps.m);
    if r.Success? then r.value.0 else []
  }

  ghost function ContextOf<F(!new), G1(!new), G2(!new), GT(!new)>(ps: Params<F, G1, G2, GT>,
      k: nat): Bfkw.Context<G1, G2>
  {
    Bfkw.Context(ps.points(k), ps.proposerPk)
  }

  /** A length under which the chunks of block `k` give the block back. */
  ghost predicate InRange<F(!new), G1(!new), G2(!new), GT(!new)>(ps: Params<F, G1, G2, GT>, chain: nat -> Block,
      k: nat, len: nat)
  {
    |WriteBlock(ps.lc, chain(k))| <= len <= DATA_BYTES * (ps.n * ps.m)
  }

  /** The length an accepted announcement carries. */
  function Announced(d: seq<byte>): nat
    requires |d| >= 8
  {
    FromBE(d[..8])
  }

  /** BFKW's unforgeability: data that verifies for a block is a combination of the block's
      chunks. Data that does not parse or does not verify may be anything, and so may every
      announcement, since announcements are not signed. */
  ghost predicate Unforged<F(!new), G1(!new), G2(!new), GT(!new)>(ps: Params<F, G1, G2, GT>, chain: nat -> Block,
      m: Message<seq<byte>>)
  {
    match m.channel
    case Announce => true
    case Data =>
      match Deserialize(ps.fc, ps.Codec(), ps.n, ps.m, m.payload)
      case Failure(_) => true
      case Success(pkt) =>
        Bfkw.Verify(ps.pg, ContextOf(ps, m.block), pkt.chunk, pkt.proof) == Pass ==>
          Explains(ps.Field(), ps.m, ChunksOf(ps, chain(m.block)), pkt.chunk)
  }

  /** An announcement whose length serves its block. */
  ghost predicate Orderly<F(!new), G1(!new), G2(!new), GT(!new)>(ps: Params<F, G1, G2, GT>, chain: nat -> Block,
      m: Message<seq<byte>>)
  {
    m.channel == Announce && |m.payload| >= 8 ==> InRange(ps, chain, m.block, Announced(m.payload))
  }

  /** A protocol state on the way to block `k`, opened by the announcements `o`. */
  ghost predicate Sound<F(!new), G1(!new), G2(!new), GT(!new)>(ps: Params<F, G1, G2, GT>, chain: nat -> Block, k: nat,
      o: seq<seq<byte>>, s: State<F, G1, G2>)
  {
    && StoreOk(ps.Field(), ps.n, ps.m, s.store)
    && Solves(ps.Field(), ps.n, ps.m, ChunksOf(ps, chain(k)), s.store.chunks)
    && match s.ctx
       case None => o == [] && s.store.chunks == []
       case Some(ctx) => |o| == 1 && |o[0]| >= 8 && ctx == ContextOf(ps, k) && s.byteLen == Announced(o[0])
  }

  /** What a run may rely on; `orderly` adds that announcements carry lengths that serve. */
  ghost function BfkwStandard<F(!new), G1(!new), G2(!new), GT(!new)>(ps: Params<F, G1, G2, GT>, chain: nat -> Block,
      orderly: bool): Standard<State<F, G1, G2>, seq<byte>>
  {
    Standard((m: Message<seq<byte>>) => Unforged(ps, chain, m) && (orderly ==> Orderly(ps, chain, m)),
             (k: nat, o: seq<seq<byte>>, s: State<F, G1, G2>) =>
               Sound(ps, chain, k, o, s) && (orderly && s.ctx.Some? ==> InRange(ps, chain, k, s.byteLen)))
  }

  // ---------- soundness is upheld ----------

  lemma ReceiveSolves<F(!new), P, E>(f: Field<F>, n: nat, m: nat, scheme: Scheme<F, P, E>, vs: seq<seq<F>>,
      s: Store<F, P>, pkt: SignedPacket<F, P>)
    requires Solves(f, n, m, vs, s.chunks)
      && (scheme.verify(pkt.chunk, pkt.proof).Pass? ==> Explains(f, m, vs, pkt.chunk))
    ensures Solves(f, n, m, vs, Receive(f, n, scheme, s, pkt).chunks)
  {
  }

  lemma DataSound<F(!new), G1(!new), G2(!new), GT(!new)>(ps: Params<F, G1, G2, GT>, chain: nat -> Block,
      m: Message<seq<byte>>, o: seq<seq<byte>>, s: State<F, G1, G2>)
    requires ps.IsParams() && Sound(ps, chain, m.block, o, s) && Unforged(ps, chain, m) && m.channel == Data
    ensures var s' := Absorb(ps, s, Data, m.block, m.payload).1;
      Sound(ps, chain, m.block, o, s') && s'.ctx == s.ctx && s'.byteLen == s.byteLen
  {
    if s.ctx.Some? {
      var parsed := Deserialize(ps.fc, ps.Codec(), ps.n, ps.m, m.payload);
      if parsed.Success? {
        var scheme := Bfkw.BfkwScheme(ps.pg, s.ctx.value);
        DeserializedSize(ps.fc, ps.Codec(), ps.n, ps.m, m.payload);
        ReceiveOk(ps.Field(), ps.n, ps.m, scheme, s.store, parsed.value);
        ReceiveSolves(ps.Field(), ps.n, ps.m, scheme, ChunksOf(ps, chain(m.block)), s.store, parsed.value);
      }
    }
  }

  lemma AnnouncementSound<F(!new), G1(!new), G2(!new), GT(!new)>(ps: Params<F, G1, G2, GT>, chain: nat -> Block,
      m: Message<seq<byte>>, s: State<F, G1, G2>)
    requires ps.IsParams() && Sound(ps, chain, m.block, [], s) && m.channel == Announce
    ensures var (receipt, s') := Absorb(ps, s, Announce, m.block, m.payload);
      && Sound(ps, chain, m.block, if receipt == Useful then [m.payload] else [], s')
      && if receipt == Useful then s'.ctx.Some? && |m.payload| >= 8 && s'.byteLen == Announced(m.payload) else s' == s
  {
  }

  lemma FreshSound<F(!new), G1(!new), G2(!new), GT(!new)>(ps: Params<F, G1, G2, GT>, chain: nat -> Block, k: nat)
    requires Fits(ps, chain)
    ensures Sound(ps, chain, k, [], Fresh())
  {
    FreshOk<F, G2>(ps.Field(), ps.n, ps.m);
    assert chain(k).IsBlock();
  }

  lemma BfkwUpholds<F(!new), G1(!new), G2(!new), GT(!new)>(ps: Params<F, G1, G2, GT>, chain: nat -> Block,
      orderly: bool)
    requires Fits(ps, chain)
    ensures Upholds(Behaviour(ps), BfkwStandard(ps, chain, orderly))
  {
    var p, t := Behaviour(ps), BfkwStandard(ps, chain, orderly);
    forall s: State<F, G1, G2>, m: Message<seq<byte>> | t.sound(m.block, [], s) && t.honest(m)
      && m.channel == Announce
      ensures var (receipt, s') := p.ingest(s, Announce, m.block, m.payload);
        t.sound(m.block, if receipt == Useful then [m.payload] else [], s')
    {
      AnnouncementSound(ps, chain, m, s);
    }
    forall s: State<F, G1, G2>, o: seq<seq<byte>>, m: Message<seq<byte>> | t.sound(m.block, o, s) && t.honest(m)
      && m.channel == Data
      ensures t.sound(m.block, o, p.ingest(s, Data, m.block, m.payload).1)
    {
      DataSound(ps, chain, m, o, s);
    }
    forall s: State<F, G1, G2>, n: nat ensures t.sound(n, [], p.reset(s)) {
      FreshSound(ps, chain, n);
    }
  }

  // ---------- what a complete state decodes to ----------

  /** A complete state on the way to block `k` decodes to block `k` if the one announcement
      that opened the block carries a length in range, and panics otherwise. */
  lemma SoundDecodes<F(!new), G1(!new), G2(!new), GT(!new)>(ps: Params<F, G1, G2, GT>, chain: nat -> Block, k: nat,
      o: seq<seq<byte>>, s: State<F, G1, G2>)
    requires Fits(ps, chain) && Sound(ps, chain, k, o, s) && |s.store.chunks| == ps.n
    ensures |o| == 1 && |o[0]| >= 8 && s.byteLen == Announced(o[0])
    ensures if InRange(ps, chain, k, Announced(o[0])) then Decoded(ps, s) == Success(chain(k))
      else Decoded(ps, s).Failure?
  {
    assert chain(k).IsBlock();
    DecodedFrom(ps, s, ChunksOf(ps, chain(k)));
    LengthDecides(ps.fc, ps.lc, chain(k), ps.n, ps.m, s.byteLen);
  }

  /** The announcement that opened the block that decode call `i` is for. */
  ghost predicate DecodesRightly<F(!new), G1(!new), G2(!new), GT(!new)>(ps: Params<F, G1, G2, GT>,
      chain: nat -> Block, i: nat, a: Node<State<F, G1, G2>, seq<byte>>)
    requires i < |Decodes(a.calls)|
  {
    var c, o := Decodes(a.calls)[i], Opened(a.log, i);
    && c.block == i && |o| == 1 && |o[0]| >= 8
    && (if InRange(ps, chain, i, Announced(o[0])) then Decoded(ps, c.state) == Success(chain(i))
      else Decoded(ps, c.state).Failure?)
    && (i < a.decodedCount <==> InRange(ps, chain, i, Announced(o[0])))
  }

  lemma SoundNodeDecodes<F(!new), G1(!new), G2(!new), GT(!new)>(ps: Params<F, G1, G2, GT>, chain: nat -> Block,
      orderly: bool, a: Node<State<F, G1, G2>, seq<byte>>, i: nat)
    requires Fits(ps, chain) && Inv(Behaviour(ps), BehaviourGauge(ps), a)
      && SoundNode(BfkwStandard(ps, chain, orderly), a)
    requires i < |Decodes(a.calls)|
    ensures DecodesRightly(ps, chain, i, a)
    ensures orderly ==> InRange(ps, chain, i, Announced(Opened(a.log, i)[0]))
  {
    var c := Decodes(a.calls)[i];
    var j :| 0 <= j < |a.calls| && a.calls[j] == c;
    assert CallsFit(Behaviour(ps), BehaviourGauge(ps), a) && InOrder(a);
    assert Fit(Behaviour(ps), BehaviourGauge(ps), a.calls[j]) && c.block == i;
    assert BfkwStandard(ps, chain, orderly).sound(a.calls[j].block, Opened(a.log, a.calls[j].block),
      a.calls[j].state);
    SoundDecodes(ps, chain, i, Opened(a.log, i), c.state);
  }

  /** A BFKW node fed any announcements and any unforged data, for any blocks in any order.
      Each block it completes was opened by exactly one announcement. If that one carries a
      length in range the node decodes exactly the chain's block and goes on, otherwise it
      panics: so it never decodes a wrong block, and halts exactly on a bad length. */
  lemma ChainDecoded<F(!new), G1(!new), G2(!new), GT(!new)>(ps: Params<F, G1, G2, GT>, chain: nat -> Block,
      msgs: seq<Message<seq<byte>>>, k: nat)
    requires Fits(ps, chain) && k <= |msgs| && forall m :: m in msgs ==> Unforged(ps, chain, m)
    ensures var a := Received(Behaviour(ps), Fresh(), msgs, k);
      && |Decodes(a.calls)| == a.decodedCount + (if a.phase.Halted? then 1 else 0)
      && forall i: nat :: i < |Decodes(a.calls)| ==> DecodesRightly(ps, chain, i, a)
  {
    RunInvariant(ps, chain, false, msgs, k);
    var a := Received(Behaviour(ps), Fresh(), msgs, k);
    forall i: nat | i < |Decodes(a.calls)| ensures DecodesRightly(ps, chain, i, a) {
      SoundNodeDecodes(ps, chain, false, a, i);
    }
  }

  lemma RunInvariant<F(!new), G1(!new), G2(!new), GT(!new)>(ps: Params<F, G1, G2, GT>, chain: nat -> Block,
      orderly: bool, msgs: seq<Message<seq<byte>>>, k: nat)
    requires Fits(ps, chain) && k <= |msgs| && AllHonest(BfkwStandard(ps, chain, orderly), msgs)
    ensures var a := Received(Behaviour(ps), Fresh(), msgs, k);
      Inv(Behaviour(ps), BehaviourGauge(ps), a) && SoundNode(BfkwStandard(ps, chain, orderly), a)
  {
    BfkwConforms(ps);
    BfkwUpholds(ps, chain, orderly);
    FreshSound(ps, chain, 0);
    RunSound(Behaviour(ps), BehaviourGauge(ps), BfkwStandard(ps, chain, orderly), Fresh(), msgs, k);
  }

  /** With announcements in range no node ever halts. */
  lemma OrderlyNeverHalts<F(!new), G1(!new), G2(!new), GT(!new)>(ps: Params<F, G1, G2, GT>, chain: nat -> Block,
      a: Node<State<F, G1, G2>, seq<byte>>)
    requires Fits(ps, chain) && Inv(Behaviour(ps), BehaviourGauge(ps), a)
      && SoundNode(BfkwStandard(ps, chain, true), a)
    ensures !a.phase.Halted?
  {
    if a.phase.Halted? {
      assert CallsFit(Behaviour(ps), BehaviourGauge(ps), a) && InOrder(a);
      SoundNodeDecodes(ps, chain, true, a, a.phase.n);
    }
  }

  /** One bad announcement suffices: a node whose first message announces block 0 with a
      length out of range never decodes anything, whatever announcements follow. */
  lemma {:induction false} BadLengthStops<F(!new), G1(!new), G2(!new), GT(!new)>(ps: Params<F, G1, G2, GT>,
      chain: nat -> Block, d: seq<byte>, msgs: seq<Message<seq<byte>>>)
    requires Fits(ps, chain) && |d| >= 8 && !InRange(ps, chain, 0, Announced(d))
    requires msgs != [] && msgs[0] == Message(Announce, 0, d) && forall m :: m in msgs ==> Unforged(ps, chain, m)
    ensures var a := Received(Behaviour(ps), Fresh(), msgs, |msgs|);
      && Opened(a.log, 0) == [d] && a.decodedCount == 0
      && (Decodes(a.calls) != [] <==> a.phase.Halted?)
  {
    var p, a := Behaviour(ps), Received(Behaviour(ps), Fresh(), msgs, |msgs|);
    OpeningAnnouncement(ps, d, msgs);
    RunLogGrows(p, Fresh(), msgs, 1, |msgs|);
    OpenedGrows(Received(p, Fresh(), msgs, 1).log, a.log, 0);
    RunInvariant(ps, chain, false, msgs, |msgs|);
    assert |Opened(a.log, 0)| <= 1;
    ChainDecoded(ps, chain, msgs, |msgs|);
    assert |Decodes(a.calls)| > 0 ==> DecodesRightly(ps, chain, 0, a);
  }

  lemma FirstOpens<F(!new), G1(!new), G2(!new), GT(!new)>(ps: Params<F, G1, G2, GT>, d: seq<byte>)
    requires |d| >= 8
    ensures var m := Message(Announce, 0, d);
      var (b, extra) := Handle(Behaviour(ps), Start(Fresh()), m);
      b.log == [Entry(m, Ingested(true, false))] && extra == []
  {
    assert Slot(Start<State<F, G1, G2>, seq<byte>>(Fresh()).buffer, 0) == [];
  }

  lemma {:induction false} OpeningAnnouncement<F(!new), G1(!new), G2(!new), GT(!new)>(ps: Params<F, G1, G2, GT>,
      d: seq<byte>, msgs: seq<Message<seq<byte>>>)
    requires |d| >= 8 && msgs != [] && msgs[0] == Message(Announce, 0, d)
    ensures Opened(Received(Behaviour(ps), Fresh(), msgs, 1).log, 0) == [d]
  {
    var p, m := Behaviour(ps), Message(Announce, 0, d);
    var start, b := Start<State<F, G1, G2>, seq<byte>>(Fresh()), Received(p, Fresh(), msgs, 1);
    assert Received(p, Fresh(), msgs, 0) == start;
    DrainOne(p, start, m);
    FirstOpens(ps, d);
    Logged([], Entry(m, Ingested(true, false)), 0);
  }
}
