/** How much of a chain a BFKW node decodes: exactly what was delivered to it
    (crates/node/src/actor.rs, crates/node/src/bfkw.rs). */
module ChainProgress {
  import opened Wrappers
  import opened Algebra
  import opened Span
  import opened Coding
  import opened Integrity
  import opened Wire
  import opened Blocks = Block
  import opened ActorModel
  import opened ActorProofs
  import opened ActorProgress
  import opened ActorOrder
  import opened BfkwNode
  import opened Chain
  import Bfkw

  // ---------- what delivered data amounts to ----------

  /** The coefficients a data payload brings to block `k`, if it parses and verifies. */
  ghost function Brings<F(!new), G1(!new), G2(!new), GT(!new)>(ps: Params<F, G1, G2, GT>, k: nat,
      d: seq<byte>): Option<seq<F>>
  {
    match Deserialize(ps.fc, ps.Codec(), ps.n, ps.m, d)
    case Failure(_) => None
    case Success(pkt) =>
      if Bfkw.Verify(ps.pg, ContextOf(ps, k), pkt.chunk, pkt.proof) == Pass then Some(pkt.chunk.b) else None
  }

  ghost function Vectors<F(!new), G1(!new), G2(!new), GT(!new)>(ps: Params<F, G1, G2, GT>, k: nat,
      ds: seq<seq<byte>>): seq<seq<F>>
  {
    if ds == [] then [] else
      var v := Brings(ps, k, ds[|ds| - 1]);
      Vectors(ps, k, ds[..|ds| - 1]) + if v.Some? then [v.value] else []
  }

  lemma {:induction false} VectorsAre<F(!new), G1(!new), G2(!new), GT(!new)>(ps: Params<F, G1, G2, GT>, k: nat,
      ds: seq<seq<byte>>, v: seq<F>)
    ensures v in Vectors(ps, k, ds) <==> exists d :: d in ds && Brings(ps, k, d) == Some(v)
  {
    if ds != [] {
      var front, last := ds[..|ds| - 1], ds[|ds| - 1];
      VectorsAre(ps, k, front, v);
      assert ds == front + [last];
      forall d | d in ds ensures d in front || d == last {}
    }
  }

  lemma {:induction false} VectorsSized<F(!new), G1(!new), G2(!new), GT(!new)>(ps: Params<F, G1, G2, GT>, k: nat,
      ds: seq<seq<byte>>)
    ensures AllIn(Vec(ps.Field(), ps.n), Vectors(ps, k, ds))
  {
    if ds != [] {
      VectorsSized(ps, k, ds[..|ds| - 1]);
      BringsSized(ps, k, ds[|ds| - 1]);
    }
  }

  lemma BringsSized<F(!new), G1(!new), G2(!new), GT(!new)>(ps: Params<F, G1, G2, GT>, k: nat, d: seq<byte>)
    ensures Brings(ps, k, d).Some? ==> |Brings(ps, k, d).value| == ps.n
  {
    if Deserialize(ps.fc, ps.Codec(), ps.n, ps.m, d).Success? { DeserializedSize(ps.fc, ps.Codec(), ps.n, ps.m, d); }
  }

  /** The payloads bring vectors that span the whole coefficient space. */
  ghost predicate SpanBlock<F(!new), G1(!new), G2(!new), GT(!new)>(ps: Params<F, G1, G2, GT>, k: nat,
      ds: seq<seq<byte>>)
  {
    forall c :: 0 <= c < ps.n ==> InSpan(Vec(ps.Field(), ps.n), Vectors(ps, k, ds), Basis(ps.Field(), ps.n, c))
  }

  lemma SpanMore<F(!new), G1(!new), G2(!new), GT(!new)>(ps: Params<F, G1, G2, GT>, k: nat, few: seq<seq<byte>>,
      many: seq<seq<byte>>)
    requires ps.IsParams() && SpanBlock(ps, k, few) && forall d :: d in few ==> d in many
    ensures SpanBlock(ps, k, many)
  {
    var s, us, vs := Vec(ps.Field(), ps.n), Vectors(ps, k, few), Vectors(ps, k, many);
    VecIsSpace(ps.Field(), ps.n);
    VectorsSized(ps, k, few);
    VectorsSized(ps, k, many);
    forall i | 0 <= i < |us| ensures us[i] in vs {
      VectorsAre(ps, k, few, us[i]);
      VectorsAre(ps, k, many, us[i]);
    }
    SubsetWithin(s, us, vs);
    forall c | 0 <= c < ps.n ensures InSpan(s, vs, Basis(ps.Field(), ps.n, c)) {
      SpanTrans(s, us, vs, Basis(ps.Field(), ps.n, c));
    }
  }

  // ---------- the ledger of a BFKW node ----------

  /** The state holds what is news among the vectors brought so far. */
  ghost predicate HoldsNews<F(!new), G1(!new), G2(!new), GT(!new)>(ps: Params<F, G1, G2, GT>, k: nat,
      ds: seq<seq<byte>>, s: State<F, G1, G2>)
  {
    && Coefficients(s.store.chunks) == KeepAll(Vec(ps.Field(), ps.n), Vectors(ps, k, ds), |Vectors(ps, k, ds)|)
    && (s.ctx.Some? ==> s.ctx.value == ContextOf(ps, k))
  }

  ghost function BfkwLedger<F(!new), G1(!new), G2(!new), GT(!new)>(ps: Params<F, G1, G2, GT>)
      : Ledger<State<F, G1, G2>, seq<byte>>
  {
    Ledger((d: seq<byte>) => |d| >= 8, (k: nat, ds: seq<seq<byte>>) => SpanBlock(ps, k, ds),
           (k: nat, ds: seq<seq<byte>>, s: State<F, G1, G2>) => HoldsNews(ps, k, ds, s))
  }

  lemma TakenNews<F(!new), P, E>(f: Field<F>, n: nat, scheme: Scheme<F, P, E>, s: Store<F, P>,
      pkt: SignedPacket<F, P>, box: seq<seq<F>>, box': seq<seq<F>>)
    requires Coefficients(s.chunks) == KeepAll(Vec(f, n), box, |box|)
    requires box' == box + if scheme.verify(pkt.chunk, pkt.proof).Pass? then [pkt.chunk.b] else []
    ensures Coefficients(Receive(f, n, scheme, s, pkt).chunks) == KeepAll(Vec(f, n), box', |box'|)
  {
    ReceivedChunks(f, n, scheme, s, pkt);
    if scheme.verify(pkt.chunk, pkt.proof).Pass? {
      KeptCoefficients(f, n, s.chunks, pkt.chunk);
      KeepAllAppend(Vec(f, n), box, pkt.chunk.b);
    } else {
      assert box' == box;
    }
  }

  lemma ReceivedChunks<F(!new), P, E>(f: Field<F>, n: nat, scheme: Scheme<F, P, E>, s: Store<F, P>,
      pkt: SignedPacket<F, P>)
    ensures Receive(f, n, scheme, s, pkt).chunks ==
      if scheme.verify(pkt.chunk, pkt.proof).Pass? then KeepChunk(f, n, s.chunks, pkt.chunk) else s.chunks
  {
  }

  lemma VectorsMore<F(!new), G1(!new), G2(!new), GT(!new)>(ps: Params<F, G1, G2, GT>, k: nat, ds: seq<seq<byte>>,
      d: seq<byte>)
    ensures Vectors(ps, k, ds + [d]) == Vectors(ps, k, ds) + if Brings(ps, k, d).Some? then [Brings(ps, k, d).value]
      else []
  {
    assert (ds + [d])[..|ds|] == ds;
  }

  lemma DataNews<F(!new), G1(!new), G2(!new), GT(!new)>(ps: Params<F, G1, G2, GT>, k: nat, ds: seq<seq<byte>>,
      s: State<F, G1, G2>, d: seq<byte>)
    requires HoldsNews(ps, k, ds, s) && s.ctx.Some?
    ensures HoldsNews(ps, k, ds + [d], Absorb(ps, s, Data, k, d).1)
  {
    VectorsMore(ps, k, ds, d);
    var box, box' := Vectors(ps, k, ds), Vectors(ps, k, ds + [d]);
    var parsed := Deserialize(ps.fc, ps.Codec(), ps.n, ps.m, d);
    if parsed.Success? {
      TakenNews(ps.Field(), ps.n, Bfkw.BfkwScheme(ps.pg, s.ctx.value), s.store, parsed.value, box, box');
    } else {
      assert box' == box;
    }
  }

  lemma FullIffSpans<F(!new), G1(!new), G2(!new), GT(!new)>(ps: Params<F, G1, G2, GT>, k: nat, ds: seq<seq<byte>>,
      s: State<F, G1, G2>)
    requires ps.IsParams() && HoldsNews(ps, k, ds, s) && StoreOk(ps.Field(), ps.n, ps.m, s.store)
    ensures |s.store.chunks| == ps.n <==> SpanBlock(ps, k, ds)
  {
    VectorsSized(ps, k, ds);
    CompleteIffBoxSpans(ps.Field(), ps.n, s.store.chunks, Vectors(ps, k, ds));
  }

  lemma BfkwKeeps<F(!new), G1(!new), G2(!new), GT(!new)>(ps: Params<F, G1, G2, GT>)
    requires ps.IsParams()
    ensures Keeps(Behaviour(ps), BehaviourGauge(ps), BfkwLedger(ps))
    ensures BfkwLedger(ps).tracks(0, [], Fresh())
  {
    var p, g, l := Behaviour(ps), BehaviourGauge(ps), BfkwLedger(ps);
    forall s: State<F, G1, G2>, n: nat, fed: seq<seq<byte>>, d: seq<byte> | Ask(s, n, d) && l.tracks(n, fed, s)
      && g.ok(s) && g.armed(s)
      ensures l.tracks(n, fed + [d], p.ingest(s, Data, n, d).1)
    {
      DataNews(ps, n, fed, s, d);
    }
    forall s: State<F, G1, G2>, n: nat, fed: seq<seq<byte>> | l.tracks(n, fed, s) && g.ok(s)
      ensures g.rank(s) == g.bound <==> l.full(n, fed)
    {
      FullIffSpans(ps, n, fed, s);
    }
    forall n: nat, a: seq<seq<byte>>, b: seq<seq<byte>> | l.full(n, a)
      && (forall d :: d in a ==> d in b) ensures l.full(n, b) {
      SpanMore(ps, n, a, b);
    }
  }

  // ---------- how far a node gets ----------

  /** Block `b` was delivered: an announcement of at least eight bytes, and data that parses,
      verifies and brings vectors spanning the whole coefficient space. */
  ghost predicate Delivered<F(!new), G1(!new), G2(!new), GT(!new)>(ps: Params<F, G1, G2, GT>,
      msgs: seq<Message<seq<byte>>>, b: nat)
  {
    && (exists d :: Message(Announce, b, d) in msgs && |d| >= 8)
    && SpanBlock(ps, b, DataOf(msgs, b))
  }

  /** Whatever is received, in whatever order: a BFKW node decodes every block before the first
      that was not delivered to it, and no further, unless it halts; and it halts only on a
      block that was delivered. */
  lemma BfkwDecodedExactly<F(!new), G1(!new), G2(!new), GT(!new)>(ps: Params<F, G1, G2, GT>,
      msgs: seq<Message<seq<byte>>>)
    requires ps.IsParams()
    ensures var a := Received(Behaviour(ps), Fresh(), msgs, |msgs|);
      && (forall b: nat :: b < a.decodedCount ==> Delivered(ps, msgs, b))
      && (Delivered(ps, msgs, a.decodedCount) <==> a.phase.Halted?)
  {
    BfkwConforms(ps);
    BfkwKeeps(ps);
    DecodedExactly(Behaviour(ps), BehaviourGauge(ps), BfkwLedger(ps), Fresh(), msgs);
    var a := Received(Behaviour(ps), Fresh(), msgs, |msgs|);
    forall b: nat ensures Delivered(ps, msgs, b) <==> Supplied(BfkwLedger(ps), msgs, b) {
      SuppliedIs(ps, msgs, b);
    }
  }

  lemma SuppliedIs<F(!new), G1(!new), G2(!new), GT(!new)>(ps: Params<F, G1, G2, GT>, msgs: seq<Message<seq<byte>>>,
      b: nat)
    ensures Delivered(ps, msgs, b) <==> Supplied(BfkwLedger(ps), msgs, b)
  {
    var l := BfkwLedger(ps);
    forall d: seq<byte> ensures l.opens(d) <==> |d| >= 8 {}
  }

  /** A node fed announcements in range and unforged data, in any order, with any repetition,
      decodes exactly the blocks before the first one not delivered to it, each to the
      chain's block. */
  lemma ChainComplete<F(!new), G1(!new), G2(!new), GT(!new)>(ps: Params<F, G1, G2, GT>, chain: nat -> Block,
      msgs: seq<Message<seq<byte>>>)
    requires Fits(ps, chain) && forall m :: m in msgs ==> Unforged(ps, chain, m) && Orderly(ps, chain, m)
    ensures var a := Received(Behaviour(ps), Fresh(), msgs, |msgs|);
      && !a.phase.Halted? && !Delivered(ps, msgs, a.decodedCount) && |Decodes(a.calls)| == a.decodedCount
      && forall b: nat :: b < a.decodedCount ==>
          Delivered(ps, msgs, b) && Decodes(a.calls)[b].block == b
            && Decoded(ps, Decodes(a.calls)[b].state) == Success(chain(b))
  {
    var a := Received(Behaviour(ps), Fresh(), msgs, |msgs|);
    RunInvariant(ps, chain, true, msgs, |msgs|);
    OrderlyNeverHalts(ps, chain, a);
    BfkwDecodedExactly(ps, msgs);
    ChainDecoded(ps, chain, msgs, |msgs|);
    forall b: nat | b < a.decodedCount
      ensures Decodes(a.calls)[b].block == b && Decoded(ps, Decodes(a.calls)[b].state) == Success(chain(b))
    {
      assert DecodesRightly(ps, chain, b, a);
    }
  }

  /** The first announcement of block `b` received that is at least eight bytes long carries a
      length in range. */
  ghost predicate Serves<F(!new), G1(!new), G2(!new), GT(!new)>(ps: Params<F, G1, G2, GT>, chain: nat -> Block,
      msgs: seq<Message<seq<byte>>>, b: nat)
  {
    var o := FirstOpening(BfkwLedger(ps).opens, PayloadsOf(msgs, Announce, b));
    |o| == 1 && |o[0]| >= 8 && InRange(ps, chain, b, Announced(o[0]))
  }

  /** The announcement that decided decode call `i` is the first one received. */
  lemma OpenedServes<F(!new), G1(!new), G2(!new), GT(!new)>(ps: Params<F, G1, G2, GT>, chain: nat -> Block,
      msgs: seq<Message<seq<byte>>>, i: nat)
    requires Fits(ps, chain) && forall m :: m in msgs ==> Unforged(ps, chain, m)
    requires i < |Decodes(Received(Behaviour(ps), Fresh(), msgs, |msgs|).calls)|
    ensures var a := Received(Behaviour(ps), Fresh(), msgs, |msgs|);
      && Opened(a.log, i) == FirstOpening(BfkwLedger(ps).opens, PayloadsOf(msgs, Announce, i))
      && (i < a.decodedCount <==> Serves(ps, chain, msgs, i))
  {
    var a := Received(Behaviour(ps), Fresh(), msgs, |msgs|);
    BfkwConforms(ps);
    BfkwKeeps(ps);
    RunServes(Behaviour(ps), BehaviourGauge(ps), BfkwLedger(ps), Fresh(), msgs, |msgs|, i);
    ChainDecoded(ps, chain, msgs, |msgs|);
    RunKeeps(Behaviour(ps), BehaviourGauge(ps), Fresh(), msgs, |msgs|);
    assert msgs[..|msgs|] == msgs;
    assert DecodesRightly(ps, chain, i, a) && InOrder(a);
  }

  /** What was received decides the run, announcements of any kind included. A node fed any
      announcements and any unforged data, in any order, decodes exactly the blocks before the
      first one that was not both delivered and served by its first announcement; it halts
      exactly if that one was delivered. */
  lemma HaltsExactly<F(!new), G1(!new), G2(!new), GT(!new)>(ps: Params<F, G1, G2, GT>, chain: nat -> Block,
      msgs: seq<Message<seq<byte>>>)
    requires Fits(ps, chain) && forall m :: m in msgs ==> Unforged(ps, chain, m)
    ensures var a := Received(Behaviour(ps), Fresh(), msgs, |msgs|);
      && (forall b: nat :: b < a.decodedCount ==> Delivered(ps, msgs, b) && Serves(ps, chain, msgs, b))
      && !(Delivered(ps, msgs, a.decodedCount) && Serves(ps, chain, msgs, a.decodedCount))
      && (a.phase.Halted? <==> Delivered(ps, msgs, a.decodedCount))
  {
    var a := Received(Behaviour(ps), Fresh(), msgs, |msgs|);
    BfkwDecodedExactly(ps, msgs);
    ChainDecoded(ps, chain, msgs, |msgs|);
    forall b: nat | b < |Decodes(a.calls)| ensures b < a.decodedCount <==> Serves(ps, chain, msgs, b) {
      OpenedServes(ps, chain, msgs, b);
    }
  }

  /** So the number of blocks decoded depends only on which messages were received: neither
      their order nor their repetition matters, and more messages never hurt. */
  lemma OrderIrrelevant<F(!new), G1(!new), G2(!new), GT(!new)>(ps: Params<F, G1, G2, GT>, chain: nat -> Block,
      few: seq<Message<seq<byte>>>, many: seq<Message<seq<byte>>>)
    requires Fits(ps, chain) && forall m :: m in many ==> Unforged(ps, chain, m) && Orderly(ps, chain, m)
    requires forall m :: m in few ==> m in many
    ensures var a, b := Received(Behaviour(ps), Fresh(), few, |few|), Received(Behaviour(ps), Fresh(), many, |many|);
      a.decodedCount <= b.decodedCount && ((forall m :: m in many ==> m in few) ==> a.decodedCount == b.decodedCount)
  {
    BfkwConforms(ps);
    BfkwKeeps(ps);
    ChainComplete(ps, chain, few);
    ChainComplete(ps, chain, many);
    ProgressMonotone(Behaviour(ps), BehaviourGauge(ps), BfkwLedger(ps), Fresh(), few, many);
    if forall m :: m in many ==> m in few {
      ProgressMonotone(Behaviour(ps), BehaviourGauge(ps), BfkwLedger(ps), Fresh(), many, few);
    }
  }
}
