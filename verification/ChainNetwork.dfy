/** Any network of BFKW nodes, each run by its actor, and a proposer sending a chain of blocks
    (crates/node/src/actor.rs, crates/node/src/bfkw.rs). */
module ChainNetwork {
  import opened Wrappers
  import opened Algebra
  import opened Coding
  import opened Integrity
  import opened Wire
  import opened Blocks = Block
  import opened ActorModel
  import opened ActorProofs
  import opened ActorSoundness
  import opened BfkwNode
  import opened Chain
  import opened ChainProgress
  import Bfkw

  // ---------- what the parties send ----------

  lemma ExplainedIsUnforged<F(!new), G1(!new), G2(!new), GT(!new)>(ps: Params<F, G1, G2, GT>, chain: nat -> Block,
      k: nat, pkt: SignedPacket<F, G2>)
    requires ps.IsParams() && ps.fc.IsCodec() && ps.fc.ZeroIsZeros() && ps.gc.IsCodec()
    requires |pkt.chunk.b| == ps.n && |pkt.chunk.w| == ps.m
      && Explains(ps.Field(), ps.m, ChunksOf(ps, chain(k)), pkt.chunk)
    ensures Unforged(ps, chain, Message(Data, k, Serialize(ps.fc, ps.Codec(), pkt)))
  {
    Arrives(ps.fc, ps.gc, pkt);
  }

  /** What `Propose` sends for block `k` is unforged. */
  lemma ProposedUnforged<F(!new), G1(!new), G2(!new), GT(!new)>(ps: Params<F, G1, G2, GT>, chain: nat -> Block,
      k: nat, sk: F, b: seq<F>)
    requires Fits(ps, chain) && ps.gc.IsCodec() && |b| == ps.n
    ensures |ChunksOf(ps, chain(k))| == ps.n && AllIn(Vec(ps.Field(), ps.m), ChunksOf(ps, chain(k)))
    ensures Unforged(ps, chain, Message(Data, k, Proposed(ps, sk, chain(k).number, ChunksOf(ps, chain(k)), b)))
  {
    assert chain(k).IsBlock();
    var vs, number := ChunksOf(ps, chain(k)), chain(k).number;
    VecIsSpace(ps.Field(), ps.m);
    LinIn(Vec(ps.Field(), ps.m), b, vs, ps.n);
    ExplainedIsUnforged(ps, chain, k,
      SignedPacket(Encode(ps.Field(), ps.m, vs, b), Bfkw.SignCoded(ps.pg.g2, sk, ps.points(number), ps.m, vs, b)));
  }

  /** What a node re-encodes on the way to block `k` is unforged. */
  lemma RecodedUnforged<F(!new), G1(!new), G2(!new), GT(!new)>(ps: Params<F, G1, G2, GT>, chain: nat -> Block, k: nat,
      o: seq<seq<byte>>, s: State<F, G1, G2>, alphas: seq<F>)
    requires Fits(ps, chain) && ps.gc.IsCodec() && Sound(ps, chain, k, o, s) && |alphas| == |s.store.chunks|
    ensures Unforged(ps, chain, Message(Data, k, Serialize(ps.fc, ps.Codec(), Remixed(ps, s.store, alphas))))
  {
    MixExplained(ps.Field(), ps.n, ps.m, ChunksOf(ps, chain(k)), s.store.chunks, alphas);
    ExplainedIsUnforged(ps, chain, k, Remixed(ps, s.store, alphas));
  }

  /** The announcement `Propose` makes for block `k`. */
  ghost function Announcement<F(!new), G1(!new), G2(!new), GT(!new)>(ps: Params<F, G1, G2, GT>, chain: nat -> Block,
      k: nat): Message<seq<byte>>
    requires Fits(ps, chain)
  {
    assert chain(k).IsBlock();
    Message(Announce, k, ToBE(AsChunks(ps.fc, ps.lc, chain(k), ps.n, ps.m).value.1, 8))
  }

  /** Its length serves: it is that of the encoding, and the chunks hold it. */
  lemma AnnouncementOrderly<F(!new), G1(!new), G2(!new), GT(!new)>(ps: Params<F, G1, G2, GT>, chain: nat -> Block,
      k: nat)
    requires Fits(ps, chain)
    ensures Orderly(ps, chain, Announcement(ps, chain, k))
  {
    assert chain(k).IsBlock();
    ChunksHoldBlock(ps.fc, ps.lc, chain(k), ps.n, ps.m);
    BlockSize(ps.lc, chain(k));
    EncodingFits(ps.fc, ps.lc, chain(k), ps.n, ps.m);
    Pow256Values();
    var len := |WriteBlock(ps.lc, chain(k))|;
    BERoundTrip(len, 8);
    assert ToBE(len, 8)[..8] == ToBE(len, 8);
  }

  // ---------- the network ----------

  /** Every node's actor and every message ever put on the wire. */
  datatype Net<F, G1, G2> = Net(nodes: seq<Node<State<F, G1, G2>, seq<byte>>>, wire: set<Message<seq<byte>>>)

  /** The proposer announces a block or sends a coded packet of one; a message on the wire
      reaches a node, perhaps again; a node sends a packet from one of the re-encodings its
      run called for, once or often; or anyone puts something else on the wire. A repeated
      announcement is on the wire already. */
  datatype Step<F> =
    | Announces(block: nat)
    | Proposes(block: nat, b: seq<F>)
    | Delivers(to: nat, m: Message<seq<byte>>)
    | Forwards(from: nat, call: nat, alphas: seq<F>)
    | Injects(m: Message<seq<byte>>)

  /** Anything may be injected but forged data, and if `orderly` but useless lengths. */
  ghost predicate Enabled<F(!new), G1(!new), G2(!new), GT(!new)>(ps: Params<F, G1, G2, GT>, chain: nat -> Block,
      orderly: bool, w: Net<F, G1, G2>, step: Step<F>)
  {
    match step
    case Announces(_) => true
    case Proposes(_, b) => |b| == ps.n
    case Delivers(to, m) => to < |w.nodes| && m in w.wire
    case Forwards(from, call, alphas) =>
      && from < |w.nodes| && call < |w.nodes[from].calls|
      && var c := w.nodes[from].calls[call]; c.Recode? && |alphas| == |c.state.store.chunks|
    case Injects(m) => Unforged(ps, chain, m) && (orderly ==> Orderly(ps, chain, m))
  }

  ghost function Sent<F(!new), G1(!new), G2(!new), GT(!new)>(ps: Params<F, G1, G2, GT>, chain: nat -> Block, sk: F,
      orderly: bool, w: Net<F, G1, G2>, step: Step<F>): Message<seq<byte>>
    requires Fits(ps, chain) && ps.gc.IsCodec() && Enabled(ps, chain, orderly, w, step) && !step.Delivers?
  {
    match step
    case Announces(k) => Announcement(ps, chain, k)
    case Proposes(k, b) =>
      ProposedUnforged(ps, chain, k, sk, b);
      Message(Data, k, Proposed(ps, sk, chain(k).number, ChunksOf(ps, chain(k)), b))
    case Forwards(from, call, alphas) =>
      var c := w.nodes[from].calls[call];
      Message(Data, c.block, Serialize(ps.fc, ps.Codec(), Remixed(ps, c.state.store, alphas)))
    case Injects(m) => m
  }

  ghost function Next<F(!new), G1(!new), G2(!new), GT(!new)>(ps: Params<F, G1, G2, GT>, chain: nat -> Block, sk: F,
      orderly: bool, w: Net<F, G1, G2>, step: Step<F>): Net<F, G1, G2>
    requires Fits(ps, chain) && ps.gc.IsCodec() && Enabled(ps, chain, orderly, w, step)
  {
    match step
    case Delivers(to, m) => w.(nodes := w.nodes[to := Route(Behaviour(ps), w.nodes[to], m)])
    case _ => w.(wire := w.wire + {Sent(ps, chain, sk, orderly, w, step)})
  }

  /** What a step leads to; a step that is not enabled does nothing. The mark keeps the step
      closed to proofs that do not name it. */
  ghost predicate Leads<F(!new), G1(!new), G2(!new), GT(!new)>(ps: Params<F, G1, G2, GT>, chain: nat -> Block, sk: F,
      orderly: bool, w: Net<F, G1, G2>, step: Step<F>, w': Net<F, G1, G2>)
    requires Fits(ps, chain) && ps.gc.IsCodec()
  {
    forall st: Step<F> {:trigger At1(st)} :: At1(st) && st == step ==>
      w' == if Enabled(ps, chain, orderly, w, st) then Next(ps, chain, sk, orderly, w, st) else w
  }

  /** A history of the network: its worlds, from all nodes fresh, and the steps between them. */
  ghost predicate IsHistory<F(!new), G1(!new), G2(!new), GT(!new)>(ps: Params<F, G1, G2, GT>, chain: nat -> Block,
      sk: F, orderly: bool, size: nat, steps: seq<Step<F>>, worlds: seq<Net<F, G1, G2>>)
    requires Fits(ps, chain) && ps.gc.IsCodec()
  {
    && |worlds| == |steps| + 1 && worlds[0] == Net(seq(size, _ => Start(Fresh())), {})
    && forall k :: 0 <= k < |steps| ==> Leads(ps, chain, sk, orderly, worlds[k], steps[k], worlds[k + 1])
  }

  lemma HistoryMore<F(!new), G1(!new), G2(!new), GT(!new)>(ps: Params<F, G1, G2, GT>, chain: nat -> Block, sk: F,
      orderly: bool, size: nat, front: seq<Step<F>>, worlds: seq<Net<F, G1, G2>>, last: Step<F>, w': Net<F, G1, G2>)
    requires Fits(ps, chain) && ps.gc.IsCodec() && IsHistory(ps, chain, sk, orderly, size, front, worlds)
    requires Leads(ps, chain, sk, orderly, worlds[|front|], last, w')
    ensures IsHistory(ps, chain, sk, orderly, size, front + [last], worlds + [w'])
  {
    var steps, all := front + [last], worlds + [w'];
    forall k | 0 <= k < |steps| ensures Leads(ps, chain, sk, orderly, all[k], steps[k], all[k + 1]) {
      assert k < |front| ==> Leads(ps, chain, sk, orderly, worlds[k], front[k], worlds[k + 1]);
    }
  }

  /** Every sequence of steps has its history. */
  lemma {:induction false} HistoryExists<F(!new), G1(!new), G2(!new), GT(!new)>(ps: Params<F, G1, G2, GT>,
      chain: nat -> Block, sk: F, orderly: bool, size: nat, steps: seq<Step<F>>) returns (worlds: seq<Net<F, G1, G2>>)
    requires Fits(ps, chain) && ps.gc.IsCodec()
    ensures IsHistory(ps, chain, sk, orderly, size, steps, worlds)
  {
    if steps == [] {
      worlds := [Net(seq(size, _ => Start(Fresh())), {})];
    } else {
      var front, last := steps[..|steps| - 1], steps[|steps| - 1];
      var before := HistoryExists(ps, chain, sk, orderly, size, front);
      var w' := LeadsSomewhere(ps, chain, sk, orderly, before[|front|], last);
      HistoryMore(ps, chain, sk, orderly, size, front, before, last, w');
      assert front + [last] == steps;
      worlds := before + [w'];
    }
  }

  lemma LeadsSomewhere<F(!new), G1(!new), G2(!new), GT(!new)>(ps: Params<F, G1, G2, GT>, chain: nat -> Block, sk: F,
      orderly: bool, w: Net<F, G1, G2>, step: Step<F>) returns (w': Net<F, G1, G2>)
    requires Fits(ps, chain) && ps.gc.IsCodec()
    ensures Leads(ps, chain, sk, orderly, w, step, w')
  {
    w' := if Enabled(ps, chain, orderly, w, step) then Next(ps, chain, sk, orderly, w, step) else w;
  }

  // ---------- the invariant ----------

  ghost predicate NodeOk<F(!new), G1(!new), G2(!new), GT(!new)>(ps: Params<F, G1, G2, GT>, chain: nat -> Block,
      orderly: bool, a: Node<State<F, G1, G2>, seq<byte>>)
  {
    Good(Behaviour(ps), BehaviourGauge(ps), BfkwStandard(ps, chain, orderly), a)
  }

  ghost predicate NetOk<F(!new), G1(!new), G2(!new), GT(!new)>(ps: Params<F, G1, G2, GT>, chain: nat -> Block,
      orderly: bool, w: Net<F, G1, G2>)
  {
    && (forall i :: 0 <= i < |w.nodes| ==> NodeOk(ps, chain, orderly, w.nodes[i]))
    && (forall m :: m in w.wire ==> Unforged(ps, chain, m) && (orderly ==> Orderly(ps, chain, m)))
  }

  lemma StartOk<F(!new), G1(!new), G2(!new), GT(!new)>(ps: Params<F, G1, G2, GT>, chain: nat -> Block, orderly: bool)
    requires Fits(ps, chain)
    ensures NodeOk(ps, chain, orderly, Start(Fresh()))
  {
    BfkwConforms(ps);
    FreshSound(ps, chain, 0);
    StartGood(Behaviour(ps), BehaviourGauge(ps), BfkwStandard(ps, chain, orderly), Fresh());
  }

  lemma RouteOk<F(!new), G1(!new), G2(!new), GT(!new)>(ps: Params<F, G1, G2, GT>, chain: nat -> Block, orderly: bool,
      a: Node<State<F, G1, G2>, seq<byte>>, m: Message<seq<byte>>)
    requires Fits(ps, chain) && NodeOk(ps, chain, orderly, a) && Unforged(ps, chain, m)
      && (orderly ==> Orderly(ps, chain, m))
    ensures NodeOk(ps, chain, orderly, Route(Behaviour(ps), a, m))
  {
    BfkwConforms(ps);
    BfkwUpholds(ps, chain, orderly);
    RouteGood(Behaviour(ps), BehaviourGauge(ps), BfkwStandard(ps, chain, orderly), a, m, Route(Behaviour(ps), a, m));
  }

  /** Every re-encoding a run calls for is made in a sound state, so what it sends is unforged. */
  lemma ForwardUnforged<F(!new), G1(!new), G2(!new), GT(!new)>(ps: Params<F, G1, G2, GT>, chain: nat -> Block,
      orderly: bool, a: Node<State<F, G1, G2>, seq<byte>>, call: nat, alphas: seq<F>)
    requires Fits(ps, chain) && ps.gc.IsCodec() && NodeOk(ps, chain, orderly, a)
    requires call < |a.calls| && a.calls[call].Recode? && |alphas| == |a.calls[call].state.store.chunks|
    ensures a.calls[call].state.store.chunks != []
    ensures Unforged(ps, chain, Message(Data, a.calls[call].block,
      Serialize(ps.fc, ps.Codec(), Remixed(ps, a.calls[call].state.store, alphas))))
  {
    var c := a.calls[call];
    GoodIs(Behaviour(ps), BehaviourGauge(ps), BfkwStandard(ps, chain, orderly), a);
    assert CallsFit(Behaviour(ps), BehaviourGauge(ps), a) && Fit(Behaviour(ps), BehaviourGauge(ps), c);
    assert BfkwStandard(ps, chain, orderly).sound(c.block, Opened(a.log, c.block), c.state);
    RecodedUnforged(ps, chain, c.block, Opened(a.log, c.block), c.state, alphas);
  }

  lemma SentOk<F(!new), G1(!new), G2(!new), GT(!new)>(ps: Params<F, G1, G2, GT>, chain: nat -> Block, sk: F,
      orderly: bool, w: Net<F, G1, G2>, step: Step<F>)
    requires Fits(ps, chain) && ps.gc.IsCodec() && NetOk(ps, chain, orderly, w)
      && Enabled(ps, chain, orderly, w, step) && !step.Delivers?
    ensures var m := Sent(ps, chain, sk, orderly, w, step);
      Unforged(ps, chain, m) && (orderly ==> Orderly(ps, chain, m))
  {
    match step
    case Announces(k) => AnnouncementOrderly(ps, chain, k);
    case Proposes(k, b) => ProposedUnforged(ps, chain, k, sk, b);
    case Forwards(from, call, alphas) => ForwardUnforged(ps, chain, orderly, w.nodes[from], call, alphas);
    case Injects(m) =>
  }

  lemma {:induction false} ReachableOk<F(!new), G1(!new), G2(!new), GT(!new)>(ps: Params<F, G1, G2, GT>,
      chain: nat -> Block, sk: F, orderly: bool, size: nat, steps: seq<Step<F>>, worlds: seq<Net<F, G1, G2>>, k: nat)
    requires Fits(ps, chain) && ps.gc.IsCodec() && IsHistory(ps, chain, sk, orderly, size, steps, worlds)
      && k <= |steps|
    ensures |worlds[k].nodes| == size && NetOk(ps, chain, orderly, worlds[k])
  {
    if k == 0 {
      StartOk(ps, chain, orderly);
    } else {
      ReachableOk(ps, chain, sk, orderly, size, steps, worlds, k - 1);
      StepOk(ps, chain, sk, orderly, worlds[k - 1], steps[k - 1], worlds[k]);
    }
  }

  lemma NextOk<F(!new), G1(!new), G2(!new), GT(!new)>(ps: Params<F, G1, G2, GT>, chain: nat -> Block, sk: F,
      orderly: bool, w: Net<F, G1, G2>, step: Step<F>)
    requires Fits(ps, chain) && ps.gc.IsCodec() && NetOk(ps, chain, orderly, w)
      && Enabled(ps, chain, orderly, w, step)
    ensures var w' := Next(ps, chain, sk, orderly, w, step); NetOk(ps, chain, orderly, w') && |w'.nodes| == |w.nodes|
  {
    if step.Delivers? {
      RouteOk(ps, chain, orderly, w.nodes[step.to], step.m);
      NodeReplaced(ps, chain, orderly, w, step.to, Route(Behaviour(ps), w.nodes[step.to], step.m));
    } else {
      SentOk(ps, chain, sk, orderly, w, step);
      MessageAdded(ps, chain, orderly, w, Sent(ps, chain, sk, orderly, w, step));
    }
  }

  lemma NodeReplaced<F(!new), G1(!new), G2(!new), GT(!new)>(ps: Params<F, G1, G2, GT>, chain: nat -> Block,
      orderly: bool, w: Net<F, G1, G2>, to: nat, a: Node<State<F, G1, G2>, seq<byte>>)
    requires NetOk(ps, chain, orderly, w) && to < |w.nodes| && NodeOk(ps, chain, orderly, a)
    ensures NetOk(ps, chain, orderly, w.(nodes := w.nodes[to := a]))
  {
  }

  lemma MessageAdded<F(!new), G1(!new), G2(!new), GT(!new)>(ps: Params<F, G1, G2, GT>, chain: nat -> Block,
      orderly: bool, w: Net<F, G1, G2>, m: Message<seq<byte>>)
    requires NetOk(ps, chain, orderly, w) && Unforged(ps, chain, m) && (orderly ==> Orderly(ps, chain, m))
    ensures NetOk(ps, chain, orderly, w.(wire := w.wire + {m}))
  {
  }

  lemma StepOk<F(!new), G1(!new), G2(!new), GT(!new)>(ps: Params<F, G1, G2, GT>, chain: nat -> Block, sk: F,
      orderly: bool, w: Net<F, G1, G2>, step: Step<F>, w': Net<F, G1, G2>)
    requires Fits(ps, chain) && ps.gc.IsCodec() && NetOk(ps, chain, orderly, w)
    requires Leads(ps, chain, sk, orderly, w, step, w')
    ensures NetOk(ps, chain, orderly, w') && |w'.nodes| == |w.nodes|
  {
    assert At1(step);
    if Enabled(ps, chain, orderly, w, step) { NextOk(ps, chain, sk, orderly, w, step); }
  }

  // ---------- agreement ----------

  /** In every reachable network, whatever was lost, repeated, reordered or injected short of
      forged data, each node's `i`-th decoding is of block `i` and gives exactly `chain(i)`,
      unless the one announcement that opened the block at that node carried a useless length:
      then, and only then, the node has halted there. */
  lemma NetworkDecodesChain<F(!new), G1(!new), G2(!new), GT(!new)>(ps: Params<F, G1, G2, GT>, chain: nat -> Block,
      sk: F, size: nat, steps: seq<Step<F>>, worlds: seq<Net<F, G1, G2>>, k: nat, node: nat)
    requires Fits(ps, chain) && ps.gc.IsCodec() && IsHistory(ps, chain, sk, false, size, steps, worlds)
      && k <= |steps| && node < |worlds[k].nodes|
    ensures var a := worlds[k].nodes[node];
      && |Decodes(a.calls)| == a.decodedCount + (if a.phase.Halted? then 1 else 0)
      && forall i: nat :: i < |Decodes(a.calls)| ==> DecodesRightly(ps, chain, i, a)
  {
    ReachableOk(ps, chain, sk, false, size, steps, worlds, k);
    NodeDecodesChain(ps, chain, false, worlds[k].nodes[node]);
  }

  lemma NodeDecodesChain<F(!new), G1(!new), G2(!new), GT(!new)>(ps: Params<F, G1, G2, GT>, chain: nat -> Block,
      orderly: bool, a: Node<State<F, G1, G2>, seq<byte>>)
    requires Fits(ps, chain) && NodeOk(ps, chain, orderly, a)
    ensures |Decodes(a.calls)| == a.decodedCount + (if a.phase.Halted? then 1 else 0)
    ensures forall i: nat :: i < |Decodes(a.calls)| ==> DecodesRightly(ps, chain, i, a)
  {
    GoodIs(Behaviour(ps), BehaviourGauge(ps), BfkwStandard(ps, chain, orderly), a);
    assert CallsFit(Behaviour(ps), BehaviourGauge(ps), a) && InOrder(a);
    forall i: nat | i < |Decodes(a.calls)| ensures DecodesRightly(ps, chain, i, a) {
      SoundNodeDecodes(ps, chain, orderly, a, i);
    }
  }

  /** When nobody announces useless lengths no node ever halts, so all nodes that have decoded
      `i + 1` blocks agree on block `i`: it is the proposer's. */
  lemma OrderlyNetworkAgrees<F(!new), G1(!new), G2(!new), GT(!new)>(ps: Params<F, G1, G2, GT>, chain: nat -> Block,
      sk: F, size: nat, steps: seq<Step<F>>, worlds: seq<Net<F, G1, G2>>, k: nat, node: nat)
    requires Fits(ps, chain) && ps.gc.IsCodec() && IsHistory(ps, chain, sk, true, size, steps, worlds)
      && k <= |steps| && node < |worlds[k].nodes|
    ensures var a := worlds[k].nodes[node];
      && !a.phase.Halted? && |Decodes(a.calls)| == a.decodedCount
      && forall i: nat :: i < a.decodedCount ==>
        Decodes(a.calls)[i].block == i && Decoded(ps, Decodes(a.calls)[i].state) == Success(chain(i))
  {
    ReachableOk(ps, chain, sk, true, size, steps, worlds, k);
    var a := worlds[k].nodes[node];
    GoodIs(Behaviour(ps), BehaviourGauge(ps), BfkwStandard(ps, chain, true), a);
    OrderlyNeverHalts(ps, chain, a);
    NodeDecodesChain(ps, chain, true, a);
    forall i: nat | i < a.decodedCount ensures Decodes(a.calls)[i].block == i
      && Decoded(ps, Decodes(a.calls)[i].state) == Success(chain(i)) {
      assert DecodesRightly(ps, chain, i, a);
    }
  }

  // ---------- how far each node gets ----------

  /** Messages delivered to a node during the first `k` steps, in order. */
  ghost function Arrivals<F(!new), G1(!new), G2(!new)>(steps: seq<Step<F>>, worlds: seq<Net<F, G1, G2>>, node: nat,
      k: nat): seq<Message<seq<byte>>>
    requires |worlds| == |steps| + 1 && k <= |steps|
  {
    if k == 0 then [] else
      var before, step := Arrivals(steps, worlds, node, k - 1), steps[k - 1];
      if step.Delivers? && step.to == node && step.m in worlds[k - 1].wire then before + [step.m] else before
  }

  /** A delivery routes the message at its node; nothing else touches a node. Whatever else is
      done puts its message on the wire, and nothing is ever taken off it. */
  lemma NodeNext<F(!new), G1(!new), G2(!new), GT(!new)>(ps: Params<F, G1, G2, GT>, chain: nat -> Block, sk: F,
      orderly: bool, w: Net<F, G1, G2>, step: Step<F>, w': Net<F, G1, G2>, node: nat)
    requires Fits(ps, chain) && ps.gc.IsCodec() && Leads(ps, chain, sk, orderly, w, step, w') && node < |w.nodes|
    ensures |w'.nodes| == |w.nodes|
    ensures w'.nodes[node] == if step.Delivers? && step.to == node && step.m in w.wire
      then Route(Behaviour(ps), w.nodes[node], step.m) else w.nodes[node]
    ensures w.wire <= w'.wire
    ensures !step.Delivers? && Enabled(ps, chain, orderly, w, step) ==>
      Sent(ps, chain, sk, orderly, w, step) in w'.wire
  {
    assert At1(step);
  }

  /** A node of the network is what a run on the messages delivered to it makes of it. */
  lemma {:induction false} NodeIsRun<F(!new), G1(!new), G2(!new), GT(!new)>(ps: Params<F, G1, G2, GT>,
      chain: nat -> Block, sk: F, orderly: bool, size: nat, steps: seq<Step<F>>, worlds: seq<Net<F, G1, G2>>,
      node: nat, k: nat)
    requires Fits(ps, chain) && ps.gc.IsCodec() && IsHistory(ps, chain, sk, orderly, size, steps, worlds)
    requires k <= |steps| && node < size
    ensures var msgs := Arrivals(steps, worlds, node, k);
      |worlds[k].nodes| == size && worlds[k].nodes[node] == Received(Behaviour(ps), Fresh(), msgs, |msgs|)
  {
    if k > 0 {
      NodeIsRun(ps, chain, sk, orderly, size, steps, worlds, node, k - 1);
      var msgs := Arrivals(steps, worlds, node, k - 1);
      NodeNext(ps, chain, sk, orderly, worlds[k - 1], steps[k - 1], worlds[k], node);
      if steps[k - 1].Delivers? { ReceivedMore(Behaviour(ps), Fresh(), msgs, steps[k - 1].m); }
    }
  }

  lemma WireUnforged<F(!new), G1(!new), G2(!new), GT(!new)>(ps: Params<F, G1, G2, GT>, chain: nat -> Block, sk: F,
      orderly: bool, size: nat, steps: seq<Step<F>>, worlds: seq<Net<F, G1, G2>>, k: nat)
    requires Fits(ps, chain) && ps.gc.IsCodec() && IsHistory(ps, chain, sk, orderly, size, steps, worlds)
    requires k <= |steps|
    ensures forall m :: m in worlds[k].wire ==> Unforged(ps, chain, m)
  {
    ReachableOk(ps, chain, sk, orderly, size, steps, worlds, k);
  }

  lemma {:induction false} ArrivalsFrom<F(!new), G1(!new), G2(!new), GT(!new)>(ps: Params<F, G1, G2, GT>,
      chain: nat -> Block, steps: seq<Step<F>>, worlds: seq<Net<F, G1, G2>>, node: nat, k: nat)
    requires |worlds| == |steps| + 1 && k <= |steps|
    requires forall j :: 0 <= j < k ==> forall m :: m in worlds[j].wire ==> Unforged(ps, chain, m)
    ensures forall m :: m in Arrivals(steps, worlds, node, k) ==> Unforged(ps, chain, m)
  {
    if k > 0 { ArrivalsFrom(ps, chain, steps, worlds, node, k - 1); }
  }

  /** Nothing forged is ever delivered. */
  lemma ArrivalsUnforged<F(!new), G1(!new), G2(!new), GT(!new)>(ps: Params<F, G1, G2, GT>, chain: nat -> Block,
      sk: F, orderly: bool, size: nat, steps: seq<Step<F>>, worlds: seq<Net<F, G1, G2>>, node: nat, k: nat)
    requires Fits(ps, chain) && ps.gc.IsCodec() && IsHistory(ps, chain, sk, orderly, size, steps, worlds)
    requires k <= |steps|
    ensures forall m :: m in Arrivals(steps, worlds, node, k) ==> Unforged(ps, chain, m)
  {
    forall j | 0 <= j < k ensures forall m :: m in worlds[j].wire ==> Unforged(ps, chain, m) {
      WireUnforged(ps, chain, sk, orderly, size, steps, worlds, j);
    }
    ArrivalsFrom(ps, chain, steps, worlds, node, k);
  }

  /** In every history each node decodes exactly the blocks before the first that was not both
      delivered to it and served by the first announcement it received of it; it halts exactly
      if that one was delivered, so never if nobody announces useless lengths. */
  lemma NetworkProgress<F(!new), G1(!new), G2(!new), GT(!new)>(ps: Params<F, G1, G2, GT>, chain: nat -> Block, sk: F,
      orderly: bool, size: nat, steps: seq<Step<F>>, worlds: seq<Net<F, G1, G2>>, k: nat, node: nat)
    requires Fits(ps, chain) && ps.gc.IsCodec() && IsHistory(ps, chain, sk, orderly, size, steps, worlds)
    requires k <= |steps| && node < size
    ensures |worlds[k].nodes| == size
    ensures var a, msgs := worlds[k].nodes[node], Arrivals(steps, worlds, node, k);
      && (forall b: nat :: b < a.decodedCount ==> Delivered(ps, msgs, b) && Serves(ps, chain, msgs, b))
      && !(Delivered(ps, msgs, a.decodedCount) && Serves(ps, chain, msgs, a.decodedCount))
      && (Delivered(ps, msgs, a.decodedCount) <==> a.phase.Halted?) && (orderly ==> !a.phase.Halted?)
  {
    NodeIsRun(ps, chain, sk, orderly, size, steps, worlds, node, k);
    ArrivalsUnforged(ps, chain, sk, orderly, size, steps, worlds, node, k);
    HaltsExactly(ps, chain, Arrivals(steps, worlds, node, k));
    if orderly { OrderlyNetworkAgrees(ps, chain, sk, size, steps, worlds, k, node); }
  }
}
