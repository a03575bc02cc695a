/** A whole network coding one block: any topology, any delivery order, any loss and
    duplication, any mixing coefficients (crates/primitives/types/src/coding.rs,
    crates/strategy/core/src/helpers.rs). */
module Network {
  import opened Algebra
  import opened Span
  import opened Echelon
  import opened Rank
  import opened Coding
  import opened Integrity

  /** The block being sent, how packets are checked, how the proposer signs coefficients,
      and which packets count as genuine. */
  datatype Setting<!F(!new), !P(!new), !E> = Setting(
    f: Field<F>, n: nat, m: nat, vs: seq<seq<F>>,
    scheme: Scheme<F, P, E>, sign: seq<F> -> P, genuine: (CodedChunk<F>, P) -> bool)
  {
    ghost predicate IsSetting() {
      && f.IsField() && |vs| == n && AllIn(Vec(f, m), vs)
      && MixSafe(f, n, m, scheme, genuine)
      && forall b: seq<F> {:trigger sign(b)} :: |b| == n ==> genuine(Encode(f, m, vs, b), sign(b))
    }
  }

  /** Every node's store and every packet ever put on the wire. */
  datatype World<F(==), P(==)> = World(nodes: seq<Store<F, P>>, sent: set<SignedPacket<F, P>>)

  /** The proposer sends a coded chunk, a sent packet reaches a node (perhaps again), or a
      node sends a re-encoding of what it holds. */
  datatype Step<F, P> =
    | Propose(b: seq<F>)
    | Deliver(to: nat, packet: SignedPacket<F, P>)
    | Forward(from: nat, alphas: seq<F>)

  ghost predicate Enabled<F(!new), P(!new), E>(cfg: Setting<F, P, E>, w: World<F, P>, step: Step<F, P>) {
    match step
    case Propose(b) => |b| == cfg.n
    case Deliver(to, packet) => to < |w.nodes| && packet in w.sent
    case Forward(from, alphas) => from < |w.nodes| && w.nodes[from].chunks != [] && |alphas| == |w.nodes[from].chunks|
  }

  ghost function Next<F(!new), P(!new), E>(cfg: Setting<F, P, E>, w: World<F, P>, step: Step<F, P>): World<F, P>
    requires |cfg.vs| == cfg.n && Enabled(cfg, w, step)
  {
    match step
    case Propose(b) =>
      w.(sent := w.sent + {SignedPacket(Encode(cfg.f, cfg.m, cfg.vs, b), cfg.sign(b))})
    case Deliver(to, packet) =>
      w.(nodes := w.nodes[to := Receive(cfg.f, cfg.n, cfg.scheme, w.nodes[to], packet)])
    case Forward(from, alphas) =>
      w.(sent := w.sent + {Recode(cfg.f, cfg.n, cfg.m, cfg.scheme, w.nodes[from], alphas)})
  }

  ghost function Start<F, P>(size: nat): World<F, P> {
    World(seq(size, _ => Store([], [])), {})
  }

  /** The world after the first `k` steps; a step that is not enabled does nothing. */
  ghost function After<F(!new), P(!new), E>(cfg: Setting<F, P, E>, size: nat, steps: seq<Step<F, P>>,
      k: nat): (w: World<F, P>)
    requires |cfg.vs| == cfg.n && k <= |steps|
    ensures |w.nodes| == size
  {
    if k == 0 then Start(size) else
      var w := After(cfg, size, steps, k - 1);
      if Enabled(cfg, w, steps[k - 1]) then Next(cfg, w, steps[k - 1]) else w
  }

  // ---------- the invariant ----------

  /** Shaped right, genuine, and explained by the proposer's chunks. */
  ghost predicate Honest<F(!new), P(!new), E>(cfg: Setting<F, P, E>, pkt: SignedPacket<F, P>) {
    && |pkt.chunk.b| == cfg.n && |pkt.chunk.w| == cfg.m
    && Explains(cfg.f, cfg.m, cfg.vs, pkt.chunk) && cfg.genuine(pkt.chunk, pkt.proof)
  }

  ghost predicate HonestStore<F(!new), P(!new), E>(cfg: Setting<F, P, E>, s: Store<F, P>) {
    && Stocked(cfg.n, cfg.m, cfg.genuine, s) && Solves(cfg.f, cfg.n, cfg.m, cfg.vs, s.chunks)
    && HasForm(cfg.f, cfg.n, s.chunks)
  }

  ghost predicate HonestWorld<F(!new), P(!new), E>(cfg: Setting<F, P, E>, w: World<F, P>) {
    && (forall i :: 0 <= i < |w.nodes| ==> HonestStore(cfg, w.nodes[i]))
    && (forall pkt :: pkt in w.sent ==> Honest(cfg, pkt))
  }

  lemma ProposedHonest<F(!new), P(!new), E>(cfg: Setting<F, P, E>, b: seq<F>)
    requires cfg.IsSetting() && |b| == cfg.n
    ensures Honest(cfg, SignedPacket(Encode(cfg.f, cfg.m, cfg.vs, b), cfg.sign(b)))
  {
    VecIsSpace(cfg.f, cfg.m);
    LinIn(Vec(cfg.f, cfg.m), b, cfg.vs, cfg.n);
  }

  /** An honest packet is never rejected, and receiving it keeps the store honest. */
  lemma ReceiveHonest<F(!new), P(!new), E>(cfg: Setting<F, P, E>, s: Store<F, P>, pkt: SignedPacket<F, P>)
    requires cfg.IsSetting() && HonestStore(cfg, s) && Honest(cfg, pkt)
    ensures !ReceiptOf(cfg.f, cfg.n, cfg.scheme, s, pkt).Rejected?
    ensures HonestStore(cfg, Receive(cfg.f, cfg.n, cfg.scheme, s, pkt))
    ensures Receive(cfg.f, cfg.n, cfg.scheme, s, pkt).chunks == KeepChunk(cfg.f, cfg.n, s.chunks, pkt.chunk)
  {
    KeepChunkForm(cfg.f, cfg.n, s.chunks, pkt.chunk);
  }

  lemma RecodeHonest<F(!new), P(!new), E>(cfg: Setting<F, P, E>, s: Store<F, P>, alphas: seq<F>)
    requires cfg.IsSetting() && HonestStore(cfg, s) && s.chunks != [] && |alphas| == |s.chunks|
    ensures Honest(cfg, Recode(cfg.f, cfg.n, cfg.m, cfg.scheme, s, alphas))
  {
    MixExplained(cfg.f, cfg.n, cfg.m, cfg.vs, s.chunks, alphas);
    assert At2(s, alphas);
  }

  lemma EmptyHonest<F(!new), P(!new), E>(cfg: Setting<F, P, E>)
    requires cfg.IsSetting()
    ensures HonestStore(cfg, Store([], []))
  {
    EmptyRepresents(cfg.f, cfg.n);
    assert Represents(cfg.f, cfg.n, Empty(), Coefficients<F>([]));
  }

  lemma {:induction false} ReachableHonest<F(!new), P(!new), E>(cfg: Setting<F, P, E>, size: nat,
      steps: seq<Step<F, P>>, k: nat)
    requires cfg.IsSetting() && k <= |steps|
    ensures HonestWorld(cfg, After(cfg, size, steps, k))
  {
    if k == 0 {
      EmptyHonest(cfg);
    } else {
      ReachableHonest(cfg, size, steps, k - 1);
      var w := After(cfg, size, steps, k - 1);
      if Enabled(cfg, w, steps[k - 1]) {
        match steps[k - 1]
        case Propose(b) => ProposedHonest(cfg, b);
        case Deliver(to, packet) => ReceiveHonest(cfg, w.nodes[to], packet);
        case Forward(from, alphas) => RecodeHonest(cfg, w.nodes[from], alphas);
      }
    }
  }

  // ---------- agreement ----------

  /** Network-wide agreement: in every reachable world every packet ever sent verifies,
      and a node holding `n` chunks has the proposer's chunks as the only answer its
      decoder can give. */
  lemma Agreement<F(!new), P(!new), E>(cfg: Setting<F, P, E>, size: nat, steps: seq<Step<F, P>>, node: nat,
      decoded: seq<seq<F>>)
    requires cfg.IsSetting() && node < size
    ensures var w := After(cfg, size, steps, |steps|);
      && (forall pkt :: pkt in w.sent ==> cfg.scheme.verify(pkt.chunk, pkt.proof).Pass?)
      && |w.nodes[node].proofs| == |w.nodes[node].chunks|
      && (|w.nodes[node].chunks| == cfg.n ==>
           (Solves(cfg.f, cfg.n, cfg.m, decoded, w.nodes[node].chunks) <==> decoded == cfg.vs))
  {
    ReachableHonest(cfg, size, steps, |steps|);
    var s := After(cfg, size, steps, |steps|).nodes[node];
    if |s.chunks| == cfg.n && Solves(cfg.f, cfg.n, cfg.m, decoded, s.chunks) {
      SolutionUnique(cfg.f, cfg.n, cfg.m, decoded, cfg.vs, s.chunks);
    }
  }

  // ---------- which deliveries suffice ----------

  /** Coefficient vectors delivered to `node` during the first `k` steps. */
  ghost function Inbox<F(!new), P(!new), E>(cfg: Setting<F, P, E>, size: nat, steps: seq<Step<F, P>>, k: nat,
      node: nat): seq<seq<F>>
    requires |cfg.vs| == cfg.n && k <= |steps|
  {
    if k == 0 then [] else
      var before, step := Inbox(cfg, size, steps, k - 1, node), steps[k - 1];
      if step.Deliver? && step.to == node && Enabled(cfg, After(cfg, size, steps, k - 1), step)
      then before + [step.packet.chunk.b] else before
  }

  /** What step `k` does to one node: a delivery is kept if it is news, any other step
      leaves the node alone. */
  lemma NodeStep<F(!new), P(!new), E>(cfg: Setting<F, P, E>, size: nat, steps: seq<Step<F, P>>, k: nat, node: nat)
    returns (delivered: bool, b: seq<F>)
    requires cfg.IsSetting() && 0 < k <= |steps| && node < size
    ensures var before, after := After(cfg, size, steps, k - 1).nodes[node].chunks,
      After(cfg, size, steps, k).nodes[node].chunks;
      Coefficients(after) == if delivered then Keep(Vec(cfg.f, cfg.n), Coefficients(before), b)
        else Coefficients(before)
    ensures Inbox(cfg, size, steps, k, node) ==
      if delivered then Inbox(cfg, size, steps, k - 1, node) + [b] else Inbox(cfg, size, steps, k - 1, node)
    ensures delivered ==> |b| == cfg.n
  {
    ReachableHonest(cfg, size, steps, k - 1);
    var w, step := After(cfg, size, steps, k - 1), steps[k - 1];
    delivered := step.Deliver? && step.to == node && Enabled(cfg, w, step);
    b := if delivered then step.packet.chunk.b else [];
    if delivered {
      ReceiveHonest(cfg, w.nodes[node], step.packet);
      KeptCoefficients(cfg.f, cfg.n, w.nodes[node].chunks, step.packet.chunk);
    }
  }

  lemma {:induction false} InboxSized<F(!new), P(!new), E>(cfg: Setting<F, P, E>, size: nat, steps: seq<Step<F, P>>,
      k: nat, node: nat)
    requires cfg.IsSetting() && k <= |steps| && node < size
    ensures AllIn(Vec(cfg.f, cfg.n), Inbox(cfg, size, steps, k, node))
  {
    if k > 0 {
      InboxSized(cfg, size, steps, k - 1, node);
      var delivered, b := NodeStep(cfg, size, steps, k, node);
      if delivered { VectorAdded(cfg.f, cfg.n, Inbox(cfg, size, steps, k - 1, node), b); }
    }
  }

  lemma VectorAdded<F(!new)>(f: Field<F>, n: nat, vs: seq<seq<F>>, v: seq<F>)
    requires AllIn(Vec(f, n), vs) && |v| == n
    ensures AllIn(Vec(f, n), vs + [v])
  {
  }

  /** A node holds exactly the deliveries that were news when they came. */
  lemma {:induction false} StoreKeepsInbox<F(!new), P(!new), E>(cfg: Setting<F, P, E>, size: nat,
      steps: seq<Step<F, P>>, k: nat, node: nat)
    requires cfg.IsSetting() && k <= |steps| && node < size
    ensures Coefficients(After(cfg, size, steps, k).nodes[node].chunks)
      == KeepAll(Vec(cfg.f, cfg.n), Inbox(cfg, size, steps, k, node), |Inbox(cfg, size, steps, k, node)|)
  {
    if k > 0 {
      StoreKeepsInbox(cfg, size, steps, k - 1, node);
      var before, after := After(cfg, size, steps, k - 1).nodes[node].chunks,
        After(cfg, size, steps, k).nodes[node].chunks;
      var box, box' := Inbox(cfg, size, steps, k - 1, node), Inbox(cfg, size, steps, k, node);
      var delivered, b := NodeStep(cfg, size, steps, k, node);
      KeepOneMore(Vec(cfg.f, cfg.n), box, box', Coefficients(before), Coefficients(after), delivered, b);
    }
  }

  lemma KeepOneMore<F(!new), V(!new)>(s: Space<F, V>, box: seq<V>, box': seq<V>, held: seq<V>, held': seq<V>,
      delivered: bool, v: V)
    requires held == KeepAll(s, box, |box|)
    requires held' == (if delivered then Keep(s, held, v) else held) && box' == if delivered then box + [v] else box
    ensures held' == KeepAll(s, box', |box'|)
  {
    KeepAllAppend(s, box, v);
  }

  /** A node can decode exactly when its deliveries span the whole coefficient space. */
  lemma CompleteIffSpans<F(!new), P(!new), E>(cfg: Setting<F, P, E>, size: nat, steps: seq<Step<F, P>>, node: nat)
    requires cfg.IsSetting() && node < size
    ensures var box := Inbox(cfg, size, steps, |steps|, node);
      |After(cfg, size, steps, |steps|).nodes[node].chunks| == cfg.n
      <==> forall c :: 0 <= c < cfg.n ==> InSpan(Vec(cfg.f, cfg.n), box, Basis(cfg.f, cfg.n, c))
  {
    var box, chunks := Inbox(cfg, size, steps, |steps|, node), After(cfg, size, steps, |steps|).nodes[node].chunks;
    InboxSized(cfg, size, steps, |steps|, node);
    StoreKeepsInbox(cfg, size, steps, |steps|, node);
    ReachableHonest(cfg, size, steps, |steps|);
    CompleteIffBoxSpans(cfg.f, cfg.n, chunks, box);
  }

  /** Two nodes whose deliveries span the same space are equally far along, whatever the
      order and multiplicity of arrival. */
  lemma ProgressFromSpan<F(!new), P(!new), E>(cfg: Setting<F, P, E>, size: nat, steps: seq<Step<F, P>>, a: nat,
      b: nat)
    requires cfg.IsSetting() && a < size && b < size
    requires SameSpan(Vec(cfg.f, cfg.n), Inbox(cfg, size, steps, |steps|, a), Inbox(cfg, size, steps, |steps|, b))
    ensures var w := After(cfg, size, steps, |steps|); |w.nodes[a].chunks| == |w.nodes[b].chunks|
  {
    InboxSized(cfg, size, steps, |steps|, a);
    InboxSized(cfg, size, steps, |steps|, b);
    StoreKeepsInbox(cfg, size, steps, |steps|, a);
    StoreKeepsInbox(cfg, size, steps, |steps|, b);
    RankDependsOnSpan(cfg.f, cfg.n, Inbox(cfg, size, steps, |steps|, a), Inbox(cfg, size, steps, |steps|, b));
  }

  // ---------- no dead ends ----------

  /** Earlier worlds and deliveries do not depend on later steps. */
  lemma {:induction false} Prefix<F(!new), P(!new), E>(cfg: Setting<F, P, E>, size: nat, steps: seq<Step<F, P>>,
      more: seq<Step<F, P>>, k: nat, node: nat)
    requires |cfg.vs| == cfg.n && k <= |steps|
    ensures After(cfg, size, steps + more, k) == After(cfg, size, steps, k)
    ensures Inbox(cfg, size, steps + more, k, node) == Inbox(cfg, size, steps, k, node)
  {
    if k > 0 { Prefix(cfg, size, steps, more, k - 1, node); }
  }

  /** Whatever has happened, the proposer can send one more packet and have it delivered. */
  lemma SendOne<F(!new), P(!new), E>(cfg: Setting<F, P, E>, size: nat, steps: seq<Step<F, P>>, node: nat, b: seq<F>)
      returns (steps': seq<Step<F, P>>)
    requires |cfg.vs| == cfg.n && node < size && |b| == cfg.n
    ensures steps <= steps'
    ensures Inbox(cfg, size, steps', |steps'|, node) == Inbox(cfg, size, steps, |steps|, node) + [b]
  {
    var pkt := SignedPacket(Encode(cfg.f, cfg.m, cfg.vs, b), cfg.sign(b));
    var proposed: seq<Step<F, P>> := steps + [Propose(b)];
    steps' := proposed + [Deliver(node, pkt)];
    Prefix(cfg, size, steps, [Propose(b)], |steps|, node);
    Prefix(cfg, size, proposed, [Deliver(node, pkt)], |proposed|, node);
    assert pkt in After(cfg, size, proposed, |proposed|).sent;
    assert Enabled(cfg, After(cfg, size, proposed, |proposed|), Deliver(node, pkt));
  }

  lemma {:induction false} SendBasis<F(!new), P(!new), E>(cfg: Setting<F, P, E>, size: nat, steps: seq<Step<F, P>>,
      node: nat, k: nat)
      returns (steps': seq<Step<F, P>>)
    requires |cfg.vs| == cfg.n && node < size && k <= cfg.n
    ensures steps <= steps'
    ensures forall c :: 0 <= c < k ==> Basis(cfg.f, cfg.n, c) in Inbox(cfg, size, steps', |steps'|, node)
  {
    if k == 0 {
      steps' := steps;
    } else {
      var before := SendBasis(cfg, size, steps, node, k - 1);
      steps' := SendOne(cfg, size, before, node, Basis(cfg.f, cfg.n, k - 1));
    }
  }

  /** No reachable world is a dead end: from any of them every node can still be completed. */
  lemma CanComplete<F(!new), P(!new), E>(cfg: Setting<F, P, E>, size: nat, steps: seq<Step<F, P>>, node: nat)
      returns (steps': seq<Step<F, P>>)
    requires cfg.IsSetting() && node < size
    ensures steps <= steps' && |After(cfg, size, steps', |steps'|).nodes[node].chunks| == cfg.n
  {
    steps' := SendBasis(cfg, size, steps, node, cfg.n);
    var box := Inbox(cfg, size, steps', |steps'|, node);
    InboxSized(cfg, size, steps', |steps'|, node);
    VecIsSpace(cfg.f, cfg.n);
    forall c | 0 <= c < cfg.n ensures InSpan(Vec(cfg.f, cfg.n), box, Basis(cfg.f, cfg.n, c)) {
      var i :| 0 <= i < |box| && box[i] == Basis(cfg.f, cfg.n, c);
      SpanMember(Vec(cfg.f, cfg.n), box, i);
    }
    CompleteIffSpans(cfg, size, steps', node);
  }
}
