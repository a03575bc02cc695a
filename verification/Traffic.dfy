/** What each delivered packet was good for, and what each node sends and receives
    (crates/sim/src/engine.rs). */
module Traffic {
  import opened StrategyCore
  import opened Distinct
  import opened Topology
  import opened Engine
  import opened Flooding

  // ---------- what a packet was good for ----------

  /** The event finds its node not yet decoded. */
  predicate Awaited<S, P(==)>(s: Sim<S, P>, e: Event<P>) {
    e.to < |s.decodeTimes| && s.decodeTimes[e.to].None?
  }

  /** And the node finds the packet useful. */
  predicate Helps<S(!new), P(!new, ==), E>(cfg: Config<S, P, E>, s: Sim<S, P>, e: Event<P>) {
    Awaited(s, e) && e.to < |s.states| && cfg.strategy.receive(s.states[e.to], e.packet).0.Useful?
  }

  /** An event counts as useful if it helps, as redundant if it was awaited in vain, and not at
      all if its node had already decoded. */
  lemma DeliverCounts<S(!new), P(!new), E>(cfg: Config<S, P, E>, s: Sim<S, P>, e: Event<P>, draw: nat)
    requires Fits(s, |cfg.mesh|) && e.to < |cfg.mesh|
    requires forall i :: 0 <= i < |cfg.mesh[e.to]| ==> cfg.mesh[e.to][i] < |cfg.mesh|
    ensures var r := Deliver(cfg, s, e, draw);
      && r.useful == s.useful + (if Helps(cfg, s, e) then 1 else 0)
      && r.useful + r.redundant == s.useful + s.redundant + (if Awaited(s, e) then 1 else 0)
      && r.useful + r.redundant + r.ignored == s.useful + s.redundant + s.ignored + 1
  {
    if Awaited(s, e) {
      var (receipt, state) := cfg.strategy.receive(s.states[e.to], e.packet);
      var packets := cfg.strategy.forward(state, |cfg.mesh[e.to]|, draw);
      SendAllCounts(cfg, Taken(cfg, s, e), e.to, e.time, packets, Least(|cfg.mesh[e.to]|, |packets|));
    }
  }

  lemma {:induction false} SendAllCounts<S(!new), P(!new), E>(cfg: Config<S, P, E>, s: Sim<S, P>, from: nat,
      now: nat, packets: seq<P>, k: nat)
    requires from < |cfg.mesh| && k <= |cfg.mesh[from]| && k <= |packets|
    requires |s.upload| == |s.download| == |cfg.mesh| && forall i :: 0 <= i < k ==> cfg.mesh[from][i] < |cfg.mesh|
    ensures var r := SendAll(cfg, s, from, now, packets, k); 
      r.useful == s.useful && r.redundant == s.redundant && r.ignored == s.ignored
  {
    if k > 0 { SendAllCounts(cfg, s, from, now, packets, k - 1); }
  }

  /** Under full-block forwarding every awaited packet helps. */
  lemma EagerHelps<S(!new), P(!new), E>(cfg: Config<S, P, E>, pr: Progress<S, P>, s: Sim<S, P>, e: Event<P>)
    requires Lawful(cfg.strategy, pr) && Eager(cfg.strategy, pr) && Consistent(cfg, pr, s) && e in s.queue
    ensures Awaited(s, e) ==> Helps(cfg, s, e)
  {
    if Awaited(s, e) {
      assert pr.ok(s.states[e.to]);
      assert At(s.states[e.to], e.packet);
    }
  }

  // ---------- what a node sends and receives ----------

  /** Batches node `v` has sent. */
  function BatchesOf<S(!new), P(!new, ==), E>(cfg: Config<S, P, E>, pr: Progress<S, P>, s: Sim<S, P>, v: nat): nat
    requires v < |s.states| && v < |s.decodeTimes| && v < |s.hasForwarded|
  {
    match cfg.strategy.cond
    case AfterDecode => if s.decodeTimes[v].Some? then 1 else 0
    case OneShot => if v == 0 || s.hasForwarded[v] then 1 else 0
    case UntilDecode => if v == 0 then 1 else pr.rank(s.states[v])
  }

  function AllBatches<S(!new), P(!new, ==), E>(cfg: Config<S, P, E>, pr: Progress<S, P>, s: Sim<S, P>): (c: seq<nat>)
    requires Fits(s, |cfg.mesh|)
    ensures |c| == |cfg.mesh| && forall v :: 0 <= v < |c| ==> c[v] == BatchesOf(cfg, pr, s, v)
  {
    seq(|cfg.mesh|, v requires 0 <= v < |cfg.mesh| => BatchesOf(cfg, pr, s, v))
  }

  /** Batches sent by the first `k` nodes that have `v` for a peer. */
  function Inbound(mesh: seq<seq<nat>>, counts: seq<nat>, v: nat, k: nat): nat
    requires k <= |mesh| && k <= |counts|
  {
    if k == 0 then 0 else Inbound(mesh, counts, v, k - 1) + if v in mesh[k - 1] then counts[k - 1] else 0
  }

  lemma {:induction false} InboundMore(mesh: seq<seq<nat>>, counts: seq<nat>, u: nat, v: nat, k: nat)
    requires k <= |mesh| == |counts| && u < |counts|
    ensures Inbound(mesh, counts[u := counts[u] + 1], v, k) ==
      Inbound(mesh, counts, v, k) + if u < k && v in mesh[u] then 1 else 0
  {
    if k > 0 { InboundMore(mesh, counts, u, v, k - 1); }
  }

  lemma {:induction false} InboundNone(mesh: seq<seq<nat>>, counts: seq<nat>, v: nat, k: nat)
    requires k <= |mesh| == |counts| && forall u :: 0 <= u < k ==> counts[u] == 0
    ensures Inbound(mesh, counts, v, k) == 0
  {
    if k > 0 { InboundNone(mesh, counts, v, k - 1); }
  }

  predicate IsPeer(mesh: seq<seq<nat>>, u: nat, v: nat) {
    u < |mesh| && v in mesh[u]
  }

  /** How many nodes have `v` for a peer. */
  ghost function Indegree(mesh: seq<seq<nat>>, v: nat): nat {
    |set u | 0 <= u < |mesh| && IsPeer(mesh, u, v)|
  }

  lemma {:induction false} InboundOnce(mesh: seq<seq<nat>>, counts: seq<nat>, v: nat, k: nat)
    requires k <= |mesh| == |counts| && forall u :: 0 <= u < k ==> counts[u] == 1
    ensures Inbound(mesh, counts, v, k) == |set u | 0 <= u < k && IsPeer(mesh, u, v)|
  {
    var now := set u | 0 <= u < k && IsPeer(mesh, u, v);
    if k == 0 {
      assert now == {};
    } else {
      InboundOnce(mesh, counts, v, k - 1);
      var before := set u | 0 <= u < k - 1 && IsPeer(mesh, u, v);
      assert now == before + if v in mesh[k - 1] then {k - 1} else {};
    }
  }

  /** Each node has uploaded one packet per batch and peer, and downloaded one per batch sent by
      a node it is a peer of. */
  ghost predicate Carries<S(!new), P(!new), E>(cfg: Config<S, P, E>, pr: Progress<S, P>, s: Sim<S, P>, bytes: nat) {
    && Fits(s, |cfg.mesh|)
    && forall v :: 0 <= v < |cfg.mesh| ==>
        && s.upload[v] == bytes * cfg.degree * BatchesOf(cfg, pr, s, v)
        && s.download[v] == bytes * Inbound(cfg.mesh, AllBatches(cfg, pr, s), v, |cfg.mesh|)
  }

  /** What the first `k` packets of a batch cost the sender and its peers. */
  lemma {:induction false} SendAllCharges<S(!new), P(!new), E>(cfg: Config<S, P, E>, s: Sim<S, P>, from: nat,
      now: nat, packets: seq<P>, k: nat, bytes: nat, v: nat)
    requires from < |cfg.mesh| && k <= |cfg.mesh[from]| && k <= |packets| && |s.upload| == |s.download| == |cfg.mesh|
    requires PeersOk(cfg.mesh[from], |cfg.mesh|, from) && v < |cfg.mesh|
    requires forall i :: 0 <= i < k ==> cfg.strategy.size(packets[i]) == bytes
    ensures var r := SendAll(cfg, s, from, now, packets, k);
      && r.upload[v] == s.upload[v] + (if v == from then bytes * k else 0)
      && r.download[v] == s.download[v] + (if v in cfg.mesh[from][..k] then bytes else 0)
  {
    if k > 0 {
      SendAllCharges(cfg, s, from, now, packets, k - 1, bytes, v);
      NextCharges(cfg, s, SendAll(cfg, s, from, now, packets, k - 1), from, now, packets, k, bytes, v);
    }
  }

  lemma NextCharges<S(!new), P(!new), E>(cfg: Config<S, P, E>, s: Sim<S, P>, mid: Sim<S, P>, from: nat, now: nat,
      packets: seq<P>, k: nat, bytes: nat, v: nat)
    requires from < |cfg.mesh| && 0 < k <= |cfg.mesh[from]| && k <= |packets|
    requires |s.upload| == |s.download| == |mid.upload| == |mid.download| == |cfg.mesh| && v < |cfg.mesh|
    requires PeersOk(cfg.mesh[from], |cfg.mesh|, from) && cfg.strategy.size(packets[k - 1]) == bytes
    requires mid.upload[v] == s.upload[v] + (if v == from then bytes * (k - 1) else 0)
    requires mid.download[v] == s.download[v] + (if v in cfg.mesh[from][..k - 1] then bytes else 0)
    ensures var r := Send(cfg, mid, from, now, cfg.mesh[from][k - 1], packets[k - 1]);
      && r.upload[v] == s.upload[v] + (if v == from then bytes * k else 0)
      && r.download[v] == s.download[v] + (if v in cfg.mesh[from][..k] then bytes else 0)
  {
    SendCharges(cfg, mid, from, now, cfg.mesh[from][k - 1], packets[k - 1], v);
    OneMorePeer(cfg.mesh[from], k, v);
    OneMoreCharge(bytes, k, v == from);
  }

  lemma SendCharges<S(!new), P(!new), E>(cfg: Config<S, P, E>, s: Sim<S, P>, from: nat, now: nat, peer: nat,
      packet: P, v: nat)
    requires |s.upload| == |s.download| && from < |s.upload| && peer < |s.download| && v < |s.upload|
    ensures var r, bytes := Send(cfg, s, from, now, peer, packet), cfg.strategy.size(packet);
      && r.upload[v] == s.upload[v] + (if v == from then bytes else 0)
      && r.download[v] == s.download[v] + (if v == peer then bytes else 0)
  {
  }

  lemma OneMorePeer(peers: seq<nat>, k: nat, v: nat)
    requires 0 < k <= |peers| && IsDistinct(peers)
    ensures v in peers[..k] <==> v in peers[..k - 1] || v == peers[k - 1]
    ensures peers[k - 1] !in peers[..k - 1]
  {
    assert peers[..k] == peers[..k - 1] + [peers[k - 1]];
  }

  lemma OneMoreCharge(bytes: nat, k: nat, sender: bool)
    requires k > 0
    ensures (if sender then bytes * (k - 1) else 0) + (if sender then bytes else 0) == if sender then bytes * k else 0
  {
    OneMore(bytes, k - 1);
  }

  lemma OneMore(a: nat, b: nat)
    ensures a * (b + 1) == a * b + a
  {
  }

  ghost predicate Charged<S(!new), P(!new), E>(cfg: Config<S, P, E>, s: Sim<S, P>, e: Event<P>, r: Sim<S, P>,
      x: Effect<S, P>, bytes: nat)
    requires e.to < |cfg.mesh| && Fits(s, |cfg.mesh|) && Fits(r, |cfg.mesh|)
  {
    forall v :: 0 <= v < |cfg.mesh| ==>
      && r.upload[v] == s.upload[v] + (if x.forwards && v == e.to then bytes * cfg.degree else 0)
      && r.download[v] == s.download[v] + (if x.forwards && v in cfg.mesh[e.to] then bytes else 0)
  }

  lemma BatchCharged<S(!new), P(!new), E>(cfg: Config<S, P, E>, pr: Progress<S, P>, s: Sim<S, P>, base: Sim<S, P>,
      e: Event<P>, r: Sim<S, P>, x: Effect<S, P>, bytes: nat)
    requires cfg.Meshed() && Fits(s, |cfg.mesh|) && Fits(r, |cfg.mesh|) && e.to < |cfg.mesh| && x.forwards
    requires Fits(base, |cfg.mesh|) && base.upload == s.upload && base.download == s.download
    requires Uniform(cfg, pr, bytes) && |x.packets| == cfg.degree
      && forall i :: 0 <= i < cfg.degree ==> pr.okPacket(x.packets[i])
    requires PeersOk(cfg.mesh[e.to], |cfg.mesh|, e.to)
    requires Sends(cfg, base, e, r, x)
    ensures Charged(cfg, s, e, r, x, bytes)
  {
    assert cfg.mesh[e.to][..cfg.degree] == cfg.mesh[e.to];
    forall v | 0 <= v < |cfg.mesh|
      ensures r.upload[v] == s.upload[v] + (if v == e.to then bytes * cfg.degree else 0)
      ensures r.download[v] == s.download[v] + (if v in cfg.mesh[e.to] then bytes else 0)
    {
      SendAllCharges(cfg, base, e.to, e.time, x.packets, cfg.degree, bytes, v);
    }
  }

  /** One more batch of `e.to`, if it forwards. */
  lemma ProcessedCounts<S(!new), P(!new), E>(cfg: Config<S, P, E>, pr: Progress<S, P>, s: Sim<S, P>, e: Event<P>,
      r: Sim<S, P>, x: Effect<S, P>)
    requires Consistent(cfg, pr, s) && e in s.queue && s.decodeTimes[e.to].None? && Processed(cfg, pr, s, e, r, x)
    ensures var c := AllBatches(cfg, pr, s);
      AllBatches(cfg, pr, r) == if x.forwards then c[e.to := c[e.to] + 1] else c
  {
  }

  lemma ProcessedCarries<S(!new), P(!new), E>(cfg: Config<S, P, E>, pr: Progress<S, P>, s: Sim<S, P>, e: Event<P>,
      r: Sim<S, P>, x: Effect<S, P>, bytes: nat)
    requires Fits(s, |cfg.mesh|) && Fits(r, |cfg.mesh|) && e.to < |cfg.mesh|
    requires Carries(cfg, pr, s, bytes) && Charged(cfg, s, e, r, x, bytes)
    requires var c := AllBatches(cfg, pr, s);
      AllBatches(cfg, pr, r) == if x.forwards then c[e.to := c[e.to] + 1] else c
    ensures Carries(cfg, pr, r, bytes)
  {
    var c, c' := AllBatches(cfg, pr, s), AllBatches(cfg, pr, r);
    forall v | 0 <= v < |cfg.mesh|
      ensures r.upload[v] == bytes * cfg.degree * c'[v]
      ensures r.download[v] == bytes * Inbound(cfg.mesh, c', v, |cfg.mesh|)
    {
      assert s.upload[v] == bytes * cfg.degree * c[v];
      OneMore(bytes * cfg.degree, c[v]);
      OneMore(bytes, Inbound(cfg.mesh, c, v, |cfg.mesh|));
      InboundMore(cfg.mesh, c, e.to, v, |cfg.mesh|);
    }
  }

  /** With packets of one size an iteration keeps every node's byte counts. */
  lemma DeliverCarries<S(!new), P(!new), E>(cfg: Config<S, P, E>, pr: Progress<S, P>, s: Sim<S, P>, e: Event<P>,
      draw: nat, bytes: nat)
    requires Lawful(cfg.strategy, pr) && Consistent(cfg, pr, s) && e in s.queue && Uniform(cfg, pr, bytes)
    requires Carries(cfg, pr, s, bytes)
    ensures Carries(cfg, pr, Deliver(cfg, s, e, draw), bytes)
  {
    var r := Deliver(cfg, s, e, draw);
    if Awaited(s, e) {
      var x := DeliverProcessed(cfg, pr, s, e, draw);
      if x.forwards { BatchCharged(cfg, pr, s, Taken(cfg, s, e), e, r, x, bytes); }
      ProcessedCounts(cfg, pr, s, e, r, x);
      ProcessedCarries(cfg, pr, s, e, r, x, bytes);
    } else {
      assert AllBatches(cfg, pr, r) == AllBatches(cfg, pr, s);
    }
  }

  /** At the start only the proposer has sent a batch. */
  lemma LaunchCounts<S(!new), P(!new), E>(cfg: Config<S, P, E>, pr: Progress<S, P>, proposer: S, packets: seq<P>)
    requires cfg.Meshed() && Lawful(cfg.strategy, pr) && |packets| == cfg.degree
    ensures var s := Launch(cfg, proposer, packets, cfg.degree);
      Fits(s, |cfg.mesh|) && AllBatches(cfg, pr, s) == seq(|cfg.mesh|, _ => 0)[0 := 1]
  {
    LaunchBatch(cfg, proposer, packets);
  }

  lemma LaunchCharged<S(!new), P(!new), E>(cfg: Config<S, P, E>, pr: Progress<S, P>, proposer: S, packets: seq<P>,
      bytes: nat, v: nat)
    requires cfg.Meshed() && Supplies(cfg, pr, packets) && Uniform(cfg, pr, bytes) && v < |cfg.mesh|
    ensures var s := Launch(cfg, proposer, packets, cfg.degree);
      && s.upload[v] == (if v == 0 then bytes * cfg.degree else 0)
      && s.download[v] == (if v in cfg.mesh[0] then bytes else 0)
  {
    assert PeersOk(cfg.mesh[0], |cfg.mesh|, 0) && cfg.mesh[0][..cfg.degree] == cfg.mesh[0];
    SendAllCharges(cfg, Launch(cfg, proposer, packets, 0), 0, 0, packets, cfg.degree, bytes, v);
  }

  lemma LaunchCarries<S(!new), P(!new), E>(cfg: Config<S, P, E>, pr: Progress<S, P>, proposer: S, packets: seq<P>,
      bytes: nat)
    requires cfg.Meshed() && Lawful(cfg.strategy, pr) && Supplies(cfg, pr, packets) && Uniform(cfg, pr, bytes)
    ensures Carries(cfg, pr, Launch(cfg, proposer, packets, cfg.degree), bytes)
  {
    var s, none := Launch(cfg, proposer, packets, cfg.degree), seq(|cfg.mesh|, _ => 0);
    LaunchCounts(cfg, pr, proposer, packets);
    forall v | 0 <= v < |cfg.mesh|
      ensures s.upload[v] == bytes * cfg.degree * BatchesOf(cfg, pr, s, v)
      ensures s.download[v] == bytes * Inbound(cfg.mesh, AllBatches(cfg, pr, s), v, |cfg.mesh|)
    {
      assert BatchesOf(cfg, pr, s, v) == AllBatches(cfg, pr, s)[v];
      LaunchCharged(cfg, pr, proposer, packets, bytes, v);
      InboundNone(cfg.mesh, none, v, |cfg.mesh|);
      InboundMore(cfg.mesh, none, 0, v, |cfg.mesh|);
    }
  }
}
