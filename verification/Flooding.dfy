/** Full-block forwarding reaches every node at its hop distance
    (crates/strategy/baseline/src/lib.rs, crates/sim/src/engine.rs). */
module Flooding {
  import opened Wrappers
  import opened StrategyCore
  import opened Topology
  import opened Engine

  /** One packet decodes a node, and a node forwards once decoded. */
  ghost predicate Eager<S(!new), P(!new), E>(st: Strategy<S, P, E>, pr: Progress<S, P>) {
    && pr.bound == 1 && st.cond == AfterDecode
    && forall s, p {:trigger At(s, p)} :: At(s, p) && pr.ok(s) && pr.rank(s) == 0 && pr.okPacket(p) ==>
      st.receive(s, p).0 == Useful
  }

  // ---------- the baseline strategy ----------

  /** Baseline node state: the block's bytes once received. */
  function Baseline<B(!new)>(length: B -> nat): Strategy<Option<B>, B, string> {
    Strategy(AfterDecode, None,
             (s: Option<B>, p: B) => if s.Some? then (Redundant, s) else (Useful, Some(p)),
             (s: Option<B>) => s.Some?,
             (s: Option<B>, k: nat, draw: nat) => if s.Some? then seq(k, _ => s.value) else [],
             length)
  }

  /** Rank one, and only the proposer's bytes are ever held or sent. */
  function BaselineProgress<B(!new, ==)>(block: B): Progress<Option<B>, B> {
    Progress(1, (s: Option<B>) => if s.Some? then 1
      else 0, (s: Option<B>) => s.None? || s.value == block, (p: B) => p == block)
  }

  lemma BaselineLawful<B(!new)>(length: B -> nat, block: B)
    ensures Lawful(Baseline(length), BaselineProgress(block)) && Eager(Baseline(length), BaselineProgress(block))
  {
  }

  // ---------- wavefront invariant ----------

  /** `h` delays in a row. */
  function Delays(h: nat, d: nat): nat {
    if h == 0 then 0 else Delays(h - 1, d) + d
  }

  lemma {:induction false} DelaysIsProduct(h: nat, d: nat)
    ensures Delays(h, d) == h * d
  {
    if h > 0 {
      DelaysIsProduct(h - 1, d);
      assert h * d == (h - 1) * d + d;
    }
  }

  lemma {:induction false} DelaysGrow(h: nat, k: nat, d: nat)
    requires h <= k
    ensures Delays(h, d) <= Delays(k, d)
  {
    if h < k { DelaysGrow(h, k - 1, d); }
  }

  /** Every packet that can arise takes at least `d`. */
  ghost predicate Takes<S(!new), P(!new), E>(cfg: Config<S, P, E>, pr: Progress<S, P>, d: nat) {
    forall p {:trigger pr.okPacket(p)} :: pr.okPacket(p) ==> d <= cfg.delay(cfg.strategy.size(p))
  }

  /** Some walk to `v` fits into time `t` at one `d` per hop. */
  ghost predicate WalkFits(g: seq<seq<nat>>, d: nat, v: nat, t: nat) {
    exists h: nat :: Walk(g, h, v) && Delays(h, d) <= t
  }

  /** Node `v` has decoded by `t`, or a packet arriving at `t` is on its way to it. */
  ghost predicate DueBy<S, P(!new)>(s: Sim<S, P>, v: nat, t: nat)
    requires v < |s.decodeTimes|
  {
    (s.decodeTimes[v].Some? && s.decodeTimes[v].value <= t) || exists p: P :: Event(t, v, p) in s.queue
  }

  /** Nothing has come, or is coming, to a node sooner than a walk allows. */
  ghost predicate Paced<S, P>(g: seq<seq<nat>>, d: nat, s: Sim<S, P>) {
    && (forall v :: 0 <= v < |s.decodeTimes| && s.decodeTimes[v].Some? ==> WalkFits(g, d, v, s.decodeTimes[v].value))
    && (forall e :: e in s.queue ==> WalkFits(g, d, e.to, e.time))
  }

  ghost predicate Promised<S, P(!new)>(g: seq<seq<nat>>, d: nat, s: Sim<S, P>) {
    |g| == |s.decodeTimes| && forall u, w: nat :: 0 <= u < |g| && s.decodeTimes[u].Some? && w in g[u] ==>
      w < |g| && DueBy(s, w, s.decodeTimes[u].value + d)
  }

  lemma OneHop(g: seq<seq<nat>>, d: nat, u: nat, v: nat, t: nat, t': nat)
    requires u < |g| && v in g[u] && WalkFits(g, d, u, t) && t + d <= t'
    ensures WalkFits(g, d, v, t')
  {
    var h: nat :| Walk(g, h, u) && Delays(h, d) <= t;
    assert Walk(g, h + 1, v);
  }

  /** A batch sent from a node arrives no sooner than one hop further on. */
  lemma BatchPaced<S(!new), P(!new), E>(cfg: Config<S, P, E>, pr: Progress<S, P>, from: nat, now: nat,
      packets: seq<P>, d: nat)
    requires cfg.Meshed() && Supplies(cfg, pr, packets) && Takes(cfg, pr, d) && from < |cfg.mesh|
    requires WalkFits(cfg.mesh, d, from, now)
    ensures forall c :: c in Batch(cfg, from, now, packets, cfg.degree) ==> WalkFits(cfg.mesh, d, c.to, c.time)
  {
    BatchMembers(cfg, from, now, packets, cfg.degree);
    forall c | c in Batch(cfg, from, now, packets, cfg.degree) ensures WalkFits(cfg.mesh, d, c.to, c.time) {
      var i :| 0 <= i < cfg.degree && c == Arrival(cfg, from, now, packets, i);
      assert pr.okPacket(packets[i]);
      OneHop(cfg.mesh, d, from, cfg.mesh[from][i], now, c.time);
    }
  }

  /** A batch puts a packet on the way to every peer. */
  lemma BatchPromises<S(!new), P(!new), E>(cfg: Config<S, P, E>, pr: Progress<S, P>, s: Sim<S, P>, from: nat,
      now: nat, packets: seq<P>, bytes: nat, w: nat)
    requires cfg.Meshed() && Supplies(cfg, pr, packets) && Uniform(cfg, pr, bytes) && from < |cfg.mesh|
      && w in cfg.mesh[from]
    requires |s.decodeTimes| == |cfg.mesh| && Batch(cfg, from, now, packets, cfg.degree) <= s.queue
    ensures w < |cfg.mesh| && DueBy(s, w, now + cfg.delay(bytes))
  {
    var i :| 0 <= i < |cfg.mesh[from]| && cfg.mesh[from][i] == w;
    BatchMembers(cfg, from, now, packets, cfg.degree);
    assert pr.okPacket(packets[i]);
    assert Arrival(cfg, from, now, packets, i) in s.queue;
  }

  lemma ProcessedPaced<S(!new), P(!new), E>(cfg: Config<S, P, E>, pr: Progress<S, P>, s: Sim<S, P>, e: Event<P>,
      r: Sim<S, P>, x: Effect<S, P>, d: nat)
    requires Consistent(cfg, pr, s) && e in s.queue && Processed(cfg, pr, s, e, r, x)
    requires Takes(cfg, pr, d) && Paced(cfg.mesh, d, s)
    ensures Paced(cfg.mesh, d, r)
  {
    if x.forwards {
      BatchPaced(cfg, pr, e.to, e.time, x.packets, d);
    }
  }

  /** No strategy outruns the walks: an iteration keeps the pace. */
  lemma DeliverPaced<S(!new), P(!new), E>(cfg: Config<S, P, E>, pr: Progress<S, P>, s: Sim<S, P>, e: Event<P>,
      draw: nat, d: nat)
    requires Lawful(cfg.strategy, pr) && Consistent(cfg, pr, s) && e in s.queue
    requires Takes(cfg, pr, d) && Paced(cfg.mesh, d, s)
    ensures Paced(cfg.mesh, d, Deliver(cfg, s, e, draw))
  {
    if s.decodeTimes[e.to].None? {
      var x := DeliverProcessed(cfg, pr, s, e, draw);
      ProcessedPaced(cfg, pr, s, e, Deliver(cfg, s, e, draw), x, d);
    }
  }

  /** A promise made before the step is kept by it. */
  lemma PromiseKept<S(!new), P(!new), E>(cfg: Config<S, P, E>, pr: Progress<S, P>, s: Sim<S, P>, e: Event<P>,
      r: Sim<S, P>, x: Effect<S, P>, w: nat, t: nat)
    requires Consistent(cfg, pr, s) && IsNext(s.queue, e) && s.decodeTimes[e.to].None?
      && Processed(cfg, pr, s, e, r, x) && x.decodes
    requires w < |cfg.mesh| && DueBy(s, w, t)
    ensures DueBy(r, w, t)
  {
    if s.decodeTimes[w].None? && w != e.to {
      var p :| Event(t, w, p) in s.queue;
      assert Event(t, w, p) in r.queue;
    }
  }

  /** The node that just decoded has a packet on the way to each of its peers. */
  lemma NewPromise<S(!new), P(!new), E>(cfg: Config<S, P, E>, pr: Progress<S, P>, s: Sim<S, P>, e: Event<P>,
      r: Sim<S, P>, x: Effect<S, P>, bytes: nat, w: nat)
    requires Consistent(cfg, pr, s) && IsNext(s.queue, e) && Processed(cfg, pr, s, e, r, x)
    requires x.decodes && x.forwards && Uniform(cfg, pr, bytes) && w in cfg.mesh[e.to]
    ensures w < |cfg.mesh| && DueBy(r, w, e.time + cfg.delay(bytes))
  {
    BatchPromises(cfg, pr, r, e.to, e.time, x.packets, bytes, w);
  }

  lemma ProcessedPromised<S(!new), P(!new), E>(cfg: Config<S, P, E>, pr: Progress<S, P>, s: Sim<S, P>, e: Event<P>,
      r: Sim<S, P>, x: Effect<S, P>, bytes: nat)
    requires Consistent(cfg, pr, s) && IsNext(s.queue, e) && s.decodeTimes[e.to].None?
      && Processed(cfg, pr, s, e, r, x)
    requires x.decodes && x.forwards && Uniform(cfg, pr, bytes) && Promised(cfg.mesh, cfg.delay(bytes), s)
    ensures Promised(cfg.mesh, cfg.delay(bytes), r)
  {
    var g, d := cfg.mesh, cfg.delay(bytes);
    forall u, w: nat | 0 <= u < |g| && r.decodeTimes[u].Some? && w in g[u]
      ensures w < |g| && DueBy(r, w, r.decodeTimes[u].value + d)
    {
      if u == e.to {
        NewPromise(cfg, pr, s, e, r, x, bytes, w);
      } else {
        PromiseKept(cfg, pr, s, e, r, x, w, s.decodeTimes[u].value + d);
      }
    }
  }

  /** Under full-block forwarding every promise survives an iteration. */
  lemma DeliverFloods<S(!new), P(!new), E>(cfg: Config<S, P, E>, pr: Progress<S, P>, s: Sim<S, P>, clock: nat,
      e: Event<P>, draw: nat, bytes: nat)
    requires Lawful(cfg.strategy, pr) && Eager(cfg.strategy, pr) && Uniform(cfg, pr, bytes)
    requires Consistent(cfg, pr, s) && Timely(s, clock) && IsNext(s.queue, e)
    requires Promised(cfg.mesh, cfg.delay(bytes), s)
    ensures Promised(cfg.mesh, cfg.delay(bytes), Deliver(cfg, s, e, draw))
  {
    var r := Deliver(cfg, s, e, draw);
    if s.decodeTimes[e.to].None? {
      var x := DeliverProcessed(cfg, pr, s, e, draw);
      EagerDecodes(cfg, pr, s, e, draw, x);
      ProcessedPromised(cfg, pr, s, e, r, x, bytes);
    } else {
      IgnoredPromised(cfg, pr, s, clock, e, draw, cfg.delay(bytes));
    }
  }

  lemma EagerDecodes<S(!new), P(!new), E>(cfg: Config<S, P, E>, pr: Progress<S, P>, s: Sim<S, P>, e: Event<P>,
      draw: nat, x: Effect<S, P>)
    requires Lawful(cfg.strategy, pr) && Eager(cfg.strategy, pr) && Consistent(cfg, pr, s) && e in s.queue
      && s.decodeTimes[e.to].None?
    requires Processed(cfg, pr, s, e, Deliver(cfg, s, e, draw), x)
    ensures x.decodes && x.forwards
  {
    assert pr.ok(s.states[e.to]);
    assert At(s.states[e.to], e.packet);
  }

  /** A packet that comes too late was not needed: its node decoded no later. */
  lemma IgnoredPromised<S(!new), P(!new), E>(cfg: Config<S, P, E>, pr: Progress<S, P>, s: Sim<S, P>, clock: nat,
      e: Event<P>, draw: nat, d: nat)
    requires Consistent(cfg, pr, s) && Timely(s, clock) && IsNext(s.queue, e) && s.decodeTimes[e.to].Some?
    requires Promised(cfg.mesh, d, s)
    ensures Promised(cfg.mesh, d, Deliver(cfg, s, e, draw))
  {
    var r := Deliver(cfg, s, e, draw);
    forall u, w: nat | 0 <= u < |cfg.mesh| && r.decodeTimes[u].Some? && w in cfg.mesh[u]
      ensures w < |cfg.mesh| && DueBy(r, w, r.decodeTimes[u].value + d)
    {
      var t := s.decodeTimes[u].value + d;
      assert DueBy(s, w, t);
      if s.decodeTimes[w].None? {
        var p :| Event(t, w, p) in s.queue;
        assert Event(t, w, p) in r.queue;
      } else if p :| Event(t, w, p) in s.queue {
        assert clock <= t;
      }
    }
  }

  lemma LaunchPaced<S(!new), P(!new), E>(cfg: Config<S, P, E>, pr: Progress<S, P>, proposer: S, packets: seq<P>,
      d: nat)
    requires cfg.Meshed() && Supplies(cfg, pr, packets) && Takes(cfg, pr, d)
    ensures Paced(cfg.mesh, d, Launch(cfg, proposer, packets, cfg.degree))
  {
    LaunchBatch(cfg, proposer, packets);
    assert Walk(cfg.mesh, 0, 0) && Delays(0, d) == 0;
    BatchPaced(cfg, pr, 0, 0, packets, d);
  }

  lemma LaunchPromised<S(!new), P(!new), E>(cfg: Config<S, P, E>, pr: Progress<S, P>, proposer: S, packets: seq<P>,
      bytes: nat)
    requires cfg.Meshed() && Supplies(cfg, pr, packets) && Uniform(cfg, pr, bytes)
    ensures Promised(cfg.mesh, cfg.delay(bytes), Launch(cfg, proposer, packets, cfg.degree))
  {
    var s := Launch(cfg, proposer, packets, cfg.degree);
    LaunchBatch(cfg, proposer, packets);
    forall w: nat | w in cfg.mesh[0] ensures w < |cfg.mesh| && DueBy(s, w, cfg.delay(bytes)) {
      BatchPromises(cfg, pr, s, 0, 0, packets, bytes, w);
    }
  }

  // ---------- what an empty queue means ----------

  /** With nothing left in flight, every walk has been followed. */
  lemma {:induction false} WalkFollowed<S, P(!new)>(g: seq<seq<nat>>, d: nat, s: Sim<S, P>, k: nat, v: nat)
    requires Promised(g, d, s) && s.queue == multiset{} && |g| > 0 && s.decodeTimes[0] == Some(0) && Walk(g, k, v)
    ensures v < |g| && s.decodeTimes[v].Some? && s.decodeTimes[v].value <= Delays(k, d)
  {
    if k > 0 {
      var u: nat :| u < |g| && Walk(g, k - 1, u) && v in g[u];
      WalkFollowed(g, d, s, k - 1, u);
      assert DueBy(s, v, s.decodeTimes[u].value + d);
    }
  }

  /** No node decodes before its hop distance times the least transmission delay. */
  lemma NotBefore<S, P(!new)>(g: seq<seq<nat>>, d: nat, s: Sim<S, P>, v: nat, h: nat)
    requires Paced(g, d, s) && v < |s.decodeTimes| && s.decodeTimes[v].Some? && IsDistance(g, v, h)
    ensures h * d <= s.decodeTimes[v].value
  {
    var k: nat :| Walk(g, k, v) && Delays(k, d) <= s.decodeTimes[v].value;
    DelaysGrow(h, k, d);
    DelaysIsProduct(h, d);
  }

  /** Decoding happens exactly at hop distance times the transmission delay. */
  lemma DecodedAtDistance<S, P(!new)>(g: seq<seq<nat>>, d: nat, s: Sim<S, P>, v: nat, h: nat)
    requires Promised(g, d, s) && Paced(g, d, s) && s.queue == multiset{} && |g| > 0 && s.decodeTimes[0] == Some(0)
    requires IsDistance(g, v, h)
    ensures v < |g| && s.decodeTimes[v] == Some(h * d)
  {
    WalkFollowed(g, d, s, h, v);
    NotBefore(g, d, s, v, h);
    DelaysIsProduct(h, d);
  }
}
