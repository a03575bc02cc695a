/** Discrete-event simulation of one block's propagation (crates/sim/src/engine.rs). */
module Engine {
  import opened Wrappers
  import opened StrategyCore
  import opened Topology

  // ---------- sums ----------

  function Sum(s: seq<nat>): nat {
    if s == [] then 0 else Sum(s[..|s| - 1]) + s[|s| - 1]
  }

  lemma {:induction false} SumUpdate(s: seq<nat>, i: nat, x: nat)
    requires i < |s|
    ensures Sum(s[i := x]) + s[i] == Sum(s) + x
  {
    var t, last := s[i := x], |s| - 1;
    if i < last {
      assert t[..last] == s[..last][i := x];
      SumUpdate(s[..last], i, x);
    } else {
      assert t[..last] == s[..last];
    }
  }

  lemma {:induction false} SumOfZeros(s: seq<nat>)
    requires forall i :: 0 <= i < |s| ==> s[i] == 0
    ensures Sum(s) == 0
  {
    if s != [] { SumOfZeros(s[..|s| - 1]); }
  }

  // ---------- configuration and state ----------

  datatype Event<P> = Event(time: nat, to: nat, packet: P)

  /** The mesh, its degree, and the transmission delay of a packet of given size. */
  datatype Config<!S(!new), !P(!new), !E> = Config(strategy: Strategy<S, P, E>, mesh: seq<seq<nat>>, degree: nat,
      delay: nat -> nat)
  {
    ghost predicate Meshed() {
      |mesh| > 0 && IsMesh(mesh, |mesh|, degree)
    }
  }

  /** Everything `run` updates. `ignored` counts the events popped for nodes that had
      already decoded, which the code skips without counting. */
  datatype Sim<S, P(==)> = Sim(
    queue: multiset<Event<P>>, states: seq<S>, upload: seq<nat>, download: seq<nat>,
    decodeTimes: seq<Option<nat>>, hasForwarded: seq<bool>,
    total: nat, useful: nat, redundant: nat, ignored: nat)

  predicate Fits<S, P(==)>(s: Sim<S, P>, n: nat) {
    |s.states| == |s.upload| == |s.download| == |s.decodeTimes| == |s.hasForwarded| == n
  }

  // ---------- one iteration ----------

  function Send<S(!new), P(!new, ==), E>(cfg: Config<S, P, E>, s: Sim<S, P>, from: nat, now: nat, peer: nat,
      packet: P): Sim<S, P>
    requires from < |s.upload| && peer < |s.download|
  {
    var bytes := cfg.strategy.size(packet);
    s.(queue := s.queue + multiset{Event(now + cfg.delay(bytes), peer, packet)},
       upload := s.upload[from := s.upload[from] + bytes],
       download := s.download[peer := s.download[peer] + bytes],
       total := s.total + 1)
  }

  /** The first `k` transmissions of a batch to `from`'s peers. */
  function SendAll<S(!new), P(!new, ==), E>(cfg: Config<S, P, E>, s: Sim<S, P>, from: nat, now: nat, packets: seq<P>,
      k: nat): (r: Sim<S, P>)
    requires from < |cfg.mesh| && k <= |cfg.mesh[from]| && k <= |packets|
    requires |s.upload| == |s.download| == |cfg.mesh| && forall i :: 0 <= i < k ==> cfg.mesh[from][i] < |cfg.mesh|
    ensures |r.upload| == |r.download| == |cfg.mesh|
  {
    if k == 0 then s
    else Send(cfg, SendAll(cfg, s, from, now, packets, k - 1), from, now, cfg.mesh[from][k - 1], packets[k - 1])
  }

  predicate ShouldForward(cond: ForwardCondition, decodable: bool, rankIncreased: bool, hasForwarded: bool) {
    match cond
    case AfterDecode => decodable
    case OneShot => rankIncreased && !hasForwarded
    case UntilDecode => rankIncreased
  }

  function Least(a: nat, b: nat): nat { if a <= b then a else b }

  /** The popped event's packet is taken in and counted as useful or redundant. */
  function Take<S(!new), P(!new, ==), E(==)>(cfg: Config<S, P, E>, s: Sim<S, P>, e: Event<P>): Sim<S, P>
    requires e.to < |s.states|
  {
    var (receipt, state) := cfg.strategy.receive(s.states[e.to], e.packet);
    s.(queue := s.queue - multiset{e}, states := s.states[e.to := state],
       useful := if receipt == Useful then s.useful + 1 else s.useful,
       redundant := if receipt == Useful then s.redundant else s.redundant + 1)
  }

  /** And the node is marked as having forwarded. */
  function Taken<S(!new), P(!new, ==), E(==)>(cfg: Config<S, P, E>, s: Sim<S, P>, e: Event<P>): Sim<S, P>
    requires e.to < |s.states| && e.to < |s.hasForwarded|
  {
    Take(cfg, s, e).(hasForwarded := s.hasForwarded[e.to := true])
  }

  /** The loop body, for the popped event `e` and the generator's next draw. */
  function Deliver<S(!new), P(!new, ==), E(==)>(cfg: Config<S, P, E>, s: Sim<S, P>, e: Event<P>, draw: nat): Sim<S, P>
    requires Fits(s, |cfg.mesh|) && e.to < |cfg.mesh|
    requires forall i :: 0 <= i < |cfg.mesh[e.to]| ==> cfg.mesh[e.to][i] < |cfg.mesh|
  {
    var to := e.to;
    if s.decodeTimes[to].Some? then s.(queue := s.queue - multiset{e}, ignored := s.ignored + 1) else
      var (receipt, state) := cfg.strategy.receive(s.states[to], e.packet);
      var r := Take(cfg, s, e);
      if receipt.Rejected? then r else
        var decodable := cfg.strategy.canDecode(state);
        var sent :=
          if ShouldForward(cfg.strategy.cond, decodable, receipt == Useful, s.hasForwarded[to]) then
            var packets := cfg.strategy.forward(state, |cfg.mesh[to]|, draw);
            SendAll(cfg, Taken(cfg, s, e), to, e.time, packets, Least(|cfg.mesh[to]|, |packets|))
          else r;
        if decodable then sent.(decodeTimes := s.decodeTimes[to := Some(e.time)]) else sent
  }

  /** Arrival of the `i`th packet of a batch. */
  function Arrival<S(!new), P(!new, ==), E>(cfg: Config<S, P, E>, from: nat, now: nat, packets: seq<P>,
      i: nat): Event<P>
    requires from < |cfg.mesh| && i < |cfg.mesh[from]| && i < |packets|
  {
    Event(now + cfg.delay(cfg.strategy.size(packets[i])), cfg.mesh[from][i], packets[i])
  }

  function Batch<S(!new), P(!new, ==), E>(cfg: Config<S, P, E>, from: nat, now: nat, packets: seq<P>,
      k: nat): multiset<Event<P>>
    requires from < |cfg.mesh| && k <= |cfg.mesh[from]| && k <= |packets|
  {
    if k == 0 then multiset{}
    else Batch(cfg, from, now, packets, k - 1) + multiset{Arrival(cfg, from, now, packets, k - 1)}
  }

  lemma {:induction false} BatchMembers<S(!new), P(!new), E>(cfg: Config<S, P, E>, from: nat, now: nat,
      packets: seq<P>, k: nat)
    requires from < |cfg.mesh| && k <= |cfg.mesh[from]| && k <= |packets|
    ensures forall i :: 0 <= i < k ==> Arrival(cfg, from, now, packets, i) in Batch(cfg, from, now, packets, k)
    ensures forall e :: e in Batch(cfg, from, now, packets, k) ==>
      exists i :: 0 <= i < k && e == Arrival(cfg, from, now, packets, i)
  {
    if k > 0 {
      BatchMembers(cfg, from, now, packets, k - 1);
    }
  }

  lemma {:induction false} BatchSize<S(!new), P(!new), E>(cfg: Config<S, P, E>, from: nat, now: nat, packets: seq<P>,
      k: nat)
    requires from < |cfg.mesh| && k <= |cfg.mesh[from]| && k <= |packets|
    ensures |Batch(cfg, from, now, packets, k)| == k
  {
    if k > 0 { BatchSize(cfg, from, now, packets, k - 1); }
  }

  /** Total size of the first `k` packets. */
  function Bytes<S(!new), P(!new), E>(cfg: Config<S, P, E>, packets: seq<P>, k: nat): nat
    requires k <= |packets|
  {
    if k == 0 then 0 else Bytes(cfg, packets, k - 1) + cfg.strategy.size(packets[k - 1])
  }

  /** A batch adds exactly its own arrivals to the queue. */
  lemma {:induction false} SendAllArrivals<S(!new), P(!new), E>(cfg: Config<S, P, E>, s: Sim<S, P>, from: nat,
      now: nat, packets: seq<P>, k: nat)
    requires from < |cfg.mesh| && k <= |cfg.mesh[from]| && k <= |packets|
    requires |s.upload| == |s.download| == |cfg.mesh| && forall i :: 0 <= i < k ==> cfg.mesh[from][i] < |cfg.mesh|
    ensures SendAll(cfg, s, from, now, packets, k).queue == s.queue + Batch(cfg, from, now, packets, k)
  {
    if k > 0 {
      SendAllArrivals(cfg, s, from, now, packets, k - 1);
      var last := Arrival(cfg, from, now, packets, k - 1);
      var before := SendAll(cfg, s, from, now, packets, k - 1).queue;
      assert SendAll(cfg, s, from, now, packets, k).queue == before + multiset{last};
      Regrouped(s.queue, Batch(cfg, from, now, packets, k - 1), multiset{last});
    } else {
      NothingAdded(s.queue);
    }
  }

  lemma NothingAdded<T>(a: multiset<T>)
    ensures a + multiset{} == a
  {
  }

  /** A batch adds exactly its own arrivals to the queue, counts its packets, and leaves
      everything but the byte counters alone. */
  lemma {:induction false} SendAllQueue<S(!new), P(!new), E>(cfg: Config<S, P, E>, s: Sim<S, P>, from: nat, now: nat,
      packets: seq<P>, k: nat)
    requires from < |cfg.mesh| && k <= |cfg.mesh[from]| && k <= |packets|
    requires |s.upload| == |s.download| == |cfg.mesh| && forall i :: 0 <= i < k ==> cfg.mesh[from][i] < |cfg.mesh|
    ensures var r := SendAll(cfg, s, from, now, packets, k);
      && r.queue == s.queue + Batch(cfg, from, now, packets, k) && r.total == s.total + k
      && r.states == s.states && r.decodeTimes == s.decodeTimes && r.hasForwarded == s.hasForwarded
      && r.useful == s.useful && r.redundant == s.redundant && r.ignored == s.ignored
  {
    SendAllArrivals(cfg, s, from, now, packets, k);
    if k > 0 {
      SendAllQueue(cfg, s, from, now, packets, k - 1);
    }
  }

  lemma Regrouped<T>(a: multiset<T>, b: multiset<T>, c: multiset<T>)
    ensures (a + b) + c == a + (b + c)
  {
  }

  /** Every byte uploaded is a byte downloaded. */
  lemma {:induction false} SendAllBytes<S(!new), P(!new), E>(cfg: Config<S, P, E>, s: Sim<S, P>, from: nat, now: nat,
      packets: seq<P>, k: nat)
    requires from < |cfg.mesh| && k <= |cfg.mesh[from]| && k <= |packets|
    requires |s.upload| == |s.download| == |cfg.mesh| && forall i :: 0 <= i < k ==> cfg.mesh[from][i] < |cfg.mesh|
    ensures Sum(SendAll(cfg, s, from, now, packets, k).upload) == Sum(s.upload) + Bytes(cfg, packets, k)
    ensures Sum(SendAll(cfg, s, from, now, packets, k).download) == Sum(s.download) + Bytes(cfg, packets, k)
  {
    if k > 0 {
      SendAllBytes(cfg, s, from, now, packets, k - 1);
      SendBytes(cfg, SendAll(cfg, s, from, now, packets, k - 1), from, now, cfg.mesh[from][k - 1], packets[k - 1]);
    }
  }

  lemma SendBytes<S(!new), P(!new), E>(cfg: Config<S, P, E>, s: Sim<S, P>, from: nat, now: nat, peer: nat, packet: P)
    requires from < |s.upload| && peer < |s.download|
    ensures Sum(Send(cfg, s, from, now, peer, packet).upload) == Sum(s.upload) + cfg.strategy.size(packet)
    ensures Sum(Send(cfg, s, from, now, peer, packet).download) == Sum(s.download) + cfg.strategy.size(packet)
  {
    var bytes := cfg.strategy.size(packet);
    SumUpdate(s.upload, from, s.upload[from] + bytes);
    SumUpdate(s.download, peer, s.download[peer] + bytes);
  }

  // ---------- invariants ----------

  /** Shapes, and for every receiver: its state can arise, and it is marked decoded
      exactly when its rank reached the bound. */
  ghost predicate Consistent<S(!new), P(!new), E>(cfg: Config<S, P, E>, pr: Progress<S, P>, s: Sim<S, P>) {
    && cfg.Meshed() && Fits(s, |cfg.mesh|)
    && s.decodeTimes[0] == Some(0)
    && (forall v :: 0 < v < |cfg.mesh| ==>
          pr.ok(s.states[v]) && (s.decodeTimes[v].Some? <==> pr.rank(s.states[v]) == pr.bound))
    && (forall e :: e in s.queue ==> e.to < |cfg.mesh| && pr.okPacket(e.packet))
  }

  /** What an iteration did for a node that had not decoded. */
  datatype Effect<S, P> = Effect(state: S, useful: bool, forwards: bool, decodes: bool, packets: seq<P>)

  ghost predicate Processed<S(!new), P(!new), E>(cfg: Config<S, P, E>, pr: Progress<S, P>, s: Sim<S, P>, e: Event<P>,
      r: Sim<S, P>, x: Effect<S, P>)
    requires cfg.Meshed() && Fits(s, |cfg.mesh|) && e.to < |cfg.mesh|
  {
    && Fits(r, |cfg.mesh|)
    && r.states == s.states[e.to := x.state] && pr.ok(x.state)
    && pr.rank(x.state) == pr.rank(s.states[e.to]) + (if x.useful then 1 else 0)
    && x.decodes == (pr.rank(x.state) == pr.bound) && (x.decodes ==> x.useful)
    && x.forwards == (x.useful && match cfg.strategy.cond
                        case AfterDecode => x.decodes
                        case OneShot => !s.hasForwarded[e.to]
                        case UntilDecode => true)
    && r.useful == s.useful + (if x.useful then 1 else 0) && r.redundant == s.redundant + (if x.useful then 0 else 1)
    && r.ignored == s.ignored
    && r.decodeTimes == (if x.decodes then s.decodeTimes[e.to := Some(e.time)] else s.decodeTimes)
    && (if x.forwards then
          && |x.packets| == cfg.degree && (forall i :: 0 <= i < cfg.degree ==> pr.okPacket(x.packets[i]))
          && r.hasForwarded == s.hasForwarded[e.to := true] && r.total == s.total + cfg.degree
          && r.queue == s.queue - multiset{e} + Batch(cfg, e.to, e.time, x.packets, cfg.degree)
          && Sum(r.upload) == Sum(s.upload) + Bytes(cfg, x.packets, cfg.degree)
          && Sum(r.download) == Sum(s.download) + Bytes(cfg, x.packets, cfg.degree)
        else
          && r.hasForwarded == s.hasForwarded && r.total == s.total && r.queue == s.queue - multiset{e}
          && r.upload == s.upload && r.download == s.download)
  }

  /** The byte counters after a batch. */
  ghost predicate Sends<S(!new), P(!new), E>(cfg: Config<S, P, E>, base: Sim<S, P>, e: Event<P>, r: Sim<S, P>,
      x: Effect<S, P>)
    requires cfg.Meshed() && Fits(base, |cfg.mesh|) && e.to < |cfg.mesh|
  {
    && |x.packets| == cfg.degree
    && var sent := SendAll(cfg, base, e.to, e.time, x.packets, cfg.degree);
       r.upload == sent.upload && r.download == sent.download
  }

  /** Only a useful packet can complete a node, and only a useful packet is forwarded,
      under each of the three forwarding conditions. */
  lemma DeliverProcessed<S(!new), P(!new), E>(cfg: Config<S, P, E>, pr: Progress<S, P>, s: Sim<S, P>, e: Event<P>,
      draw: nat)
    returns (x: Effect<S, P>)
    requires Lawful(cfg.strategy, pr) && Consistent(cfg, pr, s) && e in s.queue && s.decodeTimes[e.to].None?
    ensures Processed(cfg, pr, s, e, Deliver(cfg, s, e, draw), x)
    ensures x.forwards ==> Sends(cfg, Taken(cfg, s, e), e, Deliver(cfg, s, e, draw), x)
    ensures x.state == cfg.strategy.receive(s.states[e.to], e.packet).1
    ensures x.packets == cfg.strategy.forward(x.state, cfg.degree, draw)
  {
    var to, st := e.to, cfg.strategy;
    var (receipt, state) := st.receive(s.states[to], e.packet);
    assert At(s.states[to], e.packet);
    assert pr.ok(state) && pr.ok(s.states[to]);
    var useful, decodes := receipt == Useful, !receipt.Rejected? && st.canDecode(state);
    var forwards := !receipt.Rejected? && ShouldForward(st.cond, decodes, useful, s.hasForwarded[to]);
    var packets := st.forward(state, |cfg.mesh[to]|, draw);
    x := Effect(state, useful, forwards, decodes, packets);
    if forwards {
      var base := Taken(cfg, s, e);
      SendAllQueue(cfg, base, to, e.time, packets, cfg.degree);
      SendAllBytes(cfg, base, to, e.time, packets, cfg.degree);
    }
  }

  /** Ranks of the receivers; the proposer, node 0, counts nothing. */
  function Ranks<S(!new), P(!new)>(pr: Progress<S, P>, states: seq<S>): (r: seq<nat>)
    ensures |r| == |states| && forall v :: 0 <= v < |r| ==> r[v] == if v == 0 then 0 else pr.rank(states[v])
  {
    if states == [] then []
    else Ranks(pr, states[..|states| - 1]) + [if |states| == 1 then 0 else pr.rank(states[|states| - 1])]
  }

  function Flags(times: seq<Option<nat>>): seq<nat> {
    seq(|times|, v requires 0 <= v < |times| => if times[v].Some? then 1 else 0)
  }

  function Marks(marks: seq<bool>): seq<nat> {
    seq(|marks|, v requires 0 <= v < |marks| => if marks[v] then 1 else 0)
  }

  /** Nodes that decoded, the proposer included. */
  function NodesDecoded(times: seq<Option<nat>>): nat { Sum(Flags(times)) }

  /** Batches sent so far, the proposer's included: one per decoded node, per node that
      forwarded, or per useful packet, depending on the forwarding condition. */
  function Batches<S(!new), P(!new, ==), E>(cfg: Config<S, P, E>, s: Sim<S, P>): nat {
    match cfg.strategy.cond
    case AfterDecode => NodesDecoded(s.decodeTimes)
    case OneShot => 1 + Sum(Marks(s.hasForwarded))
    case UntilDecode => 1 + s.useful
  }

  /** Accounting: every useful packet raised one rank, every packet sent is queued or was
      popped and counted, bytes are conserved, and each later batch had a useful packet. */
  ghost predicate Balanced<S(!new), P(!new), E>(cfg: Config<S, P, E>, pr: Progress<S, P>, s: Sim<S, P>) {
    && s.useful == Sum(Ranks(pr, s.states))
    && s.total == |s.queue| + s.useful + s.redundant + s.ignored
    && Sum(s.upload) == Sum(s.download)
    && Batches(cfg, s) <= 1 + s.useful
  }

  /** Packets come in batches of `degree`. */
  ghost predicate Batched<S(!new), P(!new), E>(cfg: Config<S, P, E>, s: Sim<S, P>) {
    s.total == cfg.degree * Batches(cfg, s)
  }

  /** Time never runs backwards. */
  ghost predicate Timely<S, P>(s: Sim<S, P>, clock: nat) {
    && (forall e :: e in s.queue ==> clock <= e.time)
    && (forall v :: 0 <= v < |s.decodeTimes| && s.decodeTimes[v].Some? ==> s.decodeTimes[v].value <= clock)
  }

  lemma ProcessedConsistent<S(!new), P(!new), E>(cfg: Config<S, P, E>, pr: Progress<S, P>, s: Sim<S, P>, e: Event<P>,
      r: Sim<S, P>, x: Effect<S, P>)
    requires Consistent(cfg, pr, s) && e in s.queue && s.decodeTimes[e.to].None? && Processed(cfg, pr, s, e, r, x)
    ensures Consistent(cfg, pr, r)
  {
    if x.forwards {
      BatchMembers(cfg, e.to, e.time, x.packets, cfg.degree);
    }
  }

  lemma {:induction false} BatchLater<S(!new), P(!new), E>(cfg: Config<S, P, E>, from: nat, now: nat, packets: seq<P>,
      k: nat)
    requires from < |cfg.mesh| && k <= |cfg.mesh[from]| && k <= |packets|
    ensures forall e :: e in Batch(cfg, from, now, packets, k) ==> now <= e.time
  {
    if k > 0 { BatchLater(cfg, from, now, packets, k - 1); }
  }

  /** Popping a least event never moves time backwards. */
  lemma ProcessedTimely<S(!new), P(!new), E>(cfg: Config<S, P, E>, pr: Progress<S, P>, s: Sim<S, P>, e: Event<P>,
      r: Sim<S, P>, x: Effect<S, P>, clock: nat)
    requires Consistent(cfg, pr, s) && e in s.queue && s.decodeTimes[e.to].None? && Processed(cfg, pr, s, e, r, x)
    requires Timely(s, clock) && forall d :: d in s.queue ==> e.time <= d.time
    ensures Timely(r, e.time)
  {
    if x.forwards {
      BatchLater(cfg, e.to, e.time, x.packets, cfg.degree);
    }
    forall d | d in r.queue ensures e.time <= d.time {
      assert d in s.queue || (x.forwards && d in Batch(cfg, e.to, e.time, x.packets, cfg.degree));
    }
  }

  lemma RankRaised<S(!new), P(!new)>(pr: Progress<S, P>, states: seq<S>, to: nat, state: S)
    requires 0 < to < |states|
    ensures Sum(Ranks(pr, states[to := state])) + pr.rank(states[to]) == Sum(Ranks(pr, states)) + pr.rank(state)
  {
    SumUpdate(Ranks(pr, states), to, pr.rank(state));
    assert Ranks(pr, states[to := state]) == Ranks(pr, states)[to := pr.rank(state)];
  }

  lemma OneMoreDecoded(times: seq<Option<nat>>, to: nat, t: nat)
    requires to < |times| && times[to].None?
    ensures NodesDecoded(times[to := Some(t)]) == NodesDecoded(times) + 1
  {
    SumUpdate(Flags(times), to, 1);
    assert Flags(times[to := Some(t)]) == Flags(times)[to := 1];
  }

  lemma OneMoreForwarded(marks: seq<bool>, to: nat)
    requires to < |marks| && !marks[to]
    ensures Sum(Marks(marks[to := true])) == Sum(Marks(marks)) + 1
  {
    SumUpdate(Marks(marks), to, 1);
    assert Marks(marks[to := true]) == Marks(marks)[to := 1];
  }

  lemma ProcessedBatches<S(!new), P(!new), E>(cfg: Config<S, P, E>, pr: Progress<S, P>, s: Sim<S, P>, e: Event<P>,
      r: Sim<S, P>, x: Effect<S, P>)
    requires Consistent(cfg, pr, s) && e in s.queue && s.decodeTimes[e.to].None? && Processed(cfg, pr, s, e, r, x)
    ensures Batches(cfg, r) == Batches(cfg, s) + (if x.forwards then 1 else 0)
  {
    if x.decodes { OneMoreDecoded(s.decodeTimes, e.to, e.time); }
    if x.forwards && !s.hasForwarded[e.to] { OneMoreForwarded(s.hasForwarded, e.to); }
  }

  lemma ProcessedBalanced<S(!new), P(!new), E>(cfg: Config<S, P, E>, pr: Progress<S, P>, s: Sim<S, P>, e: Event<P>,
      r: Sim<S, P>, x: Effect<S, P>)
    requires Consistent(cfg, pr, s) && e in s.queue && s.decodeTimes[e.to].None? && Processed(cfg, pr, s, e, r, x)
    requires Balanced(cfg, pr, s)
    ensures Balanced(cfg, pr, r)
  {
    ProcessedUseful(cfg, pr, s, e, r, x);
    ProcessedBatches(cfg, pr, s, e, r, x);
    QueueSize(cfg, pr, s, e, r, x);
  }

  lemma ProcessedUseful<S(!new), P(!new), E>(cfg: Config<S, P, E>, pr: Progress<S, P>, s: Sim<S, P>, e: Event<P>,
      r: Sim<S, P>, x: Effect<S, P>)
    requires Consistent(cfg, pr, s) && e in s.queue && s.decodeTimes[e.to].None? && Processed(cfg, pr, s, e, r, x)
    requires s.useful == Sum(Ranks(pr, s.states))
    ensures r.useful == Sum(Ranks(pr, r.states))
  {
    RankRaised(pr, s.states, e.to, x.state);
  }

  lemma ProcessedBatched<S(!new), P(!new), E>(cfg: Config<S, P, E>, pr: Progress<S, P>, s: Sim<S, P>, e: Event<P>,
      r: Sim<S, P>, x: Effect<S, P>)
    requires Consistent(cfg, pr, s) && e in s.queue && s.decodeTimes[e.to].None? && Processed(cfg, pr, s, e, r, x)
    requires Batched(cfg, s)
    ensures Batched(cfg, r)
  {
    ProcessedBatches(cfg, pr, s, e, r, x);
    BatchTotal(cfg.degree, Batches(cfg, s), Batches(cfg, r), s.total, r.total, x.forwards);
  }

  lemma QueueSize<S(!new), P(!new), E>(cfg: Config<S, P, E>, pr: Progress<S, P>, s: Sim<S, P>, e: Event<P>,
      r: Sim<S, P>, x: Effect<S, P>)
    requires Consistent(cfg, pr, s) && e in s.queue && Processed(cfg, pr, s, e, r, x)
    ensures |r.queue| == |s.queue| - 1 + if x.forwards then cfg.degree else 0
  {
    if x.forwards { BatchSize(cfg, e.to, e.time, x.packets, cfg.degree); }
  }

  lemma BatchTotal(d: nat, b: nat, b': nat, t: nat, t': nat, forwards: bool)
    requires t == d * b && b' == b + (if forwards then 1 else 0) && t' == t + (if forwards then d else 0)
    ensures t' == d * b'
  {
  }

  // ---------- one iteration keeps everything and makes progress ----------

  ghost predicate Invariant<S(!new), P(!new), E>(cfg: Config<S, P, E>, pr: Progress<S, P>, s: Sim<S, P>, clock: nat) {
    Consistent(cfg, pr, s) && Timely(s, clock) && Balanced(cfg, pr, s) && Batched(cfg, s)
  }

  predicate IsNext<P(==)>(queue: multiset<Event<P>>, e: Event<P>) {
    e in queue && forall d :: d in queue ==> e.time <= d.time
  }

  lemma DeliverKeeps<S(!new), P(!new), E>(cfg: Config<S, P, E>, pr: Progress<S, P>, s: Sim<S, P>, clock: nat,
      e: Event<P>, draw: nat)
    requires Lawful(cfg.strategy, pr) && Invariant(cfg, pr, s, clock) && IsNext(s.queue, e)
    ensures Invariant(cfg, pr, Deliver(cfg, s, e, draw), e.time) && clock <= e.time
  {
    if s.decodeTimes[e.to].None? {
      var r := Deliver(cfg, s, e, draw);
      var x := DeliverProcessed(cfg, pr, s, e, draw);
      ProcessedConsistent(cfg, pr, s, e, r, x);
      ProcessedTimely(cfg, pr, s, e, r, x, clock);
      ProcessedBalanced(cfg, pr, s, e, r, x);
      ProcessedBatched(cfg, pr, s, e, r, x);
    }
  }

  /** Useful packets are bounded by the rank the receivers can gain. */
  lemma UsefulBounded<S(!new), P(!new), E>(cfg: Config<S, P, E>, pr: Progress<S, P>, s: Sim<S, P>)
    requires Lawful(cfg.strategy, pr) && Consistent(cfg, pr, s) && s.useful == Sum(Ranks(pr, s.states))
    ensures s.useful <= pr.bound * (|cfg.mesh| - 1)
  {
    var ranks := Ranks(pr, s.states);
    RanksBounded(cfg, pr, s);
    SumTail(ranks, pr.bound, |cfg.mesh|);
  }

  lemma RanksBounded<S(!new), P(!new), E>(cfg: Config<S, P, E>, pr: Progress<S, P>, s: Sim<S, P>)
    requires Lawful(cfg.strategy, pr) && Consistent(cfg, pr, s)
    ensures var ranks := Ranks(pr, s.states);
      |ranks| == |cfg.mesh| > 0 && ranks[0] == 0 && forall v :: 0 <= v < |ranks| ==> ranks[v] <= pr.bound
  {
    forall v | 0 < v < |s.states| ensures Ranks(pr, s.states)[v] <= pr.bound {
      assert pr.ok(s.states[v]);
    }
  }

  lemma {:induction false} SumTail(s: seq<nat>, bound: nat, n: nat)
    requires |s| == n > 0 && s[0] == 0 && forall i :: 0 <= i < n ==> s[i] <= bound
    ensures Sum(s) <= bound * (n - 1)
  {
    if n == 1 {
      assert s[..0] == [];
    } else {
      SumTail(s[..n - 1], bound, n - 1);
      assert bound * (n - 1) == bound * (n - 2) + bound;
    }
  }

  /** Packets on the way plus packets the missing rank can still cause. */
  function Measure<S(!new), P(!new), E>(cfg: Config<S, P, E>, pr: Progress<S, P>, s: Sim<S, P>): int {
    |s.queue| + cfg.degree * (pr.bound * (|cfg.mesh| - 1) - s.useful)
  }

  /** An iteration either just shortens the queue, or uses up one unit of missing rank and
      adds at most one batch. */
  lemma DeliverRoom<S(!new), P(!new), E>(cfg: Config<S, P, E>, pr: Progress<S, P>, s: Sim<S, P>, e: Event<P>,
      draw: nat)
    requires Lawful(cfg.strategy, pr) && Consistent(cfg, pr, s) && Balanced(cfg, pr, s) && e in s.queue
    ensures var r := Deliver(cfg, s, e, draw);
      && r.useful <= pr.bound * (|cfg.mesh| - 1)
      && if r.useful == s.useful then |r.queue| < |s.queue|
        else r.useful == s.useful + 1 && |r.queue| < |s.queue| + cfg.degree
  {
    var r := Deliver(cfg, s, e, draw);
    if s.decodeTimes[e.to].None? {
      var x := DeliverProcessed(cfg, pr, s, e, draw);
      QueueSize(cfg, pr, s, e, r, x);
      ProcessedConsistent(cfg, pr, s, e, r, x);
      ProcessedUseful(cfg, pr, s, e, r, x);
      UsefulBounded(cfg, pr, r);
    } else {
      UsefulBounded(cfg, pr, s);
    }
  }

  /** The loop terminates: every iteration strictly lowers a measure that stays non-negative. */
  lemma DeliverProgress<S(!new), P(!new), E>(cfg: Config<S, P, E>, pr: Progress<S, P>, s: Sim<S, P>, e: Event<P>,
      draw: nat)
    requires Lawful(cfg.strategy, pr) && Consistent(cfg, pr, s) && Balanced(cfg, pr, s) && e in s.queue
    ensures 0 <= Measure(cfg, pr, Deliver(cfg, s, e, draw)) < Measure(cfg, pr, s)
  {
    DeliverRoom(cfg, pr, s, e, draw);
    MeasureDrops(cfg, pr, s, Deliver(cfg, s, e, draw));
  }

  lemma MeasureDrops<S(!new), P(!new), E>(cfg: Config<S, P, E>, pr: Progress<S, P>, s: Sim<S, P>, r: Sim<S, P>)
    requires |cfg.mesh| > 0 && r.useful <= pr.bound * (|cfg.mesh| - 1)
    requires if r.useful == s.useful then |r.queue| < |s.queue|
      else r.useful == s.useful + 1 && |r.queue| < |s.queue| + cfg.degree
    ensures 0 <= Measure(cfg, pr, r) < Measure(cfg, pr, s)
  {
    Room(cfg.degree, pr.bound * (|cfg.mesh| - 1), s.useful, r.useful, |s.queue|, |r.queue|);
  }

  /** A useful packet costs `degree` of the remaining room, which pays for its batch. */
  lemma Room(degree: nat, room: nat, u: nat, u': nat, q: nat, q': nat)
    requires u' <= room && if u' == u then q' < q else u' == u + 1 && q' < q + degree
    ensures 0 <= q' + degree * (room - u') < q + degree * (room - u)
  {
    assert degree * (room - u) == degree * (room - u') + degree * (u' - u);
  }

  // ---------- packets of one size ----------

  ghost predicate Uniform<S(!new), P(!new), E>(cfg: Config<S, P, E>, pr: Progress<S, P>, bytes: nat) {
    forall p {:trigger pr.okPacket(p)} :: pr.okPacket(p) ==> cfg.strategy.size(p) == bytes
  }

  /** With packets of one size the bytes sent are that size times the packets sent. */
  ghost predicate Weighed<S, P>(s: Sim<S, P>, bytes: nat) {
    Sum(s.upload) == bytes * s.total
  }

  lemma {:induction false} UniformBytes<S(!new), P(!new), E>(cfg: Config<S, P, E>, pr: Progress<S, P>,
      packets: seq<P>, k: nat, bytes: nat)
    requires Uniform(cfg, pr, bytes) && k <= |packets| && forall i :: 0 <= i < k ==> pr.okPacket(packets[i])
    ensures Bytes(cfg, packets, k) == bytes * k
  {
    if k > 0 {
      UniformBytes(cfg, pr, packets, k - 1, bytes);
      assert bytes * k == bytes * (k - 1) + bytes;
    }
  }

  lemma DeliverWeighed<S(!new), P(!new), E>(cfg: Config<S, P, E>, pr: Progress<S, P>, s: Sim<S, P>, e: Event<P>,
      draw: nat, bytes: nat)
    requires Lawful(cfg.strategy, pr) && Consistent(cfg, pr, s) && e in s.queue && Uniform(cfg, pr, bytes)
      && Weighed(s, bytes)
    ensures Weighed(Deliver(cfg, s, e, draw), bytes)
  {
    if s.decodeTimes[e.to].None? {
      var r := Deliver(cfg, s, e, draw);
      var x := DeliverProcessed(cfg, pr, s, e, draw);
      ProcessedWeighed(cfg, pr, s, e, r, x, bytes);
    }
  }

  lemma ProcessedWeighed<S(!new), P(!new), E>(cfg: Config<S, P, E>, pr: Progress<S, P>, s: Sim<S, P>, e: Event<P>,
      r: Sim<S, P>, x: Effect<S, P>, bytes: nat)
    requires Consistent(cfg, pr, s) && e in s.queue && Processed(cfg, pr, s, e, r, x) && Uniform(cfg, pr, bytes)
      && Weighed(s, bytes)
    ensures Weighed(r, bytes)
  {
    if x.forwards {
      UniformBytes(cfg, pr, x.packets, cfg.degree, bytes);
      Distribute(bytes, s.total, cfg.degree);
    }
  }

  lemma Distribute(a: nat, b: nat, c: nat)
    ensures a * (b + c) == a * b + a * c
  {
  }

  // ---------- the start ----------

  /** Before any event: the proposer has decoded and sent `packets` to its peers. */
  function Launch<S(!new), P(!new, ==), E>(cfg: Config<S, P, E>, proposer: S, packets: seq<P>, k: nat): Sim<S, P>
    requires |cfg.mesh| > 0 && k <= |cfg.mesh[0]| && k <= |packets|
    requires forall i :: 0 <= i < k ==> cfg.mesh[0][i] < |cfg.mesh|
  {
    var n := |cfg.mesh|;
    SendAll(cfg, Sim(multiset{}, seq(n, v => if v == 0 then proposer else cfg.strategy.initial), seq(n, _ => 0),
      seq(n, _ => 0),
                     seq(n, v => if v == 0 then Some(0) else None), seq(n, _ => false), 0, 0, 0, 0), 0, 0, packets, k)
  }

  ghost predicate Supplies<S(!new), P(!new), E>(cfg: Config<S, P, E>, pr: Progress<S, P>, packets: seq<P>) {
    |packets| == cfg.degree && forall i :: 0 <= i < |packets| ==> pr.okPacket(packets[i])
  }

  /** The state before the proposer's batch, and what the batch adds to it. */
  lemma LaunchBatch<S(!new), P(!new), E>(cfg: Config<S, P, E>, proposer: S, packets: seq<P>)
    requires cfg.Meshed() && |packets| == cfg.degree
    ensures var base, s := Launch(cfg, proposer, packets, 0), Launch(cfg, proposer, packets, cfg.degree);
      && s == base.(queue := Batch(cfg, 0, 0, packets, cfg.degree), upload := s.upload, download := s.download,
        total := cfg.degree)
      && Sum(s.upload) == Sum(s.download) == Bytes(cfg, packets, cfg.degree)
  {
    var base := Launch(cfg, proposer, packets, 0);
    SendAllQueue(cfg, base, 0, 0, packets, cfg.degree);
    SendAllBytes(cfg, base, 0, 0, packets, cfg.degree);
    SumOfZeros(base.upload);
    SumOfZeros(base.download);
  }

  lemma LaunchConsistent<S(!new), P(!new), E>(cfg: Config<S, P, E>, pr: Progress<S, P>, proposer: S, packets: seq<P>)
    requires cfg.Meshed() && Lawful(cfg.strategy, pr) && Supplies(cfg, pr, packets)
    ensures var s := Launch(cfg, proposer, packets, cfg.degree); Consistent(cfg, pr, s) && Timely(s, 0)
  {
    LaunchBatch(cfg, proposer, packets);
    BatchMembers(cfg, 0, 0, packets, cfg.degree);
  }

  lemma LaunchBatches<S(!new), P(!new), E>(cfg: Config<S, P, E>, proposer: S, packets: seq<P>)
    requires cfg.Meshed() && |packets| == cfg.degree
    ensures Batches(cfg, Launch(cfg, proposer, packets, cfg.degree)) == 1
  {
    var base := Launch(cfg, proposer, packets, 0);
    LaunchBatch(cfg, proposer, packets);
    SumOfZeros(Marks(base.hasForwarded));
    FirstDecoded(base.decodeTimes);
  }

  lemma LaunchBalanced<S(!new), P(!new), E>(cfg: Config<S, P, E>, pr: Progress<S, P>, proposer: S, packets: seq<P>)
    requires cfg.Meshed() && Lawful(cfg.strategy, pr) && Supplies(cfg, pr, packets)
    ensures var s := Launch(cfg, proposer, packets, cfg.degree); Balanced(cfg, pr, s) && Batched(cfg, s)
  {
    LaunchBatch(cfg, proposer, packets);
    LaunchBatches(cfg, proposer, packets);
    BatchSize(cfg, 0, 0, packets, cfg.degree);
    SumOfZeros(Ranks(pr, Launch(cfg, proposer, packets, 0).states));
  }

  lemma FirstDecoded(times: seq<Option<nat>>)
    requires times != [] && times[0] == Some(0) && forall v :: 0 < v < |times| ==> times[v].None?
    ensures NodesDecoded(times) == 1
  {
    var none := times[0 := None];
    SumOfZeros(Flags(none));
    OneMoreDecoded(none, 0, 0);
    assert none[0 := Some(0)] == times;
  }

  lemma LaunchWeighed<S(!new), P(!new), E>(cfg: Config<S, P, E>, pr: Progress<S, P>, proposer: S, packets: seq<P>,
      bytes: nat)
    requires cfg.Meshed() && Supplies(cfg, pr, packets) && Uniform(cfg, pr, bytes)
    ensures Weighed(Launch(cfg, proposer, packets, cfg.degree), bytes)
  {
    LaunchBatch(cfg, proposer, packets);
    UniformBytes(cfg, pr, packets, cfg.degree, bytes);
  }
}
