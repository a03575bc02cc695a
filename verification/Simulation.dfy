/** The simulation run itself (crates/sim/src/engine.rs, function `run`). */
module Simulation {
  import opened Wrappers
  import opened StrategyCore
  import opened Topology
  import opened Engine
  import opened Flooding
  import opened Traffic

  /** What `run` reports, with the nodes' final states. */
  datatype Metrics<S> = Metrics(
    states: seq<S>, upload: seq<nat>, download: seq<nat>, decodeTimes: seq<Option<nat>>,
    nodesDecoded: nat, totalBytes: nat, total: nat, useful: nat, redundant: nat)

  /** Conservation and bounds on one run's report. */
  ghost predicate Accounted<S(!new), P(!new), E>(cfg: Config<S, P, E>, pr: Progress<S, P>, m: Metrics<S>) {
    && m.totalBytes == Sum(m.upload) == Sum(m.download)
    && m.nodesDecoded == NodesDecoded(m.decodeTimes)
    && m.useful + m.redundant <= m.total
    && m.useful <= pr.bound * (|cfg.mesh| - 1)
    && m.total <= cfg.degree * (1 + m.useful)
    && (cfg.strategy.cond == UntilDecode ==> m.total == cfg.degree * (1 + m.useful))
    && (cfg.strategy.cond == AfterDecode ==> m.total == cfg.degree * m.nodesDecoded)
    && (forall bytes: nat :: Uniform(cfg, pr, bytes) ==> m.totalBytes == bytes * m.total)
  }

  /** Receivers end in states that can arise, decoded exactly at full rank. */
  ghost predicate Settled<S(!new), P(!new), E>(cfg: Config<S, P, E>, pr: Progress<S, P>, m: Metrics<S>) {
    && |m.states| == |m.decodeTimes| == |cfg.mesh| > 0 && m.decodeTimes[0] == Some(0)
    && forall v :: 0 < v < |cfg.mesh| ==>
      pr.ok(m.states[v]) && (m.decodeTimes[v].Some? <==> pr.rank(m.states[v]) == pr.bound)
  }

  /** With one useful packet per node, nodes decode at their hop distance. */
  ghost predicate Shortest<S(!new), P(!new), E>(cfg: Config<S, P, E>, pr: Progress<S, P>, m: Metrics<S>) {
    Eager(cfg.strategy, pr) ==>
      forall bytes: nat, v: nat, h: nat {:trigger Uniform(cfg, pr, bytes), IsDistance(cfg.mesh, v, h)} ::
        Uniform(cfg, pr, bytes) && IsDistance(cfg.mesh, v, h) ==>
          v < |m.decodeTimes| && m.decodeTimes[v] == Some(h * cfg.delay(bytes))
  }

  /** No node decodes before its hop distance times what the fastest packet takes, and none
      that cannot be reached decodes at all. */
  ghost predicate NoneEarly<S(!new), P(!new), E>(cfg: Config<S, P, E>, pr: Progress<S, P>, times: seq<Option<nat>>) {
    && (forall v: nat :: v < |times| && times[v].Some? ==> Reached(cfg.mesh, v))
    && forall d: nat, v: nat, h: nat {:trigger Takes(cfg, pr, d), IsDistance(cfg.mesh, v, h)} ::
        Takes(cfg, pr, d) && IsDistance(cfg.mesh, v, h) && v < |times| && times[v].Some? ==> h * d <= times[v].value
  }

  lemma {:induction false} NextExists<P>(queue: multiset<Event<P>>) returns (e: Event<P>)
    requires queue != multiset{}
    ensures IsNext(queue, e)
    decreases |queue|
  {
    var a :| a in queue;
    var rest := queue - multiset{a};
    e := a;
    if rest != multiset{} {
      var d := NextExists(rest);
      assert d in rest && rest <= queue;
      e := if d.time < a.time then d else a;
    }
    forall x | x in queue ensures e.time <= x.time { assert x in rest || x == a; }
  }

  ghost predicate Flooded<S(!new), P(!new), E>(cfg: Config<S, P, E>, pr: Progress<S, P>, s: Sim<S, P>) {
    && (forall bytes: nat :: Uniform(cfg, pr, bytes) ==> Weighed(s, bytes))
    && (forall d: nat :: Takes(cfg, pr, d) ==> Paced(cfg.mesh, d, s))
    && (Eager(cfg.strategy, pr) ==>
          forall bytes: nat :: Uniform(cfg, pr, bytes) ==> Promised(cfg.mesh, cfg.delay(bytes), s))
  }

  lemma LaunchFlooded<S(!new), P(!new), E>(cfg: Config<S, P, E>, pr: Progress<S, P>, proposer: S, packets: seq<P>)
    requires cfg.Meshed() && Supplies(cfg, pr, packets)
    ensures Flooded(cfg, pr, Launch(cfg, proposer, packets, cfg.degree))
  {
    var s := Launch(cfg, proposer, packets, cfg.degree);
    forall bytes: nat | Uniform(cfg, pr, bytes) ensures Weighed(s, bytes) && Promised(cfg.mesh, cfg.delay(bytes), s) {
      LaunchWeighed(cfg, pr, proposer, packets, bytes);
      LaunchPromised(cfg, pr, proposer, packets, bytes);
    }
    forall d: nat | Takes(cfg, pr, d) ensures Paced(cfg.mesh, d, s) {
      LaunchPaced(cfg, pr, proposer, packets, d);
    }
  }

  lemma DeliverFlooded<S(!new), P(!new), E>(cfg: Config<S, P, E>, pr: Progress<S, P>, s: Sim<S, P>, clock: nat,
      e: Event<P>, draw: nat)
    requires Lawful(cfg.strategy, pr) && Consistent(cfg, pr, s) && Timely(s, clock) && IsNext(s.queue, e)
      && Flooded(cfg, pr, s)
    ensures Flooded(cfg, pr, Deliver(cfg, s, e, draw))
  {
    var r := Deliver(cfg, s, e, draw);
    forall bytes: nat | Uniform(cfg, pr, bytes) ensures Weighed(r, bytes) {
      DeliverWeighed(cfg, pr, s, e, draw, bytes);
    }
    forall d: nat | Takes(cfg, pr, d) ensures Paced(cfg.mesh, d, r) {
      DeliverPaced(cfg, pr, s, e, draw, d);
    }
    forall bytes: nat | Eager(cfg.strategy, pr) && Uniform(cfg, pr, bytes)
      ensures Promised(cfg.mesh, cfg.delay(bytes), r)
    {
      DeliverFloods(cfg, pr, s, clock, e, draw, bytes);
    }
  }

  /** The report on a final state. */
  function Report<S(!new), P(!new, ==)>(s: Sim<S, P>): Metrics<S> {
    Metrics(s.states, s.upload, s.download, s.decodeTimes, NodesDecoded(s.decodeTimes), Sum(s.upload), s.total,
      s.useful, s.redundant)
  }

  /** What an exhausted queue says about the report. */
  lemma FinalReport<S(!new), P(!new), E>(cfg: Config<S, P, E>, pr: Progress<S, P>, s: Sim<S, P>, clock: nat)
    requires Lawful(cfg.strategy, pr) && Invariant(cfg, pr, s, clock) && Flooded(cfg, pr, s) && s.queue == multiset{}
    ensures Accounted(cfg, pr, Report(s)) && Settled(cfg, pr, Report(s)) && Shortest(cfg, pr, Report(s))
  {
    var m := Report(s);
    UsefulBounded(cfg, pr, s);
    FinalCounts(cfg, s, m);
    FinalTimes(cfg, pr, s, m);
  }

  lemma FinalCounts<S(!new), P(!new), E>(cfg: Config<S, P, E>, s: Sim<S, P>, m: Metrics<S>)
    requires Batched(cfg, s) && Batches(cfg, s) <= 1 + s.useful
    requires m.total == s.total && m.useful == s.useful && m.nodesDecoded == NodesDecoded(s.decodeTimes)
    ensures m.total <= cfg.degree * (1 + m.useful)
    ensures cfg.strategy.cond == UntilDecode ==> m.total == cfg.degree * (1 + m.useful)
    ensures cfg.strategy.cond == AfterDecode ==> m.total == cfg.degree * m.nodesDecoded
  {
    AtMostTimes(cfg.degree, Batches(cfg, s), 1 + s.useful);
  }

  lemma AtMostTimes(d: nat, a: nat, b: nat)
    requires a <= b
    ensures d * a <= d * b
  {
  }

  lemma FinalTimes<S(!new), P(!new), E>(cfg: Config<S, P, E>, pr: Progress<S, P>, s: Sim<S, P>, m: Metrics<S>)
    requires Consistent(cfg, pr, s) && Flooded(cfg, pr, s) && s.queue == multiset{} && m.decodeTimes == s.decodeTimes
    ensures Shortest(cfg, pr, m)
  {
    if Eager(cfg.strategy, pr) {
      forall bytes: nat, v: nat, h: nat | Uniform(cfg, pr, bytes) && IsDistance(cfg.mesh, v, h)
        ensures v < |m.decodeTimes| && m.decodeTimes[v] == Some(h * cfg.delay(bytes))
      {
        DecodedAtDistance(cfg.mesh, cfg.delay(bytes), s, v, h);
      }
    }
  }

  // ---------- whole runs ----------

  lemma TurnKeeps<S(!new), P(!new), E>(cfg: Config<S, P, E>, pr: Progress<S, P>, s: Sim<S, P>, clock: nat,
      e: Event<P>, draw: nat)
    requires Lawful(cfg.strategy, pr) && Invariant(cfg, pr, s, clock) && Flooded(cfg, pr, s) && IsNext(s.queue, e)
    ensures var r := Deliver(cfg, s, e, draw);
      Invariant(cfg, pr, r, e.time) && Flooded(cfg, pr, r) && 0 <= Measure(cfg, pr, r) < Measure(cfg, pr, s)
  {
    DeliverKeeps(cfg, pr, s, clock, e, draw);
    DeliverFlooded(cfg, pr, s, clock, e, draw);
    DeliverProgress(cfg, pr, s, e, draw);
  }

  predicate Deliverable<S(!new), P(!new), E>(cfg: Config<S, P, E>, s: Sim<S, P>, e: Event<P>) {
    && Fits(s, |cfg.mesh|) && e.to < |cfg.mesh|
    && forall i :: 0 <= i < |cfg.mesh[e.to]| ==> cfg.mesh[e.to][i] < |cfg.mesh|
  }

  /** One turn of the loop: a least event is popped, any of those due first, and handled. The
      mark keeps the turn closed to proofs that do not name its event. */
  ghost predicate Turns<S(!new), P(!new), E>(cfg: Config<S, P, E>, s: Sim<S, P>, e: Event<P>, draw: nat, r: Sim<S, P>)
  {
    forall n: nat {:trigger At(e, n)} :: At(e, n) && n == draw ==>
      IsNext(s.queue, e) && Deliverable(cfg, s, e) && r == Deliver(cfg, s, e, n)
  }

  lemma TurnIs<S(!new), P(!new), E>(cfg: Config<S, P, E>, s: Sim<S, P>, e: Event<P>, draw: nat, r: Sim<S, P>)
    ensures Turns(cfg, s, e, draw, r) <==>
      (IsNext(s.queue, e) && Deliverable(cfg, s, e) && r == Deliver(cfg, s, e, draw))
  {
    assert At(e, draw);
  }

  /** A run of the loop: its states, and the events popped between them. The draws of the
      generator are numbered by the turn that consumes them. */
  ghost predicate IsRun<S(!new), P(!new), E>(cfg: Config<S, P, E>, states: seq<Sim<S, P>>, picks: seq<Event<P>>) {
    && |states| == |picks| + 1
    && forall k :: 0 <= k < |picks| ==> Turns(cfg, states[k], picks[k], k, states[k + 1])
  }

  ghost predicate Finished<S(!new), P(!new), E>(cfg: Config<S, P, E>, states: seq<Sim<S, P>>, picks: seq<Event<P>>) {
    IsRun(cfg, states, picks) && states[|picks|].queue == multiset{}
  }

  function Clock<P>(picks: seq<Event<P>>, k: nat): nat
    requires k <= |picks|
  {
    if k == 0 then 0 else picks[k - 1].time
  }

  lemma RunMore<S(!new), P(!new), E>(cfg: Config<S, P, E>, states: seq<Sim<S, P>>, picks: seq<Event<P>>, e: Event<P>,
      r: Sim<S, P>)
    requires IsRun(cfg, states, picks) && Turns(cfg, states[|picks|], e, |picks|, r)
    ensures IsRun(cfg, states + [r], picks + [e])
  {
  }

  ghost predicate Holds<S(!new), P(!new), E>(cfg: Config<S, P, E>, pr: Progress<S, P>, s: Sim<S, P>, clock: nat,
      room: int)
  {
    && Invariant(cfg, pr, s, clock) && Flooded(cfg, pr, s)
    && 0 <= Measure(cfg, pr, s) <= room
  }

  lemma LaunchHolds<S(!new), P(!new), E>(cfg: Config<S, P, E>, pr: Progress<S, P>, proposer: S, packets: seq<P>)
    requires cfg.Meshed() && Lawful(cfg.strategy, pr) && Supplies(cfg, pr, packets)
    ensures Holds(cfg, pr, Launch(cfg, proposer, packets, cfg.degree), 0, Budget(cfg, pr))
  {
    LaunchConsistent(cfg, pr, proposer, packets);
    LaunchBalanced(cfg, pr, proposer, packets);
    LaunchFlooded(cfg, pr, proposer, packets);
    LaunchRoom(cfg, pr, proposer, packets);
  }

  /** `degree·(1 + N·(n−1))`, what bounds the packets of a run. */
  function Budget<S(!new), P(!new), E>(cfg: Config<S, P, E>, pr: Progress<S, P>): int {
    cfg.degree * (1 + pr.bound * (|cfg.mesh| - 1))
  }

  lemma LaunchRoom<S(!new), P(!new), E>(cfg: Config<S, P, E>, pr: Progress<S, P>, proposer: S, packets: seq<P>)
    requires cfg.Meshed() && |packets| == cfg.degree
    ensures 0 <= Measure(cfg, pr, Launch(cfg, proposer, packets, cfg.degree)) <= Budget(cfg, pr)
  {
    LaunchBatch(cfg, proposer, packets);
    BatchSize(cfg, 0, 0, packets, cfg.degree);
    RoomSplit(cfg.degree, pr.bound * (|cfg.mesh| - 1));
  }

  lemma RoomSplit(degree: nat, rest: nat)
    ensures degree * (1 + rest) == degree + degree * rest && degree * rest >= 0
  {
  }

  lemma TurnHolds<S(!new), P(!new), E>(cfg: Config<S, P, E>, pr: Progress<S, P>, s: Sim<S, P>, clock: nat, room: int,
      e: Event<P>, draw: nat, r: Sim<S, P>)
    requires Lawful(cfg.strategy, pr) && Holds(cfg, pr, s, clock, room) && Turns(cfg, s, e, draw, r)
    ensures clock <= e.time && Holds(cfg, pr, r, e.time, room - 1)
  {
    TurnIs(cfg, s, e, draw, r);
    TurnKeeps(cfg, pr, s, clock, e, draw);
  }

  /** An event can be handled whenever the queue is not empty. */
  lemma TurnExists<S(!new), P(!new), E>(cfg: Config<S, P, E>, pr: Progress<S, P>, s: Sim<S, P>, clock: nat, room: int,
      e: Event<P>, draw: nat)
    requires Holds(cfg, pr, s, clock, room) && IsNext(s.queue, e)
    ensures Deliverable(cfg, s, e) && Turns(cfg, s, e, draw, Deliver(cfg, s, e, draw))
  {
    TurnIs(cfg, s, e, draw, Deliver(cfg, s, e, draw));
  }

  /** Whatever is picked, every state of a run keeps the invariants, popped times never run
      backwards, and each pick uses up room. */
  lemma {:induction false} RunHolds<S(!new), P(!new), E>(cfg: Config<S, P, E>, pr: Progress<S, P>,
      states: seq<Sim<S, P>>, picks: seq<Event<P>>, k: nat, room: int)
    requires Lawful(cfg.strategy, pr) && IsRun(cfg, states, picks) && Holds(cfg, pr, states[0], 0, room)
      && k <= |picks|
    ensures Holds(cfg, pr, states[k], Clock(picks, k), room - k)
    ensures k > 0 ==> Clock(picks, k - 1) <= picks[k - 1].time
  {
    if k > 0 {
      RunHolds(cfg, pr, states, picks, k - 1, room);
      TurnHolds(cfg, pr, states[k - 1], Clock(picks, k - 1), room - (k - 1), picks[k - 1], k - 1, states[k]);
    }
  }

  lemma RunTimely<S(!new), P(!new), E>(cfg: Config<S, P, E>, pr: Progress<S, P>, states: seq<Sim<S, P>>,
      picks: seq<Event<P>>, room: int)
    requires Lawful(cfg.strategy, pr) && IsRun(cfg, states, picks) && Holds(cfg, pr, states[0], 0, room)
    ensures forall i :: 0 <= i < |picks| - 1 ==> picks[i].time <= picks[i + 1].time
  {
    forall i | 0 <= i < |picks| - 1 ensures picks[i].time <= picks[i + 1].time {
      LaterPick(cfg, pr, states, picks, room, i + 1);
    }
  }

  lemma LaterPick<S(!new), P(!new), E>(cfg: Config<S, P, E>, pr: Progress<S, P>, states: seq<Sim<S, P>>,
      picks: seq<Event<P>>, room: int, k: nat)
    requires Lawful(cfg.strategy, pr) && IsRun(cfg, states, picks) && Holds(cfg, pr, states[0], 0, room)
      && 0 < k < |picks|
    ensures picks[k - 1].time <= picks[k].time
  {
    RunHolds(cfg, pr, states, picks, k + 1, room);
  }

  // ---------- what a run's packets were good for ----------

  /** Of the first `k` events, those whose node had not decoded yet. */
  ghost function AwaitedOf<S(!new), P(!new)>(states: seq<Sim<S, P>>, picks: seq<Event<P>>, k: nat): nat
    requires k <= |picks| && k <= |states|
  {
    if k == 0 then 0
    else AwaitedOf(states, picks, k - 1) + if Awaited(states[k - 1], picks[k - 1]) then 1 else 0
  }

  /** And those that were useful to their node. */
  ghost function HelpfulOf<S(!new), P(!new), E>(cfg: Config<S, P, E>, states: seq<Sim<S, P>>, picks: seq<Event<P>>,
      k: nat): nat
    requires k <= |picks| && k <= |states|
  {
    if k == 0 then 0
    else HelpfulOf(cfg, states, picks, k - 1) + if Helps(cfg, states[k - 1], picks[k - 1]) then 1 else 0
  }

  lemma TurnCounts<S(!new), P(!new), E>(cfg: Config<S, P, E>, s: Sim<S, P>, e: Event<P>, draw: nat, r: Sim<S, P>)
    requires Turns(cfg, s, e, draw, r)
    ensures r.useful == s.useful + (if Helps(cfg, s, e) then 1 else 0)
    ensures r.useful + r.redundant == s.useful + s.redundant + (if Awaited(s, e) then 1 else 0)
    ensures r.useful + r.redundant + r.ignored == s.useful + s.redundant + s.ignored + 1
  {
    TurnIs(cfg, s, e, draw, r);
    DeliverCounts(cfg, s, e, draw);
  }

  /** The counters of any run count exactly what happened in it. */
  lemma {:induction false} RunCounts<S(!new), P(!new), E>(cfg: Config<S, P, E>, states: seq<Sim<S, P>>,
      picks: seq<Event<P>>, k: nat)
    requires IsRun(cfg, states, picks) && k <= |picks|
    ensures states[k].useful == states[0].useful + HelpfulOf(cfg, states, picks, k)
    ensures states[k].useful + states[k].redundant ==
      states[0].useful + states[0].redundant + AwaitedOf(states, picks, k)
    ensures states[k].useful + states[k].redundant + states[k].ignored ==
      states[0].useful + states[0].redundant + states[0].ignored + k
  {
    if k > 0 {
      RunCounts(cfg, states, picks, k - 1);
      TurnCounts(cfg, states[k - 1], picks[k - 1], k - 1, states[k]);
    }
  }

  /** The report counts the packets that reached a node before it decoded, the useful and the
      redundant ones; every packet sent was delivered. */
  ghost predicate Tallied<S(!new), P(!new), E>(cfg: Config<S, P, E>, states: seq<Sim<S, P>>, picks: seq<Event<P>>,
      m: Metrics<S>)
    requires |states| == |picks| + 1
  {
    && m.useful == HelpfulOf(cfg, states, picks, |picks|)
    && m.useful + m.redundant == AwaitedOf(states, picks, |picks|)
    && m.total == |picks|
  }

  lemma RunTallied<S(!new), P(!new), E>(cfg: Config<S, P, E>, pr: Progress<S, P>, proposer: S, packets: seq<P>,
      states: seq<Sim<S, P>>, picks: seq<Event<P>>)
    requires cfg.Meshed() && |packets| == cfg.degree
    requires Finished(cfg, states, picks) && states[0] == Launch(cfg, proposer, packets, cfg.degree)
    requires Balanced(cfg, pr, states[|picks|])
    ensures Tallied(cfg, states, picks, Report(states[|picks|]))
  {
    LaunchBatch(cfg, proposer, packets);
    RunCounts(cfg, states, picks, |picks|);
  }

  /** Under full-block forwarding nothing is redundant in the simulator's sense. */
  lemma {:induction false} EagerWastesNothing<S(!new), P(!new), E>(cfg: Config<S, P, E>, pr: Progress<S, P>,
      states: seq<Sim<S, P>>, picks: seq<Event<P>>, room: int, k: nat)
    requires Lawful(cfg.strategy, pr) && Eager(cfg.strategy, pr) && IsRun(cfg, states, picks)
      && Holds(cfg, pr, states[0], 0, room) && k <= |picks|
    ensures HelpfulOf(cfg, states, picks, k) == AwaitedOf(states, picks, k)
  {
    if k > 0 {
      EagerWastesNothing(cfg, pr, states, picks, room, k - 1);
      RunHolds(cfg, pr, states, picks, k - 1, room);
      TurnIs(cfg, states[k - 1], picks[k - 1], k - 1, states[k]);
      EagerHelps(cfg, pr, states[k - 1], picks[k - 1]);
    }
  }

  lemma TurnCarries<S(!new), P(!new), E>(cfg: Config<S, P, E>, pr: Progress<S, P>, s: Sim<S, P>, clock: nat,
      room: int, e: Event<P>, draw: nat, r: Sim<S, P>, bytes: nat)
    requires Lawful(cfg.strategy, pr) && Holds(cfg, pr, s, clock, room) && Turns(cfg, s, e, draw, r)
    requires Uniform(cfg, pr, bytes) && Carries(cfg, pr, s, bytes)
    ensures Carries(cfg, pr, r, bytes)
  {
    TurnIs(cfg, s, e, draw, r);
    DeliverCarries(cfg, pr, s, e, draw, bytes);
  }

  /** With packets of one size every node has, at any point of a run, uploaded one packet per
      batch and peer, and downloaded one per batch of each node it is a peer of. */
  lemma {:induction false} RunCarries<S(!new), P(!new), E>(cfg: Config<S, P, E>, pr: Progress<S, P>,
      states: seq<Sim<S, P>>, picks: seq<Event<P>>, room: int, bytes: nat, k: nat)
    requires Lawful(cfg.strategy, pr) && IsRun(cfg, states, picks) && Holds(cfg, pr, states[0], 0, room)
      && k <= |picks|
    requires Uniform(cfg, pr, bytes) && Carries(cfg, pr, states[0], bytes)
    ensures Carries(cfg, pr, states[k], bytes)
  {
    if k > 0 {
      RunCarries(cfg, pr, states, picks, room, bytes, k - 1);
      RunHolds(cfg, pr, states, picks, k - 1, room);
      TurnCarries(cfg, pr, states[k - 1], Clock(picks, k - 1), room - (k - 1), picks[k - 1], k - 1, states[k], bytes);
    }
  }

  // ---------- the report of a run ----------

  lemma PacedNoneEarly<S(!new), P(!new), E>(cfg: Config<S, P, E>, pr: Progress<S, P>, s: Sim<S, P>)
    requires Flooded(cfg, pr, s)
    ensures NoneEarly(cfg, pr, s.decodeTimes)
  {
    forall v: nat | v < |s.decodeTimes| && s.decodeTimes[v].Some? ensures Reached(cfg.mesh, v) {
      assert Takes(cfg, pr, 0);
      assert WalkFits(cfg.mesh, 0, v, s.decodeTimes[v].value);
    }
    forall d: nat, v: nat, h: nat
      | Takes(cfg, pr, d) && IsDistance(cfg.mesh, v, h) && v < |s.decodeTimes| && s.decodeTimes[v].Some?
      ensures h * d <= s.decodeTimes[v].value
    {
      NotBefore(cfg.mesh, d, s, v, h);
    }
  }

  lemma RunEnds<S(!new), P(!new), E>(cfg: Config<S, P, E>, pr: Progress<S, P>, last: Sim<S, P>, clock: nat, room: int)
    requires Lawful(cfg.strategy, pr) && Holds(cfg, pr, last, clock, room)
    ensures room >= 0 && NoneEarly(cfg, pr, last.decodeTimes)
    ensures last.queue == multiset{} ==>
      Accounted(cfg, pr, Report(last)) && Settled(cfg, pr, Report(last)) && Shortest(cfg, pr, Report(last))
  {
    PacedNoneEarly(cfg, pr, last);
    if last.queue == multiset{} { FinalReport(cfg, pr, last, clock); }
  }

  /** Bounds on a run at any point of it. */
  lemma RunPaces<S(!new), P(!new), E>(cfg: Config<S, P, E>, pr: Progress<S, P>, proposer: S, packets: seq<P>,
      states: seq<Sim<S, P>>, picks: seq<Event<P>>)
    requires cfg.Meshed() && Lawful(cfg.strategy, pr) && Supplies(cfg, pr, packets)
    requires IsRun(cfg, states, picks) && states[0] == Launch(cfg, proposer, packets, cfg.degree)
    ensures |picks| <= Budget(cfg, pr)
    ensures forall i :: 0 <= i < |picks| - 1 ==> picks[i].time <= picks[i + 1].time
    ensures NoneEarly(cfg, pr, states[|picks|].decodeTimes)
  {
    RunReports(cfg, pr, proposer, packets, states, picks);
  }

  /** Every run: whatever the mesh, the draws and the picks, at most `degree·(1 + N·(n−1))`
      events are handled, in order of time, and no node decodes before its hop distance times
      what the fastest packet takes. Once the queue is empty the report is accounted, tallied,
      settled and, for strategies of one packet, timed by exactly that distance. */
  lemma RunReports<S(!new), P(!new), E>(cfg: Config<S, P, E>, pr: Progress<S, P>, proposer: S, packets: seq<P>,
      states: seq<Sim<S, P>>, picks: seq<Event<P>>)
    requires cfg.Meshed() && Lawful(cfg.strategy, pr) && Supplies(cfg, pr, packets)
    requires IsRun(cfg, states, picks) && states[0] == Launch(cfg, proposer, packets, cfg.degree)
    ensures |picks| <= Budget(cfg, pr)
    ensures forall i :: 0 <= i < |picks| - 1 ==> picks[i].time <= picks[i + 1].time
    ensures NoneEarly(cfg, pr, states[|picks|].decodeTimes)
    ensures Finished(cfg, states, picks) ==>
      var m := Report(states[|picks|]);
      Accounted(cfg, pr, m) && Tallied(cfg, states, picks, m) && Settled(cfg, pr, m) && Shortest(cfg, pr, m)
  {
    LaunchHolds(cfg, pr, proposer, packets);
    RunTimely(cfg, pr, states, picks, Budget(cfg, pr));
    RunHolds(cfg, pr, states, picks, |picks|, Budget(cfg, pr));
    RunEnds(cfg, pr, states[|picks|], Clock(picks, |picks|), Budget(cfg, pr) - |picks|);
    if Finished(cfg, states, picks) { RunTallied(cfg, pr, proposer, packets, states, picks); }
  }

  /** A run whose queue is not empty goes on. */
  lemma RunGoesOn<S(!new), P(!new), E>(cfg: Config<S, P, E>, pr: Progress<S, P>, states: seq<Sim<S, P>>,
      picks: seq<Event<P>>, room: int)
    returns (e: Event<P>, r: Sim<S, P>)
    requires Lawful(cfg.strategy, pr) && IsRun(cfg, states, picks) && Holds(cfg, pr, states[0], 0, room)
      && states[|picks|].queue != multiset{}
    ensures IsRun(cfg, states + [r], picks + [e]) && |picks| < room
  {
    var s, n := states[|picks|], |picks|;
    RunHolds(cfg, pr, states, picks, n, room);
    e := NextExists(s.queue);
    TurnExists(cfg, pr, s, Clock(picks, n), room - n, e, n);
    r := Deliver(cfg, s, e, n);
    TurnHolds(cfg, pr, s, Clock(picks, n), room - n, e, n, r);
    RunMore(cfg, states, picks, e, r);
  }

  /** And every run can be taken to its end. */
  lemma {:induction false} RunFinishes<S(!new), P(!new), E>(cfg: Config<S, P, E>, pr: Progress<S, P>,
      states: seq<Sim<S, P>>, picks: seq<Event<P>>, room: int)
    returns (states': seq<Sim<S, P>>, picks': seq<Event<P>>)
    requires Lawful(cfg.strategy, pr) && IsRun(cfg, states, picks) && Holds(cfg, pr, states[0], 0, room)
    ensures Finished(cfg, states', picks') && states <= states' && picks <= picks'
    decreases room - |picks|
  {
    states', picks' := states, picks;
    if states[|picks|].queue != multiset{} {
      var e, r := RunGoesOn(cfg, pr, states, picks, room);
      states', picks' := RunFinishes(cfg, pr, states + [r], picks + [e], room);
    }
  }

  // ---------- the loop ----------

  /** Sends one batch, packet by packet. */
  method SendBatch<S(!new), P(!new, ==), E>(cfg: Config<S, P, E>, s: Sim<S, P>, from: nat, now: nat, packets: seq<P>)
      returns (r: Sim<S, P>)
    requires |s.upload| == |s.download| == |cfg.mesh| && from < |cfg.mesh|
    requires forall i :: 0 <= i < |cfg.mesh[from]| ==> cfg.mesh[from][i] < |cfg.mesh|
    ensures r == SendAll(cfg, s, from, now, packets, Least(|cfg.mesh[from]|, |packets|))
  {
    r := s;
    var peers := cfg.mesh[from];
    for i := 0 to Least(|peers|, |packets|)
      invariant r == SendAll(cfg, s, from, now, packets, i)
    {
      r := Transmit(cfg, r, from, now, peers[i], packets[i]);
    }
  }

  /** Puts one packet on the way and counts it at both ends. */
  method Transmit<S(!new), P(!new, ==), E>(cfg: Config<S, P, E>, s: Sim<S, P>, from: nat, now: nat, peer: nat,
      packet: P) returns (r: Sim<S, P>)
    requires from < |s.upload| && peer < |s.download|
    ensures r == Send(cfg, s, from, now, peer, packet)
  {
    var bytes := cfg.strategy.size(packet);
    var arrival := now + cfg.delay(bytes);
    r := s.(upload := s.upload[from := s.upload[from] + bytes],
            download := s.download[peer := s.download[peer] + bytes],
            total := s.total + 1,
            queue := s.queue + multiset{Event(arrival, peer, packet)});
  }

  /** Handles one popped event. */
  method Process<S(!new), P(!new, ==), E(==)>(cfg: Config<S, P, E>, s: Sim<S, P>, e: Event<P>, draw: nat)
      returns (r: Sim<S, P>)
    requires Fits(s, |cfg.mesh|) && e.to < |cfg.mesh|
    requires forall i :: 0 <= i < |cfg.mesh[e.to]| ==> cfg.mesh[e.to][i] < |cfg.mesh|
    ensures r == Deliver(cfg, s, e, draw)
  {
    var to, st := e.to, cfg.strategy;
    r := s.(queue := s.queue - multiset{e});
    if r.decodeTimes[to].Some? {
      return r.(ignored := r.ignored + 1);
    }
    var (receipt, state) := st.receive(r.states[to], e.packet);
    r := r.(states := r.states[to := state]);
    if receipt == Useful {
      r := r.(useful := r.useful + 1);
    } else {
      r := r.(redundant := r.redundant + 1);
    }
    if receipt.Rejected? {
      return;
    }
    var decodable := st.canDecode(state);
    if ShouldForward(st.cond, decodable, receipt == Useful, r.hasForwarded[to]) {
      r := r.(hasForwarded := r.hasForwarded[to := true]);
      var packets := st.forward(state, |cfg.mesh[to]|, draw);
      r := SendBatch(cfg, r, to, e.time, packets);
    }
    if decodable {
      r := r.(decodeTimes := s.decodeTimes[to := Some(e.time)]);
    }
  }

  /** Only node 0 has the block, and its packets are on the way. */
  method Initialize<S(!new), P(!new, ==), E>(cfg: Config<S, P, E>, proposer: S, packets: seq<P>)
      returns (s: Sim<S, P>)
    requires cfg.Meshed() && |packets| == cfg.degree
    ensures s == Launch(cfg, proposer, packets, cfg.degree)
  {
    var n, st := |cfg.mesh|, cfg.strategy;
    s := Sim(multiset{}, seq(n, v => if v == 0 then proposer else st.initial), seq(n, _ => 0), seq(n, _ => 0),
             seq(n, v => if v == 0 then Some(0) else None), seq(n, _ => false), 0, 0, 0, 0);
    assert s == Launch(cfg, proposer, packets, 0);
    s := SendBatch(cfg, s, 0, 0, packets);
  }

  /** Runs the event loop to exhaustion. What it does is one of the runs above. */
  method Propagate<S(!new), P(!new, ==), E(==)>(cfg: Config<S, P, E>, ghost pr: Progress<S, P>, proposer: S,
      packets: seq<P>)
    returns (m: Metrics<S>, ghost states: seq<Sim<S, P>>, ghost picks: seq<Event<P>>)
    requires cfg.Meshed() && Lawful(cfg.strategy, pr) && Supplies(cfg, pr, packets)
    ensures Finished(cfg, states, picks) && states[0] == Launch(cfg, proposer, packets, cfg.degree)
    ensures m == Report(states[|picks|])
    ensures Accounted(cfg, pr, m) && Tallied(cfg, states, picks, m) && Settled(cfg, pr, m) && Shortest(cfg, pr, m)
  {
    var s := Initialize(cfg, proposer, packets);
    LaunchHolds(cfg, pr, proposer, packets);
    states, picks := [s], [];
    var draw := 0;
    while s.queue != multiset{}
      invariant IsRun(cfg, states, picks) && states[0] == Launch(cfg, proposer, packets, cfg.degree)
      invariant draw == |picks| && s == states[draw]
      invariant Holds(cfg, pr, s, Clock(picks, draw), Budget(cfg, pr) - draw)
      decreases Budget(cfg, pr) - draw
    {
      ghost var before := s;
      ghost var first := NextExists(s.queue);
      var e :| e in s.queue && IsNext(s.queue, e);
      TurnExists(cfg, pr, s, Clock(picks, draw), Budget(cfg, pr) - draw, e, draw);
      s := Process(cfg, s, e, draw);
      TurnHolds(cfg, pr, before, Clock(picks, draw), Budget(cfg, pr) - draw, e, draw, s);
      RunMore(cfg, states, picks, e, s);
      states, picks := states + [s], picks + [e];
      draw := draw + 1;
    }
    m := Report(s);
    FinalReport(cfg, pr, s, Clock(picks, draw));
    RunTallied(cfg, pr, proposer, packets, states, picks);
  }

  /** A whole run: lay out a random mesh, let node 0 propose, propagate. On the mesh every
      node is reachable, so full-block forwarding decodes everywhere. */
  method Run<S(!new), P(!new, ==), E(==)>(strategy: Strategy<S, P, E>, n: nat, degree: nat, delay: nat -> nat,
      shuffle: (nat, seq<nat>) -> seq<nat>, proposer: S, supply: nat -> seq<P>, ghost pr: Progress<S, P>)
    returns (mesh: seq<seq<nat>>, m: Metrics<S>, ghost states: seq<Sim<S, P>>, ghost picks: seq<Event<P>>)
    requires degree < n && (n > 1 ==> degree > 0) && Shuffles(shuffle) && Lawful(strategy, pr)
    requires forall k: nat :: |supply(k)| == k && forall i :: 0 <= i < k ==> pr.okPacket(supply(k)[i])
    ensures IsMesh(mesh, n, degree) && forall v: nat :: v < n ==> Reached(mesh, v)
    ensures var cfg := Config(strategy, mesh, degree, delay);
      && Finished(cfg, states, picks) && states[0] == Launch(cfg, proposer, supply(degree), degree)
      && m == Report(states[|picks|])
    ensures var cfg := Config(strategy, mesh, degree, delay);
      Accounted(cfg, pr, m) && Tallied(cfg, states, picks, m) && Settled(cfg, pr, m) && Shortest(cfg, pr, m)
  {
    mesh := RandomMesh(n, degree, shuffle);
    m, states, picks := Propagate(Config(strategy, mesh, degree, delay), pr, proposer, supply(|mesh[0]|));
  }

  /** Baseline on a mesh, node 0 sending its block to its peers: every finished run ends with
      the block at every node, decoded at hop distance times the delay of the block, and the
      bytes sent, by each node and in all, are exactly `degree` times the bytes delivered
      usefully. */
  lemma BaselineRun<B(!new)>(cfg: Config<Option<B>, B, string>, length: B -> nat, block: B,
      states: seq<Sim<Option<B>, B>>, picks: seq<Event<B>>)
    requires cfg.strategy == Baseline(length) && cfg.Meshed() && forall v: nat :: v < |cfg.mesh| ==>
      Reached(cfg.mesh, v)
    requires Finished(cfg, states, picks)
      && states[0] == Launch(cfg, Some(block), seq(cfg.degree, _ => block), cfg.degree)
    ensures Delivered(cfg, length(block), block, Report(states[|picks|]))
  {
    BaselineSupplies(cfg, length, block);
    EagerEnds(cfg, BaselineProgress(block), Some(block), seq(cfg.degree, _ => block), states, picks, length(block));
    BaselineEnd(cfg, length, block, states[|picks|]);
  }

  /** The block is everywhere, each node decoded at its hop distance and sent one copy to each
      of its peers, and no packet counts as redundant. */
  ghost predicate Delivered<B(!new)>(cfg: Config<Option<B>, B, string>, bytes: nat, block: B,
      m: Metrics<Option<B>>)
  {
    && |m.states| == |cfg.mesh| && (forall v :: 0 < v < |cfg.mesh| ==> m.states[v] == Some(block))
    && (forall v: nat, h: nat :: IsDistance(cfg.mesh, v, h) ==>
          v < |m.decodeTimes| && m.decodeTimes[v] == Some(h * cfg.delay(bytes)))
    && m.nodesDecoded == |cfg.mesh| && m.redundant == 0
    && SentOnce(cfg.mesh, cfg.degree, bytes, m.upload, m.download)
    && m.totalBytes == cfg.degree * (bytes * m.nodesDecoded)
  }

  /** A finished run of full-block forwarding wastes nothing, and with packets of one size its
      byte counts follow the batches sent. */
  lemma EagerEnds<S(!new), P(!new), E>(cfg: Config<S, P, E>, pr: Progress<S, P>, proposer: S, packets: seq<P>,
      states: seq<Sim<S, P>>, picks: seq<Event<P>>, bytes: nat)
    requires cfg.Meshed() && Lawful(cfg.strategy, pr) && Eager(cfg.strategy, pr) && Supplies(cfg, pr, packets)
    requires Finished(cfg, states, picks) && states[0] == Launch(cfg, proposer, packets, cfg.degree)
      && Uniform(cfg, pr, bytes)
    ensures var m := Report(states[|picks|]);
      Accounted(cfg, pr, m) && Settled(cfg, pr, m) && Shortest(cfg, pr, m) && m.redundant == 0
    ensures Carries(cfg, pr, states[|picks|], bytes)
  {
    LaunchHolds(cfg, pr, proposer, packets);
    LaunchCarries(cfg, pr, proposer, packets, bytes);
    EagerWastesNothing(cfg, pr, states, picks, Budget(cfg, pr), |picks|);
    RunCarries(cfg, pr, states, picks, Budget(cfg, pr), bytes, |picks|);
    RunReports(cfg, pr, proposer, packets, states, picks);
  }

  /** Every node has sent one packet to each of its peers. */
  ghost predicate SentOnce(mesh: seq<seq<nat>>, degree: nat, bytes: nat, upload: seq<nat>, download: seq<nat>) {
    && |upload| == |download| == |mesh|
    && forall v :: 0 <= v < |mesh| ==> upload[v] == bytes * degree && download[v] == bytes * Indegree(mesh, v)
  }

  lemma AllSentOnce<S(!new), P(!new), E>(cfg: Config<S, P, E>, pr: Progress<S, P>, s: Sim<S, P>, bytes: nat)
    requires Carries(cfg, pr, s, bytes) && cfg.strategy.cond == AfterDecode
    requires forall v :: 0 <= v < |s.decodeTimes| ==> s.decodeTimes[v].Some?
    ensures SentOnce(cfg.mesh, cfg.degree, bytes, s.upload, s.download)
  {
    forall v | 0 <= v < |cfg.mesh|
      ensures s.upload[v] == bytes * cfg.degree && s.download[v] == bytes * Indegree(cfg.mesh, v)
    {
      InboundOnce(cfg.mesh, AllBatches(cfg, pr, s), v, |cfg.mesh|);
      assert BatchesOf(cfg, pr, s, v) == 1;
    }
  }

  lemma BaselineSupplies<B(!new)>(cfg: Config<Option<B>, B, string>, length: B -> nat, block: B)
    requires cfg.strategy == Baseline(length)
    ensures var pr := BaselineProgress(block);
      && Lawful(cfg.strategy, pr) && Eager(cfg.strategy, pr) && Uniform(cfg, pr, length(block))
      && Supplies(cfg, pr, seq(cfg.degree, _ => block))
  {
    BaselineLawful(length, block);
  }

  lemma BaselineEnd<B(!new)>(cfg: Config<Option<B>, B, string>, length: B -> nat, block: B, s: Sim<Option<B>, B>)
    requires cfg.strategy == Baseline(length) && cfg.Meshed() && forall v: nat :: v < |cfg.mesh| ==>
      Reached(cfg.mesh, v)
    requires var pr, m := BaselineProgress(block), Report(s);
      Accounted(cfg, pr, m) && Settled(cfg, pr, m) && Shortest(cfg, pr, m) && m.redundant == 0
    requires Carries(cfg, BaselineProgress(block), s, length(block))
    ensures Delivered(cfg, length(block), block, Report(s))
  {
    BaselineReport(cfg, length, block, Report(s));
    AllSentOnce(cfg, BaselineProgress(block), s, length(block));
  }

  lemma BaselineReport<B(!new)>(cfg: Config<Option<B>, B, string>, length: B -> nat, block: B, m: Metrics<Option<B>>)
    requires cfg.strategy == Baseline(length) && cfg.Meshed() && forall v: nat :: v < |cfg.mesh| ==>
      Reached(cfg.mesh, v)
    requires var pr := BaselineProgress(block);
      Accounted(cfg, pr, m) && Settled(cfg, pr, m) && Shortest(cfg, pr, m)
    ensures forall v :: 0 < v < |cfg.mesh| ==> m.states[v] == Some(block)
    ensures forall v: nat, h: nat :: IsDistance(cfg.mesh, v, h) ==>
      v < |m.decodeTimes| && m.decodeTimes[v] == Some(h * cfg.delay(length(block)))
    ensures m.nodesDecoded == |cfg.mesh| && forall v :: 0 <= v < |m.decodeTimes| ==> m.decodeTimes[v].Some?
    ensures m.totalBytes == cfg.degree * (length(block) * m.nodesDecoded)
  {
    var pr, b := BaselineProgress(block), length(block);
    BaselineSupplies(cfg, length, block);
    EveryoneDecodes(cfg, pr, m, b);
    AllDecoded(m.decodeTimes);
    RedundancyIsDegree(cfg, pr, m, b);
    BaselineStates(cfg, block, m);
  }

  lemma BaselineStates<B(!new)>(cfg: Config<Option<B>, B, string>, block: B, m: Metrics<Option<B>>)
    requires Settled(cfg, BaselineProgress(block), m) && forall v :: 0 <= v < |m.decodeTimes| ==>
      m.decodeTimes[v].Some?
    ensures forall v :: 0 < v < |cfg.mesh| ==> m.states[v] == Some(block)
  {
  }

  /** Forwarding only after decoding, with packets of one size: the bytes sent are `degree`
      times the useful bytes, one packet per decoded node. */
  lemma RedundancyIsDegree<S(!new), P(!new), E>(cfg: Config<S, P, E>, pr: Progress<S, P>, m: Metrics<S>, bytes: nat)
    requires cfg.strategy.cond == AfterDecode && Uniform(cfg, pr, bytes) && Accounted(cfg, pr, m)
    ensures m.totalBytes == cfg.degree * (bytes * m.nodesDecoded)
  {
    Regroup(bytes, cfg.degree, m.nodesDecoded);
  }

  lemma EveryoneDecodes<S(!new), P(!new), E>(cfg: Config<S, P, E>, pr: Progress<S, P>, m: Metrics<S>, bytes: nat)
    requires Eager(cfg.strategy, pr) && Uniform(cfg, pr, bytes) && Shortest(cfg, pr, m) && Settled(cfg, pr, m)
    requires forall v: nat :: v < |cfg.mesh| ==> Reached(cfg.mesh, v)
    ensures forall v :: 0 <= v < |m.decodeTimes| ==> m.decodeTimes[v].Some?
  {
    forall v | 0 <= v < |m.decodeTimes| ensures m.decodeTimes[v].Some? {
      assert Reached(cfg.mesh, v);
      var k: nat :| Walk(cfg.mesh, k, v);
      var h := DistanceExists(cfg.mesh, v, k);
      assert IsDistance(cfg.mesh, v, h);
    }
  }

  lemma Regroup(a: nat, b: nat, c: nat)
    ensures a * (b * c) == b * (a * c)
  {
  }

  lemma {:induction false} AllDecoded(times: seq<Option<nat>>)
    requires forall v :: 0 <= v < |times| ==> times[v].Some?
    ensures NodesDecoded(times) == |times|
  {
    if times != [] {
      AllDecoded(times[..|times| - 1]);
      assert Flags(times)[..|times| - 1] == Flags(times[..|times| - 1]);
    }
  }
}
