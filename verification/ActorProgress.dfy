/** How far the actor gets: exactly as far as the messages it received allow
    (crates/node/src/actor.rs). */
module ActorProgress {
  import opened StrategyCore
  import opened Wrappers
  import opened ActorModel
  import opened ActorProofs

  /** What a protocol makes of a block's messages: which announcements open a block, which data
      payloads complete one, and which states it can be in after given payloads. */
  datatype Ledger<!S(!new), !D(!new)> = Ledger(opens: D -> bool, full: (nat, seq<D>) -> bool,
      tracks: (nat, seq<D>, S) -> bool)

  /** The protocol keeps the ledger, its rank reaches the bound exactly on payloads that
      complete the block, and neither order nor repetition of payloads matters for that. */
  ghost predicate Keeps<S(!new), D(!new), E, R>(p: Protocol<S, D, E, R>, g: Gauge<S>, l: Ledger<S, D>) {
    && (forall s: S, n: nat, d: D {:trigger l.tracks(n, [], s), l.opens(d)} :: l.tracks(n, [], s) ==>
          var (receipt, s') := p.ingest(s, Announce, n, d);
          (receipt == Useful <==> l.opens(d)) && l.tracks(n, [], s'))
    && (forall s: S, n: nat, fed: seq<D>, d: D {:trigger l.tracks(n, fed, s), Ask(s, n, d)} ::
          Ask(s, n, d) && l.tracks(n, fed, s) && g.ok(s) && g.armed(s) ==>
          l.tracks(n, fed + [d], p.ingest(s, Data, n, d).1))
    && (forall s: S, n: nat, fed: seq<D> {:trigger l.tracks(n, fed, s)} :: l.tracks(n, fed, s) && g.ok(s) ==>
          (g.rank(s) == g.bound <==> l.full(n, fed)))
    && (forall s: S, n: nat {:trigger l.tracks(n, [], p.reset(s))} :: l.tracks(n, [], p.reset(s)))
    && (forall n: nat, a: seq<D>, b: seq<D> {:trigger l.full(n, a), l.full(n, b)} ::
          l.full(n, a) && (forall d :: d in a ==> d in b) ==> l.full(n, b))
  }

  /** Data payloads handed to the protocol for block `b`, in order. */
  function Fed<D>(log: seq<Entry<D>>, b: nat): seq<D> {
    if log == [] then [] else
      var e := log[|log| - 1];
      Fed(log[..|log| - 1], b) +
        if e.message.block == b && e.message.channel == Data && e.fate.Ingested? then [e.message.payload] else []
  }

  lemma FedMore<D>(log: seq<Entry<D>>, e: Entry<D>, b: nat)
    ensures Fed(log + [e], b) == Fed(log, b) +
      if e.message.block == b && e.message.channel == Data && e.fate.Ingested? then [e.message.payload] else []
  {
    assert (log + [e])[..|log|] == log;
  }

  /** What was fed, and what opened a block, was consumed. */
  lemma {:induction false} FedConsumed<D>(log: seq<Entry<D>>, b: nat)
    ensures forall d :: d in Fed(log, b) ==> Message(Data, b, d) in Consumed(log)
    ensures forall d :: d in Opened(log, b) ==> Message(Announce, b, d) in Consumed(log)
  {
    if log != [] { FedConsumed(log[..|log| - 1], b); }
  }

  lemma {:induction false} NoneFed<D>(log: seq<Entry<D>>, b: nat)
    requires forall m :: m in Consumed(log) ==> m.block != b
    ensures Fed(log, b) == []
  {
    if log != [] {
      assert log[|log| - 1].message in Consumed(log);
      NoneFed(log[..|log| - 1], b);
    }
  }

  /** Payloads of block `b` on one channel among the messages, in order. */
  function PayloadsOf<D>(msgs: seq<Message<D>>, channel: Channel, b: nat): seq<D> {
    if msgs == [] then [] else
      var m := msgs[|msgs| - 1];
      PayloadsOf(msgs[..|msgs| - 1], channel, b) + if m.block == b && m.channel == channel then [m.payload] else []
  }

  function DataOf<D>(msgs: seq<Message<D>>, b: nat): seq<D> {
    PayloadsOf(msgs, Data, b)
  }

  lemma {:induction false} DataAre<D>(msgs: seq<Message<D>>, b: nat, d: D)
    ensures d in DataOf(msgs, b) <==> Message(Data, b, d) in msgs
  {
    if msgs != [] {
      DataAre(msgs[..|msgs| - 1], b, d);
      assert msgs == msgs[..|msgs| - 1] + [msgs[|msgs| - 1]];
    }
  }

  /** The messages hold an announcement that opens block `b` and data that completes it. */
  ghost predicate Supplied<S(!new), D(!new)>(l: Ledger<S, D>, msgs: seq<Message<D>>, b: nat) {
    (exists d :: Message(Announce, b, d) in msgs && l.opens(d)) && l.full(b, DataOf(msgs, b))
  }

  // ---------- one message ----------

  /** Announcements consumed for an unopened block were refused, and all data consumed for the
      current block was fed to the protocol; nothing consumed was for a later block. */
  ghost predicate Spent<S(!new), D(!new)>(l: Ledger<S, D>, a: Node<S, D>) {
    forall m :: m in Consumed(a.log) ==>
      && m.block <= a.phase.n
      && (m.block == a.phase.n && m.channel == Announce && a.phase.Init? ==> !l.opens(m.payload))
      && (m.block == a.phase.n && m.channel == Data ==> !a.phase.Init? && m.payload in Fed(a.log, a.phase.n))
  }

  /** The state tracks what was fed for the current block, earlier blocks were completed by
      what was fed for them, and what opened a block could. */
  ghost predicate OnTrack<S(!new), D(!new)>(l: Ledger<S, D>, a: Node<S, D>) {
    && l.tracks(a.phase.n, Fed(a.log, a.phase.n), a.protocol)
    && (a.phase.Init? ==> Fed(a.log, a.phase.n) == [])
    && (forall b: nat {:trigger Fed(a.log, b)} :: b < a.phase.n ==> l.full(b, Fed(a.log, b)))
    && (forall b: nat {:trigger Opened(a.log, b)} :: forall d :: d in Opened(a.log, b) ==> l.opens(d))
    && Spent(l, a)
  }

  function FedBy<D>(fed: seq<D>, m: Message<D>, fate: Option<Fate>): seq<D> {
    if fate.Some? && fate.value.Ingested? && m.channel == Data then fed + [m.payload] else fed
  }

  /** A verdict on a message of the current block tracks what it fed. */
  ghost predicate Tracked<S(!new), D(!new)>(l: Ledger<S, D>, phase: Phase, fed: seq<D>, m: Message<D>,
      v: Verdict<S>)
  {
    var fed' := FedBy(fed, m, v.fate);
    && (if v.phase.n == phase.n then l.tracks(phase.n, fed', v.protocol)
        else v.phase == Init(phase.n + 1) && l.tracks(v.phase.n, [], v.protocol) && l.full(phase.n, fed'))
    && (m.channel == Announce && v.fate.Some? && v.fate.value.Ingested? ==>
          && phase.Init? && (v.fate.value.useful <==> l.opens(m.payload))
          && v.phase == if l.opens(m.payload) then Decoding(phase.n) else phase)
    && (m.channel == Data && v.fate.Some? ==>
      phase.Decoding? && v.fate.value.Ingested? && !(v.phase == Init(phase.n)))
    && (v.fate.None? ==> v.phase == phase) && v.fate != Some(Stale)
    && (m.channel == Announce && v.fate == Some(Ignored) ==> phase.Decoding? && v.phase == phase)
  }

  lemma AdvanceTracked<S(!new), D(!new), E, R>(p: Protocol<S, D, E, R>, g: Gauge<S>, l: Ledger<S, D>, n: nat, s: S,
      s': S, forwarded: bool, fed: seq<D>, m: Message<D>)
    requires l.tracks(n, fed + [m.payload], s') && m.channel == Data
    requires l.tracks(n + 1, [], p.reset(s')) && (p.isComplete(s') ==> l.full(n, fed + [m.payload]))
    ensures Tracked(l, Decoding(n), fed, m, Advance(p, n, s, s', forwarded))
  {
  }

  lemma DecideTracked<S(!new), D(!new), E, R>(p: Protocol<S, D, E, R>, g: Gauge<S>, l: Ledger<S, D>, s: S,
      phase: Phase, forwarded: bool, fed: seq<D>, m: Message<D>)
    requires Conforms(p, g) && Keeps(p, g, l) && !phase.Halted? && InStep(p, g, phase, s)
    requires l.tracks(phase.n, fed, s) && (phase.Init? ==> fed == []) && m.block == phase.n
    ensures Tracked(l, phase, fed, m, Decide(p, s, phase, forwarded, m))
  {
    var n := phase.n;
    if m.channel == Data && phase.Decoding? {
      assert Ask(s, n, m.payload);
      var (receipt, s') := p.ingest(s, Data, n, m.payload);
      assert l.tracks(n, fed + [m.payload], s') && g.ok(s');
      assert l.tracks(n + 1, [], p.reset(s'));
      if receipt == Useful { AdvanceTracked(p, g, l, n, s, s', forwarded, fed, m); }
    } else if m.channel == Announce && phase.Init? {
      assert l.opens(m.payload) || !l.opens(m.payload);
    }
  }

  lemma FedAfter<S(!new), D(!new)>(a: Node<S, D>, m: Message<D>, v: Verdict<S>, b: Node<S, D>, k: nat)
    requires Carried(a, m, v, b)
    ensures Fed(b.log, k) == if k == m.block then FedBy(Fed(a.log, k), m, v.fate) else Fed(a.log, k)
    ensures Consumed(b.log) == Consumed(a.log) + if v.fate.Some? then multiset{m} else multiset{}
  {
    if v.fate.Some? {
      FedMore(a.log, Entry(m, v.fate.value), k);
      Logged(a.log, Entry(m, v.fate.value), k);
    }
  }

  lemma OpenedIs<S(!new), D(!new)>(l: Ledger<S, D>, a: Node<S, D>, m: Message<D>, v: Verdict<S>, b: Node<S, D>)
    requires OnTrack(l, a) && Carried(a, m, v, b)
    requires m.channel == Announce && v.fate.Some? && v.fate.value.Ingested? && v.fate.value.useful ==>
      l.opens(m.payload)
    ensures forall k: nat {:trigger Opened(b.log, k)} :: forall d :: d in Opened(b.log, k) ==> l.opens(d)
  {
    forall k: nat, d | d in Opened(b.log, k) ensures l.opens(d) {
      if v.fate.Some? { Logged(a.log, Entry(m, v.fate.value), k); }
      assert d in Opened(a.log, k) ==> l.opens(d);
    }
  }

  /** What was fed for earlier blocks stays what it was. */
  lemma EarlierFull<S(!new), D(!new)>(l: Ledger<S, D>, a: Node<S, D>, m: Message<D>, v: Verdict<S>, b: Node<S, D>)
    requires OnTrack(l, a) && Carried(a, m, v, b) && m.block == a.phase.n
    ensures forall k: nat {:trigger Fed(b.log, k)} :: k < a.phase.n ==> l.full(k, Fed(b.log, k))
  {
    forall k: nat | k < a.phase.n ensures l.full(k, Fed(b.log, k)) {
      FedAfter(a, m, v, b, k);
      assert l.full(k, Fed(a.log, k));
    }
  }

  /** A message that leaves the actor on the same block keeps it on track. */
  lemma SameBlock<S(!new), D(!new)>(l: Ledger<S, D>, a: Node<S, D>, m: Message<D>, v: Verdict<S>, b: Node<S, D>)
    requires OnTrack(l, a) && Carried(a, m, v, b) && m.block == a.phase.n == v.phase.n
    requires Tracked(l, a.phase, Fed(a.log, a.phase.n), m, v)
    ensures OnTrack(l, b)
  {
    OpenedIs(l, a, m, v, b);
    EarlierFull(l, a, m, v, b);
    FedAfter(a, m, v, b, a.phase.n);
  }

  /** Nothing consumed was for a later block, so the next block starts with nothing fed. */
  lemma NextUntouched<S(!new), D(!new)>(l: Ledger<S, D>, a: Node<S, D>, m: Message<D>, v: Verdict<S>, b: Node<S, D>)
    requires Spent(l, a) && Carried(a, m, v, b) && m.block == a.phase.n
    ensures (forall x :: x in Consumed(b.log) ==> x.block <= a.phase.n) && Fed(b.log, a.phase.n + 1) == []
  {
    FedAfter(a, m, v, b, a.phase.n + 1);
    NoneFed(b.log, a.phase.n + 1);
  }

  /** Completing a block leaves the next one untouched. */
  lemma NextBlock<S(!new), D(!new)>(l: Ledger<S, D>, a: Node<S, D>, m: Message<D>, v: Verdict<S>, b: Node<S, D>)
    requires OnTrack(l, a) && Carried(a, m, v, b) && m.block == a.phase.n != v.phase.n
    requires Tracked(l, a.phase, Fed(a.log, a.phase.n), m, v)
    ensures OnTrack(l, b)
  {
    OpenedIs(l, a, m, v, b);
    EarlierFull(l, a, m, v, b);
    NextUntouched(l, a, m, v, b);
    FedAfter(a, m, v, b, a.phase.n);
  }

  lemma StaleTracked<S(!new), D(!new)>(l: Ledger<S, D>, a: Node<S, D>, m: Message<D>, b: Node<S, D>)
    requires OnTrack(l, a) && m.block < a.phase.n
    requires b.log == a.log + [Entry(m, Stale)] && b.phase == a.phase && b.protocol == a.protocol
    ensures OnTrack(l, b)
  {
    forall k: nat ensures Fed(b.log, k) == Fed(a.log, k) && Opened(b.log, k) == Opened(a.log, k) {
      FedMore(a.log, Entry(m, Stale), k);
      Logged(a.log, Entry(m, Stale), k);
    }
    Logged(a.log, Entry(m, Stale), 0);
  }

  lemma HandleTracked<S(!new), D(!new), E, R>(p: Protocol<S, D, E, R>, g: Gauge<S>, l: Ledger<S, D>, a: Node<S, D>,
      m: Message<D>)
    requires Conforms(p, g) && Keeps(p, g, l) && Inv(p, g, a) && OnTrack(l, a) && !a.phase.Halted?
      && m.block <= a.phase.n
    ensures OnTrack(l, Handle(p, a, m).0)
  {
    var v, b := Decide(p, a.protocol, a.phase, a.forwarded, m), Handle(p, a, m).0;
    HandleCarries(p, a, m);
    if m.block < a.phase.n {
      StaleTracked(l, a, m, b);
    } else {
      DecideTracked(p, g, l, a.protocol, a.phase, a.forwarded, Fed(a.log, a.phase.n), m);
      if v.phase.n == a.phase.n { SameBlock(l, a, m, v, b); } else { NextBlock(l, a, m, v, b); }
    }
  }

  // ---------- whole runs ----------

  lemma {:induction false} DrainTracked<S(!new), D(!new), E, R>(p: Protocol<S, D, E, R>, g: Gauge<S>, l: Ledger<S, D>,
      a: Node<S, D>, work: seq<Message<D>>)
    requires Conforms(p, g) && Keeps(p, g, l) && Inv(p, g, a) && OnTrack(l, a) && NotAhead(a.phase.n, work)
    ensures OnTrack(l, Drain(p, a, work))
    decreases |Held(a.buffer)| + |work|, |work|
  {
    if !a.phase.Halted? && work != [] {
      var (b, extra) := Handle(p, a, work[0]);
      HandleShrinks(p, a, work[0]);
      HandleTidy(p, a, work[0]);
      HandleKeeps(p, g, a, work[0]);
      HandleTracked(p, g, l, a, work[0]);
      DrainTracked(p, g, l, b, work[1..] + extra);
    }
  }

  lemma RouteTracked<S(!new), D(!new), E, R>(p: Protocol<S, D, E, R>, g: Gauge<S>, l: Ledger<S, D>, a: Node<S, D>,
      m: Message<D>)
    requires Conforms(p, g) && Keeps(p, g, l) && Inv(p, g, a) && OnTrack(l, a)
    ensures OnTrack(l, Route(p, a, m))
  {
    if a.phase.Halted? {
    } else if m.block < a.phase.n {
      StaleTracked(l, a, m, Route(p, a, m));
    } else if m.block == a.phase.n {
      DrainTracked(p, g, l, a, [m]);
    }
  }

  // Marks the node at which a proof uses what `Steady` says.
  ghost predicate Named<T>(x: T) { true }

  /** The actor's invariant and being on track, kept closed until a proof names the node. */
  ghost predicate Steady<S(!new), D(!new), E, R>(p: Protocol<S, D, E, R>, g: Gauge<S>, l: Ledger<S, D>,
      a: Node<S, D>)
  {
    forall x: Node<S, D> {:trigger Named(x)} :: Named(x) && x == a ==> Inv(p, g, x) && OnTrack(l, x)
  }

  lemma SteadyIs<S(!new), D(!new), E, R>(p: Protocol<S, D, E, R>, g: Gauge<S>, l: Ledger<S, D>, a: Node<S, D>)
    ensures Steady(p, g, l, a) <==> Inv(p, g, a) && OnTrack(l, a)
  {
    assert Named(a);
  }

  lemma RouteSteady<S(!new), D(!new), E, R>(p: Protocol<S, D, E, R>, g: Gauge<S>, l: Ledger<S, D>, a: Node<S, D>,
      m: Message<D>, b: Node<S, D>)
    requires Conforms(p, g) && Keeps(p, g, l) && Steady(p, g, l, a) && b == Route(p, a, m)
    ensures Steady(p, g, l, b)
  {
    SteadyIs(p, g, l, a);
    RouteKeeps(p, g, a, m);
    RouteTracked(p, g, l, a, m);
    SteadyIs(p, g, l, b);
  }

  lemma StartSteady<S(!new), D(!new), E, R>(p: Protocol<S, D, E, R>, g: Gauge<S>, l: Ledger<S, D>, start: S)
    requires Conforms(p, g) && g.ok(start) && g.rank(start) == 0 && l.tracks(0, [], start)
    ensures Steady(p, g, l, Start(start))
  {
    RunKeeps(p, g, start, [], 0);
    SteadyIs(p, g, l, Start(start));
  }

  lemma {:induction false} RunSteady<S(!new), D(!new), E, R>(p: Protocol<S, D, E, R>, g: Gauge<S>, l: Ledger<S, D>,
      start: S, msgs: seq<Message<D>>, k: nat)
    requires Conforms(p, g) && Keeps(p, g, l) && g.ok(start) && g.rank(start) == 0 && l.tracks(0, [], start)
      && k <= |msgs|
    ensures Steady(p, g, l, Received(p, start, msgs, k))
  {
    if k == 0 {
      StartSteady(p, g, l, start);
    } else {
      RunSteady(p, g, l, start, msgs, k - 1);
      RouteSteady(p, g, l, Received(p, start, msgs, k - 1), msgs[k - 1], Received(p, start, msgs, k));
    }
  }

  // ---------- how far a run gets ----------

  /** Blocks already decoded, and the one a halted actor stopped on, were supplied. */
  lemma BegunSupplied<S(!new), D(!new), E, R>(p: Protocol<S, D, E, R>, g: Gauge<S>, l: Ledger<S, D>, a: Node<S, D>,
      msgs: seq<Message<D>>, b: nat)
    requires Keeps(p, g, l) && Inv(p, g, a) && OnTrack(l, a) && (forall m :: m in Consumed(a.log) ==> m in msgs)
    requires b < a.phase.n || (b == a.phase.n && a.phase.Halted?)
    ensures Supplied(l, msgs, b)
  {
    FedConsumed(a.log, b);
    assert |Opened(a.log, b)| == 1;
    assert Opened(a.log, b)[0] in Opened(a.log, b);
    assert Message(Announce, b, Opened(a.log, b)[0]) in msgs;
    assert l.full(b, Fed(a.log, b));
    forall d | d in Fed(a.log, b) ensures d in DataOf(msgs, b) { DataAre(msgs, b, d); }
  }

  /** A waiting actor has received no announcement that opens its block. */
  lemma NothingOpens<S(!new), D(!new)>(l: Ledger<S, D>, a: Node<S, D>, msgs: seq<Message<D>>)
    requires OnTrack(l, a) && Tidy(a) && a.phase.Init?
    requires forall m :: m in msgs ==> m in Consumed(a.log) || m in Held(a.buffer)
    ensures !Supplied(l, msgs, a.phase.n)
  {
    var n := a.phase.n;
    forall d | Message(Announce, n, d) in msgs ensures !l.opens(d) {
      NotHeld(a, Message(Announce, n, d));
    }
  }

  /** A decoding actor has fed its protocol all data of its block. */
  lemma AllFed<S(!new), D(!new)>(l: Ledger<S, D>, a: Node<S, D>, msgs: seq<Message<D>>)
    requires OnTrack(l, a) && Tidy(a) && a.phase.Decoding?
    requires forall m :: m in msgs ==> m in Consumed(a.log) || m in Held(a.buffer)
    ensures forall d :: d in DataOf(msgs, a.phase.n) ==> d in Fed(a.log, a.phase.n)
  {
    var n := a.phase.n;
    forall d | d in DataOf(msgs, n) ensures d in Fed(a.log, n) {
      DataAre(msgs, n, d);
      NotHeld(a, Message(Data, n, d));
    }
  }

  /** The buffer holds no announcement of the awaited block, and nothing of one being decoded. */
  lemma NotHeld<S, D>(a: Node<S, D>, m: Message<D>)
    requires Tidy(a) && m.block == a.phase.n && (a.phase.Init? ==> m.channel == Announce)
    ensures m !in Held(a.buffer)
  {
    assert a.phase.Init? ==> forall x :: x in Slot(a.buffer, m.block) ==> x.0 == Data;
    if m in Held(a.buffer) { HeldAre(a.buffer, m); }
  }

  /** A running actor awaits something: the block it is on was not supplied. */
  lemma CurrentNotSupplied<S(!new), D(!new), E, R>(p: Protocol<S, D, E, R>, g: Gauge<S>, l: Ledger<S, D>,
      a: Node<S, D>, msgs: seq<Message<D>>)
    requires Keeps(p, g, l) && InStep(p, g, a.phase, a.protocol) && Tidy(a) && OnTrack(l, a) && !a.phase.Halted?
    requires forall m :: m in msgs ==> m in Consumed(a.log) || m in Held(a.buffer)
    ensures !Supplied(l, msgs, a.phase.n)
  {
    if a.phase.Init? {
      NothingOpens(l, a, msgs);
    } else {
      AllFed(l, a, msgs);
      assert !l.full(a.phase.n, Fed(a.log, a.phase.n));
    }
  }

  /** What is held is in the buffer under its own block. */
  lemma HeldAre<D>(buffer: map<nat, seq<(Channel, D)>>, m: Message<D>)
    requires m in Held(buffer)
    ensures m.block in buffer && (m.channel, m.payload) in buffer[m.block]
  {
    HeldBelowAre(buffer, Top(buffer), m);
  }

  lemma {:induction false} HeldBelowAre<D>(buffer: map<nat, seq<(Channel, D)>>, top: nat, m: Message<D>)
    requires m in HeldBelow(buffer, top)
    ensures m.block in buffer && (m.channel, m.payload) in buffer[m.block]
  {
    if m in HeldBelow(buffer, top - 1) {
      HeldBelowAre(buffer, top - 1, m);
    } else {
      var msgs := Slot(buffer, top - 1);
      assert m in Tag(top - 1, msgs);
      var i :| 0 <= i < |msgs| && Tag(top - 1, msgs)[i] == m;
      assert msgs[i] == (m.channel, m.payload);
    }
  }

  /** A run that does not halt decodes exactly as far as its messages allow: `decodedCount` is
      the first block that they do not supply. A run that halts stops on a supplied block. */
  lemma DecodedExactly<S(!new), D(!new), E, R>(p: Protocol<S, D, E, R>, g: Gauge<S>, l: Ledger<S, D>, start: S,
      msgs: seq<Message<D>>)
    requires Conforms(p, g) && Keeps(p, g, l) && g.ok(start) && g.rank(start) == 0 && l.tracks(0, [], start)
    ensures var a := Received(p, start, msgs, |msgs|);
      && (forall b: nat :: b < a.decodedCount ==> Supplied(l, msgs, b))
      && (Supplied(l, msgs, a.decodedCount) <==> a.phase.Halted?)
  {
    var a, h := Received(p, start, msgs, |msgs|), Heard(p, start, msgs, |msgs|);
    RunSteady(p, g, l, start, msgs, |msgs|);
    SteadyIs(p, g, l, a);
    RunConserves(p, start, msgs, |msgs|);
    HeardFrom(msgs, h, Consumed(a.log), Held(a.buffer), multiset(a.left));
    NodeDecoded(p, g, l, a, msgs);
  }

  lemma NodeDecoded<S(!new), D(!new), E, R>(p: Protocol<S, D, E, R>, g: Gauge<S>, l: Ledger<S, D>, a: Node<S, D>,
      msgs: seq<Message<D>>)
    requires Keeps(p, g, l) && Inv(p, g, a) && OnTrack(l, a) && (forall m :: m in Consumed(a.log) ==> m in msgs)
    requires !a.phase.Halted? ==> forall m :: m in msgs ==> m in Consumed(a.log) || m in Held(a.buffer)
    ensures forall b: nat :: b < a.decodedCount ==> Supplied(l, msgs, b)
    ensures Supplied(l, msgs, a.decodedCount) <==> a.phase.Halted?
  {
    assert InOrder(a);
    forall b: nat | b < a.decodedCount ensures Supplied(l, msgs, b) { BegunSupplied(p, g, l, a, msgs, b); }
    if a.phase.Halted? {
      BegunSupplied(p, g, l, a, msgs, a.phase.n);
    } else {
      CurrentNotSupplied(p, g, l, a, msgs);
    }
  }

  lemma HeardFrom<T>(msgs: seq<T>, h: nat, log: multiset<T>, held: multiset<T>, left: multiset<T>)
    requires h <= |msgs| && log + held + left == multiset(msgs[..h])
    ensures forall m :: m in log ==> m in msgs
    ensures h == |msgs| && left == multiset{} ==> forall m :: m in msgs ==> m in log || m in held
  {
    forall m | m in log ensures m in msgs { assert m in multiset(msgs[..h]); }
    if h == |msgs| && left == multiset{} {
      assert msgs[..h] == msgs;
      forall m | m in msgs ensures m in log || m in held { assert m in multiset(msgs[..h]); }
    }
  }

  /** More messages never hurt, and neither order nor repetition matters: of two runs that do
      not halt, the one that received every message the other did is at least as far. */
  lemma ProgressMonotone<S(!new), D(!new), E, R>(p: Protocol<S, D, E, R>, g: Gauge<S>, l: Ledger<S, D>, start: S,
      few: seq<Message<D>>, many: seq<Message<D>>)
    requires Conforms(p, g) && Keeps(p, g, l) && g.ok(start) && g.rank(start) == 0 && l.tracks(0, [], start)
    requires forall m :: m in few ==> m in many
    requires !Received(p, start, many, |many|).phase.Halted?
    ensures Received(p, start, few, |few|).decodedCount <= Received(p, start, many, |many|).decodedCount
  {
    var a, b := Received(p, start, few, |few|), Received(p, start, many, |many|);
    DecodedExactly(p, g, l, start, few);
    DecodedExactly(p, g, l, start, many);
    if b.decodedCount < a.decodedCount {
      SuppliedMore(p, g, l, few, many, b.decodedCount);
    }
  }

  lemma SuppliedMore<S(!new), D(!new), E, R>(p: Protocol<S, D, E, R>, g: Gauge<S>, l: Ledger<S, D>,
      few: seq<Message<D>>, many: seq<Message<D>>, b: nat)
    requires Keeps(p, g, l) && (forall m :: m in few ==> m in many) && Supplied(l, few, b)
    ensures Supplied(l, many, b)
  {
    forall d | d in DataOf(few, b) ensures d in DataOf(many, b) {
      DataAre(few, b, d);
      DataAre(many, b, d);
    }
  }
}
