/** Soundness of a protocol's states, carried through a whole run of the actor
    (crates/node/src/actor.rs). */
module ActorSoundness {
  import opened StrategyCore
  import opened Wrappers
  import opened ActorModel
  import opened ActorProofs

  /** Which messages may be taken in, and what a protocol state on block `n` then is, given
      the announcement that opened the block, if one has. */
  datatype Standard<!S(!new), !D(!new)> = Standard(honest: Message<D> -> bool, sound: (nat, seq<D>, S) -> bool)

  /** Honest messages keep a state sound for its block, a useful announcement opens the block,
      and a reset state suits any block not yet opened. */
  ghost predicate Upholds<S(!new), D(!new), E, R>(p: Protocol<S, D, E, R>, t: Standard<S, D>) {
    && (forall s: S, m: Message<D> {:trigger t.sound(m.block, [], s), t.honest(m)} ::
          t.sound(m.block, [], s) && t.honest(m) && m.channel == Announce ==>
            var (receipt, s') := p.ingest(s, Announce, m.block, m.payload);
            t.sound(m.block, if receipt == Useful then [m.payload] else [], s'))
    && (forall s: S, o: seq<D>, m: Message<D> {:trigger t.sound(m.block, o, s), t.honest(m)} ::
          t.sound(m.block, o, s) && t.honest(m) && m.channel == Data ==>
            t.sound(m.block, o, p.ingest(s, Data, m.block, m.payload).1))
    && (forall s: S, n: nat {:trigger t.sound(n, [], p.reset(s))} :: t.sound(n, [], p.reset(s)))
  }

  ghost predicate AllHonest<S(!new), D(!new)>(t: Standard<S, D>, work: seq<Message<D>>) {
    forall m :: m in work ==> t.honest(m)
  }

  ghost predicate BufferHonest<S(!new), D(!new)>(t: Standard<S, D>, buffer: map<nat, seq<(Channel, D)>>) {
    forall k: nat :: AllHonest(t, Tag(k, Slot(buffer, k)))
  }

  ghost predicate CallsSound<S(!new), D(!new)>(t: Standard<S, D>, log: seq<Entry<D>>, calls: seq<Call<S>>) {
    forall i :: 0 <= i < |calls| ==> t.sound(calls[i].block, Opened(log, calls[i].block), calls[i].state)
  }

  /** The state suits the current block, every call was made in a sound state, and only
      honest messages wait. */
  ghost predicate SoundNode<S(!new), D(!new)>(t: Standard<S, D>, a: Node<S, D>) {
    && t.sound(a.phase.n, Opened(a.log, a.phase.n), a.protocol)
    && CallsSound(t, a.log, a.calls) && BufferHonest(t, a.buffer)
  }

  lemma BufferStaysHonest<S(!new), D(!new)>(t: Standard<S, D>, before: map<nat, seq<(Channel, D)>>, n: nat,
      m: Message<D>, after: map<nat, seq<(Channel, D)>>, extra: seq<Message<D>>)
    requires BufferStep(before, n, m, after, extra) && BufferHonest(t, before) && t.honest(m)
    ensures BufferHonest(t, after) && AllHonest(t, extra)
  {
    OnlySmaller(Data, Tag(n, Slot(before, n)));
    OnlySmaller(Announce, Tag(n + 1, Slot(before, n + 1)));
    OnlySmaller(Data, Tag(n + 1, Slot(before, n + 1)));
    forall k: nat ensures AllHonest(t, Tag(k, Slot(after, k))) {
      assert AllHonest(t, Tag(k, Slot(before, k)));
      if after == Push(before, m) && k == m.block {
        assert Tag(k, Slot(after, k)) == Tag(k, Slot(before, k)) + [m];
      } else {
        assert Slot(after, k) == [] || Slot(after, k) == Slot(before, k);
      }
    }
    assert AllHonest(t, Tag(n, Slot(before, n))) && AllHonest(t, Tag(n + 1, Slot(before, n + 1)));
  }

  // ---------- one message ----------

  /** The opening of the current block after the message is filed. */
  function Opening<D>(before: seq<D>, m: Message<D>, fate: Option<Fate>): seq<D> {
    if fate.Some? && fate.value.Ingested? && fate.value.useful && m.channel == Announce then before + [m.payload]
      else before
  }

  /** The state a verdict leaves is sound, and so is the state of every call it makes. */
  ghost predicate VerdictSound<S(!new), D(!new)>(t: Standard<S, D>, phase: Phase, o: seq<D>, m: Message<D>,
      v: Verdict<S>)
  {
    && (if v.phase.n == phase.n then t.sound(phase.n, Opening(o, m, v.fate), v.protocol)
      else t.sound(v.phase.n, [], v.protocol))
    && (v.phase.n == phase.n || v.phase.n == phase.n + 1)
    && (v.calls != [] ==> phase.Decoding? && m.channel == Data)
    && forall i :: 0 <= i < |v.calls| ==> v.calls[i].block == phase.n && t.sound(phase.n, o, v.calls[i].state)
  }

  lemma AdvanceSound<S(!new), D(!new), E, R>(p: Protocol<S, D, E, R>, t: Standard<S, D>, n: nat, o: seq<D>, s: S,
      s': S, forwarded: bool, m: Message<D>)
    requires t.sound(n, o, s) && t.sound(n, o, s') && t.sound(n + 1, [], p.reset(s')) && m.channel == Data
    ensures VerdictSound(t, Decoding(n), o, m, Advance(p, n, s, s', forwarded))
  {
    var v := Advance(p, n, s, s', forwarded);
    forall i | 0 <= i < |v.calls| ensures v.calls[i].block == n && t.sound(n, o, v.calls[i].state) {
      assert v.calls[i] == Feed(n, s) || v.calls[i] == Recode(n, s') || v.calls[i] == Decode(n, s');
    }
  }

  lemma DecideSound<S(!new), D(!new), E, R>(p: Protocol<S, D, E, R>, t: Standard<S, D>, s: S, phase: Phase,
      forwarded: bool, o: seq<D>, m: Message<D>)
    requires Upholds(p, t) && !phase.Halted? && t.sound(phase.n, o, s) && t.honest(m) && (phase.Init? ==> o == [])
    ensures VerdictSound(t, phase, o, m, Decide(p, s, phase, forwarded, m))
  {
    if m.block == phase.n && phase.Decoding? && m.channel == Data {
      var (receipt, s') := p.ingest(s, Data, m.block, m.payload);
      assert t.sound(m.block, o, s');
      if receipt == Useful {
        assert t.sound(phase.n + 1, [], p.reset(s'));
        AdvanceSound(p, t, phase.n, o, s, s', forwarded, m);
      }
    } else if m.block == phase.n && phase.Init? && m.channel == Announce {
      assert t.sound(m.block, [], s) && o + [m.payload] == [m.payload];
    }
  }

  /** Filing a message touches the opening of its own block only. */
  lemma OpenedAfter<S(!new), D(!new)>(a: Node<S, D>, m: Message<D>, v: Verdict<S>, b: Node<S, D>, k: nat)
    requires Carried(a, m, v, b) && (m.block == a.phase.n || v.fate == Some(Stale))
    ensures Opened(b.log, k) == if k == a.phase.n then Opening(Opened(a.log, k), m, v.fate) else Opened(a.log, k)
  {
    if v.fate.Some? { Logged(a.log, Entry(m, v.fate.value), k); }
  }

  /** Calls made so far stay sound: what opened their blocks does not change. */
  lemma CallsStaySound<S(!new), D(!new)>(t: Standard<S, D>, a: Node<S, D>, m: Message<D>, v: Verdict<S>,
      b: Node<S, D>)
    requires Carried(a, m, v, b) && (m.block == a.phase.n || v.fate == Some(Stale)) && CallsSound(t, a.log, a.calls)
    requires Opening([], m, v.fate) != [] ==> forall i :: 0 <= i < |a.calls| ==> a.calls[i].block != a.phase.n
    ensures CallsSound(t, b.log, a.calls)
  {
    forall i | 0 <= i < |a.calls|
      ensures t.sound(a.calls[i].block, Opened(b.log, a.calls[i].block), a.calls[i].state)
    {
      OpenedAfter(a, m, v, b, a.calls[i].block);
    }
  }

  lemma NewCallsSound<S(!new), D(!new)>(t: Standard<S, D>, a: Node<S, D>, m: Message<D>, v: Verdict<S>, b: Node<S, D>)
    requires Carried(a, m, v, b) && (m.block == a.phase.n || v.fate == Some(Stale))
    requires VerdictSound(t, a.phase, Opened(a.log, a.phase.n), m, v)
    ensures CallsSound(t, b.log, v.calls)
  {
    OpenedAfter(a, m, v, b, a.phase.n);
    var o := Opened(a.log, a.phase.n);
    if v.calls != [] {
      assert m.channel == Data && Opened(b.log, a.phase.n) == o;
      AllForBlock(t, b.log, v.calls, a.phase.n, o);
    }
  }

  lemma AllForBlock<S(!new), D(!new)>(t: Standard<S, D>, log: seq<Entry<D>>, calls: seq<Call<S>>, n: nat, o: seq<D>)
    requires Opened(log, n) == o
    requires forall i :: 0 <= i < |calls| ==> calls[i].block == n && t.sound(n, o, calls[i].state)
    ensures CallsSound(t, log, calls)
  {
  }

  lemma CallsJoined<S(!new), D(!new)>(t: Standard<S, D>, log: seq<Entry<D>>, calls: seq<Call<S>>, more: seq<Call<S>>)
    requires CallsSound(t, log, calls) && CallsSound(t, log, more)
    ensures CallsSound(t, log, calls + more)
  {
  }

  lemma NodeStaysSound<S(!new), D(!new), E, R>(p: Protocol<S, D, E, R>, g: Gauge<S>, t: Standard<S, D>, a: Node<S, D>,
      m: Message<D>, v: Verdict<S>, b: Node<S, D>)
    requires SoundNode(t, a) && Ranked(g, a) && CallsFit(p, g, a) && Carried(a, m, v, b)
      && (m.block == a.phase.n || v.fate == Some(Stale))
    requires !a.phase.Halted? && VerdictSound(t, a.phase, Opened(a.log, a.phase.n), m, v)
    requires Opening([], m, v.fate) != [] ==> a.phase.Init?
    ensures t.sound(b.phase.n, Opened(b.log, b.phase.n), b.protocol) && CallsSound(t, b.log, b.calls)
  {
    CallsStaySound(t, a, m, v, b);
    NewCallsSound(t, a, m, v, b);
    CallsJoined(t, b.log, a.calls, v.calls);
    OpenedAfter(a, m, v, b, b.phase.n);
    assert |Opened(a.log, a.phase.n + 1)| == 0;
  }

  lemma HandleSound<S(!new), D(!new), E, R>(p: Protocol<S, D, E, R>, g: Gauge<S>, t: Standard<S, D>, a: Node<S, D>,
      m: Message<D>)
    requires Upholds(p, t) && SoundNode(t, a) && t.honest(m) && !a.phase.Halted? && Ranked(g, a) && CallsFit(p, g, a)
    ensures SoundNode(t, Handle(p, a, m).0) && AllHonest(t, Handle(p, a, m).1)
  {
    var v, b := Decide(p, a.protocol, a.phase, a.forwarded, m), Handle(p, a, m).0;
    assert |Opened(a.log, a.phase.n)| == if a.phase.Init? then 0 else 1;
    DecideSound(p, t, a.protocol, a.phase, a.forwarded, Opened(a.log, a.phase.n), m);
    HandleCarries(p, a, m);
    NodeStaysSound(p, g, t, a, m, v, b);
    HandleBuffer(p, a, m);
    BufferStaysHonest(t, a.buffer, a.phase.n, m, b.buffer, Handle(p, a, m).1);
  }

  // ---------- whole runs ----------

  lemma {:induction false} DrainSound<S(!new), D(!new), E, R>(p: Protocol<S, D, E, R>, g: Gauge<S>, t: Standard<S, D>,
      a: Node<S, D>, work: seq<Message<D>>)
    requires Conforms(p, g) && Inv(p, g, a) && NotAhead(a.phase.n, work)
    requires Upholds(p, t) && SoundNode(t, a) && AllHonest(t, work)
    ensures SoundNode(t, Drain(p, a, work))
    decreases |Held(a.buffer)| + |work|, |work|
  {
    if !a.phase.Halted? && work != [] {
      var (b, extra) := Handle(p, a, work[0]);
      HandleShrinks(p, a, work[0]);
      HandleTidy(p, a, work[0]);
      HandleKeeps(p, g, a, work[0]);
      HandleSound(p, g, t, a, work[0]);
      DrainSound(p, g, t, b, work[1..] + extra);
    }
  }

  lemma StaleSound<S(!new), D(!new)>(t: Standard<S, D>, a: Node<S, D>, m: Message<D>, b: Node<S, D>)
    requires SoundNode(t, a) && b == a.(log := a.log + [Entry(m, Stale)])
    ensures SoundNode(t, b)
  {
    forall k: nat ensures Opened(b.log, k) == Opened(a.log, k) {
      Logged(a.log, Entry(m, Stale), k);
    }
  }

  /** One received message keeps the node sound. */
  lemma RouteSound<S(!new), D(!new), E, R>(p: Protocol<S, D, E, R>, g: Gauge<S>, t: Standard<S, D>, a: Node<S, D>,
      m: Message<D>)
    requires Conforms(p, g) && Inv(p, g, a) && Upholds(p, t) && SoundNode(t, a) && t.honest(m)
    ensures SoundNode(t, Route(p, a, m))
  {
    if a.phase.Halted? {
    } else if m.block < a.phase.n {
      StaleSound(t, a, m, Route(p, a, m));
    } else if m.block > a.phase.n {
      BufferStaysHonest(t, a.buffer, a.phase.n, m, Push(a.buffer, m), []);
    } else {
      DrainSound(p, g, t, a, [m]);
    }
  }

  lemma StartSound<S(!new), D(!new)>(t: Standard<S, D>, start: S)
    requires t.sound(0, [], start)
    ensures SoundNode(t, Start(start))
  {
  }

  // Marks the node at which a proof uses what `Good` says.
  ghost predicate Named<T>(x: T) { true }

  /** The actor's invariant and soundness, kept closed until a proof names the node. */
  ghost predicate Good<S(!new), D(!new), E, R>(p: Protocol<S, D, E, R>, g: Gauge<S>, t: Standard<S, D>,
      a: Node<S, D>)
  {
    forall x: Node<S, D> {:trigger Named(x)} :: Named(x) && x == a ==> Inv(p, g, x) && SoundNode(t, x)
  }

  lemma GoodIs<S(!new), D(!new), E, R>(p: Protocol<S, D, E, R>, g: Gauge<S>, t: Standard<S, D>, a: Node<S, D>)
    ensures Good(p, g, t, a) <==> Inv(p, g, a) && SoundNode(t, a)
  {
    assert Named(a);
  }

  /** One received message keeps a node good. */
  lemma RouteGood<S(!new), D(!new), E, R>(p: Protocol<S, D, E, R>, g: Gauge<S>, t: Standard<S, D>, a: Node<S, D>,
      m: Message<D>, b: Node<S, D>)
    requires Conforms(p, g) && Upholds(p, t) && Good(p, g, t, a) && t.honest(m) && b == Route(p, a, m)
    ensures Good(p, g, t, b)
  {
    GoodIs(p, g, t, a);
    RouteKeeps(p, g, a, m);
    RouteSound(p, g, t, a, m);
    GoodIs(p, g, t, b);
  }

  lemma StartGood<S(!new), D(!new), E, R>(p: Protocol<S, D, E, R>, g: Gauge<S>, t: Standard<S, D>, start: S)
    requires Conforms(p, g) && g.ok(start) && g.rank(start) == 0 && t.sound(0, [], start)
    ensures Good(p, g, t, Start(start))
  {
    RunKeeps(p, g, start, [], 0);
    StartSound(t, start);
    GoodIs(p, g, t, Start(start));
  }

  lemma {:induction false} RunGood<S(!new), D(!new), E, R>(p: Protocol<S, D, E, R>, g: Gauge<S>, t: Standard<S, D>,
      start: S, msgs: seq<Message<D>>, k: nat)
    requires Conforms(p, g) && g.ok(start) && g.rank(start) == 0
    requires Upholds(p, t) && t.sound(0, [], start) && AllHonest(t, msgs) && k <= |msgs|
    ensures Good(p, g, t, Received(p, start, msgs, k))
  {
    if k == 0 {
      StartGood(p, g, t, start);
    } else {
      RunGood(p, g, t, start, msgs, k - 1);
      RouteGood(p, g, t, Received(p, start, msgs, k - 1), msgs[k - 1], Received(p, start, msgs, k));
    }
  }

  /** Over any run on honest messages, whatever their order, repetition and interleaving, every
      data call, re-encoding and decoding is made in a state sound for its block and for the
      one announcement that opened it. */
  lemma RunSound<S(!new), D(!new), E, R>(p: Protocol<S, D, E, R>, g: Gauge<S>, t: Standard<S, D>, start: S,
      msgs: seq<Message<D>>, k: nat)
    requires Conforms(p, g) && g.ok(start) && g.rank(start) == 0
    requires Upholds(p, t) && t.sound(0, [], start) && AllHonest(t, msgs) && k <= |msgs|
    ensures Inv(p, g, Received(p, start, msgs, k)) && SoundNode(t, Received(p, start, msgs, k))
  {
    RunGood(p, g, t, start, msgs, k);
    GoodIs(p, g, t, Received(p, start, msgs, k));
  }

  // ---------- the log only grows ----------

  lemma {:induction false} DrainLogGrows<S(!new), D(!new), E, R>(p: Protocol<S, D, E, R>, a: Node<S, D>,
      work: seq<Message<D>>)
    ensures a.log <= Drain(p, a, work).log
    decreases |Held(a.buffer)| + |work|, |work|
  {
    if !a.phase.Halted? && work != [] {
      var (b, extra) := Handle(p, a, work[0]);
      HandleShrinks(p, a, work[0]);
      HandleCarries(p, a, work[0]);
      DrainLogGrows(p, b, work[1..] + extra);
    }
  }

  lemma RouteLogGrows<S(!new), D(!new), E, R>(p: Protocol<S, D, E, R>, a: Node<S, D>, m: Message<D>)
    ensures a.log <= Route(p, a, m).log
  {
    if !a.phase.Halted? && m.block == a.phase.n { DrainLogGrows(p, a, [m]); }
  }

  lemma {:induction false} RunLogGrows<S(!new), D(!new), E, R>(p: Protocol<S, D, E, R>, start: S,
      msgs: seq<Message<D>>, j: nat, k: nat)
    requires j <= k <= |msgs|
    ensures Received(p, start, msgs, j).log <= Received(p, start, msgs, k).log
  {
    if j < k {
      RunLogGrows(p, start, msgs, j, k - 1);
      RouteLogGrows(p, Received(p, start, msgs, k - 1), msgs[k - 1]);
    }
  }

  lemma {:induction false} OpenedGrows<D>(log: seq<Entry<D>>, more: seq<Entry<D>>, b: nat)
    requires log <= more
    ensures Opened(log, b) <= Opened(more, b)
  {
    if log != more {
      var front := more[..|more| - 1];
      assert log <= front;
      OpenedGrows(log, front, b);
    }
  }
}
