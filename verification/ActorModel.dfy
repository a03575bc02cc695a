/** The node actor as a state machine over messages (crates/node/src/actor.rs,
    crates/node/src/protocol.rs). */
module ActorModel {
  import opened StrategyCore
  import opened Wrappers

  datatype Channel = Announce | Data

  datatype Message<D> = Message(channel: Channel, block: nat, payload: D)

  /** Waiting for the announcement of block `n`, decoding it, or halted by a panic while
      decoding it. */
  datatype Phase = Init(n: nat) | Decoding(n: nat) | Halted(n: nat)

  /** One block's protocol: its state, and what the actor asks of it. A `decode` that fails
      is a panic. */
  datatype Protocol<!S(!new), !D(!new), !E, !R> = Protocol(
    cond: ForwardCondition,
    ingest: (S, Channel, nat, D) -> (Receipt<E>, S),
    isComplete: S -> bool,
    decode: S -> Result<R, string>,
    reset: S -> S)

  /** A call of the actor on its protocol that works on a block's data: which block it is
      for, and in which state the protocol is when called. */
  datatype Call<S> = Feed(block: nat, state: S) | Recode(block: nat, state: S) | Decode(block: nat, state: S)

  /** What became of a message: dropped because its block was over, ignored as a repeated
      announcement, or handed to the protocol, which may have led to the block being decoded. */
  datatype Fate = Stale | Ignored | Ingested(useful: bool, decoded: bool)

  datatype Entry<D> = Entry(message: Message<D>, fate: Fate)

  /** The actor's fields, with a log of consumed messages in order of consumption, the calls
      made on the protocol, and the work queue as a panic left it. */
  datatype Node<S, D> = Node(protocol: S, phase: Phase, buffer: map<nat, seq<(Channel, D)>>,
                             forwarded: bool, decodedCount: nat,
                             log: seq<Entry<D>>, calls: seq<Call<S>>, left: seq<Message<D>>)

  function Start<S, D>(protocol: S): Node<S, D> {
    Node(protocol, Init(0), map[], false, 0, [], [], [])
  }

  // ---------- buffers and queues ----------

  function Tag<D>(block: nat, msgs: seq<(Channel, D)>): (t: seq<Message<D>>)
    ensures |t| == |msgs| && forall i :: 0 <= i < |t| ==> t[i] == Message(msgs[i].0, block, msgs[i].1)
  {
    seq(|msgs|, i requires 0 <= i < |msgs| => Message(msgs[i].0, block, msgs[i].1))
  }

  /** The messages of one channel, in order. */
  function Only<D>(channel: Channel, work: seq<Message<D>>): seq<Message<D>> {
    if work == [] then []
    else Only(channel, work[..|work| - 1]) + (if work[|work| - 1].channel == channel then [work[|work| - 1]] else [])
  }

  function Slot<D>(buffer: map<nat, seq<(Channel, D)>>, block: nat): seq<(Channel, D)> {
    if block in buffer then buffer[block] else []
  }

  function Push<D>(buffer: map<nat, seq<(Channel, D)>>, m: Message<D>): map<nat, seq<(Channel, D)>> {
    buffer[m.block := Slot(buffer, m.block) + [(m.channel, m.payload)]]
  }

  // ---------- one iteration of the work loop ----------

  predicate ShouldRecode(cond: ForwardCondition, complete: bool, forwarded: bool) {
    match cond
    case AfterDecode => complete && !forwarded
    case UntilDecode => !complete
    case OneShot => !forwarded
  }

  /** What a popped message does to the protocol and the phase. Without a fate the message
      waits in the buffer for its announcement. */
  datatype Verdict<S> = Verdict(protocol: S, phase: Phase, forwarded: bool, fate: Option<Fate>, calls: seq<Call<S>>)

  function Decide<S(!new), D(!new), E(==), R>(p: Protocol<S, D, E, R>, s: S, phase: Phase, forwarded: bool,
      m: Message<D>): Verdict<S>
    requires !phase.Halted?
  {
    var n := phase.n;
    if m.block != n then Verdict(s, phase, forwarded, Some(Stale), []) else
      match phase
      case Init(_) =>
        if m.channel.Data? then Verdict(s, phase, forwarded, None, []) else
          var (receipt, s') := p.ingest(s, Announce, n, m.payload);
          var useful := receipt == Useful;
          Verdict(s', if useful then Decoding(n) else phase, forwarded, Some(Ingested(useful, false)), [])
      case Decoding(_) =>
        if m.channel.Announce? then Verdict(s, phase, forwarded, Some(Ignored), []) else
          var (receipt, s') := p.ingest(s, Data, n, m.payload);
          if receipt != Useful then Verdict(s', phase, forwarded, Some(Ingested(false, false)), [Feed(n, s)])
          else Advance(p, n, s, s', forwarded)
  }

  /** After useful data has taken the protocol from `s` to `s'`: forward if the condition says
      so, then decode if complete. */
  function Advance<S(!new), D(!new), E, R>(p: Protocol<S, D, E, R>, n: nat, s: S, s': S, forwarded: bool): Verdict<S>
  {
    var complete := p.isComplete(s');
    var recode := ShouldRecode(p.cond, complete, forwarded);
    var calls := [Feed(n, s)] + (if recode then [Recode(n, s')] else []) + (if complete then [Decode(n, s')] else []);
    if !complete then Verdict(s', Decoding(n), forwarded || recode, Some(Ingested(true, false)), calls)
    else if p.decode(s').Failure? then Verdict(s', Halted(n), forwarded || recode, Some(Ingested(true, false)), calls)
    else Verdict(p.reset(s'), Init(n + 1), false, Some(Ingested(true, true)), calls)
  }

  /** Handles one popped message; the second component is appended to the work queue. */
  function Handle<S(!new), D(!new), E(==), R>(p: Protocol<S, D, E, R>, a: Node<S, D>, m: Message<D>): (Node<S, D>,
      seq<Message<D>>)
    requires !a.phase.Halted?
  {
    var v := Decide(p, a.protocol, a.phase, a.forwarded, m);
    if v.fate.None? then (a.(buffer := Push(a.buffer, m)), []) else Settle(a, m, v)
  }

  /** Puts a verdict into effect. The block's buffered data is queued once it is announced,
      the next block's buffered messages, announcements first, once it is decoded. */
  function Settle<S, D>(a: Node<S, D>, m: Message<D>, v: Verdict<S>): (Node<S, D>, seq<Message<D>>)
    requires v.fate.Some?
  {
    var n := a.phase.n;
    var b := a.(protocol := v.protocol, phase := v.phase, forwarded := v.forwarded,
                log := a.log + [Entry(m, v.fate.value)], calls := a.calls + v.calls);
    if v.phase == a.phase || v.phase.Halted? then (b, [])
    else if v.phase == Decoding(n) then (b.(buffer := a.buffer - {n}), Only(Data, Tag(n, Slot(a.buffer, n))))
    else
      var next := Tag(n + 1, Slot(a.buffer, n + 1));
      (b.(buffer := a.buffer - {n + 1}, decodedCount := a.decodedCount + 1), Only(Announce, next) + Only(Data, next))
  }

  // ---------- what is held ----------

  /** Buffered messages for blocks below `top`. */
  ghost function HeldBelow<D>(buffer: map<nat, seq<(Channel, D)>>, top: nat): multiset<Message<D>> {
    if top == 0 then multiset{} else HeldBelow(buffer, top - 1) + multiset(Tag(top - 1, Slot(buffer, top - 1)))
  }

  predicate Bounds<D>(buffer: map<nat, seq<(Channel, D)>>, top: nat) {
    forall k :: k in buffer ==> k < top
  }

  lemma {:induction false} BoundExists<D>(buffer: map<nat, seq<(Channel, D)>>)
    ensures exists top: nat :: Bounds(buffer, top)
    decreases |buffer|
  {
    if k :| k in buffer {
      BoundExists(buffer - {k});
      var t: nat :| Bounds(buffer - {k}, t);
      var top := if t <= k then k + 1 else t;
      forall j | j in buffer ensures j < top { assert j == k || j in buffer - {k}; }
      assert Bounds(buffer, top);
    } else {
      assert Bounds(buffer, 0);
    }
  }

  ghost function Top<D>(buffer: map<nat, seq<(Channel, D)>>): (top: nat)
    ensures Bounds(buffer, top)
  {
    BoundExists(buffer);
    var top: nat :| Bounds(buffer, top); top
  }

  /** All buffered messages, with the blocks they are for. */
  ghost function Held<D>(buffer: map<nat, seq<(Channel, D)>>): multiset<Message<D>> {
    HeldBelow(buffer, Top(buffer))
  }

  lemma {:induction false} HeldAny<D>(buffer: map<nat, seq<(Channel, D)>>, lo: nat, hi: nat)
    requires Bounds(buffer, lo) && lo <= hi
    ensures HeldBelow(buffer, lo) == HeldBelow(buffer, hi)
  {
    if lo < hi { HeldAny(buffer, lo, hi - 1); }
  }

  /** Changing one slot changes what is held by that slot's messages. */
  lemma {:induction false} HeldBelowSlot<D>(b: map<nat, seq<(Channel, D)>>, c: map<nat, seq<(Channel, D)>>, k: nat,
      top: nat)
    requires forall j: nat :: j != k ==> Slot(b, j) == Slot(c, j)
    ensures k < top ==>
      HeldBelow(b, top) + multiset(Tag(k, Slot(c, k))) == HeldBelow(c, top) + multiset(Tag(k, Slot(b, k)))
    ensures top <= k ==> HeldBelow(b, top) == HeldBelow(c, top)
  {
    if top > 0 {
      HeldBelowSlot(b, c, k, top - 1);
      var x, y, rest := multiset(Tag(k, Slot(c, k))), multiset(Tag(k, Slot(b, k))),
        multiset(Tag(top - 1, Slot(b, top - 1)));
      if k == top - 1 {
        Swap(HeldBelow(b, top - 1), y, x);
      } else {
        Exchange(HeldBelow(b, top - 1), HeldBelow(c, top - 1), rest, x, y);
      }
    }
  }

  lemma Exchange<T>(a: multiset<T>, b: multiset<T>, t: multiset<T>, x: multiset<T>, y: multiset<T>)
    ensures a + x == b + y ==> (a + t) + x == (b + t) + y
  {
    if a + x == b + y {
      forall e ensures ((a + t) + x)[e] == ((b + t) + y)[e] {
        assert (a + x)[e] == (b + y)[e];
      }
    }
  }

  lemma Swap<T>(a: multiset<T>, x: multiset<T>, y: multiset<T>)
    ensures (a + x) + y == (a + y) + x
  {
  }

  lemma Cancel<T>(a: multiset<T>, b: multiset<T>, x: multiset<T>, y: multiset<T>)
    requires a + (x + y) == b + x
    ensures b == a + y
  {
    forall e ensures b[e] == (a + y)[e] {
      assert (a + (x + y))[e] == (b + x)[e];
    }
  }

  lemma HeldSlot<D>(b: map<nat, seq<(Channel, D)>>, c: map<nat, seq<(Channel, D)>>, k: nat)
    requires forall j: nat :: j != k ==> Slot(b, j) == Slot(c, j)
    ensures Held(b) + multiset(Tag(k, Slot(c, k))) == Held(c) + multiset(Tag(k, Slot(b, k)))
  {
    var top := Top(b) + Top(c) + k + 1;
    HeldAny(b, Top(b), top);
    HeldAny(c, Top(c), top);
    HeldBelowSlot(b, c, k, top);
  }

  lemma HeldTake<D>(buffer: map<nat, seq<(Channel, D)>>, k: nat)
    ensures Held(buffer) == Held(buffer - {k}) + multiset(Tag(k, Slot(buffer, k)))
  {
    HeldSlot(buffer, buffer - {k}, k);
  }

  lemma HeldPush<D>(buffer: map<nat, seq<(Channel, D)>>, m: Message<D>)
    ensures Held(Push(buffer, m)) == Held(buffer) + multiset{m}
  {
    var kept := Tag(m.block, Slot(buffer, m.block));
    HeldSlot(buffer, Push(buffer, m), m.block);
    assert Tag(m.block, Slot(Push(buffer, m), m.block)) == kept + [m];
    Cancel(Held(buffer), Held(Push(buffer, m)), multiset(kept), multiset{m});
  }

  lemma OnlyLast<D>(channel: Channel, work: seq<Message<D>>)
    requires work != []
    ensures var last, rest := work[|work| - 1], Only(channel, work[..|work| - 1]);
      && multiset(Only(channel, work)) == (if last.channel == channel then multiset(rest) + multiset{last}
        else multiset(rest))
      && |Only(channel, work)| == |rest| + if last.channel == channel then 1 else 0
  {
  }

  lemma BagLast<T>(work: seq<T>)
    requires work != []
    ensures multiset(work) == multiset(work[..|work| - 1]) + multiset{work[|work| - 1]}
  {
    assert work == work[..|work| - 1] + [work[|work| - 1]];
  }

  lemma Slotted<T>(a: multiset<T>, d: multiset<T>, work: multiset<T>, last: multiset<T>)
    requires a + d == work
    ensures (a + last) + d == work + last == a + (d + last)
  {
  }

  lemma {:induction false} OnlySplits<D>(work: seq<Message<D>>)
    ensures multiset(Only(Announce, work)) + multiset(Only(Data, work)) == multiset(work)
    ensures |Only(Announce, work)| + |Only(Data, work)| == |work|
  {
    if work != [] {
      var front, last := work[..|work| - 1], work[|work| - 1];
      OnlySplits(front);
      BagLast(work);
      OnlyLast(Announce, work);
      OnlyLast(Data, work);
      Slotted(multiset(Only(Announce, front)), multiset(Only(Data, front)), multiset(front), multiset{last});
    }
  }

  lemma {:induction false} OnlyAll<D>(channel: Channel, work: seq<Message<D>>)
    requires forall i :: 0 <= i < |work| ==> work[i].channel == channel
    ensures Only(channel, work) == work
  {
    if work != [] {
      OnlyAll(channel, work[..|work| - 1]);
      assert work == work[..|work| - 1] + [work[|work| - 1]];
    }
  }

  lemma {:induction false} OnlySmaller<D>(channel: Channel, work: seq<Message<D>>)
    ensures |Only(channel, work)| <= |work|
    ensures forall m :: m in Only(channel, work) ==> m in work
  {
    if work != [] { OnlySmaller(channel, work[..|work| - 1]); }
  }

  // ---------- the work loop ----------

  /** Taking one block's messages out of the buffer and queueing some of them. */
  lemma TakenCount<D>(buffer: map<nat, seq<(Channel, D)>>, k: nat)
    ensures var t := Tag(k, Slot(buffer, k));
      && |Held(buffer)| == |Held(buffer - {k})| + |t|
      && |Only(Announce, t) + Only(Data, t)| == |t| && |Only(Data, t)| <= |t|
  {
    HeldTake(buffer, k);
    OnlySplits(Tag(k, Slot(buffer, k)));
  }

  /** The four things that can happen to the buffer: nothing, a push, the current block's
      data taken out, or the next block's messages taken out, announcements first. */
  ghost predicate BufferStep<D>(before: map<nat, seq<(Channel, D)>>, n: nat, m: Message<D>,
      after: map<nat, seq<(Channel, D)>>, extra: seq<Message<D>>)
  {
    || (after == before && extra == [])
    || (after == Push(before, m) && extra == [])
    || (after == before - {n} && extra == Only(Data, Tag(n, Slot(before, n))))
    || (var t := Tag(n + 1, Slot(before, n + 1));
        after == before - {n + 1} && extra == Only(Announce, t) + Only(Data, t))
  }

  lemma HandleBuffer<S(!new), D(!new), E, R>(p: Protocol<S, D, E, R>, a: Node<S, D>, m: Message<D>)
    requires !a.phase.Halted?
    ensures var (b, extra) := Handle(p, a, m); BufferStep(a.buffer, a.phase.n, m, b.buffer, extra)
  {
  }

  lemma BufferShrinks<D>(before: map<nat, seq<(Channel, D)>>, n: nat, m: Message<D>,
      after: map<nat, seq<(Channel, D)>>, extra: seq<Message<D>>)
    requires BufferStep(before, n, m, after, extra)
    ensures |Held(after)| + |extra| <= 1 + |Held(before)|
      && (|Held(after)| + |extra| == 1 + |Held(before)| ==> extra == [])
  {
    if after == Push(before, m) {
      HeldPush(before, m);
    }
    TakenCount(before, n);
    TakenCount(before, n + 1);
  }

  /** Each iteration consumes a message or moves it to the buffer, even when the buffer
      flows back into the queue. */
  lemma HandleShrinks<S(!new), D(!new), E, R>(p: Protocol<S, D, E, R>, a: Node<S, D>, m: Message<D>)
    requires !a.phase.Halted?
    ensures var (b, extra) := Handle(p, a, m);
      |Held(b.buffer)| + |extra| <= 1 + |Held(a.buffer)|
        && (|Held(b.buffer)| + |extra| == 1 + |Held(a.buffer)| ==> extra == [])
  {
    HandleBuffer(p, a, m);
    BufferShrinks(a.buffer, a.phase.n, m, Handle(p, a, m).0.buffer, Handle(p, a, m).1);
  }

  /** Processes the queue, and whatever the buffer adds to it, to exhaustion or a panic. */
  function Drain<S(!new), D(!new), E(==), R>(p: Protocol<S, D, E, R>, a: Node<S, D>,
      work: seq<Message<D>>): Node<S, D>
    decreases |Held(a.buffer)| + |work|, |work|
  {
    if a.phase.Halted? then a.(left := work)
    else if work == [] then a else
      var (b, extra) := Handle(p, a, work[0]);
      HandleShrinks(p, a, work[0]);
      Drain(p, b, work[1..] + extra)
  }

  /** A message that queues nothing more is all there is to drain. */
  lemma DrainOne<S(!new), D(!new), E, R>(p: Protocol<S, D, E, R>, a: Node<S, D>, m: Message<D>)
    requires !a.phase.Halted? && a.left == []
    ensures var (b, extra) := Handle(p, a, m); extra == [] && !b.phase.Halted? ==> Drain(p, a, [m]) == b
  {
    var (b, extra) := Handle(p, a, m);
    assert [m][1..] + extra == extra;
  }

  /** Routes one received message; a halted actor receives nothing. */
  function Route<S(!new), D(!new), E(==), R>(p: Protocol<S, D, E, R>, a: Node<S, D>, m: Message<D>): Node<S, D> {
    if a.phase.Halted? then a
    else if m.block < a.phase.n then a.(log := a.log + [Entry(m, Stale)])
    else if m.block > a.phase.n then a.(buffer := Push(a.buffer, m))
    else Drain(p, a, [m])
  }

  /** The actor after it was offered the first `k` messages. */
  function Received<S(!new), D(!new), E(==), R>(p: Protocol<S, D, E, R>, start: S, msgs: seq<Message<D>>,
      k: nat): Node<S, D>
    requires k <= |msgs|
  {
    if k == 0 then Start(start) else Route(p, Received(p, start, msgs, k - 1), msgs[k - 1])
  }

  lemma {:induction false} ReceivedPrefix<S(!new), D(!new), E, R>(p: Protocol<S, D, E, R>, start: S,
      msgs: seq<Message<D>>, m: Message<D>, k: nat)
    requires k <= |msgs|
    ensures Received(p, start, msgs + [m], k) == Received(p, start, msgs, k)
  {
    if k > 0 { ReceivedPrefix(p, start, msgs, m, k - 1); }
  }

  /** One more message is routed after the others. */
  lemma ReceivedMore<S(!new), D(!new), E, R>(p: Protocol<S, D, E, R>, start: S, msgs: seq<Message<D>>, m: Message<D>)
    ensures Received(p, start, msgs + [m], |msgs| + 1) == Route(p, Received(p, start, msgs, |msgs|), m)
  {
    ReceivedPrefix(p, start, msgs, m, |msgs|);
  }

  /** How many of the first `k` messages it received before it halted, if it did. */
  function Heard<S(!new), D(!new), E(==), R>(p: Protocol<S, D, E, R>, start: S, msgs: seq<Message<D>>,
      k: nat): (h: nat)
    requires k <= |msgs|
    ensures h <= k && (!Received(p, start, msgs, k).phase.Halted? ==> h == k)
  {
    if k == 0 then 0
    else if Received(p, start, msgs, k - 1).phase.Halted? then Heard(p, start, msgs, k - 1)
    else k
  }
}
