/** The node actor object (crates/node/src/actor.rs). */
module Actor {
  import opened StrategyCore
  import opened ActorModel

  /** Queues a block's buffered data, leaving announcements out. */
  method QueueData<D>(work: seq<Message<D>>, block: nat, msgs: seq<(Channel, D)>) returns (queue: seq<Message<D>>)
    ensures queue == work + Only(Data, Tag(block, msgs))
  {
    queue := work;
    assert Tag(block, msgs)[..0] == [];
    for i := 0 to |msgs|
      invariant queue == work + Only(Data, Tag(block, msgs)[..i])
    {
      assert Tag(block, msgs)[..i + 1][..i] == Tag(block, msgs)[..i];
      if msgs[i].0 == Data {
        queue := queue + [Message(Data, block, msgs[i].1)];
      }
    }
    assert Tag(block, msgs)[..|msgs|] == Tag(block, msgs);
  }

  /** Queues the next block's buffered messages, announcements first. */
  method QueueNext<D>(work: seq<Message<D>>, block: nat, msgs: seq<(Channel, D)>) returns (queue: seq<Message<D>>)
    ensures queue == work + (Only(Announce, Tag(block, msgs)) + Only(Data, Tag(block, msgs)))
  {
    queue := work;
    var data := [];
    assert Tag(block, msgs)[..0] == [];
    for i := 0 to |msgs|
      invariant queue == work + Only(Announce, Tag(block, msgs)[..i])
      invariant data == Only(Data, Tag(block, msgs)[..i])
    {
      assert Tag(block, msgs)[..i + 1][..i] == Tag(block, msgs)[..i];
      match msgs[i].0 {
        case Announce => queue := queue + [Message(Announce, block, msgs[i].1)];
        case Data => data := data + [Message(Data, block, msgs[i].1)];
      }
    }
    assert Tag(block, msgs)[..|msgs|] == Tag(block, msgs);
    queue := queue + data;
  }

  lemma ReceivedNext<S(!new), D(!new), E, R>(p: Protocol<S, D, E, R>, start: S, msgs: seq<Message<D>>, k: nat)
    requires k < |msgs|
    ensures Received(p, start, msgs, k + 1) == Route(p, Received(p, start, msgs, k), msgs[k])
  {
  }

  class NodeActor<S(!new), D(!new), E(==), R> {
    const behaviour: Protocol<S, D, E, R>
    var protocol: S
    var phase: Phase
    var buffer: map<nat, seq<(Channel, D)>>
    var forwarded: bool
    ghost var log: seq<Entry<D>>
    ghost var calls: seq<Call<S>>
    ghost var left: seq<Message<D>>

    ghost function View(decodedCount: nat): Node<S, D>
      reads this
    {
      Node(protocol, phase, buffer, forwarded, decodedCount, log, calls, left)
    }

    constructor (behaviour: Protocol<S, D, E, R>, protocol: S)
      ensures this.behaviour == behaviour && View(0) == ActorModel.Start(protocol)
    {
      this.behaviour, this.protocol := behaviour, protocol;
      phase, buffer, forwarded := Init(0), map[], false;
      log, calls, left := [], [], [];
    }

    /** Takes in a data packet of the block being decoded. */
    method TakeData(m: Message<D>, work: seq<Message<D>>, decodedCount: nat)
        returns (queue: seq<Message<D>>, count: nat)
      requires phase == Decoding(m.block) && m.channel == Data
      modifies this
      ensures var (b, extra) := Handle(behaviour, old(View(decodedCount)), m);
        View(count) == b && queue == work + extra
    {
      ghost var before := protocol;
      var (receipt, s) := behaviour.ingest(protocol, Data, m.block, m.payload);
      protocol := s;
      if receipt != Useful {
        queue, count := work, decodedCount;
        log, calls := log + [Entry(m, Ingested(false, false))], calls + [Feed(m.block, before)];
        return;
      }
      queue, count := Proceed(m, before, work, decodedCount);
    }

    /** After useful data: forwards if the condition says so, then decodes if the block is
        complete. A decode that fails halts the actor. */
    method Proceed(m: Message<D>, ghost before: S, work: seq<Message<D>>, decodedCount: nat)
        returns (queue: seq<Message<D>>, count: nat)
      requires phase == Decoding(m.block)
      modifies this
      ensures var a := old(View(decodedCount));
        var (b, extra) := Settle(a, m, Advance(behaviour, m.block, before, a.protocol, a.forwarded));
        View(count) == b && queue == work + extra
    {
      queue, count := work, decodedCount;
      var n := m.block;
      var complete := behaviour.isComplete(protocol);
      var recode := ShouldRecode(behaviour.cond, complete, forwarded);
      calls := calls + ([Feed(n, before)] + (if recode then [Recode(n, protocol)]
        else []) + (if complete then [Decode(n, protocol)] else []));
      if recode {
        forwarded := true;
      }
      if !complete {
        log := log + [Entry(m, Ingested(true, false))];
        return;
      }
      var block := behaviour.decode(protocol);
      if block.Failure? {
        log := log + [Entry(m, Ingested(true, false))];
        phase := Halted(n);
        return;
      }
      log := log + [Entry(m, Ingested(true, true))];
      count := count + 1;
      queue := NextBlock(n + 1, work);
    }

    /** Moves on to block `next` and queues what was buffered for it. */
    method NextBlock(next: nat, work: seq<Message<D>>) returns (queue: seq<Message<D>>)
      modifies this`protocol, this`forwarded, this`phase, this`buffer
      ensures protocol == behaviour.reset(old(protocol)) && !forwarded && phase == Init(next)
      ensures var held := Tag(next, Slot(old(buffer), next));
        buffer == old(buffer) - {next} && queue == work + (Only(Announce, held) + Only(Data, held))
    {
      protocol := behaviour.reset(protocol);
      forwarded := false;
      phase := Init(next);
      queue := QueueNext(work, next, Slot(buffer, next));
      buffer := buffer - {next};
    }

    /** Takes in an announcement of the awaited block. */
    method TakeAnnouncement(m: Message<D>, work: seq<Message<D>>, decodedCount: nat) returns (queue: seq<Message<D>>)
      requires phase == Init(m.block) && m.channel == Announce
      modifies this
      ensures var (b, extra) := Handle(behaviour, old(View(decodedCount)), m);
        View(decodedCount) == b && queue == work + extra
    {
      queue := work;
      var n := m.block;
      var (receipt, s) := behaviour.ingest(protocol, Announce, n, m.payload);
      protocol := s;
      log := log + [Entry(m, Ingested(receipt == Useful, false))];
      if receipt == Useful {
        phase := Decoding(n);
        queue := QueueData(work, n, Slot(buffer, n));
        buffer := buffer - {n};
      }
    }

    /** One turn of the work loop on a popped message. */
    method Turn(m: Message<D>, work: seq<Message<D>>, decodedCount: nat) returns (queue: seq<Message<D>>, count: nat)
      requires !phase.Halted?
      modifies this
      ensures var (b, extra) := Handle(behaviour, old(View(decodedCount)), m);
        View(count) == b && queue == work + extra
    {
      queue, count := work, decodedCount;
      if m.block != phase.n {
        log := log + [Entry(m, Stale)];
        return;
      }
      match (phase, m.channel) {
        case (Init(_), Announce) => queue := TakeAnnouncement(m, work, decodedCount);
        case (Init(_), Data) => buffer := Push(buffer, m);
        case (Decoding(_), Announce) => log := log + [Entry(m, Ignored)];
        case (Decoding(_), Data) => queue, count := TakeData(m, work, decodedCount);
      }
    }

    /** Routes a received message, then drains whatever became processable, across as many
        blocks as that completes. Terminates although it refills its own queue. */
    method Route(m: Message<D>, decodedCount: nat) returns (count: nat)
      requires !phase.Halted?
      modifies this
      ensures View(count) == ActorModel.Route(behaviour, old(View(decodedCount)), m)
    {
      count := decodedCount;
      if m.block < phase.n {
        log := log + [Entry(m, Stale)];
        return;
      }
      if m.block > phase.n {
        buffer := Push(buffer, m);
        return;
      }
      var work := [m];
      ghost var target := Drain(behaviour, View(count), work);
      while work != [] && !phase.Halted?
        invariant Drain(behaviour, View(count), work) == target
        decreases |Held(buffer)| + |work|, |work|
      {
        HandleShrinks(behaviour, View(count), work[0]);
        work, count := Turn(work[0], work[1..], count);
      }
      if phase.Halted? {
        left := work;
      }
    }

    /** Receives messages until, and no longer than until, enough blocks are decoded, the
        channel closes or the actor halts. It ends in the state reached by routing the first
        `received` messages, so what `ActorProofs` shows of every run holds of it. */
    method RunReceiver(msgs: seq<Message<D>>, numBlocks: nat) returns (received: nat, count: nat)
      requires View(0) == ActorModel.Start(protocol)
      modifies this
      ensures received <= |msgs| && (count >= numBlocks || received == |msgs| || phase.Halted?)
      ensures View(count) == Received(behaviour, old(protocol), msgs, received)
      ensures forall k: nat :: k < received ==>
        var a := Received(behaviour, old(protocol), msgs, k); a.decodedCount < numBlocks && !a.phase.Halted?
    {
      ghost var start := protocol;
      received, count := 0, 0;
      while received < |msgs| && count < numBlocks && !phase.Halted?
        invariant received <= |msgs| && View(count) == Received(behaviour, start, msgs, received)
        invariant forall k: nat :: k < received ==>
          var a := Received(behaviour, start, msgs, k); a.decodedCount < numBlocks && !a.phase.Halted?
      {
        ReceivedNext(behaviour, start, msgs, received);
        count := Route(msgs[received], count);
        received := received + 1;
      }
    }
  }
}
