/** In which order a node actor takes messages in: each block's announcements and each
    block's data in the order received (crates/node/src/actor.rs). */
module ActorOrder {
  import opened ActorModel
  import opened ActorProofs
  import opened ActorProgress

  // ---------- one channel of one block ----------

  /** Payloads of block `b` on one channel among the consumed messages, in order. */
  function Seen<D>(log: seq<Entry<D>>, channel: Channel, b: nat): seq<D> {
    if log == [] then [] else
      var m := log[|log| - 1].message;
      Seen(log[..|log| - 1], channel, b) + if m.block == b && m.channel == channel then [m.payload] else []
  }

  lemma SeenMore<D>(log: seq<Entry<D>>, e: Entry<D>, channel: Channel, b: nat)
    ensures Seen(log + [e], channel, b) == Seen(log, channel, b) + PayloadsOf([e.message], channel, b)
  {
    assert (log + [e])[..|log|] == log;
    assert [e.message][..0] == [];
  }

  lemma {:induction false} PayloadsMore<D>(work: seq<Message<D>>, more: seq<Message<D>>, channel: Channel, b: nat)
    ensures PayloadsOf(work + more, channel, b) == PayloadsOf(work, channel, b) + PayloadsOf(more, channel, b)
  {
    if more == [] {
      assert work + more == work;
    } else {
      PayloadsMore(work, more[..|more| - 1], channel, b);
      assert (work + more)[..|work + more| - 1] == work + more[..|more| - 1];
    }
  }

  lemma PayloadsHead<D>(work: seq<Message<D>>, channel: Channel, b: nat)
    requires work != []
    ensures PayloadsOf(work, channel, b) == PayloadsOf([work[0]], channel, b) + PayloadsOf(work[1..], channel, b)
  {
    PayloadsMore([work[0]], work[1..], channel, b);
    assert work == [work[0]] + work[1..];
  }

  lemma PayloadsOne<D>(m: Message<D>, channel: Channel, b: nat)
    ensures PayloadsOf([m], channel, b) == if m.block == b && m.channel == channel then [m.payload] else []
  {
    assert [m][..0] == [];
  }

  /** Separating the channels keeps the order within each. */
  lemma {:induction false} PayloadsOnly<D>(only: Channel, work: seq<Message<D>>, channel: Channel, b: nat)
    ensures PayloadsOf(Only(only, work), channel, b) == if only == channel then PayloadsOf(work, channel, b) else []
  {
    if work != [] {
      var front, last := work[..|work| - 1], work[|work| - 1];
      PayloadsOnly(only, front, channel, b);
      if last.channel == only { PayloadsMore(Only(only, front), [last], channel, b); PayloadsOne(last, channel, b); }
      assert last.channel != only ==> Only(only, work) == Only(only, front);
    }
  }

  lemma {:induction false} NonePayloads<D>(work: seq<Message<D>>, channel: Channel, b: nat)
    requires forall m :: m in work ==> !(m.block == b && m.channel == channel)
    ensures PayloadsOf(work, channel, b) == []
  {
    if work != [] {
      assert work[|work| - 1] in work;
      NonePayloads(work[..|work| - 1], channel, b);
    }
  }

  /** What of block `b` waits in the buffer on one channel, in order. */
  function Waiting<D>(buffer: map<nat, seq<(Channel, D)>>, channel: Channel, b: nat): seq<D> {
    PayloadsOf(Tag(b, Slot(buffer, b)), channel, b)
  }

  lemma WaitingPush<D>(buffer: map<nat, seq<(Channel, D)>>, m: Message<D>, channel: Channel, b: nat)
    ensures Waiting(Push(buffer, m), channel, b) == Waiting(buffer, channel, b) + PayloadsOf([m], channel, b)
  {
    if b == m.block {
      assert Tag(b, Slot(Push(buffer, m), b)) == Tag(b, Slot(buffer, b)) + [m];
      PayloadsMore(Tag(b, Slot(buffer, b)), [m], channel, b);
    } else {
      PayloadsOne(m, channel, b);
    }
  }

  lemma WaitingTaken<D>(buffer: map<nat, seq<(Channel, D)>>, k: nat, channel: Channel, b: nat)
    ensures Waiting(buffer - {k}, channel, b) == if b == k then [] else Waiting(buffer, channel, b)
  {
  }

  /** Nothing waits for a block that is over or being decoded, and only data for the awaited one. */
  lemma NothingWaits<S, D>(a: Node<S, D>, channel: Channel, b: nat)
    requires Tidy(a) && (b < a.phase.n || (b == a.phase.n && (a.phase.Init? ==> channel == Announce)))
    ensures Waiting(a.buffer, channel, b) == []
  {
    NonePayloads(Tag(b, Slot(a.buffer, b)), channel, b);
  }

  // ---------- one message ----------

  /** Consumed, then waiting, then queued: read in this order, block `b`'s messages on one
      channel are those received, in the order received. */
  ghost predicate InTurn<S, D>(a: Node<S, D>, work: seq<Message<D>>, heard: seq<D>, channel: Channel, b: nat) {
    Seen(a.log, channel, b) + Waiting(a.buffer, channel, b) + PayloadsOf(work, channel, b) == heard
  }

  /** While a block is awaited, its queued announcements precede its queued data, and data of
      it is not both waiting and queued behind an announcement. */
  ghost predicate Lined<S, D>(a: Node<S, D>, work: seq<Message<D>>) {
    a.phase.Init? ==> forall j :: 0 <= j < |work| && work[j].block == a.phase.n && work[j].channel == Announce ==>
      && (forall i :: 0 <= i < j ==> !(work[i].block == a.phase.n && work[i].channel == Data))
      && (Waiting(a.buffer, Data, a.phase.n) == [] || PayloadsOf(work, Data, a.phase.n) == [])
  }

  lemma PushInTurn<S, D>(a: Node<S, D>, m: Message<D>, b: Node<S, D>, work: seq<Message<D>>, heard: seq<D>,
      channel: Channel, k: nat)
    requires b.log == a.log && b.buffer == Push(a.buffer, m) && work != [] && work[0] == m
    requires InTurn(a, work, heard, channel, k)
    ensures InTurn(b, work[1..], heard, channel, k)
  {
    WaitingPush(a.buffer, m, channel, k);
    PayloadsHead(work, channel, k);
  }

  lemma ConsumeInTurn<S, D>(a: Node<S, D>, m: Message<D>, b: Node<S, D>, work: seq<Message<D>>, fate: Fate,
      heard: seq<D>, channel: Channel, k: nat)
    requires Tidy(a) && m.block <= a.phase.n && (a.phase == Init(m.block) ==> m.channel == Announce)
    requires b.log == a.log + [Entry(m, fate)] && work != [] && work[0] == m
    requires Waiting(b.buffer, channel, k) == Waiting(a.buffer, channel, k) && InTurn(a, work, heard, channel, k)
    ensures InTurn(b, work[1..], heard, channel, k)
  {
    SeenMore(a.log, Entry(m, fate), channel, k);
    PayloadsHead(work, channel, k);
    PayloadsOne(m, channel, k);
    if m.block == k && m.channel == channel { NothingWaits(a, channel, k); }
    Overtake(Seen(a.log, channel, k), Waiting(a.buffer, channel, k), PayloadsOf([m], channel, k),
             PayloadsOf(work[1..], channel, k), heard);
  }

  lemma Overtake<D>(seen: seq<D>, waiting: seq<D>, one: seq<D>, rest: seq<D>, heard: seq<D>)
    requires seen + waiting + (one + rest) == heard && (one == [] || waiting == [])
    ensures (seen + one) + waiting + rest == heard
  {
  }

  /** A block's waiting messages go to the end of the queue, keeping their order. */
  lemma TakeInTurn<S, D>(a: Node<S, D>, b: Node<S, D>, rest: seq<Message<D>>, n: nat, extra: seq<Message<D>>,
      heard: seq<D>, channel: Channel, k: nat)
    requires b.log == a.log && b.buffer == a.buffer - {n} && InTurn(a, rest, heard, channel, k)
    requires Waiting(a.buffer, channel, n) == [] || PayloadsOf(rest, channel, n) == []
    requires PayloadsOf(extra, channel, k) == if k == n then Waiting(a.buffer, channel, n) else []
    ensures InTurn(b, rest + extra, heard, channel, k)
  {
    WaitingTaken(a.buffer, n, channel, k);
    PayloadsMore(rest, extra, channel, k);
  }

  /** The data taken out is what waited, on either channel. */
  lemma DataTakenOut<S, D>(a: Node<S, D>, channel: Channel, k: nat)
    requires Tidy(a) && a.phase.Init?
    ensures var n := a.phase.n;
      PayloadsOf(Only(Data, Tag(n, Slot(a.buffer, n))), channel, k) == if k == n then Waiting(a.buffer, channel, n)
        else []
  {
    var n := a.phase.n;
    PayloadsOnly(Data, Tag(n, Slot(a.buffer, n)), channel, k);
    if k != n { NonePayloads(Tag(n, Slot(a.buffer, n)), channel, k); }
    if channel == Announce { NothingWaits(a, channel, n); }
  }

  /** Behind an announcement of the awaited block no data of it is queued while some waits. */
  lemma NotBoth<S, D>(a: Node<S, D>, work: seq<Message<D>>, channel: Channel)
    requires Tidy(a) && a.phase.Init? && work != [] && Lined(a, work)
    requires work[0].block == a.phase.n && work[0].channel == Announce
    ensures Waiting(a.buffer, channel, a.phase.n) == [] || PayloadsOf(work[1..], channel, a.phase.n) == []
  {
    PayloadsHead(work, channel, a.phase.n);
    PayloadsOne(work[0], channel, a.phase.n);
    if channel == Announce { NothingWaits(a, channel, a.phase.n); }
  }

  lemma TakesDataInTurn<S, D>(a: Node<S, D>, m: Message<D>, b: Node<S, D>, work: seq<Message<D>>,
      extra: seq<Message<D>>, fate: Fate, heard: seq<D>, channel: Channel, k: nat)
    requires Tidy(a) && m.block == a.phase.n && m.channel == Announce && TakesData(a, b, extra)
    requires b.log == a.log + [Entry(m, fate)] && work != [] && work[0] == m && Lined(a, work)
    requires InTurn(a, work, heard, channel, k)
    ensures InTurn(b, work[1..] + extra, heard, channel, k)
  {
    var n, mid := a.phase.n, a.(log := b.log);
    ConsumeInTurn(a, m, mid, work, fate, heard, channel, k);
    DataTakenOut(a, channel, k);
    NotBoth(a, work, channel);
    TakeInTurn(mid, b, work[1..], n, extra, heard, channel, k);
  }

  lemma TakesNextInTurn<S, D>(a: Node<S, D>, m: Message<D>, b: Node<S, D>, work: seq<Message<D>>,
      extra: seq<Message<D>>, fate: Fate, heard: seq<D>, channel: Channel, k: nat)
    requires Tidy(a) && NotAhead(a.phase.n, work) && TakesNext(a, b, extra)
    requires b.log == a.log + [Entry(m, fate)] && work != [] && work[0] == m && InTurn(a, work, heard, channel, k)
    ensures InTurn(b, work[1..] + extra, heard, channel, k)
  {
    var n, mid := a.phase.n + 1, a.(log := b.log);
    var t := Tag(n, Slot(a.buffer, n));
    ConsumeInTurn(a, m, mid, work, fate, heard, channel, k);
    PayloadsMore(Only(Announce, t), Only(Data, t), channel, k);
    PayloadsOnly(Announce, t, channel, k);
    PayloadsOnly(Data, t, channel, k);
    NonePayloads(work[1..], channel, n);
    if k != n { NonePayloads(t, channel, k); }
    TakeInTurn(mid, b, work[1..], n, extra, heard, channel, k);
  }

  lemma MovesInTurn<S, D>(a: Node<S, D>, b: Node<S, D>, work: seq<Message<D>>, extra: seq<Message<D>>, fate: Fate,
      heard: seq<D>, channel: Channel, k: nat)
    requires Tidy(a) && !a.phase.Halted? && NotAhead(a.phase.n, work) && Lined(a, work) && work != []
    requires Moves(a, work[0], b, extra, fate) && InTurn(a, work, heard, channel, k)
    ensures InTurn(b, work[1..] + extra, heard, channel, k)
  {
    if b.log == a.log {
      PushInTurn(a, work[0], b, work, heard, channel, k);
      assert work[1..] + extra == work[1..];
    } else if Stays(a, b) && extra == [] {
      ConsumeInTurn(a, work[0], b, work, fate, heard, channel, k);
      assert work[1..] + extra == work[1..];
    } else if TakesData(a, b, extra) {
      TakesDataInTurn(a, work[0], b, work, extra, fate, heard, channel, k);
    } else {
      TakesNextInTurn(a, work[0], b, work, extra, fate, heard, channel, k);
    }
  }

  /** Announcements queued in front of the next block's data line up. */
  lemma NextLined<S, D>(b: Node<S, D>, rest: seq<Message<D>>, t: seq<Message<D>>)
    requires (forall m :: m in rest ==> m.block < b.phase.n) && Waiting(b.buffer, Data, b.phase.n) == []
    ensures Lined(b, rest + (Only(Announce, t) + Only(Data, t)))
  {
    var first, last := Only(Announce, t), Only(Data, t);
    OnlyChannel(Announce, t);
    OnlyChannel(Data, t);
    var work := rest + (first + last);
    forall j | 0 <= j < |work| && work[j].block == b.phase.n && work[j].channel == Announce
      ensures forall i :: 0 <= i < j ==> !(work[i].block == b.phase.n && work[i].channel == Data)
    {
      assert j < |rest| + |first|;
      forall i | 0 <= i < j ensures !(work[i].block == b.phase.n && work[i].channel == Data) {
        assert if i < |rest| then work[i] == rest[i] && rest[i] in rest else work[i] == first[i - |rest|];
      }
    }
  }

  lemma {:induction false} OnlyChannel<D>(channel: Channel, work: seq<Message<D>>)
    ensures forall i :: 0 <= i < |Only(channel, work)| ==> Only(channel, work)[i].channel == channel
  {
    if work != [] { OnlyChannel(channel, work[..|work| - 1]); }
  }

  /** Popping a message that leaves the buffer alone, or popping data. */
  lemma PopLined<S, D>(a: Node<S, D>, b: Node<S, D>, work: seq<Message<D>>)
    requires Lined(a, work) && work != [] && b.phase == a.phase
    requires b.buffer == a.buffer || (work[0].block == a.phase.n && work[0].channel == Data)
    ensures Lined(b, work[1..])
  {
    PayloadsHead(work, Data, a.phase.n);
    var n, rest := a.phase.n, work[1..];
    forall j | a.phase.Init? && 0 <= j < |rest| && rest[j].block == n && rest[j].channel == Announce
      ensures forall i :: 0 <= i < j ==> !(rest[i].block == n && rest[i].channel == Data)
      ensures Waiting(b.buffer, Data, n) == [] || PayloadsOf(rest, Data, n) == []
    {
      assert rest[j] == work[j + 1];
      assert !(work[0].block == n && work[0].channel == Data);
      forall i | 0 <= i < j ensures !(rest[i].block == n && rest[i].channel == Data) { assert rest[i] == work[i + 1]; }
    }
  }

  lemma MovesLined<S, D>(a: Node<S, D>, b: Node<S, D>, work: seq<Message<D>>, extra: seq<Message<D>>, fate: Fate)
    requires Tidy(a) && !a.phase.Halted? && NotAhead(a.phase.n, work) && Lined(a, work) && work != []
    requires Moves(a, work[0], b, extra, fate)
    ensures Lined(b, work[1..] + extra)
  {
    if b.log == a.log || (Stays(a, b) && extra == []) {
      assert work[1..] + extra == work[1..];
      if b.phase == a.phase { PopLined(a, b, work); }
    } else if TakesNext(a, b, extra) {
      WaitingTaken(a.buffer, a.phase.n + 1, Data, a.phase.n + 1);
      NextLined(b, work[1..], Tag(a.phase.n + 1, Slot(a.buffer, a.phase.n + 1)));
    }
  }

  // ---------- whole runs ----------

  lemma {:induction false} DrainInTurn<S(!new), D(!new), E, R>(p: Protocol<S, D, E, R>, a: Node<S, D>,
      work: seq<Message<D>>, heard: seq<D>, channel: Channel, k: nat)
    requires Tidy(a) && a.left == [] && NotAhead(a.phase.n, work) && Lined(a, work)
      && InTurn(a, work, heard, channel, k)
    ensures var b := Drain(p, a, work); InTurn(b, b.left, heard, channel, k)
    decreases |Held(a.buffer)| + |work|, |work|
  {
    if !a.phase.Halted? && work != [] {
      var (b, extra) := Handle(p, a, work[0]);
      HandleShrinks(p, a, work[0]);
      HandleTidy(p, a, work[0]);
      var fate := HandleMoves(p, a, work[0]);
      MovesInTurn(a, b, work, extra, fate, heard, channel, k);
      MovesLined(a, b, work, extra, fate);
      DrainInTurn(p, b, work[1..] + extra, heard, channel, k);
    }
  }

  lemma RouteInTurn<S(!new), D(!new), E, R>(p: Protocol<S, D, E, R>, a: Node<S, D>, m: Message<D>, heard: seq<D>,
      channel: Channel, k: nat)
    requires Tidy(a) && !a.phase.Halted? && InTurn(a, a.left, heard, channel, k)
    ensures var b := Route(p, a, m); InTurn(b, b.left, heard + PayloadsOf([m], channel, k), channel, k)
  {
    var heard' := heard + PayloadsOf([m], channel, k);
    assert InTurn(a, [m], heard', channel, k);
    if m.block < a.phase.n {
      ConsumeInTurn(a, m, Route(p, a, m), [m], Stale, heard', channel, k);
    } else if m.block > a.phase.n {
      PushInTurn(a, m, Route(p, a, m), [m], heard', channel, k);
    } else {
      PayloadsOne(m, Data, a.phase.n);
      DrainInTurn(p, a, [m], heard', channel, k);
    }
  }

  lemma NextInTurn<S(!new), D(!new), E, R>(p: Protocol<S, D, E, R>, a: Node<S, D>, m: Message<D>, b: Node<S, D>,
      heard: seq<D>, channel: Channel, k: nat)
    requires Tidy(a) && InTurn(a, a.left, heard, channel, k) && b == Route(p, a, m)
    ensures InTurn(b, b.left, if a.phase.Halted? then heard else heard + PayloadsOf([m], channel, k), channel, k)
  {
    if !a.phase.Halted? { RouteInTurn(p, a, m, heard, channel, k); }
  }

  lemma StartInTurn<S(!new), D(!new)>(start: S, channel: Channel, b: nat)
    ensures InTurn(Start<S, D>(start), [], [], channel, b)
  {
  }

  lemma RunTidy<S(!new), D(!new), E, R>(p: Protocol<S, D, E, R>, start: S, msgs: seq<Message<D>>, k: nat)
    requires k <= |msgs|
    ensures Tidy(Received(p, start, msgs, k))
  {
    RunConserves(p, start, msgs, k);
  }

  lemma PayloadsNext<D>(msgs: seq<Message<D>>, k: nat, channel: Channel, b: nat)
    requires 0 < k <= |msgs|
    ensures PayloadsOf(msgs[..k], channel, b) ==
      PayloadsOf(msgs[..k - 1], channel, b) + PayloadsOf([msgs[k - 1]], channel, b)
  {
    assert msgs[..k] == msgs[..k - 1] + [msgs[k - 1]];
    PayloadsMore(msgs[..k - 1], [msgs[k - 1]], channel, b);
  }

  /** Over any run, block by block and channel by channel, messages are consumed in the order
      received, and what waits or is left in the work queue comes after what was consumed. */
  lemma {:induction false} RunInTurn<S(!new), D(!new), E, R>(p: Protocol<S, D, E, R>, start: S,
      msgs: seq<Message<D>>, k: nat, channel: Channel, b: nat)
    requires k <= |msgs|
    ensures var a := Received(p, start, msgs, k);
      InTurn(a, a.left, PayloadsOf(msgs[..Heard(p, start, msgs, k)], channel, b), channel, b)
  {
    if k == 0 {
      StartInTurn<S, D>(start, channel, b);
    } else {
      RunInTurn(p, start, msgs, k - 1, channel, b);
      RunTidy(p, start, msgs, k - 1);
      PayloadsNext(msgs, k, channel, b);
      NextInTurn(p, Received(p, start, msgs, k - 1), msgs[k - 1], Received(p, start, msgs, k),
                 PayloadsOf(msgs[..Heard(p, start, msgs, k - 1)], channel, b), channel, b);
    }
  }

  // ---------- what opened and what completed a block ----------

  /** The first payload that opens a block, if any does. */
  function FirstOpening<D>(opens: D -> bool, ds: seq<D>): seq<D> {
    if ds == [] then [] else
      var front := FirstOpening(opens, ds[..|ds| - 1]);
      if front != [] then front else if opens(ds[|ds| - 1]) then [ds[|ds| - 1]] else []
  }

  /** It opens a block and none before it does; there is none only if no payload opens one. */
  lemma {:induction false} FirstOpeningIs<D>(opens: D -> bool, ds: seq<D>)
    ensures var o := FirstOpening(opens, ds);
      && (o == [] ==> forall d :: d in ds ==> !opens(d))
      && (o == [] || (|o| == 1 && opens(o[0])))
      && (o != [] ==> exists i :: 0 <= i < |ds| && ds[i] == o[0] && forall j :: 0 <= j < i ==> !opens(ds[j]))
  {
    if ds != [] {
      var front, last := ds[..|ds| - 1], ds[|ds| - 1];
      FirstOpeningIs(opens, front);
      assert ds == front + [last];
      if FirstOpening(opens, front) != [] {
        var i :| 0 <= i < |front| && front[i] == FirstOpening(opens, front)[0]
          && forall j :: 0 <= j < i ==> !opens(front[j]);
        assert ds[i] == front[i];
      } else {
        assert forall j :: 0 <= j < |front| ==> front[j] in front;
        assert ds[|front|] == last;
      }
    }
  }

  lemma {:induction false} FirstOpeningMore<D>(opens: D -> bool, ds: seq<D>, more: seq<D>)
    ensures FirstOpening(opens, ds + more) ==
      if FirstOpening(opens, ds) != [] then FirstOpening(opens, ds) else FirstOpening(opens, more)
  {
    if more == [] {
      assert ds + more == ds;
    } else {
      FirstOpeningMore(opens, ds, more[..|more| - 1]);
      assert (ds + more)[..|ds + more| - 1] == ds + more[..|more| - 1];
    }
  }

  predicate Over(phase: Phase, b: nat) {
    b < phase.n || (b == phase.n && phase.Halted?)
  }

  /** Block `b` was opened by the first consumed announcement that opens it, and fed the data
      consumed for it from the first on until, and not beyond, it was complete. */
  ghost predicate Picks<S(!new), D(!new)>(l: Ledger<S, D>, a: Node<S, D>, b: nat) {
    var fed := Fed(a.log, b);
    && Opened(a.log, b) == FirstOpening(l.opens, Seen(a.log, Announce, b))
    && fed <= Seen(a.log, Data, b) && (b >= a.phase.n ==> fed == Seen(a.log, Data, b))
    && (Over(a.phase, b) ==> fed != [] && !l.full(b, fed[..|fed| - 1]))
  }

  /** Filing an announcement. */
  lemma AnnouncementPicks<S(!new), D(!new)>(l: Ledger<S, D>, a: Node<S, D>, m: Message<D>, fate: Fate, b: Node<S, D>,
      k: nat)
    requires Picks(l, a, k) && m.channel == Announce && b.log == a.log + [Entry(m, fate)]
    requires b.phase.n == a.phase.n && (b.phase.Halted? ==> a.phase.Halted?)
    requires m.block == k ==> if Opened(a.log, k) == [] then fate.Ingested? && (fate.useful <==> l.opens(m.payload))
      else !(fate.Ingested? && fate.useful)
    ensures Picks(l, b, k)
  {
    Logged(a.log, Entry(m, fate), k);
    FedMore(a.log, Entry(m, fate), k);
    SeenMore(a.log, Entry(m, fate), Announce, k);
    SeenMore(a.log, Entry(m, fate), Data, k);
    PayloadsOne(m, Announce, k);
    PayloadsOne(m, Data, k);
    FirstOpeningMore(l.opens, Seen(a.log, Announce, k), PayloadsOf([m], Announce, k));
    FirstOpeningOne(l.opens, m.payload);
    assert Fed(b.log, k) == Fed(a.log, k) && Seen(b.log, Data, k) == Seen(a.log, Data, k);
  }

  lemma FirstOpeningOne<D>(opens: D -> bool, d: D)
    ensures FirstOpening(opens, [d]) == if opens(d) then [d] else []
  {
    assert [d][..0] == [];
  }

  /** Filing data, fed to the protocol for the current block and dropped for an earlier one. */
  lemma DataPicks<S(!new), D(!new)>(l: Ledger<S, D>, a: Node<S, D>, m: Message<D>, fate: Fate, b: Node<S, D>, k: nat)
    requires Picks(l, a, k) && !a.phase.Halted? && m.channel == Data && b.log == a.log + [Entry(m, fate)]
    requires m.block <= a.phase.n <= b.phase.n && (fate.Ingested? <==> m.block == a.phase.n)
    requires Over(b.phase, k) && !Over(a.phase, k) ==> k == m.block && !l.full(k, Fed(a.log, k))
    ensures Picks(l, b, k)
  {
    Logged(a.log, Entry(m, fate), k);
    FedMore(a.log, Entry(m, fate), k);
    SeenMore(a.log, Entry(m, fate), Announce, k);
    SeenMore(a.log, Entry(m, fate), Data, k);
    PayloadsOne(m, Announce, k);
    PayloadsOne(m, Data, k);
    var fed, fed' := Fed(a.log, k), Fed(b.log, k);
    assert Seen(b.log, Announce, k) == Seen(a.log, Announce, k) && Opened(b.log, k) == Opened(a.log, k);
    assert fed' == if k == m.block && fate.Ingested? then fed + [m.payload] else fed;
    if k == m.block && fate.Ingested? { assert fed'[..|fed'| - 1] == fed; }
  }

  lemma HandlePicks<S(!new), D(!new), E, R>(p: Protocol<S, D, E, R>, g: Gauge<S>, l: Ledger<S, D>, a: Node<S, D>,
      m: Message<D>, b: Node<S, D>, k: nat)
    requires Conforms(p, g) && Keeps(p, g, l) && InStep(p, g, a.phase, a.protocol) && Ranked(g, a) && OnTrack(l, a)
    requires !a.phase.Halted? && m.block <= a.phase.n && Picks(l, a, k) && b == Handle(p, a, m).0
    ensures Picks(l, b, k)
  {
    var n, v := a.phase.n, Decide(p, a.protocol, a.phase, a.forwarded, m);
    HandleCarries(p, a, m);
    if m.block == n { DecideTracked(p, g, l, a.protocol, a.phase, a.forwarded, Fed(a.log, n), m); }
    assert |Opened(a.log, m.block)| == if Begun(a.phase, m.block) then 1 else 0;
    if v.fate.Some? && m.channel == Announce {
      AnnouncementPicks(l, a, m, v.fate.value, b, k);
    } else if v.fate.Some? {
      if m.block == n { assert !l.full(n, Fed(a.log, n)); }
      DataPicks(l, a, m, v.fate.value, b, k);
    }
  }

  lemma {:induction false} DrainPicks<S(!new), D(!new), E, R>(p: Protocol<S, D, E, R>, g: Gauge<S>, l: Ledger<S, D>,
      a: Node<S, D>, work: seq<Message<D>>, k: nat)
    requires Conforms(p, g) && Keeps(p, g, l) && Steady(p, g, l, a) && NotAhead(a.phase.n, work) && Picks(l, a, k)
    ensures Picks(l, Drain(p, a, work), k)
    decreases |Held(a.buffer)| + |work|, |work|
  {
    if !a.phase.Halted? && work != [] {
      var (b, extra) := Handle(p, a, work[0]);
      HandleShrinks(p, a, work[0]);
      HandleStep(p, g, l, a, work[0], b, extra, k);
      DrainPicks(p, g, l, b, work[1..] + extra, k);
    }
  }

  lemma HandleStep<S(!new), D(!new), E, R>(p: Protocol<S, D, E, R>, g: Gauge<S>, l: Ledger<S, D>, a: Node<S, D>,
      m: Message<D>, b: Node<S, D>, extra: seq<Message<D>>, k: nat)
    requires Conforms(p, g) && Keeps(p, g, l) && Steady(p, g, l, a) && !a.phase.Halted? && m.block <= a.phase.n
    requires Picks(l, a, k) && (b, extra) == Handle(p, a, m)
    ensures Steady(p, g, l, b) && Picks(l, b, k) && NotAhead(b.phase.n, extra) && a.phase.n <= b.phase.n
  {
    SteadyIs(p, g, l, a);
    HandleTidy(p, a, m);
    HandleKeeps(p, g, a, m);
    HandleTracked(p, g, l, a, m);
    HandlePicks(p, g, l, a, m, b, k);
    SteadyIs(p, g, l, b);
  }

  lemma RoutePicks<S(!new), D(!new), E, R>(p: Protocol<S, D, E, R>, g: Gauge<S>, l: Ledger<S, D>, a: Node<S, D>,
      m: Message<D>, b: Node<S, D>, k: nat)
    requires Conforms(p, g) && Keeps(p, g, l) && Steady(p, g, l, a) && Picks(l, a, k) && b == Route(p, a, m)
    ensures Picks(l, b, k)
  {
    if a.phase.Halted? {
    } else if m.block < a.phase.n {
      StalePicks(p, g, l, a, m, b, k);
    } else if m.block == a.phase.n {
      DrainPicks(p, g, l, a, [m], k);
    }
  }

  lemma StalePicks<S(!new), D(!new), E, R>(p: Protocol<S, D, E, R>, g: Gauge<S>, l: Ledger<S, D>, a: Node<S, D>,
      m: Message<D>, b: Node<S, D>, k: nat)
    requires Steady(p, g, l, a) && Picks(l, a, k) && m.block < a.phase.n && !a.phase.Halted?
    requires b == a.(log := a.log + [Entry(m, Stale)])
    ensures Picks(l, b, k)
  {
    SteadyIs(p, g, l, a);
    assert |Opened(a.log, m.block)| == 1;
    if m.channel == Announce {
      AnnouncementPicks(l, a, m, Stale, b, k);
    } else {
      DataPicks(l, a, m, Stale, b, k);
    }
  }

  lemma StartPicks<S(!new), D(!new)>(l: Ledger<S, D>, start: S, b: nat)
    ensures Picks(l, Start(start), b)
  {
  }

  lemma {:induction false} RunPicks<S(!new), D(!new), E, R>(p: Protocol<S, D, E, R>, g: Gauge<S>, l: Ledger<S, D>,
      start: S, msgs: seq<Message<D>>, k: nat, b: nat)
    requires Conforms(p, g) && Keeps(p, g, l) && g.ok(start) && g.rank(start) == 0 && l.tracks(0, [], start)
      && k <= |msgs|
    ensures Picks(l, Received(p, start, msgs, k), b)
  {
    if k == 0 {
      StartPicks(l, start, b);
    } else {
      RunPicks(p, g, l, start, msgs, k - 1, b);
      RunSteady(p, g, l, start, msgs, k - 1);
      RoutePicks(p, g, l, Received(p, start, msgs, k - 1), msgs[k - 1], Received(p, start, msgs, k), b);
    }
  }

  // ---------- what the received messages decide ----------

  /** Block `b` was opened, if at all, by the first announcement received that opens it, and
      fed a prefix of the data received for it: all of it while it is being decoded, the
      shortest prefix that completes it once it is over. */
  ghost predicate FirstServed<S(!new), D(!new)>(l: Ledger<S, D>, a: Node<S, D>, msgs: seq<Message<D>>, b: nat) {
    var fed := Fed(a.log, b);
    && (b <= a.phase.n ==> Opened(a.log, b) == FirstOpening(l.opens, PayloadsOf(msgs, Announce, b)))
    && fed <= DataOf(msgs, b)
    && (Over(a.phase, b) ==> l.full(b, fed) && fed != [] && !l.full(b, fed[..|fed| - 1]))
    && (a.phase == Decoding(b) ==> fed == DataOf(msgs, b))
    && ((b == a.phase.n && a.phase.Init?) || b > a.phase.n ==> fed == [])
  }

  lemma OpenedByFirst<S(!new), D(!new), E, R>(p: Protocol<S, D, E, R>, g: Gauge<S>, l: Ledger<S, D>, a: Node<S, D>,
      heard: seq<D>, all: seq<D>, b: nat)
    requires Inv(p, g, a) && Picks(l, a, b) && InTurn(a, a.left, heard, Announce, b) && b <= a.phase.n
    requires heard <= all && (!a.phase.Halted? ==> heard == all)
    ensures Opened(a.log, b) == FirstOpening(l.opens, all)
  {
    var seen := Seen(a.log, Announce, b);
    TakenPrefix(seen, Waiting(a.buffer, Announce, b), PayloadsOf(a.left, Announce, b), heard, all);
    FirstOpeningMore(l.opens, seen, all[|seen|..]);
    assert |Opened(a.log, b)| == if Begun(a.phase, b) then 1 else 0;
    if !Begun(a.phase, b) {
      NothingWaits(a, Announce, b);
      assert PayloadsOf(a.left, Announce, b) == [];
    }
  }

  lemma TakenPrefix<D>(seen: seq<D>, waiting: seq<D>, left: seq<D>, heard: seq<D>, all: seq<D>)
    requires seen + waiting + left == heard && heard <= all
    ensures seen <= all && all == seen + all[|seen|..]
    ensures waiting == [] && left == [] && heard == all ==> seen == all
  {
  }

  lemma FedInOrder<S(!new), D(!new), E, R>(p: Protocol<S, D, E, R>, g: Gauge<S>, l: Ledger<S, D>, a: Node<S, D>,
      heard: seq<D>, all: seq<D>, b: nat)
    requires Keeps(p, g, l) && Inv(p, g, a) && OnTrack(l, a) && Picks(l, a, b)
    requires InTurn(a, a.left, heard, Data, b) && heard <= all && (!a.phase.Halted? ==> heard == all)
    ensures Fed(a.log, b) <= all && (Over(a.phase, b) ==> l.full(b, Fed(a.log, b)))
    ensures a.phase == Decoding(b) ==> Fed(a.log, b) == all
    ensures b > a.phase.n ==> Fed(a.log, b) == []
  {
    var fed := Fed(a.log, b);
    assert fed <= Seen(a.log, Data, b) <= heard;
    if a.phase == Decoding(b) { NothingWaits(a, Data, b); }
    if b > a.phase.n { NoneFed(a.log, b); }
  }

  /** Over any run, buffered and queued messages included: first come, first served. */
  lemma RunServes<S(!new), D(!new), E, R>(p: Protocol<S, D, E, R>, g: Gauge<S>, l: Ledger<S, D>, start: S,
      msgs: seq<Message<D>>, k: nat, b: nat)
    requires Conforms(p, g) && Keeps(p, g, l) && g.ok(start) && g.rank(start) == 0 && l.tracks(0, [], start)
      && k <= |msgs|
    ensures FirstServed(l, Received(p, start, msgs, k), msgs[..k], b)
  {
    var a, h := Received(p, start, msgs, k), Heard(p, start, msgs, k);
    RunSteady(p, g, l, start, msgs, k);
    SteadyIs(p, g, l, a);
    RunPicks(p, g, l, start, msgs, k, b);
    RunInTurn(p, start, msgs, k, Announce, b);
    RunInTurn(p, start, msgs, k, Data, b);
    PayloadsPrefix(msgs, h, k, Announce, b);
    PayloadsPrefix(msgs, h, k, Data, b);
    if b <= a.phase.n {
      OpenedByFirst(p, g, l, a, PayloadsOf(msgs[..h], Announce, b), PayloadsOf(msgs[..k], Announce, b), b);
    }
    FedInOrder(p, g, l, a, PayloadsOf(msgs[..h], Data, b), PayloadsOf(msgs[..k], Data, b), b);
  }

  lemma PayloadsPrefix<D>(msgs: seq<Message<D>>, h: nat, k: nat, channel: Channel, b: nat)
    requires h <= k <= |msgs|
    ensures PayloadsOf(msgs[..h], channel, b) <= PayloadsOf(msgs[..k], channel, b)
  {
    PayloadsMore(msgs[..h], msgs[h..k], channel, b);
    assert msgs[..k] == msgs[..h] + msgs[h..k];
  }
}
