/** What every run of the node actor keeps (crates/node/src/actor.rs). */
module ActorProofs {
  import opened StrategyCore
  import opened Wrappers
  import opened ActorModel

  // ---------- what the actor expects of a protocol ----------

  /** Progress of a protocol on one block: its rank out of `bound`, which states can
      arise, and whether the block's announcement has been taken in. */
  datatype Gauge<!S(!new)> = Gauge(bound: nat, rank: S -> nat, ok: S -> bool, armed: S -> bool)

  // Marks the operands at which a proof uses a protocol law.
  ghost predicate Ask<S, D>(s: S, n: nat, d: D) { true }

  /** Announcements arm the protocol without touching its rank; on an armed, incomplete
      protocol data raises the rank by one when useful and not otherwise. */
  ghost predicate Conforms<S(!new), D(!new), E, R>(p: Protocol<S, D, E, R>, g: Gauge<S>) {
    && g.bound >= 1
    && (forall s: S, n: nat, d: D {:trigger Ask(s, n, d)} :: Ask(s, n, d) && g.ok(s) ==>
          var (receipt, s') := p.ingest(s, Announce, n, d);
          g.ok(s') && g.rank(s') == g.rank(s) && (receipt == Useful ==> g.armed(s')))
    && (forall s: S, n: nat, d: D {:trigger Ask(s, n, d)} ::
          Ask(s, n, d) && g.ok(s) && g.armed(s) && g.rank(s) < g.bound ==>
          var (receipt, s') := p.ingest(s, Data, n, d);
          g.ok(s') && g.armed(s') && g.rank(s') == g.rank(s) + if receipt == Useful then 1 else 0)
    && (forall s: S {:trigger g.ok(s)} :: g.ok(s) ==>
          && g.rank(s) <= g.bound && (p.isComplete(s) <==> g.rank(s) == g.bound)
          && g.ok(p.reset(s)) && g.rank(p.reset(s)) == 0)
  }

  // ---------- tallies over the log and the calls ----------

  /** Useful data packets of block `b`. */
  function Accepted<D>(log: seq<Entry<D>>, b: nat): nat {
    if log == [] then 0 else
      var e := log[|log| - 1];
      Accepted(log[..|log| - 1], b) +
        if e.message.block == b && e.message.channel == Data && e.fate.Ingested? && e.fate.useful then 1 else 0
  }

  /** Payloads of the announcements that opened block `b`. */
  function Opened<D>(log: seq<Entry<D>>, b: nat): seq<D> {
    if log == [] then [] else
      var e := log[|log| - 1];
      Opened(log[..|log| - 1], b) +
        if e.message.block == b && e.message.channel == Announce && e.fate.Ingested?
          && e.fate.useful then [e.message.payload] else []
  }

  /** Blocks decoded, in order of decoding. */
  function Completed<D>(log: seq<Entry<D>>): seq<nat> {
    if log == [] then [] else
      var e := log[|log| - 1];
      Completed(log[..|log| - 1]) + if e.fate.Ingested? && e.fate.decoded then [e.message.block] else []
  }

  ghost function Consumed<D>(log: seq<Entry<D>>): multiset<Message<D>> {
    if log == [] then multiset{} else Consumed(log[..|log| - 1]) + multiset{log[|log| - 1].message}
  }

  /** Batches of re-encoded packets sent for block `b`. */
  function Recoded<S>(calls: seq<Call<S>>, b: nat): nat {
    if calls == [] then 0 else
      var c := calls[|calls| - 1];
      Recoded(calls[..|calls| - 1], b) + if c.Recode? && c.block == b then 1 else 0
  }

  /** The decode calls, in order. */
  function Decodes<S>(calls: seq<Call<S>>): (ds: seq<Call<S>>)
    ensures forall i :: 0 <= i < |ds| ==> ds[i].Decode? && ds[i] in calls
  {
    if calls == [] then [] else
      var c := calls[|calls| - 1];
      Decodes(calls[..|calls| - 1]) + if c.Decode? then [c] else []
  }

  /** A message is dropped only when its block was already decoded, ignored only as an
      announcement of the block being decoded, and ingested only for its own block. */
  predicate FiledAt<D>(current: nat, e: Entry<D>) {
    match e.fate
    case Stale => e.message.block < current
    case Ignored => e.message.block == current && e.message.channel == Announce
    case Ingested(useful, decoded) =>
      e.message.block == current && (decoded ==> useful && e.message.channel == Data)
  }

  /** Every log entry was filed correctly for the blocks decoded before it. */
  predicate Filed<D>(log: seq<Entry<D>>) {
    log == [] || (Filed(log[..|log| - 1]) && FiledAt(|Completed(log[..|log| - 1])|, log[|log| - 1]))
  }

  lemma Logged<D>(log: seq<Entry<D>>, e: Entry<D>, b: nat)
    ensures Accepted(log + [e], b) == Accepted(log, b) +
      if e.message.block == b && e.message.channel == Data && e.fate.Ingested? && e.fate.useful then 1 else 0
    ensures Opened(log + [e], b) == Opened(log, b) +
      if e.message.block == b && e.message.channel == Announce && e.fate.Ingested?
        && e.fate.useful then [e.message.payload] else []
    ensures Completed(log + [e]) == Completed(log) + if e.fate.Ingested? && e.fate.decoded then [e.message.block]
      else []
    ensures Consumed(log + [e]) == Consumed(log) + multiset{e.message}
    ensures Filed(log + [e]) <==> Filed(log) && FiledAt(|Completed(log)|, e)
  {
    assert (log + [e])[..|log|] == log;
  }

  lemma {:induction false} Called<S>(calls: seq<Call<S>>, more: seq<Call<S>>, b: nat)
    ensures Recoded(calls + more, b) == Recoded(calls, b) + Recoded(more, b)
    ensures Decodes(calls + more) == Decodes(calls) + Decodes(more)
  {
    if more == [] {
      assert calls + more == calls;
    } else {
      var front := more[..|more| - 1];
      Called(calls, front, b);
      assert (calls + more)[..|calls + more| - 1] == calls + front;
    }
  }

  // ---------- the invariant ----------

  /** Batches sent for the current block at rank `r`. */
  function SoFar(cond: ForwardCondition, r: nat): nat {
    match cond
    case AfterDecode => 0
    case UntilDecode => r
    case OneShot => if r > 0 then 1 else 0
  }

  /** Batches sent for a completed block: the decode-completing packet is not forwarded
      under `UntilDecode`. */
  function Quota(cond: ForwardCondition, bound: nat): int {
    match cond
    case AfterDecode => 1
    case UntilDecode => bound - 1
    case OneShot => 1
  }

  /** The protocol is fresh while waiting, armed and incomplete while decoding, and halted
      only complete, on a decode that fails. */
  ghost predicate InStep<S(!new), D(!new), E, R>(p: Protocol<S, D, E, R>, g: Gauge<S>, phase: Phase, s: S) {
    && g.ok(s)
    && match phase
       case Init(_) => g.rank(s) == 0
       case Decoding(_) => g.armed(s) && g.rank(s) < g.bound
       case Halted(_) => g.armed(s) && g.rank(s) == g.bound && p.decode(s).Failure?
  }

  /** Only future blocks are buffered, and for the awaited block only data. */
  ghost predicate Tidy<S, D>(a: Node<S, D>) {
    && (forall k :: k in a.buffer ==> a.phase.n <= k)
    && (!a.phase.Init? ==> a.phase.n !in a.buffer)
    && (a.phase.Init? ==> forall i :: 0 <= i < |Slot(a.buffer, a.phase.n)| ==> Slot(a.buffer, a.phase.n)[i].0 == Data)
    && (!a.phase.Halted? ==> a.left == [])
  }

  /** Blocks were decoded in order, each exactly once, and every message was filed
      correctly for the blocks decoded before it. */
  ghost predicate InOrder<S, D>(a: Node<S, D>) {
    && a.decodedCount == a.phase.n == |Completed(a.log)|
    && (forall i :: 0 <= i < |Completed(a.log)| ==> Completed(a.log)[i] == i)
    && Filed(a.log)
  }

  /** Every decoded block took exactly `bound` useful packets, the current one as many as
      its rank, later ones none; every block begun was opened by exactly one announcement. */
  ghost predicate Ranked<S(!new), D(!new)>(g: Gauge<S>, a: Node<S, D>) {
    && (forall b: nat {:trigger Accepted(a.log, b)} ::
          Accepted(a.log, b) == if b < a.phase.n then g.bound else if b == a.phase.n then g.rank(a.protocol) else 0)
    && (forall b: nat {:trigger Opened(a.log, b)} ::
          |Opened(a.log, b)| == if b < a.phase.n || (b == a.phase.n && !a.phase.Init?) then 1 else 0)
  }

  /** Every completed block got its quota of re-encoded batches, the current one those its
      rank has earned, later ones none. */
  ghost predicate Rationed<S(!new), D(!new), E, R>(p: Protocol<S, D, E, R>, g: Gauge<S>, a: Node<S, D>) {
    && (!a.phase.Halted? ==> (a.forwarded <==> SoFar(p.cond, g.rank(a.protocol)) > 0))
    && forall b: nat {:trigger Recoded(a.calls, b)} ::
        Recoded(a.calls, b) ==
          if b < a.phase.n || (b == a.phase.n && a.phase.Halted?) then Quota(p.cond, g.bound)
          else if b == a.phase.n then SoFar(p.cond, g.rank(a.protocol))
          else 0
  }

  /** What the protocol may rely on when called: data reaches it armed and below full rank,
      packets are re-encoded from rank one on, and decoding happens at full rank. */
  ghost predicate Fit<S(!new), D(!new), E, R>(p: Protocol<S, D, E, R>, g: Gauge<S>, c: Call<S>) {
    && g.ok(c.state) && g.armed(c.state)
    && match c
       case Feed(_, s) => g.rank(s) < g.bound
       case Recode(_, s) => g.rank(s) >= 1
       case Decode(_, s) => g.rank(s) == g.bound && p.isComplete(s)
  }

  predicate Begun(phase: Phase, block: nat) {
    block < phase.n || (block == phase.n && !phase.Init?)
  }

  /** The `i`-th decode call is for block `i`; all succeeded but the one a halted actor
      stopped on. */
  ghost predicate DecodesFit<S(!new), D(!new), E, R>(p: Protocol<S, D, E, R>, a: Node<S, D>) {
    var n, ds := a.phase.n, Decodes(a.calls);
    && |ds| == n + (if a.phase.Halted? then 1 else 0)
    && (forall i :: 0 <= i < |ds| ==> ds[i].block == i && (i < n <==> p.decode(ds[i].state).Success?))
    && (a.phase.Halted? ==> ds[n].state == a.protocol)
  }

  /** Every call was fit and for a block already begun, and blocks were decoded in order. */
  ghost predicate CallsFit<S(!new), D(!new), E, R>(p: Protocol<S, D, E, R>, g: Gauge<S>, a: Node<S, D>) {
    && DecodesFit(p, a)
    && forall i :: 0 <= i < |a.calls| ==> Fit(p, g, a.calls[i]) && Begun(a.phase, a.calls[i].block)
  }

  ghost predicate Inv<S(!new), D(!new), E, R>(p: Protocol<S, D, E, R>, g: Gauge<S>, a: Node<S, D>) {
    InStep(p, g, a.phase, a.protocol) && Tidy(a) && InOrder(a) && Ranked(g, a) && Rationed(p, g, a)
      && CallsFit(p, g, a)
  }

  ghost predicate NotAhead<D>(n: nat, work: seq<Message<D>>) {
    forall m :: m in work ==> m.block <= n
  }

  // ---------- one message ----------

  /** The cases of a verdict: the message waits; it is filed without effect on the block; it
      opens the block; it is useful and the block goes on; or it completes the block, which
      is then decoded or halts the actor. */
  ghost predicate Judged<S(!new), D(!new), E, R>(p: Protocol<S, D, E, R>, g: Gauge<S>, s: S, phase: Phase,
      forwarded: bool, m: Message<D>, v: Verdict<S>)
  {
    var n, r, r' := phase.n, g.rank(s), g.rank(v.protocol);
    var sent := Recoded(v.calls, n);
    && InStep(p, g, v.phase, v.protocol)
    && (forall i :: 0 <= i < |v.calls| ==> v.calls[i].block == n && Fit(p, g, v.calls[i]) && phase.Decoding?)
    && match v.fate
       case None => v == Verdict(s, phase, forwarded, None, [])
       case Some(fate) =>
         && FiledAt(n, Entry(m, fate))
         && if fate.Ingested? && fate.useful && m.channel == Announce then
              phase == Init(n) && v.phase == Decoding(n) && r' == r && v.calls == [] && v.forwarded == forwarded
                && !fate.decoded
            else if fate.Ingested? && fate.useful && v.phase == phase then
              phase == Decoding(n) && r' == r + 1 && SoFar(p.cond, r) + sent == SoFar(p.cond, r')
              && (v.forwarded <==> SoFar(p.cond, r') > 0) && Decodes(v.calls) == [] && !fate.decoded
            else if fate.Ingested? && fate.useful then
              phase == Decoding(n) && r + 1 == g.bound && SoFar(p.cond, r) + sent == Quota(p.cond, g.bound)
              && Completes(p, g, n, v) && (fate.decoded <==> v.phase == Init(n + 1))
            else
              v.phase == phase && r' == r && sent == 0 && v.forwarded == forwarded && Decodes(v.calls) == []
              && !(fate.Ingested? && fate.decoded)
  }

  ghost predicate Completes<S(!new), D(!new), E, R>(p: Protocol<S, D, E, R>, g: Gauge<S>, n: nat, v: Verdict<S>) {
    && |Decodes(v.calls)| == 1
    && var c := Decodes(v.calls)[0];
       && c.block == n
       && if p.decode(c.state).Success? then v.phase == Init(n + 1) && !v.forwarded
          else v.phase == Halted(n) && v.protocol == c.state
  }

  lemma TwoCalls<S>(calls: seq<Call<S>>, feed: Call<S>, recode: seq<Call<S>>, decode: seq<Call<S>>, n: nat)
    requires calls == [feed] + recode + decode && feed.Feed?
    requires recode == [] || (|recode| == 1 && recode[0].Recode? && recode[0].block == n)
    requires decode == [] || (|decode| == 1 && decode[0].Decode?)
    ensures Recoded(calls, n) == |recode| && Decodes(calls) == decode
  {
    Called([feed] + recode, decode, n);
    Called([feed], recode, n);
    assert [feed][..0] == [];
    if recode != [] { assert recode[..0] == []; }
    if decode != [] { assert decode[..0] == [] && decode == [decode[0]]; }
  }

  /** What one useful packet at rank `r` adds to the batches sent. */
  lemma BatchEarned(cond: ForwardCondition, r: nat, bound: nat, forwarded: bool)
    requires r < bound && (forwarded <==> SoFar(cond, r) > 0)
    ensures var recode := ShouldRecode(cond, r + 1 == bound, forwarded);
      var total := SoFar(cond, r) + if recode then 1 else 0;
      && (recode ==> r + 1 >= 1)
      && if r + 1 == bound then total == Quota(cond, bound)
         else total == SoFar(cond, r + 1) && (forwarded || recode <==> SoFar(cond, r + 1) > 0)
  {
  }

  /** Useful data that leaves the block incomplete. */
  lemma IncompleteJudged<S(!new), D(!new), E, R>(p: Protocol<S, D, E, R>, g: Gauge<S>, n: nat, s: S, s': S,
      forwarded: bool, m: Message<D>)
    requires InStep(p, g, Decoding(n), s) && InStep(p, g, Decoding(n), s') && g.rank(s') == g.rank(s) + 1
      && !p.isComplete(s')
    requires m.block == n && m.channel == Data && (forwarded <==> SoFar(p.cond, g.rank(s)) > 0)
    ensures Judged(p, g, s, Decoding(n), forwarded, m, Advance(p, n, s, s', forwarded))
  {
    var recode := ShouldRecode(p.cond, false, forwarded);
    var recodes := if recode then [Recode(n, s')] else [];
    var calls := [Feed(n, s)] + recodes + [];
    assert Advance(p, n, s, s', forwarded) == Verdict(s', Decoding(n), forwarded
      || recode, Some(Ingested(true, false)), calls);
    TwoCalls(calls, Feed(n, s), recodes, [], n);
    BatchEarned(p.cond, g.rank(s), g.bound, forwarded);
    UsefulFit(p, g, n, s, s', recodes, []);
  }

  /** Useful data that completes the block. */
  lemma CompleteJudged<S(!new), D(!new), E, R>(p: Protocol<S, D, E, R>, g: Gauge<S>, n: nat, s: S, s': S,
      forwarded: bool, m: Message<D>)
    requires InStep(p, g, Decoding(n), s) && g.ok(s') && g.armed(s') && g.rank(s') == g.rank(s) + 1 == g.bound
      && p.isComplete(s')
    requires InStep(p, g, Init(n + 1), p.reset(s'))
    requires m.block == n && m.channel == Data && (forwarded <==> SoFar(p.cond, g.rank(s)) > 0)
    ensures Judged(p, g, s, Decoding(n), forwarded, m, Advance(p, n, s, s', forwarded))
  {
    var recode := ShouldRecode(p.cond, true, forwarded);
    var recodes := if recode then [Recode(n, s')] else [];
    var calls := [Feed(n, s)] + recodes + [Decode(n, s')];
    TwoCalls(calls, Feed(n, s), recodes, [Decode(n, s')], n);
    BatchEarned(p.cond, g.rank(s), g.bound, forwarded);
    UsefulFit(p, g, n, s, s', recodes, [Decode(n, s')]);
    var v := Advance(p, n, s, s', forwarded);
    assert v.calls == calls && Completes(p, g, n, v);
  }

  lemma UsefulFit<S(!new), D(!new), E, R>(p: Protocol<S, D, E, R>, g: Gauge<S>, n: nat, s: S, s': S,
      recodes: seq<Call<S>>, decodes: seq<Call<S>>)
    requires Fit(p, g, Feed(n, s)) && Fit(p, g, Recode(n, s'))
    requires recodes == [] || recodes == [Recode(n, s')]
    requires decodes == [] || (decodes == [Decode(n, s')] && Fit(p, g, Decode(n, s')))
    ensures var calls := [Feed(n, s)] + recodes + decodes;
      forall i :: 0 <= i < |calls| ==> calls[i].block == n && Fit(p, g, calls[i])
  {
    var calls := [Feed(n, s)] + recodes + decodes;
    forall i | 0 <= i < |calls| ensures calls[i].block == n && Fit(p, g, calls[i]) {
      assert calls[i] in [Feed(n, s)] || calls[i] in recodes || calls[i] in decodes;
    }
  }

  lemma AnnouncementJudged<S(!new), D(!new), E, R>(p: Protocol<S, D, E, R>, g: Gauge<S>, n: nat, s: S,
      forwarded: bool, m: Message<D>)
    requires Conforms(p, g) && InStep(p, g, Init(n), s) && m.block == n && m.channel == Announce
    ensures Judged(p, g, s, Init(n), forwarded, m, Decide(p, s, Init(n), forwarded, m))
  {
    assert Ask(s, n, m.payload);
    var (receipt, s') := p.ingest(s, Announce, n, m.payload);
    assert g.ok(s');
  }

  lemma DataJudged<S(!new), D(!new), E, R>(p: Protocol<S, D, E, R>, g: Gauge<S>, n: nat, s: S, forwarded: bool,
      m: Message<D>)
    requires Conforms(p, g) && InStep(p, g, Decoding(n), s) && m.block == n && m.channel == Data
    requires forwarded <==> SoFar(p.cond, g.rank(s)) > 0
    ensures Judged(p, g, s, Decoding(n), forwarded, m, Decide(p, s, Decoding(n), forwarded, m))
  {
    assert Ask(s, n, m.payload);
    var (receipt, s') := p.ingest(s, Data, n, m.payload);
    assert g.ok(s') && g.ok(p.reset(s'));
    if receipt == Useful {
      if p.isComplete(s') {
        CompleteJudged(p, g, n, s, s', forwarded, m);
      } else {
        IncompleteJudged(p, g, n, s, s', forwarded, m);
      }
    } else {
      TwoCalls([Feed(n, s)], Feed(n, s), [], [], n);
    }
  }

  lemma DecideJudged<S(!new), D(!new), E, R>(p: Protocol<S, D, E, R>, g: Gauge<S>, s: S, phase: Phase,
      forwarded: bool, m: Message<D>)
    requires Conforms(p, g) && !phase.Halted? && InStep(p, g, phase, s)
    requires m.block <= phase.n && (forwarded <==> SoFar(p.cond, g.rank(s)) > 0)
    ensures Judged(p, g, s, phase, forwarded, m, Decide(p, s, phase, forwarded, m))
  {
    if m.block == phase.n && phase.Init? && m.channel == Announce {
      AnnouncementJudged(p, g, phase.n, s, forwarded, m);
    } else if m.block == phase.n && phase.Decoding? && m.channel == Data {
      DataJudged(p, g, phase.n, s, forwarded, m);
    }
  }

  /** The fields a verdict determines, buffer aside. */
  ghost predicate Carried<S(!new), D(!new)>(a: Node<S, D>, m: Message<D>, v: Verdict<S>, b: Node<S, D>) {
    && b.protocol == v.protocol && b.phase == v.phase && b.forwarded == v.forwarded && b.left == a.left
    && b.log == (if v.fate.Some? then a.log + [Entry(m, v.fate.value)] else a.log)
    && b.calls == (if v.fate.Some? then a.calls + v.calls else a.calls)
    && b.decodedCount == a.decodedCount + if v.phase.n == a.phase.n then 0 else 1
  }

  lemma HandleCarries<S(!new), D(!new), E, R>(p: Protocol<S, D, E, R>, a: Node<S, D>, m: Message<D>)
    requires !a.phase.Halted?
    ensures Carried(a, m, Decide(p, a.protocol, a.phase, a.forwarded, m), Handle(p, a, m).0)
  {
  }

  lemma InOrderKept<S(!new), D(!new), E, R>(p: Protocol<S, D, E, R>, g: Gauge<S>, a: Node<S, D>, m: Message<D>,
      v: Verdict<S>, b: Node<S, D>)
    requires Judged(p, g, a.protocol, a.phase, a.forwarded, m, v) && Carried(a, m, v, b) && InOrder(a)
    ensures InOrder(b)
  {
    if v.fate.Some? { Logged(a.log, Entry(m, v.fate.value), 0); }
  }

  lemma RankedKept<S(!new), D(!new), E, R>(p: Protocol<S, D, E, R>, g: Gauge<S>, a: Node<S, D>, m: Message<D>,
      v: Verdict<S>, b: Node<S, D>)
    requires Judged(p, g, a.protocol, a.phase, a.forwarded, m, v) && Carried(a, m, v, b) && Ranked(g, a)
    ensures Ranked(g, b)
  {
    forall k: nat
      ensures Accepted(b.log, k) == if k < b.phase.n then g.bound else if k == b.phase.n then g.rank(b.protocol)
        else 0
      ensures |Opened(b.log, k)| == if k < b.phase.n || (k == b.phase.n && !b.phase.Init?) then 1 else 0
    {
      if v.fate.Some? { Logged(a.log, Entry(m, v.fate.value), k); }
      assert |Opened(a.log, k)| == if k < a.phase.n || (k == a.phase.n && !a.phase.Init?) then 1 else 0;
      assert Accepted(a.log, k) == if k < a.phase.n then g.bound else if k == a.phase.n then g.rank(a.protocol)
        else 0;
    }
  }

  lemma RationedKept<S(!new), D(!new), E, R>(p: Protocol<S, D, E, R>, g: Gauge<S>, a: Node<S, D>, m: Message<D>,
      v: Verdict<S>, b: Node<S, D>)
    requires Judged(p, g, a.protocol, a.phase, a.forwarded, m, v) && Carried(a, m, v, b) && !a.phase.Halted?
      && Rationed(p, g, a)
    ensures Rationed(p, g, b)
  {
    forall k: nat
      ensures Recoded(b.calls, k) ==
        if k < b.phase.n || (k == b.phase.n && b.phase.Halted?) then Quota(p.cond, g.bound)
        else if k == b.phase.n then SoFar(p.cond, g.rank(b.protocol)) else 0
    {
      Called(a.calls, v.calls, k);
      if k != a.phase.n { NoneRecoded(v.calls, k); }
      assert Recoded(a.calls, k) == if k < a.phase.n then Quota(p.cond, g.bound)
        else if k == a.phase.n then SoFar(p.cond, g.rank(a.protocol)) else 0;
    }
  }

  lemma {:induction false} NoneRecoded<S>(calls: seq<Call<S>>, b: nat)
    requires forall i :: 0 <= i < |calls| ==> calls[i].block != b
    ensures Recoded(calls, b) == 0
  {
    if calls != [] { NoneRecoded(calls[..|calls| - 1], b); }
  }

  lemma DecodesKept<S(!new), D(!new), E, R>(p: Protocol<S, D, E, R>, g: Gauge<S>, a: Node<S, D>, m: Message<D>,
      v: Verdict<S>, b: Node<S, D>)
    requires Judged(p, g, a.protocol, a.phase, a.forwarded, m, v) && Carried(a, m, v, b) && !a.phase.Halted?
      && DecodesFit(p, a)
    ensures DecodesFit(p, b)
  {
    Called(a.calls, v.calls, 0);
    assert v.fate.None? ==> Decodes(v.calls) == [];
  }

  lemma CallsKept<S(!new), D(!new), E, R>(p: Protocol<S, D, E, R>, g: Gauge<S>, a: Node<S, D>, m: Message<D>,
      v: Verdict<S>, b: Node<S, D>)
    requires Judged(p, g, a.protocol, a.phase, a.forwarded, m, v) && Carried(a, m, v, b) && !a.phase.Halted?
      && CallsFit(p, g, a)
    ensures CallsFit(p, g, b)
  {
    DecodesKept(p, g, a, m, v, b);
    forall i | 0 <= i < |b.calls| ensures Fit(p, g, b.calls[i]) && Begun(b.phase, b.calls[i].block) {
      assert b.calls[i] == if i < |a.calls| then a.calls[i] else v.calls[i - |a.calls|];
    }
  }

  // ---------- what one message does to buffer, log and phase ----------

  /** A message is either pushed into the buffer or logged; the buffer gives up data when
      an announcement arrives and the next block's messages when a block is decoded. */
  ghost predicate Moves<S, D>(a: Node<S, D>, m: Message<D>, b: Node<S, D>, extra: seq<Message<D>>, fate: Fate) {
    && b.left == a.left
    && if b.log == a.log then
         Waits(a, m, b) && extra == []
       else
         b.log == a.log + [Entry(m, fate)] && (a.phase == Init(m.block) ==> m.channel == Announce)
           && ((Stays(a, b) && extra == []) || (TakesData(a, b, extra) && m.block == a.phase.n)
             || TakesNext(a, b, extra))
  }

  ghost predicate Waits<S, D>(a: Node<S, D>, m: Message<D>, b: Node<S, D>) {
    a.phase == Init(m.block) == b.phase && m.channel == Data && b.buffer == Push(a.buffer, m)
  }

  ghost predicate Stays<S, D>(a: Node<S, D>, b: Node<S, D>) {
    b.buffer == a.buffer && (b.phase == a.phase || (a.phase.Decoding? && b.phase == Halted(a.phase.n)))
  }

  ghost predicate TakesData<S, D>(a: Node<S, D>, b: Node<S, D>, extra: seq<Message<D>>) {
    var n := a.phase.n;
    && a.phase.Init? && b.phase == Decoding(n)
    && b.buffer == a.buffer - {n} && extra == Only(Data, Tag(n, Slot(a.buffer, n)))
  }

  ghost predicate TakesNext<S, D>(a: Node<S, D>, b: Node<S, D>, extra: seq<Message<D>>) {
    var k, next := a.phase.n + 1, Tag(a.phase.n + 1, Slot(a.buffer, a.phase.n + 1));
    && a.phase.Decoding? && b.phase == Init(k)
    && b.buffer == a.buffer - {k} && extra == Only(Announce, next) + Only(Data, next)
  }

  lemma HandleMoves<S(!new), D(!new), E, R>(p: Protocol<S, D, E, R>, a: Node<S, D>, m: Message<D>)
      returns (fate: Fate)
    requires !a.phase.Halted?
    ensures Moves(a, m, Handle(p, a, m).0, Handle(p, a, m).1, fate)
  {
    var v := Decide(p, a.protocol, a.phase, a.forwarded, m);
    fate := if v.fate.Some? then v.fate.value else Ignored;
  }

  lemma MovesTidy<S, D>(a: Node<S, D>, m: Message<D>, b: Node<S, D>, extra: seq<Message<D>>, fate: Fate)
    requires !a.phase.Halted? && Tidy(a) && m.block <= a.phase.n && Moves(a, m, b, extra, fate)
    ensures Tidy(b) && b.left == [] && a.phase.n <= b.phase.n && NotAhead(b.phase.n, extra)
  {
    var n := a.phase.n;
    if b.log == a.log {
    } else if TakesData(a, b, extra) {
      OnlySmaller(Data, Tag(n, Slot(a.buffer, n)));
    } else if TakesNext(a, b, extra) {
      OnlySmaller(Announce, Tag(n + 1, Slot(a.buffer, n + 1)));
      OnlySmaller(Data, Tag(n + 1, Slot(a.buffer, n + 1)));
    }
  }

  /** One message keeps the buffer tidy: while decoding `n` its key is absent, while awaiting
      `n` it holds only data, and no key lies below. */
  lemma HandleTidy<S(!new), D(!new), E, R>(p: Protocol<S, D, E, R>, a: Node<S, D>, m: Message<D>)
    requires !a.phase.Halted? && Tidy(a) && m.block <= a.phase.n
    ensures var (b, extra) := Handle(p, a, m);
      Tidy(b) && b.left == [] && a.phase.n <= b.phase.n && NotAhead(b.phase.n, extra)
  {
    var fate := HandleMoves(p, a, m);
    MovesTidy(a, m, Handle(p, a, m).0, Handle(p, a, m).1, fate);
  }

  lemma HandleKeeps<S(!new), D(!new), E, R>(p: Protocol<S, D, E, R>, g: Gauge<S>, a: Node<S, D>, m: Message<D>)
    requires Conforms(p, g) && Inv(p, g, a) && !a.phase.Halted? && m.block <= a.phase.n
    ensures Inv(p, g, Handle(p, a, m).0)
  {
    var v, b := Decide(p, a.protocol, a.phase, a.forwarded, m), Handle(p, a, m).0;
    HandleTidy(p, a, m);
    HandleCarries(p, a, m);
    DecideJudged(p, g, a.protocol, a.phase, a.forwarded, m);
    InOrderKept(p, g, a, m, v, b);
    RankedKept(p, g, a, m, v, b);
    RationedKept(p, g, a, m, v, b);
    CallsKept(p, g, a, m, v, b);
  }

  // ---------- nothing is lost ----------

  /** Everything consumed or waiting. */
  ghost function Kept<S, D>(a: Node<S, D>): multiset<Message<D>> {
    Consumed(a.log) + Held(a.buffer)
  }

  lemma ConsumeKept<S, D>(a: Node<S, D>, b: Node<S, D>, e: Entry<D>)
    requires b.log == a.log + [e] && b.buffer == a.buffer
    ensures Kept(b) == Kept(a) + multiset{e.message}
  {
    Logged(a.log, e, 0);
  }

  lemma TakeKept<S, D>(a: Node<S, D>, b: Node<S, D>, e: Entry<D>, k: nat, extra: seq<Message<D>>)
    requires b.log == a.log + [e] && b.buffer == a.buffer - {k}
      && multiset(extra) == multiset(Tag(k, Slot(a.buffer, k)))
    ensures Kept(b) + multiset(extra) == Kept(a) + multiset{e.message}
  {
    Logged(a.log, e, 0);
    HeldTake(a.buffer, k);
    Moved(Consumed(a.log), Held(a.buffer), Held(b.buffer), multiset(extra), multiset{e.message});
  }

  lemma Moved<T>(log: multiset<T>, held: multiset<T>, left: multiset<T>, extra: multiset<T>, m: multiset<T>)
    requires held == left + extra
    ensures (log + m) + left + extra == log + held + m
  {
  }

  lemma PushKept<S, D>(a: Node<S, D>, b: Node<S, D>, m: Message<D>)
    requires b.log == a.log && b.buffer == Push(a.buffer, m)
    ensures Kept(b) == Kept(a) + multiset{m}
  {
    HeldPush(a.buffer, m);
  }

  lemma DataTaken<S, D>(a: Node<S, D>)
    requires Tidy(a) && a.phase.Init?
    ensures var t := Tag(a.phase.n, Slot(a.buffer, a.phase.n)); Only(Data, t) == t
  {
    OnlyAll(Data, Tag(a.phase.n, Slot(a.buffer, a.phase.n)));
  }

  lemma MovesConserve<S, D>(a: Node<S, D>, m: Message<D>, b: Node<S, D>, extra: seq<Message<D>>, fate: Fate)
    requires Tidy(a) && !a.phase.Halted? && Moves(a, m, b, extra, fate)
    ensures Kept(b) + multiset(extra) == Kept(a) + multiset{m}
  {
    var e := Entry(m, fate);
    if b.log == a.log {
      PushKept(a, b, m);
      NothingMore(Kept(b), extra);
    } else if Stays(a, b) && extra == [] {
      ConsumeKept(a, b, e);
      NothingMore(Kept(b), extra);
    } else if TakesData(a, b, extra) {
      DataTaken(a);
      TakeKept(a, b, e, a.phase.n, extra);
    } else {
      NextTaken(a.buffer, a.phase.n + 1, extra);
      TakeKept(a, b, e, a.phase.n + 1, extra);
    }
  }

  lemma NothingMore<T>(kept: multiset<T>, extra: seq<T>)
    requires extra == []
    ensures kept + multiset(extra) == kept
  {
  }

  lemma NextTaken<D>(buffer: map<nat, seq<(Channel, D)>>, k: nat, extra: seq<Message<D>>)
    requires var next := Tag(k, Slot(buffer, k)); extra == Only(Announce, next) + Only(Data, next)
    ensures multiset(extra) == multiset(Tag(k, Slot(buffer, k)))
  {
    OnlySplits(Tag(k, Slot(buffer, k)));
  }

  /** A message is never lost: it is logged, buffered or queued, exactly once. */
  lemma HandleConserves<S(!new), D(!new), E, R>(p: Protocol<S, D, E, R>, a: Node<S, D>, m: Message<D>)
    requires Tidy(a) && !a.phase.Halted?
    ensures Kept(Handle(p, a, m).0) + multiset(Handle(p, a, m).1) == Kept(a) + multiset{m}
  {
    var fate := HandleMoves(p, a, m);
    MovesConserve(a, m, Handle(p, a, m).0, Handle(p, a, m).1, fate);
  }

  // ---------- the work loop and whole runs ----------

  /** One turn of the work loop neither adds nor loses a message. */
  lemma TurnConserves<S(!new), D(!new), E, R>(p: Protocol<S, D, E, R>, a: Node<S, D>, work: seq<Message<D>>)
    requires Tidy(a) && !a.phase.Halted? && work != []
    ensures var (b, extra) := Handle(p, a, work[0]); Kept(b) + multiset(work[1..] + extra) == Kept(a) + multiset(work)
  {
    HandleConserves(p, a, work[0]);
    Ledger(work, Handle(p, a, work[0]).1, Kept(a), Kept(Handle(p, a, work[0]).0));
  }

  lemma Ledger<T>(work: seq<T>, extra: seq<T>, ka: multiset<T>, kb: multiset<T>)
    requires work != [] && kb + multiset(extra) == ka + multiset{work[0]}
    ensures kb + multiset(work[1..] + extra) == ka + multiset(work)
  {
    assert work == [work[0]] + work[1..];
    forall x ensures (kb + multiset(work[1..] + extra))[x] == (ka + multiset(work))[x] {
      assert (kb + multiset(extra))[x] == (ka + multiset{work[0]})[x];
    }
  }

  lemma {:induction false} DrainTidy<S(!new), D(!new), E, R>(p: Protocol<S, D, E, R>, a: Node<S, D>,
      work: seq<Message<D>>)
    requires Tidy(a) && NotAhead(a.phase.n, work)
    ensures Tidy(Drain(p, a, work))
    decreases |Held(a.buffer)| + |work|, |work|
  {
    if !a.phase.Halted? && work != [] {
      var (b, extra) := Handle(p, a, work[0]);
      HandleShrinks(p, a, work[0]);
      HandleTidy(p, a, work[0]);
      DrainTidy(p, b, work[1..] + extra);
    }
  }

  /** Everything consumed, waiting, or in the work queue a panic left behind. */
  ghost function Whole<S, D>(a: Node<S, D>): multiset<Message<D>> {
    Kept(a) + multiset(a.left)
  }

  /** Whatever the protocol does, processing the queue loses no message. */
  lemma {:induction false} DrainConserves<S(!new), D(!new), E, R>(p: Protocol<S, D, E, R>, a: Node<S, D>,
      work: seq<Message<D>>)
    requires Tidy(a) && a.left == [] && NotAhead(a.phase.n, work)
    ensures Whole(Drain(p, a, work)) == Kept(a) + multiset(work)
    decreases |Held(a.buffer)| + |work|, |work|
  {
    if !a.phase.Halted? && work != [] {
      var (b, extra) := Handle(p, a, work[0]);
      HandleShrinks(p, a, work[0]);
      HandleTidy(p, a, work[0]);
      TurnConserves(p, a, work);
      DrainConserves(p, b, work[1..] + extra);
    }
  }

  lemma {:induction false} DrainKeeps<S(!new), D(!new), E, R>(p: Protocol<S, D, E, R>, g: Gauge<S>, a: Node<S, D>,
      work: seq<Message<D>>)
    requires Conforms(p, g) && Inv(p, g, a) && NotAhead(a.phase.n, work)
    ensures Inv(p, g, Drain(p, a, work))
    decreases |Held(a.buffer)| + |work|, |work|
  {
    if !a.phase.Halted? && work != [] {
      var (b, extra) := Handle(p, a, work[0]);
      HandleShrinks(p, a, work[0]);
      HandleTidy(p, a, work[0]);
      HandleKeeps(p, g, a, work[0]);
      DrainKeeps(p, g, b, work[1..] + extra);
    }
  }

  lemma RouteTidy<S(!new), D(!new), E, R>(p: Protocol<S, D, E, R>, a: Node<S, D>, m: Message<D>)
    requires Tidy(a)
    ensures Tidy(Route(p, a, m))
  {
    if a.phase.Halted? {
    } else if m.block > a.phase.n {
      assert Slot(Push(a.buffer, m), a.phase.n) == Slot(a.buffer, a.phase.n);
    } else if m.block == a.phase.n {
      DrainTidy(p, a, [m]);
    }
  }

  lemma RouteConserves<S(!new), D(!new), E, R>(p: Protocol<S, D, E, R>, a: Node<S, D>, m: Message<D>)
    requires Tidy(a)
    ensures Whole(Route(p, a, m)) == Whole(a) + if a.phase.Halted? then multiset{} else multiset{m}
  {
    if a.phase.Halted? {
    } else if m.block < a.phase.n {
      ConsumeKept(a, Route(p, a, m), Entry(m, Stale));
    } else if m.block > a.phase.n {
      PushKept(a, Route(p, a, m), m);
    } else {
      DrainConserves(p, a, [m]);
    }
  }

  lemma StaleKept<S(!new), D(!new), E, R>(p: Protocol<S, D, E, R>, g: Gauge<S>, a: Node<S, D>, m: Message<D>,
      b: Node<S, D>)
    requires Inv(p, g, a) && m.block < a.phase.n && b == a.(log := a.log + [Entry(m, Stale)])
    ensures Inv(p, g, b)
  {
    forall k: nat { Logged(a.log, Entry(m, Stale), k); }
  }

  lemma BufferedKept<S(!new), D(!new), E, R>(p: Protocol<S, D, E, R>, g: Gauge<S>, a: Node<S, D>, m: Message<D>,
      b: Node<S, D>)
    requires Inv(p, g, a) && Tidy(b) && b == a.(buffer := Push(a.buffer, m))
    ensures Inv(p, g, b)
  {
  }

  lemma RouteKeeps<S(!new), D(!new), E, R>(p: Protocol<S, D, E, R>, g: Gauge<S>, a: Node<S, D>, m: Message<D>)
    requires Conforms(p, g) && Inv(p, g, a)
    ensures Inv(p, g, Route(p, a, m))
  {
    RouteTidy(p, a, m);
    if a.phase.Halted? {
    } else if m.block < a.phase.n {
      StaleKept(p, g, a, m, Route(p, a, m));
    } else if m.block > a.phase.n {
      BufferedKept(p, g, a, m, Route(p, a, m));
    } else if m.block == a.phase.n {
      DrainKeeps(p, g, a, [m]);
    }
  }

  lemma HeardOneMore<T>(msgs: seq<T>, before: multiset<T>, after: multiset<T>, halted: bool, h: nat, k: nat)
    requires 0 < k <= |msgs| && h <= k - 1 && before == multiset(msgs[..h]) && (!halted ==> h == k - 1)
    requires after == before + if halted then multiset{} else multiset{msgs[k - 1]}
    ensures after == multiset(msgs[..if halted then h else k])
  {
    assert msgs[..k] == msgs[..k - 1] + [msgs[k - 1]];
  }

  /** Nothing is lost over any run: the messages received, all of them unless the actor
      halts, are exactly those logged, those buffered and, after a panic, those left in the
      work queue; only messages for blocks not yet decoded are buffered. */
  lemma {:induction false} RunConserves<S(!new), D(!new), E, R>(p: Protocol<S, D, E, R>, start: S,
      msgs: seq<Message<D>>, k: nat)
    requires k <= |msgs|
    ensures var a := Received(p, start, msgs, k); Tidy(a) && Whole(a) == multiset(msgs[..Heard(p, start, msgs, k)])
  {
    if k == 0 {
      HeldNothing(Received(p, start, msgs, k).buffer);
    } else {
      RunConserves(p, start, msgs, k - 1);
      var a, b := Received(p, start, msgs, k - 1), Received(p, start, msgs, k);
      RouteTidy(p, a, msgs[k - 1]);
      RouteConserves(p, a, msgs[k - 1]);
      HeardOneMore(msgs, Whole(a), Whole(b), a.phase.Halted?, Heard(p, start, msgs, k - 1), k);
    }
  }

  lemma HeldNothing<D>(buffer: map<nat, seq<(Channel, D)>>)
    requires buffer == map[]
    ensures Held(buffer) == multiset{}
  {
    HeldAny(buffer, 0, Top(buffer));
  }

  /** Every run of the actor, over any messages in any order, up to a panic if there is one:
      blocks are decoded in order, each once, from exactly `bound` useful packets and with its
      quota of batches, and the protocol is only ever asked what it can answer. */
  lemma {:induction false} RunKeeps<S(!new), D(!new), E, R>(p: Protocol<S, D, E, R>, g: Gauge<S>, start: S,
      msgs: seq<Message<D>>, k: nat)
    requires Conforms(p, g) && g.ok(start) && g.rank(start) == 0 && k <= |msgs|
    ensures Inv(p, g, Received(p, start, msgs, k))
  {
    if k > 0 {
      RunKeeps(p, g, start, msgs, k - 1);
      RouteKeeps(p, g, Received(p, start, msgs, k - 1), msgs[k - 1]);
    }
  }
}
