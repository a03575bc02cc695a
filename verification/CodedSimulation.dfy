/** The coded strategies inside the simulator
    (crates/strategy/bfkw/src/strategy.rs, crates/strategy/pedersen/src/strategy.rs). */
module CodedSimulation {
  import opened Algebra
  import opened Span
  import opened StrategyCore
  import opened Coding
  import opened Integrity
  import opened Network
  import opened Engine
  import opened Simulation
  import opened Topology
  import opened Flooding
  import opened Traffic
  import Bfkw
  import Pedersen

  /** Random mixing coefficients: as many as asked for, otherwise arbitrary. */
  ghost predicate Draws<F(!new)>(alphas: (nat, nat, nat) -> seq<F>) {
    forall draw: nat, i: nat, count: nat {:trigger alphas(draw, i, count)} :: |alphas(draw, i, count)| == count
  }

  ghost function Coded<F(!new), P(!new), E>(net: Setting<F, P, E>, alphas: (nat, nat, nat) -> seq<F>,
      size: SignedPacket<F, P> -> nat): Strategy<Store<F, P>, SignedPacket<F, P>, E>
    requires Draws(alphas)
  {
    Strategy(UntilDecode, Store([], []),
             (s: Store<F, P>, pkt: SignedPacket<F, P>) =>
               (ReceiptOf(net.f, net.n, net.scheme, s, pkt), Receive(net.f, net.n, net.scheme, s, pkt)),
             (s: Store<F, P>) => |s.chunks| == net.n,
             (s: Store<F, P>, k: nat, draw: nat) =>
               seq(k, i requires 0 <= i < k =>
                 Recode(net.f, net.n, net.m, net.scheme, s, alphas(draw, i, |s.chunks|))),
             size)
  }

  ghost function CodedProgress<F(!new), P(!new), E>(net: Setting<F, P, E>): Progress<Store<F, P>, SignedPacket<F, P>> {
    Progress(net.n, (s: Store<F, P>) => |s.chunks|, (s: Store<F, P>) => HonestStore(net, s),
      (pkt: SignedPacket<F, P>) => Honest(net, pkt))
  }

  /** Coded strategies meet the simulator's expectations, so its termination bound and
      accounting hold for them. */
  lemma CodedLawful<F(!new), P(!new), E>(net: Setting<F, P, E>, alphas: (nat, nat, nat) -> seq<F>,
      size: SignedPacket<F, P> -> nat)
    requires net.IsSetting() && net.n >= 1 && Draws(alphas)
    ensures Lawful(Coded(net, alphas, size), CodedProgress(net))
  {
    var st, pr := Coded(net, alphas, size), CodedProgress(net);
    EmptyHonest(net);
    forall s: Store<F, P>, p: SignedPacket<F, P> | At(s, p) && pr.ok(s) && pr.okPacket(p)
      ensures var (receipt, s') := st.receive(s, p);
        pr.ok(s') && (receipt == Useful ==> pr.rank(s') == pr.rank(s) + 1) && (receipt != Useful ==> s' == s)
    {
      ReceiveHonest(net, s, p);
    }
    forall s: Store<F, P>, k: nat, draw: nat | pr.ok(s) && pr.rank(s) > 0
      ensures |st.forward(s, k, draw)| == k && forall i :: 0 <= i < k ==> pr.okPacket(st.forward(s, k, draw)[i])
    {
      forall i | 0 <= i < k ensures pr.okPacket(st.forward(s, k, draw)[i]) {
        RecodeHonest(net, s, alphas(draw, i, |s.chunks|));
      }
    }
  }

  /** What the proposer sends first: one coded packet per coefficient vector drawn. */
  ghost function Supply<F(!new), P(!new), E>(net: Setting<F, P, E>, bs: seq<seq<F>>): (s: seq<SignedPacket<F, P>>)
    requires |net.vs| == net.n && forall i :: 0 <= i < |bs| ==> |bs[i]| == net.n
    ensures |s| == |bs| && forall i :: 0 <= i < |s| ==> s[i].chunk.b == bs[i]
  {
    seq(|bs|, i requires 0 <= i < |bs| => SignedPacket(Encode(net.f, net.m, net.vs, bs[i]), net.sign(bs[i])))
  }

  lemma SupplyHonest<F(!new), P(!new), E>(net: Setting<F, P, E>, bs: seq<seq<F>>)
    requires net.IsSetting() && forall i :: 0 <= i < |bs| ==> |bs[i]| == net.n
    ensures forall i :: 0 <= i < |bs| ==> Honest(net, Supply(net, bs)[i])
  {
    forall i | 0 <= i < |bs| ensures Honest(net, Supply(net, bs)[i]) {
      ProposedHonest(net, bs[i]);
    }
  }

  /** A batch has one packet per peer, and packet `i` mixes data, coefficients and proofs with
      the `i`-th draw. */
  lemma CodedForwards<F(!new), P(!new), E>(net: Setting<F, P, E>, alphas: (nat, nat, nat) -> seq<F>,
      size: SignedPacket<F, P> -> nat, s: Store<F, P>, k: nat, draw: nat, i: nat)
    requires Draws(alphas) && i < k
    ensures var packets, a := Coded(net, alphas, size).forward(s, k, draw), alphas(draw, i, |s.chunks|);
      && |packets| == k && |a| == |s.chunks|
      && packets[i].chunk.w == Lin(Vec(net.f, net.m), a, Payloads(s.chunks), |a|)
      && packets[i].chunk.b == Lin(Vec(net.f, net.n), a, Coefficients(s.chunks), |a|)
      && packets[i].proof == net.scheme.combine(s.proofs, a)
  {
  }

  lemma CodedSupplies<F(!new), P(!new), E>(net: Setting<F, P, E>, alphas: (nat, nat, nat) -> seq<F>,
      size: SignedPacket<F, P> -> nat, cfg: Config<Store<F, P>, SignedPacket<F, P>, E>, bs: seq<seq<F>>)
    requires net.IsSetting() && net.n >= 1 && Draws(alphas) && cfg.strategy == Coded(net, alphas, size)
    requires |bs| == cfg.degree && forall i :: 0 <= i < |bs| ==> |bs[i]| == net.n
    ensures Lawful(cfg.strategy, CodedProgress(net)) && Supplies(cfg, CodedProgress(net), Supply(net, bs))
  {
    CodedLawful(net, alphas, size);
    SupplyHonest(net, bs);
  }

  /** Every run of a coded strategy, for every mesh, every draw of coefficients and every order
      of simultaneous events: at most `degree·(1 + n·(nodes − 1))` events are handled, in
      order of time, and no node decodes before its hop distance times what the fastest honest
      packet takes. At its end the accounting is exact, a node is marked decoded exactly when
      it holds `n` chunks, and then the proposer's chunks are the one answer its decoder has. */
  lemma CodedRun<F(!new), P(!new), E>(net: Setting<F, P, E>, alphas: (nat, nat, nat) -> seq<F>,
      size: SignedPacket<F, P> -> nat, cfg: Config<Store<F, P>, SignedPacket<F, P>, E>, proposer: Store<F, P>,
      bs: seq<seq<F>>, states: seq<Sim<Store<F, P>, SignedPacket<F, P>>>, picks: seq<Event<SignedPacket<F, P>>>)
    requires net.IsSetting() && net.n >= 1 && Draws(alphas) && cfg.Meshed()
      && cfg.strategy == Coded(net, alphas, size)
    requires |bs| == cfg.degree && forall i :: 0 <= i < |bs| ==> |bs[i]| == net.n
    requires IsRun(cfg, states, picks) && states[0] == Launch(cfg, proposer, Supply(net, bs), cfg.degree)
    ensures |picks| <= cfg.degree * (1 + net.n * (|cfg.mesh| - 1))
    ensures forall i :: 0 <= i < |picks| - 1 ==> picks[i].time <= picks[i + 1].time
    ensures NoneEarly(cfg, CodedProgress(net), states[|picks|].decodeTimes)
    ensures Finished(cfg, states, picks) ==> CodedReport(net, cfg, Report(states[|picks|]))
    ensures Finished(cfg, states, picks) ==>
      Report(states[|picks|]).redundant == SpannedOf(net, states, picks, |picks|)
  {
    CodedSupplies(net, alphas, size, cfg, bs);
    CodedRunFrom(net, cfg, proposer, Supply(net, bs), states, picks);
    if Finished(cfg, states, picks) { CodedRedundant(net, alphas, size, cfg, proposer, bs, states, picks); }
  }

  // ---------- redundant packets ----------

  /** The packet finds its node not yet decoded, and its coefficients in the node's span. */
  ghost predicate Spanned<F(!new), P(!new), E>(net: Setting<F, P, E>, s: Sim<Store<F, P>, SignedPacket<F, P>>,
      e: Event<SignedPacket<F, P>>)
  {
    Awaited(s, e) && e.to < |s.states|
      && InSpan(Vec(net.f, net.n), Coefficients(s.states[e.to].chunks), e.packet.chunk.b)
  }

  ghost function SpannedOf<F(!new), P(!new), E>(net: Setting<F, P, E>,
      states: seq<Sim<Store<F, P>, SignedPacket<F, P>>>, picks: seq<Event<SignedPacket<F, P>>>, k: nat): nat
    requires k <= |picks| && k <= |states|
  {
    if k == 0 then 0
    else SpannedOf(net, states, picks, k - 1) + if Spanned(net, states[k - 1], picks[k - 1]) then 1 else 0
  }

  /** Honest packets verify, so one that does not help brings nothing new. */
  lemma HelpsUnlessSpanned<F(!new), P(!new), E>(net: Setting<F, P, E>, alphas: (nat, nat, nat) -> seq<F>,
      size: SignedPacket<F, P> -> nat, cfg: Config<Store<F, P>, SignedPacket<F, P>, E>,
      s: Sim<Store<F, P>, SignedPacket<F, P>>, e: Event<SignedPacket<F, P>>)
    requires net.IsSetting() && Draws(alphas) && cfg.strategy == Coded(net, alphas, size)
    requires Consistent(cfg, CodedProgress(net), s) && e in s.queue
    ensures Awaited(s, e) ==> (Helps(cfg, s, e) <==> !Spanned(net, s, e))
  {
    if Awaited(s, e) { ReceiveHonest(net, s.states[e.to], e.packet); }
  }

  lemma PickSpanned<F(!new), P(!new), E>(net: Setting<F, P, E>, alphas: (nat, nat, nat) -> seq<F>,
      size: SignedPacket<F, P> -> nat, cfg: Config<Store<F, P>, SignedPacket<F, P>, E>,
      s: Sim<Store<F, P>, SignedPacket<F, P>>, clock: nat, room: int, e: Event<SignedPacket<F, P>>, draw: nat,
      r: Sim<Store<F, P>, SignedPacket<F, P>>)
    requires net.IsSetting() && Draws(alphas) && cfg.strategy == Coded(net, alphas, size)
    requires Holds(cfg, CodedProgress(net), s, clock, room) && Turns(cfg, s, e, draw, r)
    ensures Awaited(s, e) ==> (Helps(cfg, s, e) <==> !Spanned(net, s, e))
  {
    TurnIs(cfg, s, e, draw, r);
    HelpsUnlessSpanned(net, alphas, size, cfg, s, e);
  }

  lemma {:induction false} SpannedTally<F(!new), P(!new), E>(net: Setting<F, P, E>,
      cfg: Config<Store<F, P>, SignedPacket<F, P>, E>, states: seq<Sim<Store<F, P>, SignedPacket<F, P>>>,
      picks: seq<Event<SignedPacket<F, P>>>, k: nat)
    requires k <= |picks| && k <= |states|
    requires forall j :: 0 <= j < k ==>
      (Awaited(states[j], picks[j]) ==> (Helps(cfg, states[j], picks[j]) <==> !Spanned(net, states[j], picks[j])))
    ensures HelpfulOf(cfg, states, picks, k) + SpannedOf(net, states, picks, k) == AwaitedOf(states, picks, k)
  {
    if k > 0 { SpannedTally(net, cfg, states, picks, k - 1); }
  }

  lemma RunSpanned<F(!new), P(!new), E>(net: Setting<F, P, E>, alphas: (nat, nat, nat) -> seq<F>,
      size: SignedPacket<F, P> -> nat, cfg: Config<Store<F, P>, SignedPacket<F, P>, E>,
      states: seq<Sim<Store<F, P>, SignedPacket<F, P>>>, picks: seq<Event<SignedPacket<F, P>>>, room: int, k: nat)
    requires net.IsSetting() && Draws(alphas) && cfg.strategy == Coded(net, alphas, size)
    requires Lawful(cfg.strategy, CodedProgress(net)) && IsRun(cfg, states, picks)
      && Holds(cfg, CodedProgress(net), states[0], 0, room) && k < |picks|
    ensures var s, e := states[k], picks[k]; Awaited(s, e) ==> (Helps(cfg, s, e) <==> !Spanned(net, s, e))
  {
    RunHolds(cfg, CodedProgress(net), states, picks, k, room);
    PickSpanned(net, alphas, size, cfg, states[k], Clock(picks, k), room - k, picks[k], k, states[k + 1]);
  }

  lemma RunTally<F(!new), P(!new), E>(net: Setting<F, P, E>, alphas: (nat, nat, nat) -> seq<F>,
      size: SignedPacket<F, P> -> nat, cfg: Config<Store<F, P>, SignedPacket<F, P>, E>,
      states: seq<Sim<Store<F, P>, SignedPacket<F, P>>>, picks: seq<Event<SignedPacket<F, P>>>, room: int)
    requires net.IsSetting() && Draws(alphas) && cfg.strategy == Coded(net, alphas, size)
    requires Lawful(cfg.strategy, CodedProgress(net)) && IsRun(cfg, states, picks)
      && Holds(cfg, CodedProgress(net), states[0], 0, room)
    ensures HelpfulOf(cfg, states, picks, |picks|) + SpannedOf(net, states, picks, |picks|)
      == AwaitedOf(states, picks, |picks|)
  {
    forall k | 0 <= k < |picks|
      ensures Awaited(states[k], picks[k]) ==>
        (Helps(cfg, states[k], picks[k]) <==> !Spanned(net, states[k], picks[k]))
    {
      RunSpanned(net, alphas, size, cfg, states, picks, room, k);
    }
    SpannedTally(net, cfg, states, picks, |picks|);
  }

  /** Redundant packets are exactly those that bring coefficients a node already spans. */
  lemma CodedRedundant<F(!new), P(!new), E>(net: Setting<F, P, E>, alphas: (nat, nat, nat) -> seq<F>,
      size: SignedPacket<F, P> -> nat, cfg: Config<Store<F, P>, SignedPacket<F, P>, E>, proposer: Store<F, P>,
      bs: seq<seq<F>>, states: seq<Sim<Store<F, P>, SignedPacket<F, P>>>, picks: seq<Event<SignedPacket<F, P>>>)
    requires net.IsSetting() && net.n >= 1 && Draws(alphas) && cfg.Meshed()
      && cfg.strategy == Coded(net, alphas, size)
    requires |bs| == cfg.degree && forall i :: 0 <= i < |bs| ==> |bs[i]| == net.n
    requires Finished(cfg, states, picks) && states[0] == Launch(cfg, proposer, Supply(net, bs), cfg.degree)
    ensures Report(states[|picks|]).redundant == SpannedOf(net, states, picks, |picks|)
  {
    CodedSupplies(net, alphas, size, cfg, bs);
    LaunchHolds(cfg, CodedProgress(net), proposer, Supply(net, bs));
    RunTally(net, alphas, size, cfg, states, picks, Budget(cfg, CodedProgress(net)));
    RunReports(cfg, CodedProgress(net), proposer, Supply(net, bs), states, picks);
  }

  lemma CodedRunFrom<F(!new), P(!new), E>(net: Setting<F, P, E>, cfg: Config<Store<F, P>, SignedPacket<F, P>, E>,
      proposer: Store<F, P>, packets: seq<SignedPacket<F, P>>, states: seq<Sim<Store<F, P>, SignedPacket<F, P>>>,
      picks: seq<Event<SignedPacket<F, P>>>)
    requires net.IsSetting() && cfg.Meshed() && cfg.strategy.cond == UntilDecode
    requires Lawful(cfg.strategy, CodedProgress(net)) && Supplies(cfg, CodedProgress(net), packets)
    requires IsRun(cfg, states, picks) && states[0] == Launch(cfg, proposer, packets, cfg.degree)
    ensures |picks| <= cfg.degree * (1 + net.n * (|cfg.mesh| - 1))
    ensures forall i :: 0 <= i < |picks| - 1 ==> picks[i].time <= picks[i + 1].time
    ensures NoneEarly(cfg, CodedProgress(net), states[|picks|].decodeTimes)
    ensures Finished(cfg, states, picks) ==> CodedReport(net, cfg, Report(states[|picks|]))
  {
    RunPaces(cfg, CodedProgress(net), proposer, packets, states, picks);
    if Finished(cfg, states, picks) {
      CodedEnd(net, cfg, proposer, packets, states, picks);
    }
  }

  lemma CodedEnd<F(!new), P(!new), E>(net: Setting<F, P, E>, cfg: Config<Store<F, P>, SignedPacket<F, P>, E>,
      proposer: Store<F, P>, packets: seq<SignedPacket<F, P>>, states: seq<Sim<Store<F, P>, SignedPacket<F, P>>>,
      picks: seq<Event<SignedPacket<F, P>>>)
    requires net.IsSetting() && cfg.Meshed() && cfg.strategy.cond == UntilDecode
    requires Lawful(cfg.strategy, CodedProgress(net)) && Supplies(cfg, CodedProgress(net), packets)
    requires Finished(cfg, states, picks) && states[0] == Launch(cfg, proposer, packets, cfg.degree)
    ensures CodedReport(net, cfg, Report(states[|picks|]))
  {
    RunReports(cfg, CodedProgress(net), proposer, packets, states, picks);
    SettledDecodes(net, cfg, Report(states[|picks|]));
  }

  /** Bytes conserved, packets counted, and decoding exactly at full rank with the proposer's
      chunks as the only answer. */
  ghost predicate CodedReport<F(!new), P(!new), E>(net: Setting<F, P, E>,
      cfg: Config<Store<F, P>, SignedPacket<F, P>, E>, m: Metrics<Store<F, P>>)
  {
    && |m.states| == |m.decodeTimes| == |cfg.mesh|
    && m.totalBytes == Sum(m.upload) == Sum(m.download)
    && m.total == cfg.degree * (1 + m.useful) && m.useful <= net.n * (|cfg.mesh| - 1)
      && m.useful + m.redundant <= m.total
    && forall v :: 0 < v < |cfg.mesh| ==>
        && (m.decodeTimes[v].Some? <==> |m.states[v].chunks| == net.n)
        && |m.states[v].proofs| == |m.states[v].chunks|
        && (m.decodeTimes[v].Some? ==>
              forall decoded :: Solves(net.f, net.n, net.m, decoded, m.states[v].chunks) <==> decoded == net.vs)
  }

  lemma SettledDecodes<F(!new), P(!new), E>(net: Setting<F, P, E>, cfg: Config<Store<F, P>, SignedPacket<F, P>, E>,
      m: Metrics<Store<F, P>>)
    requires net.IsSetting() && cfg.strategy.cond == UntilDecode
    requires Accounted(cfg, CodedProgress(net), m) && Settled(cfg, CodedProgress(net), m)
    ensures CodedReport(net, cfg, m)
  {
    forall v, decoded | 0 < v < |cfg.mesh| && m.decodeTimes[v].Some?
      ensures Solves(net.f, net.n, net.m, decoded, m.states[v].chunks) <==> decoded == net.vs
    {
      assert HonestStore(net, m.states[v]) && |m.states[v].chunks| == net.n;
      if Solves(net.f, net.n, net.m, decoded, m.states[v].chunks) {
        SolutionUnique(net.f, net.n, net.m, decoded, net.vs, m.states[v].chunks);
      }
    }
  }

  /** Such runs exist: from any start the loop reaches the end of one. */
  lemma CodedRunExists<F(!new), P(!new), E>(net: Setting<F, P, E>, alphas: (nat, nat, nat) -> seq<F>,
      size: SignedPacket<F, P> -> nat, cfg: Config<Store<F, P>, SignedPacket<F, P>, E>, proposer: Store<F, P>,
      bs: seq<seq<F>>)
    returns (states: seq<Sim<Store<F, P>, SignedPacket<F, P>>>, picks: seq<Event<SignedPacket<F, P>>>)
    requires net.IsSetting() && net.n >= 1 && Draws(alphas) && cfg.Meshed()
      && cfg.strategy == Coded(net, alphas, size)
    requires |bs| == cfg.degree && forall i :: 0 <= i < |bs| ==> |bs[i]| == net.n
    ensures Finished(cfg, states, picks) && states[0] == Launch(cfg, proposer, Supply(net, bs), cfg.degree)
  {
    CodedLawful(net, alphas, size);
    SupplyHonest(net, bs);
    var start := Launch(cfg, proposer, Supply(net, bs), cfg.degree);
    LaunchHolds(cfg, CodedProgress(net), proposer, Supply(net, bs));
    states, picks := RunFinishes(cfg, CodedProgress(net), [start], [], Budget(cfg, CodedProgress(net)));
  }

  // ---------- the two schemes as settings ----------

  /** The block `vs` sent under BFKW with secret key `sk`. */
  ghost function BfkwSetting<F(!new), G1(!new), G2(!new), GT(!new)>(pg: Bfkw.Pairing<F, G1, G2, GT>, points: seq<G2>,
      sk: F, m: nat, vs: seq<seq<F>>): Setting<F, G2, Bfkw.BfkwError>
    requires |points| == m + |vs| && AllIn(Vec(pg.g2.f, m), vs)
  {
    var ctx := Bfkw.Context(points, pg.g1.Scale(sk, pg.gen));
    Setting(pg.g2.f, |vs|, m, vs, Bfkw.BfkwScheme(pg, ctx),
            (b: seq<F>) => Bfkw.SignCoded(pg.g2, sk, points, m, vs, b),
            (c: CodedChunk<F>, p: G2) => Bfkw.Signed(pg.g2, sk, points, c, p))
  }

  lemma BfkwIsSetting<F(!new), G1(!new), G2(!new), GT(!new)>(pg: Bfkw.Pairing<F, G1, G2, GT>, points: seq<G2>, sk: F,
      m: nat, vs: seq<seq<F>>)
    requires pg.IsPairing() && |points| == m + |vs| && AllIn(Vec(pg.g2.f, m), vs)
    ensures BfkwSetting(pg, points, sk, m, vs).IsSetting()
  {
    var net := BfkwSetting(pg, points, sk, m, vs);
    Bfkw.BfkwMixSafe(pg, Bfkw.Context(points, pg.g1.Scale(sk, pg.gen)), sk, |vs|, m);
    forall b: seq<F> | |b| == net.n ensures net.genuine(Encode(net.f, m, vs, b), net.sign(b)) {
      Bfkw.SignCodedSigned(pg.g2, sk, points, m, vs, b);
    }
  }

  /** The block `vs` sent under Pedersen commitments. */
  ghost function PedersenSetting<F(!new), G(!new), S(!new)>(g: Space<F, G>, signer: Pedersen.Signer<G, S>,
      key: seq<G>, vs: seq<seq<F>>): Setting<F, Pedersen.PedersenProof<G, S>, Pedersen.PedersenError>
    requires AllIn(Vec(g.f, |key|), vs)
  {
    var proof := Pedersen.SignBlock(g, signer, key, vs);
    Setting(g.f, |vs|, |key|, vs, Pedersen.PedersenScheme(g, signer, key, proof), (b: seq<F>) => proof,
            (c: CodedChunk<F>, p: Pedersen.PedersenProof<G, S>) => p == proof
              && Pedersen.Matches(g, key, proof.commitments, c))
  }

  lemma PedersenIsSetting<F(!new), G(!new), S(!new)>(g: Space<F, G>, signer: Pedersen.Signer<G, S>, key: seq<G>,
      vs: seq<seq<F>>)
    requires g.IsSpace() && AllIn(g, key) && signer.Correct() && AllIn(Vec(g.f, |key|), vs)
    ensures PedersenSetting(g, signer, key, vs).IsSetting()
  {
    var net := PedersenSetting(g, signer, key, vs);
    var proof := Pedersen.SignBlock(g, signer, key, vs);
    forall i | 0 <= i < |vs| ensures g.Has(proof.commitments[i]) { LinIn(g, vs[i], key, |key|); }
    Pedersen.PedersenMixSafe(g, signer, key, proof, |vs|);
    forall b: seq<F> | |b| == net.n ensures net.genuine(Encode(net.f, net.m, vs, b), net.sign(b)) {
      Pedersen.EncodedMatches(g, key, vs, proof.commitments, b);
    }
  }

  // ---------- the two schemes in the simulator ----------

  /** A whole BFKW run, packets being of one size: bytes sent are that size times
      `degree·(1 + useful)`, and every decoded node has the proposer's chunks. */
  lemma BfkwRun<F(!new), G1(!new), G2(!new), GT(!new)>(pg: Bfkw.Pairing<F, G1, G2, GT>, points: seq<G2>, sk: F,
      m: nat, vs: seq<seq<F>>, alphas: (nat, nat, nat) -> seq<F>, bytes: nat,
      cfg: Config<Store<F, G2>, SignedPacket<F, G2>, Bfkw.BfkwError>, proposer: Store<F, G2>, bs: seq<seq<F>>,
      states: seq<Sim<Store<F, G2>, SignedPacket<F, G2>>>, picks: seq<Event<SignedPacket<F, G2>>>)
    requires pg.IsPairing() && |points| == m + |vs| && AllIn(Vec(pg.g2.f, m), vs) && |vs| >= 1 && Draws(alphas)
      && cfg.Meshed()
    requires cfg.strategy == Coded(BfkwSetting(pg, points, sk, m, vs), alphas, _ => bytes)
    requires |bs| == cfg.degree && forall i :: 0 <= i < |bs| ==> |bs[i]| == |vs|
    requires Finished(cfg, states, picks)
      && states[0] == Launch(cfg, proposer, Supply(BfkwSetting(pg, points, sk, m, vs), bs), cfg.degree)
    ensures CodedReport(BfkwSetting(pg, points, sk, m, vs), cfg, Report(states[|picks|]))
    ensures Report(states[|picks|]).redundant == SpannedOf(BfkwSetting(pg, points, sk, m, vs), states, picks, |picks|)
    ensures var r := Report(states[|picks|]); r.totalBytes == bytes * (cfg.degree * (1 + r.useful))
    ensures Carries(cfg, CodedProgress(BfkwSetting(pg, points, sk, m, vs)), states[|picks|], bytes)
    ensures var times := states[|picks|].decodeTimes;
      forall v: nat, h: nat :: IsDistance(cfg.mesh, v, h) && v < |times| && times[v].Some? ==>
        h * cfg.delay(bytes) <= times[v].value
  {
    var net := BfkwSetting(pg, points, sk, m, vs);
    BfkwIsSetting(pg, points, sk, m, vs);
    CodedRun(net, alphas, _ => bytes, cfg, proposer, bs, states, picks);
    CodedBytes(net, alphas, bytes, cfg, proposer, bs, states, picks);
  }

  type PedersenStore<F, G(!new), S> = Store<F, Pedersen.PedersenProof<G, S>>

  type PedersenPacket<F, G(!new), S> = SignedPacket<F, Pedersen.PedersenProof<G, S>>

  /** The same for Pedersen commitments. */
  lemma PedersenRun<F(!new), G(!new), S(!new)>(g: Space<F, G>, signer: Pedersen.Signer<G, S>, key: seq<G>,
      vs: seq<seq<F>>, alphas: (nat, nat, nat) -> seq<F>, bytes: nat,
      cfg: Config<PedersenStore<F, G, S>, PedersenPacket<F, G, S>, Pedersen.PedersenError>,
      proposer: PedersenStore<F, G, S>, bs: seq<seq<F>>,
      states: seq<Sim<PedersenStore<F, G, S>, PedersenPacket<F, G, S>>>,
      picks: seq<Event<PedersenPacket<F, G, S>>>)
    requires g.IsSpace() && AllIn(g, key) && signer.Correct() && AllIn(Vec(g.f, |key|), vs) && |vs| >= 1
      && Draws(alphas) && cfg.Meshed()
    requires cfg.strategy == Coded(PedersenSetting(g, signer, key, vs), alphas, _ => bytes)
    requires |bs| == cfg.degree && forall i :: 0 <= i < |bs| ==> |bs[i]| == |vs|
    requires Finished(cfg, states, picks)
      && states[0] == Launch(cfg, proposer, Supply(PedersenSetting(g, signer, key, vs), bs), cfg.degree)
    ensures CodedReport(PedersenSetting(g, signer, key, vs), cfg, Report(states[|picks|]))
    ensures Report(states[|picks|]).redundant == SpannedOf(PedersenSetting(g, signer, key, vs), states, picks, |picks|)
    ensures var r := Report(states[|picks|]); r.totalBytes == bytes * (cfg.degree * (1 + r.useful))
    ensures Carries(cfg, CodedProgress(PedersenSetting(g, signer, key, vs)), states[|picks|], bytes)
    ensures var times := states[|picks|].decodeTimes;
      forall v: nat, h: nat :: IsDistance(cfg.mesh, v, h) && v < |times| && times[v].Some? ==>
        h * cfg.delay(bytes) <= times[v].value
  {
    var net := PedersenSetting(g, signer, key, vs);
    PedersenIsSetting(g, signer, key, vs);
    CodedRun(net, alphas, _ => bytes, cfg, proposer, bs, states, picks);
    CodedBytes(net, alphas, bytes, cfg, proposer, bs, states, picks);
  }

  lemma CodedBytes<F(!new), P(!new), E>(net: Setting<F, P, E>, alphas: (nat, nat, nat) -> seq<F>, bytes: nat,
      cfg: Config<Store<F, P>, SignedPacket<F, P>, E>, proposer: Store<F, P>, bs: seq<seq<F>>,
      states: seq<Sim<Store<F, P>, SignedPacket<F, P>>>, picks: seq<Event<SignedPacket<F, P>>>)
    requires net.IsSetting() && net.n >= 1 && Draws(alphas) && cfg.Meshed()
      && cfg.strategy == Coded(net, alphas, _ => bytes)
    requires |bs| == cfg.degree && forall i :: 0 <= i < |bs| ==> |bs[i]| == net.n
    requires Finished(cfg, states, picks) && states[0] == Launch(cfg, proposer, Supply(net, bs), cfg.degree)
    ensures var r := Report(states[|picks|]); r.totalBytes == bytes * (cfg.degree * (1 + r.useful))
    ensures Carries(cfg, CodedProgress(net), states[|picks|], bytes)
    ensures var times := states[|picks|].decodeTimes;
      forall v: nat, h: nat :: IsDistance(cfg.mesh, v, h) && v < |times| && times[v].Some? ==>
        h * cfg.delay(bytes) <= times[v].value
  {
    CodedLawful(net, alphas, _ => bytes);
    SupplyHonest(net, bs);
    RunReports(cfg, CodedProgress(net), proposer, Supply(net, bs), states, picks);
    assert Uniform(cfg, CodedProgress(net), bytes);
    LaunchHolds(cfg, CodedProgress(net), proposer, Supply(net, bs));
    LaunchCarries(cfg, CodedProgress(net), proposer, Supply(net, bs), bytes);
    RunCarries(cfg, CodedProgress(net), states, picks, Budget(cfg, CodedProgress(net)), bytes, |picks|);
    assert Takes(cfg, CodedProgress(net), cfg.delay(bytes));
  }
}
