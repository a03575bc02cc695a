/** From a proposed block to the block every node decodes, over any network. */
module EndToEnd {
  import opened Wrappers
  import opened Algebra
  import opened Coding
  import opened Network
  import opened CodedSimulation
  import opened Wire
  import opened Blocks = Block
  import Bfkw
  import Pedersen

  /** In every reachable world, a node holding `n` chunks rebuilds exactly the proposer's
      block, whichever chunks its decoder comes up with. */
  lemma BlockDelivered<F(!new), P(!new), E>(net: Setting<F, P, E>, fc: ElementCodec<F>, lc: LengthCodec, block: Block,
      len: nat, size: nat, steps: seq<Step<F, P>>, node: nat, decoded: seq<seq<F>>)
    requires net.IsSetting() && Packs(fc) && lc.IsPrefix() && block.IsBlock()
      && |block.transactions| <= MAX_TRANSACTIONS_BYTES
    requires AsChunks(fc, lc, block, net.n, net.m) == Success((net.vs, len)) && node < size
    requires var chunks := After(net, size, steps, |steps|).nodes[node].chunks;
      |chunks| == net.n && Solves(net.f, net.n, net.m, decoded, chunks)
    ensures FromChunks(fc, lc, decoded, len) == Success(block)
  {
    Agreement(net, size, steps, node, decoded);
    ChunkRoundTrip(fc, lc, block, net.n, net.m);
  }

  /** The same for BFKW with the configured chunk dimension: nothing is left to assume of
      the block but its size. */
  lemma BfkwDelivers<F(!new), G1(!new), G2(!new), GT(!new)>(pg: Bfkw.Pairing<F, G1, G2, GT>, points: seq<G2>, sk: F,
      fc: ElementCodec<F>, lc: LengthCodec, block: Block, n: nat, size: nat, steps: seq<Step<F, G2>>, node: nat,
      decoded: seq<seq<F>>)
    requires pg.IsPairing() && Packs(fc) && lc.IsPrefix() && block.IsBlock()
      && |block.transactions| <= MAX_TRANSACTIONS_BYTES
    requires n > 0 && |points| == ComputeM(|block.transactions|, n) + n && node < size
    ensures var m := ComputeM(|block.transactions|, n);
      && AsChunks(fc, lc, block, n, m).Success?
      && var (vs, len) := AsChunks(fc, lc, block, n, m).value;
         var net := BfkwSetting(pg, points, sk, m, vs);
         var chunks := After(net, size, steps, |steps|).nodes[node].chunks;
         |chunks| == n && Solves(pg.g2.f, n, m, decoded, chunks) ==>
           FromChunks(fc, lc, decoded, len) == Success(block)
  {
    var m := ComputeM(|block.transactions|, n);
    ComputedCapacity(fc, lc, block, n);
    var (vs, len) := AsChunks(fc, lc, block, n, m).value;
    BfkwIsSetting(pg, points, sk, m, vs);
    var net := BfkwSetting(pg, points, sk, m, vs);
    var chunks := After(net, size, steps, |steps|).nodes[node].chunks;
    if |chunks| == n && Solves(pg.g2.f, n, m, decoded, chunks) {
      BlockDelivered(net, fc, lc, block, len, size, steps, node, decoded);
    }
  }

  /** And for Pedersen commitments. */
  lemma PedersenDelivers<F(!new), G(!new), S(!new)>(g: Space<F, G>, signer: Pedersen.Signer<G, S>, key: seq<G>,
      fc: ElementCodec<F>, lc: LengthCodec, block: Block, n: nat, size: nat,
      steps: seq<Step<F, Pedersen.PedersenProof<G, S>>>, node: nat, decoded: seq<seq<F>>)
    requires g.IsSpace() && AllIn(g, key) && signer.Correct()
    requires Packs(fc) && lc.IsPrefix() && block.IsBlock() && |block.transactions| <= MAX_TRANSACTIONS_BYTES
    requires n > 0 && |key| == ComputeM(|block.transactions|, n) && node < size
    ensures AsChunks(fc, lc, block, n, |key|).Success?
    ensures var (vs, len) := AsChunks(fc, lc, block, n, |key|).value;
      var net := PedersenSetting(g, signer, key, vs);
      var chunks := After(net, size, steps, |steps|).nodes[node].chunks;
      |chunks| == n && Solves(g.f, n, |key|, decoded, chunks) ==> FromChunks(fc, lc, decoded, len) == Success(block)
  {
    ComputedCapacity(fc, lc, block, n);
    var (vs, len) := AsChunks(fc, lc, block, n, |key|).value;
    PedersenIsSetting(g, signer, key, vs);
    var net := PedersenSetting(g, signer, key, vs);
    var chunks := After(net, size, steps, |steps|).nodes[node].chunks;
    if |chunks| == n && Solves(g.f, n, |key|, decoded, chunks) {
      BlockDelivered(net, fc, lc, block, len, size, steps, node, decoded);
    }
  }
}
