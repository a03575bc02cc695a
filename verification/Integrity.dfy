/** Integrity schemes and the shared receive/forward logic
    (crates/strategy/core/src/proof.rs, crates/strategy/core/src/helpers.rs). */
module Integrity {
  import opened Algebra
  import opened Span
  import opened Wrappers
  import opened Coding
  import opened StrategyCore

  /** A scheme for one block: its context is already applied to `verify`. */
  datatype Scheme<!F, !P, !E> = Scheme(verify: (CodedChunk<F>, P) -> Outcome<E>, combine: (seq<P>, seq<F>) -> P)

  datatype SignedPacket<F, P> = SignedPacket(chunk: CodedChunk<F>, proof: P)

  /** What a node holds for the current block: kept chunks and one proof for each. */
  datatype Store<F, P> = Store(chunks: seq<CodedChunk<F>>, proofs: seq<P>)

  // ---------- receive and forward ----------

  ghost function ReceiptOf<F(!new), P, E>(f: Field<F>, n: nat, scheme: Scheme<F, P, E>, s: Store<F, P>,
      pkt: SignedPacket<F, P>): Receipt<E>
  {
    match scheme.verify(pkt.chunk, pkt.proof)
    case Fail(e) => Rejected(e)
    case Pass => if InSpan(Vec(f, n), Coefficients(s.chunks), pkt.chunk.b) then Redundant else Useful
  }

  ghost function Receive<F(!new), P, E>(f: Field<F>, n: nat, scheme: Scheme<F, P, E>, s: Store<F, P>,
      pkt: SignedPacket<F, P>): Store<F, P>
  {
    if ReceiptOf(f, n, scheme, s, pkt) == Useful then Store(s.chunks + [pkt.chunk], s.proofs + [pkt.proof]) else s
  }

  /** One forwarded packet: the same alphas mix data, coefficients and proofs. */
  function Recode<F(!new), P, E>(f: Field<F>, n: nat, m: nat, scheme: Scheme<F, P, E>, s: Store<F, P>,
      alphas: seq<F>): SignedPacket<F, P>
    requires |alphas| == |s.chunks|
  {
    SignedPacket(Mix(f, n, m, s.chunks, alphas), scheme.combine(s.proofs, alphas))
  }

  method CodedReceive<F(!new, ==), P, E>(decoder: BlockDecoder<F>, proofs: seq<P>, scheme: Scheme<F, P, E>,
      pkt: SignedPacket<F, P>)
    returns (receipt: Receipt<E>, newProofs: seq<P>)
    requires decoder.Valid() && |pkt.chunk.b| == decoder.n
    modifies decoder, decoder.echelon
    ensures decoder.Valid()
    ensures match scheme.verify(pkt.chunk, pkt.proof)
      case Fail(e) => receipt == Rejected(e)
      case Pass => receipt == if InSpan(Vec(decoder.field, decoder.n), Coefficients(old(decoder.codedChunks)),
        pkt.chunk.b) then Redundant else Useful
    ensures decoder.codedChunks == old(decoder.codedChunks) + (if receipt.Useful? then [pkt.chunk] else [])
    ensures newProofs == proofs + if receipt.Useful? then [pkt.proof] else []
    ensures var s := Store(old(decoder.codedChunks), proofs);
      && receipt == ReceiptOf(decoder.field, decoder.n, scheme, s, pkt)
      && Store(decoder.codedChunks, newProofs) == Receive(decoder.field, decoder.n, scheme, s, pkt)
  {
    newProofs := proofs;
    match scheme.verify(pkt.chunk, pkt.proof) {
      case Fail(e) =>
        receipt := Rejected(e);
      case Pass =>
        var added := decoder.Add(pkt.chunk);
        if added {
          newProofs := proofs + [pkt.proof];
          receipt := Useful;
        } else {
          receipt := Redundant;
        }
    }
  }

  /** One packet per peer, each with its own mixing coefficients `draws[i]`. */
  method CodedForward<F(!new, ==), P, E>(decoder: BlockDecoder<F>, proofs: seq<P>, scheme: Scheme<F, P, E>, m: nat,
      draws: seq<seq<F>>)
    returns (packets: seq<SignedPacket<F, P>>)
    requires decoder.Valid() && decoder.codedChunks != [] && Sized(decoder.n, m, decoder.codedChunks)
    requires forall i :: 0 <= i < |draws| ==> |draws[i]| == |decoder.codedChunks|
    ensures |packets| == |draws|
    ensures forall i :: 0 <= i < |draws| ==>
      packets[i] == Recode(decoder.field, decoder.n, m, scheme, Store(decoder.codedChunks, proofs), draws[i])
  {
    packets := [];
    for k := 0 to |draws|
      invariant |packets| == k
      invariant forall i :: 0 <= i < k ==>
        packets[i] == Recode(decoder.field, decoder.n, m, scheme, Store(decoder.codedChunks, proofs), draws[i])
    {
      var chunk := decoder.ReencodeWith(draws[k], m);
      packets := packets + [SignedPacket(chunk, scheme.combine(proofs, draws[k]))];
    }
  }

  // ---------- what a scheme owes the network ----------

  /** A class of packets that verify and stay in the class under mixing. */
  ghost predicate MixSafe<F(!new), P(!new), E>(f: Field<F>, n: nat, m: nat, scheme: Scheme<F, P, E>,
      genuine: (CodedChunk<F>, P) -> bool)
  {
    && (forall c, p {:trigger genuine(c, p)} :: genuine(c, p) ==> scheme.verify(c, p).Pass?)
    && (forall s: Store<F, P>, alphas: seq<F> {:trigger At2(s, alphas)} ::
          At2(s, alphas) && Stocked(n, m, genuine, s) && s.chunks != [] && |alphas| == |s.chunks| ==>
          genuine(Mix(f, n, m, s.chunks, alphas), scheme.combine(s.proofs, alphas)))
  }

  /** A store of genuine packets, proof by proof. */
  ghost predicate Stocked<F, P>(n: nat, m: nat, genuine: (CodedChunk<F>, P) -> bool, s: Store<F, P>) {
    && |s.proofs| == |s.chunks| && Sized(n, m, s.chunks)
    && forall i :: 0 <= i < |s.chunks| ==> genuine(s.chunks[i], s.proofs[i])
  }
}
