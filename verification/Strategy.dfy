/** What the simulator and the node actor know of a propagation strategy
    (crates/strategy/core/src/lib.rs). */
module StrategyCore {

  datatype ForwardCondition = AfterDecode | OneShot | UntilDecode

  /** `Ok(true)`, `Ok(false)` and `Err`. */
  datatype Receipt<E> = Useful | Redundant | Rejected(error: E)

  /** One block's propagation logic: `forward` takes the number of peers and the draw of
      the random generator it consumes. */
  datatype Strategy<!S(!new), !P(!new), !E> = Strategy(
    cond: ForwardCondition,
    initial: S,
    receive: (S, P) -> (Receipt<E>, S),
    canDecode: S -> bool,
    forward: (S, nat, nat) -> seq<P>,
    size: P -> nat)

  /** How a strategy measures progress: `rank` of `bound` useful packets, on the states
      and packets that can arise. */
  datatype Progress<!S(!new), !P(!new)> = Progress(bound: nat, rank: S -> nat, ok: S -> bool, okPacket: P -> bool)

  ghost predicate At<A, B>(a: A, b: B) { true }

  /** Rank starts at zero, rises by one on a useful packet and otherwise stays with the
      state, never exceeds its bound, and reaching it is what decoding needs. Forwarding
      from rank at least one yields one packet per peer. */
  ghost predicate Lawful<S(!new), P(!new), E>(st: Strategy<S, P, E>, pr: Progress<S, P>) {
    && pr.bound >= 1 && pr.ok(st.initial) && pr.rank(st.initial) == 0
    && (forall s, p {:trigger At(s, p)} :: At(s, p) && pr.ok(s) && pr.okPacket(p) ==>
          var (receipt, s') := st.receive(s, p);
          && pr.ok(s') && (receipt == Useful ==> pr.rank(s') == pr.rank(s) + 1) && (receipt != Useful ==> s' == s))
    && (forall s {:trigger pr.ok(s)} :: pr.ok(s) ==>
      pr.rank(s) <= pr.bound && (st.canDecode(s) <==> pr.rank(s) == pr.bound))
    && (forall s, k: nat, draw: nat {:trigger st.forward(s, k, draw)} :: pr.ok(s) && pr.rank(s) > 0 ==>
          |st.forward(s, k, draw)| == k && forall i :: 0 <= i < k ==> pr.okPacket(st.forward(s, k, draw)[i]))
  }
}
