/** Random regular meshes and hop distance (crates/sim/src/topology.rs). */
module Topology {
  import opened Distinct

  // ---------- graphs and hop distance ----------

  /** Some walk of exactly `h` hops leads from node 0 to `v`. */
  ghost predicate Walk(g: seq<seq<nat>>, h: nat, v: nat) {
    if h == 0 then v == 0
    else exists u: nat :: u < |g| && Walk(g, h - 1, u) && v in g[u]
  }

  ghost predicate Reached(g: seq<seq<nat>>, v: nat) {
    exists h: nat :: Walk(g, h, v)
  }

  /** `h` is the hop distance from node 0 to `v`. */
  ghost predicate IsDistance(g: seq<seq<nat>>, v: nat, h: nat) {
    Walk(g, h, v) && forall k: nat :: Walk(g, k, v) ==> h <= k
  }

  lemma {:induction false} DistanceExists(g: seq<seq<nat>>, v: nat, k: nat) returns (h: nat)
    requires Walk(g, k, v)
    ensures IsDistance(g, v, h)
  {
    if j: nat :| j < k && Walk(g, j, v) {
      h := DistanceExists(g, v, j);
    } else {
      h := k;
    }
  }

  /** Peers are other nodes, `degree` of them per node, without repetition. */
  ghost predicate IsMesh(g: seq<seq<nat>>, n: nat, degree: nat) {
    && |g| == n
    && forall v :: 0 <= v < n ==> |g[v]| == degree && PeersOk(g[v], n, v)
  }

  ghost predicate PeersOk(peers: seq<nat>, n: nat, v: nat) {
    IsDistinct(peers) && v !in peers && forall i :: 0 <= i < |peers| ==> peers[i] < n
  }

  // ---------- construction ----------

  /** Draws of the generator: call `k` may permute its argument in any way. */
  ghost predicate Shuffles(shuffle: (nat, seq<nat>) -> seq<nat>) {
    forall k: nat, s: seq<nat> {:trigger shuffle(k, s)} :: multiset(shuffle(k, s)) == multiset(s)
  }

  /** Nodes a peer list may still be extended with, in increasing order. */
  function Candidates(n: nat, v: nat, peers: seq<nat>): (c: seq<nat>)
    ensures IsDistinct(c) && forall x: nat :: x in c <==> x < n && x != v && x !in peers
  {
    if n == 0 then []
    else if n - 1 == v || n - 1 in peers then Candidates(n - 1, v, peers)
    else Candidates(n - 1, v, peers) + [n - 1]
  }

  /** There are always enough candidates to fill the remaining slots. */
  lemma CandidatesSuffice(n: nat, v: nat, peers: seq<nat>)
    requires v < n && PeersOk(peers, n, v)
    ensures |Candidates(n, v, peers)| == n - 1 - |peers|
  {
    var c := Candidates(n, v, peers);
    DistinctSize(c);
    DistinctSize(peers);
    forall x: nat ensures x in Elements(c) + Elements(peers) + {v} <==> x in Below(n) {
      assert x in peers ==> x < n;
    }
    assert Elements(c) + Elements(peers) + {v} == Below(n);
    ApartSize(Elements(c), Elements(peers), v);
  }

  lemma ApartSize(a: set<nat>, b: set<nat>, v: nat)
    requires a !! b && v !in a && v !in b
    ensures |a + b + {v}| == |a| + |b| + 1
  {
  }

  lemma PermutationDistinct(s: seq<nat>, t: seq<nat>)
    requires IsDistinct(s) && multiset(s) == multiset(t)
    ensures IsDistinct(t) && |s| == |t| && forall x :: x in t <==> x in s
  {
    assert |s| == |multiset(s)| == |multiset(t)| == |t|;
    forall x ensures x in t <==> x in s { assert x in multiset(t) <==> x in multiset(s); }
    DistinctOccurrences(s);
    forall i, j | 0 <= i < j < |t| ensures t[i] != t[j] {
      assert t == t[..j] + [t[j]] + t[j + 1..];
      assert multiset(t) == multiset(t[..j]) + multiset{t[j]} + multiset(t[j + 1..]);
      assert t[i] in t[..j];
      assert multiset(t)[t[j]] <= 1;
    }
  }

  lemma {:induction false} DistinctOccurrences(s: seq<nat>)
    requires IsDistinct(s)
    ensures forall x :: multiset(s)[x] <= 1
  {
    if s != [] {
      var front, last := s[..|s| - 1], s[|s| - 1];
      DistinctOccurrences(front);
      assert s == front + [last] && last !in front;
    }
  }

  /** Filling the remaining slots of one node from a shuffle of its candidates. */
  lemma FilledOk(n: nat, v: nat, peers: seq<nat>, shuffled: seq<nat>, remaining: nat)
    requires v < n && PeersOk(peers, n, v) && |peers| + remaining < n
    requires multiset(shuffled) == multiset(Candidates(n, v, peers))
    ensures remaining <= |shuffled| && PeersOk(peers + shuffled[..remaining], n, v)
  {
    var c := Candidates(n, v, peers);
    CandidatesSuffice(n, v, peers);
    PermutationDistinct(c, shuffled);
    var all := peers + shuffled[..remaining];
    forall i, j | 0 <= i < j < |all| ensures all[i] != all[j] {
      if i < |peers| <= j { assert shuffled[j - |peers|] in c; }
    }
    forall i | 0 <= i < |all| ensures all[i] < n && all[i] != v {
      if |peers| <= i { assert shuffled[i - |peers|] in c; }
    }
  }

  /** The node before `perm[i]` on the path that starts at node 0. */
  function From(perm: seq<nat>, i: nat): nat
    requires i <= |perm|
  {
    if i == 0 then 0 else perm[i - 1]
  }

  /** First hop out of every node: the Hamiltonian path `0, perm[0], …, perm[n-2]`. */
  ghost predicate FollowsPath(g: seq<seq<nat>>, perm: seq<nat>) {
    && |g| == |perm| + 1
    && forall i :: 0 <= i < |perm| ==> From(perm, i) < |g| && perm[i] in g[From(perm, i)]
  }

  /** A graph containing the path reaches every node from node 0. */
  lemma {:induction false} PathReaches(g: seq<seq<nat>>, perm: seq<nat>, i: nat)
    requires FollowsPath(g, perm) && i < |perm|
    ensures Walk(g, i + 1, perm[i])
  {
    var from := From(perm, i);
    if i > 0 {
      PathReaches(g, perm, i - 1);
    }
    var next := perm[i];
    assert from < |g| && next in g[from];
    assert Walk(g, i, from);
  }

  lemma AllReached(g: seq<seq<nat>>, perm: seq<nat>, n: nat)
    requires n > 0 && FollowsPath(g, perm) && forall v: nat :: 0 < v < n ==> v in perm
    ensures forall v: nat :: v < n ==> Reached(g, v)
  {
    forall v: nat | v < n ensures Reached(g, v) {
      if v == 0 {
        assert Walk(g, 0, 0);
      } else {
        PathReaches(g, perm, IndexOf(perm, v));
      }
    }
  }

  function Range(lo: nat, hi: nat): (s: seq<nat>)
    requires lo <= hi
    ensures |s| == hi - lo && forall i :: 0 <= i < |s| ==> s[i] == lo + i
  {
    seq(hi - lo, i => lo + i)
  }

  /** The part of the path up to `perm[i]` is laid, and later nodes have no peers yet. */
  ghost predicate Laid(neighbors: seq<seq<nat>>, perm: seq<nat>, i: nat) {
    && i < |perm| && |neighbors| == |perm| + 1
    && neighbors[0] == [perm[0]] && (forall j :: 0 <= j < i ==>
          perm[j] < |neighbors| && neighbors[perm[j]] == [perm[j + 1]])
    && (forall j :: i <= j < |perm| ==> perm[j] < |neighbors| && neighbors[perm[j]] == [])
    && (forall v :: 0 <= v < |neighbors| ==> |neighbors[v]| <= 1 && PeersOk(neighbors[v], |neighbors|, v))
  }

  lemma LaidNext(neighbors: seq<seq<nat>>, perm: seq<nat>, i: nat)
    requires Laid(neighbors, perm, i) && i + 1 < |perm| && IsDistinct(perm) && 0 !in perm
    requires forall x: nat :: x in perm ==> x < |neighbors|
    ensures Laid(neighbors[perm[i] := neighbors[perm[i]] + [perm[i + 1]]], perm, i + 1)
  {
    assert perm[i + 1] in perm && perm[i] in perm;
    assert neighbors[perm[i]] + [perm[i + 1]] == [perm[i + 1]];
  }

  /** The peer that the path through `perm` gives node `v`: the node after it. */
  ghost function Hop(perm: seq<nat>, v: nat): seq<nat> {
    if v == 0 then perm[..if perm == [] then 0 else 1]
    else if v in perm && IndexOf(perm, v) + 1 < |perm| then [perm[IndexOf(perm, v) + 1]]
    else []
  }

  lemma LaidHops(neighbors: seq<seq<nat>>, perm: seq<nat>, v: nat)
    requires perm != [] && Laid(neighbors, perm, |perm| - 1) && IsDistinct(perm) && v < |neighbors|
    requires forall x: nat :: x in perm <==> 0 < x < |neighbors|
    ensures neighbors[v] == Hop(perm, v)
  {
    if v > 0 { assert perm[IndexOf(perm, v)] == v; }
  }

  /** The peers the draws give node `v`: its hop on the path, then the first of the shuffled
      candidates. */
  ghost function Drawn(n: nat, degree: nat, shuffle: (nat, seq<nat>) -> seq<nat>, v: nat): seq<nat> {
    var hop := Hop(if n > 1 then shuffle(0, Range(1, n)) else [], v);
    var rest := shuffle(v + 1, Candidates(n, v, hop));
    if |hop| <= degree <= |hop| + |rest| then hop + rest[..degree - |hop|] else hop
  }

  /** Drawing a node's peers fills its slots. */
  lemma DrawnOk(n: nat, degree: nat, shuffle: (nat, seq<nat>) -> seq<nat>, v: nat, hop: seq<nat>)
    requires v < n && PeersOk(hop, n, v) && |hop| <= degree < n && Shuffles(shuffle)
    requires hop == Hop(if n > 1 then shuffle(0, Range(1, n)) else [], v)
    ensures var rest, drawn := shuffle(v + 1, Candidates(n, v, hop)), Drawn(n, degree, shuffle, v);
      && degree - |hop| <= |rest| && drawn == hop + rest[..degree - |hop|]
      && |drawn| == degree && PeersOk(drawn, n, v)
  {
    FilledOk(n, v, hop, shuffle(v + 1, Candidates(n, v, hop)), degree - |hop|);
  }

  /** More peers leave the path where it is. */
  lemma MorePeers(g: seq<seq<nat>>, perm: seq<nat>, v: nat, more: seq<nat>)
    requires FollowsPath(g, perm) && v < |g|
    ensures FollowsPath(g[v := g[v] + more], perm)
  {
    forall i | 0 <= i < |perm| ensures From(perm, i) < |g| && perm[i] in g[v := g[v] + more][From(perm, i)] {
      assert perm[i] in g[From(perm, i)];
    }
  }

  lemma PathOk(n: nat, perm: seq<nat>)
    requires n > 1 && multiset(perm) == multiset(Range(1, n))
    ensures |perm| == n - 1 && IsDistinct(perm) && forall x: nat :: x in perm <==> 0 < x < n
  {
    PermutationDistinct(Range(1, n), perm);
    forall x: nat ensures x in perm <==> 0 < x < n {
      if 0 < x < n { assert Range(1, n)[x - 1] == x; }
    }
  }

  /** The first `k` nodes have all their peers, the others only their hop on the path. */
  ghost predicate Filled(n: nat, degree: nat, shuffle: (nat, seq<nat>) -> seq<nat>, neighbors: seq<seq<nat>>,
      perm: seq<nat>, k: nat)
  {
    |neighbors| == n && forall v :: 0 <= v < n ==> FilledAt(n, degree, shuffle, perm, v, neighbors[v], v < k)
  }

  ghost predicate FilledAt(n: nat, degree: nat, shuffle: (nat, seq<nat>) -> seq<nat>, perm: seq<nat>, v: nat,
      peers: seq<nat>, done: bool)
  {
    && PeersOk(peers, n, v)
    && if done then |peers| == degree && peers == Drawn(n, degree, shuffle, v)
       else |peers| <= degree && peers == Hop(perm, v)
  }

  /** Appending the shuffled candidates fills one more node. */
  lemma FillNext(n: nat, degree: nat, shuffle: (nat, seq<nat>) -> seq<nat>, neighbors: seq<seq<nat>>,
      perm: seq<nat>, k: nat)
    requires k < n && degree < n && Shuffles(shuffle) && Filled(n, degree, shuffle, neighbors, perm, k)
    requires perm == if n > 1 then shuffle(0, Range(1, n)) else []
    ensures var peers := neighbors[k];
      var c := shuffle(k + 1, Candidates(n, k, peers));
      && 0 <= degree - |peers| <= |c|
      && Filled(n, degree, shuffle, neighbors[k := peers + c[..degree - |peers|]], perm, k + 1)
      && (degree == |peers| ==> neighbors[k := peers + c[..degree - |peers|]] == neighbors)
  {
    assert FilledAt(n, degree, shuffle, perm, k, neighbors[k], false);
    DrawnOk(n, degree, shuffle, k, neighbors[k]);
    assert FilledAt(n, degree, shuffle, perm, k, Drawn(n, degree, shuffle, k), true);
    assert degree == |neighbors[k]| ==> Drawn(n, degree, shuffle, k) == neighbors[k];
  }

  /** Phase 1: a Hamiltonian path through a shuffle of the other nodes. */
  method LayPath(n: nat, perm: seq<nat>) returns (neighbors: seq<seq<nat>>)
    requires n > 1 && |perm| == n - 1 && IsDistinct(perm) && forall x: nat :: x in perm <==> 0 < x < n
    ensures FollowsPath(neighbors, perm) && |neighbors| == n
    ensures forall v :: 0 <= v < n ==>
      |neighbors[v]| <= 1 && PeersOk(neighbors[v], n, v) && neighbors[v] == Hop(perm, v)
  {
    neighbors := seq(n, _ => []);
    forall j | 0 <= j < |perm| ensures 0 < perm[j] < n { assert perm[j] in perm; }
    neighbors := neighbors[0 := [perm[0]]];
    for i := 0 to |perm| - 1
      invariant Laid(neighbors, perm, i)
    {
      LaidNext(neighbors, perm, i);
      neighbors := neighbors[perm[i] := neighbors[perm[i]] + [perm[i + 1]]];
    }
    forall v | 0 <= v < n ensures neighbors[v] == Hop(perm, v) { LaidHops(neighbors, perm, v); }
  }

  /** Every node gets exactly `degree` distinct peers other than itself, and every node is
      reachable from node 0, for every outcome of the shuffles: the peers are the next node on
      the shuffled path, then the first of the node's shuffled candidates. */
  method RandomMesh(n: nat, degree: nat, shuffle: (nat, seq<nat>) -> seq<nat>) returns (neighbors: seq<seq<nat>>)
    requires degree < n && (n > 1 ==> degree > 0) && Shuffles(shuffle)
    ensures IsMesh(neighbors, n, degree)
    ensures forall v: nat :: v < n ==> Reached(neighbors, v) && neighbors[v] == Drawn(n, degree, shuffle, v)
  {
    ghost var perm: seq<nat> := if n > 1 then shuffle(0, Range(1, n)) else [];
    if n > 1 {
      PathOk(n, perm);
      neighbors := LayPath(n, shuffle(0, Range(1, n)));
    } else {
      neighbors := [[]];
    }
    for node := 0 to n
      invariant FollowsPath(neighbors, perm) && Filled(n, degree, shuffle, neighbors, perm, node)
    {
      var peers := neighbors[node];
      FillNext(n, degree, shuffle, neighbors, perm, node);
      var remaining := degree - |peers|;
      if remaining > 0 {
        var candidates := shuffle(node + 1, Candidates(n, node, peers));
        MorePeers(neighbors, perm, node, candidates[..remaining]);
        neighbors := neighbors[node := peers + candidates[..remaining]];
      }
    }
    AllReached(neighbors, perm, n);
  }
}
