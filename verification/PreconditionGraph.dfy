/** The precondition multigraph of a blueprint: chains, cycles, and the rounds in
    which procedures become startable. */
module PreconditionGraph {
  import opened Seqs

  /** `nodes` are the procedures, `pre[v]` the preconditions listed for `v`, repeats included. */
  datatype Graph = Graph(nodes: set<string>, pre: map<string, seq<string>>)

  function Pre(g: Graph, v: string): seq<string> {
    if v in g.pre then g.pre[v] else []
  }

  /** Every precondition of a procedure is itself a procedure. */
  ghost predicate Resolved(g: Graph) {
    forall v, u :: v in g.nodes && u in Pre(g, v) ==> u in g.nodes
  }

  // ----- chains and cycles -----

  /** Each entry is a listed precondition of the next. */
  ghost predicate IsChain(g: Graph, p: seq<string>) {
    && p != []
    && (forall i :: 0 <= i < |p| ==> p[i] in g.nodes)
    && (forall i :: 0 <= i < |p| - 1 ==> p[i] in Pre(g, p[i + 1]))
  }

  ghost predicate ChainTo(g: Graph, p: seq<string>, v: string) {
    IsChain(g, p) && p[|p| - 1] == v
  }

  ghost predicate IsCycle(g: Graph, p: seq<string>) {
    IsChain(g, p) && |p| >= 2 && p[0] == p[|p| - 1]
  }

  ghost predicate Acyclic(g: Graph) {
    forall p :: !IsCycle(g, p)
  }

  /** `v` lies on a cycle, or a chain leads to it from one. */
  ghost predicate DownstreamOfCycle(g: Graph, v: string) {
    exists c, p :: IsCycle(g, c) && ChainTo(g, p, v) && p[0] in c
  }

  // ----- rounds -----

  /** The procedures that can be started within `k` rounds, a round starting every
      procedure whose preconditions all started in earlier rounds. */
  ghost function Peel(g: Graph, k: nat): set<string> {
    if k == 0 then {} else set v | v in g.nodes && forall u :: u in Pre(g, v) ==> u in Peel(g, k - 1)
  }

  ghost function Startable(g: Graph): set<string> {
    Peel(g, |g.nodes|)
  }

  ghost function Stuck(g: Graph): set<string> {
    g.nodes - Startable(g)
  }

  ghost predicate WaitsFor(g: Graph, v: string, s: set<string>) {
    exists u :: u in Pre(g, v) && u in s
  }

  /** Every member waits for another member (or itself). */
  ghost predicate SelfSupporting(g: Graph, s: set<string>) {
    forall v {:trigger WaitsFor(g, v, s)} :: v in s ==> WaitsFor(g, v, s)
  }

  lemma {:induction false} PeelMonotone(g: Graph, j: nat, k: nat)
    requires j <= k
    ensures Peel(g, j) <= Peel(g, k) <= g.nodes
  {
    if j > 0 {
      PeelMonotone(g, j - 1, k - 1);
    }
  }

  /** A procedure is startable within `k` rounds exactly when no chain of more than `k`
      procedures leads to it. */
  lemma {:induction false} PeelBoundsChains(g: Graph, k: nat, p: seq<string>, v: string)
    requires v in Peel(g, k) && ChainTo(g, p, v)
    ensures |p| <= k
  {
    if |p| > 1 {
      var q := p[..|p| - 1];
      assert ChainTo(g, q, q[|q| - 1]);
      PeelBoundsChains(g, k - 1, q, q[|q| - 1]);
    }
  }

  lemma {:induction false} UnpeeledHasChain(g: Graph, k: nat, v: string) returns (p: seq<string>)
    requires Resolved(g) && v in g.nodes && v !in Peel(g, k)
    ensures ChainTo(g, p, v) && |p| == k + 1
  {
    if k == 0 {
      p := [v];
    } else {
      var u :| u in Pre(g, v) && u !in Peel(g, k - 1);
      var q := UnpeeledHasChain(g, k - 1, u);
      p := q + [v];
    }
  }

  lemma ChainSlice(g: Graph, p: seq<string>, i: nat, j: nat)
    requires IsChain(g, p) && i <= j < |p|
    ensures ChainTo(g, p[i..j + 1], p[j])
  {}

  /** Walking back from a stuck procedure must revisit one: so it hangs off a cycle. */
  lemma StuckHangsOffCycle(g: Graph, v: string)
    requires Resolved(g) && v in Stuck(g)
    ensures DownstreamOfCycle(g, v)
  {
    var p := UnpeeledHasChain(g, |g.nodes|, v);
    Pigeonhole(p, g.nodes);
    var i, j :| 0 <= i < j < |p| && p[i] == p[j];
    ChainSlice(g, p, i, j);
    ChainSlice(g, p, i, |p| - 1);
    var c, q := p[i..j + 1], p[i..|p| - 1 + 1];
    assert c[0] == p[i] && c[|c| - 1] == p[j];
    assert IsCycle(g, c) && ChainTo(g, q, v) && q[0] in c;
  }

  lemma {:induction false} SelfSupportingNeverPeeled(g: Graph, s: set<string>, k: nat)
    requires SelfSupporting(g, s)
    ensures s !! Peel(g, k)
  {
    if k == 0 {
    } else {
      SelfSupportingNeverPeeled(g, s, k - 1);
      forall v | v in s ensures v !in Peel(g, k) {
        assert WaitsFor(g, v, s);
      }
    }
  }

  lemma CycleIsSelfSupporting(g: Graph, c: seq<string>)
    requires IsCycle(g, c)
    ensures SelfSupporting(g, Elems(c)) && Elems(c) <= g.nodes
  {
    forall v | v in Elems(c) ensures WaitsFor(g, v, Elems(c)) {
      var i :| 0 <= i < |c| && c[i] == v;
      if i > 0 {
        assert c[i - 1] in Pre(g, v);
      } else {
        assert c[|c| - 2] in Pre(g, c[|c| - 1]);
      }
    }
  }

  /** The rounds stop making progress after as many rounds as there are procedures. */
  lemma StuckWaitsForStuck(g: Graph)
    requires Resolved(g)
    ensures SelfSupporting(g, Stuck(g))
  {
    var n := |g.nodes|;
    forall v | v in Stuck(g) ensures WaitsFor(g, v, Stuck(g)) {
      if v in Peel(g, n + 1) {
        var p := UnpeeledHasChain(g, n, v);
        Pigeonhole(p, g.nodes);
        var i, j :| 0 <= i < j < |p| && p[i] == p[j];
        ChainSlice(g, p, i, j);
        var c := p[i..j + 1];
        assert c[0] == p[i] && c[|c| - 1] == p[j];
        assert IsCycle(g, c);
        CycleIsSelfSupporting(g, c);
        NotDownstream(g, Elems(c), p, j, n + 1);
        assert false;
      }
      var u :| u in Pre(g, v) && u !in Peel(g, n);
      assert u in Stuck(g);
    }
  }

  lemma {:induction false} NotDownstream(g: Graph, s: set<string>, p: seq<string>, i: nat, k: nat)
    requires SelfSupporting(g, s) && IsChain(g, p) && i < |p| && p[i] in s
    ensures p[|p| - 1] !in Peel(g, k)
    decreases |p| - i, k
  {
    if i == |p| - 1 {
      SelfSupportingNeverPeeled(g, s, k);
    } else if k > 0 {
      var q := p[..|p| - 1];
      assert q[i] in s && IsChain(g, q);
      NotDownstream(g, s, q, i, k - 1);
      assert q[|q| - 1] in Pre(g, p[|p| - 1]);
    }
  }

  lemma CycleIsStuck(g: Graph, c: seq<string>)
    requires IsCycle(g, c)
    ensures Elems(c) <= Stuck(g) && Stuck(g) != {}
  {
    CycleIsSelfSupporting(g, c);
    SelfSupportingNeverPeeled(g, Elems(c), |g.nodes|);
    assert c[0] in Elems(c);
  }

  /** `s` is the largest set of procedures that wait for each other: it contains every cycle
      and nothing that is not on or downstream of one. */
  ghost predicate IsLargestWaitingSet(g: Graph, s: set<string>) {
    && s <= g.nodes && SelfSupporting(g, s)
    && (forall t :: t <= g.nodes && SelfSupporting(g, t) ==> t <= s)
    && (forall c :: IsCycle(g, c) ==> Elems(c) <= s)
    && (forall v :: v in s <==> v in g.nodes && DownstreamOfCycle(g, v))
  }

  lemma StuckIsLargestSelfSupporting(g: Graph)
    requires Resolved(g)
    ensures IsLargestWaitingSet(g, Stuck(g))
  {
    StuckWaitsForStuck(g);
    forall s | s <= g.nodes && SelfSupporting(g, s) ensures s <= Stuck(g) {
      SelfSupportingNeverPeeled(g, s, |g.nodes|);
    }
    forall c | IsCycle(g, c) ensures Elems(c) <= Stuck(g) {
      CycleIsStuck(g, c);
    }
    forall v ensures v in Stuck(g) <==> v in g.nodes && DownstreamOfCycle(g, v) {
      if v in Stuck(g) {
        StuckHangsOffCycle(g, v);
      } else if v in g.nodes && DownstreamOfCycle(g, v) {
        var c, p :| IsCycle(g, c) && ChainTo(g, p, v) && p[0] in c;
        CycleIsSelfSupporting(g, c);
        NotDownstream(g, Elems(c), p, 0, |g.nodes|);
      }
    }
  }

  lemma AcyclicIffNothingStuck(g: Graph)
    requires Resolved(g)
    ensures Acyclic(g) <==> Stuck(g) == {}
  {
    forall c | IsCycle(g, c) ensures Stuck(g) != {} {
      CycleIsStuck(g, c);
    }
    if Stuck(g) != {} {
      var v :| v in Stuck(g);
      StuckHangsOffCycle(g, v);
    }
  }

  lemma StuckOrStartable(g: Graph)
    ensures Startable(g) <= g.nodes && Stuck(g) + Startable(g) == g.nodes && Stuck(g) !! Startable(g)
  {}

  // ----- dependency depth -----

  /** The number of preconditions on the longest chain leading to `v`. */
  ghost function Depth(g: Graph, v: string): (d: nat)
    requires v in Startable(g)
    ensures v in Peel(g, d + 1) && v !in Peel(g, d) && d < |g.nodes|
  {
    DepthFrom(g, v, 0)
  }

  ghost function DepthFrom(g: Graph, v: string, k: nat): (d: nat)
    requires v in Startable(g) && v !in Peel(g, k) && k < |g.nodes|
    ensures v in Peel(g, d + 1) && v !in Peel(g, d) && d < |g.nodes|
    decreases |g.nodes| - k
  {
    if v in Peel(g, k + 1) then k
    else
      DepthFrom(g, v, k + 1)
  }

  lemma DepthWithin(g: Graph, v: string, k: nat)
    requires v in Startable(g)
    ensures v in Peel(g, k) <==> Depth(g, v) < k
  {
    var d := Depth(g, v);
    if d < k {
      PeelMonotone(g, d + 1, k);
    } else {
      PeelMonotone(g, k, d);
    }
  }

  /** `Depth` is what its name says: the longest chain has that many links, and one is that long. */
  lemma DepthIsLongestChain(g: Graph, v: string)
    requires Resolved(g) && v in Startable(g)
    ensures forall p :: ChainTo(g, p, v) ==> |p| - 1 <= Depth(g, v)
    ensures exists p :: ChainTo(g, p, v) && |p| - 1 == Depth(g, v)
  {
    var d := Depth(g, v);
    forall p | ChainTo(g, p, v) ensures |p| - 1 <= d {
      PeelBoundsChains(g, d + 1, p, v);
    }
    PeelMonotone(g, |g.nodes|, |g.nodes|);
    var p := UnpeeledHasChain(g, d, v);
  }

  /** Depth grows along every precondition. */
  lemma DepthAlongPrecondition(g: Graph, u: string, v: string)
    requires v in Startable(g) && u in Pre(g, v)
    ensures u in Startable(g) && Depth(g, u) < Depth(g, v)
  {
    var d := Depth(g, v);
    assert u in Peel(g, d);
    PeelMonotone(g, d, |g.nodes|);
    DepthWithin(g, u, d);
  }
}
