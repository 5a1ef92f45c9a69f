/** The order-free meaning of the loader's first-in-first-out Kahn sort: one queue,
    no counters and no adjacency lists, only sets of procedures. */
module KahnSort {
  import opened Seqs
  import opened Ordering
  import opened PreconditionGraph

  /** All preconditions of `v` have run. */
  ghost predicate Met(g: Graph, done: set<string>, v: string) {
    forall u :: u in Pre(g, v) ==> u in done
  }

  /** The procedures whose last outstanding precondition is `u`. */
  ghost function Released(g: Graph, done: set<string>, u: string): set<string> {
    set v | v in g.nodes && u in Pre(g, v) && Met(g, done + {u}, v)
  }

  /** What holds between two dequeues: nothing occurs twice, every precondition of a
      sorted procedure comes before it, and exactly the procedures whose preconditions
      have run are sorted or queued. */
  ghost predicate KahnInv(g: Graph, queue: seq<string>, sorted: seq<string>) {
    && NoDup(sorted + queue)
    && Before(g, sorted)
    && Elems(sorted + queue) == set v | v in g.nodes && Met(g, Elems(sorted), v)
  }

  /** Each entry's preconditions occur earlier. */
  ghost predicate Before(g: Graph, s: seq<string>) {
    forall i {:trigger s[i]} :: 0 <= i < |s| ==> Met(g, Elems(s[..i]), s[i])
  }

  lemma KahnInvInit(g: Graph)
    ensures KahnInv(g, SortedOf(Peel(g, 1)), [])
  {
    SortedOfMembers(Peel(g, 1));
    assert [] + SortedOf(Peel(g, 1)) == SortedOf(Peel(g, 1));
  }

  lemma KahnInvMembers(g: Graph, queue: seq<string>, sorted: seq<string>)
    requires KahnInv(g, queue, sorted)
    ensures Elems(sorted) <= g.nodes && Elems(queue) <= g.nodes && NoDup(sorted) && NoDup(queue)
    ensures |sorted| + |queue| <= |g.nodes|
    ensures forall v :: v in queue ==> v !in sorted && Met(g, Elems(sorted), v)
    ensures forall v :: v in g.nodes && Met(g, Elems(sorted), v) ==> v in sorted || v in queue
  {
    var full := sorted + queue;
    forall v ensures v in full <==> v in sorted || v in queue {}
    assert forall v :: v in full <==> v in Elems(full);
    NoDupSize(full);
    SubsetSize(Elems(full), g.nodes);
    forall i, j | 0 <= i < j < |queue| ensures queue[i] != queue[j] {
      assert full[|sorted| + i] == queue[i] && full[|sorted| + j] == queue[j];
    }
    forall v | v in queue ensures v !in sorted {
      var j :| 0 <= j < |queue| && queue[j] == v;
      assert full[|sorted| + j] == v;
      assert forall i :: 0 <= i < |sorted| ==> full[i] == sorted[i];
    }
    assert forall i :: 0 <= i < |sorted| ==> full[i] == sorted[i];
  }

  lemma NextQueueMembers(g: Graph, queue: seq<string>, sorted: seq<string>)
    requires KahnInv(g, queue, sorted) && queue != []
    ensures var u, released := queue[0], SortedOf(Released(g, Elems(sorted), queue[0]));
            NoDup(released) && Elems(released) == Released(g, Elems(sorted), u)
            && forall v :: v in released ==> v !in sorted && v !in queue
  {
    var u, done := queue[0], Elems(sorted);
    KahnInvMembers(g, queue, sorted);
    SortedOfMembers(Released(g, done, u));
    forall v | v in Released(g, done, u) ensures v !in sorted && v !in queue {
      assert u !in done;
      assert !Met(g, done, v);
      assert v !in Elems(sorted + queue);
      assert forall x :: x in sorted || x in queue ==> x in sorted + queue;
    }
  }

  lemma NextBefore(g: Graph, queue: seq<string>, sorted: seq<string>)
    requires KahnInv(g, queue, sorted) && queue != []
    ensures Before(g, sorted + [queue[0]])
  {
    var s := sorted + [queue[0]];
    KahnInvMembers(g, queue, sorted);
    forall i | 0 <= i < |s| ensures Met(g, Elems(s[..i]), s[i]) {
      if i < |sorted| {
        assert s[..i] == sorted[..i];
        assert s[i] == sorted[i];
      } else {
        assert s[..i] == sorted;
      }
    }
  }

  lemma NextNoDup(g: Graph, queue: seq<string>, sorted: seq<string>, released: seq<string>)
    requires NoDup(sorted + queue) && NoDup(released) && queue != []
    requires forall v :: v in released ==> v !in sorted && v !in queue
    ensures NoDup(sorted + [queue[0]] + (queue[1..] + released))
  {
    var full := sorted + queue;
    assert sorted + [queue[0]] + (queue[1..] + released) == full + released;
    forall k | 0 <= k < |full| ensures full[k] !in released {
      assert full[k] in sorted || full[k] in queue;
    }
  }

  /** One dequeue keeps the invariant. */
  lemma KahnInvNext(g: Graph, queue: seq<string>, sorted: seq<string>)
    requires KahnInv(g, queue, sorted) && queue != []
    ensures KahnInv(g, queue[1..] + SortedOf(Released(g, Elems(sorted), queue[0])), sorted + [queue[0]])
  {
    var u, done := queue[0], Elems(sorted);
    var released := SortedOf(Released(g, done, u));
    var queue', sorted' := queue[1..] + released, sorted + [u];
    KahnInvMembers(g, queue, sorted);
    NextQueueMembers(g, queue, sorted);
    NextBefore(g, queue, sorted);
    NextNoDup(g, queue, sorted, released);
    assert Elems(sorted') == done + {u};
    forall v ensures v in Elems(sorted' + queue') <==> v in g.nodes && Met(g, done + {u}, v) {
      assert v in sorted' + queue' <==> v in sorted || v in queue || v in released by {
        assert queue == [u] + queue[1..];
      }
      assert v in released <==> v in Released(g, done, u);
      if v in sorted || v in queue {
        assert v in Elems(sorted + queue);
      }
    }
  }

  ghost function Kahn(g: Graph, queue: seq<string>, sorted: seq<string>): seq<string>
    requires KahnInv(g, queue, sorted)
    decreases |g.nodes| - |sorted|
  {
    if queue == [] then sorted
    else
      KahnInvMembers(g, queue, sorted);
      KahnInvNext(g, queue, sorted);
      Kahn(g, queue[1..] + SortedOf(Released(g, Elems(sorted), queue[0])), sorted + [queue[0]])
  }

  lemma KahnUnfold(g: Graph, queue: seq<string>, sorted: seq<string>)
    requires KahnInv(g, queue, sorted) && queue != []
    ensures var queue' := queue[1..] + SortedOf(Released(g, Elems(sorted), queue[0]));
            KahnInv(g, queue', sorted + [queue[0]]) && Kahn(g, queue, sorted) == Kahn(g, queue', sorted + [queue[0]])
  {
    KahnInvNext(g, queue, sorted);
  }

  /** The order the sort produces: start with everything startable at once, by name. */
  ghost function KahnOrder(g: Graph): seq<string> {
    KahnInvInit(g);
    Kahn(g, SortedOf(Peel(g, 1)), [])
  }

  lemma {:induction false} KahnEndsInv(g: Graph, queue: seq<string>, sorted: seq<string>)
    requires KahnInv(g, queue, sorted)
    ensures KahnInv(g, [], Kahn(g, queue, sorted))
    decreases |g.nodes| - |sorted|
  {
    if queue == [] {
    } else {
      KahnInvMembers(g, queue, sorted);
      KahnInvNext(g, queue, sorted);
      KahnEndsInv(g, queue[1..] + SortedOf(Released(g, Elems(sorted), queue[0])), sorted + [queue[0]]);
    }
  }

  lemma {:induction false} BeforePeels(g: Graph, s: seq<string>, i: nat)
    requires Before(g, s) && Elems(s) <= g.nodes && i < |s|
    ensures s[i] in Peel(g, i + 1)
  {
    forall u | u in Pre(g, s[i]) ensures u in Peel(g, i) {
      assert Met(g, Elems(s[..i]), s[i]);
      var j :| 0 <= j < i && s[j] == u;
      BeforePeels(g, s, j);
      PeelMonotone(g, j + 1, i);
    }
  }

  lemma SortedAreStartable(g: Graph, s: seq<string>)
    requires Before(g, s) && Elems(s) <= g.nodes && |s| <= |g.nodes|
    ensures Elems(s) <= Startable(g)
  {
    forall v | v in s ensures v in Startable(g) {
      var i :| 0 <= i < |s| && s[i] == v;
      BeforePeels(g, s, i);
      PeelMonotone(g, i + 1, |g.nodes|);
    }
  }

  lemma UnsortedAreStuck(g: Graph, s: seq<string>)
    requires Resolved(g) && forall v :: v in g.nodes && Met(g, Elems(s), v) ==> v in s
    ensures Startable(g) <= Elems(s)
  {
    var rest := g.nodes - Elems(s);
    forall v | v in rest ensures WaitsFor(g, v, rest) {
      assert !Met(g, Elems(s), v);
      var u :| u in Pre(g, v) && u !in Elems(s);
      assert u in rest;
    }
    SelfSupportingNeverPeeled(g, rest, |g.nodes|);
    StuckOrStartable(g);
  }

  /** The order lists exactly the startable procedures, once each, preconditions first. */
  lemma KahnOrderCorrect(g: Graph)
    requires Resolved(g)
    ensures NoDup(KahnOrder(g)) && Before(g, KahnOrder(g)) && Elems(KahnOrder(g)) == Startable(g)
    ensures |KahnOrder(g)| == |Startable(g)|
  {
    var s := KahnOrder(g);
    KahnInvInit(g);
    KahnEndsInv(g, SortedOf(Peel(g, 1)), []);
    KahnInvMembers(g, [], s);
    SortedAreStartable(g, s);
    UnsortedAreStuck(g, s);
    NoDupSize(s);
  }

  // ----- depth order -----

  ghost predicate AllStartable(g: Graph, s: seq<string>) {
    forall v :: v in s ==> v in Startable(g)
  }

  ghost function Depths(g: Graph, s: seq<string>): seq<nat>
    requires AllStartable(g, s)
  {
    seq(|s|, i requires 0 <= i < |s| => Depth(g, s[i]))
  }

  ghost predicate NonDecreasing(ds: seq<nat>) {
    forall i, j :: 0 <= i < j < |ds| ==> ds[i] <= ds[j]
  }

  /** Ordered depths, of which those from `k` on span at most two values. */
  ghost predicate TwoLevels(ds: seq<nat>, k: nat) {
    NonDecreasing(ds) && (k < |ds| ==> ds[|ds| - 1] <= ds[k] + 1)
  }

  /** Sorted and queued procedures are in depth order, and the queue spans at most two depths. */
  ghost predicate DepthInv(g: Graph, queue: seq<string>, sorted: seq<string>) {
    AllStartable(g, sorted + queue) && TwoLevels(Depths(g, sorted + queue), |sorted|)
  }

  lemma QueueHeadDeepest(g: Graph, queue: seq<string>, sorted: seq<string>, w: string)
    requires queue != [] && DepthInv(g, queue, sorted) && w in sorted
    ensures w in Startable(g) && queue[0] in Startable(g) && Depth(g, w) <= Depth(g, queue[0])
  {
    var full := sorted + queue;
    var i :| 0 <= i < |sorted| && sorted[i] == w;
    assert full[i] == w && full[|sorted|] == queue[0];
    assert Depths(g, full)[i] <= Depths(g, full)[|sorted|];
  }

  lemma ReleasedDepth(g: Graph, queue: seq<string>, sorted: seq<string>, v: string)
    requires Resolved(g) && queue != [] && DepthInv(g, queue, sorted)
    requires v in Released(g, Elems(sorted), queue[0])
    ensures queue[0] in Startable(g) && v in Startable(g) && Depth(g, v) == Depth(g, queue[0]) + 1
  {
    var u := queue[0];
    assert u in sorted + queue;
    var d := Depth(g, u);
    forall w | w in Pre(g, v) ensures w in Peel(g, d + 1) {
      if w != u {
        QueueHeadDeepest(g, queue, sorted, w);
        DepthWithin(g, w, d + 1);
      }
    }
    assert v in Peel(g, d + 2);
    PeelSaturates(g, d + 2, v);
    DepthWithin(g, v, d + 2);
    DepthAlongPrecondition(g, u, v);
  }

  /** Whatever is startable in some number of rounds is startable. */
  lemma PeelSaturates(g: Graph, k: nat, v: string)
    requires Resolved(g) && v in Peel(g, k)
    ensures v in Startable(g)
  {
    StuckWaitsForStuck(g);
    SelfSupportingNeverPeeled(g, Stuck(g), k);
    PeelMonotone(g, k, k);
  }

  lemma AppendLevel(ds: seq<nat>, k: nat, more: seq<nat>)
    requires TwoLevels(ds, k) && k < |ds|
    requires forall i :: 0 <= i < |more| ==> more[i] == ds[k] + 1
    ensures TwoLevels(ds + more, k + 1)
  {}

  lemma DepthsAppend(g: Graph, s: seq<string>, t: seq<string>)
    requires AllStartable(g, s) && AllStartable(g, t)
    ensures AllStartable(g, s + t) && Depths(g, s + t) == Depths(g, s) + Depths(g, t)
  {}

  /** Every entry of `s` has depth `d`. */
  ghost predicate AtDepth(g: Graph, s: seq<string>, d: nat) {
    forall v :: v in s ==> v in Startable(g) && Depth(g, v) == d
  }

  lemma LevelDepths(g: Graph, s: seq<string>, d: nat)
    requires AllStartable(g, s) && AtDepth(g, s, d)
    ensures forall i :: 0 <= i < |s| ==> Depths(g, s)[i] == d
  {}

  lemma LevelAppended(g: Graph, full: seq<string>, k: nat, released: seq<string>)
    requires k < |full| && AllStartable(g, full) && TwoLevels(Depths(g, full), k)
    requires AllStartable(g, released) && AtDepth(g, released, Depth(g, full[k]) + 1)
    ensures AllStartable(g, full + released) && TwoLevels(Depths(g, full + released), k + 1)
  {
    LevelDepths(g, released, Depth(g, full[k]) + 1);
    AppendLevel(Depths(g, full), k, Depths(g, released));
    DepthsAppend(g, full, released);
  }

  lemma DepthInvAppend(g: Graph, queue: seq<string>, sorted: seq<string>, released: seq<string>)
    requires queue != [] && DepthInv(g, queue, sorted)
    requires queue[0] in Startable(g) && AtDepth(g, released, Depth(g, queue[0]) + 1)
    ensures DepthInv(g, queue[1..] + released, sorted + [queue[0]])
  {
    var full := sorted + queue;
    assert full[|sorted|] == queue[0];
    LevelAppended(g, full, |sorted|, released);
    assert sorted + [queue[0]] + (queue[1..] + released) == full + released;
  }

  lemma DepthInvNext(g: Graph, queue: seq<string>, sorted: seq<string>)
    requires Resolved(g) && queue != [] && DepthInv(g, queue, sorted)
    ensures DepthInv(g, queue[1..] + SortedOf(Released(g, Elems(sorted), queue[0])), sorted + [queue[0]])
  {
    var u := queue[0];
    var released := SortedOf(Released(g, Elems(sorted), u));
    SortedOfMembers(Released(g, Elems(sorted), u));
    assert u in sorted + queue;
    assert AtDepth(g, released, Depth(g, u) + 1) by {
      forall v | v in released ensures v in Startable(g) && Depth(g, v) == Depth(g, u) + 1 {
        assert v in Elems(released);
        ReleasedDepth(g, queue, sorted, v);
      }
    }
    DepthInvAppend(g, queue, sorted, released);
  }

  lemma {:induction false} KahnDepth(g: Graph, queue: seq<string>, sorted: seq<string>)
    requires Resolved(g) && KahnInv(g, queue, sorted) && DepthInv(g, queue, sorted)
    ensures DepthInv(g, [], Kahn(g, queue, sorted))
    decreases |g.nodes| - |sorted|
  {
    if queue == [] {
    } else {
      KahnInvMembers(g, queue, sorted);
      KahnInvNext(g, queue, sorted);
      DepthInvNext(g, queue, sorted);
      KahnDepth(g, queue[1..] + SortedOf(Released(g, Elems(sorted), queue[0])), sorted + [queue[0]]);
    }
  }

  lemma FirstRoundDepth(g: Graph, v: string)
    requires Resolved(g) && v in Peel(g, 1)
    ensures v in Startable(g) && Depth(g, v) == 0
  {}

  lemma LevelIsDepthInv(g: Graph, q: seq<string>)
    requires AtDepth(g, q, 0)
    ensures DepthInv(g, q, [])
  {}

  lemma DepthInvInit(g: Graph)
    requires Resolved(g)
    ensures DepthInv(g, SortedOf(Peel(g, 1)), [])
  {
    var q := SortedOf(Peel(g, 1));
    SortedOfMembers(Peel(g, 1));
    forall v | v in q ensures v in Startable(g) && Depth(g, v) == 0 {
      assert v in Elems(q);
      FirstRoundDepth(g, v);
    }
    LevelIsDepthInv(g, q);
  }

  /** Procedures are listed by non-decreasing dependency depth. */
  lemma KahnOrderByDepth(g: Graph)
    requires Resolved(g)
    ensures AllStartable(g, KahnOrder(g)) && NonDecreasing(Depths(g, KahnOrder(g)))
  {
    KahnInvInit(g);
    DepthInvInit(g);
    KahnDepth(g, SortedOf(Peel(g, 1)), []);
    assert KahnOrder(g) + [] == KahnOrder(g);
  }
}
