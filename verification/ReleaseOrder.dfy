/** How the loader's sort breaks ties: a procedure runs by the position of its last precondition,
    and by name among those that became startable together. */
module ReleaseOrder {
  import opened Seqs
  import Ordering
  import opened PreconditionGraph
  import opened KahnSort
  import opened Loader
  import opened TopologicalOrder

  /** `u` comes before `v` in the dictionary: at the first difference it ends or is smaller. */
  ghost predicate Less(u: string, v: string) {
    exists k :: 0 <= k <= |u| && k <= |v| && u[..k] == v[..k] &&
                if k == |u| then k < |v| else k < |v| && u[k] < v[k]
  }

  /** Where the last of `deps` stands in `order`, or -1. */
  ghost function LastPosition(order: seq<string>, deps: seq<string>): (p: int)
    ensures -1 <= p < |order|
    ensures p >= 0 ==> order[p] in deps
    ensures forall j :: p < j < |order| ==> order[j] !in deps
  {
    if order == [] then -1
    else if order[|order| - 1] in deps then |order| - 1
    else
      LastPosition(order[..|order| - 1], deps)
  }

  /** `u` was released before `v`, or together with it and has the smaller name. */
  ghost predicate RunsFirst(g: Graph, order: seq<string>, u: string, v: string) {
    var p, q := LastPosition(order, Pre(g, u)), LastPosition(order, Pre(g, v));
    p < q || (p == q && Less(u, v))
  }

  ghost predicate ByRelease(g: Graph, order: seq<string>) {
    forall i, j :: 0 <= i < j < |order| ==> RunsFirst(g, order, order[i], order[j])
  }

  lemma {:induction false} SmallerIsLess(u: string, v: string)
    requires Ordering.StrLe(u, v) && u != v
    ensures Less(u, v)
  {
    if u == [] {
      assert u[..0] == v[..0];
    } else if u[0] < v[0] {
      assert u[..0] == v[..0];
    } else {
      assert u == [u[0]] + u[1..] && v == [v[0]] + v[1..];
      var u', v' := u[1..], v[1..];
      SmallerIsLess(u', v');
      var k :| 0 <= k <= |u'| && k <= |v'| && u'[..k] == v'[..k] && if k == |u'| then k < |v'| else k < |v'| && u'[k] < v'[k];
      assert u[..k + 1] == [u[0]] + u'[..k] && v[..k + 1] == [v[0]] + v'[..k];
    }
  }

  lemma LessOneWay(u: string, v: string)
    requires Less(u, v)
    ensures !Less(v, u)
  {
    var k :| 0 <= k <= |u| && k <= |v| && u[..k] == v[..k] && if k == |u| then k < |v| else k < |v| && u[k] < v[k];
    forall l | 0 <= l <= |v| && l <= |u| && v[..l] == u[..l] ensures l <= k {
      EqualBelow(u, v, l);
    }
  }

  lemma EqualBelow<T>(u: seq<T>, v: seq<T>, n: nat)
    requires n <= |u| && n <= |v| && u[..n] == v[..n]
    ensures forall k :: 0 <= k < n ==> u[k] == v[k]
  {
    assert forall k :: 0 <= k < n ==> u[..n][k] == v[..n][k];
  }

  lemma LastIs(order: seq<string>, deps: seq<string>, p: int)
    requires -1 <= p < |order| && (p >= 0 ==> order[p] in deps) && forall j :: p < j < |order| ==> order[j] !in deps
    ensures LastPosition(order, deps) == p
  {}

  /** What holds between two dequeues. */
  ghost predicate ReleaseInv(g: Graph, queue: seq<string>, sorted: seq<string>) {
    && ByRelease(g, sorted + queue)
    && forall v :: v in sorted + queue ==> LastPosition(sorted + queue, Pre(g, v)) < |sorted|
  }

  /** Later releases do not move the last precondition of an earlier one. */
  lemma LastStays(g: Graph, queue: seq<string>, sorted: seq<string>, more: seq<string>, v: string)
    requires KahnInv(g, queue, sorted) && v in sorted + queue
    requires forall x :: x in more ==> x !in sorted && x !in queue
    ensures LastPosition(sorted + queue + more, Pre(g, v)) == LastPosition(sorted + queue, Pre(g, v))
  {
    var full, longer := sorted + queue, sorted + queue + more;
    assert v in Elems(full);
    var p := LastPosition(full, Pre(g, v));
    forall j | p < j < |longer| ensures longer[j] !in Pre(g, v) {
      if j < |full| {
        assert longer[j] == full[j];
      } else {
        assert longer[j] in more;
      }
    }
    LastIs(longer, Pre(g, v), p);
  }

  /** What a dequeue releases has the dequeued procedure as its last precondition. */
  lemma ReleasedLast(g: Graph, queue: seq<string>, sorted: seq<string>, released: seq<string>, v: string)
    requires KahnInv(g, queue, sorted) && queue != [] && v in Released(g, Elems(sorted), queue[0])
    requires forall x :: x in released ==> x !in sorted && x !in queue
    ensures LastPosition(sorted + queue + released, Pre(g, v)) == |sorted|
  {
    KahnInvMembers(g, queue, sorted);
    var full := sorted + queue + released;
    assert full[|sorted|] == queue[0];
    forall j | |sorted| < j < |full| ensures full[j] !in Pre(g, v) {
      if j < |sorted + queue| {
        assert full[j] == queue[j - |sorted|];
      } else {
        assert full[j] in released;
      }
      assert full[j] !in Elems(sorted) + {queue[0]};
    }
    LastIs(full, Pre(g, v), |sorted|);
  }

  ghost predicate NamesAscend(s: seq<string>) {
    forall i, j :: 0 <= i < j < |s| ==> Less(s[i], s[j])
  }

  lemma SortedNamesAscend(s: set<string>)
    ensures NamesAscend(Ordering.SortedOf(s))
  {
    var r := Ordering.SortedOf(s);
    Ordering.SortedOfMembers(s);
    Ordering.SortIdsSorted(Ordering.Listing(s));
    forall i, j | 0 <= i < j < |r| ensures Less(r[i], r[j]) {
      SmallerIsLess(r[i], r[j]);
    }
  }

  /** The last preconditions of `s`, seen from `order`, stand at `k`. */
  ghost predicate AllLastAt(g: Graph, order: seq<string>, s: seq<string>, k: int) {
    forall i :: 0 <= i < |s| ==> LastPosition(order, Pre(g, s[i])) == k
  }

  lemma GroupByName(g: Graph, order: seq<string>, s: seq<string>, k: int, i: nat, j: nat)
    requires AllLastAt(g, order, s, k) && NamesAscend(s) && i < j < |s|
    ensures RunsFirst(g, order, s[i], s[j])
  {}

  /** The last preconditions of `s` stand before `k`, and `more` does not move them. */
  ghost predicate Settled(g: Graph, s: seq<string>, more: seq<string>, k: int) {
    forall v {:trigger v in s} :: v in s ==> LastPosition(s + more, Pre(g, v)) == LastPosition(s, Pre(g, v)) < k
  }

  lemma AppendGroup(g: Graph, full: seq<string>, released: seq<string>, k: int)
    requires ByRelease(g, full) && Settled(g, full, released, k)
    requires AllLastAt(g, full + released, released, k) && NamesAscend(released)
    ensures ByRelease(g, full + released)
  {
    var longer := full + released;
    forall i, j | 0 <= i < j < |longer| ensures RunsFirst(g, longer, longer[i], longer[j]) {
      if j < |full| {
        assert longer[i] == full[i] && full[i] in full && longer[j] == full[j] && full[j] in full;
        assert RunsFirst(g, full, full[i], full[j]);
      } else if i < |full| {
        assert longer[i] == full[i] && full[i] in full && longer[j] == released[j - |full|];
      } else {
        assert longer[i] == released[i - |full|] && longer[j] == released[j - |full|];
        GroupByName(g, longer, released, k, i - |full|, j - |full|);
      }
    }
  }

  lemma AllSettled(g: Graph, queue: seq<string>, sorted: seq<string>, more: seq<string>)
    requires KahnInv(g, queue, sorted) && ReleaseInv(g, queue, sorted)
    requires forall x :: x in more ==> x !in sorted && x !in queue
    ensures Settled(g, sorted + queue, more, |sorted|)
  {
    forall v {:trigger v in sorted + queue} | v in sorted + queue
      ensures LastPosition(sorted + queue + more, Pre(g, v)) == LastPosition(sorted + queue, Pre(g, v)) < |sorted|
    {
      LastStays(g, queue, sorted, more, v);
    }
  }

  lemma AllReleasedLast(g: Graph, queue: seq<string>, sorted: seq<string>, released: seq<string>)
    requires KahnInv(g, queue, sorted) && queue != [] && Elems(released) == Released(g, Elems(sorted), queue[0])
    requires forall x :: x in released ==> x !in sorted && x !in queue
    ensures AllLastAt(g, sorted + queue + released, released, |sorted|)
  {
    forall i | 0 <= i < |released| ensures LastPosition(sorted + queue + released, Pre(g, released[i])) == |sorted| {
      assert released[i] in Elems(released);
      ReleasedLast(g, queue, sorted, released, released[i]);
    }
  }

  lemma AppendInv(g: Graph, queue: seq<string>, sorted: seq<string>, released: seq<string>)
    requires queue != [] && ReleaseInv(g, queue, sorted) && Settled(g, sorted + queue, released, |sorted|)
    requires AllLastAt(g, sorted + queue + released, released, |sorted|) && NamesAscend(released)
    ensures ReleaseInv(g, queue[1..] + released, sorted + [queue[0]])
  {
    var full := sorted + queue;
    AppendGroup(g, full, released, |sorted|);
    AppendedLast(g, full, released, |sorted|);
    assert sorted + [queue[0]] + (queue[1..] + released) == full + released;
  }

  lemma AppendedLast(g: Graph, full: seq<string>, released: seq<string>, k: int)
    requires Settled(g, full, released, k) && AllLastAt(g, full + released, released, k)
    ensures forall v :: v in full + released ==> LastPosition(full + released, Pre(g, v)) <= k
  {
    forall v | v in full + released ensures LastPosition(full + released, Pre(g, v)) <= k {
      if v !in full {
        var i :| 0 <= i < |released| && released[i] == v;
      }
    }
  }

  lemma ReleaseInvNext(g: Graph, queue: seq<string>, sorted: seq<string>)
    requires KahnInv(g, queue, sorted) && queue != [] && ReleaseInv(g, queue, sorted)
    ensures ReleaseInv(g, queue[1..] + Ordering.SortedOf(Released(g, Elems(sorted), queue[0])), sorted + [queue[0]])
  {
    var released := Ordering.SortedOf(Released(g, Elems(sorted), queue[0]));
    NextQueueMembers(g, queue, sorted);
    SortedNamesAscend(Released(g, Elems(sorted), queue[0]));
    AllSettled(g, queue, sorted, released);
    AllReleasedLast(g, queue, sorted, released);
    AppendInv(g, queue, sorted, released);
  }

  /** Procedures without preconditions have no last one. */
  lemma NoneWaiting(g: Graph, q: seq<string>)
    requires NamesAscend(q) && forall v, u :: v in q && u in q ==> u !in Pre(g, v)
    ensures ReleaseInv(g, q, [])
  {
    assert [] + q == q;
    forall i | 0 <= i < |q| ensures LastPosition(q, Pre(g, q[i])) == -1 {
      forall j | 0 <= j < |q| ensures q[j] !in Pre(g, q[i]) {
        assert q[i] in q && q[j] in q;
      }
      LastIs(q, Pre(g, q[i]), -1);
    }
    forall i, j | 0 <= i < j < |q| ensures RunsFirst(g, q, q[i], q[j]) {
      GroupByName(g, q, q, -1, i, j);
    }
  }

  lemma ReleaseInvInit(g: Graph)
    ensures ReleaseInv(g, Ordering.SortedOf(Peel(g, 1)), [])
  {
    var q := Ordering.SortedOf(Peel(g, 1));
    Ordering.SortedOfMembers(Peel(g, 1));
    SortedNamesAscend(Peel(g, 1));
    forall v, u | v in q && u in q ensures u !in Pre(g, v) {
      assert v in Elems(q) && v in Peel(g, 1);
      assert Peel(g, 0) == {};
    }
    NoneWaiting(g, q);
  }

  lemma {:induction false} KahnByRelease(g: Graph, queue: seq<string>, sorted: seq<string>)
    requires KahnInv(g, queue, sorted) && ReleaseInv(g, queue, sorted)
    ensures ByRelease(g, Kahn(g, queue, sorted))
    decreases |g.nodes| - |sorted|
  {
    if queue == [] {
      assert sorted + queue == sorted;
    } else {
      KahnInvMembers(g, queue, sorted);
      KahnUnfold(g, queue, sorted);
      ReleaseInvNext(g, queue, sorted);
      KahnByRelease(g, queue[1..] + Ordering.SortedOf(Released(g, Elems(sorted), queue[0])), sorted + [queue[0]]);
    }
  }

  /** Of two procedures the one whose last precondition ran earlier comes first, and of two that
      waited for the same one, or for none, the one with the smaller name. Both sorts do this, each
      on its own graph. */
  lemma SortByRelease(ids: seq<string>, pre: map<string, seq<string>>, keyOrder: seq<string>, g: Graph)
    requires Enumerates(keyOrder, pre.Keys) && SortOutcome(ids, pre, keyOrder, g).Ordered?
    ensures ByRelease(g, SortOutcome(ids, pre, keyOrder, g).order)
  {
    OutcomeWhenResolved(ids, pre, keyOrder, g);
    KahnInvInit(g);
    ReleaseInvInit(g);
    KahnByRelease(g, Ordering.SortedOf(Peel(g, 1)), []);
  }

  /** The last precondition of the entry at `i` lies in the part before `i`, however the rest is arranged. */
  lemma LastInPrefix(g: Graph, order: seq<string>, other: seq<string>, i: nat)
    requires i < |order| && i <= |other| && order[..i] == other[..i] && NoDup(other)
    requires Elems(other) == Elems(order)
    requires forall u :: u in Pre(g, order[i]) && u in order ==> u in order[..i]
    ensures LastPosition(other, Pre(g, order[i])) == LastPosition(order[..i], Pre(g, order[i]))
  {
    var p := LastPosition(order[..i], Pre(g, order[i]));
    forall k | p < k < |other| ensures other[k] !in Pre(g, order[i]) {
      if k < i {
        assert other[k] == other[..i][k] == order[..i][k];
      } else {
        assert other[k] !in other[..i];
        assert other[k] in Elems(order);
      }
    }
    LastIs(other, Pre(g, order[i]), p);
  }

  /** Nothing is left open: the two conditions admit one order only. */
  lemma ReleaseDetermines(ids: seq<string>, g: Graph, s: seq<string>, t: seq<string>)
    requires IsTopologicalOrder(s, ids, g) && ByRelease(g, s)
    requires IsTopologicalOrder(t, ids, g) && ByRelease(g, t)
    ensures s == t
  {
    SameElements(s, t);
    AgreeUpTo(ids, g, s, t, |s|);
    assert s[..|s|] == s && t[..|s|] == t;
  }

  lemma SameElements(s: seq<string>, t: seq<string>)
    requires multiset(s) == multiset(t)
    ensures |s| == |t| && Elems(s) == Elems(t)
  {
    assert |s| == |multiset(s)| == |multiset(t)| == |t|;
    forall x ensures x in s <==> x in t {
      assert x in s <==> x in multiset(s);
      assert x in t <==> x in multiset(t);
    }
  }

  lemma {:induction false} AgreeUpTo(ids: seq<string>, g: Graph, s: seq<string>, t: seq<string>, i: nat)
    requires IsTopologicalOrder(s, ids, g) && ByRelease(g, s)
    requires IsTopologicalOrder(t, ids, g) && ByRelease(g, t)
    requires |s| == |t| && Elems(s) == Elems(t) && i <= |s|
    ensures s[..i] == t[..i]
  {
    if i == 0 {
    } else {
      AgreeUpTo(ids, g, s, t, i - 1);
      NextAgrees(ids, g, s, t, i - 1);
      assert s[..i] == s[..i - 1] + [s[i - 1]] && t[..i] == t[..i - 1] + [t[i - 1]];
    }
  }

  lemma PlacedLater(s: seq<string>, t: seq<string>, i: nat) returns (j: nat)
    requires NoDup(t) && Elems(s) == Elems(t) && i < |s| == |t| && s[..i] == t[..i] && s[i] != t[i]
    ensures i < j < |s| && s[j] == t[i]
  {
    assert t[i] in Elems(s);
    j :| 0 <= j < |s| && s[j] == t[i];
    EqualBelow(s, t, i);
  }

  lemma NextAgrees(ids: seq<string>, g: Graph, s: seq<string>, t: seq<string>, i: nat)
    requires IsTopologicalOrder(s, ids, g) && ByRelease(g, s)
    requires IsTopologicalOrder(t, ids, g) && ByRelease(g, t)
    requires |s| == |t| && Elems(s) == Elems(t) && i < |s| && s[..i] == t[..i]
    ensures s[i] == t[i]
  {
    if s[i] != t[i] {
      var j := PlacedLater(s, t, i);
      var k := PlacedLater(t, s, i);
      SameLast(g, ids, s, t, i);
      SameLast(g, ids, t, s, i);
      assert RunsFirst(g, s, s[i], s[j]) && RunsFirst(g, t, t[i], t[k]);
      if Less(s[i], t[i]) {
        LessOneWay(s[i], t[i]);
      }
    }
  }

  lemma SameLast(g: Graph, ids: seq<string>, s: seq<string>, t: seq<string>, i: nat)
    requires IsTopologicalOrder(s, ids, g) && IsTopologicalOrder(t, ids, g)
    requires |s| == |t| && Elems(s) == Elems(t) && i < |s| && s[..i] == t[..i]
    ensures LastPosition(s, Pre(g, s[i])) == LastPosition(t, Pre(g, s[i]))
  {
    forall u | u in Pre(g, s[i]) && u in s ensures u in s[..i] {
      var a :| 0 <= a < |s| && s[a] == u;
      assert s[..i][a] == u;
    }
    LastInPrefix(g, s, t, i);
    LastInPrefix(g, s, s, i);
  }
}
