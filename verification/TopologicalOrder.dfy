/** What the loader's sort promises: when it succeeds, in which order, what it reports
    otherwise, and that no hash map's iteration order shows in the result. */
module TopologicalOrder {
  import opened Wrappers
  import opened Seqs
  import Ordering
  import opened PreconditionGraph
  import opened KahnSort
  import opened Loader

  /** Every listed precondition, of a procedure or not, names a procedure. */
  ghost predicate AllResolved(ids: seq<string>, pre: map<string, seq<string>>) {
    forall k, d :: k in pre && d in pre[k] ==> d in ids
  }

  lemma OutcomeWhenResolved(ids: seq<string>, pre: map<string, seq<string>>, keyOrder: seq<string>, g: Graph)
    requires Enumerates(keyOrder, pre.Keys)
    ensures SortOutcome(ids, pre, keyOrder, g).UnknownReference? <==> !AllResolved(ids, pre)
    ensures AllResolved(ids, pre) ==> SortOutcome(ids, pre, keyOrder, g) == Verdict(ids, g)
  {
    assert forall k :: k in keyOrder <==> k in Elems(keyOrder);
    NoneDangling(Elems(ids), pre, keyOrder);
    if FirstDangling(Elems(ids), pre, keyOrder) == None {
      forall k, d | k in pre && d in pre[k] ensures d in ids {
        assert k in keyOrder && d in Elems(ids);
      }
    }
  }

  lemma KnownGraphResolved(ids: seq<string>, pre: map<string, seq<string>>)
    requires AllResolved(ids, pre)
    ensures Resolved(KnownGraph(ids, pre)) && Resolved(BuiltinGraph(ids, pre))
  {}

  lemma VerdictOrdered(ids: seq<string>, g: Graph)
    requires Resolved(g) && g.nodes == Elems(ids)
    ensures Verdict(ids, g).Ordered? <==> NoDup(ids) && Acyclic(g)
  {
    KahnOrderCorrect(g);
    StuckOrStartable(g);
    AcyclicIffNothingStuck(g);
    NoDupSize(ids);
    SubsetSize(Startable(g), g.nodes);
  }

  ghost predicate IsTopologicalOrder(order: seq<string>, ids: seq<string>, g: Graph) {
    && NoDup(order)
    && multiset(order) == multiset(ids)
    && forall i, j :: 0 <= i < |order| && 0 <= j < |order| && order[i] in Pre(g, order[j]) ==> i < j
  }

  lemma BeforeMeansEarlier(g: Graph, s: seq<string>)
    requires NoDup(s) && Before(g, s)
    ensures forall i, j :: 0 <= i < |s| && 0 <= j < |s| && s[i] in Pre(g, s[j]) ==> i < j
  {}

  /** Sort correctness: success exactly for distinct ids, resolved references and an acyclic
      graph, and then every procedure once, each precondition before its dependents. */
  lemma SortCorrect(ids: seq<string>, pre: map<string, seq<string>>, keyOrder: seq<string>)
    requires Enumerates(keyOrder, pre.Keys)
    ensures var g := KnownGraph(ids, pre);
            var r := SortOutcome(ids, pre, keyOrder, g);
            && (r.Ordered? <==> NoDup(ids) && AllResolved(ids, pre) && Acyclic(g))
            && (r.Ordered? ==> IsTopologicalOrder(r.order, ids, g))
  {
    var g := KnownGraph(ids, pre);
    OutcomeWhenResolved(ids, pre, keyOrder, g);
    if AllResolved(ids, pre) {
      KnownGraphResolved(ids, pre);
      VerdictOrdered(ids, g);
      if NoDup(ids) && Acyclic(g) {
        KahnOrderCorrect(g);
        StuckOrStartable(g);
        AcyclicIffNothingStuck(g);
        BeforeMeansEarlier(g, KahnOrder(g));
        MultisetOfNoDup(ids);
        MultisetOfNoDup(KahnOrder(g));
      }
    }
  }

  /** Procedures run in order of dependency depth: how many preconditions the longest chain has. */
  lemma SortByDepth(ids: seq<string>, pre: map<string, seq<string>>, keyOrder: seq<string>)
    requires Enumerates(keyOrder, pre.Keys)
    requires SortOutcome(ids, pre, keyOrder, KnownGraph(ids, pre)).Ordered?
    ensures var g, s := KnownGraph(ids, pre), SortOutcome(ids, pre, keyOrder, KnownGraph(ids, pre)).order;
            AllStartable(g, s) && NonDecreasing(Depths(g, s))
  {
    OutcomeWhenResolved(ids, pre, keyOrder, KnownGraph(ids, pre));
    KnownGraphResolved(ids, pre);
    KahnOrderByDepth(KnownGraph(ids, pre));
  }

  /** Cycle report: for distinct ids, the reported list, in blueprint order, is the largest set
      of procedures each waiting for a member of it. */
  lemma CycleReport(ids: seq<string>, pre: map<string, seq<string>>, keyOrder: seq<string>)
    requires Enumerates(keyOrder, pre.Keys) && NoDup(ids)
    requires SortOutcome(ids, pre, keyOrder, KnownGraph(ids, pre)).DagCycle?
    ensures var g, list := KnownGraph(ids, pre), SortOutcome(ids, pre, keyOrder, KnownGraph(ids, pre)).procedures;
            && list != []
            && list == Filter(id => id !in KahnOrder(g), ids)
            && IsLargestWaitingSet(g, Elems(list))
  {
    var g := KnownGraph(ids, pre);
    OutcomeWhenResolved(ids, pre, keyOrder, g);
    KnownGraphResolved(ids, pre);
    ReportIsStuck(ids, g);
    StuckIsLargestSelfSupporting(g);
  }

  ghost function PositionsIn(ids: seq<string>, s: set<string>): set<int> {
    set i | 0 <= i < |ids| && ids[i] in s
  }

  /** Repeated ids or not, what is reported are the entries of the blueprint that wait for each other. */
  lemma CycleReportInOrder(ids: seq<string>, pre: map<string, seq<string>>, keyOrder: seq<string>)
    requires Enumerates(keyOrder, pre.Keys)
    requires SortOutcome(ids, pre, keyOrder, KnownGraph(ids, pre)).DagCycle?
    ensures exists s :: IsLargestWaitingSet(KnownGraph(ids, pre), s) &&
                        Picked(ids, PositionsIn(ids, s), SortOutcome(ids, pre, keyOrder, KnownGraph(ids, pre)).procedures)
  {
    var g := KnownGraph(ids, pre);
    OutcomeWhenResolved(ids, pre, keyOrder, g);
    KnownGraphResolved(ids, pre);
    KahnOrderCorrect(g);
    StuckIsLargestSelfSupporting(g);
    var order := KahnOrder(g);
    forall i | 0 <= i < |ids| ensures i in PositionsIn(ids, Stuck(g)) <==> ids[i] !in order {
      assert ids[i] in g.nodes;
      assert ids[i] in order <==> ids[i] in Elems(order);
    }
    FilterPicks(id => id !in order, ids, PositionsIn(ids, Stuck(g)));
  }

  lemma ReportIsStuck(ids: seq<string>, g: Graph)
    requires Resolved(g) && g.nodes == Elems(ids) && NoDup(ids) && Verdict(ids, g).DagCycle?
    ensures Elems(Verdict(ids, g).procedures) == Stuck(g) && Verdict(ids, g).procedures != []
  {
    var order, list := KahnOrder(g), Verdict(ids, g).procedures;
    KahnOrderCorrect(g);
    FilterMembers(id => id !in order, ids);
    forall v ensures v in list <==> v in Stuck(g) {
      assert v in order <==> v in Elems(order);
    }
    if list == [] {
      VerdictOrdered(ids, g);
      AcyclicIffNothingStuck(g);
    }
  }

  /** A cycle with nobody on it is reported exactly when all references resolve and nothing is
      cyclic, but some id is repeated. */
  lemma RepeatedIdsReportEmptyCycle(ids: seq<string>, pre: map<string, seq<string>>, keyOrder: seq<string>)
    requires Enumerates(keyOrder, pre.Keys)
    ensures SortOutcome(ids, pre, keyOrder, KnownGraph(ids, pre)) == DagCycle([]) <==>
            AllResolved(ids, pre) && !NoDup(ids) && Acyclic(KnownGraph(ids, pre))
  {
    var g := KnownGraph(ids, pre);
    OutcomeWhenResolved(ids, pre, keyOrder, g);
    if AllResolved(ids, pre) {
      KnownGraphResolved(ids, pre);
      VerdictOrdered(ids, g);
      LeftOver(ids, g);
    }
  }

  /** Nobody is left over exactly when nothing is cyclic. */
  lemma LeftOver(ids: seq<string>, g: Graph)
    requires Resolved(g) && g.nodes == Elems(ids)
    ensures Filter(id => id !in KahnOrder(g), ids) == [] <==> Acyclic(g)
  {
    var order := KahnOrder(g);
    KahnOrderCorrect(g);
    StuckOrStartable(g);
    AcyclicIffNothingStuck(g);
    FilterMembers(id => id !in order, ids);
    assert forall id :: id in order <==> id in Elems(order);
    if Stuck(g) == {} {
      FilterNone(id => id !in order, ids);
    } else {
      var v :| v in Stuck(g);
      assert v in Filter(id => id !in order, ids);
    }
  }

  // ----- the dangling reference reported -----

  /** The key at `i` has its first unknown precondition at `j`, and no key before it has one. */
  ghost predicate FirstDanglingAt(ids: seq<string>, pre: map<string, seq<string>>, keyOrder: seq<string>, i: nat, j: nat) {
    && i < |keyOrder| && keyOrder[i] in pre && j < |pre[keyOrder[i]]|
    && pre[keyOrder[i]][j] !in ids
    && (forall b :: 0 <= b < j ==> pre[keyOrder[i]][b] in ids)
    && (forall a, d :: 0 <= a < i && keyOrder[a] in pre && d in pre[keyOrder[a]] ==> d in ids)
  }

  lemma {:induction false} FirstUnknownAt(ids: seq<string>, deps: seq<string>) returns (j: nat)
    requires FirstUnknown(Elems(ids), deps).Some?
    ensures j < |deps| && FirstUnknown(Elems(ids), deps) == Some(deps[j]) && deps[j] !in ids
    ensures forall b :: 0 <= b < j ==> deps[b] in ids
  {
    if deps[0] !in ids {
      j := 0;
    } else {
      var k := FirstUnknownAt(ids, deps[1..]);
      j := k + 1;
      forall b | 0 <= b < j ensures deps[b] in ids {
        assert b > 0 ==> deps[b] == deps[1..][b - 1];
      }
    }
  }

  lemma {:induction false} DanglingAt(ids: seq<string>, pre: map<string, seq<string>>, order: seq<string>) returns (i: nat, j: nat)
    requires forall k :: k in order ==> k in pre
    requires FirstDangling(Elems(ids), pre, order).Some?
    ensures FirstDanglingAt(ids, pre, order, i, j)
    ensures FirstDangling(Elems(ids), pre, order).value == (order[i], pre[order[i]][j])
  {
    NoneUnknown(Elems(ids), pre[order[0]]);
    if FirstUnknown(Elems(ids), pre[order[0]]).Some? {
      i := 0;
      j := FirstUnknownAt(ids, pre[order[0]]);
    } else {
      assert order == [order[0]] + order[1..];
      i, j := DanglingAt(ids, pre, order[1..]);
      i := i + 1;
      forall a, d | 0 <= a < i && d in pre[order[a]] ensures d in ids {
        assert a > 0 ==> order[a] == order[1..][a - 1];
        assert a == 0 ==> d in Elems(ids);
      }
    }
  }

  /** A dangling reference is reported exactly when there is one, and then it is the first that
      the keys' order meets. */
  lemma DanglingReport(ids: seq<string>, pre: map<string, seq<string>>, keyOrder: seq<string>, g: Graph)
    requires Enumerates(keyOrder, pre.Keys)
    ensures var r := SortOutcome(ids, pre, keyOrder, g);
            && (r.UnknownReference? <==> exists k, d :: k in pre && d in pre[k] && d !in ids)
            && (r.UnknownReference? ==>
                  exists i: nat, j: nat :: FirstDanglingAt(ids, pre, keyOrder, i, j)
                                 && r == UnknownReference(keyOrder[i], pre[keyOrder[i]][j]))
  {
    OutcomeWhenResolved(ids, pre, keyOrder, g);
    assert forall k :: k in keyOrder <==> k in Elems(keyOrder);
    if SortOutcome(ids, pre, keyOrder, g).UnknownReference? {
      var i, j := DanglingAt(ids, pre, keyOrder);
    }
  }

  // ----- independence of the maps' iteration order -----

  ghost predicate Dangles(ids: seq<string>, pre: map<string, seq<string>>, k: string) {
    k in pre && exists d :: d in pre[k] && d !in ids
  }

  ghost predicate OrderIndependent(ids: seq<string>, pre: map<string, seq<string>>, g: Graph) {
    forall o, o' :: Enumerates(o, pre.Keys) && Enumerates(o', pre.Keys) ==>
                      SortOutcome(ids, pre, o, g) == SortOutcome(ids, pre, o', g)
  }

  lemma {:induction false} DanglingFound(ids: seq<string>, pre: map<string, seq<string>>, order: seq<string>, k: string)
    requires forall x :: x in order ==> x in pre
    requires k in order && Dangles(ids, pre, k)
    requires forall x :: x in order && Dangles(ids, pre, x) ==> x == k
    ensures FirstUnknown(Elems(ids), pre[k]).Some?
    ensures FirstDangling(Elems(ids), pre, order) == Some((k, FirstUnknown(Elems(ids), pre[k]).value))
  {
    NoneUnknown(Elems(ids), pre[order[0]]);
    if order[0] == k {
    } else {
      assert !Dangles(ids, pre, order[0]);
      assert order == [order[0]] + order[1..];
      DanglingFound(ids, pre, order[1..], k);
    }
  }

  /** An order of the keys that starts with `k`. */
  ghost function StartingWith(keys: set<string>, k: string): (o: seq<string>)
    requires k in keys
    ensures Enumerates(o, keys) && o != [] && o[0] == k
  {
    Ordering.SortedOfMembers(keys - {k});
    PrependNew(keys - {k}, Ordering.SortedOf(keys - {k}), k);
    [k] + Ordering.SortedOf(keys - {k})
  }

  lemma PrependNew(keys: set<string>, rest: seq<string>, k: string)
    requires Enumerates(rest, keys) && k !in keys
    ensures Enumerates([k] + rest, keys + {k})
  {}

  lemma OutcomeOfFirstKey(ids: seq<string>, pre: map<string, seq<string>>, g: Graph, k: string)
    requires Dangles(ids, pre, k)
    ensures SortOutcome(ids, pre, StartingWith(pre.Keys, k), g).UnknownReference?
    ensures SortOutcome(ids, pre, StartingWith(pre.Keys, k), g).procedure == k
  {
    NoneUnknown(Elems(ids), pre[k]);
  }

  lemma OneDanglingKey(ids: seq<string>, pre: map<string, seq<string>>, g: Graph, k: string, o: seq<string>)
    requires Enumerates(o, pre.Keys) && Dangles(ids, pre, k)
    requires forall x :: Dangles(ids, pre, x) ==> x == k
    ensures FirstUnknown(Elems(ids), pre[k]).Some?
    ensures SortOutcome(ids, pre, o, g) == UnknownReference(k, FirstUnknown(Elems(ids), pre[k]).value)
  {
    assert forall x :: x in o <==> x in Elems(o);
    DanglingFound(ids, pre, o, k);
  }

  /** The iteration order can show only in which of several keys with dangling references
      the error names; the computed order and the cycle report never depend on it. */
  lemma OrderIndependence(ids: seq<string>, pre: map<string, seq<string>>, g: Graph)
    ensures OrderIndependent(ids, pre, g) <==>
            forall j, k :: Dangles(ids, pre, j) && Dangles(ids, pre, k) ==> j == k
  {
    if j, k :| Dangles(ids, pre, j) && Dangles(ids, pre, k) && j != k {
      OutcomeOfFirstKey(ids, pre, g, j);
      OutcomeOfFirstKey(ids, pre, g, k);
    } else {
      forall o, o' | Enumerates(o, pre.Keys) && Enumerates(o', pre.Keys)
        ensures SortOutcome(ids, pre, o, g) == SortOutcome(ids, pre, o', g)
      {
        if k :| Dangles(ids, pre, k) {
          OneDanglingKey(ids, pre, g, k, o);
          OneDanglingKey(ids, pre, g, k, o');
        } else {
          forall k, d | k in pre && d in pre[k] ensures d in ids {
            assert !Dangles(ids, pre, k);
          }
          OutcomeWhenResolved(ids, pre, o, g);
          OutcomeWhenResolved(ids, pre, o', g);
        }
      }
    }
  }

  // ----- the two variants of the sort -----

  /** The stray keys that get their turn: all their preconditions are procedures that do. */
  ghost function ReleasedStrays(ids: seq<string>, pre: map<string, seq<string>>): set<string> {
    set k | k in StrayKeys(ids, pre) && forall d :: d in pre[k] ==> d in Startable(KnownGraph(ids, pre))
  }

  /** What the strict sort is short of: procedures that never get their turn, and repeated ids. */
  ghost function Shortfall(ids: seq<string>, pre: map<string, seq<string>>): int {
    |Stuck(KnownGraph(ids, pre))| + |ids| - |Elems(ids)|
  }

  /** When the two variants of the sort agree. A dangling reference they report alike. When the
      strict variant succeeds they agree exactly without stray keys that list a precondition; when
      it reports a cycle, exactly unless the stray keys that get their turn make up for the
      procedures that do not and the ids that are repeated. */
  lemma VariantsAgree(ids: seq<string>, pre: map<string, seq<string>>, keyOrder: seq<string>)
    requires Enumerates(keyOrder, pre.Keys)
    ensures var strict := SortOutcome(ids, pre, keyOrder, KnownGraph(ids, pre));
            var builtin := SortOutcome(ids, pre, keyOrder, BuiltinGraph(ids, pre));
            && (strict.UnknownReference? ==> builtin == strict)
            && (strict.Ordered? ==> (builtin == strict <==> StrayKeys(ids, pre) == {}))
            && (strict.DagCycle? ==> (builtin == strict <==> |ReleasedStrays(ids, pre)| != Shortfall(ids, pre)))
  {
    var g, h := KnownGraph(ids, pre), BuiltinGraph(ids, pre);
    OutcomeWhenResolved(ids, pre, keyOrder, g);
    OutcomeWhenResolved(ids, pre, keyOrder, h);
    if AllResolved(ids, pre) {
      BuiltinCount(ids, pre);
      if Verdict(ids, g).Ordered? {
        OrderedVariantsAgree(ids, pre);
      } else {
        SameReport(ids, pre);
      }
    }
  }

  /** The built-in variant succeeds exactly when all references resolve and the stray keys that get
      their turn are as many as the strict sort is short of. */
  lemma BuiltinSucceedsIff(ids: seq<string>, pre: map<string, seq<string>>, keyOrder: seq<string>)
    requires Enumerates(keyOrder, pre.Keys)
    ensures SortOutcome(ids, pre, keyOrder, BuiltinGraph(ids, pre)).Ordered? <==>
            AllResolved(ids, pre) && |ReleasedStrays(ids, pre)| == Shortfall(ids, pre)
  {
    OutcomeWhenResolved(ids, pre, keyOrder, BuiltinGraph(ids, pre));
    if AllResolved(ids, pre) {
      BuiltinCount(ids, pre);
    }
  }

  /** A procedure, or a key of the file that has preconditions. */
  ghost predicate Counted(ids: seq<string>, pre: map<string, seq<string>>, v: string) {
    v in ids || (v in pre && |pre[v]| > 0)
  }

  /** `v` belongs to a set of which each member waits for another. */
  ghost predicate WaitsForever(ids: seq<string>, pre: map<string, seq<string>>, v: string) {
    exists s: set<string> :: v in s && WaitTogether(ids, pre, s)
  }

  ghost predicate WaitTogether(ids: seq<string>, pre: map<string, seq<string>>, s: set<string>) {
    forall x :: x in s ==> Counted(ids, pre, x) && x in pre && exists u :: u in pre[x] && u in s
  }

  ghost predicate Emits(ids: seq<string>, pre: map<string, seq<string>>, emitted: set<string>) {
    forall v :: v in emitted <==> Counted(ids, pre, v) && !WaitsForever(ids, pre, v)
  }

  ghost predicate PreconditionsEarlier(pre: map<string, seq<string>>, order: seq<string>) {
    forall i, j :: 0 <= i < |order| && 0 <= j < |order| && order[j] in pre && order[i] in pre[order[j]] ==> i < j
  }

  lemma TogetherIff(ids: seq<string>, pre: map<string, seq<string>>, s: set<string>)
    ensures WaitTogether(ids, pre, s) <==> s <= BuiltinGraph(ids, pre).nodes && SelfSupporting(BuiltinGraph(ids, pre), s)
  {
    var h := BuiltinGraph(ids, pre);
    forall x ensures x in h.nodes <==> Counted(ids, pre, x) {}
    forall x ensures WaitsFor(h, x, s) <==> x in pre && exists u :: u in pre[x] && u in s {}
  }

  lemma WaitsIffStuck(ids: seq<string>, pre: map<string, seq<string>>, v: string)
    requires AllResolved(ids, pre)
    ensures WaitsForever(ids, pre, v) <==> v in Stuck(BuiltinGraph(ids, pre))
  {
    var h := BuiltinGraph(ids, pre);
    KnownGraphResolved(ids, pre);
    StuckIsLargestSelfSupporting(h);
    hide WaitTogether, SelfSupporting, Stuck, BuiltinGraph, Resolved, AllResolved;
    TogetherIff(ids, pre, Stuck(h));
    forall s | WaitTogether(ids, pre, s) ensures s <= Stuck(h) {
      TogetherIff(ids, pre, s);
    }
  }

  /** What the built-in sort does when all references resolve: it emits every procedure, and every
      key of the file with preconditions, that does not wait forever, and succeeds exactly when
      those are as many as the blueprint's ids. */
  lemma BuiltinEmits(ids: seq<string>, pre: map<string, seq<string>>, keyOrder: seq<string>, emitted: set<string>)
    requires Enumerates(keyOrder, pre.Keys) && AllResolved(ids, pre) && Emits(ids, pre, emitted)
    ensures match SortOutcome(ids, pre, keyOrder, BuiltinGraph(ids, pre))
            case Ordered(order) =>
              |emitted| == |ids| && NoDup(order) && Elems(order) == emitted && PreconditionsEarlier(pre, order)
            case DagCycle(list) => |emitted| != |ids| && Picked(ids, PositionsIn(ids, Elems(ids) - emitted), list)
            case UnknownReference(_, _) => false
  {
    var h := BuiltinGraph(ids, pre);
    OutcomeWhenResolved(ids, pre, keyOrder, h);
    KnownGraphResolved(ids, pre);
    KahnOrderCorrect(h);
    EmittedStart(ids, pre, emitted);
    hide Emits, Startable, KahnOrder, Before, Resolved, AllResolved, PositionsIn, Picked;
    PrecedesEarlier(ids, pre, KahnOrder(h));
    LeftInOrder(ids, KahnOrder(h), emitted);
  }

  lemma EmittedStart(ids: seq<string>, pre: map<string, seq<string>>, emitted: set<string>)
    requires AllResolved(ids, pre) && Emits(ids, pre, emitted)
    ensures emitted == Startable(BuiltinGraph(ids, pre))
  {
    hide WaitsForever, Startable, AllResolved;
    var h := BuiltinGraph(ids, pre);
    StuckOrStartable(h);
    forall v ensures v in emitted <==> v in Startable(h) {
      WaitsIffStuck(ids, pre, v);
      assert Counted(ids, pre, v) <==> v in h.nodes;
      assert v in h.nodes <==> v in Stuck(h) + Startable(h);
    }
  }

  lemma PrecedesEarlier(ids: seq<string>, pre: map<string, seq<string>>, order: seq<string>)
    requires NoDup(order) && Before(BuiltinGraph(ids, pre), order)
    ensures PreconditionsEarlier(pre, order)
  {
    BeforeMeansEarlier(BuiltinGraph(ids, pre), order);
    forall i, j | 0 <= i < |order| && 0 <= j < |order| && order[j] in pre && order[i] in pre[order[j]] ensures i < j {
      assert order[i] in Pre(BuiltinGraph(ids, pre), order[j]);
    }
  }

  lemma LeftInOrder(ids: seq<string>, order: seq<string>, emitted: set<string>)
    requires Elems(order) == emitted
    ensures Picked(ids, PositionsIn(ids, Elems(ids) - emitted), Filter(id => id !in order, ids))
  {
    forall i | 0 <= i < |ids| ensures i in PositionsIn(ids, Elems(ids) - emitted) <==> ids[i] !in order {
      assert ids[i] in order <==> ids[i] in Elems(order);
    }
    FilterPicks(id => id !in order, ids, PositionsIn(ids, Elems(ids) - emitted));
  }

  /** An acyclic blueprint with distinct ids that lacks a procedure of the file the preconditions
      come from is reported as a cycle with nobody on it, if that procedure had preconditions and
      was nobody's own. */
  lemma MissingProcedureReportsEmptyCycle(ids: seq<string>, pre: map<string, seq<string>>, keyOrder: seq<string>)
    requires Enumerates(keyOrder, pre.Keys) && NoDup(ids) && AllResolved(ids, pre) && Acyclic(KnownGraph(ids, pre))
    requires StrayKeys(ids, pre) != {}
    ensures SortOutcome(ids, pre, keyOrder, BuiltinGraph(ids, pre)) == DagCycle([])
  {
    var g, h := KnownGraph(ids, pre), BuiltinGraph(ids, pre);
    OutcomeWhenResolved(ids, pre, keyOrder, h);
    KnownGraphResolved(ids, pre);
    VerdictOrdered(ids, g);
    OrderedVariantsAgree(ids, pre);
    BuiltinCount(ids, pre);
    var x :| x in StrayKeys(ids, pre);
    AcyclicIffNothingStuck(g);
    StuckOrStartable(g);
    NoDupSize(ids);
    assert x in ReleasedStrays(ids, pre);
    SameReport(ids, pre);
    LeftOver(ids, g);
  }

  /** A file of two procedures, the second after the first. */
  function TwoEntries(a: string, x: string): seq<(string, seq<string>)> {
    [(a, []), (x, [a])]
  }

  /** Take the second procedure out of the blueprint: what is left is one procedure without
      preconditions, and it is rejected as cyclic. */
  lemma RemovedProcedureIsRejected(a: string, x: string, keyOrder: seq<string>)
    requires a != x && Enumerates(keyOrder, Extracted(TwoEntries(a, x), [a]).Keys)
    ensures var pre := Extracted(TwoEntries(a, x), [a]);
            && SortOutcome([a], pre, keyOrder, KnownGraph([a], pre)) == Ordered([a])
            && SortOutcome([a], pre, keyOrder, BuiltinGraph([a], pre)) == DagCycle([])
  {
    var ids, pre := [a], Extracted(TwoEntries(a, x), [a]);
    TwoExtracted(a, x, ids);
    StartsAlone(ids, pre, a, x);
    SortCorrect(ids, pre, keyOrder);
    MissingProcedureReportsEmptyCycle(ids, pre, keyOrder);
    OnlyOrder(SortOutcome(ids, pre, keyOrder, KnownGraph(ids, pre)).order, a);
  }

  /** Rename it to the first instead: the repeated id makes up for the missing one, and the
      blueprint passes, with an order that runs the procedure it does not have. */
  lemma RenamedProcedureIsAccepted(a: string, x: string, keyOrder: seq<string>)
    requires a != x && Enumerates(keyOrder, Extracted(TwoEntries(a, x), [a, a]).Keys)
    ensures var pre := Extracted(TwoEntries(a, x), [a, a]);
            var r := SortOutcome([a, a], pre, keyOrder, BuiltinGraph([a, a], pre));
            r.Ordered? && x in r.order
  {
    var ids, pre := [a, a], Extracted(TwoEntries(a, x), [a, a]);
    TwoExtracted(a, x, ids);
    StartsAlone(ids, pre, a, x);
    BuiltinSucceedsIff(ids, pre, keyOrder);
    OutcomeWhenResolved(ids, pre, keyOrder, BuiltinGraph(ids, pre));
    StrayIsEmitted(ids, pre, x);
  }

  lemma TwoExtracted(a: string, x: string, ids: seq<string>)
    requires a != x && (ids == [a] || ids == [a, a])
    ensures Extracted(TwoEntries(a, x), ids) == map[a := [], x := [a]]
  {
    var e, both := TwoEntries(a, x), map[a := [], x := [a]];
    assert e[..1] == [(a, [])] && e[..1][..0] == [];
    assert FromEntries(e[..1]) == map[a := []];
    assert FromEntries(e) == both;
    assert [a][..0] == [] && [a, a][..1] == [a];
    assert WithEntries(both, [a]) == both;
  }

  lemma StartsAlone(ids: seq<string>, pre: map<string, seq<string>>, a: string, x: string)
    requires a != x && (ids == [a] || ids == [a, a]) && pre == map[a := [], x := [a]]
    ensures AllResolved(ids, pre) && Acyclic(KnownGraph(ids, pre))
    ensures StrayKeys(ids, pre) == ReleasedStrays(ids, pre) == {x} && Shortfall(ids, pre) == |ids| - 1
  {
    var g := KnownGraph(ids, pre);
    assert Elems(ids) == {a} == g.nodes;
    assert a in Peel(g, 1) && |g.nodes| == 1;
    AcyclicIffNothingStuck(g);
    assert StrayKeys(ids, pre) == {x};
  }

  lemma StrayIsEmitted(ids: seq<string>, pre: map<string, seq<string>>, x: string)
    requires AllResolved(ids, pre) && x in ReleasedStrays(ids, pre)
    ensures x in KahnOrder(BuiltinGraph(ids, pre))
  {
    KnownGraphResolved(ids, pre);
    KahnOrderCorrect(BuiltinGraph(ids, pre));
    StrayStartable(ids, pre, x);
    assert x in Elems(KahnOrder(BuiltinGraph(ids, pre)));
  }

  lemma OnlyOrder(order: seq<string>, v: string)
    requires multiset(order) == multiset([v])
    ensures order == [v]
  {
    assert |order| == |multiset(order)|;
    assert order[0] in multiset(order);
  }

  /** What the built-in variant emits: the procedures the strict one does, and the released strays. */
  lemma BuiltinStartable(ids: seq<string>, pre: map<string, seq<string>>)
    requires AllResolved(ids, pre)
    ensures Startable(BuiltinGraph(ids, pre)) == Startable(KnownGraph(ids, pre)) + ReleasedStrays(ids, pre)
  {
    var g, h := KnownGraph(ids, pre), BuiltinGraph(ids, pre);
    StuckOrStartable(g);
    StuckOrStartable(h);
    forall v ensures v in Startable(h) <==> v in Startable(g) || v in ReleasedStrays(ids, pre) {
      if v in ids {
        SameStartable(ids, pre, v);
      } else if v in StrayKeys(ids, pre) {
        StrayStartable(ids, pre, v);
      }
    }
  }

  lemma BuiltinCount(ids: seq<string>, pre: map<string, seq<string>>)
    requires AllResolved(ids, pre)
    ensures |KahnOrder(BuiltinGraph(ids, pre))| - |ids| == |ReleasedStrays(ids, pre)| - Shortfall(ids, pre)
  {
    var g, h := KnownGraph(ids, pre), BuiltinGraph(ids, pre);
    KnownGraphResolved(ids, pre);
    KahnOrderCorrect(h);
    BuiltinStartable(ids, pre);
    StuckOrStartable(g);
    assert Startable(g) !! ReleasedStrays(ids, pre);
    assert |Startable(h)| == |Startable(g)| + |ReleasedStrays(ids, pre)|;
    assert |Stuck(g) + Startable(g)| == |Stuck(g)| + |Startable(g)|;
  }

  /** A stray key gets its turn exactly when its preconditions do. */
  lemma StrayStartable(ids: seq<string>, pre: map<string, seq<string>>, x: string)
    requires AllResolved(ids, pre) && x in StrayKeys(ids, pre)
    ensures x in Startable(BuiltinGraph(ids, pre)) <==> x in ReleasedStrays(ids, pre)
  {
    var g, h := KnownGraph(ids, pre), BuiltinGraph(ids, pre);
    KnownGraphResolved(ids, pre);
    if x in ReleasedStrays(ids, pre) {
      SamePeel(ids, pre, |g.nodes|);
      assert x in Peel(h, |g.nodes| + 1);
      PeelSaturates(h, |g.nodes| + 1, x);
    }
    if x in Startable(h) {
      forall d | d in pre[x] ensures d in Startable(g) {
        assert d in Pre(h, x);
        PeelSaturates(h, |h.nodes| - 1, d);
        SameStartable(ids, pre, d);
      }
    }
  }

  lemma OrderedVariantsAgree(ids: seq<string>, pre: map<string, seq<string>>)
    requires AllResolved(ids, pre) && Verdict(ids, KnownGraph(ids, pre)).Ordered?
    ensures Verdict(ids, BuiltinGraph(ids, pre)) == Verdict(ids, KnownGraph(ids, pre)) <==> StrayKeys(ids, pre) == {}
  {
    var g, h := KnownGraph(ids, pre), BuiltinGraph(ids, pre);
    if StrayKeys(ids, pre) == {} {
      assert h == g;
    } else {
      KnownGraphResolved(ids, pre);
      var x :| x in StrayKeys(ids, pre);
      VerdictOrdered(ids, g);
      AcyclicIffNothingStuck(g);
      StuckOrStartable(g);
      assert x in ReleasedStrays(ids, pre);
      BuiltinCount(ids, pre);
      NoDupSize(ids);
    }
  }

  /** Both variants leave the same procedures over. */
  lemma SameReport(ids: seq<string>, pre: map<string, seq<string>>)
    requires AllResolved(ids, pre)
    ensures Filter(id => id !in KahnOrder(BuiltinGraph(ids, pre)), ids) == Filter(id => id !in KahnOrder(KnownGraph(ids, pre)), ids)
  {
    var g, h := KnownGraph(ids, pre), BuiltinGraph(ids, pre);
    KnownGraphResolved(ids, pre);
    KahnOrderCorrect(g);
    KahnOrderCorrect(h);
    forall id | id in ids ensures id in KahnOrder(h) <==> id in KahnOrder(g) {
      SameStartable(ids, pre, id);
      assert id in KahnOrder(h) <==> id in Elems(KahnOrder(h));
      assert id in KahnOrder(g) <==> id in Elems(KahnOrder(g));
    }
    FilterSame(id => id !in KahnOrder(h), id => id !in KahnOrder(g), ids);
  }

  lemma SameStartable(ids: seq<string>, pre: map<string, seq<string>>, id: string)
    requires AllResolved(ids, pre) && id in ids
    ensures id in Startable(BuiltinGraph(ids, pre)) <==> id in Startable(KnownGraph(ids, pre))
  {
    var g, h := KnownGraph(ids, pre), BuiltinGraph(ids, pre);
    KnownGraphResolved(ids, pre);
    if id in Startable(g) {
      SamePeel(ids, pre, |g.nodes|);
      PeelSaturates(h, |g.nodes|, id);
    }
    if id in Startable(h) {
      PeelOfProcedures(ids, pre, |h.nodes|);
      PeelSaturates(g, |h.nodes|, id);
    }
  }

  lemma {:induction false} PeelOfProcedures(ids: seq<string>, pre: map<string, seq<string>>, k: nat)
    requires AllResolved(ids, pre)
    ensures forall v :: v in Peel(BuiltinGraph(ids, pre), k) && v in ids ==> v in Peel(KnownGraph(ids, pre), k)
  {
    if k == 0 {
    } else {
      PeelOfProcedures(ids, pre, k - 1);
      var g, h := KnownGraph(ids, pre), BuiltinGraph(ids, pre);
      forall v | v in Peel(h, k) && v in ids ensures v in Peel(g, k) {
        assert Pre(h, v) == Pre(g, v);
        forall u | u in Pre(g, v) ensures u in Peel(g, k - 1) {
          assert u in ids;
        }
      }
    }
  }

  lemma {:induction false} SamePeel(ids: seq<string>, pre: map<string, seq<string>>, k: nat)
    ensures Peel(KnownGraph(ids, pre), k) <= Peel(BuiltinGraph(ids, pre), k)
  {
    if k == 0 {
    } else {
      SamePeel(ids, pre, k - 1);
      var g, h := KnownGraph(ids, pre), BuiltinGraph(ids, pre);
      forall v | v in Peel(g, k) ensures v in Peel(h, k) {
        assert v in g.nodes && Pre(h, v) == Pre(g, v);
      }
    }
  }
}
