/** The two topological sorts of the blueprint loader, with their in-degree counters,
    adjacency lists and queue. A hash map's iteration order is the parameter `keyOrder`
    where it can show in the result and an arbitrary pick where it cannot. */
module Loader {
  import opened Wrappers
  import opened Seqs
  import opened Ordering
  import opened Blueprint
  import opened PreconditionGraph
  import opened KahnSort

  datatype SortResult =
    | Ordered(order: seq<string>)
    | DagCycle(procedures: seq<string>)
    | UnknownReference(procedure: string, dependency: string)

  ghost predicate Enumerates(order: seq<string>, keys: set<string>) {
    NoDup(order) && Elems(order) == keys
  }

  // ----- what the sorts compute -----

  function FirstUnknown(ids: set<string>, deps: seq<string>): Option<string> {
    if deps == [] then None
    else if deps[0] !in ids then Some(deps[0])
    else
      FirstUnknown(ids, deps[1..])
  }

  /** The first dangling reference met when the keys are visited in `order`. */
  function FirstDangling(ids: set<string>, pre: map<string, seq<string>>, order: seq<string>): Option<(string, string)>
    requires forall k :: k in order ==> k in pre
  {
    if order == [] then None
    else
      match FirstUnknown(ids, pre[order[0]])
      case Some(dep) => Some((order[0], dep))
      case None => FirstDangling(ids, pre, order[1..])
  }

  /** Only keys that are procedures enter this graph. */
  ghost function KnownGraph(ids: seq<string>, pre: map<string, seq<string>>): Graph {
    Graph(Elems(ids), pre)
  }

  /** The built-in variant also admits keys that are no procedure, once they have a precondition. */
  ghost function BuiltinGraph(ids: seq<string>, pre: map<string, seq<string>>): Graph {
    Graph(Elems(ids) + StrayKeys(ids, pre), pre)
  }

  ghost function StrayKeys(ids: seq<string>, pre: map<string, seq<string>>): set<string> {
    set k | k in pre && k !in ids && pre[k] != []
  }

  /** Order the graph and compare lengths; on a mismatch report the procedures left over. */
  ghost function Verdict(ids: seq<string>, g: Graph): SortResult {
    var order := KahnOrder(g);
    if |order| != |ids| then DagCycle(Filter(id => id !in order, ids)) else Ordered(order)
  }

  ghost function SortOutcome(
    ids: seq<string>, pre: map<string, seq<string>>, keyOrder: seq<string>, g: Graph): SortResult
    requires Enumerates(keyOrder, pre.Keys)
  {
    assert forall k :: k in keyOrder ==> k in Elems(keyOrder);
    match FirstDangling(Elems(ids), pre, keyOrder)
    case Some(d) => UnknownReference(d.0, d.1)
    case None => Verdict(ids, g)
  }

  // ----- counting -----

  function Deps(m: map<string, seq<string>>, k: string): seq<string> {
    if k in m then m[k] else []
  }

  /** How many entries of `s` are not in `done`, repeats counted. */
  ghost function Unmet(s: seq<string>, done: set<string>): nat {
    if s == [] then 0 else (if s[0] in done then 0 else 1) + Unmet(s[1..], done)
  }

  lemma {:induction false} UnmetInitially(s: seq<string>)
    ensures Unmet(s, {}) == |s|
  {
    if s == [] {
    } else {
      UnmetInitially(s[1..]);
    }
  }

  lemma {:induction false} UnmetZero(s: seq<string>, done: set<string>)
    ensures Unmet(s, done) == 0 <==> forall u :: u in s ==> u in done
  {
    if s == [] {
    } else {
      UnmetZero(s[1..], done);
      assert s == [s[0]] + s[1..];
    }
  }

  lemma {:induction false} UnmetStep(s: seq<string>, done: set<string>, u: string)
    requires u !in done
    ensures Unmet(s, done) == Unmet(s, done + {u}) + multiset(s)[u]
  {
    if s == [] {
    } else {
      UnmetStep(s[1..], done, u);
      assert s == [s[0]] + s[1..];
    }
  }

  /** How often `x` occurs in the list under `k`. */
  ghost function Listed(m: map<string, seq<string>>, k: string, x: string): nat {
    multiset(Deps(m, k))[x]
  }

  lemma ListedPush(m: map<string, seq<string>>, k: string, x: string, a: string, b: string)
    ensures Listed(m[k := Deps(m, k) + [x]], a, b) == Listed(m, a, b) + if a == k && b == x then 1 else 0
  {}

  /** Counters and adjacency lists record exactly the precondition entries in `seen`. */
  ghost predicate CountsMatch(
    inDegree: map<string, nat>, dependents: map<string, seq<string>>, seen: map<string, seq<string>>)
  {
    && (forall v :: v in inDegree ==> inDegree[v] == |Deps(seen, v)|)
    && (forall v :: v in seen ==> v in inDegree)
    && (forall u, v :: Listed(dependents, u, v) == Listed(seen, v, u))
  }

  method CollectIds(bp: AuditBlueprint) returns (allIds: seq<string>)
    ensures allIds == ProcedureIds(bp)
    ensures Joins(allIds, PhaseIds(bp.phases))
  {
    allIds := [];
    for i := 0 to |bp.phases|
      invariant allIds == IdsOf(ProceduresOf(bp.phases[..i]))
    {
      var procs := bp.phases[i].procedures;
      ghost var before := ProceduresOf(bp.phases[..i]);
      for j := 0 to |procs|
        invariant allIds == IdsOf(before + procs[..j])
      {
        allIds := allIds + [procs[j].id];
      }
      assert procs[..|procs|] == procs;
      assert bp.phases[..i + 1][..i] == bp.phases[..i];
    }
    assert bp.phases[..|bp.phases|] == bp.phases;
    IdsJoinPhases(bp.phases);
  }

  lemma CountDependency(
    inDegree: map<string, nat>, dependents: map<string, seq<string>>, seen: map<string, seq<string>>,
    v: string, u: string)
    requires CountsMatch(inDegree, dependents, seen)
    ensures CountsMatch(
              inDegree[v := (if v in inDegree then inDegree[v] else 0) + 1],
              dependents[u := Deps(dependents, u) + [v]],
              seen[v := Deps(seen, v) + [u]])
  {
    var dependents', seen' := dependents[u := Deps(dependents, u) + [v]], seen[v := Deps(seen, v) + [u]];
    forall a, b ensures Listed(dependents', a, b) == Listed(seen', b, a) {
      ListedPush(dependents, u, v, a, b);
      ListedPush(seen, v, u, b, a);
    }
  }

  /** The keys the build loop admits: all of them, or only procedures. */
  predicate Admitted(ids: set<string>, strays: bool, k: string) {
    strays || k in ids
  }

  ghost function Counted(
    ids: set<string>, pre: map<string, seq<string>>, strays: bool, done: set<string>, k: string): seq<string>
  {
    if k in done && Admitted(ids, strays, k) then Deps(pre, k) else []
  }

  ghost predicate CountedUpTo(
    ids: set<string>, pre: map<string, seq<string>>, strays: bool, done: set<string>,
    inDegree: map<string, nat>, seen: map<string, seq<string>>)
  {
    && (forall k :: Deps(seen, k) == Counted(ids, pre, strays, done, k))
    && (forall k :: k in inDegree <==> k in ids || Counted(ids, pre, strays, done, k) != [])
  }

  lemma CountedStep(
    ids: set<string>, pre: map<string, seq<string>>, strays: bool, done: set<string>, key: string,
    inDegree: map<string, nat>, seen: map<string, seq<string>>,
    inDegree': map<string, nat>, seen': map<string, seq<string>>)
    requires CountedUpTo(ids, pre, strays, done, inDegree, seen) && key in pre && key !in done
    requires if Admitted(ids, strays, key)
             then Deps(seen', key) == pre[key] && (forall k :: k != key ==> Deps(seen', k) == Deps(seen, k))
                  && inDegree'.Keys == inDegree.Keys + if pre[key] == [] then {} else {key}
             else seen' == seen && inDegree' == inDegree
    ensures CountedUpTo(ids, pre, strays, done + {key}, inDegree', seen')
  {}

  method CountEntry(
    proc: string, deps: seq<string>, ids: set<string>,
    inDegree0: map<string, nat>, dependents0: map<string, seq<string>>, ghost seen0: map<string, seq<string>>)
    returns (inDegree: map<string, nat>, dependents: map<string, seq<string>>, ghost seen: map<string, seq<string>>)
    requires CountsMatch(inDegree0, dependents0, seen0) && Deps(seen0, proc) == []
    requires forall d :: d in deps ==> d in ids
    ensures CountsMatch(inDegree, dependents, seen)
    ensures Deps(seen, proc) == deps && forall k :: k != proc ==> Deps(seen, k) == Deps(seen0, k)
    ensures inDegree.Keys == inDegree0.Keys + if deps == [] then {} else {proc}
  {
    inDegree, dependents, seen := inDegree0, dependents0, seen0;
    for j := 0 to |deps|
      invariant CountsMatch(inDegree, dependents, seen)
      invariant Deps(seen, proc) == deps[..j] && forall k :: k != proc ==> Deps(seen, k) == Deps(seen0, k)
      invariant inDegree.Keys == inDegree0.Keys + if j == 0 then {} else {proc}
    {
      var dep := deps[j];
      if dep in ids {
        CountDependency(inDegree, dependents, seen, proc, dep);
        inDegree := inDegree[proc := (if proc in inDegree then inDegree[proc] else 0) + 1];
        dependents := dependents[dep := Deps(dependents, dep) + [proc]];
        seen := seen[proc := Deps(seen, proc) + [dep]];
        assert deps[..j + 1] == deps[..j] + [dep];
      }
    }
    assert deps[..|deps|] == deps;
  }

  method ZeroDegrees(ids: seq<string>) returns (inDegree: map<string, nat>)
    ensures inDegree.Keys == Elems(ids) && forall v :: v in inDegree ==> inDegree[v] == 0
  {
    inDegree := map[];
    for i := 0 to |ids|
      invariant inDegree.Keys == Elems(ids[..i]) && forall v :: v in inDegree ==> inDegree[v] == 0
    {
      inDegree := inDegree[ids[i] := 0];
      assert ids[..i + 1] == ids[..i] + [ids[i]];
    }
    assert ids[..|ids|] == ids;
  }

  method BuildCounts(ids: seq<string>, pre: map<string, seq<string>>, keyOrder: seq<string>, strays: bool)
    returns (inDegree: map<string, nat>, dependents: map<string, seq<string>>, ghost seen: map<string, seq<string>>)
    requires Enumerates(keyOrder, pre.Keys)
    requires forall k, d :: k in pre && d in pre[k] ==> d in Elems(ids)
    ensures CountsMatch(inDegree, dependents, seen)
    ensures CountedUpTo(Elems(ids), pre, strays, pre.Keys, inDegree, seen)
  {
    inDegree := ZeroDegrees(ids);
    dependents := map[];
    seen := map[];
    var idSet := Elems(ids);
    for i := 0 to |keyOrder|
      invariant CountsMatch(inDegree, dependents, seen)
      invariant CountedUpTo(idSet, pre, strays, Elems(keyOrder[..i]), inDegree, seen)
    {
      var key := keyOrder[i];
      PrefixStep(keyOrder, i);
      assert key in Elems(keyOrder);
      assert Counted(idSet, pre, strays, Elems(keyOrder[..i]), key) == [];
      ghost var inDegree0, seen0 := inDegree, seen;
      if Admitted(idSet, strays, key) {
        inDegree, dependents, seen := CountEntry(key, pre[key], idSet, inDegree, dependents, seen);
      }
      CountedStep(idSet, pre, strays, Elems(keyOrder[..i]), key, inDegree0, seen0, inDegree, seen);
    }
    assert keyOrder[..|keyOrder|] == keyOrder;
  }

  // ----- the queue -----

  ghost function Occurs(s: seq<string>, x: string): nat {
    multiset(s)[x]
  }

  lemma OccursPrefix(s: seq<string>, j: nat)
    requires j < |s|
    ensures forall x :: Occurs(s[..j + 1], x) == Occurs(s[..j], x) + if x == s[j] then 1 else 0
    ensures forall x :: Occurs(s[..j + 1], x) <= Occurs(s, x)
    ensures forall x :: x in s[..j] <==> Occurs(s[..j], x) > 0
  {
    assert s[..j + 1] == s[..j] + [s[j]];
    assert s == s[..j + 1] + s[j + 1..];
  }

  /** Each counter is the number of precondition entries still outstanding. */
  ghost predicate DegreesAt(g: Graph, inDegree: map<string, nat>, done: set<string>) {
    && inDegree.Keys == g.nodes
    && forall v :: v in g.nodes ==> inDegree[v] == Unmet(Pre(g, v), done)
  }

  ghost predicate IsFanOut(g: Graph, u: string, deps: seq<string>) {
    forall v :: Occurs(deps, v) == if v in g.nodes then Occurs(Pre(g, v), u) else 0
  }

  ghost predicate Adjacent(g: Graph, dependents: map<string, seq<string>>) {
    forall u :: IsFanOut(g, u, Deps(dependents, u))
  }

  ghost predicate Releasing(
    g: Graph, done: set<string>, seen: seq<string>, inDegree: map<string, nat>, nextNodes: seq<string>)
  {
    && inDegree.Keys == g.nodes
    && (forall v :: v in g.nodes ==> inDegree[v] + Occurs(seen, v) == Unmet(Pre(g, v), done))
    && NoDup(nextNodes)
    && (forall v :: v in nextNodes <==> v in g.nodes && Occurs(seen, v) > 0 && inDegree[v] == 0)
  }

  /** The counters run out exactly for the procedures `node` releases. */
  lemma ReleasingDone(
    g: Graph, done: set<string>, node: string, deps: seq<string>, inDegree: map<string, nat>, nextNodes: seq<string>)
    requires node !in done && IsFanOut(g, node, deps) && Releasing(g, done, deps, inDegree, nextNodes)
    ensures DegreesAt(g, inDegree, done + {node})
    ensures Elems(nextNodes) == Released(g, done, node)
  {
    forall v | v in g.nodes
      ensures inDegree[v] == Unmet(Pre(g, v), done + {node})
      ensures v in nextNodes <==> v in Released(g, done, node)
    {
      UnmetStep(Pre(g, v), done, node);
      UnmetZero(Pre(g, v), done + {node});
      assert Occurs(deps, v) > 0 <==> node in Pre(g, v);
    }
  }

  /** There is still something to count down for the next dependent. */
  lemma CounterLeft(g: Graph, done: set<string>, node: string, deps: seq<string>, j: nat)
    requires node !in done && IsFanOut(g, node, deps) && j < |deps|
    ensures deps[j] in g.nodes && Occurs(deps[..j], deps[j]) < Unmet(Pre(g, deps[j]), done)
  {
    var dep := deps[j];
    UnmetStep(Pre(g, dep), done, node);
    OccursPrefix(deps, j);
    assert Occurs(deps, dep) > 0;
  }

  lemma ReleasingStep(
    g: Graph, done: set<string>, deps: seq<string>, j: nat, inDegree: map<string, nat>, nextNodes: seq<string>)
    requires j < |deps| && Releasing(g, done, deps[..j], inDegree, nextNodes)
    requires deps[j] in g.nodes && Occurs(deps[..j], deps[j]) < Unmet(Pre(g, deps[j]), done)
    ensures inDegree[deps[j]] > 0
    ensures var less := inDegree[deps[j] := inDegree[deps[j]] - 1];
            Releasing(g, done, deps[..j + 1], less, if less[deps[j]] == 0 then nextNodes + [deps[j]] else nextNodes)
  {
    OccursPrefix(deps, j);
  }

  method Release(
    inDegree0: map<string, nat>, deps: seq<string>, node: string, ghost g: Graph, ghost done: set<string>)
    returns (inDegree: map<string, nat>, nextNodes: seq<string>)
    requires DegreesAt(g, inDegree0, done) && node !in done && IsFanOut(g, node, deps)
    ensures DegreesAt(g, inDegree, done + {node})
    ensures NoDup(nextNodes) && Elems(nextNodes) == Released(g, done, node)
  {
    inDegree, nextNodes := inDegree0, [];
    for j := 0 to |deps|
      invariant Releasing(g, done, deps[..j], inDegree, nextNodes)
    {
      var dep := deps[j];
      CounterLeft(g, done, node, deps, j);
      ReleasingStep(g, done, deps, j, inDegree, nextNodes);
      if dep in inDegree {
        inDegree := inDegree[dep := inDegree[dep] - 1];
        if inDegree[dep] == 0 {
          nextNodes := nextNodes + [dep];
        }
      }
    }
    assert deps[..|deps|] == deps;
    ReleasingDone(g, done, node, deps, inDegree, nextNodes);
  }

  /** Collect the procedures without preconditions, met in an arbitrary order. */
  method InitialNodes(inDegree: map<string, nat>) returns (initial: seq<string>)
    ensures NoDup(initial) && Elems(initial) == set v | v in inDegree && inDegree[v] == 0
  {
    initial := [];
    var remaining := inDegree.Keys;
    while remaining != {}
      invariant remaining <= inDegree.Keys && NoDup(initial)
      invariant forall v :: v in initial <==> v in inDegree && v !in remaining && inDegree[v] == 0
    {
      var id :| id in remaining;
      remaining := remaining - {id};
      if inDegree[id] == 0 {
        initial := initial + [id];
      }
    }
  }

  lemma InitialIsFirstRound(g: Graph, inDegree: map<string, nat>)
    requires DegreesAt(g, inDegree, {})
    ensures (set v | v in inDegree && inDegree[v] == 0) == Peel(g, 1)
  {
    forall v | v in g.nodes ensures inDegree[v] == 0 <==> v in Peel(g, 1) {
      UnmetZero(Pre(g, v), {});
    }
  }

  method InitialQueue(inDegree: map<string, nat>, ghost g: Graph) returns (queue: seq<string>)
    requires DegreesAt(g, inDegree, {})
    ensures queue == SortedOf(Peel(g, 1))
  {
    var initial := InitialNodes(inDegree);
    InitialIsFirstRound(g, inDegree);
    SortIsCanonical(initial);
    queue := SortIds(initial);
  }

  /** Decrement the counters of `node`'s dependents and queue those that reach zero, by name. */
  method Dequeue(
    inDegree0: map<string, nat>, dependents: map<string, seq<string>>, node: string, ghost g: Graph, ghost done: set<string>)
    returns (inDegree: map<string, nat>, released: seq<string>)
    requires DegreesAt(g, inDegree0, done) && Adjacent(g, dependents) && node !in done
    ensures DegreesAt(g, inDegree, done + {node})
    ensures released == SortedOf(Released(g, done, node))
  {
    var nextNodes;
    inDegree, nextNodes := Release(inDegree0, Deps(dependents, node), node, g, done);
    SortIsCanonical(nextNodes);
    released := SortIds(nextNodes);
  }

  /** The functional sort, resumed here, ends in the canonical order. */
  ghost predicate OnTrack(g: Graph, queue: seq<string>, sorted: seq<string>) {
    KahnInv(g, queue, sorted) && Kahn(g, queue, sorted) == KahnOrder(g)
  }

  lemma OnTrackInit(g: Graph)
    ensures OnTrack(g, SortedOf(Peel(g, 1)), [])
  {
    KahnInvInit(g);
  }

  lemma OnTrackNext(g: Graph, queue: seq<string>, sorted: seq<string>)
    requires OnTrack(g, queue, sorted) && queue != []
    ensures OnTrack(g, queue[1..] + SortedOf(Released(g, Elems(sorted), queue[0])), sorted + [queue[0]])
  {
    KahnUnfold(g, queue, sorted);
  }

  lemma HeadIsNew(g: Graph, queue: seq<string>, sorted: seq<string>)
    requires KahnInv(g, queue, sorted) && queue != []
    ensures queue[0] !in Elems(sorted) && |sorted| < |g.nodes|
    ensures Elems(sorted + [queue[0]]) == Elems(sorted) + {queue[0]}
  {
    KahnInvMembers(g, queue, sorted);
  }

  /** The counter-driven loop computes the order-free sort, however the maps iterate. */
  method KahnLoop(inDegree0: map<string, nat>, dependents: map<string, seq<string>>, ghost g: Graph)
    returns (sorted: seq<string>)
    requires DegreesAt(g, inDegree0, {}) && Adjacent(g, dependents)
    ensures sorted == KahnOrder(g)
  {
    var inDegree := inDegree0;
    var queue := InitialQueue(inDegree, g);
    sorted := [];
    OnTrackInit(g);
    ghost var done: set<string> := {};
    while queue != []
      invariant OnTrack(g, queue, sorted)
      invariant done == Elems(sorted) && DegreesAt(g, inDegree, done)
      decreases |g.nodes| - |sorted|
    {
      var node := queue[0];
      HeadIsNew(g, queue, sorted);
      OnTrackNext(g, queue, sorted);
      var released;
      inDegree, released := Dequeue(inDegree, dependents, node, g, done);
      sorted := sorted + [node];
      done := done + {node};
      queue := queue[1..] + released;
    }
  }

  // ----- the two sorts -----

  /** Walk the keys in the map's order and stop at the first dangling reference. */
  method CheckReferences(ids: set<string>, pre: map<string, seq<string>>, keyOrder: seq<string>)
    returns (dangling: Option<(string, string)>)
    requires forall k :: k in keyOrder ==> k in pre
    ensures dangling == FirstDangling(ids, pre, keyOrder)
  {
    for i := 0 to |keyOrder|
      invariant FirstDangling(ids, pre, keyOrder) == FirstDangling(ids, pre, keyOrder[i..])
    {
      var key := keyOrder[i];
      var deps := pre[key];
      for j := 0 to |deps|
        invariant FirstUnknown(ids, deps) == FirstUnknown(ids, deps[j..])
      {
        if deps[j] !in ids {
          return Some((key, deps[j]));
        }
      }
    }
    return None;
  }

  method Conclude(ids: seq<string>, sorted: seq<string>) returns (r: SortResult)
    ensures r == if |sorted| != |ids| then DagCycle(Filter(id => id !in sorted, ids)) else Ordered(sorted)
  {
    if |sorted| != |ids| {
      var left := [];
      for i := 0 to |ids|
        invariant left == Filter(id => id !in sorted, ids[..i])
      {
        FilterStep(id => id !in sorted, ids, i);
        if ids[i] !in sorted {
          left := left + [ids[i]];
        }
      }
      assert ids[..|ids|] == ids;
      return DagCycle(left);
    }
    return Ordered(sorted);
  }

  lemma {:induction false} NoneDangling(ids: set<string>, pre: map<string, seq<string>>, order: seq<string>)
    requires forall k :: k in order ==> k in pre
    ensures FirstDangling(ids, pre, order) == None <==> forall k, d :: k in order && d in pre[k] ==> d in ids
  {
    if order == [] {
    } else {
      NoneUnknown(ids, pre[order[0]]);
      NoneDangling(ids, pre, order[1..]);
      assert order == [order[0]] + order[1..];
    }
  }

  lemma {:induction false} NoneUnknown(ids: set<string>, deps: seq<string>)
    ensures FirstUnknown(ids, deps) == None <==> forall d :: d in deps ==> d in ids
  {
    if deps == [] {
    } else {
      NoneUnknown(ids, deps[1..]);
      assert deps == [deps[0]] + deps[1..];
    }
  }

  ghost function SortedGraph(ids: seq<string>, pre: map<string, seq<string>>, strays: bool): Graph {
    if strays then BuiltinGraph(ids, pre) else KnownGraph(ids, pre)
  }

  lemma SeenIsPre(
    ids: seq<string>, pre: map<string, seq<string>>, strays: bool,
    inDegree: map<string, nat>, seen: map<string, seq<string>>)
    requires CountedUpTo(Elems(ids), pre, strays, pre.Keys, inDegree, seen)
    ensures var g := SortedGraph(ids, pre, strays);
            inDegree.Keys == g.nodes && forall v :: Deps(seen, v) == if v in g.nodes then Pre(g, v) else []
  {}

  /** The counters built from a resolved precondition map describe the graph being sorted. */
  lemma CountsDescribeGraph(
    g: Graph, inDegree: map<string, nat>, dependents: map<string, seq<string>>, seen: map<string, seq<string>>)
    requires CountsMatch(inDegree, dependents, seen) && inDegree.Keys == g.nodes
    requires forall v :: Deps(seen, v) == if v in g.nodes then Pre(g, v) else []
    ensures DegreesAt(g, inDegree, {}) && Adjacent(g, dependents)
  {
    forall v | v in g.nodes ensures inDegree[v] == Unmet(Pre(g, v), {}) {
      UnmetInitially(Pre(g, v));
    }
    forall u ensures IsFanOut(g, u, Deps(dependents, u)) {
      forall v ensures Occurs(Deps(dependents, u), v) == if v in g.nodes then Occurs(Pre(g, v), u) else 0 {
        assert Listed(dependents, u, v) == Listed(seen, v, u);
      }
    }
  }

  method SortGraph(ids: seq<string>, pre: map<string, seq<string>>, keyOrder: seq<string>, strays: bool)
    returns (r: SortResult)
    requires Enumerates(keyOrder, pre.Keys)
    ensures r == SortOutcome(ids, pre, keyOrder, SortedGraph(ids, pre, strays))
  {
    assert forall k :: k in keyOrder <==> k in Elems(keyOrder);
    var dangling := CheckReferences(Elems(ids), pre, keyOrder);
    if dangling.Some? {
      return UnknownReference(dangling.value.0, dangling.value.1);
    }
    NoneDangling(Elems(ids), pre, keyOrder);
    var inDegree, dependents, seen := BuildCounts(ids, pre, keyOrder, strays);
    ghost var g := SortedGraph(ids, pre, strays);
    SeenIsPre(ids, pre, strays, inDegree, seen);
    CountsDescribeGraph(g, inDegree, dependents, seen);
    var sorted := KahnLoop(inDegree, dependents, g);
    r := Conclude(ids, sorted);
  }

  /** Keys that are no procedure are skipped. */
  method TopologicalSortWithPreconditions(bp: AuditBlueprint, pre: map<string, seq<string>>, keyOrder: seq<string>)
    returns (r: SortResult)
    requires Enumerates(keyOrder, pre.Keys)
    ensures r == SortOutcome(ProcedureIds(bp), pre, keyOrder, KnownGraph(ProcedureIds(bp), pre))
  {
    var ids := CollectIds(bp);
    r := SortGraph(ids, pre, keyOrder, false);
  }

  // ----- the built-in preconditions -----

  /** The entries of a methodology file, a later one replacing an earlier one. */
  function FromEntries(entries: seq<(string, seq<string>)>): map<string, seq<string>> {
    if entries == [] then map[]
    else
      var last := entries[|entries| - 1];
      FromEntries(entries[..|entries| - 1])[last.0 := last.1]
  }

  /** `entry(..).or_default()` for each id. */
  function WithEntries(pre: map<string, seq<string>>, ids: seq<string>): map<string, seq<string>> {
    if ids == [] then pre
    else
      var before, id := WithEntries(pre, ids[..|ids| - 1]), ids[|ids| - 1];
      if id in before then before else before[id := []]
  }

  /** What the file lists, and nothing for procedures it does not know. */
  function Extracted(entries: seq<(string, seq<string>)>, ids: seq<string>): map<string, seq<string>> {
    WithEntries(FromEntries(entries), ids)
  }

  /** `entries` has nothing after position `i` for the procedure of entry `i`. */
  ghost predicate LastFor(entries: seq<(string, seq<string>)>, i: nat)
    requires i < |entries|
  {
    forall j :: i < j < |entries| ==> entries[j].0 != entries[i].0
  }

  ghost predicate HasEntry(entries: seq<(string, seq<string>)>, k: string) {
    exists i :: 0 <= i < |entries| && entries[i].0 == k
  }

  /** One key per listed or known procedure; its last entry counts, and without one nothing. */
  ghost predicate MapsEntries(pre: map<string, seq<string>>, entries: seq<(string, seq<string>)>, ids: seq<string>) {
    && (forall k :: k in pre <==> k in ids || HasEntry(entries, k))
    && (forall i :: 0 <= i < |entries| && LastFor(entries, i) ==> entries[i].0 in pre && pre[entries[i].0] == entries[i].1)
    && (forall k :: k in pre && !HasEntry(entries, k) ==> pre[k] == [])
  }

  lemma {:induction false} FromEntriesKeys(entries: seq<(string, seq<string>)>, k: string)
    ensures k in FromEntries(entries) <==> HasEntry(entries, k)
  {
    if entries == [] {
    } else {
      var front := entries[..|entries| - 1];
      FromEntriesKeys(front, k);
      if HasEntry(front, k) {
        var i :| 0 <= i < |front| && front[i].0 == k;
        assert entries[i].0 == k;
      }
    }
  }

  lemma {:induction false} FromEntriesLast(entries: seq<(string, seq<string>)>, i: nat)
    requires i < |entries| && LastFor(entries, i)
    ensures entries[i].0 in FromEntries(entries) && FromEntries(entries)[entries[i].0] == entries[i].1
  {
    if i == |entries| - 1 {
    } else {
      var front, last := entries[..|entries| - 1], entries[|entries| - 1];
      assert last.0 != entries[i].0;
      FromEntriesLast(front, i);
    }
  }

  lemma FromEntriesMaps(entries: seq<(string, seq<string>)>)
    ensures MapsEntries(FromEntries(entries), entries, [])
  {
    forall k ensures k in FromEntries(entries) <==> HasEntry(entries, k) {
      FromEntriesKeys(entries, k);
    }
    forall i | 0 <= i < |entries| && LastFor(entries, i)
      ensures entries[i].0 in FromEntries(entries) && FromEntries(entries)[entries[i].0] == entries[i].1
    {
      FromEntriesLast(entries, i);
    }
  }

  lemma {:induction false} WithEntriesMaps(pre: map<string, seq<string>>, entries: seq<(string, seq<string>)>, ids: seq<string>)
    requires MapsEntries(pre, entries, [])
    ensures MapsEntries(WithEntries(pre, ids), entries, ids)
  {
    if ids == [] {
    } else {
      WithEntriesMaps(pre, entries, ids[..|ids| - 1]);
      assert ids == ids[..|ids| - 1] + [ids[|ids| - 1]];
    }
  }

  method ExtractPreconditions(entries: seq<(string, seq<string>)>, ids: seq<string>)
    returns (pre: map<string, seq<string>>)
    ensures pre == Extracted(entries, ids)
    ensures MapsEntries(pre, entries, ids)
  {
    pre := map[];
    for i := 0 to |entries|
      invariant pre == FromEntries(entries[..i])
    {
      assert entries[..i + 1][..i] == entries[..i];
      pre := pre[entries[i].0 := entries[i].1];
    }
    assert entries[..|entries|] == entries;
    for i := 0 to |ids|
      invariant pre == WithEntries(FromEntries(entries), ids[..i])
    {
      assert ids[..i + 1][..i] == ids[..i];
      if ids[i] !in pre {
        pre := pre[ids[i] := []];
      }
    }
    assert ids[..|ids|] == ids;
    FromEntriesMaps(entries);
    WithEntriesMaps(FromEntries(entries), entries, ids);
  }

  /** The same sort without the skip, on the preconditions of the methodology file `entries`. */
  method TopologicalSortProcedures(bp: AuditBlueprint, entries: seq<(string, seq<string>)>, keyOrder: seq<string>)
    returns (r: SortResult)
    requires Enumerates(keyOrder, Extracted(entries, ProcedureIds(bp)).Keys)
    ensures var ids := ProcedureIds(bp);
            var pre := Extracted(entries, ids);
            r == SortOutcome(ids, pre, keyOrder, BuiltinGraph(ids, pre))
  {
    var ids := CollectIds(bp);
    var pre := ExtractPreconditions(entries, ids);
    r := SortGraph(ids, pre, keyOrder, true);
  }
}
