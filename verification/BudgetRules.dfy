/** The budgets by position: which nodes and edges stay, in which order, under each strategy, and
    what is said about the rest. */
module BudgetRules {
  import opened Seqs
  import opened GraphTypes
  import opened Budget
  import opened EdgeSampling

  /** `r` is `x` rounded to a count: half goes up, and nothing is less than none. */
  ghost predicate Rounds(x: real, r: nat) {
    if x < 0.0 then r == 0 else x - 0.5 < r as real <= x + 0.5
  }

  ghost function AtMost<T>(s: seq<T>, n: nat): seq<T> {
    if |s| <= n then s else s[..n]
  }

  // ----- nodes -----

  ghost function TrimNote(layer: nat, original: nat, budget: nat): seq<ExportWarning> {
    if original > budget then [LayerTrimmed(layer, original, budget)] else []
  }

  ghost function BelowLayer2(nodes: seq<ExportNode>): set<int> {
    set i | 0 <= i < |nodes| && nodes[i].layer <= 1
  }

  ghost function InLayer2(nodes: seq<ExportNode>): set<int> {
    set i | 0 <= i < |nodes| && nodes[i].layer == 2
  }

  ghost function AboveLayer2(nodes: seq<ExportNode>): set<int> {
    set i | 0 <= i < |nodes| && nodes[i].layer >= 3
  }

  /** The three layers by themselves: up to 1, 2, and 3 or more. */
  ghost predicate Layers(nodes: seq<ExportNode>, first: seq<ExportNode>, second: seq<ExportNode>, third: seq<ExportNode>) {
    && Picked(nodes, BelowLayer2(nodes), first)
    && Picked(nodes, InLayer2(nodes), second)
    && Picked(nodes, AboveLayer2(nodes), third)
  }

  /** Too many nodes are cut layer by layer, and follow each other by layer. */
  ghost predicate NodeRule(c: BudgetConfig, nodes: seq<ExportNode>, kept: seq<ExportNode>, warnings: seq<ExportWarning>)
    requires |c.layerSplit| == 3
  {
    if |nodes| <= c.maxNodes then kept == nodes && warnings == []
    else
      exists first, second, third, a, b, d :: NodeCut(c, nodes, kept, warnings, first, second, third, a, b, d)
  }

  ghost function LayerShare(c: BudgetConfig, i: nat): real
    requires i < |c.layerSplit|
  {
    c.maxNodes as real * c.layerSplit[i]
  }

  ghost predicate NodeCut(
    c: BudgetConfig, nodes: seq<ExportNode>, kept: seq<ExportNode>, warnings: seq<ExportWarning>,
    first: seq<ExportNode>, second: seq<ExportNode>, third: seq<ExportNode>, a: nat, b: nat, d: nat)
    requires |c.layerSplit| == 3
  {
    && Layers(nodes, first, second, third)
    && Rounds(LayerShare(c, 0), a)
    && Rounds(LayerShare(c, 1), b)
    && Rounds(LayerShare(c, 2), d)
    && kept == AtMost(first, a) + AtMost(second, b) + AtMost(third, d)
    && warnings == TrimNote(1, |first|, a) + TrimNote(2, |second|, b) + TrimNote(3, |third|, d)
  }

  lemma RoundFollowsRule(x: real)
    ensures Rounds(x, RoundToCount(x))
  {}

  lemma LayersFollowRule(nodes: seq<ExportNode>)
    ensures Layers(nodes, InLayer(nodes, 0), InLayer(nodes, 1), InLayer(nodes, 2))
  {
    FilterPicks((n: ExportNode) => LayerIndex(n) == 0, nodes, BelowLayer2(nodes));
    FilterPicks((n: ExportNode) => LayerIndex(n) == 1, nodes, InLayer2(nodes));
    FilterPicks((n: ExportNode) => LayerIndex(n) == 2, nodes, AboveLayer2(nodes));
    InLayerIs(nodes);
  }

  lemma InLayerIs(nodes: seq<ExportNode>)
    ensures InLayer(nodes, 0) == Filter((n: ExportNode) => LayerIndex(n) == 0, nodes)
    ensures InLayer(nodes, 1) == Filter((n: ExportNode) => LayerIndex(n) == 1, nodes)
    ensures InLayer(nodes, 2) == Filter((n: ExportNode) => LayerIndex(n) == 2, nodes)
  {}

  lemma LayerFollowsRule(c: BudgetConfig, nodes: seq<ExportNode>, i: nat)
    requires |c.layerSplit| == 3 && i < 3
    ensures Rounds(LayerShare(c, i), LayerBudget(c, i))
    ensures TrimmedLayer(c, nodes, i) == AtMost(InLayer(nodes, i), LayerBudget(c, i))
    ensures LayerWarning(c, nodes, i) == TrimNote(i + 1, |InLayer(nodes, i)|, LayerBudget(c, i))
  {
    RoundFollowsRule(LayerShare(c, i));
  }

  lemma NodesFollowRule(c: BudgetConfig, nodes: seq<ExportNode>)
    requires |c.layerSplit| == 3
    ensures NodeRule(c, nodes, TrimNodes(c, nodes), NodeWarnings(c, nodes))
  {
    var a, b, d := LayerBudget(c, 0), LayerBudget(c, 1), LayerBudget(c, 2);
    hide LayerBudget, LayerShare, Rounds, InLayer, Layers, TrimmedLayer, LayerWarning, AtMost, TrimNote;
    LayersFollowRule(nodes);
    LayerFollowsRule(c, nodes, 0);
    LayerFollowsRule(c, nodes, 1);
    LayerFollowsRule(c, nodes, 2);
    if |nodes| > c.maxNodes {
      assert NodeCut(c, nodes, TrimNodes(c, nodes), NodeWarnings(c, nodes), InLayer(nodes, 0), InLayer(nodes, 1),
                     InLayer(nodes, 2), a, b, d);
    }
  }

  // ----- edges -----

  /** The limit as given, or twenty edges a node, but no less than a hundred thousand. */
  ghost predicate IsLimit(c: BudgetConfig, n: nat) {
    && (c.maxEdges > 0 ==> n == c.maxEdges)
    && (c.maxEdges == 0 ==>
          n >= 100_000 && n >= 20 * c.maxNodes && (n == 100_000 || n == 20 * c.maxNodes))
  }

  /** Governance linkage, cross-layer people and audit procedure linkage. */
  ghost predicate GovernsType(t: nat) {
    (40 <= t && t <= 59) || (96 <= t && t <= 120) || (138 <= t && t <= 152)
  }

  ghost function Governing(edges: seq<ExportEdge>): set<int> {
    set i | 0 <= i < |edges| && GovernsType(edges[i].edgeType)
  }

  ghost function Others(edges: seq<ExportEdge>): set<int> {
    set i | 0 <= i < |edges| && !GovernsType(edges[i].edgeType)
  }

  ghost function WithType(edges: seq<ExportEdge>, t: nat): set<int> {
    set i | 0 <= i < |edges| && edges[i].edgeType == t
  }

  /** Both ends are still numbered. */
  ghost function Joined(edges: seq<ExportEdge>, ids: set<nat>): set<int> {
    set i | 0 <= i < |edges| && edges[i].source in ids && edges[i].target in ids
  }

  ghost predicate TwoParts(edges: seq<ExportEdge>, governance: seq<ExportEdge>, process: seq<ExportEdge>) {
    && Picked(edges, Governing(edges), governance)
    && Picked(edges, Others(edges), process)
  }

  /** The first governance edges, and the first of the rest where they leave room. */
  ghost predicate PriorityRule(edges: seq<ExportEdge>, limit: nat, result: seq<ExportEdge>, warning: ExportWarning) {
    exists governance, process ::
      && TwoParts(edges, governance, process)
      && (|governance| >= limit ==>
            result == governance[..limit] && warning == GovernanceSampled(|edges|, limit, limit))
      && (|governance| < limit ==>
            && limit - |governance| <= |process|
            && result == governance + process[..limit - |governance|]
            && warning == GovernanceSampled(|edges|, limit, |governance|))
  }

  ghost function ExactShare(count: nat, total: nat, left: nat): real
    requires total > 0
  {
    count as real / total as real * left as real
  }

  /** One edge for every type, and the rest of the limit shared by numbers and rounded. */
  ghost predicate ShareRule(count: nat, total: nat, types: nat, limit: nat, kept: nat)
    requires total > 0
  {
    exists more :: ShareWith(count, total, types, limit, kept, more)
  }

  ghost predicate ShareWith(count: nat, total: nat, types: nat, limit: nat, kept: nat, more: nat)
    requires total > 0
  {
    var left := if types <= limit then limit - types else 0;
    Rounds(ExactShare(count, total, left), more) && kept == if 1 + more <= count then 1 + more else count
  }

  /** The types that occur, each once, with the first edges of each, as many as its share. */
  ghost predicate SharesRule(edges: seq<ExportEdge>, limit: nat, order: seq<nat>, parts: seq<seq<ExportEdge>>) {
    && |parts| == |order|
    && (forall j, k :: 0 <= j < k < |order| ==> order[j] != order[k])
    && (forall t :: t in order <==> exists i :: 0 <= i < |edges| && edges[i].edgeType == t)
    && forall k {:trigger parts[k]} :: 0 <= k < |order| ==> GroupRule(edges, limit, |order|, order[k], parts[k])
  }

  ghost predicate GroupRule(edges: seq<ExportEdge>, limit: nat, types: nat, t: nat, part: seq<ExportEdge>) {
    exists group ::
      && Picked(edges, WithType(edges, t), group)
      && part <= group
      && |edges| > 0 && ShareRule(|group|, |edges|, types, limit, |part|)
  }

  /** The groups one after the other in some order, cut where the limit is reached. */
  ghost predicate ProportionalRule(edges: seq<ExportEdge>, limit: nat, result: seq<ExportEdge>, warning: ExportWarning) {
    exists order, parts, whole ::
      && SharesRule(edges, limit, order, parts) && Joins(whole, parts)
      && result == AtMost(whole, limit)
      && warning == EdgesSampled(|edges|, |result|, |order|)
  }

  ghost predicate SampleRule(
    strategy: Strategy, edges: seq<ExportEdge>, limit: nat, result: seq<ExportEdge>, warning: ExportWarning)
  {
    match strategy
    case Truncate => limit <= |edges| && result == edges[..limit] && warning == EdgesTruncated(|edges|, limit)
    case GovernancePriority => PriorityRule(edges, limit, result, warning)
    case Proportional => ProportionalRule(edges, limit, result, warning)
  }

  ghost function DanglingNote(count: nat): seq<ExportWarning> {
    if count > 0 then [DanglingRemoved(count)] else []
  }

  ghost predicate IsLive(edges: seq<ExportEdge>, ids: set<nat>, live: seq<ExportEdge>) {
    Picked(edges, Joined(edges, ids), live)
  }

  /** Edges that lost an end go first; if those left fit the limit they all stay, else they are sampled. */
  ghost predicate EdgeRule(
    c: BudgetConfig, strategy: Strategy, edges: seq<ExportEdge>, ids: set<nat>,
    result: seq<ExportEdge>, warnings: seq<ExportWarning>)
  {
    exists live, limit, sampled :: EdgeStages(c, strategy, edges, ids, result, warnings, live, limit, sampled)
  }

  ghost predicate EdgeStages(
    c: BudgetConfig, strategy: Strategy, edges: seq<ExportEdge>, ids: set<nat>,
    result: seq<ExportEdge>, warnings: seq<ExportWarning>, live: seq<ExportEdge>, limit: nat, sampled: ExportWarning)
  {
    && IsLive(edges, ids, live) && |live| <= |edges| && IsLimit(c, limit)
    && if |live| <= limit then result == live && warnings == DanglingNote(|edges| - |live|)
       else SampleRule(strategy, live, limit, result, sampled) && warnings == DanglingNote(|edges| - |live|) + [sampled]
  }

  lemma PriorityFollowsRule(order: seq<nat>, edges: seq<ExportEdge>, limit: nat)
    requires limit < |edges|
    ensures PriorityRule(edges, limit, GovernanceSample(edges, limit), SampleWarning(GovernancePriority, order, edges, limit))
  {
    var governance, process := Filter(IsGovernance, edges), Filter(IsProcess, edges);
    FilterPicks(IsGovernance, edges, Governing(edges));
    FilterPicks(IsProcess, edges, Others(edges));
    FilterSplit(IsGovernance, IsProcess, edges);
    assert TwoParts(edges, governance, process);
    if |governance| >= limit {
      assert governance[..limit] + process[..0] == governance[..limit];
    }
  }

  lemma ShareIsExact(count: nat, total: nat, left: nat)
    requires total > 0
    ensures Share(count, total, left) == ExactShare(count, total, left)
  {}

  lemma ShareFollowsRule(count: nat, total: nat, types: nat, limit: nat)
    requires total > 0
    ensures ShareRule(count, total, types, limit, Keep(count, total, SharedBudget(types, limit)))
    ensures Keep(count, total, SharedBudget(types, limit)) <= count
  {
    hide Share, ExactShare, Rounds;
    var left := SharedBudget(types, limit);
    ShareIsExact(count, total, left);
    RoundFollowsRule(Share(count, total, left));
    assert ShareWith(count, total, types, limit, Keep(count, total, left), RoundToCount(Share(count, total, left)));
  }

  lemma GroupFollowsRule(edges: seq<ExportEdge>, limit: nat, types: nat, t: nat)
    requires edges != []
    ensures GroupRule(edges, limit, types, t, Kept(t, edges, SharedBudget(types, limit)))
  {
    hide ShareRule, Keep, Picked;
    var group := OfType(edges, t);
    FilterPicks((e: ExportEdge) => e.edgeType == t, edges, WithType(edges, t));
    ShareFollowsRule(|group|, |edges|, types, limit);
    assert ShareRule(|group|, |edges|, types, limit, |Kept(t, edges, SharedBudget(types, limit))|);
  }

  lemma {:induction false} PartsJoin(order: seq<nat>, edges: seq<ExportEdge>, budget: nat) returns (parts: seq<seq<ExportEdge>>)
    requires edges != []
    ensures |parts| == |order| && forall k :: 0 <= k < |order| ==> parts[k] == Kept(order[k], edges, budget)
    ensures Joins(KeptInOrder(order, edges, budget), parts)
  {
    if order == [] {
      parts := [];
    } else {
      var front, t := order[..|order| - 1], order[|order| - 1];
      var before := PartsJoin(front, edges, budget);
      JoinsPush(KeptInOrder(front, edges, budget), before, Kept(t, edges, budget));
      parts := before + [Kept(t, edges, budget)];
    }
  }

  lemma TypesByPosition(order: seq<nat>, edges: seq<ExportEdge>)
    requires ListsTypes(order, edges)
    ensures forall t :: t in order <==> exists i :: 0 <= i < |edges| && edges[i].edgeType == t
  {
    forall t ensures t in order <==> exists i :: 0 <= i < |edges| && edges[i].edgeType == t {
      assert t in order <==> t in Elems(order);
      if t in TypesOf(edges) {
        var e :| e in edges && e.edgeType == t;
        var i :| 0 <= i < |edges| && edges[i] == e;
      }
    }
  }

  lemma SharesFollowRule(order: seq<nat>, edges: seq<ExportEdge>, limit: nat) returns (parts: seq<seq<ExportEdge>>)
    requires edges != [] && ListsTypes(order, edges)
    ensures SharesRule(edges, limit, order, parts)
    ensures Joins(KeptInOrder(order, edges, SharedBudget(|order|, limit)), parts)
  {
    hide GroupRule, Kept, KeptInOrder, Joins;
    parts := PartsJoin(order, edges, SharedBudget(|order|, limit));
    TypesByPosition(order, edges);
    forall k {:trigger parts[k]} | 0 <= k < |order| ensures GroupRule(edges, limit, |order|, order[k], parts[k]) {
      GroupFollowsRule(edges, limit, |order|, order[k]);
    }
  }

  lemma ProportionalFollowsRule(order: seq<nat>, edges: seq<ExportEdge>, limit: nat)
    requires limit < |edges| && ListsTypes(order, edges)
    ensures ProportionalRule(edges, limit, SampleInOrder(order, edges, limit), SampleWarning(Proportional, order, edges, limit))
  {
    hide SharesRule, KeptInOrder, Joins;
    var parts := SharesFollowRule(order, edges, limit);
    var whole := KeptInOrder(order, edges, SharedBudget(|order|, limit));
    assert Take(whole, limit) == AtMost(whole, limit);
  }

  /** Whatever the strategy, what is left of the edges and what is said about the others is as the
      rule has it. */
  lemma EdgesFollowRule(c: BudgetConfig, strategy: Strategy, order: seq<nat>, edges: seq<ExportEdge>, ids: set<nat>)
    requires ListsTypes(order, Live(edges, ids))
    ensures EdgeRule(c, strategy, edges, ids, EdgeBudget(c, strategy, order, edges, ids),
                     EdgeWarnings(c, strategy, order, edges, ids))
  {
    var live, limit := Live(edges, ids), EffectiveMaxEdges(c);
    LiveFollowsRule(edges, ids);
    var sampled := if |live| <= limit then Note("") else SampleWarning(strategy, order, live, limit);
    if |live| > limit {
      SampleFollowsRule(strategy, order, live, limit);
    } else {
      assert DanglingNote(|edges| - |live|) + [] == DanglingNote(|edges| - |live|);
    }
    assert EdgeStages(c, strategy, edges, ids, EdgeBudget(c, strategy, order, edges, ids),
                      EdgeWarnings(c, strategy, order, edges, ids), live, limit, sampled);
  }

  lemma LiveFollowsRule(edges: seq<ExportEdge>, ids: set<nat>)
    ensures IsLive(edges, ids, Live(edges, ids)) && |Live(edges, ids)| <= |edges|
  {
    var f := (e: ExportEdge) => e.source in ids && e.target in ids;
    FilterPicks(f, edges, Joined(edges, ids));
    FilterMembers(f, edges);
  }

  lemma SampleFollowsRule(strategy: Strategy, order: seq<nat>, edges: seq<ExportEdge>, limit: nat)
    requires limit < |edges| && ListsTypes(order, edges)
    ensures SampleRule(strategy, edges, limit, Sampled(strategy, order, edges, limit), SampleWarning(strategy, order, edges, limit))
  {
    match strategy {
      case Truncate =>
      case Proportional => ProportionalFollowsRule(order, edges, limit);
      case GovernancePriority => PriorityFollowsRule(order, edges, limit);
    }
  }

  /** Proportional sampling of more live edges than the limit: with no more types than the limit, at
      most as many edges as types short of it are left, and at least half of the types; with more
      types, the limit is used up by one edge each of as many types. */
  lemma ProportionalEdgeBudget(c: BudgetConfig, order: seq<nat>, edges: seq<ExportEdge>, ids: set<nat>)
    requires ListsTypes(order, Live(edges, ids)) && |Live(edges, ids)| > EffectiveMaxEdges(c)
    ensures var result, types, limit :=
              EdgeBudget(c, Proportional, order, edges, ids), |TypesOf(Live(edges, ids))|, EffectiveMaxEdges(c);
            if types <= limit then limit - types <= |result| <= limit && 2 * |TypesOf(result)| >= types
            else |result| == limit && |TypesOf(result)| == limit
  {
    var live := Live(edges, ids);
    NoDupSize(order);
    if |order| <= EffectiveMaxEdges(c) {
      ProportionalSampling(order, live, EffectiveMaxEdges(c));
    } else {
      MoreTypesThanEdges(order, live, EffectiveMaxEdges(c));
    }
  }
}
