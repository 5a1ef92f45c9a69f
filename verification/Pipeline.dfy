/** The export pipeline: node synthesis, node budget, edge synthesis, edge budget, metadata,
    post-processing. Synthesizers are arbitrary functions of the id map. */
module Pipeline {
  import opened Wrappers
  import opened Seqs
  import opened GraphTypes
  import opened IdMap
  import Ocel
  import opened Budget
  import opened EdgeSampling
  import opened PostProcess

  /** What one node synthesizer returns, what it did to the id map, and what it warned of. */
  datatype NodeBatch = NodeBatch(nodes: seq<ExportNode>, ops: seq<IdOp>, notes: seq<string>)

  datatype EdgeBatch = EdgeBatch(edges: seq<ExportEdge>, notes: seq<string>)

  datatype NodeSynthesizer = NodeSynthesizer(name: string, run: Ids -> Result<NodeBatch, string>)

  datatype EdgeSynthesizer = EdgeSynthesizer(name: string, run: Ids -> Result<EdgeBatch, string>)

  datatype ExportError = StageError(stage: string, synthesizer: string, cause: string)

  datatype GraphExportPipeline = GraphExportPipeline(
    budget: BudgetConfig,
    strategy: Strategy,
    nodeSynthesizers: seq<NodeSynthesizer>,
    edgeSynthesizers: seq<EdgeSynthesizer>,
    ocelEnabled: bool,
    maxEvents: nat)

  // ----- metadata -----

  ghost predicate Increasing(s: seq<nat>) {
    forall i, j :: 0 <= i < j < |s| ==> s[i] < s[j]
  }

  /** The metadata describes these nodes and edges. */
  ghost predicate Describes(m: ExportMetadata, nodes: seq<ExportNode>, edges: seq<ExportEdge>) {
    && m.totalNodes == |nodes|
    && m.totalEdges == |edges|
    && |m.nodesPerLayer| == 3
    && (forall i :: 0 <= i < 3 ==> m.nodesPerLayer[i] == |InLayer(nodes, i)|)
    && Increasing(m.edgeTypesProduced)
    && Elems(m.edgeTypesProduced) == TypesOf(edges)
  }

  lemma HeadIsLeast(s: seq<nat>)
    requires Increasing(s) && s != []
    ensures Increasing(s[1..]) && forall y :: y in s[1..] ==> s[0] < y
  {}

  lemma ConsIncreasing(h: nat, s: seq<nat>)
    requires Increasing(s) && forall y :: y in s ==> h < y
    ensures Increasing([h] + s) && Elems([h] + s) == {h} + Elems(s)
  {
    var all := [h] + s;
    forall i, j | 0 <= i < j < |all| ensures all[i] < all[j] {
      assert all[j] == s[j - 1] && s[j - 1] in s;
    }
  }

  function InsertType(x: nat, s: seq<nat>): (r: seq<nat>)
    requires Increasing(s) && x !in s
    ensures Increasing(r) && Elems(r) == Elems(s) + {x}
  {
    if s == [] then [x]
    else if x < s[0] then
      HeadIsLeast(s);
      ConsIncreasing(x, s);
      [x] + s
    else
      HeadIsLeast(s);
      var rest := InsertType(x, s[1..]);
      assert forall y :: y in rest ==> y in Elems(rest);
      assert s == [s[0]] + s[1..];
      ConsIncreasing(s[0], rest);
      [s[0]] + rest
  }

  /** `sort_unstable` on different numbers. */
  function SortTypes(s: seq<nat>): (r: seq<nat>)
    requires NoDup(s)
    ensures Increasing(r) && Elems(r) == Elems(s)
  {
    if s == [] then []
    else
      var front, last := s[..|s| - 1], s[|s| - 1];
      assert s == front + [last];
      var sorted := SortTypes(front);
      assert last in sorted ==> last in Elems(sorted);
      InsertType(last, sorted)
  }

  method BuildMetadata(nodes: seq<ExportNode>, edges: seq<ExportEdge>) returns (m: ExportMetadata)
    ensures Describes(m, nodes, edges)
  {
    var nodesPerLayer: seq<nat> := [0, 0, 0];
    for k := 0 to |nodes|
      invariant |nodesPerLayer| == 3 && forall i :: 0 <= i < 3 ==> nodesPerLayer[i] == |InLayer(nodes[..k], i)|
    {
      var idx := LayerIndex(nodes[k]);
      assert nodes[..k + 1][..k] == nodes[..k];
      nodesPerLayer := nodesPerLayer[idx := nodesPerLayer[idx] + 1];
    }
    assert nodes[..|nodes|] == nodes;
    var edgeTypes: set<nat> := {};
    for k := 0 to |edges|
      invariant edgeTypes == TypesOf(edges[..k])
    {
      assert edges[..k + 1] == edges[..k] + [edges[k]];
      TypesConcat(edges[..k], [edges[k]]);
      assert TypesOf([edges[k]]) == {edges[k].edgeType};
      edgeTypes := edgeTypes + {edges[k].edgeType};
    }
    assert edges[..|edges|] == edges;
    var listed := ListOf(edgeTypes);
    m := ExportMetadata(|nodes|, |edges|, nodesPerLayer, SortTypes(listed));
  }

  /** A hash set handing out its members, in any order. */
  method ListOf(s: set<nat>) returns (list: seq<nat>)
    ensures NoDup(list) && Elems(list) == s
  {
    list := [];
    var rest := s;
    while rest != {}
      invariant rest <= s && NoDup(list) && Elems(list) == s - rest
    {
      var t :| t in rest;
      assert t !in Elems(list);
      assert Elems(list + [t]) == Elems(list) + {t};
      rest := rest - {t};
      list := list + [t];
    }
  }

  // ----- synthesis -----

  datatype NodeState = NodeState(nodes: seq<ExportNode>, ids: Ids, warnings: seq<ExportWarning>)

  datatype EdgeState = EdgeState(edges: seq<ExportEdge>, warnings: seq<ExportWarning>)

  function Notes(texts: seq<string>): seq<ExportWarning> {
    seq(|texts|, i requires 0 <= i < |texts| => Note(texts[i]))
  }

  function RunNodeSynthesizers(s: seq<NodeSynthesizer>, ids: Ids): Result<NodeState, ExportError> {
    if s == [] then Ok(NodeState([], ids, []))
    else
      match RunNodeSynthesizers(s[..|s| - 1], ids)
      case Err(e) => Err(e)
      case Ok(before) =>
        match s[|s| - 1].run(before.ids)
        case Err(cause) => Err(StageError("node_synthesis", s[|s| - 1].name, cause))
        case Ok(batch) =>
          Ok(NodeState(before.nodes + batch.nodes, ApplyAll(before.ids, batch.ops), before.warnings + Notes(batch.notes)))
  }

  function RunEdgeSynthesizers(s: seq<EdgeSynthesizer>, ids: Ids): Result<EdgeState, ExportError> {
    if s == [] then Ok(EdgeState([], []))
    else
      match RunEdgeSynthesizers(s[..|s| - 1], ids)
      case Err(e) => Err(e)
      case Ok(before) =>
        match s[|s| - 1].run(ids)
        case Err(cause) => Err(StageError("edge_synthesis", s[|s| - 1].name, cause))
        case Ok(batch) => Ok(EdgeState(before.edges + batch.edges, before.warnings + Notes(batch.notes)))
  }

  method Perform(ids: IdTable, ops: seq<IdOp>)
    modifies ids
    ensures ids.View() == ApplyAll(old(ids.View()), ops)
  {
    for i := 0 to |ops|
      invariant ids.View() == ApplyAll(old(ids.View()), ops[..i])
    {
      assert ops[..i + 1][..i] == ops[..i];
      match ops[i] {
        case InsertOp(external) =>
          var _ := ids.GetOrInsert(external);
        case AliasOp(alias, primary) =>
          var _ := ids.RegisterAlias(alias, primary);
        case RetainOp(keep) =>
          ids.RetainNodes(keep);
      }
    }
    assert ops[..|ops|] == ops;
  }

  method SynthesizeNodes(s: seq<NodeSynthesizer>, ids: IdTable)
    returns (result: Result<seq<ExportNode>, ExportError>, warnings: seq<ExportWarning>)
    modifies ids
    ensures match RunNodeSynthesizers(s, old(ids.View()))
            case Err(e) => result == Err(e)
            case Ok(state) => result == Ok(state.nodes) && ids.View() == state.ids && warnings == state.warnings
  {
    var nodes: seq<ExportNode> := [];
    warnings := [];
    for i := 0 to |s|
      invariant RunNodeSynthesizers(s[..i], old(ids.View())) == Ok(NodeState(nodes, ids.View(), warnings))
    {
      assert s[..i + 1][..i] == s[..i];
      match s[i].run(ids.View()) {
        case Ok(batch) =>
          Perform(ids, batch.ops);
          nodes := nodes + batch.nodes;
          warnings := warnings + Notes(batch.notes);
        case Err(cause) =>
          FirstNodeFailure(s, i, old(ids.View()));
          return Err(StageError("node_synthesis", s[i].name, cause)), warnings;
      }
    }
    assert s[..|s|] == s;
    result := Ok(nodes);
  }

  lemma {:induction false} FirstNodeFailure(s: seq<NodeSynthesizer>, i: nat, ids: Ids)
    requires i < |s| && RunNodeSynthesizers(s[..i + 1], ids).Err?
    ensures RunNodeSynthesizers(s, ids) == RunNodeSynthesizers(s[..i + 1], ids)
  {
    if i + 1 == |s| {
      assert s[..i + 1] == s;
    } else {
      assert s[..|s| - 1][..i + 1] == s[..i + 1];
      FirstNodeFailure(s[..|s| - 1], i, ids);
    }
  }

  method SynthesizeEdges(s: seq<EdgeSynthesizer>, ids: IdTable) returns (result: Result<EdgeState, ExportError>)
    ensures result == RunEdgeSynthesizers(s, ids.View())
  {
    var edges: seq<ExportEdge> := [];
    var warnings: seq<ExportWarning> := [];
    for i := 0 to |s|
      invariant RunEdgeSynthesizers(s[..i], ids.View()) == Ok(EdgeState(edges, warnings))
    {
      assert s[..i + 1][..i] == s[..i];
      match s[i].run(ids.View()) {
        case Ok(batch) =>
          edges := edges + batch.edges;
          warnings := warnings + Notes(batch.notes);
        case Err(cause) =>
          FirstEdgeFailure(s, i, ids.View());
          return Err(StageError("edge_synthesis", s[i].name, cause));
      }
    }
    assert s[..|s|] == s;
    result := Ok(EdgeState(edges, warnings));
  }

  lemma {:induction false} FirstEdgeFailure(s: seq<EdgeSynthesizer>, i: nat, ids: Ids)
    requires i < |s| && RunEdgeSynthesizers(s[..i + 1], ids).Err?
    ensures RunEdgeSynthesizers(s, ids) == RunEdgeSynthesizers(s[..i + 1], ids)
  {
    if i + 1 == |s| {
      assert s[..i + 1] == s;
    } else {
      assert s[..|s| - 1][..i + 1] == s[..i + 1];
      FirstEdgeFailure(s[..|s| - 1], i, ids);
    }
  }

  /** One warning for every name that was there before. */
  function DuplicateNames(s: seq<EdgeSynthesizer>): seq<ExportWarning> {
    if s == [] then []
    else
      var front, name := s[..|s| - 1], s[|s| - 1].name;
      DuplicateNames(front) + if IsNamed(front, name) then [DuplicateSynthesizer(name)] else []
  }

  predicate IsNamed(s: seq<EdgeSynthesizer>, name: string) {
    exists k :: 0 <= k < |s| && s[k].name == name
  }

  lemma NamedPush(front: seq<EdgeSynthesizer>, last: EdgeSynthesizer)
    ensures forall name :: IsNamed(front + [last], name) <==> IsNamed(front, name) || name == last.name
  {
    var s := front + [last];
    forall name ensures IsNamed(s, name) <==> IsNamed(front, name) || name == last.name {
      if k :| 0 <= k < |front| && front[k].name == name {
        assert s[k].name == name;
      }
      assert s[|front|] == last;
      if k :| 0 <= k < |s| && s[k].name == name {
        assert k < |front| ==> front[k].name == name;
      }
    }
  }

  method CheckNames(s: seq<EdgeSynthesizer>) returns (warnings: seq<ExportWarning>)
    ensures warnings == DuplicateNames(s)
  {
    warnings := [];
    var seen: set<string> := {};
    for i := 0 to |s|
      invariant warnings == DuplicateNames(s[..i])
      invariant forall name :: name in seen <==> IsNamed(s[..i], name)
    {
      assert s[..i + 1][..i] == s[..i] && s[..i + 1] == s[..i] + [s[i]];
      NamedPush(s[..i], s[i]);
      if s[i].name in seen {
        warnings := warnings + [DuplicateSynthesizer(s[i].name)];
      }
      seen := seen + {s[i].name};
    }
    assert s[..|s|] == s;
  }

  // ----- the whole export -----

  /** The id map after the node budget. */
  function IdsAfterTrim(c: BudgetConfig, state: NodeState): Ids
    requires |c.layerSplit| == 3
  {
    if |state.nodes| <= c.maxNodes then state.ids else Retain(state.ids, NodeIds(TrimNodes(c, state.nodes)))
  }

  /** The nodes and edges the stages lead to, with the groups sampled in `order`. */
  ghost predicate IsExport(p: GraphExportPipeline, order: seq<nat>, nodes: seq<ExportNode>, edges: seq<ExportEdge>)
    requires |p.budget.layerSplit| == 3
  {
    var synthesized := RunNodeSynthesizers(p.nodeSynthesizers, NO_IDS);
    synthesized.Ok? &&
    var ids := IdsAfterTrim(p.budget, synthesized.value);
    var linked := RunEdgeSynthesizers(p.edgeSynthesizers, ids);
    linked.Ok? &&
    var budgeted := EdgeBudget(p.budget, p.strategy, order, linked.value.edges, ids.reverse.Keys);
    && ListsTypes(order, Live(linked.value.edges, ids.reverse.Keys))
    && nodes == FinalNodes(TrimNodes(p.budget, synthesized.value.nodes), budgeted, ids)
    && edges == Dedup(budgeted)
  }

  /** The warnings of all stages, in the order they run. */
  ghost predicate Reports(p: GraphExportPipeline, order: seq<nat>, warnings: seq<ExportWarning>)
    requires |p.budget.layerSplit| == 3
  {
    var synthesized := RunNodeSynthesizers(p.nodeSynthesizers, NO_IDS);
    synthesized.Ok? &&
    var ids := IdsAfterTrim(p.budget, synthesized.value);
    var linked := RunEdgeSynthesizers(p.edgeSynthesizers, ids);
    linked.Ok? &&
    warnings == synthesized.value.warnings + NodeWarnings(p.budget, synthesized.value.nodes)
                + DuplicateNames(p.edgeSynthesizers) + linked.value.warnings
                + EdgeWarnings(p.budget, p.strategy, order, linked.value.edges, ids.reverse.Keys)
  }

  /** The error of the first synthesizer that fails, node synthesizers first. */
  function FirstError(p: GraphExportPipeline): Option<ExportError>
    requires |p.budget.layerSplit| == 3
  {
    match RunNodeSynthesizers(p.nodeSynthesizers, NO_IDS)
    case Err(e) => Some(e)
    case Ok(state) =>
      match RunEdgeSynthesizers(p.edgeSynthesizers, IdsAfterTrim(p.budget, state))
      case Err(e) => Some(e)
      case Ok(_) => None
  }

  method Export(p: GraphExportPipeline, source: Ocel.OcelSource)
    returns (result: Result<GraphExportResult, ExportError>, ghost order: seq<nat>)
    requires |p.budget.layerSplit| == 3
    ensures match FirstError(p)
            case Some(e) => result == Err(e)
            case None =>
              && result.Ok?
              && IsExport(p, order, result.value.nodes, result.value.edges)
              && Reports(p, order, result.value.warnings)
    ensures result.Ok? ==> Describes(result.value.metadata, result.value.nodes, result.value.edges)
    ensures result.Ok? ==> result.value.ocel == if p.ocelEnabled then Ocel.ExportOf(source, p.maxEvents) else None
    ensures result.Ok? ==> UniqueKeys(result.value.edges) && |result.value.edges| <= EffectiveMaxEdges(p.budget)
  {
    var ids := new IdTable();
    order := [];
    var synthesized, warnings := SynthesizeNodes(p.nodeSynthesizers, ids);
    if synthesized.Err? {
      return Err(synthesized.error), order;
    }
    var nodes, trimmed := EnforceNodeBudget(p.budget, synthesized.value, ids);
    var duplicates := CheckNames(p.edgeSynthesizers);
    var linked := SynthesizeEdges(p.edgeSynthesizers, ids);
    if linked.Err? {
      return Err(linked.error), order;
    }
    var edges, dropped;
    edges, dropped, order := EnforceEdgeBudget(p.budget, linked.value.edges, ids, p.strategy);
    warnings := warnings + trimmed + duplicates + linked.value.warnings + dropped;
    var graph := Finish(p, nodes, edges, warnings, ids, source);
    result := Ok(graph);
  }

  /** Metadata, post-processors, and the event log if it is wanted. */
  method Finish(
    p: GraphExportPipeline, nodes: seq<ExportNode>, edges: seq<ExportEdge>, warnings: seq<ExportWarning>, ids: IdTable,
    source: Ocel.OcelSource)
    returns (graph: GraphExportResult)
    ensures graph.nodes == FinalNodes(nodes, edges, ids.View()) && graph.edges == Dedup(edges)
    ensures Describes(graph.metadata, graph.nodes, graph.edges) && graph.warnings == warnings
    ensures graph.ocel == if p.ocelEnabled then Ocel.ExportOf(source, p.maxEvents) else None
    ensures UniqueKeys(graph.edges) && |graph.edges| <= |edges|
  {
    var metadata := BuildMetadata(nodes, edges);
    graph := new GraphExportResult(nodes, edges, metadata, warnings);
    graph.RunPostProcessors(ids);
    graph.AttachOcel(p.ocelEnabled, source, p.maxEvents);
    StillDescribes(metadata, nodes, edges, ids.View());
    DedupKeepsFirsts(edges);
  }

  lemma {:induction false} LayersOfShape(a: seq<ExportNode>, b: seq<ExportNode>, i: nat)
    requires SameShape(a, b)
    ensures |InLayer(a, i)| == |InLayer(b, i)|
  {
    if a == [] {
    } else {
      LayersOfShape(a[..|a| - 1], b[..|b| - 1], i);
    }
  }

  /** Metadata is computed before the post-processors run, and needs only the new edge total. */
  lemma StillDescribes(m: ExportMetadata, nodes: seq<ExportNode>, edges: seq<ExportEdge>, ids: Ids)
    requires Describes(m, nodes, edges)
    ensures Describes(if |Dedup(edges)| < |edges| then m.(totalEdges := |Dedup(edges)|) else m,
                      FinalNodes(nodes, edges, ids), Dedup(edges))
  {
    FinalNodesKeepShape(nodes, edges, ids);
    forall i: nat | i < 3 ensures |InLayer(FinalNodes(nodes, edges, ids), i)| == |InLayer(nodes, i)| {
      LayersOfShape(nodes, FinalNodes(nodes, edges, ids), i);
    }
    DedupTypes(edges);
    DedupKeepsFirsts(edges);
  }

  // ----- what an export promises -----

  /** A synthesizer that numbers nothing but the nodes it returns. */
  ghost predicate WellBehaved(s: NodeSynthesizer) {
    forall ids :: Valid(ids) && s.run(ids).Ok? ==>
                    var batch := s.run(ids).value;
                    ApplyAll(ids, batch.ops).reverse.Keys <= ids.reverse.Keys + NodeIds(batch.nodes)
  }

  lemma {:induction false} ApplyAllKeepsValid(s: Ids, ops: seq<IdOp>)
    requires Valid(s)
    ensures Valid(ApplyAll(s, ops))
  {
    if ops == [] {
    } else {
      ApplyAllKeepsValid(s, ops[..|ops| - 1]);
      ApplyKeepsValid(ApplyAll(s, ops[..|ops| - 1]), ops[|ops| - 1]);
    }
  }

  lemma NodeIdsConcat(a: seq<ExportNode>, b: seq<ExportNode>)
    ensures NodeIds(a) + NodeIds(b) <= NodeIds(a + b)
  {}

  lemma {:induction false} NumbersAreNodes(s: seq<NodeSynthesizer>)
    requires forall x :: x in s ==> WellBehaved(x)
    requires RunNodeSynthesizers(s, NO_IDS).Ok?
    ensures var state := RunNodeSynthesizers(s, NO_IDS).value;
            Valid(state.ids) && state.ids.reverse.Keys <= NodeIds(state.nodes)
  {
    if s == [] {
    } else {
      var front, last := s[..|s| - 1], s[|s| - 1];
      NumbersAreNodes(front);
      var before := RunNodeSynthesizers(front, NO_IDS).value;
      var batch := last.run(before.ids).value;
      assert last in s && WellBehaved(last);
      ApplyAllKeepsValid(before.ids, batch.ops);
      NodeIdsConcat(before.nodes, batch.nodes);
    }
  }

  lemma NodeIdsOfShape(a: seq<ExportNode>, b: seq<ExportNode>)
    requires SameShape(a, b)
    ensures NodeIds(a) <= NodeIds(b)
  {}

  lemma NumbersAfterTrim(c: BudgetConfig, state: NodeState)
    requires |c.layerSplit| == 3 && state.ids.reverse.Keys <= NodeIds(state.nodes)
    ensures IdsAfterTrim(c, state).reverse.Keys <= NodeIds(TrimNodes(c, state.nodes))
  {}

  /** A second pass of the node budget changes neither the nodes nor the id map. */
  lemma TrimTwice(c: BudgetConfig, state: NodeState)
    requires ProperSplit(c)
    ensures var once := NodeState(TrimNodes(c, state.nodes), IdsAfterTrim(c, state), state.warnings);
            TrimNodes(c, once.nodes) == once.nodes && IdsAfterTrim(c, once) == once.ids
  {
    NodeBudget(c, state.nodes);
  }

  /** The end state of every export: each edge joins two exported nodes, no two edges share source,
      target and type, the edge budget holds, and the node budget is exceeded by one at most. */
  lemma ExportEndState(p: GraphExportPipeline, order: seq<nat>, nodes: seq<ExportNode>, edges: seq<ExportEdge>)
    requires |p.budget.layerSplit| == 3 && forall x :: x in p.nodeSynthesizers ==> WellBehaved(x)
    requires IsExport(p, order, nodes, edges)
    ensures forall e :: e in edges ==> e.source in NodeIds(nodes) && e.target in NodeIds(nodes)
    ensures UniqueKeys(edges)
    ensures |edges| <= EffectiveMaxEdges(p.budget)
    ensures ProperSplit(p.budget) ==> |nodes| <= p.budget.maxNodes + 1
  {
    var state := RunNodeSynthesizers(p.nodeSynthesizers, NO_IDS).value;
    NumbersAreNodes(p.nodeSynthesizers);
    NumbersAfterTrim(p.budget, state);
    var ids := IdsAfterTrim(p.budget, state);
    var linked := RunEdgeSynthesizers(p.edgeSynthesizers, ids).value.edges;
    var trimmed := TrimNodes(p.budget, state.nodes);
    var budgeted := EdgeBudget(p.budget, p.strategy, order, linked, ids.reverse.Keys);
    EdgeBudgetHolds(p.budget, p.strategy, order, linked, ids.reverse.Keys);
    DedupKeepsFirsts(budgeted);
    FinalNodesKeepShape(trimmed, budgeted, ids);
    NodeIdsOfShape(trimmed, nodes);
    if ProperSplit(p.budget) {
      NodeBudget(p.budget, state.nodes);
    }
  }

  /** Per layer, as the metadata counts it: within budget whenever anything was trimmed at all. */
  lemma ExportLayers(p: GraphExportPipeline, order: seq<nat>, nodes: seq<ExportNode>, edges: seq<ExportEdge>, m: ExportMetadata, i: nat)
    requires ProperSplit(p.budget) && i < 3
    requires IsExport(p, order, nodes, edges) && Describes(m, nodes, edges)
    ensures var all := RunNodeSynthesizers(p.nodeSynthesizers, NO_IDS).value.nodes;
            m.nodesPerLayer[i] ==
            if |all| <= p.budget.maxNodes || |InLayer(all, i)| <= LayerBudget(p.budget, i) then |InLayer(all, i)|
            else LayerBudget(p.budget, i)
  {
    var state := RunNodeSynthesizers(p.nodeSynthesizers, NO_IDS).value;
    var ids := IdsAfterTrim(p.budget, state);
    var linked := RunEdgeSynthesizers(p.edgeSynthesizers, ids).value.edges;
    var trimmed := TrimNodes(p.budget, state.nodes);
    var budgeted := EdgeBudget(p.budget, p.strategy, order, linked, ids.reverse.Keys);
    FinalNodesKeepShape(trimmed, budgeted, ids);
    LayersOfShape(trimmed, nodes, i);
    if |state.nodes| > p.budget.maxNodes {
      LayersOfTrim(p.budget, state.nodes, i);
    }
  }

  // ----- what was dropped -----

  ghost predicate DropsNothing(warnings: seq<ExportWarning>) {
    NodesDropped(warnings) == 0 && EdgesDropped(warnings) == 0
  }

  lemma {:induction false} NotesDropNothing(texts: seq<string>)
    ensures DropsNothing(Notes(texts))
  {
    if texts == [] {
    } else {
      var front := texts[..|texts| - 1];
      NotesDropNothing(front);
      assert Notes(texts)[..|texts| - 1] == Notes(front);
    }
  }

  lemma {:induction false} NodeSynthesisDropsNothing(s: seq<NodeSynthesizer>, ids: Ids)
    requires RunNodeSynthesizers(s, ids).Ok?
    ensures DropsNothing(RunNodeSynthesizers(s, ids).value.warnings)
  {
    if s == [] {
    } else {
      var front, last := s[..|s| - 1], s[|s| - 1];
      NodeSynthesisDropsNothing(front, ids);
      var before := RunNodeSynthesizers(front, ids).value;
      NotesDropNothing(last.run(before.ids).value.notes);
      DroppedAdds(before.warnings, Notes(last.run(before.ids).value.notes));
    }
  }

  lemma {:induction false} EdgeSynthesisDropsNothing(s: seq<EdgeSynthesizer>, ids: Ids)
    requires RunEdgeSynthesizers(s, ids).Ok?
    ensures DropsNothing(RunEdgeSynthesizers(s, ids).value.warnings)
  {
    if s == [] {
    } else {
      var front, last := s[..|s| - 1], s[|s| - 1];
      EdgeSynthesisDropsNothing(front, ids);
      NotesDropNothing(last.run(ids).value.notes);
      DroppedAdds(RunEdgeSynthesizers(front, ids).value.warnings, Notes(last.run(ids).value.notes));
    }
  }

  lemma {:induction false} DuplicatesDropNothing(s: seq<EdgeSynthesizer>)
    ensures DropsNothing(DuplicateNames(s))
  {
    if s == [] {
    } else {
      var front, name := s[..|s| - 1], s[|s| - 1].name;
      DuplicatesDropNothing(front);
      OneWarning(DuplicateSynthesizer(name));
      DroppedAdds(DuplicateNames(front), [DuplicateSynthesizer(name)]);
      assert DuplicateNames(front) + [] == DuplicateNames(front);
    }
  }

  lemma FiveParts(a: seq<ExportWarning>, b: seq<ExportWarning>, c: seq<ExportWarning>, d: seq<ExportWarning>, e: seq<ExportWarning>)
    ensures NodesDropped(a + b + c + d + e) == NodesDropped(a) + NodesDropped(b) + NodesDropped(c) + NodesDropped(d) + NodesDropped(e)
    ensures EdgesDropped(a + b + c + d + e) == EdgesDropped(a) + EdgesDropped(b) + EdgesDropped(c) + EdgesDropped(d) + EdgesDropped(e)
  {
    DroppedAdds(a, b);
    DroppedAdds(a + b, c);
    DroppedAdds(a + b + c, d);
    DroppedAdds(a + b + c + d, e);
  }

  lemma {:induction false} DedupCounts(edges: seq<ExportEdge>)
    ensures |Dedup(edges)| == |KeysOf(edges)|
  {
    if edges == [] {
    } else {
      var front, last := edges[..|edges| - 1], edges[|edges| - 1];
      assert edges == front + [last];
      DedupCounts(front);
      KeysPush(front, last);
      assert Key(last) in KeysOf(front) ==> KeysOf(front) + {Key(last)} == KeysOf(front);
    }
  }

  /** Nothing but duplicates is lost silently: the warnings of an export account for every node that
      was synthesized and not exported, and for every edge that is not a duplicate of one kept. */
  lemma LossIsReported(
    p: GraphExportPipeline, order: seq<nat>, nodes: seq<ExportNode>, edges: seq<ExportEdge>, warnings: seq<ExportWarning>)
    requires |p.budget.layerSplit| == 3
    requires IsExport(p, order, nodes, edges) && Reports(p, order, warnings)
    ensures var state := RunNodeSynthesizers(p.nodeSynthesizers, NO_IDS).value;
            var ids := IdsAfterTrim(p.budget, state);
            var linked := RunEdgeSynthesizers(p.edgeSynthesizers, ids).value.edges;
            var budgeted := EdgeBudget(p.budget, p.strategy, order, linked, ids.reverse.Keys);
            && |state.nodes| == |nodes| + NodesDropped(warnings)
            && |linked| == |edges| + EdgesDropped(warnings) + (|budgeted| - |KeysOf(budgeted)|)
  {
    var state := RunNodeSynthesizers(p.nodeSynthesizers, NO_IDS).value;
    var ids := IdsAfterTrim(p.budget, state);
    var linked := RunEdgeSynthesizers(p.edgeSynthesizers, ids).value;
    var budgeted := EdgeBudget(p.budget, p.strategy, order, linked.edges, ids.reverse.Keys);
    FiveParts(state.warnings, NodeWarnings(p.budget, state.nodes), DuplicateNames(p.edgeSynthesizers), linked.warnings,
              EdgeWarnings(p.budget, p.strategy, order, linked.edges, ids.reverse.Keys));
    NodeSynthesisDropsNothing(p.nodeSynthesizers, NO_IDS);
    NodeLossIsReported(p.budget, state.nodes);
    DuplicatesDropNothing(p.edgeSynthesizers);
    EdgeSynthesisDropsNothing(p.edgeSynthesizers, ids);
    EdgeLossIsReported(p.budget, p.strategy, order, linked.edges, ids.reverse.Keys);
    DedupCounts(budgeted);
    FinalNodesKeepShape(TrimNodes(p.budget, state.nodes), budgeted, ids);
  }
}
