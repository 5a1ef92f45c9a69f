/** The export stage by stage and by position: what each synthesizer contributes, what becomes of
    the id map, and what the post-processors write into which node. */
module ExportRules {
  import opened Wrappers
  import opened Seqs
  import opened GraphTypes
  import opened IdMap
  import opened Budget
  import opened EdgeSampling
  import opened PostProcess
  import opened Pipeline
  import BudgetRules
  import PostProcessRules

  // ----- synthesis -----

  /** Each note of a synthesizer becomes a warning. */
  ghost predicate NotesOf(notes: seq<string>, warnings: seq<ExportWarning>) {
    |warnings| == |notes| && forall i :: 0 <= i < |notes| ==> warnings[i] == Note(notes[i])
  }

  /** The synthesizers' batches, each from the id map the earlier ones left behind. */
  ghost predicate NodeBatches(s: seq<NodeSynthesizer>, ids: Ids, maps: seq<Ids>, batches: seq<NodeBatch>) {
    && |batches| <= |s| && |maps| == |batches| + 1 && maps[0] == ids
    && forall i :: 0 <= i < |batches| ==>
                     s[i].run(maps[i]) == Ok(batches[i]) && OpsRule(maps[i], batches[i].ops, maps[i + 1])
  }

  ghost function NodeLists(batches: seq<NodeBatch>): seq<seq<ExportNode>> {
    seq(|batches|, i requires 0 <= i < |batches| => batches[i].nodes)
  }

  ghost predicate NoteLists(lists: seq<seq<string>>, parts: seq<seq<ExportWarning>>) {
    |parts| == |lists| && forall i :: 0 <= i < |lists| ==> NotesOf(lists[i], parts[i])
  }

  ghost function NodeNotes(batches: seq<NodeBatch>): seq<seq<string>> {
    seq(|batches|, i requires 0 <= i < |batches| => batches[i].notes)
  }

  ghost predicate JoinedNotes(lists: seq<seq<string>>, warnings: seq<ExportWarning>) {
    exists parts :: NoteLists(lists, parts) && Joins(warnings, parts)
  }

  ghost predicate NodesJoined(state: NodeState, maps: seq<Ids>, batches: seq<NodeBatch>) {
    && |maps| == |batches| + 1 && state.ids == maps[|batches|]
    && Joins(state.nodes, NodeLists(batches)) && JoinedNotes(NodeNotes(batches), state.warnings)
  }

  ghost predicate NodeFailure(s: seq<NodeSynthesizer>, maps: seq<Ids>, n: nat, e: ExportError) {
    && n < |s| && n < |maps| && s[n].run(maps[n]).Err?
    && e == StageError("node_synthesis", s[n].name, s[n].run(maps[n]).error)
  }

  /** All batches one after the other, or the first synthesizer that fails. */
  ghost predicate NodeSynthesis(
    s: seq<NodeSynthesizer>, ids: Ids, result: Result<NodeState, ExportError>, maps: seq<Ids>, batches: seq<NodeBatch>)
  {
    && NodeBatches(s, ids, maps, batches)
    && match result
       case Ok(state) => |batches| == |s| && NodesJoined(state, maps, batches)
       case Err(e) => NodeFailure(s, maps, |batches|, e)
  }

  ghost predicate EdgeBatches(s: seq<EdgeSynthesizer>, ids: Ids, batches: seq<EdgeBatch>) {
    |batches| <= |s| && forall i :: 0 <= i < |batches| ==> s[i].run(ids) == Ok(batches[i])
  }

  ghost function EdgeLists(batches: seq<EdgeBatch>): seq<seq<ExportEdge>> {
    seq(|batches|, i requires 0 <= i < |batches| => batches[i].edges)
  }

  ghost function EdgeNotes(batches: seq<EdgeBatch>): seq<seq<string>> {
    seq(|batches|, i requires 0 <= i < |batches| => batches[i].notes)
  }

  ghost predicate EdgesJoined(state: EdgeState, batches: seq<EdgeBatch>) {
    Joins(state.edges, EdgeLists(batches)) && JoinedNotes(EdgeNotes(batches), state.warnings)
  }

  ghost predicate EdgeSynthesis(
    s: seq<EdgeSynthesizer>, ids: Ids, result: Result<EdgeState, ExportError>, batches: seq<EdgeBatch>)
  {
    && EdgeBatches(s, ids, batches)
    && match result
       case Ok(state) => |batches| == |s| && EdgesJoined(state, batches)
       case Err(e) =>
         && |batches| < |s| && s[|batches|].run(ids).Err?
         && e == StageError("edge_synthesis", s[|batches|].name, s[|batches|].run(ids).error)
  }

  lemma NotesAreNoted(notes: seq<string>)
    ensures NotesOf(notes, Notes(notes))
  {}

  lemma NotesPush(lists: seq<seq<string>>, warnings: seq<ExportWarning>, notes: seq<string>)
    requires JoinedNotes(lists, warnings)
    ensures JoinedNotes(lists + [notes], warnings + Notes(notes))
  {
    var parts :| NoteLists(lists, parts) && Joins(warnings, parts);
    NotesAreNoted(notes);
    assert NoteLists(lists + [notes], parts + [Notes(notes)]);
    JoinsPush(warnings, parts, Notes(notes));
  }

  lemma {:induction false} NodeBatchesGrow(s: seq<NodeSynthesizer>, t: seq<NodeSynthesizer>, ids: Ids, maps: seq<Ids>, batches: seq<NodeBatch>)
    requires NodeBatches(s, ids, maps, batches) && s <= t
    ensures NodeBatches(t, ids, maps, batches)
  {
    assert forall i :: 0 <= i < |s| ==> t[i] == s[i];
  }

  lemma NodeListsPush(batches: seq<NodeBatch>, batch: NodeBatch)
    ensures NodeLists(batches + [batch]) == NodeLists(batches) + [batch.nodes]
    ensures NodeNotes(batches + [batch]) == NodeNotes(batches) + [batch.notes]
  {}

  lemma NodeBatchPush(state: NodeState, maps: seq<Ids>, batches: seq<NodeBatch>, batch: NodeBatch, ids: Ids)
    requires NodesJoined(state, maps, batches)
    ensures NodesJoined(NodeState(state.nodes + batch.nodes, ids, state.warnings + Notes(batch.notes)), maps + [ids], batches + [batch])
  {
    hide Joins, JoinedNotes, NodeLists, NodeNotes, Notes;
    NodeListsPush(batches, batch);
    JoinsPush(state.nodes, NodeLists(batches), batch.nodes);
    NotesPush(NodeNotes(batches), state.warnings, batch.notes);
  }

  /** The nodes are those of all synthesizers, in their order, and so are the notes; or the error is
      that of the first synthesizer to fail. */
  lemma {:induction false} NodesFollowRule(s: seq<NodeSynthesizer>, ids: Ids)
    ensures exists maps, batches :: NodeSynthesis(s, ids, RunNodeSynthesizers(s, ids), maps, batches)
  {
    hide NodesJoined;
    if s == [] {
      NoNodes(ids);
      assert NodeSynthesis(s, ids, RunNodeSynthesizers(s, ids), [ids], []);
    } else {
      var front, last := s[..|s| - 1], s[|s| - 1];
      var before := RunNodeSynthesizers(front, ids);
      NodesFollowRule(front, ids);
      var maps, batches :| NodeSynthesis(front, ids, before, maps, batches);
      NodeBatchesGrow(front, s, ids, maps, batches);
      if before.Ok? && last.run(before.value.ids).Ok? {
        OneMoreBatch(s, ids, maps, batches);
      } else {
        LastInState(front, ids, maps, batches);
        assert NodeSynthesis(s, ids, RunNodeSynthesizers(s, ids), maps, batches);
      }
    }
  }

  lemma NoNodes(ids: Ids)
    ensures NodesJoined(NodeState([], ids, []), [ids], [])
  {
    assert NoteLists(NodeNotes([]), []);
  }

  lemma LastInState(s: seq<NodeSynthesizer>, ids: Ids, maps: seq<Ids>, batches: seq<NodeBatch>)
    requires NodeSynthesis(s, ids, RunNodeSynthesizers(s, ids), maps, batches)
    ensures RunNodeSynthesizers(s, ids).Ok? ==>
              |batches| == |s| && |maps| == |s| + 1 && maps[|s|] == RunNodeSynthesizers(s, ids).value.ids
  {}

  lemma BatchesPush(s: seq<NodeSynthesizer>, ids: Ids, maps: seq<Ids>, batches: seq<NodeBatch>, batch: NodeBatch, after: Ids)
    requires s != [] && NodeBatches(s[..|s| - 1], ids, maps, batches) && |batches| == |s| - 1
    requires s[|s| - 1].run(maps[|s| - 1]) == Ok(batch) && OpsRule(maps[|s| - 1], batch.ops, after)
    ensures NodeBatches(s, ids, maps + [after], batches + [batch])
  {
    hide OpsRule;
    var maps', batches' := maps + [after], batches + [batch];
    forall i | 0 <= i < |s|
      ensures s[i].run(maps'[i]) == Ok(batches'[i]) && OpsRule(maps'[i], batches'[i].ops, maps'[i + 1])
    {
      if i < |s| - 1 {
        assert s[..|s| - 1][i] == s[i];
      }
    }
  }

  lemma OneMoreBatch(s: seq<NodeSynthesizer>, ids: Ids, maps: seq<Ids>, batches: seq<NodeBatch>)
    requires s != [] && RunNodeSynthesizers(s, ids).Ok?
    requires NodeSynthesis(s[..|s| - 1], ids, RunNodeSynthesizers(s[..|s| - 1], ids), maps, batches)
    ensures exists maps', batches' :: NodeSynthesis(s, ids, RunNodeSynthesizers(s, ids), maps', batches')
  {
    hide NodesJoined;
    var front, last := s[..|s| - 1], s[|s| - 1];
    var before := RunNodeSynthesizers(front, ids).value;
    LastInState(front, ids, maps, batches);
    var batch := last.run(before.ids).value;
    var after := ApplyAll(before.ids, batch.ops);
    hide OpsRule, ApplyAll, NodeBatches;
    OpsFollowRule(before.ids, batch.ops);
    NodeBatchPush(before, maps, batches, batch, after);
    BatchesPush(s, ids, maps, batches, batch, after);
    assert NodeSynthesis(s, ids, RunNodeSynthesizers(s, ids), maps + [after], batches + [batch]);
  }

  lemma EdgeListsPush(batches: seq<EdgeBatch>, batch: EdgeBatch)
    ensures EdgeLists(batches + [batch]) == EdgeLists(batches) + [batch.edges]
    ensures EdgeNotes(batches + [batch]) == EdgeNotes(batches) + [batch.notes]
  {}

  lemma EdgeBatchPush(state: EdgeState, batches: seq<EdgeBatch>, batch: EdgeBatch)
    requires EdgesJoined(state, batches)
    ensures EdgesJoined(EdgeState(state.edges + batch.edges, state.warnings + Notes(batch.notes)), batches + [batch])
  {
    hide Joins, JoinedNotes, EdgeLists, EdgeNotes, Notes;
    EdgeListsPush(batches, batch);
    JoinsPush(state.edges, EdgeLists(batches), batch.edges);
    NotesPush(EdgeNotes(batches), state.warnings, batch.notes);
  }

  lemma NoEdges()
    ensures EdgesJoined(EdgeState([], []), [])
  {
    assert NoteLists(EdgeNotes([]), []);
  }

  /** The same for edges, every synthesizer seeing the same id map. */
  lemma {:induction false} EdgesFollowRule(s: seq<EdgeSynthesizer>, ids: Ids)
    ensures exists batches :: EdgeSynthesis(s, ids, RunEdgeSynthesizers(s, ids), batches)
  {
    hide EdgesJoined;
    if s == [] {
      NoEdges();
      assert EdgeSynthesis(s, ids, RunEdgeSynthesizers(s, ids), []);
    } else {
      var front, last := s[..|s| - 1], s[|s| - 1];
      var before := RunEdgeSynthesizers(front, ids);
      EdgesFollowRule(front, ids);
      var batches :| EdgeSynthesis(front, ids, before, batches);
      assert forall i :: 0 <= i < |front| ==> front[i] == s[i];
      if before.Ok? && last.run(ids).Ok? {
        EdgeBatchPush(before.value, batches, last.run(ids).value);
        assert EdgeSynthesis(s, ids, RunEdgeSynthesizers(s, ids), batches + [last.run(ids).value]);
      } else {
        assert EdgeSynthesis(s, ids, RunEdgeSynthesizers(s, ids), batches);
      }
    }
  }

  // ----- the whole export -----

  /** A warning for every synthesizer whose name an earlier one has. */
  ghost predicate NamesWarned(s: seq<EdgeSynthesizer>, warnings: seq<ExportWarning>) {
    Joins(warnings, NameWarnings(s))
  }

  ghost function NameWarning(s: seq<EdgeSynthesizer>, i: nat): seq<ExportWarning>
    requires i < |s|
  {
    if exists j :: 0 <= j < i && s[j].name == s[i].name then [DuplicateSynthesizer(s[i].name)] else []
  }

  ghost function NameWarnings(s: seq<EdgeSynthesizer>): seq<seq<ExportWarning>> {
    seq(|s|, i requires 0 <= i < |s| => NameWarning(s, i))
  }

  ghost predicate NumbersOf(nodes: seq<ExportNode>, numbers: set<nat>) {
    forall n :: n in numbers <==> exists i :: 0 <= i < |nodes| && nodes[i].id == Some(n)
  }

  /** Trimming takes the numbers of the nodes it drops out of the id map. */
  ghost predicate IdsRule(c: BudgetConfig, state: NodeState, kept: seq<ExportNode>, ids: Ids) {
    if |state.nodes| <= c.maxNodes then ids == state.ids
    else
      exists numbers :: NumbersOf(kept, numbers) && Retains(state.ids, ids, numbers)
  }

  /** What the stages hand to each other. */
  datatype Stages = Stages(
    synthesized: NodeState, maps: seq<Ids>, nodeBatches: seq<NodeBatch>,
    kept: seq<ExportNode>, trimmed: seq<ExportWarning>, ids: Ids,
    linked: EdgeState, edgeBatches: seq<EdgeBatch>,
    budgeted: seq<ExportEdge>, sampled: seq<ExportWarning>, names: seq<ExportWarning>)

  ghost predicate Synthesized(p: GraphExportPipeline, x: Stages)
    requires |p.budget.layerSplit| == 3
  {
    && NodeSynthesis(p.nodeSynthesizers, Ids(map[], map[], 1), Ok(x.synthesized), x.maps, x.nodeBatches)
    && BudgetRules.NodeRule(p.budget, x.synthesized.nodes, x.kept, x.trimmed)
    && IdsRule(p.budget, x.synthesized, x.kept, x.ids)
    && EdgeSynthesis(p.edgeSynthesizers, x.ids, Ok(x.linked), x.edgeBatches)
  }

  /** Every stage does what its rule says with what the one before it left. */
  ghost predicate ExportRule(
    p: GraphExportPipeline, nodes: seq<ExportNode>, edges: seq<ExportEdge>, warnings: seq<ExportWarning>, x: Stages)
    requires |p.budget.layerSplit| == 3
  {
    && Synthesized(p, x)
    && BudgetRules.EdgeRule(p.budget, p.strategy, x.linked.edges, x.ids.reverse.Keys, x.budgeted, x.sampled)
    && Picked(x.budgeted, PostProcessRules.FirstPositions(x.budgeted), edges)
    && PostProcessRules.NodesRule(x.kept, x.budgeted, x.ids, nodes)
    && NamesWarned(p.edgeSynthesizers, x.names)
    && warnings == x.synthesized.warnings + x.trimmed + x.names + x.linked.warnings + x.sampled
  }

  lemma NameStays(s: seq<EdgeSynthesizer>, n: nat, i: nat)
    requires i < n <= |s|
    ensures NameWarning(s[..n], i) == NameWarning(s, i)
  {
    assert forall j :: 0 <= j <= i ==> s[..n][j] == s[j];
  }

  lemma NameWarningsPush(s: seq<EdgeSynthesizer>)
    requires s != []
    ensures NameWarnings(s) == NameWarnings(s[..|s| - 1]) + [NameWarning(s, |s| - 1)]
  {
    hide NameWarning;
    forall i | 0 <= i < |s| - 1 ensures NameWarning(s[..|s| - 1], i) == NameWarning(s, i) {
      NameStays(s, |s| - 1, i);
    }
  }

  lemma LastName(s: seq<EdgeSynthesizer>)
    requires s != []
    ensures DuplicateNames(s) == DuplicateNames(s[..|s| - 1]) + NameWarning(s, |s| - 1)
  {
    assert forall j :: 0 <= j < |s| - 1 ==> s[..|s| - 1][j] == s[j];
  }

  lemma {:induction false} NamesFollowRule(s: seq<EdgeSynthesizer>)
    ensures NamesWarned(s, DuplicateNames(s))
  {
    if s == [] {
    } else {
      hide NameWarning, DuplicateNames, NameWarnings;
      NamesFollowRule(s[..|s| - 1]);
      NameWarningsPush(s);
      LastName(s);
      JoinsPush(DuplicateNames(s[..|s| - 1]), NameWarnings(s[..|s| - 1]), NameWarning(s, |s| - 1));
    }
  }

  lemma NumbersAre(nodes: seq<ExportNode>)
    ensures NumbersOf(nodes, NodeIds(nodes))
  {
    forall n: nat ensures n in NodeIds(nodes) <==> exists i :: 0 <= i < |nodes| && nodes[i].id == Some(n) {
      if n in NodeIds(nodes) {
        var x :| x in nodes && x.id == Some(n);
        var i :| 0 <= i < |nodes| && nodes[i] == x;
      }
      if i :| 0 <= i < |nodes| && nodes[i].id == Some(n) {
        assert nodes[i] in nodes;
      }
    }
  }

  lemma IdsFollowRule(c: BudgetConfig, state: NodeState)
    requires |c.layerSplit| == 3
    ensures IdsRule(c, state, TrimNodes(c, state.nodes), IdsAfterTrim(c, state))
  {
    var kept := TrimNodes(c, state.nodes);
    NumbersAre(kept);
    RetainFollowsRule(state.ids, NodeIds(kept));
  }

  lemma SynthesisFollowsRule(p: GraphExportPipeline) returns (x: Stages)
    requires |p.budget.layerSplit| == 3 && FirstError(p) == None
    ensures Synthesized(p, x)
    ensures RunNodeSynthesizers(p.nodeSynthesizers, NO_IDS) == Ok(x.synthesized)
    ensures x.kept == TrimNodes(p.budget, x.synthesized.nodes) && x.trimmed == NodeWarnings(p.budget, x.synthesized.nodes)
    ensures x.ids == IdsAfterTrim(p.budget, x.synthesized)
    ensures RunEdgeSynthesizers(p.edgeSynthesizers, x.ids) == Ok(x.linked)
  {
    hide NodeSynthesis, EdgeSynthesis, IdsAfterTrim, TrimNodes, NodeWarnings, RunNodeSynthesizers, RunEdgeSynthesizers, IdsRule;
    hide BudgetRules.NodeRule;
    var state := RunNodeSynthesizers(p.nodeSynthesizers, NO_IDS).value;
    var kept, ids := TrimNodes(p.budget, state.nodes), IdsAfterTrim(p.budget, state);
    NodesFollowRule(p.nodeSynthesizers, NO_IDS);
    var maps, nodeBatches :| NodeSynthesis(p.nodeSynthesizers, NO_IDS, Ok(state), maps, nodeBatches);
    BudgetRules.NodesFollowRule(p.budget, state.nodes);
    IdsFollowRule(p.budget, state);
    var linked := RunEdgeSynthesizers(p.edgeSynthesizers, ids).value;
    EdgesFollowRule(p.edgeSynthesizers, ids);
    var edgeBatches :| EdgeSynthesis(p.edgeSynthesizers, ids, Ok(linked), edgeBatches);
    x := Stages(state, maps, nodeBatches, kept, NodeWarnings(p.budget, state.nodes), ids, linked, edgeBatches, [], [], []);
  }

  /** Every export follows the rules, from the synthesizers' batches to the last property. */
  lemma ExportFollowsRule(
    p: GraphExportPipeline, order: seq<nat>, nodes: seq<ExportNode>, edges: seq<ExportEdge>, warnings: seq<ExportWarning>)
    requires |p.budget.layerSplit| == 3
    requires IsExport(p, order, nodes, edges) && Reports(p, order, warnings)
    ensures exists x :: ExportRule(p, nodes, edges, warnings, x)
  {
    hide NodeSynthesis, EdgeSynthesis, RunNodeSynthesizers, RunEdgeSynthesizers, EdgeBudget, EdgeWarnings, FinalNodes, Dedup;
    hide BudgetRules.NodeRule, BudgetRules.EdgeRule, PostProcessRules.NodesRule, Picked, IdsRule, IdsAfterTrim, TrimNodes;
    hide NamesWarned, DuplicateNames, Live, ListsTypes, NodeWarnings;
    var y := SynthesisFollowsRule(p);
    var budgeted := EdgeBudget(p.budget, p.strategy, order, y.linked.edges, y.ids.reverse.Keys);
    var sampled := EdgeWarnings(p.budget, p.strategy, order, y.linked.edges, y.ids.reverse.Keys);
    BudgetRules.EdgesFollowRule(p.budget, p.strategy, order, y.linked.edges, y.ids.reverse.Keys);
    PostProcessRules.DedupFollowsRule(budgeted);
    PostProcessRules.NodesFollowRule(y.kept, budgeted, y.ids);
    NamesFollowRule(p.edgeSynthesizers);
    var x := y.(budgeted := budgeted, sampled := sampled, names := DuplicateNames(p.edgeSynthesizers));
    assert Synthesized(p, x);
    assert ExportRule(p, nodes, edges, warnings, x);
  }

  // ----- nothing returned is lost on the way -----

  lemma {:induction false} FirstOfItsKey(edges: seq<ExportEdge>, i: nat) returns (j: nat)
    requires i < |edges|
    ensures j <= i && PostProcessRules.NewAt(edges, j)
    ensures edges[j].source == edges[i].source && edges[j].target == edges[i].target && edges[j].edgeType == edges[i].edgeType
  {
    if PostProcessRules.NewAt(edges, i) {
      j := i;
    } else {
      var k :| 0 <= k < i && edges[k].source == edges[i].source && edges[k].target == edges[i].target
               && edges[k].edgeType == edges[i].edgeType;
      j := FirstOfItsKey(edges, k);
    }
  }

  lemma LiveEdgesStay(
    c: BudgetConfig, strategy: Strategy, edges: seq<ExportEdge>, ids: set<nat>,
    result: seq<ExportEdge>, warnings: seq<ExportWarning>, live: seq<ExportEdge>, limit: nat)
    requires BudgetRules.EdgeRule(c, strategy, edges, ids, result, warnings)
    requires BudgetRules.IsLive(edges, ids, live) && BudgetRules.IsLimit(c, limit) && |live| <= limit
    ensures result == live
  {
    var live', limit', sampled :| BudgetRules.EdgeStages(c, strategy, edges, ids, result, warnings, live', limit', sampled);
    JoinsUnique(live, live', Chosen(edges, BudgetRules.Joined(edges, ids)));
  }

  lemma BatchIsLinked(p: GraphExportPipeline, x: Stages, i: nat, e: ExportEdge)
    requires |p.budget.layerSplit| == 3 && Synthesized(p, x) && i < |p.edgeSynthesizers|
    requires p.edgeSynthesizers[i].run(x.ids).Ok? && e in p.edgeSynthesizers[i].run(x.ids).value.edges
    ensures e in x.linked.edges
  {
    assert x.edgeBatches[i] == p.edgeSynthesizers[i].run(x.ids).value;
    JoinsMembers(x.linked.edges, EdgeLists(x.edgeBatches));
    assert e in EdgeLists(x.edgeBatches)[i];
  }

  /** An edge returned by any synthesizer, both of whose ends are still numbered, has its source,
      target and type among the exported edges, whenever the edges with both ends fit the limit. */
  lemma ReturnedEdgeArrives(
    p: GraphExportPipeline, nodes: seq<ExportNode>, edges: seq<ExportEdge>, warnings: seq<ExportWarning>, x: Stages,
    live: seq<ExportEdge>, limit: nat, i: nat, e: ExportEdge)
    requires |p.budget.layerSplit| == 3 && ExportRule(p, nodes, edges, warnings, x) && i < |p.edgeSynthesizers|
    requires p.edgeSynthesizers[i].run(x.ids).Ok? && e in p.edgeSynthesizers[i].run(x.ids).value.edges
    requires e.source in x.ids.reverse && e.target in x.ids.reverse
    requires BudgetRules.IsLive(x.linked.edges, x.ids.reverse.Keys, live) && BudgetRules.IsLimit(p.budget, limit)
    requires |live| <= limit
    ensures exists d :: d in edges && d.source == e.source && d.target == e.target && d.edgeType == e.edgeType
  {
    hide Synthesized, Picked, BudgetRules.EdgeRule, BudgetRules.IsLimit, PostProcessRules.NodesRule, NamesWarned;
    BatchIsLinked(p, x, i, e);
    LiveEdgesStay(p.budget, p.strategy, x.linked.edges, x.ids.reverse.Keys, x.budgeted, x.sampled, live, limit);
    var k :| 0 <= k < |x.linked.edges| && x.linked.edges[k] == e;
    PickedHas(x.linked.edges, BudgetRules.Joined(x.linked.edges, x.ids.reverse.Keys), live, k);
    var m :| 0 <= m < |live| && live[m] == e;
    var j := FirstOfItsKey(live, m);
    PickedHas(live, PostProcessRules.FirstPositions(live), edges, j);
  }

  /** Within the node limit, every node returned by any synthesizer is exported, as often as it was
      returned, in the order of the synthesizers, and with its own properties completed. */
  lemma ReturnedNodesArrive(
    p: GraphExportPipeline, nodes: seq<ExportNode>, edges: seq<ExportEdge>, warnings: seq<ExportWarning>, x: Stages)
    requires |p.budget.layerSplit| == 3 && ExportRule(p, nodes, edges, warnings, x)
    requires TotalLength(NodeLists(x.nodeBatches)) <= p.budget.maxNodes
    ensures |x.nodeBatches| == |p.nodeSynthesizers|
    ensures forall i :: 0 <= i < |p.nodeSynthesizers| ==> p.nodeSynthesizers[i].run(x.maps[i]) == Ok(x.nodeBatches[i])
    ensures Joins(x.kept, NodeLists(x.nodeBatches))
    ensures |nodes| == |x.kept| && forall k :: 0 <= k < |nodes| ==> nodes[k] == x.kept[k].(properties := nodes[k].properties)
  {}
}
