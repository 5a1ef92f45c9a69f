/** The built-in post-processors, in the order they run: duplicate edges are dropped, controls are
    counted on risk nodes, anomaly flags are completed, documents with red flags are marked. */
module PostProcess {
  import opened Wrappers
  import opened Seqs
  import opened GraphTypes
  import opened IdMap
  import Ocel

  // ----- duplicate edges -----

  function Key(e: ExportEdge): (nat, nat, nat) {
    (e.source, e.target, e.edgeType)
  }

  function KeysOf(edges: seq<ExportEdge>): set<(nat, nat, nat)> {
    set e | e in edges :: Key(e)
  }

  ghost predicate UniqueKeys(edges: seq<ExportEdge>) {
    forall i, j :: 0 <= i < j < |edges| ==> Key(edges[i]) != Key(edges[j])
  }

  /** `retain` with a set of the keys seen so far. */
  function Dedup(edges: seq<ExportEdge>): seq<ExportEdge> {
    if edges == [] then []
    else
      var front, last := edges[..|edges| - 1], edges[|edges| - 1];
      if Key(last) in KeysOf(front) then Dedup(front) else Dedup(front) + [last]
  }

  function OfKey(edges: seq<ExportEdge>, k: (nat, nat, nat)): seq<ExportEdge> {
    Filter((e: ExportEdge) => Key(e) == k, edges)
  }

  lemma KeysPush(front: seq<ExportEdge>, last: ExportEdge)
    ensures KeysOf(front + [last]) == KeysOf(front) + {Key(last)}
  {}

  /** Every key stays, once; nothing is invented. */
  lemma {:induction false} DedupKeepsFirsts(edges: seq<ExportEdge>)
    ensures UniqueKeys(Dedup(edges)) && KeysOf(Dedup(edges)) == KeysOf(edges)
    ensures forall e :: e in Dedup(edges) ==> e in edges
    ensures |Dedup(edges)| <= |edges|
  {
    if edges == [] {
    } else {
      var front, last := edges[..|edges| - 1], edges[|edges| - 1];
      assert edges == front + [last];
      DedupKeepsFirsts(front);
      KeysPush(front, last);
      KeysPush(Dedup(front), last);
      if Key(last) !in KeysOf(front) {
        forall i | 0 <= i < |Dedup(front)| ensures Key(Dedup(front)[i]) != Key(last) {
          assert Dedup(front)[i] in Dedup(front);
        }
      }
    }
  }

  /** What stays of a key is its first edge. */
  lemma {:induction false} FirstOfKey(edges: seq<ExportEdge>, k: (nat, nat, nat))
    ensures OfKey(Dedup(edges), k) == Take(OfKey(edges, k), 1)
  {
    if edges == [] {
    } else {
      var front, last := edges[..|edges| - 1], edges[|edges| - 1];
      FirstOfKey(front, k);
      FilterMembers((e: ExportEdge) => Key(e) == k, front);
      if Key(last) == k {
        assert Key(last) in KeysOf(front) <==> OfKey(front, k) != [] by {
          if OfKey(front, k) != [] {
            assert OfKey(front, k)[0] in OfKey(front, k);
          }
        }
      }
    }
  }

  /** What is kept, and in which order, does not depend on the edges that follow. */
  lemma {:induction false} DedupPrefix(a: seq<ExportEdge>, b: seq<ExportEdge>)
    ensures Dedup(a) <= Dedup(a + b)
  {
    if b == [] {
      assert a + b == a;
    } else {
      DedupPrefix(a, b[..|b| - 1]);
      assert (a + b)[..|a + b| - 1] == a + b[..|b| - 1];
    }
  }

  /** Exactly the lists without repeated keys are left alone; so a second pass changes nothing. */
  lemma {:induction false} UniqueIffDedup(edges: seq<ExportEdge>)
    ensures UniqueKeys(edges) <==> Dedup(edges) == edges
  {
    DedupKeepsFirsts(edges);
    if edges != [] && UniqueKeys(edges) {
      var front, last := edges[..|edges| - 1], edges[|edges| - 1];
      assert edges == front + [last];
      UniqueIffDedup(front);
      forall e | e in front ensures Key(e) != Key(last) {
        var i :| 0 <= i < |front| && front[i] == e;
        assert edges[i] == e && edges[|front|] == last;
      }
    }
  }

  lemma DedupTypes(edges: seq<ExportEdge>)
    ensures TypesOf(Dedup(edges)) == TypesOf(edges)
  {
    DedupKeepsFirsts(edges);
    forall t | t in TypesOf(edges) ensures t in TypesOf(Dedup(edges)) {
      var e :| e in edges && e.edgeType == t;
      assert Key(e) in KeysOf(Dedup(edges));
      var d :| d in Dedup(edges) && Key(d) == Key(e);
    }
  }

  // ----- control counts -----

  const RISK_MITIGATED_BY := 75

  function Lower(c: char): char {
    if 'A' <= c <= 'Z' then (c as int + 32) as char else c
  }

  predicate EqIgnoreCase(a: string, b: string) {
    |a| == |b| && forall i :: 0 <= i < |a| ==> Lower(a[i]) == Lower(b[i])
  }

  predicate SaysEffective(n: ExportNode) {
    && "effectiveness" in n.properties
    && n.properties["effectiveness"].JString?
    && EqIgnoreCase(n.properties["effectiveness"].s, "effective")
  }

  /** What the last control node with this id says. */
  predicate IsEffective(nodes: seq<ExportNode>, id: nat) {
    if nodes == [] then false
    else
      var last := nodes[|nodes| - 1];
      if last.typeName == "internal_control" && last.id == Some(id) then SaysEffective(last)
      else
        IsEffective(nodes[..|nodes| - 1], id)
  }

  function Mitigating(edges: seq<ExportEdge>, risk: nat): seq<ExportEdge> {
    Filter((e: ExportEdge) => e.edgeType == RISK_MITIGATED_BY && e.source == risk, edges)
  }

  function Effective(edges: seq<ExportEdge>, nodes: seq<ExportNode>, risk: nat): seq<ExportEdge> {
    Filter((e: ExportEdge) => e.edgeType == RISK_MITIGATED_BY && e.source == risk && IsEffective(nodes, e.target), edges)
  }

  function Patched(n: ExportNode, nodes: seq<ExportNode>, edges: seq<ExportEdge>): ExportNode {
    if n.typeName == "risk_assessment" && n.id.Some? then
      n.(properties := n.properties["mitigatingControlCount" := JNumber(|Mitigating(edges, n.id.value)| as real)]
                                   ["effectiveControlCount" := JNumber(|Effective(edges, nodes, n.id.value)| as real)])
    else
      n
  }

  function Targets(edges: seq<ExportEdge>): set<nat> {
    set e | e in edges :: e.target
  }

  /** The controls a risk is linked to. */
  ghost function ControlsOf(edges: seq<ExportEdge>, risk: nat): set<nat> {
    set e | e in edges && e.edgeType == RISK_MITIGATED_BY && e.source == risk :: e.target
  }

  ghost function EffectiveControlsOf(edges: seq<ExportEdge>, nodes: seq<ExportNode>, risk: nat): set<nat> {
    set c | c in ControlsOf(edges, risk) && IsEffective(nodes, c)
  }

  lemma TargetsPush(s: seq<ExportEdge>, e: ExportEdge)
    ensures Targets(s + [e]) == Targets(s) + {e.target}
  {}

  ghost predicate FromRisk(f: ExportEdge -> bool, risk: nat) {
    forall e :: f(e) ==> e.edgeType == RISK_MITIGATED_BY && e.source == risk
  }

  lemma NewTarget(front: seq<ExportEdge>, last: ExportEdge, f: ExportEdge -> bool, risk: nat)
    requires UniqueKeys(front + [last]) && FromRisk(f, risk) && f(last)
    ensures last.target !in Targets(Filter(f, front))
  {
    FilterMembers(f, front);
    forall e | e in Filter(f, front) ensures e.target != last.target {
      var i :| 0 <= i < |front| && front[i] == e;
      assert (front + [last])[i] == e && (front + [last])[|front|] == last;
      assert Key(e) != Key(last);
    }
  }

  /** Edges of one source and type with different keys have different targets. */
  lemma {:induction false} DistinctTargets(edges: seq<ExportEdge>, f: ExportEdge -> bool, risk: nat)
    requires UniqueKeys(edges) && FromRisk(f, risk)
    ensures |Filter(f, edges)| == |Targets(Filter(f, edges))|
  {
    if edges == [] {
    } else {
      var front, last := edges[..|edges| - 1], edges[|edges| - 1];
      assert edges == front + [last];
      DistinctTargets(front, f, risk);
      if f(last) {
        NewTarget(front, last, f, risk);
        TargetsPush(Filter(f, front), last);
      }
    }
  }

  /** Because duplicates go first, the counts are numbers of different controls: those the risk has
      an edge to, and the effective ones among them. */
  lemma CountsAreControls(edges: seq<ExportEdge>, nodes: seq<ExportNode>, risk: nat)
    requires UniqueKeys(edges)
    ensures |Mitigating(edges, risk)| == |ControlsOf(edges, risk)|
    ensures |Effective(edges, nodes, risk)| == |EffectiveControlsOf(edges, nodes, risk)|
  {
    var f := (e: ExportEdge) => e.edgeType == RISK_MITIGATED_BY && e.source == risk;
    FilterMembers(f, edges);
    DistinctTargets(edges, f, risk);
    assert Targets(Mitigating(edges, risk)) == ControlsOf(edges, risk);
    EffectiveAreControls(edges, nodes, risk);
  }

  lemma EffectiveAreControls(edges: seq<ExportEdge>, nodes: seq<ExportNode>, risk: nat)
    requires UniqueKeys(edges)
    ensures |Effective(edges, nodes, risk)| == |EffectiveControlsOf(edges, nodes, risk)|
  {
    var g := (e: ExportEdge) => e.edgeType == RISK_MITIGATED_BY && e.source == risk && IsEffective(nodes, e.target);
    FilterMembers(g, edges);
    DistinctTargets(edges, g, risk);
    assert Effective(edges, nodes, risk) == Filter(g, edges);
    var controls := EffectiveControlsOf(edges, nodes, risk);
    forall c ensures c in Targets(Filter(g, edges)) <==> c in controls {
      if c in controls {
        var e :| e in edges && e.edgeType == RISK_MITIGATED_BY && e.source == risk && e.target == c;
        assert e in Filter(g, edges);
      }
    }
    assert Targets(Filter(g, edges)) == controls;
  }

  // ----- anomaly flags -----

  predicate IsTruthy(p: map<string, Json>, key: string) {
    key in p &&
    match p[key]
    case JBool(b) => b
    case JNumber(n) => n != 0.0
    case JString(s) => s == "true" || s == "1"
    case JOther => false
  }

  function Normalized(n: ExportNode): ExportNode {
    var snake, camel := IsTruthy(n.properties, "is_anomaly"), IsTruthy(n.properties, "isAnomalous");
    if snake && !camel then n.(properties := n.properties["isAnomalous" := JBool(true)])
    else if camel && !snake then n.(properties := n.properties["is_anomaly" := JBool(true)])
    else
      n
  }

  /** Afterwards both flags agree: set if either was. A second pass changes nothing. */
  lemma FlagsAgree(n: ExportNode)
    ensures var either := IsTruthy(n.properties, "is_anomaly") || IsTruthy(n.properties, "isAnomalous");
            && IsTruthy(Normalized(n).properties, "is_anomaly") == either
            && IsTruthy(Normalized(n).properties, "isAnomalous") == either
    ensures Normalized(Normalized(n)) == Normalized(n)
    ensures forall k :: k !in {"is_anomaly", "isAnomalous"} ==>
                          (k in Normalized(n).properties <==> k in n.properties)
                          && (k in n.properties ==> Normalized(n).properties[k] == n.properties[k])
  {}

  // ----- red flags -----

  predicate IsRedFlag(n: ExportNode) {
    n.nodeType == 510 || n.typeName == "red_flag"
  }

  /** The number of the document that a red flag names, if it names one. */
  function FlaggedBy(n: ExportNode, ids: Ids): Option<nat> {
    if IsRedFlag(n) && "documentId" in n.properties && n.properties["documentId"].JString?
       && n.properties["documentId"].s in ids.forward then
      Some(ids.forward[n.properties["documentId"].s])
    else
      None
  }

  function FlaggedIds(nodes: seq<ExportNode>, ids: Ids): set<nat> {
    set n | n in nodes && FlaggedBy(n, ids).Some? :: FlaggedBy(n, ids).value
  }

  lemma FlaggedPush(nodes: seq<ExportNode>, n: ExportNode, ids: Ids)
    ensures FlaggedIds(nodes + [n], ids) == FlaggedIds(nodes, ids) + if FlaggedBy(n, ids).Some? then {FlaggedBy(n, ids).value} else {}
  {}

  function Annotated(n: ExportNode, flagged: set<nat>): ExportNode {
    if n.id.Some? && n.id.value in flagged then n.(properties := n.properties["hasRedFlag" := JBool(true)]) else n
  }

  // ----- all of them -----

  function PatchedAll(nodes: seq<ExportNode>, edges: seq<ExportEdge>): seq<ExportNode> {
    seq(|nodes|, i requires 0 <= i < |nodes| => Patched(nodes[i], nodes, edges))
  }

  function NormalizedAll(nodes: seq<ExportNode>): seq<ExportNode> {
    seq(|nodes|, i requires 0 <= i < |nodes| => Normalized(nodes[i]))
  }

  function AnnotatedAll(nodes: seq<ExportNode>, ids: Ids): seq<ExportNode> {
    seq(|nodes|, i requires 0 <= i < |nodes| => Annotated(nodes[i], FlaggedIds(nodes, ids)))
  }

  function FinalNodes(nodes: seq<ExportNode>, edges: seq<ExportEdge>, ids: Ids): seq<ExportNode> {
    AnnotatedAll(NormalizedAll(PatchedAll(nodes, Dedup(edges))), ids)
  }

  /** Node for node, nothing but properties may differ. */
  ghost predicate SameShape(a: seq<ExportNode>, b: seq<ExportNode>) {
    |a| == |b| && forall i :: 0 <= i < |a| ==> b[i] == a[i].(properties := b[i].properties)
  }

  lemma FinalNodesKeepShape(nodes: seq<ExportNode>, edges: seq<ExportEdge>, ids: Ids)
    ensures SameShape(nodes, FinalNodes(nodes, edges, ids))
  {}

  lemma DedupKeepsControls(edges: seq<ExportEdge>, risk: nat)
    ensures ControlsOf(Dedup(edges), risk) == ControlsOf(edges, risk)
  {
    DedupKeepsFirsts(edges);
    forall c | c in ControlsOf(edges, risk) ensures c in ControlsOf(Dedup(edges), risk) {
      var e :| e in edges && e.edgeType == RISK_MITIGATED_BY && e.source == risk && e.target == c;
      assert Key(e) in KeysOf(Dedup(edges));
      var d :| d in Dedup(edges) && Key(d) == Key(e);
    }
  }

  lemma LaterPassesKeepCounts(n: ExportNode, flagged: set<nat>, key: string)
    requires key == "mitigatingControlCount" || key == "effectiveControlCount"
    requires key in n.properties
    ensures var m := Annotated(Normalized(n), flagged);
            key in m.properties && m.properties[key] == n.properties[key]
  {}

  /** What a risk node ends up with, after all the post-processors: the number of different controls
      that the edges, repeated or not, link it to, and of those that say they are effective. */
  lemma RiskNodeCounts(nodes: seq<ExportNode>, edges: seq<ExportEdge>, ids: Ids, i: nat)
    requires i < |nodes| && nodes[i].typeName == "risk_assessment" && nodes[i].id.Some?
    ensures var p, risk := FinalNodes(nodes, edges, ids)[i].properties, nodes[i].id.value;
            && "mitigatingControlCount" in p && "effectiveControlCount" in p
            && p["mitigatingControlCount"] == JNumber(|ControlsOf(edges, risk)| as real)
            && p["effectiveControlCount"] == JNumber(|EffectiveControlsOf(edges, nodes, risk)| as real)
  {
    var risk, kept := nodes[i].id.value, Dedup(edges);
    var n := Patched(nodes[i], nodes, kept);
    var flagged := FlaggedIds(NormalizedAll(PatchedAll(nodes, kept)), ids);
    assert FinalNodes(nodes, edges, ids)[i] == Annotated(Normalized(n), flagged);
    assert |"mitigatingControlCount"| != |"effectiveControlCount"|;
    LaterPassesKeepCounts(n, flagged, "mitigatingControlCount");
    LaterPassesKeepCounts(n, flagged, "effectiveControlCount");
    DedupKeepsFirsts(edges);
    CountsAreControls(kept, nodes, risk);
    DedupKeepsControls(edges, risk);
    assert EffectiveControlsOf(kept, nodes, risk) == EffectiveControlsOf(edges, nodes, risk);
  }

  class GraphExportResult {
    var nodes: seq<ExportNode>
    var edges: seq<ExportEdge>
    var metadata: ExportMetadata
    var warnings: seq<ExportWarning>
    var ocel: Option<Ocel.OcelDocument>

    constructor (nodes: seq<ExportNode>, edges: seq<ExportEdge>, metadata: ExportMetadata, warnings: seq<ExportWarning>)
      ensures this.nodes == nodes && this.edges == edges && this.metadata == metadata
      ensures this.warnings == warnings && ocel == None
    {
      this.nodes, this.edges, this.metadata, this.warnings, ocel := nodes, edges, metadata, warnings, None;
    }

    method RemoveDuplicateEdges()
      modifies this`edges, this`metadata
      ensures edges == Dedup(old(edges))
      ensures metadata == if |edges| < |old(edges)| then old(metadata).(totalEdges := |edges|) else old(metadata)
    {
      var originalCount := |edges|;
      var seen: set<(nat, nat, nat)> := {};
      var kept: seq<ExportEdge> := [];
      for i := 0 to |edges|
        invariant edges == old(edges) && metadata == old(metadata)
        invariant seen == KeysOf(edges[..i]) && kept == Dedup(edges[..i])
      {
        var e := edges[i];
        assert edges[..i + 1] == edges[..i] + [e];
        assert edges[..i + 1][..i] == edges[..i];
        KeysPush(edges[..i], e);
        if Key(e) !in seen {
          kept := kept + [e];
        }
        seen := seen + {Key(e)};
      }
      assert edges[..|edges|] == edges;
      DedupKeepsFirsts(edges);
      edges := kept;
      var removed := originalCount - |edges|;
      if removed > 0 {
        metadata := metadata.(totalEdges := |edges|);
      }
    }

    method PatchControlCounts()
      modifies this`nodes
      ensures nodes == PatchedAll(old(nodes), edges)
    {
      var effectiveness := ControlEffectiveness();
      var mitigating, effective := CountEdges(effectiveness);
      var patched: seq<ExportNode> := [];
      for i := 0 to |nodes|
        invariant nodes == old(nodes)
        invariant |patched| == i && forall j :: 0 <= j < i ==> patched[j] == Patched(nodes[j], nodes, edges)
      {
        var node := nodes[i];
        if node.typeName == "risk_assessment" {
          if node.id.Some? {
            var mc := if node.id.value in mitigating then mitigating[node.id.value] else 0;
            var ec := if node.id.value in effective then effective[node.id.value] else 0;
            node := node.(properties := node.properties["mitigatingControlCount" := JNumber(mc as real)]
                                                       ["effectiveControlCount" := JNumber(ec as real)]);
          }
        }
        patched := patched + [node];
      }
      nodes := patched;
    }

    method ControlEffectiveness() returns (effectiveness: map<nat, bool>)
      ensures forall id: nat :: IsEffective(nodes, id) <==> id in effectiveness && effectiveness[id]
    {
      effectiveness := map[];
      for i := 0 to |nodes|
        invariant forall id: nat :: IsEffective(nodes[..i], id) <==> id in effectiveness && effectiveness[id]
      {
        assert nodes[..i + 1][..i] == nodes[..i];
        var n := nodes[i];
        if n.typeName == "internal_control" && n.id.Some? {
          effectiveness := effectiveness[n.id.value := SaysEffective(n)];
        }
      }
      assert nodes[..|nodes|] == nodes;
    }

    method CountEdges(effectiveness: map<nat, bool>) returns (mitigating: map<nat, nat>, effective: map<nat, nat>)
      requires forall id: nat :: IsEffective(nodes, id) <==> id in effectiveness && effectiveness[id]
      ensures forall r: nat :: |Mitigating(edges, r)| == if r in mitigating then mitigating[r] else 0
      ensures forall r: nat :: |Effective(edges, nodes, r)| == if r in effective then effective[r] else 0
    {
      mitigating, effective := map[], map[];
      for i := 0 to |edges|
        invariant forall r: nat :: |Mitigating(edges[..i], r)| == if r in mitigating then mitigating[r] else 0
        invariant forall r: nat :: |Effective(edges[..i], nodes, r)| == if r in effective then effective[r] else 0
      {
        assert edges[..i + 1][..i] == edges[..i];
        var e := edges[i];
        if e.edgeType == RISK_MITIGATED_BY {
          mitigating := mitigating[e.source := (if e.source in mitigating then mitigating[e.source] else 0) + 1];
          if e.target in effectiveness && effectiveness[e.target] {
            effective := effective[e.source := (if e.source in effective then effective[e.source] else 0) + 1];
          }
        }
      }
      assert edges[..|edges|] == edges;
    }

    method NormalizeAnomalyFlags()
      modifies this`nodes
      ensures nodes == NormalizedAll(old(nodes))
    {
      var normalized: seq<ExportNode> := [];
      for i := 0 to |nodes|
        invariant nodes == old(nodes)
        invariant |normalized| == i && forall j :: 0 <= j < i ==> normalized[j] == Normalized(nodes[j])
      {
        var node := nodes[i];
        var hasSnake := IsTruthy(node.properties, "is_anomaly");
        var hasCamel := IsTruthy(node.properties, "isAnomalous");
        if hasSnake || hasCamel {
          if !hasSnake {
            node := node.(properties := node.properties["is_anomaly" := JBool(true)]);
          }
          if !hasCamel {
            node := node.(properties := node.properties["isAnomalous" := JBool(true)]);
          }
        }
        normalized := normalized + [node];
      }
      nodes := normalized;
    }

    method AnnotateRedFlags(ids: IdTable)
      modifies this`nodes
      ensures nodes == AnnotatedAll(old(nodes), ids.View())
    {
      var flagged: set<nat> := {};
      for i := 0 to |nodes|
        invariant nodes == old(nodes) && flagged == FlaggedIds(nodes[..i], ids.View())
      {
        var node := nodes[i];
        assert nodes[..i + 1] == nodes[..i] + [node];
        FlaggedPush(nodes[..i], node, ids.View());
        if IsRedFlag(node) {
          if "documentId" in node.properties && node.properties["documentId"].JString? {
            var number := ids.Get(node.properties["documentId"].s);
            if number.Some? {
              flagged := flagged + {number.value};
            }
          }
        }
      }
      assert nodes[..|nodes|] == nodes;
      var annotated: seq<ExportNode> := [];
      for i := 0 to |nodes|
        invariant nodes == old(nodes)
        invariant |annotated| == i && forall j :: 0 <= j < i ==> annotated[j] == Annotated(nodes[j], flagged)
      {
        annotated := annotated + [Annotated(nodes[i], flagged)];
      }
      nodes := annotated;
    }

    method AttachOcel(enabled: bool, source: Ocel.OcelSource, maxEvents: nat)
      modifies this`ocel
      ensures ocel == if enabled then Ocel.ExportOf(source, maxEvents) else old(ocel)
    {
      if enabled {
        ocel := Ocel.ExportOcel(source, maxEvents);
      }
    }

    method RunPostProcessors(ids: IdTable)
      modifies this`nodes, this`edges, this`metadata
      ensures nodes == FinalNodes(old(nodes), old(edges), ids.View())
      ensures edges == Dedup(old(edges))
      ensures metadata == if |edges| < |old(edges)| then old(metadata).(totalEdges := |edges|) else old(metadata)
    {
      RemoveDuplicateEdges();
      PatchControlCounts();
      NormalizeAnomalyFlags();
      AnnotateRedFlags(ids);
    }
  }
}
