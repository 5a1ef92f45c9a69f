/** What the post-processors leave, by position and property: which edges stay, and for each node
    what is written where. */
module PostProcessRules {
  import opened Wrappers
  import opened Seqs
  import opened GraphTypes
  import opened IdMap
  import opened PostProcess

  // ----- edges -----

  /** The positions of edges whose source, target and type have not occurred before. */
  ghost function FirstPositions(edges: seq<ExportEdge>): set<int> {
    set i | 0 <= i < |edges| && NewAt(edges, i)
  }

  ghost predicate NewAt(edges: seq<ExportEdge>, i: int)
    requires 0 <= i < |edges|
  {
    forall j :: 0 <= j < i ==>
                  !(edges[j].source == edges[i].source && edges[j].target == edges[i].target && edges[j].edgeType == edges[i].edgeType)
  }

  lemma SeenIff(edges: seq<ExportEdge>, i: nat)
    requires i < |edges|
    ensures Key(edges[i]) in KeysOf(edges[..i]) <==> !NewAt(edges, i)
  {
    if Key(edges[i]) in KeysOf(edges[..i]) {
      var e :| e in edges[..i] && Key(e) == Key(edges[i]);
      var j :| 0 <= j < i && edges[j] == e;
    }
    if !NewAt(edges, i) {
      var j :| 0 <= j < i && edges[j].source == edges[i].source && edges[j].target == edges[i].target
               && edges[j].edgeType == edges[i].edgeType;
      assert edges[j] in edges[..i];
    }
  }

  lemma {:induction false} DedupPicks(edges: seq<ExportEdge>, chosen: set<int>)
    requires forall i :: 0 <= i < |edges| ==> (i in chosen <==> NewAt(edges, i))
    ensures Picked(edges, chosen, Dedup(edges))
  {
    if edges == [] {
    } else {
      var front, last := edges[..|edges| - 1], edges[|edges| - 1];
      forall i | 0 <= i < |front| ensures i in chosen <==> NewAt(front, i) {
        assert NewAt(front, i) <==> NewAt(edges, i);
      }
      DedupPicks(front, chosen);
      SeenIff(edges, |front|);
      JoinsPush(Dedup(front), Chosen(front, chosen), if |front| in chosen then [last] else []);
      ChosenStep(edges, chosen);
      assert Dedup(front) + [] == Dedup(front);
    }
  }

  /** Exactly the edges stay, in order, that are the first of their source, target and type. */
  lemma DedupFollowsRule(edges: seq<ExportEdge>)
    ensures Picked(edges, FirstPositions(edges), Dedup(edges))
  {
    DedupPicks(edges, FirstPositions(edges));
  }

  // ----- nodes -----

  /** The word, in letters of either case. */
  ghost predicate SpellsEffective(s: string) {
    |s| == 9 && forall i :: 0 <= i < 9 ==> s[i] == "effective"[i] || s[i] == "EFFECTIVE"[i]
  }

  /** Position `j` holds the last control with this number. */
  ghost predicate LastControl(nodes: seq<ExportNode>, id: nat, j: int) {
    && 0 <= j < |nodes| && nodes[j].typeName == "internal_control" && nodes[j].id == Some(id)
    && forall k :: j < k < |nodes| ==> !(nodes[k].typeName == "internal_control" && nodes[k].id == Some(id))
  }

  ghost predicate CallsItself(n: ExportNode) {
    "effectiveness" in n.properties && n.properties["effectiveness"].JString? && SpellsEffective(n.properties["effectiveness"].s)
  }

  ghost predicate WorksAs(nodes: seq<ExportNode>, id: nat) {
    exists j :: LastControl(nodes, id, j) && CallsItself(nodes[j])
  }

  ghost function ControlsFor(edges: seq<ExportEdge>, risk: nat): set<nat> {
    set e | e in edges && e.edgeType == 75 && e.source == risk :: e.target
  }

  ghost function WorkingControlsFor(edges: seq<ExportEdge>, nodes: seq<ExportNode>, risk: nat): set<nat> {
    set c | c in ControlsFor(edges, risk) && WorksAs(nodes, c)
  }

  ghost predicate SaysYes(v: Json) {
    v == JBool(true) || (v.JNumber? && v.n != 0.0) || v == JString("true") || v == JString("1")
  }

  ghost predicate Says(n: ExportNode, key: string) {
    key in n.properties && SaysYes(n.properties[key])
  }

  /** A red flag of the export names the document with this number. */
  ghost predicate NamedByFlag(nodes: seq<ExportNode>, ids: Ids, number: nat) {
    exists j :: 0 <= j < |nodes| && IsFlagFor(nodes[j], ids, number)
  }

  ghost predicate IsFlagFor(n: ExportNode, ids: Ids, number: nat) {
    && (n.nodeType == 510 || n.typeName == "red_flag")
    && "documentId" in n.properties && n.properties["documentId"].JString?
    && n.properties["documentId"].s in ids.forward && ids.forward[n.properties["documentId"].s] == number
  }

  /** Under `key` the node `m` holds `value`, or if there is none what `n` does. */
  ghost predicate After(n: ExportNode, m: ExportNode, key: string, value: Option<Json>) {
    match value
    case Some(v) => key in m.properties && m.properties[key] == v
    case None => (key in m.properties <==> key in n.properties) && (key in n.properties ==> m.properties[key] == n.properties[key])
  }

  /** The five properties that may be written, and to what; anything else of a node stays. */
  ghost predicate NodeRule(nodes: seq<ExportNode>, edges: seq<ExportEdge>, ids: Ids, n: ExportNode, m: ExportNode) {
    var counted := n.typeName == "risk_assessment" && n.id.Some?;
    && m == n.(properties := m.properties)
    && After(n, m, "mitigatingControlCount", if counted then Some(JNumber(|ControlsFor(edges, n.id.value)| as real)) else None)
    && After(n, m, "effectiveControlCount", if counted then Some(JNumber(|WorkingControlsFor(edges, nodes, n.id.value)| as real)) else None)
    && After(n, m, "isAnomalous", if Says(n, "is_anomaly") && !Says(n, "isAnomalous") then Some(JBool(true)) else None)
    && After(n, m, "is_anomaly", if Says(n, "isAnomalous") && !Says(n, "is_anomaly") then Some(JBool(true)) else None)
    && After(n, m, "hasRedFlag", if n.id.Some? && NamedByFlag(nodes, ids, n.id.value) then Some(JBool(true)) else None)
    && forall key :: key !in {"mitigatingControlCount", "effectiveControlCount", "isAnomalous", "is_anomaly", "hasRedFlag"} ==>
                       After(n, m, key, None)
  }

  ghost predicate NodesRule(nodes: seq<ExportNode>, edges: seq<ExportEdge>, ids: Ids, final: seq<ExportNode>) {
    |final| == |nodes| && forall i :: 0 <= i < |nodes| ==> NodeRule(nodes, edges, ids, nodes[i], final[i])
  }

  lemma SpellsIff(s: string)
    ensures EqIgnoreCase(s, "effective") <==> SpellsEffective(s)
  {
    if |s| == 9 {
      assert forall i :: 0 <= i < 9 ==> (Lower(s[i]) == Lower("effective"[i]) <==> s[i] == "effective"[i] || s[i] == "EFFECTIVE"[i]);
    }
  }

  lemma {:induction false} WorksIff(nodes: seq<ExportNode>, id: nat)
    ensures IsEffective(nodes, id) <==> WorksAs(nodes, id)
  {
    if nodes == [] {
    } else {
      var front, last := nodes[..|nodes| - 1], nodes[|nodes| - 1];
      if last.typeName == "internal_control" && last.id == Some(id) {
        assert LastControl(nodes, id, |nodes| - 1);
        if "effectiveness" in last.properties && last.properties["effectiveness"].JString? {
          SpellsIff(last.properties["effectiveness"].s);
        }
      } else {
        WorksIff(front, id);
        assert forall j :: LastControl(front, id, j) <==> LastControl(nodes, id, j) by {
          assert forall j :: 0 <= j < |front| ==> front[j] == nodes[j];
        }
      }
    }
  }

  /** `m` is `n` with at most `a` and `b` written. */
  ghost predicate Writes(n: ExportNode, m: ExportNode, a: string, va: Option<Json>, b: string, vb: Option<Json>) {
    && m == n.(properties := m.properties)
    && After(n, m, a, va) && After(n, m, b, vb)
    && forall key :: key != a && key != b ==> After(n, m, key, None)
  }

  lemma TwoWritten(n: ExportNode, a: string, va: Json, b: string, vb: Json)
    requires a != b
    ensures Writes(n, n.(properties := n.properties[a := va][b := vb]), a, Some(va), b, Some(vb))
  {}

  lemma OneWritten(n: ExportNode, a: string, va: Json, b: string)
    requires a != b
    ensures Writes(n, n.(properties := n.properties[a := va]), a, Some(va), b, None)
  {}

  lemma NothingWritten(n: ExportNode, a: string, b: string)
    ensures Writes(n, n, a, None, b, None)
  {}

  lemma DifferentKeys()
    ensures "mitigatingControlCount" != "effectiveControlCount" && "isAnomalous" != "is_anomaly"
    ensures "hasRedFlag" !in {"mitigatingControlCount", "effectiveControlCount", "isAnomalous", "is_anomaly"}
    ensures "isAnomalous" !in {"mitigatingControlCount", "effectiveControlCount"}
    ensures "is_anomaly" !in {"mitigatingControlCount", "effectiveControlCount"}
    ensures "documentId" !in {"mitigatingControlCount", "effectiveControlCount", "isAnomalous", "is_anomaly"}
  {
    assert |"mitigatingControlCount"| == 22 && |"effectiveControlCount"| == 21 && |"isAnomalous"| == 11;
    assert |"is_anomaly"| == |"hasRedFlag"| == |"documentId"| == 10;
    assert "is_anomaly"[0] == 'i' && "hasRedFlag"[0] == 'h' && "documentId"[0] == 'd';
  }

  lemma PatchedWrites(n: ExportNode, nodes: seq<ExportNode>, edges: seq<ExportEdge>)
    ensures var counted := n.typeName == "risk_assessment" && n.id.Some?;
            Writes(n, Patched(n, nodes, edges),
                   "mitigatingControlCount", if counted then Some(JNumber(|Mitigating(edges, n.id.value)| as real)) else None,
                   "effectiveControlCount", if counted then Some(JNumber(|Effective(edges, nodes, n.id.value)| as real)) else None)
  {
    DifferentKeys();
    if n.typeName == "risk_assessment" && n.id.Some? {
      TwoWritten(n, "mitigatingControlCount", JNumber(|Mitigating(edges, n.id.value)| as real),
                 "effectiveControlCount", JNumber(|Effective(edges, nodes, n.id.value)| as real));
    } else {
      NothingWritten(n, "mitigatingControlCount", "effectiveControlCount");
    }
  }

  lemma SaysIff(n: ExportNode, key: string)
    ensures IsTruthy(n.properties, key) <==> Says(n, key)
  {}

  lemma NormalizedWrites(n: ExportNode)
    ensures Writes(n, Normalized(n),
                   "isAnomalous", if Says(n, "is_anomaly") && !Says(n, "isAnomalous") then Some(JBool(true)) else None,
                   "is_anomaly", if Says(n, "isAnomalous") && !Says(n, "is_anomaly") then Some(JBool(true)) else None)
  {
    DifferentKeys();
    SaysIff(n, "is_anomaly");
    SaysIff(n, "isAnomalous");
    OneWritten(n, "isAnomalous", JBool(true), "is_anomaly");
    OneWritten(n, "is_anomaly", JBool(true), "isAnomalous");
    NothingWritten(n, "isAnomalous", "is_anomaly");
  }

  lemma AnnotatedWrites(n: ExportNode, flagged: set<nat>)
    ensures Writes(n, Annotated(n, flagged), "hasRedFlag", if n.id.Some? && n.id.value in flagged then Some(JBool(true)) else None,
                   "hasRedFlag", if n.id.Some? && n.id.value in flagged then Some(JBool(true)) else None)
  {}

  /** Three passes writing different properties write what each of them does. */
  lemma PassesCompose(
    n: ExportNode, x: ExportNode, y: ExportNode, m: ExportNode,
    a: string, va: Option<Json>, b: string, vb: Option<Json>,
    c: string, vc: Option<Json>, d: string, vd: Option<Json>, e: string, ve: Option<Json>)
    requires Writes(n, x, a, va, b, vb) && Writes(x, y, c, vc, d, vd) && Writes(y, m, e, ve, e, ve)
    requires c !in {a, b} && d !in {a, b} && e !in {a, b, c, d}
    ensures m == n.(properties := m.properties)
    ensures After(n, m, a, va) && After(n, m, b, vb) && After(n, m, c, vc) && After(n, m, d, vd) && After(n, m, e, ve)
    ensures forall key :: key !in {a, b, c, d, e} ==> After(n, m, key, None)
  {
    assert After(x, y, a, None) && After(y, m, a, None) && After(x, y, b, None) && After(y, m, b, None);
    assert After(n, x, c, None) && After(y, m, c, None) && After(n, x, d, None) && After(y, m, d, None);
    assert After(n, x, e, None) && After(x, y, e, None);
    forall key | key !in {a, b, c, d, e} ensures After(n, m, key, None) {
      assert After(n, x, key, None) && After(x, y, key, None) && After(y, m, key, None);
    }
  }

  lemma FlagsUnmoved(n: ExportNode, nodes: seq<ExportNode>, edges: seq<ExportEdge>, ids: Ids, number: nat)
    ensures FlaggedBy(Normalized(Patched(n, nodes, edges)), ids) == Some(number) <==> IsFlagFor(n, ids, number)
  {
    DifferentKeys();
    PatchedWrites(n, nodes, edges);
    NormalizedWrites(Patched(n, nodes, edges));
    assert After(n, Patched(n, nodes, edges), "documentId", None);
    assert After(Patched(n, nodes, edges), Normalized(Patched(n, nodes, edges)), "documentId", None);
    hide Patched, Normalized;
  }

  lemma FlaggedIff(nodes: seq<ExportNode>, edges: seq<ExportEdge>, ids: Ids, number: nat)
    ensures number in FlaggedIds(NormalizedAll(PatchedAll(nodes, edges)), ids) <==> NamedByFlag(nodes, ids, number)
  {
    var before := NormalizedAll(PatchedAll(nodes, edges));
    forall j | 0 <= j < |nodes| ensures FlaggedBy(before[j], ids) == Some(number) <==> IsFlagFor(nodes[j], ids, number) {
      FlagsUnmoved(nodes[j], nodes, edges, ids, number);
    }
    if number in FlaggedIds(before, ids) {
      var x :| x in before && FlaggedBy(x, ids) == Some(number);
      var j :| 0 <= j < |before| && before[j] == x;
      assert IsFlagFor(nodes[j], ids, number);
    }
    if NamedByFlag(nodes, ids, number) {
      var j :| 0 <= j < |nodes| && IsFlagFor(nodes[j], ids, number);
      assert before[j] in before && FlaggedBy(before[j], ids) == Some(number);
    }
  }

  lemma ControlsAre(nodes: seq<ExportNode>, edges: seq<ExportEdge>, risk: nat)
    ensures |Mitigating(Dedup(edges), risk)| == |ControlsFor(edges, risk)|
    ensures |Effective(Dedup(edges), nodes, risk)| == |WorkingControlsFor(edges, nodes, risk)|
  {
    var kept := Dedup(edges);
    DedupKeepsFirsts(edges);
    CountsAreControls(kept, nodes, risk);
    DedupKeepsControls(edges, risk);
    assert ControlsFor(edges, risk) == ControlsOf(edges, risk);
    forall c: nat ensures IsEffective(nodes, c) <==> WorksAs(nodes, c) {
      WorksIff(nodes, c);
    }
    assert EffectiveControlsOf(kept, nodes, risk) == WorkingControlsFor(edges, nodes, risk);
  }

  lemma NodeFollowsRule(nodes: seq<ExportNode>, edges: seq<ExportEdge>, ids: Ids, i: nat)
    requires i < |nodes|
    ensures i < |FinalNodes(nodes, edges, ids)| && NodeRule(nodes, edges, ids, nodes[i], FinalNodes(nodes, edges, ids)[i])
  {
    var n, kept := nodes[i], Dedup(edges);
    var x := Patched(n, nodes, kept);
    var y := Normalized(x);
    var flagged := FlaggedIds(NormalizedAll(PatchedAll(nodes, kept)), ids);
    var m := Annotated(y, flagged);
    assert FinalNodes(nodes, edges, ids)[i] == m;
    DifferentKeys();
    PatchedWrites(n, nodes, kept);
    NormalizedWrites(x);
    AnnotatedWrites(y, flagged);
    assert Says(x, "is_anomaly") <==> Says(n, "is_anomaly") by {
      assert After(n, x, "is_anomaly", None);
    }
    assert Says(x, "isAnomalous") <==> Says(n, "isAnomalous") by {
      assert After(n, x, "isAnomalous", None);
    }
    var counted := n.typeName == "risk_assessment" && n.id.Some?;
    if counted {
      ControlsAre(nodes, edges, n.id.value);
    }
    if n.id.Some? {
      FlaggedIff(nodes, kept, ids, n.id.value);
    }
    PassesCompose(
      n, x, y, m,
      "mitigatingControlCount", if counted then Some(JNumber(|Mitigating(kept, n.id.value)| as real)) else None,
      "effectiveControlCount", if counted then Some(JNumber(|Effective(kept, nodes, n.id.value)| as real)) else None,
      "isAnomalous", if Says(x, "is_anomaly") && !Says(x, "isAnomalous") then Some(JBool(true)) else None,
      "is_anomaly", if Says(x, "isAnomalous") && !Says(x, "is_anomaly") then Some(JBool(true)) else None,
      "hasRedFlag", if y.id.Some? && y.id.value in flagged then Some(JBool(true)) else None);
  }

  /** Every node of the export, whatever its kind and whatever the edges. */
  lemma NodesFollowRule(nodes: seq<ExportNode>, edges: seq<ExportEdge>, ids: Ids)
    ensures NodesRule(nodes, edges, ids, FinalNodes(nodes, edges, ids))
  {
    hide NodeRule;
    forall i | 0 <= i < |nodes| ensures NodeRule(nodes, edges, ids, nodes[i], FinalNodes(nodes, edges, ids)[i]) {
      NodeFollowsRule(nodes, edges, ids, i);
    }
  }
}
