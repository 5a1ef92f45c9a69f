/** What validation reports, reference by reference: unknown actors first, then evidence templates,
    standards and gates, each group in blueprint order and with everything the report names. */
module ValidationRules {
  import opened Wrappers
  import opened Seqs
  import opened Blueprint
  import opened PreconditionGraph
  import opened Loader
  import opened TopologicalOrder
  import opened Gates
  import opened Validation
  import KahnSort

  datatype Kind = Actors | Templates | Standards

  ghost function EvidenceParts(bp: AuditBlueprint, p: Procedure, s: Step): seq<seq<Violation>> {
    seq(|s.evidence|, m requires 0 <= m < |s.evidence| =>
      if s.evidence[m].templateRef.Some? && s.evidence[m].templateRef.value !in bp.evidenceTemplates
      then [UnknownEvidence(p.id, s.id, s.evidence[m].templateRef.value)] else [])
  }

  ghost function StandardParts(bp: AuditBlueprint, p: Procedure, s: Step): seq<seq<Violation>> {
    seq(|s.standards|, m requires 0 <= m < |s.standards| =>
      if s.standards[m] !in bp.standards then [UnknownStandard(p.id, s.id, s.standards[m])] else [])
  }

  /** What one step contributes. */
  ghost predicate StepPart(kind: Kind, bp: AuditBlueprint, p: Procedure, s: Step, r: seq<Violation>) {
    match kind
    case Actors =>
      r == if s.actor.Some? && s.actor.value !in bp.actors then [UnknownActor(p.id, s.id, s.actor.value)] else []
    case Templates => Joins(r, EvidenceParts(bp, p, s))
    case Standards => Joins(r, StandardParts(bp, p, s))
  }

  ghost predicate StepParts(kind: Kind, bp: AuditBlueprint, p: Procedure, parts: seq<seq<Violation>>) {
    |parts| == |p.steps| && forall k :: 0 <= k < |p.steps| ==> StepPart(kind, bp, p, p.steps[k], parts[k])
  }

  ghost predicate ProcedurePart(kind: Kind, bp: AuditBlueprint, p: Procedure, r: seq<Violation>) {
    exists parts :: StepParts(kind, bp, p, parts) && Joins(r, parts)
  }

  ghost predicate ProcedureParts(kind: Kind, bp: AuditBlueprint, procs: seq<Procedure>, parts: seq<seq<Violation>>) {
    |parts| == |procs| && forall i :: 0 <= i < |procs| ==> ProcedurePart(kind, bp, procs[i], parts[i])
  }

  /** Procedure by procedure and step by step. */
  ghost predicate KindRule(kind: Kind, bp: AuditBlueprint, procs: seq<Procedure>, r: seq<Violation>) {
    exists parts :: ProcedureParts(kind, bp, procs, parts) && Joins(r, parts)
  }

  ghost function Conditions(gate: Option<PhaseGate>): seq<seq<string>> {
    if gate.Some? then [gate.value.allOf, gate.value.anyOf] else []
  }

  /** A condition that begins with `procedure.` must name a procedure; any other text is let through. */
  ghost predicate ConditionPart(ids: seq<string>, phase: string, c: string, r: seq<Violation>) {
    if !("procedure." <= c) then r == []
    else
      exists id :: Names(c, id) && r == if id in ids then [] else [UnknownGateProcedure(phase, id)]
  }

  /** The text after `procedure.` up to the next dot or the end. */
  ghost predicate Names(c: string, id: string) {
    '.' !in id && (c == "procedure." + id || exists rest :: Reads(c, id, rest))
  }

  ghost predicate PhasePart(ids: seq<string>, phase: Phase, r: seq<Violation>) {
    exists conditions, parts: seq<seq<Violation>> ::
      && Joins(conditions, Conditions(phase.entryGate) + Conditions(phase.exitGate))
      && |parts| == |conditions| && Joins(r, parts)
      && forall k :: 0 <= k < |conditions| ==> ConditionPart(ids, phase.id, conditions[k], parts[k])
  }

  ghost predicate PhaseParts(ids: seq<string>, phases: seq<Phase>, parts: seq<seq<Violation>>) {
    |parts| == |phases| && forall i :: 0 <= i < |phases| ==> PhasePart(ids, phases[i], parts[i])
  }

  ghost predicate GateRule(ids: seq<string>, phases: seq<Phase>, r: seq<Violation>) {
    exists parts :: PhaseParts(ids, phases, parts) && Joins(r, parts)
  }

  /** The procedures and their ids, phase after phase. */
  ghost predicate InBlueprintOrder(phases: seq<Phase>, procs: seq<Procedure>, ids: seq<string>) {
    Joins(procs, ProcedureLists(phases)) && |ids| == |procs| && forall i :: 0 <= i < |procs| ==> ids[i] == procs[i].id
  }

  ghost predicate FourGroups(
    bp: AuditBlueprint, r: seq<Violation>, procs: seq<Procedure>, ids: seq<string>,
    actors: seq<Violation>, templates: seq<Violation>, standards: seq<Violation>, gates: seq<Violation>)
  {
    && InBlueprintOrder(bp.phases, procs, ids)
    && KindRule(Actors, bp, procs, actors) && KindRule(Templates, bp, procs, templates)
    && KindRule(Standards, bp, procs, standards) && GateRule(ids, bp.phases, gates)
    && r == actors + templates + standards + gates
  }

  ghost predicate ViolationRule(bp: AuditBlueprint, r: seq<Violation>) {
    exists procs, ids, actors, templates, standards, gates :: FourGroups(bp, r, procs, ids, actors, templates, standards, gates)
  }

  lemma {:induction false} FlatMapJoins<T(!new), U>(f: T -> seq<U>, s: seq<T>) returns (parts: seq<seq<U>>)
    ensures |parts| == |s| && forall i :: 0 <= i < |s| ==> parts[i] == f(s[i])
    ensures Joins(FlatMap(f, s), parts)
  {
    if s == [] {
      parts := [];
    } else {
      parts := FlatMapJoins(f, s[..|s| - 1]);
      JoinsPush(FlatMap(f, s[..|s| - 1]), parts, f(s[|s| - 1]));
      parts := parts + [f(s[|s| - 1])];
    }
  }

  ghost function CheckOf(kind: Kind, bp: AuditBlueprint): StepCheck {
    match kind
    case Actors => ActorCheck(bp)
    case Templates => EvidenceCheck(bp)
    case Standards => StandardCheck(bp)
  }

  lemma TemplatesFollowRule(bp: AuditBlueprint, p: Procedure, s: Step)
    ensures Joins(EvidenceCheck(bp)(p, s), EvidenceParts(bp, p, s))
  {
    var f := (ev: StepEvidence) => Unknown(bp.evidenceTemplates, ev.templateRef, UnknownEvidence(p.id, s.id, ev.templateRef.UnwrapOr("")));
    var parts := FlatMapJoins(f, s.evidence);
    assert parts == EvidenceParts(bp, p, s);
  }

  lemma StandardsFollowRule(bp: AuditBlueprint, p: Procedure, s: Step)
    ensures Joins(StandardCheck(bp)(p, s), StandardParts(bp, p, s))
  {
    var f := (ref: string) => Unknown(bp.standards, Some(ref), UnknownStandard(p.id, s.id, ref));
    var parts := FlatMapJoins(f, s.standards);
    assert parts == StandardParts(bp, p, s);
  }

  lemma StepFollowsRule(kind: Kind, bp: AuditBlueprint, p: Procedure, s: Step)
    ensures StepPart(kind, bp, p, s, CheckOf(kind, bp)(p, s))
  {
    match kind
    case Actors =>
    case Templates => TemplatesFollowRule(bp, p, s);
    case Standards => StandardsFollowRule(bp, p, s);
  }

  lemma ProcedureFollowsRule(kind: Kind, bp: AuditBlueprint, p: Procedure)
    ensures ProcedurePart(kind, bp, p, OfProcedure(CheckOf(kind, bp), p))
  {
    hide StepPart, Joins, CheckOf;
    var check := CheckOf(kind, bp);
    var parts := FlatMapJoins((s: Step) => check(p, s), p.steps);
    forall k | 0 <= k < |p.steps| ensures StepPart(kind, bp, p, p.steps[k], parts[k]) {
      StepFollowsRule(kind, bp, p, p.steps[k]);
    }
    assert StepParts(kind, bp, p, parts);
  }

  lemma KindFollowsRule(kind: Kind, bp: AuditBlueprint, procs: seq<Procedure>)
    ensures KindRule(kind, bp, procs, OfProcedures(CheckOf(kind, bp), procs))
  {
    hide ProcedurePart, Joins, CheckOf, OfProcedure;
    var check := CheckOf(kind, bp);
    var parts := FlatMapJoins((p: Procedure) => OfProcedure(check, p), procs);
    forall i | 0 <= i < |procs| ensures ProcedurePart(kind, bp, procs[i], parts[i]) {
      ProcedureFollowsRule(kind, bp, procs[i]);
    }
    assert ProcedureParts(kind, bp, procs, parts);
  }

  lemma ConditionFollowsRule(ids: seq<string>, phase: string, c: string)
    ensures ConditionPart(ids, phase, c, ConditionCheck(ids, phase, c))
  {
    ExtractMeans(c);
    if ExtractProcedureId(c).Some? {
      assert Names(c, ExtractProcedureId(c).value);
    }
  }

  lemma GateJoins(before: seq<string>, parts: seq<seq<string>>, gate: Option<PhaseGate>)
    requires Joins(before, parts)
    ensures Joins(before + GateConditions(gate), parts + Conditions(gate))
  {
    hide Joins;
    if gate.Some? {
      var first, second := gate.value.allOf, gate.value.anyOf;
      JoinsPush(before, parts, first);
      JoinsPush(before + first, parts + [first], second);
      assert before + first + second == before + GateConditions(gate);
      assert parts + [first] + [second] == parts + Conditions(gate);
    } else {
      assert before + [] == before && parts + [] == parts;
    }
  }

  lemma ConditionsJoin(phase: Phase)
    ensures Joins(ConditionsOf(phase), Conditions(phase.entryGate) + Conditions(phase.exitGate))
  {
    assert Joins<string>([], []);
    hide Joins, GateConditions, Conditions;
    GateJoins([], [], phase.entryGate);
    assert [] + GateConditions(phase.entryGate) == GateConditions(phase.entryGate);
    assert [] + Conditions(phase.entryGate) == Conditions(phase.entryGate);
    GateJoins(GateConditions(phase.entryGate), Conditions(phase.entryGate), phase.exitGate);
  }

  lemma PhaseFollowsRule(ids: seq<string>, phase: Phase)
    ensures PhasePart(ids, phase, OfGates(ids, phase))
  {
    hide ConditionPart, Joins, ConditionCheck, Conditions, ConditionsOf;
    ConditionsJoin(phase);
    var conditions := ConditionsOf(phase);
    var parts := FlatMapJoins((c: string) => ConditionCheck(ids, phase.id, c), conditions);
    forall k | 0 <= k < |conditions| ensures ConditionPart(ids, phase.id, conditions[k], parts[k]) {
      ConditionFollowsRule(ids, phase.id, conditions[k]);
    }
  }

  lemma GatesFollowRule(ids: seq<string>, phases: seq<Phase>)
    ensures GateRule(ids, phases, FlatMap((phase: Phase) => OfGates(ids, phase), phases))
  {
    hide PhasePart, Joins, OfGates;
    var parts := FlatMapJoins((phase: Phase) => OfGates(ids, phase), phases);
    forall i | 0 <= i < |phases| ensures PhasePart(ids, phases[i], parts[i]) {
      PhaseFollowsRule(ids, phases[i]);
    }
    assert PhaseParts(ids, phases, parts);
  }

  /** The report lists exactly the references that do not resolve, each where it stands. */
  lemma ViolationsFollowRule(bp: AuditBlueprint)
    ensures ViolationRule(bp, Structural(bp))
  {
    hide KindRule, GateRule, OfProcedures;
    var procs, ids := ProceduresOf(bp.phases), ProcedureIds(bp);
    ProceduresJoinPhases(bp.phases);
    KindFollowsRule(Actors, bp, procs);
    KindFollowsRule(Templates, bp, procs);
    KindFollowsRule(Standards, bp, procs);
    GatesFollowRule(ids, bp.phases);
    assert FourGroups(bp, Structural(bp), procs, ids, OfProcedures(ActorCheck(bp), procs), OfProcedures(EvidenceCheck(bp), procs),
                      OfProcedures(StandardCheck(bp), procs), FlatMap((phase: Phase) => OfGates(ProcedureIds(bp), phase), bp.phases));
  }

  /** The verdict on given preconditions, by what is wrong with them. */
  lemma VerdictFollowsRule(bp: AuditBlueprint, pre: map<string, seq<string>>, keyOrder: seq<string>)
    requires Enumerates(keyOrder, pre.Keys)
    ensures var ids, r := ProcedureIds(bp), StrictVerdict(bp, pre, keyOrder);
            var sound := AllResolved(ids, pre) && NoDup(ids) && Acyclic(KnownGraph(ids, pre));
            && (!AllResolved(ids, pre) ==>
                  exists i: nat, j: nat :: FirstDanglingAt(ids, pre, keyOrder, i, j)
                                           && r == Rejected([UnknownPrecondition(keyOrder[i], pre[keyOrder[i]][j])]))
            && (AllResolved(ids, pre) && !sound ==>
                  r.Cycle? && exists s :: IsLargestWaitingSet(KnownGraph(ids, pre), s)
                                          && Picked(ids, PositionsIn(ids, s), r.procedures))
            && (sound ==> exists v :: ViolationRule(bp, v) && r == if v == [] then Passed else Rejected(v))
  {
    hide ViolationRule, Structural, OfPreconditions, Picked, IsLargestWaitingSet, KahnSort.KahnOrder;
    var ids := ProcedureIds(bp);
    SortCorrect(ids, pre, keyOrder);
    DanglingReport(ids, pre, keyOrder, KnownGraph(ids, pre));
    DanglingHidesTheRest(ids, pre, keyOrder, Structural(bp));
    ViolationsFollowRule(bp);
    if SortOutcome(ids, pre, keyOrder, KnownGraph(ids, pre)).DagCycle? {
      CycleReportInOrder(ids, pre, keyOrder);
    }
  }
}
