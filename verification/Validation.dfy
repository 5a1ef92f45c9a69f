/** Structural validation of a blueprint: which references are checked, what is reported, and how
    the verdict of the topological sort takes precedence. */
module Validation {
  import opened Wrappers
  import opened Seqs
  import opened Blueprint
  import opened PreconditionGraph
  import KahnSort
  import opened Loader
  import opened TopologicalOrder
  import opened Gates

  datatype Violation =
    | UnknownPrecondition(procedure: string, dependency: string)
    | UnknownActor(procedure: string, step: string, actor: string)
    | UnknownEvidence(procedure: string, step: string, template: string)
    | UnknownStandard(procedure: string, step: string, standard: string)
    | UnknownGateProcedure(phase: string, procedure: string)

  datatype ValidationResult = Passed | Cycle(procedures: seq<string>) | Rejected(violations: seq<Violation>)

  // ----- what is collected -----

  function FlatMap<T, U>(f: T -> seq<U>, s: seq<T>): seq<U> {
    if s == [] then [] else FlatMap(f, s[..|s| - 1]) + f(s[|s| - 1])
  }

  lemma {:induction false} FlatMapMembers<T(!new), U>(f: T -> seq<U>, s: seq<T>, y: U)
    ensures y in FlatMap(f, s) <==> exists x :: x in s && y in f(x)
  {
    if s == [] {
    } else {
      FlatMapMembers(f, s[..|s| - 1], y);
      assert s == s[..|s| - 1] + [s[|s| - 1]];
      assert forall x :: x in s <==> x in s[..|s| - 1] || x == s[|s| - 1];
    }
  }

  lemma {:induction false} FlatMapAppend<T, U>(f: T -> seq<U>, a: seq<T>, b: seq<T>)
    ensures FlatMap(f, a + b) == FlatMap(f, a) + FlatMap(f, b)
  {
    if b == [] {
      assert a + b == a;
    } else {
      FlatMapAppend(f, a, b[..|b| - 1]);
      assert (a + b)[..|a + b| - 1] == a + b[..|b| - 1];
    }
  }

  lemma {:induction false} FlatMapSame<T, U>(f: T -> seq<U>, g: T -> seq<U>, a: seq<T>, b: seq<T>)
    requires |a| == |b| && forall i :: 0 <= i < |a| ==> f(a[i]) == g(b[i])
    ensures FlatMap(f, a) == FlatMap(g, b)
  {
    if a == [] {
    } else {
      FlatMapSame(f, g, a[..|a| - 1], b[..|b| - 1]);
    }
  }

  type StepCheck = (Procedure, Step) -> seq<Violation>

  function Unknown(known: seq<string>, ref: Option<string>, v: Violation): seq<Violation> {
    if ref.Some? && ref.value !in known then [v] else []
  }

  function ActorCheck(bp: AuditBlueprint): StepCheck {
    (p: Procedure, s: Step) => Unknown(bp.actors, s.actor, UnknownActor(p.id, s.id, s.actor.UnwrapOr("")))
  }

  function EvidenceCheck(bp: AuditBlueprint): StepCheck {
    (p: Procedure, s: Step) =>
      FlatMap((ev: StepEvidence) =>
                Unknown(bp.evidenceTemplates, ev.templateRef, UnknownEvidence(p.id, s.id, ev.templateRef.UnwrapOr(""))), s.evidence)
  }

  function StandardCheck(bp: AuditBlueprint): StepCheck {
    (p: Procedure, s: Step) =>
      FlatMap((ref: string) => Unknown(bp.standards, Some(ref), UnknownStandard(p.id, s.id, ref)), s.standards)
  }

  function OfProcedure(check: StepCheck, p: Procedure): seq<Violation> {
    FlatMap((s: Step) => check(p, s), p.steps)
  }

  function OfProcedures(check: StepCheck, procs: seq<Procedure>): seq<Violation> {
    FlatMap((p: Procedure) => OfProcedure(check, p), procs)
  }

  function GateConditions(gate: Option<PhaseGate>): seq<string> {
    if gate.Some? then gate.value.allOf + gate.value.anyOf else []
  }

  /** Entry gate first; both kinds of conditions are looked at. */
  function ConditionsOf(phase: Phase): seq<string> {
    GateConditions(phase.entryGate) + GateConditions(phase.exitGate)
  }

  function ConditionCheck(ids: seq<string>, phase: string, condition: string): seq<Violation> {
    var referred := ExtractProcedureId(condition);
    Unknown(ids, referred, UnknownGateProcedure(phase, referred.UnwrapOr("")))
  }

  function OfGates(ids: seq<string>, phase: Phase): seq<Violation> {
    FlatMap((c: string) => ConditionCheck(ids, phase.id, c), ConditionsOf(phase))
  }

  function OfDependencies(ids: seq<string>, k: string, deps: seq<string>): seq<Violation> {
    FlatMap((d: string) => Unknown(ids, Some(d), UnknownPrecondition(k, d)), deps)
  }

  function OfPreconditions(ids: seq<string>, pre: map<string, seq<string>>, keyOrder: seq<string>): seq<Violation> {
    FlatMap((k: string) => OfDependencies(ids, k, Deps(pre, k)), keyOrder)
  }

  function Structural(bp: AuditBlueprint): seq<Violation> {
    var procs := ProceduresOf(bp.phases);
    OfProcedures(ActorCheck(bp), procs) + OfProcedures(EvidenceCheck(bp), procs) + OfProcedures(StandardCheck(bp), procs)
    + FlatMap((phase: Phase) => OfGates(ProcedureIds(bp), phase), bp.phases)
  }

  // ----- the collecting loops -----

  method CheckSteps(check: StepCheck, phases: seq<Phase>) returns (violations: seq<Violation>)
    ensures violations == OfProcedures(check, ProceduresOf(phases))
  {
    violations := [];
    for i := 0 to |phases|
      invariant violations == OfProcedures(check, ProceduresOf(phases[..i]))
    {
      assert phases[..i + 1][..i] == phases[..i];
      var found := CheckPhase(check, phases[i].procedures);
      FlatMapAppend((p: Procedure) => OfProcedure(check, p), ProceduresOf(phases[..i]), phases[i].procedures);
      violations := violations + found;
    }
    assert phases[..|phases|] == phases;
  }

  method CheckPhase(check: StepCheck, procs: seq<Procedure>) returns (violations: seq<Violation>)
    ensures violations == OfProcedures(check, procs)
  {
    violations := [];
    for j := 0 to |procs|
      invariant violations == OfProcedures(check, procs[..j])
    {
      assert procs[..j + 1][..j] == procs[..j];
      var found := CheckProcedure(check, procs[j]);
      violations := violations + found;
    }
    assert procs[..|procs|] == procs;
  }

  method CheckProcedure(check: StepCheck, p: Procedure) returns (violations: seq<Violation>)
    ensures violations == OfProcedure(check, p)
  {
    violations := [];
    for k := 0 to |p.steps|
      invariant violations == FlatMap((s: Step) => check(p, s), p.steps[..k])
    {
      assert p.steps[..k + 1][..k] == p.steps[..k];
      violations := violations + check(p, p.steps[k]);
    }
    assert p.steps[..|p.steps|] == p.steps;
  }

  method CollectStructuralViolations(bp: AuditBlueprint) returns (violations: seq<Violation>)
    ensures violations == Structural(bp)
  {
    var ids := CollectIds(bp);
    var actors := CheckSteps(ActorCheck(bp), bp.phases);
    var evidence := CheckSteps(EvidenceCheck(bp), bp.phases);
    var standards := CheckSteps(StandardCheck(bp), bp.phases);
    violations := actors + evidence + standards;
    var gates := CheckGates(ids, bp.phases);
    violations := violations + gates;
  }

  method CheckGates(ids: seq<string>, phases: seq<Phase>) returns (violations: seq<Violation>)
    ensures violations == FlatMap((phase: Phase) => OfGates(ids, phase), phases)
  {
    violations := [];
    for i := 0 to |phases|
      invariant violations == FlatMap((phase: Phase) => OfGates(ids, phase), phases[..i])
    {
      assert phases[..i + 1][..i] == phases[..i];
      violations := violations + OfGates(ids, phases[i]);
    }
    assert phases[..|phases|] == phases;
  }

  function Overall(sorted: SortResult, violations: seq<Violation>): ValidationResult {
    match sorted
    case DagCycle(procedures) => Cycle(procedures)
    case UnknownReference(procedure, dependency) => Rejected([UnknownPrecondition(procedure, dependency)])
    case Ordered(_) => if violations == [] then Passed else Rejected(violations)
  }

  ghost function StrictVerdict(bp: AuditBlueprint, pre: map<string, seq<string>>, keyOrder: seq<string>): ValidationResult
    requires Enumerates(keyOrder, pre.Keys)
  {
    var ids := ProcedureIds(bp);
    Overall(SortOutcome(ids, pre, keyOrder, KnownGraph(ids, pre)), OfPreconditions(ids, pre, keyOrder) + Structural(bp))
  }

  ghost function BuiltinVerdict(bp: AuditBlueprint, pre: map<string, seq<string>>, keyOrder: seq<string>): ValidationResult
    requires Enumerates(keyOrder, pre.Keys)
  {
    var ids := ProcedureIds(bp);
    Overall(SortOutcome(ids, pre, keyOrder, BuiltinGraph(ids, pre)), Structural(bp))
  }

  method ValidateWithPreconditions(bp: AuditBlueprint, pre: map<string, seq<string>>, keyOrder: seq<string>)
    returns (r: ValidationResult)
    requires Enumerates(keyOrder, pre.Keys)
    ensures r == StrictVerdict(bp, pre, keyOrder)
  {
    var ids := CollectIds(bp);
    var structural := CollectStructuralViolations(bp);
    var violations := OfPreconditions(ids, pre, keyOrder) + structural;
    var sorted := TopologicalSortWithPreconditions(bp, pre, keyOrder);
    r := Overall(sorted, violations);
  }

  /** On the preconditions of the methodology file `entries`, whose references are left to the sort. */
  method ValidateBlueprint(bp: AuditBlueprint, entries: seq<(string, seq<string>)>, keyOrder: seq<string>)
    returns (r: ValidationResult)
    requires Enumerates(keyOrder, Extracted(entries, ProcedureIds(bp)).Keys)
    ensures r == BuiltinVerdict(bp, Extracted(entries, ProcedureIds(bp)), keyOrder)
  {
    var violations := CollectStructuralViolations(bp);
    var sorted := TopologicalSortProcedures(bp, entries, keyOrder);
    r := Overall(sorted, violations);
  }

  // ----- what passing means -----

  ghost predicate StepResolves(bp: AuditBlueprint, s: Step) {
    && (s.actor.Some? ==> s.actor.value in bp.actors)
    && (forall ev :: ev in s.evidence && ev.templateRef.Some? ==> ev.templateRef.value in bp.evidenceTemplates)
    && (forall ref :: ref in s.standards ==> ref in bp.standards)
  }

  ghost predicate GatesResolve(bp: AuditBlueprint, phase: Phase) {
    forall c :: c in ConditionsOf(phase) && ExtractProcedureId(c).Some? ==> ExtractProcedureId(c).value in ProcedureIds(bp)
  }

  ghost predicate StepsResolve(bp: AuditBlueprint, p: Procedure) {
    forall s :: s in p.steps ==> StepResolves(bp, s)
  }

  ghost predicate ReferencesResolve(bp: AuditBlueprint) {
    && (forall p :: p in ProceduresOf(bp.phases) ==> StepsResolve(bp, p))
    && (forall phase :: phase in bp.phases ==> GatesResolve(bp, phase))
  }

  lemma FlatMapEmpty<T(!new), U(!new)>(f: T -> seq<U>, s: seq<T>)
    ensures FlatMap(f, s) == [] <==> forall x :: x in s ==> f(x) == []
  {}

  lemma StepChecked(bp: AuditBlueprint, p: Procedure, s: Step)
    ensures ActorCheck(bp)(p, s) == [] && EvidenceCheck(bp)(p, s) == [] && StandardCheck(bp)(p, s) == [] <==>
            StepResolves(bp, s)
  {
    FlatMapEmpty((ev: StepEvidence) =>
                   Unknown(bp.evidenceTemplates, ev.templateRef, UnknownEvidence(p.id, s.id, ev.templateRef.UnwrapOr(""))), s.evidence);
    FlatMapEmpty((ref: string) => Unknown(bp.standards, Some(ref), UnknownStandard(p.id, s.id, ref)), s.standards);
  }

  lemma ProcedureChecked(bp: AuditBlueprint, p: Procedure)
    ensures OfProcedure(ActorCheck(bp), p) == [] && OfProcedure(EvidenceCheck(bp), p) == [] && OfProcedure(StandardCheck(bp), p) == [] <==>
            StepsResolve(bp, p)
  {
    FlatMapEmpty((s: Step) => ActorCheck(bp)(p, s), p.steps);
    FlatMapEmpty((s: Step) => EvidenceCheck(bp)(p, s), p.steps);
    FlatMapEmpty((s: Step) => StandardCheck(bp)(p, s), p.steps);
    forall s {
      StepChecked(bp, p, s);
    }
  }

  lemma GatesChecked(bp: AuditBlueprint, phase: Phase)
    ensures OfGates(ProcedureIds(bp), phase) == [] <==> GatesResolve(bp, phase)
  {
    var ids := ProcedureIds(bp);
    FlatMapEmpty((c: string) => ConditionCheck(ids, phase.id, c), ConditionsOf(phase));
  }

  /** Nothing is collected exactly when every actor, template, standard and gate reference resolves. */
  lemma NothingCollected(bp: AuditBlueprint)
    ensures Structural(bp) == [] <==> ReferencesResolve(bp)
  {
    var procs := ProceduresOf(bp.phases);
    FlatMapEmpty((p: Procedure) => OfProcedure(ActorCheck(bp), p), procs);
    FlatMapEmpty((p: Procedure) => OfProcedure(EvidenceCheck(bp), p), procs);
    FlatMapEmpty((p: Procedure) => OfProcedure(StandardCheck(bp), p), procs);
    FlatMapEmpty((phase: Phase) => OfGates(ProcedureIds(bp), phase), bp.phases);
    forall p {
      ProcedureChecked(bp, p);
    }
    forall phase {
      GatesChecked(bp, phase);
    }
  }

  lemma NoPreconditionViolations(ids: seq<string>, pre: map<string, seq<string>>, keyOrder: seq<string>)
    requires AllResolved(ids, pre)
    ensures OfPreconditions(ids, pre, keyOrder) == []
  {
    FlatMapEmpty((k: string) => OfDependencies(ids, k, Deps(pre, k)), keyOrder);
    forall k ensures OfDependencies(ids, k, Deps(pre, k)) == [] {
      FlatMapEmpty((d: string) => Unknown(ids, Some(d), UnknownPrecondition(k, d)), Deps(pre, k));
    }
  }

  /** Validation passes exactly when the ids differ, everything referred to exists, and the
      preconditions have no cycle. */
  lemma PassesIff(bp: AuditBlueprint, pre: map<string, seq<string>>, keyOrder: seq<string>)
    requires Enumerates(keyOrder, pre.Keys)
    ensures var ids := ProcedureIds(bp);
            StrictVerdict(bp, pre, keyOrder) == Passed <==>
            NoDup(ids) && AllResolved(ids, pre) && Acyclic(KnownGraph(ids, pre)) && ReferencesResolve(bp)
  {
    var ids := ProcedureIds(bp);
    SortCorrect(ids, pre, keyOrder);
    NothingCollected(bp);
    if AllResolved(ids, pre) {
      NoPreconditionViolations(ids, pre, keyOrder);
    }
  }

  /** The built-in validation instead passes exactly when everything referred to exists and the stray
      keys that get their turn are as many as the procedures that do not and the repeated ids. */
  lemma BuiltinPassesIff(bp: AuditBlueprint, pre: map<string, seq<string>>, keyOrder: seq<string>)
    requires Enumerates(keyOrder, pre.Keys)
    ensures var ids := ProcedureIds(bp);
            BuiltinVerdict(bp, pre, keyOrder) == Passed <==>
            AllResolved(ids, pre) && |ReleasedStrays(ids, pre)| == Shortfall(ids, pre) && ReferencesResolve(bp)
  {
    BuiltinSucceedsIff(ProcedureIds(bp), pre, keyOrder);
    NothingCollected(bp);
  }

  /** The sort looks at the precondition references first, and stops at one. So when any of them
      dangles, that one violation is all that is reported, whatever else is wrong; and the check of
      precondition references among the structural checks never adds anything to a report. */
  lemma DanglingHidesTheRest(ids: seq<string>, pre: map<string, seq<string>>, keyOrder: seq<string>, structural: seq<Violation>)
    requires Enumerates(keyOrder, pre.Keys)
    ensures var sorted := SortOutcome(ids, pre, keyOrder, KnownGraph(ids, pre));
            var r := Overall(sorted, OfPreconditions(ids, pre, keyOrder) + structural);
            && (AllResolved(ids, pre) ==> r == Overall(sorted, structural))
            && (!AllResolved(ids, pre) ==>
                  sorted.UnknownReference? && r == Rejected([UnknownPrecondition(sorted.procedure, sorted.dependency)]))
  {
    OutcomeWhenResolved(ids, pre, keyOrder, KnownGraph(ids, pre));
    if AllResolved(ids, pre) {
      NoPreconditionViolations(ids, pre, keyOrder);
      assert [] + structural == structural;
    }
  }

  /** Without stray keys the two validations are the same. */
  lemma VerdictsAgree(bp: AuditBlueprint, pre: map<string, seq<string>>, keyOrder: seq<string>)
    requires Enumerates(keyOrder, pre.Keys) && StrayKeys(ProcedureIds(bp), pre) == {}
    ensures BuiltinVerdict(bp, pre, keyOrder) == StrictVerdict(bp, pre, keyOrder)
  {
    var ids := ProcedureIds(bp);
    assert BuiltinGraph(ids, pre) == KnownGraph(ids, pre);
    DanglingHidesTheRest(ids, pre, keyOrder, Structural(bp));
  }

  // ----- what is not checked -----

  ghost predicate ProceduresAlike(a: seq<Procedure>, b: seq<Procedure>) {
    |a| == |b| && forall i :: 0 <= i < |a| ==> b[i] == a[i].(aggregate := b[i].aggregate)
  }

  ghost predicate PhasesAlike(a: seq<Phase>, b: seq<Phase>) {
    |a| == |b| && forall i :: 0 <= i < |a| ==>
                               b[i] == a[i].(procedures := b[i].procedures) && ProceduresAlike(a[i].procedures, b[i].procedures)
  }

  lemma {:induction false} AllProceduresAlike(a: seq<Phase>, b: seq<Phase>)
    requires PhasesAlike(a, b)
    ensures ProceduresAlike(ProceduresOf(a), ProceduresOf(b))
  {
    if a == [] {
    } else {
      AllProceduresAlike(a[..|a| - 1], b[..|b| - 1]);
    }
  }

  lemma ChecksAlike(check: StepCheck, other: StepCheck, a: seq<Procedure>, b: seq<Procedure>)
    requires ProceduresAlike(a, b) && forall p: Procedure, q: Procedure, s: Step :: p.id == q.id ==> check(p, s) == other(q, s)
    ensures OfProcedures(check, a) == OfProcedures(other, b)
  {
    forall i | 0 <= i < |a| ensures OfProcedure(check, a[i]) == OfProcedure(other, b[i]) {
      FlatMapSame((s: Step) => check(a[i], s), (s: Step) => other(b[i], s), a[i].steps, b[i].steps);
    }
    FlatMapSame((p: Procedure) => OfProcedure(check, p), (p: Procedure) => OfProcedure(other, p), a, b);
  }

  lemma SameViolations(bp: AuditBlueprint, phases: seq<Phase>)
    requires PhasesAlike(bp.phases, phases)
    ensures ProcedureIds(bp.(phases := phases)) == ProcedureIds(bp)
    ensures Structural(bp.(phases := phases)) == Structural(bp)
  {
    var other := bp.(phases := phases);
    var a, b := ProceduresOf(bp.phases), ProceduresOf(phases);
    AllProceduresAlike(bp.phases, phases);
    var ids := ProcedureIds(bp);
    assert ProcedureIds(other) == ids;
    ChecksAlike(ActorCheck(bp), ActorCheck(other), a, b);
    ChecksAlike(EvidenceCheck(bp), EvidenceCheck(other), a, b);
    ChecksAlike(StandardCheck(bp), StandardCheck(other), a, b);
    forall i | 0 <= i < |phases| ensures OfGates(ids, bp.phases[i]) == OfGates(ids, phases[i]) {
      assert ConditionsOf(bp.phases[i]) == ConditionsOf(phases[i]) && bp.phases[i].id == phases[i].id;
    }
    FlatMapSame((phase: Phase) => OfGates(ids, phase), (phase: Phase) => OfGates(ids, phase), bp.phases, phases);
  }

  /** States and transitions are never looked at: two blueprints that differ only there get the same
      verdict from both validations, with any preconditions. */
  lemma StatesAreNotChecked(bp: AuditBlueprint, phases: seq<Phase>, pre: map<string, seq<string>>, keyOrder: seq<string>)
    requires PhasesAlike(bp.phases, phases) && Enumerates(keyOrder, pre.Keys)
    ensures StrictVerdict(bp.(phases := phases), pre, keyOrder) == StrictVerdict(bp, pre, keyOrder)
    ensures BuiltinVerdict(bp.(phases := phases), pre, keyOrder) == BuiltinVerdict(bp, pre, keyOrder)
  {
    SameViolations(bp, phases);
  }

  /** One procedure, `a`, with the given machine. */
  function OneProcedure(a: string, aggregate: Aggregate): AuditBlueprint {
    AuditBlueprint([], [], [], [Phase("phase", None, None, None, [Procedure(a, map[], aggregate, [])])])
  }

  ghost predicate DeclaresItsStates(aggregate: Aggregate) {
    forall t :: t in aggregate.transitions ==> t.fromState in aggregate.states && t.toState in aggregate.states
  }

  /** A procedure whose only transition leads to a state it does not declare passes. */
  lemma UndeclaredStatePasses(a: string, open: string, lost: string)
    requires open != lost
    ensures var aggregate := Aggregate(open, [open], [Transition(open, lost, None)]);
            && !DeclaresItsStates(aggregate)
            && StrictVerdict(OneProcedure(a, aggregate), map[], []) == Passed
  {
    var aggregate := Aggregate(open, [open], [Transition(open, lost, None)]);
    assert aggregate.transitions[0] in aggregate.transitions;
    OneProcedureResolves(a, aggregate);
    NothingToSortBy([a], map[]);
    PassesIff(OneProcedure(a, aggregate), map[], []);
  }

  ghost predicate StatesDeclared(bp: AuditBlueprint) {
    forall p :: p in ProceduresOf(bp.phases) ==> DeclaresItsStates(p.aggregate)
  }

  /** Validation agrees with its documentation, which has it check transition states too, exactly
      when the states are declared or something it does check is wrong. */
  lemma DocumentedVerdictIff(bp: AuditBlueprint, pre: map<string, seq<string>>, keyOrder: seq<string>)
    requires Enumerates(keyOrder, pre.Keys)
    ensures var ids := ProcedureIds(bp);
            (StrictVerdict(bp, pre, keyOrder) == Passed <==>
               NoDup(ids) && AllResolved(ids, pre) && Acyclic(KnownGraph(ids, pre)) && ReferencesResolve(bp) && StatesDeclared(bp)) <==>
            StatesDeclared(bp) || !NoDup(ids) || !AllResolved(ids, pre) || !Acyclic(KnownGraph(ids, pre)) || !ReferencesResolve(bp)
  {
    PassesIff(bp, pre, keyOrder);
  }

  lemma OneProcedureResolves(a: string, aggregate: Aggregate)
    ensures ProcedureIds(OneProcedure(a, aggregate)) == [a] && ReferencesResolve(OneProcedure(a, aggregate))
  {
    var phases := OneProcedure(a, aggregate).phases;
    assert phases[..0] == [];
    assert ProceduresOf(phases[..0]) == [];
    assert ProceduresOf(phases) == [phases[0].procedures[0]];
  }

  lemma NothingToSortBy(ids: seq<string>, pre: map<string, seq<string>>)
    requires pre == map[]
    ensures Acyclic(KnownGraph(ids, pre))
  {
    var g := KnownGraph(ids, pre);
    AcyclicIffNothingStuck(g);
    assert Peel(g, 1) == g.nodes;
    forall v | v in g.nodes ensures v in Startable(g) {
      KahnSort.PeelSaturates(g, 1, v);
    }
  }
}
