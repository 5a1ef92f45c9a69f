/** The parts of an audit methodology blueprint that the loader and the engine read. */
module Blueprint {
  import opened Wrappers
  import Seqs

  datatype Transition = Transition(fromState: string, toState: string, command: Option<string>)

  datatype Aggregate = Aggregate(initialState: string, states: seq<string>, transitions: seq<Transition>)

  datatype StepEvidence = StepEvidence(templateRef: Option<string>, direction: string)

  datatype Step = Step(
    id: string,
    actor: Option<string>,
    command: Option<string>,
    evidence: seq<StepEvidence>,
    standards: seq<string>)

  datatype Procedure = Procedure(
    id: string,
    discriminators: map<string, seq<string>>,
    aggregate: Aggregate,
    steps: seq<Step>)

  /** A gate condition is kept as the text `procedure.<id>.<state>`. */
  datatype PhaseGate = PhaseGate(allOf: seq<string>, anyOf: seq<string>)

  datatype Phase = Phase(
    id: string,
    order: Option<int>,
    entryGate: Option<PhaseGate>,
    exitGate: Option<PhaseGate>,
    procedures: seq<Procedure>)

  datatype AuditBlueprint = AuditBlueprint(
    actors: seq<string>,
    evidenceTemplates: seq<string>,
    standards: seq<string>,
    phases: seq<Phase>)

  function IdsOf(procs: seq<Procedure>): (r: seq<string>)
    ensures |r| == |procs| && forall i :: 0 <= i < |r| ==> r[i] == procs[i].id
  {
    seq(|procs|, i requires 0 <= i < |procs| => procs[i].id)
  }

  /** All procedures, phase after phase. */
  function ProceduresOf(phases: seq<Phase>): seq<Procedure> {
    if phases == [] then []
    else
      ProceduresOf(phases[..|phases| - 1]) + phases[|phases| - 1].procedures
  }

  function ProcedureIds(bp: AuditBlueprint): seq<string> {
    IdsOf(ProceduresOf(bp.phases))
  }

  /** The ids of each phase by themselves. */
  ghost function PhaseIds(phases: seq<Phase>): seq<seq<string>> {
    seq(|phases|, i requires 0 <= i < |phases| => IdsOf(phases[i].procedures))
  }

  lemma IdsAppend(a: seq<Procedure>, b: seq<Procedure>)
    ensures IdsOf(a + b) == IdsOf(a) + IdsOf(b)
  {}

  /** Blueprint order: the phases' ids one phase after the other. */
  lemma {:induction false} IdsJoinPhases(phases: seq<Phase>)
    ensures Seqs.Joins(IdsOf(ProceduresOf(phases)), PhaseIds(phases))
  {
    if phases == [] {
    } else {
      var front, last := phases[..|phases| - 1], phases[|phases| - 1];
      IdsJoinPhases(front);
      Seqs.JoinsPush(IdsOf(ProceduresOf(front)), PhaseIds(front), IdsOf(last.procedures));
      IdsAppend(ProceduresOf(front), last.procedures);
      assert PhaseIds(phases) == PhaseIds(front) + [IdsOf(last.procedures)];
    }
  }

  ghost function ProcedureLists(phases: seq<Phase>): seq<seq<Procedure>> {
    seq(|phases|, i requires 0 <= i < |phases| => phases[i].procedures)
  }

  lemma {:induction false} ProceduresJoinPhases(phases: seq<Phase>)
    ensures Seqs.Joins(ProceduresOf(phases), ProcedureLists(phases))
  {
    if phases == [] {
    } else {
      var front, last := phases[..|phases| - 1], phases[|phases| - 1];
      ProceduresJoinPhases(front);
      Seqs.JoinsPush(ProceduresOf(front), ProcedureLists(front), last.procedures);
      assert ProcedureLists(phases) == ProcedureLists(front) + [last.procedures];
    }
  }
}
