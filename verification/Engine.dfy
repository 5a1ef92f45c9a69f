/** The execution engine as an object: nested loops over procedures, transitions and steps,
    updating accumulators in place, proved equal to the simulation. */
module Engine {
  import opened Wrappers
  import opened Blueprint
  import opened EventLog
  import opened Simulation
  import RunRules
  import opened Loader
  import Gates
  import opened Artifacts
  import opened Dispatch
  import Dispatcher

  /** The mutable accumulators of one run. */
  class RunAccum {
    var eventLog: seq<AuditEvent>
    var procedureStates: map<string, string>
    var stepCompletions: map<string, bool>
    var evidenceStates: map<string, string>
    var anomalies: seq<AnomalyRecord>
    const artifacts: ArtifactBag
    var currentTs: int

    constructor (artifacts: ArtifactBag, start: int)
      ensures this.artifacts == artifacts && eventLog == [] && procedureStates == map[] && stepCompletions == map[]
      ensures evidenceStates == map[] && anomalies == [] && currentTs == start
    {
      eventLog, procedureStates, stepCompletions, evidenceStates, anomalies := [], map[], map[], map[], [];
      this.artifacts, currentTs := artifacts, start;
    }
  }

  /** Durations are in minutes. */
  datatype EngagementResult = EngagementResult(
    eventLog: seq<AuditEvent>,
    procedureStates: map<string, string>,
    stepCompletions: map<string, bool>,
    evidenceStates: map<string, string>,
    anomalies: seq<AnomalyRecord>,
    phasesCompleted: seq<string>,
    totalMinutes: int,
    artifacts: Bag)

  class AuditFsmEngine {
    const blueprint: AuditBlueprint
    const preconditions: map<string, seq<string>>
    const overlay: Overlay
    const tape: Tape
    const dispatcher: Dispatcher.StepDispatcher
    // How many values have been drawn from the random generator.
    var draws: nat

    constructor (
      blueprint: AuditBlueprint, preconditions: map<string, seq<string>>, overlay: Overlay, tape: Tape,
      gens: Generators, inventory: map<string, StepInventory>)
      ensures this.blueprint == blueprint && this.preconditions == preconditions && this.overlay == overlay
      ensures this.tape == tape && draws == 0 && fresh(dispatcher)
      ensures dispatcher.gens == gens && dispatcher.inventory == inventory
    {
      this.blueprint, this.preconditions, this.overlay, this.tape := blueprint, preconditions, overlay, tape;
      dispatcher := new Dispatcher.StepDispatcher(gens, inventory);
      draws := 0;
    }

    function Settings(): Env {
      Env(overlay, tape, blueprint.actors)
    }

    ghost function State(acc: RunAccum): Run
      reads this, acc, dispatcher
    {
      Run(acc.eventLog, acc.procedureStates, acc.stepCompletions, acc.evidenceStates, acc.anomalies,
          dispatcher.history, acc.currentTs, draws)
    }

    method AdvanceClock(acc: RunAccum)
      modifies this, acc`currentTs
      ensures State(acc) == AdvanceTime(Settings(), old(State(acc)))
    {
      acc.currentTs := acc.currentTs + DelayMinutes(tape.delay(draws), overlay.muHours);
      draws := draws + 1;
    }

    method AdvanceStepClock(acc: RunAccum)
      modifies this, acc`currentTs
      ensures State(acc) == AdvanceStepTime(Settings(), old(State(acc)))
    {
      acc.currentTs := acc.currentTs + DelayMinutes(tape.delay(draws), 1.0);
      draws := draws + 1;
    }

    /** Check each anomaly type against its probability; the first hit is recorded. */
    method CheckAnomalyInjection(acc: RunAccum, procedureId: string, stepId: string) returns (kind: Option<AnomalyType>)
      modifies this, acc`anomalies
      ensures var (found, draws') := FindAnomaly(tape, AnomalyChecks(overlay.anomalies), old(draws));
              State(acc) == RecordAnomaly(old(State(acc)), found, draws', procedureId, stepId) && kind == AnomalyKind(found)
    {
      var checks := AnomalyChecks(overlay.anomalies);
      for i := 0 to |checks|
        invariant FindAnomaly(tape, checks, old(draws)) == FindAnomaly(tape, checks[i..], draws)
        invariant acc.anomalies == old(acc.anomalies)
      {
        var roll := tape.roll(draws);
        assert checks[i..][0] == checks[i] && checks[i..][1..] == checks[i + 1..];
        if roll < checks[i].0 {
          var record := AnomalyRecord(tape.bytes(draws + 1), checks[i].1, checks[i].2, procedureId, Some(stepId), acc.currentTs);
          acc.anomalies := acc.anomalies + [record];
          draws := draws + 2;
          return Some(checks[i].1);
        }
        draws := draws + 1;
      }
      return None;
    }

    method CollectEvidence(acc: RunAccum, step: Step) returns (refs: seq<string>)
      modifies acc`evidenceStates
      ensures refs == TemplateRefs(step.evidence)
      ensures acc.evidenceStates == EvidenceStates(old(acc.evidenceStates), step.evidence)
    {
      refs := [];
      for i := 0 to |step.evidence|
        invariant refs == TemplateRefs(step.evidence[..i])
        invariant acc.evidenceStates == EvidenceStates(old(acc.evidenceStates), step.evidence[..i])
      {
        var ev := step.evidence[i];
        assert step.evidence[..i + 1][..i] == step.evidence[..i];
        if ev.templateRef.Some? {
          refs := refs + [ev.templateRef.value];
          acc.evidenceStates := acc.evidenceStates[ev.templateRef.value := ev.direction];
        }
      }
      assert step.evidence[..|step.evidence|] == step.evidence;
    }

    /** Everything about a step except its artifacts and its completion mark. */
    method EmitStepEvent(acc: RunAccum, proc: Procedure, phaseId: string, step: Step)
      modifies this, acc
      ensures State(acc) == EmitStep(Settings(), proc, phaseId, step, old(State(acc))).(
                              evidenceStates := EvidenceStates(old(acc.evidenceStates), step.evidence))
    {
      AdvanceStepClock(acc);
      var kind := CheckAnomalyInjection(acc, proc.id, step.id);
      var refs := CollectEvidence(acc, step);
      var event := AuditEvent(
        tape.bytes(draws), acc.currentTs, "procedure_step", proc.id, Some(step.id), phaseId, None, None,
        step.actor.UnwrapOr("audit_staff"), step.command.UnwrapOr("execute_" + step.id),
        refs, step.standards, kind.Some?, kind);
      draws := draws + 1;
      acc.eventLog := acc.eventLog + [event];
    }

    method ExecuteOneStep(acc: RunAccum, proc: Procedure, phaseId: string, step: Step)
      requires dispatcher.Faithful(acc.artifacts)
      modifies this, acc, acc.artifacts, dispatcher
      ensures State(acc) == ExecuteStep(Settings(), proc, phaseId, step, old(State(acc)))
      ensures dispatcher.Faithful(acc.artifacts) && dispatcher.callsBefore == old(dispatcher.callsBefore)
    {
      EmitStepEvent(acc, proc, phaseId, step);
      dispatcher.RecordStep(acc.artifacts, step.id, step.command.UnwrapOr(""));
      acc.stepCompletions := acc.stepCompletions[step.id := true];
    }

    method ExecuteAllSteps(acc: RunAccum, proc: Procedure, phaseId: string)
      requires dispatcher.Faithful(acc.artifacts)
      modifies this, acc, acc.artifacts, dispatcher
      ensures State(acc) == ExecuteSteps(Settings(), proc, phaseId, proc.steps, old(State(acc)))
      ensures dispatcher.Faithful(acc.artifacts) && dispatcher.callsBefore == old(dispatcher.callsBefore)
    {
      for i := 0 to |proc.steps|
        invariant State(acc) == ExecuteSteps(Settings(), proc, phaseId, proc.steps[..i], old(State(acc)))
        invariant dispatcher.Faithful(acc.artifacts) && dispatcher.callsBefore == old(dispatcher.callsBefore)
      {
        assert proc.steps[..i + 1][..i] == proc.steps[..i];
        ExecuteOneStep(acc, proc, phaseId, proc.steps[i]);
      }
      assert proc.steps[..|proc.steps|] == proc.steps;
    }

    method PickTransition(outgoing: seq<Transition>, states: seq<string>) returns (t: Transition, below: bool)
      requires outgoing != []
      modifies this
      ensures (t, below) == SelectTransition(Settings(), states, outgoing, old(draws))
      ensures draws == old(draws) + SelectDraws(outgoing)
      ensures (forall u :: u in outgoing ==> u.fromState == outgoing[0].fromState) ==>
                RunRules.SelectionRule(Settings(), states, outgoing, old(draws), t, below)
    {
      if forall u :: u in outgoing ==> u.fromState == outgoing[0].fromState {
        RunRules.SelectionFollowsRule(Settings(), states, outgoing, draws);
      }
      if |outgoing| == 1 {
        return outgoing[0], false;
      }
      var roll := tape.roll(draws);
      draws := draws + 1;
      below := roll < overlay.revisionProbability;
      var from := Position(states, outgoing[0].fromState);
      var forward := FindForward(states, outgoing, from);
      var backward := FindBackward(states, outgoing, from);
      if roll < overlay.revisionProbability && backward.Some? {
        return backward.value, below;
      }
      t := forward.UnwrapOr(outgoing[0]);
    }

    /** Select a transition and bound consecutive self-loops; `Terminal` and `OnlyLoops` end the walk. */
    method ChooseTransition(agg: Aggregate, state: string, selfLoops: nat) returns (choice: Choice)
      modifies this
      ensures choice == Choose(Settings(), agg, state, selfLoops, old(draws))
      ensures draws == old(draws) + if Outgoing(agg, state) == [] then 0 else SelectDraws(Outgoing(agg, state))
    {
      var outgoing := Outgoing(agg, state);
      if outgoing == [] {
        return Terminal;
      }
      var t, below := PickTransition(outgoing, agg.states);
      var count := 0;
      if t.fromState == t.toState {
        count := selfLoops + 1;
        if count >= overlay.maxSelfLoops {
          var forward := FindNonLoop(outgoing);
          if forward.None? {
            return OnlyLoops;
          }
          t, count := forward.value, 0;
        }
      }
      choice := Take(Hop(t, below), count);
    }

    /** Emit the transition, run the steps on entering the work state or looping, advance the clock. */
    method FollowTransition(acc: RunAccum, proc: Procedure, phaseId: string, from: string, t: Transition)
      requires dispatcher.Faithful(acc.artifacts)
      modifies this, acc, acc.artifacts, dispatcher
      ensures State(acc) == TakeTransition(Settings(), proc, phaseId, from, t, old(State(acc)))
      ensures dispatcher.Faithful(acc.artifacts) && dispatcher.callsBefore == old(dispatcher.callsBefore)
    {
      EmitTransition(acc, proc, phaseId, from, t);
      if RunsSteps(proc.aggregate, from, t.toState) {
        ExecuteAllSteps(acc, proc, phaseId);
      }
      AdvanceClock(acc);
    }

    method EmitTransition(acc: RunAccum, proc: Procedure, phaseId: string, from: string, t: Transition)
      modifies this, acc
      ensures State(acc) == Moved(Settings(), proc, phaseId, from, t, old(State(acc)))
    {
      var actor := SelectActor(Settings(), t, proc.steps);
      var event := AuditEvent(
        tape.bytes(draws), acc.currentTs, "state_transition", proc.id, None, phaseId, Some(from), Some(t.toState),
        actor, t.command.UnwrapOr("transition"), [], [], false, None);
      draws := draws + 1;
      acc.eventLog := acc.eventLog + [event];
      acc.procedureStates := acc.procedureStates[proc.id := t.toState];
    }

    /** One iteration of the walk: choose, and follow the transition if there is one. */
    method Iterate(acc: RunAccum, proc: Procedure, phaseId: string, state: string, selfLoops: nat, ghost walk: Walk)
      returns (choice: Choice)
      requires dispatcher.Faithful(acc.artifacts)
      requires walk.current == state && walk.selfLoops == selfLoops && walk.run == State(acc)
      modifies this, acc, acc.artifacts, dispatcher
      ensures choice == WalkChoice(Settings(), proc, walk)
      ensures State(acc) == if choice.Take?
                            then WalkStep(Settings(), proc, phaseId, walk, choice.hop, choice.selfLoops).run
                            else Selected(Settings(), proc, walk)
      ensures dispatcher.Faithful(acc.artifacts) && dispatcher.callsBefore == old(dispatcher.callsBefore)
    {
      choice := ChooseTransition(proc.aggregate, state, selfLoops);
      assert State(acc) == Selected(Settings(), proc, walk);
      if choice.Take? {
        FollowTransition(acc, proc, phaseId, state, choice.hop.t);
      }
    }

    /** Walk one procedure's state machine. */
    method RunOneProcedure(acc: RunAccum, proc: Procedure, phaseId: string)
      requires dispatcher.Faithful(acc.artifacts)
      modifies this, acc, acc.artifacts, dispatcher
      ensures State(acc) == WalkProcedure(Settings(), proc, phaseId, old(State(acc))).run
      ensures dispatcher.Faithful(acc.artifacts) && dispatcher.callsBefore == old(dispatcher.callsBefore)
    {
      var currentState := proc.aggregate.initialState;
      acc.procedureStates := acc.procedureStates[proc.id := currentState];
      ghost var walk := StartWalk(proc, old(State(acc)));
      WalkLoop(acc, proc, phaseId, currentState, walk);
    }

    method WalkLoop(acc: RunAccum, proc: Procedure, phaseId: string, initialState: string, ghost start: Walk)
      requires dispatcher.Faithful(acc.artifacts)
      requires start.current == initialState && start.selfLoops == 0 && start.trace == [] && start.run == State(acc)
      modifies this, acc, acc.artifacts, dispatcher
      ensures State(acc) == WalkOn(Settings(), proc, phaseId, start).run
      ensures dispatcher.Faithful(acc.artifacts) && dispatcher.callsBefore == old(dispatcher.callsBefore)
    {
      var currentState, maxIter := initialState, Limit(Settings(), proc);
      var iterations, selfLoops := 0, 0;
      ghost var walk := start;
      while iterations < maxIter
        invariant walk.current == currentState && walk.selfLoops == selfLoops && |walk.trace| == iterations
        invariant iterations <= maxIter && State(acc) == walk.run
        invariant WalkOn(Settings(), proc, phaseId, walk) == WalkOn(Settings(), proc, phaseId, start)
        invariant dispatcher.Faithful(acc.artifacts) && dispatcher.callsBefore == old(dispatcher.callsBefore)
      {
        iterations := iterations + 1;
        var choice := Iterate(acc, proc, phaseId, currentState, selfLoops, walk);
        if !choice.Take? {
          WalkOnStops(Settings(), proc, phaseId, walk);
          return;
        }
        WalkOnTakes(Settings(), proc, phaseId, walk);
        walk := WalkStep(Settings(), proc, phaseId, walk, choice.hop, choice.selfLoops);
        currentState, selfLoops := choice.hop.t.toState, choice.selfLoops;
      }
    }

    method ShouldSkipProcedure(proc: Procedure) returns (skip: bool)
      ensures skip <==> SkippedByFilter(overlay, proc)
    {
      if overlay.discriminators.None? || proc.discriminators == map[] {
        return false;
      }
      var filter := overlay.discriminators.value;
      var categories := filter.Keys;
      while categories != {}
        invariant categories <= filter.Keys
        invariant forall c :: c in filter && c !in categories && c in proc.discriminators ==>
                                exists v :: v in proc.discriminators[c] && v in filter[c]
      {
        var c :| c in categories;
        categories := categories - {c};
        if c in proc.discriminators {
          var matched := exists v :: v in proc.discriminators[c] && v in filter[c];
          if !matched {
            return true;
          }
        }
      }
      return false;
    }

    method BuildLookup() returns (lookup: map<string, (string, Procedure)>)
      ensures lookup == Lookup(blueprint.phases)
    {
      lookup := map[];
      for i := 0 to |blueprint.phases|
        invariant lookup == Lookup(blueprint.phases[..i])
      {
        var phase := blueprint.phases[i];
        assert blueprint.phases[..i + 1][..i] == blueprint.phases[..i];
        for j := 0 to |phase.procedures|
          invariant lookup == LookupIn(Lookup(blueprint.phases[..i]), phase.id, phase.procedures[..j])
        {
          assert phase.procedures[..j + 1][..j] == phase.procedures[..j];
          lookup := lookup[phase.procedures[j].id := (phase.id, phase.procedures[j])];
        }
        assert phase.procedures[..|phase.procedures|] == phase.procedures;
      }
      assert blueprint.phases[..|blueprint.phases|] == blueprint.phases;
    }

    method RunInOrder(acc: RunAccum, lookup: map<string, (string, Procedure)>, order: seq<string>)
      requires dispatcher.Faithful(acc.artifacts)
      modifies this, acc, acc.artifacts, dispatcher
      ensures State(acc) == RunProcedures(Settings(), lookup, order, old(State(acc)))
      ensures dispatcher.Faithful(acc.artifacts) && dispatcher.callsBefore == old(dispatcher.callsBefore)
    {
      for i := 0 to |order|
        invariant State(acc) == RunProcedures(Settings(), lookup, order[..i], old(State(acc)))
        invariant dispatcher.Faithful(acc.artifacts) && dispatcher.callsBefore == old(dispatcher.callsBefore)
      {
        assert order[..i + 1][..i] == order[..i];
        RunListed(acc, lookup, order[i]);
      }
      assert order[..|order|] == order;
    }

    /** Unknown, filtered and machine-less procedures are passed over. */
    method RunListed(acc: RunAccum, lookup: map<string, (string, Procedure)>, id: string)
      requires dispatcher.Faithful(acc.artifacts)
      modifies this, acc, acc.artifacts, dispatcher
      ensures State(acc) == RunProcedure(Settings(), lookup, id, old(State(acc)))
      ensures dispatcher.Faithful(acc.artifacts) && dispatcher.callsBefore == old(dispatcher.callsBefore)
    {
      if id !in lookup {
        return;
      }
      var (phaseId, proc) := lookup[id];
      var skip := ShouldSkipProcedure(proc);
      if skip {
        return;
      }
      if proc.aggregate.initialState == "" || proc.aggregate.states == [] {
        return;
      }
      RunOneProcedure(acc, proc, phaseId);
    }

    /** Sort, walk every procedure in order, and see which phases are completed. */
    method RunEngagement(start: int, keyOrder: seq<string>) returns (r: Result<EngagementResult, SortResult>)
      requires Enumerates(keyOrder, preconditions.Keys)
      modifies this, dispatcher
      ensures var ids := ProcedureIds(blueprint);
              var sorted := SortOutcome(ids, preconditions, keyOrder, KnownGraph(ids, preconditions));
              if sorted.Ordered? then
                var run := RunProcedures(Settings(), Lookup(blueprint.phases), sorted.order,
                                         Run([], map[], map[], map[], [], [], start, old(draws)));
                && r.Ok?
                && RunRules.RunRule(Settings(), blueprint.phases, sorted.order,
                                    Run([], map[], map[], map[], [], [], start, old(draws)), run)
                && r.value.eventLog == run.log && r.value.procedureStates == run.procedureStates
                && r.value.stepCompletions == run.stepCompletions && r.value.evidenceStates == run.evidenceStates
                && r.value.anomalies == run.anomalies && r.value.totalMinutes == run.clock - start
                && r.value.phasesCompleted == Gates.CompletedPhases(blueprint.phases, run.procedureStates)
                && r.value.artifacts ==
                   RunFromEmpty(dispatcher.gens, dispatcher.inventory, old(dispatcher.calls), run.dispatched).bag
              else
                r == Err(sorted)
    {
      var lookup := BuildLookup();
      var sorted := TopologicalSortWithPreconditions(blueprint, preconditions, keyOrder);
      if !sorted.Ordered? {
        return Err(sorted);
      }
      var bag := dispatcher.BeginBag();
      var acc := new RunAccum(bag, start);
      RunInOrder(acc, lookup, sorted.order);
      RunRules.RunFollowsRules(Settings(), blueprint.phases, sorted.order, Run([], map[], map[], map[], [], [], start, old(draws)));
      var completed := Gates.ComputeCompletedPhases(blueprint.phases, acc.procedureStates);
      r := Ok(EngagementResult(
        acc.eventLog, acc.procedureStates, acc.stepCompletions, acc.evidenceStates, acc.anomalies,
        completed, acc.currentTs - start, bag.View()));
    }
  }
}
