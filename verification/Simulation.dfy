/** The engagement simulation as a function of the blueprint, the overlay and a tape of random
    draws: each procedure's state machine is walked in turn, emitting events as it goes. */
module Simulation {
  import opened Wrappers
  import Seqs
  import opened Blueprint
  import opened EventLog

  datatype AnomalyConfig = AnomalyConfig(skippedApproval: real, latePosting: real, missingEvidence: real, outOfSequence: real)

  datatype Overlay = Overlay(
    revisionProbability: real,
    muHours: real,
    maxSelfLoops: nat,
    defaultLimit: nat,
    limits: map<string, nat>,
    anomalies: AnomalyConfig,
    discriminators: Option<map<string, seq<string>>>)

  /** A draw from the delay distribution, or the parameters did not give one. */
  datatype DelaySample = Sampled(hours: real) | InvalidDistribution

  /** The n-th draw from the generator, whatever kind of value is asked for. */
  datatype Tape = Tape(roll: nat -> real, bytes: nat -> int, delay: nat -> DelaySample)

  datatype Env = Env(overlay: Overlay, tape: Tape, actors: seq<string>)

  /** The accumulators of a run, the step commands handed to the dispatcher, and the number of draws made. */
  datatype Run = Run(
    log: seq<AuditEvent>,
    procedureStates: map<string, string>,
    stepCompletions: map<string, bool>,
    evidenceStates: map<string, string>,
    anomalies: seq<AnomalyRecord>,
    dispatched: seq<(string, string)>,
    clock: int,
    draws: nat)

  // ----- the clock -----

  function DelayHours(sample: DelaySample, mu: real): real {
    match sample
    case Sampled(h) => if h < 0.1 then 0.1 else if h > 200.0 then 200.0 else h
    case InvalidDistribution => if mu < 0.1 then 0.1 else mu
  }

  function DelayMinutes(sample: DelaySample, mu: real): int {
    (DelayHours(sample, mu) * 60.0).Floor
  }

  /** Transitions take hours given by the overlay. */
  function AdvanceTime(env: Env, r: Run): Run {
    r.(clock := r.clock + DelayMinutes(env.tape.delay(r.draws), env.overlay.muHours), draws := r.draws + 1)
  }

  /** Steps take about an hour. */
  function AdvanceStepTime(env: Env, r: Run): Run {
    r.(clock := r.clock + DelayMinutes(env.tape.delay(r.draws), 1.0), draws := r.draws + 1)
  }

  // ----- anomalies -----

  function AnomalyChecks(c: AnomalyConfig): seq<(real, AnomalyType, Severity)> {
    [(c.skippedApproval, SkippedApproval, High), (c.latePosting, LatePosting, Medium),
     (c.missingEvidence, MissingEvidence, High), (c.outOfSequence, OutOfSequence, Medium)]
  }

  /** Roll for each kind in turn; the first hit draws an id and ends the checks. */
  function FindAnomaly(tape: Tape, checks: seq<(real, AnomalyType, Severity)>, draws: nat)
    : (Option<(AnomalyType, Severity, int)>, nat)
  {
    if checks == [] then (None, draws)
    else if tape.roll(draws) < checks[0].0 then (Some((checks[0].1, checks[0].2, tape.bytes(draws + 1))), draws + 2)
    else
      FindAnomaly(tape, checks[1..], draws + 1)
  }

  function RecordAnomaly(
    r: Run, found: Option<(AnomalyType, Severity, int)>, draws: nat, procedureId: string, stepId: string): Run
  {
    match found
    case None => r.(draws := draws)
    case Some(a) =>
      r.(anomalies := r.anomalies + [AnomalyRecord(a.2, a.0, a.1, procedureId, Some(stepId), r.clock)], draws := draws)
  }

  // ----- steps -----

  function TemplateRefs(evidence: seq<StepEvidence>): seq<string> {
    if evidence == [] then []
    else
      var e := evidence[|evidence| - 1];
      TemplateRefs(evidence[..|evidence| - 1]) + if e.templateRef.Some? then [e.templateRef.value] else []
  }

  function EvidenceStates(states: map<string, string>, evidence: seq<StepEvidence>): map<string, string> {
    if evidence == [] then states
    else
      var e := evidence[|evidence| - 1];
      var before := EvidenceStates(states, evidence[..|evidence| - 1]);
      if e.templateRef.Some? then before[e.templateRef.value := e.direction] else before
  }

  function StepEvent(
    proc: Procedure, phaseId: string, step: Step, anomaly: Option<AnomalyType>, clock: int, id: int): AuditEvent
  {
    AuditEvent(id, clock, "procedure_step", proc.id, Some(step.id), phaseId, None, None,
               step.actor.UnwrapOr("audit_staff"), step.command.UnwrapOr("execute_" + step.id),
               TemplateRefs(step.evidence), step.standards, anomaly.Some?, anomaly)
  }

  function AnomalyKind(found: Option<(AnomalyType, Severity, int)>): Option<AnomalyType> {
    match found
    case None => None
    case Some(a) => Some(a.0)
  }

  /** The event is stamped and numbered after the delay and the anomaly checks. */
  function EmitStep(env: Env, proc: Procedure, phaseId: string, step: Step, r: Run): Run {
    var r1 := AdvanceStepTime(env, r);
    var (found, draws) := FindAnomaly(env.tape, AnomalyChecks(env.overlay.anomalies), r1.draws);
    var r2 := RecordAnomaly(r1, found, draws, proc.id, step.id);
    r2.(log := r2.log + [StepEvent(proc, phaseId, step, AnomalyKind(found), r2.clock, env.tape.bytes(draws))],
    draws := draws + 1)
  }

  function CompleteStep(step: Step, r: Run): Run {
    r.(evidenceStates := EvidenceStates(r.evidenceStates, step.evidence),
    dispatched := r.dispatched + [(step.id, step.command.UnwrapOr(""))],
    stepCompletions := r.stepCompletions[step.id := true])
  }

  function ExecuteStep(env: Env, proc: Procedure, phaseId: string, step: Step, r: Run): Run {
    CompleteStep(step, EmitStep(env, proc, phaseId, step, r))
  }

  function ExecuteSteps(env: Env, proc: Procedure, phaseId: string, steps: seq<Step>, r: Run): Run {
    if steps == [] then r
    else
      ExecuteStep(env, proc, phaseId, steps[|steps| - 1], ExecuteSteps(env, proc, phaseId, steps[..|steps| - 1], r))
  }

  // ----- choosing a transition -----

  function Outgoing(agg: Aggregate, state: string): seq<Transition> {
    Seqs.Filter((t: Transition) => t.fromState == state, agg.transitions)
  }

  /** `position(..).unwrap_or(0)`. */
  function Position(states: seq<string>, s: string): nat {
    if s in states then IndexOf(states, s) else 0
  }

  function IndexOf(states: seq<string>, s: string): (i: nat)
    requires s in states
    ensures i < |states| && states[i] == s && s !in states[..i]
  {
    if states[0] == s then 0
    else
      assert states == [states[0]] + states[1..];
      IndexOf(states[1..], s) + 1
  }

  function IsLoop(t: Transition): bool {
    t.fromState == t.toState
  }

  function IsForward(states: seq<string>, t: Transition, from: nat): bool {
    Position(states, t.toState) > from
  }

  function FindForward(states: seq<string>, ts: seq<Transition>, from: nat): Option<Transition> {
    if ts == [] then None
    else if IsForward(states, ts[0], from) then Some(ts[0])
    else
      FindForward(states, ts[1..], from)
  }

  function FindBackward(states: seq<string>, ts: seq<Transition>, from: nat): Option<Transition> {
    if ts == [] then None
    else if !IsForward(states, ts[0], from) then Some(ts[0])
    else
      FindBackward(states, ts[1..], from)
  }

  /** The transition chosen, and whether a roll fell below the revision probability. */
  function SelectTransition(env: Env, states: seq<string>, outgoing: seq<Transition>, draws: nat): (Transition, bool)
    requires outgoing != []
  {
    if |outgoing| == 1 then (outgoing[0], false)
    else
      var below := env.tape.roll(draws) < env.overlay.revisionProbability;
      var from := Position(states, outgoing[0].fromState);
      var backward := FindBackward(states, outgoing, from);
      if below && backward.Some? then (backward.value, below)
      else
        (FindForward(states, outgoing, from).UnwrapOr(outgoing[0]), below)
  }

  function SelectDraws(outgoing: seq<Transition>): nat {
    if |outgoing| == 1 then 0 else 1
  }

  function FindNonLoop(ts: seq<Transition>): Option<Transition> {
    if ts == [] then None else if !IsLoop(ts[0]) then Some(ts[0]) else FindNonLoop(ts[1..])
  }

  /** A transition taken in a walk. */
  datatype Hop = Hop(t: Transition, below: bool)

  datatype Choice =
    | Terminal
    | OnlyLoops
    | Take(hop: Hop, selfLoops: nat)

  /** Select, then bound consecutive self-loops by forcing the first transition that leaves. */
  function Choose(env: Env, agg: Aggregate, state: string, selfLoops: nat, draws: nat): Choice {
    var outgoing := Outgoing(agg, state);
    if outgoing == [] then Terminal
    else
      var (t, below) := SelectTransition(env, agg.states, outgoing, draws);
      if !IsLoop(t) then Take(Hop(t, below), 0)
      else if selfLoops + 1 < env.overlay.maxSelfLoops then Take(Hop(t, below), selfLoops + 1)
      else
        match FindNonLoop(outgoing)
        case Some(leaving) => Take(Hop(leaving, below), 0)
        case None => OnlyLoops
  }

  // ----- walking one procedure -----

  function Contains(s: string, sub: string): bool {
    if sub <= s then true else if s == [] then false else Contains(s[1..], sub)
  }

  function SelectActor(env: Env, t: Transition, steps: seq<Step>): string {
    var cmd := t.command.UnwrapOr("");
    if Contains(cmd, "approve") || Contains(cmd, "issue")
    then if env.actors != [] then env.actors[0] else "engagement_partner"
    else if steps != [] && steps[0].actor.Some?
    then steps[0].actor.value
    else if env.actors != [] then env.actors[|env.actors| - 1] else "audit_staff"
  }

  function TransitionEvent(env: Env, proc: Procedure, phaseId: string, from: string, t: Transition, clock: int, id: int)
    : AuditEvent
  {
    AuditEvent(id, clock, "state_transition", proc.id, None, phaseId, Some(from), Some(t.toState),
               SelectActor(env, t, proc.steps), t.command.UnwrapOr("transition"), [], [], false, None)
  }

  function WorkState(agg: Aggregate): string {
    if |agg.states| > 1 then agg.states[1] else "in_progress"
  }

  /** Steps run on entry to the work state and on every self-loop. */
  predicate RunsSteps(agg: Aggregate, from: string, to: string) {
    (to == WorkState(agg) && from != WorkState(agg)) || from == to
  }

  function Moved(env: Env, proc: Procedure, phaseId: string, from: string, t: Transition, r: Run): Run {
    var event := TransitionEvent(env, proc, phaseId, from, t, r.clock, env.tape.bytes(r.draws));
    r.(log := r.log + [event], procedureStates := r.procedureStates[proc.id := t.toState], draws := r.draws + 1)
  }

  function TakeTransition(env: Env, proc: Procedure, phaseId: string, from: string, t: Transition, r: Run): Run {
    var r1 := Moved(env, proc, phaseId, from, t, r);
    var r2 := if RunsSteps(proc.aggregate, from, t.toState) then ExecuteSteps(env, proc, phaseId, proc.steps, r1) else r1;
    AdvanceTime(env, r2)
  }

  /** A walk in progress; `trace` lists the transitions taken, one per iteration. */
  datatype Walk = Walk(current: string, selfLoops: nat, trace: seq<Hop>, run: Run)

  function Limit(env: Env, proc: Procedure): nat {
    if proc.id in env.overlay.limits then env.overlay.limits[proc.id] else env.overlay.defaultLimit
  }

  function WalkChoice(env: Env, proc: Procedure, w: Walk): Choice {
    Choose(env, proc.aggregate, w.current, w.selfLoops, w.run.draws)
  }

  /** The draws made by selecting, whether or not a transition results. */
  function Selected(env: Env, proc: Procedure, w: Walk): Run {
    var outgoing := Outgoing(proc.aggregate, w.current);
    w.run.(draws := w.run.draws + if outgoing == [] then 0 else SelectDraws(outgoing))
  }

  function WalkStep(env: Env, proc: Procedure, phaseId: string, w: Walk, hop: Hop, selfLoops: nat): Walk {
    Walk(hop.t.toState, selfLoops, w.trace + [hop],
         TakeTransition(env, proc, phaseId, w.current, hop.t, Selected(env, proc, w)))
  }

  function WalkOn(env: Env, proc: Procedure, phaseId: string, w: Walk): Walk
    decreases Limit(env, proc) - |w.trace|
  {
    if |w.trace| >= Limit(env, proc) then w
    else
      match WalkChoice(env, proc, w)
      case Terminal => w
      case OnlyLoops => w.(run := Selected(env, proc, w))
      case Take(hop, selfLoops) => WalkOn(env, proc, phaseId, WalkStep(env, proc, phaseId, w, hop, selfLoops))
  }

  lemma WalkOnTakes(env: Env, proc: Procedure, phaseId: string, w: Walk)
    requires |w.trace| < Limit(env, proc) && WalkChoice(env, proc, w).Take?
    ensures var c := WalkChoice(env, proc, w);
            WalkOn(env, proc, phaseId, w) == WalkOn(env, proc, phaseId, WalkStep(env, proc, phaseId, w, c.hop, c.selfLoops))
  {}

  lemma WalkOnStops(env: Env, proc: Procedure, phaseId: string, w: Walk)
    requires |w.trace| >= Limit(env, proc) || !WalkChoice(env, proc, w).Take?
    ensures WalkOn(env, proc, phaseId, w).run == if |w.trace| >= Limit(env, proc) then w.run else Selected(env, proc, w)
  {}

  function StartWalk(proc: Procedure, r: Run): Walk {
    var initial := proc.aggregate.initialState;
    Walk(initial, 0, [], r.(procedureStates := r.procedureStates[proc.id := initial]))
  }

  function WalkProcedure(env: Env, proc: Procedure, phaseId: string, r: Run): Walk {
    WalkOn(env, proc, phaseId, StartWalk(proc, r))
  }

  // ----- the whole engagement -----

  /** A category both sides name, with no value in common, excludes the procedure. */
  ghost predicate SkippedByFilter(overlay: Overlay, proc: Procedure) {
    overlay.discriminators.Some? && proc.discriminators != map[] &&
    exists c :: c in overlay.discriminators.value && c in proc.discriminators &&
                forall v :: v in proc.discriminators[c] ==> v !in overlay.discriminators.value[c]
  }

  ghost predicate Walked(overlay: Overlay, proc: Procedure) {
    && !SkippedByFilter(overlay, proc)
    && proc.aggregate.initialState != "" && proc.aggregate.states != []
  }

  /** Procedure id to phase id and procedure; a later entry replaces an earlier one. */
  function Lookup(phases: seq<Phase>): map<string, (string, Procedure)> {
    if phases == [] then map[]
    else
      LookupIn(Lookup(phases[..|phases| - 1]), phases[|phases| - 1].id, phases[|phases| - 1].procedures)
  }

  function LookupIn(m: map<string, (string, Procedure)>, phaseId: string, procs: seq<Procedure>)
    : map<string, (string, Procedure)>
  {
    if procs == [] then m
    else
      LookupIn(m, phaseId, procs[..|procs| - 1])[procs[|procs| - 1].id := (phaseId, procs[|procs| - 1])]
  }

  ghost function RunProcedure(env: Env, lookup: map<string, (string, Procedure)>, id: string, r: Run): Run {
    if id in lookup && Walked(env.overlay, lookup[id].1)
    then WalkProcedure(env, lookup[id].1, lookup[id].0, r).run
    else r
  }

  ghost function RunProcedures(env: Env, lookup: map<string, (string, Procedure)>, order: seq<string>, r: Run): Run {
    if order == [] then r
    else
      RunProcedure(env, lookup, order[|order| - 1], RunProcedures(env, lookup, order[..|order| - 1], r))
  }
}
