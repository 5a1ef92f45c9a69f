/** What a run records: which events a procedure contributes, when they happen, and how the
    anomaly records match the flagged events. */
module RunProperties {
  import opened Wrappers
  import opened Blueprint
  import opened EventLog
  import opened Simulation
  import WalkProperties

  // ----- the effect of each atomic action -----

  ghost predicate Appends(r: Run, r': Run, e: AuditEvent) {
    r'.log == r.log + [e]
  }

  /** One step: a delay, possibly an anomaly record, one event stamped with the new time. */
  ghost predicate StepEffect(proc: Procedure, step: Step, r: Run, r': Run, e: AuditEvent) {
    && Appends(r, r', e)
    && e.procedureId == proc.id && e.stepId == Some(step.id) && e.fromState == None
    && e.timestamp == r'.clock && 6 <= r'.clock - r.clock <= 12000
    && WellFlagged(e)
    && RecordLabels(r'.anomalies) == RecordLabels(r.anomalies) + EventLabel(e)
    && r'.dispatched == r.dispatched + [(step.id, step.command.UnwrapOr(""))]
  }

  /** One transition event, stamped with the current time. */
  ghost predicate MoveEffect(proc: Procedure, from: string, t: Transition, r: Run, r': Run, e: AuditEvent) {
    && Appends(r, r', e)
    && e.procedureId == proc.id && e.stepId == None && e.fromState == Some(from) && e.toState == Some(t.toState)
    && e.timestamp == r.clock && r'.clock == r.clock
    && !e.isAnomaly && WellFlagged(e)
    && r'.anomalies == r.anomalies && r'.dispatched == r.dispatched
  }

  /** A clock advance of `MaxDelay` minutes at most changes nothing that is recorded. */
  ghost predicate DelayEffect(env: Env, r: Run, r': Run) {
    && r'.log == r.log && r'.anomalies == r.anomalies && r'.dispatched == r.dispatched
    && 6 <= r'.clock - r.clock <= MaxDelay(env)
  }

  /** Every delay is a draw from a distribution, and so clamped. */
  ghost predicate AlwaysSampled(env: Env) {
    forall n :: env.tape.delay(n).Sampled?
  }

  /** The mean, which an unusable distribution falls back to, in whole minutes. */
  function MeanMinutes(muHours: real): int {
    (muHours * 60.0).Floor
  }

  /** The clamp at 200 hours; only the fallback can go beyond it, to the mean itself. */
  ghost function MaxDelay(env: Env): int {
    if AlwaysSampled(env) || MeanMinutes(env.overlay.muHours) <= 12000 then 12000 else MeanMinutes(env.overlay.muHours)
  }

  lemma AdvanceTimeEffect(env: Env, r: Run)
    ensures DelayEffect(env, r, AdvanceTime(env, r))
  {
    assert AlwaysSampled(env) ==> env.tape.delay(r.draws).Sampled?;
  }

  lemma MovedEffect(env: Env, proc: Procedure, phaseId: string, from: string, t: Transition, r: Run)
    ensures var r' := Moved(env, proc, phaseId, from, t, r);
            r'.log != [] && MoveEffect(proc, from, t, r, r', r'.log[|r'.log| - 1])
  {}

  lemma ExecuteStepEffect(env: Env, proc: Procedure, phaseId: string, step: Step, r: Run)
    ensures var r' := ExecuteStep(env, proc, phaseId, step, r);
            r'.log != [] && StepEffect(proc, step, r, r', r'.log[|r'.log| - 1])
  {}

  // ----- what a log contains -----

  /** The transitions recorded, in order. */
  ghost function Moves(log: seq<AuditEvent>): seq<(string, string)> {
    if log == [] then []
    else
      var e := log[|log| - 1];
      Moves(log[..|log| - 1]) + if e.fromState.Some? && e.toState.Some? then [(e.fromState.value, e.toState.value)] else []
  }

  /** The steps recorded, in order. */
  ghost function StepIds(log: seq<AuditEvent>): seq<string> {
    if log == [] then []
    else
      var e := log[|log| - 1];
      StepIds(log[..|log| - 1]) + if e.stepId.Some? then [e.stepId.value] else []
  }

  ghost function StepNames(steps: seq<Step>): seq<string> {
    seq(|steps|, i requires 0 <= i < |steps| => steps[i].id)
  }

  ghost function Repeat(names: seq<string>, n: nat): seq<string> {
    if n == 0 then [] else Repeat(names, n - 1) + names
  }

  /** How often the steps of the procedure are run along a trace. */
  ghost function WorkRuns(agg: Aggregate, trace: seq<Hop>): nat {
    if trace == [] then 0
    else
      var t := trace[|trace| - 1].t;
      WorkRuns(agg, trace[..|trace| - 1]) + if RunsSteps(agg, t.fromState, t.toState) then 1 else 0
  }

  ghost function HopPairs(trace: seq<Hop>): seq<(string, string)> {
    seq(|trace|, i requires 0 <= i < |trace| => (trace[i].t.fromState, trace[i].t.toState))
  }

  /** `r` continues `base` by events of procedure `id` only. */
  ghost predicate Extends(base: Run, r: Run, id: string) {
    && |base.log| <= |r.log| && r.log[..|base.log|] == base.log
    && forall i :: |base.log| <= i < |r.log| ==> r.log[i].procedureId == id
  }

  /** The block of events a procedure has contributed since `base`: its transitions are the
      trace, its step events are all its steps, over and over, once per run of the steps. */
  ghost predicate Block(base: Run, r: Run, proc: Procedure, moves: seq<(string, string)>, stepIds: seq<string>) {
    && Extends(base, r, proc.id)
    && Moves(r.log) == Moves(base.log) + moves
    && StepIds(r.log) == StepIds(base.log) + stepIds
  }

  lemma BlockStep(base: Run, r: Run, r': Run, proc: Procedure, step: Step, e: AuditEvent, moves: seq<(string, string)>, ids: seq<string>)
    requires Block(base, r, proc, moves, ids) && StepEffect(proc, step, r, r', e)
    ensures Block(base, r', proc, moves, ids + [step.id])
  {}

  lemma BlockMove(
    base: Run, r: Run, r': Run, proc: Procedure, from: string, t: Transition, e: AuditEvent,
    moves: seq<(string, string)>, ids: seq<string>)
    requires Block(base, r, proc, moves, ids) && MoveEffect(proc, from, t, r, r', e)
    ensures Block(base, r', proc, moves + [(from, t.toState)], ids)
  {}

  lemma {:induction false} BlockSteps(
    env: Env, base: Run, proc: Procedure, phaseId: string, steps: seq<Step>, r: Run,
    moves: seq<(string, string)>, ids: seq<string>)
    requires Block(base, r, proc, moves, ids)
    ensures Block(base, ExecuteSteps(env, proc, phaseId, steps, r), proc, moves, ids + StepNames(steps))
  {
    hide Block, StepEffect, ExecuteStep;
    if steps == [] {
      assert ids + StepNames(steps) == ids;
    } else {
      var front, step := steps[..|steps| - 1], steps[|steps| - 1];
      var mid := ExecuteSteps(env, proc, phaseId, front, r);
      BlockSteps(env, base, proc, phaseId, front, r, moves, ids);
      ExecuteStepEffect(env, proc, phaseId, step, mid);
      var r' := ExecuteStep(env, proc, phaseId, step, mid);
      BlockStep(base, mid, r', proc, step, r'.log[|r'.log| - 1], moves, ids + StepNames(front));
      assert ids + StepNames(front) + [step.id] == ids + StepNames(steps);
    }
  }

  lemma BlockTake(
    env: Env, base: Run, proc: Procedure, phaseId: string, from: string, t: Transition, r: Run,
    moves: seq<(string, string)>, ids: seq<string>)
    requires Block(base, r, proc, moves, ids)
    ensures Block(base, TakeTransition(env, proc, phaseId, from, t, r), proc, moves + [(from, t.toState)],
                  if RunsSteps(proc.aggregate, from, t.toState) then ids + StepNames(proc.steps) else ids)
  {
    var r1 := Moved(env, proc, phaseId, from, t, r);
    MovedEffect(env, proc, phaseId, from, t, r);
    BlockMove(base, r, r1, proc, from, t, r1.log[|r1.log| - 1], moves, ids);
    BlockSteps(env, base, proc, phaseId, proc.steps, r1, moves + [(from, t.toState)], ids);
    var r2 := if RunsSteps(proc.aggregate, from, t.toState) then ExecuteSteps(env, proc, phaseId, proc.steps, r1) else r1;
    AdvanceTimeEffect(env, r2);
  }

  ghost predicate WalkBlock(base: Run, proc: Procedure, w: Walk) {
    Block(base, w.run, proc, HopPairs(w.trace), Repeat(StepNames(proc.steps), WorkRuns(proc.aggregate, w.trace)))
  }

  lemma TracePush(proc: Procedure, trace: seq<Hop>, hop: Hop)
    ensures HopPairs(trace + [hop]) == HopPairs(trace) + [(hop.t.fromState, hop.t.toState)]
    ensures WorkRuns(proc.aggregate, trace + [hop]) ==
            WorkRuns(proc.aggregate, trace) + if RunsSteps(proc.aggregate, hop.t.fromState, hop.t.toState) then 1 else 0
  {}

  lemma WalkBlockStep(env: Env, base: Run, proc: Procedure, phaseId: string, w: Walk)
    requires WalkBlock(base, proc, w) && WalkChoice(env, proc, w).Take?
    ensures var c := WalkChoice(env, proc, w);
            WalkBlock(base, proc, WalkStep(env, proc, phaseId, w, c.hop, c.selfLoops))
  {
    var hop := WalkChoice(env, proc, w).hop;
    WalkProperties.ChooseFacts(env, proc.aggregate, w.current, w.selfLoops, w.run.draws);
    WalkBlockTake(env, base, proc, phaseId, w, hop, WalkChoice(env, proc, w).selfLoops);
  }

  lemma WalkBlockTake(env: Env, base: Run, proc: Procedure, phaseId: string, w: Walk, hop: Hop, selfLoops: nat)
    requires WalkBlock(base, proc, w) && hop.t.fromState == w.current
    ensures WalkBlock(base, proc, WalkStep(env, proc, phaseId, w, hop, selfLoops))
  {
    BlockTake(env, base, proc, phaseId, w.current, hop.t, Selected(env, proc, w),
              HopPairs(w.trace), Repeat(StepNames(proc.steps), WorkRuns(proc.aggregate, w.trace)));
    TracePush(proc, w.trace, hop);
  }

  lemma {:induction false} WalkOnBlock(env: Env, base: Run, proc: Procedure, phaseId: string, w: Walk)
    requires WalkBlock(base, proc, w)
    ensures WalkBlock(base, proc, WalkOn(env, proc, phaseId, w))
    decreases Limit(env, proc) - |w.trace|
  {
    if |w.trace| < Limit(env, proc) {
      var c := WalkChoice(env, proc, w);
      if c.Take? {
        WalkBlockStep(env, base, proc, phaseId, w);
        WalkOnBlock(env, base, proc, phaseId, WalkStep(env, proc, phaseId, w, c.hop, c.selfLoops));
      }
    }
  }

  /** A procedure contributes one contiguous block, whose transition events spell out its path
      and whose step events number the steps times the entries to the work state and self-loops. */
  lemma ProcedureBlock(env: Env, proc: Procedure, phaseId: string, r: Run)
    ensures WalkBlock(r, proc, WalkProcedure(env, proc, phaseId, r))
  {
    WalkOnBlock(env, r, proc, phaseId, StartWalk(proc, r));
  }

  lemma {:induction false} RepeatLength(names: seq<string>, n: nat)
    ensures |Repeat(names, n)| == n * |names|
  {
    if n == 0 {
    } else {
      RepeatLength(names, n - 1);
      assert n * |names| == (n - 1) * |names| + |names|;
    }
  }

  /** Step events: as many as the procedure has steps, times the entries to the work state and
      the self-loops of its walk. */
  lemma StepAccounting(env: Env, proc: Procedure, phaseId: string, r: Run)
    ensures var w := WalkProcedure(env, proc, phaseId, r);
            |StepIds(w.run.log)| - |StepIds(r.log)| == WorkRuns(proc.aggregate, w.trace) * |proc.steps|
  {
    ProcedureBlock(env, proc, phaseId, r);
    RepeatLength(StepNames(proc.steps), WorkRuns(proc.aggregate, WalkProcedure(env, proc, phaseId, r).trace));
  }

  // ----- time -----

  ghost predicate Spaced(log: seq<AuditEvent>) {
    forall i :: 0 <= i < |log| - 1 ==> log[i].timestamp + 6 <= log[i + 1].timestamp
  }

  /** `n` delays, of at least 6 minutes each, have passed since `start`. */
  ghost predicate Elapsed(env: Env, start: int, clock: int, n: int) {
    6 * n <= clock - start <= MaxDelay(env) * n
  }

  /** Between transitions (`pending` is 0) there have been as many delays as events; right after
      a transition event, and while its steps run, the delay of that transition is still to come. */
  ghost predicate OnTime(env: Env, start: int, r: Run, pending: nat) {
    && pending <= 1
    && Spaced(r.log)
    && Elapsed(env, start, r.clock, |r.log| - pending)
    && (r.log != [] ==> r.log[0].timestamp >= start)
    && (r.log != [] ==> r.log[|r.log| - 1].timestamp + 6 * (1 - pending) <= r.clock)
  }

  lemma TimeMove(env: Env, start: int, proc: Procedure, from: string, t: Transition, r: Run, r': Run, e: AuditEvent)
    requires OnTime(env, start, r, 0) && MoveEffect(proc, from, t, r, r', e)
    ensures OnTime(env, start, r', 1)
  {}

  lemma TimeStep(env: Env, start: int, proc: Procedure, step: Step, r: Run, r': Run, e: AuditEvent)
    requires OnTime(env, start, r, 1) && r.log != [] && StepEffect(proc, step, r, r', e)
    ensures OnTime(env, start, r', 1)
  {}

  lemma TimeDelay(env: Env, start: int, r: Run, r': Run)
    requires OnTime(env, start, r, 1) && DelayEffect(env, r, r')
    ensures OnTime(env, start, r', 0)
  {}

  lemma {:induction false} TimeSteps(env: Env, start: int, proc: Procedure, phaseId: string, steps: seq<Step>, r: Run)
    requires OnTime(env, start, r, 1) && r.log != []
    ensures OnTime(env, start, ExecuteSteps(env, proc, phaseId, steps, r), 1)
    ensures ExecuteSteps(env, proc, phaseId, steps, r).log != []
  {
    if steps == [] {
    } else {
      var step := steps[|steps| - 1];
      var mid := ExecuteSteps(env, proc, phaseId, steps[..|steps| - 1], r);
      TimeSteps(env, start, proc, phaseId, steps[..|steps| - 1], r);
      ExecuteStepEffect(env, proc, phaseId, step, mid);
      var r' := ExecuteStep(env, proc, phaseId, step, mid);
      TimeStep(env, start, proc, step, mid, r', r'.log[|r'.log| - 1]);
    }
  }

  lemma TimeTake(env: Env, start: int, proc: Procedure, phaseId: string, from: string, t: Transition, r: Run)
    requires OnTime(env, start, r, 0)
    ensures OnTime(env, start, TakeTransition(env, proc, phaseId, from, t, r), 0)
  {
    var r1 := Moved(env, proc, phaseId, from, t, r);
    MovedEffect(env, proc, phaseId, from, t, r);
    TimeMove(env, start, proc, from, t, r, r1, r1.log[|r1.log| - 1]);
    TimeSteps(env, start, proc, phaseId, proc.steps, r1);
    var r2 := if RunsSteps(proc.aggregate, from, t.toState) then ExecuteSteps(env, proc, phaseId, proc.steps, r1) else r1;
    AdvanceTimeEffect(env, r2);
    TimeDelay(env, start, r2, AdvanceTime(env, r2));
  }

  // ----- anomalies -----

  /** The records are, one by one and in order, the labels of the flagged events. */
  ghost predicate AnomaliesMatch(r: Run) {
    RecordLabels(r.anomalies) == FlaggedLabels(r.log) && forall e :: e in r.log ==> WellFlagged(e)
  }

  lemma MatchStep(proc: Procedure, step: Step, r: Run, r': Run, e: AuditEvent)
    requires AnomaliesMatch(r) && StepEffect(proc, step, r, r', e)
    ensures AnomaliesMatch(r')
  {}

  lemma MatchMove(proc: Procedure, from: string, t: Transition, r: Run, r': Run, e: AuditEvent)
    requires AnomaliesMatch(r) && MoveEffect(proc, from, t, r, r', e)
    ensures AnomaliesMatch(r')
  {}

  lemma {:induction false} MatchSteps(env: Env, proc: Procedure, phaseId: string, steps: seq<Step>, r: Run)
    requires AnomaliesMatch(r)
    ensures AnomaliesMatch(ExecuteSteps(env, proc, phaseId, steps, r))
  {
    if steps == [] {
    } else {
      var step := steps[|steps| - 1];
      var mid := ExecuteSteps(env, proc, phaseId, steps[..|steps| - 1], r);
      MatchSteps(env, proc, phaseId, steps[..|steps| - 1], r);
      ExecuteStepEffect(env, proc, phaseId, step, mid);
      var r' := ExecuteStep(env, proc, phaseId, step, mid);
      MatchStep(proc, step, mid, r', r'.log[|r'.log| - 1]);
    }
  }

  lemma MatchTake(env: Env, proc: Procedure, phaseId: string, from: string, t: Transition, r: Run)
    requires AnomaliesMatch(r)
    ensures AnomaliesMatch(TakeTransition(env, proc, phaseId, from, t, r))
  {
    var r1 := Moved(env, proc, phaseId, from, t, r);
    MovedEffect(env, proc, phaseId, from, t, r);
    MatchMove(proc, from, t, r, r1, r1.log[|r1.log| - 1]);
    MatchSteps(env, proc, phaseId, proc.steps, r1);
    var r2 := if RunsSteps(proc.aggregate, from, t.toState) then ExecuteSteps(env, proc, phaseId, proc.steps, r1) else r1;
    AdvanceTimeEffect(env, r2);
  }

  // ----- whole walks keep both -----

  ghost predicate Recorded(env: Env, start: int, r: Run) {
    OnTime(env, start, r, 0) && AnomaliesMatch(r)
  }

  lemma {:induction false} WalkOnRecords(env: Env, start: int, proc: Procedure, phaseId: string, w: Walk)
    requires Recorded(env, start, w.run)
    ensures Recorded(env, start, WalkOn(env, proc, phaseId, w).run)
    decreases Limit(env, proc) - |w.trace|
  {
    if |w.trace| < Limit(env, proc) {
      var c := WalkChoice(env, proc, w);
      if c.Take? {
        TimeTake(env, start, proc, phaseId, w.current, c.hop.t, Selected(env, proc, w));
        MatchTake(env, proc, phaseId, w.current, c.hop.t, Selected(env, proc, w));
        WalkOnRecords(env, start, proc, phaseId, WalkStep(env, proc, phaseId, w, c.hop, c.selfLoops));
      }
    }
  }
}
