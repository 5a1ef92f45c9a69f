/** The rules a run follows, written by index and by field, without the functions that compute
    it: which transition is taken on which roll, what each event says, which steps run, when the
    clock moves and which draw decides what. */
module RunRules {
  import opened Wrappers
  import Seqs
  import opened Blueprint
  import opened EventLog
  import opened Simulation
  import WalkProperties

  // ----- which transition is selected -----

  /** `s` first occurs at `p`; a state that is not listed stands at 0. */
  ghost predicate StandsAt(states: seq<string>, s: string, p: nat) {
    if s in states then p < |states| && states[p] == s && s !in states[..p] else p == 0
  }

  /** The target stands later than the source. */
  ghost predicate Later(states: seq<string>, t: Transition) {
    exists p: nat, q: nat :: StandsAt(states, t.toState, p) && StandsAt(states, t.fromState, q) && p > q
  }

  /** The first of `ts` that leads forward, or the first that does not. */
  ghost predicate FirstLeading(states: seq<string>, ts: seq<Transition>, forward: bool, t: Transition) {
    exists i :: 0 <= i < |ts| && t == ts[i] && Later(states, t) == forward
                && forall j :: 0 <= j < i ==> Later(states, ts[j]) != forward
  }

  /** A single transition is taken without a roll. Otherwise a low roll goes back if anything
      leads back; the rest go forward, and to the first listed if nothing leads forward. */
  ghost predicate SelectionRule(
    env: Env, states: seq<string>, outgoing: seq<Transition>, draw: nat, t: Transition, below: bool)
  {
    if |outgoing| == 1 then t == outgoing[0] && !below
    else
      && below == (env.tape.roll(draw) < env.overlay.revisionProbability)
      && if below && exists u :: u in outgoing && !Later(states, u) then FirstLeading(states, outgoing, false, t)
         else if exists u :: u in outgoing && Later(states, u) then FirstLeading(states, outgoing, true, t)
         else |outgoing| > 0 && t == outgoing[0]
  }

  lemma PositionStands(states: seq<string>, s: string, p: nat)
    ensures StandsAt(states, s, p) <==> p == Position(states, s)
  {
    if s in states {
      var q := IndexOf(states, s);
      assert forall k :: 0 <= k < q ==> states[k] == states[..q][k];
      assert p <= |states| ==> forall k :: 0 <= k < p ==> states[k] == states[..p][k];
    }
  }

  lemma LaterIsForward(states: seq<string>, t: Transition)
    ensures Later(states, t) <==> IsForward(states, t, Position(states, t.fromState))
  {
    PositionStands(states, t.toState, Position(states, t.toState));
    PositionStands(states, t.fromState, Position(states, t.fromState));
    forall p: nat, q: nat | StandsAt(states, t.toState, p) && StandsAt(states, t.fromState, q)
      ensures p == Position(states, t.toState) && q == Position(states, t.fromState)
    {
      PositionStands(states, t.toState, p);
      PositionStands(states, t.fromState, q);
    }
  }

  lemma FirstOfTail(states: seq<string>, ts: seq<Transition>, forward: bool, t: Transition)
    requires ts != [] && Later(states, ts[0]) != forward && FirstLeading(states, ts[1..], forward, t)
    ensures FirstLeading(states, ts, forward, t)
  {
    var i :| 0 <= i < |ts[1..]| && t == ts[1..][i] && Later(states, t) == forward
             && forall j :: 0 <= j < i ==> Later(states, ts[1..][j]) != forward;
    assert t == ts[i + 1];
    forall j | 0 <= j < i + 1 ensures Later(states, ts[j]) != forward {
      assert j > 0 ==> ts[j] == ts[1..][j - 1];
    }
  }

  lemma {:induction false} ForwardIsFirst(states: seq<string>, ts: seq<Transition>, s: string)
    requires forall u :: u in ts ==> u.fromState == s
    ensures match FindForward(states, ts, Position(states, s))
            case Some(t) => t in ts && FirstLeading(states, ts, true, t)
            case None => forall u :: u in ts ==> !Later(states, u)
  {
    if ts == [] {
    } else {
      assert ts == [ts[0]] + ts[1..];
      LaterIsForward(states, ts[0]);
      ForwardIsFirst(states, ts[1..], s);
      if !Later(states, ts[0]) && FindForward(states, ts[1..], Position(states, s)).Some? {
        FirstOfTail(states, ts, true, FindForward(states, ts[1..], Position(states, s)).value);
      }
    }
  }

  lemma {:induction false} BackwardIsFirst(states: seq<string>, ts: seq<Transition>, s: string)
    requires forall u :: u in ts ==> u.fromState == s
    ensures match FindBackward(states, ts, Position(states, s))
            case Some(t) => t in ts && FirstLeading(states, ts, false, t)
            case None => forall u :: u in ts ==> Later(states, u)
  {
    if ts == [] {
    } else {
      assert ts == [ts[0]] + ts[1..];
      LaterIsForward(states, ts[0]);
      BackwardIsFirst(states, ts[1..], s);
      if Later(states, ts[0]) && FindBackward(states, ts[1..], Position(states, s)).Some? {
        FirstOfTail(states, ts, false, FindBackward(states, ts[1..], Position(states, s)).value);
      }
    }
  }

  lemma SelectionFollowsRule(env: Env, states: seq<string>, outgoing: seq<Transition>, draw: nat)
    requires outgoing != [] && forall u :: u in outgoing ==> u.fromState == outgoing[0].fromState
    ensures SelectionRule(env, states, outgoing, draw, SelectTransition(env, states, outgoing, draw).0,
                          SelectTransition(env, states, outgoing, draw).1)
  {
    ForwardIsFirst(states, outgoing, outgoing[0].fromState);
    BackwardIsFirst(states, outgoing, outgoing[0].fromState);
  }

  // ----- which transition is taken -----

  ghost function Leaving(agg: Aggregate, state: string): seq<Transition> {
    Seqs.Filter((t: Transition) => t.fromState == state, agg.transitions)
  }

  ghost predicate FirstLeaving(ts: seq<Transition>, t: Transition) {
    exists i :: 0 <= i < |ts| && t == ts[i] && t.fromState != t.toState
                && forall j :: 0 <= j < i ==> ts[j].fromState == ts[j].toState
  }

  /** The last `n` hops of `trace`, and no more, are self-loops. */
  ghost predicate EndsInLoops(trace: seq<Hop>, n: nat) {
    && n <= |trace|
    && (forall k :: |trace| - n <= k < |trace| ==> trace[k].t.fromState == trace[k].t.toState)
    && (n < |trace| ==> trace[|trace| - n - 1].t.fromState != trace[|trace| - n - 1].t.toState)
  }

  /** One self-loop too many in a row. */
  ghost predicate Exhausted(env: Env, trace: seq<Hop>, t: Transition) {
    t.fromState == t.toState && forall n: nat :: EndsInLoops(trace, n) ==> n + 1 >= env.overlay.maxSelfLoops
  }

  /** What was selected is taken, unless it is one self-loop too many: then the first transition
      out of the state is taken instead. */
  ghost predicate ChoiceRule(env: Env, agg: Aggregate, trace: seq<Hop>, hop: Hop, draw: nat) {
    exists t :: SelectionRule(env, agg.states, Leaving(agg, hop.t.fromState), draw, t, hop.below) &&
                if Exhausted(env, trace, t)
                then FirstLeaving(Leaving(agg, hop.t.fromState), hop.t)
                else hop.t == t
  }

  /** One self-loop too many, and no transition out of the state. */
  ghost predicate Trapped(env: Env, agg: Aggregate, trace: seq<Hop>, state: string, draw: nat) {
    && (forall u :: u in Leaving(agg, state) ==> u.fromState == u.toState)
    && exists t, below :: SelectionRule(env, agg.states, Leaving(agg, state), draw, t, below) && Exhausted(env, trace, t)
  }

  lemma {:induction false} TrailingEnds(trace: seq<Hop>, n: nat)
    ensures EndsInLoops(trace, n) <==> n == WalkProperties.TrailingLoops(trace)
  {
    if trace == [] {
    } else {
      var front, last := trace[..|trace| - 1], trace[|trace| - 1].t;
      if n == 0 {
      } else {
        TrailingEnds(front, n - 1);
        assert EndsInLoops(trace, n) <==> last.fromState == last.toState && EndsInLoops(front, n - 1) by {
          assert forall k :: 0 <= k < |front| ==> front[k] == trace[k];
          assert |trace| - n == |front| - (n - 1);
        }
      }
    }
  }

  lemma ExhaustedIff(env: Env, trace: seq<Hop>, t: Transition)
    ensures Exhausted(env, trace, t) <==> IsLoop(t) && WalkProperties.TrailingLoops(trace) + 1 >= env.overlay.maxSelfLoops
  {
    TrailingEnds(trace, WalkProperties.TrailingLoops(trace));
    forall n: nat | EndsInLoops(trace, n) ensures n == WalkProperties.TrailingLoops(trace) {
      TrailingEnds(trace, n);
    }
  }

  lemma {:induction false} NonLoopIsFirst(ts: seq<Transition>)
    ensures match FindNonLoop(ts)
            case Some(t) => t in ts && FirstLeaving(ts, t)
            case None => forall u :: u in ts ==> u.fromState == u.toState
  {
    if ts == [] {
    } else {
      assert ts == [ts[0]] + ts[1..];
      NonLoopIsFirst(ts[1..]);
      if IsLoop(ts[0]) && FindNonLoop(ts[1..]).Some? {
        LeavingTail(ts, FindNonLoop(ts[1..]).value);
      }
    }
  }

  lemma LeavingTail(ts: seq<Transition>, t: Transition)
    requires ts != [] && IsLoop(ts[0]) && FirstLeaving(ts[1..], t)
    ensures FirstLeaving(ts, t)
  {
    var i :| 0 <= i < |ts[1..]| && t == ts[1..][i] && t.fromState != t.toState
             && forall j :: 0 <= j < i ==> ts[1..][j].fromState == ts[1..][j].toState;
    assert t == ts[i + 1];
    forall j | 0 <= j < i + 1 ensures ts[j].fromState == ts[j].toState {
      assert j > 0 ==> ts[j] == ts[1..][j - 1];
    }
  }

  lemma ChoiceFollowsRule(env: Env, agg: Aggregate, trace: seq<Hop>, state: string, draw: nat)
    ensures var c := Choose(env, agg, state, WalkProperties.TrailingLoops(trace), draw);
            && (c.Terminal? <==> Leaving(agg, state) == [])
            && (c.OnlyLoops? ==> Trapped(env, agg, trace, state, draw))
            && (c.Take? ==> c.hop.t.fromState == state && ChoiceRule(env, agg, trace, c.hop, draw))
  {
    var outgoing := Outgoing(agg, state);
    WalkProperties.OutgoingMembers(agg, state);
    assert outgoing == Leaving(agg, state);
    if outgoing != [] {
      var (t, below) := SelectTransition(env, agg.states, outgoing, draw);
      SelectionFollowsRule(env, agg.states, outgoing, draw);
      WalkProperties.SelectFacts(env, agg.states, outgoing, draw);
      ExhaustedIff(env, trace, t);
      NonLoopIsFirst(outgoing);
    }
  }

  // ----- the clock -----

  /** Whole minutes, from 6 to 12000; without a distribution the mean, but no less than 6 minutes. */
  ghost predicate IsDelay(minutes: int, sample: DelaySample, mean: real) {
    match sample
    case Sampled(hours) =>
      && (hours <= 0.1 ==> minutes == 6)
      && (0.1 < hours < 200.0 ==> minutes as real <= hours * 60.0 < minutes as real + 1.0)
      && (hours >= 200.0 ==> minutes == 12000)
    case InvalidDistribution =>
      && (mean <= 0.1 ==> minutes == 6)
      && (mean > 0.1 ==> minutes as real <= mean * 60.0 < minutes as real + 1.0)
  }

  lemma DelayFollowsRule(sample: DelaySample, mean: real)
    ensures IsDelay(DelayMinutes(sample, mean), sample, mean)
  {}

  // ----- steps -----

  /** The n-th of the four kinds of anomaly, its probability and its severity. */
  ghost predicate IsKind(c: AnomalyConfig, n: nat, probability: real, kind: AnomalyType, severity: Severity) {
    || (n == 0 && probability == c.skippedApproval && kind == SkippedApproval && severity == High)
    || (n == 1 && probability == c.latePosting && kind == LatePosting && severity == Medium)
    || (n == 2 && probability == c.missingEvidence && kind == MissingEvidence && severity == High)
    || (n == 3 && probability == c.outOfSequence && kind == OutOfSequence && severity == Medium)
  }

  /** The rolls from `draw` on for the kinds before the n-th are not below their probabilities. */
  ghost predicate Spared(env: Env, draw: nat, n: nat) {
    forall k, p, kind, severity :: 0 <= k < n && IsKind(env.overlay.anomalies, k, p, kind, severity) ==>
                                     env.tape.roll(draw + k) >= p
  }

  /** The roll for the n-th kind is the first one below its probability. */
  ghost predicate StruckBy(env: Env, draw: nat, n: nat, kind: AnomalyType, severity: Severity) {
    Spared(env, draw, n) && exists p :: IsKind(env.overlay.anomalies, n, p, kind, severity) && env.tape.roll(draw + n) < p
  }

  /** No anomaly after four rolls, or the first kind that struck, recorded under the next draw. */
  ghost predicate AnomalyRule(
    env: Env, proc: Procedure, step: Step, draw: nat, clock: int,
    kind: Option<AnomalyType>, records: seq<AnomalyRecord>, draw': nat)
  {
    match kind
    case None => Spared(env, draw, 4) && records == [] && draw' == draw + 4
    case Some(k) =>
      exists n: nat, severity ::
        && StruckBy(env, draw, n, k, severity)
        && records == [AnomalyRecord(env.tape.bytes(draw + n + 1), k, severity, proc.id, Some(step.id), clock)]
        && draw' == draw + n + 2
  }

  lemma {:induction false} FindAnomalyAt(tape: Tape, checks: seq<(real, AnomalyType, Severity)>, draws: nat)
    ensures var (found, draws') := FindAnomaly(tape, checks, draws);
            var n := if found.None? then |checks| else draws' - draws - 2;
            && 0 <= n <= |checks|
            && (forall k :: 0 <= k < n ==> tape.roll(draws + k) >= checks[k].0)
            && (found.None? ==> draws' == draws + n)
            && (found.Some? ==> n < |checks| && tape.roll(draws + n) < checks[n].0
                                && found.value == (checks[n].1, checks[n].2, tape.bytes(draws + n + 1)))
  {
    if checks == [] || tape.roll(draws) < checks[0].0 {
    } else {
      FindAnomalyAt(tape, checks[1..], draws + 1);
      var (found, draws') := FindAnomaly(tape, checks[1..], draws + 1);
      var n := if found.None? then |checks| else draws' - draws - 2;
      forall k | 0 <= k < n ensures tape.roll(draws + k) >= checks[k].0 {
        assert k > 0 ==> checks[k] == checks[1..][k - 1] && tape.roll(draws + 1 + (k - 1)) >= checks[1..][k - 1].0;
      }
    }
  }

  lemma KindsAreChecks(c: AnomalyConfig, n: nat)
    requires n < 4
    ensures forall p, kind, severity :: IsKind(c, n, p, kind, severity) <==> (p, kind, severity) == AnomalyChecks(c)[n]
  {}

  lemma SparedBy(env: Env, draw: nat, n: nat)
    requires n <= 4 && forall k :: 0 <= k < n ==> env.tape.roll(draw + k) >= AnomalyChecks(env.overlay.anomalies)[k].0
    ensures Spared(env, draw, n)
  {
    forall k, p, kind, severity | 0 <= k < n && IsKind(env.overlay.anomalies, k, p, kind, severity)
      ensures env.tape.roll(draw + k) >= p
    {
      KindsAreChecks(env.overlay.anomalies, k);
    }
  }

  lemma AnomalyFollowsRule(env: Env, proc: Procedure, step: Step, r: Run) returns (records: seq<AnomalyRecord>)
    ensures var (found, draws) := FindAnomaly(env.tape, AnomalyChecks(env.overlay.anomalies), r.draws);
            && RecordAnomaly(r, found, draws, proc.id, step.id) == r.(anomalies := r.anomalies + records, draws := draws)
            && AnomalyRule(env, proc, step, r.draws, r.clock, AnomalyKind(found), records, draws)
  {
    var checks := AnomalyChecks(env.overlay.anomalies);
    var (found, draws) := FindAnomaly(env.tape, checks, r.draws);
    FindAnomalyAt(env.tape, checks, r.draws);
    match found
    case None =>
      records := [];
      SparedBy(env, r.draws, 4);
      assert r.anomalies + [] == r.anomalies;
    case Some(a) =>
      var n: nat := draws - r.draws - 2;
      SparedBy(env, r.draws, n);
      KindsAreChecks(env.overlay.anomalies, n);
      assert StruckBy(env, r.draws, n, a.0, a.1);
      records := [AnomalyRecord(a.2, a.0, a.1, proc.id, Some(step.id), r.clock)];
  }

  /** `before` with every template of the step set to the direction it is last listed with. */
  ghost predicate EvidenceRule(before: map<string, string>, evidence: seq<StepEvidence>, after: map<string, string>) {
    && (forall k :: k in after <==> k in before || Uses(evidence, k))
    && (forall k :: k in before && !Uses(evidence, k) ==> k in after && after[k] == before[k])
    && (forall i, k :: LastUse(evidence, i, k) ==> k in after && after[k] == evidence[i].direction)
  }

  ghost predicate Uses(evidence: seq<StepEvidence>, k: string) {
    exists i :: 0 <= i < |evidence| && evidence[i].templateRef == Some(k)
  }

  ghost predicate LastUse(evidence: seq<StepEvidence>, i: int, k: string) {
    && 0 <= i < |evidence| && evidence[i].templateRef == Some(k)
    && forall j :: i < j < |evidence| ==> evidence[j].templateRef != Some(k)
  }

  lemma {:induction false} EvidenceFollowsRule(before: map<string, string>, evidence: seq<StepEvidence>)
    ensures EvidenceRule(before, evidence, EvidenceStates(before, evidence))
  {
    if evidence == [] {
    } else {
      var front, e := evidence[..|evidence| - 1], evidence[|evidence| - 1];
      EvidenceFollowsRule(before, front);
      forall k ensures Uses(evidence, k) <==> Uses(front, k) || e.templateRef == Some(k) {
        UsesLast(evidence, k);
      }
      var after := EvidenceStates(before, evidence);
      forall i, k | LastUse(evidence, i, k) ensures k in after && after[k] == evidence[i].direction {
        if i < |front| {
          assert evidence[|front|].templateRef != Some(k);
          assert LastUse(front, i, k);
        }
      }
    }
  }

  lemma UsesLast(evidence: seq<StepEvidence>, k: string)
    requires evidence != []
    ensures Uses(evidence, k) <==> Uses(evidence[..|evidence| - 1], k) || evidence[|evidence| - 1].templateRef == Some(k)
  {
    var front := evidence[..|evidence| - 1];
    if Uses(front, k) {
      var i :| 0 <= i < |front| && front[i].templateRef == Some(k);
      assert evidence[i].templateRef == Some(k);
    }
  }

  /** At most one reference each, for the evidence that names a template. */
  ghost function RefLists(evidence: seq<StepEvidence>): seq<seq<string>> {
    seq(|evidence|, i requires 0 <= i < |evidence| =>
      if evidence[i].templateRef.Some? then [evidence[i].templateRef.value] else [])
  }

  lemma {:induction false} RefsFollowRule(evidence: seq<StepEvidence>)
    ensures Seqs.Joins(TemplateRefs(evidence), RefLists(evidence))
  {
    if evidence == [] {
    } else {
      var front, e := evidence[..|evidence| - 1], evidence[|evidence| - 1];
      var last := if e.templateRef.Some? then [e.templateRef.value] else [];
      RefsFollowRule(front);
      Seqs.JoinsPush(TemplateRefs(front), RefLists(front), last);
      assert RefLists(evidence) == RefLists(front) + [last];
    }
  }

  function OrElse(o: Option<string>, default: string): string {
    if o.Some? then o.value else default
  }

  /** What a step leaves behind, given its delay, its anomaly and the draw its event is numbered by. */
  ghost predicate StepLeaves(
    env: Env, proc: Procedure, phaseId: string, step: Step, r: Run, r': Run,
    minutes: int, kind: Option<AnomalyType>, records: seq<AnomalyRecord>, draw: nat, refs: seq<string>)
  {
    && IsDelay(minutes, env.tape.delay(r.draws), 1.0)
    && AnomalyRule(env, proc, step, r.draws + 1, r.clock + minutes, kind, records, draw)
    && Seqs.Joins(refs, RefLists(step.evidence))
    && EvidenceRule(r.evidenceStates, step.evidence, r'.evidenceStates)
    && r'.log == r.log + [AuditEvent(
       env.tape.bytes(draw), r.clock + minutes, "procedure_step", proc.id, Some(step.id), phaseId, None, None,
       OrElse(step.actor, "audit_staff"), OrElse(step.command, "execute_" + step.id),
       refs, step.standards, kind.Some?, kind)]
    && r'.procedureStates == r.procedureStates
    && r'.stepCompletions == r.stepCompletions[step.id := true]
    && r'.anomalies == r.anomalies + records
    && r'.dispatched == r.dispatched + [(step.id, OrElse(step.command, ""))]
    && r'.clock == r.clock + minutes
    && r'.draws == draw + 1
  }

  ghost predicate StepRule(env: Env, proc: Procedure, phaseId: string, step: Step, r: Run, r': Run) {
    exists minutes, kind, records, draw, refs ::
      StepLeaves(env, proc, phaseId, step, r, r', minutes, kind, records, draw, refs)
  }

  lemma StepFollowsRule(env: Env, proc: Procedure, phaseId: string, step: Step, r: Run)
    ensures StepRule(env, proc, phaseId, step, r, ExecuteStep(env, proc, phaseId, step, r))
  {
    var r1 := AdvanceStepTime(env, r);
    var (found, draws) := FindAnomaly(env.tape, AnomalyChecks(env.overlay.anomalies), r1.draws);
    DelayFollowsRule(env.tape.delay(r.draws), 1.0);
    var records := AnomalyFollowsRule(env, proc, step, r1);
    EvidenceFollowsRule(r.evidenceStates, step.evidence);
    RefsFollowRule(step.evidence);
    assert StepLeaves(env, proc, phaseId, step, r, ExecuteStep(env, proc, phaseId, step, r),
                      r1.clock - r.clock, AnomalyKind(found), records, draws, TemplateRefs(step.evidence));
  }

  ghost predicate StepsAlong(env: Env, proc: Procedure, phaseId: string, steps: seq<Step>, runs: seq<Run>) {
    && |runs| == |steps| + 1
    && forall i :: 0 <= i < |steps| ==> StepRule(env, proc, phaseId, steps[i], runs[i], runs[i + 1])
  }

  /** The steps one after the other. */
  ghost predicate StepsRule(env: Env, proc: Procedure, phaseId: string, steps: seq<Step>, r: Run, r': Run) {
    exists runs :: StepsAlong(env, proc, phaseId, steps, runs) && runs[0] == r && runs[|steps|] == r'
  }

  lemma {:induction false} StepsFollowRule(env: Env, proc: Procedure, phaseId: string, steps: seq<Step>, r: Run)
    ensures StepsRule(env, proc, phaseId, steps, r, ExecuteSteps(env, proc, phaseId, steps, r))
  {
    if steps == [] {
      assert StepsAlong(env, proc, phaseId, steps, [r]);
    } else {
      var front, step := steps[..|steps| - 1], steps[|steps| - 1];
      var mid := ExecuteSteps(env, proc, phaseId, front, r);
      StepsFollowRule(env, proc, phaseId, front, r);
      StepFollowsRule(env, proc, phaseId, step, mid);
      var runs :| StepsAlong(env, proc, phaseId, front, runs) && runs[0] == r && runs[|front|] == mid;
      StepsPush(env, proc, phaseId, steps, runs, ExecuteStep(env, proc, phaseId, step, mid));
    }
  }

  lemma StepsPush(env: Env, proc: Procedure, phaseId: string, steps: seq<Step>, runs: seq<Run>, last: Run)
    requires steps != [] && StepsAlong(env, proc, phaseId, steps[..|steps| - 1], runs)
    requires StepRule(env, proc, phaseId, steps[|steps| - 1], runs[|steps| - 1], last)
    ensures StepsAlong(env, proc, phaseId, steps, runs + [last])
  {
    forall i | 0 <= i < |steps| ensures StepRule(env, proc, phaseId, steps[i], (runs + [last])[i], (runs + [last])[i + 1]) {
      if i < |steps| - 1 {
        assert steps[..|steps| - 1][i] == steps[i];
      }
    }
  }

  // ----- transitions -----

  ghost predicate Mentions(s: string, word: string) {
    exists i :: 0 <= i <= |s| && word <= s[i..]
  }

  lemma {:induction false} ContainsMeansMentions(s: string, word: string)
    ensures Contains(s, word) <==> Mentions(s, word)
  {
    assert s[0..] == s;
    if word <= s || s == [] {
    } else {
      ContainsMeansMentions(s[1..], word);
      assert forall i :: 0 <= i <= |s[1..]| ==> s[1..][i..] == s[i + 1..];
      assert forall i :: 1 <= i <= |s| ==> s[i..] == s[1..][i - 1..];
    }
  }

  /** Approving and issuing is for the first actor; the rest is for the first step's actor or the last one. */
  ghost predicate ActorRule(env: Env, t: Transition, steps: seq<Step>, actor: string) {
    var senior := t.command.Some? && (Mentions(t.command.value, "approve") || Mentions(t.command.value, "issue"));
    && (senior ==> actor == if |env.actors| > 0 then env.actors[0] else "engagement_partner")
    && (!senior && |steps| > 0 && steps[0].actor.Some? ==> actor == steps[0].actor.value)
    && (!senior && !(|steps| > 0 && steps[0].actor.Some?) ==>
          actor == if |env.actors| > 0 then env.actors[|env.actors| - 1] else "audit_staff")
  }

  lemma ActorFollowsRule(env: Env, t: Transition, steps: seq<Step>)
    ensures ActorRule(env, t, steps, SelectActor(env, t, steps))
  {
    var cmd := t.command.UnwrapOr("");
    ContainsMeansMentions(cmd, "approve");
    ContainsMeansMentions(cmd, "issue");
  }

  /** The steps run on entering the second state, or "in_progress" if there is none, and on self-loops. */
  ghost predicate RunsItsSteps(agg: Aggregate, t: Transition) {
    || t.fromState == t.toState
    || (|agg.states| >= 2 && t.toState == agg.states[1] != t.fromState)
    || (|agg.states| < 2 && t.toState == "in_progress" != t.fromState)
  }

  /** What a transition leaves behind: its event, the steps if any, and a delay. */
  ghost predicate TransitionLeaves(
    env: Env, proc: Procedure, phaseId: string, t: Transition, r: Run, r': Run, actor: string, worked: Run, minutes: int)
  {
    var moved := Run(
      r.log + [AuditEvent(
        env.tape.bytes(r.draws), r.clock, "state_transition", proc.id, None, phaseId, Some(t.fromState), Some(t.toState),
        actor, OrElse(t.command, "transition"), [], [], false, None)],
      r.procedureStates[proc.id := t.toState], r.stepCompletions, r.evidenceStates, r.anomalies, r.dispatched,
      r.clock, r.draws + 1);
    && ActorRule(env, t, proc.steps, actor)
    && (if RunsItsSteps(proc.aggregate, t) then StepsRule(env, proc, phaseId, proc.steps, moved, worked) else worked == moved)
    && IsDelay(minutes, env.tape.delay(worked.draws), env.overlay.muHours)
    && r' == worked.(clock := worked.clock + minutes, draws := worked.draws + 1)
  }

  ghost predicate TransitionRule(env: Env, proc: Procedure, phaseId: string, t: Transition, r: Run, r': Run) {
    exists actor, worked, minutes :: TransitionLeaves(env, proc, phaseId, t, r, r', actor, worked, minutes)
  }

  lemma TransitionFollowsRule(env: Env, proc: Procedure, phaseId: string, t: Transition, r: Run)
    ensures TransitionRule(env, proc, phaseId, t, r, TakeTransition(env, proc, phaseId, t.fromState, t, r))
  {
    var moved := Moved(env, proc, phaseId, t.fromState, t, r);
    var worked := if RunsItsSteps(proc.aggregate, t) then ExecuteSteps(env, proc, phaseId, proc.steps, moved) else moved;
    ActorFollowsRule(env, t, proc.steps);
    StepsFollowRule(env, proc, phaseId, proc.steps, moved);
    DelayFollowsRule(env.tape.delay(worked.draws), env.overlay.muHours);
    var minutes := DelayMinutes(env.tape.delay(worked.draws), env.overlay.muHours);
    assert TransitionLeaves(env, proc, phaseId, t, r, TakeTransition(env, proc, phaseId, t.fromState, t, r),
                            SelectActor(env, t, proc.steps), worked, minutes);
  }

  // ----- walks -----

  /** Choosing among several transitions takes a roll. */
  ghost function Rolls(outgoing: seq<Transition>): nat {
    if |outgoing| >= 2 then 1 else 0
  }

  ghost predicate HopRule(env: Env, proc: Procedure, phaseId: string, before: seq<Hop>, hop: Hop, r: Run, r': Run) {
    && ChoiceRule(env, proc.aggregate, before, hop, r.draws)
    && TransitionRule(env, proc, phaseId, hop.t,
                      r.(draws := r.draws + Rolls(Leaving(proc.aggregate, hop.t.fromState))), r')
  }

  ghost predicate HopsAlong(env: Env, proc: Procedure, phaseId: string, trace: seq<Hop>, runs: seq<Run>) {
    && |runs| == |trace| + 1
    && forall i :: 0 <= i < |trace| ==> HopRule(env, proc, phaseId, trace[..i], trace[i], runs[i], runs[i + 1])
  }

  /** Where a trace that starts in `initial` has led. */
  ghost function Reached(initial: string, trace: seq<Hop>): string {
    if |trace| == 0 then initial else trace[|trace| - 1].t.toState
  }

  ghost predicate Connected(initial: string, trace: seq<Hop>) {
    forall i :: 0 <= i < |trace| ==> trace[i].t.fromState == Reached(initial, trace[..i])
  }

  ghost function LimitFor(overlay: Overlay, id: string): nat {
    if id in overlay.limits then overlay.limits[id] else overlay.defaultLimit
  }

  /** The three ends of a walk; only the last one costs a roll. */
  ghost predicate EndRule(env: Env, proc: Procedure, trace: seq<Hop>, r: Run, r': Run) {
    var outgoing := Leaving(proc.aggregate, Reached(proc.aggregate.initialState, trace));
    || (|trace| == LimitFor(env.overlay, proc.id) && r' == r)
    || (|trace| < LimitFor(env.overlay, proc.id) && outgoing == [] && r' == r)
    || (|trace| < LimitFor(env.overlay, proc.id) && outgoing != []
        && Trapped(env, proc.aggregate, trace, Reached(proc.aggregate.initialState, trace), r.draws)
        && r' == r.(draws := r.draws + Rolls(outgoing)))
  }

  ghost predicate WalkAlong(env: Env, proc: Procedure, phaseId: string, r: Run, trace: seq<Hop>, runs: seq<Run>) {
    && HopsAlong(env, proc, phaseId, trace, runs)
    && runs[0] == r.(procedureStates := r.procedureStates[proc.id := proc.aggregate.initialState])
    && Connected(proc.aggregate.initialState, trace)
  }

  /** From the initial state hop by hop to one of the three ends. */
  ghost predicate WalkRule(env: Env, proc: Procedure, phaseId: string, r: Run, trace: seq<Hop>, r': Run) {
    exists runs :: WalkAlong(env, proc, phaseId, r, trace, runs) && EndRule(env, proc, trace, runs[|trace|], r')
  }

  lemma HopFollowsRule(env: Env, proc: Procedure, phaseId: string, w: Walk)
    requires w.selfLoops == WalkProperties.TrailingLoops(w.trace) && WalkChoice(env, proc, w).Take?
    ensures var c := WalkChoice(env, proc, w);
            && c.hop.t.fromState == w.current
            && HopRule(env, proc, phaseId, w.trace, c.hop, w.run, WalkStep(env, proc, phaseId, w, c.hop, c.selfLoops).run)
  {
    var c := WalkChoice(env, proc, w);
    ChoiceFollowsRule(env, proc.aggregate, w.trace, w.current, w.run.draws);
    assert Outgoing(proc.aggregate, w.current) == Leaving(proc.aggregate, w.current);
    TransitionFollowsRule(env, proc, phaseId, c.hop.t, Selected(env, proc, w));
  }

  lemma ConnectedPush(initial: string, trace: seq<Hop>, hop: Hop)
    requires Connected(initial, trace) && hop.t.fromState == Reached(initial, trace)
    ensures Connected(initial, trace + [hop])
  {
    var longer := trace + [hop];
    forall i | 0 <= i < |longer| ensures longer[i].t.fromState == Reached(initial, longer[..i]) {
      assert longer[..i] == trace[..i];
      assert trace[..|trace|] == trace;
    }
  }

  lemma AlongPush(env: Env, proc: Procedure, phaseId: string, r: Run, trace: seq<Hop>, runs: seq<Run>, hop: Hop, r': Run)
    requires WalkAlong(env, proc, phaseId, r, trace, runs)
    requires HopRule(env, proc, phaseId, trace, hop, runs[|trace|], r')
    requires hop.t.fromState == Reached(proc.aggregate.initialState, trace)
    ensures WalkAlong(env, proc, phaseId, r, trace + [hop], runs + [r'])
  {
    var trace', runs' := trace + [hop], runs + [r'];
    ConnectedPush(proc.aggregate.initialState, trace, hop);
    forall i | 0 <= i < |trace'| ensures HopRule(env, proc, phaseId, trace'[..i], trace'[i], runs'[i], runs'[i + 1]) {
      assert trace'[..i] == trace[..i];
      if i == |trace| {
        assert trace[..i] == trace;
      }
    }
  }

  lemma EndFollowsRule(env: Env, proc: Procedure, phaseId: string, w: Walk)
    requires w.selfLoops == WalkProperties.TrailingLoops(w.trace) && |w.trace| <= Limit(env, proc)
    requires w.current == Reached(proc.aggregate.initialState, w.trace)
    requires |w.trace| == Limit(env, proc) || !WalkChoice(env, proc, w).Take?
    ensures EndRule(env, proc, w.trace, w.run, WalkOn(env, proc, phaseId, w).run)
  {
    if |w.trace| < Limit(env, proc) {
      ChoiceFollowsRule(env, proc.aggregate, w.trace, w.current, w.run.draws);
      assert Outgoing(proc.aggregate, w.current) == Leaving(proc.aggregate, w.current);
    }
  }

  lemma {:induction false} WalkOnFollowsRule(env: Env, proc: Procedure, phaseId: string, r: Run, w: Walk, runs: seq<Run>)
    requires WalkProperties.WalkInv(env, proc, w) && w.current == Reached(proc.aggregate.initialState, w.trace)
    requires WalkAlong(env, proc, phaseId, r, w.trace, runs) && runs[|w.trace|] == w.run
    ensures WalkRule(env, proc, phaseId, r, WalkOn(env, proc, phaseId, w).trace, WalkOn(env, proc, phaseId, w).run)
    decreases Limit(env, proc) - |w.trace|
  {
    var c := WalkChoice(env, proc, w);
    if |w.trace| == Limit(env, proc) || !c.Take? {
      EndFollowsRule(env, proc, phaseId, w);
    } else {
      var next := WalkStep(env, proc, phaseId, w, c.hop, c.selfLoops);
      HopFollowsRule(env, proc, phaseId, w);
      WalkProperties.WalkInvStep(env, proc, phaseId, w);
      AlongPush(env, proc, phaseId, r, w.trace, runs, c.hop, next.run);
      WalkOnFollowsRule(env, proc, phaseId, r, next, runs + [next.run]);
    }
  }

  /** Every walk is one the rules allow. */
  lemma WalkFollowsRule(env: Env, proc: Procedure, phaseId: string, r: Run)
    ensures var w := WalkProcedure(env, proc, phaseId, r); WalkRule(env, proc, phaseId, r, w.trace, w.run)
  {
    var w := StartWalk(proc, r);
    WalkProperties.StartsWell(env, proc, r);
    assert WalkAlong(env, proc, phaseId, r, [], [w.run]);
    WalkOnFollowsRule(env, proc, phaseId, r, w, [w.run]);
  }

  // ----- the whole run -----

  ghost predicate EntryAt(phases: seq<Phase>, id: string, a: int, b: int) {
    0 <= a < |phases| && 0 <= b < |phases[a].procedures| && phases[a].procedures[b].id == id
  }

  /** The last procedure with that id, in blueprint order. */
  ghost predicate LastEntryAt(phases: seq<Phase>, id: string, a: int, b: int) {
    EntryAt(phases, id, a, b) && forall c, d :: EntryAt(phases, id, c, d) ==> c < a || (c == a && d <= b)
  }

  /** Some category is filtered and none of the procedure's values for it is wanted. */
  ghost predicate Excluded(overlay: Overlay, proc: Procedure) {
    exists c :: c in proc.discriminators && overlay.discriminators.Some? && c in overlay.discriminators.value
                && Disjoint(proc.discriminators[c], overlay.discriminators.value[c])
  }

  ghost predicate Disjoint(s: seq<string>, t: seq<string>) {
    forall i, j :: 0 <= i < |s| && 0 <= j < |t| ==> s[i] != t[j]
  }

  /** A procedure's turn: nothing without an entry, a wanted kind and a state machine, else a walk. */
  ghost predicate TurnRule(env: Env, phases: seq<Phase>, id: string, r: Run, r': Run) {
    || (r' == r && forall a, b :: !EntryAt(phases, id, a, b))
    || exists a, b :: LastEntryAt(phases, id, a, b) && EntryRule(env, phases[a].procedures[b], phases[a].id, r, r')
  }

  ghost predicate EntryRule(env: Env, proc: Procedure, phaseId: string, r: Run, r': Run) {
    if Excluded(env.overlay, proc) || proc.aggregate.initialState == [] || proc.aggregate.states == [] then r' == r
    else
      exists trace :: WalkRule(env, proc, phaseId, r, trace, r')
  }

  ghost predicate TurnsAlong(env: Env, phases: seq<Phase>, order: seq<string>, runs: seq<Run>) {
    && |runs| == |order| + 1
    && forall i :: 0 <= i < |order| ==> TurnRule(env, phases, order[i], runs[i], runs[i + 1])
  }

  ghost predicate RunRule(env: Env, phases: seq<Phase>, order: seq<string>, r: Run, r': Run) {
    exists runs :: TurnsAlong(env, phases, order, runs) && runs[0] == r && runs[|order|] == r'
  }

  lemma {:induction false} LookupInLast(m: map<string, (string, Procedure)>, phaseId: string, procs: seq<Procedure>, id: string)
    returns (b: int)
    ensures -1 <= b < |procs|
    ensures b >= 0 ==> procs[b].id == id && id in LookupIn(m, phaseId, procs)
                       && LookupIn(m, phaseId, procs)[id] == (phaseId, procs[b])
    ensures forall d :: b < d < |procs| ==> procs[d].id != id
    ensures b < 0 ==> (id in LookupIn(m, phaseId, procs) <==> id in m)
                      && (id in m ==> LookupIn(m, phaseId, procs)[id] == m[id])
  {
    if procs == [] {
      b := -1;
    } else if procs[|procs| - 1].id == id {
      b := |procs| - 1;
    } else {
      b := LookupInLast(m, phaseId, procs[..|procs| - 1], id);
    }
  }

  lemma {:induction false} LookupLast(phases: seq<Phase>, id: string) returns (a: int, b: int)
    ensures if id in Lookup(phases)
            then LastEntryAt(phases, id, a, b) && Lookup(phases)[id] == (phases[a].id, phases[a].procedures[b])
            else forall c, d :: !EntryAt(phases, id, c, d)
  {
    if phases == [] {
      a, b := 0, 0;
    } else {
      var front, last := phases[..|phases| - 1], phases[|phases| - 1];
      a, b := LookupLast(front, id);
      var e := LookupInLast(Lookup(front), last.id, last.procedures, id);
      assert forall c, d :: c < |front| ==> (EntryAt(phases, id, c, d) <==> EntryAt(front, id, c, d));
      if e >= 0 {
        a, b := |front|, e;
      }
    }
  }

  lemma DisjointIff(s: seq<string>, t: seq<string>)
    ensures Disjoint(s, t) <==> forall v :: v in s ==> v !in t
  {
    if forall v :: v in s ==> v !in t {
      forall i, j | 0 <= i < |s| && 0 <= j < |t| ensures s[i] != t[j] {
        assert s[i] in s;
      }
    }
  }

  lemma ExcludedIffSkipped(overlay: Overlay, proc: Procedure)
    ensures Excluded(overlay, proc) <==> SkippedByFilter(overlay, proc)
  {
    if overlay.discriminators.Some? {
      forall c | c in proc.discriminators && c in overlay.discriminators.value
        ensures Disjoint(proc.discriminators[c], overlay.discriminators.value[c]) <==>
                forall v :: v in proc.discriminators[c] ==> v !in overlay.discriminators.value[c]
      {
        DisjointIff(proc.discriminators[c], overlay.discriminators.value[c]);
      }
    }
  }

  lemma TurnFollowsRule(env: Env, phases: seq<Phase>, id: string, r: Run)
    ensures TurnRule(env, phases, id, r, RunProcedure(env, Lookup(phases), id, r))
  {
    var a, b := LookupLast(phases, id);
    if id in Lookup(phases) {
      var (phaseId, proc) := Lookup(phases)[id];
      ExcludedIffSkipped(env.overlay, proc);
      WalkFollowsRule(env, proc, phaseId, r);
      assert EntryRule(env, proc, phaseId, r, RunProcedure(env, Lookup(phases), id, r));
    }
  }

  /** Every run is one the rules allow, and the rules name each value it holds. */
  lemma {:induction false} RunFollowsRules(env: Env, phases: seq<Phase>, order: seq<string>, r: Run)
    ensures RunRule(env, phases, order, r, RunProcedures(env, Lookup(phases), order, r))
  {
    if order == [] {
      assert TurnsAlong(env, phases, order, [r]);
    } else {
      var front, id := order[..|order| - 1], order[|order| - 1];
      var mid := RunProcedures(env, Lookup(phases), front, r);
      RunFollowsRules(env, phases, front, r);
      TurnFollowsRule(env, phases, id, mid);
      var runs :| TurnsAlong(env, phases, front, runs) && runs[0] == r && runs[|front|] == mid;
      TurnsPush(env, phases, order, runs, RunProcedure(env, Lookup(phases), id, mid));
    }
  }

  lemma TurnsPush(env: Env, phases: seq<Phase>, order: seq<string>, runs: seq<Run>, last: Run)
    requires order != [] && TurnsAlong(env, phases, order[..|order| - 1], runs)
    requires TurnRule(env, phases, order[|order| - 1], runs[|order| - 1], last)
    ensures TurnsAlong(env, phases, order, runs + [last])
  {
    forall i | 0 <= i < |order| ensures TurnRule(env, phases, order[i], (runs + [last])[i], (runs + [last])[i + 1]) {
      if i < |order| - 1 {
        assert order[..|order| - 1][i] == order[i];
      }
    }
  }
}
