/** The rules of a run leave nothing open: for every engagement they allow one run only, which is
    the one the engine makes. */
module RulesDetermine {
  import opened Wrappers
  import Seqs
  import opened Blueprint
  import opened EventLog
  import opened Simulation
  import opened RunRules

  // ----- one choice -----

  lemma OneSelection(env: Env, states: seq<string>, outgoing: seq<Transition>, draw: nat, t: Transition, below: bool, u: Transition, under: bool)
    requires SelectionRule(env, states, outgoing, draw, t, below) && SelectionRule(env, states, outgoing, draw, u, under)
    ensures t == u && below == under && t in outgoing
  {
    hide Later;
  }

  lemma OneLeaving(ts: seq<Transition>, t: Transition, u: Transition)
    requires FirstLeaving(ts, t) && FirstLeaving(ts, u)
    ensures t == u
  {}

  lemma OneChoice(env: Env, agg: Aggregate, trace: seq<Hop>, a: Hop, b: Hop, draw: nat)
    requires ChoiceRule(env, agg, trace, a, draw) && ChoiceRule(env, agg, trace, b, draw) && a.t.fromState == b.t.fromState
    ensures a == b
  {
    hide SelectionRule, Exhausted, FirstLeaving;
    var outgoing := Leaving(agg, a.t.fromState);
    var t :| SelectionRule(env, agg.states, outgoing, draw, t, a.below) &&
             if Exhausted(env, trace, t) then FirstLeaving(outgoing, a.t) else a.t == t;
    var u :| SelectionRule(env, agg.states, outgoing, draw, u, b.below) &&
             if Exhausted(env, trace, u) then FirstLeaving(outgoing, b.t) else b.t == u;
    OneSelection(env, agg.states, outgoing, draw, t, a.below, u, b.below);
    if Exhausted(env, trace, t) {
      OneLeaving(outgoing, a.t, b.t);
    }
  }

  /** Where a walk may go on it may not stop, short of its limit. */
  lemma NoChoiceAtEnd(env: Env, agg: Aggregate, trace: seq<Hop>, hop: Hop, draw: nat)
    requires ChoiceRule(env, agg, trace, hop, draw)
    ensures Leaving(agg, hop.t.fromState) != [] && !Trapped(env, agg, trace, hop.t.fromState, draw)
  {
    hide SelectionRule, Exhausted;
    var outgoing := Leaving(agg, hop.t.fromState);
    var t :| SelectionRule(env, agg.states, outgoing, draw, t, hop.below) &&
             if Exhausted(env, trace, t) then FirstLeaving(outgoing, hop.t) else hop.t == t;
    OneSelection(env, agg.states, outgoing, draw, t, hop.below, t, hop.below);
    forall u, under | SelectionRule(env, agg.states, outgoing, draw, u, under) ensures u == t {
      OneSelection(env, agg.states, outgoing, draw, t, hop.below, u, under);
    }
  }

  // ----- one step -----

  lemma OneDelay(a: int, b: int, sample: DelaySample, mean: real)
    requires IsDelay(a, sample, mean) && IsDelay(b, sample, mean)
    ensures a == b
  {}

  lemma OneStrike(env: Env, draw: nat, m: nat, n: nat, k: AnomalyType, s: Severity, l: AnomalyType, t: Severity)
    requires StruckBy(env, draw, m, k, s) && StruckBy(env, draw, n, l, t)
    ensures m == n && k == l && s == t
  {}

  lemma StruckIsNotSpared(env: Env, draw: nat, n: nat, k: AnomalyType, s: Severity)
    requires StruckBy(env, draw, n, k, s)
    ensures !Spared(env, draw, 4)
  {}

  lemma OneAnomaly(
    env: Env, proc: Procedure, step: Step, draw: nat, clock: int,
    k: Option<AnomalyType>, a: seq<AnomalyRecord>, m: nat, l: Option<AnomalyType>, b: seq<AnomalyRecord>, n: nat)
    requires AnomalyRule(env, proc, step, draw, clock, k, a, m) && AnomalyRule(env, proc, step, draw, clock, l, b, n)
    ensures k == l && a == b && m == n
  {
    hide StruckBy, Spared;
    if k.Some? {
      var i: nat, s :| StruckBy(env, draw, i, k.value, s)
                       && a == [AnomalyRecord(env.tape.bytes(draw + i + 1), k.value, s, proc.id, Some(step.id), clock)] && m == draw + i + 2;
      StruckIsNotSpared(env, draw, i, k.value, s);
      if l.Some? {
        var j: nat, t :| StruckBy(env, draw, j, l.value, t)
                         && b == [AnomalyRecord(env.tape.bytes(draw + j + 1), l.value, t, proc.id, Some(step.id), clock)] && n == draw + j + 2;
        OneStrike(env, draw, i, j, k.value, s, l.value, t);
      }
    } else if l.Some? {
      var j: nat, t :| StruckBy(env, draw, j, l.value, t);
      StruckIsNotSpared(env, draw, j, l.value, t);
    }
  }

  lemma {:induction false} HasLastUse(evidence: seq<StepEvidence>, k: string) returns (i: int)
    requires Uses(evidence, k)
    ensures LastUse(evidence, i, k)
  {
    var last := |evidence| - 1;
    if evidence[last].templateRef == Some(k) {
      i := last;
    } else {
      var front := evidence[..last];
      var j :| 0 <= j < |evidence| && evidence[j].templateRef == Some(k);
      assert front[j].templateRef == Some(k);
      i := HasLastUse(front, k);
      assert forall m :: 0 <= m < last ==> front[m] == evidence[m];
    }
  }

  lemma OneEvidence(before: map<string, string>, evidence: seq<StepEvidence>, a: map<string, string>, b: map<string, string>)
    requires EvidenceRule(before, evidence, a) && EvidenceRule(before, evidence, b)
    ensures a == b
  {
    forall k | k in a ensures k in b && a[k] == b[k] {
      if Uses(evidence, k) {
        var i := HasLastUse(evidence, k);
      }
    }
    assert a.Keys == b.Keys;
  }

  lemma OneStep(env: Env, proc: Procedure, phaseId: string, step: Step, r: Run, a: Run, b: Run)
    requires StepRule(env, proc, phaseId, step, r, a) && StepRule(env, proc, phaseId, step, r, b)
    ensures a == b
  {
    hide IsDelay, AnomalyRule, EvidenceRule, Seqs.Joins, RefLists;
    var minutes, kind, records, draw, refs :| StepLeaves(env, proc, phaseId, step, r, a, minutes, kind, records, draw, refs);
    var minutes', kind', records', draw', refs' :| StepLeaves(env, proc, phaseId, step, r, b, minutes', kind', records', draw', refs');
    OneDelay(minutes, minutes', env.tape.delay(r.draws), 1.0);
    OneAnomaly(env, proc, step, r.draws + 1, r.clock + minutes, kind, records, draw, kind', records', draw');
    Seqs.JoinsUnique(refs, refs', RefLists(step.evidence));
    OneEvidence(r.evidenceStates, step.evidence, a.evidenceStates, b.evidenceStates);
  }

  lemma {:induction false} SameSteps(env: Env, proc: Procedure, phaseId: string, steps: seq<Step>, a: seq<Run>, b: seq<Run>, n: nat)
    requires StepsAlong(env, proc, phaseId, steps, a) && StepsAlong(env, proc, phaseId, steps, b) && a[0] == b[0] && n <= |steps|
    ensures a[n] == b[n]
  {
    hide StepRule;
    if n == 0 {
    } else {
      SameSteps(env, proc, phaseId, steps, a, b, n - 1);
      assert StepRule(env, proc, phaseId, steps[n - 1], a[n - 1], a[n - 1 + 1]);
      assert StepRule(env, proc, phaseId, steps[n - 1], b[n - 1], b[n - 1 + 1]);
      OneStep(env, proc, phaseId, steps[n - 1], a[n - 1], a[n], b[n]);
    }
  }

  lemma OneRunOfSteps(env: Env, proc: Procedure, phaseId: string, steps: seq<Step>, r: Run, a: Run, b: Run)
    requires StepsRule(env, proc, phaseId, steps, r, a) && StepsRule(env, proc, phaseId, steps, r, b)
    ensures a == b
  {
    hide StepRule;
    var x :| StepsAlong(env, proc, phaseId, steps, x) && x[0] == r && x[|steps|] == a;
    var y :| StepsAlong(env, proc, phaseId, steps, y) && y[0] == r && y[|steps|] == b;
    SameSteps(env, proc, phaseId, steps, x, y, |steps|);
  }

  // ----- one transition -----

  lemma OneTransition(env: Env, proc: Procedure, phaseId: string, t: Transition, r: Run, a: Run, b: Run)
    requires TransitionRule(env, proc, phaseId, t, r, a) && TransitionRule(env, proc, phaseId, t, r, b)
    ensures a == b
  {
    hide Mentions, RunsItsSteps, IsDelay, StepsRule;
    var actor, worked, minutes :| TransitionLeaves(env, proc, phaseId, t, r, a, actor, worked, minutes);
    var actor', worked', minutes' :| TransitionLeaves(env, proc, phaseId, t, r, b, actor', worked', minutes');
    assert actor == actor';
    if RunsItsSteps(proc.aggregate, t) {
      var moved := Run(
        r.log + [AuditEvent(
          env.tape.bytes(r.draws), r.clock, "state_transition", proc.id, None, phaseId, Some(t.fromState), Some(t.toState),
          actor, OrElse(t.command, "transition"), [], [], false, None)],
        r.procedureStates[proc.id := t.toState], r.stepCompletions, r.evidenceStates, r.anomalies, r.dispatched,
        r.clock, r.draws + 1);
      OneRunOfSteps(env, proc, phaseId, proc.steps, moved, worked, worked');
    }
    OneDelay(minutes, minutes', env.tape.delay(worked.draws), env.overlay.muHours);
  }

  // ----- one walk -----

  lemma OneHop(env: Env, proc: Procedure, phaseId: string, before: seq<Hop>, hop: Hop, r: Run, a: Run, hop': Hop, b: Run)
    requires HopRule(env, proc, phaseId, before, hop, r, a) && HopRule(env, proc, phaseId, before, hop', r, b)
    requires hop.t.fromState == hop'.t.fromState
    ensures hop == hop' && a == b
  {
    hide ChoiceRule, TransitionRule;
    OneChoice(env, proc.aggregate, before, hop, hop', r.draws);
    OneTransition(env, proc, phaseId, hop.t, r.(draws := r.draws + Rolls(Leaving(proc.aggregate, hop.t.fromState))), a, b);
  }

  lemma SameNextHop(env: Env, proc: Procedure, phaseId: string, r: Run, s: seq<Hop>, a: seq<Run>, t: seq<Hop>, b: seq<Run>, i: nat)
    requires WalkAlong(env, proc, phaseId, r, s, a) && WalkAlong(env, proc, phaseId, r, t, b) && i < |s| && i < |t|
    requires s[..i] == t[..i] && a[i] == b[i]
    ensures s[i] == t[i] && a[i + 1] == b[i + 1]
  {
    hide HopRule, Reached;
    assert HopRule(env, proc, phaseId, s[..i], s[i], a[i], a[i + 1]);
    assert HopRule(env, proc, phaseId, t[..i], t[i], b[i], b[i + 1]);
    assert s[i].t.fromState == Reached(proc.aggregate.initialState, s[..i]);
    assert t[i].t.fromState == Reached(proc.aggregate.initialState, t[..i]);
    OneHop(env, proc, phaseId, s[..i], s[i], a[i], a[i + 1], t[i], b[i + 1]);
  }

  lemma {:induction false} SameHops(
    env: Env, proc: Procedure, phaseId: string, r: Run, s: seq<Hop>, a: seq<Run>, t: seq<Hop>, b: seq<Run>, n: nat)
    requires WalkAlong(env, proc, phaseId, r, s, a) && WalkAlong(env, proc, phaseId, r, t, b) && n <= |s| && n <= |t|
    ensures s[..n] == t[..n] && a[n] == b[n]
  {
    hide HopRule, Connected;
    if n == 0 {
    } else {
      SameHops(env, proc, phaseId, r, s, a, t, b, n - 1);
      SameNextHop(env, proc, phaseId, r, s, a, t, b, n - 1);
      assert s[..n] == s[..n - 1] + [s[n - 1]] && t[..n] == t[..n - 1] + [t[n - 1]];
    }
  }

  /** A walk that ended cannot be the beginning of a longer one. */
  lemma NoShorterEnd(
    env: Env, proc: Procedure, phaseId: string, r: Run, s: seq<Hop>, a: seq<Run>, r': Run, t: seq<Hop>, b: seq<Run>)
    requires WalkAlong(env, proc, phaseId, r, s, a) && EndRule(env, proc, s, a[|s|], r')
    requires WalkAlong(env, proc, phaseId, r, t, b) && |t| <= LimitFor(env.overlay, proc.id)
    ensures |t| <= |s|
  {
    hide ChoiceRule, TransitionRule, Trapped;
    if |t| > |s| {
      var n := |s|;
      SameHops(env, proc, phaseId, r, s, a, t, b, n);
      assert s[..n] == s;
      assert HopRule(env, proc, phaseId, t[..n], t[n], b[n], b[n + 1]);
      assert t[n].t.fromState == Reached(proc.aggregate.initialState, s);
      NoChoiceAtEnd(env, proc.aggregate, s, t[n], b[n].draws);
      assert false;
    }
  }

  lemma OneWalk(env: Env, proc: Procedure, phaseId: string, r: Run, s: seq<Hop>, x: Run, t: seq<Hop>, y: Run)
    requires WalkRule(env, proc, phaseId, r, s, x) && WalkRule(env, proc, phaseId, r, t, y)
    ensures s == t && x == y
  {
    hide HopRule, Connected, Trapped;
    var a :| WalkAlong(env, proc, phaseId, r, s, a) && EndRule(env, proc, s, a[|s|], x);
    var b :| WalkAlong(env, proc, phaseId, r, t, b) && EndRule(env, proc, t, b[|t|], y);
    NoShorterEnd(env, proc, phaseId, r, s, a, x, t, b);
    NoShorterEnd(env, proc, phaseId, r, t, b, y, s, a);
    SameHops(env, proc, phaseId, r, s, a, t, b, |s|);
    assert s[..|s|] == s && t[..|t|] == t;
  }

  // ----- one run -----

  lemma OneTurn(env: Env, phases: seq<Phase>, id: string, r: Run, a: Run, b: Run)
    requires TurnRule(env, phases, id, r, a) && TurnRule(env, phases, id, r, b)
    ensures a == b
  {
    hide WalkRule, Excluded;
    if exists c, d :: EntryAt(phases, id, c, d) {
      var i, j :| LastEntryAt(phases, id, i, j) && EntryRule(env, phases[i].procedures[j], phases[i].id, r, a);
      var k, l :| LastEntryAt(phases, id, k, l) && EntryRule(env, phases[k].procedures[l], phases[k].id, r, b);
      assert i == k && j == l;
      OneEntry(env, phases[i].procedures[j], phases[i].id, r, a, b);
    }
  }

  lemma OneEntry(env: Env, proc: Procedure, phaseId: string, r: Run, a: Run, b: Run)
    requires EntryRule(env, proc, phaseId, r, a) && EntryRule(env, proc, phaseId, r, b)
    ensures a == b
  {
    hide WalkRule, Excluded;
    if !(Excluded(env.overlay, proc) || proc.aggregate.initialState == [] || proc.aggregate.states == []) {
      var s :| WalkRule(env, proc, phaseId, r, s, a);
      var t :| WalkRule(env, proc, phaseId, r, t, b);
      OneWalk(env, proc, phaseId, r, s, a, t, b);
    }
  }

  lemma {:induction false} SameTurns(env: Env, phases: seq<Phase>, order: seq<string>, a: seq<Run>, b: seq<Run>, n: nat)
    requires TurnsAlong(env, phases, order, a) && TurnsAlong(env, phases, order, b) && a[0] == b[0] && n <= |order|
    ensures a[n] == b[n]
  {
    hide TurnRule;
    if n == 0 {
    } else {
      SameTurns(env, phases, order, a, b, n - 1);
      assert TurnRule(env, phases, order[n - 1], a[n - 1], a[n - 1 + 1]);
      assert TurnRule(env, phases, order[n - 1], b[n - 1], b[n - 1 + 1]);
      OneTurn(env, phases, order[n - 1], a[n - 1], a[n], b[n]);
    }
  }

  /** A run obeys the rules exactly when it is the one the engine makes. */
  lemma RulesDetermineRun(env: Env, phases: seq<Phase>, order: seq<string>, r: Run, r': Run)
    ensures RunRule(env, phases, order, r, r') <==> r' == RunProcedures(env, Lookup(phases), order, r)
  {
    hide TurnRule, RunProcedures;
    RunFollowsRules(env, phases, order, r);
    if RunRule(env, phases, order, r, r') {
      var engine := RunProcedures(env, Lookup(phases), order, r);
      var x :| TurnsAlong(env, phases, order, x) && x[0] == r && x[|order|] == r';
      var y :| TurnsAlong(env, phases, order, y) && y[0] == r && y[|order|] == engine;
      SameTurns(env, phases, order, x, y, |order|);
    }
  }
}
