/** How a procedure's walk moves through its state machine: the shape of the path, the bound
    on consecutive self-loops, why it stops, and how long it can be. */
module WalkProperties {
  import Seqs
  import opened Blueprint
  import opened Simulation

  // ----- one choice -----

  lemma OutgoingMembers(agg: Aggregate, state: string)
    ensures forall t :: t in Outgoing(agg, state) <==> t in agg.transitions && t.fromState == state
  {
    Seqs.FilterMembers((t: Transition) => t.fromState == state, agg.transitions);
  }

  lemma {:induction false} FindForwardFacts(states: seq<string>, ts: seq<Transition>, from: nat)
    ensures FindForward(states, ts, from).None? <==> forall t :: t in ts ==> !IsForward(states, t, from)
    ensures FindForward(states, ts, from).Some? ==>
              FindForward(states, ts, from).value in ts && IsForward(states, FindForward(states, ts, from).value, from)
  {
    if ts == [] {
    } else {
      FindForwardFacts(states, ts[1..], from);
      assert ts == [ts[0]] + ts[1..];
    }
  }

  lemma {:induction false} FindBackwardFacts(states: seq<string>, ts: seq<Transition>, from: nat)
    ensures FindBackward(states, ts, from).Some? ==> FindBackward(states, ts, from).value in ts
  {
    if ts == [] {
    } else {
      FindBackwardFacts(states, ts[1..], from);
      assert ts == [ts[0]] + ts[1..];
    }
  }

  lemma {:induction false} FindNonLoopFacts(ts: seq<Transition>)
    ensures FindNonLoop(ts).None? <==> forall t :: t in ts ==> IsLoop(t)
    ensures FindNonLoop(ts).Some? ==> FindNonLoop(ts).value in ts && !IsLoop(FindNonLoop(ts).value)
  {
    if ts == [] {
    } else {
      FindNonLoopFacts(ts[1..]);
      assert ts == [ts[0]] + ts[1..];
    }
  }

  /** What is selected is an outgoing transition, and a forward one unless a roll was low. */
  lemma SelectFacts(env: Env, states: seq<string>, outgoing: seq<Transition>, draws: nat)
    requires outgoing != [] && forall t :: t in outgoing ==> t.fromState == outgoing[0].fromState
    ensures var (t, below) := SelectTransition(env, states, outgoing, draws);
            && t in outgoing
            && ((exists u :: u in outgoing && IsForward(states, u, Position(states, u.fromState)))
                ==> below || IsForward(states, t, Position(states, t.fromState)))
  {
    var from := Position(states, outgoing[0].fromState);
    FindForwardFacts(states, outgoing, from);
    FindBackwardFacts(states, outgoing, from);
  }

  /** Loops are taken only while their number stays below the bound. */
  lemma ChooseFacts(env: Env, agg: Aggregate, state: string, selfLoops: nat, draws: nat)
    ensures match Choose(env, agg, state, selfLoops, draws)
            case Terminal => Outgoing(agg, state) == []
            case OnlyLoops => forall t :: t in Outgoing(agg, state) ==> IsLoop(t)
            case Take(hop, n) =>
              && hop.t in agg.transitions && hop.t.fromState == state
              && n == (if IsLoop(hop.t) then selfLoops + 1 else 0)
              && (IsLoop(hop.t) ==> n < env.overlay.maxSelfLoops)
  {
    var outgoing := Outgoing(agg, state);
    OutgoingMembers(agg, state);
    if outgoing != [] {
      SelectFacts(env, agg.states, outgoing, draws);
      FindNonLoopFacts(outgoing);
    }
  }

  // ----- the path -----

  /** The transitions lead from `from` to `to`, each starting where the previous one ended. */
  ghost predicate IsPath(agg: Aggregate, from: string, trace: seq<Hop>, to: string) {
    && (forall i :: 0 <= i < |trace| ==> trace[i].t in agg.transitions)
    && (forall i :: 0 <= i < |trace| - 1 ==> trace[i].t.toState == trace[i + 1].t.fromState)
    && (if trace == [] then from == to else trace[0].t.fromState == from && trace[|trace| - 1].t.toState == to)
  }

  ghost function TrailingLoops(trace: seq<Hop>): nat {
    if trace == [] || !IsLoop(trace[|trace| - 1].t) then 0 else TrailingLoops(trace[..|trace| - 1]) + 1
  }

  ghost function LoopBound(env: Env): nat {
    if env.overlay.maxSelfLoops == 0 then 1 else env.overlay.maxSelfLoops
  }

  ghost predicate LoopsBounded(env: Env, trace: seq<Hop>) {
    forall i :: 0 <= i <= |trace| ==> TrailingLoops(trace[..i]) < LoopBound(env)
  }

  ghost predicate WalkInv(env: Env, proc: Procedure, w: Walk) {
    && IsPath(proc.aggregate, proc.aggregate.initialState, w.trace, w.current)
    && w.selfLoops == TrailingLoops(w.trace)
    && LoopsBounded(env, w.trace)
    && |w.trace| <= Limit(env, proc)
    && proc.id in w.run.procedureStates && w.run.procedureStates[proc.id] == w.current
  }

  lemma {:induction false} StepsKeepStates(env: Env, proc: Procedure, phaseId: string, steps: seq<Step>, r: Run)
    ensures ExecuteSteps(env, proc, phaseId, steps, r).procedureStates == r.procedureStates
  {
    if steps == [] {
    } else {
      StepsKeepStates(env, proc, phaseId, steps[..|steps| - 1], r);
    }
  }

  lemma TakeSetsState(env: Env, proc: Procedure, phaseId: string, from: string, t: Transition, r: Run)
    ensures TakeTransition(env, proc, phaseId, from, t, r).procedureStates == r.procedureStates[proc.id := t.toState]
  {
    StepsKeepStates(env, proc, phaseId, proc.steps, Moved(env, proc, phaseId, from, t, r));
  }

  lemma PathPush(agg: Aggregate, from: string, trace: seq<Hop>, mid: string, hop: Hop)
    requires IsPath(agg, from, trace, mid) && hop.t in agg.transitions && hop.t.fromState == mid
    ensures IsPath(agg, from, trace + [hop], hop.t.toState)
  {}

  lemma LoopsPush(env: Env, trace: seq<Hop>, hop: Hop)
    requires LoopsBounded(env, trace)
    requires IsLoop(hop.t) ==> TrailingLoops(trace) + 1 < env.overlay.maxSelfLoops
    ensures LoopsBounded(env, trace + [hop])
    ensures TrailingLoops(trace + [hop]) == if IsLoop(hop.t) then TrailingLoops(trace) + 1 else 0
  {
    var longer := trace + [hop];
    assert longer[..|longer| - 1] == trace;
    forall i | 0 <= i <= |longer| ensures TrailingLoops(longer[..i]) < LoopBound(env) {
      if i <= |trace| {
        assert longer[..i] == trace[..i];
      } else {
        assert longer[..i] == longer;
      }
    }
  }

  lemma WalkInvStep(env: Env, proc: Procedure, phaseId: string, w: Walk)
    requires WalkInv(env, proc, w) && |w.trace| < Limit(env, proc) && WalkChoice(env, proc, w).Take?
    ensures var c := WalkChoice(env, proc, w);
            WalkInv(env, proc, WalkStep(env, proc, phaseId, w, c.hop, c.selfLoops))
  {
    var c := WalkChoice(env, proc, w);
    ChooseFacts(env, proc.aggregate, w.current, w.selfLoops, w.run.draws);
    PathPush(proc.aggregate, proc.aggregate.initialState, w.trace, w.current, c.hop);
    LoopsPush(env, w.trace, c.hop);
    TakeSetsState(env, proc, phaseId, w.current, c.hop.t, Selected(env, proc, w));
  }

  /** Why a walk stops. */
  ghost predicate Ended(env: Env, proc: Procedure, w: Walk) {
    || Outgoing(proc.aggregate, w.current) == []
    || |w.trace| == Limit(env, proc)
    || forall t :: t in Outgoing(proc.aggregate, w.current) ==> IsLoop(t)
  }

  lemma {:induction false} WalkOnShape(env: Env, proc: Procedure, phaseId: string, w: Walk)
    requires WalkInv(env, proc, w)
    ensures WalkInv(env, proc, WalkOn(env, proc, phaseId, w)) && Ended(env, proc, WalkOn(env, proc, phaseId, w))
    decreases Limit(env, proc) - |w.trace|
  {
    if |w.trace| < Limit(env, proc) {
      ChooseFacts(env, proc.aggregate, w.current, w.selfLoops, w.run.draws);
      var c := WalkChoice(env, proc, w);
      if c.Take? {
        WalkInvStep(env, proc, phaseId, w);
        WalkOnShape(env, proc, phaseId, WalkStep(env, proc, phaseId, w, c.hop, c.selfLoops));
      }
    }
  }

  lemma {:induction false} RunOfLoops(trace: seq<Hop>, i: nat, j: nat)
    requires i <= j <= |trace| && forall k :: i <= k < j ==> IsLoop(trace[k].t)
    ensures TrailingLoops(trace[..j]) >= j - i
  {
    if i < j {
      assert trace[..j][..j - 1] == trace[..j - 1];
      RunOfLoops(trace, i, j - 1);
    }
  }

  ghost predicate LeavesWithin(trace: seq<Hop>, i: nat, j: nat)
    requires j <= |trace|
  {
    exists k :: i <= k < j && !IsLoop(trace[k].t)
  }

  /** No stretch of consecutive self-loops reaches the bound. */
  ghost predicate NoLongLoop(env: Env, trace: seq<Hop>) {
    forall i: nat, j: nat {:trigger LeavesWithin(trace, i, j)} ::
      i <= j <= |trace| && j - i >= LoopBound(env) ==> LeavesWithin(trace, i, j)
  }

  lemma BoundedMeansNoLongLoop(env: Env, trace: seq<Hop>)
    requires LoopsBounded(env, trace)
    ensures NoLongLoop(env, trace)
  {
    forall i: nat, j: nat {:trigger LeavesWithin(trace, i, j)} | i <= j <= |trace| && j - i >= LoopBound(env)
      ensures LeavesWithin(trace, i, j)
    {
      if forall k :: i <= k < j ==> IsLoop(trace[k].t) {
        RunOfLoops(trace, i, j);
      }
    }
  }

  /** A connected path from the initial state to the recorded final state, no long stretch of
      self-loops, ended at a terminal state, at the limit, or among self-loops only. */
  ghost predicate WellShaped(env: Env, proc: Procedure, w: Walk) {
    && IsPath(proc.aggregate, proc.aggregate.initialState, w.trace, w.current)
    && NoLongLoop(env, w.trace)
    && |w.trace| <= Limit(env, proc)
    && proc.id in w.run.procedureStates && w.run.procedureStates[proc.id] == w.current
    && Ended(env, proc, w)
  }

  lemma StartsWell(env: Env, proc: Procedure, r: Run)
    ensures WalkInv(env, proc, StartWalk(proc, r))
  {}

  /** Walk shape: a connected path from the initial state to the recorded one, no long run of
      self-loops, and one of the three reasons to stop. */
  lemma WalkShape(env: Env, proc: Procedure, phaseId: string, r: Run)
    ensures WellShaped(env, proc, WalkProcedure(env, proc, phaseId, r))
  {
    StartsWell(env, proc, r);
    WalkOnShape(env, proc, phaseId, StartWalk(proc, r));
    BoundedMeansNoLongLoop(env, WalkProcedure(env, proc, phaseId, r).trace);
  }

  // ----- the length of a walk -----

  /** Every endpoint is a state, and whoever can move can move to a later state. */
  ghost predicate ForwardFsm(agg: Aggregate) {
    && agg.states != []
    && (forall t :: t in agg.transitions ==> t.fromState in agg.states && t.toState in agg.states)
    && (forall t :: t in agg.transitions ==> CanAdvance(agg, t.fromState))
  }

  ghost predicate CanAdvance(agg: Aggregate, state: string) {
    exists u :: u in agg.transitions && u.fromState == state && IsForward(agg.states, u, Position(agg.states, state))
  }

  ghost predicate Advances(agg: Aggregate, hop: Hop) {
    hop.below || IsForward(agg.states, hop.t, Position(agg.states, hop.t.fromState))
  }

  /** How many rolls of the walk fell below the revision probability. */
  ghost function LowRolls(trace: seq<Hop>): nat {
    if trace == [] then 0 else LowRolls(trace[..|trace| - 1]) + if trace[|trace| - 1].below then 1 else 0
  }

  lemma ChooseAdvances(env: Env, agg: Aggregate, state: string, selfLoops: nat, draws: nat)
    requires ForwardFsm(agg)
    ensures match Choose(env, agg, state, selfLoops, draws)
            case Terminal => true
            case OnlyLoops => false
            case Take(hop, n) => Advances(agg, hop)
  {
    var outgoing := Outgoing(agg, state);
    OutgoingMembers(agg, state);
    if outgoing != [] {
      assert outgoing[0] in agg.transitions;
      var u :| u in agg.transitions && u.fromState == state && IsForward(agg.states, u, Position(agg.states, state));
      assert u in outgoing && !IsLoop(u);
      SelectFacts(env, agg.states, outgoing, draws);
      FindNonLoopFacts(outgoing);
      var (t, below) := SelectTransition(env, agg.states, outgoing, draws);
      assert IsLoop(t) ==> !IsForward(agg.states, t, Position(agg.states, t.fromState));
    }
  }

  ghost predicate AllAdvance(agg: Aggregate, trace: seq<Hop>) {
    forall i :: 0 <= i < |trace| ==> Advances(agg, trace[i])
  }

  lemma {:induction false} WalkOnAdvances(env: Env, proc: Procedure, phaseId: string, w: Walk)
    requires ForwardFsm(proc.aggregate) && AllAdvance(proc.aggregate, w.trace)
    ensures AllAdvance(proc.aggregate, WalkOn(env, proc, phaseId, w).trace)
    ensures |WalkOn(env, proc, phaseId, w).trace| < Limit(env, proc) ==>
              Outgoing(proc.aggregate, WalkOn(env, proc, phaseId, w).current) == []
    decreases Limit(env, proc) - |w.trace|
  {
    if |w.trace| < Limit(env, proc) {
      ChooseAdvances(env, proc.aggregate, w.current, w.selfLoops, w.run.draws);
      ChooseFacts(env, proc.aggregate, w.current, w.selfLoops, w.run.draws);
      var c := WalkChoice(env, proc, w);
      if c.Take? {
        WalkOnAdvances(env, proc, phaseId, WalkStep(env, proc, phaseId, w, c.hop, c.selfLoops));
      }
    }
  }

  lemma PathFront(agg: Aggregate, from: string, trace: seq<Hop>, to: string)
    requires ForwardFsm(agg) && IsPath(agg, from, trace, to) && trace != []
    ensures var hop := trace[|trace| - 1];
            && IsPath(agg, from, trace[..|trace| - 1], hop.t.fromState)
            && hop.t.toState == to
            && Position(agg.states, hop.t.fromState) <= |agg.states| - 2
  {}

  /** What the low rolls of a walk can give back, if each costs `cost` states. */
  ghost function GivenBack(trace: seq<Hop>, cost: int): int {
    if trace == [] then 0
    else
      GivenBack(trace[..|trace| - 1], cost) + if trace[|trace| - 1].below then cost else 0
  }

  lemma Distribute(n: int, k: int)
    ensures n * (k + 1) == n * k + n
  {}

  lemma {:induction false} GivenBackIsProduct(trace: seq<Hop>, cost: int)
    ensures GivenBack(trace, cost) == cost * LowRolls(trace)
  {
    if trace == [] {
    } else {
      GivenBackIsProduct(trace[..|trace| - 1], cost);
      Distribute(cost, LowRolls(trace[..|trace| - 1]));
    }
  }

  /** Each forward move climbs at least one state; each low roll can give back all but one of them. */
  lemma {:induction false} ClimbBound(agg: Aggregate, from: string, trace: seq<Hop>, to: string)
    requires ForwardFsm(agg) && IsPath(agg, from, trace, to) && AllAdvance(agg, trace)
    ensures |trace| <= Position(agg.states, to) - Position(agg.states, from) + GivenBack(trace, |agg.states| - 1)
  {
    if trace == [] {
    } else {
      var front, hop := trace[..|trace| - 1], trace[|trace| - 1];
      PathFront(agg, from, trace, to);
      ClimbBound(agg, from, front, hop.t.fromState);
      assert Advances(agg, hop);
    }
  }

  /** What N states and R low rolls allow: (N - 1) * (R + 1) transitions. */
  ghost function Budget(agg: Aggregate, trace: seq<Hop>): int {
    (|agg.states| - 1) * (LowRolls(trace) + 1)
  }

  lemma ClimbTotal(agg: Aggregate, from: string, trace: seq<Hop>, to: string)
    requires ForwardFsm(agg) && IsPath(agg, from, trace, to) && AllAdvance(agg, trace)
    ensures |trace| <= Budget(agg, trace)
  {
    ClimbBound(agg, from, trace, to);
    GivenBackIsProduct(trace, |agg.states| - 1);
    Distribute(|agg.states| - 1, LowRolls(trace));
  }

  lemma ClimbEnds(env: Env, proc: Procedure, w: Walk)
    requires ForwardFsm(proc.aggregate) && AllAdvance(proc.aggregate, w.trace)
    requires IsPath(proc.aggregate, proc.aggregate.initialState, w.trace, w.current)
    requires |w.trace| < Limit(env, proc) ==> Outgoing(proc.aggregate, w.current) == []
    ensures Bounded(env, proc, w)
  {
    ClimbTotal(proc.aggregate, proc.aggregate.initialState, w.trace, w.current);
  }

  /** Within the budget, and with a larger iteration limit ended in a terminal state. */
  ghost predicate Bounded(env: Env, proc: Procedure, w: Walk) {
    && |w.trace| <= Budget(proc.aggregate, w.trace)
    && (Limit(env, proc) > Budget(proc.aggregate, w.trace) ==> Outgoing(proc.aggregate, w.current) == [])
  }

  /** Walk bound, whatever is rolled and however often a loop is forced open. */
  lemma WalkBound(env: Env, proc: Procedure, phaseId: string, r: Run)
    requires ForwardFsm(proc.aggregate)
    ensures Bounded(env, proc, WalkProcedure(env, proc, phaseId, r))
  {
    WalkShape(env, proc, phaseId, r);
    WalkOnAdvances(env, proc, phaseId, StartWalk(proc, r));
    ClimbEnds(env, proc, WalkProcedure(env, proc, phaseId, r));
  }
}
