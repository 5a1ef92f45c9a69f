/** The sort, the engine, the dispatcher and the live injection put together. */
module EndToEnd {
  import opened Wrappers
  import opened Blueprint
  import opened Loader
  import opened TopologicalOrder
  import EventLog
  import opened Simulation
  import WalkProperties
  import opened RunProperties
  import opened EngagementProperties
  import LiveInjection

  /** The log of an engagement, once the sort has succeeded. */
  ghost predicate IsEngagement(
    env: Env, bp: AuditBlueprint, pre: map<string, seq<string>>, keyOrder: seq<string>, start: int, draws: nat, run: Run)
  {
    && Enumerates(keyOrder, pre.Keys)
    && var sorted := SortOutcome(ProcedureIds(bp), pre, keyOrder, KnownGraph(ProcedureIds(bp), pre));
    && sorted.Ordered?
    && run == RunProcedures(env, Lookup(bp.phases), sorted.order, NewRun(start, draws))
  }

  /** Whatever the rolls: every event of a precondition comes before every event of a procedure
      that lists it. */
  lemma EngagementRespectsPreconditions(
    env: Env, bp: AuditBlueprint, pre: map<string, seq<string>>, keyOrder: seq<string>, start: int, draws: nat, run: Run,
    i: nat, j: nat)
    requires IsEngagement(env, bp, pre, keyOrder, start, draws, run)
    requires i < |run.log| && j < |run.log|
    requires run.log[j].procedureId in pre && run.log[i].procedureId in pre[run.log[j].procedureId]
    ensures i < j
  {
    var ids := ProcedureIds(bp);
    var g := KnownGraph(ids, pre);
    SortCorrect(ids, pre, keyOrder);
    LookupFiles(bp.phases);
    PreconditionsFirst(env, Lookup(bp.phases), SortOutcome(ids, pre, keyOrder, g).order, ids, g, start, draws, i, j);
  }

  /** Between two events of one procedure there are only events of that procedure. */
  lemma EngagementBlocks(
    env: Env, bp: AuditBlueprint, pre: map<string, seq<string>>, keyOrder: seq<string>, start: int, draws: nat, run: Run,
    i: nat, j: nat, k: nat)
    requires IsEngagement(env, bp, pre, keyOrder, start, draws, run)
    requires i < j < k < |run.log| && run.log[i].procedureId == run.log[k].procedureId
    ensures run.log[j].procedureId == run.log[i].procedureId
  {
    var ids := ProcedureIds(bp);
    var g := KnownGraph(ids, pre);
    SortCorrect(ids, pre, keyOrder);
    LookupFiles(bp.phases);
    var order := SortOutcome(ids, pre, keyOrder, g).order;
    RunFollows(env, Lookup(bp.phases), order, start, draws);
    Contiguous(run.log, order, i, j, k);
  }

  /** What an engagement comes to: the run, or why there is none. */
  ghost function Outcome(
    env: Env, bp: AuditBlueprint, pre: map<string, seq<string>>, keyOrder: seq<string>, start: int, draws: nat)
    : Result<Run, SortResult>
    requires Enumerates(keyOrder, pre.Keys)
  {
    var sorted := SortOutcome(ProcedureIds(bp), pre, keyOrder, KnownGraph(ProcedureIds(bp), pre));
    if sorted.Ordered? then Ok(RunProcedures(env, Lookup(bp.phases), sorted.order, NewRun(start, draws))) else Err(sorted)
  }

  ghost predicate SameOutcome(
    env: Env, bp: AuditBlueprint, pre: map<string, seq<string>>, start: int, draws: nat, a: seq<string>, b: seq<string>)
    requires Enumerates(a, pre.Keys) && Enumerates(b, pre.Keys)
  {
    Outcome(env, bp, pre, a, start, draws) == Outcome(env, bp, pre, b, start, draws)
  }

  /** With the same draws, run and errors are the same for every order in which the hash map of
      preconditions is visited, exactly when at most one of its keys has a dangling reference. */
  lemma EngagementIsDeterministic(env: Env, bp: AuditBlueprint, pre: map<string, seq<string>>, start: int, draws: nat)
    ensures (forall a, b :: Enumerates(a, pre.Keys) && Enumerates(b, pre.Keys) ==> SameOutcome(env, bp, pre, start, draws, a, b)) <==>
            forall j, k :: Dangles(ProcedureIds(bp), pre, j) && Dangles(ProcedureIds(bp), pre, k) ==> j == k
  {
    var ids := ProcedureIds(bp);
    var g := KnownGraph(ids, pre);
    OrderIndependence(ids, pre, g);
    if !OrderIndependent(ids, pre, g) {
      var a, b :| Enumerates(a, pre.Keys) && Enumerates(b, pre.Keys) && SortOutcome(ids, pre, a, g) != SortOutcome(ids, pre, b, g);
      OutcomeWhenResolved(ids, pre, a, g);
      OutcomeWhenResolved(ids, pre, b, g);
      assert !SameOutcome(env, bp, pre, start, draws, a, b);
    }
  }

  /** Every procedure with a recorded final state walked there: its events in the log spell the path,
      and its step events number the steps times the work runs of that path. */
  lemma EngagementTellsWalks(
    env: Env, bp: AuditBlueprint, pre: map<string, seq<string>>, keyOrder: seq<string>, start: int, draws: nat, run: Run,
    id: string)
    requires IsEngagement(env, bp, pre, keyOrder, start, draws, run) && id in run.procedureStates
    ensures id in Lookup(bp.phases)
    ensures exists w :: WalkedTo(env, Lookup(bp.phases)[id].1, run, w)
  {
    var ids, d := ProcedureIds(bp), Lookup(bp.phases);
    SortCorrect(ids, pre, keyOrder);
    LookupFiles(bp.phases);
    var order := SortOutcome(ids, pre, keyOrder, KnownGraph(ids, pre)).order;
    FinalStates(env, d, order, start, draws);
    var i :| 0 <= i < |order| && order[i] == id;
    RunTellsWalks(env, d, order, start, draws, i);
    assert WalkedTo(env, d[id].1, run, WalkOf(env, d, order, start, draws, i));
  }

  /** A walk of the procedure's machine that the log tells and that ends in the recorded state. */
  ghost predicate WalkedTo(env: Env, proc: Procedure, run: Run, w: Walk) {
    && WalkProperties.WellShaped(env, proc, w)
    && TellsWalk(run.log, proc, w)
    && proc.id in run.procedureStates && run.procedureStates[proc.id] == w.current
    && |StepIds(EventsOf(run.log, proc.id))| == WorkRuns(proc.aggregate, w.trace) * |proc.steps|
  }

  /** Anomalies live on as records: after live injection, flagged events are exactly as many as the
      engine's records and the injected ones together. */
  lemma AllAnomaliesRecorded(
    env: Env, bp: AuditBlueprint, pre: map<string, seq<string>>, keyOrder: seq<string>, start: int, draws: nat, run: Run,
    configs: seq<LiveInjection.InjectionConfig>, tape: Tape)
    requires IsEngagement(env, bp, pre, keyOrder, start, draws, run)
    ensures var injected := LiveInjection.Inject(run.log, configs, tape);
            EventLog.FlaggedCount(injected.events) == |run.anomalies| + |injected.records|
  {
    var order := SortOutcome(ProcedureIds(bp), pre, keyOrder, KnownGraph(ProcedureIds(bp), pre)).order;
    AnomalyConservation(env, Lookup(bp.phases), order, start, draws);
    LiveInjection.InjectionConserves(run.log, configs, tape);
  }
}
