/** Whole engagements: precedence in the event log, total time, anomaly records, final states. */
module EngagementProperties {
  import opened Wrappers
  import opened Seqs
  import opened Blueprint
  import opened EventLog
  import opened Simulation
  import opened WalkProperties
  import opened RunProperties
  import PreconditionGraph
  import TopologicalOrder

  type Directory = map<string, (string, Procedure)>

  function NewRun(start: int, draws: nat): Run {
    Run([], map[], map[], map[], [], [], start, draws)
  }

  /** Every entry is filed under its own id. */
  ghost predicate FiledById(d: Directory) {
    forall id :: id in d ==> d[id].1.id == id
  }

  lemma {:induction false} LookupInFiles(m: Directory, phaseId: string, procs: seq<Procedure>)
    requires FiledById(m)
    ensures FiledById(LookupIn(m, phaseId, procs))
    ensures forall id :: id in LookupIn(m, phaseId, procs) <==> id in m || id in IdsOf(procs)
  {
    if procs == [] {
    } else {
      var front := procs[..|procs| - 1];
      LookupInFiles(m, phaseId, front);
      assert IdsOf(procs) == IdsOf(front) + [procs[|procs| - 1].id];
    }
  }

  /** The lookup built from the phases knows exactly the blueprint's procedure ids. */
  lemma {:induction false} LookupFiles(phases: seq<Phase>)
    ensures FiledById(Lookup(phases))
    ensures forall id :: id in Lookup(phases) <==> id in IdsOf(ProceduresOf(phases))
  {
    if phases == [] {
    } else {
      var front, last := phases[..|phases| - 1], phases[|phases| - 1];
      LookupFiles(front);
      LookupInFiles(Lookup(front), last.id, last.procedures);
      assert IdsOf(ProceduresOf(phases)) == IdsOf(ProceduresOf(front)) + IdsOf(last.procedures);
    }
  }

  // ----- time and anomalies -----

  lemma {:induction false} RunRecords(env: Env, d: Directory, order: seq<string>, start: int, draws: nat)
    ensures Recorded(env, start, RunProcedures(env, d, order, NewRun(start, draws)))
  {
    if order == [] {
    } else {
      var front, id := order[..|order| - 1], order[|order| - 1];
      RunRecords(env, d, front, start, draws);
      var mid := RunProcedures(env, d, front, NewRun(start, draws));
      if id in d && Walked(env.overlay, d[id].1) {
        WalkOnRecords(env, start, d[id].1, d[id].0, StartWalk(d[id].1, mid));
      }
    }
  }

  /** Time accounting: events at least 6 minutes apart, none before the start, and a run of n
      events takes between 6n minutes and n times the longest delay; given the clamp, that is 12000n
      minutes for every mean. */
  lemma TimeAccounting(env: Env, d: Directory, order: seq<string>, start: int, draws: nat)
    ensures var r := RunProcedures(env, d, order, NewRun(start, draws));
            && Spaced(r.log)
            && (r.log != [] ==> r.log[0].timestamp >= start)
            && 6 * |r.log| <= r.clock - start <= MaxDelay(env) * |r.log|
    ensures AlwaysSampled(env) ==> WithinClamp(env, d, order, start, draws)
  {
    RunRecords(env, d, order, start, draws);
  }

  /** A run of n events takes at most 12000n minutes. */
  ghost predicate WithinClamp(env: Env, d: Directory, order: seq<string>, start: int, draws: nat) {
    var r := RunProcedures(env, d, order, NewRun(start, draws));
    r.clock - start <= 12000 * |r.log|
  }

  /** One procedure with one transition and no steps, at the mercy of the fallback. */
  const ONE_MOVE :=
    Procedure("p", map[], Aggregate("open", ["open", "closed"], [Transition("open", "closed", None)]), [])

  ghost function FallbackEnv(muHours: real): Env {
    Env(Overlay(0.0, muHours, 1, 1, map[], AnomalyConfig(0.0, 0.0, 0.0, 0.0), None),
        Tape(n => 0.0, n => 0, n => InvalidDistribution), [])
  }

  /** A mean beyond the clamp exceeds the bound as soon as the distribution cannot be built. */
  lemma FallbackExceedsClamp(muHours: real)
    requires MeanMinutes(muHours) > 12000
    ensures !WithinClamp(FallbackEnv(muHours), map["p" := ("phase", ONE_MOVE)], ["p"], 0, 0)
  {
    var env: Env, d: Directory, id := FallbackEnv(muHours), map["p" := ("phase", ONE_MOVE)], "p";
    OneMoveWalk(muHours);
    assert Walked(env.overlay, d[id].1);
    assert [id][..0] == [];
    assert RunProcedures(env, d, [id], NewRun(0, 0)) == RunProcedure(env, d, id, RunProcedures(env, d, [], NewRun(0, 0)));
  }

  lemma OneMoveWalk(muHours: real)
    requires MeanMinutes(muHours) > 12000
    ensures var w := WalkProcedure(FallbackEnv(muHours), ONE_MOVE, "phase", NewRun(0, 0));
            |w.run.log| == 1 && w.run.clock == MeanMinutes(muHours)
  {
    var env, proc := FallbackEnv(muHours), ONE_MOVE;
    var start := StartWalk(proc, NewRun(0, 0));
    var t := Transition("open", "closed", None);
    assert [t][..0] == [];
    assert Outgoing(proc.aggregate, "open") == [t] by {
      FilterAll((x: Transition) => x.fromState == "open", [t]);
    }
    assert WalkChoice(env, proc, start) == Take(Hop(t, false), 0);
    WalkOnTakes(env, proc, "phase", start);
    WalkOnStops(env, proc, "phase", WalkStep(env, proc, "phase", start, Hop(t, false), 0));
  }

  /** The bound holds of every run with this mean, clamped or not, exactly when the mean itself is
      within the clamp, to the minute. */
  lemma ClampHoldsIff(muHours: real)
    ensures (forall env: Env, d: Directory, order, start, draws :: env.overlay.muHours == muHours ==> WithinClamp(env, d, order, start, draws)) <==>
            MeanMinutes(muHours) <= 12000
  {
    if MeanMinutes(muHours) > 12000 {
      FallbackExceedsClamp(muHours);
      assert FallbackEnv(muHours).overlay.muHours == muHours;
    } else {
      forall env: Env, d: Directory, order, start, draws | env.overlay.muHours == muHours
        ensures WithinClamp(env, d, order, start, draws)
      {
        TimeAccounting(env, d, order, start, draws);
      }
    }
  }

  /** Anomaly conservation: as many records as flagged events, matching one by one in order. */
  lemma AnomalyConservation(env: Env, d: Directory, order: seq<string>, start: int, draws: nat)
    ensures var r := RunProcedures(env, d, order, NewRun(start, draws));
            RecordLabels(r.anomalies) == FlaggedLabels(r.log) && |r.anomalies| == FlaggedCount(r.log)
  {
    RunRecords(env, d, order, start, draws);
    FlaggedCountIsLabels(RunProcedures(env, d, order, NewRun(start, draws)).log);
  }

  // ----- precedence -----

  /** The log lists the procedures' events in the execution order, each procedure's together. */
  ghost predicate Follows(log: seq<AuditEvent>, order: seq<string>) {
    && (forall i :: 0 <= i < |log| ==> log[i].procedureId in order)
    && forall i, j :: 0 <= i < j < |log| ==> IndexOf(order, log[i].procedureId) <= IndexOf(order, log[j].procedureId)
  }

  lemma {:induction false} IndexOfAppend(order: seq<string>, x: string, y: string)
    requires y in order
    ensures y in order + [x] && IndexOf(order + [x], y) == IndexOf(order, y)
  {
    assert (order + [x])[0] == order[0];
    if order[0] != y {
      assert order == [order[0]] + order[1..];
      assert (order + [x])[1..] == order[1..] + [x];
      IndexOfAppend(order[1..], x, y);
    }
  }

  lemma IndexOfLast(order: seq<string>, x: string)
    requires x !in order
    ensures IndexOf(order + [x], x) == |order|
  {}

  lemma FollowsExtend(base: Run, r: Run, order: seq<string>, x: string)
    requires Follows(base.log, order) && x !in order && Extends(base, r, x)
    ensures Follows(r.log, order + [x])
  {
    IndexOfLast(order, x);
    forall i | 0 <= i < |r.log|
      ensures r.log[i].procedureId in order + [x]
      ensures i < |base.log| ==> r.log[i] == base.log[i] &&
                                 IndexOf(order + [x], r.log[i].procedureId) == IndexOf(order, base.log[i].procedureId)
      ensures i >= |base.log| ==> IndexOf(order + [x], r.log[i].procedureId) == |order|
    {
      if i < |base.log| {
        assert r.log[i] == r.log[..|base.log|][i];
        IndexOfAppend(order, x, base.log[i].procedureId);
      }
    }
  }

  lemma ListedExtends(env: Env, d: Directory, id: string, r: Run)
    requires FiledById(d)
    ensures Extends(r, RunProcedure(env, d, id, r), id)
  {
    if id in d && Walked(env.overlay, d[id].1) {
      ProcedureBlock(env, d[id].1, d[id].0, r);
    }
  }

  /** The log goes through the procedures in the order they are run. */
  lemma {:induction false} RunFollows(env: Env, d: Directory, order: seq<string>, start: int, draws: nat)
    requires FiledById(d) && NoDup(order)
    ensures Follows(RunProcedures(env, d, order, NewRun(start, draws)).log, order)
  {
    if order == [] {
    } else {
      var front, id := order[..|order| - 1], order[|order| - 1];
      RunFollows(env, d, front, start, draws);
      var mid := RunProcedures(env, d, front, NewRun(start, draws));
      assert id !in front && order == front + [id];
      ListedExtends(env, d, id, mid);
      FollowsExtend(mid, RunProcedure(env, d, id, mid), front, id);
    }
  }

  /** The events of one procedure are contiguous. */
  lemma Contiguous(log: seq<AuditEvent>, order: seq<string>, i: nat, j: nat, k: nat)
    requires Follows(log, order) && i < j < k < |log| && log[i].procedureId == log[k].procedureId
    ensures log[j].procedureId == log[i].procedureId
  {}

  /** Precedence: run in a topological order, every event of a precondition comes before
      every event of any dependent. */
  lemma PreconditionsFirst(
    env: Env, d: Directory, order: seq<string>, ids: seq<string>, g: PreconditionGraph.Graph, start: int, draws: nat, i: nat, j: nat)
    requires FiledById(d) && TopologicalOrder.IsTopologicalOrder(order, ids, g)
    requires var log := RunProcedures(env, d, order, NewRun(start, draws)).log;
             i < |log| && j < |log| && log[i].procedureId in PreconditionGraph.Pre(g, log[j].procedureId)
    ensures i < j
  {
    RunFollows(env, d, order, start, draws);
    var log := RunProcedures(env, d, order, NewRun(start, draws)).log;
    assert IndexOf(order, log[i].procedureId) < IndexOf(order, log[j].procedureId);
  }

  // ----- final states -----

  lemma {:induction false} WalkOnStates(env: Env, proc: Procedure, phaseId: string, w: Walk)
    requires proc.id in w.run.procedureStates && w.run.procedureStates[proc.id] == w.current
    ensures var w' := WalkOn(env, proc, phaseId, w);
            w'.run.procedureStates == w.run.procedureStates[proc.id := w'.current]
    decreases Limit(env, proc) - |w.trace|
  {
    if |w.trace| < Limit(env, proc) {
      var c := WalkChoice(env, proc, w);
      if c.Take? {
        TakeSetsState(env, proc, phaseId, w.current, c.hop.t, Selected(env, proc, w));
        WalkOnStates(env, proc, phaseId, WalkStep(env, proc, phaseId, w, c.hop, c.selfLoops));
      }
    }
  }

  lemma WalkSetsState(env: Env, proc: Procedure, phaseId: string, r: Run)
    ensures var w := WalkProcedure(env, proc, phaseId, r);
            w.run.procedureStates == r.procedureStates[proc.id := w.current]
  {
    var w := WalkProcedure(env, proc, phaseId, r);
    WalkOnStates(env, proc, phaseId, StartWalk(proc, r));
    assert StartWalk(proc, r).run.procedureStates[proc.id := w.current] == r.procedureStates[proc.id := w.current];
  }

  /** The `i`-th procedure has a machine and passes the filter. */
  ghost predicate IsWalked(env: Env, d: Directory, order: seq<string>, i: nat)
    requires i < |order|
  {
    order[i] in d && Walked(env.overlay, d[order[i]].1)
  }

  /** The walk the run makes of its `i`-th procedure, from wherever the ones before left it. */
  ghost function WalkOf(env: Env, d: Directory, order: seq<string>, start: int, draws: nat, i: nat): Walk
    requires i < |order| && order[i] in d
  {
    WalkProcedure(env, d[order[i]].1, d[order[i]].0, RunProcedures(env, d, order[..i], NewRun(start, draws)))
  }

  /** The states are those of the procedures walked, each where its own walk in this run ended. */
  ghost predicate StatesOf(env: Env, d: Directory, order: seq<string>, start: int, draws: nat, states: map<string, string>) {
    && (forall id :: id in states ==> id in order)
    && (forall i :: 0 <= i < |order| ==> (order[i] in states <==> IsWalked(env, d, order, i)))
    && (forall i :: 0 <= i < |order| && IsWalked(env, d, order, i) ==>
                      states[order[i]] == WalkOf(env, d, order, start, draws, i).current)
  }

  lemma {:induction false} FinalStates(env: Env, d: Directory, order: seq<string>, start: int, draws: nat)
    requires FiledById(d) && NoDup(order)
    ensures StatesOf(env, d, order, start, draws, RunProcedures(env, d, order, NewRun(start, draws)).procedureStates)
  {
    if order == [] {
    } else {
      var n := |order| - 1;
      var front, id := order[..n], order[n];
      FinalStates(env, d, front, start, draws);
      var mid := RunProcedures(env, d, front, NewRun(start, draws));
      assert id !in front && order == front + [id];
      if id in d && Walked(env.overlay, d[id].1) {
        WalkSetsState(env, d[id].1, d[id].0, mid);
      }
      StatesExtend(env, d, order, start, draws, mid.procedureStates, RunProcedure(env, d, id, mid).procedureStates);
    }
  }

  lemma StatesExtend(
    env: Env, d: Directory, order: seq<string>, start: int, draws: nat, states: map<string, string>, states': map<string, string>)
    requires order != [] && NoDup(order)
    requires var n := |order| - 1;
             && StatesOf(env, d, order[..n], start, draws, states)
             && states' == if IsWalked(env, d, order, n) then states[order[n] := WalkOf(env, d, order, start, draws, n).current] else states
    ensures StatesOf(env, d, order, start, draws, states')
  {
    var n := |order| - 1;
    var front := order[..n];
    assert order == front + [order[n]] && order[n] !in front;
    forall i | 0 <= i < n
      ensures order[i] in states' <==> IsWalked(env, d, order, i)
      ensures IsWalked(env, d, order, i) ==> states'[order[i]] == WalkOf(env, d, order, start, draws, i).current
    {
      assert front[i] == order[i] && front[..i] == order[..i];
      assert IsWalked(env, d, front, i) == IsWalked(env, d, order, i);
    }
  }

  // ----- the walks, read off the finished log -----

  ghost function EventsOf(log: seq<AuditEvent>, id: string): seq<AuditEvent> {
    Filter((e: AuditEvent) => e.procedureId == id, log)
  }

  lemma {:induction false} RecordsAppend(a: seq<AuditEvent>, b: seq<AuditEvent>)
    ensures Moves(a + b) == Moves(a) + Moves(b) && StepIds(a + b) == StepIds(a) + StepIds(b)
  {
    if b == [] {
      assert a + b == a;
    } else {
      var n := |b| - 1;
      RecordsAppend(a, b[..n]);
      assert (a + b)[..|a + b| - 1] == a + b[..n];
    }
  }

  /** The events of `proc` in the log tell its whole walk: its transition events are the walk's,
      its step events are all its steps, once for each entry to the work state and each self-loop. */
  ghost predicate TellsWalk(log: seq<AuditEvent>, proc: Procedure, w: Walk) {
    && Moves(EventsOf(log, proc.id)) == HopPairs(w.trace)
    && StepIds(EventsOf(log, proc.id)) == Repeat(StepNames(proc.steps), WorkRuns(proc.aggregate, w.trace))
  }

  lemma BlockIsEvents(before: seq<AuditEvent>, block: seq<AuditEvent>, id: string)
    requires forall e :: e in before ==> e.procedureId != id
    requires forall e :: e in block ==> e.procedureId == id
    ensures EventsOf(before + block, id) == block
  {
    FilterAppend((e: AuditEvent) => e.procedureId == id, before, block);
    FilterNone((e: AuditEvent) => e.procedureId == id, before);
    FilterAll((e: AuditEvent) => e.procedureId == id, block);
  }

  lemma SamePrefix<T>(a: seq<T>, x: seq<T>, y: seq<T>)
    requires a + x == a + y
    ensures x == y
  {
    assert (a + x)[|a|..] == x && (a + y)[|a|..] == y;
  }

  lemma BlockTellsWalk(base: Run, proc: Procedure, w: Walk)
    requires WalkBlock(base, proc, w) && forall e :: e in base.log ==> e.procedureId != proc.id
    ensures TellsWalk(w.run.log, proc, w)
  {
    var block := w.run.log[|base.log|..];
    assert w.run.log == base.log + block;
    BlockIsEvents(base.log, block, proc.id);
    RecordsAppend(base.log, block);
    SamePrefix(Moves(base.log), Moves(block), HopPairs(w.trace));
    SamePrefix(StepIds(base.log), StepIds(block), Repeat(StepNames(proc.steps), WorkRuns(proc.aggregate, w.trace)));
  }

  lemma OthersUntouched(base: Run, r: Run, id: string, other: string)
    requires Extends(base, r, id) && other != id
    ensures EventsOf(r.log, other) == EventsOf(base.log, other)
  {
    var block := r.log[|base.log|..];
    assert r.log == base.log + block;
    FilterAppend((e: AuditEvent) => e.procedureId == other, base.log, block);
    FilterNone((e: AuditEvent) => e.procedureId == other, block);
  }

  lemma {:induction false} LogTellsWalks(env: Env, d: Directory, order: seq<string>, start: int, draws: nat, i: nat)
    requires FiledById(d) && NoDup(order) && i < |order| && IsWalked(env, d, order, i)
    ensures TellsWalk(RunProcedures(env, d, order, NewRun(start, draws)).log, d[order[i]].1, WalkOf(env, d, order, start, draws, i))
  {
    var n := |order| - 1;
    var front, id := order[..n], order[n];
    var mid := RunProcedures(env, d, front, NewRun(start, draws));
    assert order == front + [id] && id !in front;
    RunFollows(env, d, front, start, draws);
    if i == n {
      ProcedureBlock(env, d[id].1, d[id].0, mid);
      BlockTellsWalk(mid, d[id].1, WalkOf(env, d, order, start, draws, n));
    } else {
      assert front[i] == order[i] && front[..i] == order[..i];
      LogTellsWalks(env, d, front, start, draws, i);
      ListedExtends(env, d, id, mid);
      OthersUntouched(mid, RunProcedure(env, d, id, mid), id, order[i]);
    }
  }

  /** The walk of every procedure, read off the finished run: its transition events spell a path of
      its machine from the initial state to the recorded final state, without a long stretch of
      self-loops and stopped for one of the three reasons; its step events number the steps times
      the entries to the work state and self-loops of that path. */
  lemma RunTellsWalks(env: Env, d: Directory, order: seq<string>, start: int, draws: nat, i: nat)
    requires FiledById(d) && NoDup(order) && i < |order| && IsWalked(env, d, order, i)
    ensures var r, proc, w := RunProcedures(env, d, order, NewRun(start, draws)), d[order[i]].1, WalkOf(env, d, order, start, draws, i);
            && TellsWalk(r.log, proc, w)
            && WellShaped(env, proc, w)
            && order[i] in r.procedureStates && r.procedureStates[order[i]] == w.current
            && |StepIds(EventsOf(r.log, proc.id))| == WorkRuns(proc.aggregate, w.trace) * |proc.steps|
  {
    var proc, w := d[order[i]].1, WalkOf(env, d, order, start, draws, i);
    LogTellsWalks(env, d, order, start, draws, i);
    FinalStates(env, d, order, start, draws);
    WalkShape(env, proc, d[order[i]].0, RunProcedures(env, d, order[..i], NewRun(start, draws)));
    RepeatLength(StepNames(proc.steps), WorkRuns(proc.aggregate, w.trace));
  }
}
