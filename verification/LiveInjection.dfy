/** Anomalies injected into a finished log: events are flagged in place, each at most once. */
module LiveInjection {
  import opened Wrappers
  import Seqs
  import opened EventLog
  import opened Simulation

  datatype InjectionConfig = InjectionConfig(
    anomalyType: AnomalyType,
    targetProcedure: Option<string>,
    probability: real,
    severity: Severity)

  predicate Targets(c: InjectionConfig, e: AuditEvent) {
    c.targetProcedure.Some? ==> e.procedureId == c.targetProcedure.value
  }

  function Flag(e: AuditEvent, c: InjectionConfig): AuditEvent {
    e.(isAnomaly := true, anomalyType := Some(c.anomalyType))
  }

  function RecordOf(e: AuditEvent, c: InjectionConfig, id: int): AnomalyRecord {
    AnomalyRecord(id, c.anomalyType, c.severity, e.procedureId, e.stepId, e.timestamp)
  }

  /** The first configuration that targets the event and whose roll hits; rolls are drawn only
      for configurations that target it. */
  function FirstHit(configs: seq<InjectionConfig>, e: AuditEvent, tape: Tape, draws: nat): (Option<InjectionConfig>, nat) {
    if configs == [] then (None, draws)
    else if !Targets(configs[0], e) then FirstHit(configs[1..], e, tape, draws)
    else if tape.roll(draws) >= configs[0].probability then FirstHit(configs[1..], e, tape, draws + 1)
    else
      (Some(configs[0]), draws + 1)
  }

  datatype Injection = Injection(events: seq<AuditEvent>, records: seq<AnomalyRecord>, draws: nat)

  function InjectOne(e: AuditEvent, configs: seq<InjectionConfig>, tape: Tape, before: Injection): Injection {
    if e.isAnomaly then before.(events := before.events + [e])
    else
      var (hit, draws) := FirstHit(configs, e, tape, before.draws);
      match hit
      case None => Injection(before.events + [e], before.records, draws)
      case Some(c) =>
        Injection(before.events + [Flag(e, c)], before.records + [RecordOf(e, c, tape.bytes(draws))], draws + 1)
  }

  function Inject(events: seq<AuditEvent>, configs: seq<InjectionConfig>, tape: Tape): Injection {
    if events == [] then Injection([], [], 0)
    else
      InjectOne(events[|events| - 1], configs, tape, Inject(events[..|events| - 1], configs, tape))
  }

  lemma {:induction false} InjectKeepsLength(events: seq<AuditEvent>, configs: seq<InjectionConfig>, tape: Tape)
    ensures |Inject(events, configs, tape).events| == |events|
  {
    if events == [] {
    } else {
      InjectKeepsLength(events[..|events| - 1], configs, tape);
    }
  }

  /** The loop over the configurations for one event. */
  method FindHit(configs: seq<InjectionConfig>, e: AuditEvent, tape: Tape, draws0: nat)
    returns (hit: Option<InjectionConfig>, draws: nat)
    ensures (hit, draws) == FirstHit(configs, e, tape, draws0)
  {
    draws := draws0;
    for i := 0 to |configs|
      invariant FirstHit(configs, e, tape, draws0) == FirstHit(configs[i..], e, tape, draws)
    {
      var config := configs[i];
      if !Targets(config, e) {
        continue;
      }
      var roll := tape.roll(draws);
      draws := draws + 1;
      if roll >= config.probability {
        continue;
      }
      return Some(config), draws;
    }
    hit := None;
  }

  method InjectLiveAnomalies(events: array<AuditEvent>, configs: seq<InjectionConfig>, tape: Tape)
    returns (records: seq<AnomalyRecord>)
    modifies events
    ensures events[..] == Inject(old(events[..]), configs, tape).events
    ensures records == Inject(old(events[..]), configs, tape).records
  {
    records := [];
    var draws := 0;
    ghost var given := events[..];
    for i := 0 to events.Length
      invariant Injection(events[..i], records, draws) == Inject(given[..i], configs, tape)
      invariant |given| == events.Length && forall k :: i <= k < events.Length ==> events[k] == given[k]
    {
      var event := events[i];
      assert given[i] == event && given[..i + 1][..i] == given[..i];
      if event.isAnomaly {
        assert events[..i + 1] == events[..i] + [event];
        continue;
      }
      var hit, d := FindHit(configs, event, tape, draws);
      draws := d;
      if hit.Some? {
        events[i] := Flag(event, hit.value);
        records := records + [RecordOf(event, hit.value, tape.bytes(draws))];
        draws := draws + 1;
      }
      assert events[..i + 1] == events[..i] + [events[i]];
    }
    assert events[..events.Length] == events[..] && given[..events.Length] == given;
  }

  // ----- conservation -----

  lemma {:induction false} HitTargets(configs: seq<InjectionConfig>, e: AuditEvent, tape: Tape, draws: nat)
    ensures FirstHit(configs, e, tape, draws).0.Some? ==>
              FirstHit(configs, e, tape, draws).0.value in configs && Targets(FirstHit(configs, e, tape, draws).0.value, e)
  {
    if configs == [] {
    } else {
      HitTargets(configs[1..], e, tape, draws);
      HitTargets(configs[1..], e, tape, draws + 1);
    }
  }

  /** What may happen to one event: nothing, or, if it was not flagged, being flagged by a
      configuration that targets it. */
  ghost predicate InjectedBy(e: AuditEvent, e': AuditEvent, configs: seq<InjectionConfig>) {
    || e' == e
    || (!e.isAnomaly && exists c :: c in configs && Targets(c, e) && e' == Flag(e, c))
  }

  /** The labels of the events that were not flagged before and are now. */
  ghost function NewLabels(before: seq<AuditEvent>, after: seq<AuditEvent>): seq<Label>
    requires |before| == |after|
  {
    if before == [] then []
    else
      var n := |before| - 1;
      NewLabels(before[..n], after[..n]) + if before[n].isAnomaly then [] else EventLabel(after[n])
  }

  ghost predicate Conserves(before: seq<AuditEvent>, configs: seq<InjectionConfig>, r: Injection) {
    && |r.events| == |before|
    && (forall i :: 0 <= i < |before| ==> InjectedBy(before[i], r.events[i], configs))
    && RecordLabels(r.records) == NewLabels(before, r.events)
    && FlaggedCount(r.events) == FlaggedCount(before) + |r.records|
  }

  /** One event: as many records as flags are added, and a record repeats the flagged event's label. */
  ghost predicate AddsOne(e: AuditEvent, e': AuditEvent, configs: seq<InjectionConfig>, r: Injection, r': Injection) {
    && r'.events == r.events + [e']
    && InjectedBy(e, e', configs)
    && RecordLabels(r'.records) == RecordLabels(r.records) + (if e.isAnomaly then [] else EventLabel(e'))
    && |r'.records| + (if e.isAnomaly then 1 else 0) == |r.records| + if e'.isAnomaly then 1 else 0
  }

  lemma InjectOneAdds(e: AuditEvent, configs: seq<InjectionConfig>, tape: Tape, r: Injection)
    ensures var e' := InjectOne(e, configs, tape, r).events[|r.events|];
            AddsOne(e, e', configs, r, InjectOne(e, configs, tape, r))
  {
    HitTargets(configs, e, tape, r.draws);
    var (hit, draws) := FirstHit(configs, e, tape, r.draws);
    if hit.Some? {
      RecordLabelsPush(r.records, RecordOf(e, hit.value, tape.bytes(draws)));
    }
  }

  lemma RecordLabelsPush(records: seq<AnomalyRecord>, record: AnomalyRecord)
    ensures RecordLabels(records + [record]) == RecordLabels(records) + [LabelOf(record)]
  {}

  lemma ConservesOne(
    before: seq<AuditEvent>, e: AuditEvent, e': AuditEvent, configs: seq<InjectionConfig>, r: Injection, r': Injection)
    requires Conserves(before, configs, r) && AddsOne(e, e', configs, r, r')
    ensures Conserves(before + [e], configs, r')
  {}

  /** Live injection: flagged events stay as they are, every other event is left alone or flagged
      once by a configuration that targets it, and the records are exactly, in order, the labels
      of the newly flagged events. */
  lemma {:induction false} InjectionConserves(events: seq<AuditEvent>, configs: seq<InjectionConfig>, tape: Tape)
    ensures Conserves(events, configs, Inject(events, configs, tape))
  {
    if events == [] {
    } else {
      var front, last := events[..|events| - 1], events[|events| - 1];
      assert events == front + [last];
      InjectionConserves(front, configs, tape);
      var r, r' := Inject(front, configs, tape), Inject(events, configs, tape);
      InjectOneAdds(last, configs, tape, r);
      ConservesOne(front, last, r'.events[|r.events|], configs, r, r');
    }
  }

  // ----- which rolls decide -----

  ghost predicate AimsAt(c: InjectionConfig, e: AuditEvent) {
    c.targetProcedure == None || c.targetProcedure == Some(e.procedureId)
  }

  /** How many of the first `n` configurations aim at the event; each of them takes a roll. */
  ghost function AimedBefore(configs: seq<InjectionConfig>, e: AuditEvent, n: nat): nat
    requires n <= |configs|
  {
    if n == 0 then 0 else AimedBefore(configs, e, n - 1) + if AimsAt(configs[n - 1], e) then 1 else 0
  }

  /** No configuration before the n-th both aims at the event and rolls below its probability. */
  ghost predicate MissedBefore(configs: seq<InjectionConfig>, e: AuditEvent, tape: Tape, draw: nat, n: nat)
    requires n <= |configs|
  {
    forall k :: 0 <= k < n && AimsAt(configs[k], e) ==> tape.roll(draw + AimedBefore(configs, e, k)) >= configs[k].probability
  }

  /** The n-th configuration is the first to aim at the event and to roll below its probability. */
  ghost predicate HitAt(configs: seq<InjectionConfig>, e: AuditEvent, tape: Tape, draw: nat, n: nat)
    requires n < |configs|
  {
    && MissedBefore(configs, e, tape, draw, n) && AimsAt(configs[n], e)
    && tape.roll(draw + AimedBefore(configs, e, n)) < configs[n].probability
  }

  ghost predicate HitRule(
    configs: seq<InjectionConfig>, e: AuditEvent, tape: Tape, draw: nat, hit: Option<InjectionConfig>, draw': nat)
  {
    match hit
    case None => MissedBefore(configs, e, tape, draw, |configs|) && draw' == draw + AimedBefore(configs, e, |configs|)
    case Some(c) =>
      exists n :: 0 <= n < |configs| && HitAt(configs, e, tape, draw, n) && c == configs[n]
                  && draw' == draw + AimedBefore(configs, e, n) + 1
  }

  lemma {:induction false} AimedTail(configs: seq<InjectionConfig>, e: AuditEvent, n: nat)
    requires 1 <= n <= |configs|
    ensures AimedBefore(configs, e, n) == AimedBefore(configs[1..], e, n - 1) + if AimsAt(configs[0], e) then 1 else 0
  {
    if n == 1 {
      assert AimedBefore(configs, e, 0) == 0;
    } else {
      AimedTail(configs, e, n - 1);
      assert configs[1..][n - 2] == configs[n - 1];
    }
  }

  lemma MissedTail(configs: seq<InjectionConfig>, e: AuditEvent, tape: Tape, draw: nat, n: nat)
    requires 1 <= n <= |configs|
    requires AimsAt(configs[0], e) ==> tape.roll(draw) >= configs[0].probability
    requires MissedBefore(configs[1..], e, tape, draw + if AimsAt(configs[0], e) then 1 else 0, n - 1)
    ensures MissedBefore(configs, e, tape, draw, n)
  {
    forall k | 0 <= k < n && AimsAt(configs[k], e)
      ensures tape.roll(draw + AimedBefore(configs, e, k)) >= configs[k].probability
    {
      if k > 0 {
        AimedTail(configs, e, k);
        assert configs[1..][k - 1] == configs[k];
      }
    }
  }

  lemma HitRuleTail(
    configs: seq<InjectionConfig>, e: AuditEvent, tape: Tape, draw: nat, next: nat, hit: Option<InjectionConfig>, draw': nat)
    requires configs != [] && next == draw + if AimsAt(configs[0], e) then 1 else 0
    requires AimsAt(configs[0], e) ==> tape.roll(draw) >= configs[0].probability
    requires HitRule(configs[1..], e, tape, next, hit, draw')
    ensures HitRule(configs, e, tape, draw, hit, draw')
  {
    hide MissedBefore, AimedBefore, AimsAt;
    match hit
    case None =>
      MissedTail(configs, e, tape, draw, |configs|);
      AimedTail(configs, e, |configs|);
    case Some(c) =>
      var n :| 0 <= n < |configs[1..]| && HitAt(configs[1..], e, tape, next, n) && c == configs[1..][n]
               && draw' == next + AimedBefore(configs[1..], e, n) + 1;
      MissedTail(configs, e, tape, draw, n + 1);
      AimedTail(configs, e, n + 1);
      assert HitAt(configs, e, tape, draw, n + 1);
  }

  lemma {:induction false} FirstHitFollowsRule(configs: seq<InjectionConfig>, e: AuditEvent, tape: Tape, draw: nat)
    ensures HitRule(configs, e, tape, draw, FirstHit(configs, e, tape, draw).0, FirstHit(configs, e, tape, draw).1)
  {
    if configs == [] {
    } else if Targets(configs[0], e) && tape.roll(draw) < configs[0].probability {
      assert AimedBefore(configs, e, 0) == 0;
      assert HitAt(configs, e, tape, draw, 0);
    } else {
      hide HitRule;
      var next := draw + if AimsAt(configs[0], e) then 1 else 0;
      FirstHitFollowsRule(configs[1..], e, tape, next);
      HitRuleTail(configs, e, tape, draw, next, FirstHit(configs, e, tape, draw).0, FirstHit(configs, e, tape, draw).1);
    }
  }

  /** What becomes of one event, which record is made, and at which draw the next event begins. */
  ghost predicate EventRule(
    e: AuditEvent, e': AuditEvent, records: seq<AnomalyRecord>, configs: seq<InjectionConfig>, tape: Tape, draw: nat, draw': nat)
  {
    if e.isAnomaly then e' == e && records == [] && draw' == draw
    else
      exists hit, rolled: nat ::
        && HitRule(configs, e, tape, draw, hit, rolled)
        && match hit
           case None => e' == e && records == [] && draw' == rolled
           case Some(c) =>
             && e' == e.(isAnomaly := true, anomalyType := Some(c.anomalyType))
             && records == [AnomalyRecord(tape.bytes(rolled), c.anomalyType, c.severity, e.procedureId, e.stepId, e.timestamp)]
             && draw' == rolled + 1
  }

  ghost predicate EventsAlong(
    events: seq<AuditEvent>, after: seq<AuditEvent>, parts: seq<seq<AnomalyRecord>>, draws: seq<nat>,
    configs: seq<InjectionConfig>, tape: Tape)
  {
    && |after| == |parts| == |events| && |draws| == |events| + 1
    && forall i :: 0 <= i < |events| ==> EventRule(events[i], after[i], parts[i], configs, tape, draws[i], draws[i + 1])
  }

  /** Event after event, the first at draw 0, and the records in the order of the events. */
  ghost predicate InjectionRule(events: seq<AuditEvent>, configs: seq<InjectionConfig>, tape: Tape, r: Injection) {
    exists parts, draws ::
      EventsAlong(events, r.events, parts, draws, configs, tape) && draws[0] == 0 && draws[|events|] == r.draws
      && Seqs.Joins(r.records, parts)
  }

  lemma OneFollowsRule(e: AuditEvent, configs: seq<InjectionConfig>, tape: Tape, before: Injection)
    returns (e': AuditEvent, records: seq<AnomalyRecord>)
    ensures var r := InjectOne(e, configs, tape, before);
            && r.events == before.events + [e'] && r.records == before.records + records
            && EventRule(e, e', records, configs, tape, before.draws, r.draws)
  {
    FirstHitFollowsRule(configs, e, tape, before.draws);
    var r := InjectOne(e, configs, tape, before);
    e' := r.events[|before.events|];
    records := r.records[|before.records|..];
  }

  /** Every injection is one the rule allows, roll by roll. */
  lemma {:induction false} InjectionFollowsRule(events: seq<AuditEvent>, configs: seq<InjectionConfig>, tape: Tape)
    ensures InjectionRule(events, configs, tape, Inject(events, configs, tape))
  {
    if events == [] {
      assert EventsAlong(events, [], [], [0], configs, tape);
    } else {
      hide EventRule, Seqs.Joins, InjectOne;
      var front, last := events[..|events| - 1], events[|events| - 1];
      var before, r := Inject(front, configs, tape), Inject(events, configs, tape);
      InjectionFollowsRule(front, configs, tape);
      var parts, draws :| EventsAlong(front, before.events, parts, draws, configs, tape) && draws[0] == 0
                          && draws[|front|] == before.draws && Seqs.Joins(before.records, parts);
      var e', records := OneFollowsRule(last, configs, tape, before);
      Seqs.JoinsPush(before.records, parts, records);
      AlongPush(events, before.events, parts, draws, configs, tape, e', records, r.draws);
    }
  }

  lemma AlongPush(
    events: seq<AuditEvent>, after: seq<AuditEvent>, parts: seq<seq<AnomalyRecord>>, draws: seq<nat>,
    configs: seq<InjectionConfig>, tape: Tape, e': AuditEvent, records: seq<AnomalyRecord>, draw': nat)
    requires events != [] && EventsAlong(events[..|events| - 1], after, parts, draws, configs, tape)
    requires EventRule(events[|events| - 1], e', records, configs, tape, draws[|events| - 1], draw')
    ensures EventsAlong(events, after + [e'], parts + [records], draws + [draw'], configs, tape)
  {
    hide EventRule;
    var after', parts', draws' := after + [e'], parts + [records], draws + [draw'];
    forall i | 0 <= i < |events| ensures EventRule(events[i], after'[i], parts'[i], configs, tape, draws'[i], draws'[i + 1]) {
      if i < |events| - 1 {
        assert events[..|events| - 1][i] == events[i];
      }
    }
  }
}
