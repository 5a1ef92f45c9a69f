/** Phase gates: conditions are printed as `procedure.<id>.<state>` when a blueprint is loaded
    and split apart again when a run ends. */
module Gates {
  import opened Wrappers
  import Seqs
  import opened Blueprint

  /** `splitn(n, '.')`. */
  function SplitN(s: string, n: nat): (parts: seq<string>)
    requires n > 0
    ensures 1 <= |parts| <= n
    decreases n
  {
    if n == 1 || '.' !in s then [s] else [BeforeDot(s)] + SplitN(AfterDot(s), n - 1)
  }

  function BeforeDot(s: string): string
    requires '.' in s
  {
    if s[0] == '.' then "" else assert s == [s[0]] + s[1..]; [s[0]] + BeforeDot(s[1..])
  }

  function AfterDot(s: string): string
    requires '.' in s
  {
    if s[0] == '.' then s[1..] else assert s == [s[0]] + s[1..]; AfterDot(s[1..])
  }

  function PrintCondition(procedure: string, state: string): string {
    "procedure." + procedure + "." + state
  }

  lemma {:induction false} SplitAtDot(a: string, b: string)
    requires '.' !in a
    ensures BeforeDot(a + "." + b) == a && AfterDot(a + "." + b) == b
  {
    var s := a + "." + b;
    if a == "" {
      assert s[0] == '.' && s[1..] == b;
    } else {
      SplitAtDot(a[1..], b);
      assert s[0] == a[0] && s[1..] == a[1..] + "." + b;
    }
  }

  lemma {:induction false} BeforeDotIsDotFree(s: string)
    requires '.' in s
    ensures '.' !in BeforeDot(s)
  {
    if s[0] != '.' {
      assert s == [s[0]] + s[1..];
      BeforeDotIsDotFree(s[1..]);
    }
  }

  /** The first two dots of a printed condition delimit what comes before the first dot of
      `<id>.<state>`. */
  lemma SplitPrinted(procedure: string, state: string)
    ensures var rest := procedure + "." + state;
            '.' in rest && SplitN(PrintCondition(procedure, state), 3) == ["procedure", BeforeDot(rest), AfterDot(rest)]
  {
    var rest := procedure + "." + state;
    var s := PrintCondition(procedure, state);
    assert s == "procedure" + "." + rest;
    SplitAtDot("procedure", rest);
    assert '.' in s by { assert s[9] == '.'; }
    assert '.' in rest by { assert rest[|procedure|] == '.'; }
    assert SplitN(AfterDot(s), 2) == [BeforeDot(rest)] + SplitN(AfterDot(rest), 1);
  }

  /** Gate round trip: printing and splitting recovers the pair exactly for dot-free ids,
      whatever the state. */
  lemma GateRoundTrip(procedure: string, state: string)
    ensures SplitN(PrintCondition(procedure, state), 3) == ["procedure", procedure, state] <==> '.' !in procedure
  {
    var rest := procedure + "." + state;
    SplitPrinted(procedure, state);
    BeforeDotIsDotFree(rest);
    if '.' !in procedure {
      SplitAtDot(procedure, state);
    }
  }

  /** The id a gate condition refers to, if it is of the expected form. */
  function ExtractProcedureId(predicate_: string): Option<string> {
    var parts := SplitN(predicate_, 3);
    if |parts| >= 2 && parts[0] == "procedure" then Some(parts[1]) else None
  }

  predicate ConditionHolds(predicate_: string, states: map<string, string>) {
    var parts := SplitN(predicate_, 3);
    |parts| == 3 && parts[0] == "procedure" && parts[1] in states && states[parts[1]] == parts[2]
  }

  predicate IsContinuous(phase: Phase) {
    phase.order.Some? && phase.order.value < 0
  }

  predicate AllHold(conditions: seq<string>, states: map<string, string>) {
    forall c :: c in conditions ==> ConditionHolds(c, states)
  }

  predicate PhaseCompleted(phase: Phase, states: map<string, string>) {
    !IsContinuous(phase) && (phase.exitGate.Some? ==> AllHold(phase.exitGate.value.allOf, states))
  }

  function CompletedPhases(phases: seq<Phase>, states: map<string, string>): seq<string> {
    if phases == [] then []
    else
      var last := phases[|phases| - 1];
      CompletedPhases(phases[..|phases| - 1], states) + if PhaseCompleted(last, states) then [last.id] else []
  }

  method ComputeCompletedPhases(phases: seq<Phase>, states: map<string, string>) returns (completed: seq<string>)
    ensures completed == CompletedPhases(phases, states)
  {
    completed := [];
    for i := 0 to |phases|
      invariant completed == CompletedPhases(phases[..i], states)
    {
      var phase := phases[i];
      assert phases[..i + 1][..i] == phases[..i];
      if IsContinuous(phase) {
        continue;
      }
      if phase.exitGate.Some? {
        var allMet := AllConditionsMet(phase.exitGate.value.allOf, states);
        if allMet {
          completed := completed + [phase.id];
        }
      } else {
        completed := completed + [phase.id];
      }
    }
    assert phases[..|phases|] == phases;
  }

  method AllConditionsMet(conditions: seq<string>, states: map<string, string>) returns (allMet: bool)
    ensures allMet <==> forall c :: c in conditions ==> ConditionHolds(c, states)
  {
    for i := 0 to |conditions|
      invariant forall c :: c in conditions[..i] ==> ConditionHolds(c, states)
    {
      if !ConditionHolds(conditions[i], states) {
        return false;
      }
    }
    return true;
  }

  // ----- gates as written in the blueprint file -----

  /** Pairs of a procedure and the state it must have reached. */
  datatype RawGate = RawGate(allOf: seq<(string, string)>, anyOf: seq<(string, string)>)

  function PrintConditions(raw: seq<(string, string)>): seq<string> {
    seq(|raw|, i requires 0 <= i < |raw| => PrintCondition(raw[i].0, raw[i].1))
  }

  function ConvertGate(raw: RawGate): PhaseGate {
    PhaseGate(PrintConditions(raw.allOf), PrintConditions(raw.anyOf))
  }

  ghost predicate Reached(states: map<string, string>, c: (string, string)) {
    c.0 in states && states[c.0] == c.1
  }

  lemma HoldsAfterSplit(procedure: string, state: string, states: map<string, string>)
    ensures var rest := procedure + "." + state;
            '.' in rest
            && (ConditionHolds(PrintCondition(procedure, state), states) <==>
                Reached(states, (BeforeDot(rest), AfterDot(rest))))
  {
    SplitPrinted(procedure, state);
  }

  lemma SplitDotted(procedure: string, state: string)
    requires '.' in procedure
    ensures var rest := procedure + "." + state;
            '.' in rest && BeforeDot(rest) == BeforeDot(procedure) && AfterDot(rest) == AfterDot(procedure) + "." + state
  {
    BeforeDotIsDotFree(procedure);
    Rejoin(procedure);
    var a, b := BeforeDot(procedure), AfterDot(procedure) + "." + state;
    assert procedure + "." + state == a + "." + b;
    SplitAtDot(a, b);
    assert (a + "." + b)[|a|] == '.';
  }

  /** A printed condition looks up the text before the first dot and compares the rest. */
  lemma PrintedConditionHolds(procedure: string, state: string, states: map<string, string>)
    ensures '.' !in procedure ==>
              (ConditionHolds(PrintCondition(procedure, state), states) <==> Reached(states, (procedure, state)))
    ensures '.' in procedure ==>
              (ConditionHolds(PrintCondition(procedure, state), states) <==>
               Reached(states, (BeforeDot(procedure), AfterDot(procedure) + "." + state)))
  {
    HoldsAfterSplit(procedure, state, states);
    if '.' !in procedure {
      SplitAtDot(procedure, state);
    } else {
      SplitDotted(procedure, state);
    }
  }

  lemma {:induction false} Rejoin(s: string)
    requires '.' in s
    ensures s == BeforeDot(s) + "." + AfterDot(s)
  {
    assert s == [s[0]] + s[1..];
    if s[0] != '.' {
      Rejoin(s[1..]);
    }
  }

  /** A phase is completed exactly when it is not continuous and has no gate, or every raw
      `all_of` pair was reached; what `any_of` asks for plays no part. */
  lemma PhaseCompletion(phase: Phase, raw: RawGate, states: map<string, string>)
    requires forall c :: c in raw.allOf ==> '.' !in c.0
    ensures phase.exitGate == None ==> (PhaseCompleted(phase, states) <==> !IsContinuous(phase))
    ensures phase.exitGate == Some(ConvertGate(raw)) ==>
              (PhaseCompleted(phase, states) <==> !IsContinuous(phase) && AllReached(raw.allOf, states))
  {
    PrintedGateHolds(raw, states);
  }

  ghost predicate AllReached(conditions: seq<(string, string)>, states: map<string, string>) {
    forall c :: c in conditions ==> Reached(states, c)
  }

  lemma PrintedGateHolds(raw: RawGate, states: map<string, string>)
    requires forall c :: c in raw.allOf ==> '.' !in c.0
    ensures AllHold(ConvertGate(raw).allOf, states) <==> AllReached(raw.allOf, states)
  {
    var printed := PrintConditions(raw.allOf);
    forall i | 0 <= i < |raw.allOf|
      ensures printed[i] in printed && (ConditionHolds(printed[i], states) <==> Reached(states, raw.allOf[i]))
    {
      PrintedConditionHolds(raw.allOf[i].0, raw.allOf[i].1, states);
    }
    if forall c :: c in raw.allOf ==> Reached(states, c) {
      assert AllHold(printed, states);
    } else {
      var c :| c in raw.allOf && !Reached(states, c);
      var i :| 0 <= i < |raw.allOf| && raw.allOf[i] == c;
      assert !ConditionHolds(printed[i], states);
    }
  }

  ghost predicate AnyReached(conditions: seq<(string, string)>, states: map<string, string>) {
    conditions == [] || exists c :: c in conditions && Reached(states, c)
  }

  /** What the gate as written asks for: everything in `all_of`, and something in `any_of` if that
      lists anything. */
  ghost predicate CompletedAsWritten(phase: Phase, raw: RawGate, states: map<string, string>) {
    !IsContinuous(phase) && AllReached(raw.allOf, states) && AnyReached(raw.anyOf, states)
  }

  /** Completion ignores `any_of`, and so agrees with the gate as written exactly when the phase is
      continuous, or `all_of` keeps it open anyway, or `any_of` asks for nothing or is met. */
  lemma AnyOfIsIgnored(phase: Phase, raw: RawGate, states: map<string, string>)
    requires forall c :: c in raw.allOf ==> '.' !in c.0
    requires phase.exitGate == Some(ConvertGate(raw))
    ensures (PhaseCompleted(phase, states) <==> CompletedAsWritten(phase, raw, states)) <==>
            IsContinuous(phase) || !AllReached(raw.allOf, states) || AnyReached(raw.anyOf, states)
  {
    PhaseCompletion(phase, raw, states);
  }

  /** A phase that may end once one of two procedures is closed ends while both are open. */
  lemma UnmetAnyOfPasses()
    ensures var raw := RawGate([("plan", "closed")], [("test", "closed"), ("review", "closed")]);
            var phase := Phase("fieldwork", Some(1), None, Some(ConvertGate(raw)), []);
            var states := map["plan" := "closed", "test" := "open", "review" := "open"];
            PhaseCompleted(phase, states) && !CompletedAsWritten(phase, raw, states)
  {
    var raw := RawGate([("plan", "closed")], [("test", "closed"), ("review", "closed")]);
    var phase := Phase("fieldwork", Some(1), None, Some(ConvertGate(raw)), []);
    var states := map["plan" := "closed", "test" := "open", "review" := "open"];
    PhaseCompletion(phase, raw, states);
    assert |"closed"| != |"open"|;
    assert raw.anyOf[0] == ("test", "closed") && raw.anyOf[1] == ("review", "closed");
    assert |"plan"| == |"test"| && |"review"| == 6 && "plan"[0] != "test"[0];
  }

  // ----- conditions as text -----

  /** The text names `id` and, after it, `rest`. */
  ghost predicate Reads(text: string, id: string, rest: string) {
    '.' !in id && text == "procedure." + id + "." + rest
  }

  lemma NoDotBefore(s: string, a: string, b: string)
    requires '.' !in a && s == a + "." + b
    ensures '.' in s && BeforeDot(s) == a && AfterDot(s) == b
  {
    assert s[|a|] == '.';
    SplitAtDot(a, b);
  }

  lemma SplitsPrefix(s: string)
    ensures "procedure." <= s ==> '.' in s && BeforeDot(s) == "procedure" && s == "procedure." + AfterDot(s)
    ensures '.' in s && BeforeDot(s) == "procedure" ==> "procedure." <= s
  {
    if "procedure." <= s {
      var rest := s[10..];
      assert s == "procedure" + "." + rest;
      NoDotBefore(s, "procedure", rest);
    }
    if '.' in s && BeforeDot(s) == "procedure" {
      Rejoin(s);
      assert s == "procedure." + AfterDot(s);
    }
  }

  /** A condition refers to a procedure exactly when it begins with `procedure.`, and then to the
      text from there to the next dot or to the end. */
  lemma ExtractMeans(s: string)
    ensures ExtractProcedureId(s).Some? <==> "procedure." <= s
    ensures ExtractProcedureId(s).Some? ==>
              var id := ExtractProcedureId(s).value;
              '.' !in id && (s == "procedure." + id || exists rest :: Reads(s, id, rest))
  {
    SplitsPrefix(s);
    if "procedure." <= s {
      var rest := AfterDot(s);
      assert SplitN(s, 3) == ["procedure"] + SplitN(rest, 2);
      if '.' in rest {
        BeforeDotIsDotFree(rest);
        Rejoin(rest);
        assert s == "procedure." + BeforeDot(rest) + "." + AfterDot(rest);
        assert Reads(s, BeforeDot(rest), AfterDot(rest));
      }
    }
  }

  /** The state compared is the whole text after the second dot. */
  lemma ConditionMeans(s: string, states: map<string, string>)
    ensures ConditionHolds(s, states) <==> exists id :: id in states && Reads(s, id, states[id])
  {
    SplitsPrefix(s);
    if ConditionHolds(s, states) {
      var rest := AfterDot(s);
      BeforeDotIsDotFree(rest);
      Rejoin(rest);
      assert s == "procedure." + BeforeDot(rest) + "." + AfterDot(rest);
      assert SplitN(AfterDot(rest), 1) == [AfterDot(rest)];
      assert Reads(s, BeforeDot(rest), states[BeforeDot(rest)]);
    }
    if id :| id in states && Reads(s, id, states[id]) {
      var rest := id + "." + states[id];
      assert s == "procedure" + "." + rest;
      NoDotBefore(s, "procedure", rest);
      NoDotBefore(rest, id, states[id]);
      assert SplitN(rest, 2) == [id] + SplitN(states[id], 1);
    }
  }

  /** Not continuous, and no exit gate or every condition of it reads as a state reached. */
  ghost predicate Completed(phase: Phase, states: map<string, string>) {
    && (phase.order.None? || phase.order.value >= 0)
    && (phase.exitGate.Some? ==>
          forall c :: c in phase.exitGate.value.allOf ==> exists id :: id in states && Reads(c, id, states[id]))
  }

  /** The ids of the completed phases, one after the other, and no other. */
  lemma {:induction false} CompletedInOrder(phases: seq<Phase>, states: map<string, string>)
    ensures Seqs.Joins(CompletedPhases(phases, states), CompletedParts(phases, states))
  {
    if phases == [] {
    } else {
      var front, last := phases[..|phases| - 1], phases[|phases| - 1];
      CompletedInOrder(front, states);
      CompletedIff(last, states);
      Seqs.JoinsPush(CompletedPhases(front, states), CompletedParts(front, states), if Completed(last, states) then [last.id] else []);
      CompletedPartsPush(phases, states);
    }
  }

  ghost function CompletedParts(phases: seq<Phase>, states: map<string, string>): seq<seq<string>> {
    seq(|phases|, i requires 0 <= i < |phases| => if Completed(phases[i], states) then [phases[i].id] else [])
  }

  lemma CompletedPartsPush(phases: seq<Phase>, states: map<string, string>)
    requires phases != []
    ensures var last := phases[|phases| - 1];
            CompletedParts(phases, states) ==
            CompletedParts(phases[..|phases| - 1], states) + [if Completed(last, states) then [last.id] else []]
  {}

  lemma CompletedIff(phase: Phase, states: map<string, string>)
    ensures PhaseCompleted(phase, states) <==> Completed(phase, states)
  {
    if phase.exitGate.Some? {
      forall c | c in phase.exitGate.value.allOf
        ensures ConditionHolds(c, states) <==> exists id :: id in states && Reads(c, id, states[id])
      {
        ConditionMeans(c, states);
      }
    }
  }
}
