/** The step dispatcher: which artifacts a step command adds to the bag, and what they refer to.
    The generators behind it are arbitrary functions of the call number and of the bag so far;
    `pick(call, bag, i, k)` is the k-th number drawn for the i-th artifact of a call. */
module Dispatch {
  import opened Wrappers
  import opened Seqs
  import opened CommandRouting
  import opened Artifacts

  datatype Generators = Generators(
    one: (nat, Bag) -> int,
    many: (nat, Bag) -> seq<int>,
    text: (nat, Bag) -> string,
    pick: (nat, Bag, nat, nat) -> nat,
    sectionOf: string -> Section)

  /** The analytics inventory's entry for a step; empty text where it has none. */
  datatype StepInventory = StepInventory(requirements: string, formFields: string, narratives: seq<string>)

  datatype Warning = NoEngagement(handler: Handler) | NoCombinedRisks

  /** The bag, the number of generator calls so far, and the warnings given. */
  datatype Desk = Desk(bag: Bag, calls: nat, warnings: seq<Warning>)

  function Last<T>(s: seq<T>): T
    requires s != []
  {
    s[|s| - 1]
  }

  function Link(ids: seq<int>, e: Engagement): seq<Linked> {
    seq(|ids|, i requires 0 <= i < |ids| => Linked(ids[i], e.id))
  }

  function EvidenceFor(ids: seq<int>, w: Workpaper, text: string): seq<Evidence> {
    seq(|ids|, i requires 0 <= i < |ids| => Evidence(ids[i], w.id, w.engagement, text))
  }

  // ----- papers that findings and confirmations refer to -----

  /** One to three papers are cited, with repetition, once there is one. */
  function Cited(g: Generators, calls: nat, bag: Bag, i: nat): seq<int> {
    var papers := bag.workpapers;
    if papers == [] then []
    else
      var most := if |papers| <= 3 then |papers| else 3;
      seq(1 + g.pick(calls, bag, i, 0) % most, k requires 0 <= k => papers[g.pick(calls, bag, i, k + 1) % |papers|].id)
  }

  function FindingsFor(g: Generators, calls: nat, bag: Bag, ids: seq<int>, e: Engagement): seq<Finding> {
    seq(|ids|, i requires 0 <= i < |ids| => Finding(ids[i], e.id, Cited(g, calls, bag, i)))
  }

  function SubstantivePapers(bag: Bag): seq<Workpaper> {
    Filter((w: Workpaper) => w.section == SubstantiveTesting, bag.workpapers)
  }

  /** A paper of substantive testing, if there is one. */
  function TestedIn(g: Generators, calls: nat, bag: Bag, i: nat): Option<int> {
    var papers := SubstantivePapers(bag);
    if papers == [] then None else Some(papers[g.pick(calls, bag, i, 0) % |papers|].id)
  }

  function ConfirmationsFor(g: Generators, calls: nat, bag: Bag, ids: seq<int>, e: Engagement): seq<Confirmation> {
    seq(|ids|, i requires 0 <= i < |ids| => Confirmation(ids[i], e.id, TestedIn(g, calls, bag, i)))
  }

  /** Not every confirmation is answered; those that are, are answered once and in order. */
  function ResponsesTo(g: Generators, calls: nat, bag: Bag, sent: seq<Confirmation>): seq<Response> {
    if sent == [] then []
    else
      var i := |sent| - 1;
      var before := ResponsesTo(g, calls, bag, sent[..i]);
      if g.pick(calls, bag, i, 1) % 2 == 0 then before
      else
        before + [Response(g.pick(calls, bag, i, 2), sent[i].id, sent[i].engagement)]
  }

  function Paper(g: Generators, d: Desk, e: Engagement, section: Section): Workpaper {
    Workpaper(g.one(d.calls, d.bag), e.id, section, g.text(d.calls, d.bag))
  }

  function Warn(d: Desk, w: Warning): Desk {
    d.(warnings := d.warnings + [w])
  }

  // ----- the individual generators -----

  function AddEngagement(g: Generators, d: Desk): Desk {
    d.(bag := d.bag.(engagements := d.bag.engagements + [Engagement(g.one(d.calls, d.bag))]), calls := d.calls + 1)
  }

  function AddLetter(g: Generators, d: Desk): Desk {
    if d.bag.engagements == [] then Warn(d, NoEngagement(Letter))
    else
      var e := Last(d.bag.engagements);
      d.(bag := d.bag.(letters := d.bag.letters + [Linked(g.one(d.calls, d.bag), e.id)]), calls := d.calls + 1)
  }

  function AddMateriality(g: Generators, d: Desk): Desk {
    d.(bag := d.bag.(materiality := d.bag.materiality + [g.one(d.calls, d.bag)]), calls := d.calls + 1)
  }

  function AddRisks(g: Generators, d: Desk): Desk {
    if d.bag.engagements == [] then Warn(d, NoEngagement(RiskAssessments))
    else
      var e := Last(d.bag.engagements);
      d.(bag := d.bag.(risks := d.bag.risks + Link(g.many(d.calls, d.bag), e)), calls := d.calls + 1)
  }

  function AddCombinedRisks(g: Generators, d: Desk): Desk {
    d.(bag := d.bag.(combinedRisks := d.bag.combinedRisks + g.many(d.calls, d.bag)), calls := d.calls + 1)
  }

  /** The paper and its evidence are made together; the evidence is filed first. */
  function AddWorkpaper(g: Generators, d: Desk, cmd: string): Desk {
    if d.bag.engagements == [] then Warn(d, NoEngagement(Workpapers))
    else
      var w := Paper(g, d, Last(d.bag.engagements), g.sectionOf(cmd));
      var evidence := EvidenceFor(g.many(d.calls + 1, d.bag), w, g.text(d.calls + 1, d.bag));
      d.(bag := d.bag.(evidence := d.bag.evidence + evidence, workpapers := d.bag.workpapers + [w]), calls := d.calls + 2)
  }

  function AddSampling(g: Generators, d: Desk): Desk {
    var d' := if d.bag.combinedRisks == [] then AddCombinedRisks(g, Warn(d, NoCombinedRisks)) else d;
    var plans, items := g.many(d'.calls, d'.bag), g.many(d'.calls + 1, d'.bag);
    d'.(bag := d'.bag.(samplingPlans := d'.bag.samplingPlans + plans, sampledItems := d'.bag.sampledItems + items),
    calls := d'.calls + 2)
  }

  function AddAnalytical(g: Generators, d: Desk): Desk {
    if d.bag.engagements == [] then Warn(d, NoEngagement(Analytical))
    else
      var results := Link(g.many(d.calls, d.bag), Last(d.bag.engagements));
      d.(bag := d.bag.(analyticalResults := d.bag.analyticalResults + results), calls := d.calls + 1)
  }

  function AddConfirmations(g: Generators, d: Desk): Desk {
    if d.bag.engagements == [] then Warn(d, NoEngagement(Confirmations))
    else
      var sent := ConfirmationsFor(g, d.calls, d.bag, g.many(d.calls, d.bag), Last(d.bag.engagements));
      var answers := ResponsesTo(g, d.calls, d.bag, sent);
      d.(bag := d.bag.(confirmations := d.bag.confirmations + sent,
      confirmationResponses := d.bag.confirmationResponses + answers), calls := d.calls + 1)
  }

  function AddGoingConcern(g: Generators, d: Desk): Desk {
    d.(bag := d.bag.(goingConcern := d.bag.goingConcern + [g.one(d.calls, d.bag)]), calls := d.calls + 1)
  }

  function AddSubsequentEvents(g: Generators, d: Desk): Desk {
    d.(bag := d.bag.(subsequentEvents := d.bag.subsequentEvents + g.many(d.calls, d.bag)), calls := d.calls + 1)
  }

  function AddFindings(g: Generators, d: Desk): Desk {
    if d.bag.engagements == [] then Warn(d, NoEngagement(Findings))
    else
      var findings := FindingsFor(g, d.calls, d.bag, g.many(d.calls, d.bag), Last(d.bag.engagements));
      d.(bag := d.bag.(findings := d.bag.findings + findings), calls := d.calls + 1)
  }

  function AddOpinion(g: Generators, d: Desk): Desk {
    if d.bag.engagements == [] then Warn(d, NoEngagement(Opinion))
    else
      var opinion := Linked(g.one(d.calls, d.bag), Last(d.bag.engagements).id);
      var matters := g.many(d.calls + 1, d.bag);
      d.(bag := d.bag.(opinions := d.bag.opinions + [opinion], keyAuditMatters := d.bag.keyAuditMatters + matters),
      calls := d.calls + 2)
  }

  /** Without an engagement there is nothing to judge, and no warning. */
  function AddJudgment(g: Generators, d: Desk): Desk {
    if d.bag.engagements == [] then d
    else
      var judgment := Linked(g.one(d.calls, d.bag), Last(d.bag.engagements).id);
      d.(bag := d.bag.(judgments := d.bag.judgments + [judgment]), calls := d.calls + 1)
  }

  /** Evidence for the most recent workpaper, if there is one. */
  function AddEvidence(g: Generators, d: Desk, text: string): Desk {
    if d.bag.workpapers == [] then d
    else
      var evidence := EvidenceFor(g.many(d.calls, d.bag), Last(d.bag.workpapers), text);
      d.(bag := d.bag.(evidence := d.bag.evidence + evidence), calls := d.calls + 1)
  }

  function AddSectionPaper(g: Generators, d: Desk, section: Section): Desk {
    if d.bag.engagements == [] then d
    else
      var w := Paper(g, d, Last(d.bag.engagements), section);
      d.(bag := d.bag.(workpapers := d.bag.workpapers + [w]), calls := d.calls + 1)
  }

  function Handle(g: Generators, d: Desk, h: Handler, cmd: string): Desk {
    match h
    case NewEngagement => AddEngagement(g, d)
    case Letter => AddLetter(g, d)
    case Materiality => AddMateriality(g, d)
    case RiskAssessments => AddRisks(g, d)
    case CombinedRisks => AddCombinedRisks(g, d)
    case Workpapers => AddWorkpaper(g, d, cmd)
    case Sampling => AddSampling(g, d)
    case Analytical => AddAnalytical(g, d)
    case Confirmations => AddConfirmations(g, d)
    case GoingConcern => AddGoingConcern(g, d)
    case SubsequentEvents => AddSubsequentEvents(g, d)
    case Findings => AddFindings(g, d)
    case Opinion => AddOpinion(g, d)
    case Judgments => AddJudgment(g, d)
    case EvidenceItems => AddEvidence(g, d, g.text(d.calls, d.bag))
    case SectionPaper(section) => AddSectionPaper(g, d, section)
    case GenericPaper => AddSectionPaper(g, d, g.sectionOf(cmd))
  }

  // ----- enrichment from the analytics inventory -----

  function NoteRequirements(d: Desk, requirements: string): Desk {
    if requirements == "" || d.bag.workpapers == [] then d
    else
      var w := Last(d.bag.workpapers);
      var noted := w.(objective := w.objective + " | Data requirements: " + requirements);
      d.(bag := d.bag.(workpapers := d.bag.workpapers[|d.bag.workpapers| - 1 := noted]))
  }

  function NoteFormFields(d: Desk, fields: string): Desk {
    if fields == "" || d.bag.evidence == [] then d
    else
      var e := Last(d.bag.evidence);
      var noted := e.(description := e.description + " | Expected form fields: " + fields);
      d.(bag := d.bag.(evidence := d.bag.evidence[|d.bag.evidence| - 1 := noted]))
  }

  /** One batch of evidence per analytical procedure, its first item carrying the narrative. */
  function AddNarrative(g: Generators, d: Desk, narrative: string): Desk {
    if d.bag.workpapers == [] then d
    else
      var evidence := EvidenceFor(g.many(d.calls, d.bag), Last(d.bag.workpapers), g.text(d.calls, d.bag));
      var enriched := if evidence == [] then [] else [evidence[0].(description := narrative)] + evidence[1..];
      d.(bag := d.bag.(evidence := d.bag.evidence + enriched), calls := d.calls + 1)
  }

  function AddNarratives(g: Generators, d: Desk, narratives: seq<string>): Desk {
    if narratives == [] then d
    else
      AddNarrative(g, AddNarratives(g, d, narratives[..|narratives| - 1]), Last(narratives))
  }

  function Enrich(g: Generators, inventory: map<string, StepInventory>, d: Desk, stepId: string): Desk {
    if stepId !in inventory then d
    else
      var inv := inventory[stepId];
      AddNarratives(g, NoteFormFields(NoteRequirements(d, inv.requirements), inv.formFields), inv.narratives)
  }

  // ----- one step -----

  function Bootstrap(g: Generators, d: Desk, cmd: string): Desk {
    if d.bag.engagements == [] && NeedsBootstrap(cmd) then AddEngagement(g, d) else d
  }

  function DispatchStep(g: Generators, inventory: map<string, StepInventory>, d: Desk, stepId: string, cmd: string): Desk {
    Enrich(g, inventory, Handle(g, Bootstrap(g, d, cmd), Route(cmd), cmd), stepId)
  }

  function DispatchSteps(g: Generators, inventory: map<string, StepInventory>, d: Desk, steps: seq<(string, string)>): Desk {
    if steps == [] then d
    else
      DispatchStep(g, inventory, DispatchSteps(g, inventory, d, steps[..|steps| - 1]), Last(steps).0, Last(steps).1)
  }

  // ----- what every step keeps -----

  /** `b` is a sound continuation of `a`. */
  ghost predicate Continues(a: Desk, b: Desk) {
    && Grows(a.bag, b.bag)
    && (Sound(a.bag) ==> Sound(b.bag))
    && a.warnings <= b.warnings
  }

  lemma ContinuesTransitive(a: Desk, b: Desk, c: Desk)
    requires Continues(a, b) && Continues(b, c)
    ensures Continues(a, c)
  {}

  lemma AddEngagementContinues(g: Generators, d: Desk)
    ensures Continues(d, AddEngagement(g, d)) && AddEngagement(g, d).bag.engagements != []
  {}

  lemma AddUnlinkedContinues(g: Generators, d: Desk)
    ensures Continues(d, AddMateriality(g, d))
    ensures Continues(d, AddCombinedRisks(g, d))
    ensures Continues(d, AddGoingConcern(g, d))
    ensures Continues(d, AddSubsequentEvents(g, d))
  {}

  lemma AddSamplingContinues(g: Generators, d: Desk)
    ensures Continues(d, AddSampling(g, d))
  {}

  lemma AddLetterContinues(g: Generators, d: Desk)
    ensures Continues(d, AddLetter(g, d))
  {}

  lemma AddRisksContinues(g: Generators, d: Desk)
    ensures Continues(d, AddRisks(g, d))
  {}

  lemma AddAnalyticalContinues(g: Generators, d: Desk)
    ensures Continues(d, AddAnalytical(g, d))
  {}

  lemma {:induction false} ResponsesAnswer(g: Generators, calls: nat, bag: Bag, sent: seq<Confirmation>)
    ensures forall r :: r in ResponsesTo(g, calls, bag, sent) ==>
                          exists c :: c in sent && c.id == r.confirmation && c.engagement == r.engagement
  {
    if sent == [] {
    } else {
      ResponsesAnswer(g, calls, bag, sent[..|sent| - 1]);
    }
  }

  lemma SentLinked(g: Generators, calls: nat, bag: Bag, ids: seq<int>, e: Engagement, c: Confirmation)
    requires c in ConfirmationsFor(g, calls, bag, ids, e)
    ensures c.engagement == e.id && (c.workpaper.Some? ==> HasSubstantivePaper(bag, c.workpaper.value))
  {
    FilterMembers((w: Workpaper) => w.section == SubstantiveTesting, bag.workpapers);
    var papers := SubstantivePapers(bag);
    var i :| 0 <= i < |ids| && c == ConfirmationsFor(g, calls, bag, ids, e)[i];
    if papers != [] {
      assert papers[g.pick(calls, bag, i, 0) % |papers|] in papers;
    }
  }

  lemma AddConfirmationsContinues(g: Generators, d: Desk)
    ensures Continues(d, AddConfirmations(g, d))
  {
    if d.bag.engagements != [] {
      var e, ids := Last(d.bag.engagements), g.many(d.calls, d.bag);
      var sent := ConfirmationsFor(g, d.calls, d.bag, ids, e);
      ResponsesAnswer(g, d.calls, d.bag, sent);
      forall c | c in sent ensures c.engagement == e.id && (c.workpaper.Some? ==> HasSubstantivePaper(d.bag, c.workpaper.value)) {
        SentLinked(g, d.calls, d.bag, ids, e, c);
      }
    }
  }

  lemma AddFindingsContinues(g: Generators, d: Desk)
    ensures Continues(d, AddFindings(g, d))
  {}

  lemma AddOpinionContinues(g: Generators, d: Desk)
    ensures Continues(d, AddOpinion(g, d))
  {}

  lemma AddJudgmentContinues(g: Generators, d: Desk)
    ensures Continues(d, AddJudgment(g, d))
  {}

  lemma AddWorkpaperContinues(g: Generators, d: Desk, cmd: string)
    ensures Continues(d, AddWorkpaper(g, d, cmd))
  {}

  lemma AddSectionPaperContinues(g: Generators, d: Desk, section: Section)
    ensures Continues(d, AddSectionPaper(g, d, section))
  {}

  lemma AddEvidenceContinues(g: Generators, d: Desk, text: string)
    ensures Continues(d, AddEvidence(g, d, text))
  {}

  lemma HandleContinues(g: Generators, d: Desk, h: Handler, cmd: string)
    ensures Continues(d, Handle(g, d, h, cmd))
  {
    match h
    case NewEngagement => AddEngagementContinues(g, d);
    case Letter => AddLetterContinues(g, d);
    case Materiality => AddUnlinkedContinues(g, d);
    case RiskAssessments => AddRisksContinues(g, d);
    case CombinedRisks => AddUnlinkedContinues(g, d);
    case Workpapers => AddWorkpaperContinues(g, d, cmd);
    case Sampling => AddSamplingContinues(g, d);
    case Analytical => AddAnalyticalContinues(g, d);
    case Confirmations => AddConfirmationsContinues(g, d);
    case GoingConcern => AddUnlinkedContinues(g, d);
    case SubsequentEvents => AddUnlinkedContinues(g, d);
    case Findings => AddFindingsContinues(g, d);
    case Opinion => AddOpinionContinues(g, d);
    case Judgments => AddJudgmentContinues(g, d);
    case EvidenceItems => AddEvidenceContinues(g, d, g.text(d.calls, d.bag));
    case SectionPaper(section) => AddSectionPaperContinues(g, d, section);
    case GenericPaper => AddSectionPaperContinues(g, d, g.sectionOf(cmd));
  }

  lemma RequirementsContinue(d: Desk, text: string)
    ensures Continues(d, NoteRequirements(d, text))
  {}

  lemma FormFieldsContinue(d: Desk, text: string)
    ensures Continues(d, NoteFormFields(d, text))
  {}

  lemma AddNarrativeContinues(g: Generators, d: Desk, narrative: string)
    ensures Continues(d, AddNarrative(g, d, narrative))
  {}

  lemma {:induction false} AddNarrativesContinues(g: Generators, d: Desk, narratives: seq<string>)
    ensures Continues(d, AddNarratives(g, d, narratives))
  {
    if narratives == [] {
      GrowsReflexive(d.bag);
    } else {
      var mid := AddNarratives(g, d, narratives[..|narratives| - 1]);
      AddNarrativesContinues(g, d, narratives[..|narratives| - 1]);
      AddNarrativeContinues(g, mid, Last(narratives));
      ContinuesTransitive(d, mid, AddNarrative(g, mid, Last(narratives)));
    }
  }

  lemma EnrichContinues(g: Generators, inventory: map<string, StepInventory>, d: Desk, stepId: string)
    ensures Continues(d, Enrich(g, inventory, d, stepId))
  {
    GrowsReflexive(d.bag);
    if stepId in inventory {
      var inv := inventory[stepId];
      var d1 := NoteRequirements(d, inv.requirements);
      var d2 := NoteFormFields(d1, inv.formFields);
      RequirementsContinue(d, inv.requirements);
      FormFieldsContinue(d1, inv.formFields);
      AddNarrativesContinues(g, d2, inv.narratives);
      ContinuesTransitive(d, d1, d2);
      ContinuesTransitive(d, d2, Enrich(g, inventory, d, stepId));
    }
  }

  /** The only warning added is that combined risk assessments had to be generated first. */
  ghost predicate WarnsOnlyOfRisks(a: Desk, b: Desk) {
    b.warnings == a.warnings || b.warnings == a.warnings + [NoCombinedRisks]
  }

  lemma HandleWarnings(g: Generators, d: Desk, h: Handler, cmd: string)
    requires d.bag.engagements != [] || !WarnsWithoutEngagement(h)
    ensures WarnsOnlyOfRisks(d, Handle(g, d, h, cmd))
  {}

  lemma {:induction false} NarrativesKeepWarnings(g: Generators, d: Desk, narratives: seq<string>)
    ensures AddNarratives(g, d, narratives).warnings == d.warnings
  {
    if narratives == [] {
    } else {
      NarrativesKeepWarnings(g, d, narratives[..|narratives| - 1]);
    }
  }

  lemma EnrichKeepsWarnings(g: Generators, inventory: map<string, StepInventory>, d: Desk, stepId: string)
    ensures Enrich(g, inventory, d, stepId).warnings == d.warnings
  {
    if stepId in inventory {
      var inv := inventory[stepId];
      NarrativesKeepWarnings(g, NoteFormFields(NoteRequirements(d, inv.requirements), inv.formFields), inv.narratives);
    }
  }

  /** After the bootstrap rule, the handler a command is routed to finds an engagement or does without. */
  lemma BootstrapSuffices(g: Generators, d: Desk, cmd: string)
    ensures Continues(d, Bootstrap(g, d, cmd)) && Bootstrap(g, d, cmd).warnings == d.warnings
    ensures Bootstrap(g, d, cmd).bag.engagements != [] || !WarnsWithoutEngagement(Route(cmd))
  {
    GrowsReflexive(d.bag);
    AddEngagementContinues(g, d);
    if !NeedsBootstrap(cmd) {
      ExemptRoutesAreSafe(cmd);
    }
  }

  /** One step: nothing is lost, nothing dangles, and no handler misses an engagement. */
  lemma StepContinues(g: Generators, inventory: map<string, StepInventory>, d: Desk, stepId: string, cmd: string)
    ensures Continues(d, DispatchStep(g, inventory, d, stepId, cmd))
    ensures WarnsOnlyOfRisks(d, DispatchStep(g, inventory, d, stepId, cmd))
  {
    var d1 := Bootstrap(g, d, cmd);
    var h := Route(cmd);
    BootstrapSuffices(g, d, cmd);
    HandledContinues(g, inventory, d, d1, h, stepId, cmd);
  }

  lemma HandledContinues(
    g: Generators, inventory: map<string, StepInventory>, d: Desk, d1: Desk, h: Handler, stepId: string, cmd: string)
    requires Continues(d, d1) && d1.warnings == d.warnings
    requires d1.bag.engagements != [] || !WarnsWithoutEngagement(h)
    ensures Continues(d, Enrich(g, inventory, Handle(g, d1, h, cmd), stepId))
    ensures WarnsOnlyOfRisks(d, Enrich(g, inventory, Handle(g, d1, h, cmd), stepId))
  {
    var d2 := Handle(g, d1, h, cmd);
    HandleContinues(g, d1, h, cmd);
    HandleWarnings(g, d1, h, cmd);
    EnrichContinues(g, inventory, d2, stepId);
    EnrichKeepsWarnings(g, inventory, d2, stepId);
    ContinuesTransitive(d, d1, d2);
    ContinuesTransitive(d, d2, Enrich(g, inventory, d2, stepId));
  }

  ghost predicate NeverMissesEngagement(warnings: seq<Warning>) {
    forall w :: w in warnings ==> w == NoCombinedRisks
  }

  /** A run over an empty bag, the generators having been called `calls` times before. */
  function RunFromEmpty(g: Generators, inventory: map<string, StepInventory>, calls: nat, steps: seq<(string, string)>): Desk {
    DispatchSteps(g, inventory, Desk(EMPTY_BAG, calls, []), steps)
  }

  lemma RunPush(g: Generators, inventory: map<string, StepInventory>, calls: nat, steps: seq<(string, string)>, step: (string, string))
    ensures RunFromEmpty(g, inventory, calls, steps + [step]) ==
            DispatchStep(g, inventory, RunFromEmpty(g, inventory, calls, steps), step.0, step.1)
  {}

  lemma {:induction false} RunKeepsSound(g: Generators, inventory: map<string, StepInventory>, calls: nat, steps: seq<(string, string)>)
    ensures Sound(RunFromEmpty(g, inventory, calls, steps).bag)
    ensures NeverMissesEngagement(RunFromEmpty(g, inventory, calls, steps).warnings)
  {
    if steps == [] {
    } else {
      var front := steps[..|steps| - 1];
      RunKeepsSound(g, inventory, calls, front);
      StepContinues(g, inventory, RunFromEmpty(g, inventory, calls, front), Last(steps).0, Last(steps).1);
    }
  }

  lemma {:induction false} RunGrows(
    g: Generators, inventory: map<string, StepInventory>, calls: nat, steps: seq<(string, string)>, k: nat)
    requires k <= |steps|
    ensures Grows(RunFromEmpty(g, inventory, calls, steps[..k]).bag, RunFromEmpty(g, inventory, calls, steps).bag)
  {
    if k == |steps| {
      assert steps[..k] == steps;
      GrowsReflexive(RunFromEmpty(g, inventory, calls, steps).bag);
    } else {
      var front := steps[..|steps| - 1];
      var mid := RunFromEmpty(g, inventory, calls, front);
      RunGrows(g, inventory, calls, front, k);
      assert front[..k] == steps[..k];
      StepContinues(g, inventory, mid, Last(steps).0, Last(steps).1);
      GrowsTransitive(RunFromEmpty(g, inventory, calls, steps[..k]).bag, mid.bag, RunFromEmpty(g, inventory, calls, steps).bag);
    }
  }

  /** Any run from an empty bag: the artifact lists only grow, every reference resolves, evidence
      implies a workpaper and a workpaper an engagement, and no handler ever missed an engagement. */
  lemma RunIsSound(g: Generators, inventory: map<string, StepInventory>, calls: nat, steps: seq<(string, string)>)
    ensures var whole := RunFromEmpty(g, inventory, calls, steps);
            && Sound(whole.bag) && NeverMissesEngagement(whole.warnings)
            && (whole.bag.evidence != [] ==> whole.bag.workpapers != [])
            && (whole.bag.workpapers != [] ==> whole.bag.engagements != [])
    ensures forall k :: 0 <= k <= |steps| ==>
                          Grows(RunFromEmpty(g, inventory, calls, steps[..k]).bag, RunFromEmpty(g, inventory, calls, steps).bag)
  {
    RunKeepsSound(g, inventory, calls, steps);
    SoundOrder(RunFromEmpty(g, inventory, calls, steps).bag);
    forall k | 0 <= k <= |steps|
      ensures Grows(RunFromEmpty(g, inventory, calls, steps[..k]).bag, RunFromEmpty(g, inventory, calls, steps).bag)
    {
      RunGrows(g, inventory, calls, steps, k);
    }
  }
}
