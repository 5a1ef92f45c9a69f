/** The artifact bag an engagement run accumulates. */
module Artifacts {
  import opened Wrappers
  import opened CommandRouting

  datatype Engagement = Engagement(id: int)

  /** An artifact that records the engagement it belongs to. */
  datatype Linked = Linked(id: int, engagement: int)

  datatype Workpaper = Workpaper(id: int, engagement: int, section: Section, objective: string)

  datatype Evidence = Evidence(id: int, workpaper: int, engagement: int, description: string)

  /** A finding cites workpapers; the first one cited is its primary workpaper. */
  datatype Finding = Finding(id: int, engagement: int, workpapers: seq<int>)

  datatype Confirmation = Confirmation(id: int, engagement: int, workpaper: Option<int>)

  datatype Response = Response(id: int, confirmation: int, engagement: int)

  datatype Bag = Bag(
    engagements: seq<Engagement>,
    letters: seq<Linked>,
    materiality: seq<int>,
    risks: seq<Linked>,
    combinedRisks: seq<int>,
    workpapers: seq<Workpaper>,
    evidence: seq<Evidence>,
    findings: seq<Finding>,
    judgments: seq<Linked>,
    samplingPlans: seq<int>,
    sampledItems: seq<int>,
    analyticalResults: seq<Linked>,
    goingConcern: seq<int>,
    subsequentEvents: seq<int>,
    opinions: seq<Linked>,
    keyAuditMatters: seq<int>,
    confirmations: seq<Confirmation>,
    confirmationResponses: seq<Response>)

  const EMPTY_BAG := Bag([], [], [], [], [], [], [], [], [], [], [], [], [], [], [], [], [], [])

  // ----- no dangling references -----

  ghost predicate HasEngagement(b: Bag, id: int) {
    exists e :: e in b.engagements && e.id == id
  }

  ghost predicate HasWorkpaper(b: Bag, id: int, engagement: int) {
    exists w :: w in b.workpapers && w.id == id && w.engagement == engagement
  }

  ghost predicate AllLinked(b: Bag, s: seq<Linked>) {
    forall a :: a in s ==> HasEngagement(b, a.engagement)
  }

  ghost predicate PapersLinked(b: Bag) {
    forall w :: w in b.workpapers ==> HasEngagement(b, w.engagement)
  }

  ghost predicate EvidenceLinked(b: Bag) {
    forall e :: e in b.evidence ==> HasWorkpaper(b, e.workpaper, e.engagement)
  }

  /** A paper of this number is in the bag. */
  ghost predicate HasPaper(b: Bag, id: int) {
    exists w :: w in b.workpapers && w.id == id
  }

  ghost predicate HasSubstantivePaper(b: Bag, id: int) {
    exists w :: w in b.workpapers && w.id == id && w.section == SubstantiveTesting
  }

  ghost predicate HasConfirmation(b: Bag, id: int, engagement: int) {
    exists c :: c in b.confirmations && c.id == id && c.engagement == engagement
  }

  ghost predicate FindingsLinked(b: Bag) {
    forall f :: f in b.findings ==> HasEngagement(b, f.engagement) && forall id :: id in f.workpapers ==> HasPaper(b, id)
  }

  /** A confirmation belongs to substantive testing, if to any paper. */
  ghost predicate ConfirmationsLinked(b: Bag) {
    forall c :: c in b.confirmations ==>
                  HasEngagement(b, c.engagement) && (c.workpaper.Some? ==> HasSubstantivePaper(b, c.workpaper.value))
  }

  ghost predicate ResponsesLinked(b: Bag) {
    forall r :: r in b.confirmationResponses ==> HasConfirmation(b, r.confirmation, r.engagement)
  }

  /** Every artifact that names an engagement, a workpaper or a confirmation names one in the bag. */
  ghost predicate Sound(b: Bag) {
    && PapersLinked(b) && EvidenceLinked(b)
    && AllLinked(b, b.letters) && AllLinked(b, b.risks) && AllLinked(b, b.judgments)
    && AllLinked(b, b.analyticalResults) && AllLinked(b, b.opinions)
    && FindingsLinked(b) && ConfirmationsLinked(b) && ResponsesLinked(b)
  }

  lemma SoundOrder(b: Bag)
    requires Sound(b)
    ensures b.evidence != [] ==> b.workpapers != []
    ensures b.workpapers != [] ==> b.engagements != []
    ensures b.letters + b.risks + b.judgments != [] ==> b.engagements != []
    ensures b.analyticalResults + b.opinions != [] ==> b.engagements != []
    ensures b.findings != [] || b.confirmations != [] ==> b.engagements != []
    ensures b.confirmationResponses != [] ==> b.confirmations != []
  {
    if b.evidence != [] {
      assert HasWorkpaper(b, b.evidence[0].workpaper, b.evidence[0].engagement);
    }
    if b.workpapers != [] {
      assert HasEngagement(b, b.workpapers[0].engagement);
    }
    var early, late := b.letters + b.risks + b.judgments, b.analyticalResults + b.opinions;
    if early != [] {
      assert early[0] in b.letters || early[0] in b.risks || early[0] in b.judgments;
      assert HasEngagement(b, early[0].engagement);
    }
    if late != [] {
      assert late[0] in b.analyticalResults || late[0] in b.opinions;
      assert HasEngagement(b, late[0].engagement);
    }
    if b.findings != [] {
      assert HasEngagement(b, b.findings[0].engagement);
    }
    if b.confirmations != [] {
      assert HasEngagement(b, b.confirmations[0].engagement);
    }
    if b.confirmationResponses != [] {
      assert HasConfirmation(b, b.confirmationResponses[0].confirmation, b.confirmationResponses[0].engagement);
    }
  }

  // ----- growth -----

  /** Same papers up to the text of their objectives, possibly more of them. */
  ghost predicate PapersGrow(a: seq<Workpaper>, b: seq<Workpaper>) {
    && |a| <= |b|
    && forall i :: 0 <= i < |a| ==> b[i] == a[i].(objective := b[i].objective)
  }

  ghost predicate EvidenceGrows(a: seq<Evidence>, b: seq<Evidence>) {
    && |a| <= |b|
    && forall i :: 0 <= i < |a| ==> b[i] == a[i].(description := b[i].description)
  }

  /** No list loses or reorders an artifact. */
  ghost predicate Grows(a: Bag, b: Bag) {
    && a.engagements <= b.engagements
    && a.letters <= b.letters
    && a.materiality <= b.materiality
    && a.risks <= b.risks
    && a.combinedRisks <= b.combinedRisks
    && PapersGrow(a.workpapers, b.workpapers)
    && EvidenceGrows(a.evidence, b.evidence)
    && a.findings <= b.findings
    && a.judgments <= b.judgments
    && a.samplingPlans <= b.samplingPlans
    && a.sampledItems <= b.sampledItems
    && a.analyticalResults <= b.analyticalResults
    && a.goingConcern <= b.goingConcern
    && a.subsequentEvents <= b.subsequentEvents
    && a.opinions <= b.opinions
    && a.keyAuditMatters <= b.keyAuditMatters
    && a.confirmations <= b.confirmations
    && a.confirmationResponses <= b.confirmationResponses
  }

  lemma GrowsReflexive(a: Bag)
    ensures Grows(a, a)
  {}

  lemma GrowsTransitive(a: Bag, b: Bag, c: Bag)
    requires Grows(a, b) && Grows(b, c)
    ensures Grows(a, c)
  {}

  // ----- the mutable bag -----

  class ArtifactBag {
    var engagements: seq<Engagement>
    var letters: seq<Linked>
    var materiality: seq<int>
    var risks: seq<Linked>
    var combinedRisks: seq<int>
    var workpapers: seq<Workpaper>
    var evidence: seq<Evidence>
    var findings: seq<Finding>
    var judgments: seq<Linked>
    var samplingPlans: seq<int>
    var sampledItems: seq<int>
    var analyticalResults: seq<Linked>
    var goingConcern: seq<int>
    var subsequentEvents: seq<int>
    var opinions: seq<Linked>
    var keyAuditMatters: seq<int>
    var confirmations: seq<Confirmation>
    var confirmationResponses: seq<Response>

    constructor ()
      ensures View() == EMPTY_BAG
    {
      engagements := [];
      letters := [];
      materiality := [];
      risks := [];
      combinedRisks := [];
      workpapers := [];
      evidence := [];
      findings := [];
      judgments := [];
      samplingPlans := [];
      sampledItems := [];
      analyticalResults := [];
      goingConcern := [];
      subsequentEvents := [];
      opinions := [];
      keyAuditMatters := [];
      confirmations := [];
      confirmationResponses := [];
    }

    function View(): Bag
      reads this
    {
      Bag(engagements, letters, materiality, risks, combinedRisks, workpapers,
        evidence, findings, judgments, samplingPlans, sampledItems, analyticalResults,
        goingConcern, subsequentEvents, opinions, keyAuditMatters, confirmations, confirmationResponses)
    }
  }
}
