/** What each step command files, as a table: the commands by name in the order in which they are
    tried, then the verbs, and for each the lists of the bag that grow, by which artifacts. */
module DispatchTable {
  import opened Wrappers
  import Seqs
  import opened CommandRouting
  import opened Artifacts
  import opened Dispatch

  // ----- the lists that grow -----

  ghost predicate AddsEngagement(g: Generators, d: Desk, d': Desk) {
    d' == d.(bag := d.bag.(engagements := d.bag.engagements + [Engagement(g.one(d.calls, d.bag))]), calls := d.calls + 1)
  }

  ghost predicate AddsLetter(g: Generators, d: Desk, d': Desk, e: Engagement) {
    d' == d.(bag := d.bag.(letters := d.bag.letters + [Linked(g.one(d.calls, d.bag), e.id)]), calls := d.calls + 1)
  }

  ghost predicate AddsMateriality(g: Generators, d: Desk, d': Desk) {
    d' == d.(bag := d.bag.(materiality := d.bag.materiality + [g.one(d.calls, d.bag)]), calls := d.calls + 1)
  }

  /** One artifact of the engagement per number. */
  ghost predicate BatchFor(batch: seq<Linked>, ids: seq<int>, e: Engagement) {
    |batch| == |ids| && forall i :: 0 <= i < |ids| ==> batch[i] == Linked(ids[i], e.id)
  }

  ghost predicate AddsRisks(g: Generators, d: Desk, d': Desk, e: Engagement) {
    exists batch :: BatchFor(batch, g.many(d.calls, d.bag), e) &&
                    d' == d.(bag := d.bag.(risks := d.bag.risks + batch), calls := d.calls + 1)
  }

  ghost predicate AddsCombinedRisks(g: Generators, d: Desk, d': Desk) {
    d' == d.(bag := d.bag.(combinedRisks := d.bag.combinedRisks + g.many(d.calls, d.bag)), calls := d.calls + 1)
  }

  /** One item of evidence per number, for the paper and the paper's engagement. */
  ghost predicate EvidenceOf(batch: seq<Evidence>, ids: seq<int>, w: Workpaper, text: string) {
    |batch| == |ids| && forall i :: 0 <= i < |ids| ==> batch[i] == Evidence(ids[i], w.id, w.engagement, text)
  }

  /** A paper of the engagement, and evidence for it. */
  ghost predicate AddsPaperAndEvidence(g: Generators, d: Desk, d': Desk, e: Engagement, section: Section) {
    var w := Workpaper(g.one(d.calls, d.bag), e.id, section, g.text(d.calls, d.bag));
    exists batch :: EvidenceOf(batch, g.many(d.calls + 1, d.bag), w, g.text(d.calls + 1, d.bag)) &&
                    d' == d.(bag := d.bag.(workpapers := d.bag.workpapers + [w], evidence := d.bag.evidence + batch),
                    calls := d.calls + 2)
  }

  /** Plans and sampled items, after risk assessments and a warning if there were none. */
  ghost predicate AddsSampling(g: Generators, d: Desk, d': Desk) {
    if d.bag.combinedRisks != [] then
      d' == d.(bag := d.bag.(samplingPlans := d.bag.samplingPlans + g.many(d.calls, d.bag),
      sampledItems := d.bag.sampledItems + g.many(d.calls + 1, d.bag)), calls := d.calls + 2)
    else
      var assessed := d.bag.(combinedRisks := g.many(d.calls, d.bag));
      d' == Desk(assessed.(samplingPlans := assessed.samplingPlans + g.many(d.calls + 1, assessed),
                 sampledItems := assessed.sampledItems + g.many(d.calls + 2, assessed)), d.calls + 3, d.warnings + [NoCombinedRisks])
  }

  ghost predicate AddsAnalyticalResults(g: Generators, d: Desk, d': Desk, e: Engagement) {
    exists batch :: BatchFor(batch, g.many(d.calls, d.bag), e) &&
                    d' == d.(bag := d.bag.(analyticalResults := d.bag.analyticalResults + batch), calls := d.calls + 1)
  }

  ghost function Substantive(bag: Bag): seq<Workpaper> {
    Seqs.Filter((w: Workpaper) => w.section == SubstantiveTesting, bag.workpapers)
  }

  /** One confirmation per number, for a paper of substantive testing if there is one. */
  ghost predicate ConfirmationsOf(g: Generators, d: Desk, sent: seq<Confirmation>, ids: seq<int>, e: Engagement) {
    var papers := Substantive(d.bag);
    && |sent| == |ids|
    && forall i :: 0 <= i < |ids| ==>
                     sent[i] == Confirmation(ids[i], e.id,
                                             if |papers| == 0 then None else Some(papers[g.pick(d.calls, d.bag, i, 0) % |papers|].id))
  }

  /** No answer to a confirmation whose number is drawn even, else one that names it. */
  ghost function Answers(g: Generators, d: Desk, sent: seq<Confirmation>): seq<seq<Response>> {
    seq(|sent|, i requires 0 <= i < |sent| =>
      if g.pick(d.calls, d.bag, i, 1) % 2 == 0 then []
      else [Response(g.pick(d.calls, d.bag, i, 2), sent[i].id, sent[i].engagement)])
  }

  ghost predicate AddsConfirmations(g: Generators, d: Desk, d': Desk, e: Engagement) {
    exists sent, answers ::
      && ConfirmationsOf(g, d, sent, g.many(d.calls, d.bag), e) && Seqs.Joins(answers, Answers(g, d, sent))
      && d' == d.(bag := d.bag.(confirmations := d.bag.confirmations + sent,
                  confirmationResponses := d.bag.confirmationResponses + answers), calls := d.calls + 1)
  }

  ghost predicate AddsGoingConcern(g: Generators, d: Desk, d': Desk) {
    d' == d.(bag := d.bag.(goingConcern := d.bag.goingConcern + [g.one(d.calls, d.bag)]), calls := d.calls + 1)
  }

  ghost predicate AddsSubsequentEvents(g: Generators, d: Desk, d': Desk) {
    d' == d.(bag := d.bag.(subsequentEvents := d.bag.subsequentEvents + g.many(d.calls, d.bag)), calls := d.calls + 1)
  }

  /** Up to three papers are drawn from those in the bag, and none if it has none. */
  ghost predicate CitesDrawn(g: Generators, d: Desk, i: nat, cited: seq<int>) {
    var n := |d.bag.workpapers|;
    if n == 0 then |cited| == 0
    else
      && |cited| == 1 + g.pick(d.calls, d.bag, i, 0) % (if n < 3 then n else 3)
      && forall k :: 0 <= k < |cited| ==> cited[k] == d.bag.workpapers[g.pick(d.calls, d.bag, i, k + 1) % n].id
  }

  ghost predicate FindingsOf(g: Generators, d: Desk, batch: seq<Finding>, ids: seq<int>, e: Engagement) {
    && |batch| == |ids|
    && forall i :: 0 <= i < |ids| ==>
                     batch[i].id == ids[i] && batch[i].engagement == e.id && CitesDrawn(g, d, i, batch[i].workpapers)
  }

  ghost predicate AddsFindings(g: Generators, d: Desk, d': Desk, e: Engagement) {
    exists batch :: FindingsOf(g, d, batch, g.many(d.calls, d.bag), e) &&
                    d' == d.(bag := d.bag.(findings := d.bag.findings + batch), calls := d.calls + 1)
  }

  ghost predicate AddsOpinion(g: Generators, d: Desk, d': Desk, e: Engagement) {
    d' == d.(bag := d.bag.(opinions := d.bag.opinions + [Linked(g.one(d.calls, d.bag), e.id)],
             keyAuditMatters := d.bag.keyAuditMatters + g.many(d.calls + 1, d.bag)), calls := d.calls + 2)
  }

  ghost predicate AddsJudgment(g: Generators, d: Desk, d': Desk, e: Engagement) {
    d' == d.(bag := d.bag.(judgments := d.bag.judgments + [Linked(g.one(d.calls, d.bag), e.id)]), calls := d.calls + 1)
  }

  /** Evidence for the last paper; none without a paper. */
  ghost predicate AddsEvidence(g: Generators, d: Desk, d': Desk) {
    if |d.bag.workpapers| == 0 then d' == d
    else
      exists batch ::
        EvidenceOf(batch, g.many(d.calls, d.bag), d.bag.workpapers[|d.bag.workpapers| - 1], g.text(d.calls, d.bag)) &&
        d' == d.(bag := d.bag.(evidence := d.bag.evidence + batch), calls := d.calls + 1)
  }

  ghost predicate AddsPaper(g: Generators, d: Desk, d': Desk, e: Engagement, section: Section) {
    var w := Workpaper(g.one(d.calls, d.bag), e.id, section, g.text(d.calls, d.bag));
    d' == d.(bag := d.bag.(workpapers := d.bag.workpapers + [w]), calls := d.calls + 1)
  }

  // ----- the commands -----

  ghost predicate AsksForEngagement(cmd: string) {
    cmd in {"evaluate_client_acceptance", "conduct_opening_meeting", "conduct_meeting", "define_engagement_scope"}
  }

  ghost predicate AsksForLetter(cmd: string) {
    cmd in {"agree_engagement_terms", "draft_ia_charter", "finalize_mandate"}
  }

  ghost predicate AsksForRisks(cmd: string) {
    cmd in {"identify_engagement_risks", "assess_engagement_risks", "assess_universe_risks", "identify_risks"}
  }

  ghost predicate AsksForCombinedRisks(cmd: string) {
    cmd in {"assess_risks", "assess_control_design", "evaluate_control_effectiveness"}
  }

  ghost predicate AsksForDesignPaper(cmd: string) {
    cmd in {
      "design_test_procedures", "design_work_program", "design_controls_tests", "design_substantive_procedures",
      "design_analytical_procedures"}
  }

  ghost predicate AsksForSampling(cmd: string) {
    cmd in {
      "perform_test_procedures", "perform_controls_tests", "perform_tests_of_details", "review_test_results",
      "request_additional_testing"}
  }

  ghost predicate AsksForGoingConcern(cmd: string) {
    cmd in {"evaluate_management_assessment", "determine_going_concern_doubt"}
  }

  ghost predicate AsksForFindings(cmd: string) {
    cmd in {
      "identify_condition", "map_criteria", "analyze_cause", "assess_effect", "draft_finding", "close_finding",
      "obtain_response", "identify_finding_condition", "map_finding_criteria", "analyze_cause_and_effect",
      "evaluate_finding_significance", "evaluate_findings", "evaluate_misstatements", "discuss_findings",
      "discuss_preliminary_findings", "agree_action_plans", "develop_recommendations"}
  }

  ghost predicate AsksForOpinion(cmd: string) {
    cmd in {"form_audit_opinion", "develop_engagement_conclusions", "finalize_audit_report", "issue_report"}
  }

  ghost predicate AsksForJudgment(cmd: string) {
    cmd in {
      "review_engagement_quality", "exercise_skepticism", "apply_due_care", "supervise_engagement_quality",
      "conduct_periodic_assessment", "oversee_qaip", "evaluate_staff_performance", "commission_external_qa",
      "confirm_cae_qualifications", "document_risk_acceptance", "disclose_errors_omissions", "approve_charter",
      "approve_control_evaluation", "approve_draft_report", "approve_plan", "approve_procedure",
      "approve_risk_assessment", "approve_scope", "approve_testing", "approve_work_program"}
  }

  ghost predicate AsksForEvidence(cmd: string) {
    cmd in {
      "document_engagement_work", "archive_engagement_documentation", "protect_information",
      "establish_confidentiality_policies", "submit_charter", "submit_control_evaluation",
      "submit_draft_report", "submit_final_report", "submit_plan", "submit_risk_assessment", "submit_scope",
      "submit_testing"}
  }

  ghost predicate AsksForPlanning(cmd: string) {
    cmd in {
      "define_engagement_scope_detail", "determine_engagement_timeline", "draft_annual_plan",
      "develop_work_program", "scope_engagement", "develop_staffing_plan", "develop_ia_budget",
      "assign_team_members", "determine_sme_needs", "confirm_resource_competencies",
      "identify_auditable_entities", "prioritize_audit_entities", "identify_stakeholders",
      "recruit_and_develop_staff", "start_allocation", "start_control_evaluation", "start_draft_report",
      "start_final_report", "start_mandate_development", "start_monitoring", "start_plan_development",
      "start_procedure", "start_risk_assessment", "start_scoping", "start_testing", "start_verification",
      "finalize_allocation", "finalize_plan", "revise_charter", "revise_draft_report", "revise_plan"}
  }

  ghost predicate AsksForReporting(cmd: string) {
    cmd in {
      "draft_audit_report", "review_draft_report", "prepare_draft_report", "evaluate_management_responses",
      "send_report_for_response", "receive_response", "request_response", "distribute_final_report",
      "communicate_approved_plan", "present_plan_to_board", "present_resource_requirements",
      "communicate_plan_and_results"}
  }

  ghost predicate AsksForFollowUp(cmd: string) {
    cmd in {
      "track_action_plan_status", "escalate_overdue_actions", "report_follow_up_status",
      "verify_remediation_implementation", "conclude_on_remediation", "close_monitoring", "initiate_follow_up",
      "re_verify_action", "complete_verification"}
  }

  ghost predicate AsksForGovernance(cmd: string) {
    cmd in {
      "establish_ethics_code", "conduct_ethics_training", "monitor_ethics_compliance",
      "assess_objectivity_threats", "implement_objectivity_safeguards", "disclose_impairments",
      "assess_competencies", "develop_cpd_plans", "verify_standards_conformance", "maintain_ethical_standards",
      "safeguard_objectivity", "establish_independence", "define_ia_mandate", "establish_board_interaction",
      "obtain_board_support", "assess_technology_capabilities", "implement_technology",
      "manage_technological_resources"}
  }

  ghost predicate AsksForMonitoring(cmd: string) {
    cmd in {
      "define_performance_metrics", "track_performance", "report_performance_to_board",
      "measure_ia_performance", "perform_ongoing_monitoring", "monitor_budget_utilization"}
  }

  /** The commands by name. */
  ghost predicate FilesByName(g: Generators, d: Desk, d': Desk, e: Engagement, cmd: string) {
    if AsksForEngagement(cmd) then AddsEngagement(g, d, d')
    else if AsksForLetter(cmd) then AddsLetter(g, d, d', e)
    else if cmd == "determine_overall_materiality" then AddsMateriality(g, d, d')
    else if AsksForRisks(cmd) then AddsRisks(g, d, d', e)
    else if AsksForCombinedRisks(cmd) then AddsCombinedRisks(g, d, d')
    else if AsksForDesignPaper(cmd) then AddsPaperAndEvidence(g, d, d', e, g.sectionOf(cmd))
    else if AsksForSampling(cmd) then AddsSampling(g, d, d')
    else if cmd == "perform_analytical_procedures" then AddsAnalyticalResults(g, d, d', e)
    else if cmd == "send_confirmations" then AddsConfirmations(g, d, d', e)
    else if AsksForGoingConcern(cmd) then AddsGoingConcern(g, d, d')
    else if cmd == "perform_subsequent_events_review" then AddsSubsequentEvents(g, d, d')
    else if AsksForFindings(cmd) then AddsFindings(g, d, d', e)
    else if AsksForOpinion(cmd) then AddsOpinion(g, d, d', e)
    else if AsksForJudgment(cmd) then AddsJudgment(g, d, d', e)
    else if AsksForEvidence(cmd) then AddsEvidence(g, d, d')
    else if AsksForPlanning(cmd) then AddsPaper(g, d, d', e, Planning)
    else if AsksForReporting(cmd) then AddsPaper(g, d, d', e, Reporting)
    else if AsksForFollowUp(cmd) then AddsFindings(g, d, d', e)
    else if AsksForGovernance(cmd) then AddsPaper(g, d, d', e, Planning)
    else if AsksForMonitoring(cmd) then AddsPaper(g, d, d', e, Completion)
    else
      FilesByVerb(g, d, d', e, cmd)
  }

  ghost predicate Begins(cmd: string, verbs: set<string>) {
    exists verb :: verb in verbs && verb + "_" <= cmd
  }

  /** Any other command, by the word it begins with. */
  ghost predicate FilesByVerb(g: Generators, d: Desk, d': Desk, e: Engagement, cmd: string) {
    if Begins(cmd, {"provide", "document", "prepare"}) then AddsPaperAndEvidence(g, d, d', e, g.sectionOf(cmd))
    else if Begins(cmd, {"evaluate", "assess", "consider"}) then AddsJudgment(g, d, d', e)
    else if Begins(cmd, {"determine", "calculate", "compute"}) then AddsMateriality(g, d, d')
    else if Begins(cmd, {"perform", "test", "execute"}) then AddsSampling(g, d, d')
    else if Begins(cmd, {"obtain", "confirm", "request", "send"}) then AddsEvidence(g, d, d')
    else if Begins(cmd, {"identify", "detect", "find"}) then AddsRisks(g, d, d', e)
    else if Begins(cmd, {"review", "inspect", "examine", "check"}) then AddsJudgment(g, d, d', e)
    else if Begins(cmd, {"report", "communicate", "present", "summarize", "conclude"}) then AddsPaper(g, d, d', e, Reporting)
    else if Begins(cmd, {"approve", "sign", "authorize"}) then AddsJudgment(g, d, d', e)
    else if Begins(cmd, {"also", "use", "include", "can", "apply", "address", "focus", "will", "need", "require",
                         "has", "is", "necessary", "identified"})
    then AddsPaperAndEvidence(g, d, d', e, g.sectionOf(cmd))
    else if Begins(cmd, {"understand", "inquire", "observe"}) then AddsRisks(g, d, d', e)
    else if Begins(cmd, {"discuss", "agree", "instruct", "exercise", "coordinate"}) then AddsJudgment(g, d, d', e)
    else if Begins(cmd, {"design", "plan", "develop", "select", "establish"}) then AddsPaper(g, d, d', e, Planning)
    else if Begins(cmd, {"do", "make", "update", "reperform", "verify", "analyze", "record", "describe", "reflect",
                         "support"})
    then AddsSampling(g, d, d')
    else if Begins(cmd, {"may"}) then AddsPaperAndEvidence(g, d, d', e, g.sectionOf(cmd))
    else
      AddsPaper(g, d, d', e, g.sectionOf(cmd))
  }

  // ----- the table is followed -----

  lemma EarlyNames(cmd: string)
    ensures AsksForEngagement(cmd) <==> CreatesEngagement(cmd)
    ensures AsksForLetter(cmd) <==> IsTerms(cmd)
    ensures AsksForRisks(cmd) <==> IsRiskIdentification(cmd)
    ensures AsksForCombinedRisks(cmd) <==> IsRiskCombination(cmd)
    ensures AsksForDesignPaper(cmd) <==> IsDesign(cmd)
    ensures AsksForSampling(cmd) <==> IsTestExecution(cmd)
    ensures AsksForGoingConcern(cmd) <==> IsGoingConcern(cmd)
  {}

  lemma FindingNames(cmd: string)
    ensures AsksForFindings(cmd) <==> IsFindingDevelopment(cmd)
    ensures AsksForOpinion(cmd) <==> IsConclusion(cmd)
    ensures AsksForJudgment(cmd) <==> IsQualityReview(cmd)
  {}

  lemma PlanningNames(cmd: string)
    ensures AsksForEvidence(cmd) <==> IsDocumentation(cmd)
    ensures AsksForPlanning(cmd) <==> IsPlanning(cmd)
  {}

  lemma LateNames(cmd: string)
    ensures AsksForReporting(cmd) <==> IsReporting(cmd)
    ensures AsksForFollowUp(cmd) <==> IsFollowUp(cmd)
    ensures AsksForGovernance(cmd) <==> IsGovernance(cmd)
    ensures AsksForMonitoring(cmd) <==> IsPerformance(cmd)
  {}

  lemma SingleFiled(g: Generators, d: Desk, e: Engagement, cmd: string)
    requires d.bag.engagements != [] && e == Last(d.bag.engagements)
    ensures AddsEngagement(g, d, Handle(g, d, NewEngagement, cmd))
    ensures AddsLetter(g, d, Handle(g, d, Letter, cmd), e)
    ensures AddsMateriality(g, d, Handle(g, d, Materiality, cmd))
    ensures AddsCombinedRisks(g, d, Handle(g, d, CombinedRisks, cmd))
    ensures AddsGoingConcern(g, d, Handle(g, d, GoingConcern, cmd))
    ensures AddsSubsequentEvents(g, d, Handle(g, d, SubsequentEvents, cmd))
    ensures AddsOpinion(g, d, Handle(g, d, Opinion, cmd), e)
    ensures AddsJudgment(g, d, Handle(g, d, Judgments, cmd), e)
  {}

  lemma BatchesFiled(g: Generators, d: Desk, e: Engagement, cmd: string)
    requires d.bag.engagements != [] && e == Last(d.bag.engagements)
    ensures AddsRisks(g, d, Handle(g, d, RiskAssessments, cmd), e)
    ensures AddsAnalyticalResults(g, d, Handle(g, d, Analytical, cmd), e)
  {
    var ids := g.many(d.calls, d.bag);
    assert BatchFor(Link(ids, e), ids, e);
  }

  lemma CitedDrawn(g: Generators, d: Desk, i: nat)
    ensures CitesDrawn(g, d, i, Cited(g, d.calls, d.bag, i))
  {}

  lemma FindingsFiled(g: Generators, d: Desk, e: Engagement, cmd: string)
    requires d.bag.engagements != [] && e == Last(d.bag.engagements)
    ensures AddsFindings(g, d, Handle(g, d, Findings, cmd), e)
  {
    hide CitesDrawn, Cited;
    var ids := g.many(d.calls, d.bag);
    var batch := FindingsFor(g, d.calls, d.bag, ids, e);
    forall i | 0 <= i < |ids| ensures CitesDrawn(g, d, i, batch[i].workpapers) {
      CitedDrawn(g, d, i);
    }
    assert FindingsOf(g, d, batch, ids, e);
  }

  lemma SamplingFiled(g: Generators, d: Desk, cmd: string)
    ensures AddsSampling(g, d, Handle(g, d, Sampling, cmd))
  {
    assert [] + g.many(d.calls, d.bag) == g.many(d.calls, d.bag);
  }

  lemma PapersFiled(g: Generators, d: Desk, e: Engagement, cmd: string)
    requires d.bag.engagements != [] && e == Last(d.bag.engagements)
    ensures AddsPaperAndEvidence(g, d, Handle(g, d, Workpapers, cmd), e, g.sectionOf(cmd))
    ensures forall section :: AddsPaper(g, d, Handle(g, d, SectionPaper(section), cmd), e, section)
    ensures AddsPaper(g, d, Handle(g, d, GenericPaper, cmd), e, g.sectionOf(cmd))
  {
    var w := Paper(g, d, e, g.sectionOf(cmd));
    var ids, text := g.many(d.calls + 1, d.bag), g.text(d.calls + 1, d.bag);
    assert EvidenceOf(EvidenceFor(ids, w, text), ids, w, text);
  }

  lemma EvidenceFiled(g: Generators, d: Desk, cmd: string)
    ensures AddsEvidence(g, d, Handle(g, d, EvidenceItems, cmd))
  {
    if d.bag.workpapers != [] {
      var last := Last(d.bag.workpapers);
      assert EvidenceOf(EvidenceFor(g.many(d.calls, d.bag), last, g.text(d.calls, d.bag)), g.many(d.calls, d.bag), last,
                        g.text(d.calls, d.bag));
    }
  }

  lemma {:induction false} AnswersJoin(g: Generators, d: Desk, sent: seq<Confirmation>)
    ensures Seqs.Joins(ResponsesTo(g, d.calls, d.bag, sent), Answers(g, d, sent))
  {
    if sent == [] {
    } else {
      var front, last := sent[..|sent| - 1], sent[|sent| - 1];
      var parts := Answers(g, d, sent);
      AnswersJoin(g, d, front);
      assert parts == Answers(g, d, front) + [parts[|sent| - 1]];
      Seqs.JoinsPush(ResponsesTo(g, d.calls, d.bag, front), Answers(g, d, front), parts[|sent| - 1]);
      assert ResponsesTo(g, d.calls, d.bag, sent) == ResponsesTo(g, d.calls, d.bag, front) + parts[|sent| - 1];
    }
  }

  lemma ConfirmationsFiled(g: Generators, d: Desk, e: Engagement, cmd: string)
    requires d.bag.engagements != [] && e == Last(d.bag.engagements)
    ensures AddsConfirmations(g, d, Handle(g, d, Confirmations, cmd), e)
  {
    var ids := g.many(d.calls, d.bag);
    var sent := ConfirmationsFor(g, d.calls, d.bag, ids, e);
    assert Substantive(d.bag) == SubstantivePapers(d.bag);
    assert ConfirmationsOf(g, d, sent, ids, e);
    AnswersJoin(g, d, sent);
  }

  lemma BeginsIff(cmd: string, verbs: set<string>)
    requires forall verb :: verb in verbs ==> verb != "" && '_' !in verb
    ensures Begins(cmd, verbs) <==> VerbOf(cmd) in verbs
  {
    forall verb | verb in verbs ensures VerbOf(cmd) == verb <==> verb + "_" <= cmd {
      VerbIsPrefix(cmd, verb);
    }
  }

  lemma FirstVerbs(cmd: string)
    ensures Begins(cmd, {"provide", "document", "prepare"}) <==>
            VerbOf(cmd) in {"provide", "document", "prepare"}
    ensures Begins(cmd, {"evaluate", "assess", "consider"}) <==>
            VerbOf(cmd) in {"evaluate", "assess", "consider"}
    ensures Begins(cmd, {"determine", "calculate", "compute"}) <==>
            VerbOf(cmd) in {"determine", "calculate", "compute"}
    ensures Begins(cmd, {"perform", "test", "execute"}) <==>
            VerbOf(cmd) in {"perform", "test", "execute"}
  {
    hide VerbOf, Begins;
    BeginsIff(cmd, {"provide", "document", "prepare"});
    BeginsIff(cmd, {"evaluate", "assess", "consider"});
    BeginsIff(cmd, {"determine", "calculate", "compute"});
    BeginsIff(cmd, {"perform", "test", "execute"});
  }

  lemma SecondVerbs(cmd: string)
    ensures Begins(cmd, {"obtain", "confirm", "request", "send"}) <==>
            VerbOf(cmd) in {"obtain", "confirm", "request", "send"}
    ensures Begins(cmd, {"identify", "detect", "find"}) <==>
            VerbOf(cmd) in {"identify", "detect", "find"}
    ensures Begins(cmd, {"review", "inspect", "examine", "check"}) <==>
            VerbOf(cmd) in {"review", "inspect", "examine", "check"}
    ensures Begins(cmd, {"report", "communicate", "present", "summarize", "conclude"}) <==>
            VerbOf(cmd) in {"report", "communicate", "present", "summarize", "conclude"}
  {
    hide VerbOf, Begins;
    BeginsIff(cmd, {"obtain", "confirm", "request", "send"});
    BeginsIff(cmd, {"identify", "detect", "find"});
    BeginsIff(cmd, {"review", "inspect", "examine", "check"});
    BeginsIff(cmd, {"report", "communicate", "present", "summarize", "conclude"});
  }

  lemma ThirdVerbs(cmd: string)
    ensures Begins(cmd, {"approve", "sign", "authorize"}) <==>
            VerbOf(cmd) in {"approve", "sign", "authorize"}
    ensures Begins(cmd, {"also", "use", "include", "can", "apply", "address", "focus", "will", "need", "require",
                         "has", "is", "necessary", "identified"}) <==>
            VerbOf(cmd) in {"also", "use", "include", "can", "apply", "address", "focus", "will", "need", "require",
                            "has", "is", "necessary", "identified"}
    ensures Begins(cmd, {"understand", "inquire", "observe"}) <==>
            VerbOf(cmd) in {"understand", "inquire", "observe"}
  {
    hide VerbOf, Begins;
    BeginsIff(cmd, {"approve", "sign", "authorize"});
    BeginsIff(cmd, {"also", "use", "include", "can", "apply", "address", "focus", "will", "need", "require",
                    "has", "is", "necessary", "identified"});
    BeginsIff(cmd, {"understand", "inquire", "observe"});
  }

  lemma FourthVerbs(cmd: string)
    ensures Begins(cmd, {"discuss", "agree", "instruct", "exercise", "coordinate"}) <==>
            VerbOf(cmd) in {"discuss", "agree", "instruct", "exercise", "coordinate"}
    ensures Begins(cmd, {"design", "plan", "develop", "select", "establish"}) <==>
            VerbOf(cmd) in {"design", "plan", "develop", "select", "establish"}
  {
    hide VerbOf, Begins;
    BeginsIff(cmd, {"discuss", "agree", "instruct", "exercise", "coordinate"});
    BeginsIff(cmd, {"design", "plan", "develop", "select", "establish"});
  }

  lemma LastVerbs(cmd: string)
    ensures Begins(cmd, {"do", "make", "update", "reperform", "verify", "analyze", "record", "describe", "reflect",
                         "support"}) <==>
            VerbOf(cmd) in {"do", "make", "update", "reperform", "verify", "analyze", "record", "describe", "reflect",
                            "support"}
    ensures Begins(cmd, {"may"}) <==> VerbOf(cmd) in {"may"}
  {
    hide VerbOf, Begins;
    BeginsIff(cmd, {"do", "make", "update", "reperform", "verify", "analyze", "record", "describe", "reflect",
                    "support"});
    BeginsIff(cmd, {"may"});
  }

  lemma VerbFiled(g: Generators, d: Desk, e: Engagement, cmd: string)
    requires d.bag.engagements != [] && e == Last(d.bag.engagements)
    ensures FilesByVerb(g, d, Handle(g, d, RouteVerb(VerbOf(cmd)), cmd), e, cmd)
  {
    hide Handle, Begins, VerbOf;
    hide AddsEngagement, AddsLetter, AddsMateriality, AddsRisks, AddsCombinedRisks, AddsPaperAndEvidence;
    hide AddsSampling, AddsAnalyticalResults, AddsConfirmations, AddsGoingConcern, AddsSubsequentEvents;
    hide AddsFindings, AddsOpinion, AddsJudgment, AddsEvidence, AddsPaper;
    FirstVerbs(cmd);
    SecondVerbs(cmd);
    ThirdVerbs(cmd);
    FourthVerbs(cmd);
    LastVerbs(cmd);
    SingleFiled(g, d, e, cmd);
    BatchesFiled(g, d, e, cmd);
    FindingsFiled(g, d, e, cmd);
    SamplingFiled(g, d, cmd);
    PapersFiled(g, d, e, cmd);
    EvidenceFiled(g, d, cmd);
  }

  lemma CommandFiled(g: Generators, d: Desk, e: Engagement, cmd: string)
    requires d.bag.engagements != [] && e == Last(d.bag.engagements)
    ensures FilesByName(g, d, Handle(g, d, Route(cmd), cmd), e, cmd)
  {
    hide Handle, FilesByVerb, RouteVerb, VerbOf;
    hide AddsEngagement, AddsLetter, AddsMateriality, AddsRisks, AddsCombinedRisks, AddsPaperAndEvidence;
    hide AddsSampling, AddsAnalyticalResults, AddsConfirmations, AddsGoingConcern, AddsSubsequentEvents;
    hide AddsFindings, AddsOpinion, AddsJudgment, AddsEvidence, AddsPaper;
    hide AsksForEngagement, AsksForLetter, AsksForRisks, AsksForCombinedRisks, AsksForDesignPaper;
    hide AsksForSampling, AsksForGoingConcern, AsksForFindings, AsksForOpinion, AsksForJudgment;
    hide AsksForEvidence, AsksForPlanning, AsksForReporting, AsksForFollowUp, AsksForGovernance;
    hide AsksForMonitoring;
    hide CreatesEngagement, IsTerms, IsRiskIdentification, IsRiskCombination, IsDesign, IsTestExecution;
    hide IsGoingConcern, IsFindingDevelopment, IsConclusion, IsQualityReview, IsDocumentation, IsPlanning;
    hide IsReporting, IsFollowUp, IsGovernance, IsPerformance;
    EarlyNames(cmd);
    FindingNames(cmd);
    PlanningNames(cmd);
    LateNames(cmd);
    SingleFiled(g, d, e, cmd);
    BatchesFiled(g, d, e, cmd);
    FindingsFiled(g, d, e, cmd);
    SamplingFiled(g, d, cmd);
    PapersFiled(g, d, e, cmd);
    EvidenceFiled(g, d, cmd);
    ConfirmationsFiled(g, d, e, cmd);
    VerbFiled(g, d, e, cmd);
  }

  /** No name listed earlier gets in the way: analytical procedures yield analytical results. */
  lemma AnalyticalProcedures(g: Generators, inventory: map<string, StepInventory>, d: Desk, stepId: string)
    requires d.bag.engagements != [] && stepId !in inventory
    ensures AddsAnalyticalResults(g, d, DispatchStep(g, inventory, d, stepId, "perform_analytical_procedures"),
                                  Last(d.bag.engagements))
  {
    hide Handle, Route, NeedsBootstrap, AddsAnalyticalResults;
    CommandFiled(g, d, Last(d.bag.engagements), "perform_analytical_procedures");
  }

  /** And confirmations are sent where they are asked for. */
  lemma SentConfirmations(g: Generators, inventory: map<string, StepInventory>, d: Desk, stepId: string)
    requires d.bag.engagements != [] && stepId !in inventory
    ensures AddsConfirmations(g, d, DispatchStep(g, inventory, d, stepId, "send_confirmations"), Last(d.bag.engagements))
  {
    hide Handle, Route, NeedsBootstrap, AddsConfirmations;
    CommandFiled(g, d, Last(d.bag.engagements), "send_confirmations");
  }

  // ----- one step -----

  /** An empty bag gets an engagement first, unless the command makes one itself or only moves the
      plan or the cycle along. */
  ghost predicate Booted(g: Generators, d: Desk, d': Desk, cmd: string) {
    if |d.bag.engagements| > 0 || cmd in {
         "", "start_universe_update", "submit_universe", "approve_universe", "activate", "submit_for_review", "cycle_back",
         "complete_cycle", "evaluate_client_acceptance", "conduct_opening_meeting", "conduct_meeting",
         "define_engagement_scope"}
    then d' == d
    else AddsEngagement(g, d, d')
  }

  /** Without an engagement only a command that makes one files anything. */
  ghost predicate Filed(g: Generators, d: Desk, d': Desk, cmd: string) {
    if |d.bag.engagements| > 0 then FilesByName(g, d, d', d.bag.engagements[|d.bag.engagements| - 1], cmd)
    else if AsksForEngagement(cmd) then AddsEngagement(g, d, d')
    else d' == d
  }

  /** The last paper is told the data requirements, the last item of evidence the form fields. */
  ghost predicate Noted(inv: StepInventory, d: Desk, d': Desk) {
    var papers, items := d.bag.workpapers, d.bag.evidence;
    && d' == d.(bag := d.bag.(workpapers := d'.bag.workpapers, evidence := d'.bag.evidence))
    && |d'.bag.workpapers| == |papers| && |d'.bag.evidence| == |items|
    && (forall i :: 0 <= i < |papers| ==>
                      d'.bag.workpapers[i] ==
                      if i < |papers| - 1 || inv.requirements == "" then papers[i]
                      else papers[i].(objective := papers[i].objective + " | Data requirements: " + inv.requirements))
    && (forall i :: 0 <= i < |items| ==>
                      d'.bag.evidence[i] ==
                      if i < |items| - 1 || inv.formFields == "" then items[i]
                      else items[i].(description := items[i].description + " | Expected form fields: " + inv.formFields))
  }

  /** A batch of evidence for the last paper, its first item telling the narrative. */
  ghost predicate Narrated(g: Generators, d: Desk, d': Desk, narrative: string) {
    var ids := g.many(d.calls, d.bag);
    if |d.bag.workpapers| == 0 then d' == d
    else
      var w := d.bag.workpapers[|d.bag.workpapers| - 1];
      exists batch: seq<Evidence> ::
        && |batch| == |ids|
        && (forall i :: 0 <= i < |ids| ==>
                          batch[i] == Evidence(ids[i], w.id, w.engagement, if i == 0 then narrative else g.text(d.calls, d.bag)))
        && d' == d.(bag := d.bag.(evidence := d.bag.evidence + batch), calls := d.calls + 1)
  }

  ghost predicate NarratedAlong(g: Generators, narratives: seq<string>, desks: seq<Desk>) {
    && |desks| == |narratives| + 1
    && forall i :: 0 <= i < |narratives| ==> Narrated(g, desks[i], desks[i + 1], narratives[i])
  }

  ghost predicate Enriched(g: Generators, inventory: map<string, StepInventory>, d: Desk, d': Desk, stepId: string) {
    if stepId !in inventory then d' == d
    else
      exists desks :: NarratedAlong(g, inventory[stepId].narratives, desks) && Noted(inventory[stepId], d, desks[0]) &&
                      d' == desks[|desks| - 1]
  }

  /** A step: an engagement if need be, what the command files, and the inventory's notes. */
  ghost predicate StepRule(
    g: Generators, inventory: map<string, StepInventory>, d: Desk, d': Desk, stepId: string, cmd: string)
  {
    exists ready, filed :: Booted(g, d, ready, cmd) && Filed(g, ready, filed, cmd) && Enriched(g, inventory, filed, d', stepId)
  }

  lemma BootFollowsRule(g: Generators, d: Desk, cmd: string)
    ensures Booted(g, d, Bootstrap(g, d, cmd), cmd)
  {}

  lemma IdleHandlers(g: Generators, d: Desk, cmd: string)
    requires d.bag.engagements == []
    ensures AddsEngagement(g, d, Handle(g, d, NewEngagement, cmd))
    ensures Handle(g, d, Judgments, cmd) == d && Handle(g, d, GenericPaper, cmd) == d
  {}

  lemma WithoutEngagement(g: Generators, d: Desk, cmd: string)
    requires d.bag.engagements == [] && !NeedsBootstrap(cmd)
    ensures Filed(g, d, Handle(g, d, Route(cmd), cmd), cmd)
  {
    hide Handle, Route, FilesByName, AddsEngagement, AsksForEngagement, CreatesEngagement, IsLifecycle;
    EarlyNames(cmd);
    IdleHandlers(g, d, cmd);
    if CreatesEngagement(cmd) {
      CreationRoutes(cmd);
    } else {
      LifecycleRoutes(cmd);
    }
  }

  lemma NotesFollowRule(inv: StepInventory, d: Desk)
    ensures Noted(inv, d, NoteFormFields(NoteRequirements(d, inv.requirements), inv.formFields))
  {}

  lemma NarrativeFollowsRule(g: Generators, d: Desk, narrative: string)
    ensures Narrated(g, d, AddNarrative(g, d, narrative), narrative)
  {
    if d.bag.workpapers != [] {
      var plain := EvidenceFor(g.many(d.calls, d.bag), Last(d.bag.workpapers), g.text(d.calls, d.bag));
      var batch := if plain == [] then [] else [plain[0].(description := narrative)] + plain[1..];
      assert |batch| == |plain|;
    }
  }

  lemma {:induction false} NarrativesFollowRule(g: Generators, d: Desk, narratives: seq<string>) returns (desks: seq<Desk>)
    ensures NarratedAlong(g, narratives, desks) && desks[0] == d
    ensures desks[|desks| - 1] == AddNarratives(g, d, narratives)
  {
    hide Narrated, AddNarrative;
    if narratives == [] {
      desks := [d];
    } else {
      var front := narratives[..|narratives| - 1];
      var before := NarrativesFollowRule(g, d, front);
      NarrativeFollowsRule(g, AddNarratives(g, d, front), Last(narratives));
      desks := before + [AddNarratives(g, d, narratives)];
    }
  }

  lemma EnrichFollowsRule(g: Generators, inventory: map<string, StepInventory>, d: Desk, stepId: string)
    ensures Enriched(g, inventory, d, Enrich(g, inventory, d, stepId), stepId)
  {
    if stepId in inventory {
      var inv := inventory[stepId];
      NotesFollowRule(inv, d);
      var desks := NarrativesFollowRule(g, NoteFormFields(NoteRequirements(d, inv.requirements), inv.formFields), inv.narratives);
    }
  }

  /** Every step files what the table says, whatever is in the bag. */
  lemma StepFollowsTable(g: Generators, inventory: map<string, StepInventory>, d: Desk, stepId: string, cmd: string)
    ensures StepRule(g, inventory, d, DispatchStep(g, inventory, d, stepId, cmd), stepId, cmd)
  {
    hide Booted, Handle, Route, FilesByName, AddsEngagement, AsksForEngagement, NeedsBootstrap, Enrich, Enriched;
    var ready := Bootstrap(g, d, cmd);
    var filed := Handle(g, ready, Route(cmd), cmd);
    BootFollowsRule(g, d, cmd);
    EnrichFollowsRule(g, inventory, filed, stepId);
    if ready.bag.engagements == [] {
      WithoutEngagement(g, ready, cmd);
    } else {
      CommandFiled(g, ready, Last(ready.bag.engagements), cmd);
    }
  }

  ghost predicate StepsAlong(
    g: Generators, inventory: map<string, StepInventory>, steps: seq<(string, string)>, desks: seq<Desk>)
  {
    && |desks| == |steps| + 1
    && forall i :: 0 <= i < |steps| ==> StepRule(g, inventory, desks[i], desks[i + 1], steps[i].0, steps[i].1)
  }

  /** The bag of a whole run is what the table makes of its commands, one after the other, from an
      empty bag and without warnings. */
  lemma {:induction false} RunFollowsTable(
    g: Generators, inventory: map<string, StepInventory>, calls: nat, steps: seq<(string, string)>)
    ensures exists desks ::
              && StepsAlong(g, inventory, steps, desks)
              && desks[0] == Desk(Bag([], [], [], [], [], [], [], [], [], [], [], [], [], [], [], [], [], []), calls, [])
              && desks[|steps|] == RunFromEmpty(g, inventory, calls, steps)
  {
    hide StepRule, DispatchStep;
    if steps == [] {
      assert StepsAlong(g, inventory, steps, [RunFromEmpty(g, inventory, calls, steps)]);
    } else {
      var front, step := steps[..|steps| - 1], Last(steps);
      var mid := RunFromEmpty(g, inventory, calls, front);
      RunFollowsTable(g, inventory, calls, front);
      StepFollowsTable(g, inventory, mid, step.0, step.1);
      var desks :| StepsAlong(g, inventory, front, desks) && desks[|front|] == mid
                   && desks[0] == Desk(Bag([], [], [], [], [], [], [], [], [], [], [], [], [], [], [], [], [], []), calls, []);
      StepsPush(g, inventory, steps, desks, DispatchStep(g, inventory, mid, step.0, step.1));
    }
  }

  lemma StepsPush(
    g: Generators, inventory: map<string, StepInventory>, steps: seq<(string, string)>, desks: seq<Desk>, last: Desk)
    requires steps != [] && StepsAlong(g, inventory, steps[..|steps| - 1], desks)
    requires StepRule(g, inventory, desks[|steps| - 1], last, Last(steps).0, Last(steps).1)
    ensures StepsAlong(g, inventory, steps, desks + [last])
  {
    hide StepRule;
    var longer := desks + [last];
    forall i | 0 <= i < |steps| ensures StepRule(g, inventory, longer[i], longer[i + 1], steps[i].0, steps[i].1) {
      if i < |steps| - 1 {
        assert steps[..|steps| - 1][i] == steps[i];
      }
    }
  }
}
