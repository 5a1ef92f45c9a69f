/** Which generator a step command goes to. */
module CommandRouting {
  import opened Wrappers

  datatype Section = Planning | RiskAssessment | ControlTesting | SubstantiveTesting | Completion | Reporting

  datatype Handler =
    | NewEngagement | Letter | Materiality | RiskAssessments | CombinedRisks | Workpapers
    | Sampling | Analytical | Confirmations | GoingConcern | SubsequentEvents | Findings
    | Opinion | Judgments | EvidenceItems | SectionPaper(section: Section) | GenericPaper

  // ----- commands that are never preceded by a bootstrap of the engagement record -----

  predicate CreatesEngagement(cmd: string) {
    cmd in {"evaluate_client_acceptance", "conduct_opening_meeting", "conduct_meeting", "define_engagement_scope"}
  }

  predicate IsLifecycle(cmd: string) {
    IsUniverseStep(cmd) || IsCycleStep(cmd) || cmd in {"", "activate"}
  }

  predicate IsUniverseStep(cmd: string) {
    cmd in {"start_universe_update", "submit_universe", "approve_universe"}
  }

  predicate IsCycleStep(cmd: string) {
    cmd in {"submit_for_review", "cycle_back", "complete_cycle"}
  }

  predicate NeedsBootstrap(cmd: string) {
    !CreatesEngagement(cmd) && !IsLifecycle(cmd)
  }

  // ----- commands listed by name -----

  /** Workpapers for a design step. */
  predicate IsDesign(cmd: string) {
    cmd in {
      "design_test_procedures", "design_work_program", "design_controls_tests", "design_substantive_procedures",
      "design_analytical_procedures"}
  }

  /** Sampling and test execution. */
  predicate IsTestExecution(cmd: string) {
    cmd in {
      "perform_test_procedures", "perform_controls_tests", "perform_tests_of_details", "review_test_results",
      "request_additional_testing"}
  }

  /** Finding development. */
  predicate IsFindingDevelopment(cmd: string) {
    cmd in {
      "identify_condition", "map_criteria", "analyze_cause", "assess_effect", "draft_finding", "close_finding",
      "obtain_response", "identify_finding_condition", "map_finding_criteria", "analyze_cause_and_effect",
      "evaluate_finding_significance", "evaluate_findings", "evaluate_misstatements", "discuss_findings",
      "discuss_preliminary_findings", "agree_action_plans", "develop_recommendations"}
  }

  /** Judgment, engagement quality and approvals. */
  predicate IsQualityReview(cmd: string) {
    cmd in {
      "review_engagement_quality", "exercise_skepticism", "apply_due_care", "supervise_engagement_quality",
      "conduct_periodic_assessment", "oversee_qaip", "evaluate_staff_performance", "commission_external_qa",
      "confirm_cae_qualifications", "document_risk_acceptance", "disclose_errors_omissions", "approve_charter",
      "approve_control_evaluation", "approve_draft_report", "approve_plan", "approve_procedure",
      "approve_risk_assessment", "approve_scope", "approve_testing", "approve_work_program"}
  }

  /** Documentation, evidence and submissions. */
  predicate IsDocumentation(cmd: string) {
    cmd in {
      "document_engagement_work", "archive_engagement_documentation", "protect_information",
      "establish_confidentiality_policies", "submit_charter", "submit_control_evaluation",
      "submit_draft_report", "submit_final_report", "submit_plan", "submit_risk_assessment", "submit_scope",
      "submit_testing"}
  }

  /** Planning, scoping and initialization. */
  predicate IsPlanning(cmd: string) {
    cmd in {
      "define_engagement_scope_detail", "determine_engagement_timeline", "draft_annual_plan",
      "develop_work_program", "scope_engagement", "develop_staffing_plan", "develop_ia_budget",
      "assign_team_members", "determine_sme_needs", "confirm_resource_competencies",
      "identify_auditable_entities", "prioritize_audit_entities", "identify_stakeholders",
      "recruit_and_develop_staff", "start_allocation", "start_control_evaluation", "start_draft_report",
      "start_final_report", "start_mandate_development", "start_monitoring", "start_plan_development",
      "start_procedure", "start_risk_assessment", "start_scoping", "start_testing", "start_verification",
      "finalize_allocation", "finalize_plan", "revise_charter", "revise_draft_report", "revise_plan"}
  }

  /** Reporting. */
  predicate IsReporting(cmd: string) {
    cmd in {
      "draft_audit_report", "review_draft_report", "prepare_draft_report", "evaluate_management_responses",
      "send_report_for_response", "receive_response", "request_response", "distribute_final_report",
      "communicate_approved_plan", "present_plan_to_board", "present_resource_requirements",
      "communicate_plan_and_results"}
  }

  /** Follow-up and monitoring of findings. */
  predicate IsFollowUp(cmd: string) {
    cmd in {
      "track_action_plan_status", "escalate_overdue_actions", "report_follow_up_status",
      "verify_remediation_implementation", "conclude_on_remediation", "close_monitoring", "initiate_follow_up",
      "re_verify_action", "complete_verification"}
  }

  /** Ethics and governance. */
  predicate IsGovernance(cmd: string) {
    cmd in {
      "establish_ethics_code", "conduct_ethics_training", "monitor_ethics_compliance",
      "assess_objectivity_threats", "implement_objectivity_safeguards", "disclose_impairments",
      "assess_competencies", "develop_cpd_plans", "verify_standards_conformance", "maintain_ethical_standards",
      "safeguard_objectivity", "establish_independence", "define_ia_mandate", "establish_board_interaction",
      "obtain_board_support", "assess_technology_capabilities", "implement_technology",
      "manage_technological_resources"}
  }

  /** Performance monitoring. */
  predicate IsPerformance(cmd: string) {
    cmd in {
      "define_performance_metrics", "track_performance", "report_performance_to_board",
      "measure_ia_performance", "perform_ongoing_monitoring", "monitor_budget_utilization"}
  }

  /** Engagement letter or charter. */
  predicate IsTerms(cmd: string) {
    cmd in {"agree_engagement_terms", "draft_ia_charter", "finalize_mandate"}
  }

  predicate IsRiskIdentification(cmd: string) {
    cmd in {"identify_engagement_risks", "assess_engagement_risks", "assess_universe_risks", "identify_risks"}
  }

  predicate IsRiskCombination(cmd: string) {
    cmd in {"assess_risks", "assess_control_design", "evaluate_control_effectiveness"}
  }

  predicate IsGoingConcern(cmd: string) {
    cmd in {"evaluate_management_assessment", "determine_going_concern_doubt"}
  }

  predicate IsConclusion(cmd: string) {
    cmd in {"form_audit_opinion", "develop_engagement_conclusions", "finalize_audit_report", "issue_report"}
  }

  /** The commands listed by name, in the order in which they are tried. */
  function RouteListed(cmd: string): Option<Handler> {
    if CreatesEngagement(cmd) then Some(NewEngagement)
    else if IsTerms(cmd) then Some(Letter)
    else if cmd == "determine_overall_materiality" then Some(Materiality)
    else if IsRiskIdentification(cmd) then Some(RiskAssessments)
    else if IsRiskCombination(cmd) then Some(CombinedRisks)
    else if IsDesign(cmd) then Some(Workpapers)
    else if IsTestExecution(cmd) then Some(Sampling)
    else if cmd == "perform_analytical_procedures" then Some(Analytical)
    else if cmd == "send_confirmations" then Some(Confirmations)
    else if IsGoingConcern(cmd) then Some(GoingConcern)
    else if cmd == "perform_subsequent_events_review" then Some(SubsequentEvents)
    else if IsFindingDevelopment(cmd) then Some(Findings)
    else if IsConclusion(cmd) then Some(Opinion)
    else if IsQualityReview(cmd) then Some(Judgments)
    else if IsDocumentation(cmd) then Some(EvidenceItems)
    else if IsPlanning(cmd) then Some(SectionPaper(Planning))
    else if IsReporting(cmd) then Some(SectionPaper(Reporting))
    else if IsFollowUp(cmd) then Some(Findings)
    else if IsGovernance(cmd) then Some(SectionPaper(Planning))
    else if IsPerformance(cmd) then Some(SectionPaper(Completion))
    else
      None
  }

  // ----- every other command goes by its verb, the text before the first underscore -----

  function VerbOf(cmd: string): string {
    if cmd == [] || '_' !in cmd then ""
    else if cmd[0] == '_' then ""
    else
      [cmd[0]] + VerbOf(cmd[1..])
  }

  function RouteVerb(verb: string): Handler {
    if verb in {"provide", "document", "prepare"}
    then Workpapers
    else if verb in {"evaluate", "assess", "consider"}
    then Judgments
    else if verb in {"determine", "calculate", "compute"}
    then Materiality
    else if verb in {"perform", "test", "execute"}
    then Sampling
    else if verb in {"obtain", "confirm", "request", "send"}
    then EvidenceItems
    else if verb in {"identify", "detect", "find"}
    then RiskAssessments
    else if verb in {"review", "inspect", "examine", "check"}
    then Judgments
    else if verb in {"report", "communicate", "present", "summarize", "conclude"}
    then SectionPaper(Reporting)
    else if verb in {"approve", "sign", "authorize"}
    then Judgments
    else if verb in {"also", "use", "include", "can", "apply", "address", "focus", "will", "need", "require",
                     "has", "is", "necessary", "identified"}
    then Workpapers
    else if verb in {"understand", "inquire", "observe"}
    then RiskAssessments
    else if verb in {"discuss", "agree", "instruct", "exercise", "coordinate"}
    then Judgments
    else if verb in {"design", "plan", "develop", "select", "establish"}
    then SectionPaper(Planning)
    else if verb in {"do", "make", "update", "reperform", "verify", "analyze", "record", "describe", "reflect",
                     "support"}
    then Sampling
    else if verb in {"may"}
    then Workpapers
    else
      GenericPaper
  }

  function Route(cmd: string): Handler {
    match RouteListed(cmd)
    case Some(handler) => handler
    case None => RouteVerb(VerbOf(cmd))
  }

  /** Testing the verb is testing for the prefix `<verb>_`. */
  lemma {:induction false} VerbIsPrefix(cmd: string, verb: string)
    requires verb != [] && '_' !in verb
    ensures VerbOf(cmd) == verb <==> verb + "_" <= cmd
  {
    if cmd != [] && cmd[0] == verb[0] {
      if |verb| == 1 {
        var rest := cmd[1..];
        assert cmd == [cmd[0]] + rest && verb + "_" == [verb[0], '_'];
        assert verb + "_" <= cmd ==> cmd[1] == '_';
        if '_' in cmd {
          assert '_' in rest;
          assert VerbOf(rest) == "" <==> rest[0] == '_';
          assert cmd[1] == '_' ==> cmd[..2] == verb + "_";
        }
      } else {
        VerbIsPrefix(cmd[1..], verb[1..]);
        assert verb == [verb[0]] + verb[1..];
        assert verb + "_" == [verb[0]] + (verb[1..] + "_");
        assert cmd == [cmd[0]] + cmd[1..];
      }
    }
  }

  /** Handlers that look for an engagement and complain when there is none. */
  predicate WarnsWithoutEngagement(h: Handler) {
    h.Letter? || h.RiskAssessments? || h.Workpapers? || h.Analytical? || h.Confirmations? || h.Findings? || h.Opinion?
  }

  lemma LifecycleUnlisted(cmd: string)
    requires IsLifecycle(cmd)
    ensures RouteListed(cmd) == None
  {
    hide IsLifecycle, CreatesEngagement, IsTerms, IsRiskIdentification, IsRiskCombination, IsDesign, IsTestExecution, IsGoingConcern;
    hide IsFindingDevelopment, IsConclusion, IsQualityReview, IsDocumentation, IsPlanning, IsReporting, IsFollowUp, IsGovernance;
    hide IsPerformance;
    LifecycleNotCreation(cmd);
    LifecycleNotRisk(cmd);
    LifecycleNotFindings(cmd);
    LifecycleNotQuality(cmd);
    LifecycleNotDocumentation(cmd);
    LifecycleNotPlanning(cmd);
    LifecycleNotReporting(cmd);
    LifecycleNotGovernance(cmd);
  }

  lemma LifecycleNotCreation(cmd: string)
    requires IsLifecycle(cmd)
    ensures !CreatesEngagement(cmd) && !IsDesign(cmd) && !IsTestExecution(cmd)
  {}

  lemma LifecycleNotRisk(cmd: string)
    requires IsLifecycle(cmd)
    ensures !IsTerms(cmd) && !IsRiskIdentification(cmd) && !IsRiskCombination(cmd) && !IsGoingConcern(cmd) && !IsConclusion(cmd)
    ensures cmd !in {"determine_overall_materiality", "perform_analytical_procedures", "send_confirmations",
                     "perform_subsequent_events_review"}
  {}

  lemma LifecycleNotFindings(cmd: string)
    requires IsLifecycle(cmd)
    ensures !IsFindingDevelopment(cmd) && !IsFollowUp(cmd)
  {}

  lemma LifecycleNotQuality(cmd: string)
    requires IsLifecycle(cmd)
    ensures !IsQualityReview(cmd)
  {}

  lemma LifecycleNotDocumentation(cmd: string)
    requires IsLifecycle(cmd)
    ensures !IsDocumentation(cmd) && !IsPerformance(cmd)
  {}

  lemma LifecycleNotPlanning(cmd: string)
    requires IsLifecycle(cmd)
    ensures !IsPlanning(cmd)
  {}

  lemma LifecycleNotReporting(cmd: string)
    requires IsLifecycle(cmd)
    ensures !IsReporting(cmd)
  {}

  lemma LifecycleNotGovernance(cmd: string)
    requires IsLifecycle(cmd)
    ensures !IsGovernance(cmd)
  {}

  lemma SafeVerb(verb: string)
    requires verb in {"", "start", "submit", "approve", "cycle", "complete"}
    ensures RouteVerb(verb) in {Judgments, GenericPaper}
  {}

  lemma NoVerb(cmd: string)
    requires '_' !in cmd
    ensures VerbOf(cmd) == ""
  {}

  lemma ShowVerb(cmd: string, verb: string)
    requires verb != [] && '_' !in verb && verb + "_" <= cmd
    ensures VerbOf(cmd) == verb
  {
    VerbIsPrefix(cmd, verb);
  }

  lemma LifecycleByVerb(cmd: string)
    requires IsLifecycle(cmd)
    ensures RouteVerb(VerbOf(cmd)) in {Judgments, GenericPaper}
  {
    if IsUniverseStep(cmd) {
      UniverseByVerb(cmd);
    } else if IsCycleStep(cmd) {
      CycleByVerb(cmd);
    } else {
      NoVerb(cmd);
      SafeVerb("");
    }
  }

  lemma UniverseByVerb(cmd: string)
    requires IsUniverseStep(cmd)
    ensures RouteVerb(VerbOf(cmd)) in {Judgments, GenericPaper}
  {
    var verb := if cmd == "start_universe_update" then "start" else if cmd == "submit_universe" then "submit" else "approve";
    assert verb + "_" <= cmd && '_' !in verb;
    ShowVerb(cmd, verb);
    SafeVerb(verb);
  }

  lemma CycleByVerb(cmd: string)
    requires IsCycleStep(cmd)
    ensures RouteVerb(VerbOf(cmd)) in {Judgments, GenericPaper}
  {
    var verb := if cmd == "submit_for_review" then "submit" else if cmd == "cycle_back" then "cycle" else "complete";
    assert verb + "_" <= cmd && '_' !in verb;
    ShowVerb(cmd, verb);
    SafeVerb(verb);
  }

  lemma CreationRoutes(cmd: string)
    requires CreatesEngagement(cmd)
    ensures Route(cmd) == NewEngagement
  {}

  lemma UnlistedGoByVerb(cmd: string)
    requires RouteListed(cmd) == None
    ensures Route(cmd) == RouteVerb(VerbOf(cmd))
  {}

  lemma LifecycleRoutes(cmd: string)
    requires IsLifecycle(cmd)
    ensures Route(cmd) in {Judgments, GenericPaper}
  {
    LifecycleByVerb(cmd);
    LifecycleUnlisted(cmd);
    UnlistedGoByVerb(cmd);
  }

  /** A command exempt from the bootstrap rule never reaches a handler that would miss the
      engagement: it creates one, or goes to a handler that does without. */
  lemma ExemptRoutesAreSafe(cmd: string)
    requires !NeedsBootstrap(cmd)
    ensures !WarnsWithoutEngagement(Route(cmd))
  {
    if CreatesEngagement(cmd) {
      CreationRoutes(cmd);
    } else {
      LifecycleRoutes(cmd);
    }
  }
}
