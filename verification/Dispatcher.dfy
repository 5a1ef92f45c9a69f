/** The dispatcher object: each method files artifacts in a mutable bag exactly as the
    corresponding function of `Dispatch` says. */
module Dispatcher {
  import opened Wrappers
  import opened CommandRouting
  import opened Artifacts
  import opened Dispatch
  import DispatchTable

  class StepDispatcher {
    const gens: Generators
    const inventory: map<string, StepInventory>
    var calls: nat
    var warnings: seq<Warning>
    // The generator calls before, and the step commands since, the current bag was started.
    ghost var callsBefore: nat
    ghost var history: seq<(string, string)>

    constructor (gens: Generators, inventory: map<string, StepInventory>)
      ensures this.gens == gens && this.inventory == inventory && calls == 0
    {
      this.gens := gens;
      this.inventory := inventory;
      calls := 0;
      warnings := [];
      callsBefore, history := 0, [];
    }

    function State(bag: ArtifactBag): Desk
      reads this, bag
    {
      Desk(bag.View(), calls, warnings)
    }

    /** The bag is what the step commands so far make of an empty one. */
    ghost predicate Faithful(bag: ArtifactBag)
      reads this, bag
    {
      State(bag) == RunFromEmpty(gens, inventory, callsBefore, history)
    }

    /** Start an empty bag. */
    method BeginBag() returns (bag: ArtifactBag)
      modifies this
      ensures fresh(bag) && Faithful(bag) && history == [] && calls == callsBefore == old(calls)
    {
      bag := new ArtifactBag();
      warnings := [];
      callsBefore, history := calls, [];
    }

    /** The next value of a single-artifact generator. */
    method NextOne(bag: ArtifactBag) returns (id: int)
      modifies `calls
      ensures id == gens.one(old(calls), bag.View())
      ensures calls == old(calls) + 1
    {
      id := gens.one(calls, bag.View());
      calls := calls + 1;
    }

    /** The next batch of a list-valued generator. */
    method NextMany(bag: ArtifactBag) returns (ids: seq<int>)
      modifies `calls
      ensures ids == gens.many(old(calls), bag.View())
      ensures calls == old(calls) + 1
    {
      ids := gens.many(calls, bag.View());
      calls := calls + 1;
    }

    method DispatchEngagement(bag: ArtifactBag)
      modifies `calls, `warnings, bag
      ensures State(bag) == AddEngagement(gens, old(State(bag)))
    {
      var id := NextOne(bag);
      bag.engagements := bag.engagements + [Engagement(id)];
    }

    method DispatchEngagementLetter(bag: ArtifactBag)
      modifies `calls, `warnings, bag
      ensures State(bag) == AddLetter(gens, old(State(bag)))
    {
      if bag.engagements == [] {
        warnings := warnings + [NoEngagement(Letter)];
        return;
      }
      var engagement := Last(bag.engagements);
      var id := NextOne(bag);
      bag.letters := bag.letters + [Linked(id, engagement.id)];
    }

    method DispatchMateriality(bag: ArtifactBag)
      modifies `calls, `warnings, bag
      ensures State(bag) == AddMateriality(gens, old(State(bag)))
    {
      var id := NextOne(bag);
      bag.materiality := bag.materiality + [id];
    }

    method DispatchRiskAssessment(bag: ArtifactBag)
      modifies `calls, `warnings, bag
      ensures State(bag) == AddRisks(gens, old(State(bag)))
    {
      if bag.engagements == [] {
        warnings := warnings + [NoEngagement(RiskAssessments)];
        return;
      }
      var engagement := Last(bag.engagements);
      var ids := NextMany(bag);
      bag.risks := bag.risks + Link(ids, engagement);
    }

    method DispatchCra(bag: ArtifactBag)
      modifies `calls, `warnings, bag
      ensures State(bag) == AddCombinedRisks(gens, old(State(bag)))
    {
      var ids := NextMany(bag);
      bag.combinedRisks := bag.combinedRisks + ids;
    }

    method DispatchWorkpaper(bag: ArtifactBag, cmd: string)
      modifies `calls, `warnings, bag
      ensures State(bag) == AddWorkpaper(gens, old(State(bag)), cmd)
    {
      if bag.engagements == [] {
        warnings := warnings + [NoEngagement(Workpapers)];
        return;
      }
      var engagement := Last(bag.engagements);
      var text := gens.text(calls, bag.View());
      var id := NextOne(bag);
      var w := Workpaper(id, engagement.id, gens.sectionOf(cmd), text);
      text := gens.text(calls, bag.View());
      var ids := NextMany(bag);
      bag.evidence := bag.evidence + EvidenceFor(ids, w, text);
      bag.workpapers := bag.workpapers + [w];
    }

    method DispatchSampling(bag: ArtifactBag)
      modifies `calls, `warnings, bag
      ensures State(bag) == AddSampling(gens, old(State(bag)))
    {
      if bag.combinedRisks == [] {
        warnings := warnings + [NoCombinedRisks];
        DispatchCra(bag);
      }
      var plans := NextMany(bag);
      var items := NextMany(bag);
      bag.samplingPlans := bag.samplingPlans + plans;
      bag.sampledItems := bag.sampledItems + items;
    }

    method DispatchAnalyticalProcedures(bag: ArtifactBag)
      modifies `calls, `warnings, bag
      ensures State(bag) == AddAnalytical(gens, old(State(bag)))
    {
      if bag.engagements == [] {
        warnings := warnings + [NoEngagement(Analytical)];
        return;
      }
      var engagement := Last(bag.engagements);
      var ids := NextMany(bag);
      bag.analyticalResults := bag.analyticalResults + Link(ids, engagement);
    }

    /** A confirmation per id, each with the response it gets, if it gets one. */
    method GenerateConfirmations(bag: ArtifactBag, e: Engagement)
      returns (sent: seq<Confirmation>, responses: seq<Response>)
      modifies `calls
      ensures calls == old(calls) + 1
      ensures sent == ConfirmationsFor(gens, old(calls), bag.View(), gens.many(old(calls), bag.View()), e)
      ensures responses == ResponsesTo(gens, old(calls), bag.View(), sent)
    {
      var call, given := calls, bag.View();
      var ids := NextMany(bag);
      var papers := SubstantivePapers(given);
      sent, responses := [], [];
      for i := 0 to |ids|
        invariant calls == call + 1 && bag.View() == given
        invariant sent == ConfirmationsFor(gens, call, given, ids[..i], e)
        invariant responses == ResponsesTo(gens, call, given, sent)
      {
        var confirmation := Confirmation(ids[i], e.id, None);
        if papers != [] {
          confirmation := confirmation.(workpaper := Some(papers[gens.pick(call, given, i, 0) % |papers|].id));
        }
        assert (sent + [confirmation])[..i] == sent;
        if gens.pick(call, given, i, 1) % 2 != 0 {
          responses := responses + [Response(gens.pick(call, given, i, 2), confirmation.id, e.id)];
        }
        sent := sent + [confirmation];
      }
      assert ids[..|ids|] == ids;
    }

    method DispatchConfirmations(bag: ArtifactBag)
      modifies `calls, `warnings, bag
      ensures State(bag) == AddConfirmations(gens, old(State(bag)))
    {
      if bag.engagements == [] {
        warnings := warnings + [NoEngagement(Confirmations)];
        return;
      }
      var engagement := Last(bag.engagements);
      var sent, responses := GenerateConfirmations(bag, engagement);
      bag.confirmations := bag.confirmations + sent;
      bag.confirmationResponses := bag.confirmationResponses + responses;
    }

    method DispatchGoingConcern(bag: ArtifactBag)
      modifies `calls, `warnings, bag
      ensures State(bag) == AddGoingConcern(gens, old(State(bag)))
    {
      var id := NextOne(bag);
      bag.goingConcern := bag.goingConcern + [id];
    }

    method DispatchSubsequentEvents(bag: ArtifactBag)
      modifies `calls, `warnings, bag
      ensures State(bag) == AddSubsequentEvents(gens, old(State(bag)))
    {
      var ids := NextMany(bag);
      bag.subsequentEvents := bag.subsequentEvents + ids;
    }

    method DispatchFindings(bag: ArtifactBag)
      modifies `calls, `warnings, bag
      ensures State(bag) == AddFindings(gens, old(State(bag)))
    {
      if bag.engagements == [] {
        warnings := warnings + [NoEngagement(Findings)];
        return;
      }
      var engagement := Last(bag.engagements);
      var call, given := calls, bag.View();
      var ids := NextMany(bag);
      bag.findings := bag.findings + FindingsFor(gens, call, given, ids, engagement);
    }

    method DispatchOpinion(bag: ArtifactBag)
      modifies `calls, `warnings, bag
      ensures State(bag) == AddOpinion(gens, old(State(bag)))
    {
      if bag.engagements == [] {
        warnings := warnings + [NoEngagement(Opinion)];
        return;
      }
      var engagement := Last(bag.engagements);
      var id := NextOne(bag);
      var matters := NextMany(bag);
      bag.opinions := bag.opinions + [Linked(id, engagement.id)];
      bag.keyAuditMatters := bag.keyAuditMatters + matters;
    }

    method DispatchJudgment(bag: ArtifactBag)
      modifies `calls, `warnings, bag
      ensures State(bag) == AddJudgment(gens, old(State(bag)))
    {
      if bag.engagements == [] {
        return;
      }
      var engagement := Last(bag.engagements);
      var id := NextOne(bag);
      bag.judgments := bag.judgments + [Linked(id, engagement.id)];
    }

    method DispatchEvidence(bag: ArtifactBag)
      modifies `calls, `warnings, bag
      ensures State(bag) == AddEvidence(gens, old(State(bag)), gens.text(old(calls), old(bag.View())))
    {
      if bag.workpapers != [] {
        var w := Last(bag.workpapers);
        var text := gens.text(calls, bag.View());
        var ids := NextMany(bag);
        bag.evidence := bag.evidence + EvidenceFor(ids, w, text);
      }
    }

    method DispatchWorkpaperSection(bag: ArtifactBag, section: Section)
      modifies `calls, `warnings, bag
      ensures State(bag) == AddSectionPaper(gens, old(State(bag)), section)
    {
      if bag.engagements == [] {
        return;
      }
      var engagement := Last(bag.engagements);
      var text := gens.text(calls, bag.View());
      var id := NextOne(bag);
      bag.workpapers := bag.workpapers + [Workpaper(id, engagement.id, section, text)];
    }

    method HandleCommand(bag: ArtifactBag, h: Handler, cmd: string)
      modifies `calls, `warnings, bag
      ensures State(bag) == Handle(gens, old(State(bag)), h, cmd)
    {
      match h
      case NewEngagement => DispatchEngagement(bag);
      case Letter => DispatchEngagementLetter(bag);
      case Materiality => DispatchMateriality(bag);
      case RiskAssessments => DispatchRiskAssessment(bag);
      case CombinedRisks => DispatchCra(bag);
      case Workpapers => DispatchWorkpaper(bag, cmd);
      case Sampling => DispatchSampling(bag);
      case Analytical => DispatchAnalyticalProcedures(bag);
      case Confirmations => DispatchConfirmations(bag);
      case GoingConcern => DispatchGoingConcern(bag);
      case SubsequentEvents => DispatchSubsequentEvents(bag);
      case Findings => DispatchFindings(bag);
      case Opinion => DispatchOpinion(bag);
      case Judgments => DispatchJudgment(bag);
      case EvidenceItems => DispatchEvidence(bag);
      case SectionPaper(section) => DispatchWorkpaperSection(bag, section);
      case GenericPaper => DispatchWorkpaperSection(bag, gens.sectionOf(cmd));
    }

    method FileNarratives(bag: ArtifactBag, narratives: seq<string>)
      modifies `calls, `warnings, bag
      ensures State(bag) == AddNarratives(gens, old(State(bag)), narratives)
    {
      for i := 0 to |narratives|
        invariant State(bag) == AddNarratives(gens, old(State(bag)), narratives[..i])
      {
        assert narratives[..i + 1][..i] == narratives[..i];
        if bag.workpapers != [] {
          var w := Last(bag.workpapers);
          var text := gens.text(calls, bag.View());
          var ids := NextMany(bag);
          var evidence := EvidenceFor(ids, w, text);
          if evidence != [] {
            evidence := [evidence[0].(description := narratives[i])] + evidence[1..];
          }
          bag.evidence := bag.evidence + evidence;
        }
      }
      assert narratives[..|narratives|] == narratives;
    }

    method NoteOnPaper(bag: ArtifactBag, requirements: string)
      modifies bag
      ensures State(bag) == NoteRequirements(old(State(bag)), requirements)
    {
      if requirements != "" && bag.workpapers != [] {
        var w := Last(bag.workpapers);
        w := w.(objective := w.objective + " | Data requirements: " + requirements);
        bag.workpapers := bag.workpapers[|bag.workpapers| - 1 := w];
      }
    }

    method NoteOnEvidence(bag: ArtifactBag, formFields: string)
      modifies bag
      ensures State(bag) == NoteFormFields(old(State(bag)), formFields)
    {
      if formFields != "" && bag.evidence != [] {
        var e := Last(bag.evidence);
        e := e.(description := e.description + " | Expected form fields: " + formFields);
        bag.evidence := bag.evidence[|bag.evidence| - 1 := e];
      }
    }

    method EnrichFromInventory(bag: ArtifactBag, stepId: string)
      modifies `calls, `warnings, bag
      ensures State(bag) == Enrich(gens, inventory, old(State(bag)), stepId)
    {
      if stepId !in inventory {
        return;
      }
      var inv := inventory[stepId];
      NoteOnPaper(bag, inv.requirements);
      NoteOnEvidence(bag, inv.formFields);
      FileNarratives(bag, inv.narratives);
    }

    /** Bootstrap the engagement record if the command needs one, run its handler, enrich. */
    method DispatchCommand(bag: ArtifactBag, stepId: string, cmd: string)
      modifies `calls, `warnings, bag
      ensures State(bag) == DispatchStep(gens, inventory, old(State(bag)), stepId, cmd)
      ensures DispatchTable.StepRule(gens, inventory, old(State(bag)), State(bag), stepId, cmd)
    {
      hide DispatchTable.StepRule;
      DispatchTable.StepFollowsTable(gens, inventory, State(bag), stepId, cmd);
      if bag.engagements == [] && NeedsBootstrap(cmd) {
        DispatchEngagement(bag);
      }
      HandleCommand(bag, Route(cmd), cmd);
      EnrichFromInventory(bag, stepId);
    }

    /** Dispatch a step and remember it. */
    method RecordStep(bag: ArtifactBag, stepId: string, cmd: string)
      requires Faithful(bag)
      modifies this, bag
      ensures Faithful(bag) && history == old(history) + [(stepId, cmd)] && callsBefore == old(callsBefore)
    {
      RunPush(gens, inventory, callsBefore, history, (stepId, cmd));
      DispatchCommand(bag, stepId, cmd);
      history := history + [(stepId, cmd)];
    }
  }
}
