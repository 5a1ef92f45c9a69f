# DataSynth: verified models of the audit engine and the graph export

This project models two parts of DataSynth and proves properties of the models.

**The audit engine** (`crates/datasynth-audit-fsm`). A methodology blueprint lists procedures with preconditions.
The loader orders them (`Loader`, `KahnSort`, `PreconditionGraph`, `TopologicalOrder`, `Ordering`, `ReleaseOrder`) and
validates the blueprint (`Validation`, `ValidationRules`). The engine walks each procedure's state machine, emits events, runs steps, advances a clock and
injects anomalies (`Simulation` is the specification, `Engine` the object that updates its accumulators in place and is
proved equal to it; `RunRules` states by position and field what every run does, without the functions that compute it,
and `RulesDetermine` that this leaves nothing open; `WalkProperties`, `RunProperties`, `EngagementProperties` and
`EndToEnd` say what holds of every run). Each step is dispatched to handlers that fill a bag of artifacts (`CommandRouting`, `Artifacts`, `Dispatch`,
`Dispatcher`; `DispatchTable` lists what each command files). Further anomalies can be injected into the finished log (`LiveInjection`), and phase gates decide which
phases are completed (`Gates`). `AuditGraph` is the typed multigraph with its two adjacency indexes.

**The graph export** (`attic/datasynth-graph-export`). Synthesizers number nodes through a two-way id map (`IdMap`),
budgets cut nodes and edges (`Budget`, `EdgeSampling`), post-processors clean the result up (`PostProcess`), `Ocel`
converts or synthesizes an event log, and `Pipeline` puts the stages and their warnings together. `BudgetRules`,
`PostProcessRules`, `OcelRules` and `ExportRules` state by position what each stage lets through.

Random draws are a tape: arbitrary functions from the number of a draw to a roll, a delay or an id, so every theorem
holds for all draws. A hash map's iteration order is a parameter where it can show in a result, and an arbitrary pick
where it cannot. Artifact generators and synthesizers are arbitrary functions. Times are whole minutes. `f64` products
are exact reals and `round` is half away from zero.

## Where the code and its documentation differ

The models follow the code; each of these has a lemma.

- Proportional sampling promises every edge type an edge, but the final cut can lose one (`EdgeSampling.EveryTypeKeptIff`, `EdgeSampling.EveryOrderKeepsIff`, `EdgeSampling.FourPairsLoseAType`).
- Governance-priority sampling is documented to fill up with process edges proportionally; it takes the first ones, and counts types 138-152 as governance too (`EdgeSampling.GovernanceSampling`, `BudgetRules.EdgesFollowRule`).
- Phase completion never looks at `any_of` (`Gates.AnyOfIsIgnored`, `Gates.UnmetAnyOfPasses`).
- Validation never looks at transition states (`Validation.StatesAreNotChecked`, `Validation.DocumentedVerdictIff`), and a dangling precondition hides every other violation (`Validation.DanglingHidesTheRest`).
- Repeated procedure ids are reported as a cycle of no procedures (`TopologicalOrder.RepeatedIdsReportEmptyCycle`).
- The built-in sort also counts procedures of the methodology file that the blueprint lacks: an acyclic blueprint is then reported as cyclic (`TopologicalOrder.MissingProcedureReportsEmptyCycle`), and one with a repeated id can pass (`TopologicalOrder.RenamedProcedureIsAccepted`); `TopologicalOrder.BuiltinSucceedsIff` says when it succeeds.
- Which dangling reference is named depends on the iteration order of a hash map (`TopologicalOrder.OrderIndependence`).
- An alias can take over another number's primary name (`IdMap.AliasFaithfulIff`, `IdMap.TakenAliasBreaksRoundTrip`).
- The node limit can be exceeded by one (`Budget.NodeLimitHoldsIff`, `Budget.LimitCanBeExceeded`).

The documented fallback to the mean delay, where no log-normal distribution can be built, is outside the clamp at 200
hours; `EngagementProperties.ClampHoldsIff` says when it shows in the length of a run.

## Model

| member | source | states |
|---|---|---|
| `Loader.CollectIds` | crates/datasynth-audit-fsm/src/loader.rs:1275-1280 | the ids of all procedures: those of each phase where the earlier phases end, in the order of the phase |
| `Loader.CheckReferences` | crates/datasynth-audit-fsm/src/loader.rs:1283-1295 | the dangling reference met first when the precondition map is visited in the given order, or none |
| `Loader.BuildCounts` | crates/datasynth-audit-fsm/src/loader.rs:1298-1318 | in-degrees and adjacency lists describe the same precondition multigraph: each key counts its own entries, each dependency lists its dependents as often as they name it |
| `Loader.CountsDescribeGraph` | crates/datasynth-audit-fsm/src/loader.rs:1298-1318 | for resolved references these counters and lists are the in-degrees and fan-outs of the graph that is sorted |
| `Loader.Release` | crates/datasynth-audit-fsm/src/loader.rs:1336-1344 | after one procedure is emitted every counter again equals the entries still outstanding, and the procedures collected are exactly those whose last outstanding entry this was, each once |
| `Loader.KahnLoop` | crates/datasynth-audit-fsm/src/loader.rs:1320-1350 | the queue loop ends with the canonical order of the graph |
| `Loader.TopologicalSortWithPreconditions` | crates/datasynth-audit-fsm/src/loader.rs:1271-1365 | whole sort: the dangling-reference error, the cycle error with the ids left over, or the order, as the specification over the graph of known procedures says |
| `Loader.ExtractPreconditions` | crates/datasynth-audit-fsm/src/loader.rs:1066-1092 | one entry for each procedure the methodology file or the blueprint has; the last entry of the file counts, and procedures without one have no preconditions |
| `Loader.TopologicalSortProcedures` | crates/datasynth-audit-fsm/src/loader.rs:958-1061 | the same for the variant that takes its preconditions from the methodology file and also counts keys that are no procedure |
| `TopologicalOrder.SortCorrect` | crates/datasynth-audit-fsm/src/loader.rs:1271-1365 | succeeds if and only if ids are distinct, references resolve and the graph is acyclic; then the result is a permutation of the ids with every precondition before its dependents, repeated entries included |
| `TopologicalOrder.SortByDepth` | crates/datasynth-audit-fsm/src/loader.rs:1320-1350 | the order is by non-decreasing dependency depth |
| `PreconditionGraph.DepthIsLongestChain` | crates/datasynth-audit-fsm/src/loader.rs:1332-1350 | the depth used there is the length of the longest chain of preconditions |
| `TopologicalOrder.CycleReport` | crates/datasynth-audit-fsm/src/loader.rs:1352-1362 | for distinct ids the reported list is non-empty, in blueprint order, and exactly the largest set whose members each have a precondition inside the set |
| `TopologicalOrder.CycleReportInOrder` | crates/datasynth-audit-fsm/src/loader.rs:1352-1362 | repeated ids or not, the report consists of the blueprint entries, in place, that belong to the largest such set |
| `TopologicalOrder.DanglingReport` | crates/datasynth-audit-fsm/src/loader.rs:1283-1295 | a dangling reference is reported if and only if there is one, and it is the first unknown entry of the first key that has one |
| `PreconditionGraph.StuckIsLargestSelfSupporting` | crates/datasynth-audit-fsm/src/loader.rs:1352-1362 | what the sort cannot emit is the largest such set: it contains every cycle, and every member hangs off one |
| `PreconditionGraph.AcyclicIffNothingStuck` | crates/datasynth-audit-fsm/src/loader.rs:1352-1362 | nothing is left over exactly when there is no cycle |
| `TopologicalOrder.RepeatedIdsReportEmptyCycle` | crates/datasynth-audit-fsm/src/loader.rs:1352-1362 | a cycle of no procedures is reported exactly when references resolve and nothing is cyclic, but some id is repeated |
| `TopologicalOrder.OrderIndependence` | crates/datasynth-audit-fsm/src/loader.rs:1284-1350 | the outcome is the same for every iteration order of the map exactly when at most one key has a dangling reference |
| `TopologicalOrder.VariantsAgree` | crates/datasynth-audit-fsm/src/loader.rs:999-1009 | when the two sorts return the same: necessary and sufficient conditions for each outcome of the strict one, in terms of the stray keys, the stuck procedures and the repeated ids |
| `TopologicalOrder.BuiltinSucceedsIff` | crates/datasynth-audit-fsm/src/loader.rs:958-1061 | the built-in sort succeeds exactly when references resolve and the stray keys that get their turn are as many as the procedures that do not and the surplus of repeated ids |
| `TopologicalOrder.BuiltinEmits` | crates/datasynth-audit-fsm/src/loader.rs:958-1061 | when references resolve, the built-in sort emits, preconditions first, exactly the procedures and the listed keys that do not wait for each other, and if they are not as many as the ids reports the blueprint entries it could not emit |
| `TopologicalOrder.MissingProcedureReportsEmptyCycle` | crates/datasynth-audit-fsm/src/loader.rs:999-1009 | distinct ids, resolved references and no cycle, but a stray key: the built-in sort reports a cycle of no procedures |
| `TopologicalOrder.RemovedProcedureIsRejected` | crates/datasynth-audit-fsm/src/loader.rs:1066-1092 | the second of two procedures taken out of the blueprint: one sort orders what is left, the built-in one reports a cycle |
| `TopologicalOrder.RenamedProcedureIsAccepted` | crates/datasynth-audit-fsm/src/loader.rs:1066-1092 | the second of two procedures renamed to the first: the built-in sort succeeds and lists the procedure the blueprint lacks |
| `Ordering.SortIsCanonical` | crates/datasynth-audit-fsm/src/loader.rs:1327-1345 | sorting gives the same sequence for every order in which a hash map hands out the same keys |
| `ReleaseOrder.SortByRelease` | crates/datasynth-audit-fsm/src/loader.rs:1320-1350 | in the order of either sort, the procedure whose last precondition stands earlier comes first, and of two that waited for the same one, or for none, the one whose name is smaller at the first difference |
| `ReleaseOrder.ReleaseDetermines` | crates/datasynth-audit-fsm/src/loader.rs:1320-1350 | together with every precondition coming before its dependents, that admits one order of the ids only |
| `Validation.CollectStructuralViolations` | crates/datasynth-audit-fsm/src/loader.rs:857-930 | the violations of actors, evidence templates, standards and gates, in the order they are collected |
| `ValidationRules.ViolationsFollowRule` | crates/datasynth-audit-fsm/src/loader.rs:857-943 | for each step, evidence item, standard and gate condition in blueprint order, a violation naming it exactly when the reference does not resolve, the four groups in turn |
| `ValidationRules.VerdictFollowsRule` | crates/datasynth-audit-fsm/src/loader.rs:1253-1268 | the verdict by what is wrong: the first dangling reference, else the procedures that wait for each other, else those violations, else a pass |
| `Validation.ValidateWithPreconditions` | crates/datasynth-audit-fsm/src/loader.rs:1253-1268 | the verdict: the error of the sort first, the violations otherwise |
| `Validation.ValidateBlueprint` | crates/datasynth-audit-fsm/src/loader.rs:802-815 | the same with the built-in sort and without precondition references |
| `Validation.NothingCollected` | crates/datasynth-audit-fsm/src/loader.rs:857-930 | no violation is collected exactly when every reference resolves |
| `Validation.PassesIff` | crates/datasynth-audit-fsm/src/loader.rs:1253-1268 | validation passes if and only if ids are distinct, all references resolve and preconditions are acyclic |
| `Validation.BuiltinPassesIff` | crates/datasynth-audit-fsm/src/loader.rs:802-815 | the built-in validation passes if and only if references resolve and the stray keys that get their turn make up for stuck procedures and repeated ids |
| `Validation.VerdictsAgree` | crates/datasynth-audit-fsm/src/loader.rs:802-815 | without stray keys both validations give the same verdict |
| `Validation.DanglingHidesTheRest` | crates/datasynth-audit-fsm/src/loader.rs:843-855 | a dangling precondition is reported alone, whatever else is wrong; otherwise the precondition check adds nothing to the report |
| `Validation.StatesAreNotChecked` | crates/datasynth-audit-fsm/src/loader.rs:797-801 | blueprints that differ only in states and transitions get the same verdict from both validations |
| `Validation.DocumentedVerdictIff` | crates/datasynth-audit-fsm/src/loader.rs:797-801 | the verdict is the documented one, which includes transition states, exactly when the states are declared or something else is wrong |
| `Validation.UndeclaredStatePasses` | crates/datasynth-audit-fsm/src/loader.rs:797-801 | a procedure whose one transition leads to an undeclared state passes |
| `Gates.GateRoundTrip` | crates/datasynth-audit-fsm/src/loader.rs:516-533 | printing a condition and splitting it back recovers the pair exactly when the procedure id has no dot |
| `Gates.ExtractMeans` | crates/datasynth-audit-fsm/src/loader.rs:936-943 | a condition refers to a procedure exactly when it begins with `procedure.`, and then to the text up to the next dot or the end |
| `Gates.ConditionMeans` | crates/datasynth-audit-fsm/src/engine.rs:569-580 | any condition text holds exactly when it is `procedure.`, a dot-free id, a dot and the state that id ended in |
| `Gates.PrintedConditionHolds` | crates/datasynth-audit-fsm/src/engine.rs:569-580 | a printed condition holds when its procedure ended in its state; for ids with a dot, what is compared instead |
| `Gates.ComputeCompletedPhases` | crates/datasynth-audit-fsm/src/engine.rs:558-591 | the completed phases, in blueprint order |
| `Gates.CompletedInOrder` | crates/datasynth-audit-fsm/src/engine.rs:558-591 | the ids of exactly the phases whose order is not negative and whose exit gate, if any, reads as states reached, in blueprint order |
| `Gates.PhaseCompletion` | crates/datasynth-audit-fsm/src/engine.rs:558-591 | a phase is completed exactly when it is not continuous and has no gate or every raw all_of pair was reached |
| `Gates.AnyOfIsIgnored` | crates/datasynth-audit-fsm/src/engine.rs:568-583 | completion agrees with the gate as written, any_of included, exactly when the phase is continuous, all_of is not reached, any_of is empty or one of it is reached |
| `Gates.UnmetAnyOfPasses` | crates/datasynth-audit-fsm/src/engine.rs:568-583 | a phase completed although neither of its any_of conditions holds |
| `Engine.AuditFsmEngine.AdvanceClock` | crates/datasynth-audit-fsm/src/engine.rs:491-495 | the clock moves on by the clamped delay, in whole minutes |
| `Engine.AuditFsmEngine.CheckAnomalyInjection` | crates/datasynth-audit-fsm/src/engine.rs:430-488 | the first of the four kinds whose roll hits is recorded; no later roll is drawn |
| `Engine.AuditFsmEngine.ExecuteAllSteps` | crates/datasynth-audit-fsm/src/engine.rs:358-425 | all steps of a procedure, each with its delay, anomaly check, evidence states, event, artifacts and completion mark |
| `Engine.AuditFsmEngine.PickTransition` | crates/datasynth-audit-fsm/src/engine.rs:291-325 | which outgoing transition is selected, by position and roll, and how many draws that takes |
| `RunRules.SelectionFollowsRule` | crates/datasynth-audit-fsm/src/engine.rs:297-325 | a single transition is taken without a roll; else a roll below the revision probability takes the first transition to no later state if there is one, and otherwise the first to a later state, or the first listed |
| `RunRules.StepFollowsRule` | crates/datasynth-audit-fsm/src/engine.rs:365-425 | every field a step changes: delay, the first of four kinds struck by its own roll, record and event with their draws, references, evidence states, dispatch and completion |
| `RunRules.TransitionFollowsRule` | crates/datasynth-audit-fsm/src/engine.rs:215-260 | event and actor of a transition, whether the steps run, and the delay after it |
| `RunRules.WalkFollowsRule` | crates/datasynth-audit-fsm/src/engine.rs:163-261 | each hop of every walk is the selected transition, or the first way out when it is one self-loop too many, and the walk ends for one of three stated reasons |
| `Engine.AuditFsmEngine.ChooseTransition` | crates/datasynth-audit-fsm/src/engine.rs:183-213 | selection followed by the self-loop bound and the forced exit |
| `Engine.AuditFsmEngine.FollowTransition` | crates/datasynth-audit-fsm/src/engine.rs:215-260 | event, new state, steps when the work state is entered or a loop is taken, delay |
| `Engine.AuditFsmEngine.WalkLoop` | crates/datasynth-audit-fsm/src/engine.rs:175-261 | the walk of one procedure, up to its iteration limit |
| `Engine.AuditFsmEngine.ShouldSkipProcedure` | crates/datasynth-audit-fsm/src/engine.rs:537-552 | a procedure is filtered out exactly when some shared category has no value in common |
| `Engine.AuditFsmEngine.RunEngagement` | crates/datasynth-audit-fsm/src/engine.rs:110-279 | the whole run: error of the sort, or log, states, completions, evidence, anomalies, duration, completed phases and artifacts |
| `RunRules.RunFollowsRules` | crates/datasynth-audit-fsm/src/engine.rs:114-261 | every run is a sequence of such walks over the last entry of each id in the order, passing over ids without entry, filtered procedures and procedures without a machine |
| `RulesDetermine.RulesDetermineRun` | crates/datasynth-audit-fsm/src/engine.rs:110-261 | a run obeys these rules if and only if it is the one the engine makes, to the last field and draw |
| `WalkProperties.WalkShape` | crates/datasynth-audit-fsm/src/engine.rs:163-261 | every walk is a connected path from the initial state to the recorded one, never has max(1, max_self_loop_iterations) loops in a row, and stops in a terminal state, at the limit, or where only loops leave |
| `WalkProperties.WalkBound` | crates/datasynth-audit-fsm/src/engine.rs:175-261 | in a machine of N states where every state with a way out has a way forward, R low rolls allow at most (N-1)(R+1) transitions, and with a higher limit the walk ends in a terminal state |
| `RunProperties.ProcedureBlock` | crates/datasynth-audit-fsm/src/engine.rs:146-261 | a procedure adds one contiguous block of events whose transitions spell out its path and whose steps repeat the step list |
| `RunProperties.StepAccounting` | crates/datasynth-audit-fsm/src/engine.rs:247-256 | step events number the steps times the entries to the work state and self-loops |
| `EngagementProperties.TimeAccounting` | crates/datasynth-audit-fsm/src/engine.rs:490-532 | events are at least 6 minutes apart, n events take at least 6n and at most n times the longest delay; with every delay drawn and clamped that is 12000n minutes for every mean |
| `EngagementProperties.FallbackExceedsClamp` | crates/datasynth-audit-fsm/src/engine.rs:523-531 | a mean beyond the clamp and no usable distribution: a run of one event that takes longer |
| `EngagementProperties.ClampHoldsIff` | crates/datasynth-audit-fsm/src/engine.rs:523-531 | with or without a usable distribution, every run of n events takes at most 12000n minutes if and only if the mean itself is at most 12000 minutes |
| `EngagementProperties.AnomalyConservation` | crates/datasynth-audit-fsm/src/engine.rs:370-417 | anomaly records and flagged events match one by one, in order |
| `EngagementProperties.LookupFiles` | crates/datasynth-audit-fsm/src/engine.rs:114-120 | the lookup knows exactly the procedure ids, each under its own |
| `EngagementProperties.RunFollows` | crates/datasynth-audit-fsm/src/engine.rs:145-261 | the log goes through the procedures in execution order |
| `EngagementProperties.PreconditionsFirst` | crates/datasynth-audit-fsm/src/engine.rs:122-261 | run in a topological order, every event of a precondition precedes every event of a dependent |
| `EngagementProperties.FinalStates` | crates/datasynth-audit-fsm/src/engine.rs:163-165 | the final states are those of the procedures walked, each the state in which its own walk in this run ended |
| `EngagementProperties.RunTellsWalks` | crates/datasynth-audit-fsm/src/engine.rs:146-261 | read off the finished log, the transition events of a procedure spell a well-shaped path from the initial state to its recorded final state, and its step events number the steps times the work runs of that path |
| `EndToEnd.EngagementRespectsPreconditions` | crates/datasynth-audit-fsm/src/engine.rs:122-261 | sort and run together: events of a listed precondition come first |
| `EndToEnd.EngagementBlocks` | crates/datasynth-audit-fsm/src/engine.rs:145-261 | between two events of a procedure there are only events of that procedure |
| `EndToEnd.EngagementIsDeterministic` | crates/datasynth-audit-fsm/src/engine.rs:110-279 | with the same draws the outcome, run or error, is the same for every iteration order of the precondition map exactly when at most one key has a dangling reference |
| `EndToEnd.EngagementTellsWalks` | crates/datasynth-audit-fsm/src/engine.rs:110-279 | sort and run together: every recorded final state is the end of a walk that the log tells |
| `EndToEnd.AllAnomaliesRecorded` | crates/datasynth-audit-fsm/src/live_injection.rs:35-94 | after live injection, flagged events are as many as engine records and injected records together |
| `LiveInjection.FindHit` | crates/datasynth-audit-fsm/src/live_injection.rs:49-61 | the first configuration that targets the event and whose roll hits; the others draw only when they target it |
| `LiveInjection.FirstHitFollowsRule` | crates/datasynth-audit-fsm/src/live_injection.rs:49-61 | by position: the configuration that hits is the first that aims at the event and whose roll is below its probability, or there is none; each that aims at it takes a roll and no other does |
| `LiveInjection.InjectionFollowsRule` | crates/datasynth-audit-fsm/src/live_injection.rs:35-94 | for every event, the flag, the record with its severity and id, and the draw at which the next event begins |
| `LiveInjection.InjectLiveAnomalies` | crates/datasynth-audit-fsm/src/live_injection.rs:35-94 | events and records after the in-place pass |
| `LiveInjection.InjectionConserves` | crates/datasynth-audit-fsm/src/live_injection.rs:35-94 | flagged events are untouched, any other is left alone or flagged once by a configuration that targets it, and the records are, in order, the labels of the newly flagged |
| `CommandRouting.ExemptRoutesAreSafe` | crates/datasynth-audit-fsm/src/dispatch.rs:139-154 | a command exempt from the bootstrap rule never reaches a handler that would miss the engagement |
| `CommandRouting.LifecycleRoutes` | crates/datasynth-audit-fsm/src/dispatch.rs:139-154 | the lifecycle commands reach only handlers that need no engagement |
| `DispatchTable.CommandFiled` | crates/datasynth-audit-fsm/src/dispatch.rs:165-558 | for each command by name in source order, then each verb prefix, then any other command: which lists of the bag grow, by which linked artifacts, with everything else unchanged |
| `DispatchTable.AnalyticalProcedures` | crates/datasynth-audit-fsm/src/dispatch.rs:206-208 | perform_analytical_procedures files a batch of analytical results for the last engagement, and nothing else |
| `DispatchTable.SentConfirmations` | crates/datasynth-audit-fsm/src/dispatch.rs:210-213 | send_confirmations files confirmations and the responses to them, and nothing else |
| `DispatchTable.StepFollowsTable` | crates/datasynth-audit-fsm/src/dispatch.rs:126-640 | every step: an engagement first unless the command is one of twelve, what the table says, and the notes of the inventory |
| `DispatchTable.RunFollowsTable` | crates/datasynth-audit-fsm/src/dispatch.rs:126-640 | the bag of a whole run is what the table makes of its commands one after the other |
| `Dispatcher.StepDispatcher.HandleCommand` | crates/datasynth-audit-fsm/src/dispatch.rs:165-558 | the handler of each route and its effect on bag, generator state and warnings |
| `Dispatcher.StepDispatcher.DispatchWorkpaper` | crates/datasynth-audit-fsm/src/dispatch.rs:796-863 | the workpaper of a command and its evidence, linked to the last engagement |
| `Dispatcher.StepDispatcher.DispatchSampling` | crates/datasynth-audit-fsm/src/dispatch.rs:918-952 | missing risk assessments are generated first, with a warning |
| `Dispatcher.StepDispatcher.DispatchFindings` | crates/datasynth-audit-fsm/src/dispatch.rs:1226-1362 | new findings are linked to the last engagement and cite one to three workpapers of the bag if it has any; without an engagement there is only a warning |
| `Dispatcher.StepDispatcher.DispatchConfirmations` | crates/datasynth-audit-fsm/src/dispatch.rs:987-1016 | confirmations are linked to the last engagement and to a workpaper of substantive testing if there is one, responses to the confirmations they answer |
| `Dispatcher.StepDispatcher.DispatchOpinion` | crates/datasynth-audit-fsm/src/dispatch.rs:1365-1391 | an opinion linked to the last engagement, and its key audit matters; without an engagement only a warning |
| `Dispatcher.StepDispatcher.EnrichFromInventory` | crates/datasynth-audit-fsm/src/dispatch.rs:572-640 | the last workpaper and evidence are annotated, and narratives are filed as evidence of the last workpaper |
| `Dispatcher.StepDispatcher.DispatchCommand` | crates/datasynth-audit-fsm/src/dispatch.rs:126-563 | bootstrap, handler, enrichment; directly: the step obeys the table of commands, verbs and lists |
| `Dispatcher.StepDispatcher.RecordStep` | crates/datasynth-audit-fsm/src/dispatch.rs:126-563 | bag, warnings and generator state are always those of the whole history of dispatched steps |
| `Dispatch.HandleContinues` | crates/datasynth-audit-fsm/src/dispatch.rs:165-558 | no handler loses an artifact, breaks a reference or drops a warning |
| `Dispatch.RunIsSound` | crates/datasynth-audit-fsm/src/dispatch.rs:126-640 | any run from an empty bag: lists only grow, all references to engagements, workpapers and confirmations resolve, evidence implies a workpaper, a workpaper implies an engagement, and no warning about a missing engagement is ever given |
| `IdMap.IdTable.GetOrInsert` | attic/datasynth-graph-export/src/id_map.rs:46-55 | the known number, or a new one entered both ways |
| `IdMap.IdTable.RegisterAlias` | attic/datasynth-graph-export/src/id_map.rs:60-65 | the alias gets the primary number, the reverse entry stays; unknown primaries change nothing |
| `IdMap.IdTable.RetainNodes` | attic/datasynth-graph-export/src/id_map.rs:100-103 | exactly the entries of the kept numbers remain |
| `IdMap.RunKeepsIds` | attic/datasynth-graph-export/src/id_map.rs:46-103 | over any run every number in use has a reverse entry, is at least 1 and below the next; while no alias takes over a primary name, reading back and looking up is the identity and no two numbers read back alike |
| `IdMap.OpsFollowRule` | attic/datasynth-graph-export/src/id_map.rs:46-103 | each operation of a run changes exactly the stated entries of the two maps and the next number |
| `IdMap.AliasFaithfulIff` | attic/datasynth-graph-export/src/id_map.rs:60-65 | an alias keeps the round trip if and only if it is not the primary name of another number |
| `IdMap.FreshRunIsSafe` | attic/datasynth-graph-export/src/id_map.rs:57-65 | registering only new aliases is enough for the round trip, over any run |
| `IdMap.NeverReissued` | attic/datasynth-graph-export/src/id_map.rs:46-103 | a number that was given up, also by retention, never comes back |
| `IdMap.TakenAliasBreaksRoundTrip` | attic/datasynth-graph-export/src/id_map.rs:60-65 | a concrete run in which an alias takes over a name and two numbers read back alike |
| `Budget.EnforceNodeBudget` | attic/datasynth-graph-export/src/budget.rs:34-88 | the nodes kept, the id map restricted to their numbers, and a warning for each layer cut |
| `BudgetRules.NodesFollowRule` | attic/datasynth-graph-export/src/budget.rs:34-88 | which nodes stay, layer 1, 2 and 3 in turn, each cut to its rounded share, and what the warnings say |
| `Budget.LayerBudgetsSum` | attic/datasynth-graph-export/src/config.rs:78-83 | for a split into non-negative fractions of one, the three rounded budgets exceed the limit by one at most |
| `Budget.LayersOfTrim` | attic/datasynth-graph-export/src/budget.rs:54-75 | of each layer exactly the first nodes that fit its budget stay, in input order |
| `Budget.NodeBudget` | attic/datasynth-graph-export/src/budget.rs:34-88 | at most one node over the limit, each layer a prefix within its budget and whole if it fits, and trimming again changes nothing |
| `Budget.NodeLimitHoldsIff` | attic/datasynth-graph-export/src/config.rs:78-83 | every list of nodes is trimmed to the limit if and only if the three rounded layer budgets add up to the limit at most |
| `Budget.LimitCanBeExceeded` | attic/datasynth-graph-export/src/config.rs:78-83 | a limit of one split in halves keeps two nodes |
| `Budget.NodeLossIsReported` | attic/datasynth-graph-export/src/budget.rs:61-75 | the warnings account for every node dropped |
| `EdgeSampling.GroupByType` | attic/datasynth-graph-export/src/budget.rs:162-166 | the groups are the types that occur, each with its edges in order |
| `EdgeSampling.ProportionalSample` | attic/datasynth-graph-export/src/budget.rs:154-204 | the sample for some order of the types; directly: within the limit, of every type the first edges, and when the k types fit, at least limit - k edges and half of the types |
| `EdgeSampling.KeepBounds` | attic/datasynth-graph-export/src/budget.rs:180-184 | a type keeps between its exact share and one and a half edges more, at least one, at most all |
| `EdgeSampling.ProportionalSampling` | attic/datasynth-graph-export/src/budget.rs:154-204 | when the k types fit the limit, between limit - k and limit edges are kept, at least half of the types survive, and all of them when the final cut has nothing to do |
| `EdgeSampling.MoreTypesThanEdges` | attic/datasynth-graph-export/src/budget.rs:173-192 | with more types than the limit, exactly the limit is kept, each edge of another type |
| `EdgeSampling.SamplePrefixes` | attic/datasynth-graph-export/src/budget.rs:179-187 | of every type the first edges are kept, for any order of the groups |
| `EdgeSampling.EveryTypeKeptIff` | attic/datasynth-graph-export/src/budget.rs:150-192 | for a given order, every type keeps an edge if and only if the groups before the last stay below the limit |
| `EdgeSampling.TotalKeptIsOrderFree` | attic/datasynth-graph-export/src/budget.rs:179-187 | what the types keep before the final cut is equally many edges in every order |
| `EdgeSampling.EveryOrderKeepsIff` | attic/datasynth-graph-export/src/budget.rs:150-192 | every order keeps every type, as documented, if and only if what all types keep, less any one of them, stays below the limit |
| `EdgeSampling.FourPairsLoseAType` | attic/datasynth-graph-export/src/budget.rs:152-192 | four types of two edges and a limit of six: a type is lost for every order |
| `EdgeSampling.GovernanceSampling` | attic/datasynth-graph-export/src/budget.rs:211-251 | the limit is used up, governance edges go first, process edges only when all governance edges fit, first ones of either kind |
| `EdgeSampling.EnforceEdgeBudget` | attic/datasynth-graph-export/src/budget.rs:94-148 | dangling edges go first, then the strategy, each with its warning; directly: within the limit, nothing invented or repeated, both ends numbered |
| `BudgetRules.EdgesFollowRule` | attic/datasynth-graph-export/src/budget.rs:94-251 | by position and strategy: truncation keeps the first edges, priority the first governance edges (types 40-59, 96-120, 138-152) and then the first others, proportional sampling the first edges of each type up to its rounded share; and what each warning says |
| `BudgetRules.ProportionalEdgeBudget` | attic/datasynth-graph-export/src/budget.rs:94-204 | the bounds of proportional sampling for the edge budget under that strategy |
| `EdgeSampling.EdgeLossIsReported` | attic/datasynth-graph-export/src/budget.rs:94-251 | the warnings account for every edge dropped |
| `EdgeSampling.EdgeBudgetHolds` | attic/datasynth-graph-export/src/budget.rs:94-148 | for every strategy and order of groups: within the limit, nothing invented or repeated, both ends numbered, and nothing live dropped that fits |
| `PostProcess.GraphExportResult.RemoveDuplicateEdges` | attic/datasynth-graph-export/src/post_process.rs:246-268 | edges without duplicates, and the edge total corrected |
| `PostProcess.DedupKeepsFirsts` | attic/datasynth-graph-export/src/post_process.rs:246-268 | every (source, target, type) stays exactly once and nothing is invented |
| `PostProcess.FirstOfKey` | attic/datasynth-graph-export/src/post_process.rs:237-258 | what stays of a key is its first edge |
| `PostProcessRules.DedupFollowsRule` | attic/datasynth-graph-export/src/post_process.rs:246-268 | exactly the edges stay, in order, whose source, target and type have not occurred before |
| `PostProcess.DedupPrefix` | attic/datasynth-graph-export/src/post_process.rs:256-258 | what is kept, and in which order, does not depend on later edges |
| `PostProcess.UniqueIffDedup` | attic/datasynth-graph-export/src/post_process.rs:256-258 | exactly the lists without repeated keys are left alone |
| `PostProcess.GraphExportResult.PatchControlCounts` | attic/datasynth-graph-export/src/post_process.rs:62-122 | risk nodes get their two counts, all other nodes stay |
| `PostProcess.CountsAreControls` | attic/datasynth-graph-export/src/post_process.rs:86-102 | on edges without duplicates the counts are numbers of different controls |
| `PostProcess.RiskNodeCounts` | attic/datasynth-graph-export/src/post_process.rs:29-122 | after all post-processors a risk node shows the number of different controls that the edges, repeated or not, link it to, and of the effective ones |
| `PostProcess.FlagsAgree` | attic/datasynth-graph-export/src/post_process.rs:127-166 | afterwards both anomaly flags are set if either was, other properties are untouched, a second pass changes nothing |
| `PostProcess.GraphExportResult.AnnotateRedFlags` | attic/datasynth-graph-export/src/post_process.rs:190-230 | exactly the nodes whose number a red flag names are marked |
| `PostProcess.FinalNodesKeepShape` | attic/datasynth-graph-export/src/post_process.rs:36-43 | the post-processors change nothing of a node but its properties |
| `PostProcessRules.NodesFollowRule` | attic/datasynth-graph-export/src/post_process.rs:29-230 | for every node of the export and each of the five properties: when it is written and with which value; nothing else changes |
| `Pipeline.BuildMetadata` | attic/datasynth-graph-export/src/pipeline.rs:394-419 | totals, counts per layer, and the strictly increasing list of the edge types that occur |
| `Pipeline.SynthesizeNodes` | attic/datasynth-graph-export/src/pipeline.rs:177-205 | the nodes of all synthesizers in order with the id map they leave, or the first failure |
| `Pipeline.SynthesizeEdges` | attic/datasynth-graph-export/src/pipeline.rs:241-267 | the edges of all synthesizers in order, or the first failure |
| `ExportRules.NodesFollowRule` | attic/datasynth-graph-export/src/pipeline.rs:177-205 | the nodes are the batches of the synthesizers one after the other, each made from the id map the earlier ones left; or the error names the first to fail |
| `ExportRules.EdgesFollowRule` | attic/datasynth-graph-export/src/pipeline.rs:241-267 | the edges are the batches of the synthesizers one after the other, each the slice where the earlier ones end; or the error names the first to fail |
| `Pipeline.Export` | attic/datasynth-graph-export/src/pipeline.rs:134-324 | the first error, or a result that the stages lead to, with the warnings of all stages, described by its metadata, without duplicate edges, within the edge budget, and with the event log if it is wanted |
| `ExportRules.ExportFollowsRule` | attic/datasynth-graph-export/src/pipeline.rs:134-324 | nodes, edges and warnings of every export are what the stages, each by its own rule, make of the batches |
| `ExportRules.ReturnedEdgeArrives` | attic/datasynth-graph-export/src/pipeline.rs:241-298 | an edge returned by any synthesizer with both ends still numbered has its source, target and type among the exported edges when those edges fit the limit |
| `ExportRules.ReturnedNodesArrive` | attic/datasynth-graph-export/src/pipeline.rs:177-216 | within the node limit every node returned is exported, in order, with nothing but properties added |
| `Pipeline.StillDescribes` | attic/datasynth-graph-export/src/pipeline.rs:286-310 | metadata computed before the post-processors still describes nodes and edges after them |
| `Pipeline.TrimTwice` | attic/datasynth-graph-export/src/pipeline.rs:213-216 | a second node budget pass changes neither nodes nor id map |
| `Pipeline.ExportEndState` | attic/datasynth-graph-export/src/pipeline.rs:172-310 | if synthesizers number only nodes they return: edges join exported nodes, are unique by source, target and type, fit their budget, and nodes exceed theirs by one at most |
| `Pipeline.ExportLayers` | attic/datasynth-graph-export/src/pipeline.rs:399-403 | the reported count of each layer is the count synthesized, or its budget if that is smaller and anything was trimmed |
| `Pipeline.LossIsReported` | attic/datasynth-graph-export/src/pipeline.rs:177-298 | warnings account for every node synthesized and not exported, and for every edge synthesized and not exported but the duplicates, which are dropped without a warning |
| `Ocel.FromDocumentFlows` | attic/datasynth-graph-export/src/ocel.rs:201-396 | the synthesis with its early breaks yields the first events and objects of the unlimited one |
| `Ocel.ExportOcel` | attic/datasynth-graph-export/src/ocel.rs:103-139 | a recorded log with events comes first, then the document flows; a limit of zero means none, without either there is no export |
| `OcelRules.OcelFollowsRule` | attic/datasynth-graph-export/src/ocel.rs:103-418 | every field of the exported log: ids, names of activities and objects, dates, qualifiers, for recorded logs and for purchase and sales chains, up to the limit |
| `Ocel.RecordedLogStaysClosed` | attic/datasynth-graph-export/src/ocel.rs:142-198 | of a recorded log the first m events and all objects are exported, and relationships name exported objects if they did in the log |
| `Ocel.BoundedRefinesUnbounded` | attic/datasynth-graph-export/src/ocel.rs:201-396 | with limit m: exactly the first m events and the first m objects of the unlimited log |
| `Ocel.LogIsWellFormed` | attic/datasynth-graph-export/src/ocel.rs:201-418 | as many objects as events, consecutive ids, event i first says that object i was created, and every relationship names an object emitted by then |
| `Ocel.EventIdsAreDistinct` | attic/datasynth-graph-export/src/ocel.rs:405-407 | the zero-padded event ids differ for different counters, beyond eight digits too |
| `Ocel.LogLength` | attic/datasynth-graph-export/src/ocel.rs:209-387 | one event for each document, unless the limit is lower |
| `AuditGraph.Graph.AddNode` | crates/datasynth-audit-fsm/src/l4_graph.rs:349-354 | the node is entered or overwritten, its index entries are kept or created empty |
| `AuditGraph.Graph.AddEdge` | crates/datasynth-audit-fsm/src/l4_graph.rs:362-393 | missing source, missing target and duplicate id are reported in that order and change nothing; otherwise the edge enters table and indexes |
| `AuditGraph.Graph.NeighborsOf` | crates/datasynth-audit-fsm/src/l4_graph.rs:435-447 | the targets of the edges listed for the node |
| `AuditGraph.Graph.PredecessorsOf` | crates/datasynth-audit-fsm/src/l4_graph.rs:450-460 | the sources of the edges listed for the node |
| `AuditGraph.RunRepresentsAccepted` | crates/datasynth-audit-fsm/src/l4_graph.rs:349-393 | after any sequence of insertions the tables are those of the plain list of accepted edges, index lists in insertion order |
| `AuditGraph.LastNodeStays` | crates/datasynth-audit-fsm/src/l4_graph.rs:349-354 | after any sequence of insertions the table holds, under each id, the node added last |
| `AuditGraph.RunKeepsIndexes` | crates/datasynth-audit-fsm/src/l4_graph.rs:336-339 | both indexes list exactly the edges by source and by target, none twice, and all endpoints exist |
| `AuditGraph.NeighborsMirrorPredecessors` | crates/datasynth-audit-fsm/src/l4_graph.rs:433-460 | m is a neighbour of n exactly when n is a predecessor of m, and exactly when an edge joins them |
| `AuditGraph.DegreesSumToEdges` | crates/datasynth-audit-fsm/src/l4_graph.rs:336-339 | total out-degree, total in-degree and edge count are equal |

## Left out

- YAML and JSON parsing, embedded blueprints, file and OCEL serialisation, logging and wall-clock timing: input and output of libraries.
- The shapes of `schema.rs`: taken from the conversions in `loader.rs`; schema.rs is not part of this model.
- Which methodology file the built-in sort reads: its entries are a parameter, so acyclicity of the embedded files is not assumed.
- The generators, the log-normal sampler and ChaCha: arbitrary functions of a call count or draw number. That two draws from the same seed are related is not captured.
- Rounding of `f64` and the width of `usize` and `u64`: shares and delays are exact reals, counters do not wrap around.
- Texts: anomaly descriptions, narratives, workpaper sections chosen by `section_for_command`, wording and severity of warnings.
- The properties of graph edges: an edge is its ends, its type and a weight.
- `nodes_of_type` and `edges_of_type` of the audit graph, `iter_forward` and `reverse_get` of the id map: filters and lookups.
- Static catalogues, benchmarks, banking and jurisdiction overlays, the Python and user-interface code: data and plumbing.
