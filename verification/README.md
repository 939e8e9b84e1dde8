# Verified kernels of AvityOS

This project models the deterministic kernels of AvityOS in Dafny and proves what they are relied
on for. It is organised by subsystem; each file is one module.

- **Remote connector** (`remote_protocol`, `remote_protocol_proofs`, `remote_protocol_theorems`,
  `remote_progress`, `remote_connector`): connector memory, its durable store and the relay as one
  state, one step per `await` plus a crash step. The reference is a connector that handles each
  request atomically; `remote_progress` says which requests can still be answered. The class in
  `remote_connector` follows the source's methods step by step over these services; its ghost history
  is a run of the protocol, so the theorems hold of it.
- **Planning and scheduling** (`sorting`, `missions`, `scheduler`, `dag`, `plan_validation`,
  `plan_completion`, `git_composition`): greedy capped selection, cycle detection, plan validation,
  promotion over the dependency graph, composition of dependency branches over a commit graph.
- **Execution engine** (`mission_flow`, `mission_flow_proofs`, `mission_flow_theorems`, `mission_paths`,
  `mission_runs`, `mission_autonomy`, `mission_legality`, `mission_stranding`, `mission_engine`): one
  mission driven by tasks that run from `await` to `await`, and the approvals it opens. Between two
  segments other tasks, answers of the user, another plan or profile, a pause, a resume or a restart
  may act; the process may die after any transaction of a segment. In every run each flow keeps to its
  path (`mission_paths`); the class in `mission_engine` drives the same mission, is proved to take only
  such steps, and follows each flow to its end.
- **Several missions** (`fleet`, `fleet_limits`, `fleet_dependencies`, `fleet_runs`): any number of such
  missions under one scheduler with its limits and the dependencies between them. What happens to one
  of them is a run of that mission alone.
- **Fallback** (`provider_routing`, `fallback`, `fallback_loops`): the provider chains, the fallback
  decision and the three retry loops built on it.
- **Planning brain** (`brain_slot`, `planning_brain`): the single-flight slot, pause generations and
  stored plan versions, with a pause as two steps (its transaction, and later the release of the slot).
- **Credential rotation** (`api_token`, `credential_vault`, `token_rotation`, `token_operator`,
  `worker_rotation`, `worker_authorities`): the API token authority, the vault, any number of
  operators rotating the token with failures and deaths between calls, and the two worker rotations
  on one row.
- **Audit and text** (`audit_chain`, `canonical_json`, `canonical_json_proofs`,
  `canonical_json_theorems`, `balanced_object`): the hash-chained audit table, the canonical JSON
  printer, and the scanner for the first balanced object.

`wrappers` holds `Option` and `Result`.

## Where the code does not do what is expected of it

Each of these is a lemma with the failing case, next to the exact condition under which the
expected property holds.

- A model list that repeats a model after the starting one makes a fallback loop run for ever, if the
  policy switches models and can reach it: `Fallback.EndsExactlyWithoutRepeats` is the exact condition
  for every policy.
- A handler that throws once, with its failure recorded, blocks the inbox for good, because a later
  "accepted" record on the same message is refused; so does a request that is not newer than an
  earlier one of its sender. `RemoteProgress.DecidableExactly` (exact: a request can still be answered
  if and only if neither holds of it or of one before it), `RemoteProgress.OneFailureBlocks` and
  `RemoteProgress.StaleRequestBlocks` (the runs).
- Canonical JSON does not depend on key order exactly if the collation never ties distinct keys
  (`CanonicalJsonTheorems.OrderIsImmaterialExactly`); `localeCompare` ties canonically equivalent
  strings, such as a composed and a decomposed accented letter (`CanonicalJsonTheorems.TiedKeysTell`).
- A replan whose analysis is ambiguous but whose clarification step finds nothing to ask is stored
  without its replan key and base version, so an objective can get a second initial plan:
  `BrainSlot.SecondInitialPlanExactly` (exact), `BrainSlot.LostKeyPlansTwice` (the run).
- A resume that overtakes the slot release of the pause before it lets two tasks plan at once:
  `BrainSlot.SlotKeptExactly` (exact), `BrainSlot.OverlapPlansTwice` (the run).
- A pause, a resume or a restart can leave a mission that nothing works on any more:
  `MissionStranding.ResumeAttendsExactly`, `RestartAttendsExactly`, `ProfileAttendsExactly` and
  `ApprovalStartsExactly` are exact. The runs: a pause during the final cleanup
  (`PauseDuringCleanupStrands`, and for ever by `NeverCompletes`), a death during a correction or
  between approval and integration (`DeathDuringCorrectionStrands`, `DeathDuringApprovalStrands`), the
  approval of a failed mission during a pause (`ApprovalDuringPauseStrands`).
- An answer given where the engine does not look for one, as in a pause, is used up without effect:
  `MissionStranding.AnswerCountsExactly` (exact), `MissionStranding.AnswerDuringPauseIsLost` (the run).
- A review or an integration that a user's answer has overtaken asks for an illegal transition, and
  nothing else does: `MissionLegality.ThrowsExactlyWhenOvertaken`. It takes a supervised project that
  is made autonomous while the mission waits under review: `MissionLegality.OrderKeptExactly` (exact),
  `MissionLegality.FlowsAreLegal` (legal otherwise), `MissionLegality.DecisionOvertakesReview` (the run).
- The limits on missions in progress hold only for what the scheduler starts: a correction, or the
  approval of a failed mission, dispatches another one past it. `FleetLimits.LimitExceededExactly` and
  `LimitHoldsExactly` (exact, for one step and for whole runs, in all and per project),
  `FleetRuns.CorrectionExceedsLimit` and `FleetRuns.ApprovalExceedsLimit` (the runs, for every limit).
- A mission may be promoted on a dependency that is only approved or integrated, but its preparation asks
  for a completed one: `FleetDependencies.RefusedExactly` (exact), `FleetRuns.RefusedDuringCleanup` (the
  run). Behind an integration that was interrupted by a pause it never runs:
  `FleetDependencies.DependentNeverRuns`, `FleetRuns.PauseLeavesDependentBehind` (the run).
- Two operators rotating to the same token at once can leave the vault with a token that has no role:
  `TokenRotation.RoleLostExactly` and `RoleKeptExactly` (exact, for one step and for whole runs),
  `TokenRotation.SharedTokenLosesItsRole` (the run).
- An absent error code in the audit table can be edited into an empty one unnoticed:
  `AuditChain.EmptyCodeGoesUnnoticed`; given the last hash, nothing else can
  (`AuditChain.LastHashDetermines`). Verification itself is given no last hash, so a cut-off end also
  goes unnoticed (`AuditChain.PrefixVerifies`).

## Model

| member | source | states |
|---|---|---|
| RemoteProtocolTheorems.RunKeepsInvariant | packages/remote-bridge/src/index.ts:1002-1143 | the protocol invariant holds in every state of every run of steps and crashes |
| RemoteProtocolTheorems.CrashRefinement | packages/remote-bridge/src/index.ts:1002-1143 | in every reachable state the relay shows exactly one response per visible request that has one, in cursor order, as if each request had been handled atomically |
| RemoteProtocolTheorems.StepSimulates | packages/remote-bridge/src/index.ts:1029-1143 | every step leaves the visible log alone or handles the next request of the inbox in it |
| RemoteProtocolTheorems.ReplayPublishesResponses | packages/remote-bridge/src/index.ts:1114-1141 | the atomic reference publishes exactly the responses of its log, in order |
| RemoteProtocolTheorems.NoOutboundSequenceReuse | packages/remote-bridge/src/index.ts:1115-1139 | the sequences published to a peer are 1, 2, 3, ... without gap or reuse, over all crashes |
| RemoteProtocolTheorems.NoEarlyAcknowledgement | packages/remote-bridge/src/index.ts:1012-1027 | an acknowledged cursor was handled, its response is at the relay, its sequences are durable |
| RemoteProtocolTheorems.DurableCursorAdvancesByOne | packages/remote-bridge/src/index.ts:1026-1028 | the durable cursor and the acknowledgement move by at most one per step and never back |
| RemoteProtocolTheorems.DecisionsAreFinal | packages/remote-bridge/src/index.ts:1130-1138 | a durable answer is never withdrawn or changed |
| RemoteProtocolTheorems.NeverHandledAgain | packages/remote-bridge/src/index.ts:1087-1090 | once an answer is durable the handler never runs for that request again |
| RemoteProtocolTheorems.RestartAccepts | packages/remote-bridge/src/index.ts:930-973 | a restart never refuses what the connector itself stored |
| RemoteProtocolTheorems.PublicationNeverConflicts | services/remote-relay/src/store.ts:320-330 | the relay never refuses a publication of the connector as bound to another envelope |
| RemoteProtocolTheorems.OutputIdsUnique | services/remote-relay/src/store.ts:320-330 | no two published envelopes share a message id |
| RemoteProtocolTheorems.FailedRequestBlocksForever | packages/remote-bridge/src/state.ts:375-383 | a request with a recorded failure is never answered, and nothing behind it acknowledged |
| RemoteProgress.DecidableExactly | packages/remote-bridge/src/index.ts:1061-1141 | a request can still be answered in some continuation exactly when it and every unanswered one before it is newer than its sender's earlier ones and has no recorded failure |
| RemoteProgress.DecidedWasAnswerable | packages/remote-bridge/src/state.ts:375-383 | what is answered was fresh and had no recorded failure at any earlier time |
| RemoteProgress.OneFailureBlocks | packages/remote-bridge/src/index.ts:1084-1100 | a run in which one throwing handler leaves the first request unanswerable for good |
| RemoteProgress.StaleRequestBlocks | packages/remote-bridge/src/index.ts:1064-1075 | a run in which a request that is not newer blocks the inbox |
| RemoteConnector.RemoteOutboundConnector.constructor | packages/remote-bridge/src/index.ts:911-973 | on whatever any run of the protocol has left, a new connector loads exactly what is stored, as a crash step of that run |
| RemoteConnector.RemoteOutboundConnector.PublishToRelay | packages/remote-bridge/src/index.ts:1005-1008 | publication marks the record as published only when the answer arrived |
| RemoteConnector.RemoteOutboundConnector.AcknowledgeToRelay | packages/remote-bridge/src/index.ts:1020-1027 | only a record with committed sequences is acknowledged; then the cursor moves to it |
| RemoteConnector.RemoteOutboundConnector.FinishPending | packages/remote-bridge/src/index.ts:1002-1028 | a finished record is gone from memory and store and the cursor has moved by one |
| RemoteConnector.RemoteOutboundConnector.ProcessItem | packages/remote-bridge/src/index.ts:1061-1141 | an item is answered, stored and finished, or the run goes on from a consistent state |
| RemoteConnector.RemoteOutboundConnector.ProcessOnce | packages/remote-bridge/src/index.ts:1029-1143 | a pass without error moves the cursor by exactly one per item, with nothing pending, in a run of the protocol |
| Sorting.SortIsSortedPermutation | packages/orchestration/src/scheduler.ts:30-33 | the sort gives a sorted permutation |
| Sorting.SortedIsUnique | packages/orchestration/src/scheduler.ts:30-33 | there is one sorted arrangement when the order separates the elements |
| Scheduler.SelectMissionsToStart | packages/orchestration/src/scheduler.ts:15-44 | the loop with its running counts computes the greedy selection |
| Scheduler.SelectionIsFeasible | packages/orchestration/src/scheduler.ts:20-43 | the selection is part of the ready missions and fits both limits |
| Scheduler.SelectionIsOptimal | packages/orchestration/src/scheduler.ts:20-43 | no feasible choice has more missions, more above any priority, or a greater total priority |
| Scheduler.SelectionDominates | packages/orchestration/src/scheduler.ts:20-43 | the same under every monotone valuation of priorities |
| Scheduler.SelectionIgnoresInputOrder | packages/orchestration/src/scheduler.ts:30-33 | the selection does not depend on the input order when ids are distinct |
| Scheduler.UsageCounts | packages/orchestration/src/scheduler.ts:25-28 | the counts it starts from are those of the running missions |
| Dag.AssertAcyclic | packages/orchestration/src/dag.ts:11-36 | it reports a cycle exactly when no rank exists, and a reported list is a real cycle of dependencies |
| Dag.CycleSearch.Visit | packages/orchestration/src/dag.ts:18-33 | a visit ends with the node done and the path restored, or with a real cycle |
| Dag.RankedHasNoClosedWalk | packages/orchestration/src/dag.ts:11-36 | a rank excludes every closed walk |
| Dag.FinishOrderRanks | packages/orchestration/src/dag.ts:31-32 | the order in which nodes are finished is a rank |
| Dag.UnblockedMissions | packages/orchestration/src/dag.ts:38-60 | exactly the proposed missions whose dependencies are all satisfied, in order |
| PlanValidation.ValidatePlanProposal | services/control-plane/src/plan-validation.ts:32-95 | it has no issues exactly when keys, objectives, milestones, dependencies, acyclicity and coverage are sound |
| PlanValidation.CheckKeys | services/control-plane/src/plan-validation.ts:32-57 | no issue exactly when keys and objectives are distinct and milestones known |
| PlanCompletion.ValidatedPlanFinishes | services/control-plane/src/engine.ts:481-515 | a validated plan of n missions is completed within n rounds of promote, select, complete |
| PlanCompletion.RoundProgresses | services/control-plane/src/engine.ts:481-515 | a round completes at least one mission while any is open |
| PlanCompletion.SomeUnblocked | packages/orchestration/src/dag.ts:44-60 | while missions are open and none is ready, one can be promoted |
| GitComposition.Repository.ComposeDependencyBaseline | packages/git/src/git.ts:376-425 | the history of the result is exactly that of base and dependencies, with at most one new commit per dependency and none for a chain |
| GitComposition.Repository.CommitTree | packages/git/src/git.ts:409-422 | a merge commit reaches exactly what its parents reach |
| GitComposition.AncestryIsStable | packages/git/src/git.ts:339-347 | new commits change no ancestry among earlier ones |
| MissionFlowTheorems.RunKeepsInvariant | services/control-plane/src/engine.ts:212-240 | the mission and its tasks stay consistent in every run, with restarts, pauses, decisions and deaths |
| MissionFlowTheorems.CompletedOnlyWithEvidence | services/control-plane/src/engine.ts:1616-1631 | a completed mission has a succeeded run, all checks passed and an approval; attempts never exceed their maximum |
| MissionFlowTheorems.CompletionIsEarned | services/control-plane/src/engine.ts:819-832 | a completed mission was approved under review in its latest cycle, after a succeeded run and every required check in that same cycle |
| MissionFlowTheorems.EvidenceGrowsBySteps | services/control-plane/src/engine.ts:910-1143 | success and passed checks are only recorded by a finished run and a passed check of the same cycle |
| MissionFlowTheorems.ApprovedBySteps | services/control-plane/src/engine.ts:1586-1612 | a mission gets past review only by an approval while it is under review |
| MissionPaths.FlowsKeepToTheirPaths | services/control-plane/src/engine.ts:629-1631 | in every run the flow of a task acts in the order of its path: preparation, run, each check after the passing one before, review after all, integration after an approval |
| MissionLegality.ThrowsExactlyWhenOvertaken | packages/orchestration/src/machines.ts:10-38 | a flow asks for an illegal transition exactly when an answer has overtaken a review or an integration |
| MissionLegality.PauseAndResumeAreLegal | services/control-plane/src/store.ts:535-541 | the moves of a pause, a resume and a replaced plan are legal under the table |
| MissionLegality.OrderKeptExactly | services/control-plane/src/engine.ts:1338-1345 | approvals and tasks stay in order in a step exactly unless a project is made autonomous while the mission is under review with an open approval |
| MissionLegality.FlowsAreLegal | services/control-plane/src/engine.ts:1331-1614 | in runs without such a change no step ever asks for an illegal transition |
| MissionLegality.DecisionOvertakesReview | services/control-plane/src/engine.ts:1696-1699 | a run from a new mission on in which a user's answer overtakes a reviewer |
| MissionFlowProofs.RowKept | services/control-plane/src/store.ts:1750-1776 | every step, also one cut off by a death, leaves a mission whose state its evidence supports |
| MissionFlowProofs.TasksKept | services/control-plane/src/engine.ts:456-474 | at most one task that is not fenced drives a mission, and it is where the mission is |
| MissionAutonomy.AutonomyIsBounded | packages/orchestration/src/correction.ts:12-21 | between decisions, without restart or pause, the engine takes boundedly many steps and starts at most max + 1 executions |
| MissionAutonomy.StepsAreUsedUp | services/control-plane/src/engine.ts:1233-1265 | every step of the engine uses up one of the steps it is allowed |
| MissionAutonomy.RestsWithTheUser | services/control-plane/src/engine.ts:629-700 | from any attended state on, until the next interruption, the mission rests exactly when the engine can do nothing; then it is completed or cancelled, or the user has been asked unless the plan was replaced |
| MissionStranding.ResumeAttendsExactly | services/control-plane/src/engine.ts:416-446 | after a resume the mission is attended exactly unless it was assigned or retrying, or was suspended while integrated |
| MissionStranding.RestartAttendsExactly | services/control-plane/src/engine.ts:212-240 | after a restart it is attended exactly unless it was retrying, submitted, approved, integrated, or running without a recorded run |
| MissionStranding.ProfileAttendsExactly | services/control-plane/src/store.ts:296-318 | another profile disturbs exactly a mission under review |
| MissionStranding.ApprovalStartsExactly | services/control-plane/src/engine.ts:1684-1688 | approving a failed mission starts it exactly when the project is not paused |
| MissionStranding.AnswerCountsExactly | services/control-plane/src/engine.ts:1672-1705 | an answer has an effect exactly on a blocked, failed or reviewed mission of the active plan, and is used up otherwise |
| MissionStranding.NeverCompletes | services/control-plane/src/engine.ts:436-443 | an integration without a live task is never completed, whatever follows |
| MissionStranding.PauseDuringCleanupStrands | services/control-plane/src/engine.ts:1616-1631 | a run that ends integrated for ever after a pause during the cleanup |
| MissionStranding.DeathDuringCorrectionStrands | services/control-plane/src/engine.ts:1233-1265 | a run that is left retrying after a death and a restart |
| MissionStranding.DeathDuringApprovalStrands | services/control-plane/src/engine.ts:1586-1612 | a run that is left approved after a death and a restart |
| MissionStranding.ApprovalDuringPauseStrands | services/control-plane/src/engine.ts:1684-1688 | a run in which a failed mission approved during a pause is left assigned |
| MissionStranding.AnswerDuringPauseIsLost | services/control-plane/src/store.ts:2035-2053 | a run in which the answer for a blocked mission is lost in a pause |
| FleetLimits.MissionsRunAsAlone | services/control-plane/src/engine.ts:481-515 | what happens to one of several missions is a run of that mission, so every theorem about such runs holds of it |
| FleetLimits.LimitExceededExactly | services/control-plane/src/engine.ts:494-511 | a step raises the missions in progress above a limit, in all or of a project, exactly when the limit is reached and a correction or an approval dispatches one past the scheduler |
| FleetLimits.LimitHoldsExactly | services/control-plane/src/engine.ts:494-511 | over a whole run a limit holds exactly as long as no such step has been taken |
| FleetRuns.CorrectionExceedsLimit | services/control-plane/src/engine.ts:1251-1258 | for every limit a run in which a failed validation exceeds it |
| FleetRuns.ApprovalExceedsLimit | services/control-plane/src/engine.ts:1684-1688 | for every limit and configuration a run in which an approval exceeds it |
| FleetDependencies.RefusedExactly | services/control-plane/src/engine.ts:532-541 | a promoted mission's execution is refused exactly when a dependency was approved or integrated at the promotion and is not completed at the dispatch |
| FleetDependencies.DependentNeverRuns | services/control-plane/src/engine.ts:537-541 | a mission that depends on one whose integration has lost its task never runs, whatever follows |
| FleetRuns.RefusedDuringCleanup | services/control-plane/src/engine.ts:532-541 | a run in which a tick during the cleanup of a mission gets its dependent blocked, though the first is then completed |
| FleetRuns.PauseLeavesDependentBehind | services/control-plane/src/engine.ts:436-443 | a run that leaves a mission behind an integration that never completes |
| MissionEngine.Engine.TransitionMission | services/control-plane/src/store.ts:1750-1776 | a transition commits exactly when it is legal and not stale |
| MissionEngine.Engine.FailValidation | services/control-plane/src/engine.ts:1233-1265 | bounded correction: another attempt or failure |
| MissionEngine.Engine.Tick | services/control-plane/src/engine.ts:481-515 | a tick promotes and dispatches, and takes exactly these steps |
| MissionEngine.Engine.PauseProject | services/control-plane/src/store.ts:458-545 | a pause is exactly the pause step, or nothing when paused |
| MissionEngine.Engine.ResumeProject | services/control-plane/src/engine.ts:416-446 | a resume is exactly the resume step, restarting validation, review or integration |
| MissionEngine.Engine.Reconcile | services/control-plane/src/engine.ts:212-240 | reconciliation is exactly the restart step |
| MissionEngine.Engine.ResolveApproval | services/control-plane/src/engine.ts:1640-1705 | an answer is exactly the approval or rejection step, refused without an open approval and ignored for a replaced plan |
| MissionEngine.Engine.ReplacePlan | services/control-plane/src/store.ts:1553-1561 | a new plan withdraws the open approvals and cancels a waiting mission, as the replacing step |
| MissionEngine.Engine.UpdateProfile | services/control-plane/src/store.ts:296-318 | a change of profile is exactly the profile step |
| MissionEngine.Engine.ExecuteMission | services/control-plane/src/engine.ts:629-835 | the flow that starts in this task, read off the history, is on the path of an execution and ends in the last step, or its task was lost |
| MissionEngine.Engine.RunMission | services/control-plane/src/engine.ts:705-895 | the same from the provider runs on: a validation follows only a completed run |
| MissionEngine.Engine.ValidateMission | services/control-plane/src/engine.ts:910-1145 | the same from the checks on: one step per check, each after the passing of the one before, a review only after all |
| MissionEngine.Engine.ReviewMission | services/control-plane/src/engine.ts:1331-1614 | the same from the review on: one verdict, and an integration only after an approving one |
| MissionEngine.Engine.IntegrateMission | services/control-plane/src/engine.ts:1616-1631 | the mission is completed after the cleanup exactly unless the task is fenced or the mission has moved on |
| ProviderRouting.UniqueHasAllOnce | services/control-plane/src/provider-routing.ts:12-15 | the chain lists exactly the given non-empty names, each once |
| ProviderRouting.UniqueExtends | services/control-plane/src/provider-routing.ts:12-15 | first occurrences keep their order |
| ProviderRouting.EffectiveChainPrefersTheRole | services/control-plane/src/provider-routing.ts:21-29 | the role's providers come first, then the rest of the global chain |
| ProviderRouting.ReviewersAreIndependentFirst | services/control-plane/src/provider-routing.ts:95-107 | every available provider of the chain in order, the author only last and whenever it is available |
| Fallback.DecideFallback | packages/orchestration/src/fallback.ts:28-101 | for each action exactly when it is taken, and that waits stay within the policy |
| Fallback.BackoffDoubles | packages/orchestration/src/fallback.ts:104-106 | waits double up to the cap and never shrink |
| Fallback.FailureLeaves | packages/orchestration/src/fallback.ts:28-101 | a failure may pass runs over, but adds none and changes no order; a transient one passes none over |
| Fallback.FailureUsesRuns | packages/orchestration/src/fallback.ts:28-101 | without repeated models every failure leaves fewer runs |
| Fallback.EndsExactlyWithoutRepeats | services/control-plane/src/engine.ts:859-895 | under any policy the loop ends for all failures exactly when no list it may switch models in repeats one after the starting one |
| FallbackLoops.ExecuteMission | services/control-plane/src/engine.ts:701-895 | the loop ends, with exactly the runs of the log, and finishes only on a completed run |
| FallbackLoops.RunsAreInOrder | services/control-plane/src/engine.ts:701-895 | whatever the outcomes, the runs are some of the possible ones in chain order, plus at most the repairs |
| FallbackLoops.ExecutionIsBounded | services/control-plane/src/engine.ts:701-895 | at most (models + 1) * (retries + 1) runs per provider, and the repairs |
| FallbackLoops.TransientExecutionIsExact | services/control-plane/src/engine.ts:859-895 | under any policy, with transient failures only, exactly every run the policy leads to, in chain order with all retries |
| FallbackLoops.OnlyTheLastRunCompletes | services/control-plane/src/engine.ts:817-835 | every run but the last one failed or was refused |
| FallbackLoops.RunStep | services/control-plane/src/brain.ts:695-893 | a planning step makes exactly the runs of the log with its repairs, and finishes only on accepted output |
| FallbackLoops.ReviewMission | services/control-plane/src/engine.ts:1381-1584 | the reviewers in order, none more than retries + 1 times, and exactly so with transient failures; it stops at the first that answers |
| BrainSlot.SingleFlight | services/control-plane/src/brain.ts:209-227 | in runs where no resume overtakes a slot release, at most one unfinished task has the current generation, and it holds the slot |
| BrainSlot.OthersAreHarmless | services/control-plane/src/brain.ts:216-226 | in runs where no resume overtakes a slot release, no other task frees the slot or stores a plan while one plans |
| BrainSlot.StaleNeverPersists | services/control-plane/src/brain.ts:451-462 | a task made stale by a pause never stores a plan again |
| BrainSlot.SlotKeptExactly | services/control-plane/src/brain.ts:152-170 | a current task loses the slot exactly by a release that comes after the resume |
| BrainSlot.OneInitialPlanPerObjective | services/control-plane/src/store.ts:1512-1530 | in runs where no resume overtakes a slot release, an objective never gets two initial plans unless a replan loses its key |
| BrainSlot.SecondInitialPlanExactly | services/control-plane/src/brain.ts:509-600 | a second initial plan arises exactly when such a replan is stored |
| BrainSlot.ReplansAreLimited | services/control-plane/src/brain.ts:287-299 | in runs where no resume overtakes a slot release, an objective is replanned at most as often as the limit says |
| BrainSlot.EvidenceReplansOnce | services/control-plane/src/store.ts:1512-1527 | the same evidence never leads to two plan versions |
| BrainSlot.OverlapPlansTwice | services/control-plane/src/brain.ts:169-170 | a run in which an overlapping resume leads to two initial plans |
| BrainSlot.LostKeyPlansTwice | services/control-plane/src/brain.ts:509-600 | a run without pause in which a replan becomes a second initial plan |
| PlanningBrain.ProjectBrain.EnsurePlan | services/control-plane/src/brain.ts:209-227 | deferred exactly when the slot is taken; otherwise the task ends and does not keep the slot |
| PlanningBrain.ProjectBrain.StorePlan | services/control-plane/src/store.ts:1512-1545 | exactly one plan is appended, and only for a current task, the latest objective, a new key and the right base |
| PlanningBrain.ProjectBrain.BeginProjectPause | services/control-plane/src/store.ts:461-500 | a pause bumps the generation once and leaves one slot release to come |
| PlanningBrain.ProjectBrain.CancelProject | services/control-plane/src/brain.ts:153-170 | the slot is freed whoever holds it |
| ApiToken.ApiTokenAuthority.Start | services/control-plane/src/api-token-authority.ts:58-84 | a start adopts the first token and later accepts exactly tokens with a role |
| ApiToken.ApiTokenAuthority.TokenRole | services/control-plane/src/api-token-authority.ts:86-89 | the role of a shown token, none for a missing one, an error without a row |
| ApiToken.ApiTokenAuthority.Status | services/control-plane/src/api-token-authority.ts:91-105 | the prepared rotation and the token's role, or unauthorized |
| ApiToken.ApiTokenAuthority.PrepareRotation | services/control-plane/src/api-token-authority.ts:107-156 | the prepared row or error, idempotent for the same next token |
| ApiToken.ApiTokenAuthority.CommitRotation | services/control-plane/src/api-token-authority.ts:158-200 | the committed row or error, and whether it was committed already |
| ApiToken.ApiTokenAuthority.AbortRotation | services/control-plane/src/api-token-authority.ts:202-242 | the aborted row or error, and whether nothing was pending |
| ApiToken.CommitIsIdempotent | services/control-plane/src/api-token-authority.ts:166-173 | a commit may be repeated without effect, and its token is current |
| ApiToken.AbortUndoesPrepare | services/control-plane/src/api-token-authority.ts:107-242 | an abort undoes a preparation, and may be repeated |
| TokenRotation.VaultTokenAlwaysHasRole | apps/cli/src/operator/vault.ts:369-500 | whichever call fails and whoever dies, the vault's token has a role, when no two operators alive share a token |
| TokenRotation.RoleLostExactly | apps/cli/src/operator/vault.ts:420-500 | with any operators, a step takes the role from the vault's token exactly when it swaps in an unknown token, or ends the rotation on one side while the vault holds the other |
| TokenRotation.RoleKeptExactly | apps/cli/src/operator/vault.ts:369-500 | over a whole run the vault's token has a role exactly as long as no step was of that kind |
| TokenRotation.CommitReplacesTheToken | services/control-plane/src/api-token-authority.ts:186-197 | a commit makes the vault's token the only accepted one |
| TokenRotation.PromotedAtMostOnce | services/control-plane/src/api-token-authority.ts:166-197 | each rotation promotes at most once, for any operators |
| TokenRotation.SharedTokenLosesItsRole | apps/cli/src/operator/vault.ts:420-440 | a run of two operators with one token that leaves the vault without role |
| TokenOperator.RotateOperatorApiToken | apps/cli/src/operator/vault.ts:369-500 | however a rotation ends, the vault's token keeps a role unless others replaced it during the proof, and then their value stays; what each outcome means |
| TokenOperator.Rotation.StageProveCommit | apps/cli/src/operator/vault.ts:420-500 | swap, proof, another look at the vault and commit, or swap back and abort; a value that others have put there is never overwritten |
| TokenOperator.Rotation.Resume | apps/cli/src/operator/vault.ts:386-418 | a rerun that finds its token in the vault completes or leaves the rotation |
| CredentialVault.EncryptedCredentialVault.Initialize | packages/credential-vault/src/index.ts:640-660 | an empty vault of generation 0 is made exactly when there is none |
| CredentialVault.EncryptedCredentialVault.Read | packages/credential-vault/src/index.ts:812-831 | the content exactly when the key opens the file |
| CredentialVault.EncryptedCredentialVault.SetMany | packages/credential-vault/src/index.ts:680-716 | every lookup afterwards, one generation more, names unique and sorted; a failure changes nothing |
| CredentialVault.EncryptedCredentialVault.CompareAndSwap | packages/credential-vault/src/index.ts:723-768 | conflict exactly when the value is not the expected one; otherwise one entry and one generation change |
| CredentialVault.EncryptedCredentialVault.Remove | packages/credential-vault/src/index.ts:770-790 | the name is gone and nothing else, or nothing changes |
| CredentialVault.EncryptedCredentialVault.RotateMasterKey | packages/credential-vault/src/index.ts:792-811 | the same entries under the new key, or nothing changes |
| CredentialVault.SortedEntries | packages/credential-vault/src/index.ts:706-712 | sorting keeps names unique and every lookup |
| WorkerRotation.AlwaysValid | services/control-plane/src/worker-certificate-authority.ts:96-165 | at most one rotation is prepared, pending material exists exactly with its rotation, draining exactly then |
| WorkerRotation.CurrentWasProven | services/control-plane/src/worker-token-authority.ts:159-208 | a credential becomes current only by the commit of its own rotation after the worker showed it as pending under that rotation |
| WorkerRotation.PromotedOnce | services/control-plane/src/worker-token-authority.ts:172-208 | each rotation promotes at most once |
| WorkerRotation.RevokedForever | services/control-plane/src/worker-token-authority.ts:70-87 | a revoked worker stays revoked, authenticates no more and keeps its credentials |
| WorkerRotation.CommitIsIdempotent | services/control-plane/src/worker-token-authority.ts:172-179 | a commit may be repeated without effect |
| WorkerRotation.AbortUndoesPrepare | services/control-plane/src/worker-certificate-authority.ts:263-290 | an abort undoes a preparation, and may be repeated |
| WorkerAuthorities.WorkerTokenAuthority.Prepare | services/control-plane/src/worker-token-authority.ts:89-122 | exactly the prepared row, or the first error in the source's order |
| WorkerAuthorities.WorkerTokenAuthority.Commit | services/control-plane/src/worker-token-authority.ts:159-211 | exactly the committed row, or the first error, and idempotence |
| WorkerAuthorities.WorkerTokenAuthority.Abort | services/control-plane/src/worker-token-authority.ts:213-241 | exactly the aborted row, or not found |
| WorkerAuthorities.WorkerCertificateAuthority.Prepare | services/control-plane/src/worker-certificate-authority.ts:96-165 | exactly the prepared row, or the first error in the source's order |
| WorkerAuthorities.WorkerCertificateAuthority.Commit | services/control-plane/src/worker-certificate-authority.ts:207-261 | exactly the committed row, or the first error, and idempotence |
| WorkerAuthorities.WorkerCertificateAuthority.Abort | services/control-plane/src/worker-certificate-authority.ts:263-290 | exactly the aborted row, or not found |
| WorkerAuthorities.WorkerRow.Revoke | services/control-plane/src/server.ts:1305-1315 | revoking changes the status and nothing else |
| WorkerAuthorities.RequireWorker | services/control-plane/src/server.ts:885-928 | a request is admitted exactly with all credentials asked for, and marks the pending ones it used |
| AuditChain.AuditTable.AppendRemoteAction | packages/remote-bridge/src/state.ts:341-429 | one row per key, a repeated action returns it, a different one is refused; the table always verifies |
| AuditChain.AuditTable.VerifyAuditChain | packages/remote-bridge/src/state.ts:431-453 | the loop accepts exactly the tables in which each row names the hash before it and carries its own |
| AuditChain.LastHashDetermines | packages/remote-bridge/src/state.ts:341-453 | two verifying tables end in the same hash exactly when they agree row by row, up to empty error codes |
| AuditChain.AppendedTablesAreEqual | packages/remote-bridge/src/state.ts:341-429 | tables that were only appended to and end in the same hash are equal |
| AuditChain.EmptyCodeGoesUnnoticed | packages/remote-bridge/src/state.ts:445-448 | an absent error code can be edited into an empty one unnoticed |
| AuditChain.PrefixVerifies | packages/remote-bridge/src/state.ts:431-453 | every prefix of a verifying table verifies |
| CanonicalJsonTheorems.TextDetermines | packages/remote-bridge/src/security.ts:18-37 | under any collation a text determines its value, and where it ends, whatever follows |
| CanonicalJsonTheorems.SameHasSameText | packages/remote-bridge/src/security.ts:18-37 | values equal up to key order and undefined fields have the same text, under any collation that is a strict total order |
| CanonicalJsonTheorems.CanonicalTextIsUnique | packages/remote-bridge/src/security.ts:18-37 | under such a collation two values print the same text exactly when they are equal up to key order and undefined fields |
| CanonicalJsonTheorems.OrderIsImmaterialExactly | packages/remote-bridge/src/security.ts:31-33 | equal values always have one text exactly when the collation ties no distinct keys |
| CanonicalJsonTheorems.TiedKeysTell | packages/remote-bridge/src/security.ts:31-33 | two keys that compare as equal give equal objects two texts |
| BalancedObject.FirstBalancedObject | services/control-plane/src/brain.ts:1038-1060 | the scanning loop finds the first balanced object of the text |
| BalancedObject.FirstObjectIsExact | services/control-plane/src/brain.ts:1038-1060 | from a prefix without opening brace, the canonical text of an object and any suffix it returns exactly that text |

## Left out

- Cryptography: hashes are injective constructors, envelopes carry an identity and a sequence, sealing and key derivation are not modelled.
- Operating-system behaviour: file permissions, fsync, the vault's lock file, Keychain, TLS, process spawning; a write of the vault replaces the file or leaves it.
- Remote relay: item expiry, capacity limits and several connectors per device; the inbox only grows, so an expired request is not modelled. Random message and rotation ids never repeat.
- Collation: canonical JSON takes any order of strings as a parameter; elsewhere (missions, vault names, refs) it is by code unit, and distinct strings that collate as equal are not modelled.
- JSON: numbers are unbounded integers; fractions, exponents and lone surrogates are not modelled.
- Field formats (identifiers, lengths, timestamps) of rows, plans and vault entries; inputs are taken as already parsed, and the objectives of planned missions as trimmed and lower-cased.
- PlanValidation.ValidatePlanProposal: lines 97 to 171 of plan-validation.ts (contracts, checks, budgets, command policy) count as a number of policy issues per mission, because they are independent per-field checks.
- Scheduler.SelectionIsOptimal: the total-priority clause assumes priorities are not negative, because with negative ones a smaller set may be worth more; the other clauses do not.
- PlanCompletion.ValidatedPlanFinishes: completing a selected mission is one step, because `completed` takes a whole execution.
- GitComposition.Repository.ComposeDependencyBaseline: merge conflicts are an arbitrary outcome, and a new commit never coincides with an existing one.
- MissionFlow: `cancelMission` and the manual transition endpoint; they move missions outside the engine's flows and may skip evidence. Reconciling runs stored as `paused`, the run rows themselves, and the cancellation of missions by a changed objective are not modelled either.
- MissionFlow: approvals are counted, not told apart, and one without a mission is not modelled.
- MissionEngine.Engine.Tick: it drives one mission whose dependencies are taken as met, without the concurrency limits; `fleet` has both for several missions.
- MissionAutonomy.RestsWithTheUser: promotion is taken as always possible, so a mission waiting for its dependencies is not a state of rest.
- Fleet: a tick promotes missions one by one before it starts others, and a death in it cuts off only what it starts; a completed dependency has its branch.
- RemoteConnector.RemoteOutboundConnector.constructor: the initial cursor and sequences of callers without a durable store; the durable connector (index.ts:1162-1205) does not offer them.
- PlanCompletion.RoundProgresses: as in `ValidatedPlanFinishes`, a selected mission completes in one step.
- Fallback: a provider's model list stays the same over a loop, though the source asks for it in every turn.
- Worker authorities: one worker's row, so unknown workers are not modelled, nor is the validity of a candidate certificate.
- TokenRotation.VaultTokenAlwaysHasRole: it assumes operators alive at once rotate to different tokens, a condition on schedules; `RoleKeptExactly` is the condition on states. The vault's token is changed only by rotations there.
- TokenOperator.RotateOperatorApiToken: others write to the vault only while the new token is proved.
- BrainSlot: budgets, clarification rounds and provider runs inside a planning task; only its start, its end and its stored plan matter for the slot.
- Clarification, worker leases, terminals, budgets, project status other than paused, HTTP, CLI and web clients, the sandbox and provider adapters, campaign reports.
