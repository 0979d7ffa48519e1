# Durable agent-team runtime: a verified model

This project models the control plane of a durable agent-team runtime in Dafny and proves what its
protocols guarantee. Everything the runtime promises rests on one SQLite store with immediate
transactions: an append-only event log with idempotent ids, projections kept beside it, work claims
with fencing tokens, a command ledger and a model-call ledger. The model has the same layers.

| files | what they hold |
|---|---|
| `Contracts`, `Events`, `Projection`, `ProjectionLaws` | shared values, event ids and payloads, the incremental read models and the fold they equal, and what each event does to a row |
| `Claims`, `Tables`, `EventStore`, `StoreRuns`, `ClaimLaws`, `CommitLaws` | claims and fencing tokens; each transaction as a state change; the store object whose loops are proved against them; safety over every history of transactions; who a claim keeps out and for how long; what an append or commit records and when it is refused |
| `TeamGraph`, `Orchestration`, `PolicyFacts`, `PolicyRefusals`, `GraphLaws`, `PolicyLaws` | the depth-first cycle check of a team contract; the supervisor policy; what it guarantees; when its patch is refused; what an accepted contract and a proposed patch say |
| `Admission`, `AdmissionCheck`, `AdmissionLaws`, `TeamRuns`, `TeamSafety`, `TeamPlans`, `TeamTheorems` | the kernel's own validation of a plan patch, and which patches it accepts; capacity, exclusivity and dependency invariants over every team run |
| `ContextReader`, `Agreement`, `PolicyRuns` | how the policy's context is read; policy and kernel agree; how many assignments a run can create |
| `Ledger`, `ControlKernel`, `TeamCommits` | racing submitters over the command ledger; one submission as it runs; a committed plan or result is a team-run step |
| `CausalChain`, `CausalLaws` | the causal walk of an agent run back to its seed, and what it finds |
| `CampaignFacts`, `CampaignLaws`, `EvalCampaigns` | a campaign's trials, the choice of the next step and which boundary it crosses, and the service's calls over the store |
| `CampaignRuns`, `CampaignSafety`, `CampaignTheorems`, `CampaignOrder` | advancers, finalisers and cancellers of an evaluation campaign, interleaved with everything else, and the durable order across the campaign and its child pairs |
| `ModelBudgets`, `ModelAuthority`, `ModelCompletion`, `Usage`, `ModelLaws` | the model-call table, the authority that drives it, its retry loop and recovery, usage normalisation and prices, and what each of them does to rows and totals |
| `LoopFacts`, `AgentLoop`, `LoopLaws` | the single-agent control loop, cut off after any number of appends and restarted any number of times; when a tool is let through and what other actions leave behind |
| `Scheduler`, `SchedulerLaws` | bounded round-robin reservations under fenced claims, and who is served next |
| `LocalPlan`, `PlanLaws` | the local-plan reducer, and what each plan event does |

The files named `...Laws` say what the operations mean in terms of the rows, tables and logs they work on,
with definitions of their own: none of them mentions the predicate by which the operation itself decides.

Conventions. A transaction that rolls back leaves its tables unchanged. `now` is an arbitrary integer
supplied by each caller and is never assumed to grow, so no proof uses a clock. Identifiers made with
`uuid5` are constructors, hence injective in the key they are made from; serialisation and hashes are
identities. A protocol is a state machine over its steps, with crashes and foreign transactions as steps
of their own; its theorems quantify over every finite interleaving.

Results worth knowing before using the code:

- `CapabilitySupervisorPolicy.propose` can raise: it passes `waiting_stage_ids` even when it sets no
  waiting reason, which the patch's own validator refuses (orchestration.py lines 295 and 141-142).
  `PolicyFacts.ProposalCanBeRefused` gives an input. `PolicyRefusals` tells from the contract and the context
  when it happens: exactly, when agents do not compete during the pass (`RefusedWithoutCompetitionIff`), when
  they are interchangeable (`RefusedIfInterchangeableIff`) and when the team is stalled (`StalledTeamVerdict`);
  and from both sides otherwise (`RefusedForBusyStage`, `RefusedWithoutSpare`, `NeverRefused`).
- A stalled team whose reasons are mixed reports nothing: an exhausted stage, or one nobody can do, beside one
  that waits for a busy agent makes the patch invalid, so neither the block nor the wait is emitted
  (`PolicyRefusals.StalledTeamVerdict`).
- A decided idempotency key answers any later candidate with the stored decision, also one with different
  contents, because the decided row is returned before the candidates are compared (kernel.py lines 226-231).
- The table operation `reconcile_model_call` alone does not protect the budget, because it also settles a
  call that was given up: `ModelBudgets.FailedCallCanOverspend`. Exactly which settlements raise a total is
  `ModelBudgets.ReconcileWithinReservation`; the authority's order of steps excludes the bad ones.
- A usage whose total is smaller than its parts is raised without being marked as a fallback
  (`UsagePricing.RaisedTotalPassesAsReported`); `UsagePricing.ReportedUsageIsKept` gives the exact condition.
- No phase of the agent loop may be re-entered, so a loop cut off between entering a phase and the next
  fact refuses to continue that turn. It stays safe: `AgentLoops.AgentLoop.Quarantine` says exactly when
  marking an interrupted operation raises.
- `scope.bound` of a campaign is appended outside the fence. Linked trials still share one scope
  (`CampaignOrder.LinkedTrialsShareTheScope`), because its id is unique and linking reads it back.

## Model

| member | source | states |
|---|---|---|
| Events.Lookup | crazy_harness/control_plane/store.py:770-776 | an event found for an id is in the log and has that id; nothing is found exactly when no event has it |
| Projection.RunVerdictIsFinal | crazy_harness/control_plane/store.py:1072-1143 | whatever follows, a finished run keeps its status, a cancelling run can only become cancelled, and the model budget never changes |
| Projection.ClosedLeaseIsFinal | crazy_harness/control_plane/store.py:1292-1323 | a released or expired lease row never changes again |
| Projection.AssignmentVerdictIsFinal | crazy_harness/control_plane/store.py:1170-1212 | a settled assignment keeps its row unless its id is created anew |
| Projection.OnlyRecoveryRevives | crazy_harness/control_plane/store.py:1250-1290 | a degraded or offline agent stays unavailable until an explicit recovery signal |
| Claims.ClaimIsAllOrNone | crazy_harness/control_plane/store.py:449-521 | a granted bundle is current on every one of its keys and no token of any key ever falls |
| Claims.ReclaimOvertakes | crazy_harness/control_plane/store.py:449-521 | claiming any key of an older bundle overtakes that bundle |
| Claims.OvertakenIsNotCurrent | crazy_harness/control_plane/store.py:625-648 | an overtaken bundle is not current for any owner and any clock |
| Claims.CurrentHolderIsUnique | crazy_harness/control_plane/store.py:625-648 | two bundles current on a key, under any two clocks, are the same claim of it |
| ClaimLaws.ClaimIsRefusedIff | crazy_harness/control_plane/store.py:474-492 | a claim is refused exactly when one of its keys is held by a live claim or its run is barred |
| ClaimLaws.GrantLastsUntilExpiry | crazy_harness/control_plane/store.py:488-521 | a granted claim is current until exactly its expiry, and can be taken by others from exactly then on |
| ClaimLaws.CurrentMeansHeld | crazy_harness/control_plane/store.py:625-648 | a bundle is current exactly when every row is live, owned and at its token |
| ClaimLaws.RenewalExtends | crazy_harness/control_plane/store.py:578-623 | a held bundle is renewed, moving its expiry and nothing else; any other is refused without change |
| ClaimLaws.FinishFreesKeys | crazy_harness/control_plane/store.py:523-576 | the keys of a finished bundle are free at every clock, all other rows stay |
| ClaimLaws.FinishIsRefusedIff | crazy_harness/control_plane/store.py:523-576 | finishing is refused exactly when the bundle is not held, the run is withdrawn, or the final fact clashes with the log |
| ClaimLaws.FailEndsBundle | crazy_harness/control_plane/store.py:668-697 | a failure ends exactly the active claims of the same owner and instant, and counts them |
| ClaimLaws.LiveClaimStands | crazy_harness/control_plane/store.py:449-697 | through any history without a claim after its expiry, a failure or its own holder ending it, a live claim keeps its row and every other claim of the key changes nothing |
| Tables.AppendingKeepsConsistency | crazy_harness/control_plane/store.py:765-789 | one append, new or replayed, keeps the index equal to the fold of the log, ids unique, and only extends the log |
| EventStore.SQLiteEventStore.ProjectEvent | crazy_harness/control_plane/store.py:1072-1250 | updating the four tables row by row, with each status guard, gives the specified projection of the event |
| EventStore.SQLiteEventStore.UpdateRun | crazy_harness/control_plane/store.py:1072-1143 | finds the run row and creates, moves or leaves it by event type; the table is the specified one and nothing else changes |
| EventStore.SQLiteEventStore.UpdateAgent | crazy_harness/control_plane/store.py:1144-1168 | registration and the availability signals reach the agent row by the recovery rule |
| EventStore.SQLiteEventStore.UpdateAssignment | crazy_harness/control_plane/store.py:1170-1212 | creates the row anew, or moves an unsettled one |
| EventStore.SQLiteEventStore.UpdateLease | crazy_harness/control_plane/store.py:1292-1323 | writes the lease row unless it is closed |
| ProjectionLaws.RunTakesEvent | crazy_harness/control_plane/store.py:1072-1143 | a known run counts each of its events and takes the verdict, gate and budget it should, and no other run changes |
| ProjectionLaws.RunPhaseFollows | crazy_harness/control_plane/store.py:1090-1139 | the phase follows the verdict, and is set freely while the run is open |
| ProjectionLaws.BarrierRoundTrip | crazy_harness/control_plane/store.py:1112-1127 | a barrier stands from its acquisition to its own release |
| ProjectionLaws.RunIsBorn | crazy_harness/control_plane/store.py:1072-1090 | only its creation makes a run known |
| ProjectionLaws.RunsCountTheirEvents | crazy_harness/control_plane/store.py:1072-1143 | for every log: the known runs are those created, their count is the number of events since, their cursor the last of them |
| ProjectionLaws.AgentTakesSignal | crazy_harness/control_plane/store.py:1250-1290 | what each signal makes of an agent, by the recovery rule |
| ProjectionLaws.AgentRegisters | crazy_harness/control_plane/store.py:1144-1160 | registering sets abilities and keeps status and mailbox |
| ProjectionLaws.MailboxRoundTrip | crazy_harness/control_plane/store.py:1325-1337 | a delivery sent and acknowledged leaves the mailbox as it was, and its count never goes below zero |
| ProjectionLaws.AssignmentTakesEvent | crazy_harness/control_plane/store.py:1170-1212 | an assignment is created queued as its event says and moves until it is settled |
| ProjectionLaws.LeaseTakesEvent | crazy_harness/control_plane/store.py:1292-1323 | a lease row follows its events while active |
| EventStore.SQLiteEventStore.AppendInTransaction | crazy_harness/control_plane/store.py:765-789 | inserts and projects a new id, replays an equal event, refuses a different one |
| EventStore.SQLiteEventStore.Append | crazy_harness/control_plane/store.py:699-763 | a dispatched append is refused without a current bundle or on a stopped run; otherwise as in a transaction |
| CommitLaws.AppendIsRefusedIff | crazy_harness/control_plane/store.py:699-763 | each refusal exactly when its reason holds on the rows and no earlier one does; refusals change nothing |
| CommitLaws.AppendRecordsOnce | crazy_harness/control_plane/store.py:765-789 | a persisted event is in the log once, at the end if its id is new, with the projections following |
| CommitLaws.FinishRecordsFinal | crazy_harness/control_plane/store.py:523-576 | finishing records its final fact once and moves exactly the rows of the bundle to the final state; a refused finish changes nothing |
| EventStore.SQLiteEventStore.WorkClaimsAreCurrent | crazy_harness/control_plane/store.py:625-648 | true exactly when every key is active, unexpired, owned and at the presented token |
| EventStore.SQLiteEventStore.ClaimWork | crazy_harness/control_plane/store.py:449-521 | refused exactly while some key is under an active claim whose time is not up or the run is under a barrier not yet expired, and then without change; otherwise every key gets its next token and a fresh claim, and no other row changes |
| EventStore.SQLiteEventStore.WriteClaims | crazy_harness/control_plane/store.py:488-521 | the loop over keys leaves exactly the claimed table and returns exactly the granted tokens |
| EventStore.SQLiteEventStore.FinishWorkClaims | crazy_harness/control_plane/store.py:523-576 | a lost fence or an id conflict changes nothing; otherwise the final event is appended and every claim of the bundle ends |
| EventStore.SQLiteEventStore.RenewWorkClaims | crazy_harness/control_plane/store.py:578-623 | extends every claim of a current bundle, or none |
| EventStore.SQLiteEventStore.FailWorkClaimBundle | crazy_harness/control_plane/store.py:668-697 | fails exactly the active claims of the same owner and claim time, when the named key is active, and returns how many that are |
| EventStore.SQLiteEventStore.BeginCommand | crazy_harness/control_plane/store.py:885-897 | opens a processing row exactly when the key is unknown |
| EventStore.SQLiteEventStore.CommitCommand | crazy_harness/control_plane/store.py:906-986 | result and new tables of the commit, with fence, withdrawn run, repeated precondition, id conflict and finalisation checked in order, and rollback on each failure |
| CommitLaws.ListAppendsIff | crazy_harness/control_plane/store.py:945-951 | a list of events can be appended exactly when none clashes with the log or an earlier one, and then the log says what the list says and nothing else |
| CommitLaws.CommitIsRefusedIff | crazy_harness/control_plane/store.py:906-971 | each reason against a commit applies exactly when it holds on the tables and no earlier one does |
| CommitLaws.CommitRecordsDecision | crazy_harness/control_plane/store.py:944-981 | a commit records its events and nothing else, and closes an open row with its decision |
| EventStore.SQLiteEventStore.RebuildProjections | crazy_harness/control_plane/store.py:1057-1070 | rebuilding changes nothing |
| StoreRuns.IndexIsFoldOfLog | crazy_harness/control_plane/store.py:765-789 | after every history of transactions the projections are the fold of the log, so rebuilding is the identity |
| StoreRuns.HistoryIsConsistent | crazy_harness/control_plane/store.py:765-789 | histories from any consistent store stay consistent and only extend the log |
| StoreRuns.HistoryGrowsTokens | crazy_harness/control_plane/store.py:449-648 | over every history the token of every key only grows |
| StoreRuns.ReclaimedBundleIsFencedForever | crazy_harness/control_plane/store.py:449-648 | once any key of a bundle is claimed again, after any further history that bundle can no longer renew, finish, append or commit, whatever clock it brings; each attempt, renewals included, changes nothing and reports the loss |
| StoreRuns.FinalizedCommandIsFinal | crazy_harness/control_plane/store.py:961-985 | a command row that has left processing never changes |
| TeamGraph.CycleDetector.Visit | crazy_harness/core/a2a/orchestration.py:66-76 | the recursive visit terminates; it reports a cycle only when there is one, and otherwise ranks everything it finished |
| TeamGraph.ValidateGraph | crazy_harness/core/a2a/orchestration.py:41-80 | accepts exactly the contracts with distinct stages, known dependencies, agreeing assignment contracts and a rank function |
| TeamGraph.RankExcludesCycles | crazy_harness/core/a2a/orchestration.py:62-79 | a relation with a rank function has no cycle |
| GraphLaws.AcceptedMeansWellFormed | crazy_harness/core/a2a/orchestration.py:41-61 | accepted means at least one stage, distinct ids, known dependencies, agreeing assignment contracts and no cycle |
| GraphLaws.AcceptedHasNoCycle | crazy_harness/core/a2a/orchestration.py:62-79 | no stage of an accepted contract depends on itself, over however many others |
| GraphLaws.CycleOfStages | crazy_harness/core/a2a/orchestration.py:62-79 | the cycle behind a refusal is a cycle of stages of the contract |
| Orchestration.SelectFrom | crazy_harness/core/a2a/orchestration.py:298-321 | the chosen agent is eligible and precedes every other eligible one; none is chosen exactly when none is eligible |
| Orchestration.OrderedIsSorted | crazy_harness/core/a2a/orchestration.py:195-200 | stages are considered in id order, as a permutation of the contract |
| Orchestration.Ready | crazy_harness/core/a2a/orchestration.py:195-209 | exactly the open stages with completed dependencies and attempts left |
| Orchestration.BuildViews | crazy_harness/core/a2a/orchestration.py:336-370 | the loop yields one view per stage, each as specified for its stage |
| Orchestration.SelectAssignments | crazy_harness/core/a2a/orchestration.py:215-247 | the loop with its early break equals considering every ready stage up to the capacity |
| Orchestration.Propose | crazy_harness/core/a2a/orchestration.py:179-296 | computes the specified proposal, or the refusal of the patch's own validator |
| PolicyLaws.ChosenIsBest | crazy_harness/core/a2a/orchestration.py:298-321 | no agent that can take the stage has a smaller load; at equal loads none has fewer surplus capabilities; at both equal none has a smaller id; nobody is chosen exactly when nobody can take it |
| PolicyLaws.SelectionIsBest | crazy_harness/core/a2a/orchestration.py:215-247 | every assignment goes to the best choice at the loads planned by the assignments before it |
| PolicyLaws.LeftOverWasPassedOver | crazy_harness/core/a2a/orchestration.py:215-247 | a ready stage left over was considered after exactly the assignments of smaller ids, and the capacity was used up or nobody could take it |
| PolicyLaws.ReadyMeansOpen | crazy_harness/core/a2a/orchestration.py:195-209 | ready and exhausted stages are the open ones with completed dependencies, with and without attempts left |
| PolicyLaws.TransientMeansProspect | crazy_harness/core/a2a/orchestration.py:323-333 | a stage has a prospect exactly when some idle, busy or waiting agent has its capabilities |
| PolicyLaws.PatchHeader | crazy_harness/core/a2a/orchestration.py:179-194 | a patch is complete exactly when every stage is, and continues revision and contract |
| PolicyLaws.ValidatorAsksFor | crazy_harness/core/a2a/orchestration.py:133-143 | what the patch validator asks for |
| PolicyLaws.ProposalAssigns | crazy_harness/core/a2a/orchestration.py:179-296 | the assignments of a built proposal: within the places left, copied from open stages, to the best choices, and leaving no stage over without cause |
| PolicyLaws.DraftReasons | crazy_harness/core/a2a/orchestration.py:248-273 | a blocked or waiting reason is given exactly when nothing is assigned or running and its cause is there, in order |
| PolicyLaws.DraftShowsStages | crazy_harness/core/a2a/orchestration.py:336-370 | state and agent of every stage shown |
| PolicyFacts.SelectionLoads | crazy_harness/core/a2a/orchestration.py:211-247 | selections fit the remaining capacity, loads count them, and no agent is planned beyond its concurrency |
| PolicyFacts.SelectionOrigin | crazy_harness/core/a2a/orchestration.py:215-247 | every selected proposal is made from a distinct ready stage and an available capable agent |
| PolicyFacts.NoSilentDeadlock | crazy_harness/core/a2a/orchestration.py:195-273 | for an accepted contract with an incomplete stage and none active, some assignment, blocked reason or waiting reason is computed for the draft |
| PolicyFacts.ProposalRefusedIff | crazy_harness/core/a2a/orchestration.py:133-143 | in terms of the finished selection: the draft is refused exactly when work is left, a stage is queued and no waiting reason is set |
| PolicyFacts.ProposalCanBeRefused | crazy_harness/core/a2a/orchestration.py:275-296 | an accepted contract and a context for which the policy's patch is refused |
| PolicyRefusals.UnfilledPass | crazy_harness/core/a2a/orchestration.py:215-247 | after a pass that ends below capacity a ready stage without an assignment is queued exactly when some agent may take it later, and unavailable exactly when none may |
| PolicyRefusals.RefusalNeedsQueue | crazy_harness/core/a2a/orchestration.py:248-296 | a refusal needs work left, a queued stage, and one of: something active, something exhausted, a ready stage some agent can take now, or one nobody may ever take |
| PolicyRefusals.RefusedForBusyStage | crazy_harness/core/a2a/orchestration.py:215-296 | a ready stage reached with capacity surely left, that no agent can take now and some may take later, makes a provoked patch refused |
| PolicyRefusals.RefusedWithoutSpare | crazy_harness/core/a2a/orchestration.py:215-296 | with fewer spare places in the team than slots in the pass, and a prospect for every ready stage, a provoked patch is refused |
| PolicyRefusals.NeverRefused | crazy_harness/core/a2a/orchestration.py:215-296 | the patch is built when every ready stage has an agent with room for the whole pass or no prospect, when no capacity is left, or when nothing keeps the waiting reason unset |
| PolicyRefusals.RefusedWithoutCompetitionIff | crazy_harness/core/a2a/orchestration.py:215-296 | when no agent can fill up during the pass, the refusal holds exactly under a condition on the context as it stands |
| PolicyRefusals.RefusedIfInterchangeableIff | crazy_harness/core/a2a/orchestration.py:215-296 | when every available agent can do every ready stage, the refusal is exactly a comparison of spare places with slots |
| PolicyRefusals.StalledTeamVerdict | crazy_harness/core/a2a/orchestration.py:248-296 | with nothing running and nothing assignable: refused exactly when a waiting stage meets an exhausted or hopeless one; otherwise the patch names exactly the exhausted, the unavailable or the queued stages |
| PolicyRefusals.BuiltPatchAnswers | crazy_harness/core/a2a/orchestration.py:195-296 | for an accepted contract with an incomplete stage and none active, a patch that is built assigns, blocks or waits |
| AdmissionCheck.ValidatePlanPatch | crazy_harness/control_plane/kernel.py:1095-1265 | with its checks in order and its planned-load table it accepts exactly the admissible patches; a reason it gives is true of the patch and the first one in the order of the checks |
| AdmissionCheck.NextAttempt | crazy_harness/control_plane/kernel.py:1198-1207 | one more than the largest recorded attempt of the stage |
| AdmissionCheck.CheckProposals | crazy_harness/control_plane/kernel.py:1181-1247 | the pass over the proposals accepts exactly those that are each sound and together within every agent's concurrency; a refusal is the first fault of the first proposal at fault |
| AdmissionLaws.AdmissibleMeansSound | crazy_harness/control_plane/kernel.py:1095-1265 | the accepted patches, on log, rows and contract alone |
| AdmissionLaws.AdmissibleWithoutContract | crazy_harness/control_plane/kernel.py:1095-1247 | the accepted patches of a run without a contract |
| AdmissionLaws.HeaderMeans | crazy_harness/control_plane/kernel.py:1095-1146 | the patch is unambiguous, continues the revision, shows each stage of the contract once and proposes nothing twice |
| AdmissionLaws.RoomMeans | crazy_harness/control_plane/kernel.py:1162-1174 | completion needs every stage done; leases and assignments fit the parallel limit |
| AdmissionLaws.OpenStageMeans | crazy_harness/control_plane/kernel.py:1184-1230 | the proposed stage is not done and not held, its dependencies are done, the attempt is the next one, and text and view agree |
| AdmissionLaws.FitMeansCanDo | crazy_harness/control_plane/kernel.py:1231-1240 | the agent is registered, available and capable |
| AdmissionLaws.LoadsMean | crazy_harness/control_plane/kernel.py:1241-1247 | no agent gets more than it takes at once, over all runs |
| AdmissionLaws.HonestMeansTrue | crazy_harness/control_plane/kernel.py:1248-1264 | each stage is shown as the rows and the patch have it |
| AdmissionLaws.NextAttemptIs | crazy_harness/control_plane/kernel.py:1198-1207 | the expected attempt is one more than the largest recorded one |
| AdmissionLaws.NextRevisionIs | crazy_harness/control_plane/kernel.py:1101-1109 | the expected revision is one more than the largest recorded one |
| AdmissionLaws.ContractIsOfBirth | crazy_harness/control_plane/kernel.py:1111 | the contract is the one the first creation event of the run carries |
| TeamTheorems.StepKeepsTeamState | crazy_harness/control_plane/kernel.py:1095-1265 | an admitted plan, an accepted leased result and every other event keep capacity, exclusivity, links and dependencies |
| TeamTheorems.TeamRunsAreSafe | crazy_harness/control_plane/kernel.py:1147-1247 | every log reached by such steps satisfies the whole invariant |
| TeamTheorems.ReachedLogRespectsLimits | crazy_harness/control_plane/kernel.py:1147-1247 | per run at most the parallel limit of active leases, per agent over all runs at most its concurrency, one occupant per stage, no stage both active and completed |
| TeamTheorems.TransitiveDependenciesComplete | crazy_harness/control_plane/kernel.py:1190-1197 | below an active or completed stage every transitive dependency is completed |
| TeamTheorems.ResultKeepsInvariant | crazy_harness/control_plane/kernel.py:461-488 | an accepted result succeeds its assignment, releases its lease and keeps the invariant |
| ContextReader.ReadContext | crazy_harness/control_plane/runtime.py:3010-3089 | the context describes the run rows of the first snapshot, the agents and loads of the second and the revisions of the log read last; if the snapshots are equal it describes that state |
| ContextReader.ReadAttempts | crazy_harness/control_plane/runtime.py:3034-3041 | per stage the largest attempt of the run |
| ContextReader.ReadLoads | crazy_harness/control_plane/runtime.py:3043-3047 | per agent the number of active leases over all runs |
| ContextReader.ReadActiveAgents | crazy_harness/control_plane/runtime.py:3048-3051 | exactly the actively leased stages, each with a holder |
| ContextReader.ReadCards | crazy_harness/control_plane/runtime.py:3053-3061 | exactly one card per registered agent with its capabilities and concurrency |
| ContextReader.ReadRevision | crazy_harness/control_plane/runtime.py:3071-3075 | the latest plan revision of the run |
| Agreement.SupervisorAndKernelAgree | crazy_harness/control_plane/kernel.py:1095-1265 | a patch the policy builds from a state and its own validator passes is admissible against that state |
| PolicyRuns.ReachedSupervisorAndKernelAgree | crazy_harness/core/a2a/orchestration.py:179-296 | that agreement in every state reached by runs whose plans come from the policy, however stale their contexts |
| PolicyRuns.RunCreatesBoundedAssignments | crazy_harness/control_plane/kernel.py:1198-1207 | such a run creates at most stages times allowed attempts assignments |
| TeamCommits.PlanCommitIsTeamStep | crazy_harness/control_plane/kernel.py:295-318 | committing an accepted plan through the ledger appends exactly that plan's events and is an enabled team-run step |
| TeamCommits.ResultCommitIsTeamStep | crazy_harness/control_plane/kernel.py:461-488 | committing an accepted leased result through the ledger appends exactly that result's events and is an enabled team-run step |
| Ledger.CommitDecides | crazy_harness/control_plane/store.py:906-986 | committing a verdict decides a processing row with exactly its events, and changes nothing on a decided row |
| Ledger.LedgerMatchesLog | crazy_harness/control_plane/kernel.py:226-343 | over all crashes and races the log holds acceptance and formal facts exactly when the row is accepted, rejection facts exactly when rejected, none while processing, and every answer given is the row's decision |
| Ledger.DecisionIsFinal | crazy_harness/control_plane/store.py:961-985 | a decided row and its recorded facts never change |
| Ledger.LateCommitChangesNothing | crazy_harness/control_plane/store.py:961-985 | a racing commit after the decision leaves the whole store unchanged |
| Ledger.LaterSubmitReusesDecision | crazy_harness/control_plane/kernel.py:226-231 | a later submission reads back the stored decision and changes nothing |
| ControlKernel.Kernel.Submit | crazy_harness/control_plane/kernel.py:226-318 | every outcome keeps ledger and log matched; an answer is the stored decision, marked reused exactly when it was there before and recovered exactly when the row was; a conflict is raised exactly for another candidate, a refusal or crash exactly where the store refuses or a fault is injected, and otherwise the announced candidate gets its verdict |
| ControlKernel.Kernel.Decide | crazy_harness/control_plane/kernel.py:275-318 | accepted exactly when both validations pass, otherwise rejected for the reason of the first that fails, and recorded as such; any other outcome changes nothing |
| ControlKernel.Kernel.CommitRejection | crazy_harness/control_plane/kernel.py:320-343 | commits a rejection with its reason or changes nothing |
| ControlKernel.SubmissionIsARun | crazy_harness/control_plane/kernel.py:226-343 | an undisturbed submission is a run of the steps that racing submitters take, ending in the same tables and the same answer |
| CausalChains.CausalChainReachesSeed | crazy_harness/control_plane/kernel.py:852-880 | terminates and is true exactly when strictly earlier causes lead to the seed or a trusted observation; the visited set never decides |
| CausalChains.ChainsDescend | crazy_harness/control_plane/kernel.py:871-878 | log positions strictly fall along a chain, so it never meets an event twice |
| CausalLaws.ReachingMeansCausalPath | crazy_harness/control_plane/kernel.py:852-880 | the walk succeeds exactly when earlier causes of the same run and task lead to the seed or to a bridged peer response |
| CampaignFacts.ReadProgress | crazy_harness/control_plane/eval_campaigns.py:521-565 | the trial tables of the campaign's events |
| CampaignFacts.ChooseStep | crazy_harness/control_plane/eval_campaigns.py:563-776 | the scans over the trials choose the specified step |
| CampaignLaws.ChosenStepIs | crazy_harness/control_plane/eval_campaigns.py:563-776 | the first linked trial not released, else the first finished one not observed, else the first started one without a pair, else the first unstarted one while the limit leaves room |
| CampaignLaws.NothingIsChosenIff | crazy_harness/control_plane/eval_campaigns.py:563-776 | nothing is chosen exactly when none of these applies |
| CampaignLaws.QuietCampaignIsSettled | crazy_harness/control_plane/eval_campaigns.py:563-776 | no deadlock: when all linked pairs have finished and nothing applies, every trial is settled |
| CampaignLaws.TablesTellTheLog | crazy_harness/control_plane/eval_campaigns.py:521-565 | a trial is in a table exactly when the log holds the fact for it |
| CampaignFacts.FollowingKeepsProgress | crazy_harness/control_plane/eval_campaigns.py:563-776 | every fact a step ends in keeps trials ordered, at most one unlinked, unsettled ones within the limit, and retries bounded |
| CampaignFacts.FollowingIsNews | crazy_harness/control_plane/eval_campaigns.py:563-776 | the fact is about a planned trial and not yet in the tables |
| CampaignFacts.SettledIsQuiet | crazy_harness/control_plane/eval_campaigns.py:563-776 | once every trial is observed or failed no trial fact can follow |
| CampaignFacts.CountedIsSettled | crazy_harness/control_plane/eval_campaigns.py:331-338 | the completed count reaches the planned count exactly when every trial is settled |
| EvalCampaigns.EvalCampaignService.AdvanceOne | crazy_harness/control_plane/eval_campaigns.py:499-784 | moves the tables by exactly the next boundary, with the trial and the outcome it calls for, under a fresh token; with the key claimed, does nothing exactly when the campaign has ended or nothing applies, and raises exactly when the release it is due does; however it ends, the key is free at its finish, and a busy key leaves the store as it was |
| EvalCampaigns.EvalCampaignService.AdvanceClaimed | crazy_harness/control_plane/eval_campaigns.py:516-784 | the same with the claim held, which ends as released, as failed when a creation was given up, or as completed |
| EvalCampaigns.EvalCampaignService.CreatePair | crazy_harness/control_plane/eval_campaigns.py:640-733 | a created pair of the bound scope is linked, any other is given up, a retryable failure is retried until the third |
| EvalCampaigns.EvalCampaignService.FactOf | crazy_harness/control_plane/eval_campaigns.py:569-733 | the fact follows from the chosen step and its callouts; a link only on the scope that is bound |
| EvalCampaigns.EvalCampaignService.BindOrValidateScope | crazy_harness/control_plane/eval_campaigns.py:926-949 | true exactly when this scope is the campaign's bound scope afterwards; a different one changes nothing |
| EvalCampaigns.EvalCampaignService.CommitTrialFact | crazy_harness/control_plane/eval_campaigns.py:573-589 | commits the fact as news under the claim and ends the claim accordingly, or appends nothing because the claim is lost |
| EvalCampaigns.EvalCampaignService.Finalize | crazy_harness/control_plane/eval_campaigns.py:356-464 | completes an open campaign whose trials are all settled; every other result appends nothing and is reported truly; the key is free at its finish |
| EvalCampaigns.EvalCampaignService.Cancel | crazy_harness/control_plane/eval_campaigns.py:786-876 | asks for the cancellation of the pair of every started trial, in contract order, before it cancels an open campaign, and fences off every earlier holder of both keys; every other result appends nothing, and says which pairs were asked; both keys are free at its finish |
| EvalCampaigns.EvalCampaignService.CancelPairs | crazy_harness/control_plane/eval_campaigns.py:827-838 | calls back for the started trials in order, up to the first that raises |
| CampaignTheorems.StepKeepsWorld | crazy_harness/control_plane/eval_campaigns.py:499-784 | every step of advancers, finalisers, cancellers and other components keeps the campaign invariant |
| CampaignTheorems.CampaignEndsAtMostOnce | crazy_harness/control_plane/eval_campaigns.py:356-464 | in every reachable log at most one event completes or cancels the campaign |
| CampaignTheorems.NothingFollowsTheEnd | crazy_harness/control_plane/eval_campaigns.py:786-876 | after the end no commit succeeds and no trial event is added |
| CampaignTheorems.CampaignRespectsBounds | crazy_harness/control_plane/eval_campaigns.py:533-784 | unsettled trials within the parallel limit, at most one unlinked, at most two retryable failures a trial, observed and failed disjoint, completed only when all are settled |
| CampaignTheorems.AdvancesAreBounded | crazy_harness/control_plane/eval_campaigns.py:499-784 | each successful advance adds one new trial event, at most six a trial |
| CampaignOrder.DurableOrder | crazy_harness/control_plane/paired_evals.py:498-525 | for every observed trial: pair committed, then linked, then both arms released, then trial released, then observed, and its pair was completed before |
| CampaignOrder.ArmFollowsLink | crazy_harness/control_plane/paired_evals.py:511-523 | an arm of a campaign-linked pair is released only after the parent's link |
| CampaignOrder.LinkFollowsCommit | crazy_harness/control_plane/eval_campaigns.py:636-663 | a link comes after its pair's request and commit and after the scope it names |
| CampaignOrder.LinkedTrialsShareTheScope | crazy_harness/control_plane/eval_campaigns.py:926-949 | all linked trials carry the same scope fingerprint |
| ModelBudgets.ModelCallTable.Status | crazy_harness/control_plane/store.py:401-447 | one pass gives the run's active calls, committed tokens and committed cost |
| ModelBudgets.ModelCallTable.ReserveModelCall | crazy_harness/control_plane/store.py:158-238 | result and table, with every refusal in order and without change; a grant appends one row that records exactly what was asked for |
| ModelBudgets.ModelCallTable.StartModelCallAttempt | crazy_harness/control_plane/store.py:240-260 | starts a reserved or running call and counts the attempt, refuses any other |
| ModelBudgets.ModelCallTable.FailModelCall | crazy_harness/control_plane/store.py:262-290 | fails or quarantines a call that is not completed |
| ModelBudgets.ModelCallTable.RecoverStaleModelCalls | crazy_harness/control_plane/store.py:292-324 | old reservations fail, old attempts become unknown, nothing else changes, and both are counted |
| ModelBudgets.ModelCallTable.ReconcileModelCall | crazy_harness/control_plane/store.py:326-375 | charges an open call once, replays the same completion, refuses another |
| ModelBudgets.TotalOfUpdate | crazy_harness/control_plane/store.py:401-447 | rewriting one row moves each total by exactly that row's change |
| ModelLaws.RowsWeigh | crazy_harness/control_plane/store.py:401-447 | an open call weighs its reservation, a completed one its charge, a failed one nothing |
| ModelLaws.ReservationIsRefusedIff | crazy_harness/control_plane/store.py:176-205 | each refusal exactly when its reason is the first that holds |
| ModelLaws.ReservationCharges | crazy_harness/control_plane/store.py:158-238 | a granted reservation raises calls, tokens and cost of its run by what was asked for, within the limits, and no other run's |
| ModelLaws.OpenReservationsShareTheLimit | crazy_harness/control_plane/store.py:190-205 | nothing is granted that does not fit beside what an open call reserved |
| ModelLaws.NeverBothGranted | crazy_harness/control_plane/store.py:190-205 | two reservations together above the limit are never both granted while the first is open |
| ModelLaws.AttemptStarts | crazy_harness/control_plane/store.py:240-260 | exactly waiting and running calls start an attempt |
| ModelLaws.FailureMarks | crazy_harness/control_plane/store.py:262-290 | a known failure is final, an uncertain one unknown, a completed call stays |
| ModelLaws.FailureReleases | crazy_harness/control_plane/store.py:262-290 | a failed call gives back what it reserved, one of unknown outcome keeps it |
| ModelLaws.SettlementRecords | crazy_harness/control_plane/store.py:326-375 | a settlement completes a call and records its charge once |
| ModelLaws.SweepGivesUp | crazy_harness/control_plane/store.py:292-324 | exactly the run's untouched calls are given up |
| ModelBudgets.ReconcileWithinReservation | crazy_harness/control_plane/store.py:326-375 | settling within the reservation raises no total exactly when the call was not failed or the settlement is empty |
| ModelBudgets.FailedCallCanOverspend | crazy_harness/control_plane/store.py:326-375 | the table operations alone can exceed the token limit through a failed call |
| ModelAuthority.StepKeepsOwners | crazy_harness/control_plane/model_governance.py:104-350 | each authority step keeps every call in a state its owner's phase allows; a durable response never meets a failed call |
| ModelAuthority.BudgetIsNeverExceeded | crazy_harness/control_plane/model_governance.py:160-350 | over all concurrent histories active calls, tokens and cost stay within the run's limits while settlements stay within reservations |
| ModelAuthority.CompletedIsChargedOnce | crazy_harness/control_plane/store.py:342-375 | a completed call never changes again, with no assumption on settlements |
| ModelAuthority.RespondedCallIsCharged | crazy_harness/control_plane/model_governance.py:314-350 | reconciling a durable response leaves its call completed and charged for exactly that response, tokens and cost |
| ModelCompletion.PersistentModelCallAuthority.Complete | crazy_harness/control_plane/model_governance.py:160-312 | stale recovery, reservation, audits and bounded retries, also when another process's recovery takes the call away between or during attempts; its outcome and the row it leaves, case by case |
| ModelCompletion.PersistentModelCallAuthority.TryAttempts | crazy_harness/control_plane/model_governance.py:247-312 | the retry loop stops at the first attempt that responds, fails finally, cannot be audited or finds the call taken away |
| ModelCompletion.PersistentModelCallAuthority.RecoverUnresolved | crazy_harness/control_plane/model_governance.py:104-158 | an unsent call is failed and may be retried, any other ends inactive and must not be resampled |
| ModelCompletion.PersistentModelCallAuthority.ReconcileResponse | crazy_harness/control_plane/model_governance.py:314-350 | charges the priced, normalised usage once; replays change nothing |
| ModelCompletion.ResponseFollowsRetryableFailures | crazy_harness/control_plane/model_governance.py:247-312 | a response comes within the allowed attempts and only after retryable failures |
| ModelLaws.CompletionTellsWhy | crazy_harness/control_plane/model_governance.py:247-312 | the loop ends at the first attempt that does not go on, for the reason it reports |
| ModelLaws.RecoveryTells | crazy_harness/control_plane/model_governance.py:104-158 | after a crash exactly a call that was never sent may be tried again |
| UsagePricing.NormalizedUsageIsConsistent | crazy_harness/control_plane/model_governance.py:393-440 | hits and misses add up to the prompt, the total covers prompt and completion, nothing reported is lowered |
| UsagePricing.ReportedIff | crazy_harness/control_plane/model_governance.py:399-440 | a usage is marked as reported exactly when every field is usable and hits and misses add up to the prompt |
| UsagePricing.ReportedUsageIsKept | crazy_harness/control_plane/model_governance.py:399-440 | such a usage keeps every part; its total is kept exactly when it covers prompt and completion, and is otherwise raised to their sum |
| UsagePricing.RaisedTotalPassesAsReported | crazy_harness/control_plane/model_governance.py:419-440 | an input whose total is raised while the usage is still marked as reported |
| UsagePricing.InconsistentSplitIsChargedInFull | crazy_harness/control_plane/model_governance.py:414-418 | a malformed cache split never turns misses into hits |
| UsagePricing.CeilMicrousd | crazy_harness/control_plane/model_governance.py:474-475 | the least whole micro-dollar amount covering the price |
| UsagePricing.ActualIsWithinEstimate | crazy_harness/control_plane/model_governance.py:39-60 | usage within the reserved tokens never costs more than the reserved cost |
| UsagePricing.MissingUsageSettlesTheReservation | crazy_harness/control_plane/model_governance.py:314-350 | without any usage the settlement equals the reservation in tokens and cost |
| UsagePricing.SettlementWithinReservation | crazy_harness/control_plane/model_governance.py:314-350 | usage that fits the reserved tokens settles within the reservation |
| ModelLaws.UsageIsAssumedPessimistically | crazy_harness/control_plane/model_governance.py:393-440 | what every field of the normalised usage is |
| ModelLaws.CostCoversUsage | crazy_harness/control_plane/model_governance.py:39-60 | hits, misses and output are charged at their own prices, rounded up once |
| ModelLaws.EstimateCoversMisses | crazy_harness/control_plane/model_governance.py:39-48 | a reservation is priced as if nothing were cached |
| ModelLaws.PriceList | crazy_harness/control_plane/model_governance.py:63-80 | the price list |
| LoopFacts.FactKeepsLoop | crazy_harness/core/agents/state.py:18-32 | any fact appended under its phase keeps one response, one command and one operation a turn, provenance and the limits |
| LoopFacts.EnteredPhaseIsFresh | crazy_harness/core/agents/loop.py:510-518 | on entering a phase what it is for has not happened yet in that turn |
| LoopFacts.TurnsGoForward | crazy_harness/core/agents/state.py:18-32 | a turn goes phase by phase forward or fails; only a finished wait leads back |
| LoopFacts.ToolIsCalledAtMostOnce | crazy_harness/core/agents/loop.py:374-422 | no turn has two tool calls, and each follows its own durable start |
| AgentLoops.AgentLoop.Append | crazy_harness/core/agents/loop.py:1080-1095 | appends one permitted fact or is cut off without a trace |
| AgentLoops.AgentLoop.EnterPhase | crazy_harness/core/agents/loop.py:510-518 | raises exactly on a transition the table does not allow |
| AgentLoops.AgentLoop.WaitsActively | crazy_harness/core/agents/loop.py:1018-1041 | true exactly while the latest wait is unanswered |
| AgentLoops.AgentLoop.UnresolvedOperation | crazy_harness/core/agents/loop.py:994-1008 | the latest started operation that is not completed, marked unknown or reconciled, if there is one |
| AgentLoops.AgentLoop.NextTurn | crazy_harness/core/agents/loop.py:1048-1053 | one more than the largest turn mentioned, or one |
| AgentLoops.AgentLoop.RecoverableTurn | crazy_harness/core/agents/loop.py:973-992 | the highest-numbered turn that asked the model and has none of the results a turn can have, each named |
| AgentLoops.AgentLoop.Sample | crazy_harness/core/agents/loop.py:150-231 | in a new turn: its phase, its manifests, the request before the model is asked and the response before it is used, each in the log, or a prefix of them if the process is cut off |
| AgentLoops.AgentLoop.ObtainResponse | crazy_harness/core/agents/loop.py:127-241 | reuses the durable response exactly when the highest unfinished turn has one; raises without sampling when that turn asked and may have been answered; otherwise samples in a new turn |
| AgentLoops.AgentLoop.Decide | crazy_harness/core/agents/loop.py:243-300 | only a complete, parsed response becomes the turn's one command; reuse of a response or a command is noted once |
| AgentLoops.AgentLoop.Authorize | crazy_harness/core/agents/loop.py:302-353 | lets a tool through exactly if it exists, is disclosed to the turn and the durable starts leave budget; otherwise ends the turn denied |
| LoopLaws.ToolIsLetThroughIff | crazy_harness/core/agents/loop.py:302-353 | a tool may be called exactly if it is registered, the last manifest of the turn does not conceal it, and fewer operations were started than the budget allows |
| AgentLoops.AgentLoop.StartOperation | crazy_harness/core/agents/loop.py:383-413 | the start of an operation with an id never used before, and then the request, are in the log before the tool is called |
| AgentLoops.AgentLoop.ExecuteTool | crazy_harness/core/agents/loop.py:383-422 | calls the tool at most once, after its start is durable, and records the result |
| AgentLoops.AgentLoop.Record | crazy_harness/core/agents/loop.py:424-508 | records exactly the facts of its action and gate; cut off, a prefix of them |
| AgentLoops.AgentLoop.Conclude | crazy_harness/core/agents/loop.py:437-508 | records exactly the facts an allowed action leads to; cut off, a prefix of them |
| AgentLoops.TrailBlocks | crazy_harness/core/agents/loop.py:424-508 | an action without a tool blocks the log exactly when it hands over and is allowed, or when its gate has no nudge left |
| LoopLaws.TrailTells | crazy_harness/core/agents/loop.py:419-508 | the gate is asked exactly by a stop or a submission; refused, it leaves a nudge while that kind has one left and a stopped agent afterwards; otherwise the last fact is the one the action names |
| AgentLoops.AgentLoop.CompletionAllows | crazy_harness/core/agents/loop.py:602-687 | passes, earns a nudge exactly while its kind has one left, or stops the agent |
| AgentLoops.AgentLoop.Quarantine | crazy_harness/core/agents/loop.py:111-125 | marks the operation unknown, or raises exactly when the recording phase may not be entered |
| AgentLoops.AgentLoop.RunOnce | crazy_harness/core/agents/loop.py:98-356 | keeps the invariant on every exit, calls at most one tool, leaves a blocked log alone; when it returns normally it has quarantined the latest dangling operation or taken the interrupted or a new turn fact by fact to its result, and left nothing open that was not; on a log where everything is finished it samples in a new turn and raises no illegal transition |
| AgentLoops.AgentLoop.Act | crazy_harness/core/agents/loop.py:374-508 | an allowed action that returns has given its turn a result and completed what it started |
| AgentLoops.AgentLoop.Settle | crazy_harness/core/agents/loop.py:243-356 | from a durable response to the result of its turn |
| AgentLoops.RecoverableMeansUnfinished | crazy_harness/core/agents/loop.py:973-992 | a turn is recoverable exactly when it asked the model and has no result |
| AgentLoops.SettledMeansOver | crazy_harness/core/agents/loop.py:994-1008 | an operation dangles exactly when it is started and not over |
| AgentLoops.BlockedMeansHeldUp | crazy_harness/core/agents/loop.py:1010-1046 | blocked exactly when stopped, submitted or failed, when an unknown outcome is not reconciled, or when the latest wait is unanswered |
| AgentLoops.AgentLoop.RunUntilStop | crazy_harness/core/agents/loop.py:358-372 | stops blocked or after progress at every step; started on a finished log, it leaves one and raises no illegal transition |
| AgentLoops.AgentLoop.Live | crazy_harness/core/agents/loop.py:98-372 | over any restarts and arrivals no turn's tool is called twice, each call follows its start, starts stay within the tool budget and nudges within theirs; every arrival is logged and no restart logs more than its appends |
| Scheduler.ResidentScheduler.Register | crazy_harness/control_plane/runtime.py:156-168 | adds a new worker with positive concurrency, refuses any other |
| Scheduler.ResidentScheduler.WorkerInFlight | crazy_harness/control_plane/runtime.py:934-935 | counts the worker's reservations |
| Scheduler.ResidentScheduler.ClaimSlot | crazy_harness/control_plane/runtime.py:686-706 | claims the bundle of the first free slot, each slot tried at its own time, exactly when there is one |
| Scheduler.ResidentScheduler.ReserveFor | crazy_harness/control_plane/runtime.py:674-719 | reserves the first servable delivery of the worker exactly when there is one |
| Scheduler.ResidentScheduler.ReserveNext | crazy_harness/control_plane/runtime.py:648-731 | serves the nearest worker from the cursor that can be served with what it reads when its turn comes, moves the cursor past it, and keeps every capacity |
| SchedulerLaws.NearestIsFirstInTurn | crazy_harness/control_plane/runtime.py:668-722 | the worker served is the first in turn from the cursor that can be served |
| SchedulerLaws.ReservableMeans | crazy_harness/control_plane/runtime.py:668-706 | a worker can be served exactly when it has a place left and a wanted delivery of a run that goes on, not in work here, with one of its slots free |
| SchedulerLaws.FreeSlotMeans | crazy_harness/control_plane/runtime.py:686-706 | a slot is free exactly when delivery, agent run and slot are under no live claim and the run is not barred |
| SchedulerLaws.ServedMeans | crazy_harness/control_plane/runtime.py:674-722 | the first such delivery under the first free slot, with exactly its three keys claimed from then on |
| SchedulerLaws.CursorMovesOn | crazy_harness/control_plane/runtime.py:718 | the next reservation starts with the worker after the one served |
| Scheduler.ResidentScheduler.ReleaseReservation | crazy_harness/control_plane/runtime.py:987-997 | removes one reservation and counts the step |
| Scheduler.ResidentScheduler.DispatchAvailable | crazy_harness/control_plane/runtime.py:340-376 | fills the pool until it is full or nobody can be served, reading mailboxes and clocks anew for each reservation; does nothing while not accepting |
| Scheduler.ReservationsAreExclusive | crazy_harness/control_plane/runtime.py:899-932 | across schedulers one delivery, one agent run and one worker slot are each held by one claim at a time |
| Scheduler.PassedOverComesNearer | crazy_harness/control_plane/runtime.py:668-722 | a worker that is passed over is strictly nearer to the cursor afterwards |
| Scheduler.ServedWithinOnePass | crazy_harness/control_plane/runtime.py:668-722 | over consecutive reservations, whatever the store, mailboxes and clocks become in between, a worker that is reservable at each of them is reserved within one pass |
| Scheduler.ResidentScheduler.ReserveRounds | crazy_harness/control_plane/runtime.py:648-731 | a run of reservations with releases in between is such a sequence, so it is fair; what is released before a reservation is no longer in flight then |
| Scheduler.ResidentScheduler.CancelRun | crazy_harness/control_plane/runtime.py:231-262 | cancels exactly the run's reservations in flight, counts them and keeps the run from being reserved |
| SchedulerLaws.CancelMarksTheRun | crazy_harness/control_plane/runtime.py:231-250 | exactly the run's reservations are marked |
| Scheduler.ClaimedSlotIsHeld | crazy_harness/control_plane/runtime.py:686-706 | a claimed slot is a current bundle on delivery, agent run and worker slot |
| LocalPlans.ReducePlan | crazy_harness/core/agents/planning.py:81-95 | the loop is the fold of the events, stopping at the first refused one |
| PlanLaws.PayloadIsValidIff | crazy_harness/core/agents/planning.py:47-62 | which payloads are valid |
| PlanLaws.PlanIsCreatedOnce | crazy_harness/core/agents/planning.py:81-99 | a plan is created once, first, with every step pending |
| PlanLaws.RevisionLists | crazy_harness/core/agents/planning.py:102-128 | requested steps in order with their history under the new description, then the others in order, given up |
| PlanLaws.StepEventMoves | crazy_harness/core/agents/planning.py:131-162 | a step event moves exactly its step to the state its kind leads to, or is refused |
| PlanLaws.UnknownStepIsRefused | crazy_harness/core/agents/planning.py:131-134 | an unknown step is refused |
| PlanLaws.EvidenceIsFirstOccurrences | crazy_harness/core/agents/planning.py:146 | merged evidence holds each reference once, where it first came up |
| PlanLaws.FirstRefusalDecides | crazy_harness/core/agents/planning.py:81-95 | a history is refused with the first event that cannot be taken |
| LocalPlans.Revise | crazy_harness/core/agents/planning.py:102-128 | popping requested steps and retiring the rest gives the specified revision |
| LocalPlans.ApplyStepEvent | crazy_harness/core/agents/planning.py:131-162 | finds the step and moves it, or refuses |
| LocalPlans.VersionCountsRevisions | crazy_harness/core/agents/planning.py:81-128 | the version is one plus the number of revisions and step ids stay unique |
| LocalPlans.HistoryAdvances | crazy_harness/core/agents/planning.py:81-162 | between any two points of an accepted history no step disappears, evidence is only extended, and a step given up stays given up |
| LocalPlans.InactiveStepIsNotRevived | crazy_harness/core/agents/planning.py:137-147 | no accepted event starts or completes a cancelled or superseded step |

## Left out

- HTTP API, streaming, command line, front end and view models.
- SQLite, JSON encoding, hashing and UUID generation, beyond atomic transactions, identity and injectivity.
- Threads, heartbeat and renewer timers, sleeps and condition variables; renewals and expiries happen as ordinary transactions at arbitrary times.
- The projections for context, capability manifests, memory, evolution and dreams, and the `updated_seq` column; they feed no decision modelled here.
- Model providers, HTTP error classes and transports; a transport answers, or fails with a retryable and an uncertain flag.
- `_validate` of commands other than plan patches and leased results: missing fields, actors, peer budgets, evidence and provenance checks. In the ledger a validation is an arbitrary function of the store, so its result there does not depend on them.
- Plan patches for runs without a persisted contract: the kernel's checks cover them (`AdmissionCheck.ValidatePlanPatch`), the team-run theorems start from a persisted contract.
- A context mixed from different states may make the kernel refuse the policy's patch; agreement is claimed for a context of one state. The safety theorems hold for plans built from any context.
- ProposalRefusedIff: its condition is on the finished selection; the conditions on contract and context are in `PolicyRefusals`. Among agents of different skills that fill up during a pass these bound the refusal from both sides, and only the greedy pass itself decides it.
- Events appended outside the kernel keep a lease's stage and agent, keep a registered agent's concurrency and create no staged assignment; this is what the runtime does and is stated as `TeamRuns.RuntimeMayAppend`, not derived from its code.
- The tool pipeline and its operation ledger in the agent loop; the direct tool path is modelled. Prompt, context and capability assembly, completion-gate findings and artifact storage are arbitrary results.
- Events that arrive in the agent's log while a single run is between two appends; they arrive between runs.
- Progress of agent-loop recovery at arbitrary cut-off points: `_phase` refuses to re-enter a phase, so only safety is claimed.
- Campaign and pair creation, scoring, aggregation and recommendation content; what cancelling a pair does to the pair; pre-claim reads of `finalize` and `cancel`, which only return early. In `EvalCampaigns` the callouts of one call are given answers; what they write is in the steps of `CampaignRuns`.
- `PairedEvalService.create` as code: its request, commit and arm releases are steps guarded by what it checks; `eval.pair.failed` and arm preparation are not modelled.
- `fail_work_claim_bundle` when one owner makes two bundles at the same instant fails both, as the code does; nothing more is claimed about it.
- Decimal precision beyond integers: prices are exact integers in micro-dollars per million tokens.
- The in-memory coordinator, bus, review gate, reference implementations and spike scripts.
