# Octomynd Maestro, modelled and verified

This project models the parts of Maestro in which state lives across calls, and proves what those
parts are for. Each source component is a Dafny module or a small group of modules.

* **Feature Plan queue** (`src/db.ts`). Plans move through eight statuses under a transition table;
  a project has one writer lease; dependencies are guarded by a breadth-first cycle search; a plan
  whose Feature has merged is completed lazily, inside reads; creations and replans carry
  idempotency keys; an integration freezes its plan. `PlanTables` holds the tables and the reading
  rules, `PlanSpec` every operation as a function from tables to tables, `PlanQueue` the database
  object whose methods are proved to do exactly that. `PlanInvariants` and `PlanOperations` state
  and prove the invariant, `PlanEligibility`, `PlanRuns`, `PlanSafety`, `PlanEvidence` and
  `PlanProgress` what holds over whole runs, and `PlanWitnesses` what can go wrong. `PlanLaws`,
  `PlanEffects`, `PlanRequests` and `PlanRefusals` say what the operations do in terms of requests,
  statuses, rows and audit rows only. A run starts from empty tables and may contain, in any order,
  every plan operation, reads that reconcile, new and deleted tasks, and Features that become merged
  or stop being so. `DependencyGraph` is the graph behind the cycle search.
* **Completion-review outbox** (`src/db.ts`). Rows claimed under expiring leases, finished by the
  holder, retried. `ReviewOutbox` has the rows, the trace of what happened to them, and the class;
  `ReviewCalls` what each call promises its caller.
* **Routing policy and provider registry** (`src/agents/policy.ts`, `policy-persistence.ts`,
  `registry.ts`). `RoutingPolicy` has the order and the persisted rewrites, and `RoutingLaws` what
  they mean; `ProviderRegistry`, `RegistryLaws` and `RegistryCapacity` the leases, with each
  `acquire` split at the point where it awaits the provider's health, so that any other call may
  happen in between. As in the source, the second half looks at health and capacity only: a cooldown
  or a disconnection that began meanwhile does not stop the grant. `RegistryWitnesses` has the runs
  that show it.
* **Chat fallback** (`src/chat/agent-loop.ts`, `src/chat/service.ts`). `ChatFallback` has the agent
  loop, and the fallback over providers around it, on the automatic path; `ChatTools` what the six
  tools do and report, `ChatEffects` which calls another provider can follow, and `ChatCancellation`
  what cancelling does: every look at the cancel signal is an event of the turn. Providers, what
  happens under a tool, and the cancel signal are arbitrary functions of the attempt and the
  iteration.
* **Process output** (`src/agents/process.ts`). `OutputCapture` and `OutputLaws` have what is kept
  of a child's output and what stops it; `JsonScanner` and `JsonExactness` the search for JSON
  objects in it.

Operations of the synchronous database are single steps. Texts that the source trims are taken to be
trimmed already. `dafny verify dfyconfig.toml` checks everything.

## What is false of the code, and exactly when it holds

* `updateFeaturePlanQueueStatus` takes a queued plan to admitted without the eligibility check, and
  `src/features/integration.ts:55-57` calls it that way. The writer lease is therefore exclusive in
  a run if and only if no such write happens while another plan of the project holds the lease
  (`PlanSafety.LeaseIsExclusiveIff`); `PlanWitnesses.BargingBreaksTheLease` is a run in which it
  happens.
* The same write ignores dependencies. A plan in progress depends on an uncompleted plan only
  through a dependency that was added after its last admission, throughout a run, if and only if no
  such write of the run admits a plan with an uncompleted dependency (`PlanEvidence.WarrantIff`);
  `PlanWitnesses.DirectAdmissionRunsAhead` is a run that does.
* `createFeaturePlanIntegration` stores the revision its caller passes. It agrees with the plan's
  revision in every later state if and only if it did when it was written
  (`PlanRuns.CheckpointRevisionAgreement`); in `PlanWitnesses.StaleCheckpoint` it never does.
* A repeated creation validates its tasks before it looks at its key, so it returns its plan if and
  only if the tasks still exist in the project (`PlanSafety.RepeatedCreateReads`). They need not: a
  plan can be replanned without a task, which can then be deleted
  (`PlanWitnesses.RepeatedCreationCanFail`).
* A suspended `acquire` re-checks capacity against the limit it captured. No provider ever has more
  leases than its limit if and only if no resumed acquire finds its provider ready and full but
  below that captured limit (`RegistryCapacity.CapacityIff`). Runs that never lower a limit under a
  suspended acquire are of that kind, in particular all runs with fixed limits or limits of one;
  `RegistryWitnesses.SqueezingExceedsTheLimit` is one that is not.
* A cooldown stops acquires that look for a provider (`ProviderRegistry.CooldownHolds`). It stops
  neither the grant to an acquire that already waits for that provider nor an acquire of that one
  provider (`ProviderRegistry.CooldownStopsNeither`); `RegistryWitnesses.CoolingProviderIsGranted`
  is a run with both.
* A release cuts a running cooldown of a provider short if and only if it is a retryable one of that
  provider that asks for an earlier end (`ProviderRegistry.ReleaseCooldownIff`,
  `RegistryWitnesses.CooldownIsCutShort`). The first second cannot be cut short by any
  (`ProviderRegistry.CooldownLastsASecond`).
* Pausing a provider also forgets that a capability required it, so the rewrite of the rows is
  unobservable if and only if the capability did not require it or nobody else could serve it
  (`RoutingPolicy.EraseIsUnobservableIff`, `RoutingPolicy.PausingRequiredCodex`).
* Not every change a tool makes is reported: a project command that exits badly and a governed
  action that does not succeed report none, nor does a tool that raises, while a workspace command
  that returns reports every one (`ChatTools.UnreportedIff`). After a call the chat can bring in
  another provider if and only if the call neither reports a committed mutation nor raises an abort
  (`ChatEffects.CanBeFollowedIff`); so a change can be followed, and made again, if and only if it
  is one of those unreported ones and no abort (`ChatEffects.ChangeCanBeFollowedIff`,
  `ChatEffects.SilentCallIsRepeated`). `ChatEffects.FailedCommandIsRepeated` is a turn in which the
  second provider repeats the command.
* `appendBounded` keeps everything when the limit is zero, because `slice(-0)` is `slice(0)`
  (`OutputCapture.BoundedIff`, `OutputCapture.ZeroKeepsEverything`).

## Model

| member | source | states |
|---|---|---|
| DependencyGraph.CheckDependencyCycle | src/db.ts:4293-4321 | the breadth-first search, with a queue that may hold a plan twice, terminates on every finite graph and reports a cycle if and only if the plan is reachable from the dependency |
| DependencyGraph.GuardIsExact | src/db.ts:2648 | in an acyclic graph the new edge keeps it acyclic if and only if the search does not object |
| DependencyGraph.PathThroughNewEdge | src/db.ts:4293-4321 | a path of the extended graph avoids the new edge or is cut by it into two old paths |
| DependencyGraph.MinimalElement | src/db.ts:2847-2866 | every set of plans of an acyclic graph has a member none of whose dependencies is in it, reachable from any chosen one |
| PlanInvariants.ReconcileCommutes | src/db.ts:2788-2799 | reconciling is idempotent, and two reconciliations commute |
| PlanInvariants.ReconcileAnyOrder | src/db.ts:2788-2799 | reconciling plans one after the other, in any order and with repetitions, gives the tables with all of them reconciled at once |
| PlanInvariants.ReconcileSetFollows | src/db.ts:2925-2928 | reads that reconcile keep the invariant and the past |
| PlanOperations.ApplyFollows | src/db.ts:2466-3146 | every operation, from any tables satisfying the invariant, keeps it, and every plan's endings, audit log, project, integration and operations are carried over |
| PlanOperations.FreshPlanHasNoCycle | src/db.ts:2515-2527 | the cycle search made for each dependency of a plan under creation can never object |
| PlanOperations.CreateFollows | src/db.ts:2466-2568 | creation keeps acyclicity, exclusive task ownership, the audit log and key records, whether it applies, repeats or fails |
| PlanOperations.ReplanFollows | src/db.ts:3033-3111 | so does replanning |
| PlanOperations.DependFollows | src/db.ts:2637-2666 | adding a dependency keeps the graph acyclic and within one project, and is logged |
| PlanOperations.AdmitFollows | src/db.ts:2801-2811 | admission keeps the invariant with the reconciliations its evaluation leaves behind, also when it is refused |
| PlanInvariants.AllowedIsMayMove | src/db.ts:2698-2707 | the transition table allows one step along queued, admitted, active, waiting for review, waiting for merge, completed; from each of these but the last to blocked or cancelled; and from blocked to queued or cancelled; and nothing else |
| PlanEffects.PauseEffect | src/db.ts:2570-2592 | a plan is paused if and only if it is paused already or neither completed nor cancelled; then it is paused and nothing else has changed, but for a merge that was noticed |
| PlanEffects.ResumeEffect | src/db.ts:2594-2613 | any plan is resumed, and nothing else has changed |
| PlanEffects.PriorityEffect | src/db.ts:2615-2635 | any plan has the priority asked for, and nothing else has changed |
| PlanEffects.StatusEffect | src/db.ts:2694-2745 | a status write is accepted if and only if the plan is there already or may move there; then it is there, or completed by its merge |
| PlanEffects.CompleteEffect | src/db.ts:2747-2786 | every plan but a cancelled one is completed |
| PlanEffects.CancelEffect | src/db.ts:2996-3031 | every plan is cancelled but a completed one and one with an integration |
| PlanEffects.AdmitEffect | src/db.ts:2801-2811 | a plan is admitted if and only if it is queued and judged eligible, and read if it is worked on or completed |
| PlanEffects.EvaluationEffect | src/db.ts:2819-2900 | an evaluation notices the merges of the plan, of its dependencies if it is ready, and if those are done of the plans of its project that are worked on up to the first that stays so; it changes nothing else |
| PlanEffects.ReadsEffect | src/db.ts:2788-2799 | a read notices the merges of the plans read and changes nothing else |
| PlanEffects.DependencyEffect | src/db.ts:2637-2666 | a dependency is added if and only if the plans are two of one project, it is new, and no way leads back; it is added last and nothing else has changed |
| PlanEffects.IndependenceEffect | src/db.ts:2668-2686 | after a removal that edge is gone and every other one is there |
| PlanEligibility.VerdictIsTheRule | src/db.ts:2819-2900 | the verdict is Eligible if and only if the plan is queued and unpaused, all its dependencies are completed and no other plan occupies its project |
| PlanEligibility.VerdictExplains | src/db.ts:2819-2900 | each verdict says what holds: the status, the pause, exactly the unfinished dependencies in order and with their statuses, or the lowest plan of the project that is worked on, each only if nothing said earlier holds |
| PlanEligibility.EligibleLeavesFreeProject | src/db.ts:2819-2900 | when the evaluation says Eligible, the tables it leaves satisfy that rule themselves, although only some plans were reconciled |
| PlanEligibility.EveryWaitHasACause | src/db.ts:2847-2866 | every queued plan waits, directly or through dependencies of its project, for one that has nothing left to wait for, or for one that is paused, blocked, cancelled or occupied |
| PlanEligibility.SomePlanIsEligible | src/db.ts:2819-2900 | deadlock freedom: if a project has a queued plan and all its open plans are queued, unpaused and without cancelled dependencies, some plan of it is judged Eligible |
| PlanRuns.DependenciesStayAcyclic | src/db.ts:2637-2686 | every run keeps the dependency graph acyclic, within one project and without repeated edges |
| PlanRuns.AuditLogIsFaithful | src/db.ts:2528-2538 | in every reachable state each plan's history is a chain from its creation, moves only along the transition table, a cancel or a merge, and folding it gives status, pause flag, priority and revision, which is one plus the replans |
| PlanLaws.PlansMoveStepByStep | src/db.ts:2694-2745 | in every run, a plan found on its way through the queue has come there step by step since it was last queued: the status changes logged since are exactly those steps |
| PlanLaws.CompletedByAllSteps | src/db.ts:2694-2745 | a status write completes a plan only from waiting for merge, after admitted, active, waiting for review and waiting for merge in this order |
| PlanRequests.CreatedIff | src/db.ts:2466-2568 | a creation under a free key is applied if and only if the request says enough, its tasks are distinct, of the project and in no plan that is neither completed nor cancelled, and its dependencies are plans of the project; then the tables have exactly the plan asked for |
| PlanRequests.ReplannedIff | src/db.ts:3033-3111 | a replan under a free key is applied if and only if the request says enough, the plan is neither completed, cancelled nor integrated, and its tasks are of the project and in no other plan that is worked on; then the plan has exactly the content asked for, one revision on |
| PlanRequests.IntegratedIff | src/db.ts:3113-3146 | an integration is written if and only if the plan is of the project, has none yet, and branch and worktree are given |
| PlanRequests.DeletedIff | src/db.ts:1335-1359 | a task is deleted if and only if it is untouched, idle and in no row of any plan, completed and cancelled ones included |
| PlanRefusals.CreationRefusal | src/db.ts:2466-2500 | a refused creation names something that is wrong with the request |
| PlanRefusals.ReplanRefusal | src/db.ts:3033-3080 | a refused replan names something that is wrong with the request |
| PlanRuns.AuditLogExplainsChange | src/db.ts:2570-2686 | the rows logged between two moments replay the whole change between them, dependencies included |
| PlanRuns.EndingsAndIntegrationsLast | src/db.ts:4382-4389 | completed and cancelled are never left, and an integration freezes objective, criteria, tasks and revision in every later state |
| PlanRuns.IntegrationIsIdempotent | src/db.ts:3113-3146 | after an integration, in every later state, asking again returns the row if and only if the data are the same, and changes nothing |
| PlanRuns.CheckpointRevisionAgreement | src/db.ts:3113-3146 | the stored revision agrees with the plan's in every later state if and only if it did at creation |
| PlanRuns.AdmissionEvidenceIsPermanent | src/db.ts:2801-2811 | every dependency a plan had when it was admitted is completed in every later state |
| PlanRuns.TasksHaveOneOwner | src/db.ts:4360-4380 | in every reachable state a task belongs to at most one plan that is neither completed nor cancelled, and to its project |
| PlanRuns.PlanSaysLastRequest | src/db.ts:2494-2514 | in every reachable state a plan's objective, criteria and task list are those of its last applied creation or replan, the tasks in requested order and numbered from one |
| PlanRuns.CreationAndLogTellAll | src/db.ts:2515-2538 | at any later time a plan's dependencies, status, pause flag, priority and revision are those it was created with, changed by exactly what its audit log says since |
| PlanRuns.NumberedIsListed | src/db.ts:2944-2953 | sorting numbered task rows by position gives them back |
| PlanSafety.ExclusiveStep | src/db.ts:2694-2745 | one operation keeps the lease exclusive if and only if it is not a direct write to admitted while another plan holds it |
| PlanSafety.OnlyAdmissionTakesTheLease | src/db.ts:2694-2745 | no other operation, and no reconciliation, makes a plan a holder of the lease or logs an admission |
| PlanSafety.LeaseIsExclusiveIff | src/db.ts:2694-2900 | a run keeps the lease exclusive at every moment if and only if it contains no such write |
| PlanSafety.LeaseIsExclusive | src/db.ts:2801-2811 | runs from an empty database that admit only through the eligibility check keep the lease exclusive throughout |
| PlanSafety.UsedKeyOnlyReads | src/db.ts:4449-4462 | under a used key a call reads the recorded plan, or fails and changes nothing; anything but the recorded request fails |
| PlanSafety.KeyIsSpentOnce | src/db.ts:4439-4462 | once a keyed request was applied, in every later state no call under its key is applied again |
| PlanSafety.RepeatedReplanReads | src/db.ts:3048-3061 | repeating an applied replan is a read of the plan |
| PlanSafety.RepeatedCreateReads | src/db.ts:2466-2492 | repeating an applied creation returns its plan if and only if its tasks still exist in the project |
| PlanEvidence.WarrantStep | src/db.ts:2694-2745 | one operation lets no plan in progress have an uncompleted dependency older than its last admission, if and only if it is not a direct write to admitted of a plan with an uncompleted dependency |
| PlanEvidence.WarrantIff | src/db.ts:2801-2811 | over a run, plans in progress have such dependencies at no moment if and only if the run contains no such write |
| PlanEvidence.UncompletedDependencyCameLater | src/db.ts:2637-2666 | in runs that admit only through the eligibility check, the audit log of a plan in progress adds each of its uncompleted dependencies after the plan's last admission |
| PlanProgress.EligiblePlanCanFinish | src/db.ts:2698-2737 | an eligible plan can be admitted and moved to completion, and nothing else changes status |
| PlanProgress.QueueDrains | src/db.ts:2694-2900 | liveness: an unobstructed project can always be worked off, without barging, until every plan is completed or cancelled |
| PlanRuns.CancelledDependencyBlocks | src/db.ts:2847-2866 | while a plan depends on a cancelled one it is judged eligible, and admitted, in no later state |
| PlanWitnesses.BargingBreaksTheLease | src/features/integration.ts:55-57 | two direct writes to admitted leave two holders of one project's lease |
| PlanWitnesses.DirectAdmissionRunsAhead | src/features/integration.ts:55-57 | a direct write admits a plan whose dependency has not been started |
| PlanWitnesses.StaleCheckpoint | src/db.ts:3113-3146 | an integration written with another revision disagrees with its plan in every later state |
| PlanWitnesses.RepeatedCreationCanFail | src/db.ts:2466-2492 | after a replan without its task and the deletion of the task, a keyed creation cannot be repeated |
| PlanQueue.UniqueTaskIds | src/db.ts:4331-4345 | the loop's first complaint, about a non-positive or repeated task id, is the specified one |
| PlanQueue.UniquePlanIds | src/db.ts:4278-4291 | rejects non-positive ids and otherwise keeps first occurrences in order |
| PlanQueue.NormalizeInput | src/db.ts:4223-4276 | the first complaint about a request, in the source's order, or the kept criteria and dependencies |
| PlanQueue.ValidateTasks | src/db.ts:4347-4358 | the first task that does not exist or is not of the project |
| PlanQueue.PlanDatabase.ReconcilePlan | src/db.ts:2788-2799 | completes a plan whose Feature has merged, with its audit row, and nothing else |
| PlanQueue.PlanDatabase.GetDetails | src/db.ts:2925-2928 | the reconciled plan, and its task rows in requested order |
| PlanQueue.PlanDatabase.PauseFeaturePlan | src/db.ts:2570-2592 | the specified pause, and the invariant |
| PlanQueue.PlanDatabase.ResumeFeaturePlan | src/db.ts:2594-2613 | the specified resume, and the invariant |
| PlanQueue.PlanDatabase.UpdateFeaturePlanPriority | src/db.ts:2615-2635 | the specified priority change, and the invariant |
| PlanQueue.PlanDatabase.UpdateFeaturePlanQueueStatus | src/db.ts:2694-2745 | accepted if and only if the plan is there already or may move there; the specified transition, and the invariant |
| PlanQueue.PlanDatabase.CompleteFeaturePlanAfterMerge | src/db.ts:2747-2786 | the specified completion, and the invariant |
| PlanQueue.PlanDatabase.CancelFeaturePlan | src/db.ts:2996-3031 | the specified cancellation, refused once an integration exists, and the invariant |
| PlanQueue.PlanDatabase.AddFeaturePlanDependency | src/db.ts:2637-2666 | adds the edge if and only if the plans exist in one project, no path leads back and it is new; the invariant |
| PlanQueue.PlanDatabase.RemoveFeaturePlanDependency | src/db.ts:2668-2686 | removes the edge and logs it, and the invariant |
| PlanQueue.PlanDatabase.EvaluateFeaturePlanEligibility | src/db.ts:2819-2900 | lazy refines eager: the loops, which reconcile only the rows they meet and stop early, give the verdict that reconciling every plan first would give, and reconcile exactly the specified rows |
| PlanQueue.PlanDatabase.AdmitFeaturePlan | src/db.ts:2801-2811 | admits if and only if that verdict is Eligible, and the invariant |
| PlanQueue.PlanDatabase.CreateFeaturePlan | src/db.ts:2466-2568 | the specified creation: plan, tasks, edges, audit row and key together, or a reused plan, or the first complaint and no change |
| PlanQueue.PlanDatabase.ReplanFeaturePlan | src/db.ts:3033-3111 | the specified replan, one revision on, or a reused plan, or the first complaint and no change |
| PlanQueue.PlanDatabase.CreateFeaturePlanIntegration | src/db.ts:3113-3146 | the specified integration row, returned again for the same data and refused for others |
| PlanQueue.PlanDatabase.RemoveTask | src/db.ts:1335-1359 | the specified deletion and its refusals in order, among them that of a task named by any plan row |
| ReviewOutbox.Candidate | src/db.ts:2348-2355 | the claimable row that comes first by available_at and id, and none if and only if no row is claimable |
| ReviewOutbox.StepAgrees | src/db.ts:2338-2411 | every call keeps the rows in agreement with the trace and adds at most one event, which is legal |
| ReviewOutbox.TraceIsLegal | src/db.ts:2338-2411 | every event of every run is legal: claims only of pending rows or over expired leases, finishes only by the latest claimant in time, retries only after a finish other than succeeded |
| ReviewOutbox.FinishIsFenced | src/db.ts:2373-2399 | a finish succeeds if and only if the last thing that happened to the row is a claim by this worker whose lease has not expired |
| ReviewOutbox.AttemptsCountClaims | src/db.ts:2356-2368 | attempt_count is the number of claims, started_at the time of the first; a row has an owner and an expiry exactly while running, and a finishing time exactly when succeeded or failed |
| ReviewOutbox.OneFinishPerClaim | src/db.ts:2373-2399 | between two finishes of a row its finisher claims it again |
| ReviewOutbox.FinisherIsLatestClaimant | src/db.ts:2373-2399 | whoever finishes a row is its latest claimant, so a worker whose row was taken over never finishes it |
| ReviewOutbox.LeasesDoNotOverlap | src/db.ts:2348-2368 | when a row is claimed again, its earlier lease was finished or had expired |
| ReviewOutbox.SucceededIsFinal | src/db.ts:2401-2411 | nothing happens to a row after it succeeded |
| ReviewOutbox.DrainFollowsTheLine | src/db.ts:2338-2371 | repeated claims at one instant return the claimable rows in order, each once, and then null |
| ReviewOutbox.DrainEmptiesTheQueue | src/db.ts:2338-2371 | enough claims at one instant return exactly the claimable rows |
| ReviewCalls.ClaimHolds | src/db.ts:2338-2371 | a claim holds its row for the leaseMs it asked: until then no claim returns the row and only this worker can finish it, whatever is called in between; from then on nobody can finish it, and a claim returns it or one that precedes it |
| ReviewCalls.OfferWaits | src/db.ts:2401-2412 | an enqueued or retried row is returned by no claim before the time given, and from then on by a claim that returns none that precedes it |
| ReviewCalls.OutcomeStands | src/db.ts:2373-2400 | a finished row has the result that was given, and the time unless it waits for its provider; nobody claims or finishes it, and it can be retried if and only if it did not succeed |
| ReviewCalls.ClaimsInOrder | src/db.ts:2347-2354 | a claim returns the row that has been available longest, the older id first |
| ReviewCalls.ClaimIsRefusedIff | src/db.ts:2338-2343 | a claim is refused exactly without a worker or with a lease below a second |
| ReviewCalls.EnqueuedOnce | src/db.ts:2295-2310 | enqueueing a subject again, in any later state, answers its row and changes nothing |
| ReviewCalls.TraceIsOfCalls | src/db.ts:2295-2412 | every event of a run is a call of it, with the arguments of the call |
| ReviewOutbox.Outbox.EnqueueFeatureCompletionReview | src/db.ts:2295-2311 | inserts a row, or returns the one row that already holds the subject |
| ReviewOutbox.Outbox.ClaimCompletionReview | src/db.ts:2338-2371 | the specified claim or refusal, and the agreement of rows and trace |
| ReviewOutbox.Outbox.FinishCompletionReview | src/db.ts:2373-2399 | the specified finish, accepted if and only if the caller is the latest claimant in time |
| ReviewOutbox.Outbox.RetryCompletionReview | src/db.ts:2401-2411 | the specified retry |
| RoutingPolicy.ResolveIsTheOrder | src/agents/policy.ts:59-80 | without a required provider the order has every enabled candidate once, by first appearance in the row, the default order and the registered providers, or only its first one if that one refuses fallback |
| RoutingLaws.OrderIsAsListed | src/agents/policy.ts:59-72 | without a required provider the order has providers that are listed and enabled, each once: the configured ones first, then those of the default order, then the registered ones |
| RoutingLaws.FallbackDecides | src/agents/policy.ts:77-79 | if the control of the first of them has fallback off it is tried alone, and otherwise everybody is who is listed and enabled |
| RoutingLaws.SavingTheLeader | src/agents/policy-persistence.ts:110-137 | saving the control of that first provider with fallback on routes to all that are listed and enabled, with fallback off to it alone |
| RoutingLaws.SomebodyLeads | src/agents/policy.ts:68-77 | as soon as a listed provider is enabled, there is a first one |
| RoutingLaws.RequiredStandsAlone | src/agents/policy.ts:74-76 | a required provider is the whole order if it is listed and enabled, and otherwise nothing is |
| RoutingLaws.OrderWithoutRows | src/agents/policy.ts:49-57 | the orders of all capabilities without any rows |
| RoutingLaws.ControlIsSaved | src/agents/policy-persistence.ts:110-137 | a saved control is the one given, with the model and effort that were not named kept, and the only one changed |
| RoutingLaws.RowIsErased | src/agents/policy-persistence.ts:138-152 | erasing takes the provider out of a row, and its requirement and preferences with it if it was required |
| RoutingPolicy.DedupCommutesWithKeep | src/agents/policy.ts:68-72 | deduplicating and filtering commute |
| RoutingPolicy.AllowedAfterErase | src/agents/policy-persistence.ts:138-152 | erasing a disabled provider from the persisted order, even down to the fallback to the default, leaves the same allowed providers |
| RoutingPolicy.EraseIsUnobservableIff | src/agents/policy-persistence.ts:138-152 | the order after the rewrite is the order of the kept rows if and only if the capability did not require the provider or nothing is left |
| RoutingPolicy.PausingRequiredCodex | src/agents/policy-persistence.ts:143 | with Codex required for coding and paused, nobody is routed while the row is kept, and the others are once it is rewritten |
| RoutingPolicy.DuplicatesAreUnobservable | src/agents/policy-persistence.ts:206 | repeating a provider in an order changes no routing |
| RoutingPolicy.ErasesCommute | src/agents/policy-persistence.ts:138-152 | providers may be paused in any order, and again, with the same rows |
| RoutingPolicy.PolicyStore.EraseFromRows | src/agents/policy-persistence.ts:139-152 | the loop over the rows, in any order, erases the provider from each |
| RoutingPolicy.PolicyStore.UpdateProviderControl | src/agents/policy-persistence.ts:110-155 | a paused or disabled provider is in no order, and every capability that did not require it is routed as if its row had been kept |
| RoutingPolicy.PolicyStore.UpdateCapabilityRouting | src/agents/policy-persistence.ts:183-213 | the capability is routed by the given order and requirement, duplicates aside, every other capability as before, and unnamed preferences stay |
| RoutingPolicy.PolicyStore.RemoveProvider | src/agents/policy-persistence.ts:215-236 | connection and control are forgotten and every row is erased |
| ProviderRegistry.PrioritizedIsPermutation | src/agents/registry.ts:470-477 | preferring a provider moves it to the front of the order and loses, doubles or adds nobody |
| ProviderRegistry.CountIsUnreleasedLeases | src/agents/registry.ts:209-251 | in every interleaving each provider's active count is the number of its unreleased leases |
| ProviderRegistry.CountedAfterRelease | src/agents/registry.ts:233-238 | releasing a held lease takes exactly one from its provider's count, so the clamp at zero never fires |
| ProviderRegistry.ReleasedForGood | src/agents/registry.ts:233-236 | a second release, in any later state, changes nothing |
| RegistryCapacity.CapacityStep | src/agents/registry.ts:219-224 | a step keeps every provider within its limit if and only if it is not the resumption of an acquire that finds its provider ready and full, but below the captured limit |
| RegistryCapacity.CapacityIff | src/agents/registry.ts:219-224 | over every interleaving, no provider ever has more unreleased leases than its limit if and only if no such resumption happens |
| RegistryCapacity.BoundedStep | src/agents/registry.ts:117-142 | counts and captured limits stay within the limits unless a replacement or removal lowers a limit under an acquire suspended on the provider |
| RegistryCapacity.UnsqueezedRunsAreWithinLimits | src/agents/registry.ts:117-142 | runs without such a replacement or removal are always within the limits |
| RegistryCapacity.FixedLimitsAreRespected | src/agents/registry.ts:219-224 | with fixed limits every interleaving respects them |
| RegistryCapacity.OneLeaseAtATime | src/agents/registry.ts:104-128 | with the default limit of one, whatever is replaced or removed, a provider has at most one unreleased lease |
| RegistryWitnesses.SqueezingExceedsTheLimit | src/agents/registry.ts:117-128 | a replacement under two suspended acquires leaves two leases under a limit of one |
| RegistryWitnesses.CoolingProviderIsGranted | src/agents/registry.ts:221-268 | in a run from an empty registry a provider that cools down is granted to a waiting acquire and asked by another |
| RegistryWitnesses.CooldownIsCutShort | src/agents/registry.ts:239-246 | a provider that was to rest for five seconds rests for one |
| ProviderRegistry.GrantIsWanted | src/agents/registry.ts:209-232 | a grant is of a provider in the caller's order, not excluded, ready and below the captured limit, and adds one new lease |
| RegistryLaws.AcquireAsks | src/agents/registry.ts:209-220 | an acquire asks the preferred provider if that one suits and otherwise the first of the resolved order that does, and gives up if and only if none does; who suits is registered with the capability, connected, not excluded, not cooling down and below its limit |
| RegistryLaws.AcquireProviderAsks | src/agents/registry.ts:253-268 | an acquire of one provider asks it if and only if it is registered with the capability, connected, enabled and below its limit |
| RegistryLaws.ResumeGrantsOrMovesOn | src/agents/registry.ts:221-232 | a resumed acquire is granted its provider if and only if that is ready and below the captured limit, and otherwise asks the first later provider of its order that passes now |
| RegistryLaws.RequestHasItsCall | src/agents/registry.ts:209-220 | every suspended acquire of a run was started by a call that named its capability and exclusions, and may only be granted providers that were connected and in the resolved order then |
| RegistryLaws.DisconnectedIsNotAsked | src/agents/registry.ts:153-164 | after an accepted disconnection no new acquire asks the provider until it is connected again |
| RegistryLaws.RefusedIff | src/agents/registry.ts:104-173 | in every run a replacement, removal or disconnection is refused if and only if the provider is unknown or has an unreleased lease, and a refusal changes nothing |
| RegistryLaws.InstalledUntilReplaced | src/agents/registry.ts:104-128 | a provider has the capabilities and the limit of its last registration or replacement, whatever else happens |
| RegistryLaws.ConnectedUntilDisconnected | src/agents/registry.ts:153-173 | a connected provider stays so until it is disconnected or removed |
| ProviderRegistry.AcquireMovesOn | src/agents/registry.ts:214-224 | an acquire is resumed at most once for each provider of its order |
| ProviderRegistry.CooldownHolds | src/agents/registry.ts:239-246 | after a retryable failure no acquire, new or suspended, moves on to the provider until the requested time, and at least a second, has passed, whatever else happens, unless it is disconnected, replaced or removed or another of its leases is released with an earlier end |
| ProviderRegistry.CooldownLastsASecond | src/agents/registry.ts:239-240 | for the first second this holds whatever is released, as long as the clock does not go back |
| ProviderRegistry.ReleaseCooldownIff | src/agents/registry.ts:239-246 | a release keeps the provider's cooldown to its end if and only if it is not a retryable one of that provider that asks for an earlier end |
| ProviderRegistry.CooldownStopsNeither | src/agents/registry.ts:253-268 | a cooldown stops neither an acquire that already waits for the provider, which is granted it if and only if ready and below the captured limit, nor an acquire of that one provider |
| ProviderRegistry.AgentRegistry.FindEligible | src/agents/registry.ts:214-220 | the loop of acquire stops at the first provider of the order that passes every check, and drops the cooldowns it found to be over |
| ProviderRegistry.AgentRegistry.Acquire | src/agents/registry.ts:209-220 | the specified first half of an acquire, in the policy's order, and the invariant |
| ProviderRegistry.AgentRegistry.AcquireProvider | src/agents/registry.ts:253-268 | the specified first half for one selected provider |
| ProviderRegistry.AgentRegistry.ResumeAcquire | src/agents/registry.ts:221-232 | the specified second half: a grant below the captured limit, or the search goes on |
| ProviderRegistry.AgentRegistry.ReleaseLease | src/agents/registry.ts:233-248 | the specified release and cooldown |
| ProviderRegistry.AgentRegistry.RegisterProvider | src/agents/registry.ts:104-115 | the specified registration, refused for a known provider |
| ProviderRegistry.AgentRegistry.ReplaceProvider | src/agents/registry.ts:117-128 | the specified replacement, refused while leases are out |
| ProviderRegistry.AgentRegistry.UnregisterProvider | src/agents/registry.ts:130-142 | the specified removal, refused while leases are out, and the provider's removal from the policy store with it |
| ProviderRegistry.AgentRegistry.DisconnectProvider | src/agents/registry.ts:153-164 | the specified disconnection, refused while leases are out, and the provider's removal from the policy store with it |
| ProviderRegistry.AgentRegistry.ConnectProvider | src/agents/registry.ts:167-173 | the specified connection, remembered in the policy store |
| ProviderRegistry.AgentRegistry.ActiveCount | src/agents/registry.ts:294-296 | the number of unreleased leases |
| ChatFallback.NormalizeBudget | src/chat/agent-loop.ts:257-262 | between 1 and 128 iterations and at most 256 tool calls, rounded down within those ranges |
| ChatFallback.LoopAccounts | src/chat/agent-loop.ts:84-198 | an attempt stays within its budget; its counters and list of tools are those of its trace; it reports a committed mutation if and only if a tool of the attempt reported one; an exhausted budget is exhausted |
| ChatTools.UnreportedIff | src/chat/service.ts:2337-2469 | the tool calls that change something and do not report it are those that raise, project commands that exit badly and governed actions that do not succeed; a workspace command that returns reports every change |
| ChatTools.ActsAndReportsIff | src/chat/service.ts:2299-2469 | exactly which calls of the six tools can change something, and which of them report it |
| ChatTools.OnlyActionsCommit | src/chat/service.ts:2299-2336 | reading tools, refused requests and access modes that forbid it neither report nor change anything |
| ChatFallback.NoReportedCommitIsReplayed | src/chat/service.ts:2165-2289 | a chat turn is a sequence of attempts by distinct providers, each under one lease that is released once, and only the last may have reported a committed mutation; the outcome names it and says what it did |
| ChatFallback.NothingAcquiredAfterReportedCommit | src/chat/service.ts:2281-2288 | once a tool has reported a committed mutation no provider is acquired any more |
| ChatEffects.EffectIsFollowedIff | src/chat/service.ts:2281-2288 | a change is followed by another acquisition if and only if an attempt that is not the last made a call that changed something and did not report it |
| ChatEffects.AbortEndsTurn | src/chat/service.ts:2274-2277 | once a tool raised an abort no provider is acquired any more |
| ChatEffects.CanBeFollowedIff | src/chat/service.ts:2274-2288 | some turn makes the call and acquires another provider afterwards if and only if the call neither reports a committed mutation nor raises an abort |
| ChatEffects.ChangeCanBeFollowedIff | src/chat/service.ts:2274-2288 | a change can be followed by another provider if and only if its call did not report it and raised no abort |
| ChatEffects.SilentCallIsRepeated | src/chat/service.ts:2165-2289 | every call that neither reports nor aborts is made again by the second provider in a turn whose first provider fails |
| ChatEffects.FailedCommandIsRepeated | src/chat/service.ts:2337-2352 | a project command that changes something and exits badly is run again by the second provider when the first one fails afterwards |
| ChatCancellation.LoopPaced | src/chat/agent-loop.ts:94-185 | in an attempt an invocation comes right after a look at the signal that found it off, a tool call right after another such look behind the invocation that asked for it, and a look after everything that returns; what happened last explains the end |
| ChatCancellation.CancellationIsHeeded | src/chat/service.ts:2165-2277 | in a turn providers are acquired and invoked and tools called only right after a look that found the signal off; after one that found it on the lease is returned and nothing else is done, and the turn is aborted; it is aborted for nothing else but an abort that was raised |
| ChatCancellation.NoToolAfterCancel | src/chat/agent-loop.ts:113 | a tool is called only if the signal was off at the look just before |
| ChatCancellation.UserIsTold | src/chat/service.ts:2273-2288 | the reasons reported for failed attempts are those their providers or tools gave, in order, and an answer is the final reply of the last invocation |
| ChatFallback.TurnIsBounded | src/chat/service.ts:2165-2289 | a turn makes at most (providers x iterations) invocations and (providers x tool calls) tool calls |
| ChatFallback.RunChatAgentLoop | src/chat/agent-loop.ts:84-198 | the while loop computes the specified attempt |
| ChatFallback.RunTool | src/chat/agent-loop.ts:165-185 | the tool part of an iteration, with the caller's flag set before the abort check and the loop's after it |
| ChatFallback.SynthesizeWithAgentLoop | src/chat/service.ts:2150-2289 | the fallback loop terminates with the specified outcome, and acquires nobody after a reported commit |
| OutputCapture.SameSignatureIffSameWords | src/agents/process.ts:175 | two chunks have one signature if and only if they have the same words in the same order |
| OutputCapture.BoundedIff | src/agents/process.ts:268-271 | the buffer is within its limit if and only if the limit is positive, or zero with nothing to keep |
| OutputCapture.ZeroKeepsEverything | src/agents/process.ts:268-271 | with a limit of zero two units are kept |
| OutputCapture.KeptIsTail | src/agents/process.ts:171-187 | with a positive limit what is kept of a stream is the end of its chunks that were not consecutive duplicates |
| OutputCapture.ReceivedAddsUp | src/agents/process.ts:171-187 | every unit received is in one of the two streams or in a duplicate |
| OutputCapture.NothingIsClamped | src/agents/process.ts:102 | without a spawn error no more is retained than was received |
| OutputCapture.ResultRefinesStreams | src/agents/process.ts:81-107 | the result of a child that ran: both outputs are the ends of their streams, and truncatedChars is received minus retained, which is the duplicates plus what was cut off |
| OutputCapture.RunIsConsistent | src/agents/process.ts:141-198 | in every order of events the counters are those of the chunks, the breaker holds the first reason that arose, timedOut says whether a timer was it, and the one result is that of the history |
| OutputCapture.ReportStays | src/agents/process.ts:81-86 | what a run reported and why it was stopped never changes afterwards |
| OutputCapture.ReportsOnce | src/agents/process.ts:81-86 | a run reports at most once, and exactly once if the child closed or failed to start |
| OutputLaws.StoppedForItsOutput | src/agents/process.ts:182-187 | in every order of events a child is stopped for its output with the first chunk after which as many chunks in a row as allowed repeat the one before, or more has come than allowed, unless a timer was first; if nothing stopped it there was no such chunk |
| OutputLaws.DefaultsAre | src/agents/process.ts:51-53 | 500000 units kept, four times as many received, 80 repeats |
| OutputLaws.ReportTells | src/agents/process.ts:89-104 | the report says how the run ended, what interrupted it, whether that was a timer, and what was received, retained, repeated and cut off |
| OutputLaws.SpawnFailureTells | src/agents/process.ts:190-194 | after a failure to start, stderr is the trimmed end of what it had with the message on a new line |
| OutputLaws.TrimMeans | src/agents/process.ts:175 | trimming takes all white space from both ends and nothing else |
| OutputCapture.DuplicateBySignature | src/agents/process.ts:175-179 | the comparison with the last signature recognises exactly the chunks that repeat the words of the chunk before |
| OutputCapture.AgentProcess.Consume | src/agents/process.ts:171-187 | the specified counting, keeping and tripping of a chunk, ignored once settled |
| OutputCapture.AgentProcess.TripBreaker | src/agents/process.ts:141-146 | the first reason stays |
| OutputCapture.AgentProcess.Finish | src/agents/process.ts:81-107 | a second end changes nothing |
| OutputCapture.AgentProcess.OnError | src/agents/process.ts:190-194 | the specified spawn failure, with its message at the end of stderr |
| OutputCapture.AgentProcess.OnAbort | src/agents/process.ts:153-156 | the specified cancellation |
| OutputCapture.AgentProcess.OnClose | src/agents/process.ts:195 | the specified result |
| OutputCapture.AgentProcess.TimerFires | src/agents/process.ts:147-165 | the timers trip the breaker with their own reasons |
| JsonExactness.CandidatesOfEveryText | src/agents/process.ts:344-388 | every text is a document followed by objects and a string left open, and whatever the text, the candidates are exactly the document's objects, in order |
| JsonExactness.CandidateIff | src/agents/process.ts:344-388 | a text scans as one candidate if and only if it is one balanced object text, braces in strings aside |
| JsonExactness.OutsideIff | src/agents/process.ts:344-388 | the scanner is outside all strings and braces after a text if and only if the text is a document |
| JsonExactness.SpanIff | src/agents/process.ts:344-388 | a slice is found if and only if it is one balanced object text and what precedes it is a document; slices are disjoint and left to right |
| JsonScanner.SpansAreCandidates | src/agents/process.ts:344-388 | on every text the slices are disjoint and left to right, and each would be found by itself |
| JsonScanner.FindsExactlyTheObjects | src/agents/process.ts:344-388 | in a text that interleaves filler with nested objects the candidates are exactly those object texts, in order |
| JsonScanner.FindsEveryPrintedObject | src/agents/process.ts:344-388 | every well-formed JSON object (RFC 8259, sections 2 to 7) printed among text without quotes or opening braces is found whole, in order, and nothing else is |
| JsonScanner.RunString | src/agents/process.ts:352-361 | a string is skipped whole, whatever braces and escapes it holds |
| JsonScanner.FindJsonObjects | src/agents/process.ts:344-388 | the loop returns what the candidates parse to, in order, leaving out those that do not parse |

## Left out

- Issue links, actor names, reasons, source fields and timestamps of plans and audit rows: no operation decides anything by them.
- Goal runs, goal steps, human reviews, runtime updates and Feature statuses: those methods store what the caller passes. A Feature being completed is an input that may change either way.
- Task contracts are opaque texts, already normalised; criteria and texts are already trimmed.
- The request hash is the request: SHA-256 is taken to be injective.
- The rows a query without ORDER BY returns for occupied plans come by ascending id, and dependencies by insertion.
- `listFeaturePlanQueue` and the other read-only listings: they call the reconciling read that is modelled.
- The migration that turns planned into queued plans writes no audit row; runs start from empty tables.
- Several processes on one database: every operation is one step of one process.
- PlanQueue.PlanDatabase.CreateFeaturePlanIntegration: does not model the integration's own status and items, which belong to the builder.
- ReviewOutbox.Outbox.FinishCompletionReview: does not model the error text, its redaction, or the evidence pack.
- Model and effort chosen for a lease after routing, health probing in the background, and nextAvailability: no state is kept by them.
- The policy is a parameter of the registry's acquires, so that it may change between any two of them; what a tool changes outside the chat is one bit.
- The path with an explicitly selected provider, which makes one attempt and can return before it releases its lease, is not modelled.
- Prompts, the parsing of a provider's turn, and how tools find what to act on: a turn is an arbitrary reply, and whether a tool refuses, succeeds, changes something or raises is arbitrary. The three reading tools are taken to change nothing.
- The pending actions an attempt collects, which the chat turn does not read, and a budget that is not a number.
- Token usage, durations, process termination and the environment of the child.
- JSON.parse is a parameter of the scanner.
