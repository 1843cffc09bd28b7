# Verified model of the development workflow

The system takes a feature from planning to a merged pull request. An operator
attaches a task file and approves it; a worker claims the queued attempt, runs
Autopilot on it and verifies the result; a handoff worker opens the pull
request; a poller follows it until it is merged. About ten independent writers
change the same rows: the task approval service, the retry service, the queue,
the development worker, the cancel routes and the cancellation controller, the
orphan reconciler, the PR handoff, the PR-creation retry and the poller. This
project models those writers, and the algorithms around them that carry
properties of their own, and proves what they keep together.

`dafny verify dfyconfig.toml` checks everything.

## How it is organised

| file | what it models |
|---|---|
| `FeatureStateMachine.dfy` | the F-5 table of feature transitions, the lookup structures built from it, and what the table implies for histories of states |
| `TransitionLedger.dfy` | sequences of transition commands with the results of applied operations remembered |
| `Workflow.dfy` | every writer as one operation on the stored rows: features, attempts, approvals, idempotency records, outbox intents |
| `WorkflowStore.dfy` | the same writers as methods of a store that they update in place, row by row, each proved to have exactly the effect given in `Workflow.dfy` |
| `WorkflowSafety.dfy` | the steps of a run of all operations in any order, and that each operation keeps coupled rows coupled |
| `WorkflowInvariant.dfy` | the joint invariant of runs in which a cancellation may stop between its two final writes, and that every step keeps it |
| `WorkflowRuns.dfy` | what the invariant means over whole runs: coupling, exclusivity, order, completion, the queue, repeated requests |
| `WorkflowEffects.dfy` | who writes what: for every column of the rows, the circumstances in which any step of any writer changes it |
| `WorkflowOrigins.dfy` | where the rows of a run come from: which request queued each attempt and why, what is written once, what repeated and refused requests get |
| `WorkflowOutbox.dfy` | the outbox over whole runs: why each intent is there, that none is missing, when a key is free |
| `WorkflowStaleWrites.dfy` | the writes that do not look at the state they were decided on, and exactly when each is safe |
| `WorkflowExamples.dfy` | runs from the empty database that reach what one would not expect |
| `OptimisticConcurrency.dfy` | read, decide and compare-and-swap as separate interleaved steps of many writers, among title edits that read and write without a guard |
| `Idempotency.dfy` | the in-flight map and the record table of mutation execution, one step per await, many callers and instances |
| `IdempotencyOutcomes.dfy` | how every call of mutation execution ends, and that none is stuck |
| `PrHandoff.dfy` | the PR handoff, one step per await, each of which may fail, fail after taking effect, or kill the process |
| `PrHandoffOutcomes.dfy` | how every call of the handoff ends: failed, thrown, idle or completed, and what it leaves |
| `PrReconciliation.dfy` | polling of pull requests: the resolved state, the observation kept, a whole pass, and aged lists |
| `TaskGraph.dfy` | the depth-first search over task dependencies, document acceptance, and readiness |
| `ProcessTree.dfy` | the breadth-first search for the descendants of a process |
| `DiagnosticRetention.dfy` | the byte budgets and pruning of diagnostic logs |
| `DiagnosticInterleaving.dfy` | the same with the halves of any number of writes and prunes interleaved |
| `LoginRateLimiter.dfy` | the sliding-window login limiter |
| `WorkerRuntime.dfy` | the concurrent supervisor, one step per await |
| `WorkerRuntimeControl.dfy` | what the supervisor's loop waits for next: when it asks for work, beats, sleeps, stops and throws |
| `TaskProgress.dfy` | from task file to verified run: summary, outcome, verdict, live summary |
| `OperationKey.dfy` | the printer and parser of operation keys |
| `Wrappers.dfy` | optional values, and that a subset is no larger |

## Granularity

* In `Workflow.dfy` an operation is one transaction, together with the checks
  that attaching, removing, invalidating and replacing make before theirs.
  `WorkflowStaleWrites.dfy` says exactly when each of those transactions is still
  safe if other writers came between. Claims are serial: the client holds one
  connection per process (packages/database/src/client.ts:27).
* Cancelling a running attempt is three steps. The first loads the attempt,
  checks it and requests, or finds its process replaced. The second
  compares-and-swaps the feature row that the first remembered, and the third
  closes the attempt; these two are separate statements on the plain connection
  that apps/worker/src/main.ts:113 passes, without a transaction. Any other
  operations may run in between, and each of the steps may be the last. The
  blocking of a replaced process is split in the same way.
  Cancellations of one attempt come one after the other, as its worker's loop
  takes them (apps/worker/src/runtime/job-command-worker.ts:136-178).
  `UnguardedRequestIsSafeIffActive` says why the first has to be one step: its
  write looks at no stored status.
* A transaction that finds a row changed throws, so its writes are all undone;
  `WorkflowStore.Store.Rollback` puts the tables back. The two final writes of a
  cancellation are not one transaction, and nothing undoes the first.
* Steps come in any order. In particular the worker's writes are not required to
  follow the order of `executeClaimed`, which makes the results stronger.
* Timestamps, generated ids, probe answers (is the process alive, is its
  identity intact), task file contents and GitHub's answers are parameters.

## Results that are not what one would expect

Each of these is a statement of the design or of a comment that the code does
not meet; the lemma named gives the exact condition or a concrete case.

* The comment at packages/domain/src/feature/feature-state-machine.ts:129-132
  says that all transitions go through the table. Attaching a task to, or
  replacing the task of, a feature whose run failed, was interrupted or was
  cancelled writes TASKS_REVIEW directly
  (packages/domain/src/task/task-approval-service.ts:307-316 and :889-894), which
  is not an edge. These are the only such changes: `TableHoldsExceptOnReattach`.
* A cancellation moves the feature and closes the attempt in two writes. Between
  them the feature is out of development with a live attempt, and a worker that
  dies there leaves it so: after an invalidation, an attachment and an approval
  the feature has two live attempts, and the first stays open for good unless a
  later cancellation finds its process replaced. `LiveExactlyInDevelopment`,
  `CoupledIffNotHalfCancelled`, `WithoutDeathsLeftIsAttended`,
  `AbandonedForGood`, `CrashLeavesTwoLiveAttempts`.
* A cancellation that finds its process replaced and then its row changed still
  writes FAILED, also over INTERRUPTED: `ClosedIsRewrittenIff`,
  `LateBlockRewritesInterrupted`.
* Attaching, removing, invalidating and replacing decide on a state read before
  their transaction. Where the write lands on another state it can leave the
  table, or take a developing feature away from its attempt:
  `AttachWriteIsSafeIff`, `RemoveWriteIsSafeIff`, `InvalidateWriteIsSafeIff`,
  `ReplaceWriteIsSafeIff`.
* The outbox key `create_pr:<feature>` is fresh at completion if and only if no
  PR-creation retry used that string as its operation key:
  `CompletionKeyIsFresh`, `RetryKeyCanCollide`. For any two features there is a
  run in which their intents share a key: `CollisionIsReachable`.
* A repeated approval returns the attempt stored under its key even when it
  names another feature: `ApprovalsReplay`. A repeated retry does compare, but one
  that reuses the key of a cancellation returns the cancelled attempt and queues
  nothing: `RetryUnderCancelKeyReplays`. A repeated replacement compares its
  approval only, a repeated PR-creation retry nothing but its key:
  `ReplacementsReplay`, `PrRetriesReplay`.
* No caller hands the stored result of an operation back to the transition
  service. What keeps an operation from being applied twice is its version alone:
  `ForgottenOperationsAreStale`.
* A caller that joins an operation in flight gets its data without the check of
  the namespace. What it gets is what the check would have let through if and
  only if the two calls are of one namespace: `SuccessfulCallsAgree`,
  `JoiningSkipsTheNamespaceCheck`, `JoiningForeignHappens`.
* A title edit writes back the state it read, without a version guard. The stored
  states then follow the table if and only if every edit lands on the state it
  read or on one from which the table leads there:
  `StoredStatesFollowTheTableIff`, `EditsRestore`, `WriteBackExample`.
* A poll that works from an aged list can record a merge and not move the
  feature, and nothing later repairs that: `MergeIsKeptIffUnmoved`,
  `LostMergeStaysLost`, `RetryLosesMerge`. So can a poll that throws after it has
  stored its observation: `ThrowLosesMerge`.
* The poller cannot take some features to the state it resolves, for instance
  from PR_REVIEW when checks start to fail: `PollFollowsIff`.
* After its first report the dependency search can report a cycle that is not in
  the graph: it keeps its stack and its gray nodes. A report is a cycle if and
  only if each search that was abandoned inside the loop stopped at a node that
  depends on the root of the next: `ReportIsCycleIff`, `LaterReportIsSpurious`.
  Acceptance does not depend on it.
* Attempt ids with an underscore, also one put there for an unsafe character,
  get a new diagnostic budget at every prune: `CounterSurvivesIffPlain`,
  `UnderscoreRenewsBudget`, `UnderscoreIsNeverSpared`. For any id, a write that
  lands after a prune, and one that falls between the listing of a prune and its
  drop of counters, are forgotten while their bytes stay; the budget holds if and
  only if no such drop happens: `BudgetHoldsIffForgettingIsHarmless`,
  `OverlapsDouble`.
* An attempt started twice at once escapes the supervisor's drain:
  `DuplicateEscapesDrain`. Claims never do that, since statuses only advance
  (`StatusesOnlyAdvance`).
* A supervisor told to stop while it fills its slots goes on claiming jobs until
  it is full or finds none; as long as jobs settle that can be any number:
  `AbortedRoundsGoOn`. It looks at the signal exactly at the loop's condition and
  at the end of a round: `AnswersLeadSo`.
* The live summary counts fewer remaining requirements than are pending when a
  requirement carries two flags, and calls an empty task all-passing:
  `RemainingIsPendingIff`, `AllPassDiffersOnlyWhenEmpty`.

## Model

| member | source | states |
|---|---|---|
| FeatureStateMachine.BuildEdgeLookup | packages/domain/src/feature/feature-state-machine.ts:79-90 | the set built from the table and the guard edges holds exactly the transitions that the case-by-case relation allows, terminal state included |
| FeatureStateMachine.BuildEdgesByFrom | packages/domain/src/feature/feature-state-machine.ts:92-108 | the map grouped by source state lists, for every state, exactly the allowed targets and owners |
| FeatureStateMachine.TableIsTheRelation | packages/domain/src/feature/feature-state-machine.ts:42-73 | the 29 declared rows, closed under the guard edges, are the legality relation |
| TransitionLedger.AppliedAtMostOnce | packages/domain/src/feature/feature-state-machine.ts:133-214 | however often, in whatever order and with whatever versions operations are sent, each is applied at most once, the stored states are a path of the table, and the version counts the operations applied |
| TransitionLedger.AppliedOperationsReplay | packages/domain/src/feature/feature-state-machine.ts:139-150 | an operation sent again with its stored result gets its first answer, whatever was sent in between, and changes nothing |
| TransitionLedger.RepetitionsAreInvisible | packages/domain/src/feature/feature-state-machine.ts:139-150 | leaving out a repetition makes no difference to anything that follows |
| TransitionLedger.ForgottenOperationsAreStale | packages/domain/src/feature/feature-state-machine.ts:152-162 | an applied command sent again without its stored result is refused for its version, at any later time |
| TransitionLedger.CommandsAreAnsweredSo | packages/domain/src/feature/feature-state-machine.ts:133-214 | which answer any command gets: replay, refusal for version, state or edge with the state reported, or the transition; each as an if-and-only-if |
| FeatureStateMachine.DevelopmentNeverResumes | packages/domain/src/feature/feature-state-machine.ts:42-90 | in any history that follows the law, a state past development is never followed by one of planning, review or development |
| FeatureStateMachine.CompletesOnce | packages/domain/src/feature/feature-state-machine.ts:42-90 | a history does not leave DEVELOPMENT_COMPLETE and come back |
| FeatureStateMachine.MergedPassedEveryMilestone | packages/domain/src/feature/feature-state-machine.ts:42-73 | every history from PLANNED to DEVELOPMENT_MERGED passed QUEUED, DEVELOPING, DEVELOPMENT_COMPLETE and PR_CREATING, in this order |
| Workflow.MoveIsTheTransition | apps/worker/src/development/development-worker-store.ts:104-147 | what the guarded writers store is what the transition service answers to a command based on the row just read |
| WorkflowStore.Store.PersistFeatureTransition | apps/worker/src/development/development-worker-store.ts:104-147 | deciding and the guarded update store the table's next row, or nothing if the table refuses |
| WorkflowStore.Store.AttachTask | packages/domain/src/task/task-approval-service.ts:265-388 | the writes of attaching, reset of a failed feature included, have the effect of the one-step operation, refusals included |
| WorkflowStore.Store.RemoveTask | packages/domain/src/task/task-approval-service.ts:391-461 | the check and the unguarded write of removing a task have the effect of the one-step operation |
| WorkflowStore.Store.ApproveAndQueue | packages/domain/src/task/task-approval-service.ts:464-757 | feature, approval, attempt and record written one after the other, with replay and rollback on a conflicting key, have the effect of the one-step operation |
| WorkflowStore.Store.InvalidateApproval | packages/domain/src/task/task-approval-service.ts:760-813 | invalidating has the effect of the one-step operation |
| WorkflowStore.Store.ReplaceTask | packages/domain/src/task/task-approval-service.ts:816-960 | replacing the task has the effect of the one-step operation, replay by key included |
| WorkflowStore.Store.Retry | apps/worker/src/process/retry-service.ts:66-198 | the guarded reads and writes of a retry have the effect of the one-step operation; the new attempt is linked to its predecessor |
| WorkflowStore.Store.ClaimNextAttempt | packages/database/src/queue/development-queue.ts:81-142 | a claim takes the oldest queued attempt of an idle project, if the capacity is not used up, and changes nothing else |
| WorkflowStore.Store.MarkDeveloping | apps/worker/src/development/development-worker-store.ts:165-199 | the worker's first write has the effect of the one-step operation, ownership check included |
| WorkflowStore.Store.PersistProcessIdentity | apps/worker/src/development/development-worker-store.ts:201-221 | storing the process identity has the effect of the one-step operation |
| WorkflowStore.Store.PersistSuccess | apps/worker/src/development/development-worker-store.ts:235-284 | feature, attempt and pull-request intent are written together or not at all |
| WorkflowStore.Store.PersistFailure | apps/worker/src/development/development-worker-store.ts:286-337 | feature and attempt are closed together, blocked or failed |
| WorkflowStore.Store.RequestCancel | apps/api/src/routes/job-actions.ts:145-196 | the cancel route's branch for running attempts |
| WorkflowStore.Store.CancelQueued | apps/api/src/routes/job-actions.ts:200-306 | the cancel route's branch for queued attempts |
| WorkflowStore.Store.BeginCancel | apps/worker/src/process/cancellation-controller.ts:128-180 | as one step: the guards of a process cancellation and its request, which a replaced process skips, and the row remembered for later |
| WorkflowStore.Store.SwapCancel | apps/worker/src/process/cancellation-controller.ts:300-332 | the compare-and-swap on the remembered row, for a cancellation and for the blocking of a replaced process |
| WorkflowStore.Store.CloseCancel | apps/worker/src/process/cancellation-controller.ts:334-339 | the attempt is closed in a statement of its own, whatever its status |
| WorkflowStore.Store.ReconcileOrphansAtStartup | apps/worker/src/runtime/startup-reconciliation.ts:16-63 | the loop over candidates leaves the rows and the count that reconciling them one after the other gives |
| WorkflowStore.Store.TransitionFeature | apps/worker/src/github/pr-handoff-store.ts:195-238 | read, decide and guarded update of the handoff and the poller have the effect of the one-step operation |
| WorkflowStore.Store.RetryPrCreation | apps/api/src/routes/pr-actions.ts:90-200 | feature, intent and record of a PR-creation retry are written together or not at all |
| WorkflowInvariant.StepKeepsInv | packages/domain/src/task/task-approval-service.ts:265-960 | every operation of every writer, each final write of a cancellation and the death of a worker between them keep the joint invariant of features, attempts, approvals, records and cancellations |
| WorkflowInvariant.StepMovesOn | apps/worker/src/process/cancellation-controller.ts:284-408 | every step keeps records, references and approvals, takes features along the law with growing versions and attempts along their statuses |
| WorkflowEffects.FeatureRowsChangeSo | packages/domain/src/task/task-approval-service.ts:265-960 | any step of any writer at any feature of a run: state, version and task change in the listed circumstances and in no others; project and branch never |
| WorkflowEffects.FeaturesAreAddedSo | packages/database/src/repositories/core-repositories.ts:622-664 | features are added by their creation alone, in PLANNED, with version 1 and without a task |
| WorkflowEffects.AttemptRowsChangeSo | apps/worker/src/development/development-worker-store.ts:98-337 | any step at any attempt of a run: status, worker, process and lease change in the listed circumstances and in no others; the rest never |
| WorkflowEffects.AttemptsAreAddedSo | apps/worker/src/process/retry-service.ts:94-198 | an attempt is added by an approval or a retry in its circumstances and by nothing else: queued, on the feature's branch, unclaimed, a retry's after the feature's newest attempt |
| WorkflowEffects.ApprovalsChangeSo | packages/domain/src/task/task-approval-service.ts:464-960 | approvals are granted by approving, withdrawn by invalidating or replacing, each in its circumstances, and never granted again |
| WorkflowEffects.RecordsAndIntentsAreAddedSo | apps/api/src/routes/pr-actions.ts:164-200 | exactly which records and pull-request intents a step adds |
| WorkflowEffects.CancellationsGoSo | apps/worker/src/process/cancellation-controller.ts:128-408 | when a process cancellation begins, goes on to close its attempt, and ends |
| WorkflowOrigins.RetriesQueueIff | apps/worker/src/process/retry-service.ts:66-198 | in any run a retry adds its attempt if and only if its key is unused, project, state, active approval and both branches fit, and the feature's newest attempt failed, was interrupted or cancelled and has no process or one found dead; the attempt then follows that newest one; otherwise no row changes |
| WorkflowOrigins.AttemptsHaveOrigins | packages/domain/src/task/task-approval-service.ts:464-757 | every attempt of a run was queued by an approval of a task that parsed, with the checksum that was reviewed, or by a retry in its circumstances, and keeps what was written then |
| WorkflowOrigins.PredecessorsAreOver | apps/worker/src/process/retry-service.ts:124-190 | in every world of a run the attempt that a retried one follows is of its feature and branch, and failed, interrupted or cancelled |
| WorkflowOrigins.AssignedInOrder | packages/database/src/queue/development-queue.ts:124-139 | in every world a queued attempt has no worker, process or lease, and one with a process has a worker |
| WorkflowOrigins.WorkerAndProcessAreWrittenOnce | apps/worker/src/development/development-worker-store.ts:201-221 | over any stretch of a run an attempt keeps its worker and its process once it has them |
| WorkflowOrigins.VersionsCountWrites | apps/worker/src/development/development-worker-store.ts:104-147 | over any stretch of a run a feature's version grows by the writes to its row; project and branch stay |
| WorkflowOrigins.FeaturesHaveTheirTasks | packages/domain/src/task/task-approval-service.ts:301-431 | in every world a feature in planning has no task and any other that is not blocked has one |
| WorkflowOrigins.AttachingIsRefusedFor | packages/domain/src/task/task-approval-service.ts:265-300 | which refusal attaching a task gets, each as an if-and-only-if |
| WorkflowOrigins.ApprovingIsRefusedFor | packages/domain/src/task/task-approval-service.ts:490-535 | which refusal approving under an unused key gets, each as an if-and-only-if |
| WorkflowOrigins.RetryingIsRefusedFor | apps/worker/src/process/retry-service.ts:94-152 | which refusal a retry under an unused key and an active approval gets, each as an if-and-only-if |
| WorkflowRuns.LiveExactlyInDevelopment | apps/worker/src/process/cancellation-controller.ts:321-339 | in every world of every run: a feature has a live attempt exactly when it is QUEUED or DEVELOPING, then exactly one, whose approval is the feature's one active approval, if and only if no attempt of it was left open by the first final write of a cancellation; features in planning or review never have an active approval, and none has two |
| WorkflowRuns.CoupledIffNotHalfCancelled | apps/worker/src/process/cancellation-controller.ts:321-339 | the same from the rows and cancellations alone: a feature that is not BLOCKED is coupled if and only if none of its cancellations stands between its two final writes; a BLOCKED one if and only if it has no live attempt |
| WorkflowRuns.WithoutDeathsLeftIsAttended | apps/worker/src/runtime/job-command-worker.ts:136-178 | while no cancellation dies, every attempt left open has its own cancellation about to close it, blocked features included |
| WorkflowRuns.AbandonedForGood | apps/worker/src/process/cancellation-controller.ts:321-339 | an attempt whose cancellation died between its final writes stays CANCEL_REQUESTED over any further steps, unless a later cancellation of it finds its process replaced |
| WorkflowExamples.CrashLeavesTwoLiveAttempts | apps/worker/src/process/cancellation-controller.ts:321-339 | a run from the empty database after which a feature has two live attempts and no cancellation is at work |
| WorkflowRuns.OneAttemptPerKey | apps/worker/src/process/retry-service.ts:66-93 | no two attempts of a run stem from one operation key |
| WorkflowRuns.StatusesOnlyAdvance | apps/worker/src/development/development-worker-store.ts:98-102 | attempt statuses go QUEUED, RUNNING, CANCEL_REQUESTED, closed; closed ones stay, but for INTERRUPTED, which may become FAILED; an attempt on which cancellation was requested never succeeds |
| WorkflowRuns.ClosedIsRewrittenIff | apps/worker/src/process/cancellation-controller.ts:397-408 | a step changes the status of a closed attempt if and only if it is the late write of a cancellation that found its process replaced and its row changed, and the attempt was INTERRUPTED |
| WorkflowExamples.LateBlockRewritesInterrupted | apps/worker/src/process/cancellation-controller.ts:397-408 | a run from the empty database after which that happens |
| WorkflowRuns.StoredStatesAreAHistory | packages/domain/src/feature/feature-state-machine.ts:114-117 | over any stretch of a run the stored states of a feature follow the table or a re-attachment |
| WorkflowRuns.MergedWentThroughDevelopment | packages/domain/src/feature/feature-state-machine.ts:42-90 | a feature merged in some world was QUEUED, DEVELOPING, DEVELOPMENT_COMPLETE and PR_CREATING in earlier worlds, in this order |
| WorkflowRuns.DevelopmentIsOver | apps/worker/src/development/development-worker-store.ts:235-284 | once past development, a feature is in no later world in planning, review or development |
| WorkflowRuns.CompletesAtMostOnce | apps/worker/src/development/development-worker-store.ts:235-284 | at most one step of a run completes a given feature |
| WorkflowRuns.TableHoldsExceptOnReattach | packages/domain/src/task/task-approval-service.ts:307-316 | a step that changes a feature's state takes an edge of the table if and only if it does not attach or replace the task of a failed, interrupted or cancelled feature |
| WorkflowStaleWrites.UnguardedRequestIsSafeIffActive | apps/worker/src/process/cancellation-controller.ts:155-194 | the request that looks at no stored status keeps the rows coupled if and only if the claimed attempt is still active |
| WorkflowStaleWrites.AttachWriteIsSafeIff | packages/domain/src/task/task-approval-service.ts:301-352 | the transaction of attaching keeps the rows coupled and the feature lawful if and only if it does not land on a failed, interrupted or cancelled feature whose approval is active |
| WorkflowStaleWrites.RemoveWriteIsSafeIff | packages/domain/src/task/task-approval-service.ts:405-431 | the transaction of removing does so if and only if the feature is in planning or review; on a queued or developing one it always breaks the coupling |
| WorkflowStaleWrites.ReplaceWriteIsSafeIff | packages/domain/src/task/task-approval-service.ts:869-927 | the transaction of replacing does so if and only if the feature is failed, interrupted or cancelled; on a queued or developing one it always breaks the coupling |
| WorkflowStaleWrites.InvalidateWriteIsSafeIff | packages/domain/src/task/task-approval-service.ts:778-790 | the transaction of invalidating keeps the rows coupled if and only if the feature is not in development |
| WorkflowRuns.ReconciliationIsExact | apps/worker/src/process/orphan-reconciler.ts:39-86 | startup reconciliation interrupts the expired attempts of developing features and no others, touches only their features, and reports how many |
| WorkflowRuns.OnlyClaimsActivate | packages/database/src/queue/development-queue.ts:124-139 | no step but a claim makes an attempt RUNNING or CANCEL_REQUESTED |
| WorkflowRuns.ActiveAttemptsAreBounded | packages/database/src/queue/development-queue.ts:96-122 | in every world at most one attempt of a project is active and at most `maxConcurrent` are in all |
| WorkflowRuns.ClaimsAreFifo | packages/database/src/queue/development-queue.ts:105-119 | a claim takes a queued attempt; one queued earlier, or at the same time with a lower id, belongs to a project that has an active attempt |
| WorkflowOutbox.OutboxIsExplained | apps/worker/src/development/development-worker-store.ts:262-281 | every intent stems from the completion of its feature or from a PR-creation retry under its key |
| WorkflowOutbox.CompletedHasItsIntent | apps/worker/src/development/development-worker-store.ts:262-283 | in every world a feature that is complete or at its pull request has an intent under its completion key for an attempt of it that succeeded |
| WorkflowOutbox.CompletionKeyIsFresh | apps/worker/src/development/development-worker-store.ts:262-281 | when a feature completes, its intent's key is used already if and only if a PR-creation retry was stored under that key |
| WorkflowOutbox.RetryKeyCanCollide | apps/api/src/routes/pr-actions.ts:164-171 | a retry under another feature's completion key puts two intents with one key into the outbox |
| WorkflowExamples.CollisionIsReachable | apps/api/src/routes/pr-actions.ts:164-178 | for any two features there is a run from the empty database after which two intents share one key |
| WorkflowRuns.RecordsStay | packages/database/src/repositories/workflow-repositories.ts:866-890 | idempotency records are never changed or removed |
| WorkflowRuns.ApprovalsReplay | packages/domain/src/task/task-approval-service.ts:464-490 | approving again under the same key returns the first attempt and changes nothing, at any later time; the attempt is the named feature's own if and only if it is the feature approved first |
| WorkflowRuns.RetriesReplay | apps/worker/src/process/retry-service.ts:66-93 | retrying again under the same key returns the first attempt, and is refused for any other feature or project |
| WorkflowRuns.RetryUnderCancelKeyReplays | apps/worker/src/process/retry-service.ts:66-93 | a retry under the key of a stored cancellation of the same feature returns the cancelled attempt, and is refused for any other feature or project |
| WorkflowOrigins.ReplacementsReplay | packages/domain/src/task/task-approval-service.ts:816-852 | replacing again under the same key is a repetition if and only if it names the approval that was replaced; neither the feature nor the path is compared |
| WorkflowOrigins.PrRetriesReplay | apps/api/src/routes/pr-actions.ts:88-115 | retrying PR creation again under the same key returns the first attempt, whatever feature is named |
| WorkflowOrigins.CancelsReplay | apps/api/src/routes/job-actions.ts:145-306 | asking again to cancel an attempt returns it and changes nothing, at any later time of a run |
| OptimisticConcurrency.StoredStatesFollowTheTableIff | packages/database/src/repositories/core-repositories.ts:683-711 | under any interleaving of reads, decisions, writes and edits the stored states form a path of the table if and only if every edit that lands finds the state it read or one from which the table leads there |
| OptimisticConcurrency.EditsRestore | packages/database/src/repositories/core-repositories.ts:683-711 | the state that an edit leaves was stored before |
| OptimisticConcurrency.VersionCountsTransitions | apps/worker/src/process/cancellation-controller.ts:300-332 | the version is the first one plus the number of transitions written, whatever was edited |
| OptimisticConcurrency.OneWriteEachVersion | apps/worker/src/github/pr-handoff-store.ts:195-238 | of all transitions decided from one version at most one is ever written, also among edits |
| OptimisticConcurrency.VersionDecidesState | apps/worker/src/process/cancellation-controller.ts:300-332 | as long as no edit changed the state, a decided transition matches the row if and only if the versions agree |
| OptimisticConcurrency.WritersStartOver | apps/worker/src/github/pr-handoff-store.ts:195-238 | a writer holds a row it read until it decides, and a decision until it writes, landed or not |
| OptimisticConcurrency.WriteBackExample | packages/database/src/repositories/core-repositories.ts:683-711 | a run in which an edit around the worker's first write puts a developing feature back into QUEUED, which is not an edge |
| Idempotency.SuccessfulCallsAgree | apps/api/src/mutations/idempotency.ts:62-104 | across all callers of all instances, in every run: every call that returned got the data of the stored record, and loading that record under its own namespace would give it if and only if the call did not join another or joined one of its own namespace |
| Idempotency.OneOperationInFlight | apps/api/src/mutations/idempotency.ts:71-103 | no instance has two operations in flight for one key |
| Idempotency.RunSucceedsAtMostOnce | apps/api/src/mutations/idempotency.ts:77-96 | if no insert is lost, the mutation succeeds at most once for each key of an instance |
| Idempotency.JoiningSkipsTheNamespaceCheck | apps/api/src/mutations/idempotency.ts:71-75 | at any point of any run at which a call that joined can return, it returns the data of the call it joined; the check of loading would have passed if and only if the two are of one namespace, and thrown otherwise |
| Idempotency.JoiningForeignHappens | apps/api/src/mutations/idempotency.ts:71-103 | for any key and any two namespaces, a run of two callers from the initial state after which the second has returned data that loading would have refused it |
| IdempotencyOutcomes.EveryCallEndsSo | apps/api/src/mutations/idempotency.ts:62-104 | every call of every run: one that ends of itself throws if and only if one of its awaits failed or its key holds another mutation's record, and otherwise returns the data stored for it, as repeated if and only if its own insert did not store them; one that joined throws if and only if the joined call failed, and otherwise returns its data as repeated |
| IdempotencyOutcomes.OneAnswerIsFresh | apps/api/src/mutations/idempotency.ts:81-91 | of all calls of all instances with one key at most one is told that it was not a repetition |
| IdempotencyOutcomes.LosersGetTheWinnersData | apps/api/src/mutations/idempotency.ts:91-96 | a call that owns its operation and whose key another has stored for the same mutation returns what that one stored, as repeated, unless one of its awaits fails |
| IdempotencyOutcomes.LateCallsOnlyLoad | apps/api/src/mutations/idempotency.ts:68-69 | a call that starts once its key is stored never runs its mutation, has no operation in flight and joins none, in any run |
| IdempotencyOutcomes.RepeatedCallsAreAnswered | apps/api/src/mutations/idempotency.ts:68-69 | such a call, answered and resumed, has returned the stored data of its own mutation as repeated |
| IdempotencyOutcomes.EveryCallCanEnd | apps/api/src/mutations/idempotency.ts:71-103 | after any run every call can be brought to its end by answers alone, to it or to the call it joined: no call is stuck |
| PrHandoff.AtMostOnePullRequest | apps/worker/src/github/pr-handoff-worker.ts:123-349 | starting from none, any sequence of handoff calls, each failing or dying at any await, leaves at most one pull request for the pair; every stored identity, recorded outcome and reported number is its number; no feature is past CI_RUNNING without a stored identity |
| PrHandoff.NextCallRecovers | apps/worker/src/github/pr-handoff-worker.ts:123-349 | after any such past, one further undisturbed call ends in CI_RUNNING with one pull request, its number stored, recorded and reported, within seventeen awaits |
| PrHandoff.SomeAnswerExists | packages/github/src/gh-cli-gateway.ts:218-277 | at every await some answer is possible, so such a call can be completed |
| PrHandoff.OutcomesComeAfterCreating | apps/worker/src/github/pr-handoff-worker.ts:123-349 | over any calls and deaths an outcome is recorded only for a feature past PR_CREATING, and it stays past it |
| PrHandoff.ReplaysTouchNothing | apps/worker/src/github/pr-handoff-worker.ts:124-128 | calls for attempts with recorded outcomes, any number of them, failing or dying anywhere, among other writers, add nothing, leave the feature to the other writers and report the recorded numbers |
| PrHandoff.OutcomesAreFinal | apps/worker/src/github/pr-handoff-store.ts:170-190 | a recorded outcome is never changed |
| PrHandoffOutcomes.CallsEndSo | apps/worker/src/github/pr-handoff-worker.ts:123-349 | in any run: a call gives up if and only if branch resolution, push, creation or the storing of a created identity failed and nothing after it; it throws if and only if something else failed; otherwise it completes or is idle |
| PrHandoffOutcomes.ThrowsAreStored | apps/worker/src/github/pr-handoff-worker.ts:160-313 | after such a failure with the feature in PR_CREATING three answers end the call with the feature in PR_CREATION_FAILED, one version on, and nothing else changed |
| PrHandoffOutcomes.FailuresAreStored | apps/worker/src/github/pr-handoff-worker.ts:160-313 | in any run a call that gave up left its feature in PR_CREATION_FAILED unless another writer has moved it since the call began |
| PrHandoffOutcomes.IdleCallsWriteNothing | apps/worker/src/github/pr-handoff-worker.ts:130-148 | a call that ends idle, failures and other writers notwithstanding, has itself changed nothing |
| PrHandoffOutcomes.CompletedIsRecorded | apps/worker/src/github/pr-handoff-worker.ts:345-348 | what a completed call reports is the outcome recorded for its attempt |
| PrHandoffOutcomes.UndisturbedCallsDoSo | apps/worker/src/github/pr-handoff-worker.ts:123-349 | after any run an undisturbed call waits for exactly the listed answers in this order, and leaves exactly this: CI_RUNNING, the pull request that was there or a new one, its identity stored unless one was, its number recorded and reported |
| PrHandoffOutcomes.RecoversFromDeath | apps/worker/src/runtime/github-runtime.ts:165-200 | a call that died leaves everything it had written, and the next call can begin and completes the handoff |
| PrHandoffOutcomes.VersionsCountChanges | apps/worker/src/github/pr-handoff-store.ts:195-238 | the version of the feature counts the changes of its row, whoever made them |
| PrReconciliation.NewestWins | apps/worker/src/github/pr-reconciliation-store.ts:82-94 | the observation kept is the newest one offered, the first of those as new |
| PrReconciliation.ArrivalOrderIsIrrelevant | apps/worker/src/github/pr-reconciliation-store.ts:82-94 | with distinct timestamps the observation kept does not depend on the order of arrival |
| PrReconciliation.RowHoldsItsOffers | apps/worker/src/github/pr-reconciliation-store.ts:82-94 | after updates for any features a row holds what was offered to its own |
| PrReconciliation.PollFollowsIff | apps/worker/src/github/pr-reconciliation-worker.ts:65-165 | a fresh poll stores the observation and brings the feature to the resolved state, one version on, exactly in the listed cases; in the others it leaves the feature alone, and always every other feature |
| PrReconciliation.PollMovesExactly | apps/worker/src/github/pr-reconciliation-worker.ts:65-155 | resolver and table together: for each target, exactly which status and which prior state lead there |
| PrReconciliation.OnlyNewsMatters | apps/worker/src/github/pr-reconciliation-worker.ts:110-136 | a turn of the loop changes nothing unless its feature is at its pull request and a status came back newer than what the list knew |
| PrReconciliation.TimesOnlyGrow | apps/worker/src/github/pr-reconciliation-store.ts:82-94 | over any run, polls from aged lists and polls that throw included, the observation times stored for a row only grow |
| PrReconciliation.SkippingLosesNothing | apps/worker/src/github/pr-reconciliation-worker.ts:132-136 | the worker's own staleness test, against a list made at any earlier point of a run, only drops what the store would not have taken |
| PrReconciliation.MergedRowsAreDone | apps/worker/src/github/pr-reconciliation-store.ts:49-66 | with atomic polls a row observed merged belongs to a merged feature, so the filter on merged rows drops nothing that matters |
| PrReconciliation.MergeIsKeptIffUnmoved | apps/worker/src/github/pr-reconciliation-worker.ts:138-155 | when a merge was observed from a list, the feature ends up merged if and only if its state is still the listed one, or merged already |
| PrReconciliation.LostMergeStaysLost | apps/worker/src/github/pr-reconciliation-store.ts:64-65 | once lost, no later polls and no other writer make the feature merged |
| PrReconciliation.RetryLosesMerge | apps/worker/src/github/pr-reconciliation-worker.ts:138-155 | a PR-creation retry between list and poll loses the merge |
| PrReconciliation.ThrowLosesMerge | apps/worker/src/github/pr-reconciliation-worker.ts:138-181 | a poll of a merged pull request that throws between its observation and its transition loses the merge |
| PrReconciliation.Poller.UpdatePrObservation | apps/worker/src/github/pr-reconciliation-store.ts:82-94 | the update offers the observation to every row of the feature and to no other |
| PrReconciliation.Poller.PollAll | apps/worker/src/github/pr-reconciliation-worker.ts:110-202 | the loop has the effect of its turns, those that throw before or after storing the observation included, and counts exactly the reconcilable features that are not backing off |
| PrReconciliation.CountIsExact | apps/worker/src/github/pr-reconciliation-worker.ts:110-131 | the count of a pass is the number of listed features at their pull requests that are not backing off |
| PrReconciliation.PassIsPollByPoll | apps/worker/src/github/pr-reconciliation-worker.ts:110-202 | a pass over a list that has not aged polls each feature as if it alone were polled |
| TaskGraph.Search.Dfs | packages/autopilot/src/task/task-semantic-validator.ts:133-149 | the search terminates; it finishes the node after all it depends on, or stops on a walk of the graph that leads to a gray node and reports the loop to it, which is a cycle if and only if it closes within that walk or the stack below is a walk to the node |
| TaskGraph.ValidateDependencyGraph | packages/autopilot/src/task/task-semantic-validator.ts:106-158 | the errors are the missing dependencies, then the reports of a search whose trace is given; there is a report if and only if there is a cycle, the first one is a cycle, and each of them is one exactly as `ReportIsCycleIff` says; no errors if and only if all dependencies are listed and the graph is acyclic |
| TaskGraph.BuildAdjacency | packages/autopilot/src/task/task-semantic-validator.ts:106-123 | each requirement leads to its listed dependencies in their order, and every other one is reported in order |
| TaskGraph.ReportIsCycleIff | packages/autopilot/src/task/task-semantic-validator.ts:133-155 | for any trace of the searches from all ids: a report is a cycle of the graph if and only if every search abandoned inside its loop stopped at a node that depends on the root of the next one; one that closes within its own search always is |
| TaskGraph.DistinctIdsLoseNothing | packages/autopilot/src/task/task-semantic-validator.ts:111-123 | with distinct ids the graph that is searched holds every requirement's own dependencies |
| TaskGraph.RepeatedIdHidesCycle | packages/autopilot/src/task/task-semantic-validator.ts:111-123 | with a repeated id a self-dependency goes unnoticed |
| TaskGraph.LaterReportIsSpurious | packages/autopilot/src/task/task-semantic-validator.ts:106-158 | validating two requirements that both depend on the first reports the loop of the first, and then a loop through both that does not exist |
| TaskGraph.DeriveRunMode | packages/autopilot/src/task/task-semantic-validator.ts:160-171 | complete if and only if there are requirements and all pass, fresh if and only if none passes |
| TaskGraph.ValidateTaskDocument | packages/autopilot/src/task/task-semantic-validator.ts:177-231 | a document is accepted if and only if nothing else was faulted, it has requirements, ids are distinct, dependencies listed and acyclic |
| TaskGraph.FindRepeatedIds | packages/autopilot/src/task/task-semantic-validator.ts:196-205 | an error for each requirement whose id was listed before: as many as there are requirements beyond the distinct ids |
| TaskGraph.AcceptedNeverDeadlocks | apps/worker/src/progress/progress-observer.ts:77-81 | in an accepted task, whatever passes so far, some requirement that does not pass is ready |
| ProcessTree.GetAllDescendants | apps/worker/src/process/process-tree.ts:129-147 | every process reachable from the root, the root excluded, exactly once, in non-decreasing distance, on any finite relation |
| DiagnosticRetention.BoundedBodyFits | packages/shared/src/observability/diagnostic-retention.ts:65-74 | a body within the budget is kept whole, otherwise a prefix and the marker fill it exactly, or the marker stands alone |
| DiagnosticRetention.WritesAreBounded | packages/shared/src/observability/diagnostic-retention.ts:143-174 | exactly what a write stores under both limits, and that the counter grows by the bytes of it |
| DiagnosticRetention.FilesStayWithinLimit | packages/shared/src/observability/diagnostic-retention.ts:146-157 | over any run of whole writes and prunes every file holds at most the limit of a file of its body |
| DiagnosticInterleaving.FilesAlwaysFit | packages/shared/src/observability/diagnostic-retention.ts:146-174 | the same however writes and prunes overlap, for files on disk and on their way |
| DiagnosticRetention.UnsafeRunsCollapse | packages/shared/src/observability/diagnostic-retention.ts:76-79 | safe characters of an id are kept and every longest run of unsafe ones becomes one underscore |
| DiagnosticRetention.SegmentsAreSafe | packages/shared/src/observability/diagnostic-retention.ts:76-79 | a name segment is made of safe characters and no longer than 64 |
| DiagnosticRetention.PlainIdsKeepTheirName | packages/shared/src/observability/diagnostic-retention.ts:76-79 | an id of safe characters without underscore is its own key, up to 64 characters; without an id the key is `job` |
| DiagnosticRetention.PieceIsKeyIff | packages/shared/src/observability/diagnostic-retention.ts:188-190 | the key read back from a file name is the attempt's if and only if it has no underscore |
| DiagnosticRetention.AttemptStaysWithinBudget | packages/shared/src/observability/diagnostic-retention.ts:131-207 | over any run of whole writes and prunes the body bytes on disk of an attempt with a plain key, markers excluded, stay within its budget |
| DiagnosticRetention.PruneIsExact | packages/shared/src/observability/diagnostic-retention.ts:176-206 | a prune keeps the files not past the cutoff, sorted stably by time, and evicts the shortest oldest-first prefix that brings the rest within the total |
| DiagnosticRetention.PruneRemembersExactly | packages/shared/src/observability/diagnostic-retention.ts:181-196 | a prune remembers the counters under the keys read back from the names of the young files and no others |
| DiagnosticRetention.SortIsStable | packages/shared/src/observability/diagnostic-retention.ts:197 | the sort keeps the files, orders them by time and keeps the order of equals |
| DiagnosticRetention.CounterSurvivesIffPlain | packages/shared/src/observability/diagnostic-retention.ts:181-196 | a prune remembers the use of an attempt with a young file if and only if its key is plain |
| DiagnosticRetention.UnderscoreRenewsBudget | packages/shared/src/observability/diagnostic-retention.ts:181-196 | after any prune an attempt whose key has an underscore can store a whole new body |
| DiagnosticInterleaving.BudgetHoldsIffForgettingIsHarmless | packages/shared/src/observability/diagnostic-retention.ts:131-207 | with the halves of any number of writes and prunes interleaved: at every point of a run, and however its writes go on, the bytes of an attempt on disk stay within its budget if and only if every prune that dropped counters had listed a young file under its key, or nothing of it was on disk or on its way |
| DiagnosticInterleaving.StaysWithinIffCovered | packages/shared/src/observability/diagnostic-retention.ts:143-174 | from a volume within the budget, writes cannot exceed it before the next drop of counters if and only if the counter covers what is on disk and on its way |
| DiagnosticInterleaving.UnderscoreIsNeverSpared | packages/shared/src/observability/diagnostic-retention.ts:188-196 | for a key with an underscore a drop of counters is harmless if and only if nothing is charged to it |
| DiagnosticInterleaving.OverlapsDouble | packages/shared/src/observability/diagnostic-retention.ts:177-196 | a write that lands after a prune, or falls within one, and a second write put twice the budget on disk |
| DiagnosticRetention.Retention.Write | packages/shared/src/observability/diagnostic-retention.ts:131-175 | the in-place write has the effect on counters and files that the run theorems are about; the file added holds the whole body if and only if it fits both the file's limit and what is left of the attempt's, otherwise the longest start that leaves room for the marker; the counter grows by the bytes of its text |
| DiagnosticRetention.Retention.Prune | packages/shared/src/observability/diagnostic-retention.ts:176-207 | the in-place prune has that effect too, reports the exact sum and number removed, and leaves at most the total allowed |
| LoginRateLimiter.Limiter.IsLimited | apps/api/src/auth/login-rate-limit.ts:29-34 | limited if and only if the failures since the last success strictly inside the window number at least `maxAttempts`, and at least one; forgetting changes no answer |
| LoginRateLimiter.Limiter.RecordFailure | apps/api/src/auth/login-rate-limit.ts:36-42 | the failure joins the history, and the buckets go on agreeing with it |
| LoginRateLimiter.Limiter.RecordSuccess | apps/api/src/auth/login-rate-limit.ts:44-46 | the success joins the history, and the buckets go on agreeing with it |
| LoginRateLimiter.DroppingIsFaithful | apps/api/src/auth/login-rate-limit.ts:48-58 | dropping old failures keeps agreement with the whole history on every later window |
| LoginRateLimiter.ClientsAreIndependent | apps/api/src/auth/login-rate-limit.ts:20-58 | the events of other clients do not matter |
| LoginRateLimiter.ReleaseIsFinal | apps/api/src/auth/login-rate-limit.ts:48-58 | without further events a client that is released stays released |
| LoginRateLimiter.LockExpires | apps/api/src/auth/login-rate-limit.ts:48-58 | a client is released once its newest failure leaves the window |
| WorkerRuntime.ActiveIsExact | apps/worker/src/runtime/worker-runtime.ts:77-117 | under any interleaving the counter is the number of unfinished jobs and at most the capacity, whatever the attempt ids |
| WorkerRuntime.ClampNeverBites | apps/worker/src/runtime/worker-runtime.ts:95-99 | a settling job always finds the counter positive |
| WorkerRuntime.ReturnsOnlyWhenIdle | apps/worker/src/runtime/worker-runtime.ts:119-144 | with distinct attempts in flight `run` returns only when no job is left |
| WorkerRuntime.DrainIsCompleteIff | apps/worker/src/runtime/worker-runtime.ts:139-142 | the drain would wait for every unfinished job if and only if the map is as large as the counter |
| WorkerRuntime.DuplicateEscapesDrain | apps/worker/src/runtime/worker-runtime.ts:92-103 | a run in which one attempt is started twice returns with a job in flight |
| WorkerRuntimeControl.StopsOnlyOnAbort | apps/worker/src/runtime/worker-runtime.ts:119-143 | in any run `run` drains, sends its last heartbeat and returns only after the signal, however idle it is |
| WorkerRuntimeControl.AnswersLeadSo | apps/worker/src/runtime/worker-runtime.ts:105-137 | for every answer at any point of any run, exactly when the loop stops, sends a heartbeat, asks for a job and sleeps |
| WorkerRuntimeControl.WakesToWork | apps/worker/src/runtime/worker-runtime.ts:125-137 | a run that was not told to stop and is woken with a free slot asks for a job, after a heartbeat if one is due |
| WorkerRuntimeControl.RoundsAreRemembered | apps/worker/src/runtime/worker-runtime.ts:105-117 | while it asks for a job the loop counts its round as started if and only if its last answer was a job |
| WorkerRuntimeControl.AbortedRoundsGoOn | apps/worker/src/runtime/worker-runtime.ts:105-132 | for any number there is a run in which as many jobs are started after the signal, since a round does not look at it |
| WorkerRuntimeControl.ThrewIff | apps/worker/src/runtime/worker-runtime.ts:105-143 | `run` throws if and only if one of its heartbeats or requests for a job did |
| WorkerRuntimeControl.DrainsAndReturns | apps/worker/src/runtime/worker-runtime.ts:139-143 | once the promises it waits for have settled, a stopping run sends its last heartbeat and returns |
| WorkerRuntime.FillKeepsBound | apps/worker/src/runtime/worker-runtime.ts:105-117 | filling slots keeps the counter exact and within the capacity, and reports full only if it was |
| WorkerRuntime.FillReportsStarts | apps/worker/src/runtime/worker-runtime.ts:105-117 | filling slots reports a start if and only if it started a job |
| WorkerRuntime.Supervisor.Fill | apps/worker/src/runtime/worker-runtime.ts:105-117 | the loop over slots, with jobs settling during its awaits, has the effect of its answers one after the other |
| WorkerRuntime.Supervisor.Settled | apps/worker/src/runtime/worker-runtime.ts:95-99 | the completion callback in place |
| TaskProgress.SummarizeTaskFile | packages/autopilot/src/task/task-snapshot.ts:77-136 | pending is the total less the union of the three flags; all-passing means that there are requirements and all pass |
| TaskProgress.ProgressFromDocument | packages/autopilot/src/runner/cli-autopilot-runner.ts:120-139 | the progress of a run reports the pending requirements as remaining |
| TaskProgress.RemainingIsPendingIff | apps/worker/src/progress/progress-observer.ts:60-66 | the live count of remaining requirements never exceeds the pending ones, and equals them if and only if no requirement carries two flags |
| TaskProgress.AllPassDiffersOnlyWhenEmpty | apps/worker/src/progress/progress-observer.ts:66 | the live all-passing flag agrees with the summary's if and only if the task is not empty |
| TaskProgress.SummaryCounts | apps/worker/src/progress/progress-observer.ts:60-82 | the observer's counts are the numbers of requirements that pass, are stuck, invalid, ready, and waiting for a dependency |
| TaskProgress.ObserverSeesReadyWork | apps/worker/src/progress/progress-observer.ts:77-82 | until an accepted task is done the ready count exceeds the ready requirements that pass |
| TaskProgress.VerificationIsExact | apps/worker/src/development/result-verifier.ts:18-49 | a run verifies if and only if it exited with 0, unsignalled, and its task has requirements that all pass, none stuck or invalid; the process is blamed if and only if it did not exit with 0 or was signalled |
| TaskProgress.VerdictFollowsFromOutcome | apps/worker/src/development/result-verifier.ts:18-49 | from task file, exit code and signal: the verdict is the one that the outcome, the presence of a signal and stuck or invalid requirements determine, so the two classifications agree |
| TaskProgress.SucceededIsNotVerified | packages/autopilot/src/runner/result-normalizer.ts:44-57 | a run called succeeded is refused exactly for a stray signal or a stuck or invalid requirement |
| TaskProgress.OutcomesAreExact | packages/autopilot/src/runner/result-normalizer.ts:44-57 | how a run is called, each outcome as an if-and-only-if on signal, exit code and task |
| TaskProgress.VerdictsAreExact | apps/worker/src/development/result-verifier.ts:18-49 | the verdict on any result, also one whose parts contradict each other |
| OperationKey.ParseOperationKey | packages/shared/src/idempotency/operation-key.ts:47-68 | the parsing loop computes the parse that the round trip is about, errors included |
| OperationKey.RoundTripIff | packages/shared/src/idempotency/operation-key.ts:35-68 | parsing a created key returns its parts if and only if operation and project are not empty and no field contains a colon |
| OperationKey.KeysReadSo | packages/shared/src/idempotency/operation-key.ts:31-45 | the text of a key: operation, project, then the optional fields that are given, in their order |
| OperationKey.KeysAreInjective | packages/shared/src/idempotency/operation-key.ts:31-45 | on that domain different parts have different keys |
| OperationKey.ColonsCollide | packages/shared/src/idempotency/operation-key.ts:31-45 | with a colon in the project two operations share a key |

## Left out

- Activity events, audit events, failure records, metrics and logs; timestamps set by the database; SQL text and row mapping.
- Database constraints. Only the uniqueness of operation keys and of generated row ids is used; the indexes on active attempts, outbox keys and pull request numbers are not relied on.
- `packages/database/src/queue/lease-reconciler.ts`: not wired into the worker; as a step it would break the coupling of attempts and features.
- `cancelQueued` of the cancellation controller and the cancel route's `cancelHandler`: unset in the production composition. The cancel route looks at the newest attempt of the feature; the model lets it look at any.
- Row locks and SKIP LOCKED: claims are serial, so two claims that count the active attempts at the same time are not modelled.
- WorkflowStore.Store.BeginCancel: takes the load, the identity check and the request of a cancellation as one step; an attempt that is reconciled between the load and the request would be opened again, as `UnguardedRequestIsSafeIffActive` says.
- The order of the worker's steps around one attempt (`executeClaimed`) and the loop over pending cancellations: the steps are modelled, their order is left open but for the cancellations of one attempt, which do not overlap.
- Liveness: that a cancellation ends, that an orphan is found, that polling resumes after a backoff.
- The statuses of outbox intents (claim, complete, fail): intents are only added and keyed.
- Signals to processes during a cancellation; `/proc` is a fixed relation while the process tree is searched.
- A pull request created by hand, and a creation that takes effect only after its caller is gone: either could add a second pull request.
- Records that other services store under a `pr-handoff:` key.
- The PR handoff, the supervisor's run loop and mutation execution are transition systems over their awaits and not methods, because every await can interleave with others or be the last. In the handoff, writes to the activity and audit log between two other awaits count as one. Mutation calls without a key run directly and are not modelled.
- The consecutive error count of the poller, which only triggers an activity event, and the computation of backoff times.
- DiagnosticRetention.AttemptStaysWithinBudget: speaks of one process; a restart begins with empty counters. The sequence number in file names only makes them unique; redaction, JSON framing and replacement characters at truncation points are left out, so bodies are bytes and file sizes are inputs. In `DiagnosticInterleaving.dfy` a file lands at once, and which files are unlinked when is left open.
- Task file paths, reading, parsing and checksums: whether they succeed is an input. Of the document only ids, dependencies and pass flags matter to its acceptance; all other errors are one input.
- The phase counts and blocked reasons of the summaries, and the version check of `snapshotTask`: they would add easy members.
- LoginRateLimiter.Limiter.IsLimited: requires a clock that does not run backwards, which the wall clock does not guarantee.
- Git and `gh` calls beyond their possible answers; the web interface, HTTP routing and validation, sessions, health probes and qualification scripts.
