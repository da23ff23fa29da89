# Durable execution and external actions: a Dafny model

The deployment lab runs customer tasks at least once, from a PostgreSQL queue with leases and fences, and keeps a
ledger of the side effects that a task has on GitHub and Slack so that repeated executions do not repeat the effects.
This project models that protocol and proves what it promises over whole runs: any number of workers and calls, any
interleaving of their transactions, crashes between any two awaits, late and lost answers from the providers.

The layers, one or more modules each:

- **Tasks and attempts.** `TaskDomain` is the command table. `TaskStore` gives every transaction (create, approve,
  cancel, claim, heartbeat, the four finalizations, recovery) as a function from the old tables and a clock reading to
  the new tables and the reply; a run is a fold of transactions. `TaskDatabase.Database` is the same tables as mutable
  state: each method updates the row it selects, and its contract equates the new tables and the reply with the
  function. `TaskInvariants` (constraints, fencing, cancellation), `LeaseRecovery` (what becomes of a lease that is no
  longer extended), `AttemptBudget` (retry budget, termination) and `BoundedOvertaking` (fairness) are theorems about
  all runs. Safety holds for arbitrary, also regressing, clock readings; only fairness, recovery and lease timing
  compare readings.
- **Worker.** `WorkerRunner` holds the decision for one claim as functions and the loop as a class whose methods call
  the database, with other processes committing before every call and with calls that may be lost before or after
  their commit. `LeaseTiming` is the heartbeat loop with its timing, `Backoff` the retry delays.
- **Action ledger.** `ActionLedger` and `LedgerHistory` give the current row per scope, the append-only history, and
  the proof that the history replays to the row; `ActionRepository.Repository` is the imperative form.
- **Providers.** `ProviderHttp` classifies one exchange; `SlackIdentity` is the identity gate of the Slack client;
  `MarkerSearch` is the paginated comment search.
- **Delivery.** `SlackDelivery` and `GitHubApply` are state machines: each call is a program counter, each await one
  event, and a ghost provider records which requests were sent and which took effect. `SlackAtMostOnce` proves that at
  most one message per scope ever takes effect, without any assumption about time or exclusivity. `GitHubInvariant`
  and `GitHubNoDuplicate` prove that at most one comment per scope is created in every run in which no call marks "no
  match" on a row that has moved on since the call last wrote it, however many live tasks share the scope;
  `GitHubExclusive` proves that driving a scope one task at a time is enough for that. `GitHubLimits` has what holds in
  every run, and `GitHubWitness` the runs from empty tables that show which condition is needed.
- **Answers.** `TaskOutcomes`, `WorkerOutcomes`, `LedgerOutcomes`, `SlackOutcomes` and `GitHubOutcomes` say what each
  operation answers and writes, on the columns of the rows and the events themselves. `SlackOutcomes.Delivers` and
  `GitHubProgress` prove that undisturbed calls do their work, so that safety is not had by doing nothing, and
  `GitHubContents` that a confirmed comment was given the contents asked for.
- **Decisions.** `CatalogPolicy` and `DecisionSnapshot` (over `Sorting`) are the pure parts of the workflow.

How the model is set up:

- A `session.begin()` block is one atomic step; an exception inside it is a reply ending in Raised with the old tables.
  Skipping locked rows never matters between atomic steps.
- Rows that the schema makes unique by something other than their UUID use that as key: attempts by (task, number),
  actions by scope. Lease tokens, worker names and fingerprints are uninterpreted values; no theorem assumes that
  tokens are fresh.
- The due test of a claim reads the clock per row and its lease reads it once more; the model uses one reading for all
  rows (`due`) and another for the lease (`now`).
- A cancellation checkpoint in a handler is the event that abandons the call, which may happen between any two awaits.
- The hypotheses of the GitHub result are guards of the state machine, not axioms: a create lands before the
  settlement deadline of its write or never (`Land`); a comment that is not yet bound keeps its marker (`Edit`); a
  confirmed write has taken effect on the comment it names (`Answer`, `LandUpdate`); one clock that never goes back (`Tick`); with
  `exclusive` set, a task reserves a scope only while no call of another task on it still holds its fence
  (`Reserving`). Nothing is assumed about refused writes.
- The Slack result assumes of the provider that a message refused for a rate limit, or never transmitted, does not
  take effect, and that a receipt is given for a message that did (`Answer`). Answers that count as permanent are not
  assumed to mean anything; they are never followed by another message.
- A worker's own heartbeats are among the transactions committed beside its calls and are recognised by their fence.
  That nobody else uses that fence is a hypothesis (`Private`) only where it is needed.
- Where code and documentation differ the code is modelled. The integration design page
  (docs/wiki/Enterprise-Integration-Design.md:161-171) lists ready_to_execute as an ordinary step of the lifecycle, and
  the reconciliation step lets a call in with that status (workflow.py:490-494), but every later transition expects
  reconciling, so the call raises: `GitHubLimits.ReadyIsNeverResumed` and `GitHubLimits.ResumableIff`, with a run that
  gets there in `GitHubWitness.ReadyCanBeLeft`.
- The retry transaction itself does not look at the attempt budget; `AttemptBudget.RetryStrandsIff` says exactly when
  it would strand a task, and `WorkerRunner.FleetKeepsBudget` that the workers together never do.

## Model

| member | source | states |
|---|---|---|
| TaskStore.NextClaimIsFirst | src/ninjatech_deployment_lab/worker/repository.py:56-68 | a claim selects the unique first qualifying row by (available_at, created_at, id), and finds none exactly when none qualifies |
| TaskStore.NextExpiredIsFirst | src/ninjatech_deployment_lab/worker/repository.py:261-290 | recovery selects the unique first expired row by (lease_expires_at, id), and finds none exactly when none is expired |
| TaskOutcomes.CommandTable | src/ninjatech_deployment_lab/tasks/domain.py:76-110 | the command table, edge by edge; everything else is rejected |
| TaskOutcomes.CreationMeans | src/ninjatech_deployment_lab/tasks/service.py:111-122 | the columns of a new row; an existing id or an empty budget changes nothing |
| TaskOutcomes.ApprovalMeans | src/ninjatech_deployment_lab/tasks/service.py:160-180 | a pending task becomes available at the clock reading; approved replays, all else is refused |
| TaskOutcomes.CancellationMeans | src/ninjatech_deployment_lab/tasks/service.py:194-220 | a waiting task is cancelled, a running one asked to stop once, a finished one refuses |
| TaskOutcomes.ClaimPicks | src/ninjatech_deployment_lab/worker/repository.py:56-71 | the claimed row was approved, due, in budget, of a supported type, and before every other such row; nothing due exactly when no row is such |
| TaskOutcomes.ClaimWrites | src/ninjatech_deployment_lab/worker/repository.py:72-97 | the columns of the claimed task and of its new attempt; no other row changes |
| TaskOutcomes.HeartbeatMeans | src/ninjatech_deployment_lab/worker/repository.py:120-161 | a heartbeat raises exactly when the columns of the fence do not match; its answer and columns otherwise |
| TaskOutcomes.FinalizationAnswers | src/ninjatech_deployment_lab/worker/repository.py:399-478 | stale, cancellation requested and applied, each exactly by the columns of the row |
| TaskOutcomes.FinalizationTouches | src/ninjatech_deployment_lab/worker/repository.py:410-458 | what an applied finalization writes beside its status, and that no other row changes |
| TaskOutcomes.SuccessRow | src/ninjatech_deployment_lab/worker/repository.py:163-183 | task and attempt after an applied success |
| TaskOutcomes.RetryRow | src/ninjatech_deployment_lab/worker/repository.py:185-212 | an applied retry makes the task available exactly at its stamp plus the delay |
| TaskOutcomes.FailureRow | src/ninjatech_deployment_lab/worker/repository.py:214-240 | task and attempt after an applied failure |
| TaskOutcomes.CancelledRow | src/ninjatech_deployment_lab/worker/repository.py:242-259 | task and attempt after an applied cancellation |
| TaskOutcomes.RecoveryMeans | src/ninjatech_deployment_lab/worker/repository.py:261-397 | recovery takes the overdue row with the earliest lease end and sends it to cancelled, failed, or approved at now plus the delay |
| TaskDatabase.Database.Create | src/ninjatech_deployment_lab/tasks/service.py:111-122 | a new row starts pending with no attempt; an existing id changes nothing (keys and fingerprints: see below) |
| TaskDatabase.Database.Approve | src/ninjatech_deployment_lab/tasks/service.py:160-180 | approval under the command table, replayed silently, refused otherwise |
| TaskDatabase.Database.Cancel | src/ninjatech_deployment_lab/tasks/service.py:194-220 | cancels a waiting task at once, records a request on a running one, replays, refuses finished ones |
| TaskDatabase.Database.ClaimOneTask | src/ninjatech_deployment_lab/worker/repository.py:40-109 | the claim, with its attempt row, lease and returned fence |
| TaskDatabase.Database.ExtendLease | src/ninjatech_deployment_lab/worker/repository.py:111-161 | the heartbeat: extends the lease only when no cancellation is recorded, raises when the fence does not match |
| TaskDatabase.Database.CloseUnderFence | src/ninjatech_deployment_lab/worker/repository.py:399-478 | the shared finalization and the classification of a failed fence |
| TaskDatabase.Database.Succeed | src/ninjatech_deployment_lab/worker/repository.py:163-183 | success under the fence |
| TaskDatabase.Database.Retry | src/ninjatech_deployment_lab/worker/repository.py:185-212 | back to approved, available after the delay, under the fence |
| TaskDatabase.Database.Fail | src/ninjatech_deployment_lab/worker/repository.py:214-240 | failure under the fence |
| TaskDatabase.Database.AcknowledgeCancellation | src/ninjatech_deployment_lab/worker/repository.py:242-259 | cancellation under the fence, only when one is recorded |
| TaskDatabase.Database.RecoverExpired | src/ninjatech_deployment_lab/worker/repository.py:261-397 | one expired lease: cancelled, failed or approved again |
| TaskInvariants.ApplyOk | src/ninjatech_deployment_lab/tasks/model.py:56-92 | every transaction keeps every CHECK constraint and the task/attempt agreement, changes a status only along the command table, and raises updated_at on every status change |
| TaskInvariants.RunOk | src/ninjatech_deployment_lab/worker/repository.py:72-97 | the same over any run: closed attempts never change, attempt_count never falls, finished tasks stay finished |
| TaskInvariants.ReachableIsValid | src/ninjatech_deployment_lab/tasks/model.py:139-160 | in every reachable state attempts are numbered exactly 1..attempt_count, and only the last can be open, with the task's worker and token, exactly while the task runs |
| TaskInvariants.ClaimRowOk | src/ninjatech_deployment_lab/worker/repository.py:72-97 | a selected row can always be claimed, and the claim keeps the invariants |
| TaskInvariants.RecoverRowOk | src/ninjatech_deployment_lab/worker/repository.py:295-375 | a selected row can always be recovered, to the status its cancellation and budget call for |
| TaskInvariants.ClosedAttemptFencesOut | src/ninjatech_deployment_lab/worker/repository.py:487-498 | once an attempt is closed its fence matches nothing, after any run and at any clock reading |
| TaskInvariants.StaleWorkerChangesNothing | src/ninjatech_deployment_lab/worker/repository.py:399-478 | later heartbeats and finalizations of a closed attempt change no row |
| TaskInvariants.CancellationIsNeverLost | src/ninjatech_deployment_lab/worker/repository.py:126-132 | after a cancel on a running task, every run keeps it, adds no attempt, freezes the lease and reaches no other end |
| TaskInvariants.OwnerMayAcknowledge | src/ninjatech_deployment_lab/worker/repository.py:410-441 | a live owner's acknowledgement is accepted, every other finalization is refused |
| LeaseRecovery.RecoveryProgress | src/ninjatech_deployment_lab/worker/repository.py:261-290 | one recovery past a lease ends that attempt or shortens the queue before it |
| LeaseRecovery.RecoveriesAloneFinish | src/ninjatech_deployment_lab/worker/repository.py:295-375 | recoveries alone, at one clock reading, end an expired attempt and leave its task cancelled, failed or approved as its cancellation and budget say |
| LeaseRecovery.EndsOrStands | src/ninjatech_deployment_lab/worker/repository.py:126-132 | each transaction either ends an attempt whose owner no longer extends it or leaves it, its lease and its owner as they were |
| LeaseRecovery.RecoveryFinishes | src/ninjatech_deployment_lab/worker/repository.py:261-375 | in any run whose new leases end later, more recoveries past a lease than tasks before it end its attempt, if a cancellation is recorded or its owner has stopped beating |
| LeaseRecovery.CancellationBecomesFinal | src/ninjatech_deployment_lab/worker/repository.py:320-329 | in any such run a recorded cancellation becomes final, whatever its owner and the other workers do |
| LeaseRecovery.AbandonedLeaseStands | src/ninjatech_deployment_lab/worker/repository.py:126-132 | once its owner stops beating, a running attempt keeps its lease and becomes recoverable when it ends |
| AttemptBudget.ApplyBudget | src/ninjatech_deployment_lab/worker/runner.py:448-458 | with the worker's test, "approved implies an attempt left" is kept by every transaction |
| AttemptBudget.NoStrandedTask | src/ninjatech_deployment_lab/worker/repository.py:58-63 | in every disciplined run a due approved task can be claimed by a worker of its type |
| AttemptBudget.RetryStrandsIff | src/ninjatech_deployment_lab/worker/repository.py:185-212 | the retry transaction alone strands a task exactly when the attempt was the last one allowed |
| AttemptBudget.MeasureDrops | src/ninjatech_deployment_lab/worker/repository.py:330-345 | every status change costs one unit of a bounded measure |
| AttemptBudget.AttemptsCountClaims | src/ninjatech_deployment_lab/worker/repository.py:72-82 | attempt_count counts exactly the claims that hand out the task |
| AttemptBudget.TaskComesToRest | src/ninjatech_deployment_lab/worker/runner.py:448-485 | a task changes status at most 2·max_attempts+1 times, and at most max_attempts claims hand it out |
| BoundedOvertaking.NobodyJoinsAhead | src/ninjatech_deployment_lab/tasks/service.py:169-179 | approvals, retries and recoveries enqueue only behind a due task |
| BoundedOvertaking.ServingClaimTakesOneAhead | src/ninjatech_deployment_lab/worker/repository.py:56-83 | a claim by a worker of its type that passes a due task uses up one of the tasks ahead of it |
| BoundedOvertaking.OvertakingIsBounded | src/ninjatech_deployment_lab/worker/repository.py:56-83 | while a due task waits, such claims number at most the tasks ahead of it at the start |
| BoundedOvertaking.DueTaskIsServed | src/ninjatech_deployment_lab/worker/repository.py:340-342 | with more such claims than that, the task does not wait throughout |
| WorkerRunner.NoCauseMeansHandlerFinished | src/ninjatech_deployment_lab/worker/runner.py:174-200 | when no stop cause is found the handler task is done, so its result can be read |
| WorkerRunner.OutcomeDiscipline | src/ninjatech_deployment_lab/worker/runner.py:330-511 | for every schedule: success, retry, cancellation and leaving are each asked for exactly under their conditions |
| WorkerRunner.LateHandlerIsIgnored | src/ninjatech_deployment_lab/worker/runner.py:288-293 | after a stop cause, no handler return or exception changes the outcome, and none is a success |
| WorkerOutcomes.ScheduleDecides | src/ninjatech_deployment_lab/worker/runner.py:174-247 | the heartbeat's cause decides whatever else finished, then a timeout, then the handler, then the shutdown; each with its exact request |
| WorkerOutcomes.SuccessIff | src/ninjatech_deployment_lab/worker/runner.py:267-271 | success is asked for exactly when neither heartbeat nor timeout finished in the deciding wait and the handler returned that valid value |
| WorkerOutcomes.RetiresIff | src/ninjatech_deployment_lab/worker/runner.py:200-232 | the events after which a worker stops claiming, exactly |
| WorkerOutcomes.ClaimEndsAs | src/ninjatech_deployment_lab/worker/runner.py:330-511 | from the finished tasks and the handler's end to the row of the task, when its one call is heard to be applied |
| WorkerOutcomes.LastCallRow | src/ninjatech_deployment_lab/worker/runner.py:499-511 | the rows that the last applied call of a claim leaves; an acknowledgement leaves the task cancelled |
| WorkerRunner.OneFinalizationPerAttempt | src/ninjatech_deployment_lab/worker/repository.py:399-458 | in every run of any number of workers at most one finalization of an attempt is applied |
| WorkerRunner.GrantsDiffer | src/ninjatech_deployment_lab/worker/repository.py:74-98 | two claims never hand out the same attempt |
| WorkerRunner.BackedFrom | src/ninjatech_deployment_lab/worker/runner.py:448-458 | a run in which workers only finalize claims they hold, and retry within their budget, is disciplined |
| WorkerRunner.FleetKeepsBudget | src/ninjatech_deployment_lab/worker/runner.py:448-485 | hence such a run from empty tables keeps the attempt budget |
| WorkerRunner.Worker.Finalization | src/ninjatech_deployment_lab/worker/runner.py:411-414 | one finalization call: what it commits and what the worker hears |
| WorkerRunner.Worker.FinalizeCustomerCancellation | src/ninjatech_deployment_lab/worker/runner.py:419-435 | acknowledges the cancellation; anything heard but applied retires the worker |
| WorkerRunner.AppliedCloses | src/ninjatech_deployment_lab/worker/repository.py:399-458 | a last finalization that is heard to be applied has closed the attempt |
| WorkerRunner.Worker.Settle | src/ninjatech_deployment_lab/worker/runner.py:411-511 | a fence refused for a cancellation is followed by its acknowledgement, and by nothing else |
| WorkerRunner.Worker.FirstCause | src/ninjatech_deployment_lab/worker/runner.py:174-200 | the two waits compute the cause, the heartbeat's before the timeout's |
| WorkerRunner.Worker.Interfere | src/ninjatech_deployment_lab/worker/runner.py:295-328 | what is committed beside the calls; only the running claim's heartbeats are the worker's own |
| WorkerRunner.Worker.ExecuteClaim | src/ninjatech_deployment_lab/worker/runner.py:139-258 | one claim makes the calls its intent asks for, at most two, stops claiming exactly on uncertainty, and on return makes no further heartbeat of it |
| WorkerRunner.DepartureEndsBeats | src/ninjatech_deployment_lab/worker/runner.py:249-258 | after the worker has left a claim nothing beats with its fence, given that nobody else knows it |
| WorkerRunner.LeftClaimIsRecovered | src/ninjatech_deployment_lab/worker/runner.py:223-231 | hence a claim left unfinished is ended by recovery once its lease is past and its turn comes |
| WorkerRunner.Worker.TryClaim | src/ninjatech_deployment_lab/worker/runner.py:96-115 | the claim is made, with the worker's own types and lease, unless lost before; it is heard exactly when granted and not lost |
| WorkerRunner.Worker.TryRecover | src/ninjatech_deployment_lab/worker/runner.py:78-95 | the recovery is made unless lost before, and heard exactly when it neither raised nor was lost |
| WorkerRunner.Worker.Work | src/ninjatech_deployment_lab/worker/runner.py:66-120 | the first `served` rounds are run one after another, each a recovery, a claim and its execution as heard; only the last can have retired the worker or lost a finalization; the loop ends only for shutdown or one of these |
| LeaseTiming.ClaimHolds | src/ninjatech_deployment_lab/worker/repository.py:72-84 | a committed claim owns its task under a lease counted from its clock reading |
| LeaseTiming.OthersKeepOwner | src/ninjatech_deployment_lab/worker/repository.py:487-498 | transactions of others inside the lease leave the owner and its lease in place |
| LeaseTiming.BeatOfOwner | src/ninjatech_deployment_lab/worker/repository.py:120-161 | an owner's beat is refused exactly from the end of its lease on, and active exactly without a cancellation |
| LeaseTiming.BeatArrivesInTime | src/ninjatech_deployment_lab/config.py:93-95 | with interval at most a third of the lease and overhead under two intervals, every beat is in time; only a cancellation makes it inactive |
| LeaseTiming.HeartbeatLoop | src/ninjatech_deployment_lab/worker/runner.py:295-328 | the loop beats until the first answer that is not an active lease and returns its cause |
| LeaseTiming.HeardIff | src/ninjatech_deployment_lab/worker/runner.py:303-321 | a beat is heard unless it is lost or its fence does not match |
| LeaseTiming.PacedHeartbeatLoop | src/ninjatech_deployment_lab/worker/runner.py:295-328 | a paced loop never reports ownership loss, however long it runs |
| Backoff.DelayIsBounded | src/ninjatech_deployment_lab/worker/domain.py:94-103 | the delay fails exactly outside [0,1]; otherwise it is positive and between half the ceiling and the ceiling, with the ends exactly at 0 and 1 |
| Backoff.JitterCoversTheInterval | src/ninjatech_deployment_lab/worker/domain.py:94-103 | every value of that interval is the delay of some draw |
| Backoff.CeilingIsMonotone | src/ninjatech_deployment_lab/worker/domain.py:96-99 | ceilings never fall and stay at the cap once there |
| Backoff.CeilingDoubles | src/ninjatech_deployment_lab/worker/domain.py:96-99 | the first ceiling is the base, and each further one is twice the last until the cap |
| Backoff.CeilingSaturates | src/ninjatech_deployment_lab/config.py:96-98 | from attempt cap/base on the ceiling is the cap |
| Backoff.TotalDelayIsBounded | src/ninjatech_deployment_lab/worker/domain.py:94-103 | the first n delays of a task sum to at most min(cap·n, base·(2^n − 1)) |
| ActionRepository.Repository.ReserveOrGet | src/ninjatech_deployment_lab/integrations/persistence.py:168-282 | first reservation, replay, changed request or source drift, under the task fence |
| ActionRepository.Repository.Move | src/ninjatech_deployment_lab/integrations/persistence.py:284-394 | one guarded transition with its columns, delays and history entry; a CHECK violation rolls back |
| ActionRepository.Repository.ReviseAction | src/ninjatech_deployment_lab/integrations/persistence.py:396-453 | a new revision of a succeeded action |
| LedgerOutcomes.ReservationMeans | src/ninjatech_deployment_lab/integrations/persistence.py:168-282 | every answer of a reservation by the columns of the row, and the columns and entry it writes |
| LedgerOutcomes.TransitionMeans | src/ninjatech_deployment_lab/integrations/persistence.py:297-394 | every answer of a transition, and each column and the entry it writes |
| LedgerOutcomes.RevisionMeans | src/ninjatech_deployment_lab/integrations/persistence.py:396-453 | when a revision is made; desired and snapshot are the new ones, the evidence of the old stays |
| LedgerOutcomes.ReservedAgain | src/ninjatech_deployment_lab/integrations/persistence.py:236-262 | in any run without another revision, a reservation replays the request of the last one, and tells changed requests from drifted sources |
| LedgerOutcomes.RevisionIsReplayed | src/ninjatech_deployment_lab/integrations/persistence.py:424-450 | after a revision the new request is the one that replays, whatever runs in between |
| LedgerHistory.RecordOk | src/ninjatech_deployment_lab/integrations/persistence.py:351-363 | appending one well-chained entry keeps every history in step with its row |
| LedgerHistory.ReplayMeans | src/ninjatech_deployment_lab/integrations/persistence.py:405-453 | a replayable history is numbered 1..n, chains from status to status, and raises the revision only at revision_reserved |
| LedgerHistory.ReachableWorldIsOk | src/ninjatech_deployment_lab/integrations/persistence.py:180-282 | in every run of tasks and ledger, each history replays to its row and one task's entries are in attempt order |
| LedgerHistory.WorldRunOk | src/ninjatech_deployment_lab/integrations/persistence.py:545-575 | the same from any good state |
| LedgerHistory.ClosedAttemptWritesNothing | src/ninjatech_deployment_lab/integrations/persistence.py:545-575 | after an attempt is closed, no later ledger write with its fence changes anything |
| ProviderHttp.RequestJson | src/ninjatech_deployment_lab/integrations/http.py:98-171 | the buffered read computes the outcome of the whole body: a write that is too large or unreadable is ambiguous |
| ProviderHttp.SlackKnownUnsentIff | src/ninjatech_deployment_lab/integrations/slack.py:196-244 | a post is reported as known unsent exactly when it cannot have been accepted and its answer fits the size bound |
| ProviderHttp.GitHubKnownUnsentIff | src/ninjatech_deployment_lab/integrations/connectors.py:456-506 | the same for a comment write; a comment is reported only from a complete 2xx answer |
| ProviderHttp.ReadOutcome | src/ninjatech_deployment_lab/integrations/http.py:98-171 | what a read makes of each exchange, exactly |
| ProviderHttp.ReceiptIff | src/ninjatech_deployment_lab/integrations/slack.py:227-244 | a receipt exactly for a complete ok answer with the channel asked for and a good timestamp |
| ProviderHttp.PostRetryableIff | src/ninjatech_deployment_lab/integrations/slack.py:205-219 | a post may be sent again exactly when never transmitted or rate-limited, with its advice kept in bounds |
| ProviderHttp.WrittenIff | src/ninjatech_deployment_lab/integrations/connectors.py:588-604 | a comment is reported exactly from a complete 2xx answer with all its fields |
| ProviderHttp.WriteRetryableIff | src/ninjatech_deployment_lab/integrations/connectors.py:456-506 | a comment write may be retried exactly when never transmitted or rate-limited |
| ProviderHttp.KnownUnsentDelayMeans | src/ninjatech_deployment_lab/integrations/slack.py:802-806 | five seconds without advice, else the advice but at least one second |
| ProviderHttp.KnownUnsentDelayIsBounded | src/ninjatech_deployment_lab/integrations/slack.py:792-806 | the not-before delay is at least one second and at most the larger of five seconds and the configured maximum |
| SlackIdentity.IdentifiedMeansOk | src/ninjatech_deployment_lab/integrations/slack.py:151-168 | an identity is only read from a complete ok answer |
| SlackIdentity.IdentifiedIff | src/ninjatech_deployment_lab/integrations/slack.py:735-743 | the identity an answer names, by its columns |
| SlackIdentity.TestFailures | src/ninjatech_deployment_lab/integrations/slack.py:160-168 | which failed tests are retryable, which final |
| SlackIdentity.MatchesIff | src/ninjatech_deployment_lab/integrations/slack.py:169-174 | team and user exactly, and the bot where one is configured |
| SlackIdentity.Client.CacheAuthorizes | src/ninjatech_deployment_lab/integrations/slack.py:281-290 | the cache authorizes exactly when the latest completed test was of this credential, matched the settings and is recent |
| SlackIdentity.Client.VerifyIdentity | src/ninjatech_deployment_lab/integrations/slack.py:147-185 | a positive answer means the credential is authorized; a failed test leaves the cache, a mismatch clears it |
| SlackIdentity.Client.PostNotification | src/ninjatech_deployment_lab/integrations/slack.py:187-195 | a message is handed over exactly when its credential is authorized at that moment |
| SlackAtMostOnce.StepKeeps | src/ninjatech_deployment_lab/integrations/slack.py:374-605 | every event of every call, crash, transaction and message keeps the delivery invariant |
| SlackAtMostOnce.AtMostOneMessage | src/ninjatech_deployment_lab/integrations/slack.py:374-605 | in every run at most one message per scope took effect or still can |
| SlackAtMostOnce.SentOnlyAfterKnownUnsent | src/ninjatech_deployment_lab/integrations/slack.py:416-430 | a message is sent only when all earlier ones of the scope are known never to exist |
| SlackAtMostOnce.DeliveredMeansOneMessage | src/ninjatech_deployment_lab/integrations/slack.py:809-821 | a reported delivery has its evidence, and exactly one message of the scope exists |
| SlackAtMostOnce.SuccessNamesTheMessage | src/ninjatech_deployment_lab/integrations/slack.py:585-605 | a succeeded row names the one message that took effect |
| SlackAtMostOnce.EpochHasOneOwner | src/ninjatech_deployment_lab/integrations/slack.py:416-425 | an open write is left only by the call that opened it or into outcome_unknown |
| SlackAtMostOnce.FinalIsForever | src/ninjatech_deployment_lab/integrations/slack.py:394-415 | final statuses never change again |
| SlackAtMostOnce.DeliveryNeverViolatesChecks | src/ninjatech_deployment_lab/integrations/model.py:161-170 | no transition of delivery can break a CHECK constraint or pass bad delays |
| SlackOutcomes.ReservationLeadsTo | src/ninjatech_deployment_lab/integrations/slack.py:374-442 | where a reserved call goes, one line per status and column |
| SlackOutcomes.ResolvingMeans | src/ninjatech_deployment_lab/integrations/slack.py:416-430 | an unresolved write becomes outcome_unknown |
| SlackOutcomes.DelayMeans | src/ninjatech_deployment_lab/integrations/slack.py:432-440 | a known-unsent action is retried exactly from its not-before time on |
| SlackOutcomes.IdentityLeadsTo | src/ninjatech_deployment_lab/integrations/slack.py:442-446 | a verified identity goes on to the write, any other is refused |
| SlackOutcomes.IdentityMeans | src/ninjatech_deployment_lab/integrations/slack.py:447-516 | what each refused identity records, and when it may be tried again |
| SlackOutcomes.StartMeans | src/ninjatech_deployment_lab/integrations/slack.py:519-530 | opening the write: its start and settlement time are on the row first |
| SlackOutcomes.PostingMeans | src/ninjatech_deployment_lab/integrations/slack.py:532-537 | sending adds one message; a refusal before sending adds none |
| SlackOutcomes.AnswerMeans | src/ninjatech_deployment_lab/integrations/slack.py:196-244 | how an answer moves the call, and what it settles about its message |
| SlackOutcomes.RecordingMeans | src/ninjatech_deployment_lab/integrations/slack.py:537-605 | the row and answer for each outcome of the post |
| SlackOutcomes.Delivers | src/ninjatech_deployment_lab/integrations/slack.py:374-605 | from every reachable state, an undisturbed eligible delivery posts exactly one message and ends delivered |
| GitHubNoDuplicate.EmptySearchIsCold | src/ninjatech_deployment_lab/integrations/workflow.py:687-713 | an empty search after the holdoff proves that nothing can land any more, as long as the row is still the call's own |
| GitHubNoDuplicate.StepKeeps | src/ninjatech_deployment_lab/integrations/workflow.py:490-658 | every event keeps the invariant unless it accepts a stale mark, with any number of tasks on a scope |
| GitHubNoDuplicate.FreshMarksMeanOneComment | src/ninjatech_deployment_lab/integrations/workflow.py:583-589 | without exclusivity: if every accepted mark finds the row the call last wrote, at most one comment per scope is ever created |
| GitHubNoDuplicate.BoundForever | src/ninjatech_deployment_lab/integrations/workflow.py:601-614 | in those runs a bound scope keeps its comment and never gets another |
| GitHubExclusive.StoreKeeps | src/ninjatech_deployment_lab/integrations/persistence.py:545-575 | task transactions revive no fence, so a call that holds its fence still has the row in hand |
| GitHubExclusive.ExclusiveRunsAreFresh | src/ninjatech_deployment_lab/integrations/workflow.py:583-589 | runs that drive each scope one task at a time accept no stale mark |
| GitHubExclusive.AtMostOneComment | src/ninjatech_deployment_lab/integrations/workflow.py:490-713 | in every such run at most one comment per scope is ever created |
| GitHubLimits.WorkflowNeverViolatesChecks | src/ninjatech_deployment_lab/integrations/model.py:161-170 | no transition of the workflow can break a CHECK constraint or pass bad delays, and a reported success has its evidence, however many tasks interleave |
| GitHubLimits.ReadyIsNeverResumed | src/ninjatech_deployment_lab/integrations/workflow.py:490-506 | a row left ready to execute, with no call about to write, keeps that status for ever |
| GitHubLimits.ResumableIff | src/ninjatech_deployment_lab/integrations/workflow.py:490-506 | a replaying call gets its row to reconciling exactly when it did not find ready_to_execute |
| GitHubContents.ConfirmedContents | src/ninjatech_deployment_lab/integrations/workflow.py:547-581 | in every run, a call confirmed by adoption or by its write names a landed comment of its scope that was given the contents it asked for |
| GitHubContents.ReplayedContents | src/ninjatech_deployment_lab/integrations/workflow.py:346-400 | one task at a time, the same holds of a replayed success |
| GitHubOutcomes.ReservationLeadsTo | src/ninjatech_deployment_lab/integrations/workflow.py:304-345 | where a reserved call goes, by the columns of its row |
| GitHubOutcomes.ReadMeans | src/ninjatech_deployment_lab/integrations/workflow.py:547-569 | what the comment that was read leads to: adoption, the write of a controlled revision, review, or a first write |
| GitHubOutcomes.AdoptsIff | src/ninjatech_deployment_lab/integrations/workflow.py:547-581 | adoption exactly for the one comment with exactly the contents asked for |
| GitHubOutcomes.WritesIff | src/ninjatech_deployment_lab/integrations/workflow.py:547-589 | a write exactly after an empty search, or when a controlled revision finds other contents |
| GitHubOutcomes.OtherReadsMean | src/ninjatech_deployment_lab/integrations/workflow.py:715-757 | reads that fail, and the check of the bound comment before a revision |
| GitHubOutcomes.StartMeans | src/ninjatech_deployment_lab/integrations/workflow.py:490-506 | reconciliation opens from four statuses and goes on as the returned row says |
| GitHubOutcomes.HoldoffMeans | src/ninjatech_deployment_lab/integrations/workflow.py:687-696 | the search waits exactly until the row's not-before time |
| GitHubOutcomes.FailuresMean | src/ninjatech_deployment_lab/integrations/workflow.py:516-545 | what a failed or inconclusive reconciliation records |
| GitHubOutcomes.ReadyMeans | src/ninjatech_deployment_lab/integrations/workflow.py:583-589 | the mark before a write |
| GitHubOutcomes.WriteMeans | src/ninjatech_deployment_lab/integrations/workflow.py:591-598 | opening the write: its start and settlement time are on the row first |
| GitHubOutcomes.SendMeans | src/ninjatech_deployment_lab/integrations/workflow.py:601-614 | an unbound call creates, a bound one updates its comment |
| GitHubOutcomes.AnswerMeans | src/ninjatech_deployment_lab/integrations/workflow.py:615-647 | how an answer moves the call |
| GitHubOutcomes.RecordingMeans | src/ninjatech_deployment_lab/integrations/workflow.py:615-656 | the row and answer for each outcome of the write |
| GitHubOutcomes.AdoptingMeans | src/ninjatech_deployment_lab/integrations/workflow.py:570-581 | what an adoption records |
| GitHubOutcomes.RevisingMeans | src/ninjatech_deployment_lab/integrations/workflow.py:757-764 | a revision takes the new request and starts reconciliation again |
| GitHubProgress.Creates | src/ninjatech_deployment_lab/integrations/workflow.py:490-658 | from every reachable state, an undisturbed call on a new scope creates exactly one comment and confirms it |
| GitHubProgress.Updates | src/ninjatech_deployment_lab/integrations/workflow.py:715-764 | from every reachable state, an undisturbed controlled revision overwrites the bound comment and confirms it |
| GitHubWitness.ReadyCanBeLeft | src/ninjatech_deployment_lab/integrations/workflow.py:583-598 | a run from empty tables that leaves a row ready to execute with no call about to write |
| GitHubWitness.LiveTasksCanDuplicate | src/ninjatech_deployment_lab/integrations/workflow.py:583-598 | a run from empty tables in which live tasks on one scope land two comments in time, because the re-check sees only the status name |
| GitHubWitness.ExclusivityIsExact | src/ninjatech_deployment_lab/integrations/workflow.py:490-658 | with a positive settlement delay, no run from empty tables duplicates a comment exactly when one task at a time may drive a scope |
| MarkerSearch.FindCommentsByMarker | src/ninjatech_deployment_lab/integrations/connectors.py:368-398 | the page loop, for any provider and any failure |
| MarkerSearch.SearchIsExact | src/ninjatech_deployment_lab/integrations/connectors.py:376-398 | for a list with f full pages: complete exactly when f < max_pages and (f = 0 or 100·f < max_items); the matches are those of the reached prefix, of the whole list when complete; unreadable items fail it |
| MarkerSearch.EmptyAndCompleteIff | src/ninjatech_deployment_lab/integrations/connectors.py:393-398 | empty and complete exactly when the list is within reach and no comment carries the marker |
| MarkerSearch.ContainsIff | src/ninjatech_deployment_lab/integrations/connectors.py:392 | a body carries the marker exactly when it can be cut around it |
| MarkerSearch.MatchesAreInOrder | src/ninjatech_deployment_lab/integrations/connectors.py:388-392 | every element contributes its comment in its place exactly when marked |
| MarkerSearch.PageIs | src/ninjatech_deployment_lab/integrations/connectors.py:379-385 | page p of a list is its slice of a hundred from 100·(p − 1) |
| CatalogPolicy.ProjectOfKey | src/ninjatech_deployment_lab/integrations/policy.py:44-48 | the project of a key is what precedes its first hyphen |
| CatalogPolicy.StaticScopeIff | src/ninjatech_deployment_lab/integrations/policy.py:23-53 | a request passes exactly when service, repository and project are all allowed; a refusal is a block that names the first that is not |
| CatalogPolicy.StaticScopeIsMonotone | src/ninjatech_deployment_lab/integrations/policy.py:28-48 | case does not matter, and a wider allow-list never refuses what a narrower one admitted |
| CatalogPolicy.SignaturesDecide | src/ninjatech_deployment_lab/integrations/policy.py:79-98 | outcome and code depend only on the set of signatures of the resolving records |
| CatalogPolicy.OrderDoesNotMatter | src/ninjatech_deployment_lab/integrations/policy.py:56-153 | any permutation of the records gives the same outcome and code |
| CatalogPolicy.ReadyIff | src/ninjatech_deployment_lab/integrations/policy.py:99-153 | READY exactly when some record resolves, all agree, and each meets every condition |
| CatalogPolicy.ReadyIsClosedUnderSubsets | src/ninjatech_deployment_lab/integrations/policy.py:62-153 | dropping records never revokes READY while one that resolves is left |
| CatalogPolicy.RecordExplainsDecision | src/ninjatech_deployment_lab/integrations/policy.py:98-153 | the named record resolves, has the latest version, and its own fields give the decision |
| CatalogPolicy.LatestIsFirst | src/ninjatech_deployment_lab/integrations/policy.py:98 | among records of the latest version the first is chosen |
| CatalogPolicy.ResolvesIff | src/ninjatech_deployment_lab/integrations/policy.py:62-72 | a record resolves by its name, canonical name or an alias, up to case |
| CatalogPolicy.SignatureIff | src/ninjatech_deployment_lab/integrations/policy.py:79-91 | records agree exactly on canonical name up to case and seven further columns |
| CatalogPolicy.UnresolvedAre | src/ninjatech_deployment_lab/integrations/policy.py:73-97 | the two answers without a record, exactly |
| CatalogPolicy.RefusalsAre | src/ninjatech_deployment_lab/integrations/policy.py:99-153 | when the records agree, the first condition that fails names outcome and code |
| DecisionSnapshot.GitHubSnapshotIsCanonical | src/ninjatech_deployment_lab/integrations/workflow.py:922-951 | equal structures exactly for equal policy, outcome, reason codes in order, and equal multisets of projected references |
| DecisionSnapshot.SlackSnapshotIsCanonical | src/ninjatech_deployment_lab/integrations/slack.py:688-732 | the same with reason codes as a multiset and with comment, revision, team and channel told apart |
| DecisionSnapshot.GitHubSnapshotShows | src/ninjatech_deployment_lab/integrations/workflow.py:934-951 | the fields of the structure, its sources sorted and complete |
| DecisionSnapshot.SlackSnapshotShows | src/ninjatech_deployment_lab/integrations/slack.py:695-732 | the same for Slack; without an expected team there is none |
| DecisionSnapshot.SourceOrder | src/ninjatech_deployment_lab/integrations/workflow.py:924-933 | sources are ordered by the first column on which they differ |
| Sorting.SortIsCanonical | src/ninjatech_deployment_lab/integrations/workflow.py:924-933 | sorting by a total order forgets the order of its argument and nothing else |

## Left out

- FastAPI routes, middleware, logging, metrics, readiness, compose, scripts and migrations: input and output around the protocol.
- TaskDatabase.Database.Create: does not model the idempotency key, the request fingerprint and the conflict error (tasks/service.py:123-142); creation is only the first step of a task's life here.
- Commands other than approve and cancel through `apply_command`: no route issues them.
- SQLAlchemy, asyncpg, isolation levels and `SKIP LOCKED` under contention: each transaction is one atomic step.
- Task results, inputs and error summaries are opaque text; error codes and summaries stand for the ones the code writes where several share a transition.
- asyncio itself: schedules, lost calls and crashes are arguments and events; the poll wait has no effect on the tables.
- SHA-256 and JSON serialisation: the structures before hashing are compared; equal hashes mean equal structures only if the hash is injective on them.
- Unicode case folding is a parameter of the policy; string comparison is by character.
- `Retry-After` is modelled as an optional number of seconds with its clamp; parsing the header is not.
- Floating point: backoff is over the reals; conversion of delays to microseconds rounds down in the model.
- Lease timing assumes whole time units and clock readings that do not fall during the run; safety does not.
- Jira and catalog normalisation, URL sanitising, message and comment rendering, source artifacts: easy members without state.
- `GitHubClient._read` and `_classify_read` appear as the four read outcomes of the GitHub state machine.
- The marker search of the GitHub state machine is one atomic read; a page list that changes between two page requests is not modelled.
- Comments that are not yet bound are assumed to keep their marker; a person deleting one before it is bound is outside the result.
- SlackDelivery uses identity outcomes as events; the gate that produces them is the class in SlackIdentity, and its refusals are the event RefuseToSend.
- WorkerRunner.Worker.Work: counts rounds of the loop and does not model the wait between them; reading the handler registry is left out.
- SlackAtMostOnce.EpochHasOneOwner: says nothing about the not-before delay, which the code checks only against the status read at reservation.
