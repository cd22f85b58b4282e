# AgentForge: verified model of scheduling, execution and delivery

AgentForge takes requests to run coding agents, schedules them onto clusters under tenant quotas and budgets,
executes them through a Kubernetes operator, and carries events between its parts with an outbox, a broker and a
retry ladder. This project models the three protocols that make that safe and proves what they guarantee over whole
runs: every interleaving, every crash, every redelivery.

`dafny verify dfyconfig.toml` checks everything.

## The three protocols

**Scheduler admission and reservation ledger.** `Store` holds the tables and every transaction as a function from
the whole database and a request to the state it commits and the answer it gives; `Execute` runs any sequence of
them, so any number of schedulers, API processes and relays interleave. `Eligibility` is the policy, `Queue` the
claim query, `Selection` the choice of a cluster, `Engine` the program each scheduler runs, `RunDomain` the lifecycle
graphs. `Admission` and `Commands` say from the tables alone when each transaction commits and what it writes.
`Ledger`, `Quota`, `Invariants`, `History`, `Lifecycle`, `Replay` and `Reclaim` prove what holds over runs.
`SchedulerStore.Repository` is the code in
its own form: a class whose methods check and then write one table after the other, each proved to commit exactly
what the function of the same name in `Store` says.

**Operator reconcile machine.** `Operator` gives one pass as a function of the snapshot it read, the clock and the
outcome of every API call. `OperatorPasses` and `OperatorCancel` say from those outcomes alone what a pass does: where it
stops, when it creates the Job, when it retries, when a cancellation turns to force. `OperatorRuns`, `OperatorJobs` and
`OperatorDeadlines` let passes, lost status patches, cancellation and arbitrary changes of the cluster follow each
other in any order. `Pods` reads Jobs and Pods, `Backoff` and `Naming` are the arithmetic and the names, `Cleanup` is the finalizer, and `Controller.Reconciler` is the controller in its own
form, proved to perform exactly the steps of `OperatorRuns`.

**Event delivery.** `Outbox` has the relays, `ProcessedEvents` (in `Outbox.dfy`) the marker transaction, `Delivery` the
consume loop and the retry ladder, `Handoff` the creation of the AgentRun, which is what a turn of the loop does with
its record. Each has the functions that specify it and a class that does the work in place.

`Common.dfy` holds `Common`, `Arithmetic`, `Sums`, `Decimal` and `Strings`; `Ordering` is `order by ... limit`.

## What turned out otherwise than documented

* *A crash before the marker safely repeats compares* (`services/platform-api/internal/application/handoff/service.go`,
  lines 79-80) holds if and only if the AgentRun is gone again, or the intent has at least one configuration reference,
  one secret reference and one retryable category, `desiredState` is still Running and the managed metadata is intact
  (and the namespace is free or still the tenant's). The handoff compares freshly allocated slices with the stored
  object, whose empty lists read back as nil, and it compares `desiredState`, which a cancellation changes; so an intent
  with an empty list, and a run cancelled between the two deliveries, are rejected for good and dead-lettered.
  `Handoff.RedeliveryConvergesIff` is the exact condition; `Handoff.InterruptedDeliveryStopsThere`,
  `Handoff.EmptySecretsAreDeadLettered` and `Handoff.CancelledMeanwhileIsDeadLettered` are the cases.
* An attempt's Job can be created twice. `OperatorJobs.OneJobPerAttempt` holds as long as no step removes the Job
  before a persisted status names it; `OperatorJobs.RemovedJobIsRecreated` shows that any such removal is followed by a
  second creation, and `OperatorJobs.LostPatchThenRemovalCreatesTwice` is the run.
* A cancelled AgentRun can leave its Job running. `OperatorDeadlines.OrphanIffUnrecorded`: the Job outlives a
  completed cancellation exactly when the persisted status names no Job while the cluster holds one;
  `OperatorDeadlines.LostPatchOrphansJob` is the run, one lost status patch followed by a cancellation request.
* Repeating a committed Schedule, DeferCapacity or Reject answers as before only while its outbox row exists; after
  CleanupPublished it answers not-found (`Replay.ScheduleReplays`, `Replay.DeferReplays`, `Replay.RejectReplays`, and
  `Replay.PurgedScheduleIsNotFound` for the case).
* An expired reservation is expired by its own transition if and only if it is strictly the newest of its attempt
  (`Reclaim.ReclaimedIffNewest`); `Reclaim.ReservedRowsAreNewest` shows that an advancing clock is enough. If an attempt
  is reserved, released and reserved again by a clock that stands still or steps back (`Reclaim.OvertakenIsReachable`),
  the released row may be returned instead and the answer is a conflict (`Reclaim.OvertakenRowBlocks`). A conflict at
  the head of the listing ends the sweep with nothing reclaimed, and the same row heads every later sweep of that
  table, so none of them reclaims anything (`Reclaim.BlockedForever`, `SchedulerStore.Repository.ReclaimExpired`).
* A retry command is recognised as a repeat only while it is the run's last command: the row keeps one receipt. After
  any transactions, repeating it answers as it did first if and only if no other command of the run has committed since
  (`Commands.RetryRepeatsIff`); otherwise it is a new retry, and starts a further attempt if the run has failed
  transiently again (`Commands.ForgottenRetryRunsAgain`). A cancellation is recognised for ever (`Commands.CancelIsFinal`).
* Saving SCHEDULING to TIMED_OUT, which the domain graph allows, never passes the lease constraint
  (`Invariants.SavedTimeoutIsRefused`): a saved transition leaves neither QUEUED nor SCHEDULING (`Invariants.SavedRow`).

Cluster capacity needs less than a steady clock: `Ledger.CapacityNeverExceeded` holds for schedulers whose clocks
disagree and step back, from the latest instant any of them has used.

## Model

| member | source | states |
|---|---|---|
| RunDomain.Transitioned | services/platform-api/internal/domain/agent_run.go:228-263 | a transition succeeds only along an edge, keeps CompletedAt exactly on terminal statuses and the attempt count within 1..MaxAttempts |
| RunDomain.AttemptTransitioned | services/platform-api/internal/domain/agent_run.go:299-342 | an attempt moves only along its graph and never changes its assignment |
| RunDomain.AgentRunAggregate.Transition | services/platform-api/internal/domain/agent_run.go:228-256 | the in-place method leaves the row the graph says, or the row untouched and the error |
| Eligibility.ValidPolicyValues | services/platform-api/internal/domain/scheduler_policy.go:139-148 | the scan with its seen map accepts exactly the lists, empty ones included, whose values are non-empty, bounded and without duplicates |
| Eligibility.EligibleIff | services/platform-api/internal/domain/scheduler_policy.go:103-208 | a run is eligible if and only if every limit of the policy admits it |
| Eligibility.DecisionIsFirstReason | services/platform-api/internal/domain/scheduler_policy.go:103-208 | the whole decision from the input fields: a tenant without a policy waits thirty seconds; otherwise the first reason that applies in the declared order decides, with its own code, the four about status and support rejecting, the six limits deferring by the policy's deferral |
| Eligibility.UndecidedIff | services/platform-api/internal/domain/scheduler_policy.go:103-148 | no decision is made exactly on an incomplete request, a malformed policy or a negative usage, each with its own error |
| Admission.ScheduleCommitsIff | services/platform-api/internal/adapters/postgres/scheduling_intent.go:26-114 | a Schedule commits for the first time if and only if the request is proper, the claim stands at its version under an unexpired lease of the owner, no reason of the policy as it is now applies, the cluster is active, out of maintenance, supports runtime and profile, allows the tenant and was heard of in time, what is held there unexpired leaves room, today leaves budget, and the attempt has no reservation |
| Admission.ScheduleRefusal | services/platform-api/internal/adapters/postgres/scheduling_intent.go:62-114 | otherwise a proper request on a standing claim is answered with the decision of the policy, capacity unavailable or budget unavailable, the first that applies |
| Admission.ScheduleWrites | services/platform-api/internal/adapters/postgres/scheduling_intent.go:93-146 | what a committed Schedule writes into runs, attempts, reservations, budget, usage, intents and outbox, and nothing else of them |
| Admission.AssignedOnlyWhereServed | services/platform-api/internal/adapters/postgres/scheduling_intent.go:320-350 | over every run, whenever an attempt is assigned, its cluster at that moment serves it, the policy has no reason against it, and capacity and budget cover it |
| Admission.CountsAreExact | services/platform-api/internal/adapters/postgres/scheduler_eligibility.go:113-139 | the counts of the usage query are those of exactly the tenant's active, the user's active and the tenant's waiting rows |
| Admission.LoadsAreExact | services/platform-api/internal/adapters/postgres/scheduler_eligibility.go:113-139 | its sums are the CPU and memory of exactly the active rows and today's spent and reserved |
| Admission.RenewCommitsIff | services/platform-api/internal/adapters/postgres/scheduler_queue.go:107-134 | a lease is renewed if and only if its owner asks at the current version before it is over, and nothing but the lease changes |
| Admission.DeferCommitsIff | services/platform-api/internal/adapters/postgres/scheduling_intent.go:152-207 | a wait commits if and only if it is proper, names a later instant and the run is still the claimant's |
| Admission.RejectCommitsIff | services/platform-api/internal/adapters/postgres/scheduling_intent.go:209-282 | a rejection commits if and only if it is proper, the run is still the claimant's and the attempt is its current, pending one at the claimed version |
| Admission.DifferentScheduleIsRefused | services/platform-api/internal/adapters/postgres/scheduling_intent.go:358-398 | on a provisioned run a Schedule is answered Ok only if cluster, profile, budget, duration, strategy, score and desired state are those committed |
| Admission.DifferentDecisionIsRefused | services/platform-api/internal/adapters/postgres/scheduling_intent.go:165-182 | a repeated wait or rejection is answered Ok only with the same version, code, reason and instant |
| Admission.ReserveCommitsIff | services/platform-api/internal/adapters/postgres/reservations.go:23-92 | a reservation is inserted if and only if the request is in range, the cluster's snapshot leaves room beside what is held, today leaves budget, and the attempt exists and has no outstanding one |
| Admission.ReserveWrites | services/platform-api/internal/adapters/postgres/reservations.go:64-92 | it holds the amounts asked for until now + ttl, with its budget row of today and the charge on today's counter |
| Admission.DifferentReserveIsRefused | services/platform-api/internal/adapters/postgres/reservations.go:41-52 | while one is outstanding, only a request for the same cluster, amounts, budget and attempt is answered, with that reservation |
| Admission.FinishCommitsIff | services/platform-api/internal/adapters/postgres/reservations.go:144-207 | a reservation ends if and only if it is the attempt's latest, outstanding and, for an expiry, past its time; then both rows end together and the day's counters move by its amount |
| Admission.FirstOutcomeWins | services/platform-api/internal/adapters/postgres/reservations.go:144-207 | once it has ended the same outcome again changes nothing and any other is a conflict |
| Admission.LatestSnapshotCounts | services/platform-api/internal/adapters/postgres/clusters.go:133-145 | whatever the order of two reports, the snapshot with the later observation time counts |
| Commands.CreateCommitsIff | services/platform-api/internal/adapters/postgres/agent_runs.go:31-65 | a create commits if and only if its fields are in range, the tenant has the project and no run under the key; the run and its first attempt are as asked for |
| Commands.CancelCommitsIff | services/platform-api/internal/adapters/postgres/agent_runs.go:309-379 | every run that has not ended can be cancelled, whatever it is doing: it turns CANCELLING, its lease and wait end and one event says so; nothing else changes anything |
| Commands.CancelOfEnded | services/platform-api/internal/adapters/postgres/agent_runs.go:309-379 | a run already cancelled acknowledges a further cancellation, one that ended otherwise refuses it |
| Commands.CancelIsFinal | services/platform-api/internal/adapters/postgres/agent_runs.go:309-379 | after any transactions a cancelled run is CANCELLING or CANCELLED, and the same command again changes nothing and answers as first |
| Commands.RetryCommitsIff | services/platform-api/internal/adapters/postgres/agent_runs.go:381-446 | a retry commits if and only if the run failed transiently below its ceiling and this is not its last command; it is then queued with one more pending attempt |
| Commands.RetryRepeatsIff | services/platform-api/internal/adapters/postgres/agent_runs.go:381-446 | after any transactions the same retry again is answered as first and changes nothing if and only if no other command of the run has committed since |
| Commands.ForgottenRetryRunsAgain | services/platform-api/internal/adapters/postgres/agent_runs.go:381-446 | a forgotten retry starts a further attempt when it is repeated on a run that failed transiently again |
| Commands.AdvanceCommitsIff | services/platform-api/internal/adapters/postgres/agent_runs.go:195-210 | a reported status is saved if and only if the run is at the version it was read at, the report follows its status and names a category exactly for a failure |
| Commands.AdvanceAttemptCommitsIff | services/platform-api/internal/adapters/postgres/agent_runs.go:281-305 | likewise the report of an attempt, whose assignment it never changes |
| Ledger.BudgetConservation | services/platform-api/internal/adapters/postgres/reservations.go:64-87 | in every reachable state each tenant-day's reserved and spent are the sums of its RESERVED and SETTLED rows, capacity and budget rows pair up in one state, at most one row per attempt is RESERVED, and spent + reserved stays within the daily limit |
| Ledger.ReserveKeepsLedger | services/platform-api/internal/adapters/postgres/reservations.go:23-92 | Reserve keeps that ledger invariant, on first use and on an idempotent repeat |
| Ledger.FinishKeepsLedger | services/platform-api/internal/adapters/postgres/reservations.go:144-207 | Release, Settle and Expire move the row pair and the day's counters together |
| Ledger.ScheduleKeepsLedger | services/platform-api/internal/adapters/postgres/scheduling_intent.go:93-114 | Schedule charges the ledger exactly as Reserve does |
| Ledger.CapacityNeverExceeded | services/platform-api/internal/adapters/postgres/scheduling_intent.go:82-92 | if no report shrinks a snapshot, RESERVED unexpired CPU and memory on a cluster never exceed its latest snapshot, for any clocks, from the latest stamp on |
| Ledger.ReserveKeepsCapacity | services/platform-api/internal/adapters/postgres/reservations.go:41-63 | a reservation fits what the snapshot leaves at every later instant too |
| Quota.QuotasNeverExceeded | services/platform-api/internal/adapters/postgres/scheduling_intent.go:62-80 | in every reachable state the admitted, not yet terminal runs of a tenant are within its run, per-user, CPU and memory limits, however stale the usage schedulers chose on |
| Quota.UsageCoversAdmitted | services/platform-api/internal/adapters/postgres/scheduler_eligibility.go:113-139 | the usage query counts at least every admitted run, although it also counts cancelled queued ones |
| Quota.AdmittedIffAssigned | services/platform-api/internal/adapters/postgres/scheduling_intent.go:116-146 | in every reachable state the runs the quotas count are exactly those whose current attempt is assigned and that have not ended |
| Quota.EligibleFits | services/platform-api/internal/domain/scheduler_policy.go:170-208 | an eligible run fits every quota on the usage it was judged by |
| Invariants.StepKeepsInv | services/platform-api/internal/adapters/postgres/scheduling_intent.go:116-146 | every transaction keeps rows, attempts, events and intents tied together, and the schema's column constraints |
| Invariants.SavedRow | services/platform-api/internal/adapters/postgres/agent_runs.go:195-210 | a saved transition that meets the check constraints leaves neither QUEUED nor SCHEDULING and enters no waiting status, PROVISIONING or CANCELLING |
| Invariants.SavedTimeoutIsRefused | services/platform-api/internal/adapters/postgres/agent_runs.go:195-210 | saving SCHEDULING as TIMED_OUT, an edge of the graph, always violates the lease constraint and changes nothing |
| History.RunsStayGood | services/platform-api/internal/adapters/postgres/scheduling_intent.go:36-54 | over every run the invariants hold and rows only move forward: versions grow with every write, reservations change state once, events and intents are never rewritten |
| History.ClaimDecidesOnce | services/platform-api/internal/adapters/postgres/scheduling_intent.go:36-54 | a claimed (run, version) commits at most one state-changing decision, even if the same owner claims again after expiry |
| History.AttemptProvisionedOnce | services/platform-api/internal/adapters/postgres/scheduling_intent.go:116-146 | an attempt enters PROVISIONING at most once in any run |
| History.ProvisioningIsWhole | services/platform-api/internal/adapters/postgres/scheduling_intent.go:116-146 | an attempt is assigned if and only if it has its intent and its one scheduled event, and both point at its one reservation pair |
| History.OneEventPerVersion | services/platform-api/internal/adapters/postgres/outbox.go:28-34 | each (run, version) has at most one outbox event |
| History.NoStrandedRun | services/platform-api/internal/adapters/postgres/scheduler_queue.go:44-53 | in every reachable state a run is claimable exactly while it waits and its recorded finite instant has come, whoever crashed |
| History.LeaseOrClaimable | services/platform-api/internal/adapters/postgres/scheduler_queue.go:44-53 | a SCHEDULING run is at every instant either claimable or decidable by exactly its recorded owner at its current version |
| History.RenewedLease | services/platform-api/internal/adapters/postgres/scheduler_queue.go:107-134 | a renewal holds until exactly now + lease at the new version, and older versions lose the run |
| Lifecycle.StepFollowsGraph | services/platform-api/internal/domain/agent_run.go:190-226 | every SQL transaction moves every run and attempt along an edge of the domain graphs |
| Lifecycle.ClaimFollows | services/platform-api/internal/adapters/postgres/scheduler_queue.go:65-70 | a claimed batch changes a row only from a waiting status to SCHEDULING |
| Lifecycle.ReachableRowsAreWellFormed | services/platform-api/internal/domain/agent_run.go:228-263 | attempt counts stay in 1..MaxAttempts, CompletedAt marks exactly terminal runs, failures and leases exactly their statuses |
| Lifecycle.AbsorbedForever | services/platform-api/internal/domain/agent_run.go:190-226 | SUCCEEDED, CANCELLED and POLICY_REJECTED rows never change again |
| Lifecycle.NoStageSkipped | services/platform-api/internal/domain/agent_run.go:190-226 | over every run, a run found at a stage was found at every earlier one before: none succeeds without every stage from SCHEDULING to DEPLOYING |
| Replay.ScheduleReplays | services/platform-api/internal/adapters/postgres/scheduling_intent.go:358-398 | repeating a committed Schedule changes nothing and returns the same version, reservation pair and event, or not-found exactly when that event was purged |
| Replay.DeferReplays | services/platform-api/internal/adapters/postgres/scheduling_intent.go:165-182 | the same for DeferCapacity while its instant is ahead, and a bad request after that |
| Replay.RejectReplays | services/platform-api/internal/adapters/postgres/scheduling_intent.go:222-242 | the same for Reject, after any transactions at all |
| Replay.PurgedScheduleIsNotFound | services/platform-api/internal/adapters/postgres/scheduling_intent.go:377-398 | cleaning its event out of the outbox is enough for the very next repeat to answer not-found |
| Replay.OneRunPerKey | db/migrations/000002_agent_runs_and_attempts.up.sql:45 | in every reachable state a tenant's idempotency key belongs to at most one run |
| Replay.RepeatedCreateConflicts | services/platform-api/internal/adapters/postgres/agent_runs.go:31-65 | inserting again under the same key, after any transactions, is a conflict and changes nothing |
| Replay.CurrentVersionHasItsEvent | services/platform-api/internal/adapters/postgres/scheduling_intent.go:40-42 | a run in PROVISIONING or CAPACITY_WAIT has its event at exactly its current version |
| Reclaim.ReclaimedIffNewest | services/platform-api/internal/adapters/postgres/reservations.go:144-207 | whichever row the database picks, an expired reservation is expired if and only if it is strictly the newest of its attempt |
| Reclaim.OvertakenIsReachable | services/platform-api/internal/adapters/postgres/reservations.go:23-92 | from a fresh database create, reserve, release, reserve again leaves an older released and a newer reserved row of one attempt, stamped by whatever clocks |
| Reclaim.OvertakenRowBlocks | services/platform-api/internal/adapters/postgres/reservations.go:155-185 | if the second stamp is not later, expiring the second row may answer a conflict; if it is earlier, the row blocks every sweep that lists it first |
| Reclaim.BlockedForever | services/platform-api/internal/adapters/postgres/reservations.go:104-142 | a blocked head of the listing heads and blocks every later sweep of the same table, of any size |
| Reclaim.ReservedRowsAreNewest | services/platform-api/internal/adapters/postgres/reservations.go:104-142 | under an advancing clock every RESERVED row is strictly the newest of its attempt |
| SchedulerStore.ClaimedLease | services/platform-api/internal/adapters/postgres/scheduler_queue.go:65-70 | a claimed row is decidable by the claimant alone, at the returned version, until now + lease |
| SchedulerStore.Repository.Create | services/platform-api/internal/adapters/postgres/agent_runs.go:31-65 | inserts run, attempt and event, or nothing with the error: a bad request, an unknown project, or a conflict if the tenant already has a run under this key |
| SchedulerStore.Repository.Cancel | services/platform-api/internal/adapters/postgres/agent_runs.go:309-379 | the whole new state and answer of Cancel, replays included |
| SchedulerStore.Repository.Retry | services/platform-api/internal/adapters/postgres/agent_runs.go:381-446 | the whole new state and answer of Retry, replays included |
| SchedulerStore.Repository.Claim | services/platform-api/internal/adapters/postgres/scheduler_queue.go:26-105 | claims, row by row, exactly the first unlocked rows of the ranking that Queue pins down, and returns them as they are then |
| SchedulerStore.Repository.Renew | services/platform-api/internal/adapters/postgres/scheduler_queue.go:107-134 | the whole new state and answer of Renew |
| SchedulerStore.Repository.CheckSchedule | services/platform-api/internal/adapters/postgres/scheduling_intent.go:43-92 | the checks in order, with the error of the first that fails: none exactly if Admission.ScheduleCommitsIff says so |
| SchedulerStore.Repository.Schedule | services/platform-api/internal/adapters/postgres/scheduling_intent.go:26-150 | the whole new state and answer of Schedule, which Admission says from the tables alone |
| SchedulerStore.Repository.DeferCapacity | services/platform-api/internal/adapters/postgres/scheduling_intent.go:152-207 | the whole new state and answer of DeferCapacity |
| SchedulerStore.Repository.Reject | services/platform-api/internal/adapters/postgres/scheduling_intent.go:209-282 | the whole new state and answer of Reject |
| SchedulerStore.Repository.Reserve | services/platform-api/internal/adapters/postgres/reservations.go:23-92 | the whole new state and answer of Reserve |
| SchedulerStore.Repository.Transition | services/platform-api/internal/adapters/postgres/reservations.go:144-207 | the whole new state and answer for the latest row the database returned |
| SchedulerStore.Repository.ReclaimExpired | services/platform-api/internal/adapters/postgres/reservations.go:104-142 | a sweep touches only expired RESERVED rows, keeps the ledger even if it ends early, expires exactly the rows it listed when each is strictly the newest, and with a blocked head answers a conflict and changes nothing |
| Ordering.TakeFirst | services/platform-api/internal/adapters/postgres/scheduler_queue.go:60-64 | the rows taken are the least under the key, in order, up to the limit |
| Queue.BatchIsFair | services/platform-api/internal/adapters/postgres/scheduler_queue.go:55-64 | with no rows locked elsewhere two tenants' claims differ by more than one only if the smaller has no claimable run left |
| Queue.AgingKeepsOrder | services/platform-api/internal/adapters/postgres/scheduler_queue.go:40-59 | at any time and under any aging policy a run is ranked ahead of every later-created run of its tenant with no higher base priority |
| Queue.RankFollowsPriority | services/platform-api/internal/adapters/postgres/scheduler_queue.go:40-59 | of two claimable runs of a tenant the better rank goes exactly to the higher priority plus capped aging, then the earlier creation, then the lower identifier |
| Queue.RankCountsBetter | services/platform-api/internal/adapters/postgres/scheduler_queue.go:55-59 | a rank is one more than the number of the tenant's claimable runs with a better one |
| Queue.NeverOvertaken | services/platform-api/internal/adapters/postgres/scheduler_queue.go:60-64 | across tenants a claimable, unlocked run that goes first by rank, priority plus aging, creation, tenant and identifier is taken before any other that is taken |
| Engine.DeferLands | services/platform-api/internal/application/scheduler/engine.go:173-200 | with nothing in between, a deferral after a renewal always commits and the run waits until the instant named |
| Engine.RejectLands | services/platform-api/internal/application/scheduler/engine.go:173-188 | likewise a rejection of the claimed, still pending attempt |
| Engine.Scheduler.Process | services/platform-api/internal/application/scheduler/engine.go:166-232 | with any transactions of others before and between, a turn ends without a decision exactly if the evaluation or the renewal failed or nothing could be placed, and otherwise adds a renewal and the one decision evaluated, at exactly the renewed version |
| Engine.Scheduler.Place | services/platform-api/internal/application/scheduler/engine.go:201-231 | an eligible run is scheduled exactly if a listed cluster has room, onto the one the strategy selects, at its score and price and on this scheduler's terms; it waits for capacity exactly if none has |
| Engine.Scheduler.Decide | services/platform-api/internal/application/scheduler/engine.go:183-231 | a rejection is rejected and a deferral deferred with the code, the reason and the instant evaluated, or the configured wait if that is past |
| Engine.BudgetIsRoundedUp | services/platform-api/internal/application/scheduler/engine.go:243-245 | the charge is for whole cores and whole gibibytes, rounded up, at the cluster's prices |
| Selection.CeilingRatio | services/platform-api/internal/application/scheduler/strategy.go:148-155 | the result is the exact ceiling of the scaled ratio |
| Selection.ScoreIs | services/platform-api/internal/application/scheduler/strategy.go:102-118 | the score is a thousand times the least utilisation that covers CPU and memory, over the weight, plus a hundred per queued workload, plus both prices |
| Selection.BestIsLeast | services/platform-api/internal/application/scheduler/strategy.go:123-139 | the best has the least score, then utilisation, queue, price and name |
| Selection.FittingRatioIsInRange | services/platform-api/internal/application/scheduler/strategy.go:113-115 | a fitting request's projected utilisation is in 1..10000 |
| Selection.DominantScoresNoWorse | services/platform-api/internal/application/scheduler/strategy.go:113-118 | a cluster with at least the room and weight and at most the queue and prices never scores worse |
| Selection.ChoiceIsStable | services/platform-api/internal/application/scheduler/strategy.go:123-139 | the choice is the same for every order of the candidates and unchanged by dropping losers |
| Selection.RankCandidates | services/platform-api/internal/application/scheduler/strategy.go:102-146 | the best fitting candidate, no-capacity exactly when nothing fits, invalid exactly for an invalid request |
| Selection.SelectWithAffinity | services/platform-api/internal/application/scheduler/strategy.go:71-93 | the best in-region cluster whenever one fits, else the best of all marked as fallback exactly if a region was preferred |
| Naming.NamesTellAttemptsApart | operator/internal/naming/names.go:36-53 | two attempts of a run share neither Job nor workspace |
| Naming.NamesTellRunsApart | operator/internal/naming/names.go:36-53 | no two attempts of any two runs share a Job or a workspace |
| Backoff.BackoffBase | operator/internal/controller/retry.go:92-105 | the doubling loop computes min(max, initial * 2^n) |
| Backoff.DelayIsBounded | operator/internal/controller/retry.go:92-112 | the jittered delay lies between half of that and all of it, and no product leaves int64 under the declared bounds |
| Pods.SelectLifecyclePod | operator/internal/controller/lifecycle.go:336-355 | the scan finds the youngest controlled Pod, the greatest name among ties |
| Pods.SelectIgnoresOrder | operator/internal/controller/lifecycle.go:336-355 | the selection does not depend on the listing order |
| Pods.SucceededIffProved | operator/internal/controller/lifecycle.go:73-163 | success is observed if and only if the Job finished without failure and its selected Pod, controlled by its UID, exited 0 with valid evidence |
| Pods.TransientIffInfrastructure | operator/internal/controller/lifecycle.go:165-196 | a failure is transient if and only if the selected Pod was evicted, lost its node or cannot get its image |
| Pods.FailedIff | operator/internal/controller/lifecycle.go:73-163 | failure is observed if and only if the selected Pod failed, the Job did, or it finished without valid evidence |
| Pods.RunningIff | operator/internal/controller/lifecycle.go:73-163 | running is observed if and only if nothing failed or finished and the Pod's runner is active, or the Pod runs and says nothing of its runner or scheduling |
| Pods.FailureIsClassified | operator/internal/controller/lifecycle.go:165-240 | the category of every observed failure |
| Pods.PodFailureIsTimed | operator/internal/controller/lifecycle.go:165-240 | a failed Pod ended when its runner finished, or when the Job says |
| Pods.JobFailureIsTimed | operator/internal/controller/lifecycle.go:73-240 | a failed Job is recorded with the reason and the time of its condition |
| Pods.ObserveIgnoresOrder | operator/internal/controller/lifecycle.go:73-163 | the whole observation is the same for every listing order |
| Operator.SetCondition | operator/internal/controller/agentrun_controller.go:313-322 | the transition time moves only when the status does, and no other condition changes |
| Operator.Gates | operator/internal/controller/prerequisites.go:61-122 | the gates before the Job stop at the first call that does not open one, and record the condition, reason and category of exactly that stop |
| Operator.JobGate | operator/internal/controller/prerequisites.go:123-151 | a Job is created only if status names none and the cluster holds none; a named Job that is gone is recorded missing |
| Operator.Prerequisites | operator/internal/controller/prerequisites.go:61-152 | the gates in order keep the attempt, earlier history and both deadline anchors, create at most the current attempt's Job, and reach Succeeded only on evidence |
| Operator.Cancellation | operator/internal/controller/cancellation.go:40-93 | cancellation creates nothing, keeps attempt and Job name, records its anchor on every cancelling status, and unless a call failed leaves the Job terminating; OperatorCancel says when it does which |
| OperatorPasses.PassStopsAtFirst | operator/internal/controller/prerequisites.go:61-122 | a running pass stops at the first gate that does not open, says so, and leaves the Jobs as they were |
| OperatorPasses.JobCreatedIff | operator/internal/controller/prerequisites.go:61-151 | a pass creates an attempt's Job if and only if the attempt is current and has not ended, no cancellation is asked for, nothing names or holds its Job, a needed finalizer is persisted, every gate is open and the apply lands |
| OperatorPasses.RunningPassIs | operator/internal/controller/prerequisites.go:123-152 | with every gate open a pass records exactly what it observed, or where it stopped, and goes on to a retry only from a failure that may be retried |
| OperatorPasses.EndedPassIs | operator/internal/controller/retry.go:46-112 | a pass on an ended attempt changes only a condition, unless it may be retried: then it begins the next attempt exactly if the wait is over |
| OperatorPasses.RetriedExactlyWhenReady | operator/internal/controller/retry.go:46-112 | over every run, once the wait is on record, any later pass begins the next attempt if and only if its clock has reached that moment plus min(max, initial * 2^n) scaled by the jitter |
| OperatorPasses.HistoryShowsStatus | operator/internal/controller/lifecycle.go:300-322 | whatever a pass adds to the history is exactly the status it leaves |
| OperatorCancel.CancellingPassIs | operator/internal/controller/cancellation.go:62-93 | a cancelling pass that sees its Job alive asks gracefully until two minutes after the recorded beginning and by force from then on; the Pod deletions count exactly from then on, the Job's if forced or not yet going, and the first failing call decides the error |
| OperatorCancel.UnseenPassIs | operator/internal/controller/cancellation.go:40-61 | one that finds no Job completes, one that cannot find out says why |
| OperatorCancel.EndedPassIs | operator/internal/controller/cancellation.go:62-74 | a Job that ended by itself is recorded as it ended |
| OperatorCancel.DeadlineDecides | operator/internal/controller/cancellation.go:75-93 | over every run, any later pass that sees the Job alive and has its calls succeed records forced termination if and only if its clock has reached the recorded beginning plus two minutes |
| OperatorCancel.FirstPassIsGraceful | operator/internal/controller/cancellation.go:75-93 | the pass that puts the beginning on record is graceful |
| OperatorRuns.AttemptsOnlyGrow | operator/internal/controller/agentrun_controller.go:177-249 | over every run with lost patches the attempt never decreases, stays within the ceiling, and history is sorted, unique and unchanged for earlier attempts |
| OperatorRuns.CreationAlongRun | operator/internal/controller/prerequisites.go:123-151 | a Job is created only for the first or an already persisted attempt, that has not ended, while nothing names or holds its Job and no cancellation is requested |
| OperatorRuns.NamedJobNeverRecreated | operator/internal/controller/prerequisites.go:123-141 | a Job named in persisted status is never created again |
| OperatorJobs.OneJobPerAttempt | operator/internal/controller/prerequisites.go:123-151 | whatever else the cluster does, an attempt's Job is created at most once in any run that never removes it before a persisted status names it, ends the attempt or is asked to cancel |
| OperatorJobs.RemovedJobIsRecreated | operator/internal/controller/prerequisites.go:123-151 | any run that does remove it while it is unrecorded goes on, with the next pass whose calls succeed, to create it again |
| OperatorJobs.LostPatchThenRemovalCreatesTwice | operator/internal/controller/agentrun_controller.go:229-249 | a lost status patch, a removed Job and another pass are such a run |
| OperatorRuns.FinalizerFirst | operator/internal/controller/agentrun_controller.go:164-176 | a run that retains its workspace creates nothing before its finalizer is persisted |
| OperatorDeadlines.TerminalIsStable | operator/internal/controller/agentrun_controller.go:177-210 | Succeeded and Cancelled are never left; Failed only by an allowlisted retry below the ceiling while desired state is Running |
| OperatorDeadlines.FinishedForever | operator/internal/controller/lifecycle.go:324-334 | once Succeeded or Cancelled is persisted nothing but conditions ever changes |
| OperatorDeadlines.SuccessNeedsEvidence | operator/internal/controller/lifecycle.go:60-71 | Succeeded is recorded only by a pass that saw the evidence in the attempt's own Job and Pod |
| OperatorDeadlines.CancellingIsAnchored | operator/internal/controller/cancellation.go:75-107 | the first cancelling status carries the anchor |
| OperatorDeadlines.AnchorNeverMoves | operator/internal/controller/cancellation.go:171-179 | the anchor never moves through restarts, lost patches and error passes until cancellation completes |
| OperatorDeadlines.ForcedExactlyAtDeadline | operator/internal/controller/cancellation.go:75-85 | the forced mode that a pass computes holds exactly from two minutes after the first persisted anchor; OperatorCancel.DeadlineDecides says what it then does |
| OperatorDeadlines.NothingCreatedOnceCancelled | operator/internal/controller/agentrun_controller.go:211-228 | no pass with desired Cancelled creates or applies anything |
| OperatorDeadlines.CancelledMeansNamedJobAbsent | operator/internal/controller/cancellation.go:40-61 | Cancelled is recorded only if status named no Job or the named Job was seen absent |
| OperatorDeadlines.OrphanIffUnrecorded | operator/internal/controller/cancellation.go:41-44 | a Job outlives a completed cancellation exactly when the persisted status names none while the cluster holds it |
| OperatorDeadlines.LostPatchOrphansJob | operator/internal/controller/agentrun_controller.go:229-238 | one lost patch followed by a cancellation request is such a run |
| OperatorDeadlines.HoldingBackRecordsAnchor | operator/internal/controller/retry.go:46-59 | a pass that holds a retry back records its anchor |
| OperatorDeadlines.ReadyTimeIsStable | operator/internal/controller/retry.go:79-90 | once a backoff is recorded every later pass computes the same ready time until the attempt advances |
| Cleanup.CompleteIff | operator/internal/controller/cleanup.go:51-78 | the loop gets through exactly when no attempt's workspace stops it |
| Cleanup.CompleteMeansReleased | operator/internal/controller/cleanup.go:51-78 | a loop that got through has every workspace it found marked released |
| Cleanup.ReleasesOnly | operator/internal/controller/cleanup.go:51-78 | no workspace is removed, and markers are only ever set |
| Cleanup.Deletion.ReconcileCleanup | operator/internal/controller/cleanup.go:44-96 | completes exactly if nothing is retained, nothing stops the loop, or ten minutes have passed |
| Cleanup.Deletion.ReconcileDeletion | operator/internal/controller/agentrun_controller.go:111-150 | the finalizer goes only if nothing is retained, every workspace found is marked, or ten minutes have passed since deletion |
| Controller.UpsertEntry | operator/internal/controller/lifecycle.go:300-322 | replaces or inserts the attempt's entry and keeps the order |
| Controller.ForceDeletePods | operator/internal/controller/cancellation.go:127-141 | deletes only Pods controlled by the Job's UID, all of them unless one fails |
| Controller.ComputeDelay | operator/internal/controller/retry.go:92-112 | the method computes the specified delay |
| Controller.Reconciler.ReconcilePrerequisites | operator/internal/controller/prerequisites.go:61-152 | performs, gate after gate, exactly the pass that OperatorPasses says from the outcomes of its calls |
| Controller.Reconciler.ReconcileCancellation | operator/internal/controller/cancellation.go:40-93 | performs exactly the cancellation that OperatorCancel says from the outcomes of its calls |
| Controller.Reconciler.ReconcileRetry | operator/internal/controller/retry.go:46-77 | performs exactly the specified retry |
| Controller.Reconciler.Reconcile | operator/internal/controller/agentrun_controller.go:164-249 | one pass is one step of the run model: cluster writes stay, an unpatched status is lost |
| Delivery.ScanDeliveryAttempt | services/platform-api/cmd/agentrun-handoff/main.go:245-264 | the header scan returns level + 1 or an error |
| Delivery.ScanExpectedAttempt | services/platform-api/internal/application/consumer/router.go:184-209 | the router's scan requires the header exactly once |
| Delivery.HeadersRoundTrip | services/platform-api/internal/application/consumer/router.go:98-125 | what Route writes at an attempt both readers decode as attempt + 1, and the not-before time reads back |
| Delivery.Route | services/platform-api/internal/application/consumer/router.go:88-158 | with consistent delivery metadata a failure is retried, on the topic of its attempt and with the same event, if and only if it is transient, valid and within the ladder, and is otherwise dead-lettered if and only if its dead letter can be built; inconsistent metadata or a clock behind the event is an error |
| Delivery.LadderClimbs | services/platform-api/cmd/agentrun-handoff/main.go:208-222 | a transient failure moves the record exactly one level up, and after the last level to the dead letters |
| Delivery.LadderWaits | services/platform-api/cmd/agentrun-handoff/main.go:171-227 | a copy is processed, whoever polls it, no earlier than one, five and thirty minutes after the failure that sent it to the first, second and third retry topic |
| Delivery.OthersArePassedOver | services/platform-api/cmd/agentrun-handoff/main.go:171-207 | a valid record is done with, without a copy, exactly if it is not of this consumer or was processed |
| Delivery.NoEventIsLost | services/platform-api/cmd/agentrun-handoff/main.go:171-227 | at every point of every run each event that reached a topic is unacknowledged somewhere, marked, or dead-lettered |
| Delivery.EveryEventIsAccountedFor | services/platform-api/cmd/agentrun-handoff/main.go:171-227 | end to end from empty topics: each such event still waits on a topic, is dead-lettered, or at some point had the AgentRun of its run and attempt held by the cluster with its intent's spec |
| Delivery.LadderEnds | services/platform-api/internal/application/consumer/router.go:97-136 | along any run, acknowledged turns plus records still pending are at most four per record pending at the start or arrived since, and three more per turn that left a copy without its acknowledgement: no record is delivered for ever |
| Delivery.Consumer.ConsumeOne | services/platform-api/cmd/agentrun-handoff/main.go:172-226 | one turn of the loop does exactly the specified step and acknowledges only then |
| Delivery.Consumer.Consume | services/platform-api/cmd/agentrun-handoff/main.go:171-227 | the loop ends at the first turn it cannot acknowledge, and nothing is lost |
| Outbox.PublishedMeansAccepted | services/platform-api/internal/adapters/postgres/outbox.go:36-117 | under any relays, crashes and expired leases a row is PUBLISHED, or gone, only if the broker accepted its event |
| Outbox.PendingIsClaimable | services/platform-api/internal/adapters/postgres/outbox.go:36-60 | a row is claimable exactly while pending and once its recorded instant has come |
| Outbox.LongestDueFirst | services/platform-api/internal/adapters/postgres/outbox.go:36-60 | the row due longest, then the older one, is never left while a later one is taken |
| Outbox.ClaimHoldsUntil | services/platform-api/internal/adapters/postgres/outbox.go:36-60 | a claim of due rows holds exactly until now + lease, and no other row changes |
| Outbox.OnlyTheHolderMarks | services/platform-api/internal/adapters/postgres/outbox.go:76-102 | a relay without the claim marks nothing; the holder's mark ends it and leaves the row published at that moment, out for good, or pending again |
| Outbox.CleanupTakesOldest | services/platform-api/internal/adapters/postgres/outbox.go:104-117 | a cleanup removes only published rows older than asked for, the longest published first |
| Outbox.RetryIsSpread | services/platform-api/internal/adapters/postgres/outbox.go:88-102 | a failed publication waits between 80% and 120% of one, five and thirty seconds, two minutes, then ten |
| Outbox.OutboxRelay.RunOnce | services/platform-api/internal/application/outbox/relay.go:66-100 | claims the first due rows and marks each exactly as its publication went; a lost mark keeps the claim |
| ProcessedEvents.EffectAtMostOnce | services/platform-api/internal/adapters/postgres/processed_events.go:43-85 | over any redeliveries the effect of a (consumer, event) is applied at most once, exactly if it is marked |
| ProcessedEvents.SuccessMeansProcessed | services/platform-api/internal/adapters/postgres/processed_events.go:43-85 | success leaves the event processed; a failure leaves the store as it was, or, if only the reply of the commit was lost, with exactly this marker and effect |
| ProcessedEvents.LostReplyIsRepeatedSafely | services/platform-api/internal/adapters/postgres/processed_events.go:68-83 | the repeat after such a failure is a duplicate and applies nothing |
| Handoff.AgentRunNameTellsAttemptsApart | services/platform-api/internal/application/handoff/service.go:149-151 | two attempts of a run share no AgentRun, whatever the form of its identifier |
| Handoff.AgentRunNameTellsRunsApart | services/platform-api/internal/application/handoff/service.go:149-151 | no two attempts of any two runs share an AgentRun |
| Handoff.NamespaceTellsTenantsApart | services/platform-api/internal/application/handoff/service.go:145-147 | no two tenants share a namespace |
| Handoff.OthersDoNotMatter | services/platform-api/internal/application/handoff/service.go:81-143 | whatever the cluster holds for other runs and tenants, a delivery whose calls succeed hands its own run over |
| Handoff.NewRunIsHandedOver | services/platform-api/internal/application/handoff/service.go:81-143 | over every run from an empty cluster, with failures, redeliveries, deletions and edits, so does a delivery of a run and attempt not delivered before |
| Handoff.OnlyAuthorized | services/platform-api/internal/application/handoff/service.go:81-117 | nothing is created or marked for an event that was not decoded, matched with its intent and authorized |
| Handoff.OutageIsTransient | services/platform-api/internal/application/handoff/service.go:81-143 | an outage alone never fails a delivery for good |
| Handoff.RefusalIsPermanent | services/platform-api/internal/application/handoff/service.go:81-143 | with nothing unavailable a delivery succeeds or fails for good |
| Handoff.MarkedMeansHandedOver | services/platform-api/internal/application/handoff/service.go:81-143 | a marker is written only while the cluster holds that run and attempt's AgentRun with the intent's spec and metadata |
| Handoff.EveryMarkerWasHandedOver | services/platform-api/internal/application/handoff/service.go:81-143 | over every run of deliveries and arbitrary changes of the cluster each marker was written by such a delivery |
| Handoff.SuccessMeansMarked | services/platform-api/internal/application/handoff/service.go:81-143 | a delivery that succeeds left its marker |
| Handoff.ReadsBackIffFilled | services/platform-api/internal/application/handoff/service.go:281-302 | the desired spec equals its stored form if and only if every list has an element |
| Handoff.InterruptedDeliveryStopsThere | services/platform-api/internal/application/handoff/service.go:118-130 | a delivery whose marker is unavailable leaves namespace and AgentRun and fails transiently |
| Handoff.RedeliveryConvergesIff | services/platform-api/internal/application/handoff/service.go:185-208 | after a delivery that stopped before its marker, whatever happened to the object since, the redelivery succeeds if and only if the namespace is free or the tenant's, and the AgentRun is gone or has every list filled, desiredState still Running and its metadata intact; otherwise it fails for good |
| Handoff.EmptySecretsAreDeadLettered | services/platform-api/internal/application/handoff/service.go:204-206 | an intent without secrets is such a failure, and changes nothing |
| Handoff.CancelledMeanwhileIsDeadLettered | services/platform-api/internal/application/handoff/service.go:204-206 | with every list filled, the redelivery succeeds, but a cancellation before it makes it fail for good |
| Handoff.Service.EnsureNamespace | services/platform-api/internal/application/handoff/service.go:153-183 | create or compare, with races and lost replies, as specified |
| Handoff.Service.EnsureAgentRun | services/platform-api/internal/application/handoff/service.go:185-208 | create or compare, with races and lost replies, as specified |
| Handoff.Service.Process | services/platform-api/internal/application/handoff/service.go:81-143 | one delivery does exactly what the theorems on runs of deliveries are about |

## Left out

- The value patterns and ranges that cluster.Validate checks again when a cluster is locked: they are constraints of
  the registry's writes. Its freshness and future bounds are modelled.
- Isolation anomalies: each transaction is atomic. The policy, cluster and run row locks are the reason; what READ
  COMMITTED or SKIP LOCKED would let through besides is not modelled, apart from the locked rows a claim skips.
- The schema is modelled by its constraints: one RESERVED row per (run, attempt), the lease, failure and
  cancellation checks on agent_runs, unique attempts and intents. Identifiers are row positions or (run, attempt).
- Policies, tenants and projects are fixed along a run; only clusters are reported. Updated-at columns,
  request hashes and stored responses of idempotent creates (the handler that replays them), decision-history rows,
  cancellation reasons and message texts are not columns of the model.
- Advance: a save that keeps the status, and a save back to QUEUED, are refused; a retry goes through Retry. Save
  has no caller that does either.
- AdvanceAttempt: does not move pending attempts, which only the scheduler transactions do.
- CreateNextAttempt has no caller and does what Retry does without the command receipt and event.
- The scheduler's worker channel, polling and jitter; each turn stands for one claimed run of one worker.
- Queue aging and times are exact integers in nanoseconds; the database's double-precision seconds are not modelled.
- Strings are compared as given: trimming of owners, codes and reasons, and length in bytes, are not modelled.
- A reconcile pass reads the clock once and one snapshot of the cluster; stale informer caches are not modelled.
  Stored times keep their nanoseconds although metav1.Time truncates to seconds.
- observedGeneration, namespace, heartbeat and failure texts of the AgentRun status, invalid specs, and building and
  validating manifests (operator/internal/resources); whether an existing object matches is an input of the pass.
- Controller.ForceDeletePods: stands beside the pass, where its outcome is an input.
- Delivery: envelopes, keys, partitions of the original record and the dead-letter format; times in headers are
  written in decimal where the source writes RFC 3339.
- Handoff: JSON decoding, authorisation and intent loading are inputs; the scalar fields of the spec are one value
  that the API server stores as given.
- HTTP, identity, artifacts, projects, metrics, the agent runner and process start-up.
