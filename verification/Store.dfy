/**
 The scheduler database. A table whose rows are only ever inserted is a sequence, and a row's
 identifier is its position there; each transaction is a function from the whole state and its request
 to the state it commits and the answer it gives. A failed transaction leaves the state as it was.
 */
module Store {
  import opened Common
  import opened RunDomain
  import opened Sums
  import E = Eligibility

  // ---- Tables ----

  datatype ReservationState = Reserved | Settled | Released | Expired

  datatype CapacityRow = CapacityRow(
    tenant: nat, run: RunId, attempt: AttemptId, attemptNumber: nat, cluster: string,
    cpu: nat, memory: nat, state: ReservationState, expiresAt: Time, createdAt: Time)

  datatype BudgetRow = BudgetRow(
    capacity: nat, tenant: nat, run: RunId, attemptNumber: nat, day: nat, amount: nat, state: ReservationState)

  datatype DayUsage = DayUsage(spent: int, reserved: int)

  datatype Snapshot = Snapshot(observedAt: Time, cpu: nat, memory: nat)

  /** A cluster row joined with its latest capacity snapshot. */
  datatype Cluster = Cluster(
    active: bool, maintenance: bool, restricted: bool, allowed: set<nat>, runtimes: seq<string>,
    profiles: seq<string>, heartbeat: Time, snapshot: Snapshot)

  datatype EventType =
    | RequestedEvent | ScheduledEvent | CapacityWaitEvent | FailedEvent | CancelRequestedEvent | RetryRequestedEvent

  datatype Event = Event(eventType: EventType, tenant: nat, run: RunId, version: nat, attempt: nat)

  /** The desired state handed to Kubernetes: the fields the scheduler compares, and all the others. */
  datatype Desired = Desired(
    runtime: string, profile: string, task: string, timeout: nat, maxAttempts: nat, cpu: nat, memory: nat, other: nat)

  datatype Intent = Intent(event: nat, cluster: string, desired: Desired)

  /**
   events holds every outbox row ever inserted; purged names those that CleanupPublished has deleted since.
   */
  datatype Db = Db(
    tenants: map<nat, bool>, projects: map<(nat, nat), bool>, policies: map<nat, E.SchedulingPolicy>,
    clusters: map<string, Cluster>, runs: seq<Run>, attempts: map<AttemptId, Attempt>,
    capacity: seq<CapacityRow>, budgets: seq<BudgetRow>, usage: map<(nat, nat), DayUsage>,
    events: seq<Event>, purged: set<nat>, intents: map<AttemptId, Intent>)

  datatype Error =
    | BadRequest | NotFound | VersionConflict | Conflict | ConstraintViolation | Denied(decision: E.Decision)
    | CapacityUnavailable | BudgetUnavailable | RunTerminal | RetryNotAllowed | TransitionRefused

  datatype Outcome<+T> = Outcome(db: Db, result: Result<T, Error>)

  // ---- Reads ----

  predicate RunExists(db: Db, tenant: nat, run: RunId) {
    run < |db.runs| && db.runs[run].tenant == tenant
  }

  function Day(now: Time): nat {
    now / DAY
  }

  /** What a tenant's policy bounds. */
  datatype Measure = RunCount | UserRunCount(user: string) | CpuTotal | MemoryTotal

  function Weight(run: Run, m: Measure): nat {
    match m
    case RunCount => 1
    case UserRunCount(user) => if run.createdBy == user then 1 else 0
    case CpuTotal => run.cpu
    case MemoryTotal => run.memory
  }

  function ActiveWeights(runs: seq<Run>, tenant: nat, m: Measure): (ws: seq<int>)
    ensures |ws| == |runs|
  {
    seq(|runs|, i requires 0 <= i < |runs| =>
      if runs[i].tenant == tenant && IsActive(runs[i].status) then Weight(runs[i], m) else 0)
  }

  function QueuedWeights(runs: seq<Run>, tenant: nat): seq<int> {
    seq(|runs|, i requires 0 <= i < |runs| =>
      if runs[i].tenant == tenant && IsWaiting(runs[i].status) then 1 else 0)
  }

  function UsageOf(db: Db, tenant: nat, day: nat): DayUsage {
    if (tenant, day) in db.usage then db.usage[(tenant, day)] else DayUsage(0, 0)
  }

  /** readSchedulingUsage */
  function SchedulingUsage(db: Db, tenant: nat, createdBy: string, now: Time): E.SchedulingUsage {
    var today := UsageOf(db, tenant, Day(now));
    E.SchedulingUsage(
      Sum(ActiveWeights(db.runs, tenant, RunCount)),
      Sum(ActiveWeights(db.runs, tenant, UserRunCount(createdBy))),
      Sum(QueuedWeights(db.runs, tenant)),
      Sum(ActiveWeights(db.runs, tenant, CpuTotal)),
      Sum(ActiveWeights(db.runs, tenant, MemoryTotal)),
      today.spent + today.reserved)
  }

  datatype Resource = CpuMillis | MemoryMib

  function Amount(row: CapacityRow, res: Resource): nat {
    if res == CpuMillis then row.cpu else row.memory
  }

  function Allocatable(c: Cluster, res: Resource): nat {
    if res == CpuMillis then c.snapshot.cpu else c.snapshot.memory
  }

  function HeldWeights(rows: seq<CapacityRow>, cluster: string, now: Time, res: Resource): (ws: seq<int>)
    ensures |ws| == |rows|
  {
    seq(|rows|, i requires 0 <= i < |rows| =>
      if rows[i].cluster == cluster && rows[i].state == Reserved && rows[i].expiresAt > now
      then Amount(rows[i], res) else 0)
  }

  /** The CPU or memory held on a cluster by reservations that are RESERVED and unexpired at now. */
  function Held(rows: seq<CapacityRow>, cluster: string, now: Time, res: Resource): int {
    Sum(HeldWeights(rows, cluster, now, res))
  }

  predicate IsReservedFor(row: CapacityRow, run: RunId, attemptNumber: nat) {
    row.run == run && row.attemptNumber == attemptNumber && row.state == Reserved
  }

  /** The row a lookup of the active reservation of an attempt returns. */
  function FindActive(rows: seq<CapacityRow>, run: RunId, attemptNumber: nat): (found: Option<nat>)
    ensures found.Some? ==> found.value < |rows| && IsReservedFor(rows[found.value], run, attemptNumber)
    ensures found.None? ==> forall i :: 0 <= i < |rows| ==> !IsReservedFor(rows[i], run, attemptNumber)
  {
    if |rows| == 0 then None
    else if IsReservedFor(rows[|rows| - 1], run, attemptNumber) then Some(|rows| - 1)
    else FindActive(rows[..|rows| - 1], run, attemptNumber)
  }

  /** The budget row joined to a capacity row; capacity_reservation_id is unique. */
  function FindBudget(rows: seq<BudgetRow>, capacity: nat): (found: Option<nat>)
    ensures found.Some? ==> found.value < |rows| && rows[found.value].capacity == capacity
    ensures found.None? ==> forall i :: 0 <= i < |rows| ==> rows[i].capacity != capacity
  {
    if |rows| == 0 then None
    else if rows[|rows| - 1].capacity == capacity then Some(|rows| - 1)
    else FindBudget(rows[..|rows| - 1], capacity)
  }

  predicate IsEventFor(e: Event, eventType: EventType, run: RunId, version: nat) {
    e.eventType == eventType && e.run == run && e.version == version
  }

  /** The outbox row with this type, run and aggregate version, if it has not been cleaned up. */
  function FindEvent(events: seq<Event>, purged: set<nat>, eventType: EventType, run: RunId, version: nat)
    : (found: Option<nat>)
    ensures found.Some? ==>
              && found.value < |events| && found.value !in purged
              && IsEventFor(events[found.value], eventType, run, version)
    ensures found.None? ==>
              forall i :: 0 <= i < |events| && i !in purged ==> !IsEventFor(events[i], eventType, run, version)
  {
    if |events| == 0 then None
    else if |events| - 1 !in purged && IsEventFor(events[|events| - 1], eventType, run, version)
    then Some(|events| - 1)
    else FindEvent(events[..|events| - 1], purged, eventType, run, version)
  }

  /** The check constraints of agent_runs that relate its columns. */
  predicate RowOk(run: Run) {
    && (run.status == Scheduling <==> run.lease.Some?)
    && (IsFailure(run.status) <==> run.failure.Some?)
    && (run.status in {Cancelling, Cancelled} <==> run.cancelRequestedAt.Some?)
    && 1 <= run.attemptCount <= run.maxAttempts
  }

  /** Nothing a reservation, a usage row, a policy or a cluster row holds has changed. */
  predicate SameLedgerTables(db: Db, after: Db) {
    && after.capacity == db.capacity && after.budgets == db.budgets && after.usage == db.usage
    && after.policies == db.policies && after.clusters == db.clusters
  }

  // ---- API transactions ----

  datatype CreateRequest = CreateRequest(
    tenant: nat, project: nat, prompt: string, runtime: string, profile: string, cpu: nat, memory: nat,
    timeout: nat, maxAttempts: nat, createdBy: string, key: string, priority: int, now: Time)

  predicate ValidCreate(req: CreateRequest) {
    && 1 <= |req.prompt| <= 2048 && 1 <= |req.runtime| <= 120 && 1 <= |req.createdBy| <= 255
    && 1 <= req.cpu <= 128000 && 1 <= req.memory <= 524288
    && 1 <= req.timeout <= 86400 && 1 <= req.maxAttempts <= 10 && 1 <= |req.key| <= 255
  }

  /** agent_runs_tenant_idempotency_key_unique */
  predicate KeyTaken(db: Db, tenant: nat, key: string) {
    exists r :: 0 <= r < |db.runs| && db.runs[r].tenant == tenant && db.runs[r].key == key
  }

  function NewRun(req: CreateRequest): Run {
    Run(req.tenant, req.project, req.prompt, req.runtime, req.profile, req.cpu, req.memory, req.timeout,
        req.maxAttempts, 1, Queued, None, 1, req.createdBy, req.key, req.priority, req.now, None, None, None, None,
        None, None, None)
  }

  function NewAttempt(tenant: nat): Attempt {
    Attempt(tenant, AttemptPending, None, 1, None, None, None)
  }

  function Create(db: Db, req: CreateRequest): (o: Outcome<RunId>)
    ensures SameLedgerTables(db, o.db)
  {
    var r := |db.runs|;
    if !ValidCreate(req) then Outcome(db, Err(BadRequest))
    else if KeyTaken(db, req.tenant, req.key) then Outcome(db, Err(Conflict))
    else if (req.tenant, req.project) !in db.projects then Outcome(db, Err(NotFound))
    else if (r, 1) in db.attempts then Outcome(db, Err(Conflict))
    else Outcome(
      db.(runs := db.runs + [NewRun(req)],
          attempts := db.attempts[(r, 1) := NewAttempt(req.tenant)],
          events := db.events + [Event(RequestedEvent, req.tenant, r, 1, 1)]),
      Ok(r))
  }

  datatype CommandRequest = CommandRequest(tenant: nat, run: RunId, commandId: string, actor: string, reason: string,
      now: Time)

  datatype CommandResult = CommandResult(status: RunStatus, attemptCount: nat, version: nat, replayed: bool)

  predicate ValidCommand(req: CommandRequest) {
    1 <= |req.commandId| <= 255 && 1 <= |req.actor| <= 255 && req.now > 0
  }

  predicate Repeats(run: Run, kind: CommandKind, commandId: string) {
    run.receipt.Some? && run.receipt.value.kind == kind && run.receipt.value.id == commandId
  }

  function ReplayedCommand(run: Run): CommandResult
    requires run.receipt.Some?
  {
    CommandResult(run.receipt.value.status, run.receipt.value.attemptCount, run.version, true)
  }

  function Cancel(db: Db, req: CommandRequest): (o: Outcome<CommandResult>)
    ensures SameLedgerTables(db, o.db)
  {
    if !ValidCommand(req) || !(1 <= |req.reason| <= 500) then Outcome(db, Err(BadRequest))
    else if !RunExists(db, req.tenant, req.run) then Outcome(db, Err(NotFound))
    else
      var run := db.runs[req.run];
      if Repeats(run, CancelCommand, req.commandId) then Outcome(db, Ok(ReplayedCommand(run)))
      else if run.status in {Cancelling, Cancelled} then
        Outcome(db, Ok(CommandResult(run.status, run.attemptCount, run.version, true)))
      else if IsTerminal(run.status) then Outcome(db, Err(RunTerminal))
      else match Transitioned(run, Cancelling, None, req.now)
        case Err(_) => Outcome(db, Err(TransitionRefused))
        case Ok(moved) =>
          var row := moved.(version := run.version + 1, cancelRequestedAt := Some(req.now), lease := None,
                            nextEligible := None,
                            receipt := Some(Receipt(CancelCommand, req.commandId, Cancelling, run.attemptCount)));
          Outcome(
            db.(runs := db.runs[req.run := row],
                events := db.events + [Event(CancelRequestedEvent, run.tenant, req.run, row.version,
                    row.attemptCount)]),
            Ok(CommandResult(row.status, row.attemptCount, row.version, false)))
  }

  function RetriedRow(run: Run, moved: Run, commandId: string): Run {
    moved.(version := run.version + 1, lease := None, nextEligible := None,
           receipt := Some(Receipt(RetryCommand, commandId, Queued, moved.attemptCount)))
  }

  function Retry(db: Db, req: CommandRequest): (o: Outcome<CommandResult>)
    ensures SameLedgerTables(db, o.db)
  {
    if !ValidCommand(req) then Outcome(db, Err(BadRequest))
    else if !RunExists(db, req.tenant, req.run) then Outcome(db, Err(NotFound))
    else
      var run := db.runs[req.run];
      if Repeats(run, RetryCommand, req.commandId) then Outcome(db, Ok(ReplayedCommand(run)))
      else if !CanRetry(run) then Outcome(db, Err(RetryNotAllowed))
      else match Transitioned(run, Queued, None, req.now)
        case Err(_) => Outcome(db, Err(TransitionRefused))
        case Ok(moved) =>
          var row := RetriedRow(run, moved, req.commandId);
          var next := (req.run, row.attemptCount);
          if next in db.attempts then Outcome(db, Err(Conflict))
          else Outcome(
            db.(runs := db.runs[req.run := row],
                attempts := db.attempts[next := NewAttempt(run.tenant)],
                events := db.events + [Event(RetryRequestedEvent, run.tenant, req.run, row.version, row.attemptCount)]),
            Ok(CommandResult(row.status, row.attemptCount, row.version, false)))
  }

  /** Save of a row that Transition produced: a lifecycle report. A retry goes through Retry instead. */
  datatype AdvanceRequest = AdvanceRequest(
    tenant: nat, run: RunId, target: RunStatus, failure: Option<FailureCategory>, version: nat, now: Time)

  function Advance(db: Db, req: AdvanceRequest): (o: Outcome<nat>)
    ensures SameLedgerTables(db, o.db)
  {
    if !RunExists(db, req.tenant, req.run) then Outcome(db, Err(NotFound))
    else
      var run := db.runs[req.run];
      if req.target == run.status || req.target == Queued then Outcome(db, Err(TransitionRefused))
      else match Transitioned(run, req.target, req.failure, req.now)
        case Err(_) => Outcome(db, Err(TransitionRefused))
        case Ok(moved) =>
          var row := moved.(version := run.version + 1);
          if run.version != req.version then Outcome(db, Err(VersionConflict))
          else if !RowOk(row) then Outcome(db, Err(ConstraintViolation))
          else Outcome(db.(runs := db.runs[req.run := row]), Ok(row.version))
  }

  /** SaveAttempt of a row that Transition produced; pending attempts are moved by the scheduler alone. */
  datatype AdvanceAttemptRequest = AdvanceAttemptRequest(
    attempt: AttemptId, target: AttemptStatus, failure: Option<FailureCategory>, version: nat, now: Time)

  function AdvanceAttempt(db: Db, req: AdvanceAttemptRequest): (o: Outcome<nat>)
    ensures SameLedgerTables(db, o.db)
  {
    if req.attempt !in db.attempts then Outcome(db, Err(NotFound))
    else
      var attempt := db.attempts[req.attempt];
      if attempt.status == AttemptPending then Outcome(db, Err(TransitionRefused))
      else match AttemptTransitioned(attempt, req.target, req.failure, req.now)
        case Err(_) => Outcome(db, Err(TransitionRefused))
        case Ok(moved) =>
          if attempt.version != req.version then Outcome(db, Err(VersionConflict))
          else
            var row := moved.(version := attempt.version + 1);
            Outcome(db.(attempts := db.attempts[req.attempt := row]), Ok(row.version))
  }

  // ---- Queue transactions ----

  /** The where clause of the claim query. */
  predicate Claimable(db: Db, r: RunId, now: Time) {
    && r < |db.runs|
    && var run := db.runs[r];
    && (|| run.status == Queued
        || (run.status == CapacityWait && run.nextEligible.Some? && run.nextEligible.value <= now)
        || (run.status == Scheduling && run.lease.Some? && run.lease.value.expiresAt <= now))
    && (r, run.attemptCount) in db.attempts
    && db.attempts[(r, run.attemptCount)].status == AttemptPending
  }

  function ClaimOne(db: Db, r: RunId, owner: string, now: Time, lease: nat): Db {
    if Claimable(db, r, now) then
      var run := db.runs[r];
      db.(runs := db.runs[r := run.(status := Scheduling, lease := Some(Lease(owner, now + lease)),
          version := run.version + 1)])
    else db
  }

  /** The update of every row of one claimed batch. */
  function ClaimAll(db: Db, batch: seq<RunId>, owner: string, now: Time, lease: nat): Db {
    if |batch| == 0 then db
    else ClaimOne(ClaimAll(db, batch[..|batch| - 1], owner, now, lease), batch[|batch| - 1], owner, now, lease)
  }

  datatype RenewRequest = RenewRequest(tenant: nat, run: RunId, owner: string, version: nat, now: Time, lease: nat)

  predicate HoldsLease(run: Run, owner: string, version: nat, now: Time) {
    && run.status == Scheduling
    && run.lease.Some? && run.lease.value.owner == owner && run.lease.value.expiresAt > now
    && run.version == version
  }

  function Renew(db: Db, req: RenewRequest): (o: Outcome<nat>)
    ensures SameLedgerTables(db, o.db)
  {
    if !(1 <= |req.owner| <= 160) || req.version < 1 || req.now == 0 || req.lease == 0 then Outcome(db, Err(BadRequest))
    else if !RunExists(db, req.tenant, req.run) then Outcome(db, Err(NotFound))
    else
      var run := db.runs[req.run];
      if !HoldsLease(run, req.owner, req.version, req.now) then Outcome(db, Err(VersionConflict))
      else
        var row := run.(lease := Some(Lease(req.owner, req.now + req.lease)), version := run.version + 1);
        Outcome(db.(runs := db.runs[req.run := row]), Ok(row.version))
  }

  // ---- Scheduling decisions ----

  /** What a scheduler remembers of a run it claimed. */
  datatype ClaimedRun = ClaimedRun(
    tenant: nat, run: RunId, version: nat, attempt: AttemptId, attemptNumber: nat, attemptVersion: nat,
    runtime: string, profile: string, prompt: string, timeout: nat, maxAttempts: nat, cpu: nat, memory: nat)

  datatype ScheduleRequest = ScheduleRequest(
    claim: ClaimedRun, owner: string, attempt: AttemptId, attemptVersion: nat, cluster: string, freshness: nat,
    strategy: string, score: nat, budget: nat, ttl: nat, now: Time, desired: Desired)

  datatype IntentResult = IntentResult(
    runVersion: nat, attemptVersion: nat, capacity: nat, budget: nat, event: nat, replayed: bool)

  predicate ValidDesired(d: Desired, attemptNumber: nat) {
    && 1 <= attemptNumber <= d.maxAttempts <= 10
    && 1 <= d.timeout <= 86400 && 1 <= d.cpu <= 128000 && 1 <= d.memory <= 524288
  }

  predicate ValidIntent(req: ScheduleRequest) {
    && req.claim.version >= 1 && req.attemptVersion >= 1 && req.owner != "" && req.cluster != ""
    && req.freshness > 0 && req.strategy != "" && 0 < req.ttl <= DAY && req.now > 0
    && req.desired.runtime == req.claim.runtime && req.desired.profile == req.claim.profile
    && req.desired.task == req.claim.prompt && req.desired.timeout == req.claim.timeout
    && req.desired.maxAttempts == req.claim.maxAttempts
    && req.desired.cpu == req.claim.cpu && req.desired.memory == req.claim.memory
    && ValidDesired(req.desired, req.claim.attemptNumber)
  }

  /** lockPendingAttempt */
  function PendingAttemptError(db: Db, r: RunId, attempt: AttemptId, version: nat): (error: Option<Error>)
    requires r < |db.runs|
    ensures error.None? ==>
              && attempt == (r, db.runs[r].attemptCount) && attempt in db.attempts
              && db.attempts[attempt].status == AttemptPending && db.attempts[attempt].version == version
  {
    if attempt != (r, db.runs[r].attemptCount) || attempt !in db.attempts then Some(NotFound)
    else if db.attempts[attempt].status != AttemptPending || db.attempts[attempt].version != version
    then Some(VersionConflict)
    else None
  }

  /** lockEligibleCluster */
  predicate ClusterEligible(c: Cluster, tenant: nat, runtime: string, profile: string, now: Time, freshness: nat) {
    && c.active && !c.maintenance
    && now <= c.heartbeat + freshness && now <= c.snapshot.observedAt + freshness
    && runtime in c.runtimes && profile in c.profiles
    && (!c.restricted || tenant in c.allowed)
    && 0 < c.heartbeat <= now + MINUTE && 0 < c.snapshot.observedAt <= now + MINUTE
  }

  function EligibilityOf(db: Db, r: RunId, now: Time): Result<E.Decision, Error>
    requires r < |db.runs|
  {
    var run := db.runs[r];
    if run.tenant !in db.tenants || (run.tenant, run.project) !in db.projects then Err(NotFound)
    else
      var policy := if run.tenant in db.policies then Some(db.policies[run.tenant]) else None;
      match E.Evaluate(E.EligibilityInput(
        db.tenants[run.tenant], db.projects[(run.tenant, run.project)],
        E.SchedulingRequest(run.runtime, run.profile, run.createdBy, run.cpu, run.memory),
        policy, SchedulingUsage(db, run.tenant, run.createdBy, now), now))
      case Err(_) => Err(BadRequest)
      case Ok(decision) => Ok(decision)
  }

  /** Whether a cluster's latest snapshot leaves room for one more request at now. */
  predicate Fits(db: Db, cluster: string, cpu: nat, memory: nat, now: Time)
    requires cluster in db.clusters
  {
    && db.clusters[cluster].snapshot.cpu - Held(db.capacity, cluster, now, CpuMillis) >= cpu
    && db.clusters[cluster].snapshot.memory - Held(db.capacity, cluster, now, MemoryMib) >= memory
  }

  predicate WithinBudget(db: Db, tenant: nat, amount: nat, now: Time)
    requires tenant in db.policies
  {
    var today := UsageOf(db, tenant, Day(now));
    amount <= db.policies[tenant].dailyBudget - today.spent - today.reserved
  }

  /** The first check that a first-time Schedule fails, in the order the transaction makes them. */
  function ScheduleError(db: Db, req: ScheduleRequest): (error: Option<Error>)
    requires req.claim.run < |db.runs|
    ensures error.None? ==> req.attempt in db.attempts
  {
    var r := req.claim.run;
    var run := db.runs[r];
    if !HoldsLease(run, req.owner, req.claim.version, req.now) || run.profile != req.claim.profile
    then Some(VersionConflict)
    else if req.desired.runtime != run.runtime || req.desired.task != run.prompt ||
            req.desired.timeout != run.timeout || req.desired.maxAttempts != run.maxAttempts then Some(Conflict)
    else
      var attemptError := PendingAttemptError(db, r, req.attempt, req.attemptVersion);
      if attemptError.Some? then attemptError
      else
        var eligibility := EligibilityOf(db, r, req.now);
        if eligibility.Err? then Some(eligibility.error)
        else if eligibility.value != E.Eligible then Some(Denied(eligibility.value))
        else if req.cluster !in db.clusters then Some(CapacityUnavailable)
        else if !ClusterEligible(db.clusters[req.cluster], run.tenant, run.runtime, run.profile, req.now, req.freshness)
        then Some(CapacityUnavailable)
        else if !Fits(db, req.cluster, run.cpu, run.memory, req.now) then Some(CapacityUnavailable)
        else if run.tenant !in db.policies || !WithinBudget(db, run.tenant, req.budget, req.now)
        then Some(BudgetUnavailable)
        else if !(1 <= run.cpu <= 128000) || !(1 <= run.memory <= 524288) then Some(BadRequest)
        else if FindActive(db.capacity, r, run.attemptCount).Some? then Some(Conflict)
        else if req.attempt in db.intents then Some(Conflict)
        else None
  }

  function NewCapacityRow(tenant: nat, run: RunId, attempt: AttemptId, attemptNumber: nat, cluster: string,
                          cpu: nat, memory: nat, now: Time, ttl: nat): CapacityRow {
    CapacityRow(tenant, run, attempt, attemptNumber, cluster, cpu, memory, Reserved, now + ttl, now)
  }

  /** insertReservationBundle and the charge to the day's usage: the same three writes on both paths. */
  function WithReservation(db: Db, row: CapacityRow, amount: nat, now: Time): Db {
    var today := UsageOf(db, row.tenant, Day(now));
    db.(capacity := db.capacity + [row],
        budgets := db.budgets + [BudgetRow(|db.capacity|, row.tenant, row.run, row.attemptNumber, Day(now), amount,
            Reserved)],
        usage := db.usage[(row.tenant, Day(now)) := today.(reserved := today.reserved + amount)])
  }

  function ScheduledRow(run: Run, req: ScheduleRequest): Run {
    run.(status := Provisioning, version := run.version + 1, lease := None, nextEligible := None,
         verdict := Some(Verdict("SCHEDULED", "cluster selected and resources reserved")),
         placement := Some(Placement(req.strategy, req.score)))
  }

  function Scheduled(db: Db, req: ScheduleRequest): Db
    requires req.claim.run < |db.runs| && req.attempt in db.attempts
  {
    var r := req.claim.run;
    var run := db.runs[r];
    var attempt := db.attempts[req.attempt];
    var reserved := WithReservation(
      db,
      NewCapacityRow(run.tenant, r, req.attempt, run.attemptCount, req.cluster, run.cpu, run.memory, req.now, req.ttl),
      req.budget, req.now);
    reserved.(
      runs := db.runs[r := ScheduledRow(run, req)],
      attempts := db.attempts[req.attempt := attempt.(
        status := AttemptStarting, version := attempt.version + 1,
        assignment := Some(Assignment(req.cluster, run.profile, |db.capacity|, |db.budgets|)))],
      events := db.events + [Event(ScheduledEvent, run.tenant, r, run.version + 1, run.attemptCount)],
      intents := db.intents[req.attempt := Intent(|db.events|, req.cluster, req.desired)])
  }

  /** replaySchedulingIntent */
  function ReplaySchedule(db: Db, req: ScheduleRequest): Result<IntentResult, Error>
    requires req.claim.run < |db.runs|
  {
    var r := req.claim.run;
    var run := db.runs[r];
    var a := (r, run.attemptCount);
    if a !in db.attempts || db.attempts[a].assignment.None? then Err(NotFound)
    else
      var placed := db.attempts[a].assignment.value;
      if placed.capacity >= |db.capacity| || placed.budget >= |db.budgets| then Err(NotFound)
      else
        var held := db.capacity[placed.capacity];
        if placed.cluster != req.cluster || placed.profile != req.claim.profile || held.cpu != run.cpu ||
           held.memory != run.memory || db.budgets[placed.budget].amount != req.budget ||
           held.expiresAt - held.createdAt != req.ttl || run.placement != Some(Placement(req.strategy, req.score))
        then Err(Conflict)
        else
          var event := FindEvent(db.events, db.purged, ScheduledEvent, r, run.version);
          if event.None? then Err(NotFound)
          else if a !in db.intents || db.intents[a].event != event.value then Err(NotFound)
          else if db.intents[a].desired != req.desired then Err(Conflict)
          else Ok(IntentResult(run.version, db.attempts[a].version, placed.capacity, placed.budget, event.value, true))
  }

  /** The checks in order, then the writes. */
  function ScheduleClaimed(db: Db, req: ScheduleRequest): Outcome<IntentResult>
    requires req.claim.run < |db.runs|
  {
    var error := ScheduleError(db, req);
    if error.Some? then Outcome(db, Err(error.value))
    else Outcome(Scheduled(db, req),
                 Ok(IntentResult(db.runs[req.claim.run].version + 1, db.attempts[req.attempt].version + 1,
                                 |db.capacity|, |db.budgets|, |db.events|, false)))
  }

  function Schedule(db: Db, req: ScheduleRequest): Outcome<IntentResult> {
    if !ValidIntent(req) then Outcome(db, Err(BadRequest))
    else if !RunExists(db, req.claim.tenant, req.claim.run) then Outcome(db, Err(NotFound))
    else if db.runs[req.claim.run].status == Provisioning then Outcome(db, ReplaySchedule(db, req))
    else ScheduleClaimed(db, req)
  }

  datatype DecisionRequest = DecisionRequest(
    claim: ClaimedRun, owner: string, code: string, reason: string, nextEligible: Time, now: Time)

  predicate ValidDecision(req: DecisionRequest) {
    && req.owner != "" && req.claim.version >= 1 && req.now > 0
    && 1 <= |req.code| <= 80 && 1 <= |req.reason| <= 500
  }

  function DeferredRow(run: Run, req: DecisionRequest): Run {
    run.(status := CapacityWait, version := run.version + 1, lease := None, nextEligible := Some(req.nextEligible),
         verdict := Some(Verdict(req.code, req.reason)))
  }

  function DeferCapacity(db: Db, req: DecisionRequest): (o: Outcome<IntentResult>)
    ensures SameLedgerTables(db, o.db)
  {
    var r := req.claim.run;
    if !ValidDecision(req) || req.nextEligible <= req.now then Outcome(db, Err(BadRequest))
    else if !RunExists(db, req.claim.tenant, r) then Outcome(db, Err(NotFound))
    else
      var run := db.runs[r];
      if run.status == CapacityWait then
        if run.version == req.claim.version + 1 && run.verdict == Some(Verdict(req.code, req.reason)) &&
           run.nextEligible == Some(req.nextEligible) then
          var event := FindEvent(db.events, db.purged, CapacityWaitEvent, r, run.version);
          Outcome(db, if event.None? then Err(NotFound) else Ok(IntentResult(run.version, 0, 0, 0, event.value, true)))
        else Outcome(db, Err(VersionConflict))
      else if !HoldsLease(run, req.owner, req.claim.version, req.now) then Outcome(db, Err(VersionConflict))
      else Outcome(
        db.(runs := db.runs[r := DeferredRow(run, req)],
            events := db.events + [Event(CapacityWaitEvent, run.tenant, r, run.version + 1, run.attemptCount)]),
        Ok(IntentResult(run.version + 1, 0, 0, 0, |db.events|, false)))
  }

  function RejectedRow(run: Run, req: DecisionRequest): Run {
    run.(status := PolicyRejected, failure := Some(PolicyFailure), completedAt := Some(req.now),
         version := run.version + 1, lease := None, nextEligible := None,
         verdict := Some(Verdict(req.code, req.reason)))
  }

  function Reject(db: Db, req: DecisionRequest): (o: Outcome<IntentResult>)
    ensures SameLedgerTables(db, o.db)
  {
    var r := req.claim.run;
    if !ValidDecision(req) then Outcome(db, Err(BadRequest))
    else if !RunExists(db, req.claim.tenant, r) then Outcome(db, Err(NotFound))
    else
      var run := db.runs[r];
      var a := (r, run.attemptCount);
      if run.status == PolicyRejected then
        if run.version != req.claim.version + 1 || run.verdict != Some(Verdict(req.code, req.reason))
        then Outcome(db, Err(Conflict))
        else
          var event := FindEvent(db.events, db.purged, FailedEvent, r, run.version);
          if event.None? then Outcome(db, Err(NotFound))
          else if a !in db.attempts || db.attempts[a].status != AttemptCancelled then Outcome(db, Err(NotFound))
          else Outcome(db, Ok(IntentResult(run.version, db.attempts[a].version, 0, 0, event.value, true)))
      else if !HoldsLease(run, req.owner, req.claim.version, req.now) then Outcome(db, Err(VersionConflict))
      else
        var attemptError := PendingAttemptError(db, r, req.claim.attempt, req.claim.attemptVersion);
        if attemptError.Some? then Outcome(db, Err(attemptError.value))
        else
          var attempt := db.attempts[a];
          Outcome(
            db.(attempts := db.attempts[a := attempt.(status := AttemptCancelled, version := attempt.version + 1,
                                                      completedAt := Some(req.now))],
                runs := db.runs[r := RejectedRow(run, req)],
                events := db.events + [Event(FailedEvent, run.tenant, r, run.version + 1, run.attemptCount)]),
            Ok(IntentResult(run.version + 1, attempt.version + 1, 0, 0, |db.events|, false)))
  }

  // ---- Reservation transactions ----

  datatype ReserveRequest = ReserveRequest(
    tenant: nat, run: RunId, attempt: AttemptId, attemptNumber: nat, cluster: string, cpu: nat, memory: nat,
    budget: nat, now: Time, ttl: nat)

  datatype Bundle = Bundle(capacity: nat, budget: nat)

  predicate ValidReserve(req: ReserveRequest) {
    && req.attemptNumber >= 1 && req.cluster != "" && 1 <= req.cpu <= 128000 && 1 <= req.memory <= 524288
    && req.now > 0 && 0 < req.ttl <= DAY
  }

  function Reserve(db: Db, req: ReserveRequest): (o: Outcome<Bundle>)
    ensures o.db == db.(capacity := o.db.capacity, budgets := o.db.budgets, usage := o.db.usage)
    ensures db.capacity <= o.db.capacity && db.budgets <= o.db.budgets
  {
    if !ValidReserve(req) then Outcome(db, Err(BadRequest))
    else if req.tenant !in db.policies || req.cluster !in db.clusters then Outcome(db, Err(NotFound))
    else
      var active := FindActive(db.capacity, req.run, req.attemptNumber);
      if active.Some? && db.capacity[active.value].tenant == req.tenant &&
         FindBudget(db.budgets, active.value).Some? then
        var row := db.capacity[active.value];
        var budget := FindBudget(db.budgets, active.value).value;
        if row.cluster != req.cluster || row.cpu != req.cpu || row.memory != req.memory ||
           db.budgets[budget].amount != req.budget || row.attempt != req.attempt
        then Outcome(db, Err(Conflict))
        else Outcome(db, Ok(Bundle(active.value, budget)))
      else if !Fits(db, req.cluster, req.cpu, req.memory, req.now) then Outcome(db, Err(CapacityUnavailable))
      else if !WithinBudget(db, req.tenant, req.budget, req.now) then Outcome(db, Err(BudgetUnavailable))
      else if active.Some? then Outcome(db, Err(Conflict))
      else if !RunExists(db, req.tenant, req.run) || req.attempt !in db.attempts then Outcome(db, Err(NotFound))
      else Outcome(
        WithReservation(
          db,
          NewCapacityRow(req.tenant, req.run, req.attempt, req.attemptNumber, req.cluster, req.cpu, req.memory, req.now,
              req.ttl),
          req.budget, req.now),
        Ok(Bundle(|db.capacity|, |db.budgets|)))
  }

  datatype FinishRequest = FinishRequest(
    tenant: nat, run: RunId, attemptNumber: nat, now: Time, target: ReservationState)

  predicate MatchesFinish(row: CapacityRow, req: FinishRequest) {
    row.tenant == req.tenant && row.run == req.run && row.attemptNumber == req.attemptNumber
  }

  /** The row a query ordered by created_at desc with limit 1 may return; ties are the database's choice. */
  predicate IsLatest(db: Db, req: FinishRequest, row: nat) {
    && row < |db.capacity| && MatchesFinish(db.capacity[row], req) && FindBudget(db.budgets, row).Some?
    && forall i :: 0 <= i < |db.capacity| && MatchesFinish(db.capacity[i], req) ==>
                     db.capacity[i].createdAt <= db.capacity[row].createdAt
  }

  function MovedUsage(u: DayUsage, amount: nat, target: ReservationState): DayUsage {
    DayUsage(if target == Settled then u.spent + amount else u.spent, u.reserved - amount)
  }

  /** transition: Release, Settle and Expire of the row the database returned. */
  function Finish(db: Db, req: FinishRequest, row: nat): (o: Outcome<bool>)
    ensures o.db == db.(capacity := o.db.capacity, budgets := o.db.budgets, usage := o.db.usage)
    ensures |o.db.capacity| == |db.capacity| && |o.db.budgets| == |db.budgets|
    ensures forall i :: 0 <= i < |db.capacity| ==> o.db.capacity[i] == db.capacity[i].(state := o.db.capacity[i].state)
    ensures forall i :: 0 <= i < |db.budgets| ==> o.db.budgets[i] == db.budgets[i].(state := o.db.budgets[i].state)
  {
    if req.attemptNumber < 1 || req.now == 0 || req.target == Reserved then Outcome(db, Err(BadRequest))
    else if !IsLatest(db, req, row) then Outcome(db, Err(NotFound))
    else
      var held := db.capacity[row];
      var b := FindBudget(db.budgets, row).value;
      var budget := db.budgets[b];
      if held.state == req.target then Outcome(db, Ok(false))
      else if held.state != Reserved then Outcome(db, Err(Conflict))
      else if req.target == Expired && held.expiresAt > req.now then Outcome(db, Ok(false))
      else
        var day := (req.tenant, budget.day);
        Outcome(
          db.(capacity := db.capacity[row := held.(state := req.target)],
              budgets := if budget.state == Reserved then db.budgets[b := budget.(state := req.target)] else db.budgets,
              usage := if day in db.usage
                       then db.usage[day := MovedUsage(db.usage[day], budget.amount, req.target)] else db.usage),
          Ok(true))
  }

  // ---- Registry and relay transactions ----

  /** Register or Update: the row is replaced, and the snapshot counts only if it is the newest. */
  function ReportCluster(db: Db, id: string, reported: Cluster): Db {
    var latest :=
      if id in db.clusters && db.clusters[id].snapshot.observedAt >= reported.snapshot.observedAt
      then db.clusters[id].snapshot else reported.snapshot;
    db.(clusters := db.clusters[id := reported.(snapshot := latest)])
  }

  /** CleanupPublished, seen from the scheduler: some outbox rows are gone. */
  function Purge(db: Db, rows: set<nat>): Db {
    db.(purged := db.purged + set e | e in rows && e < |db.events|)
  }

  // ---- Interleavings ----

  datatype Step =
    | CreateStep(create: CreateRequest)
    | CancelStep(command: CommandRequest)
    | RetryStep(command: CommandRequest)
    | AdvanceStep(advance: AdvanceRequest)
    | AdvanceAttemptStep(advanceAttempt: AdvanceAttemptRequest)
    | ClaimStep(batch: seq<RunId>, owner: string, claimedAt: Time, lease: nat)
    | RenewStep(renew: RenewRequest)
    | ScheduleStep(schedule: ScheduleRequest)
    | DeferStep(decision: DecisionRequest)
    | RejectStep(decision: DecisionRequest)
    | ReserveStep(reserve: ReserveRequest)
    | FinishStep(finish: FinishRequest, row: nat)
    | ReportStep(id: string, reported: Cluster)
    | PurgeStep(rows: set<nat>)

  /** Steps on one run that neither decide its schedule nor touch the ledger. */
  predicate IsRunStep(step: Step) {
    step.CreateStep? || step.CancelStep? || step.RetryStep? || step.AdvanceStep? || step.AdvanceAttemptStep? ||
    step.ClaimStep? || step.RenewStep?
  }

  function Apply(db: Db, step: Step): Db {
    match step
    case CreateStep(req) => Create(db, req).db
    case CancelStep(req) => Cancel(db, req).db
    case RetryStep(req) => Retry(db, req).db
    case AdvanceStep(req) => Advance(db, req).db
    case AdvanceAttemptStep(req) => AdvanceAttempt(db, req).db
    case ClaimStep(batch, owner, now, lease) => ClaimAll(db, batch, owner, now, lease)
    case RenewStep(req) => Renew(db, req).db
    case ScheduleStep(req) => Schedule(db, req).db
    case DeferStep(req) => DeferCapacity(db, req).db
    case RejectStep(req) => Reject(db, req).db
    case ReserveStep(req) => Reserve(db, req).db
    case FinishStep(req, row) => Finish(db, req, row).db
    case ReportStep(id, reported) => ReportCluster(db, id, reported)
    case PurgeStep(rows) => Purge(db, rows)
  }

  /** Any interleaving of transactions, by any number of schedulers, relays and API processes. */
  function Execute(db: Db, steps: seq<Step>): Db {
    if |steps| == 0 then db else Apply(Execute(db, steps[..|steps| - 1]), steps[|steps| - 1])
  }

  /** A database before its first run: only tenants, projects, policies and clusters. */
  predicate Fresh(db: Db) {
    && db.runs == [] && db.attempts == map[] && db.capacity == [] && db.budgets == [] && db.usage == map[]
    && db.events == [] && db.purged == {} && db.intents == map[]
  }
}
