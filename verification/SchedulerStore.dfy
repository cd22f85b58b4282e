/**
 The repositories as they run: each transaction checks, then writes one table after the other in place. Every
 method is proved to commit exactly what the transaction of the same name in Store specifies, so the theorems
 over runs of the system hold for these bodies.
 */
module SchedulerStore {
  import opened Common
  import opened RunDomain
  import opened S = Store
  import opened Ordering
  import opened Queue
  import opened Ledger
  import opened Reclaim
  import E = Eligibility

  datatype ClaimRequest = ClaimRequest(owner: string, now: Time, lease: nat, batchSize: nat, aging: Aging)

  predicate ValidClaim(req: ClaimRequest) {
    && 1 <= |req.owner| <= 160 && req.now > 0 && req.lease > 0 && 1 <= req.batchSize <= 1000
    && req.aging.interval > 0 && req.aging.boost <= 1000
  }

  /** The row a claim returns for run r once it is updated. */
  function ClaimedRow(db: Db, r: RunId): ClaimedRun
    requires r < |db.runs| && (r, db.runs[r].attemptCount) in db.attempts
  {
    var run := db.runs[r];
    var a := (r, run.attemptCount);
    ClaimedRun(run.tenant, r, run.version, a, run.attemptCount, db.attempts[a].version, run.runtime, run.profile,
               run.prompt, run.timeout, run.maxAttempts, run.cpu, run.memory)
  }

  predicate ReturnsRows(db: Db, batch: seq<RunId>, claimed: seq<ClaimedRun>) {
    && |claimed| == |batch|
    && forall i :: 0 <= i < |batch| ==>
         && batch[i] < |db.runs| && (batch[i], db.runs[batch[i]].attemptCount) in db.attempts
         && claimed[i] == ClaimedRow(db, batch[i])
  }

  /** Rows outside the batch keep every column; attempts are only read. */
  lemma {:induction false} ClaimLeavesOthers(db: Db, batch: seq<RunId>, owner: string, now: Time, lease: nat, r: RunId)
    requires r < |db.runs| && r !in batch
    ensures var after := ClaimAll(db, batch, owner, now, lease);
            |after.runs| == |db.runs| && after.runs[r] == db.runs[r] && after.attempts == db.attempts
  {
    if |batch| > 0 {
      ClaimLeavesOthers(db, batch[..|batch| - 1], owner, now, lease, r);
    }
  }

  /** Distinct claimable runs: all the update needs to know of a batch. */
  predicate DistinctClaimable(db: Db, now: Time, batch: seq<RunId>) {
    && (forall i :: 0 <= i < |batch| ==> Claimable(db, batch[i], now))
    && (forall i, j :: 0 <= i < j < |batch| ==> batch[i] != batch[j])
  }

  lemma BatchIsDistinct(db: Db, req: ClaimRequest, locked: set<RunId>, batch: seq<RunId>)
    requires ValidClaim(req) && IsBatch(db, req.now, req.aging, req.batchSize, locked, batch)
    ensures DistinctClaimable(db, req.now, batch)
  {
    forall i, j | 0 <= i < j < |batch|
      ensures batch[i] != batch[j]
    {
      FirstAreDistinct(ClaimKeys(db, req.now, req.aging, locked), req.batchSize, batch, i, j);
    }
    forall i | 0 <= i < |batch|
      ensures Claimable(db, batch[i], req.now)
    {
      assert batch[i] in ClaimKeys(db, req.now, req.aging, locked);
    }
  }

  /** Each row of the batch is still claimable when its turn comes, and its update disturbs no earlier answer. */
  lemma NextClaim(db: Db, req: ClaimRequest, batch: seq<RunId>, i: nat, claimed: seq<ClaimedRun>)
    requires DistinctClaimable(db, req.now, batch) && i < |batch|
    requires ReturnsRows(ClaimAll(db, batch[..i], req.owner, req.now, req.lease), batch[..i], claimed)
    ensures var before := ClaimAll(db, batch[..i], req.owner, req.now, req.lease);
            var after := ClaimAll(db, batch[..i + 1], req.owner, req.now, req.lease);
            && Claimable(before, batch[i], req.now)
            && after == ClaimOne(before, batch[i], req.owner, req.now, req.lease)
            && ReturnsRows(after, batch[..i + 1], claimed + [ClaimedRow(after, batch[i])])
  {
    ClaimLeavesOthers(db, batch[..i], req.owner, req.now, req.lease, batch[i]);
    assert batch[..i + 1][..i] == batch[..i];
  }

  /** A claimed row: the claimant alone may decide on it, at the version the claim returned, until now + lease. */
  lemma {:induction false} ClaimedLease(db: Db, req: ClaimRequest, batch: seq<RunId>, i: nat, owner: string,
      version: nat, t: Time)
    requires DistinctClaimable(db, req.now, batch) && i < |batch|
    ensures var after := ClaimAll(db, batch, req.owner, req.now, req.lease);
            && batch[i] < |after.runs|
            && (HoldsLease(after.runs[batch[i]], owner, version, t) <==>
                  owner == req.owner && version == db.runs[batch[i]].version + 1 && t < req.now + req.lease)
  {
    var init := batch[..|batch| - 1];
    if i == |batch| - 1 {
      ClaimLeavesOthers(db, init, req.owner, req.now, req.lease, batch[i]);
    } else {
      ClaimedLease(db, req, init, i, owner, version, t);
    }
  }

  class Repository {
    var tenants: map<nat, bool>
    var projects: map<(nat, nat), bool>
    var policies: map<nat, E.SchedulingPolicy>
    var clusters: map<string, Cluster>
    var runs: seq<Run>
    var attempts: map<AttemptId, Attempt>
    var capacity: seq<CapacityRow>
    var budgets: seq<BudgetRow>
    var usage: map<(nat, nat), DayUsage>
    var events: seq<Event>
    var purged: set<nat>
    var intents: map<AttemptId, Intent>

    function State(): Db
      reads this
    {
      Db(tenants, projects, policies, clusters, runs, attempts, capacity, budgets, usage, events, purged, intents)
    }

    constructor (db: Db)
      ensures State() == db
    {
      tenants, projects, policies, clusters := db.tenants, db.projects, db.policies, db.clusters;
      runs, attempts, capacity, budgets := db.runs, db.attempts, db.capacity, db.budgets;
      usage, events, purged, intents := db.usage, db.events, db.purged, db.intents;
    }

    /** The tables as another process left them. */
    method Become(db: Db)
      modifies this
      ensures State() == db
    {
      BecomeRegistry(db);
      BecomeRuns(db);
      usage, events, purged, intents := db.usage, db.events, db.purged, db.intents;
    }

    method BecomeRegistry(db: Db)
      modifies this
      ensures State() == old(State()).(tenants := db.tenants, projects := db.projects, policies := db.policies,
                                       clusters := db.clusters)
    {
      tenants, projects, policies, clusters := db.tenants, db.projects, db.policies, db.clusters;
    }

    method BecomeRuns(db: Db)
      modifies this
      ensures State() == old(State()).(runs := db.runs, attempts := db.attempts, capacity := db.capacity,
                                       budgets := db.budgets)
    {
      runs, attempts, capacity, budgets := db.runs, db.attempts, db.capacity, db.budgets;
    }

    // ---- Writes ----

    /** Rewrites a run row and inserts its outbox event. */
    method WriteRun(r: RunId, row: Run, event: Event)
      requires r < |runs|
      modifies this
      ensures State() == old(State()).(runs := old(runs)[r := row], events := old(events) + [event])
    {
      runs := runs[r := row];
      events := events + [event];
    }

    method WriteAttempt(a: AttemptId, row: Attempt)
      modifies this
      ensures State() == old(State()).(attempts := old(attempts)[a := row])
    {
      attempts := attempts[a := row];
    }

    // ---- API commands ----

    method Create(req: CreateRequest) returns (result: Result<RunId, Error>)
      modifies this
      ensures Outcome(State(), result) == S.Create(old(State()), req)
    {
      if !ValidCreate(req) {
        return Err(BadRequest);
      }
      if KeyTaken(State(), req.tenant, req.key) {
        return Err(Conflict);
      }
      if (req.tenant, req.project) !in projects {
        return Err(NotFound);
      }
      var r := |runs|;
      if (r, 1) in attempts {
        return Err(Conflict);
      }
      runs := runs + [NewRun(req)];
      attempts := attempts[(r, 1) := NewAttempt(req.tenant)];
      events := events + [Event(RequestedEvent, req.tenant, r, 1, 1)];
      return Ok(r);
    }

    method Cancel(req: CommandRequest) returns (result: Result<CommandResult, Error>)
      modifies this
      ensures Outcome(State(), result) == S.Cancel(old(State()), req)
    {
      if !ValidCommand(req) || !(1 <= |req.reason| <= 500) {
        return Err(BadRequest);
      }
      if !RunExists(State(), req.tenant, req.run) {
        return Err(NotFound);
      }
      var run := runs[req.run];
      if Repeats(run, CancelCommand, req.commandId) {
        return Ok(ReplayedCommand(run));
      }
      if run.status in {Cancelling, Cancelled} {
        return Ok(CommandResult(run.status, run.attemptCount, run.version, true));
      }
      if IsTerminal(run.status) {
        return Err(RunTerminal);
      }
      var moved := Transitioned(run, Cancelling, None, req.now);
      if moved.Err? {
        return Err(TransitionRefused);
      }
      var row := moved.value.(version := run.version + 1, cancelRequestedAt := Some(req.now), lease := None,
                              nextEligible := None,
                              receipt := Some(Receipt(CancelCommand, req.commandId, Cancelling, run.attemptCount)));
      WriteRun(req.run, row, Event(CancelRequestedEvent, run.tenant, req.run, row.version, row.attemptCount));
      return Ok(CommandResult(row.status, row.attemptCount, row.version, false));
    }

    method Retry(req: CommandRequest) returns (result: Result<CommandResult, Error>)
      modifies this
      ensures Outcome(State(), result) == S.Retry(old(State()), req)
    {
      if !ValidCommand(req) {
        return Err(BadRequest);
      }
      if !RunExists(State(), req.tenant, req.run) {
        return Err(NotFound);
      }
      var run := runs[req.run];
      if Repeats(run, RetryCommand, req.commandId) {
        return Ok(ReplayedCommand(run));
      }
      if !CanRetry(run) {
        return Err(RetryNotAllowed);
      }
      var moved := Transitioned(run, Queued, None, req.now);
      if moved.Err? {
        return Err(TransitionRefused);
      }
      var row := RetriedRow(run, moved.value, req.commandId);
      var next := (req.run, row.attemptCount);
      if next in attempts {
        return Err(Conflict);
      }
      WriteAttempt(next, NewAttempt(run.tenant));
      WriteRun(req.run, row, Event(RetryRequestedEvent, run.tenant, req.run, row.version, row.attemptCount));
      return Ok(CommandResult(row.status, row.attemptCount, row.version, false));
    }

    // ---- Queue ----

    /** The update of one locked row. */
    method ClaimRow(req: ClaimRequest, r: RunId) returns (row: ClaimedRun)
      requires Claimable(State(), r, req.now)
      modifies this
      ensures State() == ClaimOne(old(State()), r, req.owner, req.now, req.lease)
      ensures r < |runs| && (r, runs[r].attemptCount) in attempts && row == ClaimedRow(State(), r)
    {
      runs := runs[r := runs[r].(status := Scheduling, lease := Some(Lease(req.owner, req.now + req.lease)),
                                 version := runs[r].version + 1)];
      row := ClaimedRow(State(), r);
    }

    /** The update of the locked rows, one after the other. */
    method ClaimRows(req: ClaimRequest, batch: seq<RunId>) returns (claimed: seq<ClaimedRun>)
      requires DistinctClaimable(State(), req.now, batch)
      modifies this
      ensures State() == ClaimAll(old(State()), batch, req.owner, req.now, req.lease)
      ensures ReturnsRows(State(), batch, claimed)
    {
      claimed := [];
      ghost var start := State();
      for i := 0 to |batch|
        invariant State() == ClaimAll(start, batch[..i], req.owner, req.now, req.lease)
        invariant ReturnsRows(ClaimAll(start, batch[..i], req.owner, req.now, req.lease), batch[..i], claimed)
      {
        NextClaim(start, req, batch, i, claimed);
        var row := ClaimRow(req, batch[i]);
        claimed := claimed + [row];
      }
      assert batch[..|batch|] == batch;
    }

    /** Ranks and locks a batch, skipping the rows other transactions hold, then claims it. */
    method Claim(req: ClaimRequest, locked: set<RunId>) returns (result: Result<seq<ClaimedRun>, Error>,
        batch: seq<RunId>)
      modifies this
      ensures !ValidClaim(req) ==> result == Err(BadRequest) && State() == old(State())
      ensures ValidClaim(req) ==>
                && IsBatch(old(State()), req.now, req.aging, req.batchSize, locked, batch)
                && State() == ClaimAll(old(State()), batch, req.owner, req.now, req.lease)
                && result.Ok? && ReturnsRows(State(), batch, result.value)
    {
      if !ValidClaim(req) {
        return Err(BadRequest), [];
      }
      batch := TakeFirst(ClaimKeys(State(), req.now, req.aging, locked), req.batchSize);
      BatchIsDistinct(State(), req, locked, batch);
      var claimed := ClaimRows(req, batch);
      return Ok(claimed), batch;
    }

    method Renew(req: RenewRequest) returns (result: Result<nat, Error>)
      modifies this
      ensures Outcome(State(), result) == S.Renew(old(State()), req)
    {
      if !(1 <= |req.owner| <= 160) || req.version < 1 || req.now == 0 || req.lease == 0 {
        return Err(BadRequest);
      }
      if !RunExists(State(), req.tenant, req.run) {
        return Err(NotFound);
      }
      var run := runs[req.run];
      if !HoldsLease(run, req.owner, req.version, req.now) {
        return Err(VersionConflict);
      }
      runs := runs[req.run := run.(lease := Some(Lease(req.owner, req.now + req.lease)), version := run.version + 1)];
      return Ok(run.version + 1);
    }

    // ---- Scheduling decisions ----

    /** The checks of a first-time Schedule, one read after the other. */
    method CheckSchedule(req: ScheduleRequest) returns (error: Option<Error>)
      requires req.claim.run < |runs|
      ensures error == ScheduleError(State(), req)
    {
      var r := req.claim.run;
      var run := runs[r];
      if !HoldsLease(run, req.owner, req.claim.version, req.now) || run.profile != req.claim.profile {
        return Some(VersionConflict);
      }
      if req.desired.runtime != run.runtime || req.desired.task != run.prompt ||
         req.desired.timeout != run.timeout || req.desired.maxAttempts != run.maxAttempts {
        return Some(Conflict);
      }
      var attemptError := PendingAttemptError(State(), r, req.attempt, req.attemptVersion);
      if attemptError.Some? {
        return attemptError;
      }
      var eligibility := EligibilityOf(State(), r, req.now);
      if eligibility.Err? {
        return Some(eligibility.error);
      }
      if eligibility.value != E.Eligible {
        return Some(Denied(eligibility.value));
      }
      if req.cluster !in clusters ||
         !ClusterEligible(clusters[req.cluster], run.tenant, run.runtime, run.profile, req.now, req.freshness) {
        return Some(CapacityUnavailable);
      }
      if !Fits(State(), req.cluster, run.cpu, run.memory, req.now) {
        return Some(CapacityUnavailable);
      }
      if run.tenant !in policies || !WithinBudget(State(), run.tenant, req.budget, req.now) {
        return Some(BudgetUnavailable);
      }
      if !(1 <= run.cpu <= 128000) || !(1 <= run.memory <= 524288) {
        return Some(BadRequest);
      }
      if FindActive(capacity, r, run.attemptCount).Some? || req.attempt in intents {
        return Some(Conflict);
      }
      return None;
    }

    /** The reservation pair and the charge to the day's usage. */
    method InsertReservation(row: CapacityRow, amount: nat, now: Time)
      modifies this
      ensures State() == WithReservation(old(State()), row, amount, now)
    {
      budgets := budgets +
        [BudgetRow(|capacity|, row.tenant, row.run, row.attemptNumber, Day(now), amount, Reserved)];
      capacity := capacity + [row];
      var today := UsageOf(State(), row.tenant, Day(now));
      usage := usage[(row.tenant, Day(now)) := today.(reserved := today.reserved + amount)];
    }

    /** The writes of a Schedule whose checks passed. */
    method CommitSchedule(req: ScheduleRequest) returns (result: Result<IntentResult, Error>)
      requires req.claim.run < |runs| && req.attempt in attempts
      modifies this
      ensures State() == Scheduled(old(State()), req)
      ensures result == Ok(IntentResult(old(runs[req.claim.run].version) + 1, old(attempts[req.attempt].version) + 1,
                                        |old(capacity)|, |old(budgets)|, |old(events)|, false))
    {
      var r := req.claim.run;
      var run := runs[r];
      var attempt := attempts[req.attempt];
      var (capacityId, budgetId, eventId) := (|capacity|, |budgets|, |events|);
      InsertReservation(
        NewCapacityRow(run.tenant, r, req.attempt, run.attemptCount, req.cluster, run.cpu, run.memory, req.now,
            req.ttl),
        req.budget, req.now);
      WriteAttempt(req.attempt, attempt.(
        status := AttemptStarting, version := attempt.version + 1,
        assignment := Some(Assignment(req.cluster, run.profile, capacityId, budgetId))));
      WriteRun(r, ScheduledRow(run, req), Event(ScheduledEvent, run.tenant, r, run.version + 1, run.attemptCount));
      intents := intents[req.attempt := Intent(eventId, req.cluster, req.desired)];
      return Ok(IntentResult(run.version + 1, attempt.version + 1, capacityId, budgetId, eventId, false));
    }

    /** The checks under the run's lock, then the writes. */
    method ScheduleClaimed(req: ScheduleRequest) returns (result: Result<IntentResult, Error>)
      requires req.claim.run < |runs|
      modifies this
      ensures Outcome(State(), result) == S.ScheduleClaimed(old(State()), req)
    {
      var error := CheckSchedule(req);
      if error.Some? {
        return Err(error.value);
      }
      result := CommitSchedule(req);
    }

    method Schedule(req: ScheduleRequest) returns (result: Result<IntentResult, Error>)
      modifies this
      ensures Outcome(State(), result) == S.Schedule(old(State()), req)
    {
      if !ValidIntent(req) {
        return Err(BadRequest);
      }
      if !RunExists(State(), req.claim.tenant, req.claim.run) {
        return Err(NotFound);
      }
      if runs[req.claim.run].status == Provisioning {
        return ReplaySchedule(State(), req);
      }
      result := ScheduleClaimed(req);
    }

    method DeferCapacity(req: DecisionRequest) returns (result: Result<IntentResult, Error>)
      modifies this
      ensures Outcome(State(), result) == S.DeferCapacity(old(State()), req)
    {
      if !ValidDecision(req) || req.nextEligible <= req.now {
        return Err(BadRequest);
      }
      var r := req.claim.run;
      if !RunExists(State(), req.claim.tenant, r) {
        return Err(NotFound);
      }
      var run := runs[r];
      if run.status == CapacityWait {
        if run.version != req.claim.version + 1 || run.verdict != Some(Verdict(req.code, req.reason)) ||
           run.nextEligible != Some(req.nextEligible) {
          return Err(VersionConflict);
        }
        var event := FindEvent(events, purged, CapacityWaitEvent, r, run.version);
        return if event.None? then Err(NotFound) else Ok(IntentResult(run.version, 0, 0, 0, event.value, true));
      }
      if !HoldsLease(run, req.owner, req.claim.version, req.now) {
        return Err(VersionConflict);
      }
      var eventId := |events|;
      WriteRun(r, DeferredRow(run, req), Event(CapacityWaitEvent, run.tenant, r, run.version + 1, run.attemptCount));
      return Ok(IntentResult(run.version + 1, 0, 0, 0, eventId, false));
    }

    method Reject(req: DecisionRequest) returns (result: Result<IntentResult, Error>)
      modifies this
      ensures Outcome(State(), result) == S.Reject(old(State()), req)
    {
      if !ValidDecision(req) {
        return Err(BadRequest);
      }
      var r := req.claim.run;
      if !RunExists(State(), req.claim.tenant, r) {
        return Err(NotFound);
      }
      var run := runs[r];
      var a := (r, run.attemptCount);
      if run.status == PolicyRejected {
        if run.version != req.claim.version + 1 || run.verdict != Some(Verdict(req.code, req.reason)) {
          return Err(Conflict);
        }
        var event := FindEvent(events, purged, FailedEvent, r, run.version);
        if event.None? || a !in attempts || attempts[a].status != AttemptCancelled {
          return Err(NotFound);
        }
        return Ok(IntentResult(run.version, attempts[a].version, 0, 0, event.value, true));
      }
      if !HoldsLease(run, req.owner, req.claim.version, req.now) {
        return Err(VersionConflict);
      }
      var attemptError := PendingAttemptError(State(), r, req.claim.attempt, req.claim.attemptVersion);
      if attemptError.Some? {
        return Err(attemptError.value);
      }
      var attempt := attempts[a];
      var eventId := |events|;
      WriteAttempt(a, attempt.(status := AttemptCancelled, version := attempt.version + 1,
                               completedAt := Some(req.now)));
      WriteRun(r, RejectedRow(run, req), Event(FailedEvent, run.tenant, r, run.version + 1, run.attemptCount));
      return Ok(IntentResult(run.version + 1, attempt.version + 1, 0, 0, eventId, false));
    }

    // ---- Reservations ----

    method Reserve(req: ReserveRequest) returns (result: Result<Bundle, Error>)
      modifies this
      ensures Outcome(State(), result) == S.Reserve(old(State()), req)
    {
      if !ValidReserve(req) {
        return Err(BadRequest);
      }
      if req.tenant !in policies || req.cluster !in clusters {
        return Err(NotFound);
      }
      var active := FindActive(capacity, req.run, req.attemptNumber);
      if active.Some? && capacity[active.value].tenant == req.tenant && FindBudget(budgets, active.value).Some? {
        var row := capacity[active.value];
        var budget := FindBudget(budgets, active.value).value;
        if row.cluster != req.cluster || row.cpu != req.cpu || row.memory != req.memory ||
           budgets[budget].amount != req.budget || row.attempt != req.attempt {
          return Err(Conflict);
        }
        return Ok(Bundle(active.value, budget));
      }
      if !Fits(State(), req.cluster, req.cpu, req.memory, req.now) {
        return Err(CapacityUnavailable);
      }
      if !WithinBudget(State(), req.tenant, req.budget, req.now) {
        return Err(BudgetUnavailable);
      }
      if active.Some? {
        return Err(Conflict);
      }
      if !RunExists(State(), req.tenant, req.run) || req.attempt !in attempts {
        return Err(NotFound);
      }
      var bundle := Bundle(|capacity|, |budgets|);
      InsertReservation(
        NewCapacityRow(req.tenant, req.run, req.attempt, req.attemptNumber, req.cluster, req.cpu, req.memory, req.now,
            req.ttl),
        req.budget, req.now);
      return Ok(bundle);
    }

    /** Release, Settle and Expire: row is the one the database returned for order by created_at desc limit 1. */
    method Transition(req: FinishRequest) returns (result: Result<bool, Error>, row: nat)
      modifies this
      ensures Outcome(State(), result) == Finish(old(State()), req, row)
      ensures (exists i :: IsLatest(old(State()), req, i)) ==> IsLatest(old(State()), req, row)
    {
      row := |capacity|;
      if exists i :: 0 <= i < |capacity| && IsLatest(State(), req, i) {
        row :| 0 <= row < |capacity| && IsLatest(State(), req, row);
      } else {
        return if req.attemptNumber < 1 || req.now == 0 || req.target == Reserved then Err(BadRequest)
            else Err(NotFound), row;
      }
      if req.attemptNumber < 1 || req.now == 0 || req.target == Reserved {
        return Err(BadRequest), row;
      }
      var held := capacity[row];
      var b := FindBudget(budgets, row).value;
      var budget := budgets[b];
      if held.state == req.target {
        return Ok(false), row;
      }
      if held.state != Reserved {
        return Err(Conflict), row;
      }
      if req.target == Expired && held.expiresAt > req.now {
        return Ok(false), row;
      }
      capacity := capacity[row := held.(state := req.target)];
      if budget.state == Reserved {
        budgets := budgets[b := budget.(state := req.target)];
      }
      var day := (req.tenant, budget.day);
      if day in usage {
        usage := usage[day := MovedUsage(usage[day], budget.amount, req.target)];
      }
      return Ok(true), row;
    }

    /** The transaction of the k-th listed row; the answer counts the rows reclaimed so far. */
    method SweepOne(now: Time, ghost start: Db, ghost limit: nat, items: seq<nat>, k: nat, before: nat)
      returns (reclaimed: nat, error: Option<Error>)
      requires now > 0 && k < |items| && IsFirst(ExpiredKeys(start.capacity, now), limit, items)
      requires SweepAt(start, State(), items, k, now, before, None)
      modifies this
      ensures SweepAt(start, State(), items, k + 1, now, reclaimed, error)
    {
      assert items[k] in ExpiredKeys(start.capacity, now);
      ghost var mid := State();
      var changed, row := Transition(ExpireRequest(capacity[items[k]], now));
      SweepsOn(start, mid, items, limit, k, now, before, row);
      match changed
      case Err(e) => return before, Some(e);
      case Ok(moved) => return if moved then before + 1 else before, None;
    }

    /** Expires the listed rows, each by its own transaction; an error ends the sweep early. */
    method SweepItems(now: Time, ghost start: Db, ghost limit: nat, items: seq<nat>)
      returns (k: nat, reclaimed: nat, error: Option<Error>)
      requires now > 0 && IsFirst(ExpiredKeys(start.capacity, now), limit, items)
      requires SweepAt(start, State(), items, 0, now, 0, None)
      modifies this
      ensures SweepAt(start, State(), items, k, now, reclaimed, error) && (error.None? ==> k == |items|)
    {
      k, reclaimed, error := 0, 0, None;
      while k < |items| && error.None?
        invariant k <= |items|
        invariant SweepAt(start, State(), items, k, now, reclaimed, error)
        decreases |items| - k
      {
        reclaimed, error := SweepOne(now, start, limit, items, k, reclaimed);
        k := k + 1;
      }
    }

    /**
     The sweep lists up to limit expired rows, oldest expiry first, and expires each. It touches only expired rows and
     keeps the ledger whatever happens; if every RESERVED row is strictly the newest of its attempt it expires exactly
     the rows it listed; and if the first row listed is blocked it ends there with a conflict, nothing changed.
     */
    method ReclaimExpired(now: Time, limit: nat)
      returns (reclaimed: nat, error: Option<Error>, items: seq<nat>)
      modifies this
      ensures now == 0 || !(1 <= limit <= 1000) ==>
                error == Some(BadRequest) && items == [] && reclaimed == 0 && State() == old(State())
      ensures now > 0 && 1 <= limit <= 1000 ==>
                && IsFirst(ExpiredKeys(old(capacity), now), limit, items)
                && SweepAnswer(old(State()), State(), items, now, reclaimed, error)
    {
      if now == 0 || !(1 <= limit <= 1000) {
        return 0, Some(BadRequest), [];
      }
      items := TakeFirst(ExpiredKeys(capacity, now), limit);
      ghost var start := State();
      SweepStarts(start, items, now);
      var k: nat;
      k, reclaimed, error := SweepItems(now, start, limit, items);
      SweepEnds(start, State(), items, k, now, reclaimed, error);
    }
  }
}
