/** When a reservation is made, from the tables alone: what the checks of Schedule and Reserve amount to. */
module Admission {
  import opened Common
  import opened RunDomain
  import opened Sums
  import opened Store
  import opened Invariants
  import opened History
  import E = Eligibility
  import L = Ledger

  // ---- What the queries add up ----

  /** sum(amount) filter (where keep) */
  function Total<T>(rows: seq<T>, keep: T -> bool, amount: T -> nat): nat {
    if |rows| == 0 then 0
    else
      var last := rows[|rows| - 1];
      Total(rows[..|rows| - 1], keep, amount) + if keep(last) then amount(last) else 0
  }

  lemma {:induction false} SumIsTotal<T>(ws: seq<int>, rows: seq<T>, keep: T -> bool, amount: T -> nat)
    requires |ws| == |rows|
    requires forall i :: 0 <= i < |ws| ==> ws[i] == if keep(rows[i]) then amount(rows[i]) else 0
    ensures Sum(ws) == Total(rows, keep, amount)
  {
    if |ws| > 0 {
      SumIsTotal(ws[..|ws| - 1], rows[..|rows| - 1], keep, amount);
    }
  }

  /** The statuses between admission and the end. */
  const ADMITTED: set<RunStatus> :=
    {Provisioning, Running, Testing, Building, Scanning, ReadyToDeploy, Deploying, Cancelling}

  /** The usage a run is judged on, its counts: exactly the tenant's rows, by status, and the user's among them. */
  lemma CountsAreExact(db: Db, t: nat, user: string, now: Time)
    ensures var u := SchedulingUsage(db, t, user, now);
            var mine := (run: Run) => run.tenant == t && run.status in ADMITTED;
            var theirs := (run: Run) => run.tenant == t && run.status in ADMITTED && run.createdBy == user;
            var queued := (run: Run) => run.tenant == t && run.status in {Queued, Scheduling, CapacityWait};
            && u.tenantRuns == Total(db.runs, mine, (run: Run) => 1)
            && u.userRuns == Total(db.runs, theirs, (run: Run) => 1)
            && u.queuedRuns == Total(db.runs, queued, (run: Run) => 1)
  {
    var mine := (run: Run) => run.tenant == t && run.status in ADMITTED;
    var theirs := (run: Run) => run.tenant == t && run.status in ADMITTED && run.createdBy == user;
    var queued := (run: Run) => run.tenant == t && run.status in {Queued, Scheduling, CapacityWait};
    SumIsTotal(ActiveWeights(db.runs, t, RunCount), db.runs, mine, (run: Run) => 1);
    SumIsTotal(ActiveWeights(db.runs, t, UserRunCount(user)), db.runs, theirs, (run: Run) => 1);
    SumIsTotal(QueuedWeights(db.runs, t), db.runs, queued, (run: Run) => 1);
  }

  /** Its sums: what those rows were admitted with, and the day's two counters. */
  lemma LoadsAreExact(db: Db, t: nat, user: string, now: Time)
    ensures var u := SchedulingUsage(db, t, user, now);
            var mine := (run: Run) => run.tenant == t && run.status in ADMITTED;
            var day := (t, now / (24 * 3600 * SECOND));
            && u.cpu == Total(db.runs, mine, (run: Run) => run.cpu)
            && u.memory == Total(db.runs, mine, (run: Run) => run.memory)
            && u.budget == if day in db.usage then db.usage[day].spent + db.usage[day].reserved else 0
  {
    var mine := (run: Run) => run.tenant == t && run.status in ADMITTED;
    SumIsTotal(ActiveWeights(db.runs, t, CpuTotal), db.runs, mine, (run: Run) => run.cpu);
    SumIsTotal(ActiveWeights(db.runs, t, MemoryTotal), db.runs, mine, (run: Run) => run.memory);
  }

  /** A reservation that counts against the cluster at this instant. */
  predicate Counts(row: CapacityRow, cluster: string, now: Time) {
    row.cluster == cluster && row.state == Reserved && now < row.expiresAt
  }

  /** What the cluster's newest snapshot leaves after the reservations that count covers the request. */
  predicate LeavesRoom(db: Db, cluster: string, cpu: nat, memory: nat, now: Time)
    requires cluster in db.clusters
  {
    var counts := (row: CapacityRow) => Counts(row, cluster, now);
    && Total(db.capacity, counts, (row: CapacityRow) => row.cpu) + cpu <= db.clusters[cluster].snapshot.cpu
    && Total(db.capacity, counts, (row: CapacityRow) => row.memory) + memory <= db.clusters[cluster].snapshot.memory
  }

  lemma FitsIffRoom(db: Db, cluster: string, cpu: nat, memory: nat, now: Time)
    requires cluster in db.clusters
    ensures Fits(db, cluster, cpu, memory, now) <==> LeavesRoom(db, cluster, cpu, memory, now)
  {
    var counts := (row: CapacityRow) => Counts(row, cluster, now);
    SumIsTotal(HeldWeights(db.capacity, cluster, now, CpuMillis), db.capacity, counts, (row: CapacityRow) => row.cpu);
    SumIsTotal(HeldWeights(db.capacity, cluster, now, MemoryMib), db.capacity, counts,
               (row: CapacityRow) => row.memory);
  }

  /** What the day has spent and reserved leaves the amount within the tenant's daily budget. */
  predicate LeavesBudget(db: Db, tenant: nat, amount: nat, now: Time) {
    var day := (tenant, now / (24 * 3600 * SECOND));
    && tenant in db.policies
    && amount + (if day in db.usage then db.usage[day].spent + db.usage[day].reserved else 0) <=
       db.policies[tenant].dailyBudget
  }

  lemma WithinBudgetIff(db: Db, tenant: nat, amount: nat, now: Time)
    requires tenant in db.policies
    ensures WithinBudget(db, tenant, amount, now) <==> LeavesBudget(db, tenant, amount, now)
  {
  }

  /** No reservation of the attempt is outstanding. */
  predicate Unreserved(db: Db, r: RunId, n: nat) {
    forall i :: 0 <= i < |db.capacity| ==>
      !(db.capacity[i].run == r && db.capacity[i].attemptNumber == n && db.capacity[i].state == Reserved)
  }

  lemma NoneActiveIff(db: Db, r: RunId, n: nat)
    ensures FindActive(db.capacity, r, n).None? <==> Unreserved(db, r, n)
  {
  }

  // ---- Schedule ----

  /** The cluster takes work, takes this work, takes it from this tenant, and was heard of recently. */
  predicate Serves(c: Cluster, run: Run, now: Time, freshness: nat) {
    && c.active && !c.maintenance
    && run.runtime in c.runtimes && run.profile in c.profiles
    && (c.restricted ==> run.tenant in c.allowed)
    && 0 < c.heartbeat && now - freshness <= c.heartbeat <= now + 60 * SECOND
    && 0 < c.snapshot.observedAt && now - freshness <= c.snapshot.observedAt <= now + 60 * SECOND
  }

  /** The request carries what it must, and asks for what the claim says. */
  predicate Proper(req: ScheduleRequest) {
    var (claim, desired) := (req.claim, req.desired);
    && claim.version >= 1 && req.attemptVersion >= 1 && req.owner != "" && req.cluster != "" && req.strategy != ""
    && req.freshness > 0 && 0 < req.ttl <= 24 * 3600 * SECOND && req.now > 0
    && desired.runtime == claim.runtime && desired.profile == claim.profile && desired.task == claim.prompt
    && desired.timeout == claim.timeout && desired.maxAttempts == claim.maxAttempts
    && desired.cpu == claim.cpu && desired.memory == claim.memory
    && 1 <= claim.attemptNumber <= desired.maxAttempts <= 10 && 1 <= desired.timeout <= 86400
    && 1 <= desired.cpu <= 128000 && 1 <= desired.memory <= 524288
  }

  /** The claim still stands: same row, same version, same owner, an unexpired lease, and the pending attempt. */
  predicate ClaimStands(db: Db, req: ScheduleRequest) {
    && req.claim.run < |db.runs|
    && var run := db.runs[req.claim.run];
    && run.tenant == req.claim.tenant && run.status == Scheduling && run.version == req.claim.version
    && run.lease.Some? && run.lease.value.owner == req.owner && req.now < run.lease.value.expiresAt
    && run.profile == req.claim.profile && run.runtime == req.desired.runtime && run.prompt == req.desired.task
    && run.timeout == req.desired.timeout && run.maxAttempts == req.desired.maxAttempts
    && req.attempt == (req.claim.run, run.attemptCount) && req.attempt in db.attempts
    && db.attempts[req.attempt].status == AttemptPending && db.attempts[req.attempt].version == req.attemptVersion
  }

  /** The tenant's policy, as it is now, has no reason against the run. */
  predicate PolicyAdmits(db: Db, run: Run, now: Time) {
    && run.tenant in db.tenants && (run.tenant, run.project) in db.projects && run.tenant in db.policies
    && var p := db.policies[run.tenant];
    var i := E.EligibilityInput(
      db.tenants[run.tenant], db.projects[(run.tenant, run.project)],
      E.SchedulingRequest(run.runtime, run.profile, run.createdBy, run.cpu, run.memory), Some(p),
      SchedulingUsage(db, run.tenant, run.createdBy, now), now);
    && E.CompleteRequest(i) && E.WellFormed(p) && E.NotNegative(i.usage)
    && forall k :: 0 <= k < |E.ORDER| ==> !E.Applies(i, p, E.ORDER[k])
  }

  lemma EligibleIffNoReason(db: Db, r: RunId, now: Time)
    requires r < |db.runs|
    ensures EligibilityOf(db, r, now) == Ok(E.Eligible) <==> PolicyAdmits(db, db.runs[r], now)
  {
    var run := db.runs[r];
    if run.tenant in db.tenants && (run.tenant, run.project) in db.projects {
      var policy := if run.tenant in db.policies then Some(db.policies[run.tenant]) else None;
      E.EligibleIffNoReason(E.EligibilityInput(
        db.tenants[run.tenant], db.projects[(run.tenant, run.project)],
        E.SchedulingRequest(run.runtime, run.profile, run.createdBy, run.cpu, run.memory), policy,
        SchedulingUsage(db, run.tenant, run.createdBy, now), now));
    }
  }

  /** The size of the run, the cluster and the two ledgers allow the reservation. */
  predicate Reservable(db: Db, req: ScheduleRequest)
    requires req.claim.run < |db.runs|
  {
    var run := db.runs[req.claim.run];
    && req.cluster in db.clusters && Serves(db.clusters[req.cluster], run, req.now, req.freshness)
    && LeavesRoom(db, req.cluster, run.cpu, run.memory, req.now)
    && LeavesBudget(db, run.tenant, req.budget, req.now)
    && 1 <= run.cpu <= 128000 && 1 <= run.memory <= 524288
    && Unreserved(db, req.claim.run, run.attemptCount) && req.attempt !in db.intents
  }

  lemma CheckedIffReservable(db: Db, req: ScheduleRequest)
    requires req.claim.run < |db.runs| && db.runs[req.claim.run].tenant == req.claim.tenant
    ensures ScheduleError(db, req).None? <==>
            ClaimStands(db, req) && PolicyAdmits(db, db.runs[req.claim.run], req.now) && Reservable(db, req)
  {
    var run := db.runs[req.claim.run];
    EligibleIffNoReason(db, req.claim.run, req.now);
    NoneActiveIff(db, req.claim.run, run.attemptCount);
    if req.cluster in db.clusters {
      FitsIffRoom(db, req.cluster, run.cpu, run.memory, req.now);
    }
    if run.tenant in db.policies {
      WithinBudgetIff(db, run.tenant, req.budget, req.now);
    }
  }

  /**
   A Schedule commits for the first time if and only if the request is proper, the claim still stands, the policy as
   it is now has no reason against the run, the cluster serves it, and capacity, budget and attempt are free.
   */
  lemma ScheduleCommitsIff(db: Db, req: ScheduleRequest)
    ensures FirstTime(Schedule(db, req).result) <==>
            && Proper(req) && ClaimStands(db, req)
            && PolicyAdmits(db, db.runs[req.claim.run], req.now) && Reservable(db, req)
  {
    ProperIff(req);
    ScheduleIff(db, req);
    if RunExists(db, req.claim.tenant, req.claim.run) {
      CheckedIffReservable(db, req);
    }
  }

  lemma ProperIff(req: ScheduleRequest)
    ensures ValidIntent(req) <==> Proper(req)
  {
  }

  lemma ScheduleIff(db: Db, req: ScheduleRequest)
    ensures FirstTime(Schedule(db, req).result) <==>
            && ValidIntent(req) && RunExists(db, req.claim.tenant, req.claim.run)
            && db.runs[req.claim.run].status != Provisioning && ScheduleError(db, req).None?
  {
  }

  /**
   What a reservation writes: one row for the attempt that holds the amounts until now + ttl, one budget row of
   today beside it, and the charge on today's counter.
   */
  predicate Charged(db: Db, after: Db, row: CapacityRow, amount: nat, now: Time) {
    var today := (row.tenant, now / (24 * 3600 * SECOND));
    && after.capacity == db.capacity + [row] && row.state == Reserved && row.createdAt == now
    && after.budgets == db.budgets + [BudgetRow(|db.capacity|, row.tenant, row.run, row.attemptNumber, today.1, amount,
                                                Reserved)]
    && today in after.usage && after.usage == db.usage[today := after.usage[today]]
    && after.usage[today] ==
       if today in db.usage then DayUsage(db.usage[today].spent, db.usage[today].reserved + amount)
       else DayUsage(0, amount)
  }

  /** The run's amounts are held on the cluster asked for, and run and attempt move on with their event and intent. */
  predicate Provisions(db: Db, after: Db, req: ScheduleRequest)
    requires req.claim.run < |db.runs| && req.attempt in db.attempts
  {
    var r := req.claim.run;
    var (run, attempt) := (db.runs[r], db.attempts[req.attempt]);
    && Charged(db, after, CapacityRow(run.tenant, r, req.attempt, run.attemptCount, req.cluster, run.cpu, run.memory,
           Reserved, req.now + req.ttl, req.now), req.budget, req.now)
    && |after.runs| == |db.runs|
    && after.runs == db.runs[r := run.(
         status := Provisioning, version := run.version + 1, lease := None, nextEligible := None,
         verdict := after.runs[r].verdict, placement := Some(Placement(req.strategy, req.score)))]
    && after.attempts == db.attempts[req.attempt := attempt.(
         status := AttemptStarting, version := attempt.version + 1,
         assignment := Some(Assignment(req.cluster, run.profile, |db.capacity|, |db.budgets|)))]
    && after.events == db.events + [Event(ScheduledEvent, run.tenant, r, run.version + 1, run.attemptCount)]
    && after.intents == db.intents[req.attempt := Intent(|db.events|, req.cluster, req.desired)]
  }

  lemma ScheduleWrites(db: Db, req: ScheduleRequest)
    requires FirstTime(Schedule(db, req).result)
    ensures req.claim.run < |db.runs| && req.attempt in db.attempts && Provisions(db, Schedule(db, req).db, req)
  {
    ScheduleShape(db, req);
    ScheduledProvisions(db, req);
  }

  lemma ScheduledProvisions(db: Db, req: ScheduleRequest)
    requires req.claim.run < |db.runs| && req.attempt in db.attempts
    ensures Provisions(db, Scheduled(db, req), req)
  {
  }

  lemma ReserveWrites(db: Db, req: ReserveRequest)
    requires Reserve(db, req).db != db
    ensures var after := Reserve(db, req).db;
            && Charged(db, after, CapacityRow(req.tenant, req.run, req.attempt, req.attemptNumber, req.cluster,
                   req.cpu, req.memory, Reserved, req.now + req.ttl, req.now), req.budget, req.now)
            && after == db.(capacity := after.capacity, budgets := after.budgets, usage := after.usage)
  {
  }

  /** Why a proper request on a standing claim is refused otherwise. */
  lemma ScheduleRefusal(db: Db, req: ScheduleRequest)
    requires Proper(req) && ClaimStands(db, req)
    ensures var run := db.runs[req.claim.run];
            var asked := EligibilityOf(db, req.claim.run, req.now);
            var placeable := && req.cluster in db.clusters
                             && Serves(db.clusters[req.cluster], run, req.now, req.freshness)
                             && LeavesRoom(db, req.cluster, run.cpu, run.memory, req.now);
            && (asked.Ok? && asked.value != E.Eligible ==>
                  Schedule(db, req) == Outcome(db, Err(Denied(asked.value))))
            && (PolicyAdmits(db, run, req.now) && !placeable ==>
                  Schedule(db, req) == Outcome(db, Err(CapacityUnavailable)))
            && (PolicyAdmits(db, run, req.now) && placeable && !LeavesBudget(db, run.tenant, req.budget, req.now) ==>
                  Schedule(db, req) == Outcome(db, Err(BudgetUnavailable)))
  {
    var run := db.runs[req.claim.run];
    EligibleIffNoReason(db, req.claim.run, req.now);
    if req.cluster in db.clusters {
      FitsIffRoom(db, req.cluster, run.cpu, run.memory, req.now);
    }
    if run.tenant in db.policies {
      WithinBudgetIff(db, run.tenant, req.budget, req.now);
    }
  }

  /** An attempt that had no assignment has one. */
  predicate Assigned(db: Db, after: Db, a: AttemptId) {
    && a in after.attempts && after.attempts[a].assignment.Some?
    && (a in db.attempts ==> db.attempts[a].assignment.None?)
  }

  lemma RunStepAssignsNothing(db: Db, step: Step, a: AttemptId)
    requires IsRunStep(step)
    ensures !Assigned(db, Apply(db, step), a)
  {
    if Apply(db, step) != db {
      if step.CreateStep? {
        CreateGrows(db, step.create);
      } else if step.CancelStep? {
        CancelShape(db, step.command);
      } else if step.RetryStep? {
        RetryShape(db, step.command);
      } else if step.AdvanceAttemptStep? {
        AdvanceAttemptShape(db, step.advanceAttempt);
      } else if step.ClaimStep? {
        L.ClaimTouchesRunsOnly(db, step.batch, step.owner, step.claimedAt, step.lease);
      }
    }
  }

  lemma RejectAssignsNothing(db: Db, req: DecisionRequest, a: AttemptId)
    ensures !Assigned(db, Reject(db, req).db, a)
  {
  }

  lemma OnlyScheduleAssigns(db: Db, step: Step, a: AttemptId)
    requires Assigned(db, Apply(db, step), a)
    ensures step.ScheduleStep? && step.schedule.attempt == a && FirstTime(Schedule(db, step.schedule).result)
    ensures Apply(db, step).attempts[a].assignment.value.cluster == step.schedule.cluster
  {
    if IsRunStep(step) {
      RunStepAssignsNothing(db, step, a);
    } else if step.ScheduleStep? {
      ScheduleAssigns(db, step.schedule, a);
    } else if step.RejectStep? {
      RejectAssignsNothing(db, step.decision, a);
    }
  }

  lemma ScheduleAssigns(db: Db, req: ScheduleRequest, a: AttemptId)
    requires Assigned(db, Schedule(db, req).db, a)
    ensures req.attempt == a && FirstTime(Schedule(db, req).result)
    ensures Schedule(db, req).db.attempts[a].assignment.value.cluster == req.cluster
  {
    ScheduleShape(db, req);
    ScheduledAssigns(db, req, a);
  }

  lemma ScheduledAssigns(db: Db, req: ScheduleRequest, a: AttemptId)
    requires req.claim.run < |db.runs| && req.attempt in db.attempts && Assigned(db, Scheduled(db, req), a)
    ensures a == req.attempt && Scheduled(db, req).attempts[a].assignment.value.cluster == req.cluster
  {
  }

  /**
   In every run, whenever an attempt is assigned to a cluster, that cluster at that moment takes work, supports the
   run's runtime and profile, allows its tenant and was heard of within the freshness the scheduler asks for; the
   tenant's policy has no reason against the run; and capacity and budget cover it.
   */
  lemma AssignedOnlyWhereServed(db: Db, steps: seq<Step>, i: nat, a: AttemptId)
    requires i < |steps| && Assigned(At(db, steps, i), At(db, steps, i + 1), a)
    ensures var now := At(db, steps, i);
            var cluster := At(db, steps, i + 1).attempts[a].assignment.value.cluster;
            && steps[i].ScheduleStep? && a.0 < |now.runs| && cluster in now.clusters
            && var (run, c, req) := (now.runs[a.0], now.clusters[cluster], steps[i].schedule);
            && c.active && !c.maintenance && run.runtime in c.runtimes && run.profile in c.profiles
            && (c.restricted ==> run.tenant in c.allowed)
            && req.now <= c.heartbeat + req.freshness && c.heartbeat <= req.now + 60 * SECOND
            && req.now <= c.snapshot.observedAt + req.freshness && c.snapshot.observedAt <= req.now + 60 * SECOND
            && PolicyAdmits(now, run, req.now)
            && LeavesRoom(now, cluster, run.cpu, run.memory, req.now)
            && LeavesBudget(now, run.tenant, req.budget, req.now)
  {
    AtNext(db, steps, i);
    OnlyScheduleAssigns(At(db, steps, i), steps[i], a);
    ScheduleCommitsIff(At(db, steps, i), steps[i].schedule);
  }

  // ---- Waiting and rejecting ----

  predicate ProperDecision(req: DecisionRequest) {
    && req.owner != "" && req.claim.version >= 1 && req.now > 0
    && 1 <= |req.code| <= 80 && 1 <= |req.reason| <= 500
  }

  /** The run is still the claimant's, at the version it claimed. */
  predicate StillClaimed(db: Db, req: DecisionRequest) {
    && req.claim.run < |db.runs|
    && var run := db.runs[req.claim.run];
    && run.tenant == req.claim.tenant && run.status == Scheduling && run.version == req.claim.version
    && run.lease.Some? && run.lease.value.owner == req.owner && req.now < run.lease.value.expiresAt
  }

  /** A lease is renewed if and only if its owner asks at the current version before it is over, and only the lease. */
  lemma RenewCommitsIff(db: Db, req: RenewRequest)
    ensures Renew(db, req).db != db <==>
            && 1 <= |req.owner| <= 160 && req.version >= 1 && req.now > 0 && req.lease > 0 && req.run < |db.runs|
            && var run := db.runs[req.run];
            && run.tenant == req.tenant && run.status == Scheduling && run.version == req.version
            && run.lease.Some? && run.lease.value.owner == req.owner && req.now < run.lease.value.expiresAt
    ensures Renew(db, req).db != db <==> Renew(db, req).result.Ok?
    ensures Renew(db, req).result.Ok? ==>
              Renew(db, req).db == db.(runs := db.runs[req.run := db.runs[req.run].(
                version := req.version + 1, lease := Some(Lease(req.owner, req.now + req.lease)))])
  {
    if Renew(db, req).result.Ok? {
      assert Renew(db, req).db.runs[req.run].version == db.runs[req.run].version + 1;
    }
  }

  /** A wait commits if and only if it is proper, names a later instant, and the run is still the claimant's. */
  lemma DeferCommitsIff(db: Db, req: DecisionRequest)
    ensures FirstTime(DeferCapacity(db, req).result) <==>
            ProperDecision(req) && req.now < req.nextEligible && StillClaimed(db, req)
  {
  }

  /** A rejection likewise, if the attempt it names is the run's current one, pending, at the version it claimed. */
  lemma RejectCommitsIff(db: Db, req: DecisionRequest)
    ensures FirstTime(Reject(db, req).result) <==>
            && ProperDecision(req) && StillClaimed(db, req)
            && req.claim.attempt == (req.claim.run, db.runs[req.claim.run].attemptCount)
            && req.claim.attempt in db.attempts && db.attempts[req.claim.attempt].status == AttemptPending
            && db.attempts[req.claim.attempt].version == req.claim.attemptVersion
  {
  }

  /**
   A repeat is only a repeat if it asks for the same: on a run that is already PROVISIONING, a request whose cluster,
   profile, budget, duration, strategy, score or desired state differs from what was committed is never answered Ok.
   */
  lemma DifferentScheduleIsRefused(db: Db, req: ScheduleRequest)
    requires req.claim.run < |db.runs| && db.runs[req.claim.run].status == Provisioning
    requires Schedule(db, req).result.Ok?
    ensures var run := db.runs[req.claim.run];
            var a := (req.claim.run, run.attemptCount);
            && Schedule(db, req).db == db && Schedule(db, req).result.value.replayed
            && a in db.attempts && db.attempts[a].assignment.Some? && a in db.intents
            && var given := db.attempts[a].assignment.value;
            && given.cluster == req.cluster && given.profile == req.claim.profile && given.capacity < |db.capacity|
            && given.budget < |db.budgets| && db.budgets[given.budget].amount == req.budget
            && db.capacity[given.capacity].cpu == run.cpu && db.capacity[given.capacity].memory == run.memory
            && db.capacity[given.capacity].expiresAt == db.capacity[given.capacity].createdAt + req.ttl
            && run.placement == Some(Placement(req.strategy, req.score)) && db.intents[a].desired == req.desired
  {
  }

  /** Likewise for a wait and a rejection: same version, same code, same reason, same instant. */
  lemma DifferentDecisionIsRefused(db: Db, req: DecisionRequest)
    requires req.claim.run < |db.runs|
    ensures var run := db.runs[req.claim.run];
            var same := run.version == req.claim.version + 1 && run.verdict == Some(Verdict(req.code, req.reason));
            && (run.status == CapacityWait && DeferCapacity(db, req).result.Ok? ==>
                  same && run.nextEligible == Some(req.nextEligible) && DeferCapacity(db, req).db == db)
            && (run.status == PolicyRejected && Reject(db, req).result.Ok? ==> same && Reject(db, req).db == db)
  {
  }

  // ---- Reserve ----

  /** An outstanding reservation of the attempt answers a repeat that asks for the same, and refuses any other. */
  lemma DifferentReserveIsRefused(db: Db, req: ReserveRequest)
    requires !Unreserved(db, req.run, req.attemptNumber)
    ensures Reserve(db, req).db == db
    ensures Reserve(db, req).result.Ok? ==>
              var (row, budget) := (Reserve(db, req).result.value.capacity, Reserve(db, req).result.value.budget);
              && row < |db.capacity| && budget < |db.budgets| && db.budgets[budget].capacity == row
              && db.capacity[row].state == Reserved && db.capacity[row].tenant == req.tenant
              && db.capacity[row].run == req.run && db.capacity[row].attempt == req.attempt
              && db.capacity[row].cluster == req.cluster && db.capacity[row].cpu == req.cpu
              && db.capacity[row].memory == req.memory && db.budgets[budget].amount == req.budget
  {
    NoneActiveIff(db, req.run, req.attemptNumber);
  }

  /** A reservation is inserted if and only if the request is in range and capacity, budget and attempt are free. */
  lemma ReserveCommitsIff(db: Db, req: ReserveRequest)
    ensures Reserve(db, req).db != db <==>
            && req.attemptNumber >= 1 && req.cluster != "" && 1 <= req.cpu <= 128000 && 1 <= req.memory <= 524288
            && req.now > 0 && 0 < req.ttl <= 24 * 3600 * SECOND
            && req.cluster in db.clusters && LeavesRoom(db, req.cluster, req.cpu, req.memory, req.now)
            && LeavesBudget(db, req.tenant, req.budget, req.now)
            && Unreserved(db, req.run, req.attemptNumber)
            && req.run < |db.runs| && db.runs[req.run].tenant == req.tenant && req.attempt in db.attempts
  {
    NoneActiveIff(db, req.run, req.attemptNumber);
    if req.cluster in db.clusters {
      FitsIffRoom(db, req.cluster, req.cpu, req.memory, req.now);
    }
    if req.tenant in db.policies {
      WithinBudgetIff(db, req.tenant, req.budget, req.now);
    }
    var row := NewCapacityRow(req.tenant, req.run, req.attempt, req.attemptNumber, req.cluster, req.cpu, req.memory,
        req.now, req.ttl);
    assert WithReservation(db, row, req.budget, req.now).capacity != db.capacity;
  }

  /**
   A reservation is finished once: after Release, Settle or Expire went through, the same request again changes
   nothing and says so, and any other outcome is a conflict.
   */
  lemma FirstOutcomeWins(db: Db, req: FinishRequest, row: nat, other: FinishRequest)
    requires Finish(db, req, row).result == Ok(true)
    requires other == req.(target := other.target, now := other.now) && other.now > 0 && other.target != Reserved
    ensures var after := Finish(db, req, row).db;
            Finish(after, other, row) == Outcome(after, if other.target == req.target then Ok(false) else Err(Conflict))
  {
    var after := Finish(db, req, row).db;
    BudgetStays(db.budgets, after.budgets, row);
  }

  lemma {:induction false} BudgetStays(before: seq<BudgetRow>, after: seq<BudgetRow>, row: nat)
    requires |before| == |after| && forall i :: 0 <= i < |before| ==> before[i].capacity == after[i].capacity
    ensures FindBudget(before, row) == FindBudget(after, row)
  {
    if |before| > 0 {
      BudgetStays(before[..|before| - 1], after[..|after| - 1], row);
    }
  }

  /**
   A reservation ends if and only if it is the attempt's latest, still outstanding, and, for an expiry, past its
   time; and then the row and its budget row end together and the day's counters move by its amount: off reserved,
   and onto spent exactly if it was settled.
   */
  lemma FinishCommitsIff(db: Db, req: FinishRequest, row: nat)
    requires L.LedgerInv(db)
    ensures Finish(db, req, row).result == Ok(true) <==>
            && req.attemptNumber >= 1 && req.now > 0 && req.target != Reserved && row < |db.capacity|
            && OfAttempt(db.capacity[row], req) && db.capacity[row].state == Reserved
            && (req.target == Expired ==> db.capacity[row].expiresAt <= req.now)
            && forall i :: 0 <= i < |db.capacity| && OfAttempt(db.capacity[i], req) ==>
                             db.capacity[i].createdAt <= db.capacity[row].createdAt
    ensures Finish(db, req, row).result == Ok(true) ==>
              var (after, charge) := (Finish(db, req, row).db, db.budgets[row]);
              var day := (req.tenant, charge.day);
              && day in db.usage
              && var (spent, reserved) := (db.usage[day].spent, db.usage[day].reserved);
              && after == db.(
                   capacity := db.capacity[row := db.capacity[row].(state := req.target)],
                   budgets := db.budgets[row := charge.(state := req.target)],
                   usage := db.usage[day := DayUsage(if req.target == Settled then spent + charge.amount else spent,
                                                     reserved - charge.amount)])
  {
    if row < |db.capacity| {
      L.BudgetOfRow(db, row);
    }
  }

  predicate OfAttempt(row: CapacityRow, req: FinishRequest) {
    row.tenant == req.tenant && row.run == req.run && row.attemptNumber == req.attemptNumber
  }

  // ---- Reports ----

  /** Whatever the order in which reports arrive, the snapshot with the latest observation time counts. */
  lemma LatestSnapshotCounts(db: Db, id: string, a: Cluster, b: Cluster)
    requires a.snapshot.observedAt != b.snapshot.observedAt
    requires id in db.clusters ==> db.clusters[id].snapshot.observedAt < a.snapshot.observedAt
    requires id in db.clusters ==> db.clusters[id].snapshot.observedAt < b.snapshot.observedAt
    ensures var latest := if a.snapshot.observedAt < b.snapshot.observedAt then b.snapshot else a.snapshot;
            && ReportCluster(ReportCluster(db, id, a), id, b).clusters[id] == b.(snapshot := latest)
            && ReportCluster(ReportCluster(db, id, b), id, a).clusters[id] == a.(snapshot := latest)
  {
  }
}
