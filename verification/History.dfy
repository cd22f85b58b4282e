/** What later transactions may change of earlier rows, and what follows for whole runs of the system. */
module History {
  import opened Common
  import opened RunDomain
  import opened Store
  import opened Ledger
  import opened Invariants

  // ---- Rows only move forward ----

  /** Versions grow with every write, identity columns stay, and the row follows the lifecycle graph. */
  predicate RunMoves(before: Run, after: Run) {
    && SameIdentity(before, after) && before.version <= after.version
    && (before.version == after.version ==> before == after)
    && before.attemptCount <= after.attemptCount
    && (IsAbsorbing(before.status) ==> after == before)
    && (before.status in {Cancelling, Cancelled} ==>
          && after.status in {Cancelling, Cancelled} && after.receipt == before.receipt
          && after.attemptCount == before.attemptCount)
  }

  predicate AttemptMoves(before: Attempt, after: Attempt) {
    && before.version <= after.version
    && (before.version == after.version ==> before == after)
    && (before.assignment.Some? ==> after.assignment == before.assignment)
    && (after.status == AttemptPending ==> before.status == AttemptPending)
    && (IsAttemptTerminal(before.status) ==> after.status == before.status)
  }

  /** A reservation changes state once, and nothing else of it ever changes. */
  predicate CapacityMoves(before: CapacityRow, after: CapacityRow) {
    after == before.(state := after.state) && (before.state != Reserved ==> after == before)
  }

  predicate BudgetMoves(before: BudgetRow, after: BudgetRow) {
    after == before.(state := after.state) && (before.state != Reserved ==> after == before)
  }

  ghost predicate Extends(db: Db, after: Db) {
    && |db.runs| <= |after.runs| && |db.capacity| <= |after.capacity| && |db.budgets| <= |after.budgets|
    && (forall r :: 0 <= r < |db.runs| ==> RunMoves(db.runs[r], after.runs[r]))
    && (forall a :: a in db.attempts ==> a in after.attempts && AttemptMoves(db.attempts[a], after.attempts[a]))
    && (forall i :: 0 <= i < |db.capacity| ==> CapacityMoves(db.capacity[i], after.capacity[i]))
    && (forall i :: 0 <= i < |db.budgets| ==> BudgetMoves(db.budgets[i], after.budgets[i]))
    && db.events <= after.events && db.purged <= after.purged
    && (forall a :: a in db.intents ==> a in after.intents && after.intents[a] == db.intents[a])
  }

  lemma ExtendsTransitive(a: Db, b: Db, c: Db)
    requires Extends(a, b) && Extends(b, c)
    ensures Extends(a, c)
  {
  }

  /** Transactions rewrite at most one run and one attempt; every other table they touch only grows. */
  lemma WriteExtends(db: Db, after: Db, r: RunId, a: AttemptId)
    requires |db.runs| <= |after.runs| && forall q :: 0 <= q < |db.runs| && q != r ==> after.runs[q] == db.runs[q]
    requires r < |db.runs| ==> RunMoves(db.runs[r], after.runs[r])
    requires after.attempts == db.attempts || (a in after.attempts &&
               after.attempts == db.attempts[a := after.attempts[a]])
    requires a in db.attempts ==> AttemptMoves(db.attempts[a], after.attempts[a])
    requires after.intents == db.intents || (a !in db.intents && a in after.intents &&
               after.intents == db.intents[a := after.intents[a]])
    requires db.capacity <= after.capacity && db.budgets <= after.budgets && db.events <= after.events
    requires db.purged <= after.purged
    ensures Extends(db, after)
  {
  }

  lemma CreateExtends(db: Db, req: CreateRequest)
    ensures Extends(db, Create(db, req).db)
  {
    var after := Create(db, req).db;
    if after != db {
      WriteExtends(db, after, |db.runs|, (|db.runs|, 1));
    }
  }

  lemma CancelExtends(db: Db, req: CommandRequest)
    ensures Extends(db, Cancel(db, req).db)
  {
    var after := Cancel(db, req).db;
    if after != db {
      assert RunMoves(db.runs[req.run], after.runs[req.run]);
      WriteExtends(db, after, req.run, (req.run, 0));
    }
  }

  lemma RetryExtends(db: Db, req: CommandRequest)
    ensures Extends(db, Retry(db, req).db)
  {
    var after := Retry(db, req).db;
    if after != db {
      WriteExtends(db, after, req.run, (req.run, after.runs[req.run].attemptCount));
    }
  }

  lemma AdvanceExtends(db: Db, req: AdvanceRequest)
    ensures Extends(db, Advance(db, req).db)
  {
    var after := Advance(db, req).db;
    if after != db {
      WriteExtends(db, after, req.run, (req.run, 0));
    }
  }

  lemma AdvanceAttemptExtends(db: Db, req: AdvanceAttemptRequest)
    ensures Extends(db, AdvanceAttempt(db, req).db)
  {
    var after := AdvanceAttempt(db, req).db;
    if after != db {
      WriteExtends(db, after, |db.runs|, req.attempt);
    }
  }

  lemma {:induction false} ClaimExtends(db: Db, batch: seq<RunId>, owner: string, now: Time, lease: nat)
    ensures Extends(db, ClaimAll(db, batch, owner, now, lease))
  {
    if |batch| > 0 {
      var rest := ClaimAll(db, batch[..|batch| - 1], owner, now, lease);
      ClaimExtends(db, batch[..|batch| - 1], owner, now, lease);
      WriteExtends(rest, ClaimOne(rest, batch[|batch| - 1], owner, now, lease), batch[|batch| - 1], (0, 0));
      ExtendsTransitive(db, rest, ClaimOne(rest, batch[|batch| - 1], owner, now, lease));
    }
  }

  lemma RenewExtends(db: Db, req: RenewRequest)
    ensures Extends(db, Renew(db, req).db)
  {
    var after := Renew(db, req).db;
    if after != db {
      WriteExtends(db, after, req.run, (req.run, 0));
    }
  }

  lemma ScheduleShape(db: Db, req: ScheduleRequest)
    requires Schedule(db, req).db != db || FirstTime(Schedule(db, req).result)
    ensures req.claim.run < |db.runs| && db.runs[req.claim.run].status == Scheduling
    ensures req.attempt in db.attempts && db.attempts[req.attempt].status == AttemptPending
    ensures req.attempt !in db.intents
    ensures Schedule(db, req).db == Scheduled(db, req)
  {
  }

  lemma ScheduledExtends(db: Db, req: ScheduleRequest)
    requires req.claim.run < |db.runs| && db.runs[req.claim.run].status == Scheduling
    requires req.attempt in db.attempts && db.attempts[req.attempt].status == AttemptPending
    requires req.attempt !in db.intents
    requires db.attempts[req.attempt].assignment.None?
    ensures Extends(db, Scheduled(db, req))
  {
    WriteExtends(db, Scheduled(db, req), req.claim.run, req.attempt);
  }

  lemma ScheduleExtends(db: Db, req: ScheduleRequest)
    requires Inv(db)
    ensures Extends(db, Schedule(db, req).db)
  {
    if Schedule(db, req).db != db {
      ScheduleShape(db, req);
      assert AttemptInv(db, req.attempt);
      ScheduledExtends(db, req);
    }
  }

  lemma DeferExtends(db: Db, req: DecisionRequest)
    ensures Extends(db, DeferCapacity(db, req).db)
  {
    var after := DeferCapacity(db, req).db;
    if after != db {
      WriteExtends(db, after, req.claim.run, (0, 0));
    }
  }

  lemma RejectExtends(db: Db, req: DecisionRequest)
    ensures Extends(db, Reject(db, req).db)
  {
    var after := Reject(db, req).db;
    if after != db {
      WriteExtends(db, after, req.claim.run, req.claim.attempt);
    }
  }

  lemma ReserveExtends(db: Db, req: ReserveRequest)
    ensures Extends(db, Reserve(db, req).db)
  {
    WriteExtends(db, Reserve(db, req).db, |db.runs|, (0, 0));
  }

  lemma FinishExtends(db: Db, req: FinishRequest, row: nat)
    ensures Extends(db, Finish(db, req, row).db)
  {
    if Finish(db, req, row).db != db {
      assert db.capacity[row].state == Reserved;
    }
  }

  /** Reports touch only clusters and purges only add to what is purged. */
  lemma RelayExtends(db: Db, after: Db)
    requires after == db.(clusters := after.clusters, purged := after.purged) && db.purged <= after.purged
    ensures Extends(db, after)
  {
  }

  lemma RunStepExtends(db: Db, step: Step)
    requires Inv(db) && IsRunStep(step)
    ensures Extends(db, Apply(db, step))
  {
    if step.CreateStep? {
      CreateExtends(db, step.create);
    } else if step.CancelStep? {
      CancelExtends(db, step.command);
    } else if step.RetryStep? {
      RetryExtends(db, step.command);
    } else if step.AdvanceStep? {
      AdvanceExtends(db, step.advance);
    } else if step.AdvanceAttemptStep? {
      AdvanceAttemptExtends(db, step.advanceAttempt);
    } else if step.ClaimStep? {
      ClaimExtends(db, step.batch, step.owner, step.claimedAt, step.lease);
    } else if step.RenewStep? {
      RenewExtends(db, step.renew);
    }
  }

  lemma DecisionStepsExtend(db: Db, step: Step)
    requires Inv(db) && (step.ScheduleStep? || step.DeferStep? || step.RejectStep?)
    ensures Extends(db, Apply(db, step))
  {
    if step.ScheduleStep? {
      ScheduleExtends(db, step.schedule);
    } else if step.DeferStep? {
      DeferExtends(db, step.decision);
    } else {
      RejectExtends(db, step.decision);
    }
  }

  lemma LedgerStepsExtend(db: Db, step: Step)
    requires Inv(db) && !IsRunStep(step)
    ensures Extends(db, Apply(db, step))
  {
    if step.ScheduleStep? || step.DeferStep? || step.RejectStep? {
      DecisionStepsExtend(db, step);
    } else if step.ReserveStep? {
      ReserveExtends(db, step.reserve);
    } else if step.FinishStep? {
      FinishExtends(db, step.finish, step.row);
    } else {
      RelayExtends(db, Apply(db, step));
    }
  }

  lemma StepExtends(db: Db, step: Step)
    requires Inv(db)
    ensures Extends(db, Apply(db, step))
  {
    if IsRunStep(step) {
      RunStepExtends(db, step);
    } else {
      LedgerStepsExtend(db, step);
    }
  }

  // ---- Whole runs ----

  ghost predicate Good(db: Db) {
    LedgerInv(db) && Inv(db)
  }

  lemma FreshGood(db: Db)
    requires Fresh(db)
    ensures Good(db)
  {
    FreshLedger(db);
  }

  /** Every run of transactions from a good state stays good and only moves rows forward. */
  lemma {:induction false} RunsStayGood(db: Db, steps: seq<Step>)
    requires Good(db)
    ensures Good(Execute(db, steps)) && Extends(db, Execute(db, steps))
  {
    if |steps| > 0 {
      var before := Execute(db, steps[..|steps| - 1]);
      RunsStayGood(db, steps[..|steps| - 1]);
      StepKeepsLedger(before, steps[|steps| - 1]);
      StepKeepsInv(before, steps[|steps| - 1]);
      StepExtends(before, steps[|steps| - 1]);
      ExtendsTransitive(db, before, Execute(db, steps));
    }
  }

  lemma {:induction false} ExecuteSplit(db: Db, steps: seq<Step>, i: nat)
    requires i <= |steps|
    ensures Execute(db, steps) == Execute(Execute(db, steps[..i]), steps[i..])
  {
    if i == |steps| {
      assert steps[..i] == steps;
    } else {
      var init := steps[..|steps| - 1];
      var tail := steps[i..];
      ExecuteSplit(db, init, i);
      assert init[..i] == steps[..i];
      assert tail[..|tail| - 1] == init[i..] && tail[|tail| - 1] == steps[|steps| - 1];
    }
  }

  lemma ExecuteConcat(db: Db, a: seq<Step>, b: seq<Step>)
    ensures Execute(db, a + b) == Execute(Execute(db, a), b)
  {
    ExecuteSplit(db, a + b, |a|);
    assert (a + b)[..|a|] == a && (a + b)[|a|..] == b;
  }

  /** The state after the first i transactions. */
  function At(db: Db, steps: seq<Step>, i: nat): Db
    requires i <= |steps|
  {
    Execute(db, steps[..i])
  }

  lemma LaterExtendsEarlier(db: Db, steps: seq<Step>, i: nat, j: nat)
    requires Fresh(db) && i <= j <= |steps|
    ensures Good(At(db, steps, i)) && Good(At(db, steps, j)) && Extends(At(db, steps, i), At(db, steps, j))
  {
    FreshGood(db);
    RunsStayGood(db, steps[..i]);
    ExecuteSplit(db, steps[..j], i);
    assert steps[..j][..i] == steps[..i];
    RunsStayGood(At(db, steps, i), steps[i..j]);
  }

  lemma AtNext(db: Db, steps: seq<Step>, i: nat)
    requires i < |steps|
    ensures At(db, steps, i + 1) == Apply(At(db, steps, i), steps[i])
  {
    assert steps[..i + 1][..i] == steps[..i];
  }

  // ---- Fencing ----

  /** The step commits a first-time scheduling decision on run r for the claim that carried version v. */
  predicate Commits(db: Db, step: Step, r: RunId, v: nat) {
    match step
    case ScheduleStep(req) =>
      req.claim.run == r && req.claim.version == v && FirstTime(Schedule(db, req).result)
    case DeferStep(req) =>
      req.claim.run == r && req.claim.version == v && FirstTime(DeferCapacity(db, req).result)
    case RejectStep(req) =>
      req.claim.run == r && req.claim.version == v && FirstTime(Reject(db, req).result)
    case _ => false
  }

  predicate FirstTime(result: Result<IntentResult, Error>) {
    result.Ok? && !result.value.replayed
  }

  /** A decision commits only at the claimed version and moves the run past it. */
  lemma CommitBumpsVersion(db: Db, step: Step, r: RunId, v: nat)
    requires Commits(db, step, r, v)
    ensures r < |db.runs| && db.runs[r].version == v
    ensures r < |Apply(db, step).runs| && Apply(db, step).runs[r].version == v + 1
  {
  }

  lemma CommitFencesLater(db: Db, steps: seq<Step>, i: nat, j: nat, r: RunId, v: nat)
    requires Fresh(db) && i < j < |steps| && Commits(At(db, steps, i), steps[i], r, v)
    ensures r < |At(db, steps, j).runs| && At(db, steps, j).runs[r].version > v
  {
    CommitBumpsVersion(At(db, steps, i), steps[i], r, v);
    AtNext(db, steps, i);
    LaterExtendsEarlier(db, steps, i + 1, j);
    assert RunMoves(At(db, steps, i + 1).runs[r], At(db, steps, j).runs[r]);
  }

  /**
   Fencing. A claim (run, version) commits at most one state-changing decision, however many schedulers hold
   it, whether or not its lease expired and was claimed again, by the same owner or another.
   */
  lemma ClaimDecidesOnce(db: Db, steps: seq<Step>, i: nat, j: nat, r: RunId, v: nat)
    requires Fresh(db) && i < |steps| && j < |steps|
    requires Commits(At(db, steps, i), steps[i], r, v) && Commits(At(db, steps, j), steps[j], r, v)
    ensures i == j
  {
    CommitBumpsVersion(At(db, steps, i), steps[i], r, v);
    CommitBumpsVersion(At(db, steps, j), steps[j], r, v);
    if i < j {
      CommitFencesLater(db, steps, i, j, r, v);
    } else if j < i {
      CommitFencesLater(db, steps, j, i, r, v);
    }
  }

  /** The step commits the scheduling of attempt a. */
  predicate Provisions(db: Db, step: Step, a: AttemptId) {
    step.ScheduleStep? && step.schedule.attempt == a && FirstTime(Schedule(db, step.schedule).result)
  }

  lemma ProvisioningAssigns(db: Db, req: ScheduleRequest)
    requires FirstTime(Schedule(db, req).result)
    ensures req.attempt in db.attempts && db.attempts[req.attempt].status == AttemptPending
    ensures var after := Schedule(db, req).db;
            req.attempt in after.attempts && after.attempts[req.attempt].status == AttemptStarting
  {
    ScheduleShape(db, req);
  }

  lemma NeverPendingAgain(db: Db, after: Db, a: AttemptId)
    requires Extends(db, after) && a in db.attempts && db.attempts[a].status != AttemptPending
    ensures a in after.attempts && after.attempts[a].status != AttemptPending
  {
    assert AttemptMoves(db.attempts[a], after.attempts[a]);
  }

  lemma ProvisionedNext(db: Db, steps: seq<Step>, i: nat, a: AttemptId)
    requires i < |steps| && Provisions(At(db, steps, i), steps[i], a)
    ensures a in At(db, steps, i + 1).attempts && At(db, steps, i + 1).attempts[a].status != AttemptPending
  {
    ProvisioningAssigns(At(db, steps, i), steps[i].schedule);
    AtNext(db, steps, i);
    ScheduleApplies(At(db, steps, i), steps[i]);
  }

  lemma ScheduleApplies(db: Db, step: Step)
    requires step.ScheduleStep?
    ensures Apply(db, step) == Schedule(db, step.schedule).db
  {
  }

  lemma ProvisionedStays(db: Db, steps: seq<Step>, i: nat, j: nat, a: AttemptId)
    requires Fresh(db) && i < j < |steps| && Provisions(At(db, steps, i), steps[i], a)
    ensures a in At(db, steps, j).attempts && At(db, steps, j).attempts[a].status != AttemptPending
  {
    ProvisionedNext(db, steps, i, a);
    LaterExtendsEarlier(db, steps, i + 1, j);
    NeverPendingAgain(At(db, steps, i + 1), At(db, steps, j), a);
  }

  /** Single provisioning: an attempt enters PROVISIONING at most once in any run of the system. */
  lemma AttemptProvisionedOnce(db: Db, steps: seq<Step>, i: nat, j: nat, a: AttemptId)
    requires Fresh(db) && i < |steps| && j < |steps|
    requires Provisions(At(db, steps, i), steps[i], a) && Provisions(At(db, steps, j), steps[j], a)
    ensures i == j
  {
    ProvisioningAssigns(At(db, steps, i), steps[i].schedule);
    ProvisioningAssigns(At(db, steps, j), steps[j].schedule);
    if i < j {
      ProvisionedStays(db, steps, i, j, a);
    } else if j < i {
      ProvisionedStays(db, steps, j, i, a);
    }
  }

  /**
   In every reachable state an attempt was scheduled exactly when it has an assignment, and then it has one
   scheduled event, one handoff intent naming that event, and the one reservation pair both point at.
   */
  lemma ProvisioningIsWhole(db: Db, steps: seq<Step>, a: AttemptId)
    requires Fresh(db) && a in Execute(db, steps).attempts
    ensures var now := Execute(db, steps);
            var given := now.attempts[a].assignment;
            && (given.Some? <==> a in now.intents)
            && (given.Some? <==> exists e :: 0 <= e < |now.events| && IsScheduledEvent(now.events[e], a))
            && (forall e :: 0 <= e < |now.events| && IsScheduledEvent(now.events[e], a) ==> e == now.intents[a].event)
            && (given.Some? ==>
                  && a.0 < |now.runs| && given.value.capacity < |now.capacity| && given.value.budget < |now.budgets|
                  && ReservedBy(now.capacity[given.value.capacity], a, now.runs[a.0], given.value.cluster)
                  && now.budgets[given.value.budget].capacity == given.value.capacity
                  && now.intents[a].cluster == given.value.cluster)
  {
    FreshGood(db);
    RunsStayGood(db, steps);
    var now := Execute(db, steps);
    assert AttemptInv(now, a);
    forall e | 0 <= e < |now.events| && IsScheduledEvent(now.events[e], a)
      ensures a in now.intents && e == now.intents[a].event
    {
      assert EventInv(now, e);
    }
  }

  /** Each (run, version) has at most one outbox event, ever. */
  lemma OneEventPerVersion(db: Db, steps: seq<Step>, i: nat, j: nat)
    requires Fresh(db) && i < |Execute(db, steps).events| && j < |Execute(db, steps).events|
    requires Execute(db, steps).events[i].run == Execute(db, steps).events[j].run
    requires Execute(db, steps).events[i].version == Execute(db, steps).events[j].version
    ensures i == j
  {
    FreshGood(db);
    RunsStayGood(db, steps);
  }

  // ---- No stranded run ----

  /** The instant from which a waiting run can be claimed. */
  function ClaimableFrom(run: Run): Time {
    match run.status
    case CapacityWait => if run.nextEligible.Some? then run.nextEligible.value else 0
    case Scheduling => if run.lease.Some? then run.lease.value.expiresAt else 0
    case _ => 0
  }

  /**
   No stranded run. Whatever scheduler crashed and wherever, in every reachable state a run is claimable
   exactly while it waits for a scheduler and the recorded finite instant has come.
   */
  lemma NoStrandedRun(db: Db, steps: seq<Step>, r: RunId, now: Time)
    requires Fresh(db) && r < |Execute(db, steps).runs|
    ensures var state := Execute(db, steps);
            Claimable(state, r, now) <==> IsWaiting(state.runs[r].status) && now >= ClaimableFrom(state.runs[r])
  {
    FreshGood(db);
    RunsStayGood(db, steps);
    assert RunInv(Execute(db, steps), r);
  }

  // ---- Leases ----

  /**
   At every instant a run in SCHEDULING is either claimable, or exactly its recorded owner may decide on it, with
   exactly the current version; never both.
   */
  lemma LeaseOrClaimable(db: Db, steps: seq<Step>, r: RunId, owner: string, version: nat, t: Time)
    requires Fresh(db) && r < |Execute(db, steps).runs| && Execute(db, steps).runs[r].status == Scheduling
    ensures var run := Execute(db, steps).runs[r];
            && run.lease.Some?
            && (HoldsLease(run, owner, version, t) <==>
                  !Claimable(Execute(db, steps), r, t) && owner == run.lease.value.owner && version == run.version)
  {
    FreshGood(db);
    RunsStayGood(db, steps);
    assert RunInv(Execute(db, steps), r);
  }

  /** A renewal gives its owner the new version until exactly now + lease, and every older version loses the run. */
  lemma RenewedLease(db: Db, req: RenewRequest, owner: string, version: nat, t: Time)
    requires Renew(db, req).result.Ok?
    ensures req.run < |Renew(db, req).db.runs|
    ensures HoldsLease(Renew(db, req).db.runs[req.run], owner, version, t) <==>
            owner == req.owner && version == Renew(db, req).result.value == req.version + 1 && t < req.now + req.lease
  {
  }
}
