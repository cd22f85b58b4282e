/** Admission quotas over every interleaving, for a fixed tenant policy. */
module Quota {
  import opened Common
  import opened RunDomain
  import opened Sums
  import opened Store
  import opened Invariants
  import opened History
  import E = Eligibility

  /** Schedule admitted the run's current attempt and the run is not yet terminal. */
  predicate Admitted(db: Db, r: RunId)
    requires r < |db.runs|
  {
    var a := (r, db.runs[r].attemptCount);
    IsActive(db.runs[r].status) && a in db.attempts && db.attempts[a].assignment.Some?
  }

  /** In every reachable state these are exactly the runs whose current attempt is assigned and that have not ended. */
  lemma AdmittedIffAssigned(db: Db, steps: seq<Step>, r: RunId)
    requires Fresh(db) && r < |Execute(db, steps).runs|
    ensures var now := Execute(db, steps);
            var a := (r, now.runs[r].attemptCount);
            Admitted(now, r) <==>
              && a in now.attempts && now.attempts[a].assignment.Some?
              && now.runs[r].status !in {Succeeded, Cancelled, ProvisioningFailed, ExecutionFailed, BuildFailed,
                                         PolicyRejected, DeploymentFailed, TimedOut}
  {
    FreshGood(db);
    RunsStayGood(db, steps);
    var now := Execute(db, steps);
    assert RunInv(now, r);
    assert AttemptInv(now, (r, now.runs[r].attemptCount));
    OpenIsActive(now, r);
  }

  lemma OpenIsActive(db: Db, r: RunId)
    requires r < |db.runs| && RunInv(db, r) && (r, db.runs[r].attemptCount) in db.attempts
    requires AttemptInv(db, (r, db.runs[r].attemptCount))
    ensures db.attempts[(r, db.runs[r].attemptCount)].assignment.Some? && !IsTerminal(db.runs[r].status) ==>
              IsActive(db.runs[r].status)
  {
  }

  function AdmittedWeights(db: Db, tenant: nat, m: Measure): (ws: seq<int>)
    ensures |ws| == |db.runs|
  {
    seq(|db.runs|, i requires 0 <= i < |db.runs| =>
      if db.runs[i].tenant == tenant && Admitted(db, i) then Weight(db.runs[i], m) else 0)
  }

  /** What a tenant's admitted runs use of one measure. */
  function AdmittedLoad(db: Db, tenant: nat, m: Measure): int {
    Sum(AdmittedWeights(db, tenant, m))
  }

  function Limit(db: Db, tenant: nat, m: Measure): nat {
    if tenant !in db.policies then 0
    else match m
      case RunCount => db.policies[tenant].maxRuns
      case UserRunCount(_) => db.policies[tenant].maxUserRuns
      case CpuTotal => db.policies[tenant].maxCpu
      case MemoryTotal => db.policies[tenant].maxMemory
  }

  ghost predicate QuotaInv(db: Db) {
    forall t: nat, m: Measure :: AdmittedLoad(db, t, m) <= Limit(db, t, m)
  }

  /** A transaction that admits no run keeps every quota, even if runs are added or cancelled. */
  lemma NoAdmissionKeepsQuota(db: Db, after: Db)
    requires QuotaInv(db) && after.policies == db.policies && |after.runs| == |db.runs|
    requires forall r :: 0 <= r < |db.runs| ==> SameIdentity(db.runs[r], after.runs[r])
    requires forall r :: 0 <= r < |db.runs| && Admitted(after, r) ==> Admitted(db, r)
    ensures QuotaInv(after)
  {
    forall t: nat, m: Measure
      ensures AdmittedLoad(after, t, m) <= Limit(after, t, m)
    {
      SumMonotone(AdmittedWeights(after, t, m), AdmittedWeights(db, t, m));
      assert AdmittedLoad(db, t, m) <= Limit(db, t, m);
    }
  }

  /** A run that is not admitted adds nothing. */
  lemma WaitingRunAddsNothing(db: Db, after: Db, row: Run, t: nat, m: Measure)
    requires after.runs == db.runs + [row] && !IsActive(row.status)
    requires forall r :: 0 <= r < |db.runs| ==> (Admitted(after, r) <==> Admitted(db, r))
    ensures AdmittedLoad(after, t, m) == AdmittedLoad(db, t, m)
  {
    assert AdmittedWeights(after, t, m) == AdmittedWeights(db, t, m) + [0];
    SumAppend(AdmittedWeights(db, t, m), 0);
  }

  lemma CreateKeepsQuota(db: Db, req: CreateRequest)
    requires QuotaInv(db) && Inv(db)
    ensures QuotaInv(Create(db, req).db)
  {
    var after := Create(db, req).db;
    if after != db {
      forall t: nat, m: Measure
        ensures AdmittedLoad(after, t, m) <= Limit(after, t, m)
      {
        WaitingRunAddsNothing(db, after, after.runs[|db.runs|], t, m);
        assert AdmittedLoad(db, t, m) <= Limit(db, t, m);
      }
    }
  }

  lemma CancelKeepsQuota(db: Db, req: CommandRequest)
    requires QuotaInv(db) && Inv(db)
    ensures QuotaInv(Cancel(db, req).db)
  {
    var after := Cancel(db, req).db;
    if after != db {
      assert RunInv(db, req.run);
      NoAdmissionKeepsQuota(db, after);
    }
  }

  lemma RetryKeepsQuota(db: Db, req: CommandRequest)
    requires QuotaInv(db) && Inv(db)
    ensures QuotaInv(Retry(db, req).db)
  {
    var after := Retry(db, req).db;
    if after != db {
      assert RunInv(db, req.run);
      NoAdmissionKeepsQuota(db, after);
    }
  }

  lemma RewriteKeepsQuota(db: Db, r: RunId, row: Run)
    requires QuotaInv(db) && r < |db.runs| && SameIdentity(db.runs[r], row)
    requires row.attemptCount == db.runs[r].attemptCount
    requires IsActive(row.status) ==> IsActive(db.runs[r].status)
    ensures QuotaInv(db.(runs := db.runs[r := row]))
  {
    NoAdmissionKeepsQuota(db, db.(runs := db.runs[r := row]));
  }

  lemma AdvanceKeepsQuota(db: Db, req: AdvanceRequest)
    requires QuotaInv(db) && Inv(db)
    ensures QuotaInv(Advance(db, req).db)
  {
    var after := Advance(db, req).db;
    if after != db {
      assert RunInv(db, req.run);
      SavedRow(db.runs[req.run], req.target, req.failure, req.now);
      RewriteKeepsQuota(db, req.run, after.runs[req.run]);
      assert after == db.(runs := db.runs[req.run := after.runs[req.run]]);
    }
  }

  lemma AdvanceAttemptKeepsQuota(db: Db, req: AdvanceAttemptRequest)
    requires QuotaInv(db) && Inv(db)
    ensures QuotaInv(AdvanceAttempt(db, req).db)
  {
    var after := AdvanceAttempt(db, req).db;
    if after != db {
      NoAdmissionKeepsQuota(db, after);
    }
  }

  lemma {:induction false} ClaimKeepsQuota(db: Db, batch: seq<RunId>, owner: string, now: Time, lease: nat)
    requires QuotaInv(db)
    ensures QuotaInv(ClaimAll(db, batch, owner, now, lease))
  {
    if |batch| > 0 {
      ClaimKeepsQuota(db, batch[..|batch| - 1], owner, now, lease);
      var rest := ClaimAll(db, batch[..|batch| - 1], owner, now, lease);
      NoAdmissionKeepsQuota(rest, ClaimOne(rest, batch[|batch| - 1], owner, now, lease));
    }
  }

  lemma RenewKeepsQuota(db: Db, req: RenewRequest)
    requires QuotaInv(db) && Inv(db)
    ensures QuotaInv(Renew(db, req).db)
  {
    var after := Renew(db, req).db;
    if after != db {
      assert RunInv(db, req.run);
      NoAdmissionKeepsQuota(db, after);
    }
  }

  lemma DeferKeepsQuota(db: Db, req: DecisionRequest)
    requires QuotaInv(db) && Inv(db)
    ensures QuotaInv(DeferCapacity(db, req).db)
  {
    var after := DeferCapacity(db, req).db;
    if after != db {
      assert RunInv(db, req.claim.run);
      NoAdmissionKeepsQuota(db, after);
    }
  }

  lemma RejectKeepsQuota(db: Db, req: DecisionRequest)
    requires QuotaInv(db) && Inv(db)
    ensures QuotaInv(Reject(db, req).db)
  {
    var after := Reject(db, req).db;
    if after != db {
      assert RunInv(db, req.claim.run);
      NoAdmissionKeepsQuota(db, after);
    }
  }

  /** The usage Schedule reads counts every admitted run, and possibly cancelled runs that never were. */
  lemma UsageCoversAdmitted(db: Db, tenant: nat, m: Measure)
    ensures AdmittedLoad(db, tenant, m) <= Sum(ActiveWeights(db.runs, tenant, m))
  {
    SumMonotone(AdmittedWeights(db, tenant, m), ActiveWeights(db.runs, tenant, m));
  }

  /** An eligible run fits every limit together with all the usage read in the same transaction. */
  lemma EligibleFits(db: Db, r: RunId, now: Time, m: Measure)
    requires r < |db.runs| && EligibilityOf(db, r, now) == Ok(E.Eligible)
    requires m.UserRunCount? ==> m.user == db.runs[r].createdBy
    ensures var run := db.runs[r];
            Sum(ActiveWeights(db.runs, run.tenant, m)) + Weight(run, m) <= Limit(db, run.tenant, m)
  {
    var run := db.runs[r];
    var policy := if run.tenant in db.policies then Some(db.policies[run.tenant]) else None;
    E.EligibleIff(E.EligibilityInput(
      db.tenants[run.tenant], db.projects[(run.tenant, run.project)],
      E.SchedulingRequest(run.runtime, run.profile, run.createdBy, run.cpu, run.memory),
      policy, SchedulingUsage(db, run.tenant, run.createdBy, now), now));
  }

  /** A transaction that assigns the current attempt of one run and makes it active adds its weight. */
  lemma AdmissionAddsWeight(db: Db, after: Db, r: RunId, t: nat, m: Measure)
    requires r < |db.runs| && |after.runs| == |db.runs| && after.runs == db.runs[r := after.runs[r]]
    requires var a := (r, db.runs[r].attemptCount);
             && SameIdentity(db.runs[r], after.runs[r]) && after.runs[r].attemptCount == a.1
             && a in after.attempts && after.attempts == db.attempts[a := after.attempts[a]]
             && after.attempts[a].assignment.Some?
    requires !IsActive(db.runs[r].status) && IsActive(after.runs[r].status)
    ensures AdmittedLoad(after, t, m) ==
            AdmittedLoad(db, t, m) + if t == db.runs[r].tenant then Weight(db.runs[r], m) else 0
  {
    var w := if t == db.runs[r].tenant then Weight(db.runs[r], m) else 0;
    assert AdmittedWeights(after, t, m) == AdmittedWeights(db, t, m)[r := w];
    SumUpdate(AdmittedWeights(db, t, m), r, w);
  }

  lemma AdmissionAddsOne(db: Db, req: ScheduleRequest, t: nat, m: Measure)
    requires req.claim.run < |db.runs| && req.attempt == (req.claim.run, db.runs[req.claim.run].attemptCount)
    requires req.attempt in db.attempts && db.runs[req.claim.run].status == Scheduling
    ensures AdmittedLoad(Scheduled(db, req), t, m) ==
            AdmittedLoad(db, t, m) + if t == db.runs[req.claim.run].tenant then Weight(db.runs[req.claim.run], m) else 0
  {
    AdmissionAddsWeight(db, Scheduled(db, req), req.claim.run, t, m);
  }

  /** What a committed schedule found: the run still SCHEDULING on its current attempt, and eligible. */
  lemma ScheduleAdmits(db: Db, req: ScheduleRequest)
    requires Schedule(db, req).db != db
    ensures req.claim.run < |db.runs| && req.attempt == (req.claim.run, db.runs[req.claim.run].attemptCount)
    ensures req.attempt in db.attempts && db.runs[req.claim.run].status == Scheduling
    ensures EligibilityOf(db, req.claim.run, req.now) == Ok(E.Eligible)
    ensures Schedule(db, req).db == Scheduled(db, req)
  {
  }

  lemma AdmissionFits(db: Db, req: ScheduleRequest, t: nat, m: Measure)
    requires QuotaInv(db)
    requires req.claim.run < |db.runs| && req.attempt == (req.claim.run, db.runs[req.claim.run].attemptCount)
    requires req.attempt in db.attempts && db.runs[req.claim.run].status == Scheduling
    requires EligibilityOf(db, req.claim.run, req.now) == Ok(E.Eligible)
    ensures AdmittedLoad(Scheduled(db, req), t, m) <= Limit(db, t, m)
  {
    var run := db.runs[req.claim.run];
    AdmissionAddsOne(db, req, t, m);
    assert AdmittedLoad(db, t, m) <= Limit(db, t, m);
    if t == run.tenant && (m.UserRunCount? ==> m.user == run.createdBy) {
      UsageCoversAdmitted(db, t, m);
      EligibleFits(db, req.claim.run, req.now, m);
    }
  }

  lemma ScheduleKeepsQuota(db: Db, req: ScheduleRequest)
    requires QuotaInv(db)
    ensures QuotaInv(Schedule(db, req).db)
  {
    if Schedule(db, req).db != db {
      ScheduleAdmits(db, req);
      forall t: nat, m: Measure
        ensures AdmittedLoad(Scheduled(db, req), t, m) <= Limit(Scheduled(db, req), t, m)
      {
        AdmissionFits(db, req, t, m);
      }
    }
  }

  /** Reservations, reports and purges leave runs, attempts and policies alone. */
  lemma LedgerStepKeepsQuota(db: Db, after: Db)
    requires QuotaInv(db)
    requires after.runs == db.runs && after.attempts == db.attempts && after.policies == db.policies
    ensures QuotaInv(after)
  {
    NoAdmissionKeepsQuota(db, after);
  }

  lemma RunStepKeepsQuota(db: Db, step: Step)
    requires QuotaInv(db) && Inv(db) && IsRunStep(step)
    ensures QuotaInv(Apply(db, step))
  {
    if step.CreateStep? {
      CreateKeepsQuota(db, step.create);
    } else if step.CancelStep? {
      CancelKeepsQuota(db, step.command);
    } else if step.RetryStep? {
      RetryKeepsQuota(db, step.command);
    } else if step.AdvanceStep? {
      AdvanceKeepsQuota(db, step.advance);
    } else if step.AdvanceAttemptStep? {
      AdvanceAttemptKeepsQuota(db, step.advanceAttempt);
    } else if step.ClaimStep? {
      ClaimKeepsQuota(db, step.batch, step.owner, step.claimedAt, step.lease);
    } else if step.RenewStep? {
      RenewKeepsQuota(db, step.renew);
    }
  }

  lemma LedgerStepsKeepQuota(db: Db, step: Step)
    requires QuotaInv(db) && Inv(db) && !IsRunStep(step)
    ensures QuotaInv(Apply(db, step))
  {
    if step.ScheduleStep? {
      ScheduleKeepsQuota(db, step.schedule);
    } else if step.DeferStep? {
      DeferKeepsQuota(db, step.decision);
    } else if step.RejectStep? {
      RejectKeepsQuota(db, step.decision);
    } else if step.ReserveStep? {
      LedgerStepKeepsQuota(db, Reserve(db, step.reserve).db);
    } else if step.FinishStep? {
      LedgerStepKeepsQuota(db, Finish(db, step.finish, step.row).db);
    } else if step.ReportStep? {
      LedgerStepKeepsQuota(db, ReportCluster(db, step.id, step.reported));
    } else if step.PurgeStep? {
      LedgerStepKeepsQuota(db, Purge(db, step.rows));
    }
  }

  lemma StepKeepsQuota(db: Db, step: Step)
    requires QuotaInv(db) && Inv(db)
    ensures QuotaInv(Apply(db, step))
  {
    if IsRunStep(step) {
      RunStepKeepsQuota(db, step);
    } else {
      LedgerStepsKeepQuota(db, step);
    }
  }

  /**
   Admission quotas. In every reachable state the runs that Schedule admitted and that are not yet terminal
   stay within the tenant's run limit, every user's run limit, the CPU limit and the memory limit, however
   stale the usage was on which the schedulers chose, and although cancelled runs count as usage.
   */
  lemma {:induction false} QuotasNeverExceeded(db: Db, steps: seq<Step>)
    requires Fresh(db)
    ensures QuotaInv(Execute(db, steps))
  {
    if |steps| == 0 {
      forall t: nat, m: Measure
        ensures AdmittedLoad(db, t, m) == 0
      {
        assert AdmittedWeights(db, t, m) == [];
      }
    } else {
      var before := Execute(db, steps[..|steps| - 1]);
      QuotasNeverExceeded(db, steps[..|steps| - 1]);
      FreshGood(db);
      RunsStayGood(db, steps[..|steps| - 1]);
      StepKeepsQuota(before, steps[|steps| - 1]);
    }
  }
}
