/** The SQL statements never call the domain's Transition, yet every one of them is an edge of its graph. */
module Lifecycle {
  import opened Common
  import opened RunDomain
  import opened Store
  import opened Invariants
  import opened History

  /** Every run and attempt stays put or moves along one edge; new ones start at the graph's roots. */
  ghost predicate FollowsGraph(db: Db, after: Db) {
    && |db.runs| <= |after.runs|
    && (forall r :: 0 <= r < |db.runs| ==> CanTransition(db.runs[r], after.runs[r].status))
    && (forall r :: |db.runs| <= r < |after.runs| ==> after.runs[r].status == Queued)
    && (forall a :: a in db.attempts ==>
          a in after.attempts && CanAttemptTransition(db.attempts[a], after.attempts[a].status))
    && (forall a :: a in after.attempts && a !in db.attempts ==> after.attempts[a].status == AttemptPending)
  }

  /** A transaction that rewrites at most run r and attempt a, or appends them. */
  lemma WriteFollows(db: Db, after: Db, r: RunId, a: AttemptId)
    requires |db.runs| <= |after.runs| <= |db.runs| + 1
    requires forall q :: 0 <= q < |db.runs| && q != r ==> after.runs[q] == db.runs[q]
    requires r < |db.runs| ==> CanTransition(db.runs[r], after.runs[r].status)
    requires |db.runs| < |after.runs| ==> after.runs[|db.runs|].status == Queued
    requires after.attempts == db.attempts || (a in after.attempts &&
               after.attempts == db.attempts[a := after.attempts[a]])
    requires a in db.attempts ==> CanAttemptTransition(db.attempts[a], after.attempts[a].status)
    requires a !in db.attempts && a in after.attempts ==> after.attempts[a].status == AttemptPending
    ensures FollowsGraph(db, after)
  {
  }

  lemma CreateFollows(db: Db, req: CreateRequest)
    ensures FollowsGraph(db, Create(db, req).db)
  {
    var after := Create(db, req).db;
    if after != db {
      WriteFollows(db, after, |db.runs|, (|db.runs|, 1));
    }
  }

  lemma CancelFollows(db: Db, req: CommandRequest)
    ensures FollowsGraph(db, Cancel(db, req).db)
  {
    var after := Cancel(db, req).db;
    if after != db {
      assert CanTransition(db.runs[req.run], after.runs[req.run].status);
      WriteFollows(db, after, req.run, (req.run, 0));
    }
  }

  lemma RetryFollows(db: Db, req: CommandRequest)
    ensures FollowsGraph(db, Retry(db, req).db)
  {
    var after := Retry(db, req).db;
    if after != db {
      assert CanTransition(db.runs[req.run], after.runs[req.run].status);
      WriteFollows(db, after, req.run, (req.run, after.runs[req.run].attemptCount));
    }
  }

  lemma AdvanceFollows(db: Db, req: AdvanceRequest)
    ensures FollowsGraph(db, Advance(db, req).db)
  {
    var after := Advance(db, req).db;
    if after != db {
      WriteFollows(db, after, req.run, (req.run, 0));
    }
  }

  lemma AdvanceAttemptFollows(db: Db, req: AdvanceAttemptRequest)
    ensures FollowsGraph(db, AdvanceAttempt(db, req).db)
  {
    var after := AdvanceAttempt(db, req).db;
    if after != db {
      WriteFollows(db, after, |db.runs|, req.attempt);
    }
  }

  lemma RenewFollows(db: Db, req: RenewRequest)
    ensures FollowsGraph(db, Renew(db, req).db)
  {
    var after := Renew(db, req).db;
    if after != db {
      WriteFollows(db, after, req.run, (0, 0));
    }
  }

  lemma ScheduleFollows(db: Db, req: ScheduleRequest)
    ensures FollowsGraph(db, Schedule(db, req).db)
  {
    var after := Schedule(db, req).db;
    if after != db {
      WriteFollows(db, after, req.claim.run, req.attempt);
    }
  }

  lemma DeferFollows(db: Db, req: DecisionRequest)
    ensures FollowsGraph(db, DeferCapacity(db, req).db)
  {
    var after := DeferCapacity(db, req).db;
    if after != db {
      WriteFollows(db, after, req.claim.run, (0, 0));
    }
  }

  lemma RejectFollows(db: Db, req: DecisionRequest)
    ensures FollowsGraph(db, Reject(db, req).db)
  {
    var after := Reject(db, req).db;
    if after != db {
      WriteFollows(db, after, req.claim.run, req.claim.attempt);
    }
  }

  /** A batch claims a row at most once: after that its status is SCHEDULING, an edge from where it was. */
  lemma {:induction false} ClaimFollows(db: Db, batch: seq<RunId>, owner: string, now: Time, lease: nat)
    ensures var after := ClaimAll(db, batch, owner, now, lease);
            && FollowsGraph(db, after) && after.attempts == db.attempts && |after.runs| == |db.runs|
            && (forall r :: 0 <= r < |db.runs| ==>
                  after.runs[r] == db.runs[r] || (IsWaiting(db.runs[r].status) && after.runs[r].status == Scheduling))
  {
    if |batch| > 0 {
      ClaimFollows(db, batch[..|batch| - 1], owner, now, lease);
    }
  }

  lemma RunStepFollows(db: Db, step: Step)
    requires IsRunStep(step)
    ensures FollowsGraph(db, Apply(db, step))
  {
    if step.CreateStep? {
      CreateFollows(db, step.create);
    } else if step.CancelStep? {
      CancelFollows(db, step.command);
    } else if step.RetryStep? {
      RetryFollows(db, step.command);
    } else if step.AdvanceStep? {
      AdvanceFollows(db, step.advance);
    } else if step.AdvanceAttemptStep? {
      AdvanceAttemptFollows(db, step.advanceAttempt);
    } else if step.ClaimStep? {
      ClaimFollows(db, step.batch, step.owner, step.claimedAt, step.lease);
    } else if step.RenewStep? {
      RenewFollows(db, step.renew);
    }
  }

  lemma LedgerStepsFollow(db: Db, step: Step)
    requires !IsRunStep(step)
    ensures FollowsGraph(db, Apply(db, step))
  {
    if step.ScheduleStep? {
      ScheduleFollows(db, step.schedule);
    } else if step.DeferStep? {
      DeferFollows(db, step.decision);
    } else if step.RejectStep? {
      RejectFollows(db, step.decision);
    } else if step.ReserveStep? {
      assert Reserve(db, step.reserve).db.runs == db.runs;
    } else if step.FinishStep? {
      assert Finish(db, step.finish, step.row).db.runs == db.runs;
    }
  }

  /** The SQL refines the domain: every transaction moves every run and every attempt along the domain's edges. */
  lemma StepFollowsGraph(db: Db, step: Step)
    ensures FollowsGraph(db, Apply(db, step))
  {
    if IsRunStep(step) {
      RunStepFollows(db, step);
    } else {
      LedgerStepsFollow(db, step);
    }
  }

  /** In every reachable state attempt counts stay in 1..MaxAttempts and CompletedAt marks exactly the terminal runs. */
  lemma ReachableRowsAreWellFormed(db: Db, steps: seq<Step>, r: RunId)
    requires Fresh(db) && r < |Execute(db, steps).runs|
    ensures var run := Execute(db, steps).runs[r];
            && 1 <= run.attemptCount <= run.maxAttempts
            && (run.completedAt.Some? <==> IsTerminal(run.status))
            && (run.failure.Some? <==> IsFailure(run.status))
            && (run.lease.Some? <==> run.status == Scheduling)
  {
    FreshGood(db);
    RunsStayGood(db, steps);
    assert RunInv(Execute(db, steps), r);
  }

  /** SUCCEEDED, CANCELLED and POLICY_REJECTED are absorbing: no later transaction changes a single column. */
  lemma AbsorbedForever(db: Db, steps: seq<Step>, i: nat, j: nat, r: RunId)
    requires Fresh(db) && i <= j <= |steps| && r < |At(db, steps, i).runs|
    requires IsAbsorbing(At(db, steps, i).runs[r].status)
    ensures r < |At(db, steps, j).runs| && At(db, steps, j).runs[r] == At(db, steps, i).runs[r]
  {
    LaterExtendsEarlier(db, steps, i, j);
    assert RunMoves(At(db, steps, i).runs[r], At(db, steps, j).runs[r]);
  }

  /** The stages a run goes through on its way to success. */
  const PIPELINE: seq<RunStatus> :=
    [Scheduling, Provisioning, Running, Testing, Building, Scanning, ReadyToDeploy, Deploying, Succeeded]

  lemma OnlyFromPrevious(run: Run, n: nat)
    requires 0 < n < |PIPELINE| && run.status != PIPELINE[n] && CanTransition(run, PIPELINE[n])
    ensures run.status == PIPELINE[n - 1]
  {
  }

  /** A moment before, the run was at the same stage or at the one before. */
  lemma StageBefore(db: Db, steps: seq<Step>, j: nat, r: RunId, n: nat)
    requires Fresh(db) && j <= |steps| && 0 < n < |PIPELINE|
    requires r < |At(db, steps, j).runs| && At(db, steps, j).runs[r].status == PIPELINE[n]
    ensures j > 0 && r < |At(db, steps, j - 1).runs|
    ensures At(db, steps, j - 1).runs[r].status in {PIPELINE[n - 1], PIPELINE[n]}
  {
    assert j > 0;
    AtNext(db, steps, j - 1);
    StepFollowsGraph(At(db, steps, j - 1), steps[j - 1]);
    var before := At(db, steps, j - 1);
    if before.runs[r].status != PIPELINE[n] {
      OnlyFromPrevious(before.runs[r], n);
    }
  }

  /**
   No stage is skipped: whenever a run is found at a stage, it was found at every earlier one before, each strictly
   before the next. In particular no run succeeds without having been in every stage from SCHEDULING to DEPLOYING.
   */
  lemma {:induction false} NoStageSkipped(db: Db, steps: seq<Step>, j: nat, r: RunId, n: nat, k: nat) returns (i: nat)
    requires Fresh(db) && j <= |steps| && k < n < |PIPELINE|
    requires r < |At(db, steps, j).runs| && At(db, steps, j).runs[r].status == PIPELINE[n]
    ensures i < j && r < |At(db, steps, i).runs| && At(db, steps, i).runs[r].status == PIPELINE[k]
    decreases j
  {
    StageBefore(db, steps, j, r, n);
    if At(db, steps, j - 1).runs[r].status == PIPELINE[n] {
      i := NoStageSkipped(db, steps, j - 1, r, n, k);
    } else if k == n - 1 {
      i := j - 1;
    } else {
      i := NoStageSkipped(db, steps, j - 1, r, n - 1, k);
    }
  }
}
