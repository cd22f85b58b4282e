/** Repeating a committed scheduling request. */
module Replay {
  import opened Common
  import opened RunDomain
  import opened Store
  import opened Ledger
  import opened Invariants
  import opened History

  /** As a run's events have distinct versions, a lookup finds that one row or, once it is purged, none. */
  lemma FindEventAt(db: Db, e: nat, eventType: EventType, r: RunId, version: nat)
    requires EventOrder(db) && e < |db.events| && IsEventFor(db.events[e], eventType, r, version)
    ensures FindEvent(db.events, db.purged, eventType, r, version) == if e in db.purged then None else Some(e)
  {
    var found := FindEvent(db.events, db.purged, eventType, r, version);
    assert found.Some? ==> IsEventFor(db.events[found.value], eventType, r, version);
  }

  /** In every reachable state a run in PROVISIONING or CAPACITY_WAIT has exactly one event at its current version. */
  lemma CurrentVersionHasItsEvent(db: Db, steps: seq<Step>, r: RunId)
    requires Fresh(db) && r < |Execute(db, steps).runs|
    ensures var now := Execute(db, steps);
            var run := now.runs[r];
            && (run.status == Provisioning ==>
                  exists e :: 0 <= e < |now.events| && IsEventFor(now.events[e], ScheduledEvent, r, run.version))
            && (run.status == CapacityWait ==>
                  exists e :: 0 <= e < |now.events| && IsEventFor(now.events[e], CapacityWaitEvent, r, run.version))
            && EventOrder(now)
  {
    FreshGood(db);
    RunsStayGood(db, steps);
    assert RunInv(Execute(db, steps), r);
  }

  /** The run has not been written since: its version is still the one the decision returned. */
  predicate Untouched(db: Db, r: RunId, version: nat) {
    r < |db.runs| && db.runs[r].version == version
  }

  /** What a committed Schedule leaves for its replay to find. */
  predicate ScheduledAs(db: Db, req: ScheduleRequest, result: IntentResult) {
    var r := req.claim.run;
    var a := req.attempt;
    && RunExists(db, req.claim.tenant, r) && db.runs[r].status == Provisioning && a == (r, db.runs[r].attemptCount)
    && db.runs[r].version == result.runVersion && !result.replayed
    && db.runs[r].placement == Some(Placement(req.strategy, req.score))
    && a in db.attempts
    && db.attempts[a].assignment ==
        Some(Assignment(req.cluster, req.claim.profile, result.capacity, result.budget))
    && result.capacity < |db.capacity| && result.budget < |db.budgets|
    && db.capacity[result.capacity].cpu == db.runs[r].cpu && db.capacity[result.capacity].memory == db.runs[r].memory
    && db.capacity[result.capacity].expiresAt == db.capacity[result.capacity].createdAt + req.ttl
    && db.budgets[result.budget].amount == req.budget
    && result.event < |db.events| && IsEventFor(db.events[result.event], ScheduledEvent, r, result.runVersion)
    && a in db.intents && db.intents[a].event == result.event && db.intents[a].desired == req.desired
  }

  lemma ScheduleLeavesTrace(db: Db, req: ScheduleRequest)
    requires FirstTime(Schedule(db, req).result)
    ensures ValidIntent(req) && ScheduledAs(Schedule(db, req).db, req, Schedule(db, req).result.value)
  {
    assert Schedule(db, req).db == Scheduled(db, req);
  }

  lemma ScheduleKeepsGood(db: Db, req: ScheduleRequest)
    requires Good(db)
    ensures Good(Schedule(db, req).db)
  {
    ScheduleKeepsLedger(db, req);
    ScheduleKeepsInv(db, req);
  }

  lemma ScheduleTraceStays(db: Db, after: Db, req: ScheduleRequest, result: IntentResult)
    requires ScheduledAs(db, req, result) && Extends(db, after) && Untouched(after, req.claim.run, result.runVersion)
    ensures ScheduledAs(after, req, result)
  {
    var r := req.claim.run;
    assert RunMoves(db.runs[r], after.runs[r]);
    assert AttemptMoves(db.attempts[req.attempt], after.attempts[req.attempt]);
    assert CapacityMoves(db.capacity[result.capacity], after.capacity[result.capacity]);
    assert BudgetMoves(db.budgets[result.budget], after.budgets[result.budget]);
    assert after.events[result.event] == db.events[result.event];
  }

  /** What repeating a request answers: the same identifiers, or not-found once the outbox row is cleaned up. */
  function Repeated(db: Db, result: IntentResult, attemptVersion: nat): Result<IntentResult, Error> {
    if result.event in db.purged then Err(NotFound)
    else Ok(result.(attemptVersion := attemptVersion, replayed := true))
  }

  lemma ScheduleTraceReplays(db: Db, req: ScheduleRequest, result: IntentResult)
    requires ValidIntent(req) && ScheduledAs(db, req, result) && EventOrder(db)
    ensures Schedule(db, req) == Outcome(db, Repeated(db, result, db.attempts[req.attempt].version))
  {
    FindEventAt(db, result.event, ScheduledEvent, req.claim.run, result.runVersion);
  }

  lemma ScheduleReplaysLater(
    committed: Db, req: ScheduleRequest, first: IntentResult, steps: seq<Step>, owner: string, now: Time)
    requires Good(committed) && ValidIntent(req) && ScheduledAs(committed, req, first) && owner != "" && now > 0
    requires Untouched(Execute(committed, steps), req.claim.run, first.runVersion)
    ensures var later := Execute(committed, steps);
            && req.attempt in later.attempts
            && Schedule(later, req.(owner := owner, now := now)) ==
               Outcome(later, Repeated(later, first, later.attempts[req.attempt].version))
  {
    var later := Execute(committed, steps);
    RunsStayGood(committed, steps);
    ScheduleTraceStays(committed, later, req, first);
    ScheduleTraceReplays(later, req.(owner := owner, now := now), first);
  }

  /**
   Replay of Schedule. After a committed Schedule, and after any transactions that leave the run alone, the
   same request sent again, at any time and by any scheduler, changes nothing and answers with the same run
   version, reservation pair and event; exactly when the event was cleaned out of the outbox it answers
   not-found instead.
   */
  lemma ScheduleReplays(db: Db, req: ScheduleRequest, steps: seq<Step>, owner: string, now: Time)
    requires Good(db) && FirstTime(Schedule(db, req).result) && owner != "" && now > 0
    requires Untouched(Execute(Schedule(db, req).db, steps), req.claim.run, Schedule(db, req).result.value.runVersion)
    ensures var later := Execute(Schedule(db, req).db, steps);
            && req.attempt in later.attempts
            && Schedule(later, req.(owner := owner, now := now)) ==
               Outcome(later, Repeated(later, Schedule(db, req).result.value, later.attempts[req.attempt].version))
  {
    ScheduleLeavesTrace(db, req);
    ScheduleKeepsGood(db, req);
    ScheduleReplaysLater(Schedule(db, req).db, req, Schedule(db, req).result.value, steps, owner, now);
  }

  /** Cleaning the event out of the outbox is enough: the very next repeat answers not-found. */
  lemma PurgedScheduleIsNotFound(db: Db, req: ScheduleRequest, owner: string, now: Time)
    requires Good(db) && FirstTime(Schedule(db, req).result) && owner != "" && now > 0
    ensures var purged := Purge(Schedule(db, req).db, {Schedule(db, req).result.value.event});
            Schedule(purged, req.(owner := owner, now := now)) == Outcome(purged, Err(NotFound))
  {
    ScheduleLeavesTrace(db, req);
    ScheduleKeepsGood(db, req);
    PurgedTraceIsNotFound(Schedule(db, req).db, req, Schedule(db, req).result.value, owner, now);
  }

  lemma PurgedTraceIsNotFound(committed: Db, req: ScheduleRequest, first: IntentResult, owner: string, now: Time)
    requires Good(committed) && ValidIntent(req) && ScheduledAs(committed, req, first) && owner != "" && now > 0
    ensures Schedule(Purge(committed, {first.event}), req.(owner := owner, now := now)) ==
            Outcome(Purge(committed, {first.event}), Err(NotFound))
  {
    ScheduleTraceReplays(Purge(committed, {first.event}), req.(owner := owner, now := now), first);
  }

  predicate DeferredAs(db: Db, req: DecisionRequest, result: IntentResult) {
    var r := req.claim.run;
    && RunExists(db, req.claim.tenant, r) && db.runs[r].status == CapacityWait
    && db.runs[r].version == result.runVersion == req.claim.version + 1
    && db.runs[r].verdict == Some(Verdict(req.code, req.reason)) && db.runs[r].nextEligible == Some(req.nextEligible)
    && result == IntentResult(result.runVersion, 0, 0, 0, result.event, false)
    && result.event < |db.events| && IsEventFor(db.events[result.event], CapacityWaitEvent, r, result.runVersion)
  }

  lemma DeferLeavesTrace(db: Db, req: DecisionRequest)
    requires Good(db) && FirstTime(DeferCapacity(db, req).result)
    ensures ValidDecision(req) && Good(DeferCapacity(db, req).db)
    ensures DeferredAs(DeferCapacity(db, req).db, req, DeferCapacity(db, req).result.value)
  {
    DeferKeepsInv(db, req);
    SameLedger(db, DeferCapacity(db, req).db);
  }

  lemma DeferReplaysLater(
    committed: Db, req: DecisionRequest, first: IntentResult, steps: seq<Step>, owner: string, now: Time)
    requires Good(committed) && ValidDecision(req) && DeferredAs(committed, req, first) && owner != "" && now > 0
    requires Untouched(Execute(committed, steps), req.claim.run, first.runVersion)
    ensures var later := Execute(committed, steps);
            DeferCapacity(later, req.(owner := owner, now := now)) ==
            Outcome(later, if now < req.nextEligible then Repeated(later, first, 0) else Err(BadRequest))
  {
    var later := Execute(committed, steps);
    RunsStayGood(committed, steps);
    assert RunMoves(committed.runs[req.claim.run], later.runs[req.claim.run]);
    assert later.events[first.event] == committed.events[first.event];
    FindEventAt(later, first.event, CapacityWaitEvent, req.claim.run, first.runVersion);
  }

  /** Replay of DeferCapacity; once the requested instant has passed, the request itself is no longer valid. */
  lemma DeferReplays(db: Db, req: DecisionRequest, steps: seq<Step>, owner: string, now: Time)
    requires Good(db) && FirstTime(DeferCapacity(db, req).result) && owner != "" && now > 0
    requires Untouched(Execute(DeferCapacity(db, req).db, steps), req.claim.run,
               DeferCapacity(db, req).result.value.runVersion)
    ensures var later := Execute(DeferCapacity(db, req).db, steps);
            DeferCapacity(later, req.(owner := owner, now := now)) ==
            Outcome(later, if now < req.nextEligible then Repeated(later, DeferCapacity(db, req).result.value, 0)
                           else Err(BadRequest))
  {
    DeferLeavesTrace(db, req);
    DeferReplaysLater(DeferCapacity(db, req).db, req, DeferCapacity(db, req).result.value, steps, owner, now);
  }

  predicate RejectedAs(db: Db, req: DecisionRequest, result: IntentResult) {
    var r := req.claim.run;
    && RunExists(db, req.claim.tenant, r) && db.runs[r].status == PolicyRejected
    && db.runs[r].version == result.runVersion == req.claim.version + 1
    && db.runs[r].verdict == Some(Verdict(req.code, req.reason))
    && req.claim.attempt == (r, db.runs[r].attemptCount) && req.claim.attempt in db.attempts
    && db.attempts[req.claim.attempt].status == AttemptCancelled
    && result == IntentResult(result.runVersion, result.attemptVersion, 0, 0, result.event, false)
    && result.event < |db.events| && IsEventFor(db.events[result.event], FailedEvent, r, result.runVersion)
  }

  lemma RejectLeavesTrace(db: Db, req: DecisionRequest)
    requires FirstTime(Reject(db, req).result)
    ensures ValidDecision(req) && RejectedAs(Reject(db, req).db, req, Reject(db, req).result.value)
  {
  }

  lemma RejectKeepsGood(db: Db, req: DecisionRequest)
    requires Good(db)
    ensures Good(Reject(db, req).db)
  {
    RejectKeepsInv(db, req);
    SameLedger(db, Reject(db, req).db);
  }

  lemma RejectTraceStays(committed: Db, later: Db, req: DecisionRequest, first: IntentResult)
    requires Extends(committed, later) && RejectedAs(committed, req, first)
    ensures RejectedAs(later, req, first)
  {
    assert RunMoves(committed.runs[req.claim.run], later.runs[req.claim.run]);
    assert AttemptMoves(committed.attempts[req.claim.attempt], later.attempts[req.claim.attempt]);
    assert later.events[first.event] == committed.events[first.event];
  }

  lemma RejectTraceReplays(db: Db, req: DecisionRequest, first: IntentResult)
    requires ValidDecision(req) && RejectedAs(db, req, first) && EventOrder(db)
    ensures Reject(db, req) == Outcome(db, Repeated(db, first, db.attempts[req.claim.attempt].version))
  {
    FindEventAt(db, first.event, FailedEvent, req.claim.run, first.runVersion);
  }

  lemma RejectReplaysLater(
    committed: Db, req: DecisionRequest, first: IntentResult, steps: seq<Step>, owner: string, now: Time)
    requires Good(committed) && ValidDecision(req) && RejectedAs(committed, req, first) && owner != "" && now > 0
    ensures var later := Execute(committed, steps);
            && req.claim.attempt in later.attempts
            && Reject(later, req.(owner := owner, now := now)) ==
               Outcome(later, Repeated(later, first, later.attempts[req.claim.attempt].version))
  {
    var later := Execute(committed, steps);
    RunsStayGood(committed, steps);
    RejectTraceStays(committed, later, req, first);
    RejectTraceReplays(later, req.(owner := owner, now := now), first);
  }

  /** Replay of Reject, after any transactions at all: POLICY_REJECTED is absorbing, so nothing can touch the run. */
  lemma RejectReplays(db: Db, req: DecisionRequest, steps: seq<Step>, owner: string, now: Time)
    requires Good(db) && FirstTime(Reject(db, req).result) && owner != "" && now > 0
    ensures var later := Execute(Reject(db, req).db, steps);
            && req.claim.attempt in later.attempts
            && Reject(later, req.(owner := owner, now := now)) ==
               Outcome(later, Repeated(later, Reject(db, req).result.value, later.attempts[req.claim.attempt].version))
  {
    RejectLeavesTrace(db, req);
    RejectKeepsGood(db, req);
    RejectReplaysLater(Reject(db, req).db, req, Reject(db, req).result.value, steps, owner, now);
  }

  // ---- Idempotency keys ----

  lemma RunStepAddsRuns(db: Db, step: Step)
    requires IsRunStep(step)
    ensures |db.runs| <= |Apply(db, step).runs|
    ensures !step.CreateStep? ==> |Apply(db, step).runs| == |db.runs|
  {
    if step.ClaimStep? {
      ClaimTouchesRunsOnly(db, step.batch, step.owner, step.claimedAt, step.lease);
    }
  }

  lemma OnlyCreateAddsRuns(db: Db, step: Step)
    ensures |db.runs| <= |Apply(db, step).runs|
    ensures !step.CreateStep? ==> |Apply(db, step).runs| == |db.runs|
  {
    if IsRunStep(step) {
      RunStepAddsRuns(db, step);
    }
  }

  predicate KeysUnique(db: Db) {
    forall i, j :: 0 <= i < j < |db.runs| && db.runs[i].tenant == db.runs[j].tenant ==> db.runs[i].key != db.runs[j].key
  }

  lemma StepKeepsKeys(db: Db, step: Step)
    requires Inv(db) && KeysUnique(db)
    ensures KeysUnique(Apply(db, step))
  {
    var after := Apply(db, step);
    StepExtends(db, step);
    OnlyCreateAddsRuns(db, step);
    forall i, j | 0 <= i < j < |after.runs| && after.runs[i].tenant == after.runs[j].tenant
      ensures after.runs[i].key != after.runs[j].key
    {
      assert i < |db.runs| ==> RunMoves(db.runs[i], after.runs[i]);
      assert j < |db.runs| ==> RunMoves(db.runs[j], after.runs[j]);
    }
  }

  /** In every reachable state a tenant's idempotency key belongs to at most one run. */
  lemma {:induction false} OneRunPerKey(db: Db, steps: seq<Step>)
    requires Fresh(db)
    ensures KeysUnique(Execute(db, steps))
  {
    if |steps| > 0 {
      OneRunPerKey(db, steps[..|steps| - 1]);
      FreshGood(db);
      RunsStayGood(db, steps[..|steps| - 1]);
      StepKeepsKeys(Execute(db, steps[..|steps| - 1]), steps[|steps| - 1]);
    }
  }

  /** A create repeated under the same key, after any transactions, is a conflict and changes nothing. */
  lemma RepeatedCreateConflicts(db: Db, req: CreateRequest, steps: seq<Step>, again: CreateRequest)
    requires Good(db) && Create(db, req).result.Ok?
    requires ValidCreate(again) && again.tenant == req.tenant && again.key == req.key
    ensures var later := Execute(Create(db, req).db, steps); Create(later, again) == Outcome(later, Err(Conflict))
  {
    var created := Create(db, req).db;
    var r := |db.runs|;
    CreateKeepsInv(db, req);
    SameLedger(db, created);
    RunsStayGood(created, steps);
    assert RunMoves(created.runs[r], Execute(created, steps).runs[r]);
  }
}
