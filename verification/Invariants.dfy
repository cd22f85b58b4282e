/**
 What every transaction keeps: the schema's column constraints, the tie between runs, attempts, outbox
 events and handoff intents, and the order of versions.
 */
module Invariants {
  import opened Common
  import opened RunDomain
  import opened Store

  /** A run row and its attempts. */
  ghost predicate RunInv(db: Db, r: RunId)
    requires r < |db.runs|
  {
    var run := db.runs[r];
    && RowOk(run) && run.version >= 1
    && (run.completedAt.Some? <==> IsTerminal(run.status))
    && (forall n: nat :: (r, n) in db.attempts <==> 1 <= n <= run.attemptCount)
    && (IsWaiting(run.status) ==> db.attempts[(r, run.attemptCount)].status == AttemptPending)
    && (run.status == CapacityWait ==> run.nextEligible.Some?)
    && (IsActive(run.status) && run.status != Cancelling ==> db.attempts[(r, run.attemptCount)].assignment.Some?)
    && (run.status == Provisioning ==> ProvisionedAt(db, r))
    && (run.status == CapacityWait ==>
          exists e :: 0 <= e < |db.events| && IsEventFor(db.events[e], CapacityWaitEvent, r, run.version))
  }

  /** The scheduled event of the current attempt carries the run's current version. */
  predicate ProvisionedAt(db: Db, r: RunId)
    requires r < |db.runs|
  {
    var a := (r, db.runs[r].attemptCount);
    && a in db.intents && db.intents[a].event < |db.events|
    && IsEventFor(db.events[db.intents[a].event], ScheduledEvent, r, db.runs[r].version)
  }

  /** An attempt has an assignment exactly when it has its reservation pair, its scheduled event and its intent. */
  predicate AttemptInv(db: Db, a: AttemptId)
    requires a in db.attempts
  {
    var attempt := db.attempts[a];
    && a.0 < |db.runs|
    && (attempt.status == AttemptPending ==> attempt.assignment.None?)
    && (a in db.intents <==> attempt.assignment.Some?)
    && (attempt.assignment.Some? ==>
          var given := attempt.assignment.value;
          && given.capacity < |db.capacity| && given.budget < |db.budgets|
          && ReservedBy(db.capacity[given.capacity], a, db.runs[a.0], given.cluster)
          && db.budgets[given.budget].capacity == given.capacity
          && db.intents[a].cluster == given.cluster
          && db.intents[a].event < |db.events|
          && IsScheduledEvent(db.events[db.intents[a].event], a))
  }

  predicate ReservedBy(row: CapacityRow, a: AttemptId, run: Run, cluster: string) {
    && row.tenant == run.tenant && row.run == a.0 && row.attempt == a && row.attemptNumber == a.1
    && row.cluster == cluster && row.cpu == run.cpu && row.memory == run.memory
  }

  predicate IsScheduledEvent(e: Event, a: AttemptId) {
    e.eventType == ScheduledEvent && e.run == a.0 && e.attempt == a.1
  }

  predicate EventInv(db: Db, e: nat)
    requires e < |db.events|
  {
    var event := db.events[e];
    && event.run < |db.runs| && 1 <= event.version <= db.runs[event.run].version
    && (event.eventType == ScheduledEvent ==>
          (event.run, event.attempt) in db.intents && db.intents[(event.run, event.attempt)].event == e)
  }

  /** Per run, events are appended with strictly increasing versions. */
  predicate EventOrder(db: Db) {
    forall i, j :: 0 <= i < j < |db.events| && db.events[i].run == db.events[j].run ==>
      db.events[i].version < db.events[j].version
  }

  ghost predicate Inv(db: Db) {
    && (forall r :: 0 <= r < |db.runs| ==> RunInv(db, r))
    && (forall a :: a in db.attempts ==> AttemptInv(db, a))
    && (forall e :: 0 <= e < |db.events| ==> EventInv(db, e))
    && EventOrder(db)
    && db.intents.Keys <= db.attempts.Keys
  }

  /** The columns no transaction ever writes again. */
  predicate SameIdentity(before: Run, after: Run) {
    && after.tenant == before.tenant && after.project == before.project && after.prompt == before.prompt
    && after.runtime == before.runtime && after.profile == before.profile && after.cpu == before.cpu
    && after.memory == before.memory && after.timeout == before.timeout && after.maxAttempts == before.maxAttempts
    && after.createdBy == before.createdBy && after.key == before.key && after.priority == before.priority
    && after.createdAt == before.createdAt
  }

  /** One run row rewritten, and perhaps one event appended at its new version: the shape of most transactions. */
  function Rewritten(db: Db, r: RunId, row: Run, events: seq<Event>): Db
    requires r < |db.runs|
  {
    db.(runs := db.runs[r := row], events := db.events + events)
  }

  lemma RewriteKeepsInv(db: Db, r: RunId, row: Run, events: seq<Event>)
    requires Inv(db) && r < |db.runs|
    requires SameIdentity(db.runs[r], row) && row.attemptCount == db.runs[r].attemptCount
    requires row.version == db.runs[r].version + 1
    requires |events| <= 1 && forall e :: e in events ==>
      e.run == r && e.version == row.version && e.eventType != ScheduledEvent
    requires RunInv(Rewritten(db, r, row, events), r)
    ensures Inv(Rewritten(db, r, row, events))
  {
    var after := Rewritten(db, r, row, events);
    forall q | 0 <= q < |after.runs|
      ensures RunInv(after, q)
    {
      if q != r {
        OtherRunKept(db, r, row, events, q);
      }
    }
    forall a | a in after.attempts
      ensures AttemptInv(after, a)
    {
      assert AttemptInv(db, a);
    }
    forall e | 0 <= e < |after.events|
      ensures EventInv(after, e)
    {
      if e < |db.events| {
        assert EventInv(db, e);
      }
    }
    forall i, j | 0 <= i < j < |after.events| && after.events[i].run == after.events[j].run
      ensures after.events[i].version < after.events[j].version
    {
      if j == |db.events| {
        assert EventInv(db, i);
      }
    }
  }

  lemma OtherRunKept(db: Db, r: RunId, row: Run, events: seq<Event>, q: RunId)
    requires r < |db.runs| && q < |db.runs| && q != r && RunInv(db, q)
    ensures RunInv(Rewritten(db, r, row, events), q)
  {
    var after := Rewritten(db, r, row, events);
    if db.runs[q].status == CapacityWait {
      var e :| 0 <= e < |db.events| && IsEventFor(db.events[e], CapacityWaitEvent, q, db.runs[q].version);
      assert after.events[e] == db.events[e];
    }
  }

  lemma CancelShape(db: Db, req: CommandRequest)
    requires Cancel(db, req).db != db
    ensures var after := Cancel(db, req).db;
            && req.run < |db.runs| && |after.runs| == |db.runs| && |db.events| <= |after.events| <= |db.events| + 1
            && after == Rewritten(db, req.run, after.runs[req.run], after.events[|db.events|..])
            && SameIdentity(db.runs[req.run], after.runs[req.run])
            && after.runs[req.run].attemptCount == db.runs[req.run].attemptCount
            && after.runs[req.run].version == db.runs[req.run].version + 1
            && (forall e :: e in after.events[|db.events|..] ==>
                  e.run == req.run && e.version == after.runs[req.run].version && e.eventType != ScheduledEvent)
  {
  }

  lemma CancelledRunInv(db: Db, req: CommandRequest)
    requires req.run < |db.runs| && RunInv(db, req.run) && Cancel(db, req).db != db
    ensures req.run < |Cancel(db, req).db.runs| && RunInv(Cancel(db, req).db, req.run)
  {
  }

  lemma CancelKeepsInv(db: Db, req: CommandRequest)
    requires Inv(db)
    ensures Inv(Cancel(db, req).db)
  {
    var after := Cancel(db, req).db;
    if after != db {
      CancelShape(db, req);
      CancelledRunInv(db, req);
      RewriteKeepsInv(db, req.run, after.runs[req.run], after.events[|db.events|..]);
    }
  }

  /**
   The schema lets a saved transition leave neither QUEUED nor SCHEDULING, and enter no waiting status, PROVISIONING
   or CANCELLING.
   */
  lemma SavedRow(run: Run, target: RunStatus, failure: Option<FailureCategory>, now: Time)
    requires RowOk(run) && (run.completedAt.Some? <==> IsTerminal(run.status)) && target != run.status &&
               target != Queued
    requires Transitioned(run, target, failure, now).Ok? && RowOk(Transitioned(run, target, failure, now).value)
    ensures var row := Transitioned(run, target, failure, now).value;
            && SameIdentity(run, row) && row.attemptCount == run.attemptCount && row.version == run.version
            && run.status !in {Queued, Scheduling}
            && row.status !in {Queued, Scheduling, CapacityWait, Provisioning, Cancelling}
            && (IsActive(row.status) ==> IsActive(run.status) && run.status != Cancelling)
            && (row.completedAt.Some? <==> IsTerminal(row.status))
  {
  }

  lemma SavedRunInv(db: Db, r: RunId, row: Run)
    requires r < |db.runs| && RunInv(db, r) && RowOk(row) && row.version >= 1
    requires SameIdentity(db.runs[r], row) && row.attemptCount == db.runs[r].attemptCount
    requires row.status !in {Queued, Scheduling, CapacityWait, Provisioning, Cancelling}
    requires IsActive(row.status) ==> IsActive(db.runs[r].status) && db.runs[r].status != Cancelling
    requires row.completedAt.Some? <==> IsTerminal(row.status)
    ensures RunInv(Rewritten(db, r, row, []), r)
  {
  }

  lemma AdvanceShape(db: Db, req: AdvanceRequest)
    requires Advance(db, req).db != db
    ensures req.run < |db.runs| && req.target != db.runs[req.run].status && req.target != Queued
    ensures var moved := Transitioned(db.runs[req.run], req.target, req.failure, req.now);
            && moved.Ok? && RowOk(moved.value)
            && Advance(db, req).db == Rewritten(db, req.run, moved.value.(version := db.runs[req.run].version + 1), [])
  {
    assert db.events + [] == db.events;
  }

  lemma AdvanceKeepsInv(db: Db, req: AdvanceRequest)
    requires Inv(db)
    ensures Inv(Advance(db, req).db)
  {
    if Advance(db, req).db != db {
      AdvanceShape(db, req);
      assert RunInv(db, req.run);
      SavedRow(db.runs[req.run], req.target, req.failure, req.now);
      var moved := Transitioned(db.runs[req.run], req.target, req.failure, req.now).value;
      var row := moved.(version := db.runs[req.run].version + 1);
      SavedRunInv(db, req.run, row);
      RewriteKeepsInv(db, req.run, row, []);
    }
  }

  /** Saving SCHEDULING as TIMED_OUT, an edge of the graph, always breaks the lease constraint. */
  lemma SavedTimeoutIsRefused(db: Db, req: AdvanceRequest)
    requires Inv(db) && RunExists(db, req.tenant, req.run) && db.runs[req.run].status == Scheduling
    requires req.target == TimedOut && req.failure.Some? && req.version == db.runs[req.run].version
    ensures CanTransition(db.runs[req.run], TimedOut)
    ensures Advance(db, req) == Outcome(db, Err(ConstraintViolation))
  {
    assert RunInv(db, req.run);
  }

  lemma RenewKeepsInv(db: Db, req: RenewRequest)
    requires Inv(db)
    ensures Inv(Renew(db, req).db)
  {
    var after := Renew(db, req).db;
    if after != db {
      assert RunInv(db, req.run);
      assert after == Rewritten(db, req.run, after.runs[req.run], []);
      RewriteKeepsInv(db, req.run, after.runs[req.run], []);
    }
  }

  lemma ClaimOneKeepsInv(db: Db, r: RunId, owner: string, now: Time, lease: nat)
    requires Inv(db)
    ensures Inv(ClaimOne(db, r, owner, now, lease))
  {
    var after := ClaimOne(db, r, owner, now, lease);
    if after != db {
      assert RunInv(db, r);
      assert after == Rewritten(db, r, after.runs[r], []);
      RewriteKeepsInv(db, r, after.runs[r], []);
    }
  }

  lemma {:induction false} ClaimKeepsInv(db: Db, batch: seq<RunId>, owner: string, now: Time, lease: nat)
    requires Inv(db)
    ensures Inv(ClaimAll(db, batch, owner, now, lease))
  {
    if |batch| > 0 {
      var rest := batch[..|batch| - 1];
      ClaimKeepsInv(db, rest, owner, now, lease);
      ClaimOneKeepsInv(ClaimAll(db, rest, owner, now, lease), batch[|batch| - 1], owner, now, lease);
    }
  }

  lemma DeferKeepsInv(db: Db, req: DecisionRequest)
    requires Inv(db)
    ensures Inv(DeferCapacity(db, req).db)
  {
    var after := DeferCapacity(db, req).db;
    var r := req.claim.run;
    if after != db {
      assert RunInv(db, r);
      assert IsEventFor(after.events[|db.events|], CapacityWaitEvent, r, after.runs[r].version);
      RewriteKeepsInv(db, r, after.runs[r], after.events[|db.events|..]);
    }
  }

  lemma NewRunInv(db: Db, req: CreateRequest)
    requires Inv(db) && Create(db, req).db != db
    ensures |Create(db, req).db.runs| == |db.runs| + 1 && RunInv(Create(db, req).db, |db.runs|)
  {
    var after := Create(db, req).db;
    forall n: nat | n != 1
      ensures (|db.runs|, n) !in after.attempts
    {
      if (|db.runs|, n) in db.attempts {
        assert false;
      }
    }
  }

  lemma CreateGrows(db: Db, req: CreateRequest)
    requires Create(db, req).db != db
    ensures Grown(db, Create(db, req).db, req.tenant)
  {
  }

  /** One run, its first attempt and its event are added. */
  predicate Grown(db: Db, after: Db, tenant: nat) {
    var a := (|db.runs|, 1);
    && |after.runs| == |db.runs| + 1 && db.runs <= after.runs && after.runs[|db.runs|].version == 1
    && a !in db.attempts && after.attempts == db.attempts[a := NewAttempt(tenant)]
    && after.intents == db.intents && after.capacity == db.capacity && after.budgets == db.budgets
    && after.events == db.events + [Event(RequestedEvent, tenant, |db.runs|, 1, 1)]
  }

  lemma GrownKeepsRuns(db: Db, after: Db, tenant: nat)
    requires Inv(db) && Grown(db, after, tenant)
    ensures forall q :: 0 <= q < |db.runs| ==> RunInv(after, q)
  {
    forall q | 0 <= q < |db.runs|
      ensures RunInv(after, q)
    {
      GrowthKeepsRun(db, after, q);
    }
  }

  lemma GrownKeepsAttempts(db: Db, after: Db, tenant: nat)
    requires Inv(db) && Grown(db, after, tenant)
    ensures forall b :: b in after.attempts ==> AttemptInv(after, b)
  {
    GrowthKeepsAttempts(db, after, (|db.runs|, 1));
  }

  lemma GrownKeepsEvents(db: Db, after: Db, tenant: nat)
    requires Inv(db) && Grown(db, after, tenant)
    ensures (forall e :: 0 <= e < |after.events| ==> EventInv(after, e)) && EventOrder(after)
  {
    GrowthKeepsEvents(db, after);
    NewEventKeepsOrder(db, after);
  }

  lemma CreateKeepsInv(db: Db, req: CreateRequest)
    requires Inv(db)
    ensures Inv(Create(db, req).db)
  {
    var after := Create(db, req).db;
    if after != db {
      NewRunInv(db, req);
      CreateGrows(db, req);
      GrownKeepsRuns(db, after, req.tenant);
      GrownKeepsAttempts(db, after, req.tenant);
      GrownKeepsEvents(db, after, req.tenant);
    }
  }

  /** A run whose own row and attempts are untouched keeps its invariant while tables only grow. */
  lemma GrowthKeepsRun(db: Db, after: Db, q: RunId)
    requires q < |db.runs| && q < |after.runs| && after.runs[q] == db.runs[q] && RunInv(db, q)
    requires forall n: nat :: (q, n) in after.attempts <==> (q, n) in db.attempts
    requires forall n: nat :: (q, n) in db.attempts ==> after.attempts[(q, n)] == db.attempts[(q, n)]
    requires db.events <= after.events
    requires forall n: nat :: (q, n) in db.intents ==>
               (q, n) in after.intents && after.intents[(q, n)] == db.intents[(q, n)]
    ensures RunInv(after, q)
  {
    if db.runs[q].status == CapacityWait {
      var e :| 0 <= e < |db.events| && IsEventFor(db.events[e], CapacityWaitEvent, q, db.runs[q].version);
      assert after.events[e] == db.events[e];
    }
  }

  /** Attempts other than `a` keep their invariant while tables only grow and identity columns stay. */
  lemma GrowthKeepsAttempts(db: Db, after: Db, a: AttemptId)
    requires Inv(db) && |db.runs| <= |after.runs|
    requires forall q :: 0 <= q < |db.runs| ==> SameIdentity(db.runs[q], after.runs[q])
    requires after.attempts.Keys <= db.attempts.Keys + {a}
    requires forall b :: b in after.attempts && b != a ==> after.attempts[b] == db.attempts[b]
    requires forall b :: b != a ==> (b in db.intents <==> b in after.intents)
    requires forall b :: b in after.intents && b != a ==> after.intents[b] == db.intents[b]
    requires db.events <= after.events && |db.budgets| <= |after.budgets| && |db.capacity| <= |after.capacity|
    requires forall i :: 0 <= i < |db.capacity| ==>
               after.capacity[i] == db.capacity[i].(state := after.capacity[i].state)
    requires forall i :: 0 <= i < |db.budgets| ==> after.budgets[i] == db.budgets[i].(state := after.budgets[i].state)
    requires a in after.attempts ==> AttemptInv(after, a)
    ensures forall b :: b in after.attempts ==> AttemptInv(after, b)
  {
    forall b | b in after.attempts
      ensures AttemptInv(after, b)
    {
      if b != a {
        assert AttemptInv(db, b);
      }
    }
  }

  lemma NewEventKeepsOrder(db: Db, after: Db)
    requires Inv(db) && |after.events| == |db.events| + 1 && db.events <= after.events
    requires var e := after.events[|db.events|];
             e.run < |db.runs| ==> db.runs[e.run].version < e.version
    ensures EventOrder(after)
  {
    forall i, j | 0 <= i < j < |after.events| && after.events[i].run == after.events[j].run
      ensures after.events[i].version < after.events[j].version
    {
      if j == |db.events| {
        assert EventInv(db, i);
      }
    }
  }

  /** Appending one event keeps the older ones' invariant, as versions only grow. */
  lemma GrowthKeepsEvents(db: Db, after: Db)
    requires Inv(db) && db.events <= after.events && |db.runs| <= |after.runs|
    requires forall q :: 0 <= q < |db.runs| ==> db.runs[q].version <= after.runs[q].version
    requires forall b :: b in db.intents ==> b in after.intents && after.intents[b] == db.intents[b]
    requires forall e :: |db.events| <= e < |after.events| ==> EventInv(after, e)
    ensures forall e :: 0 <= e < |after.events| ==> EventInv(after, e)
  {
    forall e | 0 <= e < |after.events|
      ensures EventInv(after, e)
    {
      if e < |db.events| {
        assert EventInv(db, e);
      }
    }
  }

  /** A transaction on run r and its attempt a that appends one event; reservations may be appended too. */
  ghost predicate Decides(db: Db, after: Db, r: RunId, a: AttemptId) {
    && r < |db.runs| && a.0 == r && |after.runs| == |db.runs| && after.runs == db.runs[r := after.runs[r]]
    && SameIdentity(db.runs[r], after.runs[r]) && after.runs[r].version == db.runs[r].version + 1
    && a in after.attempts && after.attempts == db.attempts[a := after.attempts[a]]
    && (after.intents == db.intents || (a !in db.intents && a in after.intents &&
        after.intents == db.intents[a := after.intents[a]]))
    && |after.events| == |db.events| + 1 && db.events <= after.events
    && after.events[|db.events|].run == r && after.events[|db.events|].version == after.runs[r].version
    && db.capacity <= after.capacity && db.budgets <= after.budgets
  }

  lemma DecisionKeepsRuns(db: Db, after: Db, r: RunId, a: AttemptId)
    requires Inv(db) && Decides(db, after, r, a)
    ensures forall q :: 0 <= q < |after.runs| && q != r ==> RunInv(after, q)
  {
    forall q | 0 <= q < |after.runs| && q != r
      ensures RunInv(after, q)
    {
      assert RunInv(db, q);
      GrowthKeepsRun(db, after, q);
    }
  }

  lemma DecisionKeepsAttempts(db: Db, after: Db, r: RunId, a: AttemptId)
    requires Inv(db) && Decides(db, after, r, a) && AttemptInv(after, a)
    ensures forall b :: b in after.attempts ==> AttemptInv(after, b)
  {
    forall b | b in after.attempts && b != a
      ensures AttemptInv(after, b)
    {
      assert AttemptInv(db, b);
    }
  }

  lemma DecisionKeepsEvents(db: Db, after: Db, r: RunId, a: AttemptId)
    requires Inv(db) && Decides(db, after, r, a) && EventInv(after, |db.events|)
    ensures EventOrder(after) && forall e :: 0 <= e < |after.events| ==> EventInv(after, e)
  {
    forall e | 0 <= e < |db.events|
      ensures EventInv(after, e)
    {
      assert EventInv(db, e) && after.events[e] == db.events[e];
    }
    NewEventKeepsOrder(db, after);
  }

  lemma DecisionKeepsInv(db: Db, after: Db, r: RunId, a: AttemptId)
    requires Inv(db) && Decides(db, after, r, a)
    requires RunInv(after, r) && AttemptInv(after, a) && EventInv(after, |db.events|)
    ensures Inv(after)
  {
    DecisionKeepsRuns(db, after, r, a);
    DecisionKeepsAttempts(db, after, r, a);
    DecisionKeepsEvents(db, after, r, a);
  }

  lemma RetryDecides(db: Db, req: CommandRequest)
    requires Retry(db, req).db != db
    ensures req.run < |Retry(db, req).db.runs|
    ensures Decides(db, Retry(db, req).db, req.run, (req.run, Retry(db, req).db.runs[req.run].attemptCount))
  {
  }

  /** The run row a retry leaves. */
  predicate Requeued(run: Run, row: Run) {
    && SameIdentity(run, row) && row.status == Queued && row.attemptCount == run.attemptCount + 1 <= row.maxAttempts
    && row.failure.None? && row.completedAt.None? && row.lease.None? && row.cancelRequestedAt == run.cancelRequestedAt
    && row.version == run.version + 1 && IsFailure(run.status)
  }

  lemma RetriedRowIsRequeued(run: Run, now: Time, commandId: string)
    requires RowOk(run) && CanRetry(run) && Transitioned(run, Queued, None, now).Ok?
    ensures Requeued(run, RetriedRow(run, Transitioned(run, Queued, None, now).value, commandId))
  {
  }

  lemma RetryShape(db: Db, req: CommandRequest)
    requires Retry(db, req).db != db
    ensures req.run < |db.runs| && CanRetry(db.runs[req.run])
    ensures var after := Retry(db, req).db;
            var run := db.runs[req.run];
            var moved := Transitioned(run, Queued, None, req.now);
            && moved.Ok? && |after.runs| == |db.runs| && after.intents == db.intents
            && after.runs[req.run] == RetriedRow(run, moved.value, req.commandId)
            && var a := (req.run, after.runs[req.run].attemptCount);
            && a !in db.attempts && after.attempts == db.attempts[a := NewAttempt(run.tenant)]
            && after.events == db.events + [Event(RetryRequestedEvent, run.tenant, req.run,
                after.runs[req.run].version, a.1)]
  {
  }

  lemma RequeuedRunInv(db: Db, after: Db, r: RunId)
    requires r < |db.runs| && RunInv(db, r) && |after.runs| == |db.runs| && Requeued(db.runs[r], after.runs[r])
    requires after.attempts == db.attempts[(r, db.runs[r].attemptCount + 1) := NewAttempt(db.runs[r].tenant)]
    ensures RunInv(after, r)
  {
  }

  lemma RequeuedAttemptInv(db: Db, after: Db, r: RunId)
    requires r < |db.runs| && |after.runs| == |db.runs| && Requeued(db.runs[r], after.runs[r])
    requires db.intents.Keys <= db.attempts.Keys && after.intents == db.intents
    requires (r, after.runs[r].attemptCount) !in db.attempts
    requires after.attempts == db.attempts[(r, after.runs[r].attemptCount) := NewAttempt(db.runs[r].tenant)]
    requires |after.events| == |db.events| + 1
    requires after.events[|db.events|] == Event(RetryRequestedEvent, db.runs[r].tenant, r, after.runs[r].version,
               after.runs[r].attemptCount)
    ensures AttemptInv(after, (r, after.runs[r].attemptCount)) && EventInv(after, |db.events|)
  {
  }

  lemma RetryKeepsInv(db: Db, req: CommandRequest)
    requires Inv(db)
    ensures Inv(Retry(db, req).db)
  {
    var after := Retry(db, req).db;
    if after != db {
      RetryShape(db, req);
      RetryDecides(db, req);
      assert RowOk(db.runs[req.run]) by {
        assert RunInv(db, req.run);
      }
      RetriedRowIsRequeued(db.runs[req.run], req.now, req.commandId);
      RequeuedKeepsInv(db, after, req.run);
    }
  }

  lemma RequeuedKeepsInv(db: Db, after: Db, r: RunId)
    requires Inv(db) && r < |db.runs| && |after.runs| == |db.runs| && Requeued(db.runs[r], after.runs[r])
    requires after.intents == db.intents && (r, after.runs[r].attemptCount) !in db.attempts
    requires after.attempts == db.attempts[(r, after.runs[r].attemptCount) := NewAttempt(db.runs[r].tenant)]
    requires after.events == db.events + [Event(RetryRequestedEvent, db.runs[r].tenant, r, after.runs[r].version,
               after.runs[r].attemptCount)]
    requires Decides(db, after, r, (r, after.runs[r].attemptCount))
    ensures Inv(after)
  {
    assert RunInv(db, r);
    RequeuedRunInv(db, after, r);
    RequeuedAttemptInv(db, after, r);
    DecisionKeepsInv(db, after, r, (r, after.runs[r].attemptCount));
  }

  lemma AttemptMoveKeepsRuns(db: Db, after: Db, a: AttemptId)
    requires Inv(db) && a in db.attempts && a in after.attempts
    requires after == db.(attempts := db.attempts[a := after.attempts[a]])
    requires db.attempts[a].status != AttemptPending && after.attempts[a].assignment == db.attempts[a].assignment
    ensures forall q :: 0 <= q < |after.runs| ==> RunInv(after, q)
  {
    forall q | 0 <= q < |after.runs|
      ensures RunInv(after, q)
    {
      assert RunInv(db, q);
    }
  }

  lemma AdvanceAttemptShape(db: Db, req: AdvanceAttemptRequest)
    requires AdvanceAttempt(db, req).db != db
    ensures var after := AdvanceAttempt(db, req).db;
            && req.attempt in db.attempts && req.attempt in after.attempts
            && after == db.(attempts := db.attempts[req.attempt := after.attempts[req.attempt]])
            && db.attempts[req.attempt].status != AttemptPending
            && after.attempts[req.attempt].status != AttemptPending
            && after.attempts[req.attempt].assignment == db.attempts[req.attempt].assignment
  {
  }

  lemma AdvanceAttemptKeepsInv(db: Db, req: AdvanceAttemptRequest)
    requires Inv(db)
    ensures Inv(AdvanceAttempt(db, req).db)
  {
    if AdvanceAttempt(db, req).db != db {
      AdvanceAttemptShape(db, req);
      AttemptMoveKeepsRuns(db, AdvanceAttempt(db, req).db, req.attempt);
      AttemptMoveKeepsAttempts(db, AdvanceAttempt(db, req).db, req.attempt);
      GrowthKeepsEvents(db, AdvanceAttempt(db, req).db);
    }
  }

  lemma AttemptMoveKeepsAttempts(db: Db, after: Db, a: AttemptId)
    requires Inv(db) && a in db.attempts && a in after.attempts
    requires after == db.(attempts := db.attempts[a := after.attempts[a]])
    requires after.attempts[a].status != AttemptPending
    requires after.attempts[a].assignment == db.attempts[a].assignment
    ensures forall b :: b in after.attempts ==> AttemptInv(after, b)
  {
    forall b | b in after.attempts
      ensures AttemptInv(after, b)
    {
      assert AttemptInv(db, b);
    }
  }

  lemma RejectDecides(db: Db, req: DecisionRequest)
    requires Reject(db, req).db != db
    ensures Decides(db, Reject(db, req).db, req.claim.run, req.claim.attempt)
  {
  }

  lemma RejectedRows(db: Db, req: DecisionRequest)
    requires Inv(db) && Reject(db, req).db != db
    ensures var after := Reject(db, req).db;
            && req.claim.run < |after.runs| && RunInv(after, req.claim.run)
            && req.claim.attempt in after.attempts && AttemptInv(after, req.claim.attempt)
            && |after.events| == |db.events| + 1 && EventInv(after, |db.events|)
  {
    assert RunInv(db, req.claim.run);
    assert AttemptInv(db, req.claim.attempt);
  }

  lemma RejectKeepsInv(db: Db, req: DecisionRequest)
    requires Inv(db)
    ensures Inv(Reject(db, req).db)
  {
    if Reject(db, req).db != db {
      RejectDecides(db, req);
      RejectedRows(db, req);
      DecisionKeepsInv(db, Reject(db, req).db, req.claim.run, req.claim.attempt);
    }
  }

  lemma ScheduledDecides(db: Db, req: ScheduleRequest)
    requires req.claim.run < |db.runs| && req.attempt in db.attempts && req.attempt.0 == req.claim.run
    requires req.attempt !in db.intents
    ensures Decides(db, Scheduled(db, req), req.claim.run, req.attempt)
  {
  }

  /** What a committed Schedule writes for its own run and attempt. */
  lemma ScheduledRows(db: Db, req: ScheduleRequest)
    requires Inv(db) && |db.capacity| == |db.budgets| && req.claim.run < |db.runs|
    requires db.runs[req.claim.run].status == Scheduling
    requires PendingAttemptError(db, req.claim.run, req.attempt, req.attemptVersion).None? && req.attempt !in db.intents
    ensures var after := Scheduled(db, req);
            && RunInv(after, req.claim.run) && AttemptInv(after, req.attempt) && EventInv(after, |db.events|)
  {
    assert RunInv(db, req.claim.run);
    assert AttemptInv(db, req.attempt);
  }

  lemma ScheduleKeepsInv(db: Db, req: ScheduleRequest)
    requires Inv(db) && |db.capacity| == |db.budgets|
    ensures Inv(Schedule(db, req).db)
  {
    if Schedule(db, req).db != db {
      ScheduledDecides(db, req);
      ScheduledRows(db, req);
      DecisionKeepsInv(db, Scheduled(db, req), req.claim.run, req.attempt);
    }
  }

  /** Reserve, Finish, reports and purges leave runs, attempts, events and intents alone. */
  lemma LedgerStepKeepsInv(db: Db, after: Db)
    requires Inv(db)
    requires after.runs == db.runs && after.attempts == db.attempts && after.events == db.events
    requires after.intents == db.intents
    requires |db.capacity| <= |after.capacity| && |db.budgets| <= |after.budgets|
    requires forall i :: 0 <= i < |db.capacity| ==>
               after.capacity[i] == db.capacity[i].(state := after.capacity[i].state)
    requires forall i :: 0 <= i < |db.budgets| ==> after.budgets[i] == db.budgets[i].(state := after.budgets[i].state)
    ensures Inv(after)
  {
    forall q | 0 <= q < |after.runs|
      ensures RunInv(after, q)
    {
      GrowthKeepsRun(db, after, q);
    }
    forall b | b in after.attempts
      ensures AttemptInv(after, b)
    {
      assert AttemptInv(db, b);
    }
    GrowthKeepsEvents(db, after);
  }

  lemma ReserveKeepsInv(db: Db, req: ReserveRequest)
    requires Inv(db)
    ensures Inv(Reserve(db, req).db)
  {
    LedgerStepKeepsInv(db, Reserve(db, req).db);
  }

  lemma FinishKeepsInv(db: Db, req: FinishRequest, row: nat)
    requires Inv(db)
    ensures Inv(Finish(db, req, row).db)
  {
    LedgerStepKeepsInv(db, Finish(db, req, row).db);
  }

  lemma RunStepKeepsInv(db: Db, step: Step)
    requires Inv(db) && |db.capacity| == |db.budgets| && IsRunStep(step)
    ensures Inv(Apply(db, step))
  {
    if step.CreateStep? {
      CreateKeepsInv(db, step.create);
    } else if step.CancelStep? {
      CancelKeepsInv(db, step.command);
    } else if step.RetryStep? {
      RetryKeepsInv(db, step.command);
    } else if step.AdvanceStep? {
      AdvanceKeepsInv(db, step.advance);
    } else if step.AdvanceAttemptStep? {
      AdvanceAttemptKeepsInv(db, step.advanceAttempt);
    } else if step.ClaimStep? {
      ClaimKeepsInv(db, step.batch, step.owner, step.claimedAt, step.lease);
    } else if step.RenewStep? {
      RenewKeepsInv(db, step.renew);
    }
  }

  lemma LedgerStepsKeepInv(db: Db, step: Step)
    requires Inv(db) && |db.capacity| == |db.budgets| && !IsRunStep(step)
    ensures Inv(Apply(db, step))
  {
    if step.ScheduleStep? {
      ScheduleKeepsInv(db, step.schedule);
    } else if step.DeferStep? {
      DeferKeepsInv(db, step.decision);
    } else if step.RejectStep? {
      RejectKeepsInv(db, step.decision);
    } else if step.ReserveStep? {
      ReserveKeepsInv(db, step.reserve);
    } else if step.FinishStep? {
      FinishKeepsInv(db, step.finish, step.row);
    } else if step.ReportStep? {
      LedgerStepKeepsInv(db, ReportCluster(db, step.id, step.reported));
    } else if step.PurgeStep? {
      LedgerStepKeepsInv(db, Purge(db, step.rows));
    }
  }

  lemma StepKeepsInv(db: Db, step: Step)
    requires Inv(db) && |db.capacity| == |db.budgets|
    ensures Inv(Apply(db, step))
  {
    if IsRunStep(step) {
      RunStepKeepsInv(db, step);
    } else {
      LedgerStepsKeepInv(db, step);
    }
  }
}
