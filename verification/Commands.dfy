/** The API's commands, from the tables alone: when each commits, what it writes, and what a repeat answers. */
module Commands {
  import opened Common
  import opened RunDomain
  import opened Store
  import opened Invariants
  import opened History
  import L = Ledger

  // ---- Create ----

  /**
   A create commits if and only if its fields are in range, the tenant has the project and no run under this key; and
   then the run waits with its first attempt, both as asked for.
   */
  lemma CreateCommitsIff(db: Db, req: CreateRequest)
    requires Inv(db)
    ensures Create(db, req).result.Ok? <==>
            && 1 <= |req.prompt| <= 2048 && 1 <= |req.runtime| <= 120 && 1 <= |req.createdBy| <= 255
            && 1 <= req.cpu <= 128000 && 1 <= req.memory <= 524288 && 1 <= req.timeout <= 86400
            && 1 <= req.maxAttempts <= 10 && 1 <= |req.key| <= 255 && (req.tenant, req.project) in db.projects
            && forall r :: 0 <= r < |db.runs| ==> db.runs[r].tenant != req.tenant || db.runs[r].key != req.key
    ensures Create(db, req).result.Ok? ==>
              var after := Create(db, req).db;
              var r := |db.runs|;
              && Create(db, req).result.value == r && |after.runs| == r + 1 && (r, 1) in after.attempts
              && var run := after.runs[r];
              && run.tenant == req.tenant && run.project == req.project && run.prompt == req.prompt
              && run.runtime == req.runtime && run.profile == req.profile && run.cpu == req.cpu
              && run.memory == req.memory && run.timeout == req.timeout && run.maxAttempts == req.maxAttempts
              && run.createdBy == req.createdBy && run.key == req.key && run.priority == req.priority
              && run.createdAt == req.now && run.status == Queued && run.attemptCount == 1 && run.version == 1
              && after.attempts[(r, 1)].status == AttemptPending && after.attempts[(r, 1)].version == 1
  {
    if (|db.runs|, 1) in db.attempts {
      assert false;
    }
  }

  // ---- Cancel ----

  predicate ProperCancel(req: CommandRequest) {
    1 <= |req.commandId| <= 255 && 1 <= |req.actor| <= 255 && 1 <= |req.reason| <= 500 && req.now > 0
  }

  /** The last command of the run is this one. */
  predicate LastCommandIs(run: Run, kind: CommandKind, id: string) {
    run.receipt.Some? && run.receipt.value.kind == kind && run.receipt.value.id == id
  }

  /** The statuses a run ends in. */
  const ENDED: set<RunStatus> :=
    {Succeeded, Cancelled, ProvisioningFailed, ExecutionFailed, BuildFailed, PolicyRejected, DeploymentFailed, TimedOut}

  /**
   Every run that has not ended can be cancelled, whatever it is doing: the run turns CANCELLING at the next version,
   its lease and its wait are over, and one event says so. Anything else leaves the database as it was.
   */
  lemma CancelCommitsIff(db: Db, req: CommandRequest)
    ensures Cancel(db, req).db != db <==>
            && ProperCancel(req) && req.run < |db.runs| && db.runs[req.run].tenant == req.tenant
            && !LastCommandIs(db.runs[req.run], CancelCommand, req.commandId)
            && db.runs[req.run].status !in ENDED + {Cancelling}
    ensures Cancel(db, req).db != db ==>
              var (run, after) := (db.runs[req.run], Cancel(db, req).db);
              && after == db.(runs := after.runs, events := after.events)
              && after.runs == db.runs[req.run := run.(
                   status := Cancelling, version := run.version + 1, cancelRequestedAt := Some(req.now), lease := None,
                   nextEligible := None,
                   receipt := Some(Receipt(CancelCommand, req.commandId, Cancelling, run.attemptCount)))]
              && after.events == db.events + [Event(CancelRequestedEvent, run.tenant, req.run, run.version + 1,
                   run.attemptCount)]
              && Cancel(db, req).result == Ok(CommandResult(Cancelling, run.attemptCount, run.version + 1, false))
  {
    if Cancel(db, req).db != db {
      CancelShape(db, req);
    }
  }

  /** A run already CANCELLING or CANCELLED acknowledges any further cancellation; one that ended otherwise refuses. */
  lemma CancelOfEnded(db: Db, req: CommandRequest)
    requires ProperCancel(req) && req.run < |db.runs| && db.runs[req.run].tenant == req.tenant
    requires !LastCommandIs(db.runs[req.run], CancelCommand, req.commandId)
    ensures var run := db.runs[req.run];
            && (run.status in {Cancelling, Cancelled} ==>
                  Cancel(db, req) == Outcome(db, Ok(CommandResult(run.status, run.attemptCount, run.version, true))))
            && (run.status in ENDED - {Cancelled} ==> Cancel(db, req) == Outcome(db, Err(RunTerminal)))
  {
  }

  /**
   A committed cancellation is final: after any transactions at all the run is CANCELLING or CANCELLED, and the same
   command again, by whoever and whenever, changes nothing and answers what it answered first, marked as a replay.
   */
  lemma CancelIsFinal(db: Db, req: CommandRequest, steps: seq<Step>, again: CommandRequest)
    requires Good(db) && Cancel(db, req).db != db && ProperCancel(again)
    requires again.tenant == req.tenant && again.run == req.run && again.commandId == req.commandId
    ensures var later := Execute(Cancel(db, req).db, steps);
            && req.run < |db.runs| && req.run < |later.runs| && later.runs[req.run].status in {Cancelling, Cancelled}
            && Cancel(later, again) == Outcome(later, Ok(CommandResult(
                 Cancelling, db.runs[req.run].attemptCount, later.runs[req.run].version, true)))
  {
    var committed := Cancel(db, req).db;
    CancelCommitsIff(db, req);
    CancelKeepsInv(db, req);
    L.SameLedger(db, committed);
    RunsStayGood(committed, steps);
    assert RunMoves(committed.runs[req.run], Execute(committed, steps).runs[req.run]);
  }

  // ---- Retry ----

  /** The run failed in a status that may be queued again, with a transient dependency to blame and attempts left. */
  predicate MayRetry(run: Run) {
    && run.status in {ProvisioningFailed, ExecutionFailed, BuildFailed, DeploymentFailed, TimedOut}
    && run.failure == Some(TransientDependency) && run.attemptCount < run.maxAttempts
  }

  lemma RequeueableIff(run: Run, now: Time)
    ensures CanRetry(run) && Transitioned(run, Queued, None, now).Ok? <==> MayRetry(run)
    ensures MayRetry(run) ==> Transitioned(run, Queued, None, now) == Ok(run.(
              status := Queued, attemptCount := run.attemptCount + 1, failure := None, completedAt := None))
  {
  }

  lemma RetryIff(db: Db, req: CommandRequest)
    requires req.run < |db.runs| ==> (req.run, db.runs[req.run].attemptCount + 1) !in db.attempts
    ensures Retry(db, req).db != db <==>
            && 1 <= |req.commandId| <= 255 && 1 <= |req.actor| <= 255 && req.now > 0
            && req.run < |db.runs| && db.runs[req.run].tenant == req.tenant
            && !LastCommandIs(db.runs[req.run], RetryCommand, req.commandId) && MayRetry(db.runs[req.run])
  {
    if RunExists(db, req.tenant, req.run) {
      RequeueableIff(db.runs[req.run], req.now);
    }
  }

  /** What a committed retry leaves: the run queued at the next version, and its next attempt pending. */
  predicate Requeues(db: Db, after: Db, req: CommandRequest)
    requires req.run < |db.runs|
  {
    var run := db.runs[req.run];
    var next := run.attemptCount + 1;
    && after == db.(runs := after.runs, attempts := after.attempts, events := after.events)
    && after.runs == db.runs[req.run := run.(
         status := Queued, attemptCount := next, failure := None, completedAt := None,
         version := run.version + 1, lease := None, nextEligible := None,
         receipt := Some(Receipt(RetryCommand, req.commandId, Queued, next)))]
    && (req.run, next) !in db.attempts && (req.run, next) in after.attempts
    && after.attempts == db.attempts[(req.run, next) := after.attempts[(req.run, next)]]
    && after.attempts[(req.run, next)].status == AttemptPending && after.attempts[(req.run, next)].assignment.None?
    && after.events == db.events + [Event(RetryRequestedEvent, run.tenant, req.run, run.version + 1, next)]
  }

  lemma RetryRequeues(db: Db, req: CommandRequest)
    requires Retry(db, req).db != db && req.run < |db.runs| && MayRetry(db.runs[req.run])
    ensures Requeues(db, Retry(db, req).db, req)
    ensures var run := db.runs[req.run];
            Retry(db, req).result == Ok(CommandResult(Queued, run.attemptCount + 1, run.version + 1, false))
  {
    RequeueableIff(db.runs[req.run], req.now);
  }

  /** A retry commits if and only if the run may be retried and this is not its last command; it is then queued. */
  lemma RetryCommitsIff(db: Db, req: CommandRequest)
    requires Inv(db)
    ensures Retry(db, req).db != db <==>
            && 1 <= |req.commandId| <= 255 && 1 <= |req.actor| <= 255 && req.now > 0
            && req.run < |db.runs| && db.runs[req.run].tenant == req.tenant
            && !LastCommandIs(db.runs[req.run], RetryCommand, req.commandId) && MayRetry(db.runs[req.run])
    ensures Retry(db, req).db != db ==>
              && Requeues(db, Retry(db, req).db, req)
              && Retry(db, req).result == Ok(CommandResult(
                   Queued, db.runs[req.run].attemptCount + 1, db.runs[req.run].version + 1, false))
  {
    if req.run < |db.runs| {
      assert RunInv(db, req.run);
    }
    RetryIff(db, req);
    if Retry(db, req).db != db {
      RetryRequeues(db, req);
    }
  }

  /**
   Only the last command of a run is remembered: after a committed retry and any transactions, the same command again
   answers as it did first, and changes nothing, if and only if no other command of the run has committed since.
   */
  lemma RetryRepeatsIff(db: Db, req: CommandRequest, steps: seq<Step>, again: CommandRequest)
    requires Good(db) && Retry(db, req).db != db
    requires again == req.(now := again.now, actor := again.actor) && again.now > 0 && 1 <= |again.actor| <= 255
    ensures var later := Execute(Retry(db, req).db, steps);
            var first := Retry(db, req).result;
            && first.Ok? && req.run < |later.runs| && req.run < |Retry(db, req).db.runs|
            && (Retry(later, again) == Outcome(later, Ok(CommandResult(
                  first.value.status, first.value.attemptCount, later.runs[req.run].version, true))) <==>
                later.runs[req.run].receipt == Retry(db, req).db.runs[req.run].receipt)
  {
    var committed := Retry(db, req).db;
    RetryCommitsIff(db, req);
    RetryKeepsGood(db, req);
    RunsStayGood(committed, steps);
    var later := Execute(committed, steps);
    assert RunMoves(committed.runs[req.run], later.runs[req.run]);
    RepeatIff(later, again, db.runs[req.run].attemptCount + 1);
  }

  lemma RepeatIff(db: Db, req: CommandRequest, n: nat)
    requires 1 <= |req.commandId| <= 255 && 1 <= |req.actor| <= 255 && req.now > 0
    requires req.run < |db.runs| && db.runs[req.run].tenant == req.tenant
    ensures Retry(db, req) == Outcome(db, Ok(CommandResult(Queued, n, db.runs[req.run].version, true))) <==>
            db.runs[req.run].receipt == Some(Receipt(RetryCommand, req.commandId, Queued, n))
  {
  }

  /**
   The case: a retry, forgotten because a second one followed it, starts a further attempt when it is repeated on a
   run that has failed transiently again.
   */
  lemma ForgottenRetryRunsAgain(
    db: Db, req: CommandRequest, between: seq<Step>, second: CommandRequest, steps: seq<Step>)
    requires Good(db) && Retry(db, req).db != db
    requires var mid := Execute(Retry(db, req).db, between); Retry(mid, second).db != mid && second.run == req.run
    requires var later := Execute(Retry(Execute(Retry(db, req).db, between), second).db, steps);
             && req.run < |later.runs| && later.runs[req.run].status == ExecutionFailed
             && later.runs[req.run].failure == Some(TransientDependency)
             && later.runs[req.run].attemptCount < later.runs[req.run].maxAttempts
             && LastCommandIs(later.runs[req.run], RetryCommand, second.commandId) && second.commandId != req.commandId
    ensures var later := Execute(Retry(Execute(Retry(db, req).db, between), second).db, steps);
            && Retry(later, req).result.Ok? && !Retry(later, req).result.value.replayed
            && Retry(later, req).result.value.attemptCount == later.runs[req.run].attemptCount + 1
  {
    var first := Retry(db, req).db;
    RetryKeepsGood(db, req);
    RunsStayGood(first, between);
    var mid := Execute(first, between);
    RetryKeepsGood(mid, second);
    RunsStayGood(Retry(mid, second).db, steps);
    var later := Execute(Retry(mid, second).db, steps);
    RetryCommitsIff(db, req);
    RetryCommitsIff(later, req);
    assert RunMoves(first.runs[req.run], mid.runs[req.run]);
    RetryCommitsIff(mid, second);
    assert RunMoves(Retry(mid, second).db.runs[req.run], later.runs[req.run]);
  }

  lemma RetryKeepsGood(db: Db, req: CommandRequest)
    requires Good(db)
    ensures Good(Retry(db, req).db)
  {
    RetryKeepsInv(db, req);
    L.SameLedger(db, Retry(db, req).db);
  }

  // ---- Reports ----

  /** The statuses a report may move a run from, by the status it reports. */
  predicate Reports(s: RunStatus, target: RunStatus) {
    match target
    case Running => s == Provisioning
    case Testing => s == Running
    case Building => s == Testing
    case Scanning => s == Building
    case ReadyToDeploy => s == Scanning
    case Deploying => s == ReadyToDeploy
    case Succeeded => s == Deploying
    case Cancelled => s == Cancelling
    case ProvisioningFailed => s == Provisioning
    case ExecutionFailed => s in {Running, Testing}
    case BuildFailed => s == Building
    case PolicyRejected => s == Scanning
    case DeploymentFailed => s == Deploying
    case TimedOut => s in {CapacityWait, Provisioning, Running, Testing, Building, Scanning, Deploying}
    case _ => false
  }

  const FAILED: set<RunStatus> :=
    {ProvisioningFailed, ExecutionFailed, BuildFailed, PolicyRejected, DeploymentFailed, TimedOut}

  /**
   A reported status is saved if and only if the run is at the version it was read at, the report follows the status
   it is in, and it names a category exactly if it reports a failure; nothing but the row's status, version, ending
   and category changes.
   */
  lemma AdvanceCommitsIff(db: Db, req: AdvanceRequest)
    requires req.run < |db.runs| ==> RowOk(db.runs[req.run])
    ensures Advance(db, req).db != db <==>
            && req.run < |db.runs| && db.runs[req.run].tenant == req.tenant
            && db.runs[req.run].version == req.version && Reports(db.runs[req.run].status, req.target)
            && (req.target in FAILED ==> req.failure.Some?)
            && (req.target in {Succeeded, Cancelled} ==> req.failure.None?)
    ensures Advance(db, req).db != db ==>
              var run := db.runs[req.run];
              && Advance(db, req).result == Ok(run.version + 1)
              && Advance(db, req).db == db.(runs := db.runs[req.run := run.(
                   status := req.target, version := run.version + 1,
                   completedAt := if req.target in ENDED then Some(req.now) else run.completedAt,
                   failure := if req.target in FAILED then req.failure else None)])
  {
    if req.run < |db.runs| {
      AdvancedIff(db.runs[req.run], req);
      if Advance(db, req).result.Ok? {
        assert Advance(db, req).db.runs[req.run].version == db.runs[req.run].version + 1;
      }
    }
  }

  lemma AdvancedIff(run: Run, req: AdvanceRequest)
    requires RowOk(run)
    ensures var moved := Transitioned(run, req.target, req.failure, req.now);
            && (req.target != run.status && req.target != Queued && moved.Ok? && RowOk(moved.value) <==>
                && Reports(run.status, req.target) && (req.target in FAILED ==> req.failure.Some?)
                && (req.target in {Succeeded, Cancelled} ==> req.failure.None?))
            && (req.target != run.status && req.target != Queued && moved.Ok? && RowOk(moved.value) ==>
                  moved.value == run.(
                    status := req.target,
                    completedAt := if req.target in ENDED then Some(req.now) else run.completedAt,
                    failure := if req.target in FAILED then req.failure else None))
  {
  }

  /** The statuses a report may move an attempt from, by the status it reports. */
  predicate AttemptReports(s: AttemptStatus, target: AttemptStatus) {
    match target
    case AttemptPending => false
    case AttemptStarting => s == AttemptStarting
    case AttemptActive => s in {AttemptStarting, AttemptActive}
    case AttemptCompleted => s in {AttemptActive, AttemptCompleted}
    case _ => s in {AttemptStarting, AttemptActive, target}
  }

  /** Likewise the report of an attempt, which never changes where the attempt was assigned. */
  lemma AdvanceAttemptCommitsIff(db: Db, req: AdvanceAttemptRequest)
    ensures AdvanceAttempt(db, req).db != db <==>
            && req.attempt in db.attempts && db.attempts[req.attempt].version == req.version
            && var s := db.attempts[req.attempt].status;
            && s != AttemptPending && AttemptReports(s, req.target)
            && (req.target in {AttemptFailed, AttemptTimedOut} && s != req.target ==> req.failure.Some?)
    ensures AdvanceAttempt(db, req).db != db ==>
              && AdvanceAttempt(db, req).result == Ok(req.version + 1)
              && req.attempt in AdvanceAttempt(db, req).db.attempts
              && var row := AdvanceAttempt(db, req).db.attempts[req.attempt];
              && AdvanceAttempt(db, req).db == db.(attempts := db.attempts[req.attempt := row])
              && row.status == req.target && row.version == req.version + 1
              && row.assignment == db.attempts[req.attempt].assignment
  {
    if AdvanceAttempt(db, req).result.Ok? {
      assert AdvanceAttempt(db, req).db.attempts[req.attempt].version == db.attempts[req.attempt].version + 1;
    }
  }
}
