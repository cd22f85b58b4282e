/** The run and attempt rows, and the authoritative lifecycle graphs over them. */
module RunDomain {
  import opened Common

  datatype RunStatus =
    | Queued | Scheduling | CapacityWait | Provisioning | Running | Testing | Building | Scanning
    | ReadyToDeploy | Deploying | Cancelling | Succeeded | Cancelled | ProvisioningFailed
    | ExecutionFailed | BuildFailed | PolicyRejected | DeploymentFailed | TimedOut

  datatype AttemptStatus =
    | AttemptPending | AttemptStarting | AttemptActive | AttemptCompleted | AttemptFailed
    | AttemptCancelled | AttemptTimedOut

  datatype FailureCategory =
    | ValidationFailure | AuthenticationFailure | AuthorizationFailure | QuotaFailure | ConflictFailure
    | TransientDependency | PermanentDependency | ExecutionFailure | PolicyFailure | InternalFailure

  type RunId = nat
  type AttemptId = (RunId, nat)

  datatype Lease = Lease(owner: string, expiresAt: Time)
  datatype Verdict = Verdict(code: string, reason: string)
  datatype Placement = Placement(strategy: string, score: nat)
  datatype CommandKind = CancelCommand | RetryCommand

  /** The last accepted API command on a run and the response it was answered with. */
  datatype Receipt = Receipt(kind: CommandKind, id: string, status: RunStatus, attemptCount: nat)

  /** One row of agent_runs. A run's identifier is its position in the table; key is the caller's idempotency key. */
  datatype Run = Run(
    tenant: nat, project: nat, prompt: string, runtime: string, profile: string,
    cpu: nat, memory: nat, timeout: nat, maxAttempts: nat, attemptCount: nat,
    status: RunStatus, failure: Option<FailureCategory>, version: nat,
    createdBy: string, key: string, priority: int, createdAt: Time, completedAt: Option<Time>,
    cancelRequestedAt: Option<Time>, lease: Option<Lease>, nextEligible: Option<Time>, verdict: Option<Verdict>,
    placement: Option<Placement>, receipt: Option<Receipt>)

  /** The four assignment columns, which the schema keeps all null or all set. */
  datatype Assignment = Assignment(cluster: string, profile: string, capacity: nat, budget: nat)

  /** One row of agent_run_attempts, keyed by its unique (run, attempt number). */
  datatype Attempt = Attempt(
    tenant: nat, status: AttemptStatus, failure: Option<FailureCategory>, version: nat,
    assignment: Option<Assignment>, startedAt: Option<Time>, completedAt: Option<Time>)

  predicate IsTerminal(s: RunStatus) {
    s in {Succeeded, Cancelled, ProvisioningFailed, ExecutionFailed, BuildFailed, PolicyRejected,
          DeploymentFailed, TimedOut}
  }

  /** The terminal statuses that carry a failure category. */
  predicate IsFailure(s: RunStatus) {
    IsTerminal(s) && s != Succeeded && s != Cancelled
  }

  /** Statuses no edge leaves. */
  predicate IsAbsorbing(s: RunStatus) {
    s in {Succeeded, Cancelled, PolicyRejected}
  }

  /** Statuses a scheduler may still have to decide on. */
  predicate IsWaiting(s: RunStatus) {
    s in {Queued, Scheduling, CapacityWait}
  }

  /** Statuses that consume tenant quota. */
  predicate IsActive(s: RunStatus) {
    s in {Provisioning, Running, Testing, Building, Scanning, ReadyToDeploy, Deploying, Cancelling}
  }

  predicate CanRetry(run: Run) {
    IsTerminal(run.status) && run.attemptCount < run.maxAttempts && run.failure == Some(TransientDependency)
  }

  predicate CanTransition(run: Run, target: RunStatus) {
    if run.status == target then true
    else if target == Cancelling then !IsTerminal(run.status)
    else match run.status
      case Queued => target == Scheduling
      case Scheduling => target in {CapacityWait, Provisioning, PolicyRejected, TimedOut}
      case CapacityWait => target in {Scheduling, TimedOut}
      case Provisioning => target in {Running, ProvisioningFailed, TimedOut}
      case Running => target in {Testing, ExecutionFailed, TimedOut}
      case Testing => target in {Building, ExecutionFailed, TimedOut}
      case Building => target in {Scanning, BuildFailed, TimedOut}
      case Scanning => target in {ReadyToDeploy, PolicyRejected, TimedOut}
      case ReadyToDeploy => target == Deploying
      case Deploying => target in {Succeeded, DeploymentFailed, TimedOut}
      case Cancelling => target == Cancelled
      case ProvisioningFailed => target == Queued && CanRetry(run)
      case ExecutionFailed => target == Queued && CanRetry(run)
      case BuildFailed => target == Queued && CanRetry(run)
      case DeploymentFailed => target == Queued && CanRetry(run)
      case TimedOut => target == Queued && CanRetry(run)
      case _ => false
  }

  datatype TransitionError = InvalidTransition | FailureRequired

  /** What Transition leaves in the row, or why it refuses. */
  function Transitioned(run: Run, target: RunStatus, failure: Option<FailureCategory>, now: Time)
    : (r: Result<Run, TransitionError>)
    ensures r.Ok? ==> CanTransition(run, target) && r.value.status == target
    ensures r.Ok? && (run.completedAt.Some? <==> IsTerminal(run.status)) ==>
              (r.value.completedAt.Some? <==> IsTerminal(target))
    ensures r.Ok? && 1 <= run.attemptCount <= run.maxAttempts ==>
              1 <= r.value.attemptCount <= r.value.maxAttempts
  {
    if !CanTransition(run, target) then Err(InvalidTransition)
    else if target == run.status then Ok(run)
    else if IsFailure(target) && failure.None? then Err(FailureRequired)
    else if target == Queued && IsTerminal(run.status) then
      Ok(run.(status := target, attemptCount := run.attemptCount + 1, failure := None, completedAt := None))
    else if IsTerminal(target) then
      Ok(run.(status := target, completedAt := Some(now), failure := failure))
    else Ok(run.(status := target))
  }

  predicate IsAttemptTerminal(s: AttemptStatus) {
    s in {AttemptCompleted, AttemptFailed, AttemptCancelled, AttemptTimedOut}
  }

  predicate CanAttemptTransition(attempt: Attempt, target: AttemptStatus) {
    attempt.status == target ||
    match attempt.status
    case AttemptPending => target in {AttemptStarting, AttemptCancelled, AttemptTimedOut}
    case AttemptStarting => target in {AttemptActive, AttemptFailed, AttemptCancelled, AttemptTimedOut}
    case AttemptActive => target in {AttemptCompleted, AttemptFailed, AttemptCancelled, AttemptTimedOut}
    case _ => false
  }

  function AttemptTransitioned(attempt: Attempt, target: AttemptStatus, failure: Option<FailureCategory>, now: Time)
    : (r: Result<Attempt, TransitionError>)
    ensures r.Ok? ==> CanAttemptTransition(attempt, target) && r.value.status == target
    ensures r.Ok? ==> r.value.assignment == attempt.assignment
  {
    if !CanAttemptTransition(attempt, target) then Err(InvalidTransition)
    else if target == attempt.status then Ok(attempt)
    else if target in {AttemptFailed, AttemptTimedOut} && failure.None? then Err(FailureRequired)
    else
      var started := if target == AttemptActive then attempt.(startedAt := Some(now)) else attempt;
      var failed :=
        if target in {AttemptFailed, AttemptTimedOut} then started.(failure := failure) else started;
      var done :=
        if IsAttemptTerminal(target) then failed.(completedAt := Some(now)) else failed;
      Ok(done.(status := target))
  }

  /** The AgentRun aggregate, whose Transition changes the receiver in place. */
  class AgentRunAggregate {
    var run: Run

    constructor (row: Run)
      ensures run == row
    {
      run := row;
    }

    method Transition(target: RunStatus, failure: Option<FailureCategory>, now: Time)
      returns (error: Option<TransitionError>)
      modifies this
      ensures match Transitioned(old(run), target, failure, now)
              case Ok(row) => error == None && run == row
              case Err(e) => error == Some(e) && run == old(run)
    {
      if !CanTransition(run, target) {
        return Some(InvalidTransition);
      }
      if target == run.status {
        return None;
      }
      if IsTerminal(target) && target != Succeeded && target != Cancelled {
        if failure.None? {
          return Some(FailureRequired);
        }
      }
      if target == Queued && IsTerminal(run.status) {
        run := run.(attemptCount := run.attemptCount + 1);
        run := run.(failure := None);
        run := run.(completedAt := None);
      } else if IsTerminal(target) {
        run := run.(completedAt := Some(now));
        run := run.(failure := failure);
      }
      run := run.(status := target);
      return None;
    }
  }
}
