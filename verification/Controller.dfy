/** The controller as it runs: it mutates the status it read, writes to the cluster, and patches at the end. */
module Controller {
  import opened Common
  import opened Naming
  import opened Pods
  import opened Operator
  import opened OperatorRuns
  import B = Backoff

  // ---- Loops over values ----

  /** upsertAttemptStatus: replaces the entry of the attempt or appends it, then restores the order. */
  method UpsertEntry(entries: seq<AttemptEntry>, e: AttemptEntry) returns (r: seq<AttemptEntry>)
    requires Sorted(entries)
    ensures r == Upsert(entries, e)
  {
    var i := 0;
    while i < |entries| && entries[i].attempt != e.attempt
      invariant i <= |entries| && forall k :: 0 <= k < i ==> entries[k].attempt != e.attempt
    {
      i := i + 1;
    }
    if i < |entries| {
      UpsertReplaces(entries, e, i);
      return entries[i := e];
    }
    r := InsertEntry(entries, e);
  }

  /** A new entry, moved forward from the end past every later attempt. */
  method InsertEntry(entries: seq<AttemptEntry>, e: AttemptEntry) returns (r: seq<AttemptEntry>)
    requires Sorted(entries) && forall k :: 0 <= k < |entries| ==> entries[k].attempt != e.attempt
    ensures r == Upsert(entries, e)
  {
    r := entries + [e];
    var j := |entries|;
    while j > 0 && r[j - 1].attempt > r[j].attempt
      invariant 0 <= j <= |entries| && r == entries[..j] + [e] + entries[j..]
      invariant forall k :: j <= k < |entries| ==> entries[k].attempt > e.attempt
    {
      r := r[j - 1 := r[j]][j := r[j - 1]];
      j := j - 1;
    }
    UpsertInserts(entries, e, j);
  }

  lemma {:induction false} UpsertReplaces(entries: seq<AttemptEntry>, e: AttemptEntry, i: nat)
    requires Sorted(entries) && i < |entries| && entries[i].attempt == e.attempt
    ensures Upsert(entries, e) == entries[i := e]
  {
    if i < |entries| - 1 {
      UpsertReplaces(entries[..|entries| - 1], e, i);
      assert entries[..|entries| - 1][i := e] + [entries[|entries| - 1]] == entries[i := e];
    }
  }

  lemma InsertedBeforeLast(entries: seq<AttemptEntry>, e: AttemptEntry, j: nat)
    requires j < |entries|
    ensures var init := entries[..|entries| - 1];
            init[..j] + [e] + init[j..] + [entries[|entries| - 1]] == entries[..j] + [e] + entries[j..]
  {
  }

  lemma {:induction false} UpsertInserts(entries: seq<AttemptEntry>, e: AttemptEntry, j: nat)
    requires Sorted(entries) && j <= |entries|
    requires j > 0 ==> entries[j - 1].attempt < e.attempt
    requires forall k :: j <= k < |entries| ==> entries[k].attempt > e.attempt
    ensures Upsert(entries, e) == entries[..j] + [e] + entries[j..]
  {
    if j < |entries| {
      var init := entries[..|entries| - 1];
      UpsertInserts(init, e, j);
      InsertedBeforeLast(entries, e, j);
    } else {
      assert entries[..j] == entries && entries[j..] == [];
    }
  }

  lemma {:induction false} UpsertSorted(entries: seq<AttemptEntry>, e: AttemptEntry)
    requires Sorted(entries)
    ensures Sorted(Upsert(entries, e))
    ensures forall x :: x in Upsert(entries, e) ==> x == e || x in entries
  {
    if |entries| > 0 && entries[|entries| - 1].attempt > e.attempt {
      var init := entries[..|entries| - 1];
      UpsertSorted(init, e);
      forall i | 0 <= i < |Upsert(init, e)|
        ensures Upsert(init, e)[i].attempt < entries[|entries| - 1].attempt
      {
        assert Upsert(init, e)[i] in Upsert(init, e);
      }
    }
  }

  /** retryDelay: the doubling loop, then the jitter. */
  method ComputeDelay(spec: Spec, current: nat) returns (delay: nat)
    requires ValidSpec(spec) && current >= spec.attempt
    ensures delay == RetryDelay(spec, current)
  {
    var base := B.BackoffBase(spec.initialBackoff * SECOND, spec.maxBackoff * SECOND, current - spec.attempt);
    var permille := B.Permille(if current + 1 in spec.jitter then spec.jitter[current + 1] else 0);
    delay := base * permille / 1000;
  }

  /** forceDeleteExecution on Pods: deletes exactly the Pods this Job controls, until a deletion fails. */
  method ForceDeletePods(jobName: string, job: Job, pods: seq<Pod>, failing: set<string>)
    returns (deleted: seq<string>, failed: bool)
    ensures forall n :: n in deleted ==> exists p :: p in pods && p.name == n && Controls(jobName, job, p)
    ensures !failed ==> forall p :: p in pods && Controls(jobName, job, p) ==> p.name in deleted
    ensures failed <==> exists p :: p in pods && Controls(jobName, job, p) && p.name in failing
  {
    deleted := [];
    for i := 0 to |pods|
      invariant forall n :: n in deleted ==> exists p :: p in pods && p.name == n && Controls(jobName, job, p)
      invariant forall p :: p in pods[..i] && Controls(jobName, job, p) ==> p.name in deleted && p.name !in failing
    {
      assert pods[..i + 1] == pods[..i] + [pods[i]];
      if Controls(jobName, job, pods[i]) {
        if pods[i].name in failing {
          return deleted, true;
        }
        deleted := deleted + [pods[i].name];
      }
    }
    assert pods[..|pods|] == pods;
    return deleted, false;
  }

  // ---- The reconciler ----

  class Reconciler {
    const spec: Spec
    var cancelled: bool
    var finalizer: bool
    var status: Status
    var jobs: map<string, Job>
    var writes: seq<Write>

    constructor (spec: Spec, w: World)
      ensures this.spec == spec && View() == w
    {
      this.spec := spec;
      cancelled, finalizer, status, jobs, writes := w.cancelled, w.finalizer, w.status, w.jobs, w.writes;
    }

    function View(): World
      reads this
    {
      World(cancelled, finalizer, status, jobs, writes)
    }

    /** The status and the cluster after a gate are what its effect says. */
    predicate Performed(e: Effect, made: seq<Write>, failed: bool)
      reads this
    {
      Effect(status, jobs, made, failed) == e
    }

    method SetCond(t: ConditionType, value: bool, reason: Reason, now: Instant)
      modifies this`status
      ensures status == SetCondition(old(status), t, value, reason, now)
    {
      var since := SinceOf(status, t, value, now);
      status := status.(conditions := status.conditions[t := Condition(value, reason, since)]);
    }

    method UpsertAttempt()
      requires Sorted(status.attempts)
      modifies this`status
      ensures status == Operator.UpsertAttempt(spec, old(status)) && Sorted(status.attempts)
    {
      UpsertSorted(status.attempts, EntryOf(spec, status));
      var entries := UpsertEntry(status.attempts, EntryOf(spec, status));
      status := status.(attempts := entries);
    }

    method RecordFailure(t: ConditionType, reason: Reason, permanent: bool, category: Category, now: Instant)
      modifies this`status
      ensures status == Operator.RecordFailure(old(status), t, reason, permanent, category, now)
    {
      if permanent {
        status := status.(phase := FailedPhase);
      } else {
        status := status.(phase := ProvisioningPhase);
      }
      status := status.(category := category);
      SetCond(t, false, reason, now);
      SetCond(Ready, false, reason, now);
    }

    method HandleError(t: ConditionType, reason: Reason, failure: Failure, now: Instant)
      modifies this`status
      ensures status == Operator.HandleError(old(status), t, reason, failure, now)
    {
      var category := TransientCategory;
      if failure == ResourceConflict {
        category := ConflictCategory;
      } else if failure == PermanentFailure {
        category := PolicyCategory;
      }
      RecordFailure(t, reason, failure != TransientFailure, category, now);
    }

    method ProjectLifecycle(o: Observation, now: Instant)
      requires Sorted(status.attempts)
      modifies this`status
      ensures status == Project(spec, old(status), o, now) && Sorted(status.attempts)
    {
      status := status.(phase := o.phase);
      status := status.(podName := o.podName);
      status := status.(start := o.start, completion := o.completion);
      status := status.(category := o.category, artifact := o.artifact);
      SetCond(Ready, o.phase == SucceededPhase, o.reason, now);
      UpsertAttempt();
    }

    /** ensureObject on the Job: get, check ownership, apply. */
    method EnsureJob(name: string, env: Env) returns (error: Option<Failure>)
      modifies this`jobs
      ensures (jobs, error) == Operator.EnsureJob(old(jobs), name, env)
    {
      if name in jobs {
        if !jobs[name].owned {
          return Some(ResourceConflict);
        }
        return if env.jobApply.EnsureFailed? then Some(env.jobApply.failure) else None;
      }
      if !env.jobApply.EnsureFailed? || env.jobApply.landed {
        jobs := jobs[name := FreshJob(env.freshUid)];
      }
      return if env.jobApply.EnsureFailed? then Some(env.jobApply.failure) else None;
    }

    /** observeJob, after the Job is read again. */
    method ObserveJob(name: string, job: Job, env: Env) returns (failed: bool)
      requires Sorted(status.attempts)
      modifies this`status
      ensures (status, failed) == Operator.ObserveJob(spec, old(status), name, job, env) && Sorted(status.attempts)
    {
      if env.jobReread.Fails? {
        HandleError(JobReady, JobReadFailed, env.jobReread.failure, env.now);
        return true;
      }
      if env.podList.Fails? {
        HandleError(JobReady, PodListFailed, env.podList.failure, env.now);
        return true;
      }
      ProjectLifecycle(Observe(name, job, env.pods), env.now);
      return false;
    }

    method CreateAndObserve(env: Env) returns (made: seq<Write>, failed: bool)
      requires Sorted(status.attempts)
      requires status.jobName == "" || (status.jobName == JobName(spec.runId, CurrentAttempt(spec, status)) &&
                 status.jobName in jobs)
      modifies this`status, this`jobs
      ensures Performed(Operator.CreateAndObserve(spec, old(status), old(jobs), env), made, failed)
      ensures Sorted(status.attempts)
    {
      var name := JobName(spec.runId, CurrentAttempt(spec, status));
      var before := jobs;
      var error := EnsureJob(name, env);
      made := if jobs == before then [] else [Write(JobKind, CurrentAttempt(spec, status))];
      if error.Some? {
        HandleError(JobReady, JobReconcileFailed, error.value, env.now);
        return made, true;
      }
      status := status.(jobName := name);
      SetCond(JobReady, true, JobIsReady, env.now);
      failed := ObserveJob(name, jobs[name], env);
    }

    /** The Job gate: a Job that status names must still be there. */
    method JobGate(env: Env) returns (made: seq<Write>, failed: bool)
      requires Sorted(status.attempts)
      modifies this`status, this`jobs
      ensures Performed(Operator.JobGate(spec, old(status), old(jobs), env), made, failed)
      ensures Sorted(status.attempts)
    {
      var name := JobName(spec.runId, CurrentAttempt(spec, status));
      if status.jobName != "" {
        if status.jobName != name {
          RecordFailure(JobReady, JobIdentityConflict, true, InternalCategory, env.now);
          return [], true;
        }
        if env.jobRead.Fails? {
          HandleError(JobReady, JobReadFailed, env.jobRead.failure, env.now);
          return [], true;
        }
        if name !in jobs || jobs[name].deleting {
          ProjectLifecycle(MissingJob(status), env.now);
          return [], false;
        }
      }
      made, failed := CreateAndObserve(env);
    }

    /** ensureObject on a prerequisite, and the condition it sets. */
    method EnsureObject(t: ConditionType, kind: Kind, ensured: Ensure, ready: Reason, failure: Reason, now: Instant)
      returns (made: seq<Write>, stop: Option<bool>)
      requires !IsAnchor(t) && kind != JobKind
      modifies this`status
      ensures (status, made, stop) == EnsureGate(spec, old(status), t, kind, ensured, ready, failure, now)
    {
      made := WritesOf(kind, CurrentAttempt(spec, status), ensured);
      if ensured.EnsureFailed? {
        HandleError(t, failure, ensured.failure, now);
        return made, Some(true);
      }
      SetCond(t, true, ready, now);
      return made, None;
    }

    method EnsureAccount(env: Env) returns (made: seq<Write>, stop: Option<bool>)
      modifies this`status
      ensures (status, made, stop) == AccountGate(spec, old(status), env)
    {
      if !env.builds {
        RecordFailure(ConfigurationReady, ResourceBuildFailed, true, PolicyCategory, env.now);
        return [], Some(true);
      }
      made, stop := EnsureObject(ServiceAccountReady, ServiceAccountKind, env.serviceAccount, ServiceAccountIsReady,
                                 ServiceAccountReconcileFailed, env.now);
    }

    method EnsureConfiguration(env: Env) returns (made: seq<Write>, stop: Option<bool>)
      modifies this`status
      ensures (status, made, stop) == ConfigurationGate(spec, old(status), env)
    {
      if env.references.ReferencesUnread? {
        HandleError(ConfigurationReady, ConfigurationReadFailed, env.references.failure, env.now);
        return [], Some(true);
      }
      if env.references.SomeMissing? {
        status := ReferencesHeld(status, env.now);
        status := status.(phase := ProvisioningPhase);
        return [], Some(false);
      }
      made, stop := EnsureObject(ConfigurationReady, ConfigurationKind, env.configuration, ConfigurationIsReady,
                                 ConfigurationReconcileFailed, env.now);
    }

    /** The claim's storage: bound, waiting for its first consumer, or holding the pass back. */
    method CheckStorage(env: Env) returns (stop: Option<bool>)
      modifies this`status
      ensures (status, [], stop) == StorageGate(old(status), env)
    {
      if env.storage.WorkspaceUnread? {
        HandleError(WorkspaceReady, WorkspaceReadFailed, env.storage.failure, env.now);
        return Some(true);
      }
      if env.storage.Bound? {
        SetCond(WorkspaceReady, true, WorkspaceIsReady, env.now);
        return None;
      }
      status := status.(phase := ProvisioningPhase);
      if env.storage.StorageReadFailed? {
        HandleError(WorkspaceReady, StorageClassReadFailed, env.storage.failure, env.now);
        return Some(true);
      }
      if env.storage.NotBound? {
        HoldStorage(env.now);
        return Some(false);
      }
      SetCond(WorkspaceReady, false, FirstConsumerPending, env.now);
      return None;
    }

    method HoldStorage(now: Instant)
      modifies this`status
      ensures status == StorageHeld(old(status), now)
    {
      SetCond(WorkspaceReady, false, StoragePending, now);
      SetCond(NetworkPolicyReady, false, WorkspacePending, now);
      SetCond(JobReady, false, WorkspacePending, now);
      SetCond(Ready, false, StoragePending, now);
    }

    method EnsureWorkspace(env: Env) returns (made: seq<Write>, stop: Option<bool>)
      modifies this`status
      ensures (status, made, stop) == WorkspaceGate(spec, old(status), env)
    {
      made := WritesOf(WorkspaceKind, CurrentAttempt(spec, status), env.workspace);
      if env.workspace.EnsureFailed? {
        HandleError(WorkspaceReady, WorkspaceReconcileFailed, env.workspace.failure, env.now);
        return made, Some(true);
      }
      stop := CheckStorage(env);
    }

    /** The gates before the Job, one after the other. */
    method EnsurePrerequisites(env: Env) returns (made: seq<Write>, stop: Option<bool>)
      modifies this`status
      ensures (status, made, stop) == Gates(spec, old(status), env)
    {
      made, stop := EnsureAccount(env);
      if stop.Some? {
        return;
      }
      var applied;
      applied, stop := EnsureConfiguration(env);
      made := made + applied;
      if stop.Some? {
        return;
      }
      applied, stop := EnsureWorkspace(env);
      if stop.Some? {
        return made + applied, stop;
      }
      var network;
      network, stop := EnsureObject(NetworkPolicyReady, NetworkPolicyKind, env.networkPolicy, NetworkPolicyIsReady,
                                    NetworkPolicyReconcileFailed, env.now);
      return made + applied + network, stop;
    }

    /** reconcilePrerequisites */
    method ReconcilePrerequisites(env: Env) returns (made: seq<Write>, failed: bool)
      requires Sorted(status.attempts)
      modifies this`status, this`jobs
      ensures Performed(Prerequisites(spec, old(status), old(jobs), env), made, failed)
      ensures Sorted(status.attempts)
    {
      var applied, stop := EnsurePrerequisites(env);
      if stop.Some? {
        return applied, stop.value;
      }
      var created, error := JobGate(env);
      return applied + created, error;
    }

    // ---- Retry ----

    method HoldBack(now: Instant)
      modifies this`status
      ensures status == HeldBack(old(status), now)
    {
      SetCond(RetryReady, false, BackoffPending, now);
      SetCond(Ready, false, RetryBackoff, now);
    }

    method StartNextAttempt(now: Instant)
      requires Sorted(status.attempts)
      modifies this`status
      ensures status == Advanced(spec, old(status), now) && Sorted(status.attempts)
    {
      status := status.(attempt := CurrentAttempt(spec, status) + 1, phase := PendingPhase);
      status := status.(jobName := "", podName := "");
      status := status.(start := None, completion := None);
      status := status.(category := NoCategory, artifact := "");
      SetCond(RetryReady, true, RetryStarted, now);
      SetCond(JobReady, false, RetryPending, now);
      SetCond(Ready, false, RetryPending, now);
      UpsertAttempt();
    }

    /** When the next attempt may start. */
    method ComputeReadyAt(now: Instant) returns (readyAt: Time)
      requires ValidSpec(spec)
      ensures readyAt == ReadyAt(spec, status, now)
    {
      var anchor := RetryAnchor(status);
      var delay := ComputeDelay(spec, CurrentAttempt(spec, status));
      readyAt := (if anchor.Some? then anchor.value else now) + delay;
    }

    method ReconcileRetry(now: Instant)
      requires ValidSpec(spec) && Sorted(status.attempts)
      modifies this`status
      ensures status == Operator.ReconcileRetry(spec, old(status), now) && Sorted(status.attempts)
    {
      var readyAt := ComputeReadyAt(now);
      if readyAt > now {
        HoldBack(now);
      } else {
        StartNextAttempt(now);
      }
    }

    // ---- Cancellation ----

    method Mark(complete: bool, reason: Reason, others: Reason, now: Instant)
      modifies this`status
      ensures status == Marked(old(status), complete, reason, others, now)
    {
      SetCond(CancellationComplete, complete, reason, now);
      SetCond(JobReady, false, others, now);
      SetCond(Ready, false, others, now);
    }

    method CompleteCancellation(forced: bool, now: Instant)
      requires Sorted(status.attempts)
      modifies this`status
      ensures status == Complete(spec, old(status), forced, now) && Sorted(status.attempts)
    {
      status := status.(phase := CancelledPhase);
      if status.completion.None? {
        status := status.(completion := Some(now));
      }
      Mark(true, if forced then ForcedCancellation else GracefulCancellation, ExecutionCancelled, now);
      UpsertAttempt();
    }

    method RecordCancellationError(reason: Reason, failure: Failure, now: Instant)
      requires Sorted(status.attempts)
      modifies this`status
      ensures status == CancelError(spec, old(status), reason, failure, now) && Sorted(status.attempts)
    {
      var category := TransientCategory;
      if failure == PermanentFailure {
        category := PolicyCategory;
      }
      if reason == CancellationJobConflict {
        category := InternalCategory;
      }
      status := status.(phase := CancellingPhase, category := category);
      SetCond(CancellationComplete, false, reason, now);
      SetCond(Ready, false, reason, now);
      UpsertAttempt();
    }

    /** From the anchor to the deletion: projects Cancelling, then deletes gracefully or by force. */
    method TerminateJob(env: Env) returns (failed: bool)
      requires Sorted(status.attempts) && status.jobName in jobs
      modifies this`status, this`jobs
      ensures Performed(Terminate(spec, old(status), old(jobs), env), [], failed) && Sorted(status.attempts)
    {
      var name := status.jobName;
      var started := CancellationStartedAt(status);
      var forced := env.now >= (if started.Some? then started.value else env.now) + CANCELLATION_DEADLINE;
      status := status.(phase := CancellingPhase);
      var reason := if forced then ForcedTerminationPending else GracefulTerminationPending;
      Mark(false, reason, CancellationInProgress, env.now);
      UpsertAttempt();
      var error := DeletionError(forced, jobs[name].deleting, env);
      if error.Some? {
        var cause := if forced then ForcedCancellationFailed else GracefulCancellationFailed;
        RecordCancellationError(cause, error.value, env.now);
        return true;
      }
      jobs := jobs[name := jobs[name].(deleting := true)];
      return false;
    }

    method ReconcileCancellation(env: Env) returns (failed: bool)
      requires Sorted(status.attempts)
      modifies this`status, this`jobs
      ensures Performed(Cancellation(spec, old(status), old(jobs), env), [], failed) && Sorted(status.attempts)
    {
      if status.jobName == "" {
        CompleteCancellation(false, env.now);
        return false;
      }
      var name := JobName(spec.runId, CurrentAttempt(spec, status));
      if status.jobName != name {
        RecordCancellationError(CancellationJobConflict, PermanentFailure, env.now);
        return true;
      }
      if env.jobRead.Fails? {
        RecordCancellationError(CancellationJobReadFailed, env.jobRead.failure, env.now);
        return true;
      }
      if name !in jobs {
        CompleteCancellation(WasForced(status, env.now), env.now);
        return false;
      }
      if !jobs[name].deleting {
        if env.podList.Fails? {
          RecordCancellationError(CancellationPodReadFailed, env.podList.failure, env.now);
          return true;
        }
        var o := Observe(name, jobs[name], env.pods);
        if o.phase in {SucceededPhase, FailedPhase} {
          ProjectLifecycle(o, env.now);
          return false;
        }
      }
      failed := TerminateJob(env);
    }

    // ---- One pass ----

    method InitializeStatus(now: Instant)
      modifies this`status
      ensures status == Initialized(spec, old(status), now)
    {
      if status.phase == NoPhase {
        status := status.(phase := PendingPhase);
      }
      if status.attempt == 0 {
        status := status.(attempt := spec.attempt);
      }
      SetCond(SpecValid, true, Accepted, now);
    }

    method InitializeAcceptedStatus(now: Instant)
      modifies this`status
      ensures status == AcceptedStatus(spec, old(status), now)
    {
      InitializeStatus(now);
      status := status.(category := NoCategory);
      SetCond(Ready, false, ReconciliationPending, now);
      status := SetIfAbsent(status, ServiceAccountReady, now);
      status := SetIfAbsent(status, ConfigurationReady, now);
      status := SetIfAbsent(status, WorkspaceReady, now);
      status := SetIfAbsent(status, NetworkPolicyReady, now);
      status := SetIfAbsent(status, JobReady, now);
    }

    method ReconcileRunning(env: Env) returns (made: seq<Write>, failed: bool)
      requires ValidSpec(spec) && Sorted(status.attempts)
      modifies this`status, this`jobs
      ensures Performed(RunningPass(spec, old(status), old(jobs), env), made, failed) && Sorted(status.attempts)
    {
      InitializeAcceptedStatus(env.now);
      made, failed := ReconcilePrerequisites(env);
      if !failed && RetryAllowed(spec, status) {
        ReconcileRetry(env.now);
      }
    }

    /** A pass on an attempt that has ended. */
    method ReconcileEnded(now: Instant)
      requires ValidSpec(spec) && Sorted(status.attempts)
      modifies this`status
      ensures !cancelled && RetryAllowed(spec, old(status)) ==>
                status == Operator.ReconcileRetry(spec, old(status), now)
      ensures cancelled || !RetryAllowed(spec, old(status)) ==>
                status == SetCondition(old(status), SpecValid, true, Accepted, now)
      ensures Sorted(status.attempts)
    {
      if !cancelled && RetryAllowed(spec, status) {
        ReconcileRetry(now);
      } else {
        SetCond(SpecValid, true, Accepted, now);
      }
    }

    method ReconcileCancelled(env: Env) returns (failed: bool)
      requires ValidSpec(spec) && Sorted(status.attempts)
      modifies this`status, this`jobs
      ensures Performed(Cancellation(spec, Initialized(spec, old(status), env.now), old(jobs), env), [], failed)
      ensures Sorted(status.attempts)
    {
      InitializeStatus(env.now);
      failed := ReconcileCancellation(env);
    }

    /** The status a pass computes and the cluster writes it makes. */
    method ReconcileStatus(env: Env) returns (made: seq<Write>, failed: bool)
      requires ValidSpec(spec) && Sorted(status.attempts)
      modifies this`status, this`jobs
      ensures Performed(Operator.Reconcile(spec, cancelled, old(status), old(jobs), env), made, failed)
      ensures Sorted(status.attempts)
    {
      made, failed := [], false;
      if AttemptTerminal(spec, status) {
        ReconcileEnded(env.now);
      } else if cancelled {
        failed := ReconcileCancelled(env);
      } else {
        made, failed := ReconcileRunning(env);
      }
    }

    /** One pass over the persisted object: a status that is not patched is lost, cluster writes are not. */
    method Reconcile(env: Env)
      requires ValidSpec(spec) && Sorted(status.attempts)
      modifies this
      ensures View() == Apply(spec, old(View()), PassStep(env)) && Sorted(status.attempts)
    {
      if spec.retain && !finalizer {
        if !env.finalizerWrite {
          return;
        }
        finalizer := true;
      }
      var before := status;
      var made, _ := ReconcileStatus(env);
      writes := writes + made;
      if !env.patchLands {
        status := before;
      }
    }
  }
}
