/**
 One reconcile pass of the operator, as a function from the snapshot it read, the clock and the outcome of each
 API call to the status it wants to persist and the cluster writes it made.
 */
module Operator {
  import opened Common
  import opened Naming
  import opened Pods
  import B = Backoff

  // ---- Spec and status ----

  /** The immutable part of the spec. jitter is the SHA-256 value of the run identifier and attempt. */
  datatype Spec = Spec(
    runId: string, uid: string, attempt: nat, maxAttempts: nat, initialBackoff: nat, maxBackoff: nat,
    retryable: set<Category>, retain: bool, jitter: map<nat, nat>)

  /** What admission and validateAgentRun guarantee. */
  predicate ValidSpec(spec: Spec) {
    && 1 <= spec.attempt <= spec.maxAttempts <= 10
    && 1 <= spec.initialBackoff <= 3600 && spec.initialBackoff <= spec.maxBackoff <= 21600
    && spec.retryable <= {TransientCategory, InternalCategory}
  }

  datatype ConditionType =
    | SpecValid | ServiceAccountReady | ConfigurationReady | WorkspaceReady | NetworkPolicyReady | JobReady | Ready
    | CancellationComplete | RetryReady | CleanupPending

  /** What the controller's clock reads: never the zero time. */
  type Instant = t: nat | t > 0 witness 1

  datatype Condition = Condition(status: bool, reason: Reason, since: Instant)

  datatype AttemptEntry = AttemptEntry(
    attempt: nat, jobName: string, podName: string, phase: Phase, start: Option<Time>, completion: Option<Time>,
    category: Category, artifact: string)

  datatype Status = Status(
    phase: Phase, attempt: nat, jobName: string, podName: string, start: Option<Time>, completion: Option<Time>,
    category: Category, artifact: string, conditions: map<ConditionType, Condition>, attempts: seq<AttemptEntry>)

  function CurrentAttempt(spec: Spec, s: Status): nat {
    if s.attempt >= spec.attempt then s.attempt else spec.attempt
  }

  function ConditionOf(s: Status, t: ConditionType): Option<Condition> {
    if t in s.conditions then Some(s.conditions[t]) else None
  }

  /** meta.SetStatusCondition: the transition time moves only when the status does. */
  function SetCondition(s: Status, t: ConditionType, status: bool, reason: Reason, now: Instant): (r: Status)
    ensures r == s.(conditions := r.conditions)
    ensures forall u :: u != t ==> ConditionOf(r, u) == ConditionOf(s, u)
    ensures ConditionOf(r, t) == Some(Condition(status, reason, SinceOf(s, t, status, now)))
  {
    s.(conditions := s.conditions[t := Condition(status, reason, SinceOf(s, t, status, now))])
  }

  function SinceOf(s: Status, t: ConditionType, status: bool, now: Instant): Instant {
    if t in s.conditions && s.conditions[t].status == status then s.conditions[t].since else now
  }

  /** The two conditions whose transition times anchor deadlines are as they were. */
  predicate KeepsAnchors(s: Status, r: Status) {
    && ConditionOf(r, CancellationComplete) == ConditionOf(s, CancellationComplete)
    && ConditionOf(r, RetryReady) == ConditionOf(s, RetryReady)
  }

  predicate IsAnchor(t: ConditionType) {
    t == CancellationComplete || t == RetryReady
  }

  // ---- Attempt history ----

  function EntryOf(spec: Spec, s: Status): AttemptEntry {
    AttemptEntry(CurrentAttempt(spec, s), s.jobName, s.podName, s.phase, s.start, s.completion, s.category, s.artifact)
  }

  /** Replaces the entry of the same attempt, or inserts the new one in order. */
  function Upsert(entries: seq<AttemptEntry>, e: AttemptEntry): seq<AttemptEntry> {
    if |entries| == 0 then [e]
    else
      var last := entries[|entries| - 1];
      if last.attempt == e.attempt then entries[|entries| - 1 := e]
      else if last.attempt < e.attempt then entries + [e]
      else Upsert(entries[..|entries| - 1], e) + [last]
  }

  lemma {:induction false} UpsertTwice(entries: seq<AttemptEntry>, a: AttemptEntry, b: AttemptEntry)
    requires a.attempt == b.attempt
    ensures Upsert(Upsert(entries, a), b) == Upsert(entries, b)
  {
    if |entries| > 0 && entries[|entries| - 1].attempt > a.attempt {
      UpsertTwice(entries[..|entries| - 1], a, b);
      assert Upsert(entries, a)[..|Upsert(entries, a)| - 1] == Upsert(entries[..|entries| - 1], a);
    }
  }

  predicate Sorted(entries: seq<AttemptEntry>) {
    forall i, j :: 0 <= i < j < |entries| ==> entries[i].attempt < entries[j].attempt
  }

  function UpsertAttempt(spec: Spec, s: Status): Status {
    s.(attempts := Upsert(s.attempts, EntryOf(spec, s)))
  }

  // ---- Failures ----

  /** How an API call that failed is classified. */
  datatype Failure = ResourceConflict | PermanentFailure | TransientFailure

  /** Where a pass stops before its Job, and what it leaves in the status. */
  datatype Stop = Stop(condition: ConditionType, reason: Reason, phase: Phase, category: Category, failed: bool)

  /** A conflict and a permanent failure end the attempt; a transient one is tried again by the next pass. */
  function Broken(t: ConditionType, reason: Reason, f: Failure): Stop {
    match f
    case ResourceConflict => Stop(t, reason, FailedPhase, ConflictCategory, true)
    case PermanentFailure => Stop(t, reason, FailedPhase, PolicyCategory, true)
    case TransientFailure => Stop(t, reason, ProvisioningPhase, TransientCategory, true)
  }

  predicate IsFalse(s: Status, t: ConditionType, reason: Reason) {
    t in s.conditions && !s.conditions[t].status && s.conditions[t].reason == reason
  }

  /** The status says where the pass stopped. */
  predicate Shows(s: Status, stop: Stop) {
    && s.phase == stop.phase && s.category == stop.category && IsFalse(s, stop.condition, stop.reason)
    && Ready in s.conditions && !s.conditions[Ready].status
  }

  function RecordFailure(s: Status, t: ConditionType, reason: Reason, permanent: bool, category: Category,
      now: Instant): (r: Status)
    ensures r == s.(phase := r.phase, category := r.category, conditions := r.conditions)
    ensures r.phase in {ProvisioningPhase, FailedPhase} && (!IsAnchor(t) ==> KeepsAnchors(s, r))
    ensures Shows(r, Stop(t, reason, if permanent then FailedPhase else ProvisioningPhase, category, true))
  {
    var failed := s.(phase := if permanent then FailedPhase else ProvisioningPhase, category := category);
    SetCondition(SetCondition(failed, t, false, reason, now), Ready, false, reason, now)
  }

  function HandleError(s: Status, t: ConditionType, reason: Reason, f: Failure, now: Instant): (r: Status)
    ensures r == s.(phase := r.phase, category := r.category, conditions := r.conditions)
    ensures r.phase in {ProvisioningPhase, FailedPhase} && (!IsAnchor(t) ==> KeepsAnchors(s, r))
    ensures Shows(r, Broken(t, reason, f))
  {
    match f
    case ResourceConflict => RecordFailure(s, t, reason, true, ConflictCategory, now)
    case PermanentFailure => RecordFailure(s, t, reason, true, PolicyCategory, now)
    case TransientFailure => RecordFailure(s, t, reason, false, TransientCategory, now)
  }

  // ---- The outside of a pass ----

  /** Outcome of ensureObject on a prerequisite; a failed apply may still have landed. */
  datatype Ensure = AlreadyThere | Applied | EnsureFailed(failure: Failure, landed: bool)

  datatype Storage = Bound | AwaitsConsumer | NotBound | StorageReadFailed(failure: Failure)
      | WorkspaceUnread(failure: Failure)

  datatype References = AllPresent | SomeMissing | ReferencesUnread(failure: Failure)

  /** Outcome of a call that only succeeds or fails. */
  datatype Call = Done | Fails(failure: Failure)

  /**
   Everything one pass meets: the clock, what each call answers, the Pods it would list, and whether its status
   patch lands. A crash anywhere after the cluster writes is a patch that does not land.
   */
  datatype Env = Env(
    now: Instant, builds: bool, serviceAccount: Ensure, references: References, configuration: Ensure,
    workspace: Ensure,
    storage: Storage, networkPolicy: Ensure, jobRead: Call, jobApply: Ensure, jobReread: Call, podList: Call,
    pods: seq<Pod>, freshUid: nat, forcedPods: Call, jobDelete: Call, finalizerWrite: bool, patchLands: bool)

  datatype Kind = ServiceAccountKind | ConfigurationKind | WorkspaceKind | NetworkPolicyKind | JobKind

  /** A resource the operator created or applied. */
  datatype Write = Write(kind: Kind, attempt: nat)

  function WritesOf(kind: Kind, attempt: nat, e: Ensure): seq<Write> {
    if e.Applied? || (e.EnsureFailed? && e.landed) then [Write(kind, attempt)] else []
  }

  datatype Effect = Effect(status: Status, jobs: map<string, Job>, writes: seq<Write>, failed: bool)

  // ---- Lifecycle projection ----

  /** The status holds exactly what was observed, and is ready exactly on success. */
  predicate Records(s: Status, o: Observation) {
    && s.phase == o.phase && s.podName == o.podName && s.start == o.start && s.completion == o.completion
    && s.category == o.category && s.artifact == o.artifact
    && Ready in s.conditions && s.conditions[Ready].status == (o.phase == SucceededPhase)
    && s.conditions[Ready].reason == o.reason
  }

  function Project(spec: Spec, s: Status, o: Observation, now: Instant): (r: Status)
    ensures r.attempt == s.attempt && r.jobName == s.jobName && Records(r, o)
    ensures KeepsAnchors(s, r) && r.attempts == Upsert(s.attempts, EntryOf(spec, r))
  {
    var projected := s.(phase := o.phase, podName := o.podName, start := o.start, completion := o.completion,
                        category := o.category, artifact := o.artifact);
    UpsertAttempt(spec, SetCondition(projected, Ready, o.phase == SucceededPhase, o.reason, now))
  }

  function MissingJob(s: Status): Observation {
    Observation(FailedPhase, JobMissing, s.podName, s.start, s.completion, InternalCategory, "")
  }

  // ---- Prerequisites ----

  function FreshJob(uid: nat): Job {
    Job(uid, false, true, None, None, None, None, false, 0, 0, 0)
  }

  /** Observation of the Job the pass just ensured. */
  function ObserveJob(spec: Spec, s: Status, name: string, job: Job, env: Env): (r: (Status, bool))
    ensures r.0.attempt == s.attempt && r.0.jobName == s.jobName && KeepsAnchors(s, r.0)
    ensures r.1 ==> r.0.attempts == s.attempts
    ensures !r.1 ==> r.0.attempts == Upsert(s.attempts, EntryOf(spec, r.0))
    ensures r.0.phase == SucceededPhase ==> Observe(name, job, env.pods).phase == SucceededPhase
    ensures r.0.phase != CancelledPhase
    ensures r.1 <==> env.jobReread.Fails? || env.podList.Fails?
    ensures env.jobReread.Fails? ==> Shows(r.0, Broken(JobReady, JobReadFailed, env.jobReread.failure))
    ensures !env.jobReread.Fails? && env.podList.Fails? ==>
              Shows(r.0, Broken(JobReady, PodListFailed, env.podList.failure))
    ensures !r.1 ==> Records(r.0, Observe(name, job, env.pods))
  {
    if env.jobReread.Fails? then (HandleError(s, JobReady, JobReadFailed, env.jobReread.failure, env.now), true)
    else if env.podList.Fails? then (HandleError(s, JobReady, PodListFailed, env.podList.failure, env.now), true)
    else (Project(spec, s, Observe(name, job, env.pods), env.now), false)
  }

  /** ensureObject on the Job: creates it exactly when the cluster holds none and the apply lands. */
  function EnsureJob(jobs: map<string, Job>, name: string, env: Env): (r: (map<string, Job>, Option<Failure>))
    ensures r.1.None? ==> name in r.0
    ensures r.0 == jobs || (name !in jobs && r.0 == jobs[name := FreshJob(env.freshUid)])
    ensures r.0 == jobs || r.0.Keys == jobs.Keys + {name}
  {
    if name in jobs then
      (jobs, if !jobs[name].owned then Some(ResourceConflict)
             else if env.jobApply.EnsureFailed? then Some(env.jobApply.failure) else None)
    else
      (if env.jobApply.EnsureFailed? && !env.jobApply.landed then jobs else jobs[name := FreshJob(env.freshUid)],
       if env.jobApply.EnsureFailed? then Some(env.jobApply.failure) else None)
  }

  /** The pass saw the attempt's Job succeed, with evidence. */
  predicate SeenSucceeded(spec: Spec, s: Status, jobs: map<string, Job>, env: Env) {
    var name := JobName(spec.runId, CurrentAttempt(spec, s));
    name in jobs && Observe(name, jobs[name], env.pods).phase == SucceededPhase
  }

  /** Terminal phases a prerequisite pass reaches: success only by evidence, cancellation never. */
  predicate PhaseFrame(spec: Spec, s: Status, e: Effect, env: Env) {
    && (e.status.phase == SucceededPhase ==> s.phase == SucceededPhase || SeenSucceeded(spec, s, e.jobs, env))
    && (e.status.phase == CancelledPhase ==> s.phase == CancelledPhase)
  }

  /** What the Job gate leaves as it was. */
  predicate JobGateFrame(spec: Spec, s: Status, jobs: map<string, Job>, e: Effect) {
    var name := JobName(spec.runId, CurrentAttempt(spec, s));
    && e.status.attempt == s.attempt && KeepsAnchors(s, e.status)
    && e.status.jobName in {s.jobName, name}
    && (e.jobs != jobs ==> s.jobName == "" && name !in jobs && e.jobs.Keys == jobs.Keys + {name})
    && e.writes == (if e.jobs == jobs then [] else [Write(JobKind, CurrentAttempt(spec, s))])
    && (e.status.attempts == s.attempts || e.status.attempts == Upsert(s.attempts, EntryOf(spec, e.status)))
  }

  /** The Job is named in the status and observed. */
  function NameAndObserve(spec: Spec, s: Status, name: string, job: Job, env: Env): (r: (Status, bool))
    ensures r.0.attempt == s.attempt && r.0.jobName == name && KeepsAnchors(s, r.0)
    ensures r.0.attempts == s.attempts || r.0.attempts == Upsert(s.attempts, EntryOf(spec, r.0))
    ensures r.0.phase == SucceededPhase ==> Observe(name, job, env.pods).phase == SucceededPhase
    ensures r.0.phase != CancelledPhase
  {
    ObserveJob(spec, SetCondition(s.(jobName := name), JobReady, true, JobIsReady, env.now), name, job, env)
  }

  function CreateAndObserve(spec: Spec, s: Status, jobs: map<string, Job>, env: Env): (e: Effect)
    requires s.jobName == "" || (s.jobName == JobName(spec.runId, CurrentAttempt(spec, s)) && s.jobName in jobs)
    ensures JobGateFrame(spec, s, jobs, e) && PhaseFrame(spec, s, e, env)
  {
    var name := JobName(spec.runId, CurrentAttempt(spec, s));
    var (after, error) := EnsureJob(jobs, name, env);
    var writes := if after == jobs then [] else [Write(JobKind, CurrentAttempt(spec, s))];
    if error.Some? then Effect(HandleError(s, JobReady, JobReconcileFailed, error.value, env.now), after, writes, true)
    else
      var (status, failed) := NameAndObserve(spec, s, name, after[name], env);
      Effect(status, after, writes, failed)
  }

  /** A Job that status names and that the pass cannot go on with: not the attempt's, unread, or gone. */
  function NamedJobHeld(spec: Spec, s: Status, jobs: map<string, Job>, env: Env): (e: Effect)
    requires s.jobName != ""
    ensures e.jobs == jobs && e.writes == [] && JobGateFrame(spec, s, jobs, e)
    ensures e.status.phase in {ProvisioningPhase, FailedPhase}
  {
    if s.jobName != JobName(spec.runId, CurrentAttempt(spec, s)) then
      Effect(RecordFailure(s, JobReady, JobIdentityConflict, true, InternalCategory, env.now), jobs, [], true)
    else if env.jobRead.Fails? then
      Effect(HandleError(s, JobReady, JobReadFailed, env.jobRead.failure, env.now), jobs, [], true)
    else Effect(Project(spec, s, MissingJob(s), env.now), jobs, [], false)
  }

  /** The last gate: a Job that status names must still be there; otherwise it is created if the cluster holds none. */
  function JobGate(spec: Spec, s: Status, jobs: map<string, Job>, env: Env): (e: Effect)
    ensures JobGateFrame(spec, s, jobs, e) && PhaseFrame(spec, s, e, env)
  {
    var name := JobName(spec.runId, CurrentAttempt(spec, s));
    if s.jobName != "" && (s.jobName != name || env.jobRead.Fails? || name !in jobs || jobs[name].deleting)
    then NamedJobHeld(spec, s, jobs, env)
    else CreateAndObserve(spec, s, jobs, env)
  }

  /** What every prerequisite step leaves as it was, and when a Job can have been created. */
  predicate PrerequisiteFrame(spec: Spec, s: Status, jobs: map<string, Job>, e: Effect) {
    var name := JobName(spec.runId, CurrentAttempt(spec, s));
    && e.status.attempt == s.attempt && KeepsAnchors(s, e.status)
    && e.status.jobName in {s.jobName, name}
    && (e.jobs != jobs ==> s.jobName == "" && name !in jobs && e.jobs.Keys == jobs.Keys + {name})
    && (forall w :: w in e.writes && w.kind == JobKind ==> e.jobs != jobs && w.attempt == CurrentAttempt(spec, s))
    && (e.jobs != jobs ==> Write(JobKind, CurrentAttempt(spec, s)) in e.writes)
    && (e.status.attempts == s.attempts || e.status.attempts == Upsert(s.attempts, EntryOf(spec, e.status)))
  }

  /** What keeps a pass from its Job, gate by gate. */
  function AccountStop(env: Env): Option<Stop> {
    if !env.builds then Some(Stop(ConfigurationReady, ResourceBuildFailed, FailedPhase, PolicyCategory, true))
    else EnsureStop(ServiceAccountReady, ServiceAccountReconcileFailed, env.serviceAccount)
  }

  function ConfigurationStop(env: Env): Option<Stop> {
    match env.references
    case ReferencesUnread(f) => Some(Broken(ConfigurationReady, ConfigurationReadFailed, f))
    case SomeMissing => Some(Stop(ConfigurationReady, ReferenceNotFound, ProvisioningPhase, NoCategory, false))
    case AllPresent => EnsureStop(ConfigurationReady, ConfigurationReconcileFailed, env.configuration)
  }

  function StorageStop(env: Env): Option<Stop> {
    match env.storage
    case WorkspaceUnread(f) => Some(Broken(WorkspaceReady, WorkspaceReadFailed, f))
    case StorageReadFailed(f) => Some(Broken(WorkspaceReady, StorageClassReadFailed, f))
    case NotBound => Some(Stop(WorkspaceReady, StoragePending, ProvisioningPhase, NoCategory, false))
    case _ => None
  }

  function WorkspaceStop(env: Env): Option<Stop> {
    Either(EnsureStop(WorkspaceReady, WorkspaceReconcileFailed, env.workspace), StorageStop(env))
  }

  function NetworkStop(env: Env): Option<Stop> {
    EnsureStop(NetworkPolicyReady, NetworkPolicyReconcileFailed, env.networkPolicy)
  }

  function EnsureStop(t: ConditionType, reason: Reason, ensured: Ensure): Option<Stop> {
    if ensured.EnsureFailed? then Some(Broken(t, reason, ensured.failure)) else None
  }

  function Either(first: Option<Stop>, next: Option<Stop>): Option<Stop> {
    if first.Some? then first else next
  }

  /** The first of these that applies, in the order the resources depend on each other. */
  function FirstStop(env: Env): Option<Stop> {
    Either(AccountStop(env), Either(ConfigurationStop(env), Either(WorkspaceStop(env), NetworkStop(env))))
  }

  /** A gate leaves a status, what it applied, and whether it stops the pass, by an error or not. */
  type Gated = (Status, seq<Write>, Option<bool>)

  predicate GateFrame(s: Status, g: Gated) {
    && g.0 == s.(phase := g.0.phase, category := g.0.category, conditions := g.0.conditions)
    && g.0.phase in {s.phase, ProvisioningPhase, FailedPhase} && KeepsAnchors(s, g.0)
    && (g.2.None? ==> g.0.category == s.category) && (forall w :: w in g.1 ==> w.kind != JobKind)
  }

  /** A gate stops exactly where it should, and shows it if the status was clear before. */
  predicate GateIs(s: Status, g: Gated, stop: Option<Stop>) {
    match stop
    case None => g.2.None?
    case Some(at) => g.2 == Some(at.failed) && (s.category == NoCategory ==> Shows(g.0, at))
  }

  /** ensureObject on a prerequisite other than the Job, and the condition it sets. */
  function EnsureGate(spec: Spec, s: Status, t: ConditionType, kind: Kind, ensured: Ensure, ready: Reason,
      failed: Reason, now: Instant)
    : (g: Gated)
    requires !IsAnchor(t) && kind != JobKind
    ensures GateFrame(s, g)
    ensures GateIs(s, g, EnsureStop(t, failed, ensured))
  {
    var writes := WritesOf(kind, CurrentAttempt(spec, s), ensured);
    if ensured.EnsureFailed? then (HandleError(s, t, failed, ensured.failure, now), writes, Some(true))
    else (SetCondition(s, t, true, ready, now), writes, None)
  }

  /** The manifests build, and the service account is there. */
  function AccountGate(spec: Spec, s: Status, env: Env): (g: Gated)
    ensures GateFrame(s, g)
    ensures GateIs(s, g, AccountStop(env))
  {
    if !env.builds then
      (RecordFailure(s, ConfigurationReady, ResourceBuildFailed, true, PolicyCategory, env.now), [], Some(true))
    else
      EnsureGate(spec, s, ServiceAccountReady, ServiceAccountKind, env.serviceAccount, ServiceAccountIsReady,
                 ServiceAccountReconcileFailed, env.now)
  }

  function ReferencesHeld(s: Status, now: Instant): (r: Status)
    ensures r == s.(conditions := r.conditions) && KeepsAnchors(s, r)
    ensures IsFalse(r, ConfigurationReady, ReferenceNotFound) && IsFalse(r, Ready, ConfigurationPending)
  {
    SetCondition(SetCondition(SetCondition(SetCondition(SetCondition(s,
      ConfigurationReady, false, ReferenceNotFound, now), WorkspaceReady, false, ConfigurationPending, now),
      NetworkPolicyReady, false, ConfigurationPending, now), JobReady, false, ConfigurationPending, now),
      Ready, false, ConfigurationPending, now)
  }

  function ReferencesGate(s: Status, now: Instant): (g: Gated)
    ensures GateFrame(s, g)
    ensures GateIs(s, g, Some(Stop(ConfigurationReady, ReferenceNotFound, ProvisioningPhase, NoCategory, false)))
  {
    (ReferencesHeld(s, now).(phase := ProvisioningPhase), [], Some(false))
  }

  /** Every reference resolves, and the configuration is there. */
  function ConfigurationGate(spec: Spec, s: Status, env: Env): (g: Gated)
    ensures GateFrame(s, g)
    ensures GateIs(s, g, ConfigurationStop(env))
  {
    match env.references
    case ReferencesUnread(f) =>
      (HandleError(s, ConfigurationReady, ConfigurationReadFailed, f, env.now), [], Some(true))
    case SomeMissing => ReferencesGate(s, env.now)
    case AllPresent =>
      EnsureGate(spec, s, ConfigurationReady, ConfigurationKind, env.configuration, ConfigurationIsReady,
                 ConfigurationReconcileFailed, env.now)
  }

  /** Storage that neither is bound nor waits for a consumer holds everything after it back. */
  function StorageHeld(s: Status, now: Instant): (r: Status)
    ensures r == s.(conditions := r.conditions) && KeepsAnchors(s, r)
    ensures IsFalse(r, WorkspaceReady, StoragePending) && IsFalse(r, Ready, StoragePending)
  {
    SetCondition(SetCondition(SetCondition(SetCondition(s,
      WorkspaceReady, false, StoragePending, now), NetworkPolicyReady, false, WorkspacePending, now),
      JobReady, false, WorkspacePending, now), Ready, false, StoragePending, now)
  }

  function StorageClosed(s: Status, now: Instant): (g: Gated)
    ensures GateFrame(s, g)
    ensures GateIs(s, g, Some(Stop(WorkspaceReady, StoragePending, ProvisioningPhase, NoCategory, false)))
  {
    (StorageHeld(s.(phase := ProvisioningPhase), now), [], Some(false))
  }

  /** The claim's storage: bound, waiting for its first consumer, or holding the pass back. */
  function StorageGate(s: Status, env: Env): (g: Gated)
    ensures GateFrame(s, g) && g.1 == [] && GateIs(s, g, StorageStop(env))
  {
    var provisioning := s.(phase := ProvisioningPhase);
    match env.storage
    case WorkspaceUnread(f) => (HandleError(s, WorkspaceReady, WorkspaceReadFailed, f, env.now), [], Some(true))
    case StorageReadFailed(f) =>
      (HandleError(provisioning, WorkspaceReady, StorageClassReadFailed, f, env.now), [], Some(true))
    case NotBound => StorageClosed(s, env.now)
    case AwaitsConsumer => (SetCondition(provisioning, WorkspaceReady, false, FirstConsumerPending, env.now), [], None)
    case Bound => (SetCondition(s, WorkspaceReady, true, WorkspaceIsReady, env.now), [], None)
  }

  /** The claim is there, and its storage does not hold the pass back. */
  function WorkspaceGate(spec: Spec, s: Status, env: Env): (g: Gated)
    ensures GateFrame(s, g)
    ensures GateIs(s, g, WorkspaceStop(env))
  {
    var writes := WritesOf(WorkspaceKind, CurrentAttempt(spec, s), env.workspace);
    if env.workspace.EnsureFailed? then
      (HandleError(s, WorkspaceReady, WorkspaceReconcileFailed, env.workspace.failure, env.now), writes, Some(true))
    else
      var seen := StorageGate(s, env);
      (seen.0, writes, seen.2)
  }

  function NetworkGate(spec: Spec, s: Status, env: Env): (g: Gated)
    ensures GateFrame(s, g)
    ensures GateIs(s, g, NetworkStop(env))
  {
    EnsureGate(spec, s, NetworkPolicyReady, NetworkPolicyKind, env.networkPolicy, NetworkPolicyIsReady,
               NetworkPolicyReconcileFailed, env.now)
  }

  /** One gate after another. */
  function Joined(s: Status, first: Gated, next: Gated): (g: Gated)
    requires GateFrame(s, first) && first.2.None? && GateFrame(first.0, next)
    ensures GateFrame(s, g) && g == (next.0, first.1 + next.1, next.2)
  {
    (next.0, first.1 + next.1, next.2)
  }

  /** The gates before the Job, in order, each holding back those after it. */
  function Gates(spec: Spec, s: Status, env: Env): (g: Gated)
    ensures GateFrame(s, g)
    ensures GateIs(s, g, FirstStop(env))
  {
    var account := AccountGate(spec, s, env);
    if account.2.Some? then account
    else
      var configuration := Joined(s, account, ConfigurationGate(spec, account.0, env));
      if configuration.2.Some? then configuration
      else
        var workspace := Joined(s, configuration, WorkspaceGate(spec, configuration.0, env));
        if workspace.2.Some? then workspace else Joined(s, workspace, NetworkGate(spec, workspace.0, env))
  }

  /** reconcilePrerequisites: the gates, then the Job. */
  function Prerequisites(spec: Spec, s: Status, jobs: map<string, Job>, env: Env): (e: Effect)
    ensures PrerequisiteFrame(spec, s, jobs, e) && PhaseFrame(spec, s, e, env)
  {
    var (ready, applied, stop) := Gates(spec, s, env);
    if stop.Some? then Effect(ready, jobs, applied, stop.value)
    else
      var e := JobGate(spec, ready, jobs, env);
      e.(writes := applied + e.writes)
  }

  // ---- Retry ----

  predicate RetryAllowed(spec: Spec, s: Status) {
    && s.phase == FailedPhase && s.attempt == CurrentAttempt(spec, s) && s.attempt < spec.maxAttempts
    && s.category in {TransientCategory, InternalCategory} && s.category in spec.retryable
  }

  /** When the attempt that failed ended, or when its backoff was first recorded. */
  function RetryAnchor(s: Status): Option<Time> {
    if NonZero(s.completion).Some? then s.completion
    else match ConditionOf(s, RetryReady)
      case Some(Condition(false, _, since)) => Some(since)
      case _ => None
  }

  function RetryDelay(spec: Spec, current: nat): nat
    requires current >= spec.attempt
  {
    B.Delay(spec.initialBackoff, spec.maxBackoff, current - spec.attempt,
            if current + 1 in spec.jitter then spec.jitter[current + 1] else 0)
  }

  function ReadyAt(spec: Spec, s: Status, now: Instant): Time {
    (if RetryAnchor(s).Some? then RetryAnchor(s).value else now) + RetryDelay(spec, CurrentAttempt(spec, s))
  }

  function HeldBack(s: Status, now: Instant): (r: Status)
    ensures r == s.(conditions := r.conditions)
    ensures ConditionOf(r, CancellationComplete) == ConditionOf(s, CancellationComplete)
    ensures ConditionOf(r, RetryReady) == Some(Condition(false, BackoffPending, SinceOf(s, RetryReady, false, now)))
  {
    SetCondition(SetCondition(s, RetryReady, false, BackoffPending, now), Ready, false, RetryBackoff, now)
  }

  function Advanced(spec: Spec, s: Status, now: Instant): (r: Status)
    ensures r.attempt == CurrentAttempt(spec, s) + 1 && r.jobName == "" && r.phase == PendingPhase
    ensures ConditionOf(r, CancellationComplete) == ConditionOf(s, CancellationComplete)
    ensures r.attempts == Upsert(s.attempts, EntryOf(spec, r))
  {
    var next := Status(PendingPhase, CurrentAttempt(spec, s) + 1, "", "", None, None, NoCategory, "", s.conditions,
        s.attempts);
    UpsertAttempt(spec, SetCondition(SetCondition(SetCondition(next,
      RetryReady, true, RetryStarted, now), JobReady, false, RetryPending, now), Ready, false, RetryPending, now))
  }

  function ReconcileRetry(spec: Spec, s: Status, now: Instant): (r: Status)
    ensures r == HeldBack(s, now) || r == Advanced(spec, s, now)
    ensures r.phase == s.phase || r.phase == PendingPhase
    ensures ConditionOf(r, CancellationComplete) == ConditionOf(s, CancellationComplete)
  {
    if ReadyAt(spec, s, now) > now then HeldBack(s, now) else Advanced(spec, s, now)
  }

  // ---- Cancellation ----

  const CANCELLATION_DEADLINE: nat := 2 * MINUTE

  function CancellationStartedAt(s: Status): Option<Time> {
    match ConditionOf(s, CancellationComplete)
    case Some(Condition(false, _, since)) => Some(since)
    case _ => None
  }

  /** When cancellation began: its recorded anchor, or this very pass. */
  function AnchorAt(s: Status, now: Instant): Time {
    if CancellationStartedAt(s).Some? then CancellationStartedAt(s).value else now
  }

  predicate Forced(s: Status, now: Instant) {
    now >= AnchorAt(s, now) + CANCELLATION_DEADLINE
  }

  predicate WasForced(s: Status, now: Instant) {
    CancellationComplete in s.conditions &&
    var c := s.conditions[CancellationComplete];
    c.reason in {ForcedTerminationPending, ForcedCancellation} || (!c.status && now >= c.since + CANCELLATION_DEADLINE)
  }

  function Marked(s: Status, complete: bool, reason: Reason, others: Reason, now: Instant): (r: Status)
    ensures r == s.(conditions := r.conditions)
    ensures ConditionOf(r, CancellationComplete) ==
            Some(Condition(complete, reason, SinceOf(s, CancellationComplete, complete, now)))
  {
    SetCondition(SetCondition(SetCondition(s,
      CancellationComplete, complete, reason, now), JobReady, false, others, now), Ready, false, others, now)
  }

  function Cancelling(spec: Spec, s: Status, forced: bool, now: Instant): (r: Status)
    ensures r.attempt == s.attempt && r.jobName == s.jobName && r.phase == CancellingPhase
    ensures r.attempts == Upsert(s.attempts, EntryOf(spec, r))
    ensures CancellationStartedAt(r) == Some(AnchorAt(s, now))
  {
    var reason := if forced then ForcedTerminationPending else GracefulTerminationPending;
    UpsertAttempt(spec, Marked(s.(phase := CancellingPhase), false, reason, CancellationInProgress, now))
  }

  function Ended(s: Status, now: Instant): (r: Status)
    ensures r == s.(phase := CancelledPhase, completion := r.completion)
  {
    s.(phase := CancelledPhase, completion := if s.completion.None? then Some(now) else s.completion)
  }

  function Complete(spec: Spec, s: Status, forced: bool, now: Instant): (r: Status)
    ensures r.attempt == s.attempt && r.jobName == s.jobName && r.phase == CancelledPhase
    ensures r.attempts == Upsert(s.attempts, EntryOf(spec, r))
  {
    var reason := if forced then ForcedCancellation else GracefulCancellation;
    UpsertAttempt(spec, Marked(Ended(s, now), true, reason, ExecutionCancelled, now))
  }

  function CancelError(spec: Spec, s: Status, reason: Reason, failure: Failure, now: Instant): (r: Status)
    ensures r.attempt == s.attempt && r.jobName == s.jobName && r.phase == CancellingPhase
    ensures r.attempts == Upsert(s.attempts, EntryOf(spec, r))
    ensures CancellationStartedAt(r) == Some(AnchorAt(s, now))
  {
    var category :=
      if reason == CancellationJobConflict then InternalCategory
      else if failure.PermanentFailure? then PolicyCategory else TransientCategory;
    UpsertAttempt(spec, SetCondition(SetCondition(s.(phase := CancellingPhase, category := category),
      CancellationComplete, false, reason, now), Ready, false, reason, now))
  }

  function Terminating(jobs: map<string, Job>, name: string): (r: map<string, Job>)
    ensures r.Keys == jobs.Keys && (name in jobs ==> r[name].deleting)
  {
    if name in jobs then jobs[name := jobs[name].(deleting := true)] else jobs
  }

  /** The outcome of the deletion a cancelling pass asks for: every call it makes, in order. */
  function DeletionError(forced: bool, deleting: bool, env: Env): Option<Failure> {
    if forced && env.forcedPods.Fails? then Some(env.forcedPods.failure)
    else if (forced || !deleting) && env.jobDelete.Fails? then Some(env.jobDelete.failure)
    else None
  }

  function Terminate(spec: Spec, s: Status, jobs: map<string, Job>, env: Env): (e: Effect)
    requires s.jobName in jobs
    ensures e.status.attempt == s.attempt && e.status.jobName == s.jobName && e.status.phase == CancellingPhase
    ensures e.jobs.Keys == jobs.Keys && e.writes == []
    ensures e.status.attempts == Upsert(s.attempts, EntryOf(spec, e.status))
    ensures CancellationStartedAt(e.status) == Some(AnchorAt(s, env.now))
    ensures !e.failed ==> s.jobName in e.jobs && e.jobs[s.jobName].deleting
  {
    var forced := Forced(s, env.now);
    var cancelling := Cancelling(spec, s, forced, env.now);
    var error := DeletionError(forced, jobs[s.jobName].deleting, env);
    var reason := if forced then ForcedCancellationFailed else GracefulCancellationFailed;
    if error.Some? then
      var stuck := CancelError(spec, cancelling, reason, error.value, env.now);
      UpsertTwice(s.attempts, EntryOf(spec, cancelling), EntryOf(spec, stuck));
      Effect(stuck, jobs, [], true)
    else Effect(cancelling, Terminating(jobs, s.jobName), [], false)
  }

  function Cancellation(spec: Spec, s: Status, jobs: map<string, Job>, env: Env): (e: Effect)
    ensures e.status.attempt == s.attempt && e.status.jobName == s.jobName
    ensures e.jobs.Keys == jobs.Keys && e.writes == []
    ensures e.status.attempts == Upsert(s.attempts, EntryOf(spec, e.status))
    ensures e.status.phase in {CancellingPhase, CancelledPhase, SucceededPhase, FailedPhase}
    ensures e.status.phase == CancellingPhase ==> CancellationStartedAt(e.status) == Some(AnchorAt(s, env.now))
    ensures e.status.phase == CancellingPhase && !e.failed ==> s.jobName in e.jobs && e.jobs[s.jobName].deleting
    ensures e.status.phase in {SucceededPhase, FailedPhase} ==>
              CancellationStartedAt(e.status) == CancellationStartedAt(s)
  {
    var name := JobName(spec.runId, CurrentAttempt(spec, s));
    if s.jobName == "" then Effect(Complete(spec, s, false, env.now), jobs, [], false)
    else if s.jobName != name then
      Effect(CancelError(spec, s, CancellationJobConflict, PermanentFailure, env.now), jobs, [], true)
    else if env.jobRead.Fails? then
      Effect(CancelError(spec, s, CancellationJobReadFailed, env.jobRead.failure, env.now), jobs, [], true)
    else if name !in jobs then Effect(Complete(spec, s, WasForced(s, env.now), env.now), jobs, [], false)
    else if jobs[name].deleting then Terminate(spec, s, jobs, env)
    else if env.podList.Fails? then
      Effect(CancelError(spec, s, CancellationPodReadFailed, env.podList.failure, env.now), jobs, [], true)
    else
      var o := Observe(name, jobs[name], env.pods);
      if o.phase in {SucceededPhase, FailedPhase} then Effect(Project(spec, s, o, env.now), jobs, [], false)
      else Terminate(spec, s, jobs, env)
  }

  // ---- One pass ----

  predicate IsTerminalPhase(p: Phase) {
    p in {SucceededPhase, FailedPhase, CancelledPhase}
  }

  predicate AttemptTerminal(spec: Spec, s: Status) {
    s.attempt == CurrentAttempt(spec, s) && IsTerminalPhase(s.phase)
  }

  function Initialized(spec: Spec, s: Status, now: Instant): (r: Status)
    ensures r.attempt == (if s.attempt == 0 then spec.attempt else s.attempt)
    ensures r == s.(phase := r.phase, attempt := r.attempt, conditions := r.conditions)
    ensures KeepsAnchors(s, r)
  {
    SetCondition(
      s.(phase := if s.phase == NoPhase then PendingPhase else s.phase,
         attempt := if s.attempt == 0 then spec.attempt else s.attempt),
      SpecValid, true, Accepted, now)
  }

  function SetIfAbsent(s: Status, t: ConditionType, now: Instant): (r: Status)
    ensures r == s.(conditions := r.conditions) && (!IsAnchor(t) ==> KeepsAnchors(s, r))
  {
    if t in s.conditions then s else SetCondition(s, t, false, ReconciliationPending, now)
  }

  function AcceptedStatus(spec: Spec, s: Status, now: Instant): (r: Status)
    ensures r.attempt == (if s.attempt == 0 then spec.attempt else s.attempt)
    ensures r == s.(phase := r.phase, attempt := r.attempt, category := NoCategory, conditions := r.conditions)
    ensures KeepsAnchors(s, r)
  {
    var accepted := SetCondition(Initialized(spec, s, now).(category := NoCategory), Ready, false,
        ReconciliationPending, now);
    SetIfAbsent(SetIfAbsent(SetIfAbsent(SetIfAbsent(SetIfAbsent(accepted,
      ServiceAccountReady, now), ConfigurationReady, now), WorkspaceReady, now), NetworkPolicyReady, now),
      JobReady, now)
  }

  /** A pass on a running attempt: the prerequisites, then a retry if they found the attempt failed. */
  function RunningPass(spec: Spec, s: Status, jobs: map<string, Job>, env: Env): (e: Effect)
    ensures PhaseFrame(spec, s, e, env)
  {
    var e := Prerequisites(spec, AcceptedStatus(spec, s, env.now), jobs, env);
    if !e.failed && RetryAllowed(spec, e.status) then e.(status := ReconcileRetry(spec, e.status, env.now)) else e
  }

  /** The part of Reconcile between the finalizer and the status patch. */
  function Reconcile(spec: Spec, cancelled: bool, s: Status, jobs: map<string, Job>, env: Env): Effect {
    if AttemptTerminal(spec, s) then
      if !cancelled && RetryAllowed(spec, s) then Effect(ReconcileRetry(spec, s, env.now), jobs, [], false)
      else Effect(SetCondition(s, SpecValid, true, Accepted, env.now), jobs, [], false)
    else if cancelled then Cancellation(spec, Initialized(spec, s, env.now), jobs, env)
    else RunningPass(spec, s, jobs, env)
  }
}
