/** What one look at a Job and its Pods says about an execution. */
module Pods {
  import opened Common
  import opened Strings

  datatype Phase =
    | NoPhase | PendingPhase | ProvisioningPhase | RunningPhase | SucceededPhase | FailedPhase
    | CancellingPhase | CancelledPhase

  datatype Category =
    | NoCategory | ValidationCategory | ConflictCategory | TransientCategory | PermanentCategory
    | ExecutionCategory | PolicyCategory | InternalCategory

  /** Reasons a condition can carry. */
  datatype Reason =
    | Accepted | ReconciliationPending | ResourceBuildFailed | ServiceAccountReconcileFailed | ServiceAccountIsReady
    | ConfigurationReadFailed | ReferenceNotFound | ConfigurationPending | ConfigurationReconcileFailed
    | ConfigurationIsReady | WorkspaceReconcileFailed | WorkspaceReadFailed | StorageClassReadFailed | StoragePending
    | WorkspacePending | FirstConsumerPending | WorkspaceIsReady | NetworkPolicyReconcileFailed
    | NetworkPolicyIsReady | JobIdentityConflict | JobReadFailed | JobReconcileFailed | JobIsReady | PodListFailed
    // lifecycle
    | PodPending | PodEvicted | NodeLost | ImagePullFailed | InvalidImage | ConfigurationError | ContainerStartFailed
    | OomKilled | ProcessExitNonZero | DeadlineExceeded | JobFailed | ResultEvidencePending | ResultEvidenceInvalid
    | ResultEvidenceReady | JobActive | RunnerActive | ContainerCreating | JobCompletionPending | PodUnschedulable
    | PodScheduled | PodIsRunning | JobMissing
    // cancellation
    | GracefulTerminationPending | ForcedTerminationPending | CancellationInProgress | GracefulCancellation
    | ForcedCancellation | ExecutionCancelled | CancellationJobConflict | CancellationJobReadFailed
    | CancellationPodReadFailed | ForcedCancellationFailed | GracefulCancellationFailed
    // retry
    | BackoffPending | RetryBackoff | RetryStarted | RetryPending
    // cleanup
    | Deleting | CleanupStarted | CleanupNotRequired | RetainedWorkspaceReadFailed | RetainedWorkspaceConflict
    | RetentionHandoffFailed | CleanupComplete | CleanupEscalated | FinalizerRemovalFailed

  // ---- The observed objects ----

  /** A true Job condition. */
  datatype JobCondition = JobCondition(reason: JobConditionReason, since: Time)

  datatype JobConditionReason = DeadlinePassed | BackoffLimit | OtherFailure

  datatype Job = Job(
    uid: nat, deleting: bool, owned: bool, start: Option<Time>, completion: Option<Time>,
    failedCondition: Option<JobCondition>, failureTarget: Option<JobCondition>, complete: bool,
    active: nat, failed: nat, succeeded: nat)

  /** The controller reference of a Pod. */
  datatype Owner = Owner(isBatchJob: bool, name: string, uid: nat)

  datatype WaitingReason =
    | ErrImagePull | ImagePullBackOff | InvalidImageName | CreateContainerConfigError | CreateContainerError
    | RunContainerError | CreatingContainer | OtherWaiting

  /** State of the runner container. evidence is the parsed result manifest reference, None if it is not valid. */
  datatype ContainerState =
    | NoState
    | Waiting(reason: WaitingReason)
    | Active(startedAt: Time)
    | Terminated(exitCode: int, oom: bool, finishedAt: Time, evidence: Option<string>)

  datatype PodReason = NoPodReason | EvictedPod | NodeLostPod

  datatype ScheduledState = ScheduledUnknown | Unschedulable | ScheduledTrue

  datatype Pod = Pod(
    name: string, created: Time, owner: Option<Owner>, reason: PodReason, start: Option<Time>,
    runner: Option<ContainerState>, scheduled: ScheduledState, running: bool)

  datatype Observation = Observation(
    phase: Phase, reason: Reason, podName: string, start: Option<Time>, completion: Option<Time>,
    category: Category, artifact: string)

  // ---- Choosing the Pod ----

  /** The Pod is controlled by this very Job, by name and UID. */
  predicate Controls(jobName: string, job: Job, pod: Pod) {
    pod.owner == Some(Owner(true, jobName, job.uid))
  }

  predicate PodBefore(a: Pod, b: Pod) {
    a.created < b.created || (a.created == b.created && StringLess(a.name, b.name))
  }

  /** The youngest controlled Pod, the greatest name among those created together. */
  function SelectPod(jobName: string, job: Job, pods: seq<Pod>): (selected: Option<Pod>)
    ensures selected.Some? ==> selected.value in pods && Controls(jobName, job, selected.value)
    ensures selected.None? ==> forall p :: p in pods ==> !Controls(jobName, job, p)
  {
    if |pods| == 0 then None
    else
      var last := pods[|pods| - 1];
      var rest := SelectPod(jobName, job, pods[..|pods| - 1]);
      if !Controls(jobName, job, last) then rest
      else if rest.None? || PodBefore(rest.value, last) then Some(last) else rest
  }

  lemma {:induction false} SelectedIsGreatest(jobName: string, job: Job, pods: seq<Pod>, p: Pod)
    requires p in pods && Controls(jobName, job, p)
    ensures SelectPod(jobName, job, pods).Some? && !PodBefore(SelectPod(jobName, job, pods).value, p)
  {
    var last := pods[|pods| - 1];
    var init := pods[..|pods| - 1];
    var selected := SelectPod(jobName, job, pods).value;
    if p in init {
      SelectedIsGreatest(jobName, job, init, p);
      StringTotal(SelectPod(jobName, job, init).value.name, p.name);
      if selected != SelectPod(jobName, job, init).value && PodBefore(selected, p) {
        PodBeforeTransitive(SelectPod(jobName, job, init).value, selected, p);
      }
    } else {
      assert p == last;
      StringTotal(p.name, p.name);
    }
  }

  lemma PodBeforeTransitive(a: Pod, b: Pod, c: Pod)
    requires PodBefore(a, b) && PodBefore(b, c)
    ensures PodBefore(a, c)
  {
    if a.created == c.created {
      StringTransitive(a.name, b.name, c.name);
    }
  }

  predicate UniqueNames(pods: seq<Pod>) {
    forall p, q :: p in pods && q in pods && p.name == q.name ==> p == q
  }

  /** The listing order of the Pods does not matter: names are unique within a namespace. */
  lemma SelectIgnoresOrder(jobName: string, job: Job, pods: seq<Pod>, listed: seq<Pod>)
    requires UniqueNames(pods) && forall p :: p in pods <==> p in listed
    ensures SelectPod(jobName, job, pods) == SelectPod(jobName, job, listed)
  {
    var (a, b) := (SelectPod(jobName, job, pods), SelectPod(jobName, job, listed));
    if a.Some? && b.Some? {
      SelectedIsGreatest(jobName, job, pods, b.value);
      SelectedIsGreatest(jobName, job, listed, a.value);
      StringTotal(a.value.name, b.value.name);
    }
  }

  /** The scan of the listing: keeps the controlled Pods, then the greatest of them. */
  method SelectLifecyclePod(jobName: string, job: Job, pods: seq<Pod>) returns (selected: Option<Pod>)
    ensures selected == SelectPod(jobName, job, pods)
  {
    selected := None;
    for i := 0 to |pods|
      invariant selected == SelectPod(jobName, job, pods[..i])
    {
      assert pods[..i + 1][..i] == pods[..i];
      if Controls(jobName, job, pods[i]) && (selected.None? || PodBefore(selected.value, pods[i])) {
        selected := Some(pods[i]);
      }
    }
    assert pods[..|pods|] == pods;
  }

  // ---- Observation ----

  function NonZero(t: Option<Time>): Option<Time> {
    if t == Some(0) then None else t
  }

  function FirstTime(a: Option<Time>, b: Option<Time>): Option<Time> {
    if NonZero(a).Some? then a else NonZero(b)
  }

  function JobFailure(job: Job): Option<JobCondition> {
    if job.failedCondition.Some? then job.failedCondition else job.failureTarget
  }

  function JobCompletionTime(job: Job): Option<Time> {
    if job.completion.Some? then job.completion
    else if JobFailure(job).Some? then Some(JobFailure(job).value.since) else None
  }

  /** terminalPodObservation: the reason and category of a Pod that already failed. */
  function PodFailure(pod: Pod): Option<(Reason, Category)> {
    if pod.reason == EvictedPod then Some((PodEvicted, TransientCategory))
    else if pod.reason == NodeLostPod then Some((NodeLost, TransientCategory))
    else if pod.runner.None? then None
    else match pod.runner.value
      case Waiting(ErrImagePull) => Some((ImagePullFailed, TransientCategory))
      case Waiting(ImagePullBackOff) => Some((ImagePullFailed, TransientCategory))
      case Waiting(InvalidImageName) => Some((InvalidImage, PermanentCategory))
      case Waiting(CreateContainerConfigError) => Some((ConfigurationError, PolicyCategory))
      case Waiting(CreateContainerError) => Some((ContainerStartFailed, PermanentCategory))
      case Waiting(RunContainerError) => Some((ContainerStartFailed, PermanentCategory))
      case Terminated(code, oom, _, _) =>
        if code == 0 then None
        else if oom then Some((OomKilled, ExecutionCategory)) else Some((ProcessExitNonZero, ExecutionCategory))
      case _ => None
  }

  function FinishedAt(pod: Pod): Option<Time> {
    if pod.runner.Some? && pod.runner.value.Terminated? then NonZero(Some(pod.runner.value.finishedAt)) else None
  }

  /** observeNonTerminalPod */
  function ObserveWaiting(pod: Pod, start: Option<Time>): Observation {
    var provisioning := (reason: Reason) =>
      Observation(ProvisioningPhase, reason, pod.name, start, None, NoCategory, "");
    if pod.runner.Some? && pod.runner.value.Active? then
      Observation(RunningPhase, RunnerActive, pod.name,
                  if pod.runner.value.startedAt != 0 then Some(pod.runner.value.startedAt) else start,
                  None, NoCategory, "")
    else if pod.runner.Some? && pod.runner.value.Waiting? then
      provisioning(if pod.runner.value.reason == CreatingContainer then ContainerCreating else PodPending)
    else if pod.runner.Some? && pod.runner.value.Terminated? && pod.runner.value.exitCode == 0 then
      provisioning(JobCompletionPending)
    else if pod.scheduled == Unschedulable then provisioning(PodUnschedulable)
    else if pod.scheduled == ScheduledTrue then provisioning(PodScheduled)
    else if pod.running then Observation(RunningPhase, PodIsRunning, pod.name, start, None, NoCategory, "")
    else provisioning(PodPending)
  }

  predicate JobFinished(job: Job) {
    job.complete || job.succeeded > 0
  }

  /** The Job itself reports failure. */
  predicate JobReportsFailure(job: Job) {
    JobFailure(job).Some? || (job.failed > 0 && job.active == 0)
  }

  function FailedByJob(job: Job, podName: string, start: Option<Time>): Observation
    requires JobReportsFailure(job)
  {
    if JobFailure(job).Some? then
      var condition := JobFailure(job).value;
      Observation(FailedPhase, if condition.reason == DeadlinePassed then DeadlineExceeded else JobFailed,
                  podName, start, FirstTime(job.completion, Some(condition.since)), ExecutionCategory, "")
    else
      Observation(FailedPhase, JobFailed, podName, start, JobCompletionTime(job), ExecutionCategory, "")
  }

  /** The result of a finished Job: its Pod's evidence, or that it is still awaited. */
  function ResultOf(job: Job, pod: Option<Pod>, start: Option<Time>): Observation {
    if pod.None? || pod.value.runner.None? || !pod.value.runner.value.Terminated? then
      Observation(ProvisioningPhase, ResultEvidencePending,
                  if pod.Some? then pod.value.name else "", start, None, NoCategory, "")
    else
      var terminated := pod.value.runner.value;
      var completion := FirstTime(job.completion, Some(terminated.finishedAt));
      match terminated.evidence
      case None =>
        Observation(FailedPhase, ResultEvidenceInvalid, pod.value.name, start, completion, ExecutionCategory, "")
      case Some(manifest) =>
        Observation(SucceededPhase, ResultEvidenceReady, pod.value.name, start, completion, NoCategory, manifest)
  }

  function Observe(jobName: string, job: Job, pods: seq<Pod>): (o: Observation)
    ensures o.phase in {ProvisioningPhase, RunningPhase, SucceededPhase, FailedPhase}
    ensures o.phase == FailedPhase <==> o.category != NoCategory
  {
    var pod := SelectPod(jobName, job, pods);
    var podStart := if pod.Some? then pod.value.start else None;
    var start := if job.start.Some? then job.start else podStart;
    if pod.Some? && PodFailure(pod.value).Some? then
      var (reason, category) := PodFailure(pod.value).value;
      Observation(
        FailedPhase, reason, pod.value.name, if podStart.Some? then podStart else start,
        if FinishedAt(pod.value).Some? then FinishedAt(pod.value) else JobCompletionTime(job), category, "")
    else if JobReportsFailure(job) then FailedByJob(job, if pod.Some? then pod.value.name else "", start)
    else if JobFinished(job) then ResultOf(job, pod, start)
    else if pod.None? then
      Observation(ProvisioningPhase, if job.active > 0 then JobActive else PodPending, "", start, None, NoCategory, "")
    else ObserveWaiting(pod.value, start)
  }

  /** The Pod whose runner exited 0 with valid evidence, controlled by the observed Job. */
  predicate Proves(jobName: string, job: Job, pod: Pod, manifest: string) {
    && Controls(jobName, job, pod) && pod.reason == NoPodReason
    && pod.runner.Some? && pod.runner.value.Terminated?
    && pod.runner.value.exitCode == 0 && pod.runner.value.evidence == Some(manifest)
  }

  /**
   Success needs evidence, and exactly this evidence: the Job finished without reporting failure, and its
   selected Pod, controlled by the Job's UID, exited 0 with a valid manifest, which is then the recorded one.
   */
  lemma SucceededIffProved(jobName: string, job: Job, pods: seq<Pod>)
    ensures var o := Observe(jobName, job, pods);
            var pod := SelectPod(jobName, job, pods);
            o.phase == SucceededPhase <==>
              && JobFinished(job) && !JobReportsFailure(job)
              && pod.Some? && pod.value in pods && Proves(jobName, job, pod.value, o.artifact)
  {
  }

  /** The Pod was evicted, lost its node, or cannot get its image. */
  predicate LostToInfrastructure(pod: Pod) {
    || pod.reason != NoPodReason
    || pod.runner == Some(Waiting(ErrImagePull)) || pod.runner == Some(Waiting(ImagePullBackOff))
  }

  /** Only infrastructure failures of the selected Pod are transient; no observed failure is internal or a conflict. */
  lemma TransientIffInfrastructure(jobName: string, job: Job, pods: seq<Pod>)
    ensures var o := Observe(jobName, job, pods);
            var pod := SelectPod(jobName, job, pods);
            && (o.category == TransientCategory <==> pod.Some? && LostToInfrastructure(pod.value))
            && o.category !in {InternalCategory, ConflictCategory, ValidationCategory}
  {
  }

  /** The Pod has failed: it was evicted or lost, its container cannot be started, or its runner exited nonzero. */
  predicate HasFailed(pod: Pod) {
    || pod.reason in {EvictedPod, NodeLostPod}
    || (pod.runner.Some? && pod.runner.value.Waiting? && pod.runner.value.reason !in {CreatingContainer, OtherWaiting})
    || (pod.runner.Some? && pod.runner.value.Terminated? && pod.runner.value.exitCode != 0)
  }

  /** The Job has failed: a condition says so, or Pods of it failed and none is active. */
  predicate JobHasFailed(job: Job) {
    job.failedCondition.Some? || job.failureTarget.Some? || (job.failed > 0 && job.active == 0)
  }

  /**
   Failure is observed if and only if the selected Pod has failed, or the Job has, or the Job finished and the Pod's
   runner left no valid evidence.
   */
  lemma FailedIff(jobName: string, job: Job, pods: seq<Pod>)
    ensures var pod := SelectPod(jobName, job, pods);
            Observe(jobName, job, pods).phase == FailedPhase <==>
              || (pod.Some? && HasFailed(pod.value))
              || JobHasFailed(job)
              || (&& (job.complete || job.succeeded > 0) && pod.Some? && pod.value.runner.Some?
                  && pod.value.runner.value.Terminated? && pod.value.runner.value.evidence.None?)
  {
  }

  /**
   Running is observed if and only if nothing has failed, the Job has not finished, and the selected Pod's runner is
   active, or the Pod is running without saying anything about its runner or its scheduling.
   */
  lemma RunningIff(jobName: string, job: Job, pods: seq<Pod>)
    ensures var pod := SelectPod(jobName, job, pods);
            Observe(jobName, job, pods).phase == RunningPhase <==>
              && pod.Some? && !HasFailed(pod.value) && !JobHasFailed(job) && !job.complete && job.succeeded == 0
              && (|| (pod.value.runner.Some? && pod.value.runner.value.Active?)
                  || (&& (pod.value.runner.None? || pod.value.runner.value.NoState?)
                      && pod.value.scheduled == ScheduledUnknown && pod.value.running))
  {
  }

  /** How an observed failure is classified: by the Pod's own failure if it has one, and as execution otherwise. */
  lemma FailureIsClassified(jobName: string, job: Job, pods: seq<Pod>)
    requires Observe(jobName, job, pods).phase == FailedPhase
    ensures var pod := SelectPod(jobName, job, pods);
            var category := Observe(jobName, job, pods).category;
            if pod.Some? && HasFailed(pod.value) then
              if LostToInfrastructure(pod.value) then category == TransientCategory
              else if pod.value.runner.value.Terminated? then category == ExecutionCategory
              else if pod.value.runner.value.reason == CreateContainerConfigError then category == PolicyCategory
              else category == PermanentCategory
            else category == ExecutionCategory
  {
  }

  /** The condition a failed Job is judged by. */
  function FailureCondition(job: Job): Option<JobCondition> {
    if job.failedCondition.Some? then job.failedCondition else job.failureTarget
  }

  /** When a failed Pod ended: when its runner finished, or when the Job says it did. */
  lemma PodFailureIsTimed(jobName: string, job: Job, pods: seq<Pod>)
    requires SelectPod(jobName, job, pods).Some? && HasFailed(SelectPod(jobName, job, pods).value)
    ensures var runner := SelectPod(jobName, job, pods).value.runner;
            Observe(jobName, job, pods).completion ==
            if runner.Some? && runner.value.Terminated? && runner.value.finishedAt != 0
            then Some(runner.value.finishedAt)
            else if job.completion.Some? then job.completion
            else if FailureCondition(job).Some? then Some(FailureCondition(job).value.since) else None
  {
  }

  /** When and why a failed Job ended, its Pod not having failed: as its condition says, or as the Job does. */
  lemma JobFailureIsTimed(jobName: string, job: Job, pods: seq<Pod>)
    requires JobHasFailed(job)
    requires SelectPod(jobName, job, pods).Some? ==> !HasFailed(SelectPod(jobName, job, pods).value)
    ensures var o := Observe(jobName, job, pods);
            match FailureCondition(job)
            case None => o.reason == JobFailed && o.completion == job.completion
            case Some(condition) =>
              && o.reason == (if condition.reason == DeadlinePassed then DeadlineExceeded else JobFailed)
              && o.completion == if job.completion.Some? && job.completion != Some(0) then job.completion
                                 else if condition.since != 0 then Some(condition.since) else None
  {
  }

  /** The whole observation is the same for every listing order. */
  lemma ObserveIgnoresOrder(jobName: string, job: Job, pods: seq<Pod>, listed: seq<Pod>)
    requires UniqueNames(pods) && forall p :: p in pods <==> p in listed
    ensures Observe(jobName, job, pods) == Observe(jobName, job, listed)
  {
    SelectIgnoresOrder(jobName, job, pods, listed);
  }
}
