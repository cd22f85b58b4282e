/** What a cancelling pass does, from the calls it makes and the clock, and what the deadline decides over runs. */
module OperatorCancel {
  import opened Common
  import opened Naming
  import opened Pods
  import opened Operator
  import opened OperatorRuns
  import opened OperatorDeadlines

  /** When the cancellation began: the moment on record, or this pass. */
  function Begun(s: Status, now: Instant): Time {
    if CancellationComplete in s.conditions && !s.conditions[CancellationComplete].status
    then s.conditions[CancellationComplete].since else now
  }

  /** Two minutes have passed since. */
  predicate Overdue(s: Status, now: Instant) {
    now >= Begun(s, now) + 120 * SECOND
  }

  predicate CancelShows(s: Status, complete: bool, reason: Reason, since: Time) {
    && CancellationComplete in s.conditions && s.conditions[CancellationComplete].status == complete
    && s.conditions[CancellationComplete].reason == reason && s.conditions[CancellationComplete].since == since
  }

  /**
   The Job is asked to go. Until two minutes after the beginning gracefully, and only if it is not going already; from
   then on by force, its Pods first, and every time. The first call that fails decides the error.
   */
  predicate Deletes(s: Status, jobs: map<string, Job>, env: Env, e: Effect)
    requires s.jobName in jobs
  {
    var (job, begun, late) := (jobs[s.jobName], Begun(s, env.now), Overdue(s, env.now));
    var podsFail := late && env.forcedPods.Fails?;
    var jobFails := (late || !job.deleting) && env.jobDelete.Fails?;
    && e.status.phase == CancellingPhase && e.writes == [] && e.failed == (podsFail || jobFails)
    && (!e.failed ==>
          && CancelShows(e.status, false, if late then ForcedTerminationPending else GracefulTerminationPending, begun)
          && e.jobs == jobs[s.jobName := job.(deleting := true)] && e.status.category == s.category)
    && (e.failed ==>
          var failure := if podsFail then env.forcedPods.failure else env.jobDelete.failure;
          && CancelShows(e.status, false, if late then ForcedCancellationFailed else GracefulCancellationFailed, begun)
          && e.jobs == jobs
          && e.status.category == if failure == PermanentFailure then PolicyCategory else TransientCategory)
  }

  lemma TerminateDeletes(spec: Spec, s: Status, jobs: map<string, Job>, env: Env)
    requires s.jobName in jobs
    ensures Deletes(s, jobs, env, Terminate(spec, s, jobs, env))
  {
    var late := Overdue(s, env.now);
    assert late == Forced(s, env.now);
    var cancelling := Cancelling(spec, s, late, env.now);
    CancellingShows(spec, s, late, env.now);
    var error := DeletionError(late, jobs[s.jobName].deleting, env);
    if error.Some? {
      var reason := if late then ForcedCancellationFailed else GracefulCancellationFailed;
      var stuck := CancelError(spec, cancelling, reason, error.value, env.now);
      ErrorShows(spec, cancelling, reason, error.value, env.now);
      assert Terminate(spec, s, jobs, env) == Effect(stuck, jobs, [], true);
    } else {
      assert Terminate(spec, s, jobs, env) == Effect(cancelling, Terminating(jobs, s.jobName), [], false);
    }
  }

  lemma CancellingShows(spec: Spec, s: Status, forced: bool, now: Instant)
    ensures var r := Cancelling(spec, s, forced, now);
            && CancelShows(r, false, if forced then ForcedTerminationPending else GracefulTerminationPending,
                           Begun(s, now))
            && r.category == s.category && Begun(r, now) == Begun(s, now)
  {
  }

  lemma ErrorShows(spec: Spec, s: Status, reason: Reason, failure: Failure, now: Instant)
    ensures var r := CancelError(spec, s, reason, failure, now);
            && CancelShows(r, false, reason, Begun(s, now))
            && (reason != CancellationJobConflict ==>
                  r.category == if failure == PermanentFailure then PolicyCategory else TransientCategory)
  {
  }

  /** The attempt ends as cancelled, by force or not. */
  predicate Completes(s: Status, jobs: map<string, Job>, env: Env, e: Effect, forced: bool) {
    && e.status.phase == CancelledPhase && e.jobs == jobs && e.writes == [] && !e.failed
    && e.status.completion == (if s.completion.Some? then s.completion else Some(env.now))
    && CancellationComplete in e.status.conditions && e.status.conditions[CancellationComplete].status
    && e.status.conditions[CancellationComplete].reason == if forced then ForcedCancellation else GracefulCancellation
  }

  /** The pass could not find out, and says why. */
  predicate Stuck(s: Status, jobs: map<string, Job>, env: Env, e: Effect, reason: Reason, category: Category) {
    && e.status.phase == CancellingPhase && e.jobs == jobs && e.writes == [] && e.failed
    && CancelShows(e.status, false, reason, Begun(s, env.now)) && e.status.category == category
  }

  function CategoryOf(f: Failure): Category {
    if f == PermanentFailure then PolicyCategory else TransientCategory
  }

  /** The record of a cancellation that was forced, or that is overdue. */
  predicate ForcedOnRecord(s: Status, now: Instant) {
    && CancellationComplete in s.conditions
    && var c := s.conditions[CancellationComplete];
    c.reason == ForcedTerminationPending || c.reason == ForcedCancellation ||
    (!c.status && now >= c.since + 120 * SECOND)
  }

  lemma CompleteIs(spec: Spec, s: Status, jobs: map<string, Job>, env: Env, forced: bool)
    ensures Completes(s, jobs, env, Effect(Complete(spec, s, forced, env.now), jobs, [], false), forced)
  {
  }

  lemma ErrorIs(spec: Spec, s: Status, jobs: map<string, Job>, env: Env, reason: Reason, failure: Failure)
    ensures Stuck(s, jobs, env, Effect(CancelError(spec, s, reason, failure, env.now), jobs, [], true), reason,
                  if reason == CancellationJobConflict then InternalCategory else CategoryOf(failure))
  {
  }

  /** A cancelling pass that finds no Job to delete, or cannot find out. */
  predicate CancelsUnseen(spec: Spec, s: Status, jobs: map<string, Job>, env: Env, e: Effect) {
    if s.jobName == "" then Completes(s, jobs, env, e, false)
    else if s.jobName != JobName(spec.runId, CurrentAttempt(spec, s)) then
      Stuck(s, jobs, env, e, CancellationJobConflict, InternalCategory)
    else if env.jobRead.Fails? then
      Stuck(s, jobs, env, e, CancellationJobReadFailed, CategoryOf(env.jobRead.failure))
    else Completes(s, jobs, env, e, ForcedOnRecord(s, env.now))
  }

  /** The pass reads the Job that its status names for the current attempt. */
  predicate SeesJob(spec: Spec, s: Status, jobs: map<string, Job>, env: Env) {
    && s.jobName == JobName(spec.runId, CurrentAttempt(spec, s)) && env.jobRead == Done && s.jobName in jobs
  }

  lemma AbsentCompletes(spec: Spec, s: Status, jobs: map<string, Job>, env: Env)
    requires s.jobName == "" ||
             (s.jobName == JobName(spec.runId, CurrentAttempt(spec, s)) && env.jobRead == Done && s.jobName !in jobs)
    ensures Completes(s, jobs, env, Cancellation(spec, s, jobs, env), s.jobName != "" && ForcedOnRecord(s, env.now))
  {
    var forced := s.jobName != "" && ForcedOnRecord(s, env.now);
    assert Cancellation(spec, s, jobs, env) == Effect(Complete(spec, s, forced, env.now), jobs, [], false);
    CompleteIs(spec, s, jobs, env, forced);
  }

  lemma UnreadSticks(spec: Spec, s: Status, jobs: map<string, Job>, env: Env, reason: Reason, failure: Failure)
    requires s.jobName != ""
    requires if s.jobName != JobName(spec.runId, CurrentAttempt(spec, s))
             then reason == CancellationJobConflict && failure == PermanentFailure
             else reason == CancellationJobReadFailed && env.jobRead == Fails(failure)
    ensures Stuck(s, jobs, env, Cancellation(spec, s, jobs, env), reason,
                  if reason == CancellationJobConflict then InternalCategory else CategoryOf(failure))
  {
    assert Cancellation(spec, s, jobs, env) ==
           Effect(CancelError(spec, s, reason, failure, env.now), jobs, [], true);
    ErrorIs(spec, s, jobs, env, reason, failure);
  }

  lemma UnseenIs(spec: Spec, s: Status, jobs: map<string, Job>, env: Env)
    requires !SeesJob(spec, s, jobs, env)
    ensures CancelsUnseen(spec, s, jobs, env, Cancellation(spec, s, jobs, env))
  {
    if s.jobName == "" {
      AbsentCompletes(spec, s, jobs, env);
    } else if s.jobName != JobName(spec.runId, CurrentAttempt(spec, s)) {
      UnreadSticks(spec, s, jobs, env, CancellationJobConflict, PermanentFailure);
    } else if env.jobRead.Fails? {
      UnreadSticks(spec, s, jobs, env, CancellationJobReadFailed, env.jobRead.failure);
    } else {
      AbsentCompletes(spec, s, jobs, env);
    }
  }

  /** Whether the pass comes to the deletion: the Job is going already, or has not been seen to end. */
  predicate GoesOn(s: Status, jobs: map<string, Job>, env: Env)
    requires s.jobName in jobs
  {
    || jobs[s.jobName].deleting
    || (env.podList == Done &&
        Observe(s.jobName, jobs[s.jobName], env.pods).phase in {ProvisioningPhase, RunningPhase})
  }

  lemma SeenIs(spec: Spec, s: Status, jobs: map<string, Job>, env: Env)
    requires SeesJob(spec, s, jobs, env) && GoesOn(s, jobs, env)
    ensures Deletes(s, jobs, env, Cancellation(spec, s, jobs, env))
  {
    assert Cancellation(spec, s, jobs, env) == Terminate(spec, s, jobs, env);
    TerminateDeletes(spec, s, jobs, env);
  }

  /** An execution that has ended by itself is recorded as it ended. */
  lemma EndedIs(spec: Spec, s: Status, jobs: map<string, Job>, env: Env)
    requires SeesJob(spec, s, jobs, env) && !GoesOn(s, jobs, env)
    ensures var e := Cancellation(spec, s, jobs, env);
            if env.podList.Fails? then
              Stuck(s, jobs, env, e, CancellationPodReadFailed, CategoryOf(env.podList.failure))
            else
              && e.jobs == jobs && e.writes == [] && !e.failed
              && Records(e.status, Observe(s.jobName, jobs[s.jobName], env.pods))
  {
    var e := Cancellation(spec, s, jobs, env);
    if env.podList.Fails? {
      assert e == Effect(CancelError(spec, s, CancellationPodReadFailed, env.podList.failure, env.now), jobs, [], true);
      ErrorIs(spec, s, jobs, env, CancellationPodReadFailed, env.podList.failure);
    } else {
      assert e == Effect(Project(spec, s, Observe(s.jobName, jobs[s.jobName], env.pods), env.now), jobs, [], false);
    }
  }

  // ---- Passes ----

  lemma InitializedBegun(spec: Spec, s: Status, now: Instant)
    ensures var mid := Initialized(spec, s, now);
            && Begun(mid, now) == Begun(s, now) && ForcedOnRecord(mid, now) == ForcedOnRecord(s, now)
            && mid.jobName == s.jobName && mid.category == s.category && mid.completion == s.completion
            && CurrentAttempt(spec, mid) == CurrentAttempt(spec, s)
  {
    assert KeepsAnchors(s, Initialized(spec, s, now));
    assert ConditionOf(Initialized(spec, s, now), CancellationComplete) == ConditionOf(s, CancellationComplete);
  }

  /**
   A cancelling pass that sees its Job alive: it acts by the deadline, and exactly so. Until two minutes after the
   beginning on record it asks gracefully, from then on by force; the forced Pod deletions count exactly from then on,
   the Job's deletion if it is forced or the Job is not going yet.
   */
  lemma CancellingPassIs(spec: Spec, s: Status, jobs: map<string, Job>, env: Env)
    requires !AttemptTerminal(spec, s) && SeesJob(spec, s, jobs, env) && GoesOn(s, jobs, env)
    ensures Deletes(s, jobs, env, Reconcile(spec, true, s, jobs, env))
  {
    InitializedBegun(spec, s, env.now);
    SeenIs(spec, Initialized(spec, s, env.now), jobs, env);
  }

  /** A cancelling pass that finds no Job, or cannot find out: it completes, or says why not. */
  lemma UnseenPassIs(spec: Spec, s: Status, jobs: map<string, Job>, env: Env)
    requires !AttemptTerminal(spec, s) && !SeesJob(spec, s, jobs, env)
    ensures CancelsUnseen(spec, s, jobs, env, Reconcile(spec, true, s, jobs, env))
  {
    InitializedBegun(spec, s, env.now);
    UnseenIs(spec, Initialized(spec, s, env.now), jobs, env);
  }

  /** A cancelling pass whose Job ended by itself: that is what is recorded. */
  lemma EndedPassIs(spec: Spec, s: Status, jobs: map<string, Job>, env: Env)
    requires !AttemptTerminal(spec, s) && SeesJob(spec, s, jobs, env) && !GoesOn(s, jobs, env) && env.podList == Done
    ensures var e := Reconcile(spec, true, s, jobs, env);
            && e.jobs == jobs && !e.failed && Records(e.status, Observe(s.jobName, jobs[s.jobName], env.pods))
  {
    InitializedBegun(spec, s, env.now);
    EndedIs(spec, Initialized(spec, s, env.now), jobs, env);
  }

  // ---- Over runs ----

  /** The beginning of a cancellation is on record. */
  predicate OnRecord(s: Status, since: Time) {
    && CancellationComplete in s.conditions && !s.conditions[CancellationComplete].status
    && s.conditions[CancellationComplete].since == since
  }

  lemma RecordStays(spec: Spec, ws: seq<World>, steps: seq<Step>, i: nat, j: nat, since: Time)
    requires ValidSpec(spec) && IsRun(spec, ws, steps) && i <= j < |ws|
    requires OnRecord(ws[i].status, since) && ws[j].status.phase != CancelledPhase
    ensures OnRecord(ws[j].status, since)
  {
    AnchorNeverMoves(spec, ws, steps, i, j);
  }

  /**
   Over every run, through restarts, lost patches and failed passes: once the beginning of a cancellation is on record,
   whichever later pass sees the Job alive and has its calls succeed records ForcedTerminationPending if and only if
   its clock has reached that moment plus two minutes, and GracefulTerminationPending otherwise.
   */
  lemma DeadlineDecides(spec: Spec, ws: seq<World>, steps: seq<Step>, i: nat, j: nat, since: Time)
    requires ValidSpec(spec) && IsRun(spec, ws, steps) && i <= j < |steps| && steps[j].PassStep?
    requires OnRecord(ws[i].status, since) && ws[j].cancelled && !AttemptTerminal(spec, ws[j].status)
    requires SeesJob(spec, ws[j].status, ws[j].jobs, steps[j].env) && GoesOn(ws[j].status, ws[j].jobs, steps[j].env)
    requires steps[j].env.forcedPods == Done && steps[j].env.jobDelete == Done && steps[j].env.patchLands
    requires spec.retain && !ws[j].finalizer ==> steps[j].env.finalizerWrite
    ensures OnRecord(ws[j + 1].status, since)
    ensures ws[j + 1].status.conditions[CancellationComplete].reason ==
            if steps[j].env.now >= since + 120 * SECOND then ForcedTerminationPending else GracefulTerminationPending
    ensures ws[j].status.jobName in ws[j + 1].jobs && ws[j + 1].jobs[ws[j].status.jobName].deleting
  {
    StatusAlwaysValid(spec, ws, steps, j);
    RecordStays(spec, ws, steps, i, j, since);
    assert Follows(spec, ws, steps, j);
    CancellingPassIs(spec, ws[j].status, ws[j].jobs, steps[j].env);
  }

  /** The first pass of a cancellation, which puts its beginning on record, is always graceful. */
  lemma FirstPassIsGraceful(spec: Spec, w: World, env: Env)
    requires w.cancelled && !AttemptTerminal(spec, w.status) && CancellationComplete !in w.status.conditions
    requires SeesJob(spec, w.status, w.jobs, env) && GoesOn(w.status, w.jobs, env)
    requires env.jobDelete == Done && env.patchLands && (spec.retain && !w.finalizer ==> env.finalizerWrite)
    ensures var r := Apply(spec, w, PassStep(env)).status;
            OnRecord(r, env.now) && r.conditions[CancellationComplete].reason == GracefulTerminationPending
  {
    CancellingPassIs(spec, w.status, w.jobs, env);
  }
}
