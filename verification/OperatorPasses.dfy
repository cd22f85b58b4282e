/** What one pass of the operator does, from the calls it makes and the clock: gates, Job, backoff and cancellation. */
module OperatorPasses {
  import opened Common
  import opened Naming
  import opened Pods
  import opened Operator
  import opened OperatorRuns
  import opened OperatorDeadlines
  import B = Backoff

  // ---- Gates ----

  /** The pass stopped there: the status says so, and the Jobs are as they were. */
  predicate StoppedAt(e: Effect, jobs: map<string, Job>, stop: Stop) {
    e.jobs == jobs && e.failed == stop.failed && Shows(e.status, stop)
  }

  /** A running pass stops at the first gate that does not open, records it there, and does not touch the Job. */
  lemma PassStopsAtFirst(spec: Spec, s: Status, jobs: map<string, Job>, env: Env)
    requires !AttemptTerminal(spec, s) && FirstStop(env).Some?
    ensures StoppedAt(Reconcile(spec, false, s, jobs, env), jobs, FirstStop(env).value)
  {
    var mid := AcceptedStatus(spec, s, env.now);
    GatesStop(spec, mid, jobs, env);
    StoppedIsNotRetried(spec, Prerequisites(spec, mid, jobs, env), jobs, env);
  }

  lemma StoppedIsNotRetried(spec: Spec, e: Effect, jobs: map<string, Job>, env: Env)
    requires FirstStop(env).Some? && StoppedAt(e, jobs, FirstStop(env).value)
    ensures e.failed || !RetryAllowed(spec, e.status)
  {
  }

  lemma GatesStop(spec: Spec, s: Status, jobs: map<string, Job>, env: Env)
    requires s.category == NoCategory && FirstStop(env).Some?
    ensures StoppedAt(Prerequisites(spec, s, jobs, env), jobs, FirstStop(env).value)
  {
    assert GateIs(s, Gates(spec, s, env), FirstStop(env));
  }

  // ---- The Job ----

  /** The apply of the Job reached the cluster. */
  predicate JobLands(env: Env) {
    env.jobApply.EnsureFailed? ==> env.jobApply.landed
  }

  lemma JobsOfPass(spec: Spec, s: Status, jobs: map<string, Job>, env: Env)
    requires !AttemptTerminal(spec, s) && s.jobName == "" && JobName(spec.runId, CurrentAttempt(spec, s)) !in jobs
    ensures Reconcile(spec, false, s, jobs, env).jobs != jobs <==> FirstStop(env).None? && JobLands(env)
  {
    if FirstStop(env).Some? {
      PassStopsAtFirst(spec, s, jobs, env);
    } else {
      OpenGatesCreate(spec, AcceptedStatus(spec, s, env.now), jobs, env);
      PassLeavesJobs(spec, s, jobs, env);
    }
  }

  lemma PassLeavesJobs(spec: Spec, s: Status, jobs: map<string, Job>, env: Env)
    requires !AttemptTerminal(spec, s)
    ensures Reconcile(spec, false, s, jobs, env).jobs ==
            Prerequisites(spec, AcceptedStatus(spec, s, env.now), jobs, env).jobs
  {
    var e := Prerequisites(spec, AcceptedStatus(spec, s, env.now), jobs, env);
    var next := if !e.failed && RetryAllowed(spec, e.status) then ReconcileRetry(spec, e.status, env.now) else e.status;
    assert RunningPass(spec, s, jobs, env) == e.(status := next);
  }

  lemma OpenGatesCreate(spec: Spec, s: Status, jobs: map<string, Job>, env: Env)
    requires FirstStop(env).None? && s.jobName == "" && JobName(spec.runId, CurrentAttempt(spec, s)) !in jobs
    ensures Prerequisites(spec, s, jobs, env).jobs != jobs <==> JobLands(env)
  {
    var mid := AtTheJob(spec, s, jobs, env);
    GateCreates(spec, mid, jobs, env);
  }

  lemma GateCreates(spec: Spec, s: Status, jobs: map<string, Job>, env: Env)
    requires s.jobName == "" && JobName(spec.runId, CurrentAttempt(spec, s)) !in jobs
    ensures JobGate(spec, s, jobs, env).jobs != jobs <==> JobLands(env)
  {
    var name := JobName(spec.runId, CurrentAttempt(spec, s));
    assert name in jobs[name := FreshJob(env.freshUid)];
  }

  /**
   A pass creates the Job of attempt a if and only if the attempt is the current one and has not ended, nobody asked
   to cancel, no Job is named or held for it, the finalizer is persisted where one is needed, every gate before the
   Job is open, and the apply lands.
   */
  lemma JobCreatedIff(spec: Spec, w: World, env: Env, a: nat)
    ensures Created(w, Apply(spec, w, PassStep(env)), a) <==>
            && !w.cancelled && (spec.retain && !w.finalizer ==> env.finalizerWrite)
            && CurrentAttempt(spec, w.status) == a
            && !(w.status.attempt == a && w.status.phase in {SucceededPhase, FailedPhase, CancelledPhase})
            && w.status.jobName == "" && JobName(spec.runId, a) !in w.jobs
            && FirstStop(env).None? && JobLands(env)
  {
    CreationIsGuarded(spec, w, env);
    var after := Apply(spec, w, PassStep(env));
    if !Blocked(spec, w, env) && !w.cancelled && !AttemptTerminal(spec, w.status) && w.status.jobName == "" &&
       JobName(spec.runId, CurrentAttempt(spec, w.status)) !in w.jobs {
      JobsOfPass(spec, w.status, w.jobs, env);
    }
  }

  /** What a pass makes of the Job once every gate before it is open. */
  datatype JobStage = Stopped(stop: Stop) | Missing | Seen(job: Job)

  /** A named Job must be there and stay; an unnamed one is created, or taken over if it is the run's own. */
  function StageOf(spec: Spec, s: Status, jobs: map<string, Job>, env: Env): JobStage {
    var name := JobName(spec.runId, CurrentAttempt(spec, s));
    var named := s.jobName != "";
    if named && s.jobName != name then
      Stopped(Stop(JobReady, JobIdentityConflict, FailedPhase, InternalCategory, true))
    else if named && env.jobRead.Fails? then Stopped(Broken(JobReady, JobReadFailed, env.jobRead.failure))
    else if named && (name !in jobs || jobs[name].deleting) then Missing
    else if name in jobs && !jobs[name].owned then Stopped(Broken(JobReady, JobReconcileFailed, ResourceConflict))
    else if env.jobApply.EnsureFailed? then Stopped(Broken(JobReady, JobReconcileFailed, env.jobApply.failure))
    else if env.jobReread.Fails? then Stopped(Broken(JobReady, JobReadFailed, env.jobReread.failure))
    else if env.podList.Fails? then Stopped(Broken(JobReady, PodListFailed, env.podList.failure))
    else Seen(if name in jobs then jobs[name] else FreshJob(env.freshUid))
  }

  /** The observation a pass records, if it comes so far. */
  function Observed(spec: Spec, s: Status, jobs: map<string, Job>, env: Env): Option<Observation> {
    match StageOf(spec, s, jobs, env)
    case Stopped(_) => None
    case Missing => Some(Observation(FailedPhase, JobMissing, s.podName, s.start, s.completion, InternalCategory, ""))
    case Seen(job) => Some(Observe(JobName(spec.runId, CurrentAttempt(spec, s)), job, env.pods))
  }

  lemma CreateAndObserveIs(spec: Spec, s: Status, jobs: map<string, Job>, env: Env)
    requires s.jobName == "" || (s.jobName == JobName(spec.runId, CurrentAttempt(spec, s)) && s.jobName in jobs)
    requires !StageOf(spec, s, jobs, env).Missing?
    requires s.jobName != "" ==> env.jobRead == Done
    ensures var e := CreateAndObserve(spec, s, jobs, env);
            match StageOf(spec, s, jobs, env)
            case Stopped(stop) => e.failed && Shows(e.status, stop)
            case Seen(job) =>
              && !e.failed && e.status.jobName == JobName(spec.runId, CurrentAttempt(spec, s))
              && Records(e.status, Observe(e.status.jobName, job, env.pods))
            case Missing => false
  {
  }

  lemma JobGateIs(spec: Spec, s: Status, jobs: map<string, Job>, env: Env)
    ensures var e := JobGate(spec, s, jobs, env);
            match StageOf(spec, s, jobs, env)
            case Stopped(stop) => e.failed && Shows(e.status, stop)
            case _ => !e.failed && Records(e.status, Observed(spec, s, jobs, env).value)
  {
    var name := JobName(spec.runId, CurrentAttempt(spec, s));
    if !StageOf(spec, s, jobs, env).Missing? && (s.jobName == "" || (s.jobName == name && env.jobRead == Done)) {
      CreateAndObserveIs(spec, s, jobs, env);
    }
  }

  // ---- Retry ----

  /** A failed attempt that may be followed by another. */
  predicate MayRetry(spec: Spec, s: Status) {
    && s.phase == FailedPhase && spec.attempt <= s.attempt < spec.maxAttempts
    && (s.category == TransientCategory || s.category == InternalCategory) && s.category in spec.retryable
  }

  /** The wait after an attempt: doubled seconds up to the maximum, jittered between 500 and 1000 thousandths. */
  function Wait(spec: Spec, current: nat): nat
    requires current >= spec.attempt
  {
    var doubled := spec.initialBackoff * B.Pow2(current - spec.attempt);
    var seconds := if doubled < spec.maxBackoff then doubled else spec.maxBackoff;
    var thousandths := 500 + (if current + 1 in spec.jitter then spec.jitter[current + 1] else 0) % 501;
    seconds * thousandths * 1_000_000
  }

  lemma DelayIsWait(spec: Spec, current: nat)
    requires ValidSpec(spec) && current >= spec.attempt
    ensures RetryDelay(spec, current) == Wait(spec, current)
  {
    var hash := if current + 1 in spec.jitter then spec.jitter[current + 1] else 0;
    B.CappedIsWholeSeconds(spec.initialBackoff, spec.maxBackoff, current - spec.attempt);
    B.WholeSecondsSplit(B.Capped(spec.initialBackoff, spec.maxBackoff, current - spec.attempt), B.Permille(hash));
  }

  /** From when the wait counts: the end of the attempt, or the moment its backoff was first recorded. */
  function WaitsSince(s: Status, now: Instant): Time {
    if s.completion.Some? && s.completion.value != 0 then s.completion.value
    else if RetryReady in s.conditions && !s.conditions[RetryReady].status then s.conditions[RetryReady].since
    else now
  }

  /** Held back: nothing changes but the conditions, and the moment the backoff was first recorded stays. */
  predicate HoldsBack(s: Status, r: Status, now: Instant) {
    && r == s.(conditions := r.conditions) && IsFalse(r, Ready, RetryBackoff) && IsFalse(r, RetryReady, BackoffPending)
    && r.conditions[RetryReady].since ==
       if RetryReady in s.conditions && !s.conditions[RetryReady].status then s.conditions[RetryReady].since else now
  }

  /** The next attempt begins with a clean status. */
  predicate BeginsNext(s: Status, r: Status) {
    && r == Status(PendingPhase, s.attempt + 1, "", "", None, None, NoCategory, "", r.conditions, r.attempts)
    && RetryReady in r.conditions && r.conditions[RetryReady].status
    && r.conditions[RetryReady].reason == RetryStarted
  }

  lemma RetryIs(spec: Spec, s: Status, now: Instant)
    requires ValidSpec(spec) && MayRetry(spec, s)
    ensures var r := ReconcileRetry(spec, s, now);
            if now < WaitsSince(s, now) + Wait(spec, s.attempt) then HoldsBack(s, r, now) else BeginsNext(s, r)
  {
    ReadyIs(spec, s, now);
    if ReadyAt(spec, s, now) > now {
      HeldBackHolds(s, now);
    } else {
      AdvancedBegins(spec, s, now);
    }
  }

  lemma ReadyIs(spec: Spec, s: Status, now: Instant)
    requires ValidSpec(spec) && spec.attempt <= s.attempt
    ensures ReadyAt(spec, s, now) == WaitsSince(s, now) + Wait(spec, s.attempt)
  {
    DelayIsWait(spec, s.attempt);
  }

  lemma HeldBackHolds(s: Status, now: Instant)
    ensures HoldsBack(s, HeldBack(s, now), now)
  {
  }

  lemma AdvancedBegins(spec: Spec, s: Status, now: Instant)
    requires spec.attempt <= s.attempt
    ensures BeginsNext(s, Advanced(spec, s, now))
  {
  }

  /**
   A pass on an attempt that has ended changes nothing but a condition, unless the attempt may be retried and nobody
   asked to cancel: then the next attempt begins exactly if the wait is over.
   */
  lemma EndedPassIs(spec: Spec, cancelled: bool, s: Status, jobs: map<string, Job>, env: Env)
    requires ValidSpec(spec) && AttemptTerminal(spec, s)
    ensures var e := Reconcile(spec, cancelled, s, jobs, env);
            && e.jobs == jobs && e.writes == [] && !e.failed
            && if cancelled || !MayRetry(spec, s) then Frozen(s, e.status) && KeepsAnchors(s, e.status)
               else if env.now < WaitsSince(s, env.now) + Wait(spec, s.attempt) then HoldsBack(s, e.status, env.now)
               else BeginsNext(s, e.status)
  {
    if MayRetry(spec, s) {
      RetryIs(spec, s, env.now);
    }
  }

  /**
   Over every run: once the wait after an attempt is on record, whichever later pass looks begins the next attempt if
   and only if its clock has reached the recorded moment plus the jittered, doubled, capped wait.
   */
  lemma RetriedExactlyWhenReady(spec: Spec, ws: seq<World>, steps: seq<Step>, i: nat, j: nat)
    requires ValidSpec(spec) && IsRun(spec, ws, steps) && i <= j < |steps| && steps[j].PassStep?
    requires MayRetry(spec, ws[i].status) && RetryAnchor(ws[i].status).Some?
    requires ws[j].status.attempt == ws[i].status.attempt && !ws[j].cancelled
    requires steps[j].env.patchLands && (spec.retain && !ws[j].finalizer ==> steps[j].env.finalizerWrite)
    ensures ws[j + 1].status.attempt == ws[j].status.attempt + 1 <==>
            steps[j].env.now >= WaitsSince(ws[i].status, 1) + Wait(spec, ws[i].status.attempt)
  {
    AnchorOfRetryStays(spec, ws, steps, i, j);
    AnchorIsSince(ws[i].status, 1);
    AnchorIsSince(ws[j].status, steps[j].env.now);
    assert Follows(spec, ws, steps, j);
    RetriedIff(spec, ws[j], steps[j].env);
  }

  lemma AnchorIsSince(s: Status, now: Instant)
    requires RetryAnchor(s).Some?
    ensures WaitsSince(s, now) == RetryAnchor(s).value
  {
  }

  lemma RetriedIff(spec: Spec, w: World, env: Env)
    requires ValidSpec(spec) && MayRetry(spec, w.status) && !w.cancelled && env.patchLands
    requires spec.retain && !w.finalizer ==> env.finalizerWrite
    ensures Apply(spec, w, PassStep(env)).status.attempt == w.status.attempt + 1 <==>
            env.now >= WaitsSince(w.status, env.now) + Wait(spec, w.status.attempt)
  {
    EndedPassIs(spec, false, w.status, w.jobs, env);
  }

  // ---- A running pass ----

  /** Neither the phase nor the conditions of a status matter to what a pass makes of the Job. */
  lemma StageIgnoresConditions(spec: Spec, s: Status, r: Status, jobs: map<string, Job>, env: Env)
    requires r == s.(phase := r.phase, attempt := r.attempt, category := r.category, conditions := r.conditions)
    requires CurrentAttempt(spec, r) == CurrentAttempt(spec, s)
    ensures StageOf(spec, r, jobs, env) == StageOf(spec, s, jobs, env)
    ensures Observed(spec, r, jobs, env) == Observed(spec, s, jobs, env)
  {
  }

  /** The status after the gates: what the pass comes to the Job with. */
  lemma AtTheJob(spec: Spec, s: Status, jobs: map<string, Job>, env: Env) returns (mid: Status)
    requires FirstStop(env).None?
    ensures mid == s.(phase := mid.phase, category := mid.category, conditions := mid.conditions)
    ensures KeepsAnchors(s, mid)
    ensures var e := Prerequisites(spec, s, jobs, env);
            e == JobGate(spec, mid, jobs, env).(writes := e.writes)
  {
    var g := Gates(spec, s, env);
    assert GateIs(s, g, FirstStop(env)) && GateFrame(s, g);
    mid := g.0;
  }

  /** A running pass with every gate open: it stops at the Job, or records what it observed and may retry. */
  lemma PrerequisitesSettle(spec: Spec, s: Status, jobs: map<string, Job>, env: Env)
    requires FirstStop(env).None?
    ensures var e := Prerequisites(spec, s, jobs, env);
            match StageOf(spec, s, jobs, env)
            case Stopped(stop) => e.failed && Shows(e.status, stop)
            case _ => !e.failed && Records(e.status, Observed(spec, s, jobs, env).value)
  {
    var mid := AtTheJob(spec, s, jobs, env);
    StageIgnoresConditions(spec, s, mid, jobs, env);
    JobGateIs(spec, mid, jobs, env);
  }

  /** What becomes of a recorded observation: it stays, or the retry holds back, or the next attempt begins. */
  predicate Settled(spec: Spec, seen: Status, r: Status, now: Instant) {
    if !MayRetry(spec, seen) then r == seen
    else if now < WaitsSince(seen, now) + Wait(spec, seen.attempt) then HoldsBack(seen, r, now)
    else BeginsNext(seen, r)
  }

  lemma RetrySettles(spec: Spec, seen: Status, now: Instant)
    requires ValidSpec(spec)
    ensures Settled(spec, seen, if RetryAllowed(spec, seen) then ReconcileRetry(spec, seen, now) else seen, now)
  {
    if MayRetry(spec, seen) {
      RetryIs(spec, seen, now);
    }
  }

  lemma RunningEffect(spec: Spec, s: Status, jobs: map<string, Job>, env: Env) returns (e: Effect)
    requires !AttemptTerminal(spec, s)
    ensures e == Prerequisites(spec, AcceptedStatus(spec, s, env.now), jobs, env)
    ensures Reconcile(spec, false, s, jobs, env) ==
            e.(status := if !e.failed && RetryAllowed(spec, e.status) then ReconcileRetry(spec, e.status, env.now)
                         else e.status)
    ensures KeepsAnchors(s, e.status)
  {
    e := Prerequisites(spec, AcceptedStatus(spec, s, env.now), jobs, env);
  }

  lemma SeenBeforeRetry(spec: Spec, s: Status, jobs: map<string, Job>, env: Env, e: Effect)
    requires FirstStop(env).None? && e == Prerequisites(spec, AcceptedStatus(spec, s, env.now), jobs, env)
    ensures match StageOf(spec, s, jobs, env)
            case Stopped(stop) => e.failed && Shows(e.status, stop)
            case _ => !e.failed && Records(e.status, Observed(spec, s, jobs, env).value)
  {
    var accepted := AcceptedStatus(spec, s, env.now);
    StageIgnoresConditions(spec, s, accepted, jobs, env);
    PrerequisitesSettle(spec, accepted, jobs, env);
  }

  /**
   A running pass whose gates are all open records exactly what it observed of the attempt's Job and Pods; only if that
   is a failure that may be retried does it go on, in the same pass, to hold the retry back or begin the next attempt.
   */
  lemma RunningPassIs(spec: Spec, s: Status, jobs: map<string, Job>, env: Env) returns (seen: Status)
    requires ValidSpec(spec) && !AttemptTerminal(spec, s) && FirstStop(env).None?
    ensures KeepsAnchors(s, seen) && RunsAs(spec, s, jobs, env, seen, Reconcile(spec, false, s, jobs, env))
  {
    var e := RunningEffect(spec, s, jobs, env);
    seen := e.status;
    SeenBeforeRetry(spec, s, jobs, env, e);
    RetrySettles(spec, seen, env.now);
  }

  predicate RunsAs(spec: Spec, s: Status, jobs: map<string, Job>, env: Env, seen: Status, e: Effect) {
    match StageOf(spec, s, jobs, env)
    case Stopped(stop) => e.failed && Shows(e.status, stop)
    case _ =>
      && !e.failed && Records(seen, Observed(spec, s, jobs, env).value) && Settled(spec, seen, e.status, env.now)
  }

  // ---- History ----

  /** The history holds this status as the entry of its attempt. */
  predicate InHistory(spec: Spec, r: Status) {
    var current := CurrentAttempt(spec, r);
    exists i :: 0 <= i < |r.attempts| && r.attempts[i] ==
      AttemptEntry(current, r.jobName, r.podName, r.phase, r.start, r.completion, r.category, r.artifact)
  }

  lemma {:induction false} UpsertHolds(entries: seq<AttemptEntry>, e: AttemptEntry) returns (i: nat)
    ensures i < |Upsert(entries, e)| && Upsert(entries, e)[i] == e
  {
    if |entries| > 0 && entries[|entries| - 1].attempt > e.attempt {
      i := UpsertHolds(entries[..|entries| - 1], e);
    } else {
      i := |Upsert(entries, e)| - 1;
    }
  }

  lemma UpsertedIsInHistory(spec: Spec, r: Status, entries: seq<AttemptEntry>)
    requires r.attempts == Upsert(entries, EntryOf(spec, r))
    ensures InHistory(spec, r)
  {
    var i := UpsertHolds(entries, EntryOf(spec, r));
  }

  lemma RunningHistory(spec: Spec, s: Status, jobs: map<string, Job>, env: Env)
    requires !AttemptTerminal(spec, s)
    ensures var r := Reconcile(spec, false, s, jobs, env).status; r.attempts == s.attempts || InHistory(spec, r)
  {
    var e := RunningEffect(spec, s, jobs, env);
    var mid := AcceptedStatus(spec, s, env.now);
    assert PrerequisiteFrame(spec, mid, jobs, e);
    var r := Reconcile(spec, false, s, jobs, env).status;
    if r == Advanced(spec, e.status, env.now) && !e.failed && RetryAllowed(spec, e.status) {
      UpsertedIsInHistory(spec, r, e.status.attempts);
    } else if e.status.attempts != mid.attempts {
      UpsertedIsInHistory(spec, e.status, mid.attempts);
    }
  }

  /** Whatever a pass adds to the history of attempts is exactly the status it leaves. */
  lemma HistoryShowsStatus(spec: Spec, cancelled: bool, s: Status, jobs: map<string, Job>, env: Env)
    ensures var r := Reconcile(spec, cancelled, s, jobs, env).status; r.attempts == s.attempts || InHistory(spec, r)
  {
    if AttemptTerminal(spec, s) {
      TerminalPass(spec, cancelled, s, jobs, env);
      UpsertedIsInHistory(spec, Advanced(spec, s, env.now), s.attempts);
    } else if cancelled {
      var mid := Initialized(spec, s, env.now);
      UpsertedIsInHistory(spec, Cancellation(spec, mid, jobs, env).status, mid.attempts);
    } else {
      RunningHistory(spec, s, jobs, env);
    }
  }
}
