/** Terminal phases, cancellation deadlines and retry times over every run of the operator. */
module OperatorDeadlines {
  import opened Common
  import opened Naming
  import opened Pods
  import opened Operator
  import opened OperatorRuns

  // ---- Terminal phases ----

  /** Nothing but conditions differs. */
  predicate Frozen(s: Status, r: Status) {
    r == s.(conditions := r.conditions)
  }

  /**
   Succeeded and Cancelled are never left; Failed is left only by a retry that the allowlist and the ceiling
   permit, while the desired state is Running.
   */
  lemma TerminalIsStable(spec: Spec, w: World, step: Step)
    requires StatusInv(spec, w.status) && IsTerminalPhase(w.status.phase)
    ensures var r := Apply(spec, w, step).status;
            || Frozen(w.status, r)
            || (&& w.status.phase == FailedPhase && !w.cancelled && RetryAllowed(spec, w.status)
                && step.PassStep? && r == Advanced(spec, w.status, step.env.now))
  {
  }

  lemma FinishedStep(spec: Spec, ws: seq<World>, steps: seq<Step>, i: nat)
    requires ValidSpec(spec) && IsRun(spec, ws, steps) && i < |steps|
    requires ws[i].status.phase in {SucceededPhase, CancelledPhase}
    ensures Frozen(ws[i].status, ws[i + 1].status)
  {
    StatusAlwaysValid(spec, ws, steps, i);
    assert Follows(spec, ws, steps, i);
    TerminalIsStable(spec, ws[i], steps[i]);
  }

  /** Once Succeeded or Cancelled is persisted, every later persisted status is the same but for its conditions. */
  lemma {:induction false} FinishedForever(spec: Spec, ws: seq<World>, steps: seq<Step>, i: nat, j: nat)
    requires ValidSpec(spec) && IsRun(spec, ws, steps) && i <= j < |ws|
    requires ws[i].status.phase in {SucceededPhase, CancelledPhase}
    ensures Frozen(ws[i].status, ws[j].status)
    decreases j
  {
    if i < j {
      FinishedForever(spec, ws, steps, i, j - 1);
      FinishedStep(spec, ws, steps, j - 1);
    }
  }

  /** Success is only ever recorded by a pass that saw the evidence in the attempt's own Job and Pod. */
  lemma SuccessNeedsEvidence(spec: Spec, w: World, step: Step)
    requires ValidSpec(spec) && StatusInv(spec, w.status)
    requires w.status.phase != SucceededPhase && Apply(spec, w, step).status.phase == SucceededPhase
    ensures step.PassStep?
    ensures var name := JobName(spec.runId, CurrentAttempt(spec, w.status));
            var jobs := Apply(spec, w, step).jobs;
            && name in jobs
            && exists pod, manifest :: pod in step.env.pods && Proves(name, jobs[name], pod, manifest)
  {
    PassSuccess(spec, w.cancelled, w.status, w.jobs, step.env);
    SeenIsProved(spec, w.status, Apply(spec, w, step).jobs, step.env);
  }

  lemma SeenIsProved(spec: Spec, s: Status, jobs: map<string, Job>, env: Env)
    requires SeenSucceeded(spec, s, jobs, env)
    ensures var name := JobName(spec.runId, CurrentAttempt(spec, s));
            exists pod, manifest :: pod in env.pods && Proves(name, jobs[name], pod, manifest)
  {
    var name := JobName(spec.runId, CurrentAttempt(spec, s));
    SucceededIffProved(name, jobs[name], env.pods);
    var pod := SelectPod(name, jobs[name], env.pods).value;
    assert Proves(name, jobs[name], pod, Observe(name, jobs[name], env.pods).artifact);
  }

  lemma RunningSuccess(spec: Spec, s: Status, jobs: map<string, Job>, env: Env)
    requires !AttemptTerminal(spec, s) && s.phase != SucceededPhase
    requires Reconcile(spec, false, s, jobs, env).status.phase == SucceededPhase
    ensures SeenSucceeded(spec, s, Reconcile(spec, false, s, jobs, env).jobs, env)
  {
    assert PhaseFrame(spec, s, RunningPass(spec, s, jobs, env), env);
  }

  lemma PassSuccess(spec: Spec, cancelled: bool, s: Status, jobs: map<string, Job>, env: Env)
    requires s.phase != SucceededPhase && Reconcile(spec, cancelled, s, jobs, env).status.phase == SucceededPhase
    ensures SeenSucceeded(spec, s, Reconcile(spec, cancelled, s, jobs, env).jobs, env)
  {
    if AttemptTerminal(spec, s) {
      TerminalPass(spec, cancelled, s, jobs, env);
    } else if cancelled {
      CancelledSuccess(spec, Initialized(spec, s, env.now), jobs, env);
    } else {
      RunningSuccess(spec, s, jobs, env);
    }
  }

  lemma CancelledSuccess(spec: Spec, s: Status, jobs: map<string, Job>, env: Env)
    requires Cancellation(spec, s, jobs, env).status.phase == SucceededPhase
    ensures Cancellation(spec, s, jobs, env).jobs == jobs && SeenSucceeded(spec, s, jobs, env)
  {
  }

  // ---- Cancellation ----

  /** The anchor survives, or cancellation completed. */
  predicate AnchorKept(s: Status, r: Status) {
    CancellationStartedAt(s).Some? ==>
      CancellationStartedAt(r) == CancellationStartedAt(s) || r.phase == CancelledPhase
  }

  lemma CancelledPassKeepsAnchor(spec: Spec, s: Status, jobs: map<string, Job>, env: Env)
    ensures AnchorKept(s, Cancellation(spec, Initialized(spec, s, env.now), jobs, env).status)
  {
    assert KeepsAnchors(s, Initialized(spec, s, env.now));
  }

  lemma RunningPassKeepsAnchor(spec: Spec, s: Status, jobs: map<string, Job>, env: Env)
    requires !AttemptTerminal(spec, s)
    ensures AnchorKept(s, Reconcile(spec, false, s, jobs, env).status)
  {
    var mid := AcceptedStatus(spec, s, env.now);
    var e := Prerequisites(spec, mid, jobs, env);
    assert KeepsAnchors(s, mid) && KeepsAnchors(mid, e.status);
    assert ConditionOf(ReconcileRetry(spec, e.status, env.now), CancellationComplete) ==
        ConditionOf(s, CancellationComplete);
  }

  lemma PassKeepsAnchor(spec: Spec, cancelled: bool, s: Status, jobs: map<string, Job>, env: Env)
    ensures AnchorKept(s, Reconcile(spec, cancelled, s, jobs, env).status)
  {
    if AttemptTerminal(spec, s) {
      TerminalPass(spec, cancelled, s, jobs, env);
    } else if cancelled {
      CancelledPassKeepsAnchor(spec, s, jobs, env);
    } else {
      RunningPassKeepsAnchor(spec, s, jobs, env);
    }
  }

  /** The first cancelling status carries the anchor: from then on a deadline is running. */
  lemma CancellingIsAnchored(spec: Spec, s: Status, jobs: map<string, Job>, env: Env)
    requires !AttemptTerminal(spec, s) && Reconcile(spec, true, s, jobs, env).status.phase == CancellingPhase
    ensures CancellationStartedAt(Reconcile(spec, true, s, jobs, env).status) ==
            if CancellationStartedAt(s).Some? then CancellationStartedAt(s) else Some(env.now)
  {
    assert KeepsAnchors(s, Initialized(spec, s, env.now));
  }

  lemma AnchorStep(spec: Spec, ws: seq<World>, steps: seq<Step>, i: nat)
    requires IsRun(spec, ws, steps) && i < |steps|
    ensures AnchorKept(ws[i].status, ws[i + 1].status)
  {
    assert Follows(spec, ws, steps, i);
    if steps[i].PassStep? {
      PassKeepsAnchor(spec, ws[i].cancelled, ws[i].status, ws[i].jobs, steps[i].env);
    }
  }

  /** The anchor never moves, through restarts, lost patches and error passes, until cancellation has completed. */
  lemma {:induction false} AnchorNeverMoves(spec: Spec, ws: seq<World>, steps: seq<Step>, i: nat, j: nat)
    requires ValidSpec(spec) && IsRun(spec, ws, steps) && i <= j < |ws|
    ensures AnchorKept(ws[i].status, ws[j].status)
    decreases j
  {
    if i < j {
      AnchorNeverMoves(spec, ws, steps, i, j - 1);
      AnchorStep(spec, ws, steps, j - 1);
      if ws[j - 1].status.phase == CancelledPhase {
        FinishedStep(spec, ws, steps, j - 1);
      }
    }
  }

  /** Forced mode holds exactly from two minutes after the first persisted anchor, in whichever later pass asks. */
  lemma ForcedExactlyAtDeadline(spec: Spec, ws: seq<World>, steps: seq<Step>, i: nat, j: nat, now: Instant)
    requires ValidSpec(spec) && IsRun(spec, ws, steps) && i <= j < |ws|
    requires CancellationStartedAt(ws[i].status).Some? && ws[j].status.phase != CancelledPhase
    ensures Forced(ws[j].status, now) <==> now >= CancellationStartedAt(ws[i].status).value + CANCELLATION_DEADLINE
  {
    AnchorNeverMoves(spec, ws, steps, i, j);
  }

  lemma CancelledStepCreatesNothing(spec: Spec, w: World, step: Step)
    requires w.cancelled
    ensures Apply(spec, w, step).cancelled && Apply(spec, w, step).writes == w.writes
  {
    if step.PassStep? {
      CreationIsGuarded(spec, w, step.env);
    }
  }

  /** From the cancellation request on, no pass creates or applies any resource. */
  lemma {:induction false} NothingCreatedOnceCancelled(spec: Spec, ws: seq<World>, steps: seq<Step>, i: nat, j: nat)
    requires IsRun(spec, ws, steps) && i <= j < |ws| && ws[i].cancelled
    ensures ws[j].cancelled && ws[j].writes == ws[i].writes
    decreases j
  {
    if i < j {
      NothingCreatedOnceCancelled(spec, ws, steps, i, j - 1);
      assert Follows(spec, ws, steps, j - 1);
      CancelledStepCreatesNothing(spec, ws[j - 1], steps[j - 1]);
    }
  }

  /** Cancelled is recorded only by a pass whose status named no Job, or that saw the named Job absent. */
  lemma CancelledMeansNamedJobAbsent(spec: Spec, cancelled: bool, s: Status, jobs: map<string, Job>, env: Env)
    requires s.phase != CancelledPhase && Reconcile(spec, cancelled, s, jobs, env).status.phase == CancelledPhase
    ensures cancelled && (s.jobName == "" || s.jobName !in jobs)
  {
    if AttemptTerminal(spec, s) {
      TerminalPass(spec, cancelled, s, jobs, env);
    } else if cancelled {
      CompletionNeedsAbsence(spec, Initialized(spec, s, env.now), jobs, env);
    } else {
      RunningNeverCancels(spec, s, jobs, env);
    }
  }

  lemma RunningNeverCancels(spec: Spec, s: Status, jobs: map<string, Job>, env: Env)
    requires !AttemptTerminal(spec, s) && s.phase != CancelledPhase
    ensures Reconcile(spec, false, s, jobs, env).status.phase != CancelledPhase
  {
    assert PhaseFrame(spec, s, RunningPass(spec, s, jobs, env), env);
  }

  lemma CompletionNeedsAbsence(spec: Spec, s: Status, jobs: map<string, Job>, env: Env)
    requires Cancellation(spec, s, jobs, env).status.phase == CancelledPhase
    ensures s.jobName == "" || s.jobName !in jobs
  {
  }

  /**
   The attempt's Job outlives a completed cancellation exactly when the persisted status names no Job while the
   cluster holds one: the state a crash between the Job's creation and the status patch leaves.
   */
  lemma OrphanIffUnrecorded(spec: Spec, s: Status, jobs: map<string, Job>, env: Env)
    requires ValidSpec(spec) && StatusInv(spec, s) && !AttemptTerminal(spec, s)
    ensures var e := Reconcile(spec, true, s, jobs, env);
            var name := JobName(spec.runId, CurrentAttempt(spec, s));
            (e.status.phase == CancelledPhase && name in e.jobs) <==> (s.jobName == "" && name in jobs)
  {
    var mid := Initialized(spec, s, env.now);
    if Reconcile(spec, true, s, jobs, env).status.phase == CancelledPhase {
      CompletionNeedsAbsence(spec, mid, jobs, env);
    }
  }

  /** Every call of the pass succeeds. */
  predicate AllSucceeds(env: Env) {
    && env.builds && env.serviceAccount == Applied && env.references == AllPresent && env.configuration == Applied
    && env.workspace == Applied && env.storage == Bound && env.networkPolicy == Applied && env.jobApply == Applied
  }

  /**
   Such runs exist: whenever every call of the first pass succeeds but its status patch is lost, and cancellation
   is requested next, the following pass records Cancelled and the Job stays.
   */
  lemma LostPatchOrphansJob(spec: Spec, ws: seq<World>, steps: seq<Step>)
    requires ValidSpec(spec) && !spec.retain && IsRun(spec, ws, steps) && ws[0].jobs == map[]
    requires |steps| == 3 && steps[0].PassStep? && steps[1] == CancelStep && steps[2].PassStep?
    requires AllSucceeds(steps[0].env) && !steps[0].env.patchLands && steps[2].env.patchLands
    ensures ws[3].status.phase == CancelledPhase && JobName(spec.runId, spec.attempt) in ws[3].jobs
  {
    LostFirstPass(spec, ws, steps);
    CancelAfterFirst(spec, ws, steps);
    KeptThirdPass(spec, ws, steps);
  }

  lemma LostFirstPass(spec: Spec, ws: seq<World>, steps: seq<Step>)
    requires ValidSpec(spec) && !spec.retain && IsRun(spec, ws, steps) && ws[0].jobs == map[]
    requires |steps| > 0 && steps[0].PassStep? && AllSucceeds(steps[0].env) && !steps[0].env.patchLands
    ensures ws[1].status == INITIAL && JobName(spec.runId, spec.attempt) in ws[1].jobs
  {
    assert Follows(spec, ws, steps, 0);
    FirstPassCreates(spec, ws[0], steps[0].env);
  }

  lemma KeptThirdPass(spec: Spec, ws: seq<World>, steps: seq<Step>)
    requires ValidSpec(spec) && !spec.retain && IsRun(spec, ws, steps)
    requires |steps| > 2 && steps[2].PassStep? && steps[2].env.patchLands
    requires ws[2].cancelled && ws[2].status == INITIAL && JobName(spec.runId, spec.attempt) in ws[2].jobs
    ensures ws[3].status.phase == CancelledPhase && JobName(spec.runId, spec.attempt) in ws[3].jobs
  {
    assert Follows(spec, ws, steps, 2);
    CancelledPassOrphans(spec, ws[2], steps[2].env);
  }

  lemma CancelAfterFirst(spec: Spec, ws: seq<World>, steps: seq<Step>)
    requires IsRun(spec, ws, steps) && |steps| > 1 && steps[1] == CancelStep
    ensures ws[2] == ws[1].(cancelled := true)
  {
    assert Follows(spec, ws, steps, 1);
  }

  lemma CancelledPassOrphans(spec: Spec, w: World, env: Env)
    requires ValidSpec(spec) && !spec.retain && env.patchLands && w.cancelled && w.status == INITIAL
    requires JobName(spec.runId, spec.attempt) in w.jobs
    ensures var after := Apply(spec, w, PassStep(env));
            after.status.phase == CancelledPhase && JobName(spec.runId, spec.attempt) in after.jobs
  {
    OrphanIffUnrecorded(spec, w.status, w.jobs, env);
  }

  lemma FirstPassCreates(spec: Spec, w: World, env: Env)
    requires ValidSpec(spec) && !spec.retain && Start(w) && w.jobs == map[] && !env.patchLands && AllSucceeds(env)
    ensures Apply(spec, w, PassStep(env)).status == INITIAL && !Apply(spec, w, PassStep(env)).cancelled
    ensures JobName(spec.runId, spec.attempt) in Apply(spec, w, PassStep(env)).jobs
  {
  }

  // ---- Retry times ----

  /** A backoff whose ready time is on record. */
  predicate BackoffRecorded(spec: Spec, s: Status) {
    RetryAllowed(spec, s) && RetryAnchor(s).Some?
  }

  /** A pass that holds a retry back records its anchor, so that every later pass computes the same ready time. */
  lemma HoldingBackRecordsAnchor(spec: Spec, s: Status, now: Instant)
    requires RetryAllowed(spec, s)
    ensures BackoffRecorded(spec, HeldBack(s, now))
    ensures RetryAnchor(HeldBack(s, now)) == if RetryAnchor(s).Some? then RetryAnchor(s) else Some(now)
  {
  }

  lemma BackoffOutlives(spec: Spec, s: Status, r: Status, now: Instant)
    requires BackoffRecorded(spec, s)
    requires r in {s, HeldBack(s, now), Advanced(spec, s, now), SetCondition(s, SpecValid, true, Accepted, now)}
    ensures || (r.attempt == s.attempt && BackoffRecorded(spec, r) && RetryAnchor(r) == RetryAnchor(s))
            || r.attempt == s.attempt + 1
  {
    HoldingBackRecordsAnchor(spec, s, now);
  }

  lemma BackoffStays(spec: Spec, w: World, step: Step)
    requires BackoffRecorded(spec, w.status)
    ensures var r := Apply(spec, w, step).status;
            || (r.attempt == w.status.attempt && BackoffRecorded(spec, r) && RetryAnchor(r) == RetryAnchor(w.status))
            || r.attempt == w.status.attempt + 1
  {
    if step.PassStep? {
      TerminalPass(spec, w.cancelled, w.status, w.jobs, step.env);
      BackoffOutlives(spec, w.status, Apply(spec, w, step).status, step.env.now);
    }
  }

  lemma TerminalPass(spec: Spec, cancelled: bool, s: Status, jobs: map<string, Job>, env: Env)
    requires AttemptTerminal(spec, s)
    ensures Reconcile(spec, cancelled, s, jobs, env).status in
            {HeldBack(s, env.now), Advanced(spec, s, env.now), SetCondition(s, SpecValid, true, Accepted, env.now)}
  {
  }

  lemma BackoffStep(spec: Spec, ws: seq<World>, steps: seq<Step>, i: nat)
    requires IsRun(spec, ws, steps) && i < |steps| && BackoffRecorded(spec, ws[i].status)
    requires ws[i + 1].status.attempt == ws[i].status.attempt
    ensures BackoffRecorded(spec, ws[i + 1].status) && RetryAnchor(ws[i + 1].status) == RetryAnchor(ws[i].status)
  {
    assert Follows(spec, ws, steps, i);
    BackoffStays(spec, ws[i], steps[i]);
  }

  lemma {:induction false} AnchorOfRetryStays(spec: Spec, ws: seq<World>, steps: seq<Step>, i: nat, j: nat)
    requires ValidSpec(spec) && IsRun(spec, ws, steps) && i <= j < |ws|
    requires BackoffRecorded(spec, ws[i].status) && ws[j].status.attempt == ws[i].status.attempt
    ensures BackoffRecorded(spec, ws[j].status) && RetryAnchor(ws[j].status) == RetryAnchor(ws[i].status)
    decreases j
  {
    if i < j {
      AttemptsOnlyGrow(spec, ws, steps, i, j - 1);
      AttemptsOnlyGrow(spec, ws, steps, j - 1, j);
      AnchorOfRetryStays(spec, ws, steps, i, j - 1);
      BackoffStep(spec, ws, steps, j - 1);
    }
  }

  /** Once a backoff is recorded, every later pass computes the same ready time until the attempt advances. */
  lemma ReadyTimeIsStable(spec: Spec, ws: seq<World>, steps: seq<Step>, i: nat, j: nat, now: Instant, later: Instant)
    requires ValidSpec(spec) && IsRun(spec, ws, steps) && i <= j < |ws|
    requires BackoffRecorded(spec, ws[i].status) && ws[j].status.attempt == ws[i].status.attempt
    ensures ReadyAt(spec, ws[j].status, later) == ReadyAt(spec, ws[i].status, now)
  {
    AnchorOfRetryStays(spec, ws, steps, i, j);
  }
}
