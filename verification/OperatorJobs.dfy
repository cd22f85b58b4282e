/** One Job per attempt, and the one way to get a second: it is removed before any persisted status names it. */
module OperatorJobs {
  import opened Common
  import opened Naming
  import opened Pods
  import opened Operator
  import opened OperatorRuns
  import opened OperatorDeadlines

  /** The persisted state is one in which a pass may create the Job of attempt a. */
  predicate Exposed(spec: Spec, w: World, a: nat) {
    && !w.cancelled && !AttemptTerminal(spec, w.status)
    && w.status.jobName == "" && CurrentAttempt(spec, w.status) == a
  }

  /** The step removes the Job of attempt a from the cluster. */
  predicate Removes(spec: Spec, before: World, after: World, a: nat) {
    JobName(spec.runId, a) in before.jobs && JobName(spec.runId, a) !in after.jobs
  }

  /** No step removes attempt a's Job before a persisted status names it, ends the attempt or is asked to cancel. */
  predicate KeptUntilRecorded(spec: Spec, ws: seq<World>, a: nat) {
    forall k :: 0 <= k < |ws| - 1 && Exposed(spec, ws[k], a) ==> !Removes(spec, ws[k], ws[k + 1], a)
  }

  lemma {:induction false} FindRemoval(spec: Spec, ws: seq<World>, i: nat, j: nat, a: nat) returns (k: nat)
    requires i <= j < |ws| && JobName(spec.runId, a) in ws[i].jobs && JobName(spec.runId, a) !in ws[j].jobs
    ensures i <= k < j && Removes(spec, ws[k], ws[k + 1], a)
    decreases j
  {
    if JobName(spec.runId, a) in ws[j - 1].jobs {
      k := j - 1;
    } else {
      k := FindRemoval(spec, ws, i, j - 1, a);
    }
  }

  lemma TerminalStep(spec: Spec, ws: seq<World>, steps: seq<Step>, i: nat)
    requires ValidSpec(spec) && IsRun(spec, ws, steps) && i < |steps| && AttemptTerminal(spec, ws[i].status)
    ensures AttemptTerminal(spec, ws[i + 1].status) || ws[i + 1].status.attempt > ws[i].status.attempt
  {
    StatusAlwaysValid(spec, ws, steps, i);
    assert Follows(spec, ws, steps, i);
    TerminalIsStable(spec, ws[i], steps[i]);
  }

  /** An attempt that ended stays ended for as long as it is the current one. */
  lemma {:induction false} TerminalStays(spec: Spec, ws: seq<World>, steps: seq<Step>, i: nat, j: nat)
    requires ValidSpec(spec) && IsRun(spec, ws, steps) && i <= j < |ws| && AttemptTerminal(spec, ws[i].status)
    requires ws[j].status.attempt == ws[i].status.attempt
    ensures AttemptTerminal(spec, ws[j].status)
    decreases j
  {
    if i < j {
      AttemptsOnlyGrow(spec, ws, steps, i, j - 1);
      AttemptsOnlyGrow(spec, ws, steps, j - 1, j);
      TerminalStays(spec, ws, steps, i, j - 1);
      TerminalStep(spec, ws, steps, j - 1);
    }
  }

  /** Between two creations of the same Job every persisted state is one in which it may be created. */
  lemma ExposedBetween(spec: Spec, ws: seq<World>, steps: seq<Step>, i: nat, k: nat, j: nat, a: nat)
    requires ValidSpec(spec) && IsRun(spec, ws, steps) && i <= k <= j < |ws|
    requires Exposed(spec, ws[i], a) && Exposed(spec, ws[j], a)
    ensures Exposed(spec, ws[k], a)
  {
    AttemptsOnlyGrow(spec, ws, steps, i, k);
    AttemptsOnlyGrow(spec, ws, steps, k, j);
    if ws[k].cancelled {
      NothingCreatedOnceCancelled(spec, ws, steps, k, j);
    }
    if AttemptTerminal(spec, ws[k].status) {
      TerminalBefore(spec, ws, steps, k, j);
    }
  }

  lemma TerminalBefore(spec: Spec, ws: seq<World>, steps: seq<Step>, k: nat, j: nat)
    requires ValidSpec(spec) && IsRun(spec, ws, steps) && k <= j < |ws| && AttemptTerminal(spec, ws[k].status)
    requires CurrentAttempt(spec, ws[j].status) == CurrentAttempt(spec, ws[k].status)
    ensures AttemptTerminal(spec, ws[j].status)
  {
    AttemptsOnlyGrow(spec, ws, steps, k, j);
    TerminalStays(spec, ws, steps, k, j);
  }

  lemma NoSecondCreation(spec: Spec, ws: seq<World>, steps: seq<Step>, i: nat, j: nat, a: nat)
    requires ValidSpec(spec) && IsRun(spec, ws, steps) && KeptUntilRecorded(spec, ws, a) && i < j < |steps|
    requires Created(ws[i], ws[i + 1], a)
    ensures !Created(ws[j], ws[j + 1], a)
  {
    if Created(ws[j], ws[j + 1], a) {
      CreationAlongRun(spec, ws, steps, i, a);
      CreationAlongRun(spec, ws, steps, j, a);
      var k := FindRemoval(spec, ws, i + 1, j, a);
      ExposedBetween(spec, ws, steps, i, k, j, a);
    }
  }

  /**
   One Job per attempt: whatever else the cluster does, each attempt's Job is created at most once in any run that
   never removes it before a persisted status names it.
   */
  lemma OneJobPerAttempt(spec: Spec, ws: seq<World>, steps: seq<Step>, i: nat, j: nat, a: nat)
    requires ValidSpec(spec) && IsRun(spec, ws, steps) && KeptUntilRecorded(spec, ws, a) && i < |steps| && j < |steps|
    requires Created(ws[i], ws[i + 1], a) && Created(ws[j], ws[j + 1], a)
    ensures i == j
  {
    if i < j {
      NoSecondCreation(spec, ws, steps, i, j, a);
    } else if j < i {
      NoSecondCreation(spec, ws, steps, j, i, a);
    }
  }

  // ---- The condition is exact ----

  /** From every exposed state without the Job, a pass whose calls succeed creates it. */
  lemma ExposedPassCreates(spec: Spec, w: World, env: Env, a: nat)
    requires Exposed(spec, w, a) && JobName(spec.runId, a) !in w.jobs && AllSucceeds(env) && env.finalizerWrite
    ensures Created(w, Apply(spec, w, PassStep(env)), a)
  {
    var e := Reconcile(spec, false, w.status, w.jobs, env);
    PassWritesJob(spec, w.status, w.jobs, env);
    var after := Apply(spec, w, PassStep(env));
    assert after.writes[|w.writes|..] == e.writes;
  }

  lemma PassWritesJob(spec: Spec, s: Status, jobs: map<string, Job>, env: Env)
    requires !AttemptTerminal(spec, s) && s.jobName == "" && AllSucceeds(env)
    requires JobName(spec.runId, CurrentAttempt(spec, s)) !in jobs
    ensures Write(JobKind, CurrentAttempt(spec, s)) in Reconcile(spec, false, s, jobs, env).writes
  {
    var mid := AcceptedStatus(spec, s, env.now);
    PrerequisitesCreate(spec, mid, jobs, env);
  }

  lemma PrerequisitesCreate(spec: Spec, s: Status, jobs: map<string, Job>, env: Env)
    requires s.jobName == "" && AllSucceeds(env) && JobName(spec.runId, CurrentAttempt(spec, s)) !in jobs
    ensures Prerequisites(spec, s, jobs, env).jobs != jobs
    ensures Write(JobKind, CurrentAttempt(spec, s)) in Prerequisites(spec, s, jobs, env).writes
  {
    var e := Prerequisites(spec, s, jobs, env);
    assert JobName(spec.runId, CurrentAttempt(spec, s)) in e.jobs;
    assert PrerequisiteFrame(spec, s, jobs, e);
  }

  /**
   Every run that does remove the Job of an exposed attempt goes on to create it again: the next pass whose calls
   succeed does so. With OneJobPerAttempt, keeping the Job until it is recorded is exactly what one creation takes.
   */
  lemma RemovedJobIsRecreated(spec: Spec, ws: seq<World>, steps: seq<Step>, env: Env, a: nat)
    requires IsRun(spec, ws, steps) && |steps| > 0 && AllSucceeds(env) && env.finalizerWrite
    requires Exposed(spec, ws[|steps| - 1], a) && Removes(spec, ws[|steps| - 1], ws[|steps|], a)
    ensures var next := Apply(spec, ws[|steps|], PassStep(env));
            IsRun(spec, ws + [next], steps + [PassStep(env)]) && Created(ws[|steps|], next, a)
  {
    var n := |steps|;
    assert Follows(spec, ws, steps, n - 1);
    RemovalKeepsExposed(spec, ws[n - 1], steps[n - 1], a);
    ExposedPassCreates(spec, ws[n], env, a);
    ExtendRun(spec, ws, steps, PassStep(env));
  }

  lemma RemovalKeepsExposed(spec: Spec, w: World, step: Step, a: nat)
    requires Exposed(spec, w, a) && Removes(spec, w, Apply(spec, w, step), a)
    ensures Exposed(spec, Apply(spec, w, step), a)
  {
    if step.PassStep? {
      CreationIsGuarded(spec, w, step.env);
    }
  }

  lemma ExtendRun(spec: Spec, ws: seq<World>, steps: seq<Step>, step: Step)
    requires IsRun(spec, ws, steps)
    ensures IsRun(spec, ws + [Apply(spec, ws[|steps|], step)], steps + [step])
  {
    var next := ws + [Apply(spec, ws[|steps|], step)];
    forall i | 0 <= i < |steps| + 1
      ensures Follows(spec, next, steps + [step], i)
    {
      if i < |steps| {
        assert Follows(spec, ws, steps, i);
      }
    }
  }

  /** Such a run: the first status patch is lost, the Job is removed, and the next pass creates it a second time. */
  lemma LostPatchThenRemovalCreatesTwice(spec: Spec, ws: seq<World>, steps: seq<Step>)
    requires ValidSpec(spec) && IsRun(spec, ws, steps) && ws[0].jobs == map[] && |steps| == 3
    requires steps[0].PassStep? && steps[1] == ClusterStep(map[]) && steps[2].PassStep?
    requires AllSucceeds(steps[0].env) && AllSucceeds(steps[2].env) && !steps[0].env.patchLands
    requires steps[0].env.finalizerWrite && steps[2].env.finalizerWrite
    ensures Created(ws[0], ws[1], spec.attempt) && Created(ws[2], ws[3], spec.attempt)
  {
    assert Follows(spec, ws, steps, 0) && Follows(spec, ws, steps, 2);
    RemovedByCluster(spec, ws, steps);
    ExposedPassCreates(spec, ws[0], steps[0].env, spec.attempt);
    LostStatus(spec, ws[0], steps[0].env);
    ExposedPassCreates(spec, ws[2], steps[2].env, spec.attempt);
  }

  lemma RemovedByCluster(spec: Spec, ws: seq<World>, steps: seq<Step>)
    requires IsRun(spec, ws, steps) && |steps| > 1 && steps[1] == ClusterStep(map[])
    ensures ws[2] == ws[1].(jobs := map[])
  {
    assert Follows(spec, ws, steps, 1);
  }

  lemma LostStatus(spec: Spec, w: World, env: Env)
    requires !env.patchLands
    ensures Apply(spec, w, PassStep(env)).status == w.status && Apply(spec, w, PassStep(env)).cancelled == w.cancelled
  {
  }
}
