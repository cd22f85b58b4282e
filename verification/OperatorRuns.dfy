/** What holds over every run of the operator, with crashes, failed patches and a cluster that changes by itself. */
module OperatorRuns {
  import opened Common
  import opened Naming
  import opened Pods
  import opened Operator

  // ---- Attempt history ----

  predicate HistoryOk(spec: Spec, entries: seq<AttemptEntry>, current: nat) {
    Sorted(entries) && forall i :: 0 <= i < |entries| ==> spec.attempt <= entries[i].attempt <= current
  }

  /** Entries of attempts before the current one stay where they are, unchanged. */
  predicate EarlierKept(before: seq<AttemptEntry>, after: seq<AttemptEntry>, current: nat) {
    forall i :: 0 <= i < |before| && before[i].attempt < current ==> i < |after| && after[i] == before[i]
  }

  lemma UpsertKeepsHistory(spec: Spec, entries: seq<AttemptEntry>, e: AttemptEntry, current: nat)
    requires HistoryOk(spec, entries, current) && spec.attempt <= current <= e.attempt
    ensures HistoryOk(spec, Upsert(entries, e), e.attempt) && EarlierKept(entries, Upsert(entries, e), e.attempt)
  {
  }

  // ---- The invariant of a persisted status ----

  ghost predicate StatusInv(spec: Spec, s: Status) {
    && (s.attempt == 0 || spec.attempt <= s.attempt <= spec.maxAttempts)
    && (s.attempt == 0 ==> s.phase == NoPhase && s.jobName == "" && s.attempts == [])
    && (s.jobName == "" || s.jobName == JobName(spec.runId, s.attempt))
    && HistoryOk(spec, s.attempts, CurrentAttempt(spec, s))
  }

  const INITIAL: Status := Status(NoPhase, 0, "", "", None, None, NoCategory, "", map[], [])

  /** How a status may move in one pass. */
  ghost predicate Moves(spec: Spec, s: Status, r: Status) {
    && StatusInv(spec, r)
    && s.attempt <= r.attempt <= CurrentAttempt(spec, s) + 1
    && EarlierKept(s.attempts, r.attempts, CurrentAttempt(spec, s))
    && (r.attempt <= CurrentAttempt(spec, s) && s.jobName != "" ==> r.jobName == s.jobName)
    && (r.attempt > CurrentAttempt(spec, s) ==> r.jobName == "")
  }

  /** A status that kept its attempt and rewrote at most the current history entry. */
  lemma SameAttemptMoves(spec: Spec, s: Status, r: Status)
    requires ValidSpec(spec) && StatusInv(spec, s) && r.attempt == CurrentAttempt(spec, s)
    requires r.jobName == s.jobName || (s.jobName == "" && r.jobName == JobName(spec.runId, r.attempt))
    requires r.attempts == s.attempts || r.attempts == Upsert(s.attempts, EntryOf(spec, r))
    ensures Moves(spec, s, r)
  {
    if r.attempts != s.attempts {
      UpsertKeepsHistory(spec, s.attempts, EntryOf(spec, r), CurrentAttempt(spec, s));
    }
  }

  lemma AdvancedMoves(spec: Spec, s: Status, r: Status)
    requires ValidSpec(spec) && StatusInv(spec, s) && s.attempt < spec.maxAttempts && spec.attempt <= s.attempt
    requires r.attempt == s.attempt + 1 && r.jobName == "" && r.attempts == Upsert(s.attempts, EntryOf(spec, r))
    ensures Moves(spec, s, r)
  {
    UpsertKeepsHistory(spec, s.attempts, EntryOf(spec, r), s.attempt);
  }

  lemma HeldBackMoves(spec: Spec, s: Status, now: Instant)
    requires ValidSpec(spec) && StatusInv(spec, s) && s.attempt == CurrentAttempt(spec, s)
    ensures Moves(spec, s, HeldBack(s, now))
  {
    SameAttemptMoves(spec, s, HeldBack(s, now));
  }

  lemma StartedMoves(spec: Spec, s: Status, now: Instant)
    requires ValidSpec(spec) && StatusInv(spec, s) && s.attempt == CurrentAttempt(spec, s)
    requires s.attempt < spec.maxAttempts
    ensures Moves(spec, s, Advanced(spec, s, now))
  {
    AdvancedMoves(spec, s, Advanced(spec, s, now));
  }

  lemma RetryMoves(spec: Spec, s: Status, now: Instant)
    requires ValidSpec(spec) && StatusInv(spec, s) && RetryAllowed(spec, s)
    ensures Moves(spec, s, ReconcileRetry(spec, s, now))
  {
    HeldBackMoves(spec, s, now);
    StartedMoves(spec, s, now);
  }

  lemma InitializedKeepsInv(spec: Spec, s: Status, r: Status)
    requires ValidSpec(spec) && StatusInv(spec, s)
    requires r.attempt == (if s.attempt == 0 then spec.attempt else s.attempt)
    requires r.jobName == s.jobName && r.attempts == s.attempts
    ensures StatusInv(spec, r) && CurrentAttempt(spec, r) == CurrentAttempt(spec, s) == r.attempt
  {
  }

  lemma MovesThrough(spec: Spec, s: Status, mid: Status, r: Status)
    requires StatusInv(spec, s) && mid.jobName == s.jobName && mid.attempts == s.attempts
    requires CurrentAttempt(spec, mid) == CurrentAttempt(spec, s) == mid.attempt && Moves(spec, mid, r)
    ensures Moves(spec, s, r)
  {
  }

  lemma CancellationMoves(spec: Spec, s: Status, jobs: map<string, Job>, env: Env)
    requires ValidSpec(spec) && StatusInv(spec, s)
    ensures Moves(spec, s, Cancellation(spec, Initialized(spec, s, env.now), jobs, env).status)
  {
    var mid := Initialized(spec, s, env.now);
    InitializedKeepsInv(spec, s, mid);
    SameAttemptMoves(spec, mid, Cancellation(spec, mid, jobs, env).status);
    MovesThrough(spec, s, mid, Cancellation(spec, mid, jobs, env).status);
  }

  lemma PrerequisiteMoves(spec: Spec, s: Status, jobs: map<string, Job>, env: Env)
    requires ValidSpec(spec) && StatusInv(spec, s) && s.attempt == CurrentAttempt(spec, s)
    ensures Moves(spec, s, Prerequisites(spec, s, jobs, env).status)
  {
    SameAttemptMoves(spec, s, Prerequisites(spec, s, jobs, env).status);
  }

  lemma MovesTransitive(spec: Spec, s: Status, mid: Status, r: Status)
    requires StatusInv(spec, s) && Moves(spec, s, mid) && mid.attempt == CurrentAttempt(spec, s) && Moves(spec, mid, r)
    ensures Moves(spec, s, r)
  {
  }

  lemma RunningMoves(spec: Spec, s: Status, jobs: map<string, Job>, env: Env)
    requires ValidSpec(spec) && StatusInv(spec, s) && !AttemptTerminal(spec, s)
    ensures Moves(spec, s, Reconcile(spec, false, s, jobs, env).status)
  {
    var mid := AcceptedStatus(spec, s, env.now);
    InitializedKeepsInv(spec, s, mid);
    PrerequisiteMoves(spec, mid, jobs, env);
    var e := Prerequisites(spec, mid, jobs, env);
    MovesThrough(spec, s, mid, e.status);
    if !e.failed && RetryAllowed(spec, e.status) {
      RetryMoves(spec, e.status, env.now);
      MovesTransitive(spec, s, e.status, ReconcileRetry(spec, e.status, env.now));
    }
  }

  /** Every pass keeps the invariant, never lowers the attempt and never rewrites an earlier attempt's entry. */
  lemma PassMoves(spec: Spec, cancelled: bool, s: Status, jobs: map<string, Job>, env: Env)
    requires ValidSpec(spec) && StatusInv(spec, s)
    ensures Moves(spec, s, Reconcile(spec, cancelled, s, jobs, env).status)
  {
    if AttemptTerminal(spec, s) {
      if !cancelled && RetryAllowed(spec, s) {
        RetryMoves(spec, s, env.now);
      } else {
        SameAttemptMoves(spec, s, SetCondition(s, SpecValid, true, Accepted, env.now));
      }
    } else if cancelled {
      CancellationMoves(spec, s, jobs, env);
    } else {
      RunningMoves(spec, s, jobs, env);
    }
  }

  // ---- The world and its steps ----

  /** The persisted object and the cluster; writes logs every resource the operator created or applied. */
  datatype World = World(
    cancelled: bool, finalizer: bool, status: Status, jobs: map<string, Job>, writes: seq<Write>)

  datatype Step =
    | PassStep(env: Env)
    | CancelStep
    | ClusterStep(jobs: map<string, Job>)

  /** Cleanup ownership first: a run that retains its workspace is not worked on until its finalizer is persisted. */
  predicate Blocked(spec: Spec, w: World, env: Env) {
    spec.retain && !w.finalizer && !env.finalizerWrite
  }

  function EffectOf(spec: Spec, w: World, env: Env): Effect {
    if Blocked(spec, w, env) then Effect(w.status, w.jobs, [], true)
    else Reconcile(spec, w.cancelled, w.status, w.jobs, env)
  }

  function Apply(spec: Spec, w: World, step: Step): World {
    match step
    case CancelStep => w.(cancelled := true)
    case ClusterStep(jobs) => w.(jobs := jobs)
    case PassStep(env) =>
      var e := EffectOf(spec, w, env);
      w.(finalizer := w.finalizer || (spec.retain && !Blocked(spec, w, env)),
         status := if env.patchLands then e.status else w.status, jobs := e.jobs, writes := w.writes + e.writes)
  }

  predicate Start(w: World) {
    w == World(false, false, INITIAL, w.jobs, [])
  }

  predicate Follows(spec: Spec, ws: seq<World>, steps: seq<Step>, i: nat)
    requires |ws| == |steps| + 1 && i < |steps|
  {
    ws[i + 1] == Apply(spec, ws[i], steps[i])
  }

  /** ws are the worlds a run of these steps passes through. */
  ghost predicate IsRun(spec: Spec, ws: seq<World>, steps: seq<Step>) {
    && |ws| == |steps| + 1 && Start(ws[0])
    && forall i :: 0 <= i < |steps| ==> Follows(spec, ws, steps, i)
  }

  lemma StepMoves(spec: Spec, w: World, step: Step)
    requires ValidSpec(spec) && StatusInv(spec, w.status)
    ensures Apply(spec, w, step).status == w.status || Moves(spec, w.status, Apply(spec, w, step).status)
    ensures StatusInv(spec, Apply(spec, w, step).status)
  {
    if step.PassStep? {
      PassMoves(spec, w.cancelled, w.status, w.jobs, step.env);
    }
  }

  lemma ValidAfter(spec: Spec, ws: seq<World>, steps: seq<Step>, i: nat)
    requires ValidSpec(spec) && IsRun(spec, ws, steps) && i < |steps| && StatusInv(spec, ws[i].status)
    ensures StatusInv(spec, ws[i + 1].status)
  {
    assert Follows(spec, ws, steps, i);
    StepMoves(spec, ws[i], steps[i]);
  }

  lemma {:induction false} StatusAlwaysValid(spec: Spec, ws: seq<World>, steps: seq<Step>, i: nat)
    requires ValidSpec(spec) && IsRun(spec, ws, steps) && i < |ws|
    ensures StatusInv(spec, ws[i].status)
  {
    if i > 0 {
      StatusAlwaysValid(spec, ws, steps, i - 1);
      ValidAfter(spec, ws, steps, i - 1);
    }
  }

  // ---- Attempts and history over runs ----

  /** How a later persisted status relates to an earlier one. */
  ghost predicate Later(spec: Spec, s: Status, r: Status) {
    && s.attempt <= r.attempt && CurrentAttempt(spec, s) <= CurrentAttempt(spec, r)
    && EarlierKept(s.attempts, r.attempts, CurrentAttempt(spec, s))
    && (s.jobName != "" && CurrentAttempt(spec, r) == CurrentAttempt(spec, s) ==> r.jobName == s.jobName)
  }

  lemma LaterTransitive(spec: Spec, a: Status, b: Status, c: Status)
    requires Later(spec, a, b) && Later(spec, b, c)
    ensures Later(spec, a, c)
  {
  }

  lemma StepIsLater(spec: Spec, ws: seq<World>, steps: seq<Step>, i: nat)
    requires ValidSpec(spec) && IsRun(spec, ws, steps) && i < |steps|
    ensures Later(spec, ws[i].status, ws[i + 1].status)
  {
    StatusAlwaysValid(spec, ws, steps, i);
    assert Follows(spec, ws, steps, i);
    StepMoves(spec, ws[i], steps[i]);
  }

  /**
   Over every run, Status.Attempt never decreases and stays within the ceiling, history stays sorted and unique,
   and entries of earlier attempts never change again.
   */
  lemma {:induction false} AttemptsOnlyGrow(spec: Spec, ws: seq<World>, steps: seq<Step>, i: nat, j: nat)
    requires ValidSpec(spec) && IsRun(spec, ws, steps) && i <= j < |ws|
    ensures Later(spec, ws[i].status, ws[j].status)
    ensures ws[j].status.attempt <= spec.maxAttempts && Sorted(ws[j].status.attempts)
    decreases j
  {
    StatusAlwaysValid(spec, ws, steps, j);
    if i < j {
      AttemptsOnlyGrow(spec, ws, steps, i, j - 1);
      StepIsLater(spec, ws, steps, j - 1);
      LaterTransitive(spec, ws[i].status, ws[j - 1].status, ws[j].status);
    }
  }

  // ---- Jobs ----

  /** The step between two worlds created the Job of attempt a. */
  predicate Created(before: World, after: World, a: nat) {
    |before.writes| < |after.writes| && Write(JobKind, a) in after.writes[|before.writes|..]
  }

  /** The exact circumstances of a Job creation, and that no pass ever removes a Job. */
  lemma CreationIsGuarded(spec: Spec, w: World, env: Env)
    ensures var e := EffectOf(spec, w, env);
            && w.jobs.Keys <= e.jobs.Keys
            && (w.cancelled ==> e.writes == [])
            && forall a :: Write(JobKind, a) in e.writes ==>
                 && !w.cancelled && !AttemptTerminal(spec, w.status)
                 && a == CurrentAttempt(spec, w.status) && w.status.jobName == ""
                 && JobName(spec.runId, a) !in w.jobs && JobName(spec.runId, a) in e.jobs
  {
    if !Blocked(spec, w, env) && !w.cancelled && !AttemptTerminal(spec, w.status) {
      RunningCreates(spec, w.status, w.jobs, env);
    }
  }

  lemma RunningCreates(spec: Spec, s: Status, jobs: map<string, Job>, env: Env)
    requires !AttemptTerminal(spec, s)
    ensures var e := Reconcile(spec, false, s, jobs, env);
            && jobs.Keys <= e.jobs.Keys
            && forall a :: Write(JobKind, a) in e.writes ==>
                 && a == CurrentAttempt(spec, s) && s.jobName == ""
                 && JobName(spec.runId, a) !in jobs && JobName(spec.runId, a) in e.jobs
  {
    var mid := AcceptedStatus(spec, s, env.now);
    var e := Prerequisites(spec, mid, jobs, env);
    FrameCreates(spec, mid, jobs, e);
  }

  lemma FrameCreates(spec: Spec, s: Status, jobs: map<string, Job>, e: Effect)
    requires PrerequisiteFrame(spec, s, jobs, e)
    ensures jobs.Keys <= e.jobs.Keys
    ensures forall a :: Write(JobKind, a) in e.writes ==>
              && a == CurrentAttempt(spec, s) && s.jobName == ""
              && JobName(spec.runId, a) !in jobs && JobName(spec.runId, a) in e.jobs
  {
    forall a | Write(JobKind, a) in e.writes
      ensures a == CurrentAttempt(spec, s) && e.jobs != jobs
    {
      assert Write(JobKind, a).kind == JobKind;
    }
  }

  /** A creation along a run is for the first or an already persisted attempt whose Job nothing names or holds. */
  lemma CreationAlongRun(spec: Spec, ws: seq<World>, steps: seq<Step>, i: nat, a: nat)
    requires IsRun(spec, ws, steps) && i < |steps| && Created(ws[i], ws[i + 1], a)
    ensures a == CurrentAttempt(spec, ws[i].status) && (a == spec.attempt || a == ws[i].status.attempt)
    ensures !ws[i].cancelled && !AttemptTerminal(spec, ws[i].status) && ws[i].status.jobName == ""
    ensures JobName(spec.runId, a) !in ws[i].jobs && JobName(spec.runId, a) in ws[i + 1].jobs
  {
    assert Follows(spec, ws, steps, i);
    if steps[i].PassStep? {
      CreationIsGuarded(spec, ws[i], steps[i].env);
      assert ws[i + 1].writes[|ws[i].writes|..] == EffectOf(spec, ws[i], steps[i].env).writes;
    }
  }

  /** A Job that a persisted status names is never created again, whatever happened to it since. */
  lemma NamedJobNeverRecreated(spec: Spec, ws: seq<World>, steps: seq<Step>, i: nat, j: nat)
    requires ValidSpec(spec) && IsRun(spec, ws, steps) && i <= j < |steps| && ws[i].status.jobName != ""
    ensures ws[i].status.jobName == JobName(spec.runId, ws[i].status.attempt)
    ensures !Created(ws[j], ws[j + 1], ws[i].status.attempt)
  {
    StatusAlwaysValid(spec, ws, steps, i);
    AttemptsOnlyGrow(spec, ws, steps, i, j);
    if Created(ws[j], ws[j + 1], ws[i].status.attempt) {
      CreationAlongRun(spec, ws, steps, j, ws[i].status.attempt);
    }
  }

  lemma FinalizerStep(spec: Spec, w: World, step: Step)
    requires spec.retain && (w.writes != [] ==> w.finalizer)
    ensures Apply(spec, w, step).writes != [] ==> Apply(spec, w, step).finalizer
  {
  }

  /** A run that retains its workspace creates nothing before its finalizer is persisted. */
  lemma {:induction false} FinalizerFirst(spec: Spec, ws: seq<World>, steps: seq<Step>, i: nat)
    requires IsRun(spec, ws, steps) && spec.retain && i < |ws|
    ensures ws[i].writes != [] ==> ws[i].finalizer
  {
    if i > 0 {
      FinalizerFirst(spec, ws, steps, i - 1);
      assert Follows(spec, ws, steps, i - 1);
      FinalizerStep(spec, ws[i - 1], steps[i - 1]);
    }
  }
}
