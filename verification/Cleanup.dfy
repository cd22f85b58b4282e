/** Finalizer cleanup: retained workspaces are marked released, attempt by attempt, before the finalizer goes. */
module Cleanup {
  import opened Common
  import opened Naming
  import opened Pods
  import opened Operator

  const CLEANUP_DEADLINE: nat := 10 * MINUTE

  datatype Workspace = Workspace(controlled: bool, ownerUid: string, retained: bool, released: bool)

  /**
   The API calls of one cleanup: attempts whose workspace cannot be read, attempts whose marker write fails, and of
   those the ones whose marker landed although the reply was lost.
   */
  datatype CleanupCalls = CleanupCalls(unreadable: set<nat>, unwritable: set<nat>, landed: set<nat>)

  predicate ValidWorkspace(spec: Spec, ws: Workspace) {
    !ws.controlled && ws.ownerUid == spec.uid && ws.retained
  }

  /** Why the loop stops at an attempt, if it does. */
  function StopsAt(spec: Spec, held: map<string, Workspace>, calls: CleanupCalls, a: nat): Option<Reason> {
    var name := WorkspaceName(spec.runId, a);
    if a in calls.unreadable then Some(RetainedWorkspaceReadFailed)
    else if name !in held then None
    else if !ValidWorkspace(spec, held[name]) then Some(RetainedWorkspaceConflict)
    else if !held[name].released && a in calls.unwritable then Some(RetentionHandoffFailed)
    else None
  }

  function Release(spec: Spec, held: map<string, Workspace>, a: nat): (r: map<string, Workspace>)
    ensures r.Keys == held.Keys
  {
    var name := WorkspaceName(spec.runId, a);
    if name in held then held[name := held[name].(released := true)] else held
  }

  /** What a stop at an attempt leaves: a failed marker write may have landed. */
  function LeftAt(spec: Spec, held: map<string, Workspace>, calls: CleanupCalls, a: nat): (r: map<string, Workspace>)
    ensures r.Keys == held.Keys
  {
    if StopsAt(spec, held, calls, a) == Some(RetentionHandoffFailed) && a in calls.landed then Release(spec, held, a)
    else held
  }

  /** The loop over attempts first..last: what it leaves, and why it stopped early. */
  function ReleaseAll(spec: Spec, held: map<string, Workspace>, calls: CleanupCalls, first: nat, last: nat)
    : (map<string, Workspace>, Option<Reason>)
    decreases last + 1 - first
  {
    if first > last then (held, None)
    else if StopsAt(spec, held, calls, first).Some? then
      (LeftAt(spec, held, calls, first), StopsAt(spec, held, calls, first))
    else ReleaseAll(spec, Release(spec, held, first), calls, first + 1, last)
  }

  /** No workspace is ever removed, and nothing of one changes but its marker, which is only ever set. */
  predicate OnlyReleased(held: map<string, Workspace>, after: map<string, Workspace>) {
    && after.Keys == held.Keys
    && (forall n :: n in held ==> after[n] == held[n].(released := after[n].released))
    && (forall n :: n in held && held[n].released ==> after[n].released)
  }

  lemma {:induction false} ReleasesOnly(spec: Spec, held: map<string, Workspace>, calls: CleanupCalls, first: nat,
      last: nat)
    ensures OnlyReleased(held, ReleaseAll(spec, held, calls, first, last).0)
    decreases last + 1 - first
  {
    if first <= last && StopsAt(spec, held, calls, first).None? {
      ReleasesOnly(spec, Release(spec, held, first), calls, first + 1, last);
    }
  }

  /** The workspace can be read, and is gone, or is the run's own retained one whose marker is there or lands. */
  predicate GetsThrough(spec: Spec, held: map<string, Workspace>, calls: CleanupCalls, a: nat) {
    var name := WorkspaceName(spec.runId, a);
    && a !in calls.unreadable
    && (name in held ==>
          && !held[name].controlled && held[name].ownerUid == spec.uid && held[name].retained
          && (held[name].released || a !in calls.unwritable))
  }

  predicate IsReleased(spec: Spec, held: map<string, Workspace>, a: nat) {
    var name := WorkspaceName(spec.runId, a);
    name in held ==> held[name].released
  }

  /** A loop that did not stop has every workspace it found marked. */
  lemma {:induction false} CompleteMeansReleased(spec: Spec, held: map<string, Workspace>, calls: CleanupCalls,
      first: nat, last: nat, a: nat)
    requires ReleaseAll(spec, held, calls, first, last).1.None? && first <= a <= last
    ensures IsReleased(spec, ReleaseAll(spec, held, calls, first, last).0, a)
    decreases last + 1 - first
  {
    var next := Release(spec, held, first);
    if a == first {
      ReleasesOnly(spec, next, calls, first + 1, last);
    } else {
      CompleteMeansReleased(spec, next, calls, first + 1, last, a);
    }
  }

  lemma ReleaseElsewhere(spec: Spec, held: map<string, Workspace>, calls: CleanupCalls, first: nat, a: nat)
    requires first != a
    ensures StopsAt(spec, Release(spec, held, first), calls, a) == StopsAt(spec, held, calls, a)
  {
    if WorkspaceName(spec.runId, first) == WorkspaceName(spec.runId, a) {
      NamesTellAttemptsApart(spec.runId, first, a);
    }
  }

  /** The loop gets through exactly when no attempt's workspace, as it was at the start, stops it. */
  lemma {:induction false} CompleteIff(spec: Spec, held: map<string, Workspace>, calls: CleanupCalls, first: nat,
      last: nat)
    ensures ReleaseAll(spec, held, calls, first, last).1.None? <==>
            forall a :: first <= a <= last ==> GetsThrough(spec, held, calls, a)
    decreases last + 1 - first
  {
    if first <= last && StopsAt(spec, held, calls, first).None? {
      var next := Release(spec, held, first);
      CompleteIff(spec, next, calls, first + 1, last);
      forall a | first + 1 <= a <= last
        ensures StopsAt(spec, next, calls, a) == StopsAt(spec, held, calls, a)
      {
        ReleaseElsewhere(spec, held, calls, first, a);
      }
      assert forall a :: first + 1 <= a <= last ==>
          (GetsThrough(spec, next, calls, a) <==> StopsAt(spec, next, calls, a).None?);
    }
    assert forall a :: first <= a <= last ==>
        (GetsThrough(spec, held, calls, a) <==> StopsAt(spec, held, calls, a).None?);
  }

  /** The condition a deletion pass starts from. */
  function DeletingStatus(s: Status, now: Instant): Status {
    var deleting := SetCondition(s, Ready, false, Deleting, now);
    if CleanupPending in deleting.conditions then deleting
    else SetCondition(deleting, CleanupPending, true, CleanupStarted, now)
  }

  predicate AllReleased(spec: Spec, held: map<string, Workspace>, current: nat) {
    forall a :: spec.attempt <= a <= current ==> IsReleased(spec, held, a)
  }

  class Deletion {
    const spec: Spec
    const deletedAt: Instant
    var status: Status
    var workspaces: map<string, Workspace>
    var finalizer: bool

    constructor (spec: Spec, deletedAt: Instant, status: Status, workspaces: map<string, Workspace>)
      ensures this.spec == spec && this.deletedAt == deletedAt && this.status == status
      ensures this.workspaces == workspaces && finalizer
    {
      this.spec, this.deletedAt, this.status, this.workspaces := spec, deletedAt, status, workspaces;
      finalizer := true;
    }

    /**
     reconcileCleanup: complete when nothing is retained, when every workspace is handed over, or after the deadline.
     */
    method ReconcileCleanup(calls: CleanupCalls, now: Instant) returns (complete: bool)
      modifies this`status, this`workspaces
      ensures OnlyReleased(old(workspaces), workspaces)
      ensures !spec.retain ==> workspaces == old(workspaces)
      ensures spec.retain ==>
                workspaces == ReleaseAll(spec, old(workspaces), calls, spec.attempt,
                    CurrentAttempt(spec, old(status))).0
      ensures complete <==>
                || !spec.retain || now >= deletedAt + 600 * SECOND
                || forall a :: spec.attempt <= a <= CurrentAttempt(spec, old(status)) ==>
                     GetsThrough(spec, old(workspaces), calls, a)
      ensures complete ==>
                || !spec.retain || now >= deletedAt + 600 * SECOND
                || AllReleased(spec, workspaces, CurrentAttempt(spec, old(status)))
      ensures CleanupPending in status.conditions && status.conditions[CleanupPending].status == !complete
      ensures status == old(status).(conditions := status.conditions)
    {
      status := DeletingStatus(status, now);
      if !spec.retain {
        status := SetCondition(status, CleanupPending, false, CleanupNotRequired, now);
        return true;
      }
      var last := CurrentAttempt(spec, status);
      var a := spec.attempt;
      ghost var held := workspaces;
      ReleasesOnly(spec, held, calls, spec.attempt, last);
      CompleteIff(spec, held, calls, spec.attempt, last);
      while a <= last
        invariant spec.attempt <= a <= last + 1 && status == DeletingStatus(old(status), now)
        invariant ReleaseAll(spec, workspaces, calls, a, last) == ReleaseAll(spec, held, calls, spec.attempt, last)
        decreases last + 1 - a
      {
        var stop := StopsAt(spec, workspaces, calls, a);
        if stop.Some? {
          workspaces := LeftAt(spec, workspaces, calls, a);
          if now >= deletedAt + CLEANUP_DEADLINE {
            status := SetCondition(status, CleanupPending, false, CleanupEscalated, now);
            return true;
          }
          status := SetCondition(status, CleanupPending, true, stop.value, now);
          return false;
        }
        workspaces := Release(spec, workspaces, a);
        a := a + 1;
      }
      forall b | spec.attempt <= b <= last
        ensures IsReleased(spec, workspaces, b)
      {
        CompleteMeansReleased(spec, held, calls, spec.attempt, last, b);
      }
      status := SetCondition(status, CleanupPending, false, CleanupComplete, now);
      return true;
    }

    /**
     The deletion branch of Reconcile. The finalizer goes only if nothing is retained, or every workspace found
     for every attempt carries the marker, or ten minutes have passed since deletion.
     */
    method ReconcileDeletion(calls: CleanupCalls, now: Instant, patchLands: bool, removalLands: bool)
      modifies this
      ensures OnlyReleased(old(workspaces), workspaces)
      ensures !old(finalizer) ==> !finalizer && workspaces == old(workspaces) && status == old(status)
      ensures old(finalizer) && !finalizer ==>
                || !spec.retain || now >= deletedAt + 600 * SECOND
                || AllReleased(spec, workspaces, CurrentAttempt(spec, old(status)))
      ensures !patchLands ==> finalizer == old(finalizer) && status == old(status)
    {
      if !finalizer {
        return;
      }
      var before := status;
      var complete := ReconcileCleanup(calls, now);
      if !patchLands {
        status := before;
        return;
      }
      if !complete {
        return;
      }
      if !removalLands {
        status := SetCondition(status, CleanupPending, true, FinalizerRemovalFailed, now);
        return;
      }
      finalizer := false;
    }
  }
}
