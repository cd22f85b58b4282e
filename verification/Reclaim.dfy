/** Reclaiming expired reservations: what a sweep may touch, and exactly when it cannot get past a row. */
module Reclaim {
  import opened Common
  import opened Store
  import opened Ordering
  import opened Sums
  import opened Ledger
  import opened Invariants
  import opened History

  predicate IsExpired(row: CapacityRow, now: Time) {
    row.state == Reserved && row.expiresAt <= now
  }

  function ExpireRequest(row: CapacityRow, now: Time): FinishRequest {
    FinishRequest(row.tenant, row.run, row.attemptNumber, now, Expired)
  }

  /** where state='RESERVED' and expires_at<=now order by expires_at,id */
  function ExpiredKeys(rows: seq<CapacityRow>, now: Time): map<nat, Key> {
    map i | 0 <= i < |rows| && IsExpired(rows[i], now) :: Key(rows[i].expiresAt, 0, 0, 0, i)
  }

  /** Row i was created strictly after every other reservation of its attempt. */
  predicate StrictlyNewest(db: Db, i: nat)
    requires i < |db.capacity|
  {
    forall j :: 0 <= j < |db.capacity| && j != i && MatchesFinish(db.capacity[j], ExpireRequest(db.capacity[i], 0)) ==>
      db.capacity[j].createdAt < db.capacity[i].createdAt
  }

  lemma {:induction false} LatestExists(db: Db, req: FinishRequest, i: nat, bound: nat) returns (row: nat)
    requires LedgerInv(db) && i < bound <= |db.capacity| && MatchesFinish(db.capacity[i], req)
    ensures row < bound && MatchesFinish(db.capacity[row], req) && FindBudget(db.budgets, row).Some?
    ensures forall k :: 0 <= k < bound && MatchesFinish(db.capacity[k], req) ==>
              db.capacity[k].createdAt <= db.capacity[row].createdAt
    decreases bound
  {
    if i == bound - 1 && (forall k :: 0 <= k < i ==> !MatchesFinish(db.capacity[k], req)) {
      row := i;
    } else {
      var other := i;
      if i == bound - 1 {
        other :| 0 <= other < i && MatchesFinish(db.capacity[other], req);
      }
      row := LatestExists(db, req, other, bound - 1);
      if MatchesFinish(db.capacity[bound - 1], req) && db.capacity[bound - 1].createdAt > db.capacity[row].createdAt {
        row := bound - 1;
      }
    }
    BudgetOfRow(db, row);
  }

  /**
   Expiry is exact. Whichever row the database picks among equally recent ones, the transition of an expired
   reservation marks that reservation Expired if and only if it is strictly the newest of its attempt.
   */
  lemma ReclaimedIffNewest(db: Db, i: nat, now: Time)
    requires LedgerInv(db) && i < |db.capacity| && IsExpired(db.capacity[i], now)
    requires now > 0 && db.capacity[i].attemptNumber >= 1
    ensures StrictlyNewest(db, i) <==>
            forall row: nat :: IsLatest(db, ExpireRequest(db.capacity[i], now), row) ==>
              Finish(db, ExpireRequest(db.capacity[i], now), row).db.capacity[i].state == Expired
  {
    var req := ExpireRequest(db.capacity[i], now);
    if StrictlyNewest(db, i) {
      forall row: nat | IsLatest(db, req, row)
        ensures Finish(db, req, row).db.capacity[i].state == Expired
      {
        NewestIsReclaimed(db, i, now, row);
      }
    } else {
      var rival := RivalOf(db, i, now);
      assert Finish(db, req, rival).db.capacity[i] == db.capacity[i];
    }
  }

  lemma RivalOf(db: Db, i: nat, now: Time) returns (rival: nat)
    requires LedgerInv(db) && i < |db.capacity| && !StrictlyNewest(db, i)
    ensures rival != i && IsLatest(db, ExpireRequest(db.capacity[i], now), rival)
  {
    var req := ExpireRequest(db.capacity[i], now);
    var j :| 0 <= j < |db.capacity| && j != i && MatchesFinish(db.capacity[j], ExpireRequest(db.capacity[i], 0))
             && db.capacity[j].createdAt >= db.capacity[i].createdAt;
    rival := LatestExists(db, req, j, |db.capacity|);
    if rival == i {
      rival := j;
      BudgetOfRow(db, j);
    }
  }

  lemma NewestIsReclaimed(db: Db, i: nat, now: Time, row: nat)
    requires i < |db.capacity| && IsExpired(db.capacity[i], now) && StrictlyNewest(db, i)
    requires now > 0 && db.capacity[i].attemptNumber >= 1 && IsLatest(db, ExpireRequest(db.capacity[i], now), row)
    ensures row == i
    ensures Finish(db, ExpireRequest(db.capacity[i], now), row).result == Ok(true)
    ensures Finish(db, ExpireRequest(db.capacity[i], now), row).db.capacity ==
            db.capacity[i := db.capacity[i].(state := Expired)]
  {
  }

  // ---- When every sweep gets through ----

  /** Every RESERVED row is strictly the newest of its attempt. */
  predicate NewestReserved(db: Db) {
    forall i :: 0 <= i < |db.capacity| ==>
      db.capacity[i].attemptNumber >= 1 && (db.capacity[i].state == Reserved ==> StrictlyNewest(db, i))
  }

  ghost predicate AllNewest(db: Db, latest: Time) {
    NewestReserved(db) && forall i :: 0 <= i < |db.capacity| ==> db.capacity[i].createdAt <= latest
  }

  predicate IsReservation(step: Step) {
    step.ScheduleStep? || step.ReserveStep?
  }

  /** Each reserving transaction is stamped later than every one before it. */
  predicate ClockAdvances(steps: seq<Step>) {
    |steps| == 0 ||
    (&& ClockAdvances(steps[..|steps| - 1])
     && (IsReservation(steps[|steps| - 1]) ==> LatestStamp(steps[..|steps| - 1]) < StampOf(steps[|steps| - 1])))
  }

  lemma AppendKeepsNewest(db: Db, after: Db, row: CapacityRow, latest: Time)
    requires AllNewest(db, latest) && after.capacity == db.capacity + [row]
    requires row.createdAt > latest && row.attemptNumber >= 1
    requires forall i :: 0 <= i < |db.capacity| ==> !IsReservedFor(db.capacity[i], row.run, row.attemptNumber)
    ensures AllNewest(after, row.createdAt)
  {
    forall i | 0 <= i < |after.capacity|
      ensures after.capacity[i].attemptNumber >= 1 && (after.capacity[i].state == Reserved ==> StrictlyNewest(after, i))
    {
      if i < |db.capacity| {
        assert db.capacity[i].state == Reserved ==> StrictlyNewest(db, i);
      }
    }
  }

  lemma FinishKeepsNewest(db: Db, req: FinishRequest, row: nat)
    requires NewestReserved(db)
    ensures NewestReserved(Finish(db, req, row).db)
  {
    var after := Finish(db, req, row).db;
    forall i | 0 <= i < |after.capacity|
      ensures after.capacity[i].attemptNumber >= 1 && (after.capacity[i].state == Reserved ==> StrictlyNewest(after, i))
    {
      if after.capacity[i].state == Reserved {
        FinishOnlyEnds(db, req, row, i);
        assert StrictlyNewest(db, i);
      }
    }
  }

  lemma FinishOnlyEnds(db: Db, req: FinishRequest, row: nat, i: nat)
    requires i < |db.capacity| && Finish(db, req, row).db.capacity[i].state == Reserved
    ensures db.capacity[i].state == Reserved
  {
  }

  lemma ScheduleKeepsNewest(db: Db, req: ScheduleRequest, latest: Time)
    requires AllNewest(db, latest) && latest < req.now
    requires forall r :: 0 <= r < |db.runs| ==> db.runs[r].attemptCount >= 1
    ensures AllNewest(Schedule(db, req).db, req.now)
  {
    var after := Schedule(db, req).db;
    if after != db {
      AppendKeepsNewest(db, after, after.capacity[|db.capacity|], latest);
    }
  }

  lemma ReserveKeepsNewest(db: Db, req: ReserveRequest, latest: Time)
    requires AllNewest(db, latest) && latest < req.now
    ensures AllNewest(Reserve(db, req).db, req.now)
  {
    var after := Reserve(db, req).db;
    if after != db {
      AppendKeepsNewest(db, after, after.capacity[|db.capacity|], latest);
    }
  }

  /** Under an advancing clock every RESERVED row is strictly the newest of its attempt, so no sweep is held up. */
  lemma {:induction false} ReservedRowsAreNewest(db: Db, steps: seq<Step>)
    requires Fresh(db) && ClockAdvances(steps)
    ensures AllNewest(Execute(db, steps), LatestStamp(steps))
  {
    if |steps| > 0 {
      var last := steps[|steps| - 1];
      var before := Execute(db, steps[..|steps| - 1]);
      ReservedRowsAreNewest(db, steps[..|steps| - 1]);
      if last.ScheduleStep? {
        AttemptsCountFromOne(db, steps[..|steps| - 1]);
        ScheduleKeepsNewest(before, last.schedule, LatestStamp(steps[..|steps| - 1]));
      } else if last.ReserveStep? {
        ReserveKeepsNewest(before, last.reserve, LatestStamp(steps[..|steps| - 1]));
      } else if last.FinishStep? {
        FinishKeepsNewest(before, last.finish, last.row);
      } else {
        CapacityUntouched(before, last);
      }
    }
  }

  lemma AttemptsCountFromOne(db: Db, steps: seq<Step>)
    requires Fresh(db)
    ensures forall r :: 0 <= r < |Execute(db, steps).runs| ==> Execute(db, steps).runs[r].attemptCount >= 1
  {
    FreshGood(db);
    RunsStayGood(db, steps);
    forall r | 0 <= r < |Execute(db, steps).runs|
      ensures Execute(db, steps).runs[r].attemptCount >= 1
    {
      assert RunInv(Execute(db, steps), r);
    }
  }

  lemma CapacityUntouched(db: Db, step: Step)
    requires !IsReservation(step) && !step.FinishStep?
    ensures Apply(db, step).capacity == db.capacity
  {
    if !step.ReportStep? && !step.PurgeStep? {
      OtherStepsLeaveLedger(db, step);
    }
  }

  // ---- A sweep ----

  /** A sweep changes nothing but rows that were RESERVED and expired. */
  predicate OnlyExpired(db: Db, after: Db, now: Time) {
    && after == db.(capacity := after.capacity, budgets := after.budgets, usage := after.usage)
    && |after.capacity| == |db.capacity|
    && forall i :: 0 <= i < |db.capacity| ==>
         || after.capacity[i] == db.capacity[i]
         || (IsExpired(db.capacity[i], now) && after.capacity[i] == db.capacity[i].(state := Expired))
  }

  lemma FinishOnlyExpired(db: Db, req: FinishRequest, row: nat)
    requires req.target == Expired
    ensures OnlyExpired(db, Finish(db, req, row).db, req.now)
  {
  }

  lemma OnlyExpiredTransitive(a: Db, b: Db, c: Db, now: Time)
    requires OnlyExpired(a, b, now) && OnlyExpired(b, c, now)
    ensures OnlyExpired(a, c, now)
  {
    forall i | 0 <= i < |a.capacity|
      ensures c.capacity[i] == a.capacity[i] ||
              (IsExpired(a.capacity[i], now) && c.capacity[i] == a.capacity[i].(state := Expired))
    {
      assert b.capacity[i] == a.capacity[i] || b.capacity[i].state == Expired;
    }
  }

  /** The capacity table once the listed rows have expired. */
  function ExpireAll(rows: seq<CapacityRow>, items: seq<nat>): (after: seq<CapacityRow>)
    ensures |after| == |rows|
  {
    if |items| == 0 then rows
    else
      var rest := ExpireAll(rows, items[..|items| - 1]);
      var i := items[|items| - 1];
      if i < |rest| then rest[i := rest[i].(state := Expired)] else rest
  }

  lemma {:induction false} ExpireAllLeavesOthers(rows: seq<CapacityRow>, items: seq<nat>, i: nat)
    requires i < |rows| && i !in items
    ensures ExpireAll(rows, items)[i] == rows[i]
  {
    if |items| > 0 {
      ExpireAllLeavesOthers(rows, items[..|items| - 1], i);
    }
  }

  ghost predicate Sweepable(db: Db) {
    LedgerInv(db) && NewestReserved(db)
  }

  /** Where a sweep of items over db stands after its first k. */
  ghost predicate Swept(db: Db, after: Db, items: seq<nat>, k: nat, now: Time, reclaimed: nat)
    requires k <= |items|
  {
    && OnlyExpired(db, after, now) && (LedgerInv(db) ==> LedgerInv(after))
    && (Sweepable(db) ==>
          Sweepable(after) && reclaimed == k && after.capacity == ExpireAll(db.capacity, items[..k]))
  }

  /** The next transition keeps every guarantee, and under Sweepable it expires its row. */
  lemma SweepStep(db: Db, mid: Db, items: seq<nat>, limit: nat, k: nat, now: Time, reclaimed: nat, row: nat)
    requires now > 0 && k < |items| && IsFirst(ExpiredKeys(db.capacity, now), limit, items)
    requires Swept(db, mid, items, k, now, reclaimed)
    requires (exists i: nat :: IsLatest(mid, ExpireRequest(mid.capacity[items[k]], now), i)) ==>
               IsLatest(mid, ExpireRequest(mid.capacity[items[k]], now), row)
    ensures var o := Finish(mid, ExpireRequest(mid.capacity[items[k]], now), row);
            && OnlyExpired(db, o.db, now) && (LedgerInv(db) ==> LedgerInv(o.db))
            && (Sweepable(db) ==> o.result == Ok(true))
            && (o.result.Ok? ==> Swept(db, o.db, items, k + 1, now,
                if o.result.value then reclaimed + 1 else reclaimed))
  {
    var i := items[k];
    var req := ExpireRequest(mid.capacity[i], now);
    var after := Finish(mid, req, row).db;
    FinishOnlyExpired(mid, req, row);
    OnlyExpiredTransitive(db, mid, after, now);
    ListedRowWaits(db.capacity, items, limit, k, now);
    if LedgerInv(db) {
      FinishKeepsLedger(mid, req, row);
      if NewestReserved(db) {
        SweepableExpires(mid, i, now, row);
        FinishKeepsNewest(mid, req, row);
      }
    }
  }

  /** The k-th listed row is as it was when it was listed. */
  lemma ListedRowWaits(rows: seq<CapacityRow>, items: seq<nat>, limit: nat, k: nat, now: Time)
    requires k < |items| && IsFirst(ExpiredKeys(rows, now), limit, items)
    ensures items[k] < |rows| && IsExpired(rows[items[k]], now)
    ensures ExpireAll(rows, items[..k])[items[k]] == rows[items[k]]
    ensures ExpireAll(rows, items[..k + 1]) ==
            ExpireAll(rows, items[..k])[items[k] := rows[items[k]].(state := Expired)]
  {
    FirstNotBefore(ExpiredKeys(rows, now), limit, items, k);
    ExpireAllLeavesOthers(rows, items[..k], items[k]);
    ExpireNext(rows, items, k);
  }

  lemma ExpireNext(rows: seq<CapacityRow>, items: seq<nat>, k: nat)
    requires k < |items| && items[k] < |rows|
    ensures var before := ExpireAll(rows, items[..k]);
            ExpireAll(rows, items[..k + 1]) == before[items[k] := before[items[k]].(state := Expired)]
  {
    assert items[..k + 1][..k] == items[..k];
  }

  lemma SweepableExpires(db: Db, i: nat, now: Time, row: nat)
    requires Sweepable(db) && i < |db.capacity| && IsExpired(db.capacity[i], now) && now > 0
    requires (exists k: nat :: IsLatest(db, ExpireRequest(db.capacity[i], now), k)) ==>
               IsLatest(db, ExpireRequest(db.capacity[i], now), row)
    ensures var o := Finish(db, ExpireRequest(db.capacity[i], now), row);
            o.result == Ok(true) && o.db.capacity == db.capacity[i := db.capacity[i].(state := Expired)]
  {
    var latest := LatestExists(db, ExpireRequest(db.capacity[i], now), i, |db.capacity|);
    assert IsLatest(db, ExpireRequest(db.capacity[i], now), latest);
    NewestIsReclaimed(db, i, now, row);
  }

  // ---- A row no sweep gets past ----

  /**
   A rival the database picks instead has ended, so nothing changes: it is passed over, or the answer is a conflict.
   */
  lemma RivalChangesNothing(db: Db, i: nat, rival: nat, now: Time)
    requires LedgerInv(db) && i < |db.capacity| && IsExpired(db.capacity[i], now) && rival != i
    requires now > 0 && db.capacity[i].attemptNumber >= 1 && IsLatest(db, ExpireRequest(db.capacity[i], now), rival)
    ensures db.capacity[rival].state != Reserved
    ensures Finish(db, ExpireRequest(db.capacity[i], now), rival) ==
            Outcome(db, if db.capacity[rival].state == Expired then Ok(false) else Err(Conflict))
  {
    assert UniqueActive(db);
  }

  /**
   The first row listed is not its attempt's latest: every row the database may return for it was released or settled.
   */
  predicate HeadBlocked(db: Db, items: seq<nat>, now: Time) {
    && |items| > 0 && items[0] < |db.capacity| && db.capacity[items[0]].attemptNumber >= 1
    && forall row :: 0 <= row < |db.capacity| && IsLatest(db, ExpireRequest(db.capacity[items[0]], now), row) ==>
         db.capacity[row].state == Released || db.capacity[row].state == Settled
  }

  /** A blocked head ends the sweep before anything is reclaimed. */
  lemma BlockedHeadConflicts(db: Db, items: seq<nat>, now: Time, row: nat)
    requires LedgerInv(db) && now > 0 && HeadBlocked(db, items, now) && IsExpired(db.capacity[items[0]], now)
    requires (exists k: nat :: IsLatest(db, ExpireRequest(db.capacity[items[0]], now), k)) ==>
               IsLatest(db, ExpireRequest(db.capacity[items[0]], now), row)
    ensures Finish(db, ExpireRequest(db.capacity[items[0]], now), row) == Outcome(db, Err(Conflict))
  {
    var i := items[0];
    var latest := LatestExists(db, ExpireRequest(db.capacity[i], now), i, |db.capacity|);
    assert IsLatest(db, ExpireRequest(db.capacity[i], now), latest);
    assert row != i;
    RivalChangesNothing(db, i, row, now);
  }

  /** With a blocked head, a sweep never gets beyond its start. */
  lemma HeadStep(db: Db, mid: Db, items: seq<nat>, limit: nat, k: nat, now: Time, row: nat)
    requires now > 0 && k < |items| && IsFirst(ExpiredKeys(db.capacity, now), limit, items)
    requires LedgerInv(db) && HeadBlocked(db, items, now) ==> k == 0 && mid == db
    requires |mid.capacity| == |db.capacity|
    requires items[k] < |mid.capacity|
    requires (exists i: nat :: IsLatest(mid, ExpireRequest(mid.capacity[items[k]], now), i)) ==>
               IsLatest(mid, ExpireRequest(mid.capacity[items[k]], now), row)
    ensures LedgerInv(db) && HeadBlocked(db, items, now) ==>
              Finish(mid, ExpireRequest(mid.capacity[items[k]], now), row) == Outcome(db, Err(Conflict))
  {
    if LedgerInv(db) && HeadBlocked(db, items, now) {
      assert items[0] in ExpiredKeys(db.capacity, now);
      BlockedHeadConflicts(db, items, now, row);
    }
  }

  /** What a sweep of items guarantees, however it ended. */
  ghost predicate SweepAnswer(db: Db, after: Db, items: seq<nat>, now: Time, reclaimed: nat, error: Option<Error>) {
    && OnlyExpired(db, after, now) && (LedgerInv(db) ==> LedgerInv(after))
    && (Sweepable(db) ==>
          error.None? && reclaimed == |items| && after.capacity == ExpireAll(db.capacity, items))
    && (LedgerInv(db) && HeadBlocked(db, items, now) ==> error == Some(Conflict) && reclaimed == 0 && after == db)
  }

  /** A sweep on its way: ended by its error, or standing after its first k rows. */
  ghost predicate SweepAt(db: Db, after: Db, items: seq<nat>, k: nat, now: Time, reclaimed: nat,
                          error: Option<Error>) {
    && OnlyExpired(db, after, now) && (LedgerInv(db) ==> LedgerInv(after))
    && (Sweepable(db) ==> error.None? && ExpiredUpTo(db, after, items, k, reclaimed))
    && (LedgerInv(db) && HeadBlocked(db, items, now) ==> HeldUpTo(db, after, k, reclaimed, error))
  }

  /** Exactly the first k rows listed are expired. */
  ghost predicate ExpiredUpTo(db: Db, after: Db, items: seq<nat>, k: nat, reclaimed: nat) {
    NewestReserved(after) && reclaimed == k <= |items| && after.capacity == ExpireAll(db.capacity, items[..k])
  }

  /** Not started, or ended by the conflict with nothing changed. */
  ghost predicate HeldUpTo(db: Db, after: Db, k: nat, reclaimed: nat, error: Option<Error>) {
    after == db && reclaimed == 0 && (if k == 0 then error.None? else error == Some(Conflict))
  }

  lemma SweepStarts(db: Db, items: seq<nat>, now: Time)
    ensures SweepAt(db, db, items, 0, now, 0, None)
  {
  }

  lemma SweepEnds(db: Db, after: Db, items: seq<nat>, k: nat, now: Time, reclaimed: nat, error: Option<Error>)
    requires SweepAt(db, after, items, k, now, reclaimed, error) && (error.None? ==> k == |items|)
    ensures SweepAnswer(db, after, items, now, reclaimed, error)
  {
    assert items[..|items|] == items;
  }

  /** One more transition: it ends the sweep with its error, or the sweep stands one row further. */
  lemma SweepsOn(db: Db, mid: Db, items: seq<nat>, limit: nat, k: nat, now: Time, reclaimed: nat, row: nat)
    requires now > 0 && k < |items| && IsFirst(ExpiredKeys(db.capacity, now), limit, items)
    requires SweepAt(db, mid, items, k, now, reclaimed, None)
    requires (exists i: nat :: IsLatest(mid, ExpireRequest(mid.capacity[items[k]], now), i)) ==>
               IsLatest(mid, ExpireRequest(mid.capacity[items[k]], now), row)
    ensures var o := Finish(mid, ExpireRequest(mid.capacity[items[k]], now), row);
            match o.result
            case Err(e) => SweepAt(db, o.db, items, k + 1, now, reclaimed, Some(e))
            case Ok(moved) => SweepAt(db, o.db, items, k + 1, now, if moved then reclaimed + 1 else reclaimed, None)
  {
    SweepStep(db, mid, items, limit, k, now, reclaimed, row);
    HeadStep(db, mid, items, limit, k, now, row);
  }

  /** The oldest expiry stays in front of every later listing of the same table. */
  lemma HeadStaysInFront(rows: seq<CapacityRow>, now: Time, limit: nat, items: seq<nat>,
                         later: Time, laterLimit: nat, laterItems: seq<nat>)
    requires IsFirst(ExpiredKeys(rows, now), limit, items) && |items| > 0 && now <= later && laterLimit > 0
    requires IsFirst(ExpiredKeys(rows, later), laterLimit, laterItems)
    ensures |laterItems| > 0 && laterItems[0] == items[0]
  {
    var (keys, laterKeys) := (ExpiredKeys(rows, now), ExpiredKeys(rows, later));
    var head := items[0];
    assert head in keys && head in laterKeys;
    assert |laterItems| > 0;
    var front := laterItems[0];
    assert front in laterKeys;
    if front != head {
      assert Less(laterKeys[front], laterKeys[head]);
    }
  }

  /** Once its head is blocked, every later sweep of the same table, of any size, has the same blocked head. */
  lemma BlockedForever(db: Db, now: Time, limit: nat, items: seq<nat>, later: Time, laterLimit: nat,
      laterItems: seq<nat>)
    requires IsFirst(ExpiredKeys(db.capacity, now), limit, items) && HeadBlocked(db, items, now)
    requires now <= later && laterLimit > 0 && IsFirst(ExpiredKeys(db.capacity, later), laterLimit, laterItems)
    ensures HeadBlocked(db, laterItems, later)
  {
    HeadStaysInFront(db.capacity, now, limit, items, later, laterLimit, laterItems);
    forall row | 0 <= row < |db.capacity| && IsLatest(db, ExpireRequest(db.capacity[items[0]], later), row)
      ensures db.capacity[row].state == Released || db.capacity[row].state == Settled
    {
      assert IsLatest(db, ExpireRequest(db.capacity[items[0]], now), row);
    }
  }

  // ---- Such a row is reachable ----

  /** Two reservations of one attempt, the first released, the second stamped no later than it. */
  predicate Overtaken(db: Db, first: Time, again: Time) {
    && |db.capacity| == 2 && |db.budgets| == 2 && db.budgets[0].capacity == 0 && db.budgets[1].capacity == 1
    && db.capacity[0].state == Released && db.capacity[1].state == Reserved
    && db.capacity[0].createdAt == first && db.capacity[1].createdAt == again
    && db.capacity[1].attemptNumber >= 1
    && MatchesFinish(db.capacity[0], ExpireRequest(db.capacity[1], 0))
  }

  lemma OneRowHolds(row: CapacityRow, cluster: string, now: Time, res: Resource)
    requires row.state != Reserved
    ensures Held([row], cluster, now, res) == 0
  {
    assert HeldWeights([row], cluster, now, res) == [] + [0];
    SumAppend([], 0);
  }

  /** Reserve, release, reserve again on an empty ledger. */
  lemma ReserveReleaseReserve(db: Db, req: ReserveRequest, releasedAt: Time, again: Time)
    requires db.capacity == [] && db.budgets == [] && db.usage == map[]
    requires Reserve(db, req).result.Ok? && releasedAt > 0 && again > 0
    ensures var reserved := Reserve(db, req).db;
            var release := FinishRequest(req.tenant, req.run, req.attemptNumber, releasedAt, Released);
            var released := Finish(reserved, release, 0).db;
            Overtaken(Reserve(released, req.(now := again)).db, req.now, again)
  {
    var reserved := Reserve(db, req).db;
    FirstReservation(db, req);
    var release := FinishRequest(req.tenant, req.run, req.attemptNumber, releasedAt, Released);
    var released := Finish(reserved, release, 0).db;
    ReleaseOfOne(reserved, release, req.budget);
    SecondReservation(db, released, req, again);
  }

  predicate OneReservation(db: Db, req: ReserveRequest, state: ReservationState, reserved: int) {
    && |db.capacity| == 1 && |db.budgets| == 1 && db.budgets[0].capacity == 0
    && db.capacity[0] == NewCapacityRow(req.tenant, req.run, req.attempt, req.attemptNumber, req.cluster, req.cpu,
                                        req.memory, req.now, req.ttl).(state := state)
    && db.budgets[0].tenant == req.tenant && db.budgets[0].day == Day(req.now) && db.budgets[0].amount == req.budget
    && db.budgets[0].state == state
    && db.usage == map[(req.tenant, Day(req.now)) := DayUsage(0, reserved)]
  }

  lemma FirstReservation(db: Db, req: ReserveRequest)
    requires db.capacity == [] && db.budgets == [] && db.usage == map[] && Reserve(db, req).result.Ok?
    ensures OneReservation(Reserve(db, req).db, req, Reserved, req.budget)
  {
  }

  lemma ReleaseOfOne(db: Db, req: FinishRequest, amount: nat)
    requires |db.capacity| == 1 && |db.budgets| == 1 && db.budgets[0].capacity == 0
    requires MatchesFinish(db.capacity[0], req)
    requires db.capacity[0].state == Reserved && db.budgets[0].state == Reserved && db.budgets[0].amount == amount
    requires req.attemptNumber >= 1 && req.now > 0 && req.target == Released
    requires (req.tenant, db.budgets[0].day) in db.usage
    ensures Finish(db, req, 0).db ==
            db.(capacity := [db.capacity[0].(state := Released)], budgets := [db.budgets[0].(state := Released)],
                usage := db.usage[(req.tenant, db.budgets[0].day) :=
                  MovedUsage(db.usage[(req.tenant, db.budgets[0].day)], amount, Released)])
  {
  }

  lemma SecondReservation(db: Db, released: Db, req: ReserveRequest, again: Time)
    requires db.capacity == [] && db.budgets == [] && db.usage == map[] && Reserve(db, req).result.Ok? && again > 0
    requires released == Reserve(db, req).db.(capacity := released.capacity, budgets := released.budgets,
               usage := released.usage)
    requires OneReservation(released, req, Released, 0)
    ensures Overtaken(Reserve(released, req.(now := again)).db, req.now, again)
  {
    OneRowHolds(released.capacity[0], req.cluster, again, CpuMillis);
    OneRowHolds(released.capacity[0], req.cluster, again, MemoryMib);
    assert Held(db.capacity, req.cluster, req.now, CpuMillis) == 0 &&
        Held(db.capacity, req.cluster, req.now, MemoryMib) == 0;
  }

  /**
   The tie and the step back. After a run from a fresh database that reserves, releases and reserves the attempt again
   at the same instant or an earlier one, the released row may be returned for the expired one, and the transition
   answers with a conflict; if the instant was earlier, every sweep is blocked by it.
   */
  lemma OvertakenRowBlocks(db: Db, first: Time, again: Time, now: Time)
    requires LedgerInv(db) && Overtaken(db, first, again) && again <= first
    requires now > 0 && db.capacity[1].expiresAt <= now
    ensures IsLatest(db, ExpireRequest(db.capacity[1], now), 0)
    ensures Finish(db, ExpireRequest(db.capacity[1], now), 0) == Outcome(db, Err(Conflict))
    ensures again < first ==> HeadBlocked(db, [1], now)
  {
    BudgetOfRow(db, 0);
    RivalChangesNothing(db, 1, 0, now);
  }

  function OvertakingRun(create: CreateRequest, req: ReserveRequest, releasedAt: Time, again: Time): seq<Step> {
    var release := FinishRequest(req.tenant, req.run, req.attemptNumber, releasedAt, Released);
    [CreateStep(create), ReserveStep(req), FinishStep(release, 0), ReserveStep(req.(now := again))]
  }

  lemma OvertakingRunEnds(db: Db, create: CreateRequest, req: ReserveRequest, releasedAt: Time, again: Time)
    ensures var release := FinishRequest(req.tenant, req.run, req.attemptNumber, releasedAt, Released);
            var released := Finish(Reserve(Create(db, create).db, req).db, release, 0).db;
            Execute(db, OvertakingRun(create, req, releasedAt, again)) == Reserve(released, req.(now := again)).db
  {
    var steps := OvertakingRun(create, req, releasedAt, again);
    FourSteps(db, steps[0], steps[1], steps[2], steps[3]);
  }

  /** The run itself, from a fresh database. */
  lemma OvertakenIsReachable(db: Db, create: CreateRequest, req: ReserveRequest, releasedAt: Time, again: Time)
    requires Fresh(db) && Reserve(Create(db, create).db, req).result.Ok? && releasedAt > 0 && again > 0
    ensures var after := Execute(db, OvertakingRun(create, req, releasedAt, again));
            Overtaken(after, req.now, again) && LedgerInv(after)
  {
    ReserveReleaseReserve(Create(db, create).db, req, releasedAt, again);
    OvertakingRunEnds(db, create, req, releasedAt, again);
    BudgetConservation(db, OvertakingRun(create, req, releasedAt, again));
  }

  lemma FourSteps(db: Db, a: Step, b: Step, c: Step, d: Step)
    ensures Execute(db, [a, b, c, d]) == Apply(Apply(Apply(Apply(db, a), b), c), d)
  {
    assert [a, b, c, d][..3] == [a, b, c] && [a, b, c][..2] == [a, b] && [a, b][..1] == [a] && [a][..0] == [];
    assert Execute(db, [a]) == Apply(db, a);
    assert Execute(db, [a, b]) == Apply(Apply(db, a), b);
    assert Execute(db, [a, b, c]) == Apply(Apply(Apply(db, a), b), c);
  }
}
