/** The reservation ledger: budget conservation and cluster capacity over every interleaving. */
module Ledger {
  import opened Common
  import opened RunDomain
  import opened Sums
  import opened Store

  // ---- Budget ----

  function BudgetWeights(rows: seq<BudgetRow>, tenant: nat, day: nat, state: ReservationState): (ws: seq<int>)
    ensures |ws| == |rows|
  {
    seq(|rows|, i requires 0 <= i < |rows| =>
      if rows[i].tenant == tenant && rows[i].day == day && rows[i].state == state then rows[i].amount else 0)
  }

  /** The sum of a tenant-day's budget rows that are in one state. */
  function BudgetIn(db: Db, tenant: nat, day: nat, state: ReservationState): int {
    Sum(BudgetWeights(db.budgets, tenant, day, state))
  }

  function DailyLimit(db: Db, tenant: nat): nat {
    if tenant in db.policies then db.policies[tenant].dailyBudget else 0
  }

  /** Capacity and budget rows come in pairs that share their owner and always their state. */
  predicate Paired(db: Db) {
    && |db.capacity| == |db.budgets|
    && forall i :: 0 <= i < |db.budgets| ==>
         && db.budgets[i].capacity == i && db.budgets[i].state == db.capacity[i].state
         && db.budgets[i].tenant == db.capacity[i].tenant && (db.budgets[i].tenant, db.budgets[i].day) in db.usage
  }

  /** At most one reservation of an attempt is RESERVED, whichever path inserted it. */
  predicate UniqueActive(db: Db) {
    forall i, j :: 0 <= i < j < |db.capacity| && db.capacity[j].state == Reserved ==>
      !IsReservedFor(db.capacity[i], db.capacity[j].run, db.capacity[j].attemptNumber)
  }

  /** The day's counters are exactly the sums of the rows they stand for. */
  ghost predicate Conserved(db: Db) {
    forall t: nat, d: nat ::
      && UsageOf(db, t, d).reserved == BudgetIn(db, t, d, Reserved)
      && UsageOf(db, t, d).spent == BudgetIn(db, t, d, Settled)
  }

  ghost predicate WithinLimits(db: Db) {
    forall t: nat, d: nat :: UsageOf(db, t, d).spent + UsageOf(db, t, d).reserved <= DailyLimit(db, t)
  }

  ghost predicate LedgerInv(db: Db) {
    Paired(db) && UniqueActive(db) && Conserved(db) && WithinLimits(db)
  }

  lemma BudgetOfRow(db: Db, row: nat)
    requires Paired(db) && row < |db.capacity|
    ensures FindBudget(db.budgets, row) == Some(row)
  {
    assert db.budgets[row].capacity == row;
  }

  lemma BudgetAppend(rows: seq<BudgetRow>, row: BudgetRow, t: nat, d: nat, s: ReservationState)
    ensures Sum(BudgetWeights(rows + [row], t, d, s)) ==
            Sum(BudgetWeights(rows, t, d, s))
            + if row.tenant == t && row.day == d && row.state == s then row.amount else 0
  {
    var w := if row.tenant == t && row.day == d && row.state == s then row.amount else 0;
    assert BudgetWeights(rows + [row], t, d, s) == BudgetWeights(rows, t, d, s) + [w];
    SumAppend(BudgetWeights(rows, t, d, s), w);
  }

  lemma BudgetUpdate(rows: seq<BudgetRow>, i: nat, row: BudgetRow, t: nat, d: nat, s: ReservationState)
    requires i < |rows| && row == rows[i].(state := row.state)
    ensures Sum(BudgetWeights(rows[i := row], t, d, s)) ==
            Sum(BudgetWeights(rows, t, d, s))
            + (if row.tenant == t && row.day == d && row.state == s then row.amount else 0)
            - (if row.tenant == t && row.day == d && rows[i].state == s then row.amount else 0)
  {
    var w := if row.tenant == t && row.day == d && row.state == s then row.amount else 0;
    assert BudgetWeights(rows[i := row], t, d, s) == BudgetWeights(rows, t, d, s)[i := w];
    SumUpdate(BudgetWeights(rows, t, d, s), i, w);
  }

  lemma ReservationKeepsPairs(db: Db, row: CapacityRow, amount: nat, now: Time)
    requires Paired(db) && UniqueActive(db)
    requires row.state == Reserved && FindActive(db.capacity, row.run, row.attemptNumber).None?
    ensures Paired(WithReservation(db, row, amount, now)) && UniqueActive(WithReservation(db, row, amount, now))
  {
  }

  lemma ReservationKeepsLedger(db: Db, row: CapacityRow, amount: nat, now: Time)
    requires LedgerInv(db)
    requires row.state == Reserved && FindActive(db.capacity, row.run, row.attemptNumber).None?
    requires row.tenant in db.policies && WithinBudget(db, row.tenant, amount, now)
    ensures LedgerInv(WithReservation(db, row, amount, now))
  {
    var after := WithReservation(db, row, amount, now);
    ReservationKeepsPairs(db, row, amount, now);
    forall t: nat, d: nat
      ensures UsageOf(after, t, d).reserved == BudgetIn(after, t, d, Reserved)
      ensures UsageOf(after, t, d).spent == BudgetIn(after, t, d, Settled)
      ensures UsageOf(after, t, d).spent + UsageOf(after, t, d).reserved <= DailyLimit(after, t)
    {
      BudgetAppend(db.budgets, after.budgets[|db.budgets|], t, d, Reserved);
      BudgetAppend(db.budgets, after.budgets[|db.budgets|], t, d, Settled);
      assert UsageOf(db, t, d).spent + UsageOf(db, t, d).reserved <= DailyLimit(db, t);
    }
  }

  /** One budget row leaves RESERVED: every day's counters still match and stay within the limit. */
  lemma FinishedDay(db: Db, req: FinishRequest, row: nat, t: nat, d: nat)
    requires LedgerInv(db) && Finish(db, req, row).db != db
    ensures var after := Finish(db, req, row).db;
            && UsageOf(after, t, d).reserved == BudgetIn(after, t, d, Reserved)
            && UsageOf(after, t, d).spent == BudgetIn(after, t, d, Settled)
            && UsageOf(after, t, d).spent + UsageOf(after, t, d).reserved <= DailyLimit(db, t)
  {
    BudgetOfRow(db, row);
    var moved := db.budgets[row].(state := req.target);
    BudgetUpdate(db.budgets, row, moved, t, d, Reserved);
    BudgetUpdate(db.budgets, row, moved, t, d, Settled);
    assert UsageOf(db, t, d).spent + UsageOf(db, t, d).reserved <= DailyLimit(db, t);
  }

  lemma FinishKeepsPairs(db: Db, req: FinishRequest, row: nat)
    requires LedgerInv(db) && Finish(db, req, row).db != db
    ensures Paired(Finish(db, req, row).db) && UniqueActive(Finish(db, req, row).db)
  {
    BudgetOfRow(db, row);
  }

  lemma FinishKeepsLedger(db: Db, req: FinishRequest, row: nat)
    requires LedgerInv(db)
    ensures LedgerInv(Finish(db, req, row).db)
  {
    var after := Finish(db, req, row).db;
    if after != db {
      FinishKeepsPairs(db, req, row);
      forall t: nat, d: nat
        ensures UsageOf(after, t, d).reserved == BudgetIn(after, t, d, Reserved)
        ensures UsageOf(after, t, d).spent == BudgetIn(after, t, d, Settled)
        ensures UsageOf(after, t, d).spent + UsageOf(after, t, d).reserved <= DailyLimit(after, t)
      {
        FinishedDay(db, req, row, t, d);
      }
    }
  }

  lemma ReserveKeepsLedger(db: Db, req: ReserveRequest)
    requires LedgerInv(db)
    ensures LedgerInv(Reserve(db, req).db)
  {
    if Reserve(db, req).db != db {
      ReservationKeepsLedger(
        db, NewCapacityRow(req.tenant, req.run, req.attempt, req.attemptNumber, req.cluster, req.cpu, req.memory,
            req.now, req.ttl),
        req.budget, req.now);
    }
  }

  /** What a committed schedule found: no active reservation of the attempt, and room in the budget. */
  lemma ScheduleReserves(db: Db, req: ScheduleRequest)
    requires Schedule(db, req).db != db
    ensures req.claim.run < |db.runs| && req.attempt in db.attempts && Schedule(db, req).db == Scheduled(db, req)
    ensures var run := db.runs[req.claim.run];
            && FindActive(db.capacity, req.claim.run, run.attemptCount).None?
            && run.tenant in db.policies && WithinBudget(db, run.tenant, req.budget, req.now)
  {
  }

  lemma ScheduleKeepsLedger(db: Db, req: ScheduleRequest)
    requires LedgerInv(db)
    ensures LedgerInv(Schedule(db, req).db)
  {
    if Schedule(db, req).db != db {
      ScheduleReserves(db, req);
      ScheduledKeepsLedger(db, req);
    }
  }

  lemma ScheduledKeepsLedger(db: Db, req: ScheduleRequest)
    requires LedgerInv(db) && req.claim.run < |db.runs| && req.attempt in db.attempts
    requires var run := db.runs[req.claim.run];
             && FindActive(db.capacity, req.claim.run, run.attemptCount).None?
             && run.tenant in db.policies && WithinBudget(db, run.tenant, req.budget, req.now)
    ensures LedgerInv(Scheduled(db, req))
  {
    var run := db.runs[req.claim.run];
    var row := NewCapacityRow(run.tenant, req.claim.run, req.attempt, run.attemptCount, req.cluster, run.cpu,
        run.memory, req.now, req.ttl);
    ReservationKeepsLedger(db, row, req.budget, req.now);
    SameLedger(WithReservation(db, row, req.budget, req.now), Scheduled(db, req));
  }

  /** Two states with the same ledger tables and policies satisfy the same ledger invariant. */
  lemma SameLedger(db: Db, after: Db)
    requires LedgerInv(db)
    requires after.capacity == db.capacity && after.budgets == db.budgets && after.usage == db.usage
    requires after.policies == db.policies
    ensures LedgerInv(after)
  {
    forall t: nat, d: nat, s
      ensures UsageOf(after, t, d) == UsageOf(db, t, d) && BudgetIn(after, t, d, s) == BudgetIn(db, t, d, s)
    {}
  }

  lemma {:induction false} ClaimTouchesRunsOnly(db: Db, batch: seq<RunId>, owner: string, now: Time, lease: nat)
    ensures var after := ClaimAll(db, batch, owner, now, lease);
            after == db.(runs := after.runs) && |after.runs| == |db.runs|
  {
    if |batch| > 0 {
      ClaimTouchesRunsOnly(db, batch[..|batch| - 1], owner, now, lease);
    }
  }

  lemma OtherStepsLeaveLedger(db: Db, step: Step)
    requires !step.ScheduleStep? && !step.ReserveStep? && !step.FinishStep? && !step.ReportStep?
    ensures SameLedgerTables(db, Apply(db, step))
  {
    if step.ClaimStep? {
      ClaimTouchesRunsOnly(db, step.batch, step.owner, step.claimedAt, step.lease);
    }
  }

  lemma StepKeepsLedger(db: Db, step: Step)
    requires LedgerInv(db)
    ensures LedgerInv(Apply(db, step))
  {
    if step.ScheduleStep? {
      ScheduleKeepsLedger(db, step.schedule);
    } else if step.ReserveStep? {
      ReserveKeepsLedger(db, step.reserve);
    } else if step.FinishStep? {
      FinishKeepsLedger(db, step.finish, step.row);
    } else if step.ReportStep? {
      SameLedger(db, Apply(db, step));
    } else {
      OtherStepsLeaveLedger(db, step);
      SameLedger(db, Apply(db, step));
    }
  }

  lemma FreshLedger(db: Db)
    requires Fresh(db)
    ensures LedgerInv(db)
  {
    forall t: nat, d: nat, s
      ensures BudgetIn(db, t, d, s) == 0 && UsageOf(db, t, d) == DayUsage(0, 0)
    {
      assert BudgetWeights(db.budgets, t, d, s) == [];
    }
  }

  /**
   Budget conservation. Over every interleaving of every transaction, with any clocks, each tenant-day's
   counters equal the sums of its RESERVED and SETTLED rows, paired rows share their state, an attempt has
   at most one RESERVED row, and spent plus reserved never exceeds the tenant's daily limit.
   */
  lemma {:induction false} BudgetConservation(db: Db, steps: seq<Step>)
    requires Fresh(db)
    ensures LedgerInv(Execute(db, steps))
  {
    if |steps| == 0 {
      FreshLedger(db);
    } else {
      BudgetConservation(db, steps[..|steps| - 1]);
      StepKeepsLedger(Execute(db, steps[..|steps| - 1]), steps[|steps| - 1]);
    }
  }

  // ---- Capacity ----

  /** From the instant `since` on, what is held on each cluster fits its latest snapshot. */
  ghost predicate CapacityInv(db: Db, since: Time) {
    forall c: string, t: Time, res: Resource :: c in db.clusters && t >= since ==>
      Held(db.capacity, c, t, res) <= Allocatable(db.clusters[c], res)
  }

  /** Every reservation is on a registered cluster: cluster_id is a foreign key. */
  predicate OnKnownClusters(db: Db) {
    forall i :: 0 <= i < |db.capacity| ==> db.capacity[i].cluster in db.clusters
  }

  /** The instant a transaction is stamped with; the others leave the ledger alone. */
  function StampOf(step: Step): Time {
    match step
    case ScheduleStep(req) => req.now
    case ReserveStep(req) => req.now
    case _ => 0
  }

  /** The step does not replace a cluster's latest snapshot by a smaller one. */
  predicate NoShrink(db: Db, step: Step) {
    step.ReportStep? && step.id in db.clusters ==>
      var after := Apply(db, step).clusters[step.id].snapshot;
      after.cpu >= db.clusters[step.id].snapshot.cpu && after.memory >= db.clusters[step.id].snapshot.memory
  }

  /** Later instants count fewer reservations. */
  lemma HeldShrinks(rows: seq<CapacityRow>, cluster: string, t: Time, later: Time, res: Resource)
    requires t <= later
    ensures Held(rows, cluster, later, res) <= Held(rows, cluster, t, res)
  {
    SumMonotone(HeldWeights(rows, cluster, later, res), HeldWeights(rows, cluster, t, res));
  }

  lemma HeldAppend(rows: seq<CapacityRow>, row: CapacityRow, cluster: string, t: Time, res: Resource)
    ensures Held(rows + [row], cluster, t, res) <=
            Held(rows, cluster, t, res) + if row.cluster == cluster then Amount(row, res) else 0
  {
    var w := if row.cluster == cluster && row.state == Reserved && row.expiresAt > t then Amount(row, res) else 0;
    assert HeldWeights(rows + [row], cluster, t, res) == HeldWeights(rows, cluster, t, res) + [w];
    SumAppend(HeldWeights(rows, cluster, t, res), w);
  }

  lemma ReservationKeepsCapacity(db: Db, after: Db, row: CapacityRow, now: Time, since: Time)
    requires CapacityInv(db, since) && row.cluster in db.clusters
    requires Fits(db, row.cluster, row.cpu, row.memory, now)
    requires after.capacity == db.capacity + [row] && after.clusters == db.clusters
    ensures CapacityInv(after, Max(since, now))
  {
    forall c: string, t: Time, res: Resource | c in after.clusters && t >= Max(since, now)
      ensures Held(after.capacity, c, t, res) <= Allocatable(after.clusters[c], res)
    {
      HeldAppend(db.capacity, row, c, t, res);
      HeldShrinks(db.capacity, c, now, t, res);
    }
  }

  lemma FinishKeepsCapacity(db: Db, req: FinishRequest, row: nat, since: Time)
    requires CapacityInv(db, since) && OnKnownClusters(db)
    ensures CapacityInv(Finish(db, req, row).db, since) && OnKnownClusters(Finish(db, req, row).db)
  {
    var after := Finish(db, req, row).db;
    forall c: string, t: Time, res: Resource | c in after.clusters && t >= since
      ensures Held(after.capacity, c, t, res) <= Held(db.capacity, c, t, res)
    {
      SumMonotone(HeldWeights(after.capacity, c, t, res), HeldWeights(db.capacity, c, t, res));
    }
  }

  lemma ReportKeepsCapacity(db: Db, step: Step, since: Time)
    requires step.ReportStep? && NoShrink(db, step)
    requires CapacityInv(db, since) && OnKnownClusters(db)
    ensures CapacityInv(Apply(db, step), since) && OnKnownClusters(Apply(db, step))
  {
    var after := Apply(db, step);
    forall c: string, t: Time, res: Resource | c in after.clusters && t >= since
      ensures Held(after.capacity, c, t, res) <= Allocatable(after.clusters[c], res)
    {
      if c !in db.clusters {
        assert HeldWeights(db.capacity, c, t, res) == seq(|db.capacity|, _ => 0);
        SumZero(|db.capacity|);
      }
    }
  }

  lemma ScheduleKeepsCapacity(db: Db, req: ScheduleRequest, since: Time)
    requires CapacityInv(db, since) && OnKnownClusters(db)
    ensures CapacityInv(Schedule(db, req).db, Max(since, req.now)) && OnKnownClusters(Schedule(db, req).db)
  {
    var after := Schedule(db, req).db;
    if after != db {
      ReservationKeepsCapacity(db, after, after.capacity[|db.capacity|], req.now, since);
    }
  }

  lemma ReserveKeepsCapacity(db: Db, req: ReserveRequest, since: Time)
    requires CapacityInv(db, since) && OnKnownClusters(db)
    ensures CapacityInv(Reserve(db, req).db, Max(since, req.now)) && OnKnownClusters(Reserve(db, req).db)
  {
    var after := Reserve(db, req).db;
    if after != db {
      ReservationKeepsCapacity(db, after, after.capacity[|db.capacity|], req.now, since);
    }
  }

  lemma StepKeepsCapacity(db: Db, step: Step, since: Time)
    requires CapacityInv(db, since) && OnKnownClusters(db) && NoShrink(db, step)
    ensures CapacityInv(Apply(db, step), Max(since, StampOf(step))) && OnKnownClusters(Apply(db, step))
  {
    if step.ScheduleStep? {
      ScheduleKeepsCapacity(db, step.schedule, since);
    } else if step.ReserveStep? {
      ReserveKeepsCapacity(db, step.reserve, since);
    } else if step.FinishStep? {
      FinishKeepsCapacity(db, step.finish, step.row, since);
    } else if step.ReportStep? {
      ReportKeepsCapacity(db, step, since);
    } else {
      OtherStepsLeaveLedger(db, step);
    }
  }

  /** No report along the run shrinks a latest snapshot. */
  predicate NeverShrinks(db: Db, steps: seq<Step>) {
    |steps| == 0 ||
    (NeverShrinks(db, steps[..|steps| - 1]) && NoShrink(Execute(db, steps[..|steps| - 1]), steps[|steps| - 1]))
  }

  /** The latest instant any transaction of the run was stamped with. */
  function LatestStamp(steps: seq<Step>): Time {
    if |steps| == 0 then 0 else Max(LatestStamp(steps[..|steps| - 1]), StampOf(steps[|steps| - 1]))
  }

  /**
   Cluster capacity. However the schedulers' clocks wander, from the latest instant any of them has used the
   reservations that are RESERVED and unexpired on a cluster fit its latest snapshot, as long as no report
   along the way shrank it.
   */
  lemma {:induction false} CapacityNeverExceeded(db: Db, steps: seq<Step>)
    requires Fresh(db) && NeverShrinks(db, steps)
    ensures CapacityInv(Execute(db, steps), LatestStamp(steps)) && OnKnownClusters(Execute(db, steps))
  {
    if |steps| == 0 {
      forall c: string, t: Time, res: Resource
        ensures Held(db.capacity, c, t, res) == 0
      {
        assert HeldWeights(db.capacity, c, t, res) == [];
      }
    } else {
      CapacityNeverExceeded(db, steps[..|steps| - 1]);
      StepKeepsCapacity(Execute(db, steps[..|steps| - 1]), steps[|steps| - 1], LatestStamp(steps[..|steps| - 1]));
    }
  }
}
