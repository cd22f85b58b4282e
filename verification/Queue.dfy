/** The claim query: eligibility, aging, per-tenant ranking, and what the claimed batch guarantees. */
module Queue {
  import opened Common
  import opened Arithmetic
  import opened RunDomain
  import opened Store
  import opened Ordering

  /** How waiting raises a run's priority: one step per interval, up to boost steps. */
  datatype Aging = Aging(interval: nat, boost: nat)

  function EffectivePriority(run: Run, now: Time, aging: Aging): int
    requires aging.interval > 0
  {
    var age := if now < run.createdAt then 0 else now - run.createdAt;
    run.priority + if age / aging.interval < aging.boost then age / aging.interval else aging.boost
  }

  /** base: the claimable runs. */
  function Base(db: Db, now: Time): set<RunId> {
    set r | 0 <= r < |db.runs| && Claimable(db, r, now)
  }

  /** order by effective_priority desc, created_at asc, id asc */
  function QueueKey(db: Db, now: Time, aging: Aging, r: RunId): Key
    requires aging.interval > 0 && r < |db.runs|
  {
    Key(0, -EffectivePriority(db.runs[r], now, aging), db.runs[r].createdAt, 0, r)
  }

  /** The order of one tenant's queue. */
  predicate Precedes(db: Db, now: Time, aging: Aging, p: RunId, q: RunId)
    requires aging.interval > 0 && p < |db.runs| && q < |db.runs|
  {
    Less(QueueKey(db, now, aging, p), QueueKey(db, now, aging, q))
  }

  function Ahead(db: Db, now: Time, aging: Aging, r: RunId): set<RunId>
    requires aging.interval > 0 && r < |db.runs|
  {
    set q | q in Base(db, now) && db.runs[q].tenant == db.runs[r].tenant && Precedes(db, now, aging, q, r)
  }

  /** row_number() over the tenant's queue. */
  function TenantRank(db: Db, now: Time, aging: Aging, r: RunId): nat
    requires aging.interval > 0 && r < |db.runs|
  {
    |Ahead(db, now, aging, r)| + 1
  }

  /** order by tenant_rank asc, effective_priority desc, created_at asc, tenant_id asc, id asc */
  function ClaimKey(db: Db, now: Time, aging: Aging, r: RunId): Key
    requires aging.interval > 0 && r < |db.runs|
  {
    QueueKey(db, now, aging, r).(first := TenantRank(db, now, aging, r), fourth := db.runs[r].tenant)
  }

  /** The order in which rows are locked: every tenant's first run, then every tenant's second, and so on. */
  predicate ClaimedBefore(db: Db, now: Time, aging: Aging, p: RunId, q: RunId)
    requires aging.interval > 0 && p < |db.runs| && q < |db.runs|
  {
    Less(ClaimKey(db, now, aging, p), ClaimKey(db, now, aging, q))
  }

  function ClaimKeys(db: Db, now: Time, aging: Aging, locked: set<RunId>): map<RunId, Key>
    requires aging.interval > 0
  {
    map r | r in Base(db, now) - locked :: ClaimKey(db, now, aging, r)
  }

  /**
   What one claim returns: the first limit runs, in locking order, of those that are claimable and that no
   other transaction holds locked. Ranks still count the locked ones.
   */
  predicate IsBatch(db: Db, now: Time, aging: Aging, limit: nat, locked: set<RunId>, batch: seq<RunId>)
    requires aging.interval > 0
  {
    IsFirst(ClaimKeys(db, now, aging, locked), limit, batch)
  }

  // ---- Ranks ----

  lemma SmallerCard<T>(a: set<T>, b: set<T>)
    requires a < b
    ensures |a| < |b|
  {
    assert b == a + (b - a) && a !! (b - a);
    var x :| x in b && x !in a;
    assert x in b - a;
  }

  lemma SubsetCard<T>(a: set<T>, b: set<T>)
    requires a <= b
    ensures |a| <= |b|
  {
    if a != b {
      SmallerCard(a, b);
    }
  }

  lemma RankGrows(db: Db, now: Time, aging: Aging, p: RunId, q: RunId)
    requires aging.interval > 0 && p in Base(db, now) && q in Base(db, now)
    requires db.runs[p].tenant == db.runs[q].tenant && Precedes(db, now, aging, p, q)
    ensures TenantRank(db, now, aging, p) < TenantRank(db, now, aging, q)
    ensures ClaimedBefore(db, now, aging, p, q)
  {
    assert p in Ahead(db, now, aging, q) && p !in Ahead(db, now, aging, p);
    SmallerCard(Ahead(db, now, aging, p), Ahead(db, now, aging, q));
  }

  lemma AgingIsMonotone(older: Run, younger: Run, now: Time, aging: Aging)
    requires aging.interval > 0 && older.createdAt <= younger.createdAt && older.priority >= younger.priority
    ensures EffectivePriority(older, now, aging) >= EffectivePriority(younger, now, aging)
  {
    QuotientGrows(if now < younger.createdAt then 0 else now - younger.createdAt,
                  if now < older.createdAt then 0 else now - older.createdAt, aging.interval);
  }

  /**
   Aging never lets a younger run overtake: at any time and under any aging policy, a claimable run is ranked
   ahead of every claimable run of its tenant that was created later with no higher base priority.
   */
  lemma AgingKeepsOrder(db: Db, now: Time, aging: Aging, p: RunId, q: RunId)
    requires aging.interval > 0 && p in Base(db, now) && q in Base(db, now)
    requires db.runs[p].tenant == db.runs[q].tenant
    requires db.runs[p].createdAt < db.runs[q].createdAt && db.runs[p].priority >= db.runs[q].priority
    ensures TenantRank(db, now, aging, p) < TenantRank(db, now, aging, q)
  {
    AgingIsMonotone(db.runs[p], db.runs[q], now, aging);
    RankGrows(db, now, aging, p, q);
  }

  // ---- The order, written out ----

  /**
   A tenant's own queue, exactly: of two claimable runs, the one with the higher priority plus aging has the better
   rank; the one created earlier if those are equal; the one with the lower identifier if those are equal too.
   */
  lemma RankFollowsPriority(db: Db, now: Time, aging: Aging, p: RunId, q: RunId)
    requires aging.interval > 0 && p in Base(db, now) && q in Base(db, now) && p != q
    requires db.runs[p].tenant == db.runs[q].tenant
    ensures var (a, b) := (db.runs[p], db.runs[q]);
            var waitedA := if now < a.createdAt then 0 else (now - a.createdAt) / aging.interval;
            var waitedB := if now < b.createdAt then 0 else (now - b.createdAt) / aging.interval;
            var x := a.priority + if waitedA < aging.boost then waitedA else aging.boost;
            var y := b.priority + if waitedB < aging.boost then waitedB else aging.boost;
            TenantRank(db, now, aging, p) < TenantRank(db, now, aging, q) <==>
              x > y || (x == y && (a.createdAt < b.createdAt || (a.createdAt == b.createdAt && p < q)))
  {
    ZeroWaited(db.runs[p], now, aging);
    ZeroWaited(db.runs[q], now, aging);
    if Precedes(db, now, aging, p, q) {
      RankGrows(db, now, aging, p, q);
    } else {
      RankGrows(db, now, aging, q, p);
    }
  }

  /** A run that has not begun to wait has aged by nothing. */
  lemma ZeroWaited(run: Run, now: Time, aging: Aging)
    requires aging.interval > 0
    ensures var waited := if now < run.createdAt then 0 else (now - run.createdAt) / aging.interval;
            EffectivePriority(run, now, aging) == run.priority + if waited < aging.boost then waited else aging.boost
  {
    assert 0 / aging.interval == 0;
  }

  /** A rank is one more than the number of the tenant's claimable runs that have a better one. */
  lemma RankCountsBetter(db: Db, now: Time, aging: Aging, r: RunId)
    requires aging.interval > 0 && r in Base(db, now)
    ensures TenantRank(db, now, aging, r) == 1 +
            |set q | q in Base(db, now) && db.runs[q].tenant == db.runs[r].tenant &&
                     TenantRank(db, now, aging, q) < TenantRank(db, now, aging, r)|
  {
    var better := set q | q in Base(db, now) && db.runs[q].tenant == db.runs[r].tenant &&
                          TenantRank(db, now, aging, q) < TenantRank(db, now, aging, r);
    forall q | q in Base(db, now) && db.runs[q].tenant == db.runs[r].tenant
      ensures q in better <==> q in Ahead(db, now, aging, r)
    {
      if Precedes(db, now, aging, q, r) {
        RankGrows(db, now, aging, q, r);
      } else if q != r {
        RankGrows(db, now, aging, r, q);
      }
    }
    assert better == Ahead(db, now, aging, r);
  }

  /**
   Across tenants, exactly: of two claimable runs that nobody holds locked, the one that goes first by rank, then by
   higher priority plus aging, then by earlier creation, then by tenant, then by identifier, is never left behind
   while the other is taken, and is taken before it.
   */
  lemma NeverOvertaken(
    db: Db, now: Time, aging: Aging, limit: nat, locked: set<RunId>, batch: seq<RunId>, p: RunId, q: RunId)
    requires aging.interval > 0 && IsBatch(db, now, aging, limit, locked, batch)
    requires p in Base(db, now) - locked && q in batch
    requires var (a, b) := (db.runs[p], db.runs[q]);
             var (m, n) := (TenantRank(db, now, aging, p), TenantRank(db, now, aging, q));
             var waitedA := if now < a.createdAt then 0 else (now - a.createdAt) / aging.interval;
             var waitedB := if now < b.createdAt then 0 else (now - b.createdAt) / aging.interval;
             var x := a.priority + if waitedA < aging.boost then waitedA else aging.boost;
             var y := b.priority + if waitedB < aging.boost then waitedB else aging.boost;
             || m < n
             || (m == n && x > y)
             || (m == n && x == y && a.createdAt < b.createdAt)
             || (m == n && x == y && a.createdAt == b.createdAt && a.tenant < b.tenant)
             || (m == n && x == y && a.createdAt == b.createdAt && a.tenant == b.tenant && p < q)
    ensures TakenBefore(batch, p, q)
  {
    ZeroWaited(db.runs[p], now, aging);
    ZeroWaited(db.runs[q], now, aging);
    assert Less(ClaimKey(db, now, aging, p), ClaimKey(db, now, aging, q));
    LesserIsTaken(ClaimKeys(db, now, aging, locked), limit, batch, p, q);
  }

  // ---- Fairness ----

  function ClaimsOf(db: Db, runs: set<RunId>, tenant: nat): set<RunId> {
    set r | r in runs && r < |db.runs| && db.runs[r].tenant == tenant
  }

  function Elements(batch: seq<RunId>): set<RunId> {
    set r | r in batch
  }

  lemma {:induction false} LastOf(db: Db, now: Time, aging: Aging, rows: set<RunId>) returns (last: RunId)
    requires aging.interval > 0 && rows != {} && forall r :: r in rows ==> r < |db.runs|
    ensures last in rows && forall r :: r in rows && r != last ==> Precedes(db, now, aging, r, last)
    decreases |rows|
  {
    var r :| r in rows;
    last := r;
    if rows != {r} {
      assert rows - {r} != {};
      var rest := LastOf(db, now, aging, rows - {r});
      last := if Precedes(db, now, aging, r, rest) then rest else r;
      forall q | q in rows && q != last
        ensures Precedes(db, now, aging, q, last)
      {
        assert q != r ==> q in rows - {r};
      }
    }
  }

  lemma {:induction false} FirstOf(db: Db, now: Time, aging: Aging, rows: set<RunId>) returns (first: RunId)
    requires aging.interval > 0 && rows != {} && forall r :: r in rows ==> r < |db.runs|
    ensures first in rows && forall r :: r in rows && r != first ==> Precedes(db, now, aging, first, r)
    decreases |rows|
  {
    var r :| r in rows;
    first := r;
    if rows != {r} {
      assert rows - {r} != {};
      var rest := FirstOf(db, now, aging, rows - {r});
      first := if Precedes(db, now, aging, rest, r) then rest else r;
      forall q | q in rows && q != first
        ensures Precedes(db, now, aging, first, q)
      {
        assert q != r ==> q in rows - {r};
      }
    }
  }

  /** A tenant's last claimed run has at least all its other claimed runs ahead of it. */
  lemma LastRank(db: Db, now: Time, aging: Aging, claimed: set<RunId>, tenant: nat) returns (last: RunId)
    requires aging.interval > 0 && claimed <= Base(db, now) && ClaimsOf(db, claimed, tenant) != {}
    ensures last in ClaimsOf(db, claimed, tenant)
    ensures TenantRank(db, now, aging, last) >= |ClaimsOf(db, claimed, tenant)|
  {
    var mine := ClaimsOf(db, claimed, tenant);
    last := LastOf(db, now, aging, mine);
    SubsetCard(mine - {last}, Ahead(db, now, aging, last));
  }

  /** A tenant's first run left behind has only claimed runs ahead of it. */
  lemma FirstLeftRank(db: Db, now: Time, aging: Aging, claimed: set<RunId>, tenant: nat) returns (first: RunId)
    requires aging.interval > 0 && claimed <= Base(db, now)
    requires ClaimsOf(db, Base(db, now) - claimed, tenant) != {}
    ensures first in Base(db, now) - claimed && db.runs[first].tenant == tenant
    ensures TenantRank(db, now, aging, first) <= |ClaimsOf(db, claimed, tenant)| + 1
  {
    var left := ClaimsOf(db, Base(db, now) - claimed, tenant);
    first := FirstOf(db, now, aging, left);
    forall q | q in Ahead(db, now, aging, first)
      ensures q in claimed
    {
      assert q in left ==> Precedes(db, now, aging, first, q);
    }
    SubsetCard(Ahead(db, now, aging, first), ClaimsOf(db, claimed, tenant));
  }

  /** A run left behind ranks no better among its tenant's than any run taken among its own. */
  lemma TakenRankFirst(db: Db, now: Time, aging: Aging, limit: nat, batch: seq<RunId>, taken: RunId, left: RunId)
    requires aging.interval > 0 && IsBatch(db, now, aging, limit, {}, batch)
    requires taken in batch && left in Base(db, now) && left !in batch
    ensures TenantRank(db, now, aging, taken) <= TenantRank(db, now, aging, left)
  {
  }

  /**
   Max-min fairness. With no rows locked elsewhere, a batch that takes two or more runs fewer from tenant t
   than from tenant s has taken every claimable run of t.
   */
  lemma BatchIsFair(db: Db, now: Time, aging: Aging, limit: nat, batch: seq<RunId>, s: nat, t: nat)
    requires aging.interval > 0 && IsBatch(db, now, aging, limit, {}, batch)
    requires |ClaimsOf(db, Elements(batch), s)| > |ClaimsOf(db, Elements(batch), t)| + 1
    ensures ClaimsOf(db, Base(db, now), t) == ClaimsOf(db, Elements(batch), t)
  {
    var claimed := Elements(batch);
    if ClaimsOf(db, Base(db, now) - claimed, t) != {} {
      var left := FirstLeftRank(db, now, aging, claimed, t);
      var taken := LastRank(db, now, aging, claimed, s);
      TakenRankFirst(db, now, aging, limit, batch, taken, left);
      assert false;
    }
    forall r | r in ClaimsOf(db, Base(db, now), t)
      ensures r in claimed
    {
      assert r !in ClaimsOf(db, Base(db, now) - claimed, t);
    }
  }
}
