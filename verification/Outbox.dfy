/** The transactional outbox and its leased relays. */
module Outbox {
  import opened Common
  import opened Ordering

  datatype Disposition = Pending | Published | Terminal

  datatype Claim = Claim(owner: string, expiresAt: Time)

  datatype Row = Row(
    disposition: Disposition, nextAttempt: Time, createdAt: Time, claim: Option<Claim>, attempts: nat,
    publishedAt: Option<Time>)

  // ---- Repository ----

  predicate Claimable(row: Row, now: Time) {
    && row.disposition == Pending && row.publishedAt.None? && row.nextAttempt <= now
    && (row.claim.None? || row.claim.value.expiresAt <= now)
  }

  /** order by next_attempt_at, created_at, event_id; locked rows are skipped. */
  function ClaimKeys(rows: map<nat, Row>, now: Time, locked: set<nat>): map<nat, Key> {
    map e | e in rows && Claimable(rows[e], now) && e !in locked :: Key(rows[e].nextAttempt, rows[e].createdAt, 0, 0, e)
  }

  function ClaimRows(rows: map<nat, Row>, batch: seq<nat>, owner: string, now: Time, lease: nat): map<nat, Row> {
    map e | e in rows :: if e in batch then rows[e].(claim := Some(Claim(owner, now + lease))) else rows[e]
  }

  predicate HeldBy(rows: map<nat, Row>, e: nat, owner: string) {
    e in rows && rows[e].disposition == Pending && rows[e].claim.Some? && rows[e].claim.value.owner == owner
  }

  function MarkPublished(rows: map<nat, Row>, e: nat, owner: string, now: Time): map<nat, Row> {
    if HeldBy(rows, e, owner) then
      rows[e := rows[e].(disposition := Published, attempts := rows[e].attempts + 1, publishedAt := Some(now),
          claim := None)]
    else rows
  }

  function BackoffOf(attempts: nat): nat {
    match attempts
    case 0 => SECOND
    case 1 => 5 * SECOND
    case 2 => 30 * SECOND
    case 3 => 2 * MINUTE
    case _ => 10 * MINUTE
  }

  /** hash is the value the database derives from the event and its attempts; it spreads the delay over 80-120%. */
  function MarkFailed(rows: map<nat, Row>, e: nat, owner: string, now: Time, permanent: bool,
      hash: nat): map<nat, Row> {
    if HeldBy(rows, e, owner) then
      var delay := BackoffOf(rows[e].attempts) * (80 + hash % 41) / 100;
      rows[e := rows[e].(disposition := if permanent then Terminal else Pending, attempts := rows[e].attempts + 1,
                         nextAttempt := if permanent then now else now + delay, claim := None)]
    else rows
  }

  /** A failed publication waits between 80% and 120% of one, five and thirty seconds, two minutes, then ten. */
  lemma RetryIsSpread(rows: map<nat, Row>, e: nat, owner: string, now: Time, hash: nat)
    requires HeldBy(rows, e, owner)
    ensures var next := MarkFailed(rows, e, owner, now, false, hash)[e].nextAttempt - now;
            var seconds := if rows[e].attempts < 4 then [1, 5, 30, 120][rows[e].attempts] else 600;
            80 * seconds * SECOND <= 100 * next && 100 * next <= 120 * seconds * SECOND
  {
    var spread := 80 + hash % 41;
    match rows[e].attempts
    case 0 => assert SECOND * spread / 100 == 10_000_000 * spread;
    case 1 => assert 5 * SECOND * spread / 100 == 50_000_000 * spread;
    case 2 => assert 30 * SECOND * spread / 100 == 300_000_000 * spread;
    case 3 => assert 2 * MINUTE * spread / 100 == 1_200_000_000 * spread;
    case _ => assert 10 * MINUTE * spread / 100 == 6_000_000_000 * spread;
  }

  function CleanupKeys(rows: map<nat, Row>, before: Time): map<nat, Key> {
    map e | e in rows && rows[e].disposition == Published && rows[e].publishedAt.Some? &&
        rows[e].publishedAt.value < before
      :: Key(rows[e].publishedAt.value, 0, 0, 0, e)
  }

  function Without(rows: map<nat, Row>, gone: seq<nat>): map<nat, Row> {
    map e | e in rows && e !in gone :: rows[e]
  }

  // ---- Many relays ----

  /** Where a relay is in its batch. */
  datatype Progress = Idle | JustAccepted | JustFailed(permanent: bool)

  datatype Relay = Relay(owner: string, todo: seq<nat>, progress: Progress)

  /** inserted: every event ever committed to the outbox; accepted: what the broker holds. */
  datatype State = State(rows: map<nat, Row>, inserted: set<nat>, accepted: set<nat>, relays: map<nat, Relay>)

  datatype Publication = Accepted | Refused(permanent: bool) | ReplyLost

  datatype Step =
    | InsertStep(event: nat, now: Time)
    | ClaimStep(relay: nat, owner: string, now: Time, lease: nat, batch: seq<nat>)
    | PublishStep(relay: nat, publication: Publication)
    | MarkStep(relay: nat, now: Time, hash: nat, lands: bool)
    | CrashStep(relay: nat)
    | CleanupStep(before: Time, limit: nat, gone: seq<nat>)

  predicate Publishing(s: State, relay: nat) {
    relay in s.relays && |s.relays[relay].todo| > 0
  }

  function Publish(s: State, relay: nat, publication: Publication): State
    requires Publishing(s, relay)
  {
    var r := s.relays[relay];
    match publication
    case Accepted =>
      s.(accepted := s.accepted + {r.todo[0]}, relays := s.relays[relay := r.(progress := JustAccepted)])
    case Refused(permanent) => s.(relays := s.relays[relay := r.(progress := JustFailed(permanent))])
    case ReplyLost =>
      s.(accepted := s.accepted + {r.todo[0]}, relays := s.relays[relay := r.(progress := JustFailed(false))])
  }

  function Mark(s: State, relay: nat, now: Time, hash: nat, lands: bool): State
    requires Publishing(s, relay)
  {
    var r := s.relays[relay];
    var rows :=
      if !lands then s.rows
      else match r.progress
        case Idle => s.rows
        case JustAccepted => MarkPublished(s.rows, r.todo[0], r.owner, now)
        case JustFailed(permanent) => MarkFailed(s.rows, r.todo[0], r.owner, now, permanent, hash);
    s.(rows := rows, relays := s.relays[relay := r.(todo := r.todo[1..], progress := Idle)])
  }

  function Apply(s: State, step: Step): State {
    match step
    case InsertStep(e, now) =>
      if e in s.inserted then s
      else s.(rows := s.rows[e := Row(Pending, now, now, None, 0, None)], inserted := s.inserted + {e})
    case ClaimStep(relay, owner, now, lease, batch) =>
      if forall i :: 0 <= i < |batch| ==> batch[i] in ClaimKeys(s.rows, now, {}) then
        s.(rows := ClaimRows(s.rows, batch, owner, now, lease), relays := s.relays[relay := Relay(owner, batch, Idle)])
      else s
    case PublishStep(relay, publication) =>
      if Publishing(s, relay) && s.relays[relay].progress == Idle then Publish(s, relay, publication) else s
    case MarkStep(relay, now, hash, lands) =>
      if Publishing(s, relay) && s.relays[relay].progress != Idle then Mark(s, relay, now, hash, lands) else s
    case CrashStep(relay) => s.(relays := s.relays - {relay})
    case CleanupStep(before, limit, gone) =>
      if IsFirst(CleanupKeys(s.rows, before), limit, gone) then s.(rows := Without(s.rows, gone)) else s
  }

  function Execute(s: State, steps: seq<Step>): State {
    if |steps| == 0 then s else Apply(Execute(s, steps[..|steps| - 1]), steps[|steps| - 1])
  }

  // ---- At least once out ----

  predicate RowsOk(rows: map<nat, Row>, accepted: set<nat>) {
    forall e :: e in rows ==>
      (rows[e].disposition == Published <==> rows[e].publishedAt.Some?) &&
          (rows[e].disposition == Published ==> e in accepted)
  }

  predicate NoneVanished(rows: map<nat, Row>, inserted: set<nat>, accepted: set<nat>) {
    && (forall e :: e in inserted ==> e in rows || e in accepted)
    && (forall e :: e in rows ==> e in inserted)
  }

  ghost predicate Inv(s: State) {
    && RowsOk(s.rows, s.accepted) && NoneVanished(s.rows, s.inserted, s.accepted)
    && (forall r :: r in s.relays && |s.relays[r].todo| > 0 && s.relays[r].progress == JustAccepted ==>
        s.relays[r].todo[0] in s.accepted)
  }

  lemma PublishKeepsInv(s: State, relay: nat, publication: Publication)
    requires Inv(s) && Publishing(s, relay)
    ensures Inv(Publish(s, relay, publication))
  {
  }

  lemma MarkKeepsInv(s: State, relay: nat, now: Time, hash: nat, lands: bool)
    requires Inv(s) && Publishing(s, relay)
    ensures Inv(Mark(s, relay, now, hash, lands))
  {
  }

  lemma CleanupKeepsInv(s: State, before: Time, limit: nat, gone: seq<nat>)
    requires Inv(s) && IsFirst(CleanupKeys(s.rows, before), limit, gone)
    ensures Inv(s.(rows := Without(s.rows, gone)))
  {
    var after := s.(rows := Without(s.rows, gone));
    forall e | e in s.inserted
      ensures e in after.rows || e in after.accepted
    {
      if e in gone {
        var i :| 0 <= i < |gone| && gone[i] == e;
        assert gone[i] in CleanupKeys(s.rows, before);
      }
    }
  }

  lemma StepKeepsInv(s: State, step: Step)
    requires Inv(s)
    ensures Inv(Apply(s, step))
  {
    match step
    case PublishStep(relay, publication) =>
      if Publishing(s, relay) && s.relays[relay].progress == Idle {
        PublishKeepsInv(s, relay, publication);
      }
    case MarkStep(relay, now, hash, lands) =>
      if Publishing(s, relay) && s.relays[relay].progress != Idle {
        MarkKeepsInv(s, relay, now, hash, lands);
      }
    case CleanupStep(before, limit, gone) =>
      if IsFirst(CleanupKeys(s.rows, before), limit, gone) {
        CleanupKeepsInv(s, before, limit, gone);
      }
    case _ =>
  }

  predicate Fresh(s: State) {
    s.rows == map[] && s.inserted == {} && s.relays == map[]
  }

  /**
   At least once out. Under any number of relays, crashes, expired leases and lost replies: a row is PUBLISHED only
   if the broker accepted its event, and a row leaves the table only if the broker accepted its event, so an
   unpublished event never disappears.
   */
  lemma {:induction false} PublishedMeansAccepted(s: State, steps: seq<Step>)
    requires Fresh(s)
    ensures Inv(Execute(s, steps))
  {
    if |steps| > 0 {
      PublishedMeansAccepted(s, steps[..|steps| - 1]);
      StepKeepsInv(Execute(s, steps[..|steps| - 1]), steps[|steps| - 1]);
    }
  }

  /** The instant from which a pending row can be claimed, whatever became of the relay that held it. */
  function ClaimableFrom(row: Row): Time {
    if row.claim.Some? && row.claim.value.expiresAt > row.nextAttempt then row.claim.value.expiresAt
    else row.nextAttempt
  }

  /**
   No event is stranded: in every reachable state a row is claimable exactly while pending and once its instant has
   come.
   */
  lemma PendingIsClaimable(s: State, steps: seq<Step>, e: nat, now: Time)
    requires Fresh(s) && e in Execute(s, steps).rows
    ensures var row := Execute(s, steps).rows[e];
            Claimable(row, now) <==> row.disposition == Pending && now >= ClaimableFrom(row)
  {
    PublishedMeansAccepted(s, steps);
  }

  /** The row that has been due longest goes first, then the older one: no relay takes a later one and leaves it. */
  lemma LongestDueFirst(rows: map<nat, Row>, now: Time, locked: set<nat>, limit: nat, batch: seq<nat>, p: nat, q: nat)
    requires IsFirst(ClaimKeys(rows, now, locked), limit, batch) && q in batch && p in rows && p !in locked
    requires rows[p].disposition == Pending && rows[p].publishedAt.None? && rows[p].nextAttempt <= now
    requires rows[p].claim.None? || rows[p].claim.value.expiresAt <= now
    requires q in rows && (
               || rows[p].nextAttempt < rows[q].nextAttempt
               || (rows[p].nextAttempt == rows[q].nextAttempt && rows[p].createdAt < rows[q].createdAt)
               || (rows[p].nextAttempt == rows[q].nextAttempt && rows[p].createdAt == rows[q].createdAt && p < q))
    ensures TakenBefore(batch, p, q)
  {
    LesserIsTaken(ClaimKeys(rows, now, locked), limit, batch, p, q);
  }

  /** A claim of due rows holds exactly until now + lease: no relay can claim them before, and no other row changes. */
  lemma ClaimHoldsUntil(rows: map<nat, Row>, batch: seq<nat>, owner: string, now: Time, lease: nat, e: nat, t: Time)
    requires e in rows
    ensures var after := ClaimRows(rows, batch, owner, now, lease);
            && after.Keys == rows.Keys && (e !in batch ==> after[e] == rows[e])
            && (e in batch && Claimable(rows[e], now) ==>
                  && (Claimable(after[e], t) <==> now + lease <= t)
                  && after[e] == rows[e].(claim := Some(Claim(owner, now + lease))))
  {
  }

  /**
   A relay that lost its claim to another, or whose row was marked, marks nothing. The holder's mark ends the claim and
   counts the attempt: published at that moment, out for good, or pending again.
   */
  lemma OnlyTheHolderMarks(
    rows: map<nat, Row>, e: nat, owner: string, now: Time, permanent: bool, hash: nat, published: bool)
    ensures var after := if published then MarkPublished(rows, e, owner, now)
                         else MarkFailed(rows, e, owner, now, permanent, hash);
            if e in rows && rows[e].disposition == Pending && rows[e].claim.Some? && rows[e].claim.value.owner == owner
            then
              && e in after && after == rows[e := after[e]]
              && after[e].claim.None? && after[e].attempts == rows[e].attempts + 1
              && after[e].createdAt == rows[e].createdAt
              && if published then after[e].disposition == Published && after[e].publishedAt == Some(now)
                 else if permanent then after[e].disposition == Terminal && after[e].publishedAt == rows[e].publishedAt
                 else after[e].disposition == Pending && after[e].publishedAt == rows[e].publishedAt
            else after == rows
  {
  }

  /** Cleaning up removes exactly published rows older than asked for, the longest published first. */
  lemma CleanupTakesOldest(rows: map<nat, Row>, before: Time, limit: nat, gone: seq<nat>, p: nat, q: nat)
    requires IsFirst(CleanupKeys(rows, before), limit, gone) && q in gone
    ensures q in rows && rows[q].disposition == Published && rows[q].publishedAt.Some?
    ensures rows[q].publishedAt.value < before
    ensures PublishedBefore(rows, p, rows[q].publishedAt.value) ==> TakenBefore(gone, p, q)
  {
    assert q in CleanupKeys(rows, before);
    if PublishedBefore(rows, p, rows[q].publishedAt.value) {
      LesserIsTaken(CleanupKeys(rows, before), limit, gone, p, q);
    }
  }

  predicate PublishedBefore(rows: map<nat, Row>, e: nat, t: Time) {
    e in rows && rows[e].disposition == Published && rows[e].publishedAt.Some? && rows[e].publishedAt.value < t
  }

  // ---- One relay at work ----

  /** What a row becomes once its relay has handled it and the mark landed. */
  predicate Handled(before: Row, after: Row, publication: Publication) {
    match publication
    case Accepted => after.disposition == Published && after.claim.None?
    case Refused(true) => after.disposition == Terminal && after.claim.None?
    case _ => after.disposition == Pending && after.claim.None? && after.attempts == before.attempts + 1
  }

  function PublicationOf(broker: map<nat, Publication>, e: nat): Publication {
    if e in broker then broker[e] else Refused(false)
  }

  /** The claimed batch up to done: each row is as its publication went, or still claimed if its mark was lost. */
  predicate DoneUpTo(claimed: map<nat, Row>, rows: map<nat, Row>, done: seq<nat>, broker: map<nat, Publication>,
      lost: set<nat>) {
    && rows.Keys == claimed.Keys
    && forall e :: e in claimed ==>
         if e in done && e !in lost then Handled(claimed[e], rows[e], PublicationOf(broker, e))
         else rows[e] == claimed[e]
  }

  lemma DoneNext(claimed: map<nat, Row>, before: map<nat, Row>, after: map<nat, Row>, done: seq<nat>, e: nat,
                 broker: map<nat, Publication>, lost: set<nat>)
    requires DoneUpTo(claimed, before, done, broker, lost) && e !in done && e in claimed && after.Keys == before.Keys
    requires forall d :: d in before && d != e ==> after[d] == before[d]
    requires if e in lost then after[e] == before[e] else Handled(before[e], after[e], PublicationOf(broker, e))
    ensures DoneUpTo(claimed, after, done + [e], broker, lost)
  {
  }

  lemma ClaimedAreHeld(rows: map<nat, Row>, now: Time, locked: set<nat>, limit: nat, batch: seq<nat>, owner: string,
      lease: nat, i: nat)
    requires IsFirst(ClaimKeys(rows, now, locked), limit, batch) && i < |batch|
    ensures batch[i] !in batch[..i] && HeldBy(ClaimRows(rows, batch, owner, now, lease), batch[i], owner)
  {
    FirstNotBefore(ClaimKeys(rows, now, locked), limit, batch, i);
  }

  class OutboxRelay {
    const owner: string
    var rows: map<nat, Row>
    var accepted: set<nat>

    constructor (owner: string, rows: map<nat, Row>, accepted: set<nat>)
      ensures this.owner == owner && this.rows == rows && this.accepted == accepted
    {
      this.owner, this.rows, this.accepted := owner, rows, accepted;
    }

    /**
     RunOnce: claims a batch, then publishes and marks each event. An event whose mark fails keeps its claim and is
     claimed again after the lease; every other claimed row is marked exactly as its publication went, and no other
     row changes.
     */
    method RunOnce(now: Time, lease: nat, limit: nat, locked: set<nat>, broker: map<nat, Publication>, lost: set<nat>,
        hash: nat)
      returns (batch: seq<nat>)
      requires RowsOk(rows, accepted)
      modifies this`rows, this`accepted
      ensures IsFirst(ClaimKeys(old(rows), now, locked), limit, batch)
      ensures DoneUpTo(ClaimRows(old(rows), batch, owner, now, lease), rows, batch, broker, lost)
      ensures old(accepted) <= accepted && RowsOk(rows, accepted)
    {
      batch := TakeFirst(ClaimKeys(rows, now, locked), limit);
      ghost var start := rows;
      rows := ClaimRows(rows, batch, owner, now, lease);
      ghost var claimed := rows;
      for i := 0 to |batch|
        invariant DoneUpTo(claimed, rows, batch[..i], broker, lost)
        invariant old(accepted) <= accepted && RowsOk(rows, accepted)
      {
        ClaimedAreHeld(start, now, locked, limit, batch, owner, lease, i);
        assert batch[..i + 1] == batch[..i] + [batch[i]];
        ghost var before := rows;
        PublishAndMark(batch[i], PublicationOf(broker, batch[i]), now, batch[i] !in lost, hash);
        DoneNext(claimed, before, rows, batch[..i], batch[i], broker, lost);
      }
      assert batch[..|batch|] == batch;
    }

    /** One event: publish, then record how it went. */
    method PublishAndMark(e: nat, publication: Publication, now: Time, lands: bool, hash: nat)
      requires HeldBy(rows, e, owner) && RowsOk(rows, accepted)
      modifies this`rows, this`accepted
      ensures rows.Keys == old(rows).Keys && old(accepted) <= accepted && RowsOk(rows, accepted)
      ensures forall d :: d in rows && d != e ==> rows[d] == old(rows)[d]
      ensures lands ==> Handled(old(rows)[e], rows[e], publication)
      ensures !lands ==> rows[e] == old(rows)[e]
    {
      if publication != Refused(true) && publication != Refused(false) {
        accepted := accepted + {e};
      }
      if !lands {
        return;
      }
      if publication == Accepted {
        rows := MarkPublished(rows, e, owner, now);
      } else {
        rows := MarkFailed(rows, e, owner, now, publication == Refused(true), hash);
      }
    }
  }
}

/** Processed-event markers: the marker and the business effect commit in one transaction. */
module ProcessedEvents {
  datatype Key = Key(consumer: string, event: nat)

  /** effects lists every business effect ever committed. */
  datatype Store = Store(markers: set<Key>, effects: seq<Key>)

  /** How one call ends: the effect may fail, the commit may fail, or it may land and its reply be lost. */
  datatype Fate = Commits | EffectFails | CommitFails | CommitReplyLost

  datatype Outcome = Outcome(store: Store, duplicate: bool, ok: bool)

  /** The marker and the effect, together. */
  function Marked(s: Store, key: Key): Store {
    Store(s.markers + {key}, s.effects + [key])
  }

  /** A failed effect or commit rolls the marker back with it. */
  function Process(s: Store, key: Key, fate: Fate): Outcome {
    if key in s.markers then
      var ok := fate != CommitFails && fate != CommitReplyLost;
      Outcome(s, ok, ok)
    else match fate
      case Commits => Outcome(Marked(s, key), false, true)
      case CommitReplyLost => Outcome(Marked(s, key), false, false)
      case _ => Outcome(s, false, false)
  }

  function Run(s: Store, calls: seq<(Key, Fate)>): Store {
    if |calls| == 0 then s
    else Process(Run(s, calls[..|calls| - 1]), calls[|calls| - 1].0, calls[|calls| - 1].1).store
  }

  ghost predicate OncePerMarker(s: Store) {
    && (forall k :: k in s.markers <==> k in s.effects)
    && (forall i, j :: 0 <= i < j < |s.effects| ==> s.effects[i] != s.effects[j])
  }

  /**
   At most once in: over any redeliveries the effect of a (consumer, event) is applied at most once, exactly if
   marked.
   */
  lemma {:induction false} EffectAtMostOnce(s: Store, calls: seq<(Key, Fate)>)
    requires OncePerMarker(s)
    ensures OncePerMarker(Run(s, calls))
  {
    if |calls| > 0 {
      EffectAtMostOnce(s, calls[..|calls| - 1]);
    }
  }

  /**
   A call that returns success leaves the event processed, by it or by an earlier call; a call that fails left the store
   unchanged, or with exactly this marker and this effect added.
   */
  lemma SuccessMeansProcessed(s: Store, key: Key, fate: Fate)
    requires OncePerMarker(s)
    ensures var o := Process(s, key, fate);
            && (o.ok ==> key in o.store.effects)
            && (o.duplicate ==> key in s.effects && o.store == s)
            && (o.store == s || (key !in s.effects && o.store == Marked(s, key)))
  {
  }

  /** After a failure that did commit, the repeat is a duplicate and applies nothing. */
  lemma LostReplyIsRepeatedSafely(s: Store, key: Key)
    requires key !in s.markers
    ensures var first := Process(s, key, CommitReplyLost);
            !first.ok && Process(first.store, key, Commits) == Outcome(Marked(s, key), true, true)
  {
  }
}
