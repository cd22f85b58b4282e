/** The retry ladder: what a consumer does with a record it cannot process, and why no event is lost on the way. */
module Delivery {
  import opened Common
  import opened Decimal
  import opened Sums
  import H = Handoff

  /** Level 0 is the lifecycle topic; levels 1 to 3 are the retry topics after one, five and thirty minutes. */
  const RETRY_LEVELS: nat := 3

  function RetryDelay(attempt: nat): nat
    requires 1 <= attempt <= RETRY_LEVELS
  {
    if attempt == 1 then MINUTE else if attempt == 2 then 5 * MINUTE else 30 * MINUTE
  }

  datatype HeaderKey = DeliveryAttemptKey | NotBeforeKey | OriginalTopicKey | OtherKey

  datatype Header = Header(key: HeaderKey, value: string)

  /** valid: the envelope decodes. A copy on a retry topic carries the same event. */
  datatype Record = Record(event: H.Event, valid: bool, headers: seq<Header>)

  // ---- Headers ----

  /** deliveryAttempt: the first delivery-attempt header decides. */
  function DeliveryAttempt(level: nat, headers: seq<Header>): (attempt: Option<nat>)
    ensures attempt.Some? ==> attempt.value == level + 1
  {
    if level == 0 then Some(1)
    else if level > RETRY_LEVELS || |headers| == 0 then None
    else if headers[0].key != DeliveryAttemptKey then DeliveryAttempt(level, headers[1..])
    else if Atoi(headers[0].value) == Some(level) then Some(level + 1) else None
  }

  function CountKey(headers: seq<Header>, key: HeaderKey): nat {
    if |headers| == 0 then 0 else (if headers[0].key == key then 1 else 0) + CountKey(headers[1..], key)
  }

  predicate AllAttemptsAre(headers: seq<Header>, level: nat) {
    forall h :: h in headers && h.key == DeliveryAttemptKey ==> Atoi(h.value) == Some(level)
  }

  /** expectedFailureAttempt: the header is required exactly once. */
  function ExpectedAttempt(level: nat, headers: seq<Header>): (attempt: Option<nat>)
    ensures attempt.Some? ==> attempt.value == level + 1
  {
    if level == 0 then Some(1)
    else if level <= RETRY_LEVELS && AllAttemptsAre(headers, level) && CountKey(headers, DeliveryAttemptKey) == 1
    then Some(level + 1) else None
  }

  /** The scan of the consume loop. */
  method ScanDeliveryAttempt(level: nat, headers: seq<Header>) returns (attempt: Option<nat>)
    ensures attempt == DeliveryAttempt(level, headers)
  {
    if level == 0 {
      return Some(1);
    }
    if level > RETRY_LEVELS {
      return None;
    }
    var i := 0;
    while i < |headers|
      invariant i <= |headers| && DeliveryAttempt(level, headers) == DeliveryAttempt(level, headers[i..])
    {
      if headers[i].key == DeliveryAttemptKey {
        return if Atoi(headers[i].value) == Some(level) then Some(level + 1) else None;
      }
      assert headers[i..][1..] == headers[i + 1..];
      i := i + 1;
    }
    return None;
  }

  /** The scan of the router, which insists on exactly one header. */
  method ScanExpectedAttempt(level: nat, headers: seq<Header>) returns (attempt: Option<nat>)
    ensures attempt == ExpectedAttempt(level, headers)
  {
    if level == 0 {
      return Some(1);
    }
    if level > RETRY_LEVELS {
      return None;
    }
    var matches := 0;
    for i := 0 to |headers|
      invariant matches + CountKey(headers[i..], DeliveryAttemptKey) == CountKey(headers, DeliveryAttemptKey)
      invariant forall k :: 0 <= k < i && headers[k].key == DeliveryAttemptKey ==> Atoi(headers[k].value) == Some(level)
    {
      assert headers[i..][1..] == headers[i + 1..];
      if headers[i].key == DeliveryAttemptKey {
        if Atoi(headers[i].value) != Some(level) {
          return None;
        }
        matches := matches + 1;
      }
    }
    return if matches == 1 then Some(level + 1) else None;
  }

  /** RetryNotBefore: exactly one header with a readable time. */
  function NotBefore(headers: seq<Header>): Option<Time> {
    if CountKey(headers, NotBeforeKey) != 1 then None else FirstTime(headers)
  }

  function FirstTime(headers: seq<Header>): Option<Time> {
    if |headers| == 0 then None
    else if headers[0].key == NotBeforeKey then Atoi(headers[0].value) else FirstTime(headers[1..])
  }

  function RetryHeaders(level: nat, attempt: nat, now: Time): seq<Header>
    requires 1 <= attempt <= RETRY_LEVELS
  {
    [Header(DeliveryAttemptKey, Itoa(attempt)), Header(NotBeforeKey, Itoa(now + RetryDelay(attempt))),
     Header(OriginalTopicKey, Itoa(level))]
  }

  lemma CountThree(a: Header, b: Header, c: Header, key: HeaderKey)
    ensures CountKey([a, b, c], key) ==
            (if a.key == key then 1 else 0) + (if b.key == key then 1 else 0) + (if c.key == key then 1 else 0)
  {
    assert [a, b, c][1..] == [b, c] && [b, c][1..] == [c] && [c][1..] == [];
    assert CountKey([b, c], key) == (if b.key == key then 1 else 0) + CountKey([c], key);
  }

  /** The consume loop reads the attempt in front. */
  lemma ReadsAttempt(a: Header, b: Header, c: Header, level: nat)
    requires 1 <= level <= RETRY_LEVELS && a.key == DeliveryAttemptKey && Atoi(a.value) == Some(level)
    ensures DeliveryAttempt(level, [a, b, c]) == Some(level + 1)
  {
  }

  /** The router finds it exactly once. */
  lemma FindsAttemptOnce(a: Header, b: Header, c: Header, level: nat)
    requires 1 <= level <= RETRY_LEVELS && a.key == DeliveryAttemptKey && Atoi(a.value) == Some(level)
    requires b.key != DeliveryAttemptKey && c.key != DeliveryAttemptKey
    ensures ExpectedAttempt(level, [a, b, c]) == Some(level + 1)
  {
    CountThree(a, b, c, DeliveryAttemptKey);
  }

  lemma ReadsNotBefore(a: Header, b: Header, c: Header)
    requires a.key != NotBeforeKey && b.key == NotBeforeKey && c.key != NotBeforeKey
    ensures NotBefore([a, b, c]) == Atoi(b.value)
  {
    CountThree(a, b, c, NotBeforeKey);
    assert [a, b, c][1..] == [b, c];
    assert FirstTime([a, b, c]) == FirstTime([b, c]);
  }

  /** The header round trip: what Route writes at an attempt, both readers read back as the next attempt. */
  lemma HeadersRoundTrip(level: nat, attempt: nat, now: Time)
    requires 1 <= attempt <= RETRY_LEVELS
    ensures var headers := RetryHeaders(level, attempt, now);
            && DeliveryAttempt(attempt, headers) == Some(attempt + 1)
            && ExpectedAttempt(attempt, headers) == Some(attempt + 1)
            && NotBefore(headers) == Some(now + RetryDelay(attempt))
  {
    AtoiItoa(attempt);
    AtoiItoa(now + RetryDelay(attempt));
    RoundTripOf(Header(DeliveryAttemptKey, Itoa(attempt)), Header(NotBeforeKey, Itoa(now + RetryDelay(attempt))),
                Header(OriginalTopicKey, Itoa(level)), attempt);
  }

  lemma RoundTripOf(a: Header, b: Header, c: Header, level: nat)
    requires 1 <= level <= RETRY_LEVELS && a.key == DeliveryAttemptKey && Atoi(a.value) == Some(level)
    requires b.key == NotBeforeKey && c.key == OriginalTopicKey
    ensures DeliveryAttempt(level, [a, b, c]) == ExpectedAttempt(level, [a, b, c]) == Some(level + 1)
    ensures NotBefore([a, b, c]) == Atoi(b.value)
  {
    ReadsAttempt(a, b, c, level);
    FindsAttemptOnce(a, b, c, level);
    ReadsNotBefore(a, b, c);
  }

  // ---- Routing one record ----

  /** What the broker answers to a publication; a lost reply may hide an accepted record. */
  datatype Publication = AcceptedByBroker | Refused | ReplyLost

  /** The outside of one turn of the consume loop: what processing meets, and what becomes of routing it. */
  datatype Turn = Turn(
    calls: H.Calls, now: Time, clockBehindEvent: bool, deadLetterBuilds: bool, publication: Publication,
    ackLands: bool)

  /** What Route decides to publish. */
  datatype Routed = ToRetry(level: nat, record: Record) | ToDeadLetter | RouteError

  /** The failure goes up the ladder rather than to the dead letters. */
  predicate Retryable(record: Record, permanent: bool, attempt: nat) {
    !permanent && attempt <= RETRY_LEVELS && record.valid
  }

  /** The delivery metadata contradicts itself, or the failure would predate the event. */
  predicate Inconsistent(record: Record, level: nat, attempt: nat, turn: Turn) {
    attempt < 1 || turn.clockBehindEvent || (record.valid && ExpectedAttempt(level, record.headers) != Some(attempt))
  }

  /** Every consistent failure is published somewhere unless its dead letter cannot be built. */
  function Route(record: Record, level: nat, permanent: bool, attempt: nat, turn: Turn): (r: Routed)
    ensures r.ToRetry? <==> !Inconsistent(record, level, attempt, turn) && Retryable(record, permanent, attempt)
    ensures r.ToDeadLetter? <==>
              && !Inconsistent(record, level, attempt, turn) && !Retryable(record, permanent, attempt)
              && turn.deadLetterBuilds
    ensures r.ToRetry? ==> r.level == attempt && r.record == record.(headers := RetryHeaders(level, attempt, turn.now))
  {
    if attempt < 1 || turn.clockBehindEvent then RouteError
    else if record.valid && ExpectedAttempt(level, record.headers) != Some(attempt) then RouteError
    else if !permanent && attempt <= RETRY_LEVELS && record.valid then
      ToRetry(attempt, record.(headers := RetryHeaders(level, attempt, turn.now)))
    else if !turn.deadLetterBuilds then RouteError
    else ToDeadLetter
  }

  /** What one turn does with the record it polled, before acknowledging it. */
  datatype Handling = Stop | Finish | Publish(routed: Routed)

  /** The record reaches processing: it is valid, of the right type, and a retry carries its time. */
  predicate Reaches(record: Record, level: nat) {
    record.valid && record.event.scheduled && (level == 0 || NotBefore(record.headers).Some?)
  }

  /** When a record is processed: a retry waits for its time. */
  function ProcessedAt(record: Record, level: nat, polled: Time): Time {
    if level == 0 || NotBefore(record.headers).None? || NotBefore(record.headers).value <= polled then polled
    else NotBefore(record.headers).value
  }

  /** failure is what processing answered, if the record reached it. */
  function Handle(record: Record, level: nat, failure: Option<H.Failure>, turn: Turn): Handling {
    if !record.valid then Publish(Route(record, level, true, level + 1, turn))
    else if !record.event.scheduled then Finish
    else if !Reaches(record, level) then Stop
    else if failure.None? then Finish
    else match DeliveryAttempt(level, record.headers)
      case None => Stop
      case Some(attempt) =>
        Publish(Route(record, level, failure.value == H.PermanentFailure, attempt,
                      turn.(now := ProcessedAt(record, level, turn.now))))
  }

  /** A transient failure moves the record exactly one level up; after the last level it is dead-lettered. */
  lemma LadderClimbs(record: Record, level: nat, failure: Option<H.Failure>, turn: Turn)
    requires level <= RETRY_LEVELS && record.valid && record.event.scheduled
    requires var h := Handle(record, level, failure, turn); h.Publish? && !h.routed.RouteError?
    ensures var routed := Handle(record, level, failure, turn).routed;
            && (routed.ToRetry? <==> failure == Some(H.TransientFailure) && level < RETRY_LEVELS)
            && (routed.ToRetry? ==> routed.level == level + 1 && routed.record.event == record.event)
  {
  }

  /** A record that is not this consumer's is passed over; one without its metadata is never taken. */
  lemma OthersArePassedOver(record: Record, level: nat, failure: Option<H.Failure>, turn: Turn)
    requires record.valid
    ensures Handle(record, level, failure, turn) == Finish <==>
            !record.event.scheduled || (failure.None? && (level == 0 || NotBefore(record.headers).Some?))
  {
  }

  /**
   The ladder takes its time: a copy is processed, whoever polls it whenever, no earlier than one, five and thirty
   minutes after the failure that sent it to the first, second and third retry topic.
   */
  lemma LadderWaits(record: Record, level: nat, failure: Option<H.Failure>, turn: Turn, polled: Time)
    requires record.valid && record.event.scheduled
    requires var h := Handle(record, level, failure, turn); h.Publish? && h.routed.ToRetry?
    ensures level < 3
    ensures var copy := Handle(record, level, failure, turn).routed.record;
            var failedAt := ProcessedAt(record, level, turn.now);
            var due := failedAt + [1, 5, 30][level] * 60 * SECOND;
            && failedAt >= turn.now && NotBefore(copy.headers) == Some(due)
            && ProcessedAt(copy, level + 1, polled) == if polled < due then due else polled
  {
    HeadersRoundTrip(level, level + 1, ProcessedAt(record, level, turn.now));
  }

  // ---- The broker ----

  /** One partition of a topic: what was appended to it and how far this consumer group has acknowledged. */
  datatype Part = Part(level: nat, log: seq<Record>, acked: nat)

  /** The topics, the dead letters, and what processing changes: the cluster and the processed markers. */
  datatype Broker = Broker(parts: seq<Part>, world: H.World, deadLetters: set<nat>)

  datatype Step =
    | AppendStep(part: nat, record: Record)
    | TurnStep(part: nat, turn: Turn, target: nat)
    | ClusterStep(namespaces: map<string, H.Namespace>, runs: map<H.RunKey, H.AgentRun>)

  function Append(parts: seq<Part>, q: nat, record: Record): (r: seq<Part>)
    ensures |r| == |parts|
  {
    if q < |parts| then parts[q := parts[q].(log := parts[q].log + [record])] else parts
  }

  /** The retry copy goes to some partition of the next level. */
  predicate IsTarget(b: Broker, q: nat, level: nat) {
    q < |b.parts| && b.parts[q].level == level
  }

  /** The publication of a turn, and whether the turn goes on to acknowledge. */
  function Perform(b: Broker, record: Record, h: Handling, turn: Turn, target: nat): (Broker, bool) {
    match h
    case Stop => (b, false)
    case Finish => (b, true)
    case Publish(RouteError) => (b, false)
    case Publish(ToDeadLetter) =>
      (if turn.publication == Refused then b else b.(deadLetters := b.deadLetters + {record.event.id}),
       turn.publication == AcceptedByBroker)
    case Publish(ToRetry(level, copy)) =>
      if !IsTarget(b, target, level) then (b, false)
      else (if turn.publication == Refused then b else b.(parts := Append(b.parts, target, copy)),
            turn.publication == AcceptedByBroker)
  }

  /** Service.Process on the polled record, if it gets that far. */
  function ProcessRecord(b: Broker, record: Record, level: nat, turn: Turn): (Broker, Option<H.Failure>) {
    if !Reaches(record, level) then (b, None)
    else
      var (world, failure) := H.Processed(b.world, record.event, turn.calls);
      (b.(world := world), failure)
  }

  /** Everything a turn does before it acknowledges. */
  function Work(b: Broker, record: Record, level: nat, turn: Turn, target: nat): (Broker, bool) {
    var (processed, failure) := ProcessRecord(b, record, level, turn);
    Perform(processed, record, Handle(record, level, failure, turn), turn, target)
  }

  predicate HasNext(b: Broker, p: nat) {
    p < |b.parts| && b.parts[p].acked < |b.parts[p].log|
  }

  function NextRecord(b: Broker, p: nat): Record
    requires HasNext(b, p)
  {
    b.parts[p].log[b.parts[p].acked]
  }

  function TakeTurn(b: Broker, p: nat, turn: Turn, target: nat): Broker {
    if !HasNext(b, p) then b
    else
      var (after, acknowledges) := Work(b, NextRecord(b, p), b.parts[p].level, turn, target);
      if acknowledges && turn.ackLands then Acknowledged(after, p) else after
  }

  function Acknowledged(b: Broker, p: nat): Broker {
    if p < |b.parts| then b.(parts := b.parts[p := b.parts[p].(acked := b.parts[p].acked + 1)]) else b
  }

  /** Relays append to the lifecycle topic only; retry topics are written by the router. */
  function Apply(b: Broker, step: Step): Broker {
    match step
    case AppendStep(q, record) => if IsTarget(b, q, 0) then b.(parts := Append(b.parts, q, record)) else b
    case TurnStep(p, turn, target) => TakeTurn(b, p, turn, target)
    case ClusterStep(namespaces, runs) => b.(world := H.Changed(b.world, namespaces, runs))
  }

  function Execute(b: Broker, steps: seq<Step>): Broker {
    if |steps| == 0 then b else Apply(Execute(b, steps[..|steps| - 1]), steps[|steps| - 1])
  }

  // ---- No lost events ----

  /** Every record but those of other event types is this consumer's business, malformed ones included. */
  predicate Ours(r: Record) {
    !r.valid || r.event.scheduled
  }

  /** Still unacknowledged on some topic. */
  predicate Waits(b: Broker, p: nat, i: nat, e: nat) {
    && p < |b.parts| && b.parts[p].acked <= i < |b.parts[p].log|
    && b.parts[p].log[i].event.id == e && Ours(b.parts[p].log[i])
  }

  ghost predicate WaitsSomewhere(b: Broker, e: nat) {
    exists p: nat, i: nat :: Waits(b, p, i, e)
  }

  predicate Recorded(b: Broker, e: nat) {
    e in b.world.markers || e in b.deadLetters
  }

  ghost predicate Covered(b: Broker, e: nat) {
    Recorded(b, e) || WaitsSomewhere(b, e)
  }

  predicate Shaped(b: Broker) {
    forall p :: 0 <= p < |b.parts| ==> b.parts[p].level <= RETRY_LEVELS && b.parts[p].acked <= |b.parts[p].log|
  }

  ghost predicate NothingLost(b: Broker) {
    && Shaped(b)
    && forall p, i :: 0 <= p < |b.parts| && 0 <= i < |b.parts[p].log| && Ours(b.parts[p].log[i]) ==>
         Covered(b, b.parts[p].log[i].event.id)
  }

  lemma AppendKeepsCovered(b: Broker, q: nat, record: Record, e: nat)
    requires Covered(b, e)
    ensures Covered(b.(parts := Append(b.parts, q, record)), e)
  {
    var after := b.(parts := Append(b.parts, q, record));
    if !Recorded(b, e) {
      var p, i :| Waits(b, p, i, e);
      assert Waits(after, p, i, e);
    }
  }

  lemma AppendCovers(b: Broker, q: nat, record: Record)
    requires Shaped(b) && q < |b.parts| && Ours(record)
    ensures Covered(b.(parts := Append(b.parts, q, record)), record.event.id)
  {
    assert Waits(b.(parts := Append(b.parts, q, record)), q, |b.parts[q].log|, record.event.id);
  }

  lemma AppendKeepsNothingLost(b: Broker, q: nat, record: Record)
    requires NothingLost(b) && q < |b.parts|
    ensures NothingLost(b.(parts := Append(b.parts, q, record)))
  {
    var after := b.(parts := Append(b.parts, q, record));
    forall p, i | 0 <= p < |after.parts| && 0 <= i < |after.parts[p].log| && Ours(after.parts[p].log[i])
      ensures Covered(after, after.parts[p].log[i].event.id)
    {
      if i < |b.parts[p].log| {
        assert after.parts[p].log[i] == b.parts[p].log[i];
        AppendKeepsCovered(b, q, record, b.parts[p].log[i].event.id);
      } else {
        AppendCovers(b, q, record);
      }
    }
  }

  lemma GrowingRecordsKeepNothingLost(b: Broker, after: Broker)
    requires NothingLost(b) && after.parts == b.parts
    requires b.world.markers <= after.world.markers && b.deadLetters <= after.deadLetters
    ensures NothingLost(after)
  {
    forall p, i | 0 <= p < |after.parts| && 0 <= i < |after.parts[p].log| && Ours(after.parts[p].log[i])
      ensures Covered(after, after.parts[p].log[i].event.id)
    {
      var e := b.parts[p].log[i].event.id;
      assert Covered(b, e);
      if !Recorded(b, e) {
        var q, j :| Waits(b, q, j, e);
        assert Waits(after, q, j, e);
      }
    }
  }

  /** The event survives the acknowledgement of its record at p: it is recorded, or waits somewhere else. */
  ghost predicate CoveredBeyond(b: Broker, p: nat, e: nat)
    requires p < |b.parts|
  {
    Recorded(b, e) || exists q: nat, i: nat :: Waits(b, q, i, e) && (q != p || i != b.parts[p].acked)
  }

  /** Processing leaves the topics alone, takes no marker back, and marks what it answers with success. */
  lemma ProcessingKeeps(b: Broker, record: Record, level: nat, turn: Turn)
    requires NothingLost(b)
    ensures var r := ProcessRecord(b, record, level, turn);
            && NothingLost(r.0) && r.0.parts == b.parts && r.0.deadLetters == b.deadLetters
            && (Reaches(record, level) && r.1.None? ==> record.event.id in r.0.world.markers)
  {
    if Reaches(record, level) {
      H.MarkersOnlyOwn(b.world, record.event, turn.calls);
      if H.Processed(b.world, record.event, turn.calls).1.None? {
        H.SuccessMeansMarked(b.world, record.event, turn.calls);
      }
      GrowingRecordsKeepNothingLost(b, ProcessRecord(b, record, level, turn).0);
    }
  }

  /** What a publication keeps of the partition it was polled from. */
  predicate Extends(b: Broker, after: Broker, p: nat)
    requires p < |b.parts|
  {
    && |after.parts| == |b.parts| && after.parts[p].acked == b.parts[p].acked
    && after.parts[p].level == b.parts[p].level && b.parts[p].log <= after.parts[p].log
  }

  lemma PublicationKeeps(b: Broker, p: nat, routed: Routed, turn: Turn, target: nat)
    requires NothingLost(b) && HasNext(b, p)
    requires routed.ToRetry? ==> routed.record.event == NextRecord(b, p).event && Ours(routed.record)
    ensures var r := Perform(b, NextRecord(b, p), Publish(routed), turn, target);
            NothingLost(r.0) && Extends(b, r.0, p) && (r.1 ==> CoveredBeyond(r.0, p, NextRecord(b, p).event.id))
  {
    var record := NextRecord(b, p);
    var after := Perform(b, record, Publish(routed), turn, target).0;
    if after.parts == b.parts {
      GrowingRecordsKeepNothingLost(b, after);
    } else {
      AppendKeepsNothingLost(b, target, routed.record);
      assert Waits(after, target, |b.parts[target].log|, record.event.id);
    }
  }

  /** Whatever a turn does before it acknowledges keeps every event; and what it acknowledges is safe elsewhere. */
  lemma WorkKeeps(b: Broker, p: nat, turn: Turn, target: nat)
    requires NothingLost(b) && HasNext(b, p)
    ensures var record := NextRecord(b, p);
            var r := Work(b, record, b.parts[p].level, turn, target);
            && NothingLost(r.0) && Extends(b, r.0, p)
            && (r.1 && Ours(record) ==> CoveredBeyond(r.0, p, record.event.id))
  {
    var record := NextRecord(b, p);
    var level := b.parts[p].level;
    var (processed, failure) := ProcessRecord(b, record, level, turn);
    ProcessingKeeps(b, record, level, turn);
    var h := Handle(record, level, failure, turn);
    if h.Publish? {
      PublicationKeeps(processed, p, h.routed, turn, target);
    }
  }

  lemma AckKeepsCovered(b: Broker, p: nat, e: nat)
    requires HasNext(b, p) && Shaped(b) && Covered(b, e)
    requires NextRecord(b, p).event.id == e && Ours(NextRecord(b, p)) ==> CoveredBeyond(b, p, e)
    ensures Covered(Acknowledged(b, p), e)
  {
    var after := Acknowledged(b, p);
    if !Recorded(b, e) {
      var q, i :| Waits(b, q, i, e) && (q != p || i != b.parts[p].acked);
      assert Waits(after, q, i, e);
    }
  }

  lemma AckKeepsNothingLost(b: Broker, p: nat)
    requires NothingLost(b) && HasNext(b, p)
    requires Ours(NextRecord(b, p)) ==> CoveredBeyond(b, p, NextRecord(b, p).event.id)
    ensures NothingLost(Acknowledged(b, p))
  {
    var after := Acknowledged(b, p);
    forall q, i | 0 <= q < |after.parts| && 0 <= i < |after.parts[q].log| && Ours(after.parts[q].log[i])
      ensures Covered(after, after.parts[q].log[i].event.id)
    {
      assert after.parts[q].log == b.parts[q].log;
      AckKeepsCovered(b, p, b.parts[q].log[i].event.id);
    }
  }

  lemma TurnKeepsNothingLost(b: Broker, p: nat, turn: Turn, target: nat)
    requires NothingLost(b)
    ensures NothingLost(TakeTurn(b, p, turn, target))
  {
    if HasNext(b, p) {
      WorkKeeps(b, p, turn, target);
      var (after, acknowledges) := Work(b, NextRecord(b, p), b.parts[p].level, turn, target);
      assert NextRecord(after, p) == NextRecord(b, p);
      if acknowledges && turn.ackLands {
        AckKeepsNothingLost(after, p);
      }
    }
  }

  lemma StepKeepsNothingLost(b: Broker, step: Step)
    requires NothingLost(b)
    ensures NothingLost(Apply(b, step))
  {
    match step
    case AppendStep(q, record) =>
      if IsTarget(b, q, 0) {
        AppendKeepsNothingLost(b, q, record);
      }
    case TurnStep(p, turn, target) => TurnKeepsNothingLost(b, p, turn, target);
    case ClusterStep(namespaces, runs) => GrowingRecordsKeepNothingLost(b, Apply(b, step));
  }

  predicate Empty(b: Broker) {
    forall p :: 0 <= p < |b.parts| ==>
      b.parts[p].level <= RETRY_LEVELS && b.parts[p].log == [] && b.parts[p].acked == 0
  }

  /**
   No lost events. At every point of every run, with crashes between any two writes, lost replies and duplicate
   publications, each event that reached a topic is unacknowledged on some topic, or marked processed, or in the
   dead-letter topic.
   */
  lemma {:induction false} NoEventIsLost(b: Broker, steps: seq<Step>)
    requires Empty(b)
    ensures NothingLost(Execute(b, steps))
  {
    if |steps| > 0 {
      NoEventIsLost(b, steps[..|steps| - 1]);
      StepKeepsNothingLost(Execute(b, steps[..|steps| - 1]), steps[|steps| - 1]);
    }
  }

  // ---- Marked means handed over ----

  /** Step i was a turn on event e that left the cluster holding its AgentRun. */
  predicate HandedOverBy(before: Broker, step: Step, after: Broker, e: nat) {
    && step.TurnStep? && HasNext(before, step.part) && NextRecord(before, step.part).event.id == e
    && step.turn.calls.intent.Ok?
    && H.HandedOver(after.world, NextRecord(before, step.part).event, step.turn.calls.intent.value)
  }

  lemma TurnWorld(b: Broker, p: nat, turn: Turn, target: nat)
    requires HasNext(b, p)
    ensures TakeTurn(b, p, turn, target).world == ProcessRecord(b, NextRecord(b, p), b.parts[p].level, turn).0.world
  {
  }

  lemma StepKeepsStored(b: Broker, step: Step)
    requires H.AllStored(b.world)
    ensures H.AllStored(Apply(b, step).world)
  {
    match step
    case AppendStep(q, record) =>
    case TurnStep(p, turn, target) =>
      if HasNext(b, p) {
        TurnWorld(b, p, turn, target);
        H.DeliveryKeepsStored(b.world, NextRecord(b, p).event, turn.calls);
      }
    case ClusterStep(namespaces, runs) => H.ChangedIsStored(b.world, namespaces, runs);
  }

  lemma {:induction false} AlwaysStored(b: Broker, steps: seq<Step>)
    requires H.AllStored(b.world)
    ensures H.AllStored(Execute(b, steps).world)
  {
    if |steps| > 0 {
      AlwaysStored(b, steps[..|steps| - 1]);
      StepKeepsStored(Execute(b, steps[..|steps| - 1]), steps[|steps| - 1]);
    }
  }

  lemma NewMarkerWasHandedOver(b: Broker, step: Step, e: nat)
    requires H.AllStored(b.world) && e !in b.world.markers && e in Apply(b, step).world.markers
    ensures HandedOverBy(b, step, Apply(b, step), e)
  {
    var record := NextRecord(b, step.part);
    TurnWorld(b, step.part, step.turn, step.target);
    H.MarkersOnlyOwn(b.world, record.event, step.turn.calls);
    H.MarkedMeansHandedOver(b.world, record.event, step.turn.calls);
  }

  /** The state after the first i steps. */
  function At(b: Broker, steps: seq<Step>, i: nat): Broker
    requires i <= |steps|
  {
    Execute(b, steps[..i])
  }

  lemma {:induction false} MarkerWasHandedOver(b: Broker, steps: seq<Step>, e: nat) returns (i: nat)
    requires H.AllStored(b.world) && e !in b.world.markers && e in Execute(b, steps).world.markers
    ensures i < |steps| && HandedOverBy(At(b, steps, i), steps[i], At(b, steps, i + 1), e)
  {
    var init := steps[..|steps| - 1];
    if e in Execute(b, init).world.markers {
      i := MarkerWasHandedOver(b, init, e);
      assert init[..i] == steps[..i] && init[..i + 1] == steps[..i + 1];
    } else {
      i := |steps| - 1;
      AlwaysStored(b, init);
      NewMarkerWasHandedOver(Execute(b, init), steps[i], e);
      assert steps[..i] == init && steps[..i + 1] == steps;
    }
  }

  /** Some step of the run left the cluster holding the event's AgentRun. */
  ghost predicate WasHandedOver(b: Broker, steps: seq<Step>, e: nat) {
    exists i :: 0 <= i < |steps| && HandedOverBy(At(b, steps, i), steps[i], At(b, steps, i + 1), e)
  }

  /**
   End to end: in every run each scheduled or malformed event that reached a topic still waits on one, is in the
   dead-letter topic, or had its AgentRun held by the cluster, for its run and attempt and with its intent's spec.
   */
  lemma EveryEventIsAccountedFor(b: Broker, steps: seq<Step>, p: nat, i: nat)
    requires Empty(b) && H.AllStored(b.world) && b.world.markers == {} && p < |Execute(b, steps).parts|
    requires i < |Execute(b, steps).parts[p].log| && Ours(Execute(b, steps).parts[p].log[i])
    ensures var now := Execute(b, steps);
            var e := now.parts[p].log[i].event.id;
            WaitsSomewhere(now, e) || e in now.deadLetters || WasHandedOver(b, steps, e)
  {
    var now := Execute(b, steps);
    var e := now.parts[p].log[i].event.id;
    NoEventIsLost(b, steps);
    assert Covered(now, e);
    if e in now.world.markers {
      var k := MarkerWasHandedOver(b, steps, e);
    }
  }

  // ---- The ladder ends ----

  function Pending(part: Part): int {
    |part.log| - part.acked
  }

  /** Deliveries a partition's unacknowledged records can still cause: at most four from the lifecycle topic. */
  function Remaining(part: Part): int {
    match part.level
    case 0 => 4 * Pending(part)
    case 1 => 3 * Pending(part)
    case 2 => 2 * Pending(part)
    case _ => Pending(part)
  }

  function PendingTotal(parts: seq<Part>): int {
    Sum(seq(|parts|, p requires 0 <= p < |parts| => Pending(parts[p])))
  }

  function RemainingTotal(parts: seq<Part>): int {
    Sum(seq(|parts|, p requires 0 <= p < |parts| => Remaining(parts[p])))
  }

  lemma {:induction false} RemainingBounds(parts: seq<Part>)
    requires forall p :: 0 <= p < |parts| ==> parts[p].acked <= |parts[p].log|
    ensures 0 <= PendingTotal(parts) <= RemainingTotal(parts) <= 4 * PendingTotal(parts)
  {
    var pending := seq(|parts|, p requires 0 <= p < |parts| => Pending(parts[p]));
    var remaining := seq(|parts|, p requires 0 <= p < |parts| => Remaining(parts[p]));
    if |parts| > 0 {
      var init := parts[..|parts| - 1];
      RemainingBounds(init);
      assert pending[..|parts| - 1] == seq(|init|, p requires 0 <= p < |init| => Pending(init[p]));
      assert remaining[..|parts| - 1] == seq(|init|, p requires 0 <= p < |init| => Remaining(init[p]));
    }
  }

  lemma RemainingUpdate(parts: seq<Part>, p: nat, part: Part)
    requires p < |parts|
    ensures RemainingTotal(parts[p := part]) == RemainingTotal(parts) - Remaining(parts[p]) + Remaining(part)
  {
    var ws := seq(|parts|, i requires 0 <= i < |parts| => Remaining(parts[i]));
    assert seq(|parts|, i requires 0 <= i < |parts| => Remaining(parts[p := part][i])) == ws[p := Remaining(part)];
    SumUpdate(ws, p, Remaining(part));
  }

  /** What a turn publishes costs at most what its record still had to come. */
  lemma WorkCosts(b: Broker, p: nat, turn: Turn, target: nat)
    requires Shaped(b) && HasNext(b, p)
    ensures var after := Work(b, NextRecord(b, p), b.parts[p].level, turn, target).0;
            && |after.parts| == |b.parts| && HasNext(after, p) && Shaped(after)
            && after.parts[p].level == b.parts[p].level && after.parts[p].acked == b.parts[p].acked
            && RemainingTotal(after.parts) <= RemainingTotal(b.parts) + Weight(b.parts[p].level) - 1
            && (after.parts != b.parts ==> b.parts[p].level < RETRY_LEVELS)
  {
    var record := NextRecord(b, p);
    var level := b.parts[p].level;
    var (processed, failure) := ProcessRecord(b, record, level, turn);
    var h := Handle(record, level, failure, turn);
    var after := Perform(processed, record, h, turn, target).0;
    if after.parts != b.parts {
      RemainingUpdate(b.parts, target, after.parts[target]);
    }
  }

  /** Deliveries one record of a level can still cause. */
  function Weight(level: nat): (w: int)
    ensures 1 <= w <= 4
  {
    match level
    case 0 => 4
    case 1 => 3
    case 2 => 2
    case _ => 1
  }

  lemma AckLowers(b: Broker, p: nat)
    requires HasNext(b, p)
    ensures RemainingTotal(Acknowledged(b, p).parts) == RemainingTotal(b.parts) - Weight(b.parts[p].level)
  {
    RemainingUpdate(b.parts, p, b.parts[p].(acked := b.parts[p].acked + 1));
  }

  /** The step is a turn that acknowledged its record. */
  predicate Acknowledges(b: Broker, step: Step) {
    step.TurnStep? && HasNext(b, step.part) && step.turn.ackLands &&
    Work(b, NextRecord(b, step.part), b.parts[step.part].level, step.turn, step.target).1
  }

  /** The step is a turn that left a copy but not its acknowledgement: a lost reply, a lost acknowledgement, a crash. */
  predicate Duplicates(b: Broker, step: Step) {
    step.TurnStep? && !Acknowledges(b, step) && Apply(b, step).parts != b.parts
  }

  predicate Arrives(b: Broker, step: Step) {
    step.AppendStep? && IsTarget(b, step.part, 0)
  }

  function Bit(condition: bool): int {
    if condition then 1 else 0
  }

  lemma TurnCosts(b: Broker, p: nat, turn: Turn, target: nat)
    requires Shaped(b)
    ensures var step := TurnStep(p, turn, target);
            && Shaped(TakeTurn(b, p, turn, target))
            && Bit(Acknowledges(b, step)) + RemainingTotal(TakeTurn(b, p, turn, target).parts) <=
               RemainingTotal(b.parts) + 3 * Bit(Duplicates(b, step))
  {
    if HasNext(b, p) {
      WorkCosts(b, p, turn, target);
      var (after, acknowledges) := Work(b, NextRecord(b, p), b.parts[p].level, turn, target);
      if acknowledges && turn.ackLands {
        AckLowers(after, p);
      }
    }
  }

  lemma ArrivalCosts(b: Broker, q: nat, record: Record)
    requires Shaped(b) && IsTarget(b, q, 0)
    ensures RemainingTotal(Append(b.parts, q, record)) == RemainingTotal(b.parts) + 4
  {
    RemainingUpdate(b.parts, q, b.parts[q].(log := b.parts[q].log + [record]));
  }

  lemma StepCosts(b: Broker, step: Step)
    requires Shaped(b)
    ensures Shaped(Apply(b, step))
    ensures Bit(Acknowledges(b, step)) + RemainingTotal(Apply(b, step).parts) <=
            RemainingTotal(b.parts) + 3 * Bit(Duplicates(b, step)) + 4 * Bit(Arrives(b, step))
  {
    match step
    case AppendStep(q, record) =>
      if IsTarget(b, q, 0) {
        ArrivalCosts(b, q, record);
      }
    case TurnStep(p, turn, target) => TurnCosts(b, p, turn, target);
    case ClusterStep(namespaces, runs) =>
  }

  /** Acknowledged turns, turns that only duplicated, and records that arrived, along a run. */
  datatype Tally = Tally(acknowledged: nat, duplicated: nat, arrived: nat)

  function Count(b: Broker, steps: seq<Step>): Tally {
    if |steps| == 0 then Tally(0, 0, 0)
    else
      var before := Execute(b, steps[..|steps| - 1]);
      var last := steps[|steps| - 1];
      var t := Count(b, steps[..|steps| - 1]);
      Tally(t.acknowledged + if Acknowledges(before, last) then 1 else 0,
            t.duplicated + if Duplicates(before, last) then 1 else 0,
            t.arrived + if Arrives(before, last) then 1 else 0)
  }

  lemma {:induction false} CostAlongRun(b: Broker, steps: seq<Step>)
    requires Shaped(b)
    ensures Shaped(Execute(b, steps))
    ensures Count(b, steps).acknowledged + RemainingTotal(Execute(b, steps).parts) <=
            RemainingTotal(b.parts) + 3 * Count(b, steps).duplicated + 4 * Count(b, steps).arrived
  {
    if |steps| > 0 {
      CostAlongRun(b, steps[..|steps| - 1]);
      StepCosts(Execute(b, steps[..|steps| - 1]), steps[|steps| - 1]);
    }
  }

  /**
   The ladder ends: along any run the acknowledged turns number at most four per record pending at the start or arrived
   since, and three more per turn that left a copy without its acknowledgement; and what is still pending is within
   what remains of that.
   */
  lemma LadderEnds(b: Broker, steps: seq<Step>)
    requires Shaped(b)
    ensures var t := Count(b, steps);
            t.acknowledged + PendingTotal(Execute(b, steps).parts) <=
            4 * (PendingTotal(b.parts) + t.arrived) + 3 * t.duplicated
    ensures PendingTotal(Execute(b, steps).parts) >= 0
  {
    CostAlongRun(b, steps);
    RemainingBounds(b.parts);
    RemainingBounds(Execute(b, steps).parts);
  }

  // ---- The consumer ----

  class Consumer {
    const service: H.Service
    var parts: seq<Part>
    var deadLetters: set<nat>

    constructor (parts: seq<Part>, deadLetters: set<nat>, service: H.Service)
      ensures this.parts == parts && this.deadLetters == deadLetters && this.service == service
    {
      this.parts, this.deadLetters, this.service := parts, deadLetters, service;
    }

    function View(): Broker
      reads this, service
    {
      Broker(parts, service.View(), deadLetters)
    }

    /** Publishes what the router decided; only an accepted publication lets the turn go on. */
    method PublishRouted(record: Record, routed: Routed, turn: Turn, target: nat) returns (goesOn: bool)
      modifies this`parts, this`deadLetters
      ensures (View(), goesOn) == Perform(old(View()), record, Publish(routed), turn, target)
    {
      match routed
      case RouteError => return false;
      case ToDeadLetter =>
        if turn.publication != Refused {
          deadLetters := deadLetters + {record.event.id};
        }
        return turn.publication == AcceptedByBroker;
      case ToRetry(level, copy) =>
        if !IsTarget(View(), target, level) {
          return false;
        }
        if turn.publication != Refused {
          parts := Append(parts, target, copy);
        }
        return turn.publication == AcceptedByBroker;
    }

    /** Routing of a processing failure. */
    method RouteFailure(record: Record, level: nat, failure: H.Failure, turn: Turn, target: nat) returns (goesOn: bool)
      requires Reaches(record, level)
      modifies this`parts, this`deadLetters
      ensures (View(), goesOn) ==
              Perform(old(View()), record, Handle(record, level, Some(failure), turn), turn, target)
    {
      var attempt := ScanDeliveryAttempt(level, record.headers);
      if attempt.None? {
        return false;
      }
      var routed := Route(record, level, failure == H.PermanentFailure, attempt.value,
                          turn.(now := ProcessedAt(record, level, turn.now)));
      goesOn := PublishRouted(record, routed, turn, target);
    }

    /** The body of the consume loop up to the acknowledgement: poll, process, route. */
    method HandleRecord(record: Record, level: nat, turn: Turn, target: nat) returns (goesOn: bool)
      modifies this, service
      ensures (View(), goesOn) == Work(old(View()), record, level, turn, target)
    {
      if !record.valid {
        goesOn := PublishRouted(record, Route(record, level, true, level + 1, turn), turn, target);
        return;
      }
      if !record.event.scheduled {
        return true;
      }
      if level > 0 && NotBefore(record.headers).None? {
        return false;
      }
      var failure := service.Process(record.event, turn.calls);
      if failure.Some? {
        goesOn := RouteFailure(record, level, failure.value, turn, target);
        return;
      }
      return true;
    }

    /** One turn of the consume loop on a partition. */
    method ConsumeOne(p: nat, turn: Turn, target: nat) returns (acknowledged: bool)
      modifies this, service
      ensures View() == TakeTurn(old(View()), p, turn, target)
      ensures acknowledged == Acknowledges(old(View()), TurnStep(p, turn, target))
    {
      if p >= |parts| || parts[p].acked >= |parts[p].log| {
        return false;
      }
      var record := parts[p].log[parts[p].acked];
      var goesOn := HandleRecord(record, parts[p].level, turn, target);
      if !goesOn || !turn.ackLands {
        return false;
      }
      parts := parts[p := parts[p].(acked := parts[p].acked + 1)];
      return true;
    }

    /** The consume loop: it ends at the first turn that cannot acknowledge, and nothing is lost on the way. */
    method Consume(p: nat, turns: seq<(Turn, nat)>) returns (handled: nat)
      requires NothingLost(View())
      modifies this, service
      ensures NothingLost(View()) && handled <= |turns|
    {
      handled := 0;
      while handled < |turns|
        invariant NothingLost(View()) && handled <= |turns|
      {
        StepKeepsNothingLost(View(), TurnStep(p, turns[handled].0, turns[handled].1));
        var acknowledged := ConsumeOne(p, turns[handled].0, turns[handled].1);
        if !acknowledged {
          return;
        }
        handled := handled + 1;
      }
    }
  }
}
