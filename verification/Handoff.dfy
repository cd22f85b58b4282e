/** Handing a scheduled run to Kubernetes: create or compare, then mark. */
module Handoff {
  import opened Common
  import opened Naming
  import opened Decimal

  // ---- Objects ----

  /** A Go slice: nil and empty differ to reflect.DeepEqual, though both are stored as nothing. */
  datatype Slice = NilSlice | Elements(items: seq<string>)

  /**
   An AgentRun spec: its three lists, desiredState, which is the one mutable field and goes from Running to Cancelled
   only, and other for all the immutable scalar ones.
   */
  datatype RunSpec = RunSpec(other: nat, running: bool, configurationRefs: Slice, secretRefs: Slice, retryable: Slice)

  datatype Labels = Labels(managed: bool, tenant: string, project: string, run: string)

  datatype AgentRun = AgentRun(spec: RunSpec, labels: Labels, annotations: map<string, string>)

  /** The durable intent, whose lists the handoff copies into freshly allocated slices. */
  datatype Intent = Intent(other: nat, configurationRefs: seq<string>, secretRefs: seq<string>, retryable: seq<string>)

  datatype Event = Event(
    id: nat, scheduled: bool, tenant: string, project: string, runId: string, attempt: nat,
    annotations: map<string, string>)

  function NamespaceName(tenant: string): string {
    "af-" + Compact(tenant)
  }

  function AgentRunName(runId: string, attempt: nat): string {
    "run-" + Compact(runId) + "-a" + Itoa(attempt)
  }

  /** Two attempts of a run never share an AgentRun. */
  lemma AgentRunNameTellsAttemptsApart(runId: string, m: nat, n: nat)
    requires AgentRunName(runId, m) == AgentRunName(runId, n)
    ensures m == n
  {
    var head := "run-" + Compact(runId) + "-a";
    assert head + Itoa(m) + "" == head + Itoa(m) && head + Itoa(n) + "" == head + Itoa(n);
    SuffixesEqual(head, Itoa(m), Itoa(n), "");
    ItoaInjective(m, n);
  }

  /** Two tenants never share a namespace. */
  lemma NamespaceTellsTenantsApart(a: string, b: string)
    requires Canonical(a) && Canonical(b) && NamespaceName(a) == NamespaceName(b)
    ensures a == b
  {
    assert NamespaceName(a) == "af-" + Compact(a) + "" && NamespaceName(b) == "af-" + Compact(b) + "";
    NamedApart("af-", a, "", b, "");
  }

  /** Two attempts of any runs never share an AgentRun. */
  lemma AgentRunNameTellsRunsApart(a: string, m: nat, b: string, n: nat)
    requires Canonical(a) && Canonical(b) && AgentRunName(a, m) == AgentRunName(b, n)
    ensures a == b && m == n
  {
    assert AgentRunName(a, m) == "run-" + Compact(a) + ("-a" + Itoa(m));
    assert AgentRunName(b, n) == "run-" + Compact(b) + ("-a" + Itoa(n));
    NamedApart("run-", a, "-a" + Itoa(m), b, "-a" + Itoa(n));
    AgentRunNameTellsAttemptsApart(a, m, n);
  }

  function DesiredSpec(intent: Intent): RunSpec {
    RunSpec(intent.other, true, Elements(intent.configurationRefs), Elements(intent.secretRefs),
            Elements(intent.retryable))
  }

  function DesiredRun(event: Event, intent: Intent): AgentRun {
    AgentRun(DesiredSpec(intent), Labels(true, event.tenant, event.project, event.runId), event.annotations)
  }

  // ---- The stored form ----

  /** Lists marked omitempty are stored only if they have elements, and read back as nil otherwise. */
  function StoredSlice(s: Slice): Slice {
    if s.NilSlice? || s.items == [] then NilSlice else s
  }

  function StoredSpec(spec: RunSpec): RunSpec {
    spec.(configurationRefs := StoredSlice(spec.configurationRefs), secretRefs := StoredSlice(spec.secretRefs),
          retryable := StoredSlice(spec.retryable))
  }

  function Stored(run: AgentRun): AgentRun {
    run.(spec := StoredSpec(run.spec))
  }

  /** Every list of the intent has an element. */
  predicate AllListsFilled(intent: Intent) {
    intent.configurationRefs != [] && intent.secretRefs != [] && intent.retryable != []
  }

  /** The comparison of a redelivery holds exactly when every list of the intent has an element. */
  lemma ReadsBackIffFilled(intent: Intent)
    ensures StoredSpec(DesiredSpec(intent)) == DesiredSpec(intent) <==> AllListsFilled(intent)
  {
  }

  // ---- The cluster ----

  datatype Namespace = Namespace(managed: bool, tenant: string)

  type RunKey = (string, string)

  /** What the handoff changes: one cluster's namespaces and AgentRuns, and the processed markers. */
  datatype World = World(namespaces: map<string, Namespace>, runs: map<RunKey, AgentRun>, markers: set<nat>)

  datatype Failure = PermanentFailure | TransientFailure

  /** Outcome of an API call: done, refused for good, or unavailable; an unavailable create may have landed. */
  datatype Call = Done | Denied | Unavailable(landed: bool)

  /** What one delivery meets. A rival may create the namespace or the AgentRun between the read and the create. */
  datatype Calls = Calls(
    decodes: bool, seen: Call, intent: Result<Intent, Failure>, intentMatches: bool, authorize: Result<bool, Failure>,
    namespaceRead: Call, namespaceRival: Option<Namespace>, namespaceCreate: Call,
    runRead: Call, runRival: Option<AgentRun>, runCreate: Call, mark: Call)

  function FailureOf(call: Call): Failure {
    if call == Denied then PermanentFailure else TransientFailure
  }

  function EnsuredNamespace(w: World, name: string, tenant: string, calls: Calls): (World, Option<Failure>) {
    var owned := Namespace(true, tenant);
    if calls.namespaceRead != Done then (w, Some(FailureOf(calls.namespaceRead)))
    else if name in w.namespaces then (w, if w.namespaces[name] == owned then None else Some(PermanentFailure))
    else if calls.namespaceRival.Some? then
      (w.(namespaces := w.namespaces[name := calls.namespaceRival.value]),
       if calls.namespaceRival.value == owned then None else Some(PermanentFailure))
    else match calls.namespaceCreate
      case Done => (w.(namespaces := w.namespaces[name := owned]), None)
      case Denied => (w, Some(PermanentFailure))
      case Unavailable(landed) =>
        (if landed then w.(namespaces := w.namespaces[name := owned]) else w, Some(TransientFailure))
  }

  predicate MetadataMatches(existing: AgentRun, desired: AgentRun) {
    && existing.labels == desired.labels
    && forall k :: k in desired.annotations ==>
         k in existing.annotations && existing.annotations[k] == desired.annotations[k]
  }

  /** The comparison of ensureAgentRun: DeepEqual on the spec as read back. */
  predicate Agrees(existing: AgentRun, desired: AgentRun) {
    existing.spec == desired.spec && MetadataMatches(existing, desired)
  }

  function EnsuredRun(w: World, key: RunKey, desired: AgentRun, calls: Calls): (World, Option<Failure>) {
    if calls.runRead != Done then (w, Some(FailureOf(calls.runRead)))
    else if key in w.runs then (w, if Agrees(w.runs[key], desired) then None else Some(PermanentFailure))
    else if calls.runRival.Some? then
      var rival := Stored(calls.runRival.value);
      (w.(runs := w.runs[key := rival]), if Agrees(rival, desired) then None else Some(PermanentFailure))
    else match calls.runCreate
      case Done => (w.(runs := w.runs[key := Stored(desired)]), None)
      case Denied => (w, Some(PermanentFailure))
      case Unavailable(landed) =>
        (if landed then w.(runs := w.runs[key := Stored(desired)]) else w, Some(TransientFailure))
  }

  // ---- Process ----

  function KeyOf(event: Event): RunKey {
    (NamespaceName(event.tenant), AgentRunName(event.runId, event.attempt))
  }

  /** From the namespace to the marker. */
  function HandOver(w: World, event: Event, intent: Intent, calls: Calls): (World, Option<Failure>) {
    var (prepared, namespaceError) := EnsuredNamespace(w, NamespaceName(event.tenant), event.tenant, calls);
    if namespaceError.Some? then (prepared, namespaceError)
    else
      var (ensured, runError) := EnsuredRun(prepared, KeyOf(event), DesiredRun(event, intent), calls);
      if runError.Some? then (ensured, runError)
      else match calls.mark
        case Done => (ensured.(markers := ensured.markers + {event.id}), None)
        case Denied => (ensured, Some(TransientFailure))
        case Unavailable(landed) =>
          (if landed then ensured.(markers := ensured.markers + {event.id}) else ensured, Some(TransientFailure))
  }

  /** One delivery; None is success. */
  function Processed(w: World, event: Event, calls: Calls): (World, Option<Failure>) {
    if !event.scheduled || !calls.decodes then (w, Some(PermanentFailure))
    else if calls.seen != Done then (w, Some(TransientFailure))
    else if event.id in w.markers then (w, None)
    else match calls.intent
      case Err(f) => (w, Some(f))
      case Ok(intent) =>
        if !calls.intentMatches then (w, Some(PermanentFailure))
        else match calls.authorize
          case Err(f) => (w, Some(f))
          case Ok(allowed) => if !allowed then (w, Some(PermanentFailure)) else HandOver(w, event, intent, calls)
  }

  /** Everything the API server returns was read back from storage. */
  predicate AllStored(w: World) {
    forall k :: k in w.runs ==> Stored(w.runs[k]) == w.runs[k]
  }

  /** A list as the API server returns it. */
  predicate Lists(slice: Slice, items: seq<string>) {
    slice == if items == [] then NilSlice else Elements(items)
  }

  /** The cluster holds the AgentRun of this run and attempt, running, as the intent and the event describe it. */
  predicate HandedOver(w: World, event: Event, intent: Intent) {
    && KeyOf(event) in w.runs
    && var (spec, labels) := (w.runs[KeyOf(event)].spec, w.runs[KeyOf(event)].labels);
    && spec.other == intent.other && spec.running && Lists(spec.configurationRefs, intent.configurationRefs)
    && Lists(spec.secretRefs, intent.secretRefs) && Lists(spec.retryable, intent.retryable)
    && labels.managed && labels.tenant == event.tenant && labels.project == event.project
    && labels.run == event.runId
    && forall k :: k in event.annotations ==>
         && k in w.runs[KeyOf(event)].annotations
         && w.runs[KeyOf(event)].annotations[k] == event.annotations[k]
  }

  lemma EnsuredRunIsHeld(w: World, event: Event, intent: Intent, calls: Calls)
    requires AllStored(w) && EnsuredRun(w, KeyOf(event), DesiredRun(event, intent), calls).1.None?
    ensures HandedOver(EnsuredRun(w, KeyOf(event), DesiredRun(event, intent), calls).0, event, intent)
  {
    var desired := DesiredRun(event, intent);
    if KeyOf(event) in w.runs {
      assert Stored(w.runs[KeyOf(event)]) == w.runs[KeyOf(event)];
    } else if calls.runRival.Some? {
      assert StoredSpec(StoredSpec(calls.runRival.value.spec)) == StoredSpec(calls.runRival.value.spec);
    }
  }

  lemma StoredTwice(run: AgentRun)
    ensures Stored(Stored(run)) == Stored(run)
  {
  }

  lemma EnsuredRunKeepsStored(w: World, key: RunKey, desired: AgentRun, calls: Calls)
    requires AllStored(w)
    ensures AllStored(EnsuredRun(w, key, desired, calls).0)
  {
    StoredTwice(desired);
    if calls.runRival.Some? {
      StoredTwice(calls.runRival.value);
    }
  }

  lemma DeliveryKeepsStored(w: World, event: Event, calls: Calls)
    requires AllStored(w)
    ensures AllStored(Processed(w, event, calls).0)
  {
    if calls.intent.Ok? {
      var prepared := EnsuredNamespace(w, NamespaceName(event.tenant), event.tenant, calls).0;
      EnsuredRunKeepsStored(prepared, KeyOf(event), DesiredRun(event, calls.intent.value), calls);
    }
  }

  lemma HandOverMarks(w: World, event: Event, intent: Intent, calls: Calls)
    requires AllStored(w) && event.id !in w.markers && event.id in HandOver(w, event, intent, calls).0.markers
    ensures HandedOver(HandOver(w, event, intent, calls).0, event, intent)
  {
    var (prepared, namespaceError) := EnsuredNamespace(w, NamespaceName(event.tenant), event.tenant, calls);
    if namespaceError.None? && EnsuredRun(prepared, KeyOf(event), DesiredRun(event, intent), calls).1.None? {
      EnsuredRunIsHeld(prepared, event, intent, calls);
    }
  }

  lemma OnlyHandOverMarks(w: World, event: Event, calls: Calls)
    requires event.id !in w.markers && event.id in Processed(w, event, calls).0.markers
    ensures calls.intent.Ok? && Processed(w, event, calls) == HandOver(w, event, calls.intent.value, calls)
  {
  }

  /**
   A marker is only ever written for an event whose AgentRun the cluster holds at that moment, for that run and
   attempt, with the intent's spec; a failed delivery that writes the marker all the same did so too.
   */
  lemma MarkedMeansHandedOver(w: World, event: Event, calls: Calls)
    requires AllStored(w) && event.id !in w.markers && event.id in Processed(w, event, calls).0.markers
    ensures calls.intent.Ok? && HandedOver(Processed(w, event, calls).0, event, calls.intent.value)
  {
    OnlyHandOverMarks(w, event, calls);
    HandOverMarks(w, event, calls.intent.value, calls);
  }

  /** Success means marked: the consumer acknowledges only what is on record. */
  lemma SuccessMeansMarked(w: World, event: Event, calls: Calls)
    requires Processed(w, event, calls).1.None?
    ensures event.id in Processed(w, event, calls).0.markers
  {
  }

  /** No delivery takes a marker back, and none marks another event. */
  lemma MarkersOnlyOwn(w: World, event: Event, calls: Calls)
    ensures w.markers <= Processed(w, event, calls).0.markers <= w.markers + {event.id}
  {
    if calls.intent.Ok? {
      var prepared := EnsuredNamespace(w, NamespaceName(event.tenant), event.tenant, calls).0;
      assert EnsuredRun(prepared, KeyOf(event), DesiredRun(event, calls.intent.value), calls).0.markers == w.markers;
    }
  }

  // ---- Runs ----

  /** A delivery, of any event and as often as the broker likes, or whatever else happens to the cluster's objects. */
  datatype Step =
    | DeliveryStep(event: Event, calls: Calls)
    | ClusterStep(namespaces: map<string, Namespace>, runs: map<RunKey, AgentRun>)

  /** Objects others write are stored like any. */
  function Changed(w: World, namespaces: map<string, Namespace>, runs: map<RunKey, AgentRun>): World {
    w.(namespaces := namespaces, runs := map k | k in runs :: Stored(runs[k]))
  }

  function Apply(w: World, step: Step): World {
    match step
    case DeliveryStep(event, calls) => Processed(w, event, calls).0
    case ClusterStep(namespaces, runs) => Changed(w, namespaces, runs)
  }

  function Execute(w: World, steps: seq<Step>): World {
    if |steps| == 0 then w else Apply(Execute(w, steps[..|steps| - 1]), steps[|steps| - 1])
  }

  lemma ChangedIsStored(w: World, namespaces: map<string, Namespace>, runs: map<RunKey, AgentRun>)
    ensures AllStored(Changed(w, namespaces, runs))
  {
    forall k | k in runs
      ensures Stored(Stored(runs[k])) == Stored(runs[k])
    {
      StoredTwice(runs[k]);
    }
  }

  lemma {:induction false} AlwaysStored(w: World, steps: seq<Step>)
    requires AllStored(w)
    ensures AllStored(Execute(w, steps))
  {
    if |steps| > 0 {
      var before := Execute(w, steps[..|steps| - 1]);
      AlwaysStored(w, steps[..|steps| - 1]);
      match steps[|steps| - 1]
      case DeliveryStep(event, calls) => DeliveryKeepsStored(before, event, calls);
      case ClusterStep(namespaces, runs) => ChangedIsStored(before, namespaces, runs);
    }
  }

  /** Step i delivered event e and left the cluster holding its AgentRun. */
  predicate HandedOverAt(w: World, steps: seq<Step>, i: nat, e: nat)
    requires i < |steps|
  {
    && steps[i].DeliveryStep? && steps[i].event.id == e && steps[i].calls.intent.Ok?
    && HandedOver(Execute(w, steps[..i + 1]), steps[i].event, steps[i].calls.intent.value)
  }

  /** Over every run, each marker was written by a delivery that left the cluster holding its AgentRun. */
  lemma {:induction false} EveryMarkerWasHandedOver(w: World, steps: seq<Step>, e: nat) returns (i: nat)
    requires AllStored(w) && e !in w.markers && e in Execute(w, steps).markers
    ensures i < |steps| && HandedOverAt(w, steps, i, e)
  {
    var init := steps[..|steps| - 1];
    if e in Execute(w, init).markers {
      i := EveryMarkerWasHandedOver(w, init, e);
      assert init[..i + 1] == steps[..i + 1];
    } else {
      i := |steps| - 1;
      AlwaysStored(w, init);
      MarkersOnlyOwn(Execute(w, init), steps[i].event, steps[i].calls);
      MarkedMeansHandedOver(Execute(w, init), steps[i].event, steps[i].calls);
      assert steps[..i + 1] == steps;
    }
  }

  // ---- Who gets in whose way ----

  predicate CanonicalEvent(e: Event) {
    Canonical(e.tenant) && Canonical(e.runId)
  }

  predicate SameRun(e: Event, f: Event) {
    e.tenant == f.tenant && e.runId == f.runId && e.attempt == f.attempt
  }

  /** Equal keys mean the same tenant, run and attempt. */
  lemma KeyTellsRunsApart(e: Event, f: Event)
    requires CanonicalEvent(e) && CanonicalEvent(f) && KeyOf(e) == KeyOf(f)
    ensures SameRun(e, f)
  {
    NamespaceTellsTenantsApart(e.tenant, f.tenant);
    AgentRunNameTellsRunsApart(e.runId, e.attempt, f.runId, f.attempt);
  }

  /** Whatever the cluster holds was put there for one of these events. */
  ghost predicate HeldFor(w: World, events: set<Event>) {
    && (forall name :: name in w.namespaces ==> NamespaceFor(events, name, w.namespaces[name]))
    && (forall key :: key in w.runs ==> RunFor(events, key))
    && (forall id :: id in w.markers ==> MarkerFor(events, id))
  }

  predicate NamespaceFor(events: set<Event>, name: string, held: Namespace) {
    exists e :: e in events && name == NamespaceName(e.tenant) && held == Namespace(true, e.tenant)
  }

  predicate RunFor(events: set<Event>, key: RunKey) {
    exists e :: e in events && key == KeyOf(e)
  }

  predicate MarkerFor(events: set<Event>, id: nat) {
    exists e :: e in events && e.id == id
  }

  /** What a delivery creates is for its own event. */
  lemma OwnIsFor(events: set<Event>, event: Event)
    requires event in events
    ensures NamespaceFor(events, NamespaceName(event.tenant), Namespace(true, event.tenant))
    ensures RunFor(events, KeyOf(event)) && MarkerFor(events, event.id)
  {
  }

  /**
   No run and no tenant gets in another's way: whatever the cluster holds for other events, a delivery whose calls
   succeed hands its own run over.
   */
  lemma OthersDoNotMatter(w: World, events: set<Event>, event: Event, intent: Intent, calls: Calls)
    requires HeldFor(w, events) && event.scheduled && CanonicalEvent(event) && Smooth(calls, intent)
    requires forall e :: e in events ==> CanonicalEvent(e) && !SameRun(e, event) && e.id != event.id
    ensures Processed(w, event, calls).1 == None && HandedOver(Processed(w, event, calls).0, event, intent)
  {
    var name := NamespaceName(event.tenant);
    if name in w.namespaces {
      var e :| e in events && name == NamespaceName(e.tenant) && w.namespaces[name] == Namespace(true, e.tenant);
      NamespaceTellsTenantsApart(e.tenant, event.tenant);
    }
    if KeyOf(event) in w.runs {
      var e :| e in events && KeyOf(event) == KeyOf(e);
      KeyTellsRunsApart(e, event);
    }
  }

  /** A step that brings nothing foreign: others only ever remove or edit objects, or create the tenant's namespace. */
  predicate BringsNothingForeign(w: World, step: Step) {
    match step
    case DeliveryStep(event, calls) =>
      calls.namespaceRival.None? || calls.namespaceRival.value == Namespace(true, event.tenant)
    case ClusterStep(namespaces, runs) =>
      && runs.Keys <= w.runs.Keys
      && forall name :: name in namespaces ==> name in w.namespaces && namespaces[name] == w.namespaces[name]
  }

  function Delivered(steps: seq<Step>): set<Event> {
    set i | 0 <= i < |steps| && steps[i].DeliveryStep? :: steps[i].event
  }

  lemma MoreEvents(w: World, events: set<Event>, more: set<Event>)
    requires HeldFor(w, events) && events <= more
    ensures HeldFor(w, more)
  {
  }

  lemma NamespaceHeldFor(w: World, events: set<Event>, event: Event, calls: Calls)
    requires HeldFor(w, events) && event in events && BringsNothingForeign(w, DeliveryStep(event, calls))
    ensures HeldFor(EnsuredNamespace(w, NamespaceName(event.tenant), event.tenant, calls).0, events)
  {
    OwnIsFor(events, event);
  }

  lemma RunHeldFor(w: World, events: set<Event>, event: Event, desired: AgentRun, calls: Calls)
    requires HeldFor(w, events) && event in events
    ensures HeldFor(EnsuredRun(w, KeyOf(event), desired, calls).0, events)
  {
    OwnIsFor(events, event);
  }

  lemma DeliveryHeldFor(w: World, events: set<Event>, event: Event, calls: Calls)
    requires HeldFor(w, events) && event in events && BringsNothingForeign(w, DeliveryStep(event, calls))
    ensures HeldFor(Processed(w, event, calls).0, events)
  {
    if calls.intent.Ok? {
      var prepared := EnsuredNamespace(w, NamespaceName(event.tenant), event.tenant, calls).0;
      OwnIsFor(events, event);
      NamespaceHeldFor(w, events, event, calls);
      RunHeldFor(prepared, events, event, DesiredRun(event, calls.intent.value), calls);
    }
  }

  lemma {:induction false} AlwaysHeldFor(w: World, steps: seq<Step>)
    requires w == World(map[], map[], {})
    requires forall i :: 0 <= i < |steps| ==> BringsNothingForeign(Execute(w, steps[..i]), steps[i])
    ensures HeldFor(Execute(w, steps), Delivered(steps))
  {
    if |steps| > 0 {
      var n := |steps| - 1;
      var init := steps[..n];
      forall i | 0 <= i < n
        ensures BringsNothingForeign(Execute(w, init[..i]), init[i])
      {
        assert init[..i] == steps[..i];
      }
      AlwaysHeldFor(w, init);
      assert forall i :: 0 <= i < n ==> init[i] == steps[i];
      MoreEvents(Execute(w, init), Delivered(init), Delivered(steps));
      if steps[n].DeliveryStep? {
        DeliveryHeldFor(Execute(w, init), Delivered(steps), steps[n].event, steps[n].calls);
      }
    }
  }

  /**
   Over every run from an empty cluster, with any failures, crashes, redeliveries, deletions and edits: a delivery of a
   run and attempt that was not delivered before, whose calls succeed, hands it over.
   */
  lemma NewRunIsHandedOver(w: World, steps: seq<Step>, event: Event, intent: Intent, calls: Calls)
    requires w == World(map[], map[], {}) && event.scheduled && CanonicalEvent(event) && Smooth(calls, intent)
    requires forall i :: 0 <= i < |steps| ==> BringsNothingForeign(Execute(w, steps[..i]), steps[i])
    requires forall i :: 0 <= i < |steps| && steps[i].DeliveryStep? ==>
               && CanonicalEvent(steps[i].event) && !SameRun(steps[i].event, event) && steps[i].event.id != event.id
    ensures var now := Execute(w, steps);
            Processed(now, event, calls).1 == None && HandedOver(Processed(now, event, calls).0, event, intent)
  {
    AlwaysHeldFor(w, steps);
    OthersDoNotMatter(Execute(w, steps), Delivered(steps), event, intent, calls);
  }

  // ---- Who is let in ----

  /** Nothing is created, and nothing marked, for an event that is not decoded, intended and authorized. */
  lemma OnlyAuthorized(w: World, event: Event, calls: Calls)
    requires Processed(w, event, calls).0 != w
    ensures event.scheduled && calls.decodes && calls.seen == Done && event.id !in w.markers
    ensures calls.intent.Ok? && calls.intentMatches && calls.authorize == Ok(true)
  {
  }

  /** No call is denied, and nothing in the cluster stands against the delivery. */
  predicate OnlyOutages(w: World, event: Event, calls: Calls) {
    && event.scheduled && calls.decodes
    && (calls.intent.Ok? ==> calls.intentMatches) && (calls.intent.Err? ==> calls.intent.error == TransientFailure)
    && calls.authorize !in {Ok(false), Err(PermanentFailure)}
    && Denied !in {calls.namespaceRead, calls.namespaceCreate, calls.runRead, calls.runCreate}
    && NamespaceUsable(w, event) && calls.namespaceRival.None? && KeyOf(event) !in w.runs && calls.runRival.None?
  }

  /** An outage alone never dead-letters an event: whatever is unavailable, the delivery succeeds or is tried again. */
  lemma OutageIsTransient(w: World, event: Event, calls: Calls)
    requires OnlyOutages(w, event, calls)
    ensures Processed(w, event, calls).1 != Some(PermanentFailure)
  {
  }

  /** With nothing unavailable, a delivery succeeds or fails for good. */
  lemma RefusalIsPermanent(w: World, event: Event, calls: Calls)
    requires calls.seen == Done && calls.mark == Done
    requires calls.intent != Err(TransientFailure) && calls.authorize != Err(TransientFailure)
    requires {calls.namespaceRead, calls.namespaceCreate, calls.runRead, calls.runCreate} <= {Done, Denied}
    ensures Processed(w, event, calls).1 != Some(TransientFailure)
  {
  }

  // ---- Redelivery ----

  /** Every call succeeds and nobody interferes during the delivery. */
  predicate Smooth(calls: Calls, intent: Intent) {
    && calls.decodes && calls.seen == Done && calls.intent == Ok(intent)
    && calls.intentMatches && calls.authorize == Ok(true)
    && calls.namespaceRead == Done && calls.namespaceRival.None? && calls.namespaceCreate == Done
    && calls.runRead == Done && calls.runRival.None? && calls.runCreate == Done && calls.mark == Done
  }

  /** What can become of a stored AgentRun: only desiredState of its spec is mutable, and only one way. */
  predicate Evolves(before: AgentRun, after: AgentRun) {
    after.spec == before.spec.(running := after.spec.running) && (after.spec.running ==> before.spec.running)
  }

  /**
   A delivery created the AgentRun and stopped before its marker, by a crash or an unavailable marker; since then the
   object may have been cancelled, its metadata edited, or the whole object or its namespace deleted.
   */
  predicate StoppedBeforeMark(w: World, event: Event, intent: Intent) {
    && event.id !in w.markers
    && (KeyOf(event) in w.runs ==> Evolves(Stored(DesiredRun(event, intent)), w.runs[KeyOf(event)]))
  }

  lemma InterruptedDeliveryStopsThere(w: World, event: Event, intent: Intent, calls: Calls)
    requires event.scheduled && event.id !in w.markers && w.namespaces == map[] && w.runs == map[]
    requires Smooth(calls.(mark := Done), intent) && calls.mark == Unavailable(false)
    ensures var after := Processed(w, event, calls).0;
            && StoppedBeforeMark(after, event, intent)
            && KeyOf(event) in after.runs && after.runs[KeyOf(event)] == Stored(DesiredRun(event, intent))
    ensures Processed(w, event, calls).1 == Some(TransientFailure)
  {
  }

  /** Whether the namespace is free or the tenant's own. */
  predicate NamespaceUsable(w: World, event: Event) {
    var name := NamespaceName(event.tenant);
    name in w.namespaces ==> w.namespaces[name] == Namespace(true, event.tenant)
  }

  /** What the redelivery depends on, all of it visible before the call. */
  predicate Repeatable(w: World, event: Event, intent: Intent) {
    && NamespaceUsable(w, event)
    && (KeyOf(event) in w.runs ==>
          && AllListsFilled(intent) && w.runs[KeyOf(event)].spec.running
          && MetadataMatches(w.runs[KeyOf(event)], DesiredRun(event, intent)))
  }

  /**
   The repeated comparison after a delivery that stopped before its marker succeeds if and only if the AgentRun is gone
   again, or every list of the intent has an element, desiredState is still Running and the managed metadata is intact,
   in a namespace that is still the tenant's. Otherwise the redelivery fails for good.
   */
  lemma RedeliveryConvergesIff(w: World, event: Event, intent: Intent, calls: Calls)
    requires event.scheduled && StoppedBeforeMark(w, event, intent) && Smooth(calls, intent)
    ensures Processed(w, event, calls).1 == (if Repeatable(w, event, intent) then None else Some(PermanentFailure))
    ensures event.id in Processed(w, event, calls).0.markers <==> Repeatable(w, event, intent)
  {
    ReadsBackIffFilled(intent);
  }

  /** An untouched AgentRun whose intent has no secrets: the redelivery is dead-lettered. */
  lemma EmptySecretsAreDeadLettered(w: World, event: Event, intent: Intent, calls: Calls)
    requires event.scheduled && StoppedBeforeMark(w, event, intent) && Smooth(calls, intent)
    requires NamespaceUsable(w, event)
    requires NamespaceName(event.tenant) in w.namespaces
    requires KeyOf(event) in w.runs && w.runs[KeyOf(event)] == Stored(DesiredRun(event, intent))
    requires intent.secretRefs == []
    ensures Processed(w, event, calls) == (w, Some(PermanentFailure))
  {
    RedeliveryConvergesIff(w, event, intent, calls);
  }

  /** The AgentRun with its desiredState set to Cancelled. */
  function Cancelled(w: World, key: RunKey): World {
    if key in w.runs then w.(runs := w.runs[key := w.runs[key].(spec := w.runs[key].spec.(running := false))]) else w
  }

  /** With every list filled, a cancellation between the two deliveries is enough to dead-letter the event. */
  lemma CancelledMeanwhileIsDeadLettered(w: World, event: Event, intent: Intent, calls: Calls)
    requires event.scheduled && StoppedBeforeMark(w, event, intent) && Smooth(calls, intent) && AllListsFilled(intent)
    requires NamespaceUsable(w, event) && NamespaceName(event.tenant) in w.namespaces && KeyOf(event) in w.runs
    requires w.runs[KeyOf(event)] == Stored(DesiredRun(event, intent))
    ensures Processed(w, event, calls).1 == None
    ensures var later := Cancelled(w, KeyOf(event)); Processed(later, event, calls) == (later, Some(PermanentFailure))
  {
    RedeliveryConvergesIff(w, event, intent, calls);
    RedeliveryConvergesIff(Cancelled(w, KeyOf(event)), event, intent, calls);
  }

  // ---- The service at work ----

  class Service {
    var namespaces: map<string, Namespace>
    var runs: map<RunKey, AgentRun>
    var markers: set<nat>

    constructor (w: World)
      ensures View() == w
    {
      namespaces, runs, markers := w.namespaces, w.runs, w.markers;
    }

    function View(): World
      reads this
    {
      World(namespaces, runs, markers)
    }

    method EnsureNamespace(name: string, tenant: string, calls: Calls) returns (error: Option<Failure>)
      modifies this`namespaces
      ensures (View(), error) == EnsuredNamespace(old(View()), name, tenant, calls)
    {
      if calls.namespaceRead != Done {
        return Some(FailureOf(calls.namespaceRead));
      }
      if name !in namespaces {
        if calls.namespaceRival.None? {
          if calls.namespaceCreate == Done || calls.namespaceCreate == Unavailable(true) {
            namespaces := namespaces[name := Namespace(true, tenant)];
          }
          return if calls.namespaceCreate == Done then None else Some(FailureOf(calls.namespaceCreate));
        }
        namespaces := namespaces[name := calls.namespaceRival.value];
      }
      return if namespaces[name] == Namespace(true, tenant) then None else Some(PermanentFailure);
    }

    method EnsureAgentRun(key: RunKey, desired: AgentRun, calls: Calls) returns (error: Option<Failure>)
      modifies this`runs
      ensures (View(), error) == EnsuredRun(old(View()), key, desired, calls)
    {
      if calls.runRead != Done {
        return Some(FailureOf(calls.runRead));
      }
      if key !in runs {
        if calls.runRival.None? {
          if calls.runCreate == Done || calls.runCreate == Unavailable(true) {
            runs := runs[key := Stored(desired)];
          }
          return if calls.runCreate == Done then None else Some(FailureOf(calls.runCreate));
        }
        runs := runs[key := Stored(calls.runRival.value)];
      }
      return if Agrees(runs[key], desired) then None else Some(PermanentFailure);
    }

    method Process(event: Event, calls: Calls) returns (error: Option<Failure>)
      modifies this
      ensures (View(), error) == Processed(old(View()), event, calls)
    {
      if !event.scheduled || !calls.decodes {
        return Some(PermanentFailure);
      }
      if calls.seen != Done {
        return Some(TransientFailure);
      }
      if event.id in markers {
        return None;
      }
      if calls.intent.Err? {
        return Some(calls.intent.error);
      }
      if !calls.intentMatches {
        return Some(PermanentFailure);
      }
      if calls.authorize.Err? {
        return Some(calls.authorize.error);
      }
      if !calls.authorize.value {
        return Some(PermanentFailure);
      }
      error := EnsureNamespace(NamespaceName(event.tenant), event.tenant, calls);
      if error.Some? {
        return;
      }
      error := EnsureAgentRun(KeyOf(event), DesiredRun(event, calls.intent.value), calls);
      if error.Some? {
        return;
      }
      if calls.mark == Done || calls.mark == Unavailable(true) {
        markers := markers + {event.id};
      }
      return if calls.mark == Done then None else Some(TransientFailure);
    }
  }
}
