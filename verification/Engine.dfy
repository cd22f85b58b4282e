/** The program each scheduler runs on a run it claimed: evaluate, renew, then commit one decision. */
module Engine {
  import opened Common
  import opened RunDomain
  import opened Store
  import opened SchedulerStore
  import opened History
  import E = Eligibility
  import Sel = Selection

  datatype Config = Config(owner: string, lease: nat, freshness: nat, ttl: nat, deferral: nat, affinity: bool)

  /** What NewEngine demands. */
  predicate ValidConfig(c: Config) {
    1 <= |c.owner| <= 160 && c.lease > 0 && c.freshness > 0 && 0 < c.ttl <= DAY && c.deferral > 0
  }

  /**
   What the scheduler learns on the way: the eligibility decision, on usage that may be stale by now, with its code
   and explanation; the candidates of the registry; the desired state its configuration builds. before and between are
   the transactions of everyone else that commit before the renewal, and between it and the decision.
   */
  datatype Turn = Turn(
    evaluated: Option<E.Decision>, code: string, reason: string, renewedAt: Time,
    candidates: Option<seq<Sel.Candidate>>, region: string, desired: Option<Desired>,
    before: seq<Step>, between: seq<Step>)

  const NO_CAPACITY := "NO_CAPACITY"
  const NO_CAPACITY_REASON := "no eligible cluster has sufficient capacity"

  function EligibleAfter(asked: Time, now: Time, deferral: nat): (next: Time)
    requires deferral > 0
    ensures next > now && (asked > now ==> next == asked)
  {
    if asked > now then asked else now + deferral
  }

  function DeferRequest(c: Config, run: ClaimedRun, code: string, reason: string, next: Time,
      now: Time): DecisionRequest {
    DecisionRequest(run, c.owner, code, reason, next, now)
  }

  /** Rounded-up cores and gibibytes at the cluster's prices. */
  function EstimateBudget(run: ClaimedRun, cluster: Sel.Candidate): nat {
    (run.cpu + 999) / 1000 * cluster.cpuCost + (run.memory + 1023) / 1024 * cluster.memoryCost
  }

  /** What is charged: whole cores and whole gibibytes, rounded up, at the cluster's prices. */
  lemma BudgetIsRoundedUp(run: ClaimedRun, cluster: Sel.Candidate) returns (cores: nat, gibibytes: nat)
    ensures 1000 * (cores - 1) < run.cpu <= 1000 * cores && 1024 * (gibibytes - 1) < run.memory <= 1024 * gibibytes
    ensures EstimateBudget(run, cluster) == cores * cluster.cpuCost + gibibytes * cluster.memoryCost
  {
    cores, gibibytes := (run.cpu + 999) / 1000, (run.memory + 1023) / 1024;
  }

  function IntentFor(c: Config, run: ClaimedRun, chosen: Sel.Candidate, rated: Sel.Scored, desired: Desired,
      now: Time): ScheduleRequest {
    ScheduleRequest(run, c.owner, run.attempt, run.attemptVersion, chosen.id, c.freshness,
                    if c.affinity then "region-affinity" else "least-loaded", rated.score, EstimateBudget(run, chosen),
                    c.ttl, now, desired)
  }

  // ---- A decision made on a renewed lease lands ----

  /** The decision request that follows a renewal. */
  predicate FollowsRenewal(renewal: RenewRequest, req: DecisionRequest) {
    && req.claim.tenant == renewal.tenant && req.claim.run == renewal.run && req.claim.version == renewal.version + 1
    && req.owner == renewal.owner && req.now == renewal.now
  }

  lemma RenewalHolds(db: Db, renewal: RenewRequest, req: DecisionRequest)
    requires Renew(db, renewal).result.Ok? && FollowsRenewal(renewal, req)
    ensures var mid := Renew(db, renewal).db;
            && RunExists(mid, req.claim.tenant, req.claim.run) && mid.attempts == db.attempts
            && mid.runs[req.claim.run].attemptCount == db.runs[req.claim.run].attemptCount
            && HoldsLease(mid.runs[req.claim.run], req.owner, req.claim.version, req.now)
  {
    RenewedLease(db, renewal, req.owner, req.claim.version, req.now);
  }

  /** With nothing in between, a deferral after a renewal always commits, and the run waits until the instant named. */
  lemma DeferLands(db: Db, renewal: RenewRequest, req: DecisionRequest)
    requires Renew(db, renewal).result.Ok? && FollowsRenewal(renewal, req) && ValidDecision(req)
    requires req.nextEligible > req.now
    ensures var o := DeferCapacity(Renew(db, renewal).db, req);
            && o.result.Ok? && !o.result.value.replayed && req.claim.run < |o.db.runs|
            && o.db.runs[req.claim.run].status == CapacityWait
            && o.db.runs[req.claim.run].nextEligible == Some(req.nextEligible)
            && o.db.runs[req.claim.run].verdict == Some(Verdict(req.code, req.reason))
  {
    RenewalHolds(db, renewal, req);
    HeldDeferLands(Renew(db, renewal).db, req);
  }

  lemma HeldDeferLands(db: Db, req: DecisionRequest)
    requires RunExists(db, req.claim.tenant, req.claim.run) && ValidDecision(req) && req.nextEligible > req.now
    requires HoldsLease(db.runs[req.claim.run], req.owner, req.claim.version, req.now)
    ensures var o := DeferCapacity(db, req);
            && o.result.Ok? && !o.result.value.replayed && |o.db.runs| == |db.runs|
            && o.db.runs[req.claim.run].status == CapacityWait
            && o.db.runs[req.claim.run].nextEligible == Some(req.nextEligible)
            && o.db.runs[req.claim.run].verdict == Some(Verdict(req.code, req.reason))
  {
  }

  /** Likewise a rejection of the claimed, still pending attempt. */
  lemma RejectLands(db: Db, renewal: RenewRequest, req: DecisionRequest)
    requires Renew(db, renewal).result.Ok? && FollowsRenewal(renewal, req) && ValidDecision(req)
    requires req.claim.run < |db.runs|
    requires PendingAttemptError(db, req.claim.run, req.claim.attempt, req.claim.attemptVersion).None?
    ensures var o := Reject(Renew(db, renewal).db, req);
            && o.result.Ok? && !o.result.value.replayed && req.claim.run < |o.db.runs|
            && o.db.runs[req.claim.run].status == PolicyRejected
            && o.db.runs[req.claim.run].failure == Some(PolicyFailure)
            && o.db.runs[req.claim.run].completedAt == Some(req.now)
            && o.db.runs[req.claim.run].verdict == Some(Verdict(req.code, req.reason))
            && req.claim.attempt in o.db.attempts && o.db.attempts[req.claim.attempt].status == AttemptCancelled
  {
    RenewalHolds(db, renewal, req);
    HeldRejectLands(Renew(db, renewal).db, req);
  }

  lemma HeldRejectLands(db: Db, req: DecisionRequest)
    requires RunExists(db, req.claim.tenant, req.claim.run) && ValidDecision(req)
    requires HoldsLease(db.runs[req.claim.run], req.owner, req.claim.version, req.now)
    requires PendingAttemptError(db, req.claim.run, req.claim.attempt, req.claim.attemptVersion).None?
    ensures var o := Reject(db, req);
            && o.result.Ok? && !o.result.value.replayed && |o.db.runs| == |db.runs|
            && o.db.runs[req.claim.run].status == PolicyRejected
            && o.db.runs[req.claim.run].failure == Some(PolicyFailure)
            && o.db.runs[req.claim.run].completedAt == Some(req.now)
            && o.db.runs[req.claim.run].verdict == Some(Verdict(req.code, req.reason))
            && req.claim.attempt in o.db.attempts && o.db.attempts[req.claim.attempt].status == AttemptCancelled
  {
  }

  // ---- The program ----

  /** What became of one claimed run. */
  datatype Ending = EvaluationFailed | LeaseLost | Undecided | Decided(request: Step, committed: bool)

  /** The run a turn adds before it decides: everyone else's transactions around its renewal. */
  function UpToDecision(turn: Turn, renewal: RenewRequest): seq<Step> {
    turn.before + [RenewStep(renewal)] + turn.between
  }

  lemma OneStep(db: Db, steps: seq<Step>, step: Step)
    ensures Execute(db, steps + [step]) == Apply(Execute(db, steps), step)
  {
    assert (steps + [step])[..|steps|] == steps;
  }

  lemma RenewalRun(db: Db, turn: Turn, renewal: RenewRequest)
    ensures Execute(Renew(Execute(db, turn.before), renewal).db, turn.between) ==
            Execute(db, UpToDecision(turn, renewal))
  {
    OneStep(db, turn.before, RenewStep(renewal));
    ExecuteConcat(db, turn.before + [RenewStep(renewal)], turn.between);
  }

  class Scheduler {
    const config: Config
    const repository: Repository

    constructor (config: Config, repository: Repository)
      ensures this.config == config && this.repository == repository
    {
      this.config, this.repository := config, repository;
    }

    /** What other processes commit meanwhile. */
    method Meanwhile(steps: seq<Step>)
      modifies repository
      ensures repository.State() == Execute(old(repository.State()), steps)
    {
      var db := Execute(repository.State(), steps);
      repository.Become(db);
    }

    /** The configured strategy's answer for this run. */
    static predicate Answers(config: Config, candidates: seq<Sel.Candidate>, run: ClaimedRun, region: string, now: Time,
                             r: Result<Sel.SelectionDecision, Sel.SelectionError>)
      requires Sel.Weighted(candidates)
    {
      var req := Sel.SelectionRequest(run.cpu, run.memory, region);
      if config.affinity then Sel.AffinityAnswers(candidates, req, now, r)
      else Sel.Answers(candidates, req, now, Sel.LeastLoaded, Sel.LowestScore, false, r)
    }

    /** Some candidate has room for the run. */
    static predicate Placeable(candidates: seq<Sel.Candidate>, run: ClaimedRun, region: string) {
      run.cpu > 0 && run.memory > 0 && Sel.SomeFits(candidates, Sel.SelectionRequest(run.cpu, run.memory, region))
    }

    method Choose(run: ClaimedRun, candidates: seq<Sel.Candidate>, region: string, now: Time)
      returns (r: Result<Sel.SelectionDecision, Sel.SelectionError>)
      requires Sel.Weighted(candidates)
      ensures r.Ok? ==> exists c :: c in candidates && c.id == r.value.chosen.id &&
                          Sel.FitsOn(c, Sel.SelectionRequest(run.cpu, run.memory, region))
      ensures Answers(config, candidates, run, region, now, r)
      ensures r.Ok? <==> Placeable(candidates, run, region) && now > 0
      ensures r == Err(Sel.NoCapacity) <==>
              run.cpu > 0 && run.memory > 0 && now > 0 && !Placeable(candidates, run, region)
    {
      var req := Sel.SelectionRequest(run.cpu, run.memory, region);
      if config.affinity {
        r := Sel.SelectWithAffinity(candidates, req, now);
      } else {
        r := Sel.RankCandidates(candidates, req, now, Sel.LeastLoaded, false);
      }
    }

    /** The first candidate with the chosen identifier. */
    method Lookup(candidates: seq<Sel.Candidate>, id: string) returns (chosen: Sel.Candidate)
      requires exists c :: c in candidates && c.id == id
      ensures chosen in candidates && chosen.id == id
    {
      var i := 0;
      while candidates[i].id != id
        invariant i < |candidates| && exists k :: i <= k < |candidates| && candidates[k].id == id
        decreases |candidates| - i
      {
        i := i + 1;
      }
      return candidates[i];
    }

    method Defer(run: ClaimedRun, code: string, reason: string, next: Time, now: Time) returns (ending: Ending)
      modifies repository
      ensures ending == Decided(DeferStep(DeferRequest(config, run, code, reason, next, now)),
                                DeferCapacity(old(repository.State()),
                                    DeferRequest(config, run, code, reason, next, now)).result.Ok?)
      ensures repository.State() == Apply(old(repository.State()), ending.request)
    {
      var req := DeferRequest(config, run, code, reason, next, now);
      var result := repository.DeferCapacity(req);
      return Decided(DeferStep(req), result.Ok?);
    }

    /** The request is for the claimed attempt, on this scheduler's terms, at the price of the cluster it names. */
    static ghost predicate AsksFor(config: Config, req: ScheduleRequest, run: ClaimedRun, turn: Turn)
      requires turn.candidates.Some? && Sel.Weighted(turn.candidates.value)
    {
      && req.attempt == run.attempt && req.attemptVersion == run.attemptVersion && req.now == turn.renewedAt
      && req.freshness == config.freshness && req.ttl == config.ttl && turn.desired == Some(req.desired)
      && req.strategy == (if config.affinity then "region-affinity" else "least-loaded")
      && (exists c :: c in turn.candidates.value && c.id == req.cluster && req.budget == EstimateBudget(run, c))
      && (exists d :: Answers(config, turn.candidates.value, run, turn.region, turn.renewedAt, Ok(d)) &&
                      d.chosen.id == req.cluster && d.chosen.score == req.score)
    }

    /** The clusters can be listed, the request is a request, and if one has room the desired state can be built. */
    static predicate Placed(run: ClaimedRun, turn: Turn) {
      && turn.candidates.Some? && run.cpu > 0 && run.memory > 0 && turn.renewedAt > 0
      && (Placeable(turn.candidates.value, run, turn.region) ==> turn.desired.Some?)
    }

    /** The decision commits, or repeats one that did. */
    static predicate Lands(db: Db, request: Step) {
      match request
      case ScheduleStep(schedule) => Schedule(db, schedule).result.Ok?
      case DeferStep(decision) => DeferCapacity(db, decision).result.Ok?
      case RejectStep(decision) => Reject(db, decision).result.Ok?
      case _ => false
    }

    /** From the eligible decision on: list, select, and schedule or wait for capacity. */
    method Place(run: ClaimedRun, turn: Turn) returns (ending: Ending)
      requires ValidConfig(config) && (turn.candidates.Some? ==> Sel.Weighted(turn.candidates.value))
      modifies repository
      ensures ending == Undecided || ending.Decided?
      ensures ending == Undecided ==> repository.State() == old(repository.State())
      ensures ending.Decided? ==> DecidesOn(ending.request, run, config.owner)
      ensures ending.Decided? ==> repository.State() == Apply(old(repository.State()), ending.request)
      ensures ending.Decided? ==> ending.committed == Lands(old(repository.State()), ending.request)
      ensures ending.Decided? ==> ending.request.ScheduleStep? || ending.request.DeferStep?
      ensures ending.Decided? <==> Placed(run, turn)
      ensures ending.Decided? && ending.request.ScheduleStep? ==> Placeable(turn.candidates.value, run, turn.region)
      ensures ending.Decided? && ending.request.DeferStep? ==>
                && ending.request.decision.nextEligible == turn.renewedAt + config.deferral
                && ending.request.decision.code == NO_CAPACITY && turn.candidates.Some?
                && !Placeable(turn.candidates.value, run, turn.region)
      ensures ending.Decided? && ending.request.ScheduleStep? ==>
                && turn.candidates.Some? && AsksFor(config, ending.request.schedule, run, turn)
                && exists c :: c in turn.candidates.value && c.id == ending.request.schedule.cluster &&
                     Sel.FitsOn(c, Sel.SelectionRequest(run.cpu, run.memory, turn.region))
    {
      if turn.candidates.None? {
        return Undecided;
      }
      var selection := Choose(run, turn.candidates.value, turn.region, turn.renewedAt);
      if selection == Err(Sel.NoCapacity) {
        ending := Defer(run, NO_CAPACITY, NO_CAPACITY_REASON, turn.renewedAt + config.deferral, turn.renewedAt);
        return;
      }
      if selection.Err? || turn.desired.None? {
        return Undecided;
      }
      var chosen := Lookup(turn.candidates.value, selection.value.chosen.id);
      var req := IntentFor(config, run, chosen, selection.value.chosen, turn.desired.value, turn.renewedAt);
      var result := repository.Schedule(req);
      return Decided(ScheduleStep(req), result.Ok?);
    }

    /** What was evaluated is what is done: a rejection, a wait until the instant asked for, or a placement. */
    ghost predicate Obeys(decision: E.Decision, run: ClaimedRun, turn: Turn, ending: Ending)
      requires turn.candidates.Some? ==> Sel.Weighted(turn.candidates.value)
    {
      match decision
      case Reject(_) =>
        && ending.Decided? && ending.request.RejectStep?
        && ending.request.decision.code == turn.code && ending.request.decision.reason == turn.reason
      case Defer(_, asked) =>
        && ending.Decided? && ending.request.DeferStep?
        && ending.request.decision.code == turn.code && ending.request.decision.reason == turn.reason
        && ending.request.decision.nextEligible ==
           (if asked > turn.renewedAt then asked else turn.renewedAt + config.deferral)
      case Eligible =>
        && (ending.Decided? <==> Placed(run, turn))
        && (ending.Decided? ==>
              && (ending.request.ScheduleStep? || ending.request.DeferStep?)
              && (ending.request.ScheduleStep? <==> Placeable(turn.candidates.value, run, turn.region))
              && (ending.request.DeferStep? ==>
                    && ending.request.decision.code == NO_CAPACITY
                    && ending.request.decision.nextEligible == turn.renewedAt + config.deferral)
              && (ending.request.ScheduleStep? ==> AsksFor(config, ending.request.schedule, run, turn)))
    }

    /** The one decision of a run whose lease was just renewed. */
    method Decide(run: ClaimedRun, decision: E.Decision, turn: Turn) returns (ending: Ending)
      requires ValidConfig(config) && (turn.candidates.Some? ==> Sel.Weighted(turn.candidates.value))
      modifies repository
      ensures ending == Undecided || ending.Decided?
      ensures ending == Undecided ==> repository.State() == old(repository.State())
      ensures ending.Decided? ==> DecidesOn(ending.request, run, config.owner)
      ensures ending.Decided? ==> repository.State() == Apply(old(repository.State()), ending.request)
      ensures ending.Decided? ==> ending.committed == Lands(old(repository.State()), ending.request)
      ensures ending.Decided? && ending.request.DeferStep? ==> ending.request.decision.nextEligible > turn.renewedAt
      ensures Obeys(decision, run, turn, ending)
    {
      match decision {
        case Reject(_) =>
          var req := DecisionRequest(run, config.owner, turn.code, turn.reason, 0, turn.renewedAt);
          var result := repository.Reject(req);
          ending := Decided(RejectStep(req), result.Ok?);
        case Defer(_, asked) =>
          ending := Defer(run, turn.code, turn.reason, EligibleAfter(asked, turn.renewedAt, config.deferral),
              turn.renewedAt);
        case Eligible =>
          ending := Place(run, turn);
      }
    }

    function RenewalOf(run: ClaimedRun, turn: Turn): RenewRequest {
      RenewRequest(run.tenant, run.run, config.owner, run.version, turn.renewedAt, config.lease)
    }

    /** The renewal among everyone else's transactions: refused, or it returns the next version. */
    method RenewAmong(run: ClaimedRun, turn: Turn) returns (version: Option<nat>)
      modifies repository
      ensures version.None? ==> repository.State() == Execute(old(repository.State()), turn.before)
      ensures version.None? <==> Renew(Execute(old(repository.State()), turn.before), RenewalOf(run, turn)).result.Err?
      ensures version.Some? ==> version.value == run.version + 1
      ensures version.Some? ==>
                repository.State() == Execute(old(repository.State()), UpToDecision(turn, RenewalOf(run, turn)))
    {
      ghost var start := repository.State();
      Meanwhile(turn.before);
      var renewed := repository.Renew(RenewalOf(run, turn));
      if renewed.Err? {
        return None;
      }
      Meanwhile(turn.between);
      RenewalRun(start, turn, RenewalOf(run, turn));
      return Some(renewed.value);
    }

    /**
     process: at most a renewal and one decision, each a step of the run model among everyone else's, the decision on
     exactly the version the renewal returned. A deferral always names a later instant.
     */
    method Process(run: ClaimedRun, turn: Turn) returns (ending: Ending)
      requires ValidConfig(config) && (turn.candidates.Some? ==> Sel.Weighted(turn.candidates.value))
      modifies repository
      ensures turn.evaluated.None? <==> ending == EvaluationFailed
      ensures ending == EvaluationFailed ==> repository.State() == old(repository.State())
      ensures ending == LeaseLost ==> repository.State() == Execute(old(repository.State()), turn.before)
      ensures ending == LeaseLost <==>
              && turn.evaluated.Some?
              && Renew(Execute(old(repository.State()), turn.before), RenewalOf(run, turn)).result.Err?
      ensures ending == Undecided ==>
                repository.State() == Execute(old(repository.State()), UpToDecision(turn, RenewalOf(run, turn)))
      ensures ending.Decided? ==>
                && DecidesOn(ending.request, run.(version := run.version + 1), config.owner)
                && repository.State() ==
                   Execute(old(repository.State()), UpToDecision(turn, RenewalOf(run, turn)) + [ending.request])
      ensures ending.Decided? && ending.request.DeferStep? ==> ending.request.decision.nextEligible > turn.renewedAt
      ensures ending.Decided? || ending == Undecided ==>
                Obeys(turn.evaluated.value, run.(version := run.version + 1), turn, ending)
    {
      if turn.evaluated.None? {
        return EvaluationFailed;
      }
      ghost var start := repository.State();
      var version := RenewAmong(run, turn);
      if version.None? {
        return LeaseLost;
      }
      ending := Decide(run.(version := version.value), turn.evaluated.value, turn);
      if ending.Decided? {
        OneStep(start, UpToDecision(turn, RenewalOf(run, turn)), ending.request);
      }
    }
  }

  /** The request decides on this claimed run, at its version, for this owner. */
  predicate DecidesOn(step: Step, run: ClaimedRun, owner: string) {
    match step
    case ScheduleStep(req) => req.claim == run && req.owner == owner
    case DeferStep(req) => req.claim == run && req.owner == owner
    case RejectStep(req) => req.claim == run && req.owner == owner
    case _ => false
  }
}
