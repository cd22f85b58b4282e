/** Cluster selection: least-loaded ranking and region affinity. */
module Selection {
  import opened Common
  import opened Arithmetic
  import opened Strings

  datatype Candidate = Candidate(
    id: string, region: string, active: bool, maintenance: bool, weight: nat, cpuCost: nat, memoryCost: nat,
    cpu: nat, memory: nat, queued: nat)

  datatype SelectionRequest = SelectionRequest(cpu: int, memory: int, preferredRegion: string)

  /** What one candidate is ranked by; the identifier breaks every tie. */
  datatype Scored = Scored(id: string, score: nat, projected: nat, queued: nat, cost: nat)

  datatype SelectionError = InvalidRequest | NoCapacity

  datatype Strategy = LeastLoaded | RegionAffinity

  /** The three explanations a decision can carry. */
  datatype Reason = LowestScore | InPreferredRegion | RegionFallback

  datatype SelectionDecision = SelectionDecision(
    chosen: Scored, strategy: Strategy, reason: Reason, usedRegionFallback: bool, decidedAt: Time)

  // ---- Arithmetic ----

  /**
   The exact ceiling of numerator * scale / denominator, computed without forming that product: the result is
   the least integer at or above the ratio.
   */
  function CeilingRatio(numerator: nat, denominator: nat, scale: nat): (result: nat)
    requires denominator > 0 && scale > 0
    ensures numerator * scale <= result * denominator < numerator * scale + denominator
  {
    var quotient, remainder := numerator / denominator, numerator % denominator;
    var part := if remainder == 0 then 0 else (remainder * scale - 1) / denominator + 1;
    RatioIsCeiling(numerator, denominator, scale, quotient, remainder, part);
    quotient * scale + part
  }

  lemma RatioIsCeiling(n: nat, d: nat, scale: nat, q: nat, r: nat, part: nat)
    requires d > 0 && scale > 0 && n == q * d + r && r < d
    requires part == if r == 0 then 0 else (r * scale - 1) / d + 1
    ensures n * scale <= (q * scale + part) * d < n * scale + d
  {
    assert r * scale <= part * d < r * scale + d;
    assert n * scale == q * d * scale + r * scale;
    assert (q * scale + part) * d == q * scale * d + part * d;
    assert q * d * scale == q * scale * d;
  }

  /** A request that fits uses between one and ten thousand basis points. */
  lemma FittingRatioIsInRange(numerator: nat, denominator: nat)
    requires 0 < numerator <= denominator
    ensures 1 <= CeilingRatio(numerator, denominator, 10_000) <= 10_000
  {
    var result := CeilingRatio(numerator, denominator, 10_000);
    assert result != 0 by {
      assert 0 < numerator * 10_000 <= result * denominator;
    }
    ProductGrows(numerator, denominator, 10_000);
    NoJump(result, 10_000, denominator);
  }

  // ---- Ranking ----

  predicate FitsOn(c: Candidate, req: SelectionRequest) {
    c.cpu >= req.cpu && c.memory >= req.memory && c.active && !c.maintenance
  }

  predicate ValidRequest(req: SelectionRequest, now: Time) {
    req.cpu > 0 && req.memory > 0 && now > 0
  }

  function WeightedLoad(projected: nat, weight: nat): nat
    requires weight > 0
  {
    projected * 1000 / weight
  }

  function Rated(c: Candidate, req: SelectionRequest): (s: Scored)
    requires c.weight > 0 && FitsOn(c, req) && req.cpu > 0 && req.memory > 0
    ensures s.id == c.id && 1 <= s.projected <= 10_000
  {
    FittingRatioIsInRange(req.cpu, c.cpu);
    FittingRatioIsInRange(req.memory, c.memory);
    var projected := Max(CeilingRatio(req.cpu, c.cpu, 10_000), CeilingRatio(req.memory, c.memory, 10_000));
    var cost := c.cpuCost + c.memoryCost;
    Scored(c.id, WeightedLoad(projected, c.weight) + c.queued * 100 + cost, projected, c.queued, cost)
  }

  /** More room on a cluster never raises the share a request takes of it. */
  lemma RatioShrinks(numerator: nat, less: nat, more: nat)
    requires 0 < less <= more
    ensures CeilingRatio(numerator, more, 10_000) <= CeilingRatio(numerator, less, 10_000)
  {
    var (a, b) := (CeilingRatio(numerator, more, 10_000), CeilingRatio(numerator, less, 10_000));
    ProductGrows(less, more, b);
    assert less * b == b * less && more * b == b * more;
    NoJump(a, b, more);
  }

  /** The cluster has at least the room and the weight, and at most the queue and the prices. */
  predicate Dominates(c: Candidate, d: Candidate) {
    && c.cpu >= d.cpu && c.memory >= d.memory && c.weight >= d.weight && c.queued <= d.queued
    && c.cpuCost <= d.cpuCost && c.memoryCost <= d.memoryCost
  }

  /** A cluster that is at least as good in every respect never scores worse. */
  lemma DominantScoresNoWorse(c: Candidate, d: Candidate, req: SelectionRequest)
    requires c.weight > 0 && d.weight > 0 && req.cpu > 0 && req.memory > 0
    requires FitsOn(c, req) && FitsOn(d, req) && Dominates(c, d)
    ensures Rated(c, req).score <= Rated(d, req).score && Rated(c, req).projected <= Rated(d, req).projected
  {
    RatioShrinks(req.cpu, d.cpu, c.cpu);
    RatioShrinks(req.memory, d.memory, c.memory);
    QuotientGrows(Rated(c, req).projected * 1000, Rated(d, req).projected * 1000, c.weight);
    QuotientShrinks(Rated(d, req).projected * 1000, d.weight, c.weight);
  }

  /** The comparison the ranking sorts by. */
  predicate Better(a: Scored, b: Scored) {
    if a.score != b.score then a.score < b.score
    else if a.projected != b.projected then a.projected < b.projected
    else if a.queued != b.queued then a.queued < b.queued
    else if a.cost != b.cost then a.cost < b.cost
    else StringLess(a.id, b.id)
  }

  lemma BetterIsTotal(a: Scored, b: Scored)
    ensures Better(a, b) || Better(b, a) || a == b
    ensures !(Better(a, b) && Better(b, a))
  {
    StringTotal(a.id, b.id);
  }

  lemma BetterIsTransitive(a: Scored, b: Scored, c: Scored)
    requires Better(a, b) && Better(b, c)
    ensures Better(a, c)
  {
    if StringLess(a.id, b.id) && StringLess(b.id, c.id) {
      StringTransitive(a.id, b.id, c.id);
    }
  }

  /**
   The score, written out: p basis points is the least utilisation that covers both the CPU and the memory asked for;
   the score is a thousand times that over the weight, plus a hundred per queued workload, plus both prices.
   */
  lemma ScoreIs(c: Candidate, req: SelectionRequest, p: nat)
    requires c.weight > 0 && FitsOn(c, req) && req.cpu > 0 && req.memory > 0
    requires p * c.cpu >= 10_000 * req.cpu && p * c.memory >= 10_000 * req.memory && p > 0
    requires (p - 1) * c.cpu < 10_000 * req.cpu || (p - 1) * c.memory < 10_000 * req.memory
    ensures var s := Rated(c, req);
            && s.projected == p && s.queued == c.queued && s.cost == c.cpuCost + c.memoryCost
            && s.score == p * 1000 / c.weight + 100 * c.queued + c.cpuCost + c.memoryCost
  {
    LeastCover(req.cpu, c.cpu, p);
    LeastCover(req.memory, c.memory, p);
  }

  lemma LeastCover(n: nat, d: nat, p: nat)
    requires d > 0 && p > 0 && p * d >= 10_000 * n
    ensures CeilingRatio(n, d, 10_000) <= p
    ensures (p - 1) * d < 10_000 * n ==> CeilingRatio(n, d, 10_000) == p
  {
    var r := CeilingRatio(n, d, 10_000);
    NoJump(r, p, d);
    if (p - 1) * d < 10_000 * n {
      assert (p - 1) * d == p * d - d;
      NoJump(p, r, d);
    }
  }

  /** The best candidate, written out: least score, then least utilisation, shortest queue, lowest price, first name. */
  lemma BestIsLeast(candidates: seq<Candidate>, req: SelectionRequest, s: Scored, c: Candidate)
    requires Weighted(candidates) && req.cpu > 0 && req.memory > 0 && IsBest(candidates, req, s)
    requires c in candidates && FitsOn(c, req)
    ensures var t := Rated(c, req);
            && s.score <= t.score
            && (s.score == t.score ==> s.projected <= t.projected)
            && (s.score == t.score && s.projected == t.projected ==> s.queued <= t.queued)
            && (s.score == t.score && s.projected == t.projected && s.queued == t.queued ==> s.cost <= t.cost)
            && (s.score == t.score && s.projected == t.projected && s.queued == t.queued && s.cost == t.cost ==>
                  !StringLess(t.id, s.id))
  {
  }

  predicate Weighted(candidates: seq<Candidate>) {
    forall c :: c in candidates ==> c.weight > 0
  }

  /** s is the rating of some candidate that fits, and no candidate that fits is rated better. */
  predicate IsBest(candidates: seq<Candidate>, req: SelectionRequest, s: Scored)
    requires Weighted(candidates) && req.cpu > 0 && req.memory > 0
  {
    && (exists c :: c in candidates && FitsOn(c, req) && Rated(c, req) == s)
    && (forall c :: c in candidates && FitsOn(c, req) ==> !Better(Rated(c, req), s))
  }

  predicate SomeFits(candidates: seq<Candidate>, req: SelectionRequest) {
    exists c :: c in candidates && FitsOn(c, req)
  }

  /** Dropping candidates other than the winner never changes the choice; nor does reordering or repeating them. */
  lemma ChoiceIsStable(all: seq<Candidate>, some: seq<Candidate>, req: SelectionRequest, s: Scored, t: Scored)
    requires Weighted(all) && Weighted(some) && req.cpu > 0 && req.memory > 0
    requires forall c :: c in some ==> c in all
    requires forall c :: c in all && FitsOn(c, req) && Rated(c, req) == s ==> c in some
    requires IsBest(all, req, s) && IsBest(some, req, t)
    ensures s == t
  {
    BetterIsTotal(s, t);
  }

  /** What a ranking of these candidates answers. */
  predicate Answers(candidates: seq<Candidate>, req: SelectionRequest, now: Time, strategy: Strategy, reason: Reason,
                    fallback: bool, r: Result<SelectionDecision, SelectionError>)
    requires Weighted(candidates)
  {
    if !ValidRequest(req, now) then r == Err(InvalidRequest)
    else if !SomeFits(candidates, req) then r == Err(NoCapacity)
    else
      && r.Ok? && IsBest(candidates, req, r.value.chosen)
      && r.value == SelectionDecision(r.value.chosen, strategy, reason, fallback, now)
  }

  /** The scan that ranks the candidates, and the head of the sorted ranking. */
  method RankCandidates(candidates: seq<Candidate>, req: SelectionRequest, now: Time, strategy: Strategy,
      fallback: bool)
    returns (r: Result<SelectionDecision, SelectionError>)
    requires Weighted(candidates)
    ensures Answers(candidates, req, now, strategy, LowestScore, fallback, r)
  {
    if !ValidRequest(req, now) {
      return Err(InvalidRequest);
    }
    var ranked: seq<Scored> := [];
    for i := 0 to |candidates|
      invariant forall s :: s in ranked ==>
        exists c :: c in candidates[..i] && FitsOn(c, req) && Rated(c, req) == s
      invariant forall c :: c in candidates[..i] && FitsOn(c, req) ==> Rated(c, req) in ranked
    {
      var candidate := candidates[i];
      assert candidates[..i + 1] == candidates[..i] + [candidate];
      if FitsOn(candidate, req) {
        ranked := ranked + [Rated(candidate, req)];
      }
    }
    assert candidates[..|candidates|] == candidates;
    if |ranked| == 0 {
      return Err(NoCapacity);
    }
    var selected := First(ranked);
    return Ok(SelectionDecision(selected, strategy, LowestScore, fallback, now));
  }

  /** The head of the ranking once sorted. */
  method First(ranked: seq<Scored>) returns (best: Scored)
    requires |ranked| > 0
    ensures best in ranked && forall s :: s in ranked ==> !Better(s, best)
  {
    best := ranked[0];
    BetterIsTotal(best, best);
    for i := 1 to |ranked|
      invariant best in ranked && forall k :: 0 <= k < i ==> !Better(ranked[k], best)
    {
      var was := best;
      if Better(ranked[i], best) {
        best := ranked[i];
      }
      forall k | 0 <= k <= i
        ensures !Better(ranked[k], best)
      {
        BetterIsTotal(ranked[k], best);
        BetterIsTotal(ranked[k], was);
        if best != was && ranked[k] != was && Better(was, ranked[k]) {
          BetterIsTransitive(best, was, ranked[k]);
        }
      }
    }
  }

  predicate InRegion(c: Candidate, req: SelectionRequest) {
    c.region == req.preferredRegion
  }

  /** The candidates of the preferred region, in order. */
  function RegionalOf(candidates: seq<Candidate>, req: SelectionRequest): (regional: seq<Candidate>)
    ensures forall c :: c in regional <==> c in candidates && c.region == req.preferredRegion
  {
    if |candidates| == 0 then []
    else
      var last := candidates[|candidates| - 1];
      var rest := RegionalOf(candidates[..|candidates| - 1], req);
      if InRegion(last, req) then rest + [last] else rest
  }

  method Regional(candidates: seq<Candidate>, req: SelectionRequest) returns (regional: seq<Candidate>)
    ensures regional == RegionalOf(candidates, req)
  {
    regional := [];
    for i := 0 to |candidates|
      invariant regional == RegionalOf(candidates[..i], req)
    {
      assert candidates[..i + 1][..i] == candidates[..i];
      if InRegion(candidates[i], req) {
        regional := regional + [candidates[i]];
      }
    }
    assert candidates[..|candidates|] == candidates;
  }

  /** Whether the preferred region decides: one is preferred and some cluster of it fits. */
  predicate RegionDecides(candidates: seq<Candidate>, req: SelectionRequest) {
    req.preferredRegion != "" && SomeFits(RegionalOf(candidates, req), req)
  }

  /** What a ranking that prefers a region answers. */
  predicate AffinityAnswers(candidates: seq<Candidate>, req: SelectionRequest, now: Time,
                            r: Result<SelectionDecision, SelectionError>)
    requires Weighted(candidates)
  {
    if RegionDecides(candidates, req)
    then Answers(RegionalOf(candidates, req), req, now, RegionAffinity, InPreferredRegion, false, r)
    else if req.preferredRegion != "" then Answers(candidates, req, now, RegionAffinity, RegionFallback, true, r)
    else Answers(candidates, req, now, RegionAffinity, LowestScore, false, r)
  }

  /**
   Region affinity: the best in-region cluster whenever an in-region cluster fits; otherwise the best of all,
   marked as a fallback exactly when a region was preferred.
   */
  method SelectWithAffinity(candidates: seq<Candidate>, req: SelectionRequest, now: Time)
    returns (r: Result<SelectionDecision, SelectionError>)
    requires Weighted(candidates)
    ensures AffinityAnswers(candidates, req, now, r)
  {
    if req.preferredRegion != "" {
      var regional := Regional(candidates, req);
      var decision := RankCandidates(regional, req, now, RegionAffinity, false);
      if decision.Ok? {
        return Ok(decision.value.(reason := InPreferredRegion));
      }
    }
    r := RankCandidates(candidates, req, now, RegionAffinity, req.preferredRegion != "");
    if r.Ok? && r.value.usedRegionFallback {
      r := Ok(r.value.(reason := RegionFallback));
    }
  }
}
