/** The ordered scheduling-policy rules. */
module Eligibility {
  import opened Common

  datatype SchedulingRequest = SchedulingRequest(runtime: string, profile: string, createdBy: string, cpu: nat,
      memory: nat)

  datatype SchedulingPolicy = SchedulingPolicy(
    maxRuns: nat, maxUserRuns: nat, maxQueued: nat, maxCpu: nat, maxMemory: nat, dailyBudget: nat,
    runtimes: seq<string>, profiles: seq<string>, deferral: nat)

  datatype SchedulingUsage = SchedulingUsage(
    tenantRuns: int, userRuns: int, queuedRuns: int, cpu: int, memory: int, budget: int)

  datatype EligibilityInput = EligibilityInput(
    tenantActive: bool, projectActive: bool, request: SchedulingRequest,
    policy: Option<SchedulingPolicy>, usage: SchedulingUsage, now: Time)

  datatype Code =
    | PolicyMissing | TenantSuspended | ProjectSuspended | UnsupportedRuntime | UnsupportedProfile
    | TenantConcurrency | UserConcurrency | QueuedRuns | CpuLimit | MemoryLimit | DailyBudget

  datatype Decision = Eligible | Defer(code: Code, nextEligible: Time) | Reject(code: Code)

  datatype Invalid = InvalidRequest | InvalidPolicy | InvalidUsage

  predicate LowerAlnum(c: char) {
    'a' <= c <= 'z' || '0' <= c <= '9'
  }

  /** schedulerPolicyValuePattern: a lower-case alphanumeric, then at most 119 of [a-z0-9._-]. */
  predicate ValidPolicyValue(v: string) {
    && 1 <= |v| <= 120
    && LowerAlnum(v[0])
    && forall i :: 1 <= i < |v| ==> LowerAlnum(v[i]) || v[i] in "._-"
  }

  /** validPolicyValues fills a map of the values seen so far. */
  method ValidPolicyValues(values: seq<string>) returns (ok: bool)
    ensures ok <==> ValuesOk(values)
  {
    var seen: set<string> := {};
    for i := 0 to |values|
      invariant seen == set j | 0 <= j < i :: values[j]
      invariant ValuesOk(values[..i])
    {
      if !ValidPolicyValue(values[i]) || values[i] in seen {
        return false;
      }
      seen := seen + {values[i]};
    }
    assert values[..|values|] == values;
    return true;
  }

  /** Every value is normalized and no two positions hold the same value. */
  predicate ValuesOk(values: seq<string>) {
    && (forall i :: 0 <= i < |values| ==> ValidPolicyValue(values[i]))
    && (forall i, j :: 0 <= i < j < |values| ==> values[i] != values[j])
  }

  predicate ValidPolicy(p: SchedulingPolicy) {
    && p.maxRuns >= 1 && 1 <= p.maxUserRuns <= p.maxRuns && p.maxQueued >= 1
    && p.maxCpu >= 1 && p.maxMemory >= 1 && |p.runtimes| > 0 && |p.profiles| > 0 && p.deferral > 0
    && ValuesOk(p.runtimes) && ValuesOk(p.profiles)
  }

  function StatusRule(i: EligibilityInput): Option<Decision> {
    if !i.tenantActive then Some(Reject(TenantSuspended))
    else if !i.projectActive then Some(Reject(ProjectSuspended))
    else None
  }

  function RuntimeProfileRule(i: EligibilityInput, p: SchedulingPolicy): Option<Decision> {
    if i.request.runtime !in p.runtimes then Some(Reject(UnsupportedRuntime))
    else if i.request.profile !in p.profiles then Some(Reject(UnsupportedProfile))
    else None
  }

  function ConcurrencyRule(i: EligibilityInput, p: SchedulingPolicy): Option<Decision> {
    if i.usage.tenantRuns >= p.maxRuns then Some(Defer(TenantConcurrency, i.now + p.deferral))
    else if i.usage.userRuns >= p.maxUserRuns then Some(Defer(UserConcurrency, i.now + p.deferral))
    else None
  }

  function QueueRule(i: EligibilityInput, p: SchedulingPolicy): Option<Decision> {
    if i.usage.queuedRuns > p.maxQueued then Some(Defer(QueuedRuns, i.now + p.deferral)) else None
  }

  function ResourceQuotaRule(i: EligibilityInput, p: SchedulingPolicy): Option<Decision> {
    if i.usage.cpu + i.request.cpu > p.maxCpu then Some(Defer(CpuLimit, i.now + p.deferral))
    else if i.usage.memory + i.request.memory > p.maxMemory then Some(Defer(MemoryLimit, i.now + p.deferral))
    else None
  }

  function BudgetRule(i: EligibilityInput, p: SchedulingPolicy): Option<Decision> {
    if i.usage.budget >= p.dailyBudget then Some(Defer(DailyBudget, i.now + p.deferral)) else None
  }

  /** eligibilityRules, in the order they are applied. */
  function Rules(i: EligibilityInput, p: SchedulingPolicy): seq<Option<Decision>> {
    [StatusRule(i), RuntimeProfileRule(i, p), ConcurrencyRule(i, p), QueueRule(i, p),
     ResourceQuotaRule(i, p), BudgetRule(i, p)]
  }

  function FirstBlocking(rules: seq<Option<Decision>>): Decision {
    if |rules| == 0 then Eligible
    else if rules[0].Some? then rules[0].value
    else FirstBlocking(rules[1..])
  }

  function Evaluate(i: EligibilityInput): Result<Decision, Invalid> {
    if i.now == 0 || i.request.runtime == "" || i.request.profile == "" || i.request.createdBy == "" ||
       i.request.cpu < 1 || i.request.memory < 1 then Err(InvalidRequest)
    else if i.policy.None? then Ok(Defer(PolicyMissing, i.now + 30 * SECOND))
    else if !ValidPolicy(i.policy.value) then Err(InvalidPolicy)
    else if i.usage.tenantRuns < 0 || i.usage.userRuns < 0 || i.usage.queuedRuns < 0 || i.usage.cpu < 0 ||
            i.usage.memory < 0 || i.usage.budget < 0 then Err(InvalidUsage)
    else Ok(FirstBlocking(Rules(i, i.policy.value)))
  }

  /** Every limit the policy names has room for the request, and nothing else blocks it. */
  predicate WithinPolicy(i: EligibilityInput, p: SchedulingPolicy) {
    && i.tenantActive && i.projectActive
    && i.request.runtime in p.runtimes && i.request.profile in p.profiles
    && 0 <= i.usage.tenantRuns < p.maxRuns
    && 0 <= i.usage.userRuns < p.maxUserRuns
    && 0 <= i.usage.queuedRuns <= p.maxQueued
    && 0 <= i.usage.cpu && i.usage.cpu + i.request.cpu <= p.maxCpu
    && 0 <= i.usage.memory && i.usage.memory + i.request.memory <= p.maxMemory
    && 0 <= i.usage.budget < p.dailyBudget
  }

  /** A run is admitted exactly when a valid policy exists and every limit leaves room. */
  lemma EligibleIff(i: EligibilityInput)
    ensures Evaluate(i) == Ok(Eligible) <==>
            && i.now > 0 && i.request.runtime != "" && i.request.profile != "" && i.request.createdBy != ""
            && i.request.cpu >= 1 && i.request.memory >= 1
            && i.policy.Some? && ValidPolicy(i.policy.value) && WithinPolicy(i, i.policy.value)
  {
    if i.policy.Some? {
      var rules := Rules(i, i.policy.value);
      FirstBlockingIsFirst(rules);
      assert rules[0] == StatusRule(i);
      assert rules[1] == RuntimeProfileRule(i, i.policy.value);
      assert rules[2] == ConcurrencyRule(i, i.policy.value);
      assert rules[3] == QueueRule(i, i.policy.value);
      assert rules[4] == ResourceQuotaRule(i, i.policy.value);
      assert rules[5] == BudgetRule(i, i.policy.value);
      assert forall k :: 0 <= k < |rules| ==> rules[k] != Some(Eligible);
    }
  }

  /** The explained decision is the first rule that blocks, and Eligible only when none does. */
  lemma {:induction false} FirstBlockingIsFirst(rules: seq<Option<Decision>>)
    ensures (forall k :: 0 <= k < |rules| ==> rules[k].None?) ==> FirstBlocking(rules) == Eligible
    ensures forall k :: 0 <= k < |rules| && rules[k].Some? && (forall j :: 0 <= j < k ==> rules[j].None?) ==>
              FirstBlocking(rules) == rules[k].value
    ensures (exists k :: 0 <= k < |rules| && rules[k].Some?) ==>
              exists k :: 0 <= k < |rules| && rules[k] == Some(FirstBlocking(rules))
  {
    if |rules| > 0 && rules[0].None? {
      FirstBlockingIsFirst(rules[1..]);
      forall k | 0 <= k < |rules| && rules[k].Some? && (forall j :: 0 <= j < k ==> rules[j].None?)
        ensures FirstBlocking(rules) == rules[k].value
      {
        assert rules[1..][k - 1] == rules[k];
      }
      if k :| 0 <= k < |rules| && rules[k].Some? {
        assert rules[1..][k - 1].Some?;
      }
    }
  }

  // ---- The decision, written out ----

  /** The order in which reasons are looked for; the first four reject, the others defer. */
  const ORDER: seq<Code> :=
    [TenantSuspended, ProjectSuspended, UnsupportedRuntime, UnsupportedProfile, TenantConcurrency, UserConcurrency,
     QueuedRuns, CpuLimit, MemoryLimit, DailyBudget]

  /** When a reason applies. */
  predicate Applies(i: EligibilityInput, p: SchedulingPolicy, code: Code) {
    match code
    case TenantSuspended => !i.tenantActive
    case ProjectSuspended => !i.projectActive
    case UnsupportedRuntime => i.request.runtime !in p.runtimes
    case UnsupportedProfile => i.request.profile !in p.profiles
    case TenantConcurrency => i.usage.tenantRuns >= p.maxRuns
    case UserConcurrency => i.usage.userRuns >= p.maxUserRuns
    case QueuedRuns => i.usage.queuedRuns > p.maxQueued
    case CpuLimit => i.usage.cpu + i.request.cpu > p.maxCpu
    case MemoryLimit => i.usage.memory + i.request.memory > p.maxMemory
    case DailyBudget => i.usage.budget >= p.dailyBudget
    case PolicyMissing => false
  }

  predicate CompleteRequest(i: EligibilityInput) {
    && i.now > 0 && i.request.runtime != "" && i.request.profile != "" && i.request.createdBy != ""
    && i.request.cpu >= 1 && i.request.memory >= 1
  }

  predicate NotNegative(u: SchedulingUsage) {
    && 0 <= u.tenantRuns && 0 <= u.userRuns && 0 <= u.queuedRuns && 0 <= u.cpu && 0 <= u.memory && 0 <= u.budget
  }

  /** Every limit has its range, every list entry its form, and no entry occurs twice. */
  predicate WellFormed(p: SchedulingPolicy) {
    && 1 <= p.maxUserRuns <= p.maxRuns && p.maxQueued >= 1 && p.maxCpu >= 1 && p.maxMemory >= 1 && p.deferral > 0
    && p.runtimes != [] && p.profiles != []
    && (forall v :: v in p.runtimes ==> HasForm(v)) && (forall v :: v in p.profiles ==> HasForm(v))
    && (forall j, k :: 0 <= j < k < |p.runtimes| ==> p.runtimes[j] != p.runtimes[k])
    && (forall j, k :: 0 <= j < k < |p.profiles| ==> p.profiles[j] != p.profiles[k])
  }

  /** Up to 120 lower-case letters, digits, dots, underscores and dashes, of which the first is a letter or digit. */
  predicate HasForm(v: string) {
    && 1 <= |v| <= 120 && v[0] !in "._-"
    && forall k :: 0 <= k < |v| ==> 'a' <= v[k] <= 'z' || '0' <= v[k] <= '9' || v[k] in "._-"
  }

  lemma ValidIffWellFormed(p: SchedulingPolicy)
    ensures ValidPolicy(p) <==> WellFormed(p)
  {
    forall v: string
      ensures ValidPolicyValue(v) <==> HasForm(v)
    {
    }
    assert forall v :: v in p.runtimes ==> exists j :: 0 <= j < |p.runtimes| && p.runtimes[j] == v;
    assert forall v :: v in p.profiles ==> exists j :: 0 <= j < |p.profiles| && p.profiles[j] == v;
  }

  predicate IsFirstReason(i: EligibilityInput, p: SchedulingPolicy, k: nat)
    requires k < |ORDER|
  {
    Applies(i, p, ORDER[k]) && forall j :: 0 <= j < k ==> !Applies(i, p, ORDER[j])
  }

  lemma FirstOfSix(a: Option<Decision>, b: Option<Decision>, c: Option<Decision>, d: Option<Decision>,
                   e: Option<Decision>, f: Option<Decision>)
    ensures FirstBlocking([a, b, c, d, e, f]) ==
            if a.Some? then a.value else if b.Some? then b.value else if c.Some? then c.value
            else if d.Some? then d.value else if e.Some? then e.value else if f.Some? then f.value else Eligible
  {
    assert [a, b, c, d, e, f][1..] == [b, c, d, e, f] && [b, c, d, e, f][1..] == [c, d, e, f];
    assert [c, d, e, f][1..] == [d, e, f] && [d, e, f][1..] == [e, f] && [e, f][1..] == [f] && [f][1..] == [];
    assert FirstBlocking([f]) == if f.Some? then f.value else FirstBlocking([]);
    assert FirstBlocking([e, f]) == if e.Some? then e.value else FirstBlocking([f]);
    assert FirstBlocking([d, e, f]) == if d.Some? then d.value else FirstBlocking([e, f]);
    assert FirstBlocking([c, d, e, f]) == if c.Some? then c.value else FirstBlocking([d, e, f]);
    assert FirstBlocking([b, c, d, e, f]) == if b.Some? then b.value else FirstBlocking([c, d, e, f]);
  }

  lemma RulesAreReasons(i: EligibilityInput, p: SchedulingPolicy, k: nat)
    requires k < |ORDER| && IsFirstReason(i, p, k)
    ensures FirstBlocking(Rules(i, p)) == if k < 4 then Reject(ORDER[k]) else Defer(ORDER[k], i.now + p.deferral)
  {
    FirstOfSix(StatusRule(i), RuntimeProfileRule(i, p), ConcurrencyRule(i, p), QueueRule(i, p),
               ResourceQuotaRule(i, p), BudgetRule(i, p));
    assert forall j :: 0 <= j < k ==> !Applies(i, p, ORDER[j]);
    assert k > 0 ==> !Applies(i, p, ORDER[0]) && ORDER[0] == TenantSuspended;
    assert k > 1 ==> !Applies(i, p, ORDER[1]) && ORDER[1] == ProjectSuspended;
    assert k > 2 ==> !Applies(i, p, ORDER[2]) && ORDER[2] == UnsupportedRuntime;
    assert k > 3 ==> !Applies(i, p, ORDER[3]) && ORDER[3] == UnsupportedProfile;
    assert k > 4 ==> !Applies(i, p, ORDER[4]) && ORDER[4] == TenantConcurrency;
    assert k > 5 ==> !Applies(i, p, ORDER[5]) && ORDER[5] == UserConcurrency;
    assert k > 6 ==> !Applies(i, p, ORDER[6]) && ORDER[6] == QueuedRuns;
    assert k > 7 ==> !Applies(i, p, ORDER[7]) && ORDER[7] == CpuLimit;
    assert k > 8 ==> !Applies(i, p, ORDER[8]) && ORDER[8] == MemoryLimit;
  }

  /**
   The whole decision from the input's fields. A complete request of a tenant without a policy waits thirty seconds;
   otherwise the first reason that applies, in ORDER, decides: the four about status and support reject for good, the
   six about limits defer by the policy's deferral; with no reason the run is eligible.
   */
  lemma DecisionIsFirstReason(i: EligibilityInput)
    requires CompleteRequest(i)
    ensures i.policy.None? ==> Evaluate(i) == Ok(Defer(PolicyMissing, i.now + 30 * SECOND))
    ensures i.policy.Some? && WellFormed(i.policy.value) && NotNegative(i.usage) ==>
              var p := i.policy.value;
              && (forall k :: 0 <= k < |ORDER| && IsFirstReason(i, p, k) ==>
                    Evaluate(i) == Ok(if k < 4 then Reject(ORDER[k]) else Defer(ORDER[k], i.now + p.deferral)))
              && ((forall k :: 0 <= k < |ORDER| ==> !Applies(i, p, ORDER[k])) ==> Evaluate(i) == Ok(Eligible))
  {
    if i.policy.Some? && WellFormed(i.policy.value) && NotNegative(i.usage) {
      var p := i.policy.value;
      ValidIffWellFormed(p);
      forall k | 0 <= k < |ORDER| && IsFirstReason(i, p, k)
        ensures Evaluate(i) == Ok(if k < 4 then Reject(ORDER[k]) else Defer(ORDER[k], i.now + p.deferral))
      {
        RulesAreReasons(i, p, k);
      }
      if forall k :: 0 <= k < |ORDER| ==> !Applies(i, p, ORDER[k]) {
        NoReasonIsEligible(i, p);
      }
    }
  }

  lemma NoReasonIsEligible(i: EligibilityInput, p: SchedulingPolicy)
    requires forall k :: 0 <= k < |ORDER| ==> !Applies(i, p, ORDER[k])
    ensures FirstBlocking(Rules(i, p)) == Eligible
  {
    FirstOfSix(StatusRule(i), RuntimeProfileRule(i, p), ConcurrencyRule(i, p), QueueRule(i, p),
               ResourceQuotaRule(i, p), BudgetRule(i, p));
    assert ORDER[0] == TenantSuspended && ORDER[1] == ProjectSuspended && ORDER[2] == UnsupportedRuntime;
    assert ORDER[3] == UnsupportedProfile && ORDER[4] == TenantConcurrency && ORDER[5] == UserConcurrency;
    assert ORDER[6] == QueuedRuns && ORDER[7] == CpuLimit && ORDER[8] == MemoryLimit && ORDER[9] == DailyBudget;
  }

  /** Eligible exactly on a complete request under a well-formed policy with no reason against it. */
  lemma EligibleIffNoReason(i: EligibilityInput)
    ensures Evaluate(i) == Ok(Eligible) <==>
            && CompleteRequest(i) && i.policy.Some? && WellFormed(i.policy.value) && NotNegative(i.usage)
            && forall k :: 0 <= k < |ORDER| ==> !Applies(i, i.policy.value, ORDER[k])
  {
    UndecidedIff(i);
    if CompleteRequest(i) && i.policy.Some? && WellFormed(i.policy.value) && NotNegative(i.usage) {
      DecisionIsFirstReason(i);
      if exists k :: 0 <= k < |ORDER| && Applies(i, i.policy.value, ORDER[k]) {
        var k := FirstReason(i, i.policy.value);
      }
    }
  }

  lemma FirstReason(i: EligibilityInput, p: SchedulingPolicy) returns (k: nat)
    requires exists j :: 0 <= j < |ORDER| && Applies(i, p, ORDER[j])
    ensures k < |ORDER| && IsFirstReason(i, p, k)
  {
    k := 0;
    while !Applies(i, p, ORDER[k])
      invariant k < |ORDER| && forall j :: 0 <= j < k ==> !Applies(i, p, ORDER[j])
      decreases |ORDER| - k
    {
      k := k + 1;
    }
  }

  /** No decision at all is made exactly on an incomplete request, a malformed policy, or a negative usage. */
  lemma UndecidedIff(i: EligibilityInput)
    ensures Evaluate(i) == Err(InvalidRequest) <==> !CompleteRequest(i)
    ensures Evaluate(i) == Err(InvalidPolicy) <==>
              CompleteRequest(i) && i.policy.Some? && !WellFormed(i.policy.value)
    ensures Evaluate(i) == Err(InvalidUsage) <==>
              CompleteRequest(i) && i.policy.Some? && WellFormed(i.policy.value) && !NotNegative(i.usage)
  {
    if i.policy.Some? {
      ValidIffWellFormed(i.policy.value);
    }
  }
}
