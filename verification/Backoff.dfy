/** The delay before the next attempt: capped doubling and a stable jitter. */
module Backoff {
  import opened Common
  import opened Arithmetic

  const INT64_MAX: int := 9223372036854775807

  function Pow2(n: nat): (p: nat)
    ensures p >= 1
  {
    if n == 0 then 1 else 2 * Pow2(n - 1)
  }

  function Capped(initial: nat, maximum: nat, exponent: nat): nat {
    if initial * Pow2(exponent) < maximum then initial * Pow2(exponent) else maximum
  }

  /** Once the cap is passed, doubling further changes nothing. */
  lemma CapStays(base: nat, maximum: nat, exponent: nat)
    requires base >= maximum
    ensures Capped(base, maximum, exponent) == maximum
  {
    ProductGrows(1, Pow2(exponent), base);
    assert Pow2(exponent) * base == base * Pow2(exponent);
  }

  lemma DoublingStep(base: nat, maximum: nat, exponent: nat)
    requires exponent > 0
    ensures Capped(2 * base, maximum, exponent - 1) == Capped(base, maximum, exponent)
  {
    assert base * Pow2(exponent) == 2 * base * Pow2(exponent - 1);
  }

  /** The doubling loop, which never forms a value above the maximum once it starts at or below it. */
  method BackoffBase(initial: nat, maximum: nat, doublings: nat) returns (base: nat)
    ensures base == Capped(initial, maximum, doublings)
  {
    base := initial;
    var exponent := doublings;
    while exponent > 0 && base < maximum
      invariant Capped(base, maximum, exponent) == Capped(initial, maximum, doublings)
      invariant base <= maximum || base == initial
    {
      if base > maximum / 2 {
        DoublingStep(base, maximum, exponent);
        CapStays(2 * base, maximum, exponent - 1);
        base := maximum;
        CapStays(base, maximum, exponent);
        break;
      }
      DoublingStep(base, maximum, exponent);
      base := base * 2;
      exponent := exponent - 1;
    }
    if base >= maximum {
      CapStays(base, maximum, exponent);
      base := maximum;
    }
  }

  function Permille(hash: nat): (p: nat)
    ensures 500 <= p <= 1000
  {
    500 + hash % 501
  }

  function Delay(initialSeconds: nat, maxSeconds: nat, doublings: nat, hash: nat): nat {
    Capped(initialSeconds * SECOND, maxSeconds * SECOND, doublings) * Permille(hash) / 1000
  }

  lemma {:induction false} CappedIsWholeSeconds(initial: nat, maximum: nat, exponent: nat)
    ensures Capped(initial * SECOND, maximum * SECOND, exponent) == Capped(initial, maximum, exponent) * SECOND
  {
    assert initial * SECOND * Pow2(exponent) == initial * Pow2(exponent) * SECOND;
  }

  /**
   The jittered delay lies between half of the capped doubling and all of it, exactly: whole seconds are
   divisible by a thousand. Under the bounds the resource definition sets, no product leaves int64.
   */
  lemma DelayIsBounded(initialSeconds: nat, maxSeconds: nat, doublings: nat, hash: nat)
    requires 1 <= initialSeconds <= 3600 && initialSeconds <= maxSeconds <= 21600
    ensures var base := Capped(initialSeconds * SECOND, maxSeconds * SECOND, doublings);
            var delay := Delay(initialSeconds, maxSeconds, doublings, hash);
            && base <= 2 * delay && delay <= base <= maxSeconds * SECOND
            && base * Permille(hash) <= INT64_MAX && 2 * base <= INT64_MAX
  {
    var seconds := Capped(initialSeconds, maxSeconds, doublings);
    CappedIsWholeSeconds(initialSeconds, maxSeconds, doublings);
    WholeSecondsSplit(seconds, Permille(hash));
  }

  lemma WholeSecondsSplit(seconds: nat, p: nat)
    requires seconds <= 21600 && 500 <= p <= 1000
    ensures seconds * SECOND * p / 1000 == seconds * p * 1_000_000
    ensures seconds * SECOND <= 2 * (seconds * p * 1_000_000) && seconds * p * 1_000_000 <= seconds * SECOND
    ensures seconds * SECOND * p <= INT64_MAX && seconds * SECOND <= 21600 * SECOND
  {
    var product := seconds * p;
    ProductGrows(500, p, seconds);
    ProductGrows(p, 1000, seconds);
    assert p * seconds == product;
    assert seconds * SECOND * p == product * SECOND;
    assert product * SECOND == product * 1_000_000 * 1000;
  }
}
