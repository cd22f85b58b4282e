/** Values every part of the model shares. */
module Common {
  datatype Option<+T> = None | Some(value: T)

  datatype Result<+T, +E> = Ok(value: T) | Err(error: E)

  /** Instants and durations are counted in nanoseconds, as Go's time package does; 0 is the zero time. */
  type Time = nat

  const SECOND: nat := 1_000_000_000
  const MINUTE: nat := 60 * SECOND
  const DAY: nat := 24 * 60 * MINUTE

  function Max(a: int, b: int): int {
    if a < b then b else a
  }
}

/** Products and quotients, where the solver needs a hand. */
module Arithmetic {
  lemma {:induction false} ProductGrows(x: nat, y: nat, d: nat)
    requires x <= y
    ensures x * d <= y * d
    decreases y - x
  {
    if x < y {
      ProductGrows(x + 1, y, d);
      assert (x + 1) * d == x * d + d;
    }
  }

  /** If x steps of d stay below y + 1 steps, there are at most y of them. */
  lemma NoJump(x: nat, y: nat, d: nat)
    requires x * d < y * d + d
    ensures x <= y
  {
    assert (y + 1) * d == y * d + d;
    if x > y {
      ProductGrows(y + 1, x, d);
    }
  }

  lemma QuotientShrinks(a: nat, d: nat, e: nat)
    requires 0 < d <= e
    ensures a / e <= a / d
  {
    ProductGrows(d, e, a / e);
    assert d * (a / e) == (a / e) * d && e * (a / e) == (a / e) * e;
    NoJump(a / e, a / d, d);
  }

  lemma QuotientGrows(a: nat, b: nat, d: nat)
    requires a <= b && d > 0
    ensures a / d <= b / d
  {
    NoJump(a / d, b / d, d);
  }
}

/** Sums of integer sequences: what SQL's sum(...) filter (...) computes once rows are weighed. */
module Sums {
  function Sum(ws: seq<int>): int {
    if |ws| == 0 then 0 else Sum(ws[..|ws| - 1]) + ws[|ws| - 1]
  }

  lemma SumAppend(ws: seq<int>, w: int)
    ensures Sum(ws + [w]) == Sum(ws) + w
  {
    assert (ws + [w])[..|ws|] == ws;
  }

  lemma {:induction false} SumUpdate(ws: seq<int>, i: nat, w: int)
    requires i < |ws|
    ensures Sum(ws[i := w]) == Sum(ws) - ws[i] + w
  {
    var last := |ws| - 1;
    if i == last {
      assert ws[i := w][..last] == ws[..last];
    } else {
      SumUpdate(ws[..last], i, w);
      assert ws[i := w][..last] == ws[..last][i := w];
    }
  }

  lemma {:induction false} SumMonotone(xs: seq<int>, ys: seq<int>)
    requires |xs| == |ys|
    requires forall i :: 0 <= i < |xs| ==> xs[i] <= ys[i]
    ensures Sum(xs) <= Sum(ys)
  {
    if |xs| > 0 {
      SumMonotone(xs[..|xs| - 1], ys[..|ys| - 1]);
    }
  }

  lemma {:induction false} SumZero(n: nat)
    ensures Sum(seq(n, _ => 0)) == 0
  {
    if n > 0 {
      assert seq(n, _ => 0)[..n - 1] == seq(n - 1, _ => 0);
      SumZero(n - 1);
    }
  }
}

/** strconv.Itoa and strconv.Atoi on the non-negative numbers the platform prints. */
module Decimal {
  import opened Common

  function Digit(d: nat): (c: char)
    requires d < 10
    ensures '0' <= c <= '9'
  {
    '0' + d as char
  }

  function Itoa(n: nat): (s: string)
    ensures |s| > 0 && forall i :: 0 <= i < |s| ==> '0' <= s[i] <= '9'
  {
    if n < 10 then [Digit(n)] else Itoa(n / 10) + [Digit(n % 10)]
  }

  /** None stands for Atoi's error: an empty string or a character that is not a digit. */
  function Atoi(s: string): (r: Option<nat>) {
    if |s| == 0 then None
    else
      var c := s[|s| - 1];
      if !('0' <= c <= '9') then None
      else if |s| == 1 then Some((c - '0') as nat)
      else match Atoi(s[..|s| - 1])
        case None => None
        case Some(high) => Some(10 * high + (c - '0') as nat)
  }

  lemma {:induction false} AtoiItoa(n: nat)
    ensures Atoi(Itoa(n)) == Some(n)
  {
    if n >= 10 {
      AtoiItoa(n / 10);
      assert Itoa(n)[..|Itoa(n)| - 1] == Itoa(n / 10);
    }
  }

  lemma ItoaInjective(m: nat, n: nat)
    requires Itoa(m) == Itoa(n)
    ensures m == n
  {
    AtoiItoa(m);
    AtoiItoa(n);
  }
}

/** Go's comparison of strings. */
module Strings {
  /** Go's order on strings: the first differing byte decides, and a proper prefix comes first. */
  predicate StringLess(a: string, b: string) {
    |b| > 0 && (|a| == 0 || a[0] < b[0] || (a[0] == b[0] && StringLess(a[1..], b[1..])))
  }

  lemma {:induction false} StringTotal(a: string, b: string)
    ensures StringLess(a, b) || StringLess(b, a) || a == b
    ensures !(StringLess(a, b) && StringLess(b, a))
  {
    if |a| > 0 && |b| > 0 && a[0] == b[0] {
      StringTotal(a[1..], b[1..]);
      assert a == [a[0]] + a[1..] && b == [b[0]] + b[1..];
    }
  }

  lemma {:induction false} StringTransitive(a: string, b: string, c: string)
    requires StringLess(a, b) && StringLess(b, c)
    ensures StringLess(a, c)
  {
    if |a| > 0 && a[0] == b[0] == c[0] {
      StringTransitive(a[1..], b[1..], c[1..]);
    }
  }
}
