/** Child resource names, derived from the run's identity and the attempt. */
module Naming {
  import opened Decimal

  /** The run identifier without its dashes. */
  function Compact(id: string): (s: string)
    ensures '-' !in s
  {
    if |id| == 0 then ""
    else if id[|id| - 1] == '-' then Compact(id[..|id| - 1]) else Compact(id[..|id| - 1]) + [id[|id| - 1]]
  }

  function BaseName(runId: string, attempt: nat): string {
    "ar-" + Compact(runId) + "-a" + Itoa(attempt)
  }

  function JobName(runId: string, attempt: nat): (name: string)
    ensures |name| > 0
  {
    BaseName(runId, attempt) + "-job"
  }

  function WorkspaceName(runId: string, attempt: nat): string {
    BaseName(runId, attempt) + "-workspace"
  }

  lemma SuffixesEqual(head: string, a: string, b: string, tail: string)
    requires head + a + tail == head + b + tail
    ensures a == b
  {
    var whole := head + a + tail;
    assert |a| == |b|;
    assert a == whole[|head|..|head| + |a|];
    assert b == whole[|head|..|head| + |b|];
  }

  /** Two attempts of a run never share a Job or a workspace. */
  lemma NamesTellAttemptsApart(runId: string, m: nat, n: nat)
    requires JobName(runId, m) == JobName(runId, n) || WorkspaceName(runId, m) == WorkspaceName(runId, n)
    ensures m == n
  {
    var head := "ar-" + Compact(runId) + "-a";
    if JobName(runId, m) == JobName(runId, n) {
      SuffixesEqual(head, Itoa(m), Itoa(n), "-job");
    } else {
      SuffixesEqual(head, Itoa(m), Itoa(n), "-workspace");
    }
    ItoaInjective(m, n);
  }

  // ---- Identifiers ----

  /** The 36 characters of a UUID: dashes at four places, and nowhere else. */
  predicate Canonical(id: string) {
    |id| == 36 && forall i :: 0 <= i < 36 ==> (id[i] == '-' <==> i in {8, 13, 18, 23})
  }

  lemma {:induction false} CompactConcat(a: string, b: string)
    ensures Compact(a + b) == Compact(a) + Compact(b)
  {
    if |b| == 0 {
      assert a + b == a;
    } else {
      CompactConcat(a, b[..|b| - 1]);
      assert (a + b)[..|a + b| - 1] == a + b[..|b| - 1];
    }
  }

  lemma {:induction false} CompactPlain(s: string)
    requires '-' !in s
    ensures Compact(s) == s
  {
    if |s| > 0 {
      CompactPlain(s[..|s| - 1]);
    }
  }

  /** Without its dashes, a UUID is its five groups of digits. */
  lemma CompactGroups(id: string)
    requires Canonical(id)
    ensures Compact(id) == id[..8] + id[9..13] + id[14..18] + id[19..23] + id[24..]
  {
    var (a, b, c, d, e) := (id[..8], id[9..13], id[14..18], id[19..23], id[24..]);
    assert id == a + "-" + b + "-" + c + "-" + d + "-" + e;
    CompactPlain(a);
    CompactPlain(b);
    CompactPlain(c);
    CompactPlain(d);
    CompactPlain(e);
    CompactConcat(a + "-" + b + "-" + c + "-" + d + "-", e);
    CompactConcat(a + "-" + b + "-" + c + "-" + d, "-");
    CompactConcat(a + "-" + b + "-" + c + "-", d);
    CompactConcat(a + "-" + b + "-" + c, "-");
    CompactConcat(a + "-" + b + "-", c);
    CompactConcat(a + "-" + b, "-");
    CompactConcat(a + "-", b);
    CompactConcat(a, "-");
  }

  /** Leaving the dashes out loses nothing. */
  lemma CompactInjective(a: string, b: string)
    requires Canonical(a) && Canonical(b) && Compact(a) == Compact(b)
    ensures a == b
  {
    CompactGroups(a);
    CompactGroups(b);
    var compact := Compact(a);
    forall i | 0 <= i < 36
      ensures a[i] == b[i]
    {
      if i < 8 {
        assert a[i] == compact[i] && b[i] == compact[i];
      } else if 8 < i < 13 {
        assert a[i] == compact[i - 1] && b[i] == compact[i - 1];
      } else if 13 < i < 18 {
        assert a[i] == compact[i - 2] && b[i] == compact[i - 2];
      } else if 18 < i < 23 {
        assert a[i] == compact[i - 3] && b[i] == compact[i - 3];
      } else if 23 < i {
        assert a[i] == compact[i - 4] && b[i] == compact[i - 4];
      }
    }
  }

  /** A prefix, a compact identifier and what follows it determine the identifier. */
  lemma NamedApart(prefix: string, a: string, x: string, b: string, y: string)
    requires Canonical(a) && Canonical(b) && prefix + Compact(a) + x == prefix + Compact(b) + y
    ensures a == b && x == y
  {
    CompactGroups(a);
    CompactGroups(b);
    var whole := prefix + Compact(a) + x;
    assert Compact(a) == whole[|prefix|..|prefix| + 32] && Compact(b) == whole[|prefix|..|prefix| + 32];
    assert x == whole[|prefix| + 32..] && y == whole[|prefix| + 32..];
    CompactInjective(a, b);
  }

  lemma SuffixedApart(a: string, m: nat, b: string, n: nat, suffix: string)
    requires Canonical(a) && Canonical(b) && BaseName(a, m) + suffix == BaseName(b, n) + suffix
    ensures a == b
  {
    var (x, y) := ("-a" + Itoa(m) + suffix, "-a" + Itoa(n) + suffix);
    assert BaseName(a, m) + suffix == "ar-" + Compact(a) + x;
    assert BaseName(b, n) + suffix == "ar-" + Compact(b) + y;
    NamedApart("ar-", a, x, b, y);
  }

  /** No two attempts of any runs share a Job or a workspace. */
  lemma NamesTellRunsApart(a: string, m: nat, b: string, n: nat)
    requires Canonical(a) && Canonical(b)
    requires JobName(a, m) == JobName(b, n) || WorkspaceName(a, m) == WorkspaceName(b, n)
    ensures a == b && m == n
  {
    if JobName(a, m) == JobName(b, n) {
      SuffixedApart(a, m, b, n, "-job");
    } else {
      SuffixedApart(a, m, b, n, "-workspace");
    }
    NamesTellAttemptsApart(a, m, n);
  }
}
