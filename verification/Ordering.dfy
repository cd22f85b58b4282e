/** What `order by ... limit` returns: the first rows under a lexicographic key. */
module Ordering {
  /** Sort keys, compared lexicographically. The last component is the row's identifier, so keys never tie. */
  datatype Key = Key(first: int, second: int, third: int, fourth: int, id: int)

  predicate Less(a: Key, b: Key) {
    a.first < b.first || (a.first == b.first && (
      a.second < b.second || (a.second == b.second && (
        a.third < b.third || (a.third == b.third && (
          a.fourth < b.fourth || (a.fourth == b.fourth && a.id < b.id)))))))
  }

  predicate Keyed(keys: map<nat, Key>) {
    forall r :: r in keys ==> keys[r].id == r
  }

  /** rows are the first limit rows of keys, in order. */
  predicate IsFirst(keys: map<nat, Key>, limit: nat, rows: seq<nat>) {
    && |rows| <= limit
    && (forall i :: 0 <= i < |rows| ==> rows[i] in keys)
    && (forall i, j :: 0 <= i < j < |rows| ==> Less(keys[rows[i]], keys[rows[j]]))
    && (forall r :: r in keys && r !in rows ==>
          |rows| == limit && forall i :: 0 <= i < |rows| ==> Less(keys[rows[i]], keys[r]))
  }

  /** No row is listed twice. */
  lemma FirstAreDistinct(keys: map<nat, Key>, limit: nat, rows: seq<nat>, i: nat, j: nat)
    requires IsFirst(keys, limit, rows) && i < j < |rows|
    ensures rows[i] != rows[j]
  {
    assert Less(keys[rows[i]], keys[rows[j]]);
  }

  lemma FirstNotBefore(keys: map<nat, Key>, limit: nat, rows: seq<nat>, k: nat)
    requires IsFirst(keys, limit, rows) && k < |rows|
    ensures rows[k] in keys && rows[k] !in rows[..k]
  {
    forall j | 0 <= j < k
      ensures rows[..k][j] != rows[k]
    {
      FirstAreDistinct(keys, limit, rows, j, k);
    }
  }

  /** p is listed, and before q wherever q is. */
  predicate TakenBefore(rows: seq<nat>, p: nat, q: nat) {
    p in rows && forall j :: 0 <= j < |rows| && rows[j] == q ==> exists i :: 0 <= i < j && rows[i] == p
  }

  /** A row with a lesser key than a listed one is listed before it. */
  lemma LesserIsTaken(keys: map<nat, Key>, limit: nat, rows: seq<nat>, p: nat, q: nat)
    requires IsFirst(keys, limit, rows) && p in keys && q in rows && Less(keys[p], keys[q])
    ensures TakenBefore(rows, p, q)
  {
    var j :| 0 <= j < |rows| && rows[j] == q;
    assert p in rows;
    forall k | 0 <= k < |rows| && rows[k] == q
      ensures exists i :: 0 <= i < k && rows[i] == p
    {
      var i :| 0 <= i < |rows| && rows[i] == p;
      assert i != k;
    }
  }

  predicate Least(keys: map<nat, Key>, rest: set<nat>, best: nat)
    requires rest <= keys.Keys
  {
    best in rest && forall r :: r in rest && r != best ==> Less(keys[best], keys[r])
  }

  method Next(keys: map<nat, Key>, rest: set<nat>) returns (best: nat)
    requires Keyed(keys) && rest <= keys.Keys && rest != {}
    ensures Least(keys, rest, best)
  {
    var todo := rest;
    best :| best in todo;
    todo := todo - {best};
    while todo != {}
      invariant todo <= rest && Least(keys, rest - todo, best)
      decreases |todo|
    {
      var r :| r in todo;
      if Less(keys[r], keys[best]) {
        best := r;
      }
      todo := todo - {r};
    }
    assert rest - todo == rest;
  }

  ghost predicate Taken(keys: map<nat, Key>, rest: set<nat>, rows: seq<nat>) {
    && (forall r :: r in rest <==> r in keys && r !in rows)
    && (forall i :: 0 <= i < |rows| ==> rows[i] in keys)
    && (forall i, j :: 0 <= i < j < |rows| ==> Less(keys[rows[i]], keys[rows[j]]))
    && (forall r, i :: r in rest && 0 <= i < |rows| ==> Less(keys[rows[i]], keys[r]))
  }

  lemma TakeNext(keys: map<nat, Key>, rest: set<nat>, rows: seq<nat>, next: nat)
    requires Taken(keys, rest, rows) && rest <= keys.Keys && Least(keys, rest, next)
    ensures Taken(keys, rest - {next}, rows + [next])
  {
    forall r, i | r in rest - {next} && 0 <= i < |rows| + 1
      ensures Less(keys[(rows + [next])[i]], keys[r])
    {
    }
  }

  /** Takes the least remaining row until the limit is reached. */
  method TakeFirst(keys: map<nat, Key>, limit: nat) returns (rows: seq<nat>)
    requires Keyed(keys)
    ensures IsFirst(keys, limit, rows)
  {
    rows := [];
    var rest := keys.Keys;
    while |rows| < limit && rest != {}
      invariant |rows| <= limit && rest <= keys.Keys && Taken(keys, rest, rows)
      decreases |rest|
    {
      var next := Next(keys, rest);
      TakeNext(keys, rest, rows, next);
      rows := rows + [next];
      rest := rest - {next};
    }
  }
}
