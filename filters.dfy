/**
 * Filtering a sequence of rows by a test, as a database `filter(...)` does
 * (keeping the rows' order), and the facts the reports need about it.
 */
module Filters {
  /** The rows of `s` that pass `keep`, in their order. */
  function Filter<T>(s: seq<T>, keep: T -> bool): (r: seq<T>)
    ensures |r| <= |s|
  {
    if s == [] then [] else (if keep(s[0]) then [s[0]] else []) + Filter(s[1..], keep)
  }

  /** A filter keeps exactly the rows that pass the test. */
  lemma {:induction false} FilterMembers<T>(s: seq<T>, keep: T -> bool, x: T)
    ensures x in Filter(s, keep) <==> x in s && keep(x)
  {
    if s != [] {
      FilterMembers(s[1..], keep, x);
      assert s == [s[0]] + s[1..];
    }
  }

  /** Filtering distributes over concatenation. */
  lemma {:induction false} FilterAppend<T>(a: seq<T>, b: seq<T>, keep: T -> bool)
    ensures Filter(a + b, keep) == Filter(a, keep) + Filter(b, keep)
  {
    if a == [] {
      assert a + b == b;
    } else {
      var rest := a[1..] + b;
      assert (a + b)[1..] == rest;
      assert (a + b)[0] == a[0];
      FilterAppend(a[1..], b, keep);
      var head := if keep(a[0]) then [a[0]] else [];
      assert Filter(a + b, keep) == head + Filter(rest, keep);
      assert Filter(a, keep) == head + Filter(a[1..], keep);
    }
  }

  /** One more row at the end is kept at the end exactly when it passes the test. */
  lemma FilterSnoc<T>(s: seq<T>, x: T, keep: T -> bool)
    ensures keep(x) ==> Filter(s + [x], keep) == Filter(s, keep) + [x]
    ensures !keep(x) ==> Filter(s + [x], keep) == Filter(s, keep)
  {
    FilterAppend(s, [x], keep);
    assert [x][1..] == [];
    assert Filter(s, keep) + [] == Filter(s, keep);
  }

  /** Parts with the same filter, between the same rows, give the same filter. */
  lemma FilterMiddle<T>(pre: seq<T>, m1: seq<T>, m2: seq<T>, post: seq<T>, keep: T -> bool)
    requires Filter(m1, keep) == Filter(m2, keep)
    ensures Filter(pre + m1 + post, keep) == Filter(pre + m2 + post, keep)
  {
    FilterAppend(pre + m1, post, keep);
    FilterAppend(pre, m1, keep);
    FilterAppend(pre + m2, post, keep);
    FilterAppend(pre, m2, keep);
  }

  /** A filter keeps every copy of a row that passes the test and no copy of one that fails it. */
  lemma {:induction false} FilterCount<T>(s: seq<T>, keep: T -> bool, x: T)
    ensures multiset(Filter(s, keep))[x] == if keep(x) then multiset(s)[x] else 0
  {
    if s != [] {
      FilterCount(s[1..], keep, x);
      assert s == [s[0]] + s[1..];
    }
  }

  // ---------------------------------------------------------------------------
  // Order

  /** The rows in decreasing order of `key`, ties allowed. */
  predicate Descending<T>(s: seq<T>, key: T -> int) {
    forall i, j :: 0 <= i < j < |s| ==> key(s[i]) >= key(s[j])
  }

  /** A filter of rows in decreasing order is in decreasing order. */
  lemma {:induction false} FilterKeepsDescending<T>(s: seq<T>, keep: T -> bool, key: T -> int)
    requires Descending(s, key)
    ensures Descending(Filter(s, keep), key)
  {
    if s != [] {
      var rest := Filter(s[1..], keep);
      FilterKeepsDescending(s[1..], keep, key);
      if keep(s[0]) {
        forall j | 0 <= j < |rest|
          ensures key(s[0]) >= key(rest[j])
        {
          FilterMembers(s[1..], keep, rest[j]);
          var k :| 0 <= k < |s[1..]| && s[1..][k] == rest[j];
          assert s[k + 1] == rest[j];
        }
        var f := [s[0]] + rest;
        assert Filter(s, keep) == f;
        forall i, j | 0 <= i < j < |f|
          ensures key(f[i]) >= key(f[j])
        {
          if i > 0 {
            assert f[i] == rest[i - 1] && f[j] == rest[j - 1];
          } else {
            assert f[j] == rest[j - 1];
          }
        }
      }
    }
  }

  /** A kept row sits in the filter just after the kept rows before it. */
  lemma FilterAt<T>(s: seq<T>, keep: T -> bool, i: nat)
    requires i < |s| && keep(s[i])
    ensures |Filter(s[..i], keep)| < |Filter(s, keep)|
    ensures Filter(s, keep)[|Filter(s[..i], keep)|] == s[i]
  {
    assert s == s[..i] + [s[i]] + s[i + 1..];
    FilterAppend(s[..i] + [s[i]], s[i + 1..], keep);
    FilterSnoc(s[..i], s[i], keep);
  }

  /** Two kept rows keep their relative order in the filter. */
  lemma FilterOrder<T>(s: seq<T>, keep: T -> bool, a: nat, b: nat)
    requires a < b < |s| && keep(s[a]) && keep(s[b])
    ensures var f := Filter(s, keep);
            && |Filter(s[..a], keep)| < |Filter(s[..b], keep)| < |f|
            && f[|Filter(s[..a], keep)|] == s[a]
            && f[|Filter(s[..b], keep)|] == s[b]
  {
    FilterAt(s, keep, a);
    FilterAt(s, keep, b);
    assert s[..b] == s[..a] + [s[a]] + s[a + 1..b];
    FilterAppend(s[..a] + [s[a]], s[a + 1..b], keep);
    FilterSnoc(s[..a], s[a], keep);
  }
}
