/**
 * The "keep the newest N errors" rule shared by the dashboard's errors card
 * (client/src/components/ErrorsCard.tsx) and the legacy controller's `log_error`
 * (main_1.py). An error collection is a dictionary from key to error; both languages
 * iterate dictionaries in insertion order, so it is modelled as an association list.
 */
module ErrorList {
  import opened Schema
  import Sorting

  /** One `[key, error]` pair of `Object.entries` / `dict.items()`. */
  type Entry = (string, SystemError)

  /** No key occurs twice: what makes an association list a dictionary. */
  predicate DistinctKeys(es: seq<Entry>) {
    forall i, j :: 0 <= i < j < |es| ==> es[i].0 != es[j].0
  }

  ghost predicate NewestFirst(es: seq<Entry>) {
    forall i, j :: 0 <= i < j < |es| ==> es[i].1.timestamp >= es[j].1.timestamp
  }

  function NegatedTimestamp(e: Entry): int {
    -e.1.timestamp
  }

  /** `sort((a, b) => b.timestamp - a.timestamp)` / `sorted(..., reverse=True)`. */
  function SortNewestFirst(es: seq<Entry>): (r: seq<Entry>)
    ensures NewestFirst(r)
    ensures multiset(r) == multiset(es)
    ensures |r| == |es|
  {
    var r := Sorting.SortBy(es, NegatedTimestamp);
    assert Sorting.SortedBy(r, NegatedTimestamp);
    assert forall i, j :: 0 <= i < j < |r| ==> NegatedTimestamp(r[i]) <= NegatedTimestamp(r[j]);
    r
  }

  /** The sort followed by `slice(0, n)` / `[:n]`. */
  function KeepNewest(es: seq<Entry>, n: nat): seq<Entry> {
    Sorting.Take(SortNewestFirst(es), n)
  }

  /**
   * What the rule promises: at most `n` entries, all of them from the input, newest first,
   * and none of the dropped entries is newer than any kept one.
   */
  lemma KeepNewestSpec(es: seq<Entry>, n: nat)
    ensures |KeepNewest(es, n)| == if |es| < n then |es| else n
    ensures multiset(KeepNewest(es, n)) <= multiset(es)
    ensures NewestFirst(KeepNewest(es, n))
    ensures forall x, y ::
      (x in multiset(es) - multiset(KeepNewest(es, n)) && y in KeepNewest(es, n) ==> x.1.timestamp <= y.1.timestamp)
  {
    var s := SortNewestFirst(es);
    var r := KeepNewest(es, n);
    var m := |r|;
    assert r == s[..m];
    SplitMultiset(s, m);
    DroppedAreOlder(s, m);
  }

  lemma SplitMultiset(s: seq<Entry>, m: nat)
    requires m <= |s|
    ensures multiset(s) - multiset(s[..m]) == multiset(s[m..])
    ensures multiset(s[..m]) <= multiset(s)
  {
    assert s == s[..m] + s[m..];
  }

  /** In a newest-first list, everything after position `m` is no newer than anything before it. */
  lemma DroppedAreOlder(s: seq<Entry>, m: nat)
    requires NewestFirst(s) && m <= |s|
    ensures forall x, y :: x in multiset(s[m..]) && y in s[..m] ==> x.1.timestamp <= y.1.timestamp
  {
    forall x, y | x in multiset(s[m..]) && y in s[..m] ensures x.1.timestamp <= y.1.timestamp {
      var j :| 0 <= j < |s[m..]| && s[m..][j] == x;
      var i :| 0 <= i < m && s[..m][i] == y;
      assert s[i] == y && s[m + j] == x;
    }
  }

  /** Nothing is dropped while the input has at most `n` entries. */
  lemma KeepNewestKeepsSmall(es: seq<Entry>, n: nat)
    requires |es| <= n
    ensures multiset(KeepNewest(es, n)) == multiset(es)
  {
  }

  // ===== Distinct keys survive any selection =====

  lemma DistinctCounts(es: seq<Entry>, x: Entry)
    requires DistinctKeys(es)
    ensures multiset(es)[x] <= 1
  {
    if es != [] {
      assert es == [es[0]] + es[1..];
      DistinctCounts(es[1..], x);
      forall j | 0 <= j < |es[1..]| ensures es[1..][j] != es[0] {
        assert es[1..][j] == es[j + 1];
      }
    }
  }

  /** A selection of the entries of a dictionary (a sub-multiset) is again a dictionary. */
  lemma {:induction false} DistinctKeysKept(es: seq<Entry>, r: seq<Entry>)
    requires DistinctKeys(es) && multiset(r) <= multiset(es)
    ensures DistinctKeys(r)
  {
    forall i, j | 0 <= i < j < |r| ensures r[i].0 != r[j].0 {
      assert r[i] in multiset(es) && r[j] in multiset(es);
      var p :| 0 <= p < |es| && es[p] == r[i];
      var q :| 0 <= q < |es| && es[q] == r[j];
      if p == q {
        assert r == r[..j] + r[j..];
        assert r[i] in r[..j] && r[j] in r[j..];
        assert multiset(r)[r[i]] == multiset(r[..j])[r[i]] + multiset(r[j..])[r[i]];
        DistinctCounts(es, r[i]);
      }
    }
  }

  // ===== Counting by severity =====

  /** `filter(e => e.severity === severity).length`. */
  function CountSeverity(es: seq<Entry>, severity: string): (c: nat)
    ensures c <= |es|
  {
    if es == [] then 0
    else (if es[0].1.severity == severity then 1 else 0) + CountSeverity(es[1..], severity)
  }

  lemma {:induction false} CountAppend(a: seq<Entry>, b: seq<Entry>, severity: string)
    ensures CountSeverity(a + b, severity) == CountSeverity(a, severity) + CountSeverity(b, severity)
  {
    if a != [] {
      assert (a + b)[1..] == a[1..] + b;
      CountAppend(a[1..], b, severity);
    } else {
      assert a + b == b;
    }
  }

  /** Taking out position `j` takes out its contribution to the count. */
  lemma CountRemove(b: seq<Entry>, j: nat, severity: string)
    requires j < |b|
    ensures CountSeverity(b, severity)
      == CountSeverity(b[..j] + b[j + 1..], severity) + (if b[j].1.severity == severity then 1 else 0)
  {
    assert b == b[..j] + ([b[j]] + b[j + 1..]);
    CountAppend(b[..j], [b[j]] + b[j + 1..], severity);
    assert ([b[j]] + b[j + 1..])[1..] == b[j + 1..];
    CountAppend(b[..j], b[j + 1..], severity);
  }

  /** Taking out position `j` takes out one copy of `b[j]`. */
  lemma MultisetRemove(b: seq<Entry>, j: nat)
    requires j < |b|
    ensures multiset(b) == multiset(b[..j] + b[j + 1..]) + multiset{b[j]}
  {
    assert b == b[..j] + [b[j]] + b[j + 1..];
  }

  /** The count depends only on which entries there are, not on their order. */
  lemma {:induction false} CountPermutation(a: seq<Entry>, b: seq<Entry>, severity: string)
    requires multiset(a) == multiset(b)
    ensures CountSeverity(a, severity) == CountSeverity(b, severity)
  {
    if a != [] {
      assert a == [a[0]] + a[1..];
      assert multiset(a) == multiset{a[0]} + multiset(a[1..]);
      assert a[0] in multiset(b);
      var j :| 0 <= j < |b| && b[j] == a[0];
      var rest := b[..j] + b[j + 1..];
      MultisetRemove(b, j);
      assert multiset(a[1..]) == multiset(a) - multiset{a[0]};
      assert multiset(rest) == multiset(b) - multiset{b[j]};
      CountPermutation(a[1..], rest, severity);
      CountRemove(b, j, severity);
    }
  }

  /** An entry has one severity, so the two counts together never exceed the list. */
  lemma {:induction false} CountsDisjoint(es: seq<Entry>, s1: string, s2: string)
    requires s1 != s2
    ensures CountSeverity(es, s1) + CountSeverity(es, s2) <= |es|
  {
    if es != [] {
      CountsDisjoint(es[1..], s1, s2);
    }
  }
}
