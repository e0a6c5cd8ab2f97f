/**
 * Sequence helpers shared by the extractor and the aggregator: first-occurrence
 * deduplication (Python's `seen` set and `list(dict.fromkeys(xs))`), truncation
 * (`xs[:n]`), and `sum`, `max`, `min` over integers.
 */
module Seqs {

  predicate Distinct<T(==)>(s: seq<T>) {
    forall i, j :: 0 <= i < j < |s| ==> s[i] != s[j]
  }

  /** The elements of `s` in the order of their first occurrence, each once. */
  function Dedup<T(==)>(s: seq<T>): (r: seq<T>)
    ensures Distinct(r)
    ensures forall i :: 0 <= i < |s| ==> s[i] in r
    ensures forall i :: 0 <= i < |r| ==> r[i] in s
    ensures |r| <= |s|
    decreases |s|
  {
    if s == [] then []
    else
      var prefix := s[..|s| - 1];
      var d := Dedup(prefix);
      var x := s[|s| - 1];
      assert s == prefix + [x];
      if x in prefix then d else d + [x]
  }

  /** Deduplicating keeps exactly the elements. */
  lemma DedupMembership<T>(s: seq<T>, x: T)
    ensures x in Dedup(s) <==> x in s
  {
    if x in s {
      var k :| 0 <= k < |s| && s[k] == x;
      assert s[k] in Dedup(s);
    }
    if x in Dedup(s) {
      var k :| 0 <= k < |Dedup(s)| && Dedup(s)[k] == x;
      assert Dedup(s)[k] in s;
    }
  }

  /** Appending `x` adds it to the deduplicated sequence exactly when it is new. */
  lemma DedupAppend<T>(s: seq<T>, x: T)
    ensures Dedup(s + [x]) == if x in s then Dedup(s) else Dedup(s) + [x]
  {
    assert (s + [x])[..|s|] == s;
  }

  /** The index of the first occurrence of `x` in `s`. */
  function FirstIndex<T(==)>(s: seq<T>, x: T): (k: nat)
    requires x in s
    ensures k < |s| && s[k] == x && x !in s[..k]
  {
    if s[0] == x then 0 else
      var k := FirstIndex(s[1..], x);
      assert s[..k + 1] == [s[0]] + s[1..][..k];
      k + 1
  }

  lemma FirstIndexOfPrefix<T>(s: seq<T>, y: T, x: T)
    requires y in s
    ensures FirstIndex(s + [x], y) == FirstIndex(s, y)
  {
    var k := FirstIndex(s, y);
    var k' := FirstIndex(s + [x], y);
    assert (s + [x])[k] == y;
    assert (s + [x])[..k'] == s[..k'] by { assert k' <= k; }
  }

  /** `Dedup` lists the elements of `s` in the order in which they first appear in `s`. */
  lemma {:induction false} DedupKeepsFirstOccurrenceOrder<T>(s: seq<T>, p: nat, q: nat)
    requires p < q < |Dedup(s)|
    ensures FirstIndex(s, Dedup(s)[p]) < FirstIndex(s, Dedup(s)[q])
    decreases |s|
  {
    var prefix := s[..|s| - 1];
    var x := s[|s| - 1];
    assert s == prefix + [x];
    var d := Dedup(prefix);
    assert Dedup(s)[p] in prefix by {
      if p < |d| { assert Dedup(s)[p] == d[p]; assert d[p] in d; }
    }
    FirstIndexOfPrefix(prefix, Dedup(s)[p], x);
    if x in prefix || q < |d| {
      assert Dedup(s)[p] == d[p] && Dedup(s)[q] == d[q];
      FirstIndexOfPrefix(prefix, d[q], x);
      DedupKeepsFirstOccurrenceOrder(prefix, p, q);
    } else {
      assert Dedup(s)[q] == x;
      assert FirstIndex(s, x) == |prefix|;
    }
  }

  /** Deduplicating a sequence that has no repeats changes nothing. */
  lemma {:induction false} DedupOfDistinct<T>(s: seq<T>)
    requires Distinct(s)
    ensures Dedup(s) == s
    decreases |s|
  {
    if s != [] {
      var prefix := s[..|s| - 1];
      assert s == prefix + [s[|s| - 1]];
      assert s[|s| - 1] !in prefix;
      DedupOfDistinct(prefix);
    }
  }

  /** Python's `s[:n]`. */
  function Take<T>(s: seq<T>, n: nat): (r: seq<T>)
    ensures |r| == if |s| <= n then |s| else n
    ensures r == s[..|r|]
  {
    if |s| <= n then s else s[..n]
  }

  function Sum(s: seq<int>): int {
    if s == [] then 0 else Sum(s[..|s| - 1]) + s[|s| - 1]
  }

  lemma {:induction false} SumOfConcat(a: seq<int>, b: seq<int>)
    ensures Sum(a + b) == Sum(a) + Sum(b)
    decreases |b|
  {
    if b == [] {
      assert a + b == a;
    } else {
      assert (a + b)[..|a + b| - 1] == a + b[..|b| - 1];
      SumOfConcat(a, b[..|b| - 1]);
    }
  }

  /** Python's `max(s)` on a non-empty list of integers. */
  function Max(s: seq<int>): (m: int)
    requires s != []
    ensures m in s
    ensures forall i :: 0 <= i < |s| ==> s[i] <= m
  {
    if |s| == 1 then s[0]
    else
      var m := Max(s[..|s| - 1]);
      assert s == s[..|s| - 1] + [s[|s| - 1]];
      if s[|s| - 1] > m then s[|s| - 1] else m
  }

  /** Python's `min(s)` on a non-empty list of integers. */
  function Min(s: seq<int>): (m: int)
    requires s != []
    ensures m in s
    ensures forall i :: 0 <= i < |s| ==> m <= s[i]
  {
    if |s| == 1 then s[0]
    else
      var m := Min(s[..|s| - 1]);
      assert s == s[..|s| - 1] + [s[|s| - 1]];
      if s[|s| - 1] < m then s[|s| - 1] else m
  }
}
