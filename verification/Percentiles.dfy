/** Sorting and the percentile functions of the load-test scripts, in exact arithmetic. */
module Percentiles {
  import opened Wrappers
  import opened Seqs

  ghost predicate Sorted(s: seq<real>) {
    forall i, j :: 0 <= i < j < |s| ==> s[i] <= s[j]
  }

  function Insert(x: real, s: seq<real>): (r: seq<real>)
    requires Sorted(s)
    ensures multiset(r) == multiset(s) + multiset{x}
    ensures Sorted(r)
  {
    if s == [] then [x]
    else if s[|s| - 1] <= x then s + [x]
    else
      LastMultiset(s);
      var r := Insert(x, s[..|s| - 1]);
      BelowLast(x, s, r);
      r + [s[|s| - 1]]
  }

  lemma BelowLast(x: real, s: seq<real>, r: seq<real>)
    requires s != [] && Sorted(s) && x < s[|s| - 1]
    requires multiset(r) == multiset(s[..|s| - 1]) + multiset{x}
    ensures forall i :: 0 <= i < |r| ==> r[i] <= s[|s| - 1]
  {
    forall i | 0 <= i < |r|
      ensures r[i] <= s[|s| - 1]
    {
      assert r[i] in multiset(r);
      assert r[i] == x || r[i] in s[..|s| - 1];
    }
  }

  /** `[...arr].sort((a, b) => a - b)`: by `SortedUnique`, the ascending arrangement of the values. */
  function Sort(s: seq<real>): (r: seq<real>)
    ensures Sorted(r) && multiset(r) == multiset(s)
    ensures |r| == |s|
  {
    if s == [] then []
    else
      LastMultiset(s);
      var r := Insert(s[|s| - 1], Sort(s[..|s| - 1]));
      assert |multiset(r)| == |multiset(s)|;
      r
  }

  /** There is only one ascending arrangement. */
  lemma {:induction false} SortedUnique(a: seq<real>, b: seq<real>)
    requires Sorted(a) && Sorted(b) && multiset(a) == multiset(b)
    ensures a == b
    decreases |a|
  {
    assert |multiset(a)| == |multiset(b)|;
    if a != [] {
      var x, y := a[|a| - 1], b[|b| - 1];
      assert x in multiset(b) && y in multiset(a);
      assert x == y;
      LastMultiset(a);
      LastMultiset(b);
      MultisetCancel(multiset(a[..|a| - 1]), multiset(b[..|b| - 1]), x);
      SortedUnique(a[..|a| - 1], b[..|b| - 1]);
    }
  }

  function Ceil(x: real): (r: int)
    ensures x <= r as real < x + 1.0
  {
    -((-x).Floor)
  }

  /** `Math.max(0, Math.ceil((p / 100) * n) - 1)`. */
  function RankIndex(n: nat, p: real): int {
    PositionOf((p / 100.0) * n as real)
  }

  function PositionOf(x: real): int {
    var idx := Ceil(x) - 1;
    if idx < 0 then 0 else idx
  }

  /** Reading an array outside its bounds gives no value. */
  function At(s: seq<real>, i: int): Option<real> {
    if 0 <= i < |s| then Some(s[i]) else None
  }

  /** The nearest-rank percentile. */
  function Percentile(arr: seq<real>, p: real): Option<real> {
    if |arr| == 0 then Some(0.0) else At(Sort(arr), RankIndex(|arr|, p))
  }

  lemma RankIndexRange(n: nat, p: real)
    requires n > 0
    ensures 0 <= RankIndex(n, p)
    ensures RankIndex(n, p) < n <==> p <= 100.0
    ensures p <= 0.0 ==> RankIndex(n, p) == 0
    ensures p == 100.0 ==> RankIndex(n, p) == n - 1
  {
    var x := RankShare(n, p);
    PositionRange(x, n);
  }

  /** The share of n behind the rank, as a number. */
  lemma RankShare(n: nat, p: real) returns (x: real)
    requires n > 0
    ensures RankIndex(n, p) == PositionOf(x)
    ensures x <= n as real <==> p <= 100.0
    ensures (p <= 0.0 ==> x <= 0.0) && (p == 100.0 ==> x == n as real)
  {
    x := (p / 100.0) * n as real;
    Hundredth(p);
    ShareOf(p / 100.0, n as real, x);
  }

  lemma Hundredth(p: real)
    ensures p <= 100.0 <==> p / 100.0 <= 1.0
    ensures p <= 0.0 <==> p / 100.0 <= 0.0
    ensures p == 100.0 ==> p / 100.0 == 1.0
  {
  }

  lemma PositionRange(x: real, n: nat)
    requires n > 0
    ensures PositionOf(x) < n <==> x <= n as real
    ensures x <= 0.0 ==> PositionOf(x) == 0
    ensures x == n as real ==> PositionOf(x) == n - 1
  {
    CeilBelow(x, n);
    CeilBelow(x, 0);
  }

  lemma CeilBelow(x: real, n: int)
    ensures Ceil(x) <= n <==> x <= n as real
    ensures x == n as real ==> Ceil(x) == n
  {
  }

  /** A share of m is at most 0, at most m, or above m according to the share. */
  lemma ShareOf(f: real, m: real, x: real)
    requires m > 0.0 && x == f * m
    ensures f <= 0.0 ==> x <= 0.0
    ensures f <= 1.0 <==> x <= m
    ensures f == 1.0 ==> x == m
  {
    if f <= 0.0 {
      ScaleLe(f, 0.0, m);
    }
    if f <= 1.0 {
      ScaleLe(f, 1.0, m);
    } else {
      ScaleLt(1.0, f, m);
    }
  }

  lemma ScaleLe(a: real, b: real, n: real)
    requires a <= b && 0.0 <= n
    ensures a * n <= b * n
  {
  }

  lemma ScaleLt(a: real, b: real, n: real)
    requires a < b && 0.0 < n
    ensures a * n < b * n
  {
  }

  /** On a non-empty array the percentile exists exactly for p up to 100. */
  lemma PercentileDefined(arr: seq<real>, p: real)
    requires |arr| > 0
    ensures Percentile(arr, p).Some? <==> p <= 100.0
  {
    RankIndexRange(|arr|, p);
  }

  function AtMost(v: real): real -> bool {
    (x: real) => x <= v
  }

  function AtLeast(v: real): real -> bool {
    (x: real) => x >= v
  }

  /** Filtering keeps at least a prefix, or a suffix, whose elements all pass. */
  lemma PrefixPasses<T>(s: seq<T>, n: nat, p: T -> bool)
    requires n <= |s| && forall i :: 0 <= i < n ==> p(s[i])
    ensures |Filter(s, p)| >= n
  {
    FilterConcat(s[..n], s[n..], p);
    FilterAll(s[..n], p);
    assert s[..n] + s[n..] == s;
  }

  lemma SuffixPasses<T>(s: seq<T>, n: nat, p: T -> bool)
    requires n <= |s| && forall i :: n <= i < |s| ==> p(s[i])
    ensures |Filter(s, p)| >= |s| - n
  {
    FilterConcat(s[..n], s[n..], p);
    FilterAll(s[n..], p);
    assert s[..n] + s[n..] == s;
  }

  /** In an ascending array everything up to position k is at most the element there, and dually. */
  lemma {:induction false} SortedPrefix(s: seq<real>, k: nat)
    requires Sorted(s) && k < |s|
    ensures |Filter(s, AtMost(s[k]))| >= k + 1
    ensures |Filter(s, AtLeast(s[k]))| >= |s| - k
  {
    forall i | 0 <= i < k + 1 ensures AtMost(s[k])(s[i]) {
      assert i < k ==> s[i] <= s[k];
    }
    PrefixPasses(s, k + 1, AtMost(s[k]));
    forall i | k <= i < |s| ensures AtLeast(s[k])(s[i]) {
      assert k < i ==> s[k] <= s[i];
    }
    SuffixPasses(s, k, AtLeast(s[k]));
  }

  lemma {:induction false} FilterAll<T>(s: seq<T>, p: T -> bool)
    requires forall i :: 0 <= i < |s| ==> p(s[i])
    ensures Filter(s, p) == s
    decreases |s|
  {
    if s != [] {
      FilterAll(s[..|s| - 1], p);
    }
  }

  /** The nearest-rank property, both sides. */
  lemma PercentileRank(arr: seq<real>, p: real)
    requires |arr| > 0 && 0.0 <= p <= 100.0
    ensures var rank := Ceil((p / 100.0) * |arr| as real);
            && Percentile(arr, p).Some?
            && Percentile(arr, p).value in arr
            && |Filter(arr, AtMost(Percentile(arr, p).value))| >= rank
            && |Filter(arr, AtLeast(Percentile(arr, p).value))| >= |arr| - (if rank < 1 then 1 else rank) + 1
  {
    PercentileDefined(arr, p);
    var k := RankIndex(|arr|, p);
    var v := Sort(arr)[k];
    SortedPrefix(Sort(arr), k);
    FilterPermutation(arr, Sort(arr), AtMost(v));
    FilterPermutation(arr, Sort(arr), AtLeast(v));
    SortMembers(arr, v);
  }

  lemma PercentileMonotone(arr: seq<real>, p: real, q: real)
    requires |arr| > 0 && p <= q <= 100.0
    ensures Percentile(arr, p).Some? && Percentile(arr, q).Some?
    ensures Percentile(arr, p).value <= Percentile(arr, q).value
  {
    PercentileDefined(arr, p);
    PercentileDefined(arr, q);
    RankMonotone(|arr|, p, q);
    InOrder(Sort(arr), RankIndex(|arr|, q), RankIndex(|arr|, p));
  }

  lemma RankMonotone(n: nat, p: real, q: real)
    requires p <= q
    ensures RankIndex(n, p) <= RankIndex(n, q)
  {
    ScaleLe(p / 100.0, q / 100.0, n as real);
  }

  /** At 100 it is the maximum, at 0 and below the minimum. */
  lemma PercentileExtremes(arr: seq<real>, p: real, x: real)
    requires |arr| > 0 && x in arr && p <= 0.0
    ensures Percentile(arr, 100.0).Some? && Percentile(arr, 100.0).value in arr && x <= Percentile(arr, 100.0).value
    ensures Percentile(arr, p).Some? && Percentile(arr, p).value in arr && Percentile(arr, p).value <= x
  {
    RankIndexRange(|arr|, p);
    RankIndexRange(|arr|, 100.0);
    SortMembers(arr, x);
    SortMembers(arr, Sort(arr)[0]);
    SortMembers(arr, Sort(arr)[|arr| - 1]);
  }

  lemma SortMembers(arr: seq<real>, x: real)
    ensures x in Sort(arr) <==> x in arr
  {
    assert x in multiset(Sort(arr)) <==> x in multiset(arr);
  }

  /** The order in which the samples arrived does not matter. */
  lemma PercentilePermutation(a: seq<real>, b: seq<real>, p: real)
    requires multiset(a) == multiset(b)
    ensures Percentile(a, p) == Percentile(b, p)
  {
    assert |multiset(a)| == |multiset(b)|;
    SortedUnique(Sort(a), Sort(b));
  }

  /** The benchmarks' own percentile on an already sorted array: position floor(n * q), q a fraction. */
  function FloorPercentile(sorted: seq<real>, q: real): Option<real> {
    if |sorted| == 0 then Some(0.0) else At(sorted, FloorIndex(|sorted|, q))
  }

  function FloorIndex(n: nat, q: real): int {
    (n as real * q).Floor
  }

  lemma ShareInRange(n: real, q: real)
    requires n > 0.0
    ensures 0.0 <= n * q < n <==> 0.0 <= q < 1.0
  {
    if q < 0.0 {
      ScaleLt(q, 0.0, n);
    } else if q < 1.0 {
      ScaleLt(q, 1.0, n);
      ScaleLe(0.0, q, n);
    } else {
      ScaleLe(1.0, q, n);
    }
  }

  lemma FloorInRange(x: real, n: nat)
    ensures 0 <= x.Floor < n <==> 0.0 <= x < n as real
  {
  }

  lemma FloorPercentileDefined(sorted: seq<real>, q: real)
    requires |sorted| > 0
    ensures FloorPercentile(sorted, q).Some? <==> 0.0 <= q < 1.0
  {
    ShareInRange(|sorted| as real, q);
    FloorInRange(|sorted| as real * q, |sorted|);
  }

  /** Without samples both are 0. */
  lemma NoSamples(p: real, q: real)
    ensures Percentile([], p) == Some(0.0) && FloorPercentile([], q) == Some(0.0)
  {
  }

  ghost predicate Whole(x: real) {
    x.Floor as real == x
  }

  /**
   * Against the nearest rank, the floor index reads the same position when n * q is not whole and one
   * position higher when it is, so it never reports a smaller value.
   */
  lemma FloorAgainstNearestRank(arr: seq<real>, q: real)
    requires |arr| > 0 && 0.0 < q < 1.0
    ensures FloorIndex(|arr|, q)
         == RankIndex(|arr|, 100.0 * q) + (if Whole(|arr| as real * q) then 1 else 0)
    ensures FloorPercentile(Sort(arr), q).Some? && Percentile(arr, 100.0 * q).Some?
    ensures FloorPercentile(Sort(arr), q).value >= Percentile(arr, 100.0 * q).value
  {
    FloorIndexIs(|arr|, q);
    ReadInOrder(arr, q, 100.0 * q);
  }

  lemma ReadInOrder(arr: seq<real>, q: real, p: real)
    requires |arr| > 0 && RankIndex(|arr|, p) <= FloorIndex(|arr|, q)
    requires 0.0 < q < 1.0 && p <= 100.0
    ensures FloorPercentile(Sort(arr), q).Some? && Percentile(arr, p).Some?
    ensures FloorPercentile(Sort(arr), q).value >= Percentile(arr, p).value
  {
    FloorPercentileDefined(Sort(arr), q);
    PercentileDefined(arr, p);
    InOrder(Sort(arr), FloorIndex(|arr|, q), RankIndex(|arr|, p));
  }

  lemma InOrder(s: seq<real>, i: int, k: int)
    requires Sorted(s) && At(s, i).Some? && At(s, k).Some? && k <= i
    ensures At(s, k).value <= At(s, i).value
  {
  }

  lemma FloorIndexIs(n: nat, q: real)
    requires n > 0 && 0.0 < q < 1.0
    ensures FloorIndex(n, q) == RankIndex(n, 100.0 * q) + (if Whole(n as real * q) then 1 else 0)
  {
    ScaleLt(0.0, q, n as real);
    RankIndexOf(n, q, n as real * q);
    CeilOf(n as real * q);
  }

  lemma RankIndexOf(n: nat, q: real, x: real)
    requires x == n as real * q && x > 0.0
    ensures RankIndex(n, 100.0 * q) == Ceil(x) - 1
  {
    assert (100.0 * q) / 100.0 == q;
    assert ((100.0 * q) / 100.0) * n as real == x;
  }

  lemma CeilOf(x: real)
    ensures Ceil(x) == if Whole(x) then x.Floor else x.Floor + 1
  {
  }
}
