/** Filtering, mapping and weighing of sequences, read from the end because the programs modelled here append. */
module Seqs {
  function Filter<T>(s: seq<T>, p: T -> bool): (r: seq<T>)
    ensures |r| <= |s|
  {
    if s == [] then []
    else Filter(s[..|s| - 1], p) + (if p(s[|s| - 1]) then [s[|s| - 1]] else [])
  }

  lemma {:induction false} FilterIn<T>(s: seq<T>, p: T -> bool, x: T)
    ensures x in Filter(s, p) <==> x in s && p(x)
    decreases |s|
  {
    if s != [] {
      FilterIn(s[..|s| - 1], p, x);
      assert s == s[..|s| - 1] + [s[|s| - 1]];
    }
  }

  /** Filtering keeps one element for every position that satisfies p. */
  lemma {:induction false} FilterCount<T>(s: seq<T>, p: T -> bool)
    ensures |Filter(s, p)| == |set i: nat | i < |s| && p(s[i])|
    decreases |s|
  {
    var n, kept := |s| - 1, set i: nat | i < |s| && p(s[i]);
    if s == [] {
      assert kept == {};
    } else {
      FilterCount(s[..n], p);
      var before := set i: nat | i < n && p(s[..n][i]);
      if p(s[n]) {
        assert kept == before + {n};
      } else {
        assert kept == before;
      }
    }
  }

  /** So the set of those positions, however it is written, has as many elements. */
  lemma {:induction false} FilterSize<T>(s: seq<T>, p: T -> bool, kept: set<nat>)
    requires forall i: nat :: i in kept <==> i < |s| && p(s[i])
    ensures |Filter(s, p)| == |kept|
  {
    FilterCount(s, p);
    assert kept == set i: nat | i < |s| && p(s[i]);
  }

  /** An element that is kept comes after as many others as are kept of those before it. */
  lemma {:induction false} FilterRank<T>(s: seq<T>, p: T -> bool, i: nat, earlier: set<nat>)
    requires i < |s| && p(s[i])
    requires forall j: nat :: j in earlier <==> j < i && p(s[j])
    ensures |earlier| < |Filter(s, p)| && Filter(s, p)[|earlier|] == s[i]
    decreases |s|
  {
    var n := |s| - 1;
    if i < n {
      FilterRank(s[..n], p, i, earlier);
    } else {
      FilterSize(s[..n], p, earlier);
    }
  }

  function Map<T, U>(s: seq<T>, f: T -> U): (r: seq<U>)
    ensures |r| == |s|
    ensures forall i :: 0 <= i < |s| ==> r[i] == f(s[i])
  {
    seq(|s|, i requires 0 <= i < |s| => f(s[i]))
  }

  /** The sum of the weights of the elements. */
  function Total<T>(s: seq<T>, w: T -> real): real {
    if s == [] then 0.0 else Total(s[..|s| - 1], w) + w(s[|s| - 1])
  }

  lemma FilterAppend<T>(s: seq<T>, x: T, p: T -> bool)
    ensures Filter(s + [x], p) == Filter(s, p) + (if p(x) then [x] else [])
  {
    assert (s + [x])[..|s|] == s;
  }

  lemma TotalAppend<T>(s: seq<T>, x: T, w: T -> real)
    ensures Total(s + [x], w) == Total(s, w) + w(x)
  {
    assert (s + [x])[..|s|] == s;
  }

  lemma {:induction false} FilterConcat<T>(s: seq<T>, t: seq<T>, p: T -> bool)
    ensures Filter(s + t, p) == Filter(s, p) + Filter(t, p)
    decreases |t|
  {
    if t == [] {
      assert s + t == s;
    } else {
      var init := t[..|t| - 1];
      FilterConcat(s, init, p);
      FilterAppend(s + init, t[|t| - 1], p);
      assert s + t == (s + init) + [t[|t| - 1]];
    }
  }

  lemma {:induction false} TotalConcat<T>(s: seq<T>, t: seq<T>, w: T -> real)
    ensures Total(s + t, w) == Total(s, w) + Total(t, w)
    decreases |t|
  {
    if t == [] {
      assert s + t == s;
    } else {
      var init := t[..|t| - 1];
      TotalConcat(s, init, w);
      TotalAppend(s + init, t[|t| - 1], w);
      assert s + t == (s + init) + [t[|t| - 1]];
    }
  }

  lemma LastMultiset<T>(s: seq<T>)
    requires s != []
    ensures multiset(s) == multiset(s[..|s| - 1]) + multiset{s[|s| - 1]}
  {
    assert s == s[..|s| - 1] + [s[|s| - 1]];
  }

  lemma MultisetCancel<T>(a: multiset<T>, b: multiset<T>, x: T)
    requires a + multiset{x} == b + multiset{x}
    ensures a == b
  {
    assert (a + multiset{x}) - multiset{x} == a && (b + multiset{x}) - multiset{x} == b;
  }

  /** Taking out the element at position k. */
  function Without<T>(s: seq<T>, k: nat): seq<T>
    requires k < |s|
  {
    s[..k] + s[k + 1..]
  }

  lemma WithoutMultiset<T>(s: seq<T>, k: nat)
    requires k < |s|
    ensures multiset(s) == multiset(Without(s, k)) + multiset{s[k]}
  {
    assert s == s[..k] + [s[k]] + s[k + 1..];
  }

  /** In a rearrangement the last element is found again, and without it the rest still match. */
  lemma FindLast<T>(s: seq<T>, t: seq<T>) returns (k: nat)
    requires s != [] && multiset(s) == multiset(t)
    ensures k < |t| && t[k] == s[|s| - 1]
    ensures t == (t[..k] + [s[|s| - 1]]) + t[k + 1..]
    ensures multiset(s[..|s| - 1]) == multiset(Without(t, k))
  {
    var x := s[|s| - 1];
    LastMultiset(s);
    assert x in multiset(t);
    k :| 0 <= k < |t| && t[k] == x;
    WithoutMultiset(t, k);
    MultisetCancel(multiset(s[..|s| - 1]), multiset(Without(t, k)), x);
  }

  lemma TotalWithout<T>(a: seq<T>, x: T, b: seq<T>, w: T -> real)
    ensures Total((a + [x]) + b, w) == Total(a + b, w) + w(x)
  {
    TotalConcat(a + [x], b, w);
    TotalAppend(a, x, w);
    TotalConcat(a, b, w);
  }

  /** A total does not depend on the order. */
  lemma {:induction false} TotalPermutation<T>(s: seq<T>, t: seq<T>, w: T -> real)
    requires multiset(s) == multiset(t)
    ensures Total(s, w) == Total(t, w)
    decreases |s|
  {
    if s == [] {
      assert |multiset(t)| == 0;
    } else {
      var x, init := s[|s| - 1], s[..|s| - 1];
      var k := FindLast(s, t);
      TotalWithout(t[..k], x, t[k + 1..], w);
      TotalPermutation(init, Without(t, k), w);
    }
  }

  lemma FilterSplit<T>(a: seq<T>, x: T, b: seq<T>, p: T -> bool)
    ensures Filter((a + [x]) + b, p) == (Filter(a, p) + (if p(x) then [x] else [])) + Filter(b, p)
  {
    FilterConcat(a + [x], b, p);
    FilterAppend(a, x, p);
  }

  lemma MiddleOut<T>(a: seq<T>, x: seq<T>, b: seq<T>)
    ensures multiset((a + x) + b) == multiset(a + b) + multiset(x)
  {
  }

  lemma FilterWithout<T>(a: seq<T>, x: T, b: seq<T>, p: T -> bool)
    ensures multiset(Filter((a + [x]) + b, p))
         == multiset(Filter(a + b, p)) + multiset(if p(x) then [x] else [])
  {
    FilterSplit(a, x, b, p);
    FilterConcat(a, b, p);
    MiddleOut(Filter(a, p), if p(x) then [x] else [], Filter(b, p));
  }

  /** Filtering a rearrangement gives a rearrangement. */
  lemma {:induction false} FilterPermutation<T>(s: seq<T>, t: seq<T>, p: T -> bool)
    requires multiset(s) == multiset(t)
    ensures multiset(Filter(s, p)) == multiset(Filter(t, p))
    ensures |Filter(s, p)| == |Filter(t, p)|
    decreases |s|
  {
    if s == [] {
      assert |multiset(t)| == 0;
    } else {
      var x, init := s[|s| - 1], s[..|s| - 1];
      var k := FindLast(s, t);
      FilterPermutation(init, Without(t, k), p);
      FilterWithout(t[..k], x, t[k + 1..], p);
      assert |multiset(Filter(s, p))| == |multiset(Filter(t, p))|;
    }
  }

  lemma MapAround<T, U>(a: seq<T>, x: T, b: seq<T>, f: T -> U)
    ensures multiset(Map((a + [x]) + b, f)) == multiset(Map(a + b, f)) + multiset{f(x)}
  {
    assert Map((a + [x]) + b, f) == (Map(a, f) + [f(x)]) + Map(b, f);
    assert Map(a + b, f) == Map(a, f) + Map(b, f);
    MiddleOut(Map(a, f), [f(x)], Map(b, f));
  }

  /** Mapping a rearrangement gives a rearrangement. */
  lemma {:induction false} MapPermutation<T, U>(s: seq<T>, t: seq<T>, f: T -> U)
    requires multiset(s) == multiset(t)
    ensures multiset(Map(s, f)) == multiset(Map(t, f))
    decreases |s|
  {
    if s == [] {
      assert |multiset(t)| == 0;
    } else {
      var x, init := s[|s| - 1], s[..|s| - 1];
      var k := FindLast(s, t);
      MapPermutation(init, Without(t, k), f);
      MapAround(init, x, [], f);
      assert (init + [x]) + [] == s && init + [] == init;
      MapAround(t[..k], x, t[k + 1..], f);
    }
  }

  ghost predicate Distinct<T>(s: seq<T>) {
    forall i, j :: 0 <= i < j < |s| ==> s[i] != s[j]
  }

  lemma {:induction false} DistinctFilter<T>(s: seq<T>, p: T -> bool)
    requires Distinct(s)
    ensures Distinct(Filter(s, p))
    decreases |s|
  {
    if s != [] {
      DistinctFilter(s[..|s| - 1], p);
      FilterIn(s[..|s| - 1], p, s[|s| - 1]);
    }
  }
}
