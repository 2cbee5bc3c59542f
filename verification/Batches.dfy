/** Batches, waves and round robin: how the load tests cut up their work. */
module Batches {
  function Min(a: int, b: int): int {
    if a < b then a else b
  }

  /** The numbers from lo up to hi. */
  function Range(lo: nat, hi: nat): (r: seq<nat>)
    requires lo <= hi
    ensures |r| == hi - lo && forall k :: 0 <= k < |r| ==> r[k] == lo + k
  {
    seq(hi - lo, k requires 0 <= k < hi - lo => lo + k)
  }

  lemma RangeJoin(a: nat, b: nat, c: nat)
    requires a <= b <= c
    ensures Range(a, b) + Range(b, c) == Range(a, c)
  {
  }

  /** An order in which the calls of one batch may complete. */
  ghost predicate CompletionOrder(order: seq<nat>, lo: nat, hi: nat)
    requires lo <= hi
  {
    multiset(order) == multiset(Range(lo, hi))
  }

  lemma OrderMembers(order: seq<nat>, lo: nat, hi: nat)
    requires lo <= hi && CompletionOrder(order, lo, hi)
    ensures |order| == hi - lo
    ensures forall k :: 0 <= k < |order| ==> lo <= order[k] < hi
    ensures forall i: nat :: lo <= i < hi ==> i in order
  {
    assert |multiset(order)| == |multiset(Range(lo, hi))|;
    forall k | 0 <= k < |order|
      ensures lo <= order[k] < hi
    {
      assert order[k] in multiset(Range(lo, hi));
    }
    forall i: nat | lo <= i < hi
      ensures i in order
    {
      assert Range(lo, hi)[i - lo] == i;
      assert i in multiset(order);
    }
  }

  /**
   * `Promise.all` over one batch: every call is started, they complete in any order, and the results come
   * back in the order of the batch. `settled` lists the calls as their callbacks ran.
   */
  method PromiseAll<R(0)>(lo: nat, hi: nat, reply: nat -> R, order: seq<nat>, settledBefore: seq<nat>)
    returns (results: seq<R>, settled: seq<nat>, peak: nat)
    requires lo <= hi && CompletionOrder(order, lo, hi)
    ensures |results| == hi - lo && forall k :: 0 <= k < |results| ==> results[k] == reply(lo + k)
    ensures settled == settledBefore + order
    ensures peak == hi - lo
  {
    OrderMembers(order, lo, hi);
    var slots := new R[hi - lo];
    var inFlight := hi - lo;
    peak, settled := inFlight, settledBefore;
    var k := 0;
    while k < |order|
      invariant 0 <= k <= |order| && inFlight == |order| - k
      invariant settled == settledBefore + order[..k]
      invariant forall i :: 0 <= i < k ==> slots[order[i] - lo] == reply(order[i])
    {
      slots[order[k] - lo] := reply(order[k]);
      settled := settled + [order[k]];
      inFlight := inFlight - 1;
      k := k + 1;
    }
    assert order[..k] == order;
    forall i | 0 <= i < hi - lo
      ensures slots[i] == reply(lo + i)
    {
      assert lo + i in order;
    }
    results := slots[..];
  }

  /** No call completes after one of a later batch; call i is in batch i / size. */
  ghost predicate BatchByBatch(settled: seq<nat>, size: nat)
    requires size > 0
  {
    forall p, q :: 0 <= p < q < |settled| ==> settled[p] / size <= settled[q] / size
  }

  lemma Between(i: nat, b: nat, size: nat)
    requires size > 0 && b * size <= i < b * size + size
    ensures i / size == b
  {
    var q := i / size;
    assert i == q * size + i % size;
    assert q < b ==> (q + 1) * size <= b * size;
    assert q > b ==> (b + 1) * size <= q * size;
  }

  lemma Split(i: nat, size: nat)
    requires size > 0
    ensures i == (i / size) * size + i % size && 0 <= i % size < size
  {
  }

  lemma NotPast(a: nat, b: nat, size: nat)
    requires a <= b
    ensures a * size <= b * size
  {
  }

  /** Every batch starts at a multiple of the size. */
  lemma NextStart(lo: nat, size: nat)
    requires size > 0 && lo % size == 0
    ensures (lo + size) % size == 0
  {
    Split(lo, size);
    Split(lo + size, size);
    assert lo + size == (lo / size + 1) * size;
    Between(lo + size, lo / size + 1, size);
  }

  /** The calls before a batch's start are in earlier batches. */
  lemma BeforeStart(i: nat, lo: nat, size: nat)
    requires size > 0 && lo % size == 0 && i < lo
    ensures i / size < lo / size
  {
    Split(lo, size);
    Split(i, size);
    if i / size >= lo / size {
      NotPast(lo / size, i / size, size);
    }
  }

  /** The calls from a batch's start on are in that batch, the ones before it in earlier batches. */
  lemma AroundStart(i: nat, lo: nat, size: nat)
    requires size > 0 && lo % size == 0
    ensures lo <= i < lo + size ==> i / size == lo / size
    ensures i < lo ==> i / size < lo / size
    ensures (lo + size) % size == 0
  {
    NextStart(lo, size);
    if i < lo {
      BeforeStart(i, lo, size);
    } else if i < lo + size {
      Split(lo, size);
      Between(i, lo / size, size);
    }
  }

  lemma AppendBatch(settled: seq<nat>, order: seq<nat>, lo: nat, hi: nat, size: nat)
    requires size > 0 && lo % size == 0 && lo <= hi <= lo + size
    requires BatchByBatch(settled, size) && forall k :: 0 <= k < |settled| ==> settled[k] < lo
    requires CompletionOrder(order, lo, hi)
    ensures BatchByBatch(settled + order, size)
    ensures forall k :: 0 <= k < |settled + order| ==> (settled + order)[k] < hi
  {
    OrderMembers(order, lo, hi);
    var all := settled + order;
    forall k | 0 <= k < |all|
      ensures if k < |settled| then all[k] / size < lo / size else all[k] / size == lo / size
    {
      AroundStart(all[k], lo, size);
    }
  }

  lemma JoinOrders(settled: seq<nat>, order: seq<nat>, lo: nat, hi: nat)
    requires lo <= hi && multiset(settled) == multiset(Range(0, lo)) && CompletionOrder(order, lo, hi)
    ensures multiset(settled + order) == multiset(Range(0, hi))
  {
    RangeJoin(0, lo, hi);
    assert multiset(Range(0, lo) + Range(lo, hi)) == multiset(Range(0, lo)) + multiset(Range(lo, hi));
  }

  /**
   * `batchRun`: for any positive batch size and any completion order within the batches, the results come
   * in item order, every call is made once, never more than `size` of them are in flight, and no call of a
   * later batch completes before one of an earlier batch.
   */
  method BatchRun<R(0)>(n: nat, size: nat, reply: nat -> R, order: nat -> seq<nat>)
    returns (results: seq<R>, settled: seq<nat>, peak: nat)
    requires size > 0
    requires forall lo: nat | lo < n && lo % size == 0 :: CompletionOrder(order(lo), lo, Min(lo + size, n))
    ensures |results| == n && forall k :: 0 <= k < n ==> results[k] == reply(k)
    ensures multiset(settled) == multiset(Range(0, n))
    ensures BatchByBatch(settled, size)
    ensures peak <= size
  {
    results, settled, peak := [], [], 0;
    var i: nat := 0;
    while i < n
      invariant i == |results| <= n && (i % size == 0 || i == n)
      invariant forall k :: 0 <= k < i ==> results[k] == reply(k)
      invariant multiset(settled) == multiset(Range(0, i))
      invariant BatchByBatch(settled, size) && forall k :: 0 <= k < |settled| ==> settled[k] < i
      invariant peak <= size
    {
      var end: nat := Min(i + size, n);
      var batchResults, now, width := PromiseAll(i, end, reply, order(i), settled);
      AppendBatch(settled, order(i), i, end, size);
      JoinOrders(settled, order(i), i, end);
      AroundStart(i, i, size);
      results, settled := results + batchResults, now;
      peak := if peak < width then width else peak;
      i := end;
    }
  }

  /** `Math.ceil(n / size)`. */
  function WaveCount(n: nat, size: nat): nat
    requires size > 0
  {
    (n + size - 1) / size
  }

  /** The users of one login wave. */
  function Wave(n: nat, size: nat, wave: nat): seq<nat>
    requires size > 0
  {
    if wave * size < n then Range(wave * size, Min(wave * size + size, n)) else []
  }

  function Waves(n: nat, size: nat, count: nat): seq<nat>
    requires size > 0
  {
    if count == 0 then [] else Waves(n, size, count - 1) + Wave(n, size, count - 1)
  }

  lemma {:induction false} WavesPrefix(n: nat, size: nat, count: nat)
    requires size > 0 && (count == 0 || (count - 1) * size < n)
    ensures Waves(n, size, count) == Range(0, Min(count * size, n))
    decreases count
  {
    if count > 0 {
      var w := count - 1;
      assert count * size == w * size + size;
      assert w > 0 ==> (w - 1) * size + size == w * size;
      WavesPrefix(n, size, w);
      RangeJoin(0, w * size, Min(w * size + size, n));
    }
  }

  lemma WaveCountBounds(n: nat, size: nat)
    requires size > 0
    ensures n <= WaveCount(n, size) * size
    ensures WaveCount(n, size) > 0 ==> (WaveCount(n, size) - 1) * size < n
  {
    var m := n + size - 1;
    var c := m / size;
    assert m == c * size + m % size;
    assert c > 0 ==> (c - 1) * size == c * size - size;
  }

  /** The waves visit every user exactly once, in order, and no wave is empty. */
  lemma WavesExact(n: nat, size: nat)
    requires size > 0
    ensures Waves(n, size, WaveCount(n, size)) == Range(0, n)
    ensures forall w: nat :: w < WaveCount(n, size) ==> 0 < |Wave(n, size, w)| <= size
  {
    WaveCountBounds(n, size);
    WavesPrefix(n, size, WaveCount(n, size));
    forall w: nat | w < WaveCount(n, size)
      ensures 0 < |Wave(n, size, w)| <= size
    {
      NotPast(w, WaveCount(n, size) - 1, size);
    }
  }

  /** How many of the first n jobs user u gets under `i % users`. */
  function Load(n: nat, users: nat, u: nat): nat
    requires users > 0
  {
    if n == 0 then 0 else Load(n - 1, users, u) + (if (n - 1) % users == u then 1 else 0)
  }

  lemma StepMod(n: nat, users: nat)
    requires users > 0
    ensures n % users + 1 < users ==> (n + 1) / users == n / users && (n + 1) % users == n % users + 1
    ensures n % users + 1 == users ==> (n + 1) / users == n / users + 1 && (n + 1) % users == 0
  {
    var q, r := n / users, n % users;
    assert n == q * users + r;
    if r + 1 < users {
      Between(n + 1, q, users);
    } else {
      assert n + 1 == (q + 1) * users;
      Between(n + 1, q + 1, users);
    }
  }

  /** Every user gets the floor or the ceiling of the average number of attempts; the first ones the ceiling. */
  lemma {:induction false} RoundRobinFair(n: nat, users: nat, u: nat)
    requires u < users
    ensures Load(n, users, u) == n / users + (if u < n % users then 1 else 0)
    decreases n
  {
    if n > 0 {
      RoundRobinFair(n - 1, users, u);
      StepMod(n - 1, users);
    }
  }
}
