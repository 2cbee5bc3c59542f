/** One finished HTTP call of a load test, and how a log of calls splits over its endpoints. */
module CallLog {
  import opened Wrappers
  import opened Seqs
  import opened Decimal

  /** `error` is the optional error argument; the empty string counts as no error, as in JavaScript. */
  datatype Call = Call(endpoint: string, status: nat, latency: real, error: Option<string>)

  predicate HasError(c: Call) {
    c.error.Some? && c.error.value != ""
  }

  predicate IsFailure(c: Call) {
    HasError(c) || c.status >= 400
  }

  function ErrKey(c: Call): string {
    if HasError(c) then c.error.value else "HTTP_" + Dec(c.status)
  }

  predicate IsSuccess(c: Call) {
    !IsFailure(c)
  }

  predicate Timed(c: Call) {
    c.latency >= 0.0
  }

  function Latency(c: Call): real {
    c.latency
  }

  function FailsWith(k: string): Call -> bool {
    (c: Call) => IsFailure(c) && ErrKey(c) == k
  }

  function EndpointOf(c: Call): string {
    c.endpoint
  }

  function Where(key: Call -> string, e: string): Call -> bool {
    (c: Call) => key(c) == e
  }

  function On(e: string): Call -> bool {
    Where(EndpointOf, e)
  }

  function TimedLatency(c: Call): real {
    if Timed(c) then c.latency else 0.0
  }

  function Indicator(p: Call -> bool): Call -> real {
    (c: Call) => if p(c) then 1.0 else 0.0
  }

  /** Counting the calls that satisfy p is weighing them with 0 and 1. */
  lemma {:induction false} CountTotal(log: seq<Call>, p: Call -> bool)
    ensures |Filter(log, p)| as real == Total(log, Indicator(p))
    decreases |log|
  {
    if log != [] {
      CountTotal(log[..|log| - 1], p);
    }
  }

  /** The groups a log falls into under a key. */
  ghost function Groups(log: seq<Call>, key: Call -> string): set<string> {
    set c | c in log :: key(c)
  }

  ghost function Endpoints(log: seq<Call>): set<string> {
    Groups(log, EndpointOf)
  }

  ghost function SumOver(keys: set<string>, f: string -> real): real {
    if keys == {} then 0.0 else var k :| k in keys; f(k) + SumOver(keys - {k}, f)
  }

  lemma {:induction false} SumOverTake(keys: set<string>, f: string -> real, k: string)
    requires k in keys
    ensures SumOver(keys, f) == f(k) + SumOver(keys - {k}, f)
    decreases |keys|
  {
    var p :| p in keys && SumOver(keys, f) == f(p) + SumOver(keys - {p}, f);
    if p != k {
      SumOverTake(keys - {p}, f, k);
      SumOverTake(keys - {k}, f, p);
      assert keys - {p} - {k} == keys - {k} - {p};
    }
  }

  lemma {:induction false} SumOverSame(keys: set<string>, f: string -> real, g: string -> real)
    requires forall k | k in keys :: f(k) == g(k)
    ensures SumOver(keys, f) == SumOver(keys, g)
    decreases |keys|
  {
    if keys != {} {
      var k :| k in keys;
      SumOverTake(keys, f, k);
      SumOverTake(keys, g, k);
      SumOverSame(keys - {k}, f, g);
    }
  }

  /** Raising the value at one key, which counted 0 if it was not there, raises the sum by as much. */
  lemma SumOverBump(keys: set<string>, f: string -> real, g: string -> real, k: string, d: real)
    requires forall e | e in keys && e != k :: f(e) == g(e)
    requires g(k) == (if k in keys then f(k) else 0.0) + d
    ensures SumOver(keys + {k}, g) == SumOver(keys, f) + d
  {
    SumOverTake(keys + {k}, g, k);
    SumOverSame(keys - {k}, f, g);
    assert keys + {k} - {k} == keys - {k};
    if k in keys {
      SumOverTake(keys, f, k);
    } else {
      assert keys - {k} == keys;
    }
  }

  function PerGroup(log: seq<Call>, key: Call -> string, w: Call -> real): string -> real {
    (e: string) => Total(Filter(log, Where(key, e)), w)
  }

  lemma NothingElsewhere(log: seq<Call>, key: Call -> string, e: string)
    requires e !in Groups(log, key)
    ensures Filter(log, Where(key, e)) == []
  {
    if Filter(log, Where(key, e)) != [] {
      FilterIn(log, Where(key, e), Filter(log, Where(key, e))[0]);
    }
  }

  lemma ZeroElsewhere(log: seq<Call>, key: Call -> string, w: Call -> real, e: string)
    ensures e !in Groups(log, key) ==> PerGroup(log, key, w)(e) == 0.0
  {
    if e !in Groups(log, key) {
      NothingElsewhere(log, key, e);
    }
  }

  lemma PerGroupAppend(log: seq<Call>, c: Call, key: Call -> string, w: Call -> real, e: string)
    ensures PerGroup(log + [c], key, w)(e) == PerGroup(log, key, w)(e) + (if e == key(c) then w(c) else 0.0)
  {
    FilterAppend(log, c, Where(key, e));
    if e == key(c) {
      TotalAppend(Filter(log, Where(key, e)), c, w);
    } else {
      assert Filter(log + [c], Where(key, e)) == Filter(log, Where(key, e));
    }
  }

  lemma GroupsAppend(log: seq<Call>, c: Call, key: Call -> string)
    ensures Groups(log + [c], key) == Groups(log, key) + {key(c)}
  {
    assert c in log + [c];
    assert forall x :: x in log + [c] <==> x in log || x == c;
  }

  ghost predicate Partitioned(log: seq<Call>, key: Call -> string, w: Call -> real) {
    Total(log, w) == SumOver(Groups(log, key), PerGroup(log, key, w))
  }

  lemma PerGroupSums(log: seq<Call>, c: Call, key: Call -> string, w: Call -> real)
    ensures SumOver(Groups(log, key) + {key(c)}, PerGroup(log + [c], key, w))
         == SumOver(Groups(log, key), PerGroup(log, key, w)) + w(c)
  {
    var f, g, e := PerGroup(log, key, w), PerGroup(log + [c], key, w), key(c);
    forall k
      ensures g(k) == f(k) + (if k == e then w(c) else 0.0)
    {
      PerGroupAppend(log, c, key, w, k);
    }
    ZeroElsewhere(log, key, w, e);
    SumOverBump(Groups(log, key), f, g, e, w(c));
  }

  lemma PartitionStep(log: seq<Call>, c: Call, key: Call -> string, w: Call -> real)
    requires Partitioned(log, key, w)
    ensures Partitioned(log + [c], key, w)
  {
    PerGroupSums(log, c, key, w);
    GroupsAppend(log, c, key);
    TotalAppend(log, c, w);
  }

  /** Whatever is weighed and however the calls are grouped, the log weighs as much as its groups together. */
  lemma {:induction false} GroupsPartition(log: seq<Call>, key: Call -> string, w: Call -> real)
    ensures Partitioned(log, key, w)
    decreases |log|
  {
    if log == [] {
      assert Groups(log, key) == {};
    } else {
      var init, c := log[..|log| - 1], log[|log| - 1];
      GroupsPartition(init, key, w);
      PartitionStep(init, c, key, w);
      assert log == init + [c];
    }
  }
}
