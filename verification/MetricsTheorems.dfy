/** What the recorded metrics say about the log of calls, in whatever order the calls finished. */
module MetricsTheorems {
  import opened Wrappers
  import opened Seqs
  import opened Percentiles
  import opened CallLog
  import opened LoadMetrics

  function TallyOf(log: seq<Call>): Tally {
    if log == [] then Empty else Add(TallyOf(log[..|log| - 1]), log[|log| - 1])
  }

  function Latencies(log: seq<Call>): seq<real> {
    Map(Filter(log, Timed), Latency)
  }

  /** max is the largest of the values and 0. */
  ghost predicate IsMaximum(values: seq<real>, max: real) {
    (max == 0.0 || max in values) && 0.0 <= max && forall i :: 0 <= i < |values| ==> values[i] <= max
  }

  ghost predicate IsMinimum(values: seq<real>, min: Option<real>) {
    if values == [] then min == None
    else min.Some? && min.value in values && forall i :: 0 <= i < |values| ==> min.value <= values[i]
  }

  ghost predicate CountsErrors(log: seq<Call>, errors: map<string, nat>) {
    forall k :: Count(errors, k) == |Filter(log, FailsWith(k))| && (k in errors <==> Count(errors, k) > 0)
  }

  lemma LatenciesAppend(log: seq<Call>, c: Call)
    ensures Latencies(log + [c]) == if Timed(c) then Latencies(log) + [c.latency] else Latencies(log)
  {
    FilterAppend(log, c, Timed);
  }

  lemma CountsErrorsAppend(log: seq<Call>, c: Call, t: Tally)
    requires CountsErrors(log, t.errors)
    ensures CountsErrors(log + [c], Add(t, c).errors)
  {
    forall k
      ensures var e := Add(t, c).errors;
              Count(e, k) == |Filter(log + [c], FailsWith(k))| && (k in e <==> Count(e, k) > 0)
    {
      FilterAppend(log, c, FailsWith(k));
      assert Count(t.errors, k) == |Filter(log, FailsWith(k))|;
    }
  }

  /** The counters of a log are the counts one would make on the log itself. */
  ghost predicate Describes(t: Tally, log: seq<Call>) {
    && t.total == |log|
    && t.success == |Filter(log, IsSuccess)|
    && t.failed == |Filter(log, IsFailure)|
    && CountsErrors(log, t.errors)
    && t.latencySum == Total(log, TimedLatency)
    && IsMaximum(Latencies(log), t.latencyMax)
  }

  lemma MaximumAppend(values: seq<real>, max: real, x: real)
    requires IsMaximum(values, max) && x >= 0.0
    ensures IsMaximum(values + [x], Max(max, x))
  {
  }

  lemma DescribesAppend(t: Tally, log: seq<Call>, c: Call)
    requires Describes(t, log)
    ensures Describes(Add(t, c), log + [c])
  {
    FilterAppend(log, c, IsSuccess);
    FilterAppend(log, c, IsFailure);
    CountsErrorsAppend(log, c, t);
    TotalAppend(log, c, TimedLatency);
    LatenciesAppend(log, c);
    if Timed(c) {
      MaximumAppend(Latencies(log), t.latencyMax, c.latency);
    }
  }

  lemma {:induction false} TallyDescribes(log: seq<Call>)
    ensures Describes(TallyOf(log), log)
    decreases |log|
  {
    if log != [] {
      TallyDescribes(log[..|log| - 1]);
      DescribesAppend(TallyOf(log[..|log| - 1]), log[..|log| - 1], log[|log| - 1]);
      assert log == log[..|log| - 1] + [log[|log| - 1]];
    }
  }

  lemma TallyAppend(log: seq<Call>, c: Call)
    ensures TallyOf(log + [c]) == Add(TallyOf(log), c)
  {
    assert (log + [c])[..|log|] == log;
  }

  lemma MinimumAppend(values: seq<real>, min: Option<real>, x: real)
    requires IsMinimum(values, min)
    ensures IsMinimum(values + [x], Some(Lower(min, x)))
  {
    assert (values + [x])[|values|] == x;
    assert min.Some? ==> exists i :: 0 <= i < |values| && values[i] == min.value;
  }

  /** The metrics are what the log splits into: all of it, its timed latencies, and one part per endpoint. */
  ghost predicate SplitsInto(m: Metrics, log: seq<Call>) {
    && m.all == TallyOf(log)
    && m.samples == Latencies(log)
    && IsMinimum(Latencies(log), m.min)
    && m.endpoints.Keys == Endpoints(log)
    && forall e :: EndpointIs(m, log, e)
  }

  /** The endpoint's record, zeros if it has none, is the tally of its own calls. */
  ghost predicate EndpointIs(m: Metrics, log: seq<Call>, e: string) {
    TallyAt(m.endpoints, e) == TallyOf(Filter(log, On(e)))
  }

  lemma GroupTallyAppend(log: seq<Call>, c: Call, e: string)
    ensures TallyOf(Filter(log + [c], On(e)))
         == if e == c.endpoint then Add(TallyOf(Filter(log, On(e))), c) else TallyOf(Filter(log, On(e)))
  {
    FilterAppend(log, c, On(e));
    var group, longer := Filter(log, On(e)), Filter(log + [c], On(e));
    assert On(e)(c) == (EndpointOf(c) == e);
    assert longer == if e == c.endpoint then group + [c] else group + [];
    assert group + [] == group;
    TallyAppend(group, c);
  }

  lemma RecordEndpoint(m: Metrics, c: Call, e: string)
    ensures TallyAt(Record(m, c).endpoints, e)
         == if e == c.endpoint then Add(TallyAt(m.endpoints, e), c) else TallyAt(m.endpoints, e)
  {
    if e == c.endpoint {
      assert TallyAt(Record(m, c).endpoints, e) == Add(TallyAt(m.endpoints, e), c);
    } else {
      assert TallyAt(Record(m, c).endpoints, e) == TallyAt(m.endpoints, e);
    }
  }

  lemma EndpointAppend(m: Metrics, log: seq<Call>, c: Call, e: string)
    requires EndpointIs(m, log, e)
    ensures EndpointIs(Record(m, c), log + [c], e)
  {
    GroupTallyAppend(log, c, e);
    RecordEndpoint(m, c, e);
  }

  lemma RecordSplits(m: Metrics, log: seq<Call>, c: Call)
    requires SplitsInto(m, log)
    ensures SplitsInto(Record(m, c), log + [c])
  {
    TallyAppend(log, c);
    LatenciesAppend(log, c);
    MinimumAppend(Latencies(log), m.min, c.latency);
    GroupsAppend(log, c, EndpointOf);
    forall e {
      EndpointAppend(m, log, c, e);
    }
  }

  /** Replaying a log yields the tally of the log, and for each endpoint the tally of its own calls. */
  lemma {:induction false} ReplaySplits(log: seq<Call>)
    ensures SplitsInto(Replay(log), log)
    decreases |log|
  {
    if log == [] {
      assert Endpoints(log) == {};
      forall e ensures EndpointIs(Fresh, log, e) {
        assert Filter(log, On(e)) == [];
      }
    } else {
      ReplaySplits(log[..|log| - 1]);
      RecordSplits(Replay(log[..|log| - 1]), log[..|log| - 1], log[|log| - 1]);
      assert log == log[..|log| - 1] + [log[|log| - 1]];
    }
  }

  /** What of that concerns the log as a whole. */
  lemma {:induction false} ReplayWhole(log: seq<Call>)
    ensures Replay(log).all == TallyOf(log) && Replay(log).samples == Latencies(log)
    ensures IsMinimum(Latencies(log), Replay(log).min) && Replay(log).endpoints.Keys == Endpoints(log)
  {
    ReplaySplits(log);
  }

  /** What of that concerns one endpoint. */
  lemma {:induction false} ReplayAt(log: seq<Call>, e: string)
    ensures TallyAt(Replay(log).endpoints, e) == TallyOf(Filter(log, On(e)))
  {
    ReplaySplits(log);
    assert EndpointIs(Replay(log), log, e);
  }

  lemma {:induction false} SuccessOrFailure(log: seq<Call>)
    ensures |Filter(log, IsSuccess)| + |Filter(log, IsFailure)| == |log|
    decreases |log|
  {
    if log != [] {
      SuccessOrFailure(log[..|log| - 1]);
    }
  }

  /** After any sequence of calls the global counters count the log. */
  lemma {:induction false} ReplayCounts(log: seq<Call>)
    ensures Describes(Replay(log).all, log)
    ensures Replay(log).all.total == Replay(log).all.success + Replay(log).all.failed
    ensures Replay(log).samples == Latencies(log) && IsMinimum(Latencies(log), Replay(log).min)
  {
    ReplayWhole(log);
    TallyDescribes(log);
    SuccessOrFailure(log);
  }

  /** One number per endpoint, 0 for an endpoint without a record. */
  ghost function PerTally(endpoints: map<string, Tally>, pick: Tally -> real): string -> real {
    (e: string) => if e in endpoints then pick(endpoints[e]) else 0.0
  }

  lemma SumPerTally(log: seq<Call>, pick: Tally -> real, w: Call -> real)
    requires forall l: seq<Call> :: pick(TallyOf(l)) == Total(l, w)
    ensures pick(Replay(log).all)
         == SumOver(Replay(log).endpoints.Keys, PerTally(Replay(log).endpoints, pick))
  {
    ReplayWhole(log);
    GroupsPartition(log, EndpointOf, w);
    var keys := Endpoints(log);
    forall e | e in keys
      ensures PerTally(Replay(log).endpoints, pick)(e) == PerGroup(log, EndpointOf, w)(e)
    {
      ReplayAt(log, e);
      assert pick(TallyOf(Filter(log, On(e)))) == Total(Filter(log, On(e)), w);
    }
    SumOverSame(keys, PerTally(Replay(log).endpoints, pick), PerGroup(log, EndpointOf, w));
  }

  function TotalField(t: Tally): real {
    t.total as real
  }

  function SuccessField(t: Tally): real {
    t.success as real
  }

  function FailedField(t: Tally): real {
    t.failed as real
  }

  function LatencyField(t: Tally): real {
    t.latencySum
  }

  function ErrorField(k: string): Tally -> real {
    (t: Tally) => Count(t.errors, k) as real
  }

  predicate Always(c: Call) {
    true
  }

  ghost function SumField(log: seq<Call>, pick: Tally -> real): real {
    SumOver(Replay(log).endpoints.Keys, PerTally(Replay(log).endpoints, pick))
  }

  lemma {:induction false} FilterAlways(log: seq<Call>)
    ensures Filter(log, Always) == log
    decreases |log|
  {
    if log != [] {
      FilterAlways(log[..|log| - 1]);
    }
  }

  /** Every global total, and every global error count, is the sum over the endpoints. */
  lemma GlobalIsSumOfEndpoints(log: seq<Call>, k: string)
    ensures Replay(log).all.total as real == SumField(log, TotalField)
    ensures Replay(log).all.success as real == SumField(log, SuccessField)
    ensures Replay(log).all.failed as real == SumField(log, FailedField)
    ensures Replay(log).all.latencySum == SumField(log, LatencyField)
    ensures Count(Replay(log).all.errors, k) as real == SumField(log, ErrorField(k))
  {
    forall l: seq<Call>
      ensures TotalField(TallyOf(l)) == Total(l, Indicator(Always))
      ensures SuccessField(TallyOf(l)) == Total(l, Indicator(IsSuccess))
      ensures FailedField(TallyOf(l)) == Total(l, Indicator(IsFailure))
      ensures LatencyField(TallyOf(l)) == Total(l, TimedLatency)
      ensures ErrorField(k)(TallyOf(l)) == Total(l, Indicator(FailsWith(k)))
    {
      TallyDescribes(l);
      FilterAlways(l);
      CountTotal(l, Always);
      CountTotal(l, IsSuccess);
      CountTotal(l, IsFailure);
      CountTotal(l, FailsWith(k));
    }
    SumPerTally(log, TotalField, Indicator(Always));
    SumPerTally(log, SuccessField, Indicator(IsSuccess));
    SumPerTally(log, FailedField, Indicator(IsFailure));
    SumPerTally(log, LatencyField, TimedLatency);
    SumPerTally(log, ErrorField(k), Indicator(FailsWith(k)));
  }

  lemma LatencyOnEndpoint(log: seq<Call>, c: Call)
    requires c in log && Timed(c)
    ensures c.latency in Latencies(Filter(log, On(c.endpoint)))
  {
    assert EndpointOf(c) == c.endpoint;
    assert Where(EndpointOf, c.endpoint)(c);
    FilterIn(log, On(c.endpoint), c);
    LatencyInLog(Filter(log, On(c.endpoint)), c);
  }

  lemma LatencyOfCall(log: seq<Call>, x: real)
    requires x in Latencies(log)
    ensures exists c :: c in log && Timed(c) && c.latency == x
  {
    var timed := Filter(log, Timed);
    var i :| 0 <= i < |timed| && Latencies(log)[i] == x;
    FilterIn(log, Timed, timed[i]);
  }

  /** No endpoint's maximum is above the maximum of the log. */
  lemma EndpointMaxBelow(log: seq<Call>, e: string)
    ensures TallyOf(Filter(log, On(e))).latencyMax <= TallyOf(log).latencyMax
  {
    var own := Filter(log, On(e));
    TallyDescribes(own);
    TallyDescribes(log);
    if TallyOf(own).latencyMax > 0.0 {
      LatencyOfCall(own, TallyOf(own).latencyMax);
      var c :| c in own && Timed(c) && c.latency == TallyOf(own).latencyMax;
      FilterIn(log, On(e), c);
      LatencyInLog(log, c);
    }
  }

  /** A positive maximum of the log is reached by the endpoint of some call. */
  lemma EndpointMaxReached(log: seq<Call>) returns (c: Call)
    requires TallyOf(log).latencyMax > 0.0
    ensures c in log && TallyOf(Filter(log, On(c.endpoint))).latencyMax == TallyOf(log).latencyMax
  {
    TallyDescribes(log);
    LatencyOfCall(log, TallyOf(log).latencyMax);
    c :| c in log && Timed(c) && c.latency == TallyOf(log).latencyMax;
    LatencyOnEndpoint(log, c);
    TallyDescribes(Filter(log, On(c.endpoint)));
    EndpointMaxBelow(log, c.endpoint);
  }

  /** The global maximum latency is the largest of the endpoints' maxima. */
  lemma {:induction false} GlobalMaxIsMaxOfEndpoints(log: seq<Call>)
    ensures var r := Replay(log);
            && (forall e | e in r.endpoints :: r.endpoints[e].latencyMax <= r.all.latencyMax)
            && (r.all.latencyMax > 0.0 ==>
                  exists e :: e in r.endpoints && r.endpoints[e].latencyMax == r.all.latencyMax)
  {
    var r := Replay(log);
    ReplayWhole(log);
    forall e | e in r.endpoints
      ensures r.endpoints[e].latencyMax <= r.all.latencyMax
    {
      ReplayAt(log, e);
      EndpointMaxBelow(log, e);
    }
    if r.all.latencyMax > 0.0 {
      var c := EndpointMaxReached(log);
      ReplayAt(log, c.endpoint);
      assert EndpointOf(c) in Endpoints(log);
      assert c.endpoint in r.endpoints;
    }
  }

  lemma LatencyInLog(log: seq<Call>, c: Call)
    requires c in log && Timed(c)
    ensures c.latency in Latencies(log)
  {
    FilterIn(log, Timed, c);
    var i :| 0 <= i < |Filter(log, Timed)| && Filter(log, Timed)[i] == c;
    assert Latencies(log)[i] == c.latency;
  }

  function CountIn(errors: map<string, nat>): string -> real {
    (k: string) => Count(errors, k) as real
  }

  lemma {:induction false} FilterTwice(log: seq<Call>, k: string)
    ensures Filter(Filter(log, IsFailure), Where(ErrKey, k)) == Filter(log, FailsWith(k))
    decreases |log|
  {
    if log != [] {
      var init, c := log[..|log| - 1], log[|log| - 1];
      FilterTwice(init, k);
      if IsFailure(c) {
        FilterAppend(Filter(init, IsFailure), c, Where(ErrKey, k));
      } else {
        assert Filter(log, IsFailure) == Filter(init, IsFailure);
        assert Filter(log, FailsWith(k)) == Filter(init, FailsWith(k));
      }
    }
  }

  /** The error histogram adds up to the number of failed calls. */
  lemma HistogramAddsUp(log: seq<Call>)
    ensures Replay(log).all.failed as real
         == SumOver(Replay(log).all.errors.Keys, CountIn(Replay(log).all.errors))
  {
    ReplayCounts(log);
    var failing, errors := Filter(log, IsFailure), Replay(log).all.errors;
    GroupsPartition(failing, ErrKey, Indicator(Always));
    FilterAlways(failing);
    CountTotal(failing, Always);
    forall k
      ensures PerGroup(failing, ErrKey, Indicator(Always))(k) == CountIn(errors)(k)
      ensures k in errors <==> k in Groups(failing, ErrKey)
    {
      var same := Filter(failing, Where(ErrKey, k));
      FilterTwice(log, k);
      FilterAlways(same);
      CountTotal(same, Always);
      assert Count(errors, k) == |same|;
      if k in errors {
        FilterIn(failing, Where(ErrKey, k), same[0]);
      } else if k in Groups(failing, ErrKey) {
        var c :| c in failing && ErrKey(c) == k;
        FilterIn(failing, Where(ErrKey, k), c);
      }
    }
    assert errors.Keys == Groups(failing, ErrKey);
    SumOverSame(errors.Keys, PerGroup(failing, ErrKey, Indicator(Always)), CountIn(errors));
  }

  lemma MaximumUnique(a: seq<real>, b: seq<real>, m: real, n: real)
    requires multiset(a) == multiset(b) && IsMaximum(a, m) && IsMaximum(b, n)
    ensures m == n
  {
    assert m in a ==> m in multiset(b);
    assert n in b ==> n in multiset(a);
  }

  lemma MinimumUnique(a: seq<real>, b: seq<real>, m: Option<real>, n: Option<real>)
    requires multiset(a) == multiset(b) && IsMinimum(a, m) && IsMinimum(b, n)
    ensures m == n
  {
    assert |multiset(a)| == |multiset(b)|;
    if a != [] {
      assert m.value in multiset(b) && n.value in multiset(a);
    }
  }

  lemma LatenciesPermutation(a: seq<Call>, b: seq<Call>)
    requires multiset(a) == multiset(b)
    ensures multiset(Latencies(a)) == multiset(Latencies(b))
  {
    FilterPermutation(a, b, Timed);
    MapPermutation(Filter(a, Timed), Filter(b, Timed), Latency);
  }

  lemma ErrorsUnique(a: seq<Call>, b: seq<Call>, e: map<string, nat>, f: map<string, nat>)
    requires multiset(a) == multiset(b) && CountsErrors(a, e) && CountsErrors(b, f)
    ensures e == f
  {
    forall k
      ensures Count(e, k) == Count(f, k) && (k in e <==> k in f)
    {
      FilterPermutation(a, b, FailsWith(k));
    }
    assert e.Keys == f.Keys;
    forall k | k in e
      ensures e[k] == f[k]
    {
      assert Count(e, k) == Count(f, k);
    }
  }

  lemma TallyPermutation(a: seq<Call>, b: seq<Call>)
    requires multiset(a) == multiset(b)
    ensures TallyOf(a) == TallyOf(b)
  {
    TallyDescribes(a);
    TallyDescribes(b);
    assert |multiset(a)| == |multiset(b)|;
    FilterPermutation(a, b, IsSuccess);
    FilterPermutation(a, b, IsFailure);
    TotalPermutation(a, b, TimedLatency);
    ErrorsUnique(a, b, TallyOf(a).errors, TallyOf(b).errors);
    LatenciesPermutation(a, b);
    MaximumUnique(Latencies(a), Latencies(b), TallyOf(a).latencyMax, TallyOf(b).latencyMax);
  }

  lemma SameEndpoints(a: seq<Call>, b: seq<Call>)
    requires multiset(a) == multiset(b)
    ensures Endpoints(a) == Endpoints(b)
  {
    forall c
      ensures c in a <==> c in b
    {
      assert c in multiset(a) <==> c in multiset(b);
    }
  }

  lemma EndpointPermutation(a: seq<Call>, b: seq<Call>, e: string)
    requires multiset(a) == multiset(b)
    ensures TallyOf(Filter(a, On(e))) == TallyOf(Filter(b, On(e)))
  {
    FilterPermutation(a, b, On(e));
    TallyPermutation(Filter(a, On(e)), Filter(b, On(e)));
  }

  lemma EndpointsPermutation(a: seq<Call>, b: seq<Call>)
    requires multiset(a) == multiset(b)
    ensures Replay(a).endpoints == Replay(b).endpoints
  {
    ReplayWhole(a);
    ReplayWhole(b);
    SameEndpoints(a, b);
    var x, y := Replay(a).endpoints, Replay(b).endpoints;
    assert x.Keys == y.Keys;
    forall e | e in x
      ensures x[e] == y[e]
    {
      EndpointPermutation(a, b, e);
      ReplayAt(a, e);
      ReplayAt(b, e);
    }
  }

  /** Completion order does not matter: permuted logs give the same metrics and the same percentiles. */
  lemma {:induction false} CompletionOrderIrrelevant(a: seq<Call>, b: seq<Call>, p: real)
    requires multiset(a) == multiset(b)
    ensures Replay(a).all == Replay(b).all
    ensures Replay(a).min == Replay(b).min
    ensures Replay(a).endpoints == Replay(b).endpoints
    ensures multiset(Replay(a).samples) == multiset(Replay(b).samples)
    ensures Percentile(Replay(a).samples, p) == Percentile(Replay(b).samples, p)
  {
    ReplayWhole(a);
    ReplayWhole(b);
    TallyPermutation(a, b);
    EndpointsPermutation(a, b);
    LatenciesPermutation(a, b);
    MinimumUnique(Latencies(a), Latencies(b), Replay(a).min, Replay(b).min);
    PercentilePermutation(Replay(a).samples, Replay(b).samples, p);
  }
}
