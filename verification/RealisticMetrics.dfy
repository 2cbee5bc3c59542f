/** The phase 3 recorder of the realistic load test, which keeps a latency list per endpoint. */
module RealisticMetrics {
  import opened Wrappers
  import opened Seqs
  import opened CallLog
  import opened MetricsTheorems
  import M = LoadMetrics

  datatype Endpoint = Endpoint(total: nat, success: nat, failed: nat, latencySum: real, latencyMax: real,
                               latencies: seq<real>)

  const NewEndpoint := Endpoint(0, 0, 0, 0.0, 0.0, [])

  datatype Phase3 = Phase3(total: nat, success: nat, failed: nat, latencies: seq<real>,
                           endpoints: map<string, Endpoint>, errors: map<string, nat>)

  const Start := Phase3(0, 0, 0, [], map[], map[])

  function AddTo(e: Endpoint, c: Call): Endpoint {
    Endpoint(e.total + 1,
             if IsFailure(c) then e.success else e.success + 1,
             if IsFailure(c) then e.failed + 1 else e.failed,
             if Timed(c) then e.latencySum + c.latency else e.latencySum,
             if Timed(c) then M.Max(e.latencyMax, c.latency) else e.latencyMax,
             if Timed(c) then e.latencies + [c.latency] else e.latencies)
  }

  function EndpointAt(endpoints: map<string, Endpoint>, e: string): Endpoint {
    if e in endpoints then endpoints[e] else NewEndpoint
  }

  function Record(p: Phase3, c: Call): Phase3 {
    Phase3(p.total + 1,
           if IsFailure(c) then p.success else p.success + 1,
           if IsFailure(c) then p.failed + 1 else p.failed,
           if Timed(c) then p.latencies + [c.latency] else p.latencies,
           p.endpoints[c.endpoint := AddTo(EndpointAt(p.endpoints, c.endpoint), c)],
           if IsFailure(c) then p.errors[ErrKey(c) := M.Count(p.errors, ErrKey(c)) + 1] else p.errors)
  }

  class EndpointRecord {
    var total: nat
    var success: nat
    var failed: nat
    var latencySum: real
    var latencyMax: real
    var latencies: seq<real>

    ghost function Value(): Endpoint
      reads this
    {
      Endpoint(total, success, failed, latencySum, latencyMax, latencies)
    }

    constructor ()
      ensures Value() == NewEndpoint
    {
      total, success, failed := 0, 0, 0;
      latencySum, latencyMax, latencies := 0.0, 0.0, [];
    }

    /** The part of `recordPhase3` that updates the endpoint's record. */
    method Note(c: Call)
      modifies this
      ensures Value() == AddTo(old(Value()), c)
    {
      total := total + 1;
      if IsFailure(c) {
        failed := failed + 1;
      } else {
        success := success + 1;
      }
      if c.latency >= 0.0 {
        latencies := latencies + [c.latency];
        latencySum := latencySum + c.latency;
        latencyMax := M.Max(latencyMax, c.latency);
      }
    }
  }

  class Recorder {
    var total: nat
    var success: nat
    var failed: nat
    var latencies: seq<real>
    var endpoints: map<string, EndpointRecord>
    var errors: map<string, nat>

    /** No two endpoints share a record. */
    ghost predicate Valid()
      reads `endpoints
    {
      forall e, f | e in endpoints && f in endpoints && endpoints[e] == endpoints[f] :: e == f
    }

    ghost function Endpoints(): map<string, Endpoint>
      reads `endpoints, endpoints.Values
    {
      map e | e in endpoints :: endpoints[e].Value()
    }

    ghost function Value(): Phase3
      reads this, endpoints.Values
    {
      Phase3(total, success, failed, latencies, Endpoints(), errors)
    }

    constructor ()
      ensures Valid() && Value() == Start && fresh(endpoints.Values)
    {
      total, success, failed := 0, 0, 0;
      latencies, endpoints, errors := [], map[], map[];
    }

    /** The part of `recordPhase3` that updates the global counters and samples. */
    method Note(c: Call)
      modifies `total, `success, `failed, `latencies, `errors
      ensures total == old(total) + 1
      ensures success == if IsFailure(c) then old(success) else old(success) + 1
      ensures failed == if IsFailure(c) then old(failed) + 1 else old(failed)
      ensures latencies == if Timed(c) then old(latencies) + [c.latency] else old(latencies)
      ensures errors
           == if IsFailure(c) then old(errors)[ErrKey(c) := M.Count(old(errors), ErrKey(c)) + 1] else old(errors)
    {
      total := total + 1;
      if IsFailure(c) {
        failed := failed + 1;
        errors := errors[ErrKey(c) := M.Count(errors, ErrKey(c)) + 1];
      } else {
        success := success + 1;
      }
      if c.latency >= 0.0 {
        latencies := latencies + [c.latency];
      }
    }

    /** The endpoint's record, created with zeros on first use. */
    method RecordFor(endpoint: string) returns (ep: EndpointRecord)
      requires Valid()
      modifies `endpoints
      ensures Valid() && endpoint in endpoints && endpoints[endpoint] == ep
      ensures fresh(endpoints.Values - old(endpoints.Values))
      ensures Endpoints() == old(Endpoints())[endpoint := EndpointAt(old(Endpoints()), endpoint)]
    {
      if endpoint !in endpoints {
        var created := new EndpointRecord();
        endpoints := endpoints[endpoint := created];
      }
      ep := endpoints[endpoint];
    }

    /** Changing one record in place changes the value of its endpoint and of no other. */
    method NoteIn(ep: EndpointRecord, c: Call)
      requires Valid() && c.endpoint in endpoints && endpoints[c.endpoint] == ep
      modifies ep
      ensures Valid()
      ensures Endpoints() == old(Endpoints())[c.endpoint := AddTo(old(Endpoints())[c.endpoint], c)]
    {
      ghost var was := Endpoints();
      ep.Note(c);
      forall e | e in endpoints
        ensures endpoints[e].Value() == if e == c.endpoint then AddTo(was[e], c) else was[e]
      {
        assert e != c.endpoint ==> endpoints[e] != ep;
      }
    }

    method NoteEndpoint(c: Call)
      requires Valid()
      modifies `endpoints, endpoints.Values
      ensures Valid() && fresh(endpoints.Values - old(endpoints.Values))
      ensures Endpoints() == old(Endpoints())[c.endpoint := AddTo(EndpointAt(old(Endpoints()), c.endpoint), c)]
    {
      var ep := RecordFor(c.endpoint);
      ghost var found := Endpoints();
      NoteIn(ep, c);
      assert found[c.endpoint := AddTo(found[c.endpoint], c)]
          == old(Endpoints())[c.endpoint := AddTo(EndpointAt(old(Endpoints()), c.endpoint), c)];
    }

    method RecordPhase3(endpoint: string, statusCode: nat, latencyMs: real, error: Option<string>)
      requires Valid()
      modifies this, endpoints.Values
      ensures Valid() && fresh(endpoints.Values - old(endpoints.Values))
      ensures Value() == Record(old(Value()), Call(endpoint, statusCode, latencyMs, error))
    {
      var c := Call(endpoint, statusCode, latencyMs, error);
      ghost var was := Endpoints();
      Note(c);
      assert Endpoints() == was;
      NoteEndpoint(c);
    }
  }

  function Replay(log: seq<Call>): Phase3 {
    if log == [] then Start else Record(Replay(log[..|log| - 1]), log[|log| - 1])
  }

  /** The latency list kept for an endpoint, empty while the endpoint has no record. */
  function Kept(p: Phase3, e: string): seq<real> {
    EndpointAt(p.endpoints, e).latencies
  }

  /** The endpoint's counters are those the other recorder keeps. */
  ghost predicate SameCounts(e: Endpoint, t: M.Tally) {
    && e.total == t.total && e.success == t.success && e.failed == t.failed
    && e.latencySum == t.latencySum && e.latencyMax == t.latencyMax
  }

  ghost predicate SameGlobals(p: Phase3, m: M.Metrics) {
    && p.total == m.all.total && p.success == m.all.success && p.failed == m.all.failed
    && p.errors == m.all.errors && p.latencies == m.samples
    && p.endpoints.Keys == m.endpoints.Keys
  }

  ghost predicate SameEndpoint(p: Phase3, m: M.Metrics, e: string) {
    SameCounts(EndpointAt(p.endpoints, e), M.TallyAt(m.endpoints, e))
  }

  lemma RecordEndpointAt(p: Phase3, c: Call, e: string)
    ensures EndpointAt(Record(p, c).endpoints, e)
         == if e == c.endpoint then AddTo(EndpointAt(p.endpoints, e), c) else EndpointAt(p.endpoints, e)
  {
    if e == c.endpoint {
      assert EndpointAt(Record(p, c).endpoints, e) == AddTo(EndpointAt(p.endpoints, e), c);
    } else {
      assert EndpointAt(Record(p, c).endpoints, e) == EndpointAt(p.endpoints, e);
    }
  }

  lemma RecordSameGlobals(p: Phase3, m: M.Metrics, c: Call)
    requires SameGlobals(p, m)
    ensures SameGlobals(Record(p, c), M.Record(m, c))
  {
  }

  lemma RecordSameEndpoint(p: Phase3, m: M.Metrics, c: Call, e: string)
    requires SameEndpoint(p, m, e)
    ensures SameEndpoint(Record(p, c), M.Record(m, c), e)
  {
    RecordEndpointAt(p, c, e);
    RecordEndpoint(m, c, e);
  }

  /** On any log the two load tests' recorders agree, globally and per endpoint. */
  lemma {:induction false} RecordersAgree(log: seq<Call>, e: string)
    ensures SameGlobals(Replay(log), M.Replay(log)) && SameEndpoint(Replay(log), M.Replay(log), e)
    decreases |log|
  {
    if log != [] {
      var init, c := log[..|log| - 1], log[|log| - 1];
      RecordersAgree(init, e);
      RecordSameGlobals(Replay(init), M.Replay(init), c);
      RecordSameEndpoint(Replay(init), M.Replay(init), c, e);
    }
  }

  /** The counters of phase 3, global and per endpoint, are the counts one would make on the log itself. */
  lemma {:induction false} Phase3Counts(log: seq<Call>, e: string)
    ensures var p, own := Replay(log), Filter(log, On(e));
            && p.total == |log| == p.success + p.failed
            && p.failed == |Filter(log, IsFailure)| && CountsErrors(log, p.errors)
            && p.latencies == Latencies(log)
            && EndpointAt(p.endpoints, e).total == |own|
            && EndpointAt(p.endpoints, e).success == |Filter(own, IsSuccess)|
            && EndpointAt(p.endpoints, e).failed == |Filter(own, IsFailure)|
            && EndpointAt(p.endpoints, e).latencySum == Total(own, TimedLatency)
            && IsMaximum(Latencies(own), EndpointAt(p.endpoints, e).latencyMax)
  {
    RecordersAgree(log, e);
    ReplayCounts(log);
    ReplayAt(log, e);
    TallyDescribes(Filter(log, On(e)));
  }

  lemma GroupLatenciesAppend(log: seq<Call>, c: Call, e: string)
    ensures Latencies(Filter(log + [c], On(e)))
         == if e == c.endpoint && Timed(c) then Latencies(Filter(log, On(e))) + [c.latency]
            else Latencies(Filter(log, On(e)))
  {
    FilterAppend(log, c, On(e));
    var group, longer := Filter(log, On(e)), Filter(log + [c], On(e));
    assert On(e)(c) == (EndpointOf(c) == e);
    assert longer == if e == c.endpoint then group + [c] else group + [];
    assert group + [] == group;
    LatenciesAppend(group, c);
  }

  ghost predicate Keeps(log: seq<Call>, e: string) {
    Kept(Replay(log), e) == Latencies(Filter(log, On(e)))
  }

  lemma KeepsAppend(log: seq<Call>, c: Call, e: string)
    requires Keeps(log, e)
    ensures Keeps(log + [c], e)
  {
    assert (log + [c])[..|log|] == log;
    assert Replay(log + [c]) == Record(Replay(log), c);
    RecordEndpointAt(Replay(log), c, e);
    GroupLatenciesAppend(log, c, e);
  }

  lemma KeepsNone(e: string)
    ensures Keeps([], e)
  {
    assert Filter([], On(e)) == [];
  }

  lemma KeepsLast(log: seq<Call>, e: string)
    requires log != [] && Keeps(log[..|log| - 1], e)
    ensures Keeps(log, e)
  {
    KeepsAppend(log[..|log| - 1], log[|log| - 1], e);
    assert log[..|log| - 1] + [log[|log| - 1]] == log;
  }

  /** Each endpoint's list holds the latencies of its own calls, in the order they were recorded. */
  lemma {:induction false} ReplayKept(log: seq<Call>, e: string)
    ensures Keeps(log, e)
    decreases |log|
  {
    if log == [] {
      KeepsNone(e);
    } else {
      ReplayKept(log[..|log| - 1], e);
      KeepsLast(log, e);
    }
  }

  function Takes(x: real): Call -> bool {
    (c: Call) => Timed(c) && c.latency == x
  }

  lemma {:induction false} LatencyMultiplicity(log: seq<Call>, x: real)
    ensures multiset(Latencies(log))[x] as real == Total(log, Indicator(Takes(x)))
    decreases |log|
  {
    if log != [] {
      var init, c := log[..|log| - 1], log[|log| - 1];
      LatencyMultiplicity(init, x);
      LatenciesAppend(init, c);
      assert log == init + [c];
    }
  }

  /** How often the latency x occurs in each endpoint's own list. */
  ghost function Occurrences(endpoints: map<string, Endpoint>, x: real): string -> real {
    (e: string) => if e in endpoints then multiset(endpoints[e].latencies)[x] as real else 0.0
  }

  /** The endpoints' latency lists partition the global list: every latency occurs as often in both. */
  lemma {:induction false} LatencyListsPartition(log: seq<Call>, x: real)
    ensures multiset(Replay(log).latencies)[x] as real
         == SumOver(Replay(log).endpoints.Keys, Occurrences(Replay(log).endpoints, x))
  {
    RecordersAgree(log, "");
    ReplayWhole(log);
    LatencyMultiplicity(log, x);
    GroupsPartition(log, EndpointOf, Indicator(Takes(x)));
    var keys, endpoints := Endpoints(log), Replay(log).endpoints;
    forall e | e in keys
      ensures PerGroup(log, EndpointOf, Indicator(Takes(x)))(e) == Occurrences(endpoints, x)(e)
    {
      ReplayKept(log, e);
      LatencyMultiplicity(Filter(log, On(e)), x);
    }
    SumOverSame(keys, PerGroup(log, EndpointOf, Indicator(Takes(x))), Occurrences(endpoints, x));
  }
}
