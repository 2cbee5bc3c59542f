/** The measurement core of the Azure load test: what `recordRequest` and `takeSnapshot` keep. */
module LoadMetrics {
  import opened Wrappers
  import opened Percentiles
  import opened CallLog

  /** The counters kept once for all calls and once per endpoint. */
  datatype Tally = Tally(total: nat, success: nat, failed: nat, errors: map<string, nat>,
                         latencySum: real, latencyMax: real)

  /** `min` is None while it is still `Infinity`. */
  datatype Metrics = Metrics(all: Tally, samples: seq<real>, min: Option<real>, endpoints: map<string, Tally>)

  const Empty := Tally(0, 0, 0, map[], 0.0, 0.0)

  const Fresh := Metrics(Empty, [], None, map[])

  function Count(errors: map<string, nat>, k: string): nat {
    if k in errors then errors[k] else 0
  }

  function Max(a: real, b: real): real {
    if a < b then b else a
  }

  function Lower(min: Option<real>, x: real): real {
    if min.Some? && min.value < x then min.value else x
  }

  function Add(t: Tally, c: Call): Tally {
    Tally(t.total + 1,
          if IsFailure(c) then t.success else t.success + 1,
          if IsFailure(c) then t.failed + 1 else t.failed,
          if IsFailure(c) then t.errors[ErrKey(c) := Count(t.errors, ErrKey(c)) + 1] else t.errors,
          if Timed(c) then t.latencySum + c.latency else t.latencySum,
          if Timed(c) then Max(t.latencyMax, c.latency) else t.latencyMax)
  }

  function TallyAt(endpoints: map<string, Tally>, e: string): Tally {
    if e in endpoints then endpoints[e] else Empty
  }

  function Record(m: Metrics, c: Call): Metrics {
    Metrics(Add(m.all, c),
            if Timed(c) then m.samples + [c.latency] else m.samples,
            if Timed(c) then Some(Lower(m.min, c.latency)) else m.min,
            m.endpoints[c.endpoint := Add(TallyAt(m.endpoints, c.endpoint), c)])
  }

  /** Playing a log of calls from the start. */
  function Replay(log: seq<Call>): Metrics {
    if log == [] then Fresh else Record(Replay(log[..|log| - 1]), log[|log| - 1])
  }

  /** One line of the timeline; the rate is calls since the previous snapshot per elapsed second. */
  datatype Snapshot = Snapshot(time: real, rps: int, total: nat, success: nat, failed: nat,
                               p50: Option<real>, p99: Option<real>)

  /** `samples.slice(-n)`. */
  function LastSamples(s: seq<real>, n: nat): seq<real> {
    if |s| <= n then s else s[|s| - n..]
  }

  /** Calls per second; a zero interval counts as one second. */
  function Rate(calls: int, elapsedMs: int): int {
    var seconds := if elapsedMs == 0 then 1.0 else elapsedMs as real / 1000.0;
    (calls as real / seconds + 0.5).Floor
  }

  function SnapshotOf(m: Metrics, now: int, start: int, lastTime: int, lastTotal: nat): Snapshot {
    Snapshot((now - start) as real / 1000.0,
             Rate(m.all.total - lastTotal, now - lastTime),
             m.all.total, m.all.success, m.all.failed,
             Percentile(LastSamples(m.samples, 1000), 50.0),
             Percentile(LastSamples(m.samples, 1000), 99.0))
  }

  class EndpointStats {
    var total: nat
    var success: nat
    var failed: nat
    var latencySum: real
    var latencyMax: real
    var errors: map<string, nat>

    ghost function Value(): Tally
      reads this
    {
      Tally(total, success, failed, errors, latencySum, latencyMax)
    }

    constructor ()
      ensures Value() == Empty
    {
      total, success, failed := 0, 0, 0;
      latencySum, latencyMax := 0.0, 0.0;
      errors := map[];
    }

    /** The part of `recordRequest` that updates the endpoint's record. */
    method Note(c: Call)
      modifies this
      ensures Value() == Add(old(Value()), c)
    {
      total := total + 1;
      if IsFailure(c) {
        failed := failed + 1;
        errors := errors[ErrKey(c) := Count(errors, ErrKey(c)) + 1];
      } else {
        success := success + 1;
      }
      if c.latency >= 0.0 {
        latencySum := latencySum + c.latency;
        latencyMax := Max(latencyMax, c.latency);
      }
    }
  }

  class Recorder {
    var total: nat
    var success: nat
    var failed: nat
    var errors: map<string, nat>
    var samples: seq<real>
    var min: Option<real>
    var max: real
    var sum: real
    var endpoints: map<string, EndpointStats>
    var timeline: seq<Snapshot>
    var startTime: int
    var lastSnapshotTime: int
    var lastSnapshotTotal: nat

    /** No two endpoints share a record. */
    ghost predicate Valid()
      reads `endpoints
    {
      forall e, f | e in endpoints && f in endpoints && endpoints[e] == endpoints[f] :: e == f
    }

    ghost function Tallies(): map<string, Tally>
      reads `endpoints, endpoints.Values
    {
      map e | e in endpoints :: endpoints[e].Value()
    }

    ghost function Value(): Metrics
      reads this, endpoints.Values
    {
      Metrics(Tally(total, success, failed, errors, sum, max), samples, min, Tallies())
    }

    /** Zero counters; `now` is the start time that the snapshots are measured from. */
    constructor (now: int)
      ensures Valid() && Value() == Fresh && fresh(endpoints.Values)
      ensures timeline == [] && startTime == now && lastSnapshotTime == now && lastSnapshotTotal == 0
    {
      total, success, failed, errors := 0, 0, 0, map[];
      samples, min, max, sum := [], None, 0.0, 0.0;
      endpoints, timeline := map[], [];
      startTime, lastSnapshotTime, lastSnapshotTotal := now, now, 0;
    }

    /** The part of `recordRequest` that updates the global counters and samples. */
    method Note(c: Call)
      modifies `total, `success, `failed, `errors, `samples, `min, `max, `sum
      ensures Tally(total, success, failed, errors, sum, max)
           == Add(old(Tally(total, success, failed, errors, sum, max)), c)
      ensures samples == if Timed(c) then old(samples) + [c.latency] else old(samples)
      ensures min == if Timed(c) then Some(Lower(old(min), c.latency)) else old(min)
    {
      total := total + 1;
      if IsFailure(c) {
        failed := failed + 1;
        errors := errors[ErrKey(c) := Count(errors, ErrKey(c)) + 1];
      } else {
        success := success + 1;
      }
      if c.latency >= 0.0 {
        samples := samples + [c.latency];
        sum := sum + c.latency;
        min := Some(Lower(min, c.latency));
        max := Max(max, c.latency);
      }
    }

    /** The endpoint's record, created with zeros on first use. */
    method RecordFor(endpoint: string) returns (ep: EndpointStats)
      requires Valid()
      modifies `endpoints
      ensures Valid() && endpoint in endpoints && endpoints[endpoint] == ep
      ensures fresh(endpoints.Values - old(endpoints.Values))
      ensures Tallies() == old(Tallies())[endpoint := TallyAt(old(Tallies()), endpoint)]
    {
      if endpoint !in endpoints {
        var created := new EndpointStats();
        endpoints := endpoints[endpoint := created];
      }
      ep := endpoints[endpoint];
    }

    method NoteEndpoint(c: Call)
      requires Valid()
      modifies `endpoints, endpoints.Values
      ensures Valid() && fresh(endpoints.Values - old(endpoints.Values))
      ensures Tallies() == old(Tallies())[c.endpoint := Add(TallyAt(old(Tallies()), c.endpoint), c)]
    {
      var ep := RecordFor(c.endpoint);
      ghost var found := Tallies();
      NoteIn(ep, c);
      assert found[c.endpoint := Add(found[c.endpoint], c)]
          == old(Tallies())[c.endpoint := Add(TallyAt(old(Tallies()), c.endpoint), c)];
    }

    /** Changing one record in place changes the tally of its endpoint and of no other. */
    method NoteIn(ep: EndpointStats, c: Call)
      requires Valid() && c.endpoint in endpoints && endpoints[c.endpoint] == ep
      modifies ep
      ensures Valid()
      ensures Tallies() == old(Tallies())[c.endpoint := Add(old(Tallies())[c.endpoint], c)]
    {
      ghost var was := Tallies();
      ep.Note(c);
      forall e | e in endpoints
        ensures endpoints[e].Value() == if e == c.endpoint then Add(was[e], c) else was[e]
      {
        assert e != c.endpoint ==> endpoints[e] != ep;
      }
    }

    method RecordRequest(endpoint: string, statusCode: nat, latencyMs: real, error: Option<string>)
      requires Valid()
      modifies this, endpoints.Values
      ensures Valid() && fresh(endpoints.Values - old(endpoints.Values))
      ensures Value() == Record(old(Value()), Call(endpoint, statusCode, latencyMs, error))
      ensures timeline == old(timeline) && startTime == old(startTime)
      ensures lastSnapshotTime == old(lastSnapshotTime) && lastSnapshotTotal == old(lastSnapshotTotal)
    {
      var c := Call(endpoint, statusCode, latencyMs, error);
      ghost var was := Tallies();
      Note(c);
      assert Tallies() == was;
      NoteEndpoint(c);
    }

    method TakeSnapshot(now: int)
      requires Valid()
      modifies this
      ensures Valid() && Value() == old(Value()) && endpoints == old(endpoints) && startTime == old(startTime)
      ensures timeline == old(timeline)
                + [SnapshotOf(Value(), now, startTime, old(lastSnapshotTime), old(lastSnapshotTotal))]
      ensures lastSnapshotTime == now && lastSnapshotTotal == Value().all.total
    {
      var recent := LastSamples(samples, 1000);
      timeline := timeline + [Snapshot((now - startTime) as real / 1000.0,
                                       Rate(total - lastSnapshotTotal, now - lastSnapshotTime),
                                       total, success, failed,
                                       Percentile(recent, 50.0), Percentile(recent, 99.0))];
      lastSnapshotTime := now;
      lastSnapshotTotal := total;
    }
  }
}
