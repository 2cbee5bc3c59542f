/** The timeline of the Azure load test: every snapshot is true of the calls before it. */
module SnapshotTheorems {
  import opened Seqs
  import opened Percentiles
  import opened CallLog
  import opened LoadMetrics
  import opened MetricsTheorems

  /** A run of the load test as the recorder sees it. */
  datatype Event = Request(c: Call) | Tick(now: int)

  datatype Run = Run(m: Metrics, timeline: seq<Snapshot>, lastTime: int, lastTotal: nat)

  function Calls(events: seq<Event>): seq<Call> {
    if events == [] then []
    else
      var e := events[|events| - 1];
      Calls(events[..|events| - 1]) + (if e.Request? then [e.c] else [])
  }

  function StepRun(start: int, r: Run, e: Event): Run {
    match e
    case Request(c) => r.(m := Record(r.m, c))
    case Tick(now) =>
      Run(r.m, r.timeline + [SnapshotOf(r.m, now, start, r.lastTime, r.lastTotal)], now, r.m.all.total)
  }

  function Play(start: int, events: seq<Event>): Run {
    if events == [] then Run(Fresh, [], start, 0)
    else StepRun(start, Play(start, events[..|events| - 1]), events[|events| - 1])
  }

  /** The recorder is where the events have brought it. */
  ghost predicate Plays(r: Recorder, start: int, events: seq<Event>)
    reads r, r.endpoints.Values
  {
    r.Valid() && r.startTime == start
    && Play(start, events) == Run(r.Value(), r.timeline, r.lastSnapshotTime, r.lastSnapshotTotal)
  }

  /** One event, as the load test hands it to the recorder. */
  method Receive(r: Recorder, start: int, e: Event, ghost before: seq<Event>)
    requires Plays(r, start, before)
    modifies r, r.endpoints.Values
    ensures Plays(r, start, before + [e]) && fresh(r.endpoints.Values - old(r.endpoints.Values))
  {
    assert (before + [e])[..|before|] == before;
    match e
    case Request(c) => r.RecordRequest(c.endpoint, c.status, c.latency, c.error);
    case Tick(now) => r.TakeSnapshot(now);
  }

  /** The recorder, created at the start and given the events in order, ends where `Play` does. */
  method PlayOn(start: int, events: seq<Event>) returns (r: Recorder)
    ensures Plays(r, start, events)
  {
    r := new Recorder(start);
    var k := 0;
    while k < |events|
      invariant 0 <= k <= |events| && Plays(r, start, events[..k])
      invariant fresh(r) && fresh(r.endpoints.Values)
    {
      assert events[..k + 1] == events[..k] + [events[k]];
      Receive(r, start, events[k], events[..k]);
      k := k + 1;
    }
    assert events[..k] == events;
  }

  /** A tick: the calls finished before it, and its time. */
  datatype Moment = Moment(log: seq<Call>, now: int)

  function Moments(events: seq<Event>): seq<Moment> {
    if events == [] then []
    else
      var before, e := events[..|events| - 1], events[|events| - 1];
      Moments(before) + (if e.Tick? then [Moment(Calls(before), e.now)] else [])
  }

  /** The snapshot counts the log and holds the percentiles of its last 1000 samples. */
  ghost predicate Truthful(s: Snapshot, log: seq<Call>) {
    && s.total == |log|
    && s.success == |Filter(log, IsSuccess)|
    && s.failed == |Filter(log, IsFailure)|
    && s.total == s.success + s.failed
    && s.p50 == Percentile(LastSamples(Latencies(log), 1000), 50.0)
    && s.p99 == Percentile(LastSamples(Latencies(log), 1000), 99.0)
  }

  /** Taken at the time of its tick, the snapshot is true of the calls before it. */
  ghost function Tells(start: int): (Snapshot, Moment) -> bool {
    (s: Snapshot, m: Moment) => Truthful(s, m.log) && s.time == (m.now - start) as real / 1000.0
  }

  /** The two lists correspond element by element. */
  ghost predicate Pairwise<T, U>(a: seq<T>, b: seq<U>, p: (T, U) -> bool) {
    |a| == |b| && forall i :: 0 <= i < |a| ==> p(a[i], b[i])
  }

  lemma PairwiseAppend<T, U>(a: seq<T>, b: seq<U>, x: T, y: U, p: (T, U) -> bool)
    requires Pairwise(a, b, p) && p(x, y)
    ensures Pairwise(a + [x], b + [y], p)
  {
  }

  lemma MomentsAppend(events: seq<Event>, e: Event)
    ensures Moments(events + [e])
         == if e.Tick? then Moments(events) + [Moment(Calls(events), e.now)] else Moments(events)
    ensures Calls(events + [e]) == if e.Tick? then Calls(events) else Calls(events) + [e.c]
  {
    assert (events + [e])[..|events|] == events;
  }

  lemma PlayAppend(start: int, events: seq<Event>, e: Event)
    ensures Play(start, events + [e]) == StepRun(start, Play(start, events), e)
  {
    assert (events + [e])[..|events|] == events;
  }

  lemma ReplayAppend(log: seq<Call>, c: Call)
    ensures Replay(log + [c]) == Record(Replay(log), c)
  {
    assert (log + [c])[..|log|] == log;
  }

  /** The recorder's metrics are the replay of the calls, whenever the snapshots were taken. */
  lemma {:induction false} PlayMetrics(start: int, events: seq<Event>)
    ensures Play(start, events).m == Replay(Calls(events))
    decreases |events|
  {
    if events != [] {
      var before, e := events[..|events| - 1], events[|events| - 1];
      PlayMetrics(start, before);
      assert events == before + [e];
      MomentsAppend(before, e);
      PlayAppend(start, before, e);
      if e.Request? {
        ReplayAppend(Calls(before), e.c);
      }
    }
  }

  lemma TruthfulNow(m: Metrics, s: Snapshot, log: seq<Call>)
    requires m == Replay(log)
    requires s.total == m.all.total && s.success == m.all.success && s.failed == m.all.failed
    requires s.p50 == Percentile(LastSamples(m.samples, 1000), 50.0)
    requires s.p99 == Percentile(LastSamples(m.samples, 1000), 99.0)
    ensures Truthful(s, log)
  {
    ReplayCounts(log);
  }

  lemma TickTells(start: int, m: Metrics, log: seq<Call>, now: int, lastTime: int, lastTotal: nat)
    requires m == Replay(log)
    ensures Tells(start)(SnapshotOf(m, now, start, lastTime, lastTotal), Moment(log, now))
  {
    TruthfulNow(m, SnapshotOf(m, now, start, lastTime, lastTotal), log);
  }

  lemma TickAppend(start: int, before: seq<Event>, now: int)
    requires Pairwise(Play(start, before).timeline, Moments(before), Tells(start))
    ensures Pairwise(Play(start, before + [Tick(now)]).timeline, Moments(before + [Tick(now)]), Tells(start))
  {
    var r := Play(start, before);
    PlayMetrics(start, before);
    PlayAppend(start, before, Tick(now));
    MomentsAppend(before, Tick(now));
    TickTells(start, r.m, Calls(before), now, r.lastTime, r.lastTotal);
    PairwiseAppend(r.timeline, Moments(before), SnapshotOf(r.m, now, start, r.lastTime, r.lastTotal),
                   Moment(Calls(before), now), Tells(start));
  }

  /** Every snapshot on the timeline is true of exactly the calls that finished before its tick. */
  lemma {:induction false} SnapshotsConsistent(start: int, events: seq<Event>)
    ensures Pairwise(Play(start, events).timeline, Moments(events), Tells(start))
    decreases |events|
  {
    if events != [] {
      var before, e := events[..|events| - 1], events[|events| - 1];
      SnapshotsConsistent(start, before);
      assert events == before + [e];
      if e.Tick? {
        TickAppend(start, before, e.now);
      } else {
        PlayAppend(start, before, e);
        MomentsAppend(before, e);
      }
    }
  }

  ghost predicate NonDecreasing(t: seq<Snapshot>) {
    forall i, j :: 0 <= i < j < |t| ==> t[i].total <= t[j].total
  }

  /** No total on the timeline is above the current one. */
  ghost predicate BelowTotal(r: Run) {
    forall i :: 0 <= i < |r.timeline| ==> r.timeline[i].total <= r.m.all.total
  }

  /** The totals on the timeline never go down. */
  lemma {:induction false} TotalsNeverGoDown(start: int, events: seq<Event>)
    ensures NonDecreasing(Play(start, events).timeline) && BelowTotal(Play(start, events))
    decreases |events|
  {
    if events != [] {
      TotalsNeverGoDown(start, events[..|events| - 1]);
    }
  }
}
