/** The timeline on the events' own fields: the k-th snapshot against the events before the k-th tick. */
module TimelineByField {
  import opened Wrappers
  import opened Seqs
  import opened Percentiles
  import opened CallLog
  import opened LoadMetrics
  import opened MetricsTheorems
  import opened SnapshotTheorems

  predicate IsTick(e: Event) {
    e.Tick?
  }

  predicate IsRequest(e: Event) {
    e.Request?
  }

  function RequestThat(q: Call -> bool): Event -> bool {
    (e: Event) => e.Request? && q(e.c)
  }

  lemma {:induction false} FilterCalls(events: seq<Event>, q: Call -> bool)
    ensures |Filter(Calls(events), q)| == |Filter(events, RequestThat(q))|
    decreases |events|
  {
    if events != [] {
      var before, e := events[..|events| - 1], events[|events| - 1];
      FilterCalls(before, q);
      if e.Request? {
        FilterAppend(Calls(before), e.c, q);
      } else {
        assert Calls(before) + [] == Calls(before);
      }
    }
  }

  /** The requests that satisfy q, as calls and as positions among the events. */
  lemma {:induction false} CallsThat(events: seq<Event>, q: Call -> bool, kept: set<nat>)
    requires forall j: nat :: j in kept <==> j < |events| && events[j].Request? && q(events[j].c)
    ensures |Filter(Calls(events), q)| == |kept|
  {
    FilterCalls(events, q);
    FilterSize(events, RequestThat(q), kept);
  }

  lemma {:induction false} TimelineLength(start: int, events: seq<Event>)
    ensures |Play(start, events).timeline| == |Filter(events, IsTick)|
    decreases |events|
  {
    if events != [] {
      TimelineLength(start, events[..|events| - 1]);
    }
  }

  /** There is one snapshot per tick. */
  lemma {:induction false} OnePerTick(start: int, events: seq<Event>, ticks: set<nat>)
    requires forall j: nat :: j in ticks <==> j < |events| && events[j].Tick?
    ensures |Play(start, events).timeline| == |ticks|
  {
    TimelineLength(start, events);
    FilterSize(events, IsTick, ticks);
  }

  /** A snapshot once taken stays where it is. */
  lemma {:induction false} TimelineKept(start: int, events: seq<Event>, n: nat)
    requires n <= |events|
    ensures Play(start, events[..n]).timeline <= Play(start, events).timeline
    decreases |events|
  {
    if n == |events| {
      assert events[..n] == events;
    } else {
      TimelineKept(start, events[..|events| - 1], n);
      assert events[..|events| - 1][..n] == events[..n];
    }
  }

  /** Between two ticks the recorder remembers the time of the first and the calls up to it. */
  lemma {:induction false} SinceTick(start: int, events: seq<Event>, p: int, i: nat)
    requires -1 <= p < i <= |events| && (p >= 0 ==> events[p].Tick?)
    requires forall j :: p < j < i ==> events[j].Request?
    ensures var r := Play(start, events[..i]);
            && r.lastTime == (if p == -1 then start else events[p].now)
            && r.m.all.total == r.lastTotal + (i - p - 1)
    decreases i
  {
    if i > 0 {
      var before := events[..i - 1];
      assert events[..i] == before + [events[i - 1]];
      PlayAppend(start, before, events[i - 1]);
      if p < i - 1 {
        SinceTick(start, events, p, i - 1);
      }
    }
  }

  lemma TickTimeline(start: int, before: seq<Event>, now: int)
    ensures Play(start, before + [Tick(now)]).timeline == Play(start, before).timeline
              + [SnapshotOf(Play(start, before).m, now, start, Play(start, before).lastTime,
                            Play(start, before).lastTotal)]
  {
    PlayAppend(start, before, Tick(now));
  }

  /** What the k-th snapshot is made of: the recorder before the k-th tick, and its time. */
  lemma {:induction false} TakenAt(start: int, events: seq<Event>, i: nat, ticks: set<nat>)
    requires i < |events| && events[i].Tick?
    requires forall j: nat :: j in ticks <==> j < i && events[j].Tick?
    ensures var r, t := Play(start, events[..i]), Play(start, events).timeline;
            |ticks| < |t| && t[|ticks|] == SnapshotOf(r.m, events[i].now, start, r.lastTime, r.lastTotal)
  {
    OnePerTick(start, events[..i], ticks);
    assert events[..i + 1] == events[..i] + [events[i]];
    TickTimeline(start, events[..i], events[i].now);
    TimelineKept(start, events, i + 1);
  }

  lemma RateNearest(rps: int, calls: int, elapsed: int, seconds: real)
    requires rps == Rate(calls, elapsed) && seconds == if elapsed == 0 then 1.0 else elapsed as real / 1000.0
    ensures rps as real - 0.5 <= calls as real / seconds < rps as real + 0.5
  {
  }

  lemma {:induction false} RateTaken(start: int, events: seq<Event>, i: nat, p: int, ticks: set<nat>, elapsed: int)
    requires i < |events| && events[i].Tick?
    requires forall j: nat :: j in ticks <==> j < i && events[j].Tick?
    requires -1 <= p < i && (p >= 0 ==> events[p].Tick?) && forall j :: p < j < i ==> events[j].Request?
    requires elapsed == events[i].now - (if p == -1 then start else events[p].now)
    ensures |ticks| < |Play(start, events).timeline|
    ensures Play(start, events).timeline[|ticks|].rps == Rate(i - p - 1, elapsed)
  {
    TakenAt(start, events, i, ticks);
    SinceTick(start, events, p, i);
  }

  /**
   * The rate of the k-th snapshot is the whole number nearest to calls per second, halves upward: the calls
   * are those since the tick before it, or since the start, and two ticks at one time count as a second apart.
   */
  lemma {:induction false} RateByField(start: int, events: seq<Event>, i: nat, p: int, ticks: set<nat>, seconds: real)
    requires i < |events| && events[i].Tick?
    requires forall j: nat :: j in ticks <==> j < i && events[j].Tick?
    requires -1 <= p < i && (p >= 0 ==> events[p].Tick?) && forall j :: p < j < i ==> events[j].Request?
    requires var elapsed := events[i].now - (if p == -1 then start else events[p].now);
             seconds == if elapsed == 0 then 1.0 else elapsed as real / 1000.0
    ensures var t := Play(start, events).timeline;
            && |ticks| < |t|
            && t[|ticks|].rps as real - 0.5 <= (i - p - 1) as real / seconds < t[|ticks|].rps as real + 0.5
  {
    var elapsed := events[i].now - (if p == -1 then start else events[p].now);
    RateTaken(start, events, i, p, ticks, elapsed);
    RateNearest(Play(start, events).timeline[|ticks|].rps, i - p - 1, elapsed, seconds);
  }

  /** The k-th snapshot counts exactly the calls before the k-th tick, by their own fields. */
  lemma {:induction false} TotalsByField(start: int, events: seq<Event>, i: nat, ticks: set<nat>,
                                         all: set<nat>, failed: set<nat>)
    requires i < |events| && events[i].Tick?
    requires forall j: nat :: j in ticks <==> j < i && events[j].Tick?
    requires forall j: nat :: j in all <==> j < i && events[j].Request?
    requires forall j: nat :: j in failed <==>
               j in all && ((events[j].c.error.Some? && events[j].c.error.value != "") || events[j].c.status >= 400)
    ensures var t := Play(start, events).timeline;
            && |ticks| < |t|
            && t[|ticks|].total == |all| && t[|ticks|].failed == |failed|
            && t[|ticks|].success == |all| - |failed|
            && t[|ticks|].time == (events[i].now - start) as real / 1000.0
  {
    TakenAt(start, events, i, ticks);
    PlayMetrics(start, events[..i]);
    ReplayCounts(Calls(events[..i]));
    FilterAlways(Calls(events[..i]));
    CallsThat(events[..i], Always, all);
    CallsThat(events[..i], IsFailure, failed);
  }

  /** Its percentiles are those of the last 1000 latencies measured before the tick. */
  lemma {:induction false} RecentByField(start: int, events: seq<Event>, i: nat, ticks: set<nat>)
    requires i < |events| && events[i].Tick?
    requires forall j: nat :: j in ticks <==> j < i && events[j].Tick?
    ensures var t, s := Play(start, events).timeline, Replay(Calls(events[..i])).samples;
            var recent := if |s| > 1000 then s[|s| - 1000..] else s;
            && |ticks| < |t|
            && t[|ticks|].p50 == Percentile(recent, 50.0) && t[|ticks|].p99 == Percentile(recent, 99.0)
  {
    TakenAt(start, events, i, ticks);
    PlayMetrics(start, events[..i]);
  }

  function CallOf(e: Event): Call {
    if e.Request? then e.c else Call("", 0, 0.0, None)
  }

  /** The calls handed to the recorder are the requests among the events, in order. */
  lemma {:induction false} CallsInOrder(events: seq<Event>)
    ensures Calls(events) == Map(Filter(events, IsRequest), CallOf)
    decreases |events|
  {
    if events != [] {
      var before, e := events[..|events| - 1], events[|events| - 1];
      CallsInOrder(before);
      var kept := Filter(before, IsRequest);
      if e.Request? {
        assert Map(kept + [e], CallOf) == Map(kept, CallOf) + [e.c];
      } else {
        assert kept + [] == kept && Calls(before) + [] == Calls(before);
      }
    }
  }

  lemma {:induction false} CallsByField(events: seq<Event>, i: nat, earlier: set<nat>)
    requires i < |events| && events[i].Request?
    requires forall j: nat :: j in earlier <==> j < i && events[j].Request?
    ensures |earlier| < |Calls(events)| && Calls(events)[|earlier|] == events[i].c
  {
    CallsInOrder(events);
    FilterRank(events, IsRequest, i, earlier);
  }
}
