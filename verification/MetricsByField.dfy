/** The recorded metrics on the calls' own fields: which calls of the log each number counts, under which key. */
module MetricsByField {
  import opened Wrappers
  import opened Seqs
  import opened Decimal
  import opened CallLog
  import opened LoadMetrics
  import opened MetricsTheorems

  /** A call is failed exactly if it has an error text or its status is 400 or above. */
  lemma {:induction false} CountsByField(log: seq<Call>)
    ensures Replay(log).all.total == |log|
    ensures Replay(log).all.failed
         == |set i: nat | i < |log| && ((log[i].error.Some? && log[i].error.value != "") || log[i].status >= 400)|
    ensures Replay(log).all.success
         == |set i: nat | i < |log| && (log[i].error == None || log[i].error.value == "") && log[i].status < 400|
  {
    ReplayCounts(log);
    FilterSize(log, IsFailure, set i: nat | i < |log| && ((log[i].error.Some? && log[i].error.value != "")
                                                          || log[i].status >= 400));
    FilterSize(log, IsSuccess, set i: nat | i < |log| && (log[i].error == None || log[i].error.value == "")
                                            && log[i].status < 400);
  }

  /** A key counts the calls with that error text, and those without a text whose failed status it names. */
  lemma {:induction false} ErrorsByField(log: seq<Call>, k: string, counted: set<nat>)
    requires forall i: nat :: i in counted <==>
               i < |log| && (if log[i].error.Some? && log[i].error.value != "" then log[i].error.value == k
                             else log[i].status >= 400 && k == "HTTP_" + Dec(log[i].status))
    ensures k in Replay(log).all.errors <==> counted != {}
    ensures k in Replay(log).all.errors ==> Replay(log).all.errors[k] == |counted|
  {
    ReplayCounts(log);
    assert Count(Replay(log).all.errors, k) == |Filter(log, FailsWith(k))|;
    FilterSize(log, FailsWith(k), counted);
  }

  lemma StatusTextInjective(m: nat, n: nat)
    ensures "HTTP_" + Dec(m) == "HTTP_" + Dec(n) <==> m == n
  {
    DecInjective(m, n);
    assert ("HTTP_" + Dec(m))[5..] == Dec(m) && ("HTTP_" + Dec(n))[5..] == Dec(n);
  }

  /** Each failed status has a key of its own; a call whose error text is that very key is counted with it. */
  lemma {:induction false} StatusKeys(log: seq<Call>, n: nat, bare: set<nat>, texts: set<nat>)
    requires n >= 400
    requires forall i: nat :: i in bare <==>
               i < |log| && (log[i].error == None || log[i].error.value == "") && log[i].status == n
    requires forall i: nat :: i in texts <==> i < |log| && log[i].error == Some("HTTP_" + Dec(n))
    ensures var errors, k := Replay(log).all.errors, "HTTP_" + Dec(n);
            && (k in errors <==> bare != {} || texts != {})
            && (k in errors ==> errors[k] == |bare| + |texts|)
  {
    forall m: nat
      ensures "HTTP_" + Dec(m) == "HTTP_" + Dec(n) <==> m == n
    {
      StatusTextInjective(m, n);
    }
    ErrorsByField(log, "HTTP_" + Dec(n), bare + texts);
    assert bare !! texts;
  }

  /** Any other key is an error text, and counts the calls that carry it; the empty text is never a key. */
  lemma {:induction false} TextKeys(log: seq<Call>, t: string, texts: set<nat>)
    requires forall n: nat :: n >= 400 ==> t != "HTTP_" + Dec(n)
    requires forall i: nat :: i in texts <==> i < |log| && t != "" && log[i].error == Some(t)
    ensures t in Replay(log).all.errors <==> texts != {}
    ensures t in Replay(log).all.errors ==> Replay(log).all.errors[t] == |texts|
  {
    ErrorsByField(log, t, texts);
  }

  lemma KeyRaised(t: Tally, c: Call, k: string, before: map<string, nat>)
    requires (c.error == None || c.error.value == "") && c.status >= 400 && k == "HTTP_" + Dec(c.status)
    requires before == t.errors
    ensures Add(t, c).errors == before[k := Count(before, k) + 1]
  {
  }

  lemma {:induction false} ReplayLast(log: seq<Call>, c: Call)
    ensures Replay(log + [c]).all == Add(Replay(log).all, c)
  {
    assert (log + [c])[..|log|] == log;
  }

  lemma {:induction false} ErrorsAfter(log: seq<Call>, c: Call, k: string, before: map<string, nat>)
    requires (c.error == None || c.error.value == "") && c.status >= 400 && k == "HTTP_" + Dec(c.status)
    requires before == Replay(log).all.errors
    ensures Replay(log + [c]).all.errors == before[k := Count(before, k) + 1]
  {
    ReplayLast(log, c);
    KeyRaised(Replay(log).all, c, k, before);
  }

  /** Raising the count at one key tells the key. */
  lemma RaisedDiffer(errors: map<string, nat>, k: string, l: string)
    ensures errors[k := Count(errors, k) + 1] == errors[l := Count(errors, l) + 1] <==> k == l
  {
    assert Count(errors[k := Count(errors, k) + 1], k) == Count(errors, k) + 1;
    assert k != l ==> Count(errors[l := Count(errors, l) + 1], k) == Count(errors, k);
  }

  /** After any log, two failed calls without an error text go under one key exactly if their statuses agree. */
  lemma {:induction false} SameKeyIff(log: seq<Call>, c: Call, d: Call)
    requires (c.error == None || c.error.value == "") && c.status >= 400
    requires (d.error == None || d.error.value == "") && d.status >= 400
    ensures Replay(log + [c]).all.errors == Replay(log + [d]).all.errors <==> c.status == d.status
  {
    var k, l, before := "HTTP_" + Dec(c.status), "HTTP_" + Dec(d.status), Replay(log).all.errors;
    ErrorsAfter(log, c, k, before);
    ErrorsAfter(log, d, l, before);
    RaisedDiffer(before, k, l);
    StatusTextInjective(c.status, d.status);
  }

  /** The samples are the latencies that were measured, in the order of the calls. */
  lemma {:induction false} SamplesByField(log: seq<Call>)
    ensures |Replay(log).samples| == |set i: nat | i < |log| && log[i].latency >= 0.0|
    ensures forall i: nat :: i < |log| && log[i].latency >= 0.0 ==>
              var k := |set j: nat | j < i && log[j].latency >= 0.0|;
              k < |Replay(log).samples| && Replay(log).samples[k] == log[i].latency
  {
    ReplayWhole(log);
    FilterSize(log, Timed, set i: nat | i < |log| && log[i].latency >= 0.0);
    forall i: nat | i < |log| && log[i].latency >= 0.0
      ensures var k := |set j: nat | j < i && log[j].latency >= 0.0|;
              k < |Replay(log).samples| && Replay(log).samples[k] == log[i].latency
    {
      FilterRank(log, Timed, i, set j: nat | j < i && log[j].latency >= 0.0);
    }
  }

  lemma {:induction false} TotalSame(log: seq<Call>, f: Call -> real, g: Call -> real)
    requires forall c | c in log :: f(c) == g(c)
    ensures Total(log, f) == Total(log, g)
    decreases |log|
  {
    if log != [] {
      TotalSame(log[..|log| - 1], f, g);
    }
  }

  /** Sum, maximum and minimum are those of the measured latencies. */
  lemma {:induction false} LatenciesByField(log: seq<Call>)
    ensures var m := Replay(log);
            && m.all.latencySum == Total(log, (c: Call) => if c.latency >= 0.0 then c.latency else 0.0)
            && 0.0 <= m.all.latencyMax
            && (forall c | c in log :: c.latency <= m.all.latencyMax)
            && (m.all.latencyMax > 0.0 ==> exists c :: c in log && c.latency == m.all.latencyMax)
            && (m.min == None <==> forall c | c in log :: c.latency < 0.0)
            && (m.min.Some? ==>
                  && (forall c | c in log && c.latency >= 0.0 :: m.min.value <= c.latency)
                  && exists c :: c in log && c.latency == m.min.value && c.latency >= 0.0)
  {
    var m := Replay(log);
    ReplayCounts(log);
    TotalSame(log, TimedLatency, (c: Call) => if c.latency >= 0.0 then c.latency else 0.0);
    forall c | c in log && c.latency >= 0.0
      ensures m.min.Some? && m.min.value <= c.latency <= m.all.latencyMax
    {
      LatencyInLog(log, c);
    }
    if m.all.latencyMax > 0.0 {
      LatencyOfCall(log, m.all.latencyMax);
    }
    if m.min.Some? {
      LatencyOfCall(log, m.min.value);
    }
  }

  lemma {:induction false} FilterSame(log: seq<Call>, p: Call -> bool, q: Call -> bool)
    requires forall c | c in log :: p(c) == q(c)
    ensures Filter(log, p) == Filter(log, q)
    decreases |log|
  {
    if log != [] {
      FilterSame(log[..|log| - 1], p, q);
    }
  }

  /** An endpoint has a record exactly if it was called, and the record is that of its own calls alone. */
  lemma {:induction false} EndpointByField(log: seq<Call>, e: string)
    ensures var m := Replay(log).endpoints;
            && (e in m <==> exists c :: c in log && c.endpoint == e)
            && (e in m ==> m[e] == Replay(Filter(log, (c: Call) => c.endpoint == e)).all)
  {
    ReplayAt(log, e);
    ReplayWhole(log);
    assert e in Endpoints(log) <==> exists c :: c in log && EndpointOf(c) == e;
    FilterSame(log, On(e), (c: Call) => c.endpoint == e);
    ReplayWhole(Filter(log, On(e)));
  }
}
