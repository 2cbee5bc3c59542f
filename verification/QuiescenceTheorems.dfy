/** What the stable exit of the quiescence detector says about the grading queue it polls. */
module QuiescenceTheorems {
  import opened GradingQueue
  import opened QueueAccounting
  import opened QueueCalm
  import opened QueueTheorems
  import opened QueueDrained
  import opened QueueWitnesses
  import opened Quiescence

  /** How many steps of the run had been taken when a poll read the counters, and later the stream length. */
  datatype Reading = Reading(counters: nat, length: nat)

  /** The messages on the high-priority stream. */
  ghost function HighMessages(cfg: Config, s: State): set<MsgId> {
    set m | m in s.stream && cfg.high(s.stream[m].body)
  }

  /** The poll read the counters and then the length of the high-priority stream of the running queue. */
  ghost predicate Observes(cfg: Config, run: seq<Action>, at: Reading, p: Sample) {
    && at.counters <= at.length <= |run|
    && IsRun(cfg, run[..at.counters]) && IsRun(cfg, run[..at.length])
    && p.stats == After(cfg, run[..at.counters]).books.stats
    && p.queueLen == |HighMessages(cfg, After(cfg, run[..at.length]))|
  }

  /** The polls up to the last one observed the run, each after the one before. */
  ghost predicate Watches(cfg: Config, run: seq<Action>, poll: nat -> Sample, at: nat -> Reading, last: nat) {
    && (forall i: nat | i <= last :: Observes(cfg, run, at(i), poll(i)))
    && (forall i: nat | 0 < i <= last :: at(i - 1).length <= at(i).counters)
  }

  /** The part of the run up to the moment the poll read its counters. */
  function Until(run: seq<Action>, at: Reading): seq<Action>
    requires at.counters <= |run|
  {
    run[..at.counters]
  }

  lemma HighLength(cfg: Config, s: State)
    ensures |HighMessages(cfg, s)| == 0 <==> HighEmpty(cfg, s)
  {
    if HighEmpty(cfg, s) {
      assert HighMessages(cfg, s) == {};
    } else {
      var m :| m in s.stream && cfg.high(s.stream[m].body);
      assert m in HighMessages(cfg, s);
    }
  }

  lemma ObservedEmpty(cfg: Config, run: seq<Action>, at: Reading, p: Sample)
    requires Observes(cfg, run, at, p) && p.queueLen == 0
    ensures at.length <= |run| && IsRun(cfg, run[..at.length]) && HighEmpty(cfg, After(cfg, run[..at.length]))
  {
    HighLength(cfg, After(cfg, run[..at.length]));
  }

  /** The last poll's counters were read after the poll before it had seen the stream empty. */
  lemma {:induction false} QuietPollsSplit(cfg: Config, run: seq<Action>, baseline: int, poll: nat -> Sample,
                                           at: nat -> Reading, last: nat)
    requires Watches(cfg, run, poll, at, last) && FiveQuiet(baseline, poll, last)
    ensures at(last - 1).length <= at(last).counters <= |run| && IsRun(cfg, run[..at(last - 1).length])
    ensures HighEmpty(cfg, After(cfg, run[..at(last - 1).length]))
    ensures IsRun(cfg, Until(run, at(last))) && poll(last).stats == After(cfg, Until(run, at(last))).books.stats
    ensures poll(last).stats.active == 0
  {
    assert Quiet(baseline, poll, last - 1) && Quiet(baseline, poll, last);
    assert Observes(cfg, run, at(last - 1), poll(last - 1)) && Observes(cfg, run, at(last), poll(last));
    ObservedEmpty(cfg, run, at(last - 1), poll(last - 1));
  }

  /** Nothing counted as queued, beyond the uncounted hashes, or retrying: what the detector reads and ignores. */
  predicate NothingWaiting(t: Stats, uncounted: nat) {
    t.queued == 0 - uncounted && t.retrying == 0
  }

  /** No job is pushed between the last two polls, from the length read to the counters read. */
  ghost predicate NoPushAtTheEnd(run: seq<Action>, at: nat -> Reading, last: nat)
    requires last > 0
  {
    at(last - 1).length <= at(last).counters <= |run| && NoPush(run[at(last - 1).length..at(last).counters])
  }

  lemma {:induction false} ZeroAtMeansFinished(cfg: Config, run: seq<Action>, n: nat, m: nat)
    requires n <= m <= |run| && IsRun(cfg, run[..n]) && IsRun(cfg, run[..m]) && NoPush(run[n..m])
    requires HighEmpty(cfg, After(cfg, run[..n]))
    requires NothingCounted(After(cfg, run[..m]).books.stats, |After(cfg, run[..m]).uncounted|)
    ensures AllFinished(After(cfg, run[..m])) <==> !UntakenPreview(cfg, After(cfg, run[..m]))
  {
    assert run[..n] + run[n..m] == run[..m];
    ZeroMeansFinished(cfg, run[..n], run[n..m]);
  }

  lemma {:induction false} RereadAtFinishedIff(cfg: Config, run: seq<Action>, n: nat, m: nat)
    requires n <= m <= |run| && IsRun(cfg, run[..n]) && IsRun(cfg, run[..m]) && NoPush(run[n..m])
    requires HighEmpty(cfg, After(cfg, run[..n])) && RegistersInTime(cfg, run[..m])
    ensures AllFinished(After(cfg, run[..m]))
       <==> NothingCounted(After(cfg, run[..m]).books.stats, |After(cfg, run[..m]).uncounted|)
            && !UntakenPreview(cfg, After(cfg, run[..m]))
  {
    assert run[..n] + run[n..m] == run[..m];
    RereadFinishedIff(cfg, run[..n], run[n..m]);
  }

  /**
   * The missing test. If the queued and retrying counters read last, which the detector ignores, are zero at
   * its stable exit, then, whatever died, was reclaimed or was late, all accepted jobs are finished if and
   * only if no untaken preview lies on the low-priority stream, which the detector does not read.
   */
  lemma {:induction false} StableExitSound(cfg: Config, run: seq<Action>, baseline: int, poll: nat -> Sample,
                                           at: nat -> Reading, last: nat)
    requires Watches(cfg, run, poll, at, last) && FiveQuiet(baseline, poll, last) && NoPushAtTheEnd(run, at, last)
    requires IsRun(cfg, Until(run, at(last)))
    requires NothingWaiting(poll(last).stats, |After(cfg, Until(run, at(last))).uncounted|)
    ensures AllFinished(After(cfg, Until(run, at(last)))) <==> !UntakenPreview(cfg, After(cfg, Until(run, at(last))))
    ensures NoPreviews(cfg, After(cfg, Until(run, at(last)))) ==> AllFinished(After(cfg, Until(run, at(last))))
  {
    QuietPollsSplit(cfg, run, baseline, poll, at, last);
    ZeroAtMeansFinished(cfg, run, at(last - 1).length, at(last).counters);
    if NoPreviews(cfg, After(cfg, Until(run, at(last)))) {
      NoPreviewUntaken(cfg, Until(run, at(last)));
    }
  }

  /** And the counters tell exactly, when no hash was written over a live status. */
  lemma {:induction false} StableExitFinishedIff(cfg: Config, run: seq<Action>, baseline: int, poll: nat -> Sample,
                                                 at: nat -> Reading, last: nat)
    requires Watches(cfg, run, poll, at, last) && FiveQuiet(baseline, poll, last) && NoPushAtTheEnd(run, at, last)
    requires IsRun(cfg, Until(run, at(last))) && RegistersInTime(cfg, Until(run, at(last)))
    ensures AllFinished(After(cfg, Until(run, at(last))))
       <==> NothingWaiting(poll(last).stats, |After(cfg, Until(run, at(last))).uncounted|)
            && !UntakenPreview(cfg, After(cfg, Until(run, at(last))))
    ensures NoPreviews(cfg, After(cfg, Until(run, at(last))))
        ==> (AllFinished(After(cfg, Until(run, at(last))))
             <==> NothingWaiting(poll(last).stats, |After(cfg, Until(run, at(last))).uncounted|))
  {
    QuietPollsSplit(cfg, run, baseline, poll, at, last);
    RereadAtFinishedIff(cfg, run, at(last - 1).length, at(last).counters);
    if NoPreviews(cfg, After(cfg, Until(run, at(last)))) {
      NoPreviewUntaken(cfg, Until(run, at(last)));
    }
  }

  /**
   * Once the status of a job being processed was overwritten, the active counter never is zero again, and
   * the detector can only time out.
   */
  lemma {:induction false} OverwrittenActiveNeverStable(cfg: Config, run: seq<Action>, baseline: int,
                                                         poll: nat -> Sample, at: nat -> Reading, last: nat, n: nat)
    requires Watches(cfg, run, poll, at, last) && n <= at(last).counters && IsRun(cfg, run[..n])
    requires OverwriteCount(cfg, run[..n], Processing) > 0
    ensures !FiveQuiet(baseline, poll, last)
  {
    var m := at(last).counters;
    assert Observes(cfg, run, at(last), poll(last));
    assert run[..n] + run[n..m] == run[..m];
    LeftOverForever(cfg, run[..n], run[n..m], Processing);
    assert !Quiet(baseline, poll, last);
  }

  /** A poll that reads everything at one moment. */
  ghost function Observe(cfg: Config, s: State, elapsed: int): Sample {
    Sample(elapsed, s.books.stats, |HighMessages(cfg, s)|)
  }

  /** Five polls of an idle queue with no high message, in which nothing moves meanwhile, end in the stable exit. */
  lemma IdlePolls(cfg: Config, s: State) returns (poll: nat -> Sample)
    requires HighEmpty(cfg, s) && s.books.stats.active == 0
    ensures ClockAdvances(poll) && forall i: nat :: poll(i) == Observe(cfg, s, 200 * i)
    ensures FiveQuiet(Done(s), poll, 4)
  {
    HighLength(cfg, s);
    poll := (i: nat) => Observe(cfg, s, 200 * i);
    forall k: nat
      ensures Quiet(Done(s), poll, k)
    {
      assert poll(k) == Observe(cfg, s, 200 * k);
    }
  }

  /** The detector may report that all jobs are processed while one is waiting for its retry. */
  lemma {:induction false} StableExitBeforeFinish(cfg: Config, j: JobId, p: string)
    returns (run: seq<Action>, poll: nat -> Sample)
    requires p != "" && cfg.valid(p) && cfg.maxAttempts > 1
    ensures IsRun(cfg, run) && IsCalmRun(cfg, run)
    ensures ClockAdvances(poll) && forall i: nat :: poll(i) == Observe(cfg, After(cfg, run), 200 * i)
    ensures FiveQuiet(Done(After(cfg, run)), poll, 4)
    ensures j in After(cfg, run).accepted && !IsTerminal(After(cfg, run), j)
  {
    run := EmptyIdleYetUnfinished(cfg, j, p);
    poll := IdlePolls(cfg, After(cfg, run));
  }

  /** Testing the retrying counter alone would not do: it can be zero while only the queued one tells. */
  lemma {:induction false} RetryingAloneMisleads(cfg: Config, j: JobId, p: string)
    returns (run: seq<Action>, poll: nat -> Sample)
    requires p != "" && cfg.valid(p) && cfg.maxAttempts > 2
    ensures IsRun(cfg, run)
    ensures ClockAdvances(poll) && forall i: nat :: poll(i) == Observe(cfg, After(cfg, run), 200 * i)
    ensures FiveQuiet(Done(After(cfg, run)), poll, 4) && poll(4).stats.retrying == 0 && poll(4).stats.queued == 1
    ensures j in After(cfg, run).accepted && !IsTerminal(After(cfg, run), j)
  {
    run := LateMarkHidesRetry(cfg, j, p);
    poll := IdlePolls(cfg, After(cfg, run));
  }

  /**
   * Nor do all five counters tell of a preview: it was just submitted to the low-priority stream, the test
   * of queued and retrying passes, and the job is unfinished.
   */
  lemma {:induction false} PreviewHides(cfg: Config, j: JobId, p: string)
    returns (run: seq<Action>, poll: nat -> Sample)
    requires !cfg.high(p)
    ensures run == [Submit(j, p)] && IsRun(cfg, run)
    ensures ClockAdvances(poll) && forall i: nat :: poll(i) == Observe(cfg, After(cfg, run), 200 * i)
    ensures FiveQuiet(Done(After(cfg, run)), poll, 4) && poll(4).stats == Zero && NothingWaiting(poll(4).stats, 0)
    ensures After(cfg, run).uncounted == {} && !AllFinished(After(cfg, run))
  {
    run := SubmittedPreview(cfg, j, p);
    poll := IdlePolls(cfg, After(cfg, run));
  }

  /**
   * A single poll may find all five counters zero and the stream empty although an accepted job is
   * unfinished: it reads the counters before the job is taken up and the length after its retry was
   * scheduled. Only counters read after the length tell.
   */
  lemma {:induction false} SinglePollMisleads(cfg: Config, j: JobId, p: string)
    returns (run: seq<Action>, at: Reading)
    requires p != "" && cfg.valid(p) && cfg.maxAttempts > 1
    ensures IsRun(cfg, run) && IsCalmRun(cfg, run)
    ensures Observes(cfg, run, at, Sample(0, Zero, 0))
    ensures j in After(cfg, run[..at.counters]).accepted && !IsTerminal(After(cfg, run), j)
  {
    var first := Pushed(cfg, j, p);
    run := FirstTryFails(cfg, j, p);
    at := Reading(1, |run|);
    assert run[..1] == first && run[..|run|] == run;
  }
}
