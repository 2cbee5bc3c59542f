/** The quiescence detector of the 30-candidate load test, `waitForCompletion`. */
module Quiescence {
  import opened GradingQueue

  /** What one pass of the loop reads: the clock, the counters and the stream length. */
  datatype Sample = Sample(elapsed: int, stats: Stats, queueLen: int)

  ghost function DoneAt(poll: nat -> Sample, i: nat): int {
    poll(i).stats.completed + poll(i).stats.failed
  }

  /** Nothing was finished since the previous poll (or the baseline), nothing is queued, nothing is active. */
  ghost predicate Quiet(baseline: int, poll: nat -> Sample, i: nat) {
    && DoneAt(poll, i) == DoneBefore(baseline, poll, i)
    && poll(i).queueLen == 0
    && poll(i).stats.active == 0
  }

  /** The number of consecutive quiet polls that end at poll i. */
  ghost function QuietRun(baseline: int, poll: nat -> Sample, i: nat): nat {
    if !Quiet(baseline, poll, i) then 0
    else 1 + (if i == 0 then 0 else QuietRun(baseline, poll, i - 1))
  }

  ghost predicate FiveQuiet(baseline: int, poll: nat -> Sample, i: nat) {
    i >= 4 && forall k: nat :: i - 4 <= k <= i ==> Quiet(baseline, poll, k)
  }

  /** The run length says exactly how far back the quiet polls reach. */
  lemma {:induction false} QuietRunReaches(baseline: int, poll: nat -> Sample, i: nat, n: nat)
    ensures QuietRun(baseline, poll, i) >= n
        <==> (n <= i + 1 && forall k: nat :: i - n < k <= i ==> Quiet(baseline, poll, k))
    decreases i
  {
    if n > 0 {
      if i > 0 {
        QuietRunReaches(baseline, poll, i - 1, n - 1);
      }
      assert (forall k: nat :: i - n < k <= i ==> Quiet(baseline, poll, k))
         <==> Quiet(baseline, poll, i)
              && (forall k: nat :: i - n < k <= i - 1 ==> Quiet(baseline, poll, k));
    }
  }

  lemma FiveQuietIff(baseline: int, poll: nat -> Sample, i: nat)
    ensures FiveQuiet(baseline, poll, i) <==> QuietRun(baseline, poll, i) >= 5
  {
    QuietRunReaches(baseline, poll, i, 5);
  }

  /** The run of quiet polls before poll i, and the done count the detector remembers from there. */
  ghost function QuietBefore(baseline: int, poll: nat -> Sample, i: nat): nat {
    if i == 0 then 0 else QuietRun(baseline, poll, i - 1)
  }

  ghost function DoneBefore(baseline: int, poll: nat -> Sample, i: nat): int {
    if i == 0 then baseline else DoneAt(poll, i - 1)
  }

  ghost predicate NoExitBefore(baseline: int, timeoutMs: int, poll: nat -> Sample, i: nat) {
    forall k: nat {:trigger QuietRun(baseline, poll, k)} | k < i ::
      QuietRun(baseline, poll, k) < 5 && poll(k).elapsed < timeoutMs
  }

  /** No poll before the last one ended five quiet polls or was past the timeout. */
  ghost predicate FirstToEnd(baseline: int, timeoutMs: int, poll: nat -> Sample, last: nat) {
    forall k: nat {:trigger FiveQuiet(baseline, poll, k)} | k < last ::
      !FiveQuiet(baseline, poll, k) && poll(k).elapsed < timeoutMs
  }

  lemma FirstExit(baseline: int, timeoutMs: int, poll: nat -> Sample, i: nat)
    requires NoExitBefore(baseline, timeoutMs, poll, i)
    ensures FirstToEnd(baseline, timeoutMs, poll, i)
    ensures FiveQuiet(baseline, poll, i) <==> QuietRun(baseline, poll, i) >= 5
  {
    FiveQuietIff(baseline, poll, i);
    forall k: nat | k < i
      ensures !FiveQuiet(baseline, poll, k) && poll(k).elapsed < timeoutMs
    {
      assert QuietRun(baseline, poll, k) < 5;
      FiveQuietIff(baseline, poll, k);
    }
  }

  /** What the loop's variables are when it comes to poll i. */
  ghost predicate AtPoll(baseline: int, timeoutMs: int, poll: nat -> Sample, i: nat, stable: nat, last: int) {
    && stable == QuietBefore(baseline, poll, i) < 5
    && last == DoneBefore(baseline, poll, i)
    && NoExitBefore(baseline, timeoutMs, poll, i)
  }

  /** After a quiet poll the run is one longer, and the remembered done count is still the current one. */
  lemma AfterQuiet(baseline: int, timeoutMs: int, poll: nat -> Sample, i: nat, stable: nat, last: int)
    requires AtPoll(baseline, timeoutMs, poll, i, stable, last) && Quiet(baseline, poll, i)
    ensures QuietRun(baseline, poll, i) == stable + 1 && last == DoneAt(poll, i)
    ensures stable + 1 < 5 && poll(i).elapsed < timeoutMs
        ==> AtPoll(baseline, timeoutMs, poll, i + 1, stable + 1, last)
  {
  }

  /** Any other poll starts over. */
  lemma AfterBusy(baseline: int, timeoutMs: int, poll: nat -> Sample, i: nat, stable: nat, last: int)
    requires AtPoll(baseline, timeoutMs, poll, i, stable, last) && !Quiet(baseline, poll, i)
    ensures QuietRun(baseline, poll, i) == 0
    ensures poll(i).elapsed < timeoutMs ==> AtPoll(baseline, timeoutMs, poll, i + 1, 0, DoneAt(poll, i))
  {
  }

  datatype Exit = Stable | TimedOut

  /** Every pass waits at least 200 ms before the next one. */
  ghost predicate ClockAdvances(poll: nat -> Sample) {
    forall i: nat :: poll(i).elapsed >= 200 * i
  }

  /**
   * `expectedDelta` is what the caller submitted; the detector only prints it. The stable exit happens at
   * the first poll that ends five quiet polls, if no earlier poll was past the timeout.
   */
  method WaitForCompletion(baseline: int, expectedDelta: int, timeoutMs: int, poll: nat -> Sample)
    returns (last: nat, exit: Exit)
    requires ClockAdvances(poll)
    ensures exit == Stable <==> FiveQuiet(baseline, poll, last)
    ensures exit == TimedOut ==> poll(last).elapsed >= timeoutMs
    ensures FirstToEnd(baseline, timeoutMs, poll, last)
    ensures last > 0 ==> 200 * (last - 1) < timeoutMs
  {
    var stableCount, lastCompleted, i: nat := 0, baseline, 0;
    while true
      invariant AtPoll(baseline, timeoutMs, poll, i, stableCount, lastCompleted)
      invariant i > 0 ==> 200 * (i - 1) < timeoutMs
      decreases timeoutMs - 200 * i
    {
      FirstExit(baseline, timeoutMs, poll, i);
      var elapsed, stats, queueLen := poll(i).elapsed, poll(i).stats, poll(i).queueLen;
      var totalDone := stats.completed + stats.failed;
      if totalDone == lastCompleted && queueLen == 0 && stats.active == 0 {
        AfterQuiet(baseline, timeoutMs, poll, i, stableCount, lastCompleted);
        stableCount := stableCount + 1;
        if stableCount >= 5 {
          return i, Stable;
        }
      } else {
        AfterBusy(baseline, timeoutMs, poll, i, stableCount, lastCompleted);
        stableCount := 0;
        lastCompleted := totalDone;
      }
      if elapsed >= timeoutMs {
        return i, TimedOut;
      }
      i := i + 1;
    }
  }
}
