/** When an empty high-priority stream means that the work is done, over every run of the grading queue. */
module QueueDrained {
  import opened Wrappers
  import opened GradingQueue
  import opened QueueAccounting
  import opened QueueDelivery
  import opened QueueFaithful
  import opened QueueLoss
  import opened QueueCalm
  import opened QueueTheorems

  /** Some process has written a status for the job. */
  ghost predicate HasStatus(s: State, j: JobId) {
    StatusOf(s.books, j).Some?
  }

  ghost predicate TakenUp(s: State, j: JobId) {
    exists h :: h in s.handlers && s.handlers[h].job == j && s.handlers[h].pc !in {Received, Stored}
  }

  /** A job that has left its first message has a status. */
  ghost predicate StatusFits(s: State, j: JobId) {
    (j in s.books.settled || j in s.dropped || j in s.retry || HasMover(s, j) || TakenUp(s, j)) ==> HasStatus(s, j)
  }

  lemma HandlerSettledOnly(cfg: Config, b: Books, h: Handler, j: JobId)
    ensures j in HandlerBooks(cfg, b, h).settled ==> j in b.settled || (j == h.job && WritesStatus(cfg, b, h))
  {
  }

  lemma AdvanceStatus(cfg: Config, s: State, h: nat, ok: bool, j: JobId)
    requires h in s.handlers && StatusFits(s, j)
    ensures HasStatus(s, j) ==> HasStatus(AdvanceHandler(cfg, s, h, ok), j)
    ensures StatusFits(AdvanceHandler(cfg, s, h, ok), j)
  {
    var t, H := AdvanceHandler(cfg, s, h, ok), s.handlers[h];
    HandlerPayload(cfg, s.books, H, j);
    HandlerSettledOnly(cfg, s.books, H, j);
    assert t.movers == s.movers;
    assert H.job == j && H.pc !in {Received, Stored} ==> TakenUp(s, j);
    if TakenUp(t, j) && !TakenUp(s, j) {
      var k :| k in t.handlers && t.handlers[k].job == j && t.handlers[k].pc !in {Received, Stored};
      assert k in s.handlers && s.handlers[k].job == j;
    }
  }

  lemma MoveHasStatus(s: State, v: nat, j: JobId)
    requires v in s.movers && StatusFits(s, j)
    ensures HasStatus(s, j) ==> HasStatus(AdvanceMover(s, v), j)
    ensures StatusFits(AdvanceMover(s, v), j)
  {
    var t := AdvanceMover(s, v);
    assert t.handlers == s.handlers && t.dropped == s.dropped;
    assert j == s.movers[v].job ==> HasMover(s, j);
    assert HasMover(t, j) ==> HasMover(s, j) by {
      assert forall w | w in t.movers :: w in s.movers && t.movers[w].job == s.movers[w].job;
    }
    assert TakenUp(t, j) ==> TakenUp(s, j);
  }

  lemma HandOverStatus(cfg: Config, s: State, a: Action, j: JobId)
    requires Enabled(s, a) && PassesOn(a)
    requires StatusFits(s, j)
    ensures HasStatus(s, j) ==> HasStatus(Apply(cfg, s, a), j)
    ensures StatusFits(Apply(cfg, s, a), j)
  {
    var t := Apply(cfg, s, a);
    assert t.books == s.books && t.retry == s.retry;
    assert TakenUp(t, j) ==> TakenUp(s, j) by {
      assert forall h | h in t.handlers ::
        (h in s.handlers && t.handlers[h] == s.handlers[h]) || t.handlers[h].pc == Received;
    }
    assert HasMover(t, j) ==> HasMover(s, j) || j in s.retry by {
      assert forall v | v in t.movers ::
        (v in s.movers && t.movers[v].job == s.movers[v].job) || t.movers[v].job in s.retry;
    }
    assert j in t.dropped ==> j in s.dropped || HasMover(s, j);
  }

  lemma WriteStatus(cfg: Config, s: State, a: Action, j: JobId)
    requires Enabled(s, a) && (IsPush(a) || a.Register? || a.WriteHash? || a.CountQueued?) && StatusFits(s, j)
    ensures HasStatus(s, j) ==> HasStatus(Apply(cfg, s, a), j)
    ensures StatusFits(Apply(cfg, s, a), j)
  {
    var t := Apply(cfg, s, a);
    assert t.handlers == s.handlers && t.movers == s.movers && t.retry == s.retry && t.dropped == s.dropped;
    assert t.books.settled == s.books.settled;
    assert TakenUp(t, j) ==> TakenUp(s, j);
    assert HasMover(t, j) ==> HasMover(s, j);
  }

  lemma StepStatus(cfg: Config, s: State, a: Action, j: JobId)
    requires Enabled(s, a) && StatusFits(s, j)
    ensures HasStatus(s, j) ==> HasStatus(Apply(cfg, s, a), j)
    ensures StatusFits(Apply(cfg, s, a), j)
  {
    match a
    case Submit(_, _) => WriteStatus(cfg, s, a, j);
    case BarePush(_, _) => WriteStatus(cfg, s, a, j);
    case Register(_) => WriteStatus(cfg, s, a, j);
    case WriteHash(_) => WriteStatus(cfg, s, a, j);
    case CountQueued(_) => WriteStatus(cfg, s, a, j);
    case Advance(h, ok) => AdvanceStatus(cfg, s, h, ok, j);
    case Move(v) => MoveHasStatus(s, v, j);
    case _ => HandOverStatus(cfg, s, a, j);
  }

  lemma {:induction false} RunStatusFits(cfg: Config, run: seq<Action>, j: JobId)
    requires IsRun(cfg, run)
    ensures StatusFits(After(cfg, run), j)
    decreases |run|
  {
    if run != [] {
      RunStatusFits(cfg, run[..|run| - 1], j);
      StepStatus(cfg, After(cfg, run[..|run| - 1]), run[|run| - 1], j);
    }
  }

  /** Whoever has died or been late: an accepted job with no message on a stream has a status. */
  lemma {:induction false} NoMessageHasStatus(cfg: Config, run: seq<Action>, j: JobId)
    requires IsRun(cfg, run) && !HasMessage(After(cfg, run), j) && j in After(cfg, run).accepted
    ensures HasStatus(After(cfg, run), j)
  {
    var s := After(cfg, run);
    RunStatusFits(cfg, run, j);
    RunDelivering(cfg, run);
    assert SafeBeyond(s, j, -1);
    if j !in s.books.settled && j !in s.dropped && j !in s.retry {
      var v :| v in s.movers && s.movers[v] == Mover(j, Removed);
      assert HasMover(s, j);
    }
  }

  /** No job is pushed. */
  predicate NoPush(more: seq<Action>) {
    forall k :: 0 <= k < |more| ==> !IsPush(more[k])
  }

  lemma StepAccepted(cfg: Config, s: State, a: Action)
    requires Enabled(s, a) && !IsPush(a)
    ensures Apply(cfg, s, a).accepted == s.accepted
  {
    match a
    case Move(v) => assert AdvanceMover(s, v).accepted == s.accepted;
    case _ =>
  }

  lemma {:induction false} StatusKept(cfg: Config, run: seq<Action>, more: seq<Action>)
    requires IsRun(cfg, run + more) && IsRun(cfg, run) && NoPush(more)
    ensures After(cfg, run + more).accepted == After(cfg, run).accepted
    ensures forall j | HasStatus(After(cfg, run), j) :: HasStatus(After(cfg, run + more), j)
    decreases |more|
  {
    if more == [] {
      assert run + more == run;
    } else {
      var all, shorter := run + more, more[..|more| - 1];
      assert all[..|all| - 1] == run + shorter && all[|all| - 1] == more[|more| - 1];
      StatusKept(cfg, run, shorter);
      StepAccepted(cfg, After(cfg, run + shorter), more[|more| - 1]);
      forall j | HasStatus(After(cfg, run), j)
        ensures HasStatus(After(cfg, run + more), j)
      {
        RunStatusFits(cfg, run + shorter, j);
        StepStatus(cfg, After(cfg, run + shorter), more[|more| - 1], j);
      }
    }
  }

  lemma EmptyCount(b: Books, st: Status)
    ensures Count(b, st) == 0 <==> forall j :: StatusOf(b, j) != Some(st)
  {
    if Count(b, st) == 0 {
      assert JobsIn(b, st) == {};
      forall j ensures StatusOf(b, j) != Some(st) {
        assert j !in JobsIn(b, st);
      }
    }
    if forall j :: StatusOf(b, j) != Some(st) {
      assert JobsIn(b, st) == {} by {
        forall j ensures j !in JobsIn(b, st) {
          assert StatusOf(b, j) != Some(st);
        }
      }
    }
  }

  ghost predicate NoneLive(b: Books) {
    Count(b, Queued) == 0 && Count(b, Processing) == 0 && Count(b, Retrying) == 0
  }

  lemma FinishedIffNoneLive(s: State)
    requires Known(s) && forall j | j in s.accepted :: HasStatus(s, j)
    ensures AllFinished(s) <==> NoneLive(s.books)
  {
    EmptyCount(s.books, Queued);
    EmptyCount(s.books, Processing);
    EmptyCount(s.books, Retrying);
    if AllFinished(s) {
      forall j
        ensures StatusOf(s.books, j) !in {Some(Queued), Some(Processing), Some(Retrying)}
      {
        assert j in s.accepted ==> IsTerminal(s, j);
      }
    }
    if NoneLive(s.books) {
      forall j | j in s.accepted
        ensures IsTerminal(s, j)
      {
        assert HasStatus(s, j);
        assert StatusOf(s.books, j) !in {Some(Queued), Some(Processing), Some(Retrying)};
      }
    }
  }

  /** The high-priority stream is empty. */
  ghost predicate HighEmpty(cfg: Config, s: State) {
    forall m | m in s.stream :: !cfg.high(s.stream[m].body)
  }

  /** A preview lies on the low-priority stream, and no process has written a status for its job. */
  ghost predicate UntakenPreview(cfg: Config, s: State) {
    exists m :: m in s.stream && !cfg.high(s.stream[m].body) && !HasStatus(s, s.stream[m].job)
  }

  /** No preview was ever pushed. */
  ghost predicate NoPreviews(cfg: Config, s: State) {
    forall j | j in s.accepted :: cfg.high(s.accepted[j])
  }

  lemma {:induction false} NoPreviewUntaken(cfg: Config, run: seq<Action>)
    requires IsRun(cfg, run) && NoPreviews(cfg, After(cfg, run))
    ensures !UntakenPreview(cfg, After(cfg, run))
  {
    RunFaithful(cfg, run);
    assert MessagesFaithful(After(cfg, run));
  }

  /** A job that is no preview and had no message has a status for good; a preview has one or a message. */
  lemma {:induction false} LaterStatus(cfg: Config, run: seq<Action>, more: seq<Action>, j: JobId)
    requires IsRun(cfg, run + more) && IsRun(cfg, run) && NoPush(more) && HighEmpty(cfg, After(cfg, run))
    requires j in After(cfg, run + more).accepted && !UntakenPreview(cfg, After(cfg, run + more))
    ensures HasStatus(After(cfg, run + more), j)
  {
    var s, t := After(cfg, run), After(cfg, run + more);
    StatusKept(cfg, run, more);
    RunFaithful(cfg, run);
    RunFaithful(cfg, run + more);
    if cfg.high(t.accepted[j]) {
      assert !HasMessage(s, j);
      NoMessageHasStatus(cfg, run, j);
    } else if HasMessage(t, j) {
      var m :| m in t.stream && t.stream[m].job == j;
      assert !cfg.high(t.stream[m].body);
    } else {
      NoMessageHasStatus(cfg, run + more, j);
    }
  }

  /** After a moment with no job on the high-priority stream, and without further pushes. */
  lemma {:induction false} LaterFinishedIff(cfg: Config, run: seq<Action>, more: seq<Action>)
    requires IsRun(cfg, run + more) && IsRun(cfg, run) && NoPush(more) && HighEmpty(cfg, After(cfg, run))
    ensures AllFinished(After(cfg, run + more))
       <==> NoneLive(After(cfg, run + more).books) && !UntakenPreview(cfg, After(cfg, run + more))
  {
    var t := After(cfg, run + more);
    RunKnown(cfg, run + more);
    if !UntakenPreview(cfg, t) {
      forall j | j in t.accepted {
        LaterStatus(cfg, run, more, j);
      }
      FinishedIffNoneLive(t);
    } else {
      var m :| m in t.stream && !cfg.high(t.stream[m].body) && !HasStatus(t, t.stream[m].job);
      assert t.stream[m].job in t.accepted && !IsTerminal(t, t.stream[m].job);
    }
  }

  /** The counter shows exactly what overwritten statuses left in it, less the hashes not counted. */
  ghost predicate OnlyLeftOvers(cfg: Config, run: seq<Action>, st: Status)
    requires IsRun(cfg, run)
  {
    Counter(After(cfg, run).books.stats, st) == OverwriteCount(cfg, run, st) - Uncredited(After(cfg, run), st)
  }

  lemma {:induction false} LeftOversIff(cfg: Config, run: seq<Action>, st: Status)
    requires IsRun(cfg, run)
    ensures OnlyLeftOvers(cfg, run, st) <==> Count(After(cfg, run).books, st) == 0
  {
    RunAccounted(cfg, run, st);
  }

  /**
   * Over every run: after a moment with an empty high-priority stream, and if no job is pushed from then
   * on, every accepted job is finished if and only if the three live counters show left-overs only and no
   * untaken preview lies on the low-priority stream.
   */
  lemma {:induction false} FinishedIff(cfg: Config, run: seq<Action>, more: seq<Action>)
    requires IsRun(cfg, run + more) && IsRun(cfg, run) && NoPush(more) && HighEmpty(cfg, After(cfg, run))
    ensures AllFinished(After(cfg, run + more))
       <==> OnlyLeftOvers(cfg, run + more, Queued) && OnlyLeftOvers(cfg, run + more, Processing)
            && OnlyLeftOvers(cfg, run + more, Retrying) && !UntakenPreview(cfg, After(cfg, run + more))
  {
    LaterFinishedIff(cfg, run, more);
    LeftOversIff(cfg, run + more, Queued);
    LeftOversIff(cfg, run + more, Processing);
    LeftOversIff(cfg, run + more, Retrying);
  }

  /** Nothing is counted as queued, beyond the given number of uncounted hashes, or as active or retrying. */
  predicate NothingCounted(t: Stats, uncounted: nat) {
    t.queued == 0 - uncounted && t.active == 0 && t.retrying == 0
  }

  /** No hash was written so late that it went over a live status. */
  ghost predicate RegistersInTime(cfg: Config, run: seq<Action>)
    requires IsRun(cfg, run)
  {
    NeverOverwritten(cfg, run, Queued) && NeverOverwritten(cfg, run, Processing) && NeverOverwritten(cfg, run, Retrying)
  }

  lemma {:induction false} NothingLive(cfg: Config, run: seq<Action>)
    requires IsRun(cfg, run) && NothingCounted(After(cfg, run).books.stats, |After(cfg, run).uncounted|)
    ensures NoneLive(After(cfg, run).books)
  {
    RunAccounted(cfg, run, Queued);
    RunAccounted(cfg, run, Processing);
    RunAccounted(cfg, run, Retrying);
  }

  /**
   * Counters read after the high-priority stream was seen empty, whatever died, was reclaimed or delivered
   * early: if they show nothing live, only an untaken preview can be unfinished.
   */
  lemma {:induction false} ZeroMeansFinished(cfg: Config, run: seq<Action>, more: seq<Action>)
    requires IsRun(cfg, run + more) && IsRun(cfg, run) && NoPush(more) && HighEmpty(cfg, After(cfg, run))
    requires NothingCounted(After(cfg, run + more).books.stats, |After(cfg, run + more).uncounted|)
    ensures AllFinished(After(cfg, run + more)) <==> !UntakenPreview(cfg, After(cfg, run + more))
  {
    LaterFinishedIff(cfg, run, more);
    NothingLive(cfg, run + more);
  }

  /** And the counters tell exactly, when no hash was written over a live status. */
  lemma {:induction false} RereadFinishedIff(cfg: Config, run: seq<Action>, more: seq<Action>)
    requires IsRun(cfg, run + more) && IsRun(cfg, run) && NoPush(more) && HighEmpty(cfg, After(cfg, run))
    requires RegistersInTime(cfg, run + more)
    ensures AllFinished(After(cfg, run + more))
       <==> NothingCounted(After(cfg, run + more).books.stats, |After(cfg, run + more).uncounted|)
            && !UntakenPreview(cfg, After(cfg, run + more))
  {
    FinishedIff(cfg, run, more);
    NeverIsZero(cfg, run + more, Queued);
    NeverIsZero(cfg, run + more, Processing);
    NeverIsZero(cfg, run + more, Retrying);
  }

  /** A producer that writes a hash does so before anything else happens. */
  predicate WritesAtOnce(run: seq<Action>) {
    forall k {:trigger run[k].Submit?} | 0 <= k < |run| - 1 && run[k].Submit? ::
      run[k + 1] == Register(run[k].job) || run[k + 1] == WriteHash(run[k].job)
  }

  lemma StepAnnounced(cfg: Config, s: State, a: Action)
    requires Enabled(s, a)
    ensures Apply(cfg, s, a).announced
         == if a.Submit? then s.announced + {a.job}
            else if a.Register? || a.WriteHash? then s.announced - {a.job}
            else s.announced
  {
    match a
    case Move(v) => assert AdvanceMover(s, v).announced == s.announced;
    case _ =>
  }

  /** Only a job just submitted waits for its hash, and it has none yet. */
  ghost predicate JustSubmitted(cfg: Config, run: seq<Action>)
    requires IsRun(cfg, run)
  {
    forall j | j in After(cfg, run).announced ::
      run != [] && run[|run| - 1].Submit? && run[|run| - 1].job == j && !HasStatus(After(cfg, run), j)
  }

  /** Jobs pushed bare, and jobs whose hash is written right after their message: no live status is overwritten. */
  lemma {:induction false} PromptHashesInTime(cfg: Config, run: seq<Action>)
    requires IsRun(cfg, run) && WritesAtOnce(run)
    ensures RegistersInTime(cfg, run) && JustSubmitted(cfg, run)
    decreases |run|
  {
    if run != [] {
      var before, a := run[..|run| - 1], run[|run| - 1];
      assert WritesAtOnce(before) by {
        assert forall k | 0 <= k < |before| :: before[k] == run[k];
      }
      PromptHashesInTime(cfg, before);
      RunKnown(cfg, before);
      StepAnnounced(cfg, After(cfg, before), a);
      PromptStep(cfg, run);
    }
  }

  lemma {:induction false} PromptStep(cfg: Config, run: seq<Action>)
    requires IsRun(cfg, run) && run != [] && WritesAtOnce(run) && JustSubmitted(cfg, run[..|run| - 1])
    requires Known(After(cfg, run[..|run| - 1]))
    ensures JustSubmitted(cfg, run)
    ensures forall st :: !Terminal(st) ==> !Overwrites(cfg, After(cfg, run[..|run| - 1]), run[|run| - 1], st)
  {
    var before, a := run[..|run| - 1], run[|run| - 1];
    var s := After(cfg, before);
    StepAnnounced(cfg, s, a);
    if before != [] && before[|before| - 1].Submit? {
      assert run[|before| - 1].Submit?;
      assert a == Register(before[|before| - 1].job) || a == WriteHash(before[|before| - 1].job);
    } else {
      assert s.announced == {};
    }
  }

  lemma FinishedPartition(s: State)
    requires Known(s) && AllFinished(s)
    ensures Count(s.books, Completed) + Count(s.books, Failed) == |s.accepted.Keys|
  {
    var done, failed := JobsIn(s.books, Completed), JobsIn(s.books, Failed);
    forall j
      ensures j in done + failed <==> j in s.accepted
    {
      assert j in s.accepted ==> IsTerminal(s, j);
    }
    assert done !! failed && done + failed == s.accepted.Keys;
    assert |done + failed| == |done| + |failed|;
  }

  /**
   * Conservation over every run: once all jobs are finished, the completed and failed counters add up to
   * the number of accepted jobs plus the number of times a finished job's status was overwritten.
   */
  lemma {:induction false} FinishedConservation(cfg: Config, run: seq<Action>)
    requires IsRun(cfg, run) && AllFinished(After(cfg, run))
    ensures Done(After(cfg, run))
         == |After(cfg, run).accepted.Keys| + OverwriteCount(cfg, run, Completed) + OverwriteCount(cfg, run, Failed)
  {
    RunKnown(cfg, run);
    RunAccounted(cfg, run, Completed);
    RunAccounted(cfg, run, Failed);
    FinishedPartition(After(cfg, run));
  }
}
