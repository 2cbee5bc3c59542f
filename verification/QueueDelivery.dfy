/** Which jobs can get lost, over every run of the grading queue, with crashes and reclaims anywhere. */
module QueueDelivery {
  import opened GradingQueue
  import opened QueueAccounting

  /** Something newer than message `m` will bring the job back: a retry entry, a mover, or a later message. */
  ghost predicate CarriedBeyond(s: State, j: JobId, m: int) {
    || j in s.retry
    || (exists v :: v in s.movers && s.movers[v] == Mover(j, Removed))
    || (exists n :: n in s.stream && n > m && s.stream[n].job == j)
  }

  ghost predicate SafeBeyond(s: State, j: JobId, m: int) {
    j in s.books.settled || j in s.dropped || CarriedBeyond(s, j, m)
  }

  ghost predicate HandlerSafe(s: State, h: Handler) {
    && h.msg < s.nextMsg
    && (h.msg in s.stream ==> s.stream[h.msg].job == h.job)
    && (h.pc == DeadLettering ==> h.job in s.books.settled)
    && (h.pc == Acking ==> SafeBeyond(s, h.job, h.msg))
  }

  ghost predicate Delivering(s: State) {
    && Known(s)
    && (forall m | m in s.stream :: m < s.nextMsg)
    && (forall h | h in s.handlers :: HandlerSafe(s, s.handlers[h]))
    && (forall j | j in s.accepted :: SafeBeyond(s, j, -1))
  }

  /** A step loses no job: whatever made it safe beyond an existing message still does, or it is recorded. */
  ghost predicate Keeps(s: State, t: State, j: JobId) {
    forall m: int :: m < s.nextMsg && SafeBeyond(s, j, m) ==> SafeBeyond(t, j, m)
  }

  lemma KeepsDelivering(s: State, t: State)
    requires Delivering(s) && Known(t) && s.nextMsg <= t.nextMsg && s.books.settled <= t.books.settled
    requires t.accepted.Keys <= s.accepted.Keys
    requires forall j :: Keeps(s, t, j)
    requires forall m | m in t.stream :: m < t.nextMsg
    requires forall m | m in t.stream && m < s.nextMsg :: m in s.stream && t.stream[m].job == s.stream[m].job
    requires t.handlers.Keys <= s.handlers.Keys && forall h | h in t.handlers :: t.handlers[h] == s.handlers[h]
    ensures Delivering(t)
  {
    forall h | h in t.handlers
      ensures HandlerSafe(t, t.handlers[h])
    {
      assert HandlerSafe(s, s.handlers[h]) && Keeps(s, t, s.handlers[h].job);
    }
    forall j | j in t.accepted
      ensures SafeBeyond(t, j, -1)
    {
      assert SafeBeyond(s, j, -1) && Keeps(s, t, j);
    }
  }

  lemma HandlerSettles(cfg: Config, b: Books, h: Handler)
    ensures b.settled <= HandlerBooks(cfg, b, h).settled
  {
  }

  lemma AdvanceKeeps(cfg: Config, s: State, h: nat, ok: bool, j: JobId)
    requires Delivering(s) && h in s.handlers && s.handlers[h].pc != Acking
    ensures Keeps(s, AdvanceHandler(cfg, s, h, ok), j)
    ensures s.books.settled <= AdvanceHandler(cfg, s, h, ok).books.settled
  {
    HandlerSettles(cfg, s.books, s.handlers[h]);
  }

  lemma AdvanceDelivering(cfg: Config, s: State, h: nat, ok: bool)
    requires Delivering(s) && h in s.handlers && s.handlers[h].pc != Acking
    ensures Delivering(AdvanceHandler(cfg, s, h, ok))
  {
    var t := AdvanceHandler(cfg, s, h, ok);
    AdvanceKnown(cfg, s, h, ok);
    assert t.nextMsg == s.nextMsg && t.stream == s.stream && t.accepted == s.accepted;
    forall k | k in t.handlers
      ensures HandlerSafe(t, t.handlers[k])
    {
      AdvanceKeeps(cfg, s, h, ok, s.handlers[k].job);
      if k == h {
        AdvanceOwnSafe(cfg, s, h, ok);
      } else {
        OtherSafe(s, t, s.handlers[k]);
      }
    }
    forall j | j in t.accepted
      ensures SafeBeyond(t, j, -1)
    {
      AdvanceKeeps(cfg, s, h, ok, j);
    }
  }

  lemma OtherSafe(s: State, t: State, h: Handler)
    requires HandlerSafe(s, h) && Keeps(s, t, h.job)
    requires t.nextMsg == s.nextMsg && t.stream == s.stream && s.books.settled <= t.books.settled
    ensures HandlerSafe(t, h)
  {
  }

  /** Before acknowledging, the handler has settled its job, scheduled its retry, or given it up. */
  lemma AdvanceOwnSafe(cfg: Config, s: State, h: nat, ok: bool)
    requires Delivering(s) && h in s.handlers && s.handlers[h].pc != Acking
    requires Keeps(s, AdvanceHandler(cfg, s, h, ok), s.handlers[h].job)
    ensures HandlerSafe(AdvanceHandler(cfg, s, h, ok), AdvanceHandler(cfg, s, h, ok).handlers[h])
  {
    assert HandlerSafe(s, s.handlers[h]);
    HandlerSettles(cfg, s.books, s.handlers[h]);
  }

  /** Acknowledging removes a message, and by then something later carries the job or it is settled. */
  lemma AckKeeps(cfg: Config, s: State, h: nat, ok: bool, j: JobId)
    requires Delivering(s) && h in s.handlers && s.handlers[h].pc == Acking
    ensures Keeps(s, AdvanceHandler(cfg, s, h, ok), j)
  {
    var H, t := s.handlers[h], AdvanceHandler(cfg, s, h, ok);
    assert HandlerSafe(s, H);
    forall m: int | m < s.nextMsg && CarriedBeyond(s, j, m)
      ensures SafeBeyond(t, j, m)
    {
      if j !in s.retry && !(exists v :: v in s.movers && s.movers[v] == Mover(j, Removed)) {
        var n :| n in s.stream && n > m && s.stream[n].job == j;
        if n == H.msg && CarriedBeyond(s, j, n) {
          var k :| k in s.stream && k > n && s.stream[k].job == j;
          assert k in t.stream;
        } else if n == H.msg {
          assert SafeBeyond(s, j, n);
        } else {
          assert n in t.stream;
        }
      }
    }
  }

  lemma AckDelivering(cfg: Config, s: State, h: nat, ok: bool)
    requires Delivering(s) && h in s.handlers && s.handlers[h].pc == Acking
    ensures Delivering(AdvanceHandler(cfg, s, h, ok))
  {
    forall j { AckKeeps(cfg, s, h, ok, j); }
    KeepsDelivering(s, AdvanceHandler(cfg, s, h, ok));
  }

  lemma MoveKeeps(s: State, v: nat, j: JobId)
    requires Delivering(s) && v in s.movers
    ensures Keeps(s, AdvanceMover(s, v), j)
  {
    var t := AdvanceMover(s, v);
    forall m: int | m < s.nextMsg && CarriedBeyond(s, j, m)
      ensures SafeBeyond(t, j, m)
    {
      if s.movers[v] == Mover(j, Seen) {
        assert t.movers[v] == Mover(j, Removed);
      } else if s.movers[v] == Mover(j, Removed) && HashOf(s.books, j).payload != "" {
        assert t.stream[s.nextMsg].job == j;
      } else if exists n :: n in s.stream && n > m && s.stream[n].job == j {
        var n :| n in s.stream && n > m && s.stream[n].job == j;
        assert n in t.stream && t.stream[n] == s.stream[n];
      } else if j !in s.retry {
        var w :| w in s.movers && s.movers[w] == Mover(j, Removed);
        if w != v {
          assert t.movers[w] == s.movers[w];
        }
      }
    }
  }

  lemma MoveDelivering(s: State, v: nat)
    requires Delivering(s) && v in s.movers
    ensures Delivering(AdvanceMover(s, v))
  {
    MoveKnown(s, v);
    forall j { MoveKeeps(s, v, j); }
    KeepsDelivering(s, AdvanceMover(s, v));
  }

  lemma PushSafe(cfg: Config, s: State, a: Action, j: JobId, m: int)
    requires Known(s) && (forall n | n in s.stream :: n < s.nextMsg) && Enabled(s, a)
    requires IsPush(a) && SafeBeyond(s, j, m)
    ensures SafeBeyond(Apply(cfg, s, a), j, m)
  {
    var t := Apply(cfg, s, a);
    assert t.movers == s.movers && t.retry == s.retry;
    assert forall n | n in s.stream :: n in t.stream && t.stream[n] == s.stream[n];
  }

  lemma PushHandlerSafe(cfg: Config, s: State, a: Action, h: Handler)
    requires Delivering(s) && Enabled(s, a) && IsPush(a) && HandlerSafe(s, h)
    ensures HandlerSafe(Apply(cfg, s, a), h)
  {
    if SafeBeyond(s, h.job, h.msg) {
      PushSafe(cfg, s, a, h.job, h.msg);
    }
  }

  /** Pushing a new job leaves every other job's carriers alone and gives the new one its message. */
  lemma PushDelivering(cfg: Config, s: State, a: Action)
    requires Delivering(s) && Enabled(s, a) && IsPush(a)
    ensures Delivering(Apply(cfg, s, a))
  {
    var t := Apply(cfg, s, a);
    StepKnown(cfg, s, a);
    assert t.handlers == s.handlers && t.stream[s.nextMsg].job == a.job;
    forall k | k in s.handlers {
      PushHandlerSafe(cfg, s, a, s.handlers[k]);
    }
    forall j | j in t.accepted
      ensures SafeBeyond(t, j, -1)
    {
      if j != a.job {
        PushSafe(cfg, s, a, j, -1);
      }
    }
  }

  /** The step moves no job off a stream or a retry set and starts no mover. */
  predicate HandsOver(a: Action) {
    a.Deliver? || a.Reclaim? || a.Crash? || a.Register? || a.WriteHash? || a.CountQueued?
  }

  lemma HandOverSafe(cfg: Config, s: State, a: Action, j: JobId, m: int)
    requires Enabled(s, a) && HandsOver(a) && SafeBeyond(s, j, m)
    ensures SafeBeyond(Apply(cfg, s, a), j, m)
  {
    var t := Apply(cfg, s, a);
    assert t.movers == s.movers && t.retry == s.retry && t.books.settled == s.books.settled && t.dropped == s.dropped;
    assert forall n | n in s.stream :: n in t.stream && t.stream[n].job == s.stream[n].job;
  }

  lemma HandOverHandlerSafe(cfg: Config, s: State, a: Action, h: Handler)
    requires Enabled(s, a) && HandsOver(a) && HandlerSafe(s, h)
    ensures HandlerSafe(Apply(cfg, s, a), h)
  {
    if SafeBeyond(s, h.job, h.msg) {
      HandOverSafe(cfg, s, a, h.job, h.msg);
    }
  }

  lemma HandOverDelivering(cfg: Config, s: State, a: Action)
    requires Delivering(s) && Enabled(s, a) && HandsOver(a)
    ensures Delivering(Apply(cfg, s, a))
  {
    var t := Apply(cfg, s, a);
    StepKnown(cfg, s, a);
    forall k | k in s.handlers {
      HandOverHandlerSafe(cfg, s, a, s.handlers[k]);
    }
    forall j | j in s.accepted {
      HandOverSafe(cfg, s, a, j, -1);
    }
    assert t.accepted == s.accepted;
  }

  lemma MoverDelivering(cfg: Config, s: State, a: Action)
    requires Delivering(s) && Enabled(s, a) && (a.Peek? || a.FailRemove? || a.MoverCrash?)
    ensures Delivering(Apply(cfg, s, a))
  {
    var t := Apply(cfg, s, a);
    StepKnown(cfg, s, a);
    forall j, m: int | SafeBeyond(s, j, m)
      ensures SafeBeyond(t, j, m)
    {
      if j !in s.books.settled && j !in s.dropped && j !in s.retry
          && !(exists n :: n in s.stream && n > m && s.stream[n].job == j) {
        var w :| w in s.movers && s.movers[w] == Mover(j, Removed);
        assert w in t.movers || j in t.dropped;
      }
    }
    forall k | k in t.handlers
      ensures HandlerSafe(t, t.handlers[k])
    {
      assert HandlerSafe(s, s.handlers[k]);
    }
  }

  lemma StepDelivering(cfg: Config, s: State, a: Action)
    requires Delivering(s) && Enabled(s, a)
    ensures Delivering(Apply(cfg, s, a))
  {
    match a
    case Submit(_, _) => PushDelivering(cfg, s, a);
    case BarePush(_, _) => PushDelivering(cfg, s, a);
    case Advance(h, ok) =>
      if s.handlers[h].pc == Acking {
        AckDelivering(cfg, s, h, ok);
      } else {
        AdvanceDelivering(cfg, s, h, ok);
      }
    case Move(v) => MoveDelivering(s, v);
    case Peek(_, _) => MoverDelivering(cfg, s, a);
    case FailRemove(_) => MoverDelivering(cfg, s, a);
    case MoverCrash(_) => MoverDelivering(cfg, s, a);
    case _ => HandOverDelivering(cfg, s, a);
  }

  lemma {:induction false} RunDelivering(cfg: Config, run: seq<Action>)
    requires IsRun(cfg, run)
    ensures Delivering(After(cfg, run))
    decreases |run|
  {
    if run != [] {
      RunDelivering(cfg, run[..|run| - 1]);
      StepDelivering(cfg, After(cfg, run[..|run| - 1]), run[|run| - 1]);
    }
  }

  /**
   * The step gives a job up: a mover stops between taking it off the retry set and putting it on the stream,
   * or the ZADD that schedules its retry fails and the worker acknowledges the message all the same.
   */
  predicate GivesUp(s: State, a: Action) {
    || (a.MoverCrash? && a.v in s.movers && s.movers[a.v].pc == Removed)
    || (a.Advance? && a.h in s.handlers && s.handlers[a.h].pc == Scheduling && !a.ok)
  }

  ghost predicate NothingGivenUp(cfg: Config, run: seq<Action>)
    requires IsRun(cfg, run)
    decreases |run|
  {
    run == [] || (&& NothingGivenUp(cfg, run[..|run| - 1])
                  && !GivesUp(After(cfg, run[..|run| - 1]), run[|run| - 1]))
  }

  lemma AdvanceDropped(cfg: Config, s: State, h: nat, ok: bool)
    requires h in s.handlers
    ensures !GivesUp(s, Advance(h, ok)) ==> AdvanceHandler(cfg, s, h, ok).dropped == s.dropped
  {
  }

  lemma StepDropped(cfg: Config, s: State, a: Action)
    requires Enabled(s, a) && !GivesUp(s, a)
    ensures Apply(cfg, s, a).dropped == s.dropped
  {
    if a.Advance? {
      AdvanceDropped(cfg, s, a.h, a.ok);
    }
  }

  lemma {:induction false} NothingDropped(cfg: Config, run: seq<Action>)
    requires IsRun(cfg, run) && NothingGivenUp(cfg, run)
    ensures After(cfg, run).dropped == {}
    decreases |run|
  {
    if run != [] {
      NothingDropped(cfg, run[..|run| - 1]);
      StepDropped(cfg, After(cfg, run[..|run| - 1]), run[|run| - 1]);
    }
  }

  /** Nothing in the system refers to the job any more. */
  ghost predicate Unreachable(s: State, j: JobId) {
    && j !in s.retry
    && j !in s.announced
    && (forall m | m in s.stream :: s.stream[m].job != j)
    && (forall h | h in s.handlers :: s.handlers[h].job != j)
    && (forall v | v in s.movers :: s.movers[v].job != j)
  }

  /**
   * At-least-once delivery. As long as no job is given up, a job that nothing refers to any more has been
   * completed or failed, however handlers crashed, messages were reclaimed and steps interleaved.
   */
  lemma NoJobLost(cfg: Config, run: seq<Action>, j: JobId)
    requires IsRun(cfg, run) && NothingGivenUp(cfg, run)
    requires j in After(cfg, run).accepted && Unreachable(After(cfg, run), j)
    ensures j in After(cfg, run).books.settled
  {
    RunDelivering(cfg, run);
    NothingDropped(cfg, run);
    assert SafeBeyond(After(cfg, run), j, -1);
  }

  /** A job that is lost was given up. */
  lemma LostOnlyIfGivenUp(cfg: Config, run: seq<Action>, j: JobId)
    requires IsRun(cfg, run)
    requires j in After(cfg, run).accepted && Unreachable(After(cfg, run), j)
    ensures j in After(cfg, run).books.settled || j in After(cfg, run).dropped
  {
    RunDelivering(cfg, run);
    assert SafeBeyond(After(cfg, run), j, -1);
  }

  lemma MoveUnreachable(s: State, v: nat, j: JobId)
    requires Unreachable(s, j) && v in s.movers
    ensures Unreachable(AdvanceMover(s, v), j)
    ensures HashOf(AdvanceMover(s, v).books, j) == HashOf(s.books, j)
  {
  }

  lemma StepUnreachable(cfg: Config, s: State, a: Action, j: JobId)
    requires j in s.accepted && Unreachable(s, j) && Enabled(s, a)
    ensures Unreachable(Apply(cfg, s, a), j)
    ensures HashOf(Apply(cfg, s, a).books, j) == HashOf(s.books, j)
    ensures j in Apply(cfg, s, a).accepted
  {
    match a
    case Advance(h, ok) => AdvanceUnreachable(cfg, s, h, ok, j);
    case Move(v) => MoveUnreachable(s, v, j);
    case _ =>
  }

  lemma AdvanceUnreachable(cfg: Config, s: State, h: nat, ok: bool, j: JobId)
    requires Unreachable(s, j) && h in s.handlers
    ensures Unreachable(AdvanceHandler(cfg, s, h, ok), j)
    ensures HashOf(AdvanceHandler(cfg, s, h, ok).books, j) == HashOf(s.books, j)
  {
    HandlerHashOf(cfg, s.books, s.handlers[h], j);
  }

  lemma HandlerHashOf(cfg: Config, b: Books, h: Handler, j: JobId)
    requires h.job != j
    ensures HashOf(HandlerBooks(cfg, b, h), j) == HashOf(b, j)
  {
  }

  /** A job nothing refers to keeps its status for ever. */
  lemma {:induction false} UnreachableForever(cfg: Config, run: seq<Action>, more: seq<Action>, j: JobId)
    requires IsRun(cfg, run) && IsRun(cfg, run + more)
    requires j in After(cfg, run).accepted && Unreachable(After(cfg, run), j)
    ensures j in After(cfg, run + more).accepted && Unreachable(After(cfg, run + more), j)
    ensures HashOf(After(cfg, run + more).books, j) == HashOf(After(cfg, run).books, j)
    decreases |more|
  {
    if more == [] {
      assert run + more == run;
    } else {
      var all, shorter := run + more, more[..|more| - 1];
      assert all[..|all| - 1] == run + shorter && all[|all| - 1] == more[|more| - 1];
      UnreachableForever(cfg, run, shorter, j);
      StepUnreachable(cfg, After(cfg, run + shorter), more[|more| - 1], j);
    }
  }
}
