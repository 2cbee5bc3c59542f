/** Guarantees of calm runs of the grading queue. */
module QueueTheorems {
  import opened Wrappers
  import opened GradingQueue
  import opened QueueAccounting
  import opened QueueAttempts
  import opened QueueDelivery
  import opened QueueFaithful
  import opened QueueCalm
  import opened QueueCalmSteps

  lemma {:induction false} CalmRunOrderly(cfg: Config, run: seq<Action>)
    requires IsRun(cfg, run) && IsCalmRun(cfg, run)
    ensures Orderly(cfg, After(cfg, run))
    decreases |run|
  {
    if run != [] {
      CalmRunOrderly(cfg, run[..|run| - 1]);
      StepOrderly(cfg, After(cfg, run[..|run| - 1]), run[|run| - 1]);
    }
  }

  lemma WaitingEarly(cfg: Config, s: State, j: JobId)
    requires JobOk(cfg, s, j) && Waiting(s, j)
    ensures Early(cfg, s, j)
  {
    var x :| Waits(s, j, x);
    assert Fits(cfg, s, j, x);
  }

  lemma NoMover(s: State, j: JobId)
    requires MoversFit(s, j) && !Waiting(s, j) && j !in s.retry && forall v :: !Holds(s, j, InMover(v))
    ensures !HasMover(s, j)
  {
    forall v | v in s.movers
      ensures s.movers[v].job != j
    {
      assert s.movers[v].job == j ==> MoverFits(s, j, v);
      assert !Holds(s, j, InMover(v));
    }
  }

  /** A finished job is nowhere, unless a handler is still writing it to the dead-letter stream. */
  lemma FinishedIsNowhere(cfg: Config, s: State, j: JobId)
    requires JobOk(cfg, s, j) && IsTerminal(s, j)
    ensures forall x :: Holds(s, j, x) ==> x.InHandler? && s.handlers[x.h].pc == DeadLettering
    ensures j !in s.announced && !HasMover(s, j)
  {
    assert forall x :: Holds(s, j, x) ==> Fits(cfg, s, j, x);
    if Waiting(s, j) {
      WaitingEarly(cfg, s, j);
    }
    assert !Holds(s, j, InRetry);
    NoMover(s, j);
  }

  lemma AdvanceTerminalKept(cfg: Config, s: State, h: nat, ok: bool, j: JobId)
    requires JobOk(cfg, s, j) && h in s.handlers && IsTerminal(s, j)
    ensures HashOf(AdvanceHandler(cfg, s, h, ok).books, j) == HashOf(s.books, j)
    ensures IsTerminal(AdvanceHandler(cfg, s, h, ok), j)
  {
    FinishedIsNowhere(cfg, s, j);
    if s.handlers[h].job != j {
      HandlerBooksOther(cfg, s.books, s.handlers[h], j);
    } else if s.handlers[h].pc != Acking {
      assert Holds(s, j, InHandler(h));
    }
  }

  /** A calm step never touches the hash of a finished job. */
  lemma StepTerminalKept(cfg: Config, s: State, a: Action, j: JobId)
    requires Orderly(cfg, s) && Enabled(s, a) && Calm(cfg, s, a) && IsTerminal(s, j)
    ensures HashOf(Apply(cfg, s, a).books, j) == HashOf(s.books, j) && IsTerminal(Apply(cfg, s, a), j)
  {
    assert JobOk(cfg, s, j);
    FinishedIsNowhere(cfg, s, j);
    match a
    case Advance(h, ok) => AdvanceTerminalKept(cfg, s, h, ok, j);
    case Move(v) => MoveBooksOther(s, v, j);
    case Register(i) => assert i != j;
    case WriteHash(i) => assert i != j;
    case _ =>
  }

  /** In calm runs `completed` and `failed` are final. */
  lemma {:induction false} TerminalForever(cfg: Config, run: seq<Action>, more: seq<Action>, j: JobId)
    requires IsRun(cfg, run) && IsRun(cfg, run + more) && IsCalmRun(cfg, run + more)
    requires IsTerminal(After(cfg, run), j)
    ensures HashOf(After(cfg, run + more).books, j) == HashOf(After(cfg, run).books, j)
    ensures IsTerminal(After(cfg, run + more), j)
    decreases |more|
  {
    if more == [] {
      assert run + more == run;
    } else {
      var all, shorter := run + more, more[..|more| - 1];
      assert all[..|all| - 1] == run + shorter && all[|all| - 1] == more[|more| - 1];
      TerminalForever(cfg, run, shorter, j);
      CalmRunOrderly(cfg, run + shorter);
      StepTerminalKept(cfg, After(cfg, run + shorter), more[|more| - 1], j);
    }
  }

  lemma CalmStepKeepsCount(cfg: Config, s: State, a: Action, j: JobId)
    requires Orderly(cfg, s) && Enabled(s, a) && Calm(cfg, s, a)
    ensures !Doubles(s, a, j) && Resets(s, a, j) == 0
  {
    assert JobOk(cfg, s, j);
    if (a.Register? || a.WriteHash?) && a.job == j {
      WaitingEarly(cfg, s, j);
    }
  }

  lemma {:induction false} CalmKeepsCount(cfg: Config, run: seq<Action>, j: JobId)
    requires IsRun(cfg, run) && IsCalmRun(cfg, run)
    ensures Doublings(cfg, run, j) == 0 && Forgotten(cfg, run, j) == 0
    decreases |run|
  {
    if run != [] {
      CalmKeepsCount(cfg, run[..|run| - 1], j);
      CalmRunOrderly(cfg, run[..|run| - 1]);
      CalmStepKeepsCount(cfg, After(cfg, run[..|run| - 1]), run[|run| - 1], j);
    }
  }

  /** In a calm run a job is graded at most as often as the limit allows, and the hash counts no less. */
  lemma {:induction false} CalmGradingsBounded(cfg: Config, run: seq<Action>, j: JobId)
    requires IsRun(cfg, run) && IsCalmRun(cfg, run)
    ensures Gradings(cfg, run, j) <= HashOf(After(cfg, run).books, j).attempts
    ensures HashOf(After(cfg, run).books, j).attempts <= (if cfg.maxAttempts < 1 then 1 else cfg.maxAttempts)
  {
    AttemptsAccounted(cfg, run, j);
    CalmKeepsCount(cfg, run, j);
    CalmRunOrderly(cfg, run);
    assert JobOk(cfg, After(cfg, run), j);
  }

  lemma AdvanceNoOverwrite(cfg: Config, s: State, h: nat, ok: bool, st: Status)
    requires Orderly(cfg, s) && h in s.handlers
    ensures !Overwrites(cfg, s, Advance(h, ok), st)
  {
    var j := s.handlers[h].job;
    assert JobOk(cfg, s, j);
    if s.handlers[h].pc != Acking {
      assert Holds(s, j, InHandler(h)) && Fits(cfg, s, j, InHandler(h));
    }
  }

  lemma MoveNoOverwrite(cfg: Config, s: State, v: nat, st: Status)
    requires Orderly(cfg, s) && v in s.movers
    ensures !Overwrites(cfg, s, Move(v), st)
  {
    var j := s.movers[v].job;
    assert JobOk(cfg, s, j) && MoverFits(s, j, v) && Kept(cfg, s, j);
    if s.movers[v].pc == Added {
      WaitingEarly(cfg, s, j);
    }
  }

  lemma StepNoOverwrite(cfg: Config, s: State, a: Action, st: Status)
    requires Orderly(cfg, s) && Enabled(s, a)
    ensures !Overwrites(cfg, s, a, st)
  {
    match a
    case Advance(h, ok) => AdvanceNoOverwrite(cfg, s, h, ok, st);
    case Move(v) => MoveNoOverwrite(cfg, s, v, st);
    case Register(j) =>
      assert JobOk(cfg, s, j);
      WaitingEarly(cfg, s, j);
    case WriteHash(j) =>
      assert JobOk(cfg, s, j);
      WaitingEarly(cfg, s, j);
    case _ =>
  }

  /** No status is ever overwritten in a calm run. */
  lemma {:induction false} CalmNeverOverwrites(cfg: Config, run: seq<Action>, st: Status)
    requires IsRun(cfg, run) && IsCalmRun(cfg, run)
    ensures NeverOverwritten(cfg, run, st) && OverwriteCount(cfg, run, st) == 0
    decreases |run|
  {
    if run != [] {
      CalmNeverOverwrites(cfg, run[..|run| - 1], st);
      CalmRunOrderly(cfg, run[..|run| - 1]);
      StepNoOverwrite(cfg, After(cfg, run[..|run| - 1]), run[|run| - 1], st);
    }
  }

  /** In calm runs the counters are exact, but for the hashes written and not counted. */
  lemma {:induction false} CountersExact(cfg: Config, run: seq<Action>, st: Status)
    requires IsRun(cfg, run) && IsCalmRun(cfg, run)
    ensures Counter(After(cfg, run).books.stats, st)
         == Count(After(cfg, run).books, st) - Uncredited(After(cfg, run), st)
  {
    RunAccounted(cfg, run, st);
    CalmNeverOverwrites(cfg, run, st);
  }

  /** With the stream empty, a job that is not finished is marked as retrying. */
  lemma EmptyStreamRetrying(cfg: Config, s: State, j: JobId)
    requires Orderly(cfg, s) && s.stream == map[] && j in s.accepted && !IsTerminal(s, j)
    ensures StatusOf(s.books, j) == Some(Retrying)
  {
    assert JobOk(cfg, s, j);
    if j !in s.dropped {
      var x :| Holds(s, j, x);
      assert Fits(cfg, s, j, x);
    }
  }

  ghost predicate AllFinished(s: State) {
    forall j | j in s.accepted :: IsTerminal(s, j)
  }

  /** In a calm run that leaves the stream empty, the work is done exactly when no job is counted as retrying. */
  lemma {:induction false} EmptyStreamFinishedIff(cfg: Config, run: seq<Action>)
    requires IsRun(cfg, run) && IsCalmRun(cfg, run) && After(cfg, run).stream == map[]
    ensures AllFinished(After(cfg, run)) <==> After(cfg, run).books.stats.retrying == 0
  {
    CalmRunOrderly(cfg, run);
    CountersExact(cfg, run, Retrying);
    NoneRetryingIff(cfg, After(cfg, run));
  }

  lemma NoneRetryingIff(cfg: Config, s: State)
    requires Orderly(cfg, s) && s.stream == map[]
    ensures AllFinished(s) <==> Count(s.books, Retrying) == 0
  {
    if AllFinished(s) {
      assert JobsIn(s.books, Retrying) == {};
    } else {
      var j :| j in s.accepted && !IsTerminal(s, j);
      EmptyStreamRetrying(cfg, s, j);
      assert j in JobsIn(s.books, Retrying);
    }
  }

  /** Once the stream is empty, the dead-letter stream holds each failed job once and no other. */
  lemma {:induction false} DeadLettersExact(cfg: Config, run: seq<Action>, j: JobId)
    requires IsRun(cfg, run) && IsCalmRun(cfg, run) && After(cfg, run).stream == map[]
    ensures multiset(After(cfg, run).dlq)[j] == if StatusOf(After(cfg, run).books, j) == Some(Failed) then 1 else 0
  {
    CalmRunOrderly(cfg, run);
    assert JobOk(cfg, After(cfg, run), j);
    assert After(cfg, run).handlers == map[];
  }

  /**
   * In calm runs a job was given up if and only if it is unfinished and no message, handler, retry entry or
   * mover will bring it forward.
   */
  lemma {:induction false} DroppedIff(cfg: Config, run: seq<Action>, j: JobId)
    requires IsRun(cfg, run) && IsCalmRun(cfg, run) && j in After(cfg, run).accepted
    ensures j in After(cfg, run).dropped
       <==> j !in After(cfg, run).books.settled && !SomeHolder(After(cfg, run), j)
  {
    CalmRunOrderly(cfg, run);
    assert JobOk(cfg, After(cfg, run), j);
  }

  /** The handler that scheduled the retry has still to acknowledge the message. */
  ghost predicate BeingAcknowledged(s: State, j: JobId) {
    exists h :: h in s.handlers && s.handlers[h].job == j && s.handlers[h].pc == Acking
  }

  /**
   * In calm runs an accepted job is referred to by nothing and was never finished if and only if it was given
   * up and its last message has been acknowledged.
   */
  lemma {:induction false} UnreachableIff(cfg: Config, run: seq<Action>, j: JobId)
    requires IsRun(cfg, run) && IsCalmRun(cfg, run) && j in After(cfg, run).accepted
    ensures Unreachable(After(cfg, run), j) && j !in After(cfg, run).books.settled
       <==> j in After(cfg, run).dropped && !BeingAcknowledged(After(cfg, run), j)
                && forall m | m in After(cfg, run).stream :: After(cfg, run).stream[m].job != j
  {
    var s := After(cfg, run);
    CalmRunOrderly(cfg, run);
    DroppedIff(cfg, run, j);
    assert JobOk(cfg, s, j);
    if j in s.dropped && !BeingAcknowledged(s, j) {
      DroppedIsNowhere(cfg, s, j);
    }
    if Unreachable(s, j) {
      assert forall x :: !Holds(s, j, x);
    }
  }

  lemma DroppedIsNowhere(cfg: Config, s: State, j: JobId)
    requires JobOk(cfg, s, j) && j in s.dropped && !BeingAcknowledged(s, j)
    ensures j !in s.retry && j !in s.announced && !HasMover(s, j)
    ensures forall h | h in s.handlers :: s.handlers[h].job != j
  {
    assert !Waiting(s, j) && !Holds(s, j, InRetry);
    forall h | h in s.handlers
      ensures s.handlers[h].job != j
    {
      assert !Holds(s, j, InHandler(h));
    }
    NoMover(s, j);
  }
}
