/** How often a job can be graded, over every run of the grading queue. */
module QueueAttempts {
  import opened GradingQueue
  import opened QueueAccounting

  /** The step runs a grading of the job. */
  predicate Grades(s: State, a: Action, j: JobId) {
    a.Advance? && a.h in s.handlers && s.handlers[a.h].job == j && s.handlers[a.h].pc.Grading?
  }

  /** How often the job was graded in the run. */
  ghost function Gradings(cfg: Config, run: seq<Action>, j: JobId): nat
    requires IsRun(cfg, run)
    decreases |run|
  {
    if run == [] then 0
    else Gradings(cfg, run[..|run| - 1], j) + One(Grades(After(cfg, run[..|run| - 1]), run[|run| - 1], j))
  }

  ghost function MoversAt(s: State, j: JobId, pc: MoverPc): set<nat> {
    set v | v in s.movers && s.movers[v] == Mover(j, pc)
  }

  /**
   * The step puts the job into one more pair of hands: its message is reclaimed, a second mover sees its
   * retry entry, or a mover goes on although the entry could not be removed.
   */
  ghost predicate Doubles(s: State, a: Action, j: JobId) {
    match a
    case Reclaim(_, m) => m in s.stream && s.stream[m].job == j
    case Peek(_, i) => i == j && MoversAt(s, j, Seen) != {}
    case FailRemove(v) => v in s.movers && s.movers[v].job == j
    case _ => false
  }

  /** How many steps of the run doubled the job. */
  ghost function Doublings(cfg: Config, run: seq<Action>, j: JobId): nat
    requires IsRun(cfg, run)
    decreases |run|
  {
    if run == [] then 0
    else Doublings(cfg, run[..|run| - 1], j) + One(Doubles(After(cfg, run[..|run| - 1]), run[|run| - 1], j))
  }

  function Tried(s: State, j: JobId): nat {
    HashOf(s.books, j).attempts
  }

  /** The attempts that a producer's late hash resets to zero. */
  function Resets(s: State, a: Action, j: JobId): nat {
    if a == Register(j) || a == WriteHash(j) then Tried(s, j) else 0
  }

  /** The attempts counted for the job in the run and reset again. */
  ghost function Forgotten(cfg: Config, run: seq<Action>, j: JobId): nat
    requires IsRun(cfg, run)
    decreases |run|
  {
    if run == [] then 0
    else Forgotten(cfg, run[..|run| - 1], j) + Resets(After(cfg, run[..|run| - 1]), run[|run| - 1], j)
  }

  ghost function Undelivered(s: State, j: JobId): set<MsgId> {
    set m | m in s.stream && s.stream[m].job == j && !s.stream[m].delivered
  }

  /** The handler may come to count another attempt, or to schedule a retry. */
  predicate Live(cfg: Config, pc: HandlerPc) {
    match pc
    case Grading(n) => n < cfg.maxAttempts
    case Errored(n) => n < cfg.maxAttempts
    case Passed => false
    case DeadLettering => false
    case Acking => false
    case _ => true
  }

  ghost function LiveHandlers(cfg: Config, s: State, j: JobId): set<nat> {
    set h | h in s.handlers && s.handlers[h].job == j && Live(cfg, s.handlers[h].pc)
  }

  ghost function GradingHandlers(s: State, j: JobId): set<nat> {
    set h | h in s.handlers && s.handlers[h].job == j && s.handlers[h].pc.Grading?
  }

  function Max(a: int, b: int): int {
    if a < b then b else a
  }

  /** A retry entry and the movers that have seen it; the first of them takes the entry along. */
  ghost function Waiters(s: State, j: JobId): int {
    Max(One(j in s.retry), |MoversAt(s, j, Seen)|)
  }

  /** In how many places the job is that may each lead to another attempt. */
  ghost function Places(cfg: Config, s: State, j: JobId): int {
    |Undelivered(s, j)| + Waiters(s, j) + |MoversAt(s, j, Removed)| + |LiveHandlers(cfg, s, j)|
  }

  /** From the limit on, every place is good for one attempt only; below it, all but one are to spare. */
  ghost function Budget(cfg: Config, s: State, j: JobId): int {
    Max(Tried(s, j), Limit(cfg) - 1) + Places(cfg, s, j)
  }

  lemma OneMore<T>(a: set<T>, b: set<T>, x: T)
    requires b <= a + {x}
    ensures |b| <= |a| + One(x in b)
  {
    if x in b {
      Smaller(a + {x}, b);
    } else {
      Smaller(a, b);
    }
  }

  lemma Smaller<T>(a: set<T>, b: set<T>)
    requires b <= a
    ensures |b| <= |a|
  {
    assert a == b + (a - b);
  }

  lemma OneLess<T>(a: set<T>, b: set<T>, x: T)
    requires x in a && b <= a - {x}
    ensures |b| <= |a| - 1
  {
    Smaller(a - {x}, b);
  }

  /** The job has no place in t that it did not have in s. */
  ghost predicate NoNewPlace(cfg: Config, s: State, t: State, j: JobId) {
    && Undelivered(t, j) <= Undelivered(s, j)
    && (j in t.retry ==> j in s.retry)
    && MoversAt(t, j, Seen) <= MoversAt(s, j, Seen)
    && MoversAt(t, j, Removed) <= MoversAt(s, j, Removed)
    && LiveHandlers(cfg, t, j) <= LiveHandlers(cfg, s, j)
  }

  lemma NoNewBudget(cfg: Config, s: State, t: State, j: JobId)
    requires NoNewPlace(cfg, s, t, j) && Tried(t, j) <= Tried(s, j)
    ensures Budget(cfg, t, j) <= Budget(cfg, s, j)
  {
    Smaller(Undelivered(s, j), Undelivered(t, j));
    Smaller(MoversAt(s, j, Seen), MoversAt(t, j, Seen));
    Smaller(MoversAt(s, j, Removed), MoversAt(t, j, Removed));
    Smaller(LiveHandlers(cfg, s, j), LiveHandlers(cfg, t, j));
  }

  lemma HandlerTried(cfg: Config, b: Books, h: Handler, j: JobId)
    ensures HashOf(HandlerBooks(cfg, b, h), j).attempts
         == HashOf(b, j).attempts + One(h.job == j && h.pc == Marked)
  {
  }

  /** A handler's step: the other handlers stay, and movers and undelivered messages are left alone. */
  lemma AdvanceRest(cfg: Config, s: State, h: nat, ok: bool, j: JobId)
    requires h in s.handlers
    ensures var t := AdvanceHandler(cfg, s, h, ok);
            && t.movers == s.movers && Undelivered(t, j) <= Undelivered(s, j)
            && LiveHandlers(cfg, t, j) <= LiveHandlers(cfg, s, j) + {h}
            && (h in LiveHandlers(cfg, t, j)
                <==> s.handlers[h].job == j && s.handlers[h].pc != Acking
                     && Live(cfg, NextPc(cfg, s.books, s.handlers[h], ok)))
            && (j in t.retry <==> j in s.retry || (ok && s.handlers[h].pc == Scheduling && s.handlers[h].job == j))
            && Tried(t, j) == Tried(s, j) + One(s.handlers[h].job == j && s.handlers[h].pc == Marked)
  {
    HandlerTried(cfg, s.books, s.handlers[h], j);
  }

  lemma AdvanceBudget(cfg: Config, s: State, h: nat, ok: bool, j: JobId)
    requires h in s.handlers
    ensures Budget(cfg, AdvanceHandler(cfg, s, h, ok), j) <= Budget(cfg, s, j)
  {
    var t, H := AdvanceHandler(cfg, s, h, ok), s.handlers[h];
    AdvanceRest(cfg, s, h, ok, j);
    assert h in LiveHandlers(cfg, s, j) <==> H.job == j && Live(cfg, H.pc);
    HandlerBudget(cfg, s, t, h, H.job == j && H.pc == Marked, ok && H.pc == Scheduling && H.job == j, j);
  }

  /** Counting an attempt at the limit, or scheduling a retry, ends the handler's part in the job. */
  lemma HandlerBudget(cfg: Config, s: State, t: State, h: nat, counts: bool, schedules: bool, j: JobId)
    requires t.movers == s.movers && Undelivered(t, j) <= Undelivered(s, j)
    requires LiveHandlers(cfg, t, j) <= LiveHandlers(cfg, s, j) + {h}
    requires h in LiveHandlers(cfg, t, j) ==> h in LiveHandlers(cfg, s, j) && !schedules
    requires counts || schedules ==> h in LiveHandlers(cfg, s, j)
    requires counts && h in LiveHandlers(cfg, t, j) ==> Tried(t, j) < Limit(cfg)
    requires (j in t.retry <==> j in s.retry || schedules) && Tried(t, j) == Tried(s, j) + One(counts)
    requires !(counts && schedules)
    ensures Budget(cfg, t, j) <= Budget(cfg, s, j)
  {
    Smaller(Undelivered(s, j), Undelivered(t, j));
    var before, after := LiveHandlers(cfg, s, j), LiveHandlers(cfg, t, j);
    if h in before && h !in after {
      OneLess(before, after, h);
    } else {
      Smaller(before, after);
    }
  }

  lemma MoveOther(cfg: Config, s: State, v: nat, j: JobId)
    requires v in s.movers && s.movers[v].job != j
    ensures NoNewPlace(cfg, s, AdvanceMover(s, v), j) && Tried(AdvanceMover(s, v), j) == Tried(s, j)
  {
  }

  /** The mover takes the entry off the retry set, and its job with it. */
  lemma SeenBudget(cfg: Config, s: State, v: nat, j: JobId)
    requires v in s.movers && s.movers[v] == Mover(j, Seen)
    ensures Budget(cfg, AdvanceMover(s, v), j) <= Budget(cfg, s, j)
  {
    var t := AdvanceMover(s, v);
    assert t.books == s.books && t.stream == s.stream && t.handlers == s.handlers && j !in t.retry;
    assert Undelivered(t, j) == Undelivered(s, j) && LiveHandlers(cfg, t, j) == LiveHandlers(cfg, s, j);
    OneLess(MoversAt(s, j, Seen), MoversAt(t, j, Seen), v);
    OneMore(MoversAt(s, j, Removed), MoversAt(t, j, Removed), v);
  }

  /** The mover puts the job on the stream. */
  lemma RemovedBudget(cfg: Config, s: State, v: nat, j: JobId)
    requires v in s.movers && s.movers[v] == Mover(j, Removed)
    ensures Budget(cfg, AdvanceMover(s, v), j) <= Budget(cfg, s, j)
  {
    var t := AdvanceMover(s, v);
    assert t.retry == s.retry && t.handlers == s.handlers;
    assert LiveHandlers(cfg, t, j) == LiveHandlers(cfg, s, j);
    assert MoversAt(t, j, Seen) == MoversAt(s, j, Seen);
    OneLess(MoversAt(s, j, Removed), MoversAt(t, j, Removed), v);
    OneMore(Undelivered(s, j), Undelivered(t, j), s.nextMsg);
  }

  lemma MoveBudget(cfg: Config, s: State, v: nat, j: JobId)
    requires v in s.movers
    ensures Budget(cfg, AdvanceMover(s, v), j) <= Budget(cfg, s, j)
  {
    var t := AdvanceMover(s, v);
    if s.movers[v].job != j {
      MoveOther(cfg, s, v, j);
      NoNewBudget(cfg, s, t, j);
    } else {
      match s.movers[v].pc
      case Seen => SeenBudget(cfg, s, v, j);
      case Removed => RemovedBudget(cfg, s, v, j);
      case _ => NoNewBudget(cfg, s, t, j);
    }
  }

  /** A delivered message goes from the stream to its handler; a reclaimed one is in both hands. */
  lemma TakeBudget(cfg: Config, s: State, a: Action, j: JobId)
    requires Enabled(s, a) && (a.Deliver? || a.Reclaim?)
    ensures Budget(cfg, Apply(cfg, s, a), j) <= Budget(cfg, s, j) + One(Doubles(s, a, j))
  {
    var t := Apply(cfg, s, a);
    assert t.movers == s.movers && t.retry == s.retry && t.books == s.books;
    OneMore(LiveHandlers(cfg, s, j), LiveHandlers(cfg, t, j), a.h);
    Smaller(Undelivered(s, j), Undelivered(t, j));
    if a.Deliver? && s.stream[a.m].job == j {
      OneLess(Undelivered(s, j), Undelivered(t, j), a.m);
    }
  }

  lemma PeekBudget(cfg: Config, s: State, v: nat, i: JobId, j: JobId)
    requires Enabled(s, Peek(v, i))
    ensures Budget(cfg, Apply(cfg, s, Peek(v, i)), j) <= Budget(cfg, s, j) + One(Doubles(s, Peek(v, i), j))
  {
    var t := Apply(cfg, s, Peek(v, i));
    assert t.stream == s.stream && t.handlers == s.handlers && t.retry == s.retry && t.books == s.books;
    assert Undelivered(t, j) == Undelivered(s, j) && LiveHandlers(cfg, t, j) == LiveHandlers(cfg, s, j);
    assert MoversAt(t, j, Removed) == MoversAt(s, j, Removed);
    OneMore(MoversAt(s, j, Seen), MoversAt(t, j, Seen), v);
  }

  lemma FailRemoveBudget(cfg: Config, s: State, v: nat, j: JobId)
    requires Enabled(s, FailRemove(v))
    ensures Budget(cfg, Apply(cfg, s, FailRemove(v)), j) <= Budget(cfg, s, j) + One(Doubles(s, FailRemove(v), j))
  {
    var t := Apply(cfg, s, FailRemove(v));
    assert t.stream == s.stream && t.handlers == s.handlers && t.retry == s.retry && t.books == s.books;
    assert Undelivered(t, j) == Undelivered(s, j) && LiveHandlers(cfg, t, j) == LiveHandlers(cfg, s, j);
    OneMore(MoversAt(s, j, Removed), MoversAt(t, j, Removed), v);
    Smaller(MoversAt(s, j, Seen), MoversAt(t, j, Seen));
  }

  lemma QuietBudget(cfg: Config, s: State, a: Action, j: JobId)
    requires Enabled(s, a)
    requires a.Register? || a.WriteHash? || a.CountQueued? || a.Crash? || a.MoverCrash?
    ensures Budget(cfg, Apply(cfg, s, a), j) <= Budget(cfg, s, j)
  {
    NoNewBudget(cfg, s, Apply(cfg, s, a), j);
  }

  /** A job not yet pushed has no place and no attempts; its push gives it one place. */
  lemma PushBudget(cfg: Config, s: State, a: Action, j: JobId)
    requires Known(s) && Enabled(s, a) && IsPush(a)
    ensures Budget(cfg, Apply(cfg, s, a), j) <= if a.job == j then Limit(cfg) else Budget(cfg, s, j)
  {
    var t := Apply(cfg, s, a);
    if a.job == j {
      assert Undelivered(t, j) <= {s.nextMsg} && MoversAt(t, j, Seen) == {} && MoversAt(t, j, Removed) == {};
      Smaller({s.nextMsg}, Undelivered(t, j));
      assert LiveHandlers(cfg, t, j) == {} && j !in t.retry && Tried(t, j) == 0;
    } else {
      NoNewBudget(cfg, s, t, j);
    }
  }

  /** A step adds to the budget of a job that was pushed only by doubling it. */
  lemma StepBudget(cfg: Config, s: State, a: Action, j: JobId)
    requires Known(s) && Enabled(s, a)
    ensures Budget(cfg, Apply(cfg, s, a), j) <= Max(Limit(cfg), Budget(cfg, s, j) + One(Doubles(s, a, j)))
  {
    match a
    case Submit(_, _) => PushBudget(cfg, s, a, j);
    case BarePush(_, _) => PushBudget(cfg, s, a, j);
    case Advance(h, ok) => AdvanceBudget(cfg, s, h, ok, j);
    case Move(v) => MoveBudget(cfg, s, v, j);
    case Deliver(_, _) => TakeBudget(cfg, s, a, j);
    case Reclaim(_, _) => TakeBudget(cfg, s, a, j);
    case Peek(v, i) => PeekBudget(cfg, s, v, i, j);
    case FailRemove(v) => FailRemoveBudget(cfg, s, v, j);
    case _ => QuietBudget(cfg, s, a, j);
  }

  lemma {:induction false} RunBudget(cfg: Config, run: seq<Action>, j: JobId)
    requires IsRun(cfg, run)
    ensures Budget(cfg, After(cfg, run), j) <= Limit(cfg) + Doublings(cfg, run, j)
    decreases |run|
  {
    if run == [] {
      assert Undelivered(Initial, j) == {} && LiveHandlers(cfg, Initial, j) == {};
      assert MoversAt(Initial, j, Seen) == {} && MoversAt(Initial, j, Removed) == {};
    } else {
      RunBudget(cfg, run[..|run| - 1], j);
      RunKnown(cfg, run[..|run| - 1]);
      StepBudget(cfg, After(cfg, run[..|run| - 1]), run[|run| - 1], j);
    }
  }

  /** A handler dies between counting the attempt and the end of the grading. */
  predicate CutsOff(s: State, a: Action, j: JobId) {
    a.Crash? && a.h in s.handlers && s.handlers[a.h].job == j && s.handlers[a.h].pc.Grading?
  }

  /** How many gradings of the job were cut off. */
  ghost function CutOffs(cfg: Config, run: seq<Action>, j: JobId): nat
    requires IsRun(cfg, run)
    decreases |run|
  {
    if run == [] then 0
    else CutOffs(cfg, run[..|run| - 1], j) + One(CutsOff(After(cfg, run[..|run| - 1]), run[|run| - 1], j))
  }

  lemma Without<T>(a: set<T>, b: set<T>, x: T)
    requires b == a - {x}
    ensures |b| == |a| - One(x in a)
  {
    if x !in a {
      assert a == b;
    }
  }

  lemma With<T>(a: set<T>, b: set<T>, x: T, c: bool)
    requires b == if c then a + {x} else a - {x}
    ensures |b| == |a| - One(x in a) + One(c)
  {
    Without(a, a - {x}, x);
    assert c ==> b == a - {x} + {x};
  }

  /** What one step adds to the attempts counted and not yet accounted for by a grading or a death. */
  ghost function Open(s: State, j: JobId): int {
    Tried(s, j) - |GradingHandlers(s, j)|
  }

  lemma AdvanceGrading(cfg: Config, s: State, h: nat, ok: bool, j: JobId)
    requires h in s.handlers
    ensures GradingHandlers(AdvanceHandler(cfg, s, h, ok), j)
         == if s.handlers[h].job == j && s.handlers[h].pc == Marked then GradingHandlers(s, j) + {h}
            else GradingHandlers(s, j) - {h}
  {
    var t, H := AdvanceHandler(cfg, s, h, ok), s.handlers[h];
    assert forall k | k != h :: k in t.handlers <==> k in s.handlers;
    assert forall k | k in t.handlers && k != h :: t.handlers[k] == s.handlers[k];
    assert h in t.handlers ==> t.handlers[h] == H.(pc := NextPc(cfg, s.books, H, ok));
  }

  lemma AdvanceOpen(cfg: Config, s: State, h: nat, ok: bool, j: JobId)
    requires h in s.handlers
    ensures Open(AdvanceHandler(cfg, s, h, ok), j) == Open(s, j) + One(Grades(s, Advance(h, ok), j))
  {
    var t, H := AdvanceHandler(cfg, s, h, ok), s.handlers[h];
    HandlerTried(cfg, s.books, H, j);
    AdvanceGrading(cfg, s, h, ok, j);
    With(GradingHandlers(s, j), GradingHandlers(t, j), h, H.job == j && H.pc == Marked);
  }

  lemma CrashOpen(cfg: Config, s: State, h: nat, j: JobId)
    requires h in s.handlers
    ensures Open(Apply(cfg, s, Crash(h)), j) == Open(s, j) + One(CutsOff(s, Crash(h), j))
  {
    Without(GradingHandlers(s, j), GradingHandlers(Apply(cfg, s, Crash(h)), j), h);
  }

  lemma OtherTried(cfg: Config, s: State, a: Action, j: JobId)
    requires Known(s) && Enabled(s, a) && !a.Advance? && !a.Crash?
    ensures Tried(Apply(cfg, s, a), j) == Tried(s, j) - Resets(s, a, j)
  {
    match a
    case Move(v) => MoveTried(s, v, j);
    case _ =>
  }

  lemma MoveTried(s: State, v: nat, j: JobId)
    requires v in s.movers
    ensures Tried(AdvanceMover(s, v), j) == Tried(s, j) && AdvanceMover(s, v).handlers == s.handlers
  {
  }

  lemma OtherHandlers(cfg: Config, s: State, a: Action)
    requires Enabled(s, a) && !a.Advance? && !a.Crash?
    ensures var t := Apply(cfg, s, a);
            && (forall h | h in s.handlers :: h in t.handlers && t.handlers[h] == s.handlers[h])
            && (forall h | h in t.handlers && h !in s.handlers :: t.handlers[h].pc == Received)
  {
    match a
    case Move(v) => MoveTried(s, v, s.movers[v].job);
    case _ =>
  }

  lemma OtherOpen(cfg: Config, s: State, a: Action, j: JobId)
    requires Known(s) && Enabled(s, a) && !a.Advance? && !a.Crash?
    ensures Open(Apply(cfg, s, a), j) == Open(s, j) - Resets(s, a, j)
  {
    OtherTried(cfg, s, a, j);
    OtherHandlers(cfg, s, a);
    assert GradingHandlers(Apply(cfg, s, a), j) == GradingHandlers(s, j);
  }

  lemma StepOpen(cfg: Config, s: State, a: Action, j: JobId)
    requires Known(s) && Enabled(s, a)
    ensures Open(Apply(cfg, s, a), j) + Resets(s, a, j)
         == Open(s, j) + One(Grades(s, a, j)) + One(CutsOff(s, a, j))
  {
    match a
    case Advance(h, ok) => AdvanceOpen(cfg, s, h, ok, j);
    case Crash(h) => CrashOpen(cfg, s, h, j);
    case _ => OtherOpen(cfg, s, a, j);
  }

  /**
   * Over every run the attempts ever counted for a job, those reset since included, are exactly its
   * gradings, those in progress and those cut off by a death.
   */
  lemma {:induction false} AttemptsAccounted(cfg: Config, run: seq<Action>, j: JobId)
    requires IsRun(cfg, run)
    ensures Tried(After(cfg, run), j) + Forgotten(cfg, run, j)
         == Gradings(cfg, run, j) + |GradingHandlers(After(cfg, run), j)| + CutOffs(cfg, run, j)
    decreases |run|
  {
    if run == [] {
      assert GradingHandlers(Initial, j) == {};
    } else {
      AttemptsAccounted(cfg, run[..|run| - 1], j);
      RunKnown(cfg, run[..|run| - 1]);
      StepOpen(cfg, After(cfg, run[..|run| - 1]), run[|run| - 1], j);
    }
  }

  /** A hash is written late at most once for a job, so what it forgets is bounded as well. */
  lemma {:induction false} ForgottenBounded(cfg: Config, run: seq<Action>, j: JobId)
    requires IsRun(cfg, run)
    ensures Forgotten(cfg, run, j) <= Limit(cfg) + Doublings(cfg, run, j)
    ensures j in After(cfg, run).announced || j !in After(cfg, run).accepted ==> Forgotten(cfg, run, j) == 0
    decreases |run|
  {
    if run != [] {
      var before, a := run[..|run| - 1], run[|run| - 1];
      ForgottenBounded(cfg, before, j);
      RunBudget(cfg, before, j);
      RunKnown(cfg, before);
      StepAwaited(cfg, After(cfg, before), a, j);
    }
  }

  lemma StepAwaited(cfg: Config, s: State, a: Action, j: JobId)
    requires Enabled(s, a)
    ensures var t := Apply(cfg, s, a);
            && (j in t.announced ==> j in s.announced || j !in s.accepted)
            && (j !in t.accepted ==> j !in s.accepted)
            && (a == Register(j) || a == WriteHash(j) ==> j in s.announced && j !in t.announced)
  {
    match a
    case Move(v) => assert AdvanceMover(s, v).announced == s.announced;
    case _ =>
  }

  /**
   * Over every run, whoever dies, is late or is doubled: a job is graded at most as often as the limit
   * allows, and once more for every time it was doubled and for every attempt a late hash made it forget.
   */
  lemma {:induction false} GradingsBounded(cfg: Config, run: seq<Action>, j: JobId)
    requires IsRun(cfg, run)
    ensures var limit := if cfg.maxAttempts < 1 then 1 else cfg.maxAttempts;
            && Gradings(cfg, run, j) <= limit + Doublings(cfg, run, j) + Forgotten(cfg, run, j)
            && Gradings(cfg, run, j) <= 2 * (limit + Doublings(cfg, run, j))
  {
    AttemptsAccounted(cfg, run, j);
    RunBudget(cfg, run, j);
    ForgottenBounded(cfg, run, j);
  }
}
