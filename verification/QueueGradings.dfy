/** Exactly when a job can be graded without end. */
module QueueGradings {
  import opened GradingQueue
  import opened QueueAccounting
  import opened QueueAttempts
  import opened QueueReach
  import opened QueueFaithful
  import opened QueueLoss

  /** The goal of having the job on the stream. */
  ghost function OnStream(j: JobId): State -> bool {
    (t: State) => HasMessage(t, j)
  }

  /** The next failure of the handler still schedules a retry, once a pending hash has reset the attempts. */
  predicate Returns(cfg: Config, s: State, h: Handler) {
    match h.pc
    case Grading(n) => n < cfg.maxAttempts
    case Errored(n) => n < cfg.maxAttempts
    case Scheduling => true
    case Passed => false
    case DeadLettering => false
    case Acking => false
    case _ => Tried(s, h.job) + 1 < cfg.maxAttempts || (h.job in s.announced && 1 < cfg.maxAttempts)
  }

  ghost predicate HasReturning(cfg: Config, s: State, j: JobId) {
    exists h :: h in s.handlers && s.handlers[h].job == j && Returns(cfg, s, s.handlers[h])
  }

  /** Something can deliver the job again: its message, a retry entry, a mover, or a handler that fails. */
  ghost predicate CanReturn(cfg: Config, s: State, j: JobId) {
    HasMessage(s, j) || j in s.retry || HasCarryingMover(s, j) || HasReturning(cfg, s, j)
  }

  lemma RemovedReturns(cfg: Config, s: State, v: nat, j: JobId)
    requires v in s.movers && s.movers[v] == Mover(j, Removed) && HashOf(s.books, j).payload != ""
    ensures Leads(cfg, s, OnStream(j))
  {
    var t := AdvanceMover(s, v);
    assert t.stream[s.nextMsg].job == j;
    LeadsNow(cfg, t, OnStream(j));
    Through(cfg, s, Move(v), t, OnStream(j));
  }

  lemma SeenReturns(cfg: Config, s: State, v: nat, j: JobId)
    requires v in s.movers && s.movers[v] == Mover(j, Seen) && HashOf(s.books, j).payload != ""
    ensures Leads(cfg, s, OnStream(j))
  {
    var t := AdvanceMover(s, v);
    RemovedReturns(cfg, t, v, j);
    Through(cfg, s, Move(v), t, OnStream(j));
  }

  lemma RetryReturns(cfg: Config, s: State, j: JobId)
    requires j in s.retry && HashOf(s.books, j).payload != ""
    ensures Leads(cfg, s, OnStream(j))
  {
    var v := FreshNumber(s.movers.Keys);
    var t := Apply(cfg, s, Peek(v, j));
    SeenReturns(cfg, t, v, j);
    Through(cfg, s, Peek(v, j), t, OnStream(j));
  }

  /** The handler has the job, whose payload is good, at the given point. */
  ghost predicate At(cfg: Config, s: State, h: nat, j: JobId, pc: HandlerPc) {
    && h in s.handlers && s.handlers[h].job == j && s.handlers[h].pc == pc
    && s.handlers[h].body != "" && cfg.valid(s.handlers[h].body)
    && (pc != Received ==> HashOf(s.books, j).payload != "")
  }

  /** One step of a handler, and what it does to the job's hash. */
  lemma Onward(cfg: Config, s: State, h: nat, ok: bool, j: JobId, pc: HandlerPc) returns (t: State)
    requires At(cfg, s, h, j, pc) && pc != Acking
    ensures t == Apply(cfg, s, Advance(h, ok)) && At(cfg, t, h, j, NextPc(cfg, s.books, s.handlers[h], ok))
    ensures Tried(t, j) == Tried(s, j) + One(pc == Marked)
    ensures pc == Scheduling && ok ==> j in t.retry
  {
    t := AdvanceHandler(cfg, s, h, ok);
    HandlerPayload(cfg, s.books, s.handlers[h], j);
    HandlerTried(cfg, s.books, s.handlers[h], j);
  }

  lemma SchedulingReturns(cfg: Config, s: State, h: nat, j: JobId)
    requires At(cfg, s, h, j, Scheduling)
    ensures Leads(cfg, s, OnStream(j))
  {
    var t := Onward(cfg, s, h, true, j, Scheduling);
    RetryReturns(cfg, t, j);
    Through(cfg, s, Advance(h, true), t, OnStream(j));
  }

  lemma ErroredReturns(cfg: Config, s: State, h: nat, j: JobId, n: nat)
    requires At(cfg, s, h, j, Errored(n)) && n < cfg.maxAttempts
    ensures Leads(cfg, s, OnStream(j))
  {
    var t := Onward(cfg, s, h, true, j, Errored(n));
    SchedulingReturns(cfg, t, h, j);
    Through(cfg, s, Advance(h, true), t, OnStream(j));
  }

  lemma GradingReturns(cfg: Config, s: State, h: nat, j: JobId, n: nat)
    requires At(cfg, s, h, j, Grading(n)) && n < cfg.maxAttempts
    ensures Leads(cfg, s, OnStream(j))
  {
    var t := Onward(cfg, s, h, false, j, Grading(n));
    ErroredReturns(cfg, t, h, j, n);
    Through(cfg, s, Advance(h, false), t, OnStream(j));
  }

  lemma MarkedReturns(cfg: Config, s: State, h: nat, j: JobId)
    requires At(cfg, s, h, j, Marked) && Tried(s, j) + 1 < cfg.maxAttempts
    ensures Leads(cfg, s, OnStream(j))
  {
    var t := Onward(cfg, s, h, true, j, Marked);
    GradingReturns(cfg, t, h, j, Tried(s, j) + 1);
    Through(cfg, s, Advance(h, true), t, OnStream(j));
  }

  lemma StoredReturns(cfg: Config, s: State, h: nat, j: JobId)
    requires At(cfg, s, h, j, Stored) && Tried(s, j) + 1 < cfg.maxAttempts
    ensures Leads(cfg, s, OnStream(j))
  {
    var t := Onward(cfg, s, h, true, j, Stored);
    MarkedReturns(cfg, t, h, j);
    Through(cfg, s, Advance(h, true), t, OnStream(j));
  }

  lemma ReceivedReturns(cfg: Config, s: State, h: nat, j: JobId)
    requires At(cfg, s, h, j, Received) && Tried(s, j) + 1 < cfg.maxAttempts
    ensures Leads(cfg, s, OnStream(j))
  {
    var t := Onward(cfg, s, h, true, j, Received);
    StoredReturns(cfg, t, h, j);
    Through(cfg, s, Advance(h, true), t, OnStream(j));
  }

  lemma EarlyReturns(cfg: Config, s: State, h: nat, j: JobId, pc: HandlerPc)
    requires At(cfg, s, h, j, pc) && (pc == Received || pc == Stored || pc == Marked)
    requires Tried(s, j) + 1 < cfg.maxAttempts
    ensures Leads(cfg, s, OnStream(j))
  {
    match pc
    case Received => ReceivedReturns(cfg, s, h, j);
    case Stored => StoredReturns(cfg, s, h, j);
    case Marked => MarkedReturns(cfg, s, h, j);
  }

  /** A handler before the count, with the job's hash still to be written by its producer. */
  lemma AwaitedReturns(cfg: Config, s: State, h: nat, j: JobId, pc: HandlerPc)
    requires At(cfg, s, h, j, pc) && (pc == Received || pc == Stored || pc == Marked)
    requires j in s.announced && Good(cfg, s, j) && 1 < cfg.maxAttempts
    ensures Leads(cfg, s, OnStream(j))
  {
    var t := Apply(cfg, s, Register(j));
    EarlyReturns(cfg, t, h, j, pc);
    Through(cfg, s, Register(j), t, OnStream(j));
  }

  lemma HandlerReturns(cfg: Config, s: State, h: nat, j: JobId)
    requires HandlersFaithful(cfg, s) && Good(cfg, s, j)
    requires h in s.handlers && s.handlers[h].job == j && Returns(cfg, s, s.handlers[h])
    ensures Leads(cfg, s, OnStream(j))
  {
    var pc := s.handlers[h].pc;
    assert HandlerFaithful(cfg, s, s.handlers[h]);
    assert At(cfg, s, h, j, pc);
    match pc
    case Grading(n) => GradingReturns(cfg, s, h, j, n);
    case Errored(n) => ErroredReturns(cfg, s, h, j, n);
    case Scheduling => SchedulingReturns(cfg, s, h, j);
    case _ =>
      if Tried(s, j) + 1 < cfg.maxAttempts {
        EarlyReturns(cfg, s, h, j, pc);
      } else {
        AwaitedReturns(cfg, s, h, j, pc);
      }
  }

  /** Whatever can deliver the job again leads to a message of the job. */
  lemma ReturnLeads(cfg: Config, s: State, j: JobId)
    requires Faithful(cfg, s) && Good(cfg, s, j) && CanReturn(cfg, s, j)
    ensures Leads(cfg, s, OnStream(j))
  {
    if HasMessage(s, j) {
      LeadsNow(cfg, s, OnStream(j));
    } else if j in s.retry {
      assert Kept(cfg, s, j);
      RetryReturns(cfg, s, j);
    } else if HasCarryingMover(s, j) {
      var v :| v in s.movers && s.movers[v].job == j && (s.movers[v].pc == Seen || s.movers[v].pc == Removed);
      assert Kept(cfg, s, s.movers[v].job);
      if s.movers[v].pc == Seen {
        SeenReturns(cfg, s, v, j);
      } else {
        RemovedReturns(cfg, s, v, j);
      }
    } else {
      var h :| h in s.handlers && s.handlers[h].job == j && Returns(cfg, s, s.handlers[h]);
      HandlerReturns(cfg, s, h, j);
    }
  }

  /** The handler works on the job's delivered message. */
  ghost predicate WorksOn(cfg: Config, s: State, h: nat, m: MsgId, j: JobId, pc: HandlerPc) {
    At(cfg, s, h, j, pc) && m in s.stream && s.stream[m].job == j
  }

  /** The run goes on with one action. */
  lemma GoesOn(cfg: Config, run: seq<Action>, a: Action, j: JobId) returns (next: seq<Action>)
    requires IsRun(cfg, run) && Enabled(After(cfg, run), a)
    ensures IsRun(cfg, next) && next == run + [a] && After(cfg, next) == Apply(cfg, After(cfg, run), a)
    ensures Gradings(cfg, next, j) == Gradings(cfg, run, j) + One(Grades(After(cfg, run), a, j))
  {
    next := run + [a];
    assert next[..|next| - 1] == run && next[|next| - 1] == a;
  }

  /** The handler's way to the end of a successful grading. */
  function Ahead(pc: HandlerPc, tried: nat): HandlerPc {
    match pc
    case Received => Stored
    case Stored => Marked
    case Marked => Grading(tried + 1)
    case _ => Passed
  }

  lemma {:induction false} WorkStep(cfg: Config, run: seq<Action>, h: nat, m: MsgId, j: JobId, pc: HandlerPc)
      returns (next: seq<Action>)
    requires IsRun(cfg, run) && WorksOn(cfg, After(cfg, run), h, m, j, pc)
    requires pc == Received || pc == Stored || pc == Marked || pc.Grading?
    ensures IsRun(cfg, next) && next == run + [Advance(h, true)]
    ensures WorksOn(cfg, After(cfg, next), h, m, j, Ahead(pc, Tried(After(cfg, run), j)))
    ensures Gradings(cfg, next, j) == Gradings(cfg, run, j) + One(pc.Grading?)
  {
    next := GoesOn(cfg, run, Advance(h, true), j);
    var t := Onward(cfg, After(cfg, run), h, true, j, pc);
  }

  /** While a message of the job is on the stream, delivered before or not, a fresh handler can take it up. */
  lemma TakenUp(cfg: Config, run: seq<Action>, m: MsgId, j: JobId) returns (next: seq<Action>, h: nat)
    requires IsRun(cfg, run) && Good(cfg, After(cfg, run), j) && MessagesFaithful(After(cfg, run))
    requires m in After(cfg, run).stream && After(cfg, run).stream[m].job == j
    ensures IsRun(cfg, next) && run <= next && WorksOn(cfg, After(cfg, next), h, m, j, Received)
    ensures Gradings(cfg, next, j) == Gradings(cfg, run, j)
  {
    h := FreshNumber(After(cfg, run).handlers.Keys);
    next := GoesOn(cfg, run, Take(After(cfg, run), h, m), j);
  }

  lemma {:induction false} ReadyToGrade(cfg: Config, run: seq<Action>, m: MsgId, j: JobId)
      returns (next: seq<Action>, h: nat, n: nat)
    requires IsRun(cfg, run) && Good(cfg, After(cfg, run), j) && MessagesFaithful(After(cfg, run))
    requires m in After(cfg, run).stream && After(cfg, run).stream[m].job == j
    ensures IsRun(cfg, next) && run <= next && WorksOn(cfg, After(cfg, next), h, m, j, Grading(n))
    ensures Gradings(cfg, next, j) == Gradings(cfg, run, j)
  {
    var taken, stored, marked;
    taken, h := TakenUp(cfg, run, m, j);
    stored := WorkStep(cfg, taken, h, m, j, Received);
    marked := WorkStep(cfg, stored, h, m, j, Stored);
    n := Tried(After(cfg, marked), j) + 1;
    next := WorkStep(cfg, marked, h, m, j, Marked);
  }

  lemma {:induction false} GradedOnceMore(cfg: Config, run: seq<Action>, m: MsgId, j: JobId)
      returns (next: seq<Action>)
    requires IsRun(cfg, run) && Good(cfg, After(cfg, run), j)
    requires m in After(cfg, run).stream && After(cfg, run).stream[m].job == j
    ensures IsRun(cfg, next) && run <= next && Gradings(cfg, next, j) == Gradings(cfg, run, j) + 1
    ensures m in After(cfg, next).stream && After(cfg, next).stream[m].job == j
  {
    RunFaithful(cfg, run);
    var ready, h, n := ReadyToGrade(cfg, run, m, j);
    next := WorkStep(cfg, ready, h, m, j, Grading(n));
  }

  lemma {:induction false} GoodForever(cfg: Config, run: seq<Action>, more: seq<Action>, j: JobId)
    requires IsRun(cfg, run) && IsRun(cfg, run + more) && j in After(cfg, run).accepted
    ensures j in After(cfg, run + more).accepted
    ensures Good(cfg, After(cfg, run + more), j) <==> Good(cfg, After(cfg, run), j)
    ensures Gradings(cfg, run + more, j) >= Gradings(cfg, run, j)
    decreases |more|
  {
    if more == [] {
      assert run + more == run;
    } else {
      var all, shorter := run + more, more[..|more| - 1];
      assert all[..|all| - 1] == run + shorter && all[|all| - 1] == more[|more| - 1];
      GoodForever(cfg, run, shorter, j);
      AcceptedKept(cfg, After(cfg, run + shorter), more[|more| - 1], j);
    }
  }

  lemma AcceptedKept(cfg: Config, s: State, a: Action, j: JobId)
    requires Enabled(s, a) && j in s.accepted
    ensures j in Apply(cfg, s, a).accepted && Apply(cfg, s, a).accepted[j] == s.accepted[j]
  {
    match a
    case Move(v) => assert AdvanceMover(s, v).accepted == s.accepted;
    case _ =>
  }

  lemma {:induction false} GradedMore(cfg: Config, run: seq<Action>, m: MsgId, j: JobId, n: nat)
      returns (next: seq<Action>)
    requires IsRun(cfg, run) && Good(cfg, After(cfg, run), j)
    requires m in After(cfg, run).stream && After(cfg, run).stream[m].job == j
    ensures IsRun(cfg, next) && run <= next && Gradings(cfg, next, j) >= Gradings(cfg, run, j) + n
    decreases n
  {
    if n == 0 {
      next := run;
    } else {
      var once := GradedOnceMore(cfg, run, m, j);
      assert run + once[|run|..] == once;
      GoodForever(cfg, run, once[|run|..], j);
      next := GradedMore(cfg, once, m, j, n - 1);
    }
  }

  /** Some continuation of the run grades the job n more times. */
  ghost predicate MoreGradings(cfg: Config, run: seq<Action>, j: JobId, n: nat)
    requires IsRun(cfg, run)
  {
    exists more :: IsRun(cfg, run + more) && Gradings(cfg, run + more, j) >= Gradings(cfg, run, j) + n
  }

  ghost predicate WithoutEnd(cfg: Config, run: seq<Action>, j: JobId)
    requires IsRun(cfg, run)
  {
    forall n: nat :: MoreGradings(cfg, run, j, n)
  }

  lemma {:induction false} BackOnStream(cfg: Config, run: seq<Action>, j: JobId)
      returns (first: seq<Action>, m: MsgId)
    requires IsRun(cfg, run) && Good(cfg, After(cfg, run), j) && CanReturn(cfg, After(cfg, run), j)
    ensures IsRun(cfg, run + first) && Good(cfg, After(cfg, run + first), j)
    ensures m in After(cfg, run + first).stream && After(cfg, run + first).stream[m].job == j
    ensures Gradings(cfg, run + first, j) >= Gradings(cfg, run, j)
  {
    RunFaithful(cfg, run);
    ReturnLeads(cfg, After(cfg, run), j);
    ReachIsLeads(cfg, run, OnStream(j));
    first :| IsRun(cfg, run + first) && OnStream(j)(After(cfg, run + first));
    GoodForever(cfg, run, first, j);
    m :| m in After(cfg, run + first).stream && After(cfg, run + first).stream[m].job == j;
  }

  lemma {:induction false} ReturnGrades(cfg: Config, run: seq<Action>, j: JobId, n: nat)
    requires IsRun(cfg, run) && Good(cfg, After(cfg, run), j) && CanReturn(cfg, After(cfg, run), j)
    ensures MoreGradings(cfg, run, j, n)
  {
    var first, m := BackOnStream(cfg, run, j);
    var next := GradedMore(cfg, run + first, m, j, n);
    assert run + next[|run|..] == next;
  }

  /** The handlers that may still come to a grading of the job. */
  ghost function GraderHands(s: State, j: JobId): set<nat> {
    set h | h in s.handlers && s.handlers[h].job == j
            && (s.handlers[h].pc.Grading? || s.handlers[h].pc in {Received, Stored, Marked})
  }

  lemma AdvanceSpent(cfg: Config, s: State, h: nat, ok: bool, j: JobId)
    requires h in s.handlers && !CanReturn(cfg, s, j)
    ensures var t := AdvanceHandler(cfg, s, h, ok);
            !CanReturn(cfg, t, j) && |GraderHands(t, j)| + One(Grades(s, Advance(h, ok), j)) <= |GraderHands(s, j)|
  {
    var t, H := AdvanceHandler(cfg, s, h, ok), s.handlers[h];
    HandlerTried(cfg, s.books, H, j);
    assert t.announced == s.announced && t.movers == s.movers;
    AdvanceNotReturning(cfg, s, h, ok, j);
    assert !HasMessage(t, j) && !HasCarryingMover(t, j);
    AdvanceGraders(cfg, s, h, ok, j);
  }

  lemma AdvanceGraders(cfg: Config, s: State, h: nat, ok: bool, j: JobId)
    requires h in s.handlers
    ensures |GraderHands(AdvanceHandler(cfg, s, h, ok), j)| + One(Grades(s, Advance(h, ok), j)) <= |GraderHands(s, j)|
  {
    var t := AdvanceHandler(cfg, s, h, ok);
    if Grades(s, Advance(h, ok), j) {
      OneLess(GraderHands(s, j), GraderHands(t, j), h);
    } else {
      Smaller(GraderHands(s, j), GraderHands(t, j));
    }
  }

  /** Counting an attempt at the limit leads to a grading without a retry. */
  lemma AdvanceNotReturning(cfg: Config, s: State, h: nat, ok: bool, j: JobId)
    requires h in s.handlers && !HasReturning(cfg, s, j)
    ensures !HasReturning(cfg, AdvanceHandler(cfg, s, h, ok), j)
    ensures j in AdvanceHandler(cfg, s, h, ok).retry ==> j in s.retry
  {
    var t, H := AdvanceHandler(cfg, s, h, ok), s.handlers[h];
    HandlerTried(cfg, s.books, H, j);
    assert H.job == j ==> !Returns(cfg, s, H);
    assert t.announced == s.announced && Tried(t, j) >= Tried(s, j);
    forall k | k in t.handlers && t.handlers[k].job == j
      ensures !Returns(cfg, t, t.handlers[k])
    {
      assert k in s.handlers && s.handlers[k].job == j && !Returns(cfg, s, s.handlers[k]);
      if k == h {
        NextNotReturning(cfg, s, t, H, ok);
      } else {
        assert t.handlers[k] == s.handlers[k];
      }
    }
  }

  lemma NextNotReturning(cfg: Config, s: State, t: State, h: Handler, ok: bool)
    requires !Returns(cfg, s, h) && h.pc != Acking && t.announced == s.announced
    requires Tried(t, h.job) == Tried(s, h.job) + One(h.pc == Marked)
    ensures !Returns(cfg, t, h.(pc := NextPc(cfg, s.books, h, ok)))
  {
  }

  /** Steps after which each handler of the job is as it was, with no more attempts to spare. */
  lemma KeepsSpent(cfg: Config, s: State, t: State, j: JobId)
    requires !CanReturn(cfg, s, j)
    requires HasMessage(t, j) ==> HasMessage(s, j)
    requires (j in t.retry ==> j in s.retry) && (HasCarryingMover(t, j) ==> HasCarryingMover(s, j))
    requires forall h | h in t.handlers && t.handlers[h].job == j :: h in s.handlers && t.handlers[h] == s.handlers[h]
    requires ((j in t.announced <==> j in s.announced) && Tried(t, j) == Tried(s, j))
          || (j in s.announced && j !in t.announced && Tried(t, j) == 0)
    ensures !CanReturn(cfg, t, j) && |GraderHands(t, j)| <= |GraderHands(s, j)|
  {
    forall h | h in t.handlers && t.handlers[h].job == j
      ensures !Returns(cfg, t, t.handlers[h])
    {
      assert !Returns(cfg, s, s.handlers[h]);
    }
    Smaller(GraderHands(s, j), GraderHands(t, j));
  }

  lemma MovePlaces(s: State, v: nat, j: JobId)
    requires v in s.movers && (s.movers[v].job == j ==> s.movers[v].pc != Seen && s.movers[v].pc != Removed)
    ensures HasMessage(AdvanceMover(s, v), j) ==> HasMessage(s, j)
    ensures HasCarryingMover(AdvanceMover(s, v), j) ==> HasCarryingMover(s, j)
    ensures AdvanceMover(s, v).retry <= s.retry && AdvanceMover(s, v).announced == s.announced
  {
    var t := AdvanceMover(s, v);
    MoveMovers(s, v);
    assert forall m | m in t.stream :: (m in s.stream && t.stream[m] == s.stream[m]) || t.stream[m].job != j;
  }

  /** A mover goes its own way, to Added or to Refusing, or is done. */
  lemma MoveMovers(s: State, v: nat)
    requires v in s.movers
    ensures var t := AdvanceMover(s, v);
            && (forall w | w in t.movers && w != v :: w in s.movers && t.movers[w] == s.movers[w])
            && (v in t.movers ==> t.movers[v].job == s.movers[v].job && s.movers[v].pc in {Seen, Removed})
  {
  }

  lemma MoveSpent(cfg: Config, s: State, v: nat, j: JobId)
    requires v in s.movers && !CanReturn(cfg, s, j)
    ensures !CanReturn(cfg, AdvanceMover(s, v), j) && |GraderHands(AdvanceMover(s, v), j)| <= |GraderHands(s, j)|
  {
    var t := AdvanceMover(s, v);
    MoveTried(s, v, j);
    MovePlaces(s, v, j);
    KeepsSpent(cfg, s, t, j);
  }

  lemma PassSpent(cfg: Config, s: State, a: Action, j: JobId)
    requires Enabled(s, a) && PassesOn(a) && !CanReturn(cfg, s, j)
    ensures !CanReturn(cfg, Apply(cfg, s, a), j) && |GraderHands(Apply(cfg, s, a), j)| <= |GraderHands(s, j)|
  {
    var t := Apply(cfg, s, a);
    assert t.books == s.books && t.retry == s.retry && t.announced == s.announced;
    assert forall m | m in t.stream :: m in s.stream && t.stream[m].job == s.stream[m].job;
    assert forall v | v in t.movers && t.movers[v].job == j :: v in s.movers && t.movers[v] == s.movers[v];
    KeepsSpent(cfg, s, t, j);
  }

  lemma ProducerSpent(cfg: Config, s: State, a: Action, j: JobId)
    requires Known(s) && Enabled(s, a) && j in s.accepted && !CanReturn(cfg, s, j)
    requires IsPush(a) || a.Register? || a.WriteHash? || a.CountQueued?
    ensures !CanReturn(cfg, Apply(cfg, s, a), j) && |GraderHands(Apply(cfg, s, a), j)| <= |GraderHands(s, j)|
  {
    var t := Apply(cfg, s, a);
    assert t.handlers == s.handlers && t.movers == s.movers && t.retry == s.retry;
    assert forall m | m in t.stream :: (m in s.stream && t.stream[m] == s.stream[m]) || t.stream[m].job != j;
    KeepsSpent(cfg, s, t, j);
  }

  /** Once nothing can deliver the job again, nothing ever will, and each grading uses up a handler. */
  lemma StepSpent(cfg: Config, s: State, a: Action, j: JobId)
    requires Known(s) && Enabled(s, a) && j in s.accepted && !CanReturn(cfg, s, j)
    ensures !CanReturn(cfg, Apply(cfg, s, a), j)
    ensures |GraderHands(Apply(cfg, s, a), j)| + One(Grades(s, a, j)) <= |GraderHands(s, j)|
  {
    match a
    case Advance(h, ok) => AdvanceSpent(cfg, s, h, ok, j);
    case Move(v) => MoveSpent(cfg, s, v, j);
    case Submit(_, _) => ProducerSpent(cfg, s, a, j);
    case BarePush(_, _) => ProducerSpent(cfg, s, a, j);
    case Register(_) => ProducerSpent(cfg, s, a, j);
    case WriteHash(_) => ProducerSpent(cfg, s, a, j);
    case CountQueued(_) => ProducerSpent(cfg, s, a, j);
    case _ => PassSpent(cfg, s, a, j);
  }

  lemma {:induction false} SpentBound(cfg: Config, run: seq<Action>, more: seq<Action>, j: JobId)
    requires IsRun(cfg, run) && IsRun(cfg, run + more) && j in After(cfg, run).accepted
    requires !CanReturn(cfg, After(cfg, run), j)
    ensures !CanReturn(cfg, After(cfg, run + more), j)
    ensures Gradings(cfg, run + more, j) + |GraderHands(After(cfg, run + more), j)|
         <= Gradings(cfg, run, j) + |GraderHands(After(cfg, run), j)|
    decreases |more|
  {
    if more == [] {
      assert run + more == run;
    } else {
      var all, shorter := run + more, more[..|more| - 1];
      assert all[..|all| - 1] == run + shorter && all[|all| - 1] == more[|more| - 1];
      SpentBound(cfg, run, shorter, j);
      RunKnown(cfg, run + shorter);
      GoodForever(cfg, run, shorter, j);
      StepSpent(cfg, After(cfg, run + shorter), more[|more| - 1], j);
    }
  }

  /** A job whose payload fails the checks is never graded. */
  lemma {:induction false} BadNeverGraded(cfg: Config, run: seq<Action>, more: seq<Action>, j: JobId)
    requires IsRun(cfg, run) && IsRun(cfg, run + more) && j in After(cfg, run).accepted
    requires !Good(cfg, After(cfg, run), j)
    ensures Gradings(cfg, run + more, j) == Gradings(cfg, run, j)
    decreases |more|
  {
    if more == [] {
      assert run + more == run;
    } else {
      var all, shorter, a := run + more, more[..|more| - 1], more[|more| - 1];
      assert all[..|all| - 1] == run + shorter && all[|all| - 1] == a;
      BadNeverGraded(cfg, run, shorter, j);
      RunFaithful(cfg, run + shorter);
      GoodForever(cfg, run, shorter, j);
      assert Grades(After(cfg, run + shorter), a, j) ==>
          HandlerFaithful(cfg, After(cfg, run + shorter), After(cfg, run + shorter).handlers[a.h]);
    }
  }

  /**
   * After any run an accepted job can be graded any number of times more if and only if its payload passes
   * the checks and something can still deliver it again. If not, only the handlers that have it now grade
   * it, each at most once.
   */
  lemma {:induction false} UnboundedIff(cfg: Config, run: seq<Action>, j: JobId)
    requires IsRun(cfg, run) && j in After(cfg, run).accepted
    ensures WithoutEnd(cfg, run, j) <==> Good(cfg, After(cfg, run), j) && CanReturn(cfg, After(cfg, run), j)
    ensures !WithoutEnd(cfg, run, j) ==> !MoreGradings(cfg, run, j, |GraderHands(After(cfg, run), j)| + 1)
  {
    if Good(cfg, After(cfg, run), j) && CanReturn(cfg, After(cfg, run), j) {
      forall n: nat {
        ReturnGrades(cfg, run, j, n);
      }
    } else {
      SpentEnds(cfg, run, j);
    }
  }

  lemma {:induction false} SpentEnds(cfg: Config, run: seq<Action>, j: JobId)
    requires IsRun(cfg, run) && j in After(cfg, run).accepted
    requires !(Good(cfg, After(cfg, run), j) && CanReturn(cfg, After(cfg, run), j))
    ensures !MoreGradings(cfg, run, j, |GraderHands(After(cfg, run), j)| + 1)
  {
    forall more | IsRun(cfg, run + more)
      ensures Gradings(cfg, run + more, j) <= Gradings(cfg, run, j) + |GraderHands(After(cfg, run), j)|
    {
      if !Good(cfg, After(cfg, run), j) {
        BadNeverGraded(cfg, run, more, j);
      } else {
        SpentBound(cfg, run, more, j);
      }
    }
  }

  /** So the limit, tested after grading only, bounds nothing while a message can be reclaimed. */
  lemma {:induction false} GradingsUnbounded(cfg: Config, j: JobId, p: string)
    requires p != "" && cfg.valid(p)
    ensures IsRun(cfg, [BarePush(j, p)]) && WithoutEnd(cfg, [BarePush(j, p)], j)
  {
    var run := GoesOn(cfg, [], BarePush(j, p), j);
    assert run == [BarePush(j, p)];
    assert 0 in After(cfg, run).stream && After(cfg, run).stream[0].job == j;
    UnboundedIff(cfg, run, j);
  }
}
