/** Exactly when `completed` or `failed` is final. */
module QueueFinality {
  import opened Wrappers
  import opened GradingQueue
  import opened QueueAccounting
  import opened QueueReach
  import opened QueueFaithful
  import opened QueueLoss

  /** The goal of giving the job another status. */
  function Differs(j: JobId, st: Status): State -> bool {
    (t: State) => StatusOf(t.books, j) != Some(st)
  }

  /** The handler can still write a status other than the terminal one the job has. */
  ghost predicate WouldChange(cfg: Config, s: State, h: Handler, st: Status) {
    match h.pc
    case Received => Good(cfg, s, h.job)
    case Passed => st != Completed
    case Errored(n) => n < cfg.maxAttempts || st != Failed
    case DeadLettering => false
    case Acking => false
    case _ => true
  }

  ghost predicate HasWritingHandler(cfg: Config, s: State, j: JobId, st: Status) {
    exists h :: h in s.handlers && s.handlers[h].job == j && WouldChange(cfg, s, s.handlers[h], st)
  }

  ghost predicate HasAnyMover(s: State, j: JobId) {
    exists v :: v in s.movers && s.movers[v].job == j
  }

  /**
   * Someone still has a different status to write: the API that has not registered the job, a handler, a
   * message of a job that passes the checks, a retry entry or a mover.
   */
  ghost predicate PendingWriter(cfg: Config, s: State, j: JobId, st: Status) {
    || j in s.announced
    || (Good(cfg, s, j) && HasMessage(s, j))
    || HasWritingHandler(cfg, s, j, st)
    || j in s.retry
    || HasAnyMover(s, j)
  }

  lemma AnnouncedDiffers(cfg: Config, s: State, j: JobId, st: Status)
    requires j in s.announced && Terminal(st)
    ensures Leads(cfg, s, Differs(j, st))
  {
    var t := Apply(cfg, s, Register(j));
    LeadsNow(cfg, t, Differs(j, st));
    Through(cfg, s, Register(j), t, Differs(j, st));
  }

  /** The handler's next step writes a different status. */
  lemma WriteDiffers(cfg: Config, s: State, h: nat, st: Status)
    requires h in s.handlers && WritesStatus(cfg, s.books, s.handlers[h])
    requires Written(cfg, s.books, s.handlers[h]) != st
    ensures Leads(cfg, s, Differs(s.handlers[h].job, st))
  {
    var t := AdvanceHandler(cfg, s, h, true);
    HandlerPayload(cfg, s.books, s.handlers[h], s.handlers[h].job);
    LeadsNow(cfg, t, Differs(s.handlers[h].job, st));
    Through(cfg, s, Advance(h, true), t, Differs(s.handlers[h].job, st));
  }

  lemma StoredDiffers(cfg: Config, s: State, h: nat, st: Status)
    requires h in s.handlers && s.handlers[h].pc == Stored && Terminal(st)
    ensures Leads(cfg, s, Differs(s.handlers[h].job, st))
  {
    WriteDiffers(cfg, s, h, st);
  }

  lemma ReceivedDiffers(cfg: Config, s: State, h: nat, st: Status)
    requires h in s.handlers && s.handlers[h].pc == Received && Terminal(st)
    requires !Rejected(cfg, s.books, s.handlers[h])
    ensures Leads(cfg, s, Differs(s.handlers[h].job, st))
  {
    var t := AdvanceHandler(cfg, s, h, true);
    StoredDiffers(cfg, t, h, st);
    Through(cfg, s, Advance(h, true), t, Differs(s.handlers[h].job, st));
  }

  /** The outcome of grading decides, and both outcomes are possible. */
  lemma GradingDiffers(cfg: Config, s: State, h: nat, st: Status)
    requires h in s.handlers && s.handlers[h].pc.Grading? && Terminal(st)
    ensures Leads(cfg, s, Differs(s.handlers[h].job, st))
  {
    var ok := st == Failed;
    var t := AdvanceHandler(cfg, s, h, ok);
    WriteDiffers(cfg, t, h, st);
    Through(cfg, s, Advance(h, ok), t, Differs(s.handlers[h].job, st));
  }

  lemma MarkedDiffers(cfg: Config, s: State, h: nat, st: Status)
    requires h in s.handlers && s.handlers[h].pc == Marked && Terminal(st)
    ensures Leads(cfg, s, Differs(s.handlers[h].job, st))
  {
    var t := AdvanceHandler(cfg, s, h, true);
    GradingDiffers(cfg, t, h, st);
    Through(cfg, s, Advance(h, true), t, Differs(s.handlers[h].job, st));
  }

  lemma AddedDiffers(cfg: Config, s: State, v: nat, st: Status)
    requires v in s.movers && s.movers[v].pc == Added && Terminal(st)
    ensures Leads(cfg, s, Differs(s.movers[v].job, st))
  {
    var t := AdvanceMover(s, v);
    LeadsNow(cfg, t, Differs(s.movers[v].job, st));
    Through(cfg, s, Move(v), t, Differs(s.movers[v].job, st));
  }

  lemma RemovedDiffers(cfg: Config, s: State, v: nat, st: Status)
    requires v in s.movers && s.movers[v].pc == Removed && Terminal(st)
    requires HashOf(s.books, s.movers[v].job).payload != ""
    ensures Leads(cfg, s, Differs(s.movers[v].job, st))
  {
    var t := AdvanceMover(s, v);
    AddedDiffers(cfg, t, v, st);
    Through(cfg, s, Move(v), t, Differs(s.movers[v].job, st));
  }

  lemma SeenDiffers(cfg: Config, s: State, v: nat, st: Status)
    requires v in s.movers && s.movers[v].pc == Seen && Terminal(st)
    requires HashOf(s.books, s.movers[v].job).payload != ""
    ensures Leads(cfg, s, Differs(s.movers[v].job, st))
  {
    var t := AdvanceMover(s, v);
    RemovedDiffers(cfg, t, v, st);
    Through(cfg, s, Move(v), t, Differs(s.movers[v].job, st));
  }

  lemma MoverDiffers(cfg: Config, s: State, v: nat, st: Status)
    requires RetriesFaithful(cfg, s) && v in s.movers && Terminal(st)
    ensures Leads(cfg, s, Differs(s.movers[v].job, st))
  {
    assert Kept(cfg, s, s.movers[v].job);
    match s.movers[v].pc
    case Seen => SeenDiffers(cfg, s, v, st);
    case Removed => RemovedDiffers(cfg, s, v, st);
    case Added => AddedDiffers(cfg, s, v, st);
  }

  lemma RetryDiffers(cfg: Config, s: State, j: JobId, st: Status)
    requires j in s.retry && HashOf(s.books, j).payload != "" && Terminal(st)
    ensures Leads(cfg, s, Differs(j, st))
  {
    var v := FreshNumber(s.movers.Keys);
    var t := Apply(cfg, s, Peek(v, j));
    SeenDiffers(cfg, t, v, st);
    Through(cfg, s, Peek(v, j), t, Differs(j, st));
  }

  lemma SchedulingDiffers(cfg: Config, s: State, h: nat, st: Status)
    requires h in s.handlers && s.handlers[h].pc == Scheduling && Terminal(st)
    requires HashOf(s.books, s.handlers[h].job).payload != ""
    ensures Leads(cfg, s, Differs(s.handlers[h].job, st))
  {
    var t := AdvanceHandler(cfg, s, h, true);
    RetryDiffers(cfg, t, s.handlers[h].job, st);
    Through(cfg, s, Advance(h, true), t, Differs(s.handlers[h].job, st));
  }

  lemma MessageDiffers(cfg: Config, s: State, m: MsgId, st: Status)
    requires HashesFaithful(cfg, s) && MessagesFaithful(s)
    requires m in s.stream && Good(cfg, s, s.stream[m].job) && Terminal(st)
    ensures Leads(cfg, s, Differs(s.stream[m].job, st))
  {
    var h := FreshNumber(s.handlers.Keys);
    var t := Apply(cfg, s, Take(s, h, m));
    var H := Handler(m, s.stream[m].job, s.stream[m].body, Received);
    assert t.handlers[h] == H && t.books == s.books;
    RejectedIff(cfg, s, H);
    ReceivedDiffers(cfg, t, h, st);
    Through(cfg, s, Take(s, h, m), t, Differs(s.stream[m].job, st));
  }

  lemma HandlerDiffers(cfg: Config, s: State, h: nat, st: Status)
    requires HashesFaithful(cfg, s) && HandlersFaithful(cfg, s) && Terminal(st)
    requires h in s.handlers && WouldChange(cfg, s, s.handlers[h], st)
    ensures Leads(cfg, s, Differs(s.handlers[h].job, st))
  {
    assert HandlerFaithful(cfg, s, s.handlers[h]);
    match s.handlers[h].pc
    case Received =>
      RejectedIff(cfg, s, s.handlers[h]);
      ReceivedDiffers(cfg, s, h, st);
    case Stored => StoredDiffers(cfg, s, h, st);
    case Marked => MarkedDiffers(cfg, s, h, st);
    case Grading(_) => GradingDiffers(cfg, s, h, st);
    case Passed => WriteDiffers(cfg, s, h, st);
    case Errored(_) => WriteDiffers(cfg, s, h, st);
    case Scheduling => SchedulingDiffers(cfg, s, h, st);
  }

  lemma PendingDiffers(cfg: Config, s: State, j: JobId, st: Status)
    requires Faithful(cfg, s) && Terminal(st) && PendingWriter(cfg, s, j, st)
    ensures Leads(cfg, s, Differs(j, st))
  {
    if j in s.announced {
      AnnouncedDiffers(cfg, s, j, st);
    } else if HasWritingHandler(cfg, s, j, st) {
      var h :| h in s.handlers && s.handlers[h].job == j && WouldChange(cfg, s, s.handlers[h], st);
      HandlerDiffers(cfg, s, h, st);
    } else if j in s.retry {
      RetryDiffers(cfg, s, j, st);
    } else if HasAnyMover(s, j) {
      var v :| v in s.movers && s.movers[v].job == j;
      MoverDiffers(cfg, s, v, st);
    } else {
      var m :| m in s.stream && s.stream[m].job == j;
      MessageDiffers(cfg, s, m, st);
    }
  }

  /** The job has the status and nobody has another one to write. */
  ghost predicate Closed(cfg: Config, s: State, j: JobId, st: Status) {
    j in s.accepted && StatusOf(s.books, j) == Some(st) && !PendingWriter(cfg, s, j, st)
  }

  /** A handler that would not change the status writes the same one, or none. */
  lemma ClosedHandlerKeeps(cfg: Config, s: State, h: nat, j: JobId, st: Status)
    requires HashesFaithful(cfg, s) && HandlersFaithful(cfg, s) && h in s.handlers
    requires Terminal(st) && Closed(cfg, s, j, st)
    ensures StatusOf(HandlerBooks(cfg, s.books, s.handlers[h]), j) == Some(st)
  {
    var H := s.handlers[h];
    HandlerPayload(cfg, s.books, H, j);
    if H.job == j {
      assert !WouldChange(cfg, s, H, st);
      assert HandlerFaithful(cfg, s, H) && HashFaithful(cfg, s, j);
      RejectedIff(cfg, s, H);
    }
  }

  lemma NextNotWriting(cfg: Config, s: State, H: Handler, ok: bool, st: Status)
    requires H.job in s.accepted && H.body == s.accepted[H.job] && HashFaithful(cfg, s, H.job)
    requires !WouldChange(cfg, s, H, st) && H.pc != Acking && Terminal(st)
    ensures !WouldChange(cfg, s, H.(pc := NextPc(cfg, s.books, H, ok)), st)
    ensures H.pc != Scheduling
  {
    RejectedIff(cfg, s, H);
  }

  lemma AdvanceClosed(cfg: Config, s: State, h: nat, ok: bool, j: JobId, st: Status)
    requires Faithful(cfg, s) && h in s.handlers && Terminal(st) && Closed(cfg, s, j, st)
    ensures Closed(cfg, AdvanceHandler(cfg, s, h, ok), j, st)
  {
    var t, H := AdvanceHandler(cfg, s, h, ok), s.handlers[h];
    ClosedHandlerKeeps(cfg, s, h, j, st);
    if H.job == j && H.pc != Acking {
      assert HandlerFaithful(cfg, s, H) && HashFaithful(cfg, s, j);
      NextNotWriting(cfg, s, H, ok, st);
    }
    assert t.accepted == s.accepted && t.movers == s.movers && t.announced == s.announced;
    AdvanceClosedHandlers(cfg, s, h, ok, j, st);
    assert !HasAnyMover(t, j);
    assert HasMessage(t, j) ==> HasMessage(s, j);
  }

  lemma AdvanceClosedHandlers(cfg: Config, s: State, h: nat, ok: bool, j: JobId, st: Status)
    requires Faithful(cfg, s) && h in s.handlers && Terminal(st) && Closed(cfg, s, j, st)
    ensures !HasWritingHandler(cfg, AdvanceHandler(cfg, s, h, ok), j, st)
  {
    var t, H := AdvanceHandler(cfg, s, h, ok), s.handlers[h];
    forall k | k in t.handlers && t.handlers[k].job == j
      ensures !WouldChange(cfg, t, t.handlers[k], st)
    {
      assert k in s.handlers && s.handlers[k].job == j && !WouldChange(cfg, s, s.handlers[k], st);
      if k == h {
        assert HandlerFaithful(cfg, s, H) && HashFaithful(cfg, s, j);
        NextNotWriting(cfg, s, H, ok, st);
      }
    }
  }

  lemma MoveClosed(cfg: Config, s: State, v: nat, j: JobId, st: Status)
    requires v in s.movers && Closed(cfg, s, j, st)
    ensures Closed(cfg, AdvanceMover(s, v), j, st)
  {
    var t := AdvanceMover(s, v);
    assert s.movers[v].job != j;
    assert t.handlers == s.handlers && t.accepted == s.accepted && t.announced == s.announced;
    assert !HasAnyMover(t, j) by {
      assert forall w | w in t.movers :: w in s.movers && t.movers[w].job == s.movers[w].job;
    }
    assert !HasWritingHandler(cfg, t, j, st);
    MoveMessage(s, v, j);
    MoveStatus(s, v, j);
  }

  lemma MoveMessage(s: State, v: nat, j: JobId)
    requires v in s.movers && s.movers[v].job != j
    ensures HasMessage(AdvanceMover(s, v), j) ==> HasMessage(s, j)
    ensures AdvanceMover(s, v).retry <= s.retry
  {
    var t := AdvanceMover(s, v);
    assert forall m | m in t.stream :: (m in s.stream && t.stream[m] == s.stream[m]) || t.stream[m].job != j;
  }

  lemma MoveStatus(s: State, v: nat, j: JobId)
    requires v in s.movers && s.movers[v].job != j
    ensures HashOf(AdvanceMover(s, v).books, j) == HashOf(s.books, j)
    ensures StatusOf(AdvanceMover(s, v).books, j) == StatusOf(s.books, j)
  {
  }

  lemma HandOverMessages(cfg: Config, s: State, a: Action, j: JobId)
    requires Enabled(s, a) && PassesOn(a)
    ensures HasMessage(Apply(cfg, s, a), j) ==> HasMessage(s, j)
  {
    var t := Apply(cfg, s, a);
    assert forall m | m in t.stream :: m in s.stream && t.stream[m].job == s.stream[m].job;
  }

  lemma HandOverMovers(cfg: Config, s: State, a: Action, j: JobId)
    requires Enabled(s, a) && PassesOn(a)
    ensures HasAnyMover(Apply(cfg, s, a), j) ==> HasAnyMover(s, j) || j in s.retry
  {
    var t := Apply(cfg, s, a);
    assert forall v | v in t.movers ::
      (v in s.movers && t.movers[v].job == s.movers[v].job) || t.movers[v].job in s.retry;
  }

  lemma HandOverHandlers(cfg: Config, s: State, a: Action, j: JobId, st: Status)
    requires Enabled(s, a) && PassesOn(a)
    requires !HasWritingHandler(cfg, s, j, st) && !(Good(cfg, s, j) && HasMessage(s, j))
    ensures !HasWritingHandler(cfg, Apply(cfg, s, a), j, st)
  {
    var t := Apply(cfg, s, a);
    assert t.accepted == s.accepted;
    forall h | h in t.handlers && t.handlers[h].job == j
      ensures !WouldChange(cfg, t, t.handlers[h], st)
    {
      if h in s.handlers {
        assert t.handlers[h] == s.handlers[h] && !WouldChange(cfg, s, s.handlers[h], st);
      }
    }
  }

  lemma HandOverClosed(cfg: Config, s: State, a: Action, j: JobId, st: Status)
    requires Enabled(s, a) && Closed(cfg, s, j, st)
    requires PassesOn(a)
    ensures Closed(cfg, Apply(cfg, s, a), j, st)
  {
    var t := Apply(cfg, s, a);
    assert t.books == s.books && t.accepted == s.accepted && t.announced == s.announced && t.retry == s.retry;
    HandOverMessages(cfg, s, a, j);
    HandOverMovers(cfg, s, a, j);
    HandOverHandlers(cfg, s, a, j, st);
  }

  /** Books and messages of other jobs do not concern this one. */
  lemma ClosedElsewhere(cfg: Config, s: State, t: State, j: JobId, st: Status)
    requires Closed(cfg, s, j, st)
    requires t.handlers == s.handlers && t.movers == s.movers && t.retry == s.retry
    requires j in t.accepted && t.accepted[j] == s.accepted[j] && (j in t.announced ==> j in s.announced)
    requires StatusOf(t.books, j) == StatusOf(s.books, j)
    requires HasMessage(t, j) ==> HasMessage(s, j)
    ensures Closed(cfg, t, j, st)
  {
    forall h | h in t.handlers && t.handlers[h].job == j
      ensures !WouldChange(cfg, t, t.handlers[h], st)
    {
      assert !WouldChange(cfg, s, s.handlers[h], st);
    }
  }

  lemma PushClosed(cfg: Config, s: State, a: Action, j: JobId, st: Status)
    requires Known(s) && Enabled(s, a) && Closed(cfg, s, j, st) && IsPush(a)
    ensures Closed(cfg, Apply(cfg, s, a), j, st)
  {
    var t := Apply(cfg, s, a);
    assert a.job != j;
    assert forall m | m in t.stream :: (m in s.stream && t.stream[m] == s.stream[m]) || t.stream[m].job == a.job;
    ClosedElsewhere(cfg, s, t, j, st);
  }

  lemma RegisterClosed(cfg: Config, s: State, a: Action, j: JobId, st: Status)
    requires Enabled(s, a) && (a.Register? || a.WriteHash? || a.CountQueued?) && Closed(cfg, s, j, st)
    ensures Closed(cfg, Apply(cfg, s, a), j, st)
  {
    var t := Apply(cfg, s, a);
    assert !a.CountQueued? ==> a.job != j;
    assert t.stream == s.stream;
    ClosedElsewhere(cfg, s, t, j, st);
  }

  lemma StepClosed(cfg: Config, s: State, a: Action, j: JobId, st: Status)
    requires Known(s) && Faithful(cfg, s) && Enabled(s, a) && Terminal(st) && Closed(cfg, s, j, st)
    ensures Closed(cfg, Apply(cfg, s, a), j, st)
  {
    match a
    case Advance(h, ok) => AdvanceClosed(cfg, s, h, ok, j, st);
    case Move(v) => MoveClosed(cfg, s, v, j, st);
    case Submit(_, _) => PushClosed(cfg, s, a, j, st);
    case BarePush(_, _) => PushClosed(cfg, s, a, j, st);
    case Register(_) => RegisterClosed(cfg, s, a, j, st);
    case WriteHash(_) => RegisterClosed(cfg, s, a, j, st);
    case CountQueued(_) => RegisterClosed(cfg, s, a, j, st);
    case _ => HandOverClosed(cfg, s, a, j, st);
  }

  lemma {:induction false} ClosedForever(cfg: Config, run: seq<Action>, more: seq<Action>, j: JobId, st: Status)
    requires IsRun(cfg, run) && IsRun(cfg, run + more) && Terminal(st) && Closed(cfg, After(cfg, run), j, st)
    ensures Closed(cfg, After(cfg, run + more), j, st)
    decreases |more|
  {
    if more == [] {
      assert run + more == run;
    } else {
      var all, shorter := run + more, more[..|more| - 1];
      assert all[..|all| - 1] == run + shorter && all[|all| - 1] == more[|more| - 1];
      ClosedForever(cfg, run, shorter, j, st);
      RunFaithful(cfg, run + shorter);
      RunKnown(cfg, run + shorter);
      StepClosed(cfg, After(cfg, run + shorter), more[|more| - 1], j, st);
    }
  }

  /**
   * After any run, a completed or failed job can get another status in some continuation if and only if
   * someone still has a different status to write for it.
   */
  lemma {:induction false} FinalIff(cfg: Config, run: seq<Action>, j: JobId, st: Status)
    requires IsRun(cfg, run) && Terminal(st) && StatusOf(After(cfg, run).books, j) == Some(st)
    ensures CanReach(cfg, run, Differs(j, st)) <==> PendingWriter(cfg, After(cfg, run), j, st)
  {
    RunFaithful(cfg, run);
    RunKnown(cfg, run);
    ReachIsLeads(cfg, run, Differs(j, st));
    if PendingWriter(cfg, After(cfg, run), j, st) {
      PendingDiffers(cfg, After(cfg, run), j, st);
    } else if CanReach(cfg, run, Differs(j, st)) {
      var more :| IsRun(cfg, run + more) && Differs(j, st)(After(cfg, run + more));
      ClosedForever(cfg, run, more, j, st);
    }
  }
}
