/** Exactly which jobs can still be finished, and which are lost. */
module QueueLoss {
  import opened GradingQueue
  import opened QueueDelivery
  import opened QueueReach
  import opened QueueFaithful

  /** The goal of finishing the job. */
  function Settled(j: JobId): State -> bool {
    (t: State) => j in t.books.settled
  }

  /** What a step leads to, as a state. */
  lemma Through(cfg: Config, s: State, a: Action, t: State, goal: State -> bool)
    requires Enabled(s, a) && t == Apply(cfg, s, a) && Leads(cfg, t, goal)
    ensures Leads(cfg, s, goal)
  {
    LeadsStep(cfg, s, a, goal);
  }

  lemma PassedSettles(cfg: Config, s: State, h: nat)
    requires h in s.handlers && s.handlers[h].pc == Passed
    ensures Leads(cfg, s, Settled(s.handlers[h].job))
  {
    var t := AdvanceHandler(cfg, s, h, true);
    LeadsNow(cfg, t, Settled(s.handlers[h].job));
    Through(cfg, s, Advance(h, true), t, Settled(s.handlers[h].job));
  }

  lemma GradingSettles(cfg: Config, s: State, h: nat)
    requires h in s.handlers && s.handlers[h].pc.Grading?
    ensures Leads(cfg, s, Settled(s.handlers[h].job))
  {
    var t := AdvanceHandler(cfg, s, h, true);
    PassedSettles(cfg, t, h);
    Through(cfg, s, Advance(h, true), t, Settled(s.handlers[h].job));
  }

  lemma MarkedSettles(cfg: Config, s: State, h: nat)
    requires h in s.handlers && s.handlers[h].pc == Marked
    ensures Leads(cfg, s, Settled(s.handlers[h].job))
  {
    var t := AdvanceHandler(cfg, s, h, true);
    GradingSettles(cfg, t, h);
    Through(cfg, s, Advance(h, true), t, Settled(s.handlers[h].job));
  }

  lemma StoredSettles(cfg: Config, s: State, h: nat)
    requires h in s.handlers && s.handlers[h].pc == Stored
    ensures Leads(cfg, s, Settled(s.handlers[h].job))
  {
    var t := AdvanceHandler(cfg, s, h, true);
    MarkedSettles(cfg, t, h);
    Through(cfg, s, Advance(h, true), t, Settled(s.handlers[h].job));
  }

  lemma ReceivedSettles(cfg: Config, s: State, h: nat)
    requires h in s.handlers && s.handlers[h].pc == Received
    ensures Leads(cfg, s, Settled(s.handlers[h].job))
  {
    var t := AdvanceHandler(cfg, s, h, true);
    if Rejected(cfg, s.books, s.handlers[h]) {
      LeadsNow(cfg, t, Settled(s.handlers[h].job));
    } else {
      StoredSettles(cfg, t, h);
    }
    Through(cfg, s, Advance(h, true), t, Settled(s.handlers[h].job));
  }

  /** The action that gives a message to a handler, whether it was delivered before or not. */
  function Take(s: State, h: nat, m: MsgId): Action
    requires m in s.stream
  {
    if s.stream[m].delivered then Reclaim(h, m) else Deliver(h, m)
  }

  lemma MessageSettles(cfg: Config, s: State, m: MsgId)
    requires m in s.stream
    ensures Leads(cfg, s, Settled(s.stream[m].job))
  {
    var h := FreshNumber(s.handlers.Keys);
    var t := Apply(cfg, s, Take(s, h, m));
    assert t.handlers[h] == Handler(m, s.stream[m].job, s.stream[m].body, Received);
    ReceivedSettles(cfg, t, h);
    Through(cfg, s, Take(s, h, m), t, Settled(s.stream[m].job));
  }

  lemma RemovedSettles(cfg: Config, s: State, v: nat)
    requires v in s.movers && s.movers[v].pc == Removed
    ensures Leads(cfg, s, Settled(s.movers[v].job))
  {
    var t := AdvanceMover(s, v);
    if HashOf(s.books, s.movers[v].job).payload == "" {
      LeadsNow(cfg, t, Settled(s.movers[v].job));
    } else {
      assert t.stream[s.nextMsg].job == s.movers[v].job;
      MessageSettles(cfg, t, s.nextMsg);
    }
    Through(cfg, s, Move(v), t, Settled(s.movers[v].job));
  }

  lemma SeenSettles(cfg: Config, s: State, v: nat)
    requires v in s.movers && s.movers[v].pc == Seen
    ensures Leads(cfg, s, Settled(s.movers[v].job))
  {
    var t := AdvanceMover(s, v);
    RemovedSettles(cfg, t, v);
    Through(cfg, s, Move(v), t, Settled(s.movers[v].job));
  }

  lemma RetrySettles(cfg: Config, s: State, j: JobId)
    requires j in s.retry
    ensures Leads(cfg, s, Settled(j))
  {
    var v := FreshNumber(s.movers.Keys);
    var t := Apply(cfg, s, Peek(v, j));
    SeenSettles(cfg, t, v);
    Through(cfg, s, Peek(v, j), t, Settled(j));
  }

  lemma SchedulingSettles(cfg: Config, s: State, h: nat)
    requires h in s.handlers && s.handlers[h].pc == Scheduling
    ensures Leads(cfg, s, Settled(s.handlers[h].job))
  {
    var t := AdvanceHandler(cfg, s, h, true);
    RetrySettles(cfg, t, s.handlers[h].job);
    Through(cfg, s, Advance(h, true), t, Settled(s.handlers[h].job));
  }

  lemma ErroredSettles(cfg: Config, s: State, h: nat)
    requires h in s.handlers && s.handlers[h].pc.Errored?
    ensures Leads(cfg, s, Settled(s.handlers[h].job))
  {
    var t := AdvanceHandler(cfg, s, h, true);
    if s.handlers[h].pc.attempts < cfg.maxAttempts {
      SchedulingSettles(cfg, t, h);
    } else {
      LeadsNow(cfg, t, Settled(s.handlers[h].job));
    }
    Through(cfg, s, Advance(h, true), t, Settled(s.handlers[h].job));
  }

  /** The handler has the job before it is finished with it. */
  predicate Busy(pc: HandlerPc) {
    pc != DeadLettering && pc != Acking
  }

  lemma BusySettles(cfg: Config, s: State, h: nat)
    requires h in s.handlers && Busy(s.handlers[h].pc)
    ensures Leads(cfg, s, Settled(s.handlers[h].job))
  {
    match s.handlers[h].pc
    case Received => ReceivedSettles(cfg, s, h);
    case Stored => StoredSettles(cfg, s, h);
    case Marked => MarkedSettles(cfg, s, h);
    case Grading(_) => GradingSettles(cfg, s, h);
    case Passed => PassedSettles(cfg, s, h);
    case Errored(_) => ErroredSettles(cfg, s, h);
    case Scheduling => SchedulingSettles(cfg, s, h);
  }

  ghost predicate HasMessage(s: State, j: JobId) {
    exists m :: m in s.stream && s.stream[m].job == j
  }

  ghost predicate HasBusy(s: State, j: JobId) {
    exists h :: h in s.handlers && s.handlers[h].job == j && Busy(s.handlers[h].pc)
  }

  /** A mover will still put the job on the stream. */
  ghost predicate HasCarryingMover(s: State, j: JobId) {
    exists v :: v in s.movers && s.movers[v].job == j && (s.movers[v].pc == Seen || s.movers[v].pc == Removed)
  }

  /** Something in the system can bring the job forward: a message, a handler, a retry entry or a mover. */
  ghost predicate HasCarrier(s: State, j: JobId) {
    HasMessage(s, j) || HasBusy(s, j) || j in s.retry || HasCarryingMover(s, j)
  }

  lemma CarrierSettles(cfg: Config, s: State, j: JobId)
    requires HasCarrier(s, j)
    ensures Leads(cfg, s, Settled(j))
  {
    if HasMessage(s, j) {
      var m :| m in s.stream && s.stream[m].job == j;
      MessageSettles(cfg, s, m);
    } else if HasBusy(s, j) {
      var h :| h in s.handlers && s.handlers[h].job == j && Busy(s.handlers[h].pc);
      BusySettles(cfg, s, h);
    } else if j in s.retry {
      RetrySettles(cfg, s, j);
    } else {
      var v :| v in s.movers && s.movers[v].job == j && (s.movers[v].pc == Seen || s.movers[v].pc == Removed);
      if s.movers[v].pc == Seen {
        SeenSettles(cfg, s, v);
      } else {
        RemovedSettles(cfg, s, v);
      }
    }
  }

  /** Nothing can bring the job forward and it was never finished. */
  ghost predicate Stuck(s: State, j: JobId) {
    j in s.accepted && j !in s.books.settled && !HasCarrier(s, j)
  }

  lemma HandlerSettled(cfg: Config, b: Books, h: Handler)
    ensures HandlerBooks(cfg, b, h).settled <= b.settled + {h.job}
    ensures !Busy(h.pc) ==> HandlerBooks(cfg, b, h) == b
  {
  }

  lemma AdvanceStuck(cfg: Config, s: State, h: nat, ok: bool, j: JobId)
    requires Stuck(s, j) && h in s.handlers
    ensures Stuck(AdvanceHandler(cfg, s, h, ok), j)
  {
    var t, H := AdvanceHandler(cfg, s, h, ok), s.handlers[h];
    HandlerSettled(cfg, s.books, H);
    assert H.job == j ==> !Busy(H.pc);
    assert !HasBusy(t, j) by {
      forall k | k in t.handlers && t.handlers[k].job == j
        ensures !Busy(t.handlers[k].pc)
      {
        assert k in s.handlers && s.handlers[k].job == j;
      }
    }
    assert t.movers == s.movers;
  }

  lemma MarkStuck(s: State, v: nat, j: JobId)
    requires Stuck(s, j) && v in s.movers && s.movers[v].pc == Added
    ensures Stuck(AdvanceMover(s, v), j)
  {
    var t := AdvanceMover(s, v);
    assert t.handlers == s.handlers && t.stream == s.stream && t.retry == s.retry;
    assert !HasMessage(t, j) && !HasBusy(t, j);
    assert forall w | w in t.movers :: w in s.movers && t.movers[w] == s.movers[w];
  }

  lemma TakeOffStuck(s: State, v: nat, j: JobId)
    requires Stuck(s, j) && v in s.movers && s.movers[v].pc == Seen
    ensures Stuck(AdvanceMover(s, v), j)
  {
    var t := AdvanceMover(s, v);
    assert t.handlers == s.handlers && t.stream == s.stream && t.books == s.books;
    assert !HasMessage(t, j) && !HasBusy(t, j);
    assert s.movers[v].job != j;
    assert forall w | w in t.movers && w != v :: t.movers[w] == s.movers[w];
  }

  lemma PutBackStuck(s: State, v: nat, j: JobId)
    requires Stuck(s, j) && v in s.movers && s.movers[v].pc == Removed
    ensures Stuck(AdvanceMover(s, v), j)
  {
    var t := AdvanceMover(s, v);
    assert t.handlers == s.handlers && t.retry == s.retry && !HasBusy(t, j);
    assert s.movers[v].job != j;
    assert forall w | w in t.movers && w != v :: t.movers[w] == s.movers[w];
    assert forall m | m in t.stream ::
      (m in s.stream && t.stream[m] == s.stream[m]) || t.stream[m].job == s.movers[v].job;
  }

  lemma MoveStuck(s: State, v: nat, j: JobId)
    requires Stuck(s, j) && v in s.movers && s.movers[v].pc != Refusing
    ensures Stuck(AdvanceMover(s, v), j)
  {
    match s.movers[v].pc
    case Seen => TakeOffStuck(s, v, j);
    case Removed => PutBackStuck(s, v, j);
    case Added => MarkStuck(s, v, j);
  }

  lemma StepStuck(cfg: Config, s: State, a: Action, j: JobId)
    requires Stuck(s, j) && Enabled(s, a) && RetriesFaithful(cfg, s)
    ensures Stuck(Apply(cfg, s, a), j)
  {
    match a
    case Advance(h, ok) => AdvanceStuck(cfg, s, h, ok, j);
    case Move(v) => MoveStuck(s, v, j);
    case _ =>
  }

  lemma {:induction false} StuckForever(cfg: Config, run: seq<Action>, more: seq<Action>, j: JobId)
    requires IsRun(cfg, run) && IsRun(cfg, run + more) && Stuck(After(cfg, run), j)
    ensures Stuck(After(cfg, run + more), j)
    decreases |more|
  {
    if more == [] {
      assert run + more == run;
    } else {
      var all, shorter := run + more, more[..|more| - 1];
      assert all[..|all| - 1] == run + shorter && all[|all| - 1] == more[|more| - 1];
      StuckForever(cfg, run, shorter, j);
      RunFaithful(cfg, run + shorter);
      StepStuck(cfg, After(cfg, run + shorter), more[|more| - 1], j);
    }
  }

  /** An accepted job can still be finished, or is, if and only if something carries it. */
  lemma {:induction false} SettleIff(cfg: Config, run: seq<Action>, j: JobId)
    requires IsRun(cfg, run) && j in After(cfg, run).accepted
    ensures CanReach(cfg, run, Settled(j)) <==> j in After(cfg, run).books.settled || HasCarrier(After(cfg, run), j)
  {
    var s := After(cfg, run);
    ReachIsLeads(cfg, run, Settled(j));
    if j in s.books.settled {
      LeadsNow(cfg, s, Settled(j));
    } else if HasCarrier(s, j) {
      CarrierSettles(cfg, s, j);
    } else if CanReach(cfg, run, Settled(j)) {
      var more :| IsRun(cfg, run + more) && Settled(j)(After(cfg, run + more));
      StuckForever(cfg, run, more, j);
    }
  }

  /** After any run, every accepted job that was not given up has a continuation that finishes it. */
  lemma {:induction false} NotDroppedSettles(cfg: Config, run: seq<Action>, j: JobId)
    requires IsRun(cfg, run) && j in After(cfg, run).accepted && j !in After(cfg, run).dropped
    ensures CanReach(cfg, run, Settled(j))
  {
    RunDelivering(cfg, run);
    SettleIff(cfg, run, j);
    assert SafeBeyond(After(cfg, run), j, -1);
  }

  /**
   * A job is lost, no continuation of the run finishing it, if and only if it was given up, was never
   * finished, and nothing carries it any more.
   */
  lemma {:induction false} LostIff(cfg: Config, run: seq<Action>, j: JobId)
    requires IsRun(cfg, run) && j in After(cfg, run).accepted
    ensures !CanReach(cfg, run, Settled(j))
       <==> j in After(cfg, run).dropped && j !in After(cfg, run).books.settled && !HasCarrier(After(cfg, run), j)
  {
    SettleIff(cfg, run, j);
    RunDelivering(cfg, run);
    assert SafeBeyond(After(cfg, run), j, -1);
  }
}
