/** Every step of a calm run keeps the queue orderly. */
module QueueCalmSteps {
  import opened Wrappers
  import opened GradingQueue
  import opened QueueAccounting
  import opened QueueFaithful
  import opened QueueCalm

  lemma BooksOther(b: Books, job: JobId, next: Status, j: JobId)
    requires job != j
    ensures HashOf(Transition(b, job, next), j) == HashOf(b, j)
    ensures StatusOf(Transition(b, job, next), j) == StatusOf(b, j)
    ensures j in Transition(b, job, next).settled <==> j in b.settled
  {
  }

  lemma MoveBooksOther(s: State, v: nat, j: JobId)
    requires v in s.movers && s.movers[v].job != j
    ensures SameBooks(s, AdvanceMover(s, v), j)
  {
    var t := AdvanceMover(s, v);
    match s.movers[v].pc
    case Seen => assert t.books == s.books && t.dlq == s.dlq;
    case Removed =>
      BooksOther(s.books, s.movers[v].job, Failed, j);
      assert t.books in {s.books, Transition(s.books, s.movers[v].job, Failed)} && t.dlq == s.dlq;
    case Added =>
      BooksOther(s.books, s.movers[v].job, Queued, j);
      assert t.dlq == s.dlq;
    case Refusing => assert t.books == s.books;
  }

  lemma MoveMoversOther(s: State, v: nat, j: JobId)
    requires v in s.movers && s.movers[v].job != j
    ensures SameMovers(s, AdvanceMover(s, v), j)
  {
  }

  lemma MoveMessagesOther(s: State, v: nat, j: JobId)
    requires HandlersFit(s) && v in s.movers && s.movers[v].job != j
    ensures SameMessages(s, AdvanceMover(s, v), j) && SameHandlers(s, AdvanceMover(s, v), j)
  {
    var t := AdvanceMover(s, v);
    assert t.handlers == s.handlers;
  }

  /** Where the job of a mover is after the mover's step. */
  ghost function AfterMove(s: State, v: nat): Holder
    requires v in s.movers
  {
    if s.movers[v].pc == Seen then InMover(v) else InStream(s.nextMsg)
  }

  /** Taking the job off the retry set, and putting it on the stream, hands over the only holder. */
  lemma MoveOwn(cfg: Config, s: State, v: nat, j: JobId)
    requires HandlersFit(s) && v in s.movers && j == s.movers[v].job && s.movers[v].pc != Added
    requires JobOk(cfg, s, j) && Kept(cfg, s, j)
    ensures JobOk(cfg, AdvanceMover(s, v), j)
  {
    var t := AdvanceMover(s, v);
    var from := if s.movers[v].pc == Seen then InRetry else InMover(v);
    assert MoverFits(s, j, v);
    assert Holds(s, j, from) && Fits(cfg, s, j, from) && HasMover(s, j);
    MovedHolders(s, v, j, from);
    assert t.announced == s.announced && t.dropped == s.dropped && t.dlq == s.dlq && t.handlers == s.handlers;
    assert t.books == s.books;
    assert Holds(t, j, AfterMove(s, v)) && Fits(cfg, t, j, AfterMove(s, v));
    assert s.movers[v].pc == Removed ==> Waits(t, j, InStream(s.nextMsg));
    assert MoverFits(t, j, v);
    assert BeingDeadLettered(t, j) <==> BeingDeadLettered(s, j);
  }

  lemma MovedHolders(s: State, v: nat, j: JobId, from: Holder)
    requires HandlersFit(s) && v in s.movers && j == s.movers[v].job && s.movers[v].pc in {Seen, Removed}
    requires HashOf(s.books, j).payload != "" && MoversFit(s, j)
    requires from == (if s.movers[v].pc == Seen then InRetry else InMover(v))
    requires forall x :: Holds(s, j, x) ==> x == from
    ensures forall x :: Holds(AdvanceMover(s, v), j, x) <==> x == AfterMove(s, v)
  {
    var t := AdvanceMover(s, v);
    forall x
      ensures Holds(t, j, x) <==> x == AfterMove(s, v)
    {
      assert Holds(s, j, x) ==> x == from;
      assert !Holds(s, j, InStream(s.nextMsg));
      match x
      case InStream(m) => assert m != s.nextMsg ==> !Holds(s, j, x);
      case InHandler(_) => assert t.handlers == s.handlers;
      case InRetry =>
      case InMover(w) => assert Holds(t, j, x) ==> w == v;
    }
  }

  /** Marking the requeued job as queued while its message waits or has just been received. */
  lemma MarkOwn(cfg: Config, s: State, v: nat, j: JobId)
    requires HandlersFit(s) && v in s.movers && s.movers[v] == Mover(j, Added)
    requires JobOk(cfg, s, j)
    ensures JobOk(cfg, AdvanceMover(s, v), j)
  {
    var t := AdvanceMover(s, v);
    assert MoverFits(s, j, v) && HasMover(s, j);
    var x0 :| Waits(s, j, x0);
    assert Fits(cfg, s, j, x0) && Early(cfg, s, j);
    assert t.handlers == s.handlers && t.stream == s.stream && t.retry == s.retry && t.dlq == s.dlq;
    forall x
      ensures Holds(t, j, x) <==> x == x0
    {
      assert Holds(s, j, x) ==> x == x0;
      assert Holds(t, j, x) ==> Holds(s, j, x);
    }
    assert Holds(t, j, x0);
    assert Early(cfg, t, j) && Fits(cfg, t, j, x0);
    assert !HasMover(t, j);
    assert !BeingDeadLettered(t, j) by {
      assert forall k | k in t.handlers && t.handlers[k].job == j && t.handlers[k].pc == DeadLettering ::
          Holds(t, j, InHandler(k));
    }
    assert !BeingDeadLettered(s, j) by {
      assert forall k | k in s.handlers && s.handlers[k].job == j && s.handlers[k].pc == DeadLettering ::
          Holds(s, j, InHandler(k));
    }
  }

  lemma MoveJobOk(cfg: Config, s: State, v: nat, j: JobId)
    requires HandlersFit(s) && v in s.movers && JobOk(cfg, s, j) && Kept(cfg, s, s.movers[v].job)
    ensures JobOk(cfg, AdvanceMover(s, v), j)
  {
    if j != s.movers[v].job {
      MoveBooksOther(s, v, j);
      MoveMoversOther(s, v, j);
      MoveMessagesOther(s, v, j);
      SameJobOk(cfg, s, AdvanceMover(s, v), j);
    } else if s.movers[v].pc == Added {
      MarkOwn(cfg, s, v, j);
    } else {
      MoveOwn(cfg, s, v, j);
    }
  }

  lemma MoveHandlersFit(s: State, v: nat)
    requires HandlersFit(s) && v in s.movers
    ensures HandlersFit(AdvanceMover(s, v))
  {
  }

  lemma MoveOrderly(cfg: Config, s: State, v: nat)
    requires Orderly(cfg, s) && v in s.movers
    ensures Orderly(cfg, AdvanceMover(s, v))
  {
    MoveKnown(s, v);
    MoveFaithful(cfg, s, v);
    MoveHandlersFit(s, v);
    assert Kept(cfg, s, s.movers[v].job);
    forall j
      ensures JobOk(cfg, AdvanceMover(s, v), j)
    {
      MoveJobOk(cfg, s, v, j);
    }
  }

  /** A mover that stops leaves the job where it was, or drops it when it had it in its hands. */
  lemma MoverCrashOwn(cfg: Config, s: State, v: nat, j: JobId)
    requires v in s.movers && j == s.movers[v].job && JobOk(cfg, s, j)
    ensures JobOk(cfg, Apply(cfg, s, MoverCrash(v)), j)
  {
    var t := Apply(cfg, s, MoverCrash(v));
    assert HasMover(s, j) && MoverFits(s, j, v);
    assert t.books == s.books && t.handlers == s.handlers && t.stream == s.stream && t.retry == s.retry;
    assert t.announced == s.announced && t.accepted == s.accepted && t.dlq == s.dlq;
    assert !HasMover(t, j);
    forall x
      ensures Holds(t, j, x) <==> Holds(s, j, x) && x != InMover(v)
    {
    }
    assert BeingDeadLettered(t, j) <==> BeingDeadLettered(s, j);
    if s.movers[v].pc == Removed {
      assert Holds(s, j, InMover(v)) && Fits(cfg, s, j, InMover(v));
      assert !SomeHolder(t, j);
    } else {
      assert !Holds(s, j, InMover(v));
      assert SomeHolder(s, j) <==> SomeHolder(t, j);
    }
  }

  lemma MoverCrashOther(cfg: Config, s: State, v: nat, j: JobId)
    requires v in s.movers && j != s.movers[v].job
    ensures SameFor(s, Apply(cfg, s, MoverCrash(v)), j)
  {
    var t := Apply(cfg, s, MoverCrash(v));
    assert t.books == s.books && t.handlers == s.handlers && t.stream == s.stream && t.retry == s.retry;
  }

  lemma MoverCrashOrderly(cfg: Config, s: State, v: nat)
    requires Orderly(cfg, s) && v in s.movers
    ensures Orderly(cfg, Apply(cfg, s, MoverCrash(v)))
  {
    StepKnown(cfg, s, MoverCrash(v));
    StepFaithful(cfg, s, MoverCrash(v));
    assert HandlersFit(Apply(cfg, s, MoverCrash(v)));
    MoverCrashOwn(cfg, s, v, s.movers[v].job);
    forall j | j != s.movers[v].job
      ensures JobOk(cfg, Apply(cfg, s, MoverCrash(v)), j)
    {
      MoverCrashOther(cfg, s, v, j);
      SameJobOk(cfg, s, Apply(cfg, s, MoverCrash(v)), j);
    }
  }

  lemma PushBooksOther(cfg: Config, s: State, a: Action, j: JobId)
    requires Enabled(s, a) && IsPush(a) && a.job != j
    ensures SameBooks(s, Apply(cfg, s, a), j)
  {
  }

  lemma PushMessagesOther(cfg: Config, s: State, a: Action, j: JobId)
    requires HandlersFit(s) && Enabled(s, a) && IsPush(a) && a.job != j
    ensures SameMessages(s, Apply(cfg, s, a), j)
    ensures Apply(cfg, s, a).handlers == s.handlers && Apply(cfg, s, a).movers == s.movers
  {
  }

  lemma PushOther(cfg: Config, s: State, a: Action, j: JobId)
    requires HandlersFit(s) && Enabled(s, a) && IsPush(a) && a.job != j
    ensures SameFor(s, Apply(cfg, s, a), j)
  {
    PushBooksOther(cfg, s, a, j);
    PushMessagesOther(cfg, s, a, j);
  }

  lemma PushOwn(cfg: Config, s: State, a: Action)
    requires IsPush(a) && Known(s) && JobOk(cfg, s, a.job) && Enabled(s, a)
    ensures JobOk(cfg, Apply(cfg, s, a), a.job)
  {
    var t, j := Apply(cfg, s, a), a.job;
    assert t.handlers == s.handlers && t.movers == s.movers && t.retry == s.retry && t.dlq == s.dlq;
    forall x
      ensures Holds(t, j, x) <==> x == InStream(s.nextMsg)
    {
    }
    assert Waits(t, j, InStream(s.nextMsg));
    assert !HasMover(t, j);
    assert StatusOf(s.books, j) == None && !IsTerminal(s, j);
    assert j !in s.dropped;
  }

  lemma PushHandlersFit(cfg: Config, s: State, a: Action)
    requires HandlersFit(s) && Enabled(s, a) && IsPush(a)
    ensures HandlersFit(Apply(cfg, s, a))
  {
    assert Apply(cfg, s, a).handlers == s.handlers;
  }

  lemma PushJobOk(cfg: Config, s: State, a: Action, j: JobId)
    requires Known(s) && HandlersFit(s) && JobOk(cfg, s, j) && Enabled(s, a) && IsPush(a)
    ensures JobOk(cfg, Apply(cfg, s, a), j)
  {
    if j == a.job {
      PushOwn(cfg, s, a);
    } else {
      PushOther(cfg, s, a, j);
      SameJobOk(cfg, s, Apply(cfg, s, a), j);
    }
  }

  lemma PushOrderly(cfg: Config, s: State, a: Action)
    requires Orderly(cfg, s) && Enabled(s, a) && IsPush(a)
    ensures Orderly(cfg, Apply(cfg, s, a))
  {
    StepKnown(cfg, s, a);
    StepFaithful(cfg, s, a);
    PushHandlersFit(cfg, s, a);
    forall j {
      PushJobOk(cfg, s, a, j);
    }
  }

  lemma RegisterOther(cfg: Config, s: State, a: Action, j: JobId)
    requires Enabled(s, a) && ((a.Register? && j != a.job) || (a.WriteHash? && j != a.job) || a.CountQueued?)
    ensures SameFor(s, Apply(cfg, s, a), j)
  {
    var t := Apply(cfg, s, a);
    assert t.handlers == s.handlers && t.movers == s.movers && t.retry == s.retry && t.stream == s.stream;
  }

  lemma RegisterOwn(cfg: Config, s: State, a: Action, j: JobId)
    requires a == Register(j) || a == WriteHash(j)
    requires j in s.announced && JobOk(cfg, s, j) && j in s.accepted
    ensures JobOk(cfg, Apply(cfg, s, a), j)
  {
    var t := Apply(cfg, s, a);
    var x0 :| Waits(s, j, x0);
    assert Fits(cfg, s, j, x0) && Early(cfg, s, j);
    assert t.handlers == s.handlers && t.movers == s.movers && t.retry == s.retry;
    assert t.stream == s.stream && t.dlq == s.dlq && t.accepted == s.accepted && t.dropped == s.dropped;
    forall x
      ensures Holds(t, j, x) <==> x == x0
    {
      assert Holds(s, j, x) ==> x == x0;
      assert Holds(t, j, x) ==> Holds(s, j, x);
    }
    assert Holds(t, j, x0) && Early(cfg, t, j) && Fits(cfg, t, j, x0);
    assert !HasMover(t, j);
    assert BeingDeadLettered(t, j) <==> BeingDeadLettered(s, j);
  }

  lemma RegisterOrderly(cfg: Config, s: State, a: Action)
    requires Orderly(cfg, s) && Enabled(s, a) && (a.Register? || a.WriteHash?)
    ensures Orderly(cfg, Apply(cfg, s, a))
  {
    var t := Apply(cfg, s, a);
    StepKnown(cfg, s, a);
    StepFaithful(cfg, s, a);
    assert t.handlers == s.handlers && t.stream == s.stream && t.nextMsg == s.nextMsg;
    RegisterOwn(cfg, s, a, a.job);
    forall j | j != a.job
      ensures JobOk(cfg, t, j)
    {
      RegisterOther(cfg, s, a, j);
      SameJobOk(cfg, s, t, j);
    }
  }

  /** Counting a hash written before concerns no job's hash. */
  lemma CountOrderly(cfg: Config, s: State, a: Action)
    requires Orderly(cfg, s) && Enabled(s, a) && a.CountQueued?
    ensures Orderly(cfg, Apply(cfg, s, a))
  {
    var t := Apply(cfg, s, a);
    StepKnown(cfg, s, a);
    StepFaithful(cfg, s, a);
    assert t.handlers == s.handlers && t.stream == s.stream && t.nextMsg == s.nextMsg;
    forall j
      ensures JobOk(cfg, t, j)
    {
      RegisterOther(cfg, s, a, j);
      SameJobOk(cfg, s, t, j);
    }
  }

  lemma DeliverOwn(cfg: Config, s: State, h: nat, m: MsgId, j: JobId)
    requires Enabled(s, Deliver(h, m)) && j == s.stream[m].job && JobOk(cfg, s, j)
    ensures JobOk(cfg, Apply(cfg, s, Deliver(h, m)), j)
  {
    var t := Apply(cfg, s, Deliver(h, m));
    assert t.books == s.books && t.movers == s.movers && t.retry == s.retry && t.dlq == s.dlq;
    assert Holds(s, j, InStream(m)) && Fits(cfg, s, j, InStream(m));
    forall x
      ensures Holds(t, j, x) <==> x == InHandler(h)
    {
      assert Holds(s, j, x) ==> x == InStream(m);
      assert Holds(t, j, x) ==> Holds(s, j, x) || x == InHandler(h);
    }
    assert Waits(t, j, InHandler(h)) && Fits(cfg, t, j, InHandler(h));
    forall v | v in t.movers && t.movers[v].job == j
      ensures MoverFits(t, j, v)
    {
      assert MoverFits(s, j, v) && !Holds(s, j, InRetry) && !Holds(s, j, InMover(v));
    }
    assert HasMover(t, j) ==> HasMover(s, j);
    DeliverDeadLetters(cfg, s, h, m, j);
  }

  lemma DeliverDeadLetters(cfg: Config, s: State, h: nat, m: MsgId, j: JobId)
    requires Enabled(s, Deliver(h, m))
    ensures BeingDeadLettered(Apply(cfg, s, Deliver(h, m)), j) <==> BeingDeadLettered(s, j)
  {
    var t := Apply(cfg, s, Deliver(h, m));
    assert forall k | k in s.handlers :: k in t.handlers && t.handlers[k] == s.handlers[k];
  }

  lemma DeliverOther(cfg: Config, s: State, h: nat, m: MsgId, j: JobId)
    requires Enabled(s, Deliver(h, m)) && j != s.stream[m].job
    ensures SameFor(s, Apply(cfg, s, Deliver(h, m)), j)
  {
    var t := Apply(cfg, s, Deliver(h, m));
    assert t.books == s.books && t.movers == s.movers && t.retry == s.retry && t.dlq == s.dlq;
  }

  lemma DeliverHandlersFit(cfg: Config, s: State, h: nat, m: MsgId)
    requires HandlersFit(s) && Enabled(s, Deliver(h, m))
    ensures HandlersFit(Apply(cfg, s, Deliver(h, m)))
  {
  }

  lemma DeliverOrderly(cfg: Config, s: State, h: nat, m: MsgId)
    requires Orderly(cfg, s) && Enabled(s, Deliver(h, m))
    ensures Orderly(cfg, Apply(cfg, s, Deliver(h, m)))
  {
    var t := Apply(cfg, s, Deliver(h, m));
    StepKnown(cfg, s, Deliver(h, m));
    StepFaithful(cfg, s, Deliver(h, m));
    DeliverHandlersFit(cfg, s, h, m);
    DeliverOwn(cfg, s, h, m, s.stream[m].job);
    forall j | j != s.stream[m].job
      ensures JobOk(cfg, t, j)
    {
      DeliverOther(cfg, s, h, m, j);
      SameJobOk(cfg, s, t, j);
    }
  }

  lemma PeekOwn(cfg: Config, s: State, v: nat, j: JobId)
    requires Enabled(s, Peek(v, j)) && Calm(cfg, s, Peek(v, j)) && JobOk(cfg, s, j)
    ensures JobOk(cfg, s.(movers := s.movers[v := Mover(j, Seen)]), j)
  {
    var t := s.(movers := s.movers[v := Mover(j, Seen)]);
    assert Holds(s, j, InRetry) && Fits(cfg, s, j, InRetry);
    forall x
      ensures Holds(t, j, x) <==> x == InRetry
    {
      assert Holds(s, j, x) ==> x == InRetry;
    }
    assert Holds(t, j, InRetry) && MoverFits(t, j, v);
    assert !Waiting(s, j);
    assert BeingDeadLettered(t, j) <==> BeingDeadLettered(s, j);
  }

  lemma PeekOther(s: State, v: nat, job: JobId, j: JobId)
    requires v !in s.movers && j != job
    ensures SameFor(s, s.(movers := s.movers[v := Mover(job, Seen)]), j)
  {
  }

  lemma PeekOrderly(cfg: Config, s: State, v: nat, job: JobId)
    requires Orderly(cfg, s) && Enabled(s, Peek(v, job)) && Calm(cfg, s, Peek(v, job))
    ensures Orderly(cfg, Apply(cfg, s, Peek(v, job)))
  {
    var t := s.(movers := s.movers[v := Mover(job, Seen)]);
    StepKnown(cfg, s, Peek(v, job));
    StepFaithful(cfg, s, Peek(v, job));
    PeekOwn(cfg, s, v, job);
    forall j | j != job
      ensures JobOk(cfg, t, j)
    {
      PeekOther(s, v, job, j);
      SameJobOk(cfg, s, t, j);
    }
  }

  lemma StepOrderly(cfg: Config, s: State, a: Action)
    requires Orderly(cfg, s) && Enabled(s, a) && Calm(cfg, s, a)
    ensures Orderly(cfg, Apply(cfg, s, a))
  {
    match a
    case Submit(_, _) => PushOrderly(cfg, s, a);
    case BarePush(_, _) => PushOrderly(cfg, s, a);
    case Register(_) => RegisterOrderly(cfg, s, a);
    case WriteHash(_) => RegisterOrderly(cfg, s, a);
    case CountQueued(_) => CountOrderly(cfg, s, a);
    case Deliver(h, m) => DeliverOrderly(cfg, s, h, m);
    case Advance(h, ok) => AdvanceOrderly(cfg, s, h, ok);
    case Peek(v, j) => PeekOrderly(cfg, s, v, j);
    case Move(v) => MoveOrderly(cfg, s, v);
    case MoverCrash(v) => MoverCrashOrderly(cfg, s, v);
  }
}
