/**
 * The grading queue when handlers survive: no handler dies, no message is reclaimed, one mover at a time
 * takes a job from the retry set and off it, and a handler changes a job's status only after the producer or mover
 * that appended the message has written its own. Messages may be delivered the moment they are appended,
 * movers may die, and retry entries may fail to be written.
 */
module QueueCalm {
  import opened Wrappers
  import opened GradingQueue
  import opened QueueAccounting
  import opened QueueFaithful

  ghost predicate HasMover(s: State, j: JobId) {
    exists v :: v in s.movers && s.movers[v].job == j
  }

  ghost predicate BeingAdded(s: State, j: JobId) {
    exists v :: v in s.movers && s.movers[v] == Mover(j, Added)
  }

  /** The handler's next step is its first change of the job's status. */
  predicate FirstWrite(cfg: Config, b: Books, h: Handler) {
    h.pc == Stored || (h.pc == Received && Rejected(cfg, b, h))
  }

  ghost predicate Calm(cfg: Config, s: State, a: Action) {
    match a
    case Advance(h, _) =>
      h in s.handlers && FirstWrite(cfg, s.books, s.handlers[h]) ==>
        s.handlers[h].job !in s.announced && !BeingAdded(s, s.handlers[h].job)
    case Peek(_, j) => !HasMover(s, j)
    case Reclaim(_, _) => false
    case Crash(_) => false
    case FailRemove(_) => false
    case _ => true
  }

  ghost predicate IsCalmRun(cfg: Config, run: seq<Action>)
    requires IsRun(cfg, run)
    decreases |run|
  {
    run == [] || (IsCalmRun(cfg, run[..|run| - 1]) && Calm(cfg, After(cfg, run[..|run| - 1]), run[|run| - 1]))
  }

  /** The one place that will bring the job forward. */
  datatype Holder = InStream(m: MsgId) | InHandler(h: nat) | InRetry | InMover(v: nat)

  ghost predicate Holds(s: State, j: JobId, x: Holder) {
    match x
    case InStream(m) => m in s.stream && s.stream[m].job == j && !s.stream[m].delivered
    case InHandler(h) => h in s.handlers && s.handlers[h].job == j && s.handlers[h].pc != Acking
    case InRetry => j in s.retry
    case InMover(v) => v in s.movers && s.movers[v] == Mover(j, Removed)
  }

  /** The job has not been taken up since it was last put on the stream. */
  ghost predicate Early(cfg: Config, s: State, j: JobId) {
    var st, tried := StatusOf(s.books, j), HashOf(s.books, j).attempts;
    && tried < Limit(cfg)
    && st in {None, Some(Queued), Some(Retrying)}
    && (j in s.announced ==> st == None && tried == 0)
  }

  /** The hash of a job in a handler's hands agrees with how far the handler is. */
  ghost predicate FitsPc(cfg: Config, s: State, j: JobId, pc: HandlerPc) {
    var st, tried := StatusOf(s.books, j), HashOf(s.books, j).attempts;
    match pc
    case Received => Early(cfg, s, j)
    case Stored => Early(cfg, s, j)
    case Marked => st == Some(Processing) && tried < Limit(cfg)
    case Grading(n) => st == Some(Processing) && n == tried
    case Passed => st == Some(Processing)
    case Errored(n) => st == Some(Processing) && n == tried
    case Scheduling => st == Some(Retrying) && tried < Limit(cfg)
    case DeadLettering => st == Some(Failed)
    case Acking => true
  }

  /** The job's hash agrees with where the job is. */
  ghost predicate Fits(cfg: Config, s: State, j: JobId, x: Holder) {
    match x
    case InStream(m) => Early(cfg, s, j)
    case InHandler(h) =>
      h in s.handlers ==> FitsPc(cfg, s, j, s.handlers[h].pc)
    case _ => StatusOf(s.books, j) == Some(Retrying) && HashOf(s.books, j).attempts < Limit(cfg)
  }

  ghost predicate OneHolder(s: State, j: JobId) {
    forall x, y :: Holds(s, j, x) && Holds(s, j, y) ==> x == y
  }

  ghost predicate SomeHolder(s: State, j: JobId) {
    exists x :: Holds(s, j, x)
  }

  ghost predicate BeingDeadLettered(s: State, j: JobId) {
    exists h :: h in s.handlers && s.handlers[h].job == j && s.handlers[h].pc == DeadLettering
  }

  /** The job is on the stream, or with a handler that has not changed its status yet. */
  ghost predicate Waits(s: State, j: JobId, x: Holder) {
    Holds(s, j, x) && (x.InStream? || (x.InHandler? && s.handlers[x.h].pc in {Received, Stored}))
  }

  ghost predicate Waiting(s: State, j: JobId) {
    exists x :: Waits(s, j, x)
  }

  ghost predicate MoverFits(s: State, j: JobId, v: nat)
    requires v in s.movers
  {
    match s.movers[v].pc
    case Seen => Holds(s, j, InRetry)
    case Removed => true
    case Added => Waiting(s, j)
    case Refusing => false
  }

  ghost predicate MoversFit(s: State, j: JobId) {
    && (forall v, w | v in s.movers && w in s.movers && s.movers[v].job == j && s.movers[w].job == j :: v == w)
    && (forall v | v in s.movers && s.movers[v].job == j :: MoverFits(s, j, v))
  }

  /** The history agrees with the present: settled jobs are terminal, dropped ones are nowhere. */
  ghost predicate HistoryFits(s: State, j: JobId) {
    && (j in s.books.settled <==> IsTerminal(s, j))
    && (j in s.dropped ==> !SomeHolder(s, j) && StatusOf(s.books, j) == Some(Retrying))
    && (j in s.accepted ==> SomeHolder(s, j) || IsTerminal(s, j) || j in s.dropped)
  }

  ghost predicate DeadLettersFit(s: State, j: JobId) {
    multiset(s.dlq)[j] == if StatusOf(s.books, j) == Some(Failed) && !BeingDeadLettered(s, j) then 1 else 0
  }

  ghost predicate JobOk(cfg: Config, s: State, j: JobId) {
    && OneHolder(s, j)
    && (forall x | Holds(s, j, x) :: Fits(cfg, s, j, x))
    && (j in s.announced ==> !HasMover(s, j) && Waiting(s, j))
    && MoversFit(s, j)
    && HashOf(s.books, j).attempts <= Limit(cfg)
    && HistoryFits(s, j)
    && DeadLettersFit(s, j)
  }

  /** Every handler works on a delivered message of its own. */
  ghost predicate HandlersFit(s: State) {
    && (forall m | m in s.stream :: m < s.nextMsg)
    && (forall h | h in s.handlers :: s.handlers[h].msg in s.stream
          && s.stream[s.handlers[h].msg].delivered && s.stream[s.handlers[h].msg].job == s.handlers[h].job)
    && (forall h, k | h in s.handlers && k in s.handlers && s.handlers[h].msg == s.handlers[k].msg :: h == k)
  }

  ghost predicate Orderly(cfg: Config, s: State) {
    Known(s) && Faithful(cfg, s) && HandlersFit(s) && forall j :: JobOk(cfg, s, j)
  }

  /** The books and histories say the same about the job. */
  ghost predicate SameBooks(s: State, t: State, j: JobId) {
    && HashOf(s.books, j) == HashOf(t.books, j)
    && StatusOf(s.books, j) == StatusOf(t.books, j)
    && (j in s.books.settled <==> j in t.books.settled)
    && (j in s.accepted <==> j in t.accepted)
    && (j in s.announced <==> j in t.announced)
    && (j in s.dropped <==> j in t.dropped)
    && multiset(s.dlq)[j] == multiset(t.dlq)[j]
  }

  ghost predicate SameMovers(s: State, t: State, j: JobId) {
    && (forall v :: v in s.movers && s.movers[v].job == j <==> v in t.movers && t.movers[v].job == j)
    && (forall v | v in s.movers && s.movers[v].job == j :: t.movers[v] == s.movers[v])
  }

  ghost predicate SameHandlers(s: State, t: State, j: JobId) {
    && (forall h :: Holds(s, j, InHandler(h)) <==> Holds(t, j, InHandler(h)))
    && (forall h | Holds(s, j, InHandler(h)) :: t.handlers[h] == s.handlers[h])
  }

  ghost predicate SameMessages(s: State, t: State, j: JobId) {
    && (j in s.retry <==> j in t.retry)
    && (forall m :: Holds(s, j, InStream(m)) <==> Holds(t, j, InStream(m)))
  }

  /** Nothing about the job differs between the two states. */
  ghost predicate SameFor(s: State, t: State, j: JobId) {
    SameBooks(s, t, j) && SameMovers(s, t, j) && SameHandlers(s, t, j) && SameMessages(s, t, j)
  }

  lemma SameHolders(s: State, t: State, j: JobId, x: Holder)
    requires SameMovers(s, t, j) && SameHandlers(s, t, j) && SameMessages(s, t, j)
    ensures Holds(s, j, x) <==> Holds(t, j, x)
    ensures Waits(s, j, x) <==> Waits(t, j, x)
  {
    match x
    case InStream(m) =>
    case InHandler(h) => assert Holds(s, j, InHandler(h)) <==> Holds(t, j, InHandler(h));
    case InRetry =>
    case InMover(v) =>
  }

  lemma SameMoversFit(s: State, t: State, j: JobId)
    requires MoversFit(s, j) && SameMovers(s, t, j)
    requires forall x :: Holds(s, j, x) <==> Holds(t, j, x)
    requires Waiting(s, j) <==> Waiting(t, j)
    ensures MoversFit(t, j) && (HasMover(t, j) ==> HasMover(s, j))
  {
    forall v | v in t.movers && t.movers[v].job == j
      ensures MoverFits(t, j, v)
    {
      assert MoverFits(s, j, v);
    }
  }

  lemma SameDeadLetters(s: State, t: State, j: JobId)
    requires DeadLettersFit(s, j) && SameBooks(s, t, j) && SameHandlers(s, t, j)
    ensures DeadLettersFit(t, j)
  {
    if BeingDeadLettered(s, j) {
      var h :| h in s.handlers && s.handlers[h].job == j && s.handlers[h].pc == DeadLettering;
      assert Holds(s, j, InHandler(h));
    }
    if BeingDeadLettered(t, j) {
      var h :| h in t.handlers && t.handlers[h].job == j && t.handlers[h].pc == DeadLettering;
      assert Holds(t, j, InHandler(h));
    }
  }

  lemma SameJobOk(cfg: Config, s: State, t: State, j: JobId)
    requires JobOk(cfg, s, j) && SameFor(s, t, j)
    ensures JobOk(cfg, t, j)
  {
    forall x
      ensures Holds(s, j, x) <==> Holds(t, j, x)
      ensures Waits(s, j, x) <==> Waits(t, j, x)
    {
      SameHolders(s, t, j, x);
    }
    forall x | Holds(t, j, x)
      ensures Fits(cfg, t, j, x)
    {
      assert Fits(cfg, s, j, x);
    }
    SameMoversFit(s, t, j);
    SameDeadLetters(s, t, j);
    assert SomeHolder(s, j) <==> SomeHolder(t, j);
  }

  lemma HandlerBooksOther(cfg: Config, b: Books, h: Handler, j: JobId)
    requires h.job != j
    ensures HashOf(HandlerBooks(cfg, b, h), j) == HashOf(b, j)
    ensures StatusOf(HandlerBooks(cfg, b, h), j) == StatusOf(b, j)
    ensures j in HandlerBooks(cfg, b, h).settled <==> j in b.settled
  {
  }

  lemma AdvanceBooksOther(cfg: Config, s: State, h: nat, ok: bool, j: JobId)
    requires h in s.handlers && s.handlers[h].job != j
    ensures SameBooks(s, AdvanceHandler(cfg, s, h, ok), j)
  {
    HandlerBooksOther(cfg, s.books, s.handlers[h], j);
  }

  lemma AdvanceHandsOther(cfg: Config, s: State, h: nat, ok: bool, j: JobId)
    requires HandlersFit(s) && h in s.handlers && s.handlers[h].job != j
    ensures var t := AdvanceHandler(cfg, s, h, ok);
            SameMovers(s, t, j) && SameHandlers(s, t, j) && SameMessages(s, t, j)
  {
    var t := AdvanceHandler(cfg, s, h, ok);
    assert t.movers == s.movers;
  }

  lemma AdvanceOther(cfg: Config, s: State, h: nat, ok: bool, j: JobId)
    requires HandlersFit(s) && h in s.handlers && s.handlers[h].job != j
    ensures SameFor(s, AdvanceHandler(cfg, s, h, ok), j)
  {
    AdvanceBooksOther(cfg, s, h, ok, j);
    AdvanceHandsOther(cfg, s, h, ok, j);
  }

  lemma AckOwn(cfg: Config, s: State, h: nat, ok: bool)
    requires HandlersFit(s) && h in s.handlers && s.handlers[h].pc == Acking
    ensures SameFor(s, AdvanceHandler(cfg, s, h, ok), s.handlers[h].job)
  {
    var t := AdvanceHandler(cfg, s, h, ok);
    assert t.books == s.books && t.movers == s.movers && t.retry == s.retry && t.dlq == s.dlq;
  }

  /** A job in a handler's hands is nowhere else. */
  lemma OnlyInHandler(cfg: Config, s: State, h: nat, j: JobId)
    requires JobOk(cfg, s, j) && Holds(s, j, InHandler(h))
    ensures forall x :: Holds(s, j, x) ==> x == InHandler(h)
    ensures Fits(cfg, s, j, InHandler(h))
    ensures j !in s.retry && j !in s.dropped
    ensures s.handlers[h].pc !in {Received, Stored} ==> !HasMover(s, j) && j !in s.announced
    ensures forall v | v in s.movers && s.movers[v].job == j :: s.movers[v].pc == Added
  {
    assert !Holds(s, j, InRetry);
    if s.handlers[h].pc !in {Received, Stored} {
      assert !Waiting(s, j);
    }
    forall v | v in s.movers && s.movers[v].job == j
      ensures s.movers[v].pc == Added
    {
      assert MoverFits(s, j, v) && !Holds(s, j, InMover(v));
    }
  }

  /** Where the job is once its handler has taken the step; nowhere, when the step finished or dropped it. */
  ghost function AfterStep(h: nat, pc: HandlerPc, ok: bool): Option<Holder> {
    match pc
    case Scheduling => if ok then Some(InRetry) else None
    case Passed => None
    case DeadLettering => None
    case _ => Some(InHandler(h))
  }

  lemma HoldersAfter(cfg: Config, s: State, h: nat, ok: bool, j: JobId, x: Holder)
    requires HandlersFit(s) && h in s.handlers && s.handlers[h].pc != Acking && s.handlers[h].job == j
    requires forall y :: Holds(s, j, y) ==> y == InHandler(h)
    requires forall v | v in s.movers && s.movers[v].job == j :: s.movers[v].pc == Added
    ensures Holds(AdvanceHandler(cfg, s, h, ok), j, x) <==> AfterStep(h, s.handlers[h].pc, ok) == Some(x)
  {
    assert !Holds(s, j, InRetry);
    assert Holds(s, j, x) ==> x == InHandler(h);
  }

  /** Before its first status change a job may still be announced, or have a mover about to mark it. */
  lemma StoreOwn(cfg: Config, s: State, h: nat, ok: bool, j: JobId)
    requires HandlersFit(s) && h in s.handlers && s.handlers[h].pc == Received && j == s.handlers[h].job
    requires JobOk(cfg, s, j) && !Rejected(cfg, s.books, s.handlers[h])
    ensures JobOk(cfg, AdvanceHandler(cfg, s, h, ok), j)
  {
    var t := AdvanceHandler(cfg, s, h, ok);
    assert Holds(s, j, InHandler(h));
    OnlyInHandler(cfg, s, h, j);
    forall x ensures Holds(t, j, x) <==> x == InHandler(h) {
      HoldersAfter(cfg, s, h, ok, j, x);
    }
    assert t.movers == s.movers && t.announced == s.announced && t.dropped == s.dropped && t.dlq == s.dlq;
    assert Holds(t, j, InHandler(h)) && Waits(t, j, InHandler(h));
    assert StatusOf(t.books, j) == StatusOf(s.books, j);
    assert Fits(cfg, t, j, InHandler(h));
    forall v | v in t.movers && t.movers[v].job == j ensures MoverFits(t, j, v) {
      assert MoverFits(s, j, v);
    }
  }

  /** A later step of a handler, when nobody else is concerned with the job. */
  lemma LaterFits(cfg: Config, s: State, h: nat, ok: bool, j: JobId)
    requires h in s.handlers && s.handlers[h].pc != Acking && j == s.handlers[h].job
    requires s.handlers[h].pc != Received || Rejected(cfg, s.books, s.handlers[h])
    requires FitsPc(cfg, s, j, s.handlers[h].pc)
    requires HashOf(s.books, j).attempts <= Limit(cfg)
    ensures var t := AdvanceHandler(cfg, s, h, ok);
            && HashOf(t.books, j).attempts <= Limit(cfg)
            && ((j in s.books.settled <==> IsTerminal(s, j)) ==> (j in t.books.settled <==> IsTerminal(t, j)))
            && match AfterStep(h, s.handlers[h].pc, ok)
               case None =>
                 IsTerminal(t, j) || (s.handlers[h].pc == Scheduling && StatusOf(t.books, j) == Some(Retrying))
               case Some(x) => j !in t.announced ==> Fits(cfg, t, j, x)
  {
  }

  lemma LaterDeadLetters(cfg: Config, s: State, h: nat, ok: bool, j: JobId)
    requires h in s.handlers && s.handlers[h].pc != Acking && j == s.handlers[h].job
    requires FitsPc(cfg, s, j, s.handlers[h].pc) && DeadLettersFit(s, j)
    requires forall y :: Holds(s, j, y) ==> y == InHandler(h)
    ensures DeadLettersFit(AdvanceHandler(cfg, s, h, ok), j)
  {
    var t := AdvanceHandler(cfg, s, h, ok);
    forall k | k != h
      ensures !(k in t.handlers && t.handlers[k].job == j && t.handlers[k].pc == DeadLettering)
      ensures !(k in s.handlers && s.handlers[k].job == j && s.handlers[k].pc == DeadLettering)
    {
      assert !Holds(s, j, InHandler(k));
    }
    assert BeingDeadLettered(s, j) <==> s.handlers[h].pc == DeadLettering;
    assert BeingDeadLettered(t, j) <==> t.handlers[h].pc == DeadLettering;
    assert multiset(t.dlq)[j] == multiset(s.dlq)[j] + One(s.handlers[h].pc == DeadLettering);
  }

  lemma LaterOwn(cfg: Config, s: State, h: nat, ok: bool, j: JobId)
    requires HandlersFit(s) && h in s.handlers && s.handlers[h].pc != Acking && j == s.handlers[h].job
    requires s.handlers[h].pc != Received || Rejected(cfg, s.books, s.handlers[h])
    requires JobOk(cfg, s, j) && j !in s.announced && !BeingAdded(s, j)
    ensures JobOk(cfg, AdvanceHandler(cfg, s, h, ok), j)
  {
    var t, pc := AdvanceHandler(cfg, s, h, ok), s.handlers[h].pc;
    assert Holds(s, j, InHandler(h));
    OnlyInHandler(cfg, s, h, j);
    forall x ensures Holds(t, j, x) <==> AfterStep(h, pc, ok) == Some(x) {
      HoldersAfter(cfg, s, h, ok, j, x);
    }
    assert t.movers == s.movers && t.announced == s.announced && !HasMover(t, j);
    LaterFits(cfg, s, h, ok, j);
    LaterDeadLetters(cfg, s, h, ok, j);
    assert j in t.dropped <==> pc == Scheduling && !ok;
    LaterHistory(cfg, s, h, ok, j);
  }

  lemma LaterHistory(cfg: Config, s: State, h: nat, ok: bool, j: JobId)
    requires h in s.handlers && s.handlers[h].pc != Acking && j == s.handlers[h].job
    requires s.handlers[h].pc != Received || Rejected(cfg, s.books, s.handlers[h])
    requires FitsPc(cfg, s, j, s.handlers[h].pc)
    requires HashOf(s.books, j).attempts <= Limit(cfg)
    requires HistoryFits(s, j) && Holds(s, j, InHandler(h)) && j !in s.dropped
    requires forall x :: Holds(AdvanceHandler(cfg, s, h, ok), j, x) <==> AfterStep(h, s.handlers[h].pc, ok) == Some(x)
    ensures HistoryFits(AdvanceHandler(cfg, s, h, ok), j)
  {
    var t, pc := AdvanceHandler(cfg, s, h, ok), s.handlers[h].pc;
    LaterFits(cfg, s, h, ok, j);
    assert j in t.dropped <==> pc == Scheduling && !ok;
    if AfterStep(h, pc, ok).Some? {
      assert Holds(t, j, AfterStep(h, pc, ok).value);
    }
  }

  /** A handler's own job moves along with it. */
  lemma AdvanceOwn(cfg: Config, s: State, h: nat, ok: bool, j: JobId)
    requires HandlersFit(s) && h in s.handlers && s.handlers[h].pc != Acking
    requires j == s.handlers[h].job && JobOk(cfg, s, j) && Calm(cfg, s, Advance(h, ok))
    ensures JobOk(cfg, AdvanceHandler(cfg, s, h, ok), j)
  {
    assert Holds(s, j, InHandler(h));
    if s.handlers[h].pc == Received && !Rejected(cfg, s.books, s.handlers[h]) {
      StoreOwn(cfg, s, h, ok, j);
    } else {
      OnlyInHandler(cfg, s, h, j);
      LaterOwn(cfg, s, h, ok, j);
    }
  }

  lemma AdvanceHandlersFit(cfg: Config, s: State, h: nat, ok: bool)
    requires HandlersFit(s) && h in s.handlers
    ensures HandlersFit(AdvanceHandler(cfg, s, h, ok))
  {
  }

  lemma AdvanceOrderly(cfg: Config, s: State, h: nat, ok: bool)
    requires Orderly(cfg, s) && h in s.handlers && Calm(cfg, s, Advance(h, ok))
    ensures Orderly(cfg, AdvanceHandler(cfg, s, h, ok))
  {
    var t, own := AdvanceHandler(cfg, s, h, ok), s.handlers[h].job;
    AdvanceKnown(cfg, s, h, ok);
    AdvanceFaithful(cfg, s, h, ok);
    AdvanceHandlersFit(cfg, s, h, ok);
    forall j
      ensures JobOk(cfg, t, j)
    {
      if j != own {
        AdvanceOther(cfg, s, h, ok, j);
        SameJobOk(cfg, s, t, j);
      } else if s.handlers[h].pc == Acking {
        AckOwn(cfg, s, h, ok);
        SameJobOk(cfg, s, t, j);
      } else {
        AdvanceOwn(cfg, s, h, ok, j);
      }
    }
  }
}
