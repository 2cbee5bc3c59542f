/** Payloads never get mixed up, so a job is fit for grading for good or not at all. */
module QueueFaithful {
  import opened Wrappers
  import opened GradingQueue
  import opened QueueAccounting

  /** The payload the job was pushed with passes the worker's checks. */
  ghost predicate Good(cfg: Config, s: State, j: JobId) {
    j in s.accepted && s.accepted[j] != "" && cfg.valid(s.accepted[j])
  }

  /** Between storing the payload and handing the job over. */
  predicate InProgress(pc: HandlerPc) {
    pc != Received && pc != DeadLettering && pc != Acking
  }

  /** The job's hash holds its payload, and the payload is good. */
  ghost predicate Kept(cfg: Config, s: State, j: JobId) {
    Good(cfg, s, j) && HashOf(s.books, j).payload == s.accepted[j]
  }

  ghost predicate HashFaithful(cfg: Config, s: State, j: JobId) {
    var h := HashOf(s.books, j);
    && j in s.accepted
    && (h.payload == "" || h.payload == s.accepted[j])
    && (h.status.Some? && h.status.value != Queued && h.status.value != Failed ==> Good(cfg, s, j))
  }

  ghost predicate HashesFaithful(cfg: Config, s: State) {
    forall j | j in s.accepted :: HashFaithful(cfg, s, j)
  }

  ghost predicate MessagesFaithful(s: State) {
    forall m | m in s.stream :: s.stream[m].job in s.accepted && s.stream[m].body == s.accepted[s.stream[m].job]
  }

  ghost predicate HandlerFaithful(cfg: Config, s: State, h: Handler) {
    h.job in s.accepted && h.body == s.accepted[h.job] && (InProgress(h.pc) ==> Kept(cfg, s, h.job))
  }

  ghost predicate HandlersFaithful(cfg: Config, s: State) {
    forall h | h in s.handlers :: HandlerFaithful(cfg, s, s.handlers[h])
  }

  ghost predicate RetriesFaithful(cfg: Config, s: State) {
    && (forall j | j in s.retry :: Kept(cfg, s, j))
    && (forall v | v in s.movers :: Kept(cfg, s, s.movers[v].job) && s.movers[v].pc != Refusing)
  }

  ghost predicate Faithful(cfg: Config, s: State) {
    HashesFaithful(cfg, s) && MessagesFaithful(s) && HandlersFaithful(cfg, s) && RetriesFaithful(cfg, s)
  }

  /** The hashes of the accepted jobs are faithful in t, and none of them lost its payload. */
  ghost predicate HashesKept(cfg: Config, s: State, t: State) {
    && (forall j | j in s.accepted :: j in t.accepted && t.accepted[j] == s.accepted[j])
    && (forall j | j in s.accepted :: Kept(cfg, s, j) ==> Kept(cfg, t, j))
    && HashesFaithful(cfg, t)
  }

  lemma RejectedIff(cfg: Config, s: State, h: Handler)
    requires h.job in s.accepted && h.body == s.accepted[h.job] && HashFaithful(cfg, s, h.job)
    ensures Rejected(cfg, s.books, h) <==> !Good(cfg, s, h.job)
  {
  }

  lemma HandlerPayload(cfg: Config, b: Books, h: Handler, j: JobId)
    ensures HashOf(HandlerBooks(cfg, b, h), j).payload
         == if j == h.job && h.pc == Received && !Rejected(cfg, b, h) then Body(b, h) else HashOf(b, j).payload
    ensures StatusOf(HandlerBooks(cfg, b, h), j)
         == if j == h.job && WritesStatus(cfg, b, h) then Some(Written(cfg, b, h)) else StatusOf(b, j)
  {
  }

  /** The status the handler's step writes. */
  function Written(cfg: Config, b: Books, h: Handler): Status {
    match h.pc
    case Stored => Processing
    case Passed => Completed
    case Errored(n) => if n < cfg.maxAttempts then Retrying else Failed
    case _ => Failed
  }

  /** The hashes stay faithful when payloads are only ever written from the accepted ones. */
  lemma AdvanceHashes(cfg: Config, s: State, h: nat, ok: bool, j: JobId)
    requires HashesFaithful(cfg, s) && HandlersFaithful(cfg, s) && h in s.handlers && j in s.accepted
    ensures HashFaithful(cfg, AdvanceHandler(cfg, s, h, ok), j)
    ensures Kept(cfg, s, j) ==> Kept(cfg, AdvanceHandler(cfg, s, h, ok), j)
  {
    var H := s.handlers[h];
    RejectedIff(cfg, s, H);
    HandlerPayload(cfg, s.books, H, j);
    var t := AdvanceHandler(cfg, s, h, ok);
    assert t.accepted == s.accepted && HashFaithful(cfg, s, j);
    assert StatusOf(t.books, j) == HashOf(t.books, j).status && StatusOf(s.books, j) == HashOf(s.books, j).status;
    assert HandlerFaithful(cfg, s, H);
  }

  /** A handler that goes on with a job has stored its good payload. */
  lemma AdvanceOwnKept(cfg: Config, s: State, h: nat, ok: bool)
    requires HashesFaithful(cfg, s) && HandlersFaithful(cfg, s) && h in s.handlers && s.handlers[h].pc == Received
    requires !Rejected(cfg, s.books, s.handlers[h])
    ensures Kept(cfg, AdvanceHandler(cfg, s, h, ok), s.handlers[h].job)
  {
    RejectedIff(cfg, s, s.handlers[h]);
    HandlerPayload(cfg, s.books, s.handlers[h], s.handlers[h].job);
  }

  lemma AdvanceHashesKept(cfg: Config, s: State, h: nat, ok: bool)
    requires HashesFaithful(cfg, s) && HandlersFaithful(cfg, s) && h in s.handlers
    ensures HashesKept(cfg, s, AdvanceHandler(cfg, s, h, ok))
  {
    assert AdvanceHandler(cfg, s, h, ok).accepted == s.accepted;
    forall j | j in s.accepted {
      AdvanceHashes(cfg, s, h, ok, j);
    }
  }

  lemma AdvanceHandlers(cfg: Config, s: State, h: nat, ok: bool)
    requires HashesFaithful(cfg, s) && HandlersFaithful(cfg, s) && h in s.handlers
    requires HashesKept(cfg, s, AdvanceHandler(cfg, s, h, ok))
    ensures HandlersFaithful(cfg, AdvanceHandler(cfg, s, h, ok))
  {
    var t, H := AdvanceHandler(cfg, s, h, ok), s.handlers[h];
    if H.pc == Received && !Rejected(cfg, s.books, H) {
      AdvanceOwnKept(cfg, s, h, ok);
    }
    forall k | k in t.handlers
      ensures HandlerFaithful(cfg, t, t.handlers[k])
    {
      assert HandlerFaithful(cfg, s, s.handlers[k]);
    }
  }

  lemma AdvanceRetries(cfg: Config, s: State, h: nat, ok: bool)
    requires RetriesFaithful(cfg, s) && HandlersFaithful(cfg, s) && h in s.handlers
    requires HashesKept(cfg, s, AdvanceHandler(cfg, s, h, ok))
    ensures RetriesFaithful(cfg, AdvanceHandler(cfg, s, h, ok))
  {
    var t := AdvanceHandler(cfg, s, h, ok);
    assert HandlerFaithful(cfg, s, s.handlers[h]) && t.movers == s.movers;
    assert forall j | j in t.retry :: j in s.retry || (j == s.handlers[h].job && s.handlers[h].pc == Scheduling);
  }

  lemma AdvanceMessages(cfg: Config, s: State, h: nat, ok: bool)
    requires MessagesFaithful(s) && h in s.handlers
    ensures MessagesFaithful(AdvanceHandler(cfg, s, h, ok))
  {
  }

  lemma AdvanceFaithful(cfg: Config, s: State, h: nat, ok: bool)
    requires Faithful(cfg, s) && h in s.handlers
    ensures Faithful(cfg, AdvanceHandler(cfg, s, h, ok))
  {
    AdvanceHashesKept(cfg, s, h, ok);
    AdvanceHandlers(cfg, s, h, ok);
    AdvanceRetries(cfg, s, h, ok);
    AdvanceMessages(cfg, s, h, ok);
  }

  lemma MoveHashes(cfg: Config, s: State, v: nat)
    requires HashesFaithful(cfg, s) && v in s.movers && Kept(cfg, s, s.movers[v].job)
    ensures HashesKept(cfg, s, AdvanceMover(s, v))
  {
    var t := AdvanceMover(s, v);
    assert t.accepted == s.accepted;
    forall j | j in s.accepted
      ensures HashFaithful(cfg, t, j) && (Kept(cfg, s, j) ==> Kept(cfg, t, j))
    {
      assert HashFaithful(cfg, s, j);
      assert HashOf(t.books, j).payload == HashOf(s.books, j).payload;
    }
  }

  lemma MoveMessages(cfg: Config, s: State, v: nat)
    requires MessagesFaithful(s) && v in s.movers && Kept(cfg, s, s.movers[v].job)
    ensures MessagesFaithful(AdvanceMover(s, v)) && AdvanceMover(s, v).handlers == s.handlers
  {
  }

  lemma MoveRetries(cfg: Config, s: State, v: nat)
    requires RetriesFaithful(cfg, s) && v in s.movers && HashesKept(cfg, s, AdvanceMover(s, v))
    ensures RetriesFaithful(cfg, AdvanceMover(s, v))
  {
    var t := AdvanceMover(s, v);
    assert t.retry <= s.retry && t.movers.Keys <= s.movers.Keys;
    assert forall w | w in t.movers :: t.movers[w].job == s.movers[w].job;
    assert Kept(cfg, s, s.movers[v].job);
  }

  lemma MoveFaithful(cfg: Config, s: State, v: nat)
    requires Faithful(cfg, s) && v in s.movers
    ensures Faithful(cfg, AdvanceMover(s, v))
  {
    MoveHashes(cfg, s, v);
    MoveMessages(cfg, s, v);
    MoveRetries(cfg, s, v);
    forall h | h in s.handlers
      ensures HandlerFaithful(cfg, AdvanceMover(s, v), s.handlers[h])
    {
      assert HandlerFaithful(cfg, s, s.handlers[h]);
    }
  }

  /** A step that keeps the hashes and leaves messages, handlers, movers and retry entries alone. */
  lemma KeepsFaithful(cfg: Config, s: State, t: State)
    requires Faithful(cfg, s) && HashesKept(cfg, s, t) && MessagesFaithful(t)
    requires t.handlers == s.handlers && t.movers == s.movers && t.retry == s.retry
    ensures Faithful(cfg, t)
  {
    forall h | h in t.handlers
      ensures HandlerFaithful(cfg, t, t.handlers[h])
    {
      assert HandlerFaithful(cfg, s, s.handlers[h]);
    }
  }

  /** A producer's hash holds the payload the job was pushed with, whether it is counted or not. */
  lemma RegisterFaithful(cfg: Config, s: State, a: Action)
    requires Faithful(cfg, s) && Enabled(s, a) && (a.Register? || a.WriteHash?)
    ensures Faithful(cfg, Apply(cfg, s, a))
  {
    var t, job := Apply(cfg, s, a), a.job;
    assert t.accepted == s.accepted && t.stream == s.stream;
    forall j | j in s.accepted
      ensures HashFaithful(cfg, t, j) && (Kept(cfg, s, j) ==> Kept(cfg, t, j))
    {
      assert HashFaithful(cfg, s, j);
      assert j != job ==> HashOf(t.books, j) == HashOf(s.books, j);
    }
    KeepsFaithful(cfg, s, t);
  }

  lemma PushFaithful(cfg: Config, s: State, a: Action)
    requires Known(s) && Faithful(cfg, s) && Enabled(s, a) && IsPush(a)
    ensures Faithful(cfg, Apply(cfg, s, a))
  {
    var t := Apply(cfg, s, a);
    assert HashOf(s.books, a.job) == Hash(None, 0, "");
    assert HashFaithful(cfg, t, a.job);
    forall j | j in s.accepted
      ensures HashFaithful(cfg, t, j) && (Kept(cfg, s, j) ==> Kept(cfg, t, j))
    {
      assert HashFaithful(cfg, s, j);
      assert HashOf(t.books, j) == HashOf(s.books, j) && t.accepted[j] == s.accepted[j];
    }
    assert forall j | j in t.accepted :: j in s.accepted || j == a.job;
    KeepsFaithful(cfg, s, t);
  }

  lemma HandOverFaithful(cfg: Config, s: State, a: Action)
    requires Faithful(cfg, s) && Enabled(s, a) && PassesOn(a)
    ensures Faithful(cfg, Apply(cfg, s, a))
  {
    var t := Apply(cfg, s, a);
    assert t.books == s.books && t.accepted == s.accepted;
    forall j
      ensures HashFaithful(cfg, t, j) <==> HashFaithful(cfg, s, j)
      ensures Kept(cfg, t, j) <==> Kept(cfg, s, j)
    {
    }
    forall h | h in t.handlers
      ensures HandlerFaithful(cfg, t, t.handlers[h])
    {
      assert h in s.handlers ==> HandlerFaithful(cfg, s, s.handlers[h]);
    }
  }

  lemma CountFaithful(cfg: Config, s: State, a: Action)
    requires Faithful(cfg, s) && Enabled(s, a) && a.CountQueued?
    ensures Faithful(cfg, Apply(cfg, s, a))
  {
    var t := Apply(cfg, s, a);
    forall j | j in s.accepted
      ensures HashFaithful(cfg, t, j) && (Kept(cfg, s, j) ==> Kept(cfg, t, j))
    {
      assert HashFaithful(cfg, s, j) && HashOf(t.books, j) == HashOf(s.books, j);
    }
    KeepsFaithful(cfg, s, t);
  }

  lemma StepFaithful(cfg: Config, s: State, a: Action)
    requires Known(s) && Faithful(cfg, s) && Enabled(s, a)
    ensures Faithful(cfg, Apply(cfg, s, a))
  {
    match a
    case Submit(_, _) => PushFaithful(cfg, s, a);
    case BarePush(_, _) => PushFaithful(cfg, s, a);
    case Register(_) => RegisterFaithful(cfg, s, a);
    case WriteHash(_) => RegisterFaithful(cfg, s, a);
    case CountQueued(_) => CountFaithful(cfg, s, a);
    case Advance(h, ok) => AdvanceFaithful(cfg, s, h, ok);
    case Move(v) => MoveFaithful(cfg, s, v);
    case _ => HandOverFaithful(cfg, s, a);
  }

  /**
   * Over every run a job's messages, handlers and hash carry the payload it was pushed with, and only a job
   * whose payload passes the checks is ever processed, completed or retried.
   */
  lemma {:induction false} RunFaithful(cfg: Config, run: seq<Action>)
    requires IsRun(cfg, run)
    ensures Faithful(cfg, After(cfg, run))
    decreases |run|
  {
    if run != [] {
      RunFaithful(cfg, run[..|run| - 1]);
      RunKnown(cfg, run[..|run| - 1]);
      StepFaithful(cfg, After(cfg, run[..|run| - 1]), run[|run| - 1]);
    }
  }
}
