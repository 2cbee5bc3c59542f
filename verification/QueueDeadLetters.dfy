/** What the dead-letter stream holds, over every run of the grading queue. */
module QueueDeadLetters {
  import opened Wrappers
  import opened GradingQueue
  import opened QueueAccounting
  import opened QueueFaithful
  import opened QueueDelivery
  import opened QueueAttempts

  /** A handler marks the job as failed for good: its payload is rejected, or its attempts are used up. */
  predicate FailsFor(cfg: Config, b: Books, h: Handler, j: JobId) {
    h.job == j && WritesStatus(cfg, b, h) && Written(cfg, b, h) == Failed
  }

  predicate Fails(cfg: Config, s: State, a: Action, j: JobId) {
    a.Advance? && a.h in s.handlers && FailsFor(cfg, s.books, s.handlers[a.h], j)
  }

  /** A handler dies before it appends the dead letter of the job it has marked as failed. */
  predicate LosesLetter(s: State, a: Action, j: JobId) {
    a.Crash? && a.h in s.handlers && s.handlers[a.h].job == j && s.handlers[a.h].pc == DeadLettering
  }

  /** How often the job was marked as failed. */
  ghost function Failures(cfg: Config, run: seq<Action>, j: JobId): nat
    requires IsRun(cfg, run)
    decreases |run|
  {
    if run == [] then 0
    else Failures(cfg, run[..|run| - 1], j) + One(Fails(cfg, After(cfg, run[..|run| - 1]), run[|run| - 1], j))
  }

  ghost function LostLetters(cfg: Config, run: seq<Action>, j: JobId): nat
    requires IsRun(cfg, run)
    decreases |run|
  {
    if run == [] then 0
    else LostLetters(cfg, run[..|run| - 1], j) + One(LosesLetter(After(cfg, run[..|run| - 1]), run[|run| - 1], j))
  }

  ghost function LetterHandlers(s: State, j: JobId): set<nat> {
    set h | h in s.handlers && s.handlers[h].job == j && s.handlers[h].pc == DeadLettering
  }

  /** The dead letters of the job, written or about to be. */
  ghost function Letters(s: State, j: JobId): int {
    multiset(s.dlq)[j] + |LetterHandlers(s, j)|
  }

  lemma AdvanceLetterHandlers(cfg: Config, s: State, h: nat, ok: bool, j: JobId)
    requires h in s.handlers
    ensures LetterHandlers(AdvanceHandler(cfg, s, h, ok), j)
         == if FailsFor(cfg, s.books, s.handlers[h], j) then LetterHandlers(s, j) + {h}
            else LetterHandlers(s, j) - {h}
  {
    var t, H := AdvanceHandler(cfg, s, h, ok), s.handlers[h];
    assert forall k | k != h :: k in t.handlers <==> k in s.handlers;
    assert forall k | k in t.handlers && k != h :: t.handlers[k] == s.handlers[k];
    assert h in t.handlers ==> t.handlers[h] == H.(pc := NextPc(cfg, s.books, H, ok));
  }

  lemma AdvanceLetters(cfg: Config, s: State, h: nat, ok: bool, j: JobId)
    requires h in s.handlers
    ensures Letters(AdvanceHandler(cfg, s, h, ok), j) == Letters(s, j) + One(Fails(cfg, s, Advance(h, ok), j))
  {
    var t, H := AdvanceHandler(cfg, s, h, ok), s.handlers[h];
    AdvanceLetterHandlers(cfg, s, h, ok, j);
    With(LetterHandlers(s, j), LetterHandlers(t, j), h, FailsFor(cfg, s.books, H, j));
    assert t.dlq == if H.pc == DeadLettering then s.dlq + [H.job] else s.dlq;
  }

  lemma CrashLetters(cfg: Config, s: State, h: nat, j: JobId)
    requires h in s.handlers
    ensures Letters(Apply(cfg, s, Crash(h)), j) == Letters(s, j) - One(LosesLetter(s, Crash(h), j))
  {
    Without(LetterHandlers(s, j), LetterHandlers(Apply(cfg, s, Crash(h)), j), h);
  }

  lemma OtherLetters(cfg: Config, s: State, a: Action, j: JobId)
    requires Enabled(s, a) && RetriesFaithful(cfg, s) && !a.Advance? && !a.Crash?
    ensures Letters(Apply(cfg, s, a), j) == Letters(s, j)
  {
    OtherHandlers(cfg, s, a);
    assert LetterHandlers(Apply(cfg, s, a), j) == LetterHandlers(s, j);
    OtherDlq(cfg, s, a);
  }

  /** A mover never finds a payload missing, so it never refuses a job. */
  lemma OtherDlq(cfg: Config, s: State, a: Action)
    requires Enabled(s, a) && RetriesFaithful(cfg, s) && !a.Advance? && !a.Crash?
    ensures Apply(cfg, s, a).dlq == s.dlq
  {
    match a
    case Move(v) => assert s.movers[v].pc != Refusing;
    case _ =>
  }

  lemma StepLetters(cfg: Config, s: State, a: Action, j: JobId)
    requires Enabled(s, a) && RetriesFaithful(cfg, s)
    ensures Letters(Apply(cfg, s, a), j) + One(LosesLetter(s, a, j)) == Letters(s, j) + One(Fails(cfg, s, a, j))
  {
    match a
    case Advance(h, ok) => AdvanceLetters(cfg, s, h, ok, j);
    case Crash(h) => CrashLetters(cfg, s, h, j);
    case _ => OtherLetters(cfg, s, a, j);
  }

  /**
   * Conservation over every run: each time a job is marked as failed for good it gets a dead letter, or a
   * handler still holds the letter, or the handler died with it.
   */
  lemma {:induction false} LettersConserved(cfg: Config, run: seq<Action>, j: JobId)
    requires IsRun(cfg, run)
    ensures Failures(cfg, run, j)
         == multiset(After(cfg, run).dlq)[j] + |LetterHandlers(After(cfg, run), j)| + LostLetters(cfg, run, j)
    decreases |run|
  {
    if run == [] {
      assert LetterHandlers(Initial, j) == {};
    } else {
      LettersConserved(cfg, run[..|run| - 1], j);
      RunFaithful(cfg, run[..|run| - 1]);
      StepLetters(cfg, After(cfg, run[..|run| - 1]), run[|run| - 1], j);
    }
  }

  lemma StepFailed(cfg: Config, s: State, a: Action, j: JobId)
    requires Enabled(s, a) && RetriesFaithful(cfg, s) && !Fails(cfg, s, a, j)
    ensures StatusOf(Apply(cfg, s, a).books, j) == Some(Failed) ==> StatusOf(s.books, j) == Some(Failed)
  {
    match a
    case Advance(h, ok) => HandlerPayload(cfg, s.books, s.handlers[h], j);
    case Move(v) => assert Kept(cfg, s, s.movers[v].job);
    case _ =>
  }

  lemma {:induction false} FailedWasMarked(cfg: Config, run: seq<Action>, j: JobId)
    requires IsRun(cfg, run) && StatusOf(After(cfg, run).books, j) == Some(Failed)
    ensures Failures(cfg, run, j) > 0
    decreases |run|
  {
    if run != [] && !Fails(cfg, After(cfg, run[..|run| - 1]), run[|run| - 1], j) {
      RunFaithful(cfg, run[..|run| - 1]);
      StepFailed(cfg, After(cfg, run[..|run| - 1]), run[|run| - 1], j);
      FailedWasMarked(cfg, run[..|run| - 1], j);
    }
  }

  /**
   * Over every run, a failed job that nothing refers to is missing from the dead-letter stream if and only
   * if every handler that marked it as failed died before appending its letter, and is there more than once
   * if and only if at least two of them did not.
   */
  lemma {:induction false} DeadLetterIff(cfg: Config, run: seq<Action>, j: JobId)
    requires IsRun(cfg, run) && StatusOf(After(cfg, run).books, j) == Some(Failed) && Unreachable(After(cfg, run), j)
    ensures Failures(cfg, run, j) > 0
    ensures j !in After(cfg, run).dlq <==> LostLetters(cfg, run, j) == Failures(cfg, run, j)
    ensures multiset(After(cfg, run).dlq)[j] > 1 <==> Failures(cfg, run, j) - LostLetters(cfg, run, j) >= 2
  {
    LettersConserved(cfg, run, j);
    FailedWasMarked(cfg, run, j);
    assert LetterHandlers(After(cfg, run), j) == {};
    assert j in After(cfg, run).dlq <==> j in multiset(After(cfg, run).dlq);
  }
}
