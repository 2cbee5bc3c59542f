/** What the statistics counters mean, over every run of the grading queue. */
module QueueAccounting {
  import opened Wrappers
  import opened GradingQueue

  ghost function JobsIn(b: Books, st: Status): set<JobId> {
    set j | j in b.hashes && b.hashes[j].status == Some(st)
  }

  ghost function Count(b: Books, st: Status): nat {
    |JobsIn(b, st)|
  }

  lemma CountUpdate(b: Books, c: Books, j: JobId, v: Hash, st: Status)
    requires c.hashes == b.hashes[j := v]
    ensures Count(c, st) == Count(b, st) - (if StatusOf(b, j) == Some(st) then 1 else 0)
                                         + (if v.status == Some(st) then 1 else 0)
  {
    var before, after := JobsIn(b, st), JobsIn(c, st);
    assert before - {j} == after - {j};
    assert j in before ==> |before - {j}| == |before| - 1;
    assert j in after ==> |after - {j}| == |after| - 1;
    assert j !in before ==> before - {j} == before;
    assert j !in after ==> after - {j} == after;
  }

  /** How far the counter of a status is from the number of hashes in it. */
  ghost function Excess(b: Books, st: Status): int {
    Counter(b.stats, st) - Count(b, st)
  }

  function One(c: bool): nat {
    if c then 1 else 0
  }

  /** The script takes nothing back from a terminal status, so overwriting one leaves its counter too high. */
  lemma TransitionExcess(b: Books, j: JobId, next: Status, st: Status)
    ensures Excess(Transition(b, j, next), st) == Excess(b, st) + One(Terminal(st) && StatusOf(b, j) == Some(st))
  {
    CountUpdate(b, Transition(b, j, next), j, HashOf(b, j).(status := Some(next)), st);
  }

  lemma RegisteredExcess(b: Books, j: JobId, body: string, st: Status)
    ensures Excess(Registered(b, j, body), st) == Excess(b, st) + One(StatusOf(b, j) == Some(st))
  {
    CountUpdate(b, Registered(b, j, body), j, Hash(Some(Queued), 0, body), st);
  }

  lemma HashOnlyExcess(b: Books, j: JobId, body: string, st: Status)
    ensures Excess(HashOnly(b, j, body), st) == Excess(b, st) + One(StatusOf(b, j) == Some(st)) - One(st == Queued)
  {
    CountUpdate(b, HashOnly(b, j, body), j, Hash(Some(Queued), 0, body), st);
  }

  lemma CountedExcess(b: Books, st: Status)
    ensures Excess(b.(stats := Bump(b.stats, Queued, 1)), st) == Excess(b, st) + One(st == Queued)
  {
    assert JobsIn(b.(stats := Bump(b.stats, Queued, 1)), st) == JobsIn(b, st);
  }

  lemma SameStatusExcess(b: Books, c: Books, j: JobId, v: Hash, st: Status)
    requires c.hashes == b.hashes[j := v] && c.stats == b.stats && v.status == StatusOf(b, j)
    ensures Excess(c, st) == Excess(b, st)
  {
    CountUpdate(b, c, j, v, st);
  }

  lemma HandlerExcess(cfg: Config, b: Books, h: Handler, st: Status)
    ensures Excess(HandlerBooks(cfg, b, h), st)
         == Excess(b, st) + One(Terminal(st) && WritesStatus(cfg, b, h) && StatusOf(b, h.job) == Some(st))
  {
    match h.pc
    case Received =>
      if Rejected(cfg, b, h) {
        TransitionExcess(b, h.job, Failed, st);
      } else {
        SameStatusExcess(b, Store(b, h.job, Body(b, h)), h.job, HashOf(b, h.job).(payload := Body(b, h)), st);
      }
    case Stored => TransitionExcess(b, h.job, Processing, st);
    case Marked =>
      SameStatusExcess(b, CountAttempt(b, h.job), h.job,
                       HashOf(b, h.job).(attempts := HashOf(b, h.job).attempts + 1), st);
    case Passed => TransitionExcess(b, h.job, Completed, st);
    case Errored(n) => TransitionExcess(b, h.job, if n < cfg.maxAttempts then Retrying else Failed, st);
    case _ =>
  }

  /** Only accepted jobs have a hash, a message, a retry entry, a handler or a mover. */
  ghost predicate Known(s: State) {
    && s.books.hashes.Keys <= s.accepted.Keys
    && s.announced <= s.accepted.Keys && s.announced !! s.uncounted
    && s.uncounted <= s.accepted.Keys
    && s.retry <= s.accepted.Keys
    && (forall m | m in s.stream :: s.stream[m].job in s.accepted)
    && (forall h | h in s.handlers :: s.handlers[h].job in s.accepted)
    && (forall v | v in s.movers :: s.movers[v].job in s.accepted)
  }

  lemma HandlerHashes(cfg: Config, b: Books, h: Handler)
    ensures HandlerBooks(cfg, b, h).hashes.Keys <= b.hashes.Keys + {h.job}
  {
  }

  lemma AdvanceKnown(cfg: Config, s: State, h: nat, ok: bool)
    requires Known(s) && h in s.handlers
    ensures Known(AdvanceHandler(cfg, s, h, ok))
  {
    HandlerHashes(cfg, s.books, s.handlers[h]);
  }

  lemma MoveKnown(s: State, v: nat)
    requires Known(s) && v in s.movers
    ensures Known(AdvanceMover(s, v))
  {
  }

  lemma StepKnown(cfg: Config, s: State, a: Action)
    requires Known(s) && Enabled(s, a)
    ensures Known(Apply(cfg, s, a))
  {
    match a
    case Advance(h, ok) => AdvanceKnown(cfg, s, h, ok);
    case Move(v) => MoveKnown(s, v);
    case _ =>
  }

  /** The mover's step runs the Lua script. */
  predicate MoverWrites(s: State, m: Mover) {
    m.pc == Added || (m.pc == Removed && HashOf(s.books, m.job).payload == "")
  }

  /**
   * The step writes over a status that nothing takes back from the counters: a producer's late hash over
   * any status, or a transition out of a terminal one.
   */
  predicate Overwrites(cfg: Config, s: State, a: Action, st: Status) {
    match a
    case Register(j) => StatusOf(s.books, j) == Some(st)
    case WriteHash(j) => StatusOf(s.books, j) == Some(st)
    case Advance(h, _) =>
      h in s.handlers && Terminal(st) && WritesStatus(cfg, s.books, s.handlers[h])
      && StatusOf(s.books, s.handlers[h].job) == Some(st)
    case Move(v) =>
      v in s.movers && Terminal(st) && MoverWrites(s, s.movers[v]) && StatusOf(s.books, s.movers[v].job) == Some(st)
    case _ => false
  }

  /** The hashes written and not counted, which all were queued when written. */
  ghost function Uncredited(s: State, st: Status): nat {
    if st == Queued then |s.uncounted| else 0
  }

  /** How far the counter would be from the number of hashes if everything was counted. */
  ghost function Balance(s: State, st: Status): int {
    Excess(s.books, st) + Uncredited(s, st)
  }

  lemma WriteHashBalance(cfg: Config, s: State, j: JobId, st: Status)
    requires Known(s) && j in s.announced
    ensures Balance(Apply(cfg, s, WriteHash(j)), st) == Balance(s, st) + One(StatusOf(s.books, j) == Some(st))
  {
    HashOnlyExcess(s.books, j, PayloadOf(s, j), st);
    assert |s.uncounted + {j}| == |s.uncounted| + 1;
  }

  lemma CountQueuedBalance(cfg: Config, s: State, j: JobId, st: Status)
    requires j in s.uncounted
    ensures Balance(Apply(cfg, s, CountQueued(j)), st) == Balance(s, st)
  {
    CountedExcess(s.books, st);
    assert |s.uncounted - {j}| == |s.uncounted| - 1;
  }

  lemma MoverExcess(s: State, v: nat, st: Status)
    requires v in s.movers
    ensures Excess(AdvanceMover(s, v).books, st)
         == Excess(s.books, st)
            + One(Terminal(st) && MoverWrites(s, s.movers[v]) && StatusOf(s.books, s.movers[v].job) == Some(st))
  {
    TransitionExcess(s.books, s.movers[v].job, Failed, st);
    TransitionExcess(s.books, s.movers[v].job, Queued, st);
  }

  lemma AdvanceBalance(cfg: Config, s: State, h: nat, ok: bool, st: Status)
    requires h in s.handlers
    ensures Balance(AdvanceHandler(cfg, s, h, ok), st) == Balance(s, st) + One(Overwrites(cfg, s, Advance(h, ok), st))
  {
    HandlerExcess(cfg, s.books, s.handlers[h], st);
  }

  lemma MoverBalance(s: State, v: nat, st: Status)
    requires v in s.movers
    ensures Balance(AdvanceMover(s, v), st)
         == Balance(s, st)
            + One(Terminal(st) && MoverWrites(s, s.movers[v]) && StatusOf(s.books, s.movers[v].job) == Some(st))
  {
    MoverExcess(s, v, st);
  }

  /** With what is still to be counted, a counter gains on its status exactly at an overwrite. */
  lemma StepExcess(cfg: Config, s: State, a: Action, st: Status)
    requires Known(s) && Enabled(s, a)
    ensures Balance(Apply(cfg, s, a), st) == Balance(s, st) + One(Overwrites(cfg, s, a, st))
  {
    match a
    case Register(j) => RegisteredExcess(s.books, j, PayloadOf(s, j), st);
    case WriteHash(j) => WriteHashBalance(cfg, s, j, st);
    case CountQueued(j) => CountQueuedBalance(cfg, s, j, st);
    case Advance(h, ok) => AdvanceBalance(cfg, s, h, ok, st);
    case Move(v) => MoverBalance(s, v, st);
    case _ =>
  }

  lemma {:induction false} RunKnown(cfg: Config, run: seq<Action>)
    requires IsRun(cfg, run)
    ensures Known(After(cfg, run))
    decreases |run|
  {
    if run != [] {
      RunKnown(cfg, run[..|run| - 1]);
      StepKnown(cfg, After(cfg, run[..|run| - 1]), run[|run| - 1]);
    }
  }

  /** How many steps of the run overwrote the status. */
  ghost function OverwriteCount(cfg: Config, run: seq<Action>, st: Status): nat
    requires IsRun(cfg, run)
    decreases |run|
  {
    if run == [] then 0
    else
      var before := run[..|run| - 1];
      OverwriteCount(cfg, before, st) + One(Overwrites(cfg, After(cfg, before), run[|run| - 1], st))
  }

  /**
   * Over every run, whoever dies or is late, each counter is the number of hashes in that status plus the
   * number of times the status was overwritten, less the hashes written and not counted for queued.
   */
  lemma {:induction false} RunAccounted(cfg: Config, run: seq<Action>, st: Status)
    requires IsRun(cfg, run)
    ensures Excess(After(cfg, run).books, st) == OverwriteCount(cfg, run, st) - Uncredited(After(cfg, run), st)
    decreases |run|
  {
    if run == [] {
      assert JobsIn(Initial.books, st) == {};
    } else {
      var before := run[..|run| - 1];
      RunAccounted(cfg, before, st);
      RunKnown(cfg, before);
      StepExcess(cfg, After(cfg, before), run[|run| - 1], st);
    }
  }

  /** No step of the run overwrote the status. */
  ghost predicate NeverOverwritten(cfg: Config, run: seq<Action>, st: Status)
    requires IsRun(cfg, run)
    decreases |run|
  {
    run == [] || (&& NeverOverwritten(cfg, run[..|run| - 1], st)
                  && !Overwrites(cfg, After(cfg, run[..|run| - 1]), run[|run| - 1], st))
  }

  lemma {:induction false} NeverIsZero(cfg: Config, run: seq<Action>, st: Status)
    requires IsRun(cfg, run)
    ensures NeverOverwritten(cfg, run, st) <==> OverwriteCount(cfg, run, st) == 0
    decreases |run|
  {
    if run != [] {
      NeverIsZero(cfg, run[..|run| - 1], st);
    }
  }

  ghost predicate ExactCounter(b: Books, st: Status) {
    Counter(b.stats, st) == Count(b, st)
  }

  /**
   * Over every run a counter other than queued is exact if and only if its status was never overwritten;
   * the queued counter is, if and only if it was overwritten as often as there are uncounted hashes.
   */
  lemma {:induction false} CounterExactIff(cfg: Config, run: seq<Action>, st: Status)
    requires IsRun(cfg, run)
    ensures ExactCounter(After(cfg, run).books, Queued)
       <==> OverwriteCount(cfg, run, Queued) == |After(cfg, run).uncounted|
    ensures st != Queued ==> (ExactCounter(After(cfg, run).books, st) <==> NeverOverwritten(cfg, run, st))
  {
    RunAccounted(cfg, run, st);
    RunAccounted(cfg, run, Queued);
    NeverIsZero(cfg, run, st);
  }

  /**
   * No counter ever under-reports, except `queued`, and that one by at most the number of hashes written
   * and not counted.
   */
  lemma {:induction false} RunNeverUnderReports(cfg: Config, run: seq<Action>, st: Status)
    requires IsRun(cfg, run)
    ensures Counter(After(cfg, run).books.stats, st)
         >= Count(After(cfg, run).books, st) - Uncredited(After(cfg, run), st)
  {
    RunAccounted(cfg, run, st);
  }

  lemma {:induction false} OverwritesAddUp(cfg: Config, run: seq<Action>, more: seq<Action>, st: Status)
    requires IsRun(cfg, run) && IsRun(cfg, run + more)
    ensures OverwriteCount(cfg, run, st) <= OverwriteCount(cfg, run + more, st)
    decreases |more|
  {
    if more == [] {
      assert run + more == run;
    } else {
      var all, shorter := run + more, more[..|more| - 1];
      assert all[..|all| - 1] == run + shorter;
      OverwritesAddUp(cfg, run, shorter, st);
    }
  }

  /** What an overwrite leaves in a counter other than queued stays there in every continuation. */
  lemma {:induction false} LeftOverForever(cfg: Config, run: seq<Action>, more: seq<Action>, st: Status)
    requires IsRun(cfg, run) && IsRun(cfg, run + more) && st != Queued
    ensures Counter(After(cfg, run + more).books.stats, st) >= OverwriteCount(cfg, run, st)
  {
    RunAccounted(cfg, run + more, st);
    OverwritesAddUp(cfg, run, more, st);
  }

  /** The number of finished gradings the counters report; what a load test polls. */
  function Done(s: State): int {
    s.books.stats.completed + s.books.stats.failed
  }
}
