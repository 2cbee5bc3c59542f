/** Runs of the grading queue that show what goes wrong, and so why the guarantees need their conditions. */
module QueueWitnesses {
  import opened Wrappers
  import opened GradingQueue
  import opened QueueAccounting
  import opened QueueDelivery
  import opened QueueCalm
  import opened QueueTheorems
  import opened QueueDrained

  lemma Extend(cfg: Config, run: seq<Action>, a: Action)
    requires IsRun(cfg, run) && Enabled(After(cfg, run), a)
    ensures IsRun(cfg, run + [a]) && After(cfg, run + [a]) == Apply(cfg, After(cfg, run), a)
    ensures IsCalmRun(cfg, run) && Calm(cfg, After(cfg, run), a) ==> IsCalmRun(cfg, run + [a])
    ensures NothingGivenUp(cfg, run) && !GivesUp(After(cfg, run), a) ==> NothingGivenUp(cfg, run + [a])
  {
    assert (run + [a])[..|run + [a]| - 1] == run && (run + [a])[|run + [a]| - 1] == a;
  }

  /** The run is calm and gives nothing up. */
  ghost predicate Plain(cfg: Config, run: seq<Action>) {
    IsRun(cfg, run) && IsCalmRun(cfg, run) && NothingGivenUp(cfg, run)
  }

  lemma Then(cfg: Config, run: seq<Action>, a: Action) returns (next: seq<Action>)
    requires IsRun(cfg, run) && Enabled(After(cfg, run), a) && !GivesUp(After(cfg, run), a)
    ensures IsRun(cfg, next) && next == run + [a] && After(cfg, next) == Apply(cfg, After(cfg, run), a)
    ensures Plain(cfg, run) && Calm(cfg, After(cfg, run), a) ==> Plain(cfg, next)
  {
    next := run + [a];
    Extend(cfg, run, a);
  }

  /** The books when only job `j` is known, with the given hash and counters. */
  ghost function Only(j: JobId, p: string, st: Option<Status>, tried: nat, t: Stats): Books {
    Books(map[j := Hash(st, tried, p)], t, {})
  }

  const OneActive := Stats(0, 1, 0, 0, 0)
  const OneRetrying := Stats(0, 0, 0, 0, 1)

  /** A job with its one message, and who else is concerned with it. */
  datatype Scene = Scene(j: JobId, p: string, m: MsgId, retry: set<JobId>, movers: map<nat, Mover>,
                         announced: set<JobId>, uncounted: set<JobId>)

  /** Handler 0 has the job. */
  ghost function Held(sc: Scene, b: Books, pc: HandlerPc): State {
    State(b, map[sc.m := Message(sc.j, sc.p, true)], sc.m + 1, sc.retry, [],
          map[0 := Handler(sc.m, sc.j, sc.p, pc)], sc.movers, sc.announced, sc.uncounted, map[sc.j := sc.p], {})
  }

  predicate Alone(sc: Scene) {
    sc.movers == map[] && sc.announced == {}
  }

  lemma HeldStep(cfg: Config, sc: Scene, run: seq<Action>, b: Books, pc: HandlerPc, ok: bool)
      returns (next: seq<Action>)
    requires IsRun(cfg, run) && After(cfg, run) == Held(sc, b, pc)
    requires pc != Acking && pc != DeadLettering && pc != Scheduling
    ensures IsRun(cfg, next) && run <= next && (Plain(cfg, run) && Alone(sc) ==> Plain(cfg, next))
    ensures var H := Handler(sc.m, sc.j, sc.p, pc);
            After(cfg, next) == Held(sc, HandlerBooks(cfg, b, H), NextPc(cfg, b, H, ok))
  {
    next := Then(cfg, run, Advance(0, ok));
  }

  /** Another scene, with an entry in the retry set. */
  ghost function Retried(sc: Scene): Scene {
    Scene(sc.j, sc.p, sc.m, sc.retry + {sc.j}, sc.movers, sc.announced, sc.uncounted)
  }

  lemma HeldSchedule(cfg: Config, sc: Scene, run: seq<Action>, b: Books) returns (next: seq<Action>)
    requires IsRun(cfg, run) && After(cfg, run) == Held(sc, b, Scheduling)
    ensures IsRun(cfg, next) && run <= next && (Plain(cfg, run) && Alone(sc) ==> Plain(cfg, next))
    ensures After(cfg, next) == Held(Retried(sc), b, Acking)
  {
    next := Then(cfg, run, Advance(0, true));
  }

  lemma MarkedBooks(j: JobId, p: string, st: Option<Status>, n: nat, t: Stats)
    requires (st == None && t == Zero) || (st == Some(Retrying) && t == OneRetrying)
    ensures Transition(Only(j, p, st, n, t), j, Processing) == Only(j, p, Some(Processing), n, OneActive)
  {
    var b := Only(j, p, st, n, t);
    assert StatusOf(b, j) == st && HashOf(b, j) == Hash(st, n, p);
    assert b.hashes[j := Hash(Some(Processing), n, p)] == map[j := Hash(Some(Processing), n, p)];
  }

  lemma CountedBooks(j: JobId, p: string, n: nat, t: Stats)
    ensures CountAttempt(Only(j, p, Some(Processing), n, t), j) == Only(j, p, Some(Processing), n + 1, t)
  {
    var b := Only(j, p, Some(Processing), n, t);
    assert HashOf(b, j) == Hash(Some(Processing), n, p);
    assert b.hashes[j := Hash(Some(Processing), n + 1, p)] == map[j := Hash(Some(Processing), n + 1, p)];
  }

  lemma LeftBooks(j: JobId, p: string, n: nat, next: Status)
    requires next == Retrying || next == Completed
    ensures Transition(Only(j, p, Some(Processing), n, OneActive), j, next)
         == Only(j, p, Some(next), n, Bump(Zero, next, 1)).(settled := if next == Completed then {j} else {})
  {
    var b := Only(j, p, Some(Processing), n, OneActive);
    assert StatusOf(b, j) == Some(Processing) && HashOf(b, j) == Hash(Some(Processing), n, p);
    assert b.hashes[j := Hash(Some(next), n, p)] == map[j := Hash(Some(next), n, p)];
  }

  lemma ToStored(cfg: Config, sc: Scene, run: seq<Action>, b: Books, c: Books) returns (next: seq<Action>)
    requires IsRun(cfg, run) && After(cfg, run) == Held(sc, b, Received) && sc.p != "" && cfg.valid(sc.p)
    requires Store(b, sc.j, sc.p) == c
    ensures IsRun(cfg, next) && run <= next && (Plain(cfg, run) && Alone(sc) ==> Plain(cfg, next))
    ensures After(cfg, next) == Held(sc, c, Stored)
  {
    next := HeldStep(cfg, sc, run, b, Received, true);
  }

  lemma ToMarked(cfg: Config, sc: Scene, run: seq<Action>, st: Option<Status>, n: nat, t: Stats)
      returns (next: seq<Action>)
    requires (st == None && t == Zero) || (st == Some(Retrying) && t == OneRetrying)
    requires IsRun(cfg, run) && After(cfg, run) == Held(sc, Only(sc.j, sc.p, st, n, t), Stored)
    ensures IsRun(cfg, next) && run <= next && (Plain(cfg, run) && Alone(sc) ==> Plain(cfg, next))
    ensures After(cfg, next) == Held(sc, Only(sc.j, sc.p, Some(Processing), n, OneActive), Marked)
  {
    MarkedBooks(sc.j, sc.p, st, n, t);
    next := HeldStep(cfg, sc, run, Only(sc.j, sc.p, st, n, t), Stored, true);
  }

  lemma ToGrading(cfg: Config, sc: Scene, run: seq<Action>, n: nat) returns (next: seq<Action>)
    requires IsRun(cfg, run) && After(cfg, run) == Held(sc, Only(sc.j, sc.p, Some(Processing), n, OneActive), Marked)
    ensures IsRun(cfg, next) && run <= next && (Plain(cfg, run) && Alone(sc) ==> Plain(cfg, next))
    ensures After(cfg, next) == Held(sc, Only(sc.j, sc.p, Some(Processing), n + 1, OneActive), Grading(n + 1))
  {
    CountedBooks(sc.j, sc.p, n, OneActive);
    next := HeldStep(cfg, sc, run, Only(sc.j, sc.p, Some(Processing), n, OneActive), Marked, true);
  }

  /** From the stored payload to the grading. */
  lemma TakenUpTo(cfg: Config, sc: Scene, run: seq<Action>, st: Option<Status>, n: nat, t: Stats)
      returns (next: seq<Action>)
    requires (st == None && t == Zero) || (st == Some(Retrying) && t == OneRetrying)
    requires IsRun(cfg, run) && After(cfg, run) == Held(sc, Only(sc.j, sc.p, st, n, t), Stored)
    ensures IsRun(cfg, next) && run <= next && (Plain(cfg, run) && Alone(sc) ==> Plain(cfg, next))
    ensures After(cfg, next) == Held(sc, Only(sc.j, sc.p, Some(Processing), n + 1, OneActive), Grading(n + 1))
  {
    next := ToMarked(cfg, sc, run, st, n, t);
    next := ToGrading(cfg, sc, next, n);
  }

  lemma ToErrored(cfg: Config, sc: Scene, run: seq<Action>, n: nat) returns (next: seq<Action>)
    requires IsRun(cfg, run)
    requires After(cfg, run) == Held(sc, Only(sc.j, sc.p, Some(Processing), n, OneActive), Grading(n))
    ensures IsRun(cfg, next) && run <= next && (Plain(cfg, run) && Alone(sc) ==> Plain(cfg, next))
    ensures After(cfg, next) == Held(sc, Only(sc.j, sc.p, Some(Processing), n, OneActive), Errored(n))
  {
    next := HeldStep(cfg, sc, run, Only(sc.j, sc.p, Some(Processing), n, OneActive), Grading(n), false);
  }

  /** A grading below the limit fails; the job is about to be scheduled for a retry. */
  lemma ToScheduling(cfg: Config, sc: Scene, run: seq<Action>, n: nat) returns (next: seq<Action>)
    requires IsRun(cfg, run) && n < cfg.maxAttempts
    requires After(cfg, run) == Held(sc, Only(sc.j, sc.p, Some(Processing), n, OneActive), Grading(n))
    ensures IsRun(cfg, next) && run <= next && (Plain(cfg, run) && Alone(sc) ==> Plain(cfg, next))
    ensures After(cfg, next) == Held(sc, Only(sc.j, sc.p, Some(Retrying), n, OneRetrying), Scheduling)
  {
    LeftBooks(sc.j, sc.p, n, Retrying);
    next := ToErrored(cfg, sc, run, n);
    next := HeldStep(cfg, sc, next, Only(sc.j, sc.p, Some(Processing), n, OneActive), Errored(n), false);
  }

  /** A load-test job, pushed without a hash. */
  ghost function FirstScene(j: JobId, p: string): Scene {
    Scene(j, p, 0, {}, map[], {}, {})
  }

  lemma Pushed(cfg: Config, j: JobId, p: string) returns (run: seq<Action>)
    ensures Plain(cfg, run) && run == [BarePush(j, p)]
    ensures After(cfg, run)
         == State(Initial.books, map[0 := Message(j, p, false)], 1, {}, [], map[], map[], {}, {}, map[j := p], {})
  {
    run := Then(cfg, [], BarePush(j, p));
  }

  lemma Taken(cfg: Config, j: JobId, p: string) returns (run: seq<Action>)
    ensures Plain(cfg, run) && After(cfg, run) == Held(FirstScene(j, p), Initial.books, Received)
    ensures [BarePush(j, p)] <= run
  {
    run := Pushed(cfg, j, p);
    run := Then(cfg, run, Deliver(0, 0));
  }

  lemma FirstStore(j: JobId, p: string)
    ensures Store(Initial.books, j, p) == Only(j, p, None, 0, Zero)
  {
  }

  /** Job `j`, graded once without success, is about to be scheduled for a retry. */
  lemma {:induction false} FailedOnce(cfg: Config, j: JobId, p: string) returns (run: seq<Action>)
    requires p != "" && cfg.valid(p) && cfg.maxAttempts > 1
    ensures Plain(cfg, run) && [BarePush(j, p)] <= run
    ensures After(cfg, run) == Held(FirstScene(j, p), Only(j, p, Some(Retrying), 1, OneRetrying), Scheduling)
  {
    var sc := FirstScene(j, p);
    FirstStore(j, p);
    run := Taken(cfg, j, p);
    run := ToStored(cfg, sc, run, Initial.books, Only(j, p, None, 0, Zero));
    run := TakenUpTo(cfg, sc, run, None, 0, Zero);
    run := ToScheduling(cfg, sc, run, 1);
  }

  /** Job `j` waits in the retry set and is nowhere else. */
  ghost function WaitsForRetry(j: JobId, p: string): State {
    State(Only(j, p, Some(Retrying), 1, OneRetrying), map[], 1, {j}, [], map[], map[], {}, {}, map[j := p], {})
  }

  /** A load-test job, taken up and graded once without success, waits in the retry set. */
  lemma {:induction false} FirstTryFails(cfg: Config, j: JobId, p: string) returns (run: seq<Action>)
    requires p != "" && cfg.valid(p) && cfg.maxAttempts > 1
    ensures Plain(cfg, run) && [BarePush(j, p)] <= run && After(cfg, run) == WaitsForRetry(j, p)
  {
    var b := Only(j, p, Some(Retrying), 1, OneRetrying);
    run := FailedOnce(cfg, j, p);
    run := HeldSchedule(cfg, FirstScene(j, p), run, b);
    run := Then(cfg, run, Advance(0, true));
  }

  /**
   * A load test that watches the stream length and the active counter can see an empty, idle queue while
   * an accepted job has not been finished.
   */
  lemma EmptyIdleYetUnfinished(cfg: Config, j: JobId, p: string) returns (run: seq<Action>)
    requires p != "" && cfg.valid(p) && cfg.maxAttempts > 1
    ensures IsRun(cfg, run) && IsCalmRun(cfg, run)
    ensures var s := After(cfg, run);
            s.stream == map[] && s.books.stats.active == 0 && j in s.accepted && !IsTerminal(s, j)
  {
    run := FirstTryFails(cfg, j, p);
  }

  /**
   * A mover that stops between removing the job from the retry set and appending it to the stream loses it:
   * nothing refers to the job, it was never finished, and by `UnreachableForever` it never will be.
   */
  lemma {:induction false} MoverCrashLosesJob(cfg: Config, j: JobId, p: string) returns (run: seq<Action>)
    requires p != "" && cfg.valid(p) && cfg.maxAttempts > 1
    ensures IsRun(cfg, run) && IsCalmRun(cfg, run)
    ensures var s := After(cfg, run);
            j in s.accepted && Unreachable(s, j) && j !in s.books.settled && j in s.dropped
            && StatusOf(s.books, j) == Some(Retrying)
  {
    var waits := FirstTryFails(cfg, j, p);
    var seen := Then(cfg, waits, Peek(0, j));
    assert After(cfg, seen) == WaitsForRetry(j, p).(movers := map[0 := Mover(j, Seen)]);
    var removed := Then(cfg, seen, Move(0));
    assert After(cfg, removed) == WaitsForRetry(j, p).(retry := {}, movers := map[0 := Mover(j, Removed)]);
    run := removed + [MoverCrash(0)];
    Extend(cfg, removed, MoverCrash(0));
    assert After(cfg, run) == WaitsForRetry(j, p).(retry := {}, movers := map[], dropped := {j});
  }

  /** A job just given up is still referred to by its last message, until that is acknowledged. */
  lemma GivenUpYetReferredTo(cfg: Config, j: JobId, p: string) returns (run: seq<Action>)
    requires p != "" && cfg.valid(p) && cfg.maxAttempts > 1
    ensures IsRun(cfg, run) && IsCalmRun(cfg, run)
    ensures After(cfg, run)
         == Held(FirstScene(j, p), Only(j, p, Some(Retrying), 1, OneRetrying), Acking).(dropped := {j})
    ensures j in After(cfg, run).dropped && j !in After(cfg, run).books.settled && !Unreachable(After(cfg, run), j)
  {
    var failed := FailedOnce(cfg, j, p);
    run := failed + [Advance(0, false)];
    Extend(cfg, failed, Advance(0, false));
    assert After(cfg, run).stream[0].job == j;
  }

  /** A retry entry that cannot be written loses the job too, with nobody dying: the message is acknowledged. */
  lemma FailedScheduleLosesJob(cfg: Config, j: JobId, p: string) returns (run: seq<Action>)
    requires p != "" && cfg.valid(p) && cfg.maxAttempts > 1
    ensures IsRun(cfg, run) && IsCalmRun(cfg, run)
    ensures var s := After(cfg, run);
            j in s.accepted && Unreachable(s, j) && j !in s.books.settled && j in s.dropped
            && StatusOf(s.books, j) == Some(Retrying)
  {
    var refused := GivenUpYetReferredTo(cfg, j, p);
    run := refused + [Advance(0, true)];
    Extend(cfg, refused, Advance(0, true));
    assert After(cfg, run)
        == State(Only(j, p, Some(Retrying), 1, OneRetrying), map[], 1, {}, [],
                 map[], map[], {}, {}, map[j := p], {j});
  }

  /** The job has been put back on the stream and delivered, and its mover has not marked it yet. */
  ghost function SecondScene(j: JobId, p: string): Scene {
    Scene(j, p, 1, {}, map[0 := Mover(j, Added)], {}, {})
  }

  lemma {:induction false} DeliveredBeforeMark(cfg: Config, j: JobId, p: string) returns (run: seq<Action>)
    requires p != "" && cfg.valid(p) && cfg.maxAttempts > 1
    ensures Plain(cfg, run)
    ensures After(cfg, run) == Held(SecondScene(j, p), Only(j, p, Some(Retrying), 1, OneRetrying), Received)
  {
    var w := WaitsForRetry(j, p);
    run := FirstTryFails(cfg, j, p);
    run := Then(cfg, run, Peek(0, j));
    assert After(cfg, run) == w.(movers := map[0 := Mover(j, Seen)]);
    run := Then(cfg, run, Move(0));
    assert After(cfg, run) == w.(retry := {}, movers := map[0 := Mover(j, Removed)]);
    run := Then(cfg, run, Move(0));
    assert After(cfg, run) == w.(retry := {}, movers := map[0 := Mover(j, Added)], nextMsg := 2,
                                 stream := map[1 := Message(j, p, false)]);
    run := Then(cfg, run, Deliver(0, 1));
  }

  lemma SecondStore(j: JobId, p: string)
    ensures var b := Only(j, p, Some(Retrying), 1, OneRetrying); Store(b, j, p) == b
  {
    var b := Only(j, p, Some(Retrying), 1, OneRetrying);
    assert HashOf(b, j) == Hash(Some(Retrying), 1, p);
    assert b.hashes[j := Hash(Some(Retrying), 1, p)] == b.hashes;
  }

  lemma FailedTwice(cfg: Config, j: JobId, p: string) returns (run: seq<Action>)
    requires p != "" && cfg.valid(p) && cfg.maxAttempts > 2
    ensures IsRun(cfg, run)
    ensures After(cfg, run) == Held(Retried(SecondScene(j, p)), Only(j, p, Some(Retrying), 2, OneRetrying), Acking)
  {
    var sc, b := SecondScene(j, p), Only(j, p, Some(Retrying), 1, OneRetrying);
    SecondStore(j, p);
    run := DeliveredBeforeMark(cfg, j, p);
    run := ToStored(cfg, sc, run, b, b);
    run := TakenUpTo(cfg, sc, run, Some(Retrying), 1, OneRetrying);
    run := ToScheduling(cfg, sc, run, 2);
    run := HeldSchedule(cfg, sc, run, Only(j, p, Some(Retrying), 2, OneRetrying));
  }

  lemma LateMarkBooks(j: JobId, p: string)
    ensures Transition(Only(j, p, Some(Retrying), 2, OneRetrying), j, Queued)
         == Only(j, p, Some(Queued), 2, Stats(1, 0, 0, 0, 0))
  {
    var b := Only(j, p, Some(Retrying), 2, OneRetrying);
    assert StatusOf(b, j) == Some(Retrying) && HashOf(b, j) == Hash(Some(Retrying), 2, p);
    assert b.hashes[j := Hash(Some(Queued), 2, p)] == map[j := Hash(Some(Queued), 2, p)];
  }

  /** The job is in the retry set, and its mover is about to mark it as queued. */
  lemma AboutToMark(cfg: Config, j: JobId, p: string) returns (run: seq<Action>)
    requires p != "" && cfg.valid(p) && cfg.maxAttempts > 2
    ensures IsRun(cfg, run)
    ensures After(cfg, run)
         == State(Only(j, p, Some(Retrying), 2, OneRetrying), map[], 2, {j}, [], map[],
                  map[0 := Mover(j, Added)], {}, {}, map[j := p], {})
  {
    run := FailedTwice(cfg, j, p);
    run := Then(cfg, run, Advance(0, true));
  }

  /**
   * A mover that marks a job as queued after it was graded again in vain hides the retry: the stream is
   * empty, nothing is active or retrying, and the job waits in the retry set. Nobody died for that, and
   * nothing was reclaimed or given up.
   */
  lemma {:induction false} LateMarkHidesRetry(cfg: Config, j: JobId, p: string) returns (run: seq<Action>)
    requires p != "" && cfg.valid(p) && cfg.maxAttempts > 2
    ensures IsRun(cfg, run)
    ensures var s := After(cfg, run);
            s.stream == map[] && s.books.stats == Stats(1, 0, 0, 0, 0) && s.dropped == {}
            && j in s.accepted && j in s.retry && !IsTerminal(s, j)
  {
    LateMarkBooks(j, p);
    run := AboutToMark(cfg, j, p);
    run := Then(cfg, run, Move(0));
    assert After(cfg, run)
        == State(Only(j, p, Some(Queued), 2, Stats(1, 0, 0, 0, 0)), map[], 2, {j}, [],
                 map[], map[], {}, {}, map[j := p], {});
  }

  /** Job `j`, submitted by the API and not registered yet. */
  ghost function ApiScene(j: JobId, p: string): Scene {
    Scene(j, p, 0, {}, map[], {j}, {})
  }

  lemma TakenBeforeRegistered(cfg: Config, j: JobId, p: string) returns (run: seq<Action>)
    ensures IsRun(cfg, run) && After(cfg, run) == Held(ApiScene(j, p), Initial.books, Received)
  {
    run := Then(cfg, [], Submit(j, p));
    run := Then(cfg, run, Deliver(0, 0));
  }

  lemma PassedBeforeRegistered(cfg: Config, j: JobId, p: string) returns (run: seq<Action>)
    requires p != "" && cfg.valid(p)
    ensures IsRun(cfg, run)
    ensures After(cfg, run) == Held(ApiScene(j, p), Only(j, p, Some(Processing), 1, OneActive), Passed)
  {
    var sc := ApiScene(j, p);
    FirstStore(j, p);
    run := TakenBeforeRegistered(cfg, j, p);
    run := ToStored(cfg, sc, run, Initial.books, Only(j, p, None, 0, Zero));
    run := TakenUpTo(cfg, sc, run, None, 0, Zero);
    run := HeldStep(cfg, sc, run, Only(j, p, Some(Processing), 1, OneActive), Grading(1), true);
  }

  lemma FinishedBeforeRegistered(cfg: Config, j: JobId, p: string) returns (run: seq<Action>)
    requires p != "" && cfg.valid(p)
    ensures IsRun(cfg, run)
    ensures After(cfg, run)
         == Held(ApiScene(j, p), Only(j, p, Some(Completed), 1, Stats(0, 0, 1, 0, 0)).(settled := {j}), Acking)
  {
    var sc, b := ApiScene(j, p), Only(j, p, Some(Processing), 1, OneActive);
    LeftBooks(j, p, 1, Completed);
    run := PassedBeforeRegistered(cfg, j, p);
    run := HeldStep(cfg, sc, run, b, Passed, true);
  }

  /**
   * The API writes the job's hash after appending its message. When the job is graded in between, the
   * hash goes back to queued although nothing will grade the job again: by `UnreachableForever` it stays
   * queued, and the queued counter stays one too high for the work there is.
   */
  lemma RegistrationRace(cfg: Config, j: JobId, p: string) returns (run: seq<Action>)
    requires p != "" && cfg.valid(p)
    ensures IsRun(cfg, run)
    ensures var s := After(cfg, run);
            && j in s.accepted && j in s.books.settled && Unreachable(s, j)
            && StatusOf(s.books, j) == Some(Queued)
            && s.books.stats == Stats(1, 0, 1, 0, 0) && Count(s.books, Completed) == 0
  {
    run := FinishedBeforeRegistered(cfg, j, p);
    run := Then(cfg, run, Advance(0, true));
    run := Then(cfg, run, Register(j));
    assert JobsIn(After(cfg, run).books, Completed) == {};
  }

  /** Job `j`, whose hash was written on its own and then counted. */
  ghost function HashScene(j: JobId, p: string): Scene {
    Scene(j, p, 0, {}, map[], {}, {j})
  }

  lemma MarkedBeforeHash(cfg: Config, j: JobId, p: string) returns (run: seq<Action>)
    requires p != "" && cfg.valid(p)
    ensures IsRun(cfg, run)
    ensures After(cfg, run) == Held(ApiScene(j, p), Only(j, p, Some(Processing), 0, OneActive), Marked)
  {
    var sc := ApiScene(j, p);
    FirstStore(j, p);
    run := TakenBeforeRegistered(cfg, j, p);
    run := ToStored(cfg, sc, run, Initial.books, Only(j, p, None, 0, Zero));
    run := ToMarked(cfg, sc, run, None, 0, Zero);
  }

  lemma HashOverProcessing(cfg: Config, j: JobId, p: string) returns (run: seq<Action>)
    requires p != "" && cfg.valid(p)
    ensures IsRun(cfg, run)
    ensures After(cfg, run) == Held(HashScene(j, p), Only(j, p, Some(Queued), 0, OneActive), Marked)
  {
    run := MarkedBeforeHash(cfg, j, p);
    var b := Only(j, p, Some(Processing), 0, OneActive);
    assert HashOnly(b, j, p) == Only(j, p, Some(Queued), 0, OneActive) by {
      assert b.hashes[j := Hash(Some(Queued), 0, p)] == map[j := Hash(Some(Queued), 0, p)];
    }
    run := Then(cfg, run, WriteHash(j));
  }

  /** The job, counted as queued and as active, is about to be marked as completed. */
  lemma {:induction false} PassedWhileQueued(cfg: Config, j: JobId, p: string) returns (run: seq<Action>)
    requires p != "" && cfg.valid(p)
    ensures IsRun(cfg, run)
    ensures After(cfg, run) == Held(FirstScene(j, p), Only(j, p, Some(Queued), 1, Stats(1, 1, 0, 0, 0)), Passed)
  {
    var sc, b := FirstScene(j, p), Only(j, p, Some(Queued), 0, Stats(1, 1, 0, 0, 0));
    var c := Only(j, p, Some(Queued), 1, Stats(1, 1, 0, 0, 0));
    run := HashOverProcessing(cfg, j, p);
    run := Then(cfg, run, CountQueued(j));
    assert After(cfg, run) == Held(sc, b, Marked);
    assert CountAttempt(b, j) == c by {
      assert HashOf(b, j) == Hash(Some(Queued), 0, p);
      assert b.hashes[j := Hash(Some(Queued), 1, p)] == map[j := Hash(Some(Queued), 1, p)];
    }
    run := HeldStep(cfg, sc, run, b, Marked, true);
    run := HeldStep(cfg, sc, run, c, Grading(1), true);
  }

  /** The books when only job `j` is known and completed. */
  ghost function OnlyCompleted(j: JobId, p: string, t: Stats): Books {
    Books(map[j := Hash(Some(Completed), 1, p)], t, {j})
  }

  lemma CompletedWhileQueued(j: JobId, p: string)
    ensures Transition(Only(j, p, Some(Queued), 1, Stats(1, 1, 0, 0, 0)), j, Completed)
         == OnlyCompleted(j, p, Stats(0, 1, 1, 0, 0))
  {
    var b := Only(j, p, Some(Queued), 1, Stats(1, 1, 0, 0, 0));
    assert StatusOf(b, j) == Some(Queued) && HashOf(b, j) == Hash(Some(Queued), 1, p);
    assert b.hashes[j := Hash(Some(Completed), 1, p)] == map[j := Hash(Some(Completed), 1, p)];
  }

  /** The job is completed, its message is gone, and one job is counted as active. */
  lemma {:induction false} FinishedWhileQueued(cfg: Config, j: JobId, p: string) returns (run: seq<Action>)
    requires p != "" && cfg.valid(p)
    ensures IsRun(cfg, run)
    ensures After(cfg, run)
         == State(OnlyCompleted(j, p, Stats(0, 1, 1, 0, 0)), map[], 1, {}, [], map[], map[], {}, {}, map[j := p], {})
  {
    var b := Only(j, p, Some(Queued), 1, Stats(1, 1, 0, 0, 0));
    CompletedWhileQueued(j, p);
    run := PassedWhileQueued(cfg, j, p);
    run := HeldStep(cfg, FirstScene(j, p), run, b, Passed, true);
    run := Then(cfg, run, Advance(0, true));
  }

  /**
   * A load test that writes a job's hash in a call of its own after the message may write queued over
   * processing. Everything gets finished and counted, nobody dies, and the active counter stays one too
   * high, by `LeftOverForever` for good.
   */
  lemma LateHashLeavesActive(cfg: Config, j: JobId, p: string) returns (run: seq<Action>)
    requires p != "" && cfg.valid(p)
    ensures IsRun(cfg, run) && OverwriteCount(cfg, run, Processing) == 1
    ensures var s := After(cfg, run);
            && s.accepted == map[j := p] && AllFinished(s) && Unreachable(s, j) && s.uncounted == {}
            && s.books.stats == Stats(0, 1, 1, 0, 0)
  {
    run := FinishedWhileQueued(cfg, j, p);
    assert JobsIn(After(cfg, run).books, Processing) == {};
    RunAccounted(cfg, run, Processing);
  }

  /** A preview that was just submitted: no counter and no high-priority message tells of it. */
  lemma {:induction false} SubmittedPreview(cfg: Config, j: JobId, p: string) returns (run: seq<Action>)
    requires !cfg.high(p)
    ensures run == [Submit(j, p)] && IsRun(cfg, run)
    ensures var s := After(cfg, run);
            && s == Initial.(stream := map[0 := Message(j, p, false)], nextMsg := 1, announced := {j},
                             accepted := map[j := p])
            && HighEmpty(cfg, s) && UntakenPreview(cfg, s) && !AllFinished(s)
  {
    run := Then(cfg, [], Submit(j, p));
    assert 0 in After(cfg, run).stream && j in After(cfg, run).accepted;
  }

  /** A rejected job, with its two handlers somewhere between the failed status and the acknowledgement. */
  ghost function Refused(j: JobId, t: Stats, dlq: seq<JobId>, handlers: map<nat, Handler>): State {
    State(Books(map[j := Hash(Some(Failed), 0, "")], t, {j}), map[0 := Message(j, "", true)], 1, {}, dlq,
          handlers, map[], {}, {}, map[j := ""], {})
  }

  lemma RefusedFirst(cfg: Config, j: JobId) returns (run: seq<Action>)
    ensures IsRun(cfg, run)
    ensures After(cfg, run) == Refused(j, Stats(0, 0, 0, 1, 0), [], map[0 := Handler(0, j, "", DeadLettering)])
  {
    run := Taken(cfg, j, "");
    run := Then(cfg, run, Advance(0, true));
  }

  lemma RefusedOnce(cfg: Config, j: JobId) returns (run: seq<Action>)
    ensures IsRun(cfg, run)
    ensures After(cfg, run) == Refused(j, Stats(0, 0, 0, 1, 0), [j], map[0 := Handler(0, j, "", Acking)])
  {
    run := RefusedFirst(cfg, j);
    run := Then(cfg, run, Advance(0, true));
  }

  lemma {:induction false} RefusedAgain(cfg: Config, j: JobId) returns (run: seq<Action>)
    ensures IsRun(cfg, run)
    ensures After(cfg, run)
         == Refused(j, Stats(0, 0, 0, 2, 0), [j],
                    map[0 := Handler(0, j, "", Acking), 1 := Handler(0, j, "", DeadLettering)])
  {
    run := RefusedOnce(cfg, j);
    run := Then(cfg, run, Reclaim(1, 0));
    run := Then(cfg, run, Advance(1, true));
    var b := Books(map[j := Hash(Some(Failed), 0, "")], Stats(0, 0, 0, 1, 0), {j});
    assert b.hashes[j := Hash(Some(Failed), 0, "")] == b.hashes;
  }

  lemma {:induction false} RefusedTwice(cfg: Config, j: JobId) returns (run: seq<Action>)
    ensures IsRun(cfg, run)
    ensures After(cfg, run)
         == Refused(j, Stats(0, 0, 0, 2, 0), [j, j],
                    map[0 := Handler(0, j, "", Acking), 1 := Handler(0, j, "", Acking)])
  {
    run := RefusedAgain(cfg, j);
    run := Then(cfg, run, Advance(1, true));
  }

  /** A job without a payload, reclaimed from a slow handler, is failed, counted and dead-lettered twice. */
  lemma {:induction false} DeadLetterTwice(cfg: Config, j: JobId) returns (run: seq<Action>)
    ensures IsRun(cfg, run)
    ensures var s := After(cfg, run);
            && StatusOf(s.books, j) == Some(Failed) && Unreachable(s, j)
            && s.dlq == [j, j] && s.books.stats.failed == 2 && s.accepted == map[j := ""]
  {
    run := RefusedTwice(cfg, j);
    run := Then(cfg, run, Advance(0, true));
    run := Then(cfg, run, Advance(1, true));
  }
}
