/** The direct Redis benchmark: the buffered push loop and the monitor that polls until all jobs are done. */
module DirectBenchmark {
  import opened Wrappers
  import opened Seqs
  import opened BenchmarkStore
  import G = GradingQueue

  datatype Job = Job(id: string, createdAt: int, phase: nat)

  function Tagged(jobs: seq<NewJob>, phase: nat): seq<Job> {
    Map(jobs, (j: NewJob) => Job(j.id, j.createdAt, phase))
  }

  const FlushEvery := 100
  const ExtraAfterMs := 10000
  const MaxWaitMs := 600000

  function StatusIn(db: Db, id: string): Option<Status> {
    if id in db.hashes then Some(db.hashes[id].status) else None
  }

  function CountIn(db: Db, jobs: seq<Job>, st: Status): nat {
    if jobs == [] then 0
    else CountIn(db, jobs[..|jobs| - 1], st)
         + (if StatusIn(db, jobs[|jobs| - 1].id) == Some(st) then 1 else 0)
  }

  function DoneIn(db: Db, jobs: seq<Job>): nat {
    CountIn(db, jobs, G.Completed) + CountIn(db, jobs, G.Failed)
  }

  /** Every job of the list has been written to the store. */
  ghost predicate Written(db: Db, jobs: seq<Job>) {
    forall j | j in jobs :: j.id in db.hashes
  }

  ghost predicate AllTerminal(db: Db, jobs: seq<Job>) {
    forall j | j in jobs :: Finished(db, j.id)
  }

  lemma {:induction false} DoneAll(db: Db, jobs: seq<Job>)
    ensures DoneIn(db, jobs) <= |jobs|
    ensures DoneIn(db, jobs) == |jobs| <==> AllTerminal(db, jobs)
    decreases |jobs|
  {
    if jobs != [] {
      var init := jobs[..|jobs| - 1];
      DoneAll(db, init);
      assert forall j :: j in jobs <==> j in init || j == jobs[|jobs| - 1];
    }
  }

  lemma {:induction false} StatusesAddUp(db: Db, jobs: seq<Job>)
    requires Written(db, jobs)
    ensures CountIn(db, jobs, G.Completed) + CountIn(db, jobs, G.Failed) + CountIn(db, jobs, G.Processing)
            + CountIn(db, jobs, G.Queued) + CountIn(db, jobs, G.Retrying) == |jobs|
    decreases |jobs|
  {
    if jobs != [] {
      StatusesAddUp(db, jobs[..|jobs| - 1]);
      FiveStatuses(db.hashes[jobs[|jobs| - 1].id].status);
    }
  }

  lemma FiveStatuses(st: Status)
    ensures st in {G.Queued, G.Processing, G.Completed, G.Failed, G.Retrying}
  {
    assert st.Queued? || st.Processing? || st.Completed? || st.Failed? || st.Retrying?;
  }

  /** Finishing more jobs, or watching more jobs, only raises the done count. */
  lemma {:induction false} DoneMonotone(a: Db, b: Db, jobs: seq<Job>)
    requires forall id | Finished(a, id) :: Finished(b, id)
    ensures DoneIn(a, jobs) <= DoneIn(b, jobs)
    decreases |jobs|
  {
    if jobs != [] {
      DoneMonotone(a, b, jobs[..|jobs| - 1]);
      assert Finished(a, jobs[|jobs| - 1].id) ==> Finished(b, jobs[|jobs| - 1].id);
    }
  }

  lemma {:induction false} DoneAppend(db: Db, jobs: seq<Job>, more: seq<Job>)
    ensures DoneIn(db, jobs) <= DoneIn(db, jobs + more)
    decreases |more|
  {
    if more == [] {
      assert jobs + more == jobs;
    } else {
      DoneAppend(db, jobs, more[..|more| - 1]);
      assert (jobs + more)[..|jobs + more| - 1] == jobs + more[..|more| - 1];
    }
  }

  lemma CommandsAppend(jobs: seq<NewJob>, i: nat)
    requires i < |jobs|
    ensures Commands(jobs[..i + 1]) == Commands(jobs[..i]) + CommandsOf(jobs[i])
    ensures Tagged(jobs[..i + 1], 1) == Tagged(jobs[..i], 1) + [Job(jobs[i].id, jobs[i].createdAt, 1)]
    ensures Tagged(jobs[..i + 1], 2) == Tagged(jobs[..i], 2) + [Job(jobs[i].id, jobs[i].createdAt, 2)]
  {
    assert jobs[..i + 1][..i] == jobs[..i];
  }

  lemma FlushDue(i: nat, flushes: nat)
    requires 0 < i - FlushEvery * flushes <= FlushEvery
    ensures i % FlushEvery == 0 <==> i - FlushEvery * flushes == FlushEvery
  {
  }

  /** What has been executed since db0, with what still waits in the pipeline, are the commands of the jobs. */
  ghost predicate Buffered(db0: Db, db: Db, ops: seq<Op>, pipeline: seq<Command>, jobs: seq<NewJob>) {
    db == RunOps(db0, ops) && WritesOf(ops) + pipeline == Commands(jobs)
  }

  lemma {:induction false} BufferedFlush(db0: Db, db: Db, ops: seq<Op>, pipeline: seq<Command>, jobs: seq<NewJob>,
                                         flushed: seq<Op>)
    requires Buffered(db0, db, ops, pipeline, jobs) && WritesOf(flushed) == pipeline
    ensures Buffered(db0, RunOps(db, flushed), ops + flushed, [], jobs)
    ensures WritesOf(ops + flushed) == Commands(jobs)
  {
    RunOpsConcat(db0, ops, flushed);
    WritesConcat(ops, flushed);
  }

  lemma BufferedAppend(db0: Db, db: Db, ops: seq<Op>, pipeline: seq<Command>, jobs: seq<NewJob>, i: nat)
    requires i < |jobs| && Buffered(db0, db, ops, pipeline, jobs[..i])
    ensures Buffered(db0, db, ops, pipeline + CommandsOf(jobs[i]), jobs[..i + 1])
  {
    CommandsAppend(jobs, i);
    assert WritesOf(ops) + (pipeline + CommandsOf(jobs[i])) == (WritesOf(ops) + pipeline) + CommandsOf(jobs[i]);
  }

  /** The counters of one poll and the number of jobs it asked about. */
  datatype Poll = Poll(completed: nat, failed: nat, processing: nat, queued: nat, jobs: nat)

  /** One pass of the monitor: the clock at its two tests, and the steps of graders meanwhile. */
  datatype Round = Round(loopNow: int, extraNow: int, whilePushing: Served, beforeRead: seq<GraderStep>,
                         afterRead: seq<GraderStep>, whileAsleep: seq<GraderStep>)

  /** `Watching`: the rounds given end before the monitor does. */
  datatype Exit = AllDone | TimeUp | Watching

  predicate Complete(p: Poll) {
    p.completed + p.failed >= p.jobs
  }

  ghost predicate AddsUp(p: Poll) {
    p.completed + p.failed + p.processing + p.queued == p.jobs
  }

  /** The polls of one monitor: counters add up, and only the last may find all jobs done. */
  ghost predicate Sound(polls: seq<Poll>) {
    && (forall i :: 0 <= i < |polls| ==> AddsUp(polls[i]))
    && (forall i :: 0 <= i < |polls| - 1 ==> !Complete(polls[i]))
  }

  /** Between two polls the done count does not go down, nor below what was done at the start. */
  ghost predicate Progresses(polls: seq<Poll>, done: nat) {
    && (forall i :: 0 <= i < |polls| ==> done <= polls[i].completed + polls[i].failed)
    && (forall i, k :: 0 <= i < k < |polls| ==>
          polls[i].completed + polls[i].failed <= polls[k].completed + polls[k].failed)
  }

  predicate EndsComplete(polls: seq<Poll>) {
    polls != [] && Complete(polls[|polls| - 1])
  }

  lemma TaggedWritten(db: Db, jobs: seq<NewJob>, phase: nat)
    requires forall j | j in jobs :: j.id in db.hashes
    ensures Written(db, Tagged(jobs, phase))
  {
    forall i | 0 <= i < |Tagged(jobs, phase)| ensures Tagged(jobs, phase)[i].id in db.hashes {
      assert jobs[i] in jobs;
    }
  }

  lemma StaysWritten(db: Db, ops: seq<Op>, jobs: seq<Job>)
    requires Written(db, jobs)
    ensures Written(RunOps(db, ops), jobs)
  {
    HashesStay(db, ops);
  }

  /** In one of the first n rounds the extra jobs were due. */
  predicate ExtraDue(start: int, rounds: seq<Round>, n: nat)
    requires n <= |rounds|
  {
    n > 0 && (ExtraDue(start, rounds, n - 1) || rounds[n - 1].extraNow - start > 10000)
  }

  /** What each poll was about: the first jobs, and the extra ones once due. */
  ghost predicate PollsCover(polls: seq<Poll>, start: int, rounds: seq<Round>, jobs: nat, extra: nat)
    requires |polls| <= |rounds|
  {
    forall i :: 0 <= i < |polls| ==>
      polls[i].jobs == jobs + (if ExtraDue(start, rounds, i + 1) then extra else 0)
  }

  /** What the monitor set out with: the store, the watched jobs, the extra ones, its start and the rounds. */
  datatype Watch = Watch(db: Db, jobs: seq<Job>, extra: seq<NewJob>, start: int, rounds: seq<Round>)

  /** The operations so far have written the extra jobs if due, and nothing else. */
  ghost predicate Ran(w: Watch, ops: seq<Op>, db: Db, jobs: seq<Job>, pushed: bool, n: nat) {
    && n <= |w.rounds|
    && db == RunOps(w.db, ops) && Written(db, jobs)
    && jobs == (if pushed then w.jobs + Tagged(w.extra, 2) else w.jobs)
    && WritesOf(ops) == (if pushed then Commands(w.extra) else [])
    && (pushed <==> ExtraDue(w.start, w.rounds, n))
  }

  /**
   * These are polls of the monitor, one after the other: each is about the jobs of its round, adds up, and
   * comes after one that did not find all jobs done; and, if nothing was undone, its done count is not below
   * that of the poll before it, nor above `done`.
   */
  ghost predicate Polled(w: Watch, polls: seq<Poll>, tame: bool, done: nat)
    requires |polls| <= |w.rounds|
  {
    if polls == [] then tame ==> DoneIn(w.db, w.jobs) <= done
    else
      var init, q := polls[..|polls| - 1], polls[|polls| - 1];
      && AddsUp(q) && !EndsComplete(init)
      && q.jobs == |w.jobs| + (if ExtraDue(w.start, w.rounds, |polls|) then |w.extra| else 0)
      && (tame ==> q.completed + q.failed <= done)
      && Polled(w, init, tame, q.completed + q.failed)
  }

  lemma {:induction false} PolledLater(w: Watch, polls: seq<Poll>, tame: bool, done: nat, still: bool, later: nat)
    requires |polls| <= |w.rounds| && Polled(w, polls, tame, done) && (still ==> tame && done <= later)
    ensures Polled(w, polls, still, later)
    decreases |polls|
  {
    if polls != [] {
      var init, q := polls[..|polls| - 1], polls[|polls| - 1];
      PolledLater(w, init, tame, q.completed + q.failed, still, q.completed + q.failed);
    }
  }

  lemma {:induction false} PolledAppend(w: Watch, polls: seq<Poll>, tame: bool, done: nat, p: Poll,
                                        still: bool, later: nat)
    requires |polls| < |w.rounds| && Polled(w, polls, tame, done) && !EndsComplete(polls) && AddsUp(p)
    requires p.jobs == |w.jobs| + (if ExtraDue(w.start, w.rounds, |polls| + 1) then |w.extra| else 0)
    requires still ==> tame && done <= p.completed + p.failed <= later
    ensures Polled(w, polls + [p], still, later) && EndsComplete(polls + [p]) == Complete(p)
  {
    PolledLater(w, polls, tame, done, still, p.completed + p.failed);
    assert (polls + [p])[..|polls|] == polls;
  }

  lemma {:induction false} PolledSound(w: Watch, polls: seq<Poll>, tame: bool, done: nat)
    requires |polls| <= |w.rounds| && Polled(w, polls, tame, done)
    ensures Sound(polls) && PollsCover(polls, w.start, w.rounds, |w.jobs|, |w.extra|)
    decreases |polls|
  {
    if polls != [] {
      var init, q := polls[..|polls| - 1], polls[|polls| - 1];
      PolledSound(w, init, tame, q.completed + q.failed);
      assert forall i :: 0 <= i < |init| ==> polls[i] == init[i];
    }
  }

  lemma {:induction false} PolledProgress(w: Watch, polls: seq<Poll>, tame: bool, done: nat)
    requires |polls| <= |w.rounds| && Polled(w, polls, tame, done) && tame
    ensures Progresses(polls, DoneIn(w.db, w.jobs)) && DoneIn(w.db, w.jobs) <= done
    ensures forall i :: 0 <= i < |polls| ==> polls[i].completed + polls[i].failed <= done
    decreases |polls|
  {
    if polls != [] {
      var init, q := polls[..|polls| - 1], polls[|polls| - 1];
      PolledProgress(w, init, tame, q.completed + q.failed);
      assert forall i :: 0 <= i < |init| ==> polls[i] == init[i];
    }
  }

  /** What the polls of the monitor have in common. */
  lemma {:induction false} PolledMeans(w: Watch, polls: seq<Poll>, tame: bool, done: nat)
    requires |polls| <= |w.rounds| && Polled(w, polls, tame, done)
    ensures Sound(polls) && PollsCover(polls, w.start, w.rounds, |w.jobs|, |w.extra|)
    ensures tame ==> Progresses(polls, DoneIn(w.db, w.jobs)) && DoneIn(w.db, w.jobs) <= done
    ensures tame ==> forall i :: 0 <= i < |polls| ==> polls[i].completed + polls[i].failed <= done
  {
    PolledSound(w, polls, tame, done);
    if tame {
      PolledProgress(w, polls, tame, done);
    }
  }

  /** The first poll, unless the extra jobs were due, finds all jobs done exactly if they are when it reads. */
  ghost predicate First(w: Watch, polls: seq<Poll>)
    requires |polls| <= |w.rounds|
  {
    polls != [] && !ExtraDue(w.start, w.rounds, 1) ==>
      (Complete(polls[0]) <==> AllTerminal(RunOps(w.db, Grades(w.rounds[0].beforeRead)), w.jobs))
  }

  /** Where the monitor is after the polls so far. */
  ghost predicate Monitoring(w: Watch, polls: seq<Poll>, ops: seq<Op>, db: Db, jobs: seq<Job>, pushed: bool) {
    && Ran(w, ops, db, jobs, pushed, |polls|)
    && Polled(w, polls, Tame(w.db, ops), DoneIn(db, jobs))
    && First(w, polls)
    && (polls == [] ==> ops == [])
  }

  /** What one pass of the monitor pushes: the extra jobs, exactly if they are due and not yet pushed. */
  ghost predicate Pushes(before: Db, was: seq<Job>, had: bool, extra: seq<NewJob>, due: bool,
                         pass: seq<Op>, db: Db, jobs: seq<Job>, pushed: bool) {
    && Written(db, jobs) && db == RunOps(before, pass)
    && pushed == (had || due)
    && jobs == (if pushed == had then was else was + Tagged(extra, 2))
    && WritesOf(pass) == (if pushed == had then [] else Commands(extra))
  }

  /** What its poll counts: no less than was done before, no more than is done after, if nothing is undone. */
  ghost predicate Counts(before: Db, was: seq<Job>, p: Poll, pass: seq<Op>, db: Db, jobs: seq<Job>) {
    && AddsUp(p) && p.jobs == |jobs|
    && (Tame(before, pass) ==> DoneIn(before, was) <= p.completed + p.failed <= DoneIn(db, jobs))
    && (Tame(before, pass) && Complete(p) ==> AllTerminal(db, jobs))
  }

  lemma {:induction false} RanAppend(w: Watch, ops: seq<Op>, before: Db, was: seq<Job>, had: bool, i: nat,
                                     pass: seq<Op>, db: Db, jobs: seq<Job>, pushed: bool)
    requires i < |w.rounds| && Ran(w, ops, before, was, had, i)
    requires Pushes(before, was, had, w.extra, w.rounds[i].extraNow - w.start > ExtraAfterMs, pass, db, jobs, pushed)
    ensures Ran(w, ops + pass, db, jobs, pushed, i + 1)
    ensures |jobs| == |w.jobs| + (if ExtraDue(w.start, w.rounds, i + 1) then |w.extra| else 0)
  {
    RunOpsConcat(w.db, ops, pass);
    WritesConcat(ops, pass);
  }

  lemma {:induction false} PassAppend(w: Watch, polls: seq<Poll>, ops: seq<Op>, before: Db, was: seq<Job>, had: bool,
                                      p: Poll, pass: seq<Op>, db: Db, jobs: seq<Job>, pushed: bool)
    requires Monitoring(w, polls, ops, before, was, had) && |polls| < |w.rounds| && !EndsComplete(polls)
    requires Pushes(before, was, had, w.extra, w.rounds[|polls|].extraNow - w.start > ExtraAfterMs,
                    pass, db, jobs, pushed)
    requires Counts(before, was, p, pass, db, jobs)
    requires polls == [] ==> First(w, [p])
    ensures Monitoring(w, polls + [p], ops + pass, db, jobs, pushed)
    ensures EndsComplete(polls + [p]) == Complete(p)
    ensures Complete(p) && Tame(w.db, ops + pass) ==> AllTerminal(db, jobs)
  {
    TameSplit(w.db, ops, pass);
    RanAppend(w, ops, before, was, had, |polls|, pass, db, jobs, pushed);
    PolledAppend(w, polls, Tame(w.db, ops), DoneIn(before, was), p, Tame(w.db, ops + pass), DoneIn(db, jobs));
    assert polls == [] ==> polls + [p] == [p];
  }

  /** What the poll of a pass found: all jobs finished at the moment of its read. */
  ghost predicate Finds(p: Poll, before: Db, pushes: seq<Op>, gs: seq<GraderStep>, jobs: seq<Job>) {
    Complete(p) <==> AllTerminal(RunOps(RunOps(before, pushes), Grades(gs)), jobs)
  }

  lemma {:induction false} FirstPoll(w: Watch, before: Db, was: seq<Job>, had: bool, p: Poll, pushes: seq<Op>,
                                     pass: seq<Op>, db: Db, jobs: seq<Job>, pushed: bool)
    requires w.rounds != [] && Ran(w, [], before, was, had, 0)
    requires Pushes(before, was, had, w.extra, w.rounds[0].extraNow - w.start > ExtraAfterMs, pass, db, jobs, pushed)
    requires Finds(p, before, pushes, w.rounds[0].beforeRead, jobs) && (pushed == had ==> pushes == [])
    ensures First(w, [p])
  {
    assert ExtraDue(w.start, w.rounds, 1) <==> w.rounds[0].extraNow - w.start > ExtraAfterMs by {
      assert !ExtraDue(w.start, w.rounds, 0);
    }
  }

  /** The graders' steps around the read, and the pushes before it. */
  function PassOps(pushes: seq<Op>, r: Round): seq<Op> {
    pushes + (Grades(r.beforeRead) + Grades(r.afterRead))
  }

  /** After the first `cut` operations all jobs were finished. */
  ghost predicate FinishedAt(db: Db, ops: seq<Op>, cut: nat, jobs: seq<Job>) {
    cut <= |ops| && AllTerminal(RunOps(db, ops[..cut]), jobs)
  }

  /** How many operations come before the read of a pass. */
  function Cut(ops: seq<Op>, pushes: seq<Op>, r: Round): nat {
    |ops + pushes| + |Grades(r.beforeRead)|
  }

  lemma CutOff(ops: seq<Op>, pushes: seq<Op>, a: seq<Op>, b: seq<Op>)
    ensures (ops + (pushes + (a + b)))[..|ops + pushes| + |a|] == ops + pushes + a
  {
  }

  lemma {:induction false} RunThree(db: Db, a: seq<Op>, b: seq<Op>, c: seq<Op>)
    ensures RunOps(db, a + b + c) == RunOps(RunOps(RunOps(db, a), b), c)
  {
    RunOpsConcat(db, a, b);
    RunOpsConcat(db, a + b, c);
  }

  lemma {:induction false} CutAt(w: Watch, ops: seq<Op>, before: Db, pushes: seq<Op>, r: Round, p: Poll, jobs: seq<Job>)
    requires before == RunOps(w.db, ops) && Finds(p, before, pushes, r.beforeRead, jobs) && Complete(p)
    ensures FinishedAt(w.db, ops + PassOps(pushes, r), Cut(ops, pushes, r), jobs)
  {
    RunThree(w.db, ops, pushes, Grades(r.beforeRead));
    CutOff(ops, pushes, Grades(r.beforeRead), Grades(r.afterRead));
  }

  lemma {:induction false} NextDone(w: Watch, polls: seq<Poll>, ops: seq<Op>, before: Db, was: seq<Job>, had: bool,
                                    p: Poll, pushes: seq<Op>, pass: seq<Op>, db: Db, jobs: seq<Job>, pushed: bool)
    requires Monitoring(w, polls, ops, before, was, had) && |polls| < |w.rounds| && !EndsComplete(polls)
    requires Pushes(before, was, had, w.extra, w.rounds[|polls|].extraNow - w.start > ExtraAfterMs,
                    pass, db, jobs, pushed)
    requires Counts(before, was, p, pass, db, jobs)
    requires Finds(p, before, pushes, w.rounds[|polls|].beforeRead, jobs) && (pushed == had ==> pushes == [])
    requires pass == PassOps(pushes, w.rounds[|polls|])
    ensures Complete(p) ==> FinishedAt(w.db, ops + pass, Cut(ops, pushes, w.rounds[|polls|]), jobs)
    ensures Monitoring(w, polls + [p], ops + pass, db, jobs, pushed)
    ensures EndsComplete(polls + [p]) == Complete(p)
    ensures Complete(p) && Tame(w.db, ops + pass) ==> AllTerminal(db, jobs)
  {
    if Complete(p) {
      CutAt(w, ops, before, pushes, w.rounds[|polls|], p, jobs);
    }
    if polls == [] {
      FirstPoll(w, before, was, had, p, pushes, pass, db, jobs, pushed);
    }
    PassAppend(w, polls, ops, before, was, had, p, pass, db, jobs, pushed);
  }

  /** While the monitor sleeps, graders go on. */
  lemma {:induction false} SleepAppend(w: Watch, polls: seq<Poll>, ops: seq<Op>, db: Db, jobs: seq<Job>, pushed: bool,
                                       gs: seq<GraderStep>)
    requires Monitoring(w, polls, ops, db, jobs, pushed) && polls != []
    ensures Monitoring(w, polls, ops + Grades(gs), RunOps(db, Grades(gs)), jobs, pushed)
  {
    GradesWriteNothing(gs);
    RunOpsConcat(w.db, ops, Grades(gs));
    WritesConcat(ops, Grades(gs));
    StaysWritten(db, Grades(gs), jobs);
    TameSplit(w.db, ops, Grades(gs));
    if Tame(db, Grades(gs)) {
      TameKeepsFinished(db, Grades(gs));
      DoneMonotone(db, RunOps(db, Grades(gs)), jobs);
    }
    PolledLater(w, polls, Tame(w.db, ops), DoneIn(db, jobs), Tame(w.db, ops + Grades(gs)),
                DoneIn(RunOps(db, Grades(gs)), jobs));
  }

  lemma {:induction false} EndsAtFirst(w: Watch, polls: seq<Poll>, ops: seq<Op>, db: Db, jobs: seq<Job>, pushed: bool)
    requires Monitoring(w, polls, ops, db, jobs, pushed) && polls != []
    requires w.rounds[0].extraNow - w.start <= ExtraAfterMs
    requires AllTerminal(RunOps(w.db, Grades(w.rounds[0].beforeRead)), w.jobs)
    ensures |polls| == 1 && EndsComplete(polls) && !pushed && jobs == w.jobs
  {
    PolledMeans(w, polls, Tame(w.db, ops), DoneIn(db, jobs));
    assert !ExtraDue(w.start, w.rounds, 0) && !ExtraDue(w.start, w.rounds, 1);
  }

  /** The pushes and the monitor's operations as one run. */
  lemma {:induction false} Together(before: Db, jobs: seq<NewJob>, extra: seq<NewJob>, start: int, rounds: seq<Round>,
                                    pushes: seq<Op>, polls: seq<Poll>, watching: seq<Op>,
                                    db: Db, all: seq<Job>, pushed: bool)
    requires DistinctIds(jobs) && DistinctIds(extra) && WritesOf(pushes) == Commands(jobs)
    requires |polls| <= |rounds|
    requires Monitoring(Watch(RunOps(before, pushes), Tagged(jobs, 1), extra, start, rounds), polls, watching,
                        db, all, pushed)
    ensures db == RunOps(before, pushes + watching) && Sound(polls)
    ensures WritesOf(pushes + watching) == Commands(jobs) + (if pushed then Commands(extra) else [])
    ensures db.stream == before.stream + jobs + (if pushed then extra else [])
    ensures Tame(before, pushes + watching) ==> Tame(RunOps(before, pushes), watching)
  {
    PolledMeans(Watch(RunOps(before, pushes), Tagged(jobs, 1), extra, start, rounds), polls,
                Tame(RunOps(before, pushes), watching), DoneIn(db, all));
    PushedExactlyOnce(before, jobs, pushes);
    PushedExactlyOnce(RunOps(before, pushes), if pushed then extra else [], watching);
    RunOpsConcat(before, pushes, watching);
    WritesConcat(pushes, watching);
    TameSplit(before, pushes, watching);
  }

  /** If nothing is undone meanwhile, the done count does not go down. */
  ghost predicate Keeps(before: Db, was: seq<Job>, ops: seq<Op>, db: Db, jobs: seq<Job>) {
    Tame(before, ops) ==> DoneIn(before, was) <= DoneIn(db, jobs)
  }

  lemma {:induction false} ExtraDone(before: Db, was: seq<Job>, extra: seq<NewJob>, ops: seq<Op>)
    requires Written(before, was) && DistinctIds(extra) && WritesOf(ops) == Commands(extra)
    ensures Written(RunOps(before, ops), was + Tagged(extra, 2))
    ensures Keeps(before, was, ops, RunOps(before, ops), was + Tagged(extra, 2))
  {
    PushedExactlyOnce(before, extra, ops);
    TaggedWritten(RunOps(before, ops), extra, 2);
    StaysWritten(before, ops, was);
    if Tame(before, ops) {
      TameKeepsFinished(before, ops);
      DoneMonotone(before, RunOps(before, ops), was);
      DoneAppend(RunOps(before, ops), was, Tagged(extra, 2));
    }
  }

  lemma {:induction false} ReadDone(before: Db, r: Round, jobs: seq<Job>)
    requires Written(before, jobs)
    ensures var read := RunOps(before, Grades(r.beforeRead));
            var db := RunOps(read, Grades(r.afterRead));
            && Written(read, jobs) && Written(db, jobs)
            && db == RunOps(before, Grades(r.beforeRead) + Grades(r.afterRead))
            && (Tame(before, Grades(r.beforeRead) + Grades(r.afterRead)) ==>
                  DoneIn(before, jobs) <= DoneIn(read, jobs) <= DoneIn(db, jobs))
  {
    var a, b := Grades(r.beforeRead), Grades(r.afterRead);
    RunOpsConcat(before, a, b);
    StaysWritten(before, a, jobs);
    StaysWritten(RunOps(before, a), b, jobs);
    TameSplit(before, a, b);
    if Tame(before, a + b) {
      TameKeepsFinished(before, a);
      TameKeepsFinished(RunOps(before, a), b);
      DoneMonotone(before, RunOps(before, a), jobs);
      DoneMonotone(RunOps(before, a), RunOps(RunOps(before, a), b), jobs);
    }
  }

  lemma {:induction false} PassWrites(pushes: seq<Op>, r: Round)
    ensures WritesOf(PassOps(pushes, r)) == WritesOf(pushes)
  {
    GradesWriteNothing(r.beforeRead);
    GradesWriteNothing(r.afterRead);
    WritesConcat(Grades(r.beforeRead), Grades(r.afterRead));
    WritesConcat(pushes, Grades(r.beforeRead) + Grades(r.afterRead));
  }

  /** A poll of written jobs after some pushes. */
  lemma {:induction false} PassDone(start: Db, was: seq<Job>, pushes: seq<Op>, before: Db, jobs: seq<Job>,
                                    r: Round, p: Poll)
    requires before == RunOps(start, pushes) && Written(before, jobs) && Keeps(start, was, pushes, before, jobs)
    requires AddsUp(p) && p.jobs == |jobs|
    requires p.completed + p.failed == DoneIn(RunOps(before, Grades(r.beforeRead)), jobs)
    ensures var db := RunOps(RunOps(before, Grades(r.beforeRead)), Grades(r.afterRead));
            && Written(db, jobs) && db == RunOps(start, PassOps(pushes, r))
            && Counts(start, was, p, PassOps(pushes, r), db, jobs)
    ensures Finds(p, start, pushes, r.beforeRead, jobs)
  {
    var rest := Grades(r.beforeRead) + Grades(r.afterRead);
    ReadDone(before, r, jobs);
    RunOpsConcat(start, pushes, rest);
    TameSplit(start, pushes, rest);
    DoneAll(RunOps(before, Grades(r.beforeRead)), jobs);
    DoneAll(RunOps(before, rest), jobs);
  }

  /** What graders do during the k-th flush. */
  function Flushed(during: seq<Served>, k: nat): Served {
    if k < |during| then during[k] else []
  }

  class Benchmark {
    var db: Db
    var allJobs: seq<Job>
    var extraPushed: bool

    /** The graders are served while the benchmark waits. */
    method Await(steps: seq<Op>)
      modifies `db
      ensures db == RunOps(old(db), steps)
    {
      db := RunOps(db, steps);
    }

    /** One pipeline flush, with graders served between any two of its commands. */
    method Exec(pipeline: seq<Command>, during: Served) returns (ghost ops: seq<Op>)
      modifies `db
      ensures ops == Woven(pipeline, during) && db == RunOps(old(db), ops)
      ensures WritesOf(ops) == pipeline
    {
      ops := Woven(pipeline, during);
      WovenWrites(pipeline, during);
      db := RunOps(db, Woven(pipeline, during));
    }

    /**
     * The main push loop. Whatever the number of jobs, multiples of 100 included, exactly the commands of
     * all jobs are executed, in order.
     */
    method PushJobs(jobs: seq<NewJob>, during: seq<Served>)
      returns (flushes: nat, ghost ops: seq<Op>)
      modifies `db, `allJobs
      ensures db == RunOps(old(db), ops) && WritesOf(ops) == Commands(jobs)
      ensures allJobs == old(allJobs) + Tagged(jobs, 1)
      ensures flushes == |jobs| / 100 + 1
    {
      var pipeline: seq<Command>, i: nat := [], 0;
      ghost var flushed;
      flushes, ops := 0, [];
      while i < |jobs|
        invariant i <= |jobs| && 0 <= i - FlushEvery * flushes < FlushEvery
        invariant Buffered(old(db), db, ops, pipeline, jobs[..i])
        invariant allJobs == old(allJobs) + Tagged(jobs[..i], 1)
      {
        CommandsAppend(jobs, i);
        BufferedAppend(old(db), db, ops, pipeline, jobs, i);
        pipeline := pipeline + CommandsOf(jobs[i]);
        allJobs := allJobs + [Job(jobs[i].id, jobs[i].createdAt, 1)];
        i := i + 1;
        FlushDue(i, flushes);
        if i % FlushEvery == 0 {
          ghost var before := db;
          flushed := Exec(pipeline, Flushed(during, flushes));
          BufferedFlush(old(db), before, ops, pipeline, jobs[..i], flushed);
          ops, pipeline, flushes := ops + flushed, [], flushes + 1;
        }
      }
      assert jobs[..i] == jobs;
      ghost var before := db;
      flushed := Exec(pipeline, Flushed(during, flushes));
      BufferedFlush(old(db), before, ops, pipeline, jobs, flushed);
      ops, flushes := ops + flushed, flushes + 1;
    }

    method PushExtra(extra: seq<NewJob>, during: Served) returns (ghost ops: seq<Op>)
      modifies this
      ensures db == RunOps(old(db), ops) && WritesOf(ops) == Commands(extra)
      ensures ops == Woven(Commands(extra), during)
      ensures allJobs == old(allJobs) + Tagged(extra, 2) && extraPushed
    {
      var pipeline: seq<Command>, i: nat := [], 0;
      while i < |extra|
        invariant i <= |extra| && db == old(db)
        invariant pipeline == Commands(extra[..i])
        invariant allJobs == old(allJobs) + Tagged(extra[..i], 2)
      {
        CommandsAppend(extra, i);
        pipeline := pipeline + CommandsOf(extra[i]);
        allJobs := allJobs + [Job(extra[i].id, extra[i].createdAt, 2)];
        assert pipeline == Commands(extra[..i + 1]);
        i := i + 1;
      }
      assert extra[..i] == extra;
      ops := Exec(pipeline, during);
      extraPushed := true;
    }

    /** Reads all statuses at once and counts them; whatever is not one of the first three counts as queued. */
    method TakePoll() returns (p: Poll)
      ensures p.completed == CountIn(db, allJobs, G.Completed)
      ensures p.failed == CountIn(db, allJobs, G.Failed)
      ensures p.processing == CountIn(db, allJobs, G.Processing)
      ensures p.completed + p.failed + p.processing + p.queued == p.jobs == |allJobs|
      ensures Written(db, allJobs) ==> p.queued == CountIn(db, allJobs, G.Queued) + CountIn(db, allJobs, G.Retrying)
    {
      var completed, failed, processing, queued, i: nat := 0, 0, 0, 0, 0;
      while i < |allJobs|
        invariant i <= |allJobs|
        invariant completed == CountIn(db, allJobs[..i], G.Completed)
        invariant failed == CountIn(db, allJobs[..i], G.Failed)
        invariant processing == CountIn(db, allJobs[..i], G.Processing)
        invariant completed + failed + processing + queued == i
      {
        assert allJobs[..i + 1][..i] == allJobs[..i];
        var status := StatusIn(db, allJobs[i].id);
        if status == Some(G.Completed) {
          completed := completed + 1;
        } else if status == Some(G.Failed) {
          failed := failed + 1;
        } else if status == Some(G.Processing) {
          processing := processing + 1;
        } else {
          queued := queued + 1;
        }
        i := i + 1;
      }
      assert allJobs[..i] == allJobs;
      if Written(db, allJobs) {
        StatusesAddUp(db, allJobs);
      }
      p := Poll(completed, failed, processing, queued, |allJobs|);
    }

    /** Pushing more jobs leaves the done count of the others to the graders. */
    method AddExtra(extra: seq<NewJob>, during: Served) returns (ghost ops: seq<Op>)
      requires Written(db, allJobs) && DistinctIds(extra)
      modifies this
      ensures db == RunOps(old(db), ops) && WritesOf(ops) == Commands(extra)
      ensures Written(db, allJobs) && allJobs == old(allJobs) + Tagged(extra, 2) && extraPushed
      ensures Keeps(old(db), old(allJobs), ops, db, allJobs)
    {
      ops := PushExtra(extra, during);
      ExtraDone(old(db), old(allJobs), extra, ops);
    }

    /** One pass of the loop up to the test for completion: push the extra jobs if due, then poll. */
    method OnePass(extra: seq<NewJob>, start: int, r: Round)
      returns (p: Poll, ghost pushes: seq<Op>, ghost pass: seq<Op>)
      requires Written(db, allJobs) && DistinctIds(extra)
      modifies this
      ensures Pushes(old(db), old(allJobs), old(extraPushed), extra, r.extraNow - start > ExtraAfterMs,
                     pass, db, allJobs, extraPushed)
      ensures Counts(old(db), old(allJobs), p, pass, db, allJobs)
      ensures extraPushed == old(extraPushed) ==> pushes == []
      ensures Finds(p, old(db), pushes, r.beforeRead, allJobs) && pass == PassOps(pushes, r)
    {
      pushes := [];
      if !extraPushed && r.extraNow - start > ExtraAfterMs {
        pushes := AddExtra(extra, r.whilePushing);
      }
      ghost var before := db;
      pass := PassOps(pushes, r);
      Await(Grades(r.beforeRead));
      p := TakePoll();
      Await(Grades(r.afterRead));
      PassDone(old(db), old(allJobs), pushes, before, allJobs, r, p);
      PassWrites(pushes, r);
    }

    /** One pass, as the next of the monitor's polls. */
    method NextPoll(ghost w: Watch, ghost polls: seq<Poll>, ghost ops: seq<Op>,
                    extra: seq<NewJob>, start: int, r: Round)
      returns (p: Poll, ghost cut: nat, ghost more: seq<Op>)
      requires Monitoring(w, polls, ops, db, allJobs, extraPushed) && !EndsComplete(polls)
      requires |polls| < |w.rounds| && w.rounds[|polls|] == r && w.extra == extra && w.start == start
      requires DistinctIds(extra)
      modifies this
      ensures Monitoring(w, polls + [p], more, db, allJobs, extraPushed)
      ensures EndsComplete(polls + [p]) == Complete(p) && p.jobs == |allJobs|
      ensures Complete(p) && Tame(w.db, more) ==> AllTerminal(db, allJobs)
      ensures Complete(p) ==> FinishedAt(w.db, more, cut, allJobs)
    {
      ghost var before, was, had := db, allJobs, extraPushed;
      ghost var pushes, pass;
      p, pushes, pass := OnePass(extra, start, r);
      NextDone(w, polls, ops, before, was, had, p, pushes, pass, db, allJobs, extraPushed);
      more, cut := ops + pass, Cut(ops, pushes, r);
    }

    /** The graders run while the monitor waits. */
    method Sleep(ghost w: Watch, ghost polls: seq<Poll>, ghost ops: seq<Op>, gs: seq<GraderStep>)
      returns (ghost more: seq<Op>)
      requires Monitoring(w, polls, ops, db, allJobs, extraPushed) && polls != []
      modifies `db
      ensures Monitoring(w, polls, more, db, allJobs, extraPushed)
    {
      SleepAppend(w, polls, ops, db, allJobs, extraPushed, gs);
      more := ops + Grades(gs);
      Await(Grades(gs));
    }

    /**
     * The monitor loop over any clock readings and whatever graders do. It stops at the first poll that finds
     * every job finished, or when the time is up. If no finished job is undone meanwhile, the
     * done count never goes down, and all jobs are finished when the monitor says so.
     */
    method Monitor(extra: seq<NewJob>, start: int, rounds: seq<Round>)
      returns (polls: seq<Poll>, exit: Exit, ghost ops: seq<Op>, ghost cut: nat)
      requires Written(db, allJobs) && !extraPushed && DistinctIds(extra)
      modifies this
      ensures |polls| <= |rounds|
      ensures Monitoring(Watch(old(db), old(allJobs), extra, start, rounds), polls, ops, db, allJobs, extraPushed)
      ensures exit == AllDone <==> EndsComplete(polls)
      ensures exit == AllDone ==> polls[|polls| - 1].jobs == |allJobs| && FinishedAt(old(db), ops, cut, allJobs)
      ensures Tame(old(db), ops) && exit == AllDone ==> AllTerminal(db, allJobs)
      ensures exit == TimeUp ==> |polls| < |rounds| && rounds[|polls|].loopNow - start >= 600000
      ensures exit == Watching ==> |polls| == |rounds|
    {
      ghost var w := Watch(db, allJobs, extra, start, rounds);
      polls, ops, cut := [], [], 0;
      while |polls| < |rounds| && rounds[|polls|].loopNow - start < MaxWaitMs
        invariant Monitoring(w, polls, ops, db, allJobs, extraPushed) && !EndsComplete(polls)
        decreases |rounds| - |polls|
      {
        var p;
        p, cut, ops := NextPoll(w, polls, ops, extra, start, rounds[|polls|]);
        polls := polls + [p];
        if Complete(p) {
          return polls, AllDone, ops, cut;
        }
        ops := Sleep(w, polls, ops, rounds[|polls| - 1].whileAsleep);
      }
      exit := if |polls| < |rounds| then TimeUp else Watching;
    }

    /** The push loop: afterwards every watched job has been written. */
    method PushFirst(jobs: seq<NewJob>, during: seq<Served>) returns (ghost ops: seq<Op>)
      requires allJobs == [] && DistinctIds(jobs)
      modifies `db, `allJobs
      ensures db == RunOps(old(db), ops) && WritesOf(ops) == Commands(jobs)
      ensures allJobs == Tagged(jobs, 1) && Written(db, allJobs)
    {
      var flushes;
      flushes, ops := PushJobs(jobs, during);
      assert allJobs == Tagged(jobs, 1);
      PushedExactlyOnce(old(db), jobs, ops);
      TaggedWritten(db, jobs, 1);
    }

    /** Steps 3 and 4 of the benchmark together: every job of either push is watched from its write on. */
    method PushAndMonitor(jobs: seq<NewJob>, extra: seq<NewJob>, during: seq<Served>,
                          start: int, rounds: seq<Round>)
      returns (polls: seq<Poll>, exit: Exit, ghost ops: seq<Op>)
      requires allJobs == [] && !extraPushed && DistinctIds(jobs) && DistinctIds(extra)
      modifies this
      ensures allJobs == Tagged(jobs, 1) + (if extraPushed then Tagged(extra, 2) else [])
      ensures db == RunOps(old(db), ops) && Written(db, allJobs)
      ensures WritesOf(ops) == Commands(jobs) + (if extraPushed then Commands(extra) else [])
      ensures db.stream == old(db).stream + jobs + (if extraPushed then extra else [])
      ensures |polls| <= |rounds| && (extraPushed <==> ExtraDue(start, rounds, |polls|))
      ensures Sound(polls) && (exit == AllDone <==> EndsComplete(polls))
      ensures exit == AllDone ==> polls[|polls| - 1].jobs == |allJobs|
      ensures Tame(old(db), ops) && exit == AllDone ==> AllTerminal(db, allJobs)
    {
      ghost var pushes, watching, cut;
      pushes := PushFirst(jobs, during);
      polls, exit, watching, cut := Monitor(extra, start, rounds);
      ops := pushes + watching;
      Together(old(db), jobs, extra, start, rounds, pushes, polls, watching, db, allJobs, extraPushed);
    }
  }

  /**
   * The monitor may report that all jobs are done before the extra jobs are due: whenever its first poll, in
   * the first ten seconds, finds each job of the first push finished, it stops and never pushes the others.
   */
  method AllDoneBeforeExtra(b: Benchmark, extra: seq<NewJob>, start: int, rounds: seq<Round>)
    returns (polls: seq<Poll>, exit: Exit)
    requires Written(b.db, b.allJobs) && !b.extraPushed && DistinctIds(extra)
    requires rounds != [] && rounds[0].loopNow - start < MaxWaitMs && rounds[0].extraNow - start <= ExtraAfterMs
    requires AllTerminal(RunOps(b.db, Grades(rounds[0].beforeRead)), b.allJobs)
    modifies b
    ensures exit == AllDone && |polls| == 1 && polls[0].jobs == |b.allJobs|
    ensures !b.extraPushed && b.allJobs == old(b.allJobs)
  {
    ghost var w := Watch(b.db, b.allJobs, extra, start, rounds);
    ghost var ops, cut;
    polls, exit, ops, cut := b.Monitor(extra, start, rounds);
    EndsAtFirst(w, polls, ops, b.db, b.allJobs, b.extraPushed);
  }
}
