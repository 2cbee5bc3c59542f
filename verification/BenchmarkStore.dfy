/** The part of Redis the direct benchmark writes and reads, shared with the graders. */
module BenchmarkStore {
  import opened Wrappers
  import opened Seqs
  import G = GradingQueue

  type Status = G.Status

  datatype NewJob = NewJob(id: string, createdAt: int)

  /** A creation time that was never written reads as zero. */
  datatype Hash = Hash(status: Status, createdAt: int, ttl: Option<int>)

  /** The stream holds what producers appended, in order; what the retry loop puts back is not recorded. */
  datatype Db = Db(stream: seq<NewJob>, hashes: map<string, Hash>)

  datatype Command = XAdd(job: NewJob) | HSet(job: NewJob) | Expire(id: string)

  /** A worker or the retry loop gives the job some status, whatever it had, and a hash if it has none. */
  datatype GraderStep = GraderStep(id: string, next: Status)

  datatype Op = Write(c: Command) | Grade(g: GraderStep)

  const JobTtl := 7200
  const GraderTtl := 172800

  function CreatedAt(db: Db, id: string): int {
    if id in db.hashes then db.hashes[id].createdAt else 0
  }

  function Execute(db: Db, c: Command): Db {
    match c
    case XAdd(job) => db.(stream := db.stream + [job])
    case HSet(job) =>
      var ttl := if job.id in db.hashes then db.hashes[job.id].ttl else None;
      db.(hashes := db.hashes[job.id := Hash(G.Queued, job.createdAt, ttl)])
    case Expire(id) =>
      if id in db.hashes then db.(hashes := db.hashes[id := db.hashes[id].(ttl := Some(JobTtl))]) else db
  }

  /** Every status change of a grader also renews the hash's expiry. */
  function Step(db: Db, g: GraderStep): Db {
    db.(hashes := db.hashes[g.id := Hash(g.next, CreatedAt(db, g.id), Some(GraderTtl))])
  }

  function Do(db: Db, op: Op): Db {
    match op
    case Write(c) => Execute(db, c)
    case Grade(g) => Step(db, g)
  }

  function RunOps(db: Db, ops: seq<Op>): Db {
    if ops == [] then db else Do(RunOps(db, ops[..|ops| - 1]), ops[|ops| - 1])
  }

  /** The commands among the operations, in order. */
  function WritesOf(ops: seq<Op>): seq<Command> {
    if ops == [] then []
    else WritesOf(ops[..|ops| - 1]) + (if ops[|ops| - 1].Write? then [ops[|ops| - 1].c] else [])
  }

  /** Writing command by command, with no pipeline and no grader. */
  function Direct(db: Db, cs: seq<Command>): Db {
    if cs == [] then db else Execute(Direct(db, cs[..|cs| - 1]), cs[|cs| - 1])
  }

  function Grades(gs: seq<GraderStep>): seq<Op> {
    Map(gs, (g: GraderStep) => Grade(g))
  }

  lemma {:induction false} RunOpsConcat(db: Db, a: seq<Op>, b: seq<Op>)
    ensures RunOps(db, a + b) == RunOps(RunOps(db, a), b)
    decreases |b|
  {
    if b == [] {
      assert a + b == a;
    } else {
      assert (a + b)[..|a + b| - 1] == a + b[..|b| - 1];
      RunOpsConcat(db, a, b[..|b| - 1]);
    }
  }

  lemma {:induction false} WritesConcat(a: seq<Op>, b: seq<Op>)
    ensures WritesOf(a + b) == WritesOf(a) + WritesOf(b)
    decreases |b|
  {
    if b == [] {
      assert a + b == a;
    } else {
      assert (a + b)[..|a + b| - 1] == a + b[..|b| - 1];
      WritesConcat(a, b[..|b| - 1]);
    }
  }

  lemma {:induction false} GradesWriteNothing(gs: seq<GraderStep>)
    ensures WritesOf(Grades(gs)) == []
    decreases |gs|
  {
    if gs != [] {
      GradesWriteNothing(gs[..|gs| - 1]);
      assert Grades(gs)[..|gs| - 1] == Grades(gs[..|gs| - 1]);
    }
  }

  /** The steps of graders served before the first command of a pipeline, before the second, and so on. */
  type Served = seq<seq<GraderStep>>

  function ServedAt(during: Served, k: nat): seq<Op> {
    if k < |during| then Grades(during[k]) else []
  }

  lemma ServedWritesNothing(during: Served, k: nat)
    ensures WritesOf(ServedAt(during, k)) == []
  {
    if k < |during| {
      GradesWriteNothing(during[k]);
    }
  }

  /** A pipeline as the server executes it: before each command, and after the last, graders may be served. */
  function Woven(cs: seq<Command>, during: Served): seq<Op> {
    if cs == [] then ServedAt(during, 0)
    else Woven(cs[..|cs| - 1], during) + ([Write(cs[|cs| - 1])] + ServedAt(during, |cs|))
  }

  lemma {:induction false} OneWrite(before: seq<Op>, c: Command, after: seq<Op>)
    requires WritesOf(after) == []
    ensures WritesOf(before + ([Write(c)] + after)) == WritesOf(before) + [c]
  {
    WritesConcat([Write(c)], after);
    WritesConcat(before, [Write(c)] + after);
    assert [Write(c)][..0] == [];
  }

  lemma {:induction false} WovenWrites(cs: seq<Command>, during: Served)
    ensures WritesOf(Woven(cs, during)) == cs
    decreases |cs|
  {
    if cs == [] {
      ServedWritesNothing(during, 0);
    } else {
      var init, c := cs[..|cs| - 1], cs[|cs| - 1];
      WovenWrites(init, during);
      ServedWritesNothing(during, |cs|);
      OneWrite(Woven(init, during), c, ServedAt(during, |cs|));
    }
  }

  /**
   * The store `a` is `b` with graders at work: the same messages, and every hash of `b` with its creation
   * time and an expiry where `b` has one.
   */
  ghost predicate Refines(a: Db, b: Db) {
    && a.stream == b.stream
    && (forall id | id in b.hashes :: id in a.hashes && a.hashes[id].createdAt == b.hashes[id].createdAt
                                   && (b.hashes[id].ttl.Some? ==> a.hashes[id].ttl.Some?))
  }

  lemma WriteRefines(a: Db, b: Db, c: Command)
    requires Refines(a, b)
    ensures Refines(Execute(a, c), Execute(b, c))
  {
  }

  lemma GradeRefines(a: Db, b: Db, g: GraderStep)
    requires Refines(a, b)
    ensures Refines(Step(a, g), b)
  {
  }

  /**
   * Buffering commands and flushing them in batches, with graders served between any two commands, stores
   * what writing each command at once would have stored, but for statuses, expiries and hashes that only
   * graders wrote.
   */
  lemma {:induction false} PipelineRefinesDirect(db: Db, ops: seq<Op>)
    ensures Refines(RunOps(db, ops), Direct(db, WritesOf(ops)))
    decreases |ops|
  {
    if ops != [] {
      var init, op := ops[..|ops| - 1], ops[|ops| - 1];
      PipelineRefinesDirect(db, init);
      if op.Write? {
        assert WritesOf(ops)[..|WritesOf(ops)| - 1] == WritesOf(init);
        WriteRefines(RunOps(db, init), Direct(db, WritesOf(init)), op.c);
      } else {
        assert WritesOf(ops) == WritesOf(init);
        GradeRefines(RunOps(db, init), Direct(db, WritesOf(init)), op.g);
      }
    }
  }

  /** Some grader gave the job a status. */
  predicate Touched(ops: seq<Op>, id: string) {
    exists k :: 0 <= k < |ops| && ops[k].Grade? && ops[k].g.id == id
  }

  ghost predicate SameAt(a: Db, b: Db, id: string) {
    (id in a.hashes <==> id in b.hashes) && (id in a.hashes ==> a.hashes[id] == b.hashes[id])
  }

  lemma WriteSameAt(a: Db, b: Db, c: Command, id: string)
    requires SameAt(a, b, id)
    ensures SameAt(Execute(a, c), Execute(b, c), id)
  {
  }

  lemma OtherSameAt(a: Db, b: Db, g: GraderStep, id: string)
    requires SameAt(a, b, id) && g.id != id
    ensures SameAt(Step(a, g), b, id)
  {
  }

  /** A job no grader touched is stored exactly as if it had been written directly. */
  lemma {:induction false} UntouchedIsDirect(db: Db, ops: seq<Op>, id: string)
    requires !Touched(ops, id)
    ensures SameAt(RunOps(db, ops), Direct(db, WritesOf(ops)), id)
    decreases |ops|
  {
    if ops != [] {
      var init, op := ops[..|ops| - 1], ops[|ops| - 1];
      assert !Touched(init, id) by {
        assert forall k | 0 <= k < |init| :: init[k] == ops[k];
      }
      UntouchedIsDirect(db, init, id);
      if op.Write? {
        assert WritesOf(ops)[..|WritesOf(ops)| - 1] == WritesOf(init);
        WriteSameAt(RunOps(db, init), Direct(db, WritesOf(init)), op.c, id);
      } else {
        assert WritesOf(ops) == WritesOf(init);
        OtherSameAt(RunOps(db, init), Direct(db, WritesOf(init)), op.g, id);
      }
    }
  }

  lemma {:induction false} HashesStay(db: Db, ops: seq<Op>)
    ensures db.hashes.Keys <= RunOps(db, ops).hashes.Keys
    decreases |ops|
  {
    if ops != [] {
      HashesStay(db, ops[..|ops| - 1]);
    }
  }

  function CommandsOf(j: NewJob): seq<Command> {
    [XAdd(j), HSet(j), Expire(j.id)]
  }

  function Commands(jobs: seq<NewJob>): seq<Command> {
    if jobs == [] then [] else Commands(jobs[..|jobs| - 1]) + CommandsOf(jobs[|jobs| - 1])
  }

  lemma DirectJob(db: Db, cs: seq<Command>, j: NewJob)
    ensures var d := Direct(db, cs);
            Direct(db, cs + CommandsOf(j)) ==
            Db(d.stream + [j], d.hashes[j.id := Hash(G.Queued, j.createdAt, Some(JobTtl))])
  {
    var all := cs + CommandsOf(j);
    assert all[..|all| - 1] == cs + [XAdd(j), HSet(j)];
    assert (cs + [XAdd(j), HSet(j)])[..|cs| + 1] == cs + [XAdd(j)];
    assert (cs + [XAdd(j)])[..|cs|] == cs;
    assert Direct(db, cs + [XAdd(j)]) == Execute(Direct(db, cs), XAdd(j));
    assert Direct(db, cs + [XAdd(j), HSet(j)]) == Execute(Direct(db, cs + [XAdd(j)]), HSet(j));
    assert Direct(db, all) == Execute(Direct(db, cs + [XAdd(j), HSet(j)]), Expire(j.id));
  }

  ghost predicate DistinctIds(jobs: seq<NewJob>) {
    forall i, k :: 0 <= i < k < |jobs| ==> jobs[i].id != jobs[k].id
  }

  ghost function Ids(jobs: seq<NewJob>): set<string> {
    set j | j in jobs :: j.id
  }

  lemma IdsAppend(jobs: seq<NewJob>, j: NewJob)
    ensures Ids(jobs + [j]) == Ids(jobs) + {j.id}
  {
    assert j in jobs + [j];
    assert forall x :: x in jobs + [j] <==> x in jobs || x == j;
  }

  /** d is db with the jobs appended to the stream and one queued hash for each. */
  ghost predicate Pushed(db: Db, d: Db, jobs: seq<NewJob>) {
    && d.stream == db.stream + jobs
    && d.hashes.Keys == db.hashes.Keys + Ids(jobs)
    && (forall j | j in jobs :: j.id in d.hashes && d.hashes[j.id] == Hash(G.Queued, j.createdAt, Some(7200)))
    && (forall id | id in db.hashes && id !in Ids(jobs) :: d.hashes[id] == db.hashes[id])
  }

  lemma PushedAppend(db: Db, d: Db, jobs: seq<NewJob>, j: NewJob)
    requires Pushed(db, d, jobs) && j.id !in Ids(jobs)
    ensures Pushed(db, Db(d.stream + [j], d.hashes[j.id := Hash(G.Queued, j.createdAt, Some(7200))]), jobs + [j])
  {
    IdsAppend(jobs, j);
    var e := Db(d.stream + [j], d.hashes[j.id := Hash(G.Queued, j.createdAt, Some(7200))]);
    assert e.stream == db.stream + (jobs + [j]);
    forall k | k in jobs + [j]
      ensures k.id in e.hashes && e.hashes[k.id] == Hash(G.Queued, k.createdAt, Some(7200))
    {
      if k in jobs {
        assert k.id in Ids(jobs);
      }
    }
  }

  /** Written directly, the jobs are appended to the stream in order and get one queued hash each. */
  lemma {:induction false} DirectCommands(db: Db, jobs: seq<NewJob>)
    requires DistinctIds(jobs)
    ensures Pushed(db, Direct(db, Commands(jobs)), jobs)
    decreases |jobs|
  {
    if jobs == [] {
      assert Ids(jobs) == {};
    } else {
      var init, j := jobs[..|jobs| - 1], jobs[|jobs| - 1];
      DirectCommands(db, init);
      DirectJob(db, Commands(init), j);
      PushedAppend(db, Direct(db, Commands(init)), init, j);
      assert jobs == init + [j];
    }
  }

  /** Every job has a hash with its creation time that expires, as the benchmark wrote it if no grader touched it. */
  ghost predicate Holds(db: Db, jobs: seq<NewJob>, ops: seq<Op>) {
    forall j | j in jobs ::
      && j.id in db.hashes && db.hashes[j.id].createdAt == j.createdAt && db.hashes[j.id].ttl.Some?
      && (!Touched(ops, j.id) ==> db.hashes[j.id] == Hash(G.Queued, j.createdAt, Some(7200)))
  }

  lemma {:induction false} JobHolds(db: Db, jobs: seq<NewJob>, ops: seq<Op>, j: NewJob)
    requires DistinctIds(jobs) && WritesOf(ops) == Commands(jobs) && j in jobs
    ensures var d := RunOps(db, ops);
            && j.id in d.hashes && d.hashes[j.id].createdAt == j.createdAt && d.hashes[j.id].ttl.Some?
            && (!Touched(ops, j.id) ==> d.hashes[j.id] == Hash(G.Queued, j.createdAt, Some(7200)))
  {
    PipelineRefinesDirect(db, ops);
    DirectCommands(db, jobs);
    if !Touched(ops, j.id) {
      UntouchedIsDirect(db, ops, j.id);
    }
  }

  /** However the commands were batched and interleaved, every job is in the stream once and has its hash. */
  lemma {:induction false} PushedExactlyOnce(db: Db, jobs: seq<NewJob>, ops: seq<Op>)
    requires DistinctIds(jobs) && WritesOf(ops) == Commands(jobs)
    ensures RunOps(db, ops).stream == db.stream + jobs
    ensures Holds(RunOps(db, ops), jobs, ops)
    ensures forall id | id in RunOps(db, ops).hashes :: id in db.hashes || id in Ids(jobs) || Touched(ops, id)
  {
    PipelineRefinesDirect(db, ops);
    DirectCommands(db, jobs);
    forall j | j in jobs {
      JobHolds(db, jobs, ops, j);
    }
    forall id | !Touched(ops, id) {
      UntouchedIsDirect(db, ops, id);
    }
  }

  /** The operation writes the hash of the job. */
  predicate Writes(op: Op, id: string) {
    match op
    case Grade(g) => g.id == id
    case Write(c) => (c.HSet? && c.job.id == id) || (c.Expire? && c.id == id)
  }

  /** After a grader's last word a hash has the status it gave and two days to live; nobody else dated the job. */
  lemma {:induction false} GradedByField(db: Db, ops: seq<Op>, id: string, k: nat)
    requires k < |ops| && ops[k].Grade? && ops[k].g.id == id
    requires forall i :: k < i < |ops| ==> !Writes(ops[i], id)
    ensures var d := RunOps(db, ops);
            && id in d.hashes && d.hashes[id].status == ops[k].g.next && d.hashes[id].ttl == Some(172800)
            && (id !in db.hashes && (forall i :: 0 <= i < |ops| ==> ops[i].Grade?) ==> d.hashes[id].createdAt == 0)
    decreases |ops|
  {
    var init := ops[..|ops| - 1];
    if k < |init| {
      GradedByField(db, init, id, k);
    } else if id !in db.hashes && forall i :: 0 <= i < |ops| ==> ops[i].Grade? {
      OnlyGraded(db, init, id);
    }
  }

  lemma {:induction false} OnlyGraded(db: Db, ops: seq<Op>, id: string)
    requires id !in db.hashes && forall i :: 0 <= i < |ops| ==> ops[i].Grade?
    ensures CreatedAt(RunOps(db, ops), id) == 0
    decreases |ops|
  {
    if ops != [] {
      OnlyGraded(db, ops[..|ops| - 1], id);
    }
  }

  ghost predicate Finished(db: Db, id: string) {
    id in db.hashes && G.Terminal(db.hashes[id].status)
  }

  /** The operation takes a finished job out of completed and failed: a grader's step, or a late hash. */
  ghost predicate Undoes(db: Db, op: Op) {
    match op
    case Grade(g) => Finished(db, g.id) && !G.Terminal(g.next)
    case Write(c) => c.HSet? && Finished(db, c.job.id)
  }

  /** An operation leaves finished jobs finished exactly when it does not undo one. */
  lemma KeepsFinishedIff(db: Db, op: Op)
    ensures (forall id | Finished(db, id) :: Finished(Do(db, op), id)) <==> !Undoes(db, op)
  {
    if Undoes(db, op) {
      var id := if op.Grade? then op.g.id else op.c.job.id;
      assert Finished(db, id) && !Finished(Do(db, op), id);
    }
  }

  /** Nothing undoes a finished job on the way. */
  ghost predicate Tame(db: Db, ops: seq<Op>) {
    ops == [] || (Tame(db, ops[..|ops| - 1]) && !Undoes(RunOps(db, ops[..|ops| - 1]), ops[|ops| - 1]))
  }

  lemma {:induction false} TameKeepsFinished(db: Db, ops: seq<Op>)
    requires Tame(db, ops)
    ensures forall id | Finished(db, id) :: Finished(RunOps(db, ops), id)
    decreases |ops|
  {
    if ops != [] {
      TameKeepsFinished(db, ops[..|ops| - 1]);
      KeepsFinishedIff(RunOps(db, ops[..|ops| - 1]), ops[|ops| - 1]);
    }
  }

  lemma {:induction false} TameSplit(db: Db, a: seq<Op>, b: seq<Op>)
    ensures Tame(db, a + b) <==> Tame(db, a) && Tame(RunOps(db, a), b)
    decreases |b|
  {
    if b == [] {
      assert a + b == a;
    } else {
      var all := a + b;
      assert all[..|all| - 1] == a + b[..|b| - 1] && all[|all| - 1] == b[|b| - 1];
      TameSplit(db, a, b[..|b| - 1]);
      RunOpsConcat(db, a, b[..|b| - 1]);
    }
  }
}
