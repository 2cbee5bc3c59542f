/** The life cycle of a job in calm runs, and that nothing on it undoes a finished job in the benchmark's store. */
module QueueLifeCycle {
  import opened Wrappers
  import opened GradingQueue
  import opened QueueFaithful
  import opened QueueCalm
  import opened QueueDrained
  import opened QueueTheorems
  import Store = BenchmarkStore

  /** The arrows between statuses; a job that was pushed bare starts with none. */
  predicate Arrow(before: Option<Status>, after: Status) {
    match after
    case Queued => before in {None, Some(Retrying)}
    case Processing => before in {None, Some(Queued), Some(Retrying)}
    case Failed => before in {None, Some(Queued), Some(Retrying), Some(Processing)}
    case Completed => before == Some(Processing)
    case Retrying => before == Some(Processing)
  }

  /** The status stays, or changes along an arrow. */
  predicate Follows(before: Option<Status>, after: Option<Status>) {
    before == after || (after.Some? && Arrow(before, after.value))
  }

  lemma AdvanceFollows(cfg: Config, s: State, h: nat, ok: bool, j: JobId)
    requires JobOk(cfg, s, j) && h in s.handlers
    ensures Follows(StatusOf(s.books, j), StatusOf(AdvanceHandler(cfg, s, h, ok).books, j))
  {
    var H := s.handlers[h];
    HandlerPayload(cfg, s.books, H, j);
    if H.job == j && H.pc != Acking {
      assert Holds(s, j, InHandler(h)) && Fits(cfg, s, j, InHandler(h));
    }
  }

  lemma MoveFollows(cfg: Config, s: State, v: nat, j: JobId)
    requires JobOk(cfg, s, j) && v in s.movers && Kept(cfg, s, s.movers[v].job)
    ensures Follows(StatusOf(s.books, j), StatusOf(AdvanceMover(s, v).books, j))
  {
    if s.movers[v].job == j {
      assert MoverFits(s, j, v);
      if s.movers[v].pc == Added {
        WaitingEarly(cfg, s, j);
      }
    }
  }

  lemma ProducerFollows(cfg: Config, s: State, a: Action, j: JobId)
    requires JobOk(cfg, s, j) && Enabled(s, a) && (a.Register? || a.WriteHash?)
    ensures Follows(StatusOf(s.books, j), StatusOf(Apply(cfg, s, a).books, j))
  {
    if a.job == j {
      WaitingEarly(cfg, s, j);
    }
  }

  /** Whatever step an orderly queue takes, the status of every job stays or changes along an arrow. */
  lemma StepFollows(cfg: Config, s: State, a: Action, j: JobId)
    requires Orderly(cfg, s) && Enabled(s, a)
    ensures Follows(StatusOf(s.books, j), StatusOf(Apply(cfg, s, a).books, j))
  {
    assert JobOk(cfg, s, j);
    match a
    case Advance(h, ok) => AdvanceFollows(cfg, s, h, ok, j);
    case Move(v) =>
      assert Kept(cfg, s, s.movers[v].job);
      MoveFollows(cfg, s, v, j);
    case Register(_) => ProducerFollows(cfg, s, a, j);
    case WriteHash(_) => ProducerFollows(cfg, s, a, j);
    case _ =>
  }

  /** After a calm run, whatever the next step is, every job moves along the arrows only. */
  lemma {:induction false} CalmRunFollows(cfg: Config, run: seq<Action>, a: Action, j: JobId)
    requires IsRun(cfg, run) && IsCalmRun(cfg, run) && Enabled(After(cfg, run), a)
    ensures Follows(StatusOf(After(cfg, run).books, j), StatusOf(Apply(cfg, After(cfg, run), a).books, j))
  {
    CalmRunOrderly(cfg, run);
    StepFollows(cfg, After(cfg, run), a, j);
  }

  /** The store of the benchmark, as far as it concerns one job with the given status. */
  function StoreWith(j: JobId, st: Status): Store.Db {
    Store.Db([], map[j := Store.Hash(st, 0, None)])
  }

  lemma ArrowUndoesNothing(j: JobId, before: Option<Status>, after: Option<Status>)
    requires Follows(before, after) && before.Some?
    ensures after.Some?
    ensures !Store.Undoes(StoreWith(j, before.value), Store.Grade(Store.GraderStep(j, after.value)))
  {
  }

  /**
   * What the benchmark's monitor needs of graders: what a step of an orderly queue makes of a job's status
   * does not undo a finished job, as no arrow leaves completed or failed.
   */
  lemma StepUndoesNothing(cfg: Config, s: State, a: Action, j: JobId)
    requires Orderly(cfg, s) && Enabled(s, a) && HasStatus(s, j)
    ensures StatusOf(Apply(cfg, s, a).books, j).Some?
    ensures var from, to := StatusOf(s.books, j).value, StatusOf(Apply(cfg, s, a).books, j).value;
            !Store.Undoes(StoreWith(j, from), Store.Grade(Store.GraderStep(j, to)))
  {
    StepFollows(cfg, s, a, j);
    ArrowUndoesNothing(j, StatusOf(s.books, j), StatusOf(Apply(cfg, s, a).books, j));
  }
}
