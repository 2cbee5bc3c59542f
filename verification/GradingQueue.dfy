/**
 * The grading queue as a transition system: job hashes, the stream and its pending list, the retry set,
 * the dead-letter stream and the statistics counters, together with the processes that act on them
 * (API and load-test producers, message handlers, retry movers).
 *
 * Every Redis call of a handler is a step of its own, so handlers, movers and producers interleave
 * freely between calls and may stop for good after any of them. A handler's ZADD and the retry loop's
 * ZREM may fail, which the worker only logs; a mover that gets another error gives its job up just as
 * one that dies.
 */
module GradingQueue {
  import opened Wrappers

  type JobId = string
  type MsgId = nat

  datatype Status = Queued | Processing | Completed | Failed | Retrying

  datatype Hash = Hash(status: Option<Status>, attempts: nat, payload: string)

  /** One integer per status: the counters of `grading:stats`. */
  datatype Stats = Stats(queued: int, active: int, completed: int, failed: int, retrying: int)

  datatype Message = Message(job: JobId, body: string, delivered: bool)

  /** What a handler does next; the attempt number is the one it read back from Redis. */
  datatype HandlerPc =
    | Received
    | Stored
    | Marked
    | Grading(attempts: nat)
    | Passed
    | Errored(attempts: nat)
    | Scheduling
    | DeadLettering
    | Acking

  datatype Handler = Handler(msg: MsgId, job: JobId, body: string, pc: HandlerPc)

  /** A retry mover read the job from the retry set, then removes it, appends it to the stream, marks it. */
  datatype MoverPc = Seen | Removed | Added | Refusing

  datatype Mover = Mover(job: JobId, pc: MoverPc)

  /** The job hashes and the counters, with a piece of history: which jobs were ever completed or failed. */
  datatype Books = Books(hashes: map<JobId, Hash>, stats: Stats, settled: set<JobId>)

  /**
   * `announced` are the jobs whose producer has appended the message and is yet to write the hash;
   * `uncounted` those whose hash was written on its own and not counted as queued, or not yet.
   * `accepted` and `dropped` are history: the payloads of all jobs ever pushed, and the jobs given up by a
   * mover that stopped with them in its hands or by a handler whose retry entry was not written.
   */
  datatype State = State(
    books: Books,
    stream: map<MsgId, Message>,
    nextMsg: MsgId,
    retry: set<JobId>,
    dlq: seq<JobId>,
    handlers: map<nat, Handler>,
    movers: map<nat, Mover>,
    announced: set<JobId>,
    uncounted: set<JobId>,
    accepted: map<JobId, string>,
    dropped: set<JobId>
  )

  /**
   * `valid` stands for JSON parsing and payload validation; `high` says of a payload that it is no preview,
   * so that its messages go to the high-priority stream; `maxAttempts` is the configured retry limit.
   */
  datatype Config = Config(valid: string -> bool, high: string -> bool, maxAttempts: int)

  /**
   * Producers append the message first. The API then registers the job in one MULTI, a load test writes the
   * hash and counts it in separate calls, the direct benchmark writes the hash and never counts it; jobs
   * pushed bare get their hash from the worker. `FailRemove` is a ZREM of the retry loop that fails.
   */
  datatype Action =
    | Submit(job: JobId, payload: string)
    | Register(job: JobId)
    | WriteHash(job: JobId)
    | CountQueued(job: JobId)
    | BarePush(job: JobId, payload: string)
    | Deliver(h: nat, m: MsgId)
    | Reclaim(h: nat, m: MsgId)
    | Advance(h: nat, ok: bool)
    | Crash(h: nat)
    | Peek(v: nat, job: JobId)
    | Move(v: nat)
    | FailRemove(v: nat)
    | MoverCrash(v: nat)

  /** The attempts a job may use up: at least one, whatever the configured limit. */
  function Limit(cfg: Config): int {
    if cfg.maxAttempts < 1 then 1 else cfg.maxAttempts
  }

  const Zero := Stats(0, 0, 0, 0, 0)

  const Initial := State(Books(map[], Zero, {}), map[], 0, {}, [], map[], map[], {}, {}, map[], {})

  function Bump(t: Stats, st: Status, d: int): Stats {
    Stats(if st == Queued then t.queued + d else t.queued,
          if st == Processing then t.active + d else t.active,
          if st == Completed then t.completed + d else t.completed,
          if st == Failed then t.failed + d else t.failed,
          if st == Retrying then t.retrying + d else t.retrying)
  }

  function Counter(t: Stats, st: Status): int {
    match st
    case Queued => t.queued
    case Processing => t.active
    case Completed => t.completed
    case Failed => t.failed
    case Retrying => t.retrying
  }

  predicate Terminal(st: Status) {
    st == Completed || st == Failed
  }

  function StatusOf(b: Books, j: JobId): Option<Status> {
    if j in b.hashes then b.hashes[j].status else None
  }

  predicate IsTerminal(s: State, j: JobId) {
    StatusOf(s.books, j).Some? && Terminal(StatusOf(s.books, j).value)
  }

  function HashOf(b: Books, j: JobId): Hash {
    if j in b.hashes then b.hashes[j] else Hash(None, 0, "")
  }

  /** The first half of the Lua script: a live status is left, nothing is taken back from a terminal one. */
  function Leave(t: Stats, prev: Option<Status>): Stats {
    if prev.Some? && !Terminal(prev.value) then Bump(t, prev.value, -1) else t
  }

  /** The Lua script: leave the status found in the hash, enter the next one. */
  function Transition(b: Books, j: JobId, next: Status): Books {
    Books(b.hashes[j := HashOf(b, j).(status := Some(next))],
          Bump(Leave(b.stats, StatusOf(b, j)), next, 1),
          if Terminal(next) then b.settled + {j} else b.settled)
  }

  /** A plain HSET of the payload, as done before processing starts. */
  function Store(b: Books, j: JobId, body: string): Books {
    b.(hashes := b.hashes[j := HashOf(b, j).(payload := body)])
  }

  /** HINCRBY of the attempt number. */
  function CountAttempt(b: Books, j: JobId): Books {
    b.(hashes := b.hashes[j := HashOf(b, j).(attempts := HashOf(b, j).attempts + 1)])
  }

  /** The API's MULTI after its XADD: it overwrites whatever status is there and counts the job as queued. */
  function Registered(b: Books, j: JobId, body: string): Books {
    Books(b.hashes[j := Hash(Some(Queued), 0, body)], Bump(b.stats, Queued, 1), b.settled)
  }

  /** The HSET of a load test after its XADD: the job is queued whatever it was, but no counter knows it. */
  function HashOnly(b: Books, j: JobId, body: string): Books {
    b.(hashes := b.hashes[j := Hash(Some(Queued), 0, body)])
  }

  function Append(s: State, j: JobId, body: string): State {
    s.(stream := s.stream[s.nextMsg := Message(j, body, false)], nextMsg := s.nextMsg + 1)
  }

  /** The payload carried by the message, or the one kept in the job hash when the message has none. */
  function Body(b: Books, h: Handler): string {
    if h.body != "" then h.body else HashOf(b, h.job).payload
  }

  predicate Rejected(cfg: Config, b: Books, h: Handler) {
    Body(b, h) == "" || !cfg.valid(Body(b, h))
  }

  /** The payload the job was pushed with. */
  function PayloadOf(s: State, j: JobId): string {
    if j in s.accepted then s.accepted[j] else ""
  }

  predicate IsPush(a: Action) {
    a.Submit? || a.BarePush?
  }

  /** The step changes only who has a job in hand. */
  predicate PassesOn(a: Action) {
    a.Deliver? || a.Reclaim? || a.Crash? || a.Peek? || a.FailRemove? || a.MoverCrash?
  }

  predicate Enabled(s: State, a: Action) {
    match a
    case Submit(j, _) => j !in s.accepted
    case BarePush(j, _) => j !in s.accepted
    case Register(j) => j in s.announced
    case WriteHash(j) => j in s.announced
    case CountQueued(j) => j in s.uncounted
    case Deliver(h, m) => h !in s.handlers && m in s.stream && !s.stream[m].delivered
    case Reclaim(h, m) => h !in s.handlers && m in s.stream && s.stream[m].delivered
    case Advance(h, _) => h in s.handlers
    case Crash(h) => h in s.handlers
    case Peek(v, j) => v !in s.movers && j in s.retry
    case Move(v) => v in s.movers
    case FailRemove(v) => v in s.movers && s.movers[v].pc == Seen
    case MoverCrash(v) => v in s.movers
  }

  /** What the next Redis call of `processMessage` does to the books. */
  function HandlerBooks(cfg: Config, b: Books, h: Handler): Books {
    match h.pc
    case Received => if Rejected(cfg, b, h) then Transition(b, h.job, Failed) else Store(b, h.job, Body(b, h))
    case Stored => Transition(b, h.job, Processing)
    case Marked => CountAttempt(b, h.job)
    case Passed => Transition(b, h.job, Completed)
    case Errored(n) => Transition(b, h.job, if n < cfg.maxAttempts then Retrying else Failed)
    case _ => b
  }

  /** The step runs the Lua script. */
  predicate WritesStatus(cfg: Config, b: Books, h: Handler) {
    h.pc == Stored || h.pc == Passed || h.pc.Errored? || (h.pc == Received && Rejected(cfg, b, h))
  }

  /** Where `processMessage` goes next; `ok` is the outcome of grading where the step is a grading. */
  function NextPc(cfg: Config, b: Books, h: Handler, ok: bool): HandlerPc {
    match h.pc
    case Received => if Rejected(cfg, b, h) then DeadLettering else Stored
    case Stored => Marked
    case Marked => Grading(HashOf(b, h.job).attempts + 1)
    case Grading(n) => if ok then Passed else Errored(n)
    case Errored(n) => if n < cfg.maxAttempts then Scheduling else DeadLettering
    case _ => Acking
  }

  /** `ok` is the outcome of grading, or of the ZADD that schedules the retry; other steps ignore it. */
  function AdvanceHandler(cfg: Config, s: State, h: nat, ok: bool): State
    requires h in s.handlers
  {
    var H := s.handlers[h];
    if H.pc == Acking then
      s.(stream := s.stream - {H.msg}, handlers := s.handlers - {h})
    else
      s.(books := HandlerBooks(cfg, s.books, H),
         handlers := s.handlers[h := H.(pc := NextPc(cfg, s.books, H, ok))],
         retry := if H.pc == Scheduling && ok then s.retry + {H.job} else s.retry,
         dropped := if H.pc == Scheduling && !ok then s.dropped + {H.job} else s.dropped,
         dlq := if H.pc == DeadLettering then s.dlq + [H.job] else s.dlq)
  }

  /** One Redis call of the retry loop and of `requeueJob`. */
  function AdvanceMover(s: State, v: nat): State
    requires v in s.movers
  {
    var M := s.movers[v];
    match M.pc
    case Seen => s.(retry := s.retry - {M.job}, movers := s.movers[v := M.(pc := Removed)])
    case Removed =>
      var body := HashOf(s.books, M.job).payload;
      if body == "" then
        s.(books := Transition(s.books, M.job, Failed), movers := s.movers[v := M.(pc := Refusing)])
      else
        Append(s, M.job, body).(movers := s.movers[v := M.(pc := Added)])
    case Added => s.(books := Transition(s.books, M.job, Queued), movers := s.movers - {v})
    case Refusing => s.(dlq := s.dlq + [M.job], movers := s.movers - {v})
  }

  function Apply(cfg: Config, s: State, a: Action): State
    requires Enabled(s, a)
  {
    match a
    case Submit(j, p) => Append(s, j, p).(accepted := s.accepted[j := p], announced := s.announced + {j})
    case BarePush(j, p) => Append(s, j, p).(accepted := s.accepted[j := p])
    case Register(j) => s.(books := Registered(s.books, j, PayloadOf(s, j)), announced := s.announced - {j})
    case WriteHash(j) =>
      s.(books := HashOnly(s.books, j, PayloadOf(s, j)),
         announced := s.announced - {j}, uncounted := s.uncounted + {j})
    case CountQueued(j) =>
      s.(books := s.books.(stats := Bump(s.books.stats, Queued, 1)), uncounted := s.uncounted - {j})
    case Deliver(h, m) =>
      s.(stream := s.stream[m := s.stream[m].(delivered := true)],
         handlers := s.handlers[h := Handler(m, s.stream[m].job, s.stream[m].body, Received)])
    case Reclaim(h, m) =>
      s.(handlers := s.handlers[h := Handler(m, s.stream[m].job, s.stream[m].body, Received)])
    case Advance(h, ok) => AdvanceHandler(cfg, s, h, ok)
    case Crash(h) => s.(handlers := s.handlers - {h})
    case Peek(v, j) => s.(movers := s.movers[v := Mover(j, Seen)])
    case Move(v) => AdvanceMover(s, v)
    case FailRemove(v) => s.(movers := s.movers[v := s.movers[v].(pc := Removed)])
    case MoverCrash(v) =>
      s.(movers := s.movers - {v},
         dropped := if s.movers[v].pc == Removed then s.dropped + {s.movers[v].job} else s.dropped)
  }

  /** A run is a list of actions each of which was enabled when it was taken. */
  ghost predicate IsRun(cfg: Config, run: seq<Action>)
    decreases |run|, 0
  {
    run == [] || (IsRun(cfg, run[..|run| - 1]) && Enabled(After(cfg, run[..|run| - 1]), run[|run| - 1]))
  }

  ghost function After(cfg: Config, run: seq<Action>): State
    requires IsRun(cfg, run)
    decreases |run|, 1
  {
    if run == [] then Initial else Apply(cfg, After(cfg, run[..|run| - 1]), run[|run| - 1])
  }
}
