/** The grading benchmark: what becomes of each of its jobs. */
module GradingOutcomes {
  import opened Wrappers
  import opened Seqs
  import opened Batches

  datatype Mode = RunTests | Submit

  datatype State = Completed | Failed | Error | Timeout

  /** The reply to the submit request; an empty job id is no job id. */
  datatype SubmitReply = SubmitReply(status: int, jobId: string)

  /** What one poll sees: the clock at the loop test, and the attempt if there is one in the reply. */
  datatype PollReply = PollReply(elapsed: int, status: int, attempt: Option<AttemptView>)

  datatype AttemptView = AttemptView(status: string, graded: bool)

  const JobTimeoutMs := 300000
  const PollIntervalMs := 500

  /** What the poll settles, if anything. */
  function Verdict(mode: Mode, p: PollReply): Option<State> {
    if p.status != 200 || p.attempt == None then None
    else if mode == RunTests then (if p.attempt.value.graded then Some(Completed) else None)
    else if p.attempt.value.status == "GRADED" || p.attempt.value.status == "COMPLETED" then Some(Completed)
    else if p.attempt.value.status == "FAILED" then Some(Failed)
    else None
  }

  ghost predicate Undecided(mode: Mode, poll: nat -> PollReply, n: nat) {
    forall i: nat :: i < n ==> Verdict(mode, poll(i)) == None && poll(i).elapsed < JobTimeoutMs
  }

  ghost predicate ClockAdvances(poll: nat -> PollReply) {
    forall i: nat :: poll(i).elapsed >= PollIntervalMs * i
  }

  /** A poll settles a run by having been graded, and a submission by one of three statuses. */
  lemma VerdictByField(mode: Mode, p: PollReply)
    ensures Verdict(mode, p) == Some(Completed)
       <==> p.status == 200 && p.attempt.Some?
            && (if mode == RunTests then p.attempt.value.graded
                else p.attempt.value.status == "GRADED" || p.attempt.value.status == "COMPLETED")
    ensures Verdict(mode, p) == Some(Failed)
       <==> p.status == 200 && p.attempt.Some? && mode == Submit && p.attempt.value.status == "FAILED"
    ensures Verdict(mode, p).Some? ==> Verdict(mode, p).value in {Completed, Failed}
  {
  }

  /** The loop of one job ends with poll n: it settles the job, or comes too late. */
  ghost predicate EndsAt(mode: Mode, poll: nat -> PollReply, n: nat, state: State) {
    && Undecided(mode, poll, n)
    && if poll(n).elapsed < JobTimeoutMs then Verdict(mode, poll(n)) == Some(state) else state == Timeout
  }

  /** A submission is completed or failed by the first poll in time that shows one of the three statuses. */
  lemma SubmitByField(poll: nat -> PollReply, n: nat, state: State)
    requires EndsAt(Submit, poll, n, state)
    ensures state == Completed <==> exists i: nat ::
              && (forall j: nat :: j <= i ==> poll(j).elapsed < 300000)
              && poll(i).status == 200 && poll(i).attempt.Some?
              && poll(i).attempt.value.status in {"GRADED", "COMPLETED"}
              && forall j: nat :: j < i && poll(j).status == 200 && poll(j).attempt.Some?
                   ==> poll(j).attempt.value.status !in {"GRADED", "COMPLETED", "FAILED"}
    ensures state == Failed <==> exists i: nat ::
              && (forall j: nat :: j <= i ==> poll(j).elapsed < 300000)
              && poll(i).status == 200 && poll(i).attempt.Some? && poll(i).attempt.value.status == "FAILED"
              && forall j: nat :: j < i && poll(j).status == 200 && poll(j).attempt.Some?
                   ==> poll(j).attempt.value.status !in {"GRADED", "COMPLETED", "FAILED"}
    ensures state == Timeout <==> !exists i: nat ::
              && (forall j: nat :: j <= i ==> poll(j).elapsed < 300000)
              && poll(i).status == 200 && poll(i).attempt.Some?
              && poll(i).attempt.value.status in {"GRADED", "COMPLETED", "FAILED"}
  {
    forall i: nat | i < n
      ensures poll(i).elapsed < 300000
      ensures poll(i).status == 200 && poll(i).attempt.Some?
          ==> poll(i).attempt.value.status !in {"GRADED", "COMPLETED", "FAILED"}
    {
      VerdictByField(Submit, poll(i));
    }
    VerdictByField(Submit, poll(n));
  }

  /** A run of the tests is completed by a poll in time that shows it graded, and never fails. */
  lemma RunTestsByField(poll: nat -> PollReply, n: nat, state: State)
    requires EndsAt(RunTests, poll, n, state)
    ensures state == Completed <==> exists i: nat ::
              && (forall j: nat :: j <= i ==> poll(j).elapsed < 300000)
              && poll(i).status == 200 && poll(i).attempt.Some? && poll(i).attempt.value.graded
    ensures state == Completed || state == Timeout
  {
    forall i: nat | i < n
      ensures poll(i).elapsed < 300000
      ensures poll(i).status == 200 && poll(i).attempt.Some? ==> !poll(i).attempt.value.graded
    {
      VerdictByField(RunTests, poll(i));
    }
    VerdictByField(RunTests, poll(n));
  }

  /**
   * The life of one job after its attempt was created. It is an error exactly when the submit request
   * failed without a job id; otherwise the first poll with a verdict in time decides, or it times out.
   */
  method JobOutcome(mode: Mode, submit: SubmitReply, poll: nat -> PollReply) returns (state: State, polls: nat)
    requires ClockAdvances(poll)
    ensures state == Error <==> submit.jobId == "" && submit.status != 200
    ensures state != Error ==> EndsAt(mode, poll, polls, state)
    ensures polls <= JobTimeoutMs / PollIntervalMs
  {
    if submit.jobId == "" && submit.status != 200 {
      return Error, 0;
    }
    polls := 0;
    while poll(polls).elapsed < JobTimeoutMs
      invariant Undecided(mode, poll, polls)
      invariant PollIntervalMs * (polls - 1) < JobTimeoutMs
      decreases JobTimeoutMs / PollIntervalMs - polls
    {
      assert poll(polls).elapsed >= PollIntervalMs * polls;
      var res := poll(polls);
      if res.status == 200 && res.attempt.Some? {
        var attempt := res.attempt.value;
        if mode == RunTests {
          if attempt.graded {
            return Completed, polls;
          }
        } else {
          if attempt.status == "GRADED" || attempt.status == "COMPLETED" {
            return Completed, polls;
          }
          if attempt.status == "FAILED" {
            return Failed, polls;
          }
        }
      }
      polls := polls + 1;
    }
    state := Timeout;
  }

  /** One entry of `attempts`; the id is missing when the attempt could not be created. */
  datatype Attempt = Attempt(index: nat, id: Option<string>)

  predicate HasId(a: Attempt) {
    a.id.Some? && a.id.value != ""
  }

  predicate LacksId(a: Attempt) {
    !HasId(a)
  }

  datatype Result = Result(index: nat, state: State)

  function ResultOf(outcome: nat -> State): Attempt -> Result {
    (a: Attempt) => Result(a.index, outcome(a.index))
  }

  function AllResults(attempts: seq<Attempt>, outcome: nat -> State): seq<Result> {
    Map(Filter(attempts, HasId), ResultOf(outcome))
  }

  function InState(st: State): Result -> bool {
    (r: Result) => r.state == st
  }

  function IndexOf(r: Result): nat {
    r.index
  }

  function AttemptIndex(a: Attempt): nat {
    a.index
  }

  /** The job numbers reported under one state. */
  function Reported(attempts: seq<Attempt>, outcome: nat -> State, st: State): seq<nat> {
    Map(Filter(AllResults(attempts, outcome), InState(st)), IndexOf)
  }

  function SetupErrors(attempts: seq<Attempt>): seq<nat> {
    Map(Filter(attempts, LacksId), AttemptIndex)
  }

  /** The job numbers of all five classes of the report together. */
  ghost function Accounted(attempts: seq<Attempt>, outcome: nat -> State): multiset<nat> {
    multiset(Reported(attempts, outcome, Completed)) + multiset(Reported(attempts, outcome, Failed))
    + multiset(Reported(attempts, outcome, Error)) + multiset(Reported(attempts, outcome, Timeout))
    + multiset(SetupErrors(attempts))
  }

  lemma AllResultsAppend(attempts: seq<Attempt>, a: Attempt, outcome: nat -> State)
    ensures AllResults(attempts + [a], outcome)
         == AllResults(attempts, outcome) + (if HasId(a) then [Result(a.index, outcome(a.index))] else [])
  {
    FilterAppend(attempts, a, HasId);
    var valid := Filter(attempts, HasId);
    assert Filter(attempts + [a], HasId) == valid + (if HasId(a) then [a] else []);
    assert Map(valid + [a], ResultOf(outcome)) == Map(valid, ResultOf(outcome)) + [Result(a.index, outcome(a.index))];
  }

  lemma ReportedAppend(attempts: seq<Attempt>, a: Attempt, outcome: nat -> State, st: State)
    ensures Reported(attempts + [a], outcome, st)
         == Reported(attempts, outcome, st) + Only(HasId(a) && outcome(a.index) == st, a.index)
  {
    AllResultsAppend(attempts, a, outcome);
    var before, result := AllResults(attempts, outcome), Result(a.index, outcome(a.index));
    if HasId(a) {
      InStateAppend(before, result, st);
    } else {
      assert before + [] == before;
    }
  }

  lemma InStateAppend(results: seq<Result>, r: Result, st: State)
    ensures Map(Filter(results + [r], InState(st)), IndexOf)
         == Map(Filter(results, InState(st)), IndexOf) + Only(r.state == st, r.index)
  {
    FilterAppend(results, r, InState(st));
  }

  function Only(c: bool, x: nat): seq<nat> {
    if c then [x] else []
  }

  lemma SetupAppend(attempts: seq<Attempt>, a: Attempt)
    ensures SetupErrors(attempts + [a]) == SetupErrors(attempts) + Only(!HasId(a), a.index)
  {
    FilterAppend(attempts, a, LacksId);
  }

  lemma OnlyMultiset(c: bool, x: nat)
    ensures multiset(Only(c, x)) == if c then multiset{x} else multiset{}
  {
  }

  /** An attempt is in exactly one of the five classes. */
  lemma OneOfFive(x: nat, ok: bool, st: State)
    ensures multiset(Only(ok && st == Completed, x)) + multiset(Only(ok && st == Failed, x))
            + multiset(Only(ok && st == Error, x)) + multiset(Only(ok && st == Timeout, x)) + multiset(Only(!ok, x))
         == multiset{x}
  {
    OnlyMultiset(ok && st == Completed, x);
    OnlyMultiset(ok && st == Failed, x);
    OnlyMultiset(ok && st == Error, x);
    OnlyMultiset(ok && st == Timeout, x);
    OnlyMultiset(!ok, x);
    assert st.Completed? || st.Failed? || st.Error? || st.Timeout?;
  }

  lemma AccountedAppend(attempts: seq<Attempt>, a: Attempt, outcome: nat -> State)
    ensures Accounted(attempts + [a], outcome) == Accounted(attempts, outcome) + multiset{a.index}
  {
    var st, x, ok := outcome(a.index), a.index, HasId(a);
    ReportedAppend(attempts, a, outcome, Completed);
    ReportedAppend(attempts, a, outcome, Failed);
    ReportedAppend(attempts, a, outcome, Error);
    ReportedAppend(attempts, a, outcome, Timeout);
    SetupAppend(attempts, a);
    FiveSums(Reported(attempts, outcome, Completed), Reported(attempts, outcome, Failed),
             Reported(attempts, outcome, Error), Reported(attempts, outcome, Timeout), SetupErrors(attempts),
             Only(ok && st == Completed, x), Only(ok && st == Failed, x), Only(ok && st == Error, x),
             Only(ok && st == Timeout, x), Only(!ok, x));
    OneOfFive(x, ok, st);
  }

  lemma FiveSums(a: seq<nat>, b: seq<nat>, c: seq<nat>, d: seq<nat>, e: seq<nat>,
                 p: seq<nat>, q: seq<nat>, r: seq<nat>, s: seq<nat>, t: seq<nat>)
    ensures multiset(a + p) + multiset(b + q) + multiset(c + r) + multiset(d + s) + multiset(e + t)
         == multiset(a) + multiset(b) + multiset(c) + multiset(d) + multiset(e)
            + (multiset(p) + multiset(q) + multiset(r) + multiset(s) + multiset(t))
  {
  }

  ghost predicate Balanced(attempts: seq<Attempt>, outcome: nat -> State) {
    Accounted(attempts, outcome) == multiset(Map(attempts, AttemptIndex))
  }

  lemma IndicesAppend(attempts: seq<Attempt>, a: Attempt)
    ensures multiset(Map(attempts + [a], AttemptIndex)) == multiset(Map(attempts, AttemptIndex)) + multiset{a.index}
  {
    assert Map(attempts + [a], AttemptIndex) == Map(attempts, AttemptIndex) + [a.index];
  }

  lemma {:induction false} BalancedAppend(attempts: seq<Attempt>, a: Attempt, outcome: nat -> State)
    requires Balanced(attempts, outcome)
    ensures Balanced(attempts + [a], outcome)
  {
    AccountedAppend(attempts, a, outcome);
    IndicesAppend(attempts, a);
  }

  lemma BalancedNone(outcome: nat -> State)
    ensures Balanced([], outcome)
  {
  }

  /** Every attempt is counted in exactly one class, whatever its outcome. */
  lemma {:induction false} EveryAttemptOnce(attempts: seq<Attempt>, outcome: nat -> State)
    ensures Balanced(attempts, outcome)
    decreases |attempts|
  {
    if attempts == [] {
      BalancedNone(outcome);
    } else {
      var init, a := attempts[..|attempts| - 1], attempts[|attempts| - 1];
      EveryAttemptOnce(init, outcome);
      BalancedAppend(init, a, outcome);
      assert attempts == init + [a];
    }
  }

  /** A class reports the attempts that were created and had its outcome; the errors of setup, the others. */
  lemma {:induction false} ReportedByField(attempts: seq<Attempt>, outcome: nat -> State, st: State, x: nat)
    ensures x in Reported(attempts, outcome, st)
       <==> exists a :: a in attempts && a.id.Some? && a.id.value != "" && outcome(a.index) == st && a.index == x
    ensures x in SetupErrors(attempts)
       <==> exists a :: a in attempts && (a.id == None || a.id.value == "") && a.index == x
    decreases |attempts|
  {
    if attempts != [] {
      var init, a := attempts[..|attempts| - 1], attempts[|attempts| - 1];
      ReportedByField(init, outcome, st, x);
      ReportedAppend(init, a, outcome, st);
      SetupAppend(init, a);
      assert attempts == init + [a];
      assert forall b :: b in attempts <==> b in init || b == a;
    }
  }

  /**
   * Conservation: when the attempts were created in any completion order, each job number appears in
   * exactly one of the five classes of the report, and their sizes add up to the number of jobs.
   */
  lemma OutcomesConserved(jobs: nat, attempts: seq<Attempt>, outcome: nat -> State)
    requires multiset(Map(attempts, AttemptIndex)) == multiset(Range(0, jobs))
    ensures Accounted(attempts, outcome) == multiset(Range(0, jobs))
    ensures |Reported(attempts, outcome, Completed)| + |Reported(attempts, outcome, Failed)|
            + |Reported(attempts, outcome, Error)| + |Reported(attempts, outcome, Timeout)|
            + |SetupErrors(attempts)| == jobs
  {
    EveryAttemptOnce(attempts, outcome);
    assert |Accounted(attempts, outcome)| == |multiset(Range(0, jobs))|;
  }
}
