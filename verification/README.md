# Verification of the grading queue and its load tools

The repository runs coding exams: submissions become jobs in Redis, a Go worker grades them, and a set of
scripts loads the platform and measures it. This project models the stateful parts of both and proves what
they keep over every run.

* **The grading queue** (`GradingQueue`, `Queue*`). Job hashes, the two streams with their pending entries, the
  retry set, the dead-letter stream and the statistics counters form a transition system. Each Redis call of the
  worker, of its retry loop and of the producers is a step of its own; handlers, movers and producers
  interleave freely, handlers and movers may die after any step, and writing or removing a retry entry may
  fail. A producer appends the message first; then the API registers the job in one MULTI, the 100-candidate
  test writes the hash and counts it in separate calls, the direct benchmark writes the hash and never counts
  it, and the other load tests write no hash. Whether a job's messages go to the high or the low priority
  stream depends on its payload. `Apply` is one step, `IsRun` and `After` are whole runs. Most results hold for
  every run. `Calm` is the condition of the others: no handler dies, no message is reclaimed, one mover at a
  time handles a job and takes it off the retry set, and a handler changes a job's status only after whoever
  appended its message has written its own. In calm runs a message may still be delivered the moment it is
  appended, movers may die and retry entries may fail to be written.
* **The load test that waits for it** (`Quiescence`, `QuiescenceTheorems`): each poll reads the counters and
  then the length of the high-priority stream of the running queue.
* **The direct Redis benchmark** (`BenchmarkStore`, `DirectBenchmark`, `Timing`): buffered push, monitor, timing.
  Graders may do anything between its commands; `QueueLifeCycle` proves what they do in calm runs.
* **The measurement core** (`CallLog`, `LoadMetrics`, `MetricsTheorems`, `MetricsByField`, `SnapshotTheorems`,
  `TimelineByField`, `RealisticMetrics`, `Percentiles`, `WeightedChoice`): recording, snapshots, percentiles and
  weighted choice against a log of calls.
* **Two stores with shared objects** (`TodoList`, `TodoTheorems`, `TextTrim`; `ExpenseStore`, `ExpenseTheorems`,
  `ExpenseIds`, `ExpenseByField`).
* **The challenge and exam sync** (`ChallengeSync`, `SyncTheorems`, `SyncAndExams`, `SyncByField`,
  `ExamsByField`).
* **Work partition, addresses and outcomes** (`Batches`, `FakeIp`, `Decimal`, `Addresses`, `GradingOutcomes`,
  `SessionPairing`).

Code that updates state is a class or a method with loops, proved against a function of the old state; the
properties are lemmas about that function. The lemmas whose names end in `ByField` say what such a function
computes once more without it, on the fields of the calls, files, records and replies themselves, for whole logs
and runs. `Wrappers` and `Seqs` hold shared definitions.

## What the proofs found

* In the model a job is lost, in the sense that no continuation of the run finishes it, if and only if it was
  given up, was never finished and nothing carries it any more (`LostIff`). There are two ways to be given up:
  a retry mover stops between taking the job off the retry set and appending it to the stream
  (`MoverCrashLosesJob`), or the ZADD that schedules the retry fails and the message is acknowledged all the
  same (`FailedScheduleLosesJob`). Every other accepted job can still be finished (`NotDroppedSettles`).
* `completed` and `failed` are not final as such. Such a status can change if and only if someone still has a
  different one to write (`FinalIff`); the API's late registration is one case, and its job stays queued for
  ever (`RegistrationRace`).
* A counter other than queued is exact if and only if its status was never overwritten (`CounterExactIff`). The
  direct benchmark writes queued hashes without counting them, so the queued counter ends below the truth by
  the number of jobs it pushed (`CountersExact`). The 100-candidate test writes each hash in a call of its own
  after the message: when that overwrites processing, the active counter stays one too high for good
  (`LateHashLeavesActive`), and from then on `waitForCompletion` can only time out (`OverwrittenActiveNeverStable`).
* The attempt limit is tested after grading only. A job can be graded without end if and only if its payload is
  good and something can still deliver it again, which includes any message left on a stream (`UnboundedIff`).
  Over every run the gradings exceed the limit by no more than the number of reclaims, second movers and failed
  removals of the job and the attempts a late hash reset (`GradingsBounded`); in calm runs the limit holds
  (`CalmGradingsBounded`).
* A failed job that nothing refers to is missing from the dead-letter stream exactly if all handlers that failed
  it died before writing its letter, and may be there twice (`DeadLetterIff`, `DeadLetterTwice`).
* `waitForCompletion` reads the queued and retrying counters but does not test them, and does not read the
  low-priority stream. If both counters are zero in its last poll, all jobs are finished exactly if no preview
  waits there without a status (`StableExitSound`, `PreviewHides`); and when no hash was written over a live
  status, as with jobs pushed bare or with prompt hashes, the two tests together are exact
  (`StableExitFinishedIff`, `PromptHashesInTime`). By default it can report completion while a job waits for its
  retry: the first retry delay is 1000 ms and five polls span 800 ms (`StableExitBeforeFinish`). Testing retrying
  alone would not do (`RetryingAloneMisleads`), nor would a single poll, which reads the counters before the
  length (`SinglePollMisleads`).
* The benchmark's monitor may report ALL DONE before the extra jobs are due and then never pushes them
  (`AllDoneBeforeExtra`).
* An exam that was there under a challenge's title keeps pointing where it did, so to a row that is gone when
  the challenge was deleted and made anew (`EveryChallengeExamined`).
* Clicking the same todo row twice restores the page only under the filter "all".
* The aggressive test's filter-then-index pairing is right exactly when no failed reply precedes a successful one.
* An expense update that carries an id makes a record unreachable exactly when another record has that id, or,
  later, when the counter reaches it (`UpdateHidesIff`, `HealthyIff`, `NextIdHides`).
* A challenge file without a runner does not clear the runner an earlier file gave (`LastWriterWinsIff`).
* In the realistic test a user logs in from the address it registered from only if the registrations completed
  in index order (`SameAddressIff`).

## Model

| member | source | states |
|---|---|---|
| QueueAccounting.StepExcess | apps/grader-go/internal/worker/worker.go:36-75 | Per step: the distance of a counter from the number of hashes in its status, with the hashes still uncounted added for queued, grows by one exactly when the step writes over that status with nothing taking it back (a producer's late hash over any status, a transition out of a terminal one), and else stays |
| QueueAccounting.RunAccounted | apps/grader-go/internal/worker/worker.go:36-75 | Over every run, crashes and reclaims included, each counter is the number of hashes in that status plus the number of times the status was overwritten, less the hashes written and not counted for queued |
| QueueAccounting.CounterExactIff | apps/grader-go/internal/worker/worker.go:43-63 | Over every run a counter other than queued is exact if and only if no step overwrote its status; queued is exact if and only if it was overwritten as often as there are uncounted hashes |
| QueueAccounting.RunNeverUnderReports | apps/grader-go/internal/worker/worker.go:43-63 | Over every run no counter is below the number of hashes in its status, except queued, and that one by at most the number of hashes written and not counted |
| QueueAccounting.LeftOverForever | apps/grader-go/internal/worker/worker.go:36-75 | What overwrites have left in a counter other than queued stays in it in every continuation of the run |
| QueueAccounting.RunKnown | apps/grader-go/internal/worker/worker.go:354-554 | Over every run hashes, messages, retry entries, handlers and movers refer to accepted jobs only |
| QueueFaithful.RunFaithful | apps/grader-go/internal/worker/worker.go:364-425 | Over every run a job's messages, handlers and hash carry the payload it was pushed with, and only a job whose payload passes the checks is ever processed, completed or retried |
| QueueDelivery.RunDelivering | apps/grader-go/internal/worker/worker.go:354-712 | Over every run an accepted job is settled, or has a retry entry, a mover or a message newer than any message being acknowledged for it, or was given up |
| QueueDelivery.NoJobLost | apps/grader-go/internal/worker/worker.go:354-660 | At-least-once grading: if no job is given up, an accepted job that nothing refers to any more was completed or failed, however handlers crashed and messages were reclaimed |
| QueueDelivery.LostOnlyIfGivenUp | apps/grader-go/internal/worker/worker.go:264-281 | An accepted job nothing refers to was completed or failed, or was given up by a mover that stopped with it or by a handler whose ZADD failed |
| QueueDelivery.UnreachableForever | apps/grader-go/internal/worker/worker.go:354-660 | A job nothing refers to keeps its hash unchanged in every continuation of the run |
| QueueLoss.SettleIff | apps/grader-go/internal/worker/worker.go:354-660 | After any run an accepted job has a continuation that finishes it if and only if it is finished or a message, a handler, a retry entry or a mover still carries it |
| QueueLoss.NotDroppedSettles | apps/grader-go/internal/worker/worker.go:354-660 | After any run every accepted job that was not given up has a continuation that finishes it |
| QueueLoss.LostIff | apps/grader-go/internal/worker/worker.go:264-281 | No continuation finishes an accepted job if and only if it was given up, was never finished, and nothing carries it any more |
| QueueAttempts.AttemptsAccounted | apps/grader-go/internal/worker/worker.go:432-447 | Over every run the attempts ever counted for a job, those reset by a late hash included, are exactly its gradings, those in progress and those cut off by a handler's death |
| QueueAttempts.GradingsBounded | apps/grader-go/internal/worker/worker.go:517-537 | Over every run a job is graded at most max(1, MaxAttempts) times, plus once for every time it was doubled (its message reclaimed, its retry entry seen by a second mover, a failed ZREM passed over) and every attempt a late hash reset; in any case at most twice the limit and the doublings |
| QueueGradings.UnboundedIff | apps/grader-go/internal/worker/worker.go:432-537 | After any run an accepted job can be graded any number of times more if and only if its payload passes the checks and something can deliver it again: a message on a stream, a retry entry, a mover that will append it, or a handler whose next failure schedules a retry (a pending late hash resets its attempts first); otherwise only the handlers that have it now grade it, once each |
| QueueGradings.GradingsUnbounded | apps/grader-go/internal/worker/worker.go:556-616 | Whatever the limit, a job with a valid payload that was just pushed can be graded any number of times, by reclaims alone |
| QueueDeadLetters.LettersConserved | apps/grader-go/internal/worker/worker.go:539-554 | Over every run the times a job was marked as failed are its dead letters, those in a handler's hands, and those lost with a handler that died in between |
| QueueDeadLetters.DeadLetterIff | apps/grader-go/internal/worker/worker.go:539-554 | Over every run a failed job that nothing refers to is missing from the dead-letter stream if and only if every handler that marked it as failed died before appending its letter, and is there more than once if and only if at least two of them did not |
| QueueFinality.FinalIff | apps/grader-go/internal/worker/worker.go:36-75 | After any run a completed or failed job gets another status in some continuation if and only if a writer of a different status is pending: the API before registering, a handler, a message of a job with a valid payload, a retry entry or a mover |
| QueueCalmSteps.StepOrderly | apps/grader-go/internal/worker/worker.go:354-660 | Each calm step keeps: a job is in exactly one hand (undelivered message, handler, retry set, mover), or terminal, or given up; its status and attempt count fit that place; it is dead-lettered once if failed and never otherwise |
| QueueTheorems.CalmRunOrderly | apps/grader-go/internal/worker/worker.go:354-660 | That one-place invariant holds after every calm run |
| QueueTheorems.TerminalForever | apps/grader-go/internal/worker/worker.go:354-554 | In calm runs a completed or failed job keeps its hash in every continuation |
| QueueTheorems.CalmGradingsBounded | apps/grader-go/internal/worker/worker.go:432-537 | In calm runs the number of gradings of a job is at most the attempts counted in its hash, and those at most max(1, MaxAttempts) |
| QueueTheorems.CalmNeverOverwrites | apps/grader-go/internal/worker/worker.go:36-75 | No status is ever overwritten in a calm run |
| QueueTheorems.CountersExact | apps/grader-go/internal/worker/worker.go:36-75 | In calm runs every counter equals the number of hashes in its status, queued being lower by exactly the number of hashes written and not counted |
| QueueTheorems.EmptyStreamFinishedIff | apps/grader-go/internal/worker/worker.go:526-537 | After a calm run that leaves both streams empty, all accepted jobs are finished if and only if the retrying counter is zero |
| QueueTheorems.DeadLettersExact | apps/grader-go/internal/worker/worker.go:539-554 | After a calm run that leaves both streams empty, the dead-letter stream holds each failed job once and no other |
| QueueTheorems.DroppedIff | apps/grader-go/internal/worker/worker.go:264-281 | In calm runs a job was given up if and only if it is unfinished and no undelivered message, working handler, retry entry or mover has it |
| QueueTheorems.UnreachableIff | apps/grader-go/internal/worker/worker.go:264-281 | In calm runs an accepted job is unfinished and referred to by nothing if and only if it was given up and its last message has been acknowledged |
| QueueDrained.NoMessageHasStatus | apps/grader-go/internal/worker/worker.go:354-712 | Over every run an accepted job with no message on a stream has a status |
| QueueDrained.FinishedIff | apps/grader-go/internal/worker/worker.go:36-75 | Over every run, after a moment with an empty high-priority stream and without further pushes, all accepted jobs are finished if and only if the queued, active and retrying counters show exactly what overwritten statuses left in them, less the uncounted hashes, and no preview without a status lies on the low-priority stream |
| QueueDrained.ZeroMeansFinished | apps/grader-go/internal/worker/worker.go:36-75 | Over every run, if those counters, read after the high-priority stream was seen empty, show nothing, all accepted jobs are finished if and only if no preview without a status lies on the low-priority stream, whatever died, was reclaimed or was late |
| QueueDrained.RereadFinishedIff | apps/grader-go/internal/worker/worker.go:36-75 | And when no hash was written over a live status, all are finished exactly if the counters show nothing and there is no such preview |
| QueueDrained.PromptHashesInTime | scripts/spot/30-candidate-test.ts:146-156 | When every producer writes its job's hash right after the message, before anything else happens, or writes none at all, no hash is written over a live status |
| QueueDrained.FinishedConservation | apps/grader-go/internal/worker/worker.go:43-63 | Over every run, once all jobs are finished, completed + failed is the number of accepted jobs plus the number of times a finished status was overwritten |
| QueueWitnesses.FirstTryFails | apps/grader-go/internal/worker/worker.go:517-537 | For every job with a valid payload and a limit above one there is a calm run after which it is only in the retry set, with one attempt counted and retrying at 1 |
| QueueWitnesses.EmptyIdleYetUnfinished | apps/grader-go/internal/worker/worker.go:517-537 | There is a calm run after which stream length and active counter are zero while an accepted job is unfinished |
| QueueWitnesses.MoverCrashLosesJob | apps/grader-go/internal/worker/worker.go:264-281 | There is a calm run, with one mover death, after which an accepted job is unfinished, marked retrying and referred to by nothing |
| QueueWitnesses.FailedScheduleLosesJob | apps/grader-go/internal/worker/worker.go:526-537 | There is a calm run without any death, with one failed ZADD, after which an accepted job is unfinished, marked retrying and referred to by nothing |
| QueueWitnesses.GivenUpYetReferredTo | apps/grader-go/internal/worker/worker.go:526-537 | There is a calm run after which a job was given up and is unfinished while its last message, not yet acknowledged, still refers to it |
| QueueWitnesses.LateMarkHidesRetry | apps/grader-go/internal/worker/worker.go:618-660 | There is a run without death, reclaim or failure after which the stream is empty, queued is 1, active and retrying are 0, and the job is in the retry set |
| QueueWitnesses.RegistrationRace | apps/api/src/lib/grading.ts:100-142 | There is a run without any death after which a completed job is marked queued, referred to by nothing, and counted as both queued and completed |
| QueueWitnesses.LateHashLeavesActive | scripts/spot/100-candidate-direct-test.ts:149-166 | There is a run without any death in which a load test's separate HSET writes queued over processing: the job is completed, counted and referred to by nothing, all hashes are counted, and the active counter stays at 1 |
| QueueWitnesses.DeadLetterTwice | apps/grader-go/internal/worker/worker.go:372-384 | There is a run without any death in which a job without a payload, reclaimed from a slow handler, is failed, counted and dead-lettered twice |
| QueueLifeCycle.CalmRunFollows | apps/grader-go/internal/worker/worker.go:354-660 | After a calm run, whatever the next step is, a job's status stays or changes along an arrow: to queued from none or retrying, to processing from none, queued or retrying, to completed and to retrying from processing, to failed from none, queued, retrying or processing |
| QueueLifeCycle.StepUndoesNothing | scripts/benchmark-direct-redis.js:245-251 | What a step of an orderly queue makes of a job's status never undoes a finished job in the benchmark's store |
| Quiescence.QuietRunReaches | scripts/spot/30-candidate-test.ts:201-211 | The stable counter is at least n exactly when the last n polls were all quiet: done count unchanged, stream empty, nothing active |
| Quiescence.FiveQuietIff | scripts/spot/30-candidate-test.ts:201-206 | Five consecutive quiet polls end at poll i if and only if the run of quiet polls there is at least five |
| Quiescence.WaitForCompletion | scripts/spot/30-candidate-test.ts:174-221 | The loop exits as stable exactly at the first poll that ends five consecutive quiet polls, as timed out at the first poll past the timeout otherwise, and within a number of polls set by the timeout and the 200 ms sleep |
| QuiescenceTheorems.StableExitSound | scripts/spot/30-candidate-test.ts:116-211 | At the stable exit of a detector whose polls read the counters and then the length of the high-priority stream of any running queue: if the queued and retrying counters of the last poll, read and ignored by the code, are zero, all accepted jobs are finished if and only if no preview without a status lies on the low-priority stream; so always when no preview was pushed |
| QuiescenceTheorems.StableExitFinishedIff | scripts/spot/30-candidate-test.ts:116-211 | And when no hash was written over a live status, all are finished exactly if both counters are zero and there is no such preview; without previews, exactly if both counters are zero |
| QuiescenceTheorems.OverwrittenActiveNeverStable | scripts/spot/30-candidate-test.ts:201-206 | Once the status of a job being processed was overwritten, no later poll ends five quiet ones, so the detector can only time out |
| QuiescenceTheorems.PreviewHides | scripts/spot/30-candidate-test.ts:116-118 | One submitted preview: all five counters are zero, the polls end in the stable exit, and the job is unfinished |
| QuiescenceTheorems.StableExitBeforeFinish | scripts/spot/30-candidate-test.ts:201-206 | For every job with a valid payload and a limit above one there is a calm queue whose polls end in the stable exit although the job is unfinished |
| QuiescenceTheorems.RetryingAloneMisleads | scripts/spot/30-candidate-test.ts:201-206 | For a limit above two there is a queue whose polls end in the stable exit with retrying at zero although a job is unfinished |
| QuiescenceTheorems.SinglePollMisleads | scripts/spot/30-candidate-test.ts:187-188 | There is a calm run in which one poll, counters first and length later, finds everything at zero although an accepted job is unfinished |
| BenchmarkStore.PipelineRefinesDirect | scripts/benchmark-direct-redis.js:178-206 | However commands are batched and whatever graders do between any two commands, the store has the messages and hashes that writing each command at once gives, with their creation times and an expiry wherever there is one |
| BenchmarkStore.UntouchedIsDirect | scripts/benchmark-direct-redis.js:178-206 | The hash of a job no grader touched is exactly the one written directly |
| BenchmarkStore.DirectCommands | scripts/benchmark-direct-redis.js:191-196 | Written directly, jobs with distinct ids are appended to the stream in order, get one queued hash with the two-hour expiry each, and no other hash changes |
| BenchmarkStore.PushedExactlyOnce | scripts/benchmark-direct-redis.js:173-206 | After all flushes, whatever graders did in between, the stream is the old one followed by every job once in order, every job has its hash with its creation time and an expiry, queued with the two-hour one if no grader touched it, and other new hashes are those of graders only |
| BenchmarkStore.GradedByField | scripts/benchmark-direct-redis.js:206-251 | After a grader's last word a job's hash has the status it gave and an expiry of two days, and a hash that only graders wrote reads as created at 0 |
| BenchmarkStore.TameKeepsFinished | scripts/benchmark-direct-redis.js:219-251 | Over any operations none of which undoes a finished job, finished jobs stay finished |
| DirectBenchmark.DoneAll | scripts/benchmark-direct-redis.js:260-263 | completed + failed reaches the number of watched jobs if and only if every one of them is terminal |
| DirectBenchmark.StatusesAddUp | scripts/benchmark-direct-redis.js:245-251 | When every watched job has been written, the counts of the five statuses add up to the number of jobs |
| DirectBenchmark.DoneMonotone | scripts/benchmark-direct-redis.js:245-251 | If finished jobs stay finished, the done count of a list of jobs never goes down |
| DirectBenchmark.Benchmark.Exec | scripts/benchmark-direct-redis.js:200-206 | One flush executes exactly the pipeline's commands, in order, with graders served before, between and after them |
| DirectBenchmark.Benchmark.PushJobs | scripts/benchmark-direct-redis.js:175-206 | For every number of jobs, multiples of 100 included, the commands executed are those of all jobs in order, allJobs lists them, and there are floor(n/100) + 1 flushes |
| DirectBenchmark.Benchmark.PushExtra | scripts/benchmark-direct-redis.js:219-238 | The extra push executes exactly the commands of the extra jobs in one flush and appends them to allJobs |
| DirectBenchmark.Benchmark.TakePoll | scripts/benchmark-direct-redis.js:240-251 | For any store the printed counters are the numbers of completed, failed and processing jobs and of all others, and sum to the number of jobs; when every job has been written the others are the queued and retrying ones |
| DirectBenchmark.Benchmark.OnePass | scripts/benchmark-direct-redis.js:217-263 | One pass pushes the extra jobs exactly if they were due and not yet pushed, polls written jobs only, and is complete exactly if every watched job is finished when it reads; if nothing finished is undone, its done count lies between those before and after |
| DirectBenchmark.Benchmark.Monitor | scripts/benchmark-direct-redis.js:211-266 | Over all clocks and whatever graders do: the commands executed are those of the extra jobs, once and exactly when due, each poll is about the first jobs and the extra ones once due and adds up, only the last can be complete, and ALL DONE means that every watched job was finished when that poll read it; if no finished job is undone, the done counts never go down and all are finished at the end |
| DirectBenchmark.PolledMeans | scripts/benchmark-direct-redis.js:240-266 | The monitor's polls all add up and cover the jobs due, only the last is complete, and without undone jobs their done counts never go down |
| DirectBenchmark.Benchmark.PushAndMonitor | scripts/benchmark-direct-redis.js:173-266 | Pushing and monitoring together: allJobs and the stream gain all jobs and, if due, all extra jobs, once and in order; every poll reads written jobs only; without undone jobs ALL DONE means all of them are finished |
| DirectBenchmark.AllDoneBeforeExtra | scripts/benchmark-direct-redis.js:217-263 | Whenever the first poll comes before the extra jobs are due and finds the first jobs finished, the monitor reports all done and never pushes the extra jobs |
| Timing.Collect | scripts/benchmark-direct-redis.js:268-300 | The counts and the three lists are those of the completed rows with times, of the failed rows, and of the completed rows that also have a start time, each list ascending |
| Timing.CountsByField | scripts/benchmark-direct-redis.js:268-284 | The completed count is of rows completed with a creation and a completion time, the failed count of rows failed |
| Timing.TotalByField | scripts/benchmark-direct-redis.js:282-285 | A total time is in its list as often as such completed rows took it from creation to completion |
| Timing.QueueByField | scripts/benchmark-direct-redis.js:286-290 | A queue time is in its list as often as such rows with a start time took it from creation to start |
| Timing.GradeByField | scripts/benchmark-direct-redis.js:286-291 | A grade time is in its list as often as such rows with a start time took it from start to completion |
| Timing.AverageTimesLength | scripts/benchmark-direct-redis.js:303 | The average times the number of elements is their sum; the average of nothing is 0 |
| Timing.ListLengths | scripts/benchmark-direct-redis.js:286-292 | The queue and grade lists always have equal length, at most that of the total list |
| Timing.DecompositionSurvivesSorting | scripts/benchmark-direct-redis.js:286-303 | When every counted row has a start time, the sums and averages of queue and grade time add up to those of total time although each list was sorted on its own |
| CallLog.GroupsPartition | scripts/stress-test-azure.js:42-46 | Whatever is weighed and however calls are grouped, a log weighs as much as its groups together |
| LoadMetrics.EndpointStats.Note | scripts/stress-test-azure.js:45-66 | The endpoint record is changed in place to count the call; what that amounts to over a log is EndpointByField, CountsByField and ErrorsByField |
| LoadMetrics.Recorder.RecordRequest | scripts/stress-test-azure.js:39-67 | In place, through shared endpoint records: the metrics become those of the log with this call added, only this call's endpoint record changes, and no two endpoints share a record; what a log's metrics are is CountsByField to EndpointByField |
| LoadMetrics.Recorder.TakeSnapshot | scripts/stress-test-azure.js:318-335 | Appends the snapshot of the current metrics, remembers its time and total, and changes no metric; what each snapshot of a run shows is RateByField, TotalsByField and RecentByField |
| MetricsTheorems.ReplaySplits | scripts/stress-test-azure.js:39-67 | After any calls the global record is the tally of the log, the samples its timed latencies in order, and each endpoint's record the tally of its own calls |
| MetricsTheorems.ReplayCounts | scripts/stress-test-azure.js:39-67 | total is the length of the log and success + failed; every error key counts exactly the failed calls with that key; sum, max and min are those of the timed latencies |
| MetricsByField.CountsByField | scripts/stress-test-azure.js:48-57 | Over every log: failed is the number of calls with a non-empty error text or a status of 400 or above, success the number of the others, total the length of the log |
| MetricsByField.ErrorsByField | scripts/stress-test-azure.js:51-53 | Over every log a key of the histogram counts the calls whose error text it is and those without one whose status n of 400 or above makes it HTTP_n, and is there exactly if there are any |
| MetricsByField.StatusKeys | scripts/stress-test-azure.js:51-53 | The count under HTTP_n is the number of calls of status n >= 400 without an error text plus the number of calls whose error text is that very string |
| MetricsByField.TextKeys | scripts/stress-test-azure.js:51-53 | The count under any other key is the number of calls with that error text; the empty text is no key |
| MetricsByField.SameKeyIff | scripts/stress-test-azure.js:51-53 | After any log, two failed calls without an error text go under one key if and only if their statuses are equal |
| MetricsByField.SamplesByField | scripts/stress-test-azure.js:59-60 | The samples are the latencies of at least 0, in the order of the calls, one for each |
| MetricsByField.LatenciesByField | scripts/stress-test-azure.js:59-65 | Sum, maximum and minimum over any log are those of the latencies of at least 0, the maximum starting at 0 and the minimum undefined without one |
| MetricsByField.EndpointByField | scripts/stress-test-azure.js:42-46 | An endpoint has a record exactly if it was called, and the record is what its own calls alone would leave |
| MetricsTheorems.GlobalIsSumOfEndpoints | scripts/stress-test-azure.js:39-67 | Global total, success, failed, latency sum and each error count are the sums over the endpoints |
| MetricsTheorems.GlobalMaxIsMaxOfEndpoints | scripts/stress-test-azure.js:62-65 | No endpoint's maximum latency exceeds the global one, and a positive global one is some endpoint's |
| MetricsTheorems.HistogramAddsUp | scripts/stress-test-azure.js:48-54 | The error histogram sums to the number of failed calls |
| MetricsTheorems.CompletionOrderIrrelevant | scripts/stress-test-azure.js:39-67 | Permuted call logs give equal counters, histograms, endpoint records, min, max and sum, equal sample multisets, and the same percentile for every p |
| SnapshotTheorems.SnapshotsConsistent | scripts/stress-test-azure.js:318-335 | Over any interleaving of calls and ticks each snapshot is true of exactly the calls finished before its tick, including its percentiles over their last 1000 samples |
| TimelineByField.RateByField | scripts/stress-test-azure.js:318-325 | Over any interleaving the k-th snapshot's rate is the whole number nearest to n / t, halves upward: n calls since the tick before, or the start, in t seconds, or in 1 if the two times are equal |
| TimelineByField.TotalsByField | scripts/stress-test-azure.js:318-330 | The k-th snapshot's total and failed are the numbers of calls, and of calls with an error text or a status of 400 or above, before the k-th tick, success the difference, time the seconds since the start |
| TimelineByField.RecentByField | scripts/stress-test-azure.js:331-332 | Its two percentiles are the 50th and 99th of the last 1000 latencies measured before the tick, or of all if there are fewer |
| TimelineByField.OnePerTick | scripts/stress-test-azure.js:318-335 | There is one snapshot per tick, in order |
| TimelineByField.CallsByField | scripts/stress-test-azure.js:39-67 | The log behind the snapshots holds the calls among the events, in order |
| SnapshotTheorems.TotalsNeverGoDown | scripts/stress-test-azure.js:318-335 | Totals never go down along the timeline |
| SnapshotTheorems.PlayOn | scripts/stress-test-azure.js:318-335 | A recorder created at the start and given any calls and ticks in order ends with the metrics, timeline and remembered snapshot that the theorems are about |
| RealisticMetrics.Recorder.RecordPhase3 | scripts/stress-test-realistic.js:39-61 | In place, through shared endpoint records: the phase 3 metrics become those of the log with this call added, and no two endpoints share a record; RecordersAgree carries CountsByField to EndpointByField over to them |
| RealisticMetrics.RecordersAgree | scripts/stress-test-realistic.js:39-61 | On any log this recorder and the Azure test's keep the same counters, histogram, samples and endpoint counters |
| RealisticMetrics.Phase3Counts | scripts/stress-test-realistic.js:39-61 | After any calls the phase 3 counters and histogram, and each endpoint's counters, sum and maximum, are the counts one would make on the log |
| RealisticMetrics.ReplayKept | scripts/stress-test-realistic.js:55-58 | After any calls an endpoint's latency list is the timed latencies of its own calls, in order |
| RealisticMetrics.LatencyListsPartition | scripts/stress-test-realistic.js:55-58 | As multisets the endpoints' latency lists partition the global list |
| Percentiles.SortedUnique | scripts/stress-test-azure.js:308 | Two ascending arrangements of the same values are equal, so the result of sorting does not depend on the order of the input |
| Percentiles.PercentileDefined | scripts/stress-test-azure.js:306-311 | On a non-empty array the percentile exists if and only if p is at most 100 |
| Percentiles.PercentileRank | scripts/stress-test-azure.js:306-311 | The result is one of the samples, at least ceil(p*n/100) samples are at most it and at least n - max(1, ceil(p*n/100)) + 1 are at least it |
| Percentiles.PercentileMonotone | scripts/stress-test-azure.js:306-311 | The percentile does not go down when p goes up |
| Percentiles.PercentileExtremes | scripts/stress-test-realistic.js:101-105 | At 100 it is the maximum of the samples, at 0 and below the minimum |
| Percentiles.PercentilePermutation | scripts/stress-test-realistic.js:101-105 | The order of the samples does not matter |
| Percentiles.FloorPercentileDefined | scripts/benchmark-direct-redis.js:302 | The floor-index percentile of a non-empty array reads inside it if and only if the fraction is at least 0 and below 1 |
| Percentiles.FloorAgainstNearestRank | scripts/benchmark-grading.js:369-371 | The floor index is the nearest-rank position, plus one exactly when n*p is whole, so it never reports a smaller value |
| WeightedChoice.WeightedRandom | scripts/stress-test-azure.js:296-304 | The loop returns the first item whose cumulated weight reaches the draw, or the last item |
| WeightedChoice.IntervalSelects | scripts/stress-test-azure.js:296-304 | With non-negative weights a positive draw up to the total selects item i if and only if it lies in (prefix(i), prefix(i+1)], an interval as long as the item's weight |
| WeightedChoice.ChoiceUnique | scripts/stress-test-azure.js:296-304 | Every draw from 0 to the total selects exactly one item, without the fallback; draw 0 selects the first |
| TextTrim.TrimProper | scripts/benchmark-direct-redis.js:43-44 | Trimming leaves a text with no white space at either end, or nothing exactly when the text is all white space |
| TextTrim.TrimIdempotent | scripts/benchmark-direct-redis.js:43-44 | Trimming a second time changes nothing |
| TodoList.PositionsExact | scripts/benchmark-direct-redis.js:62-66 | The view lists exactly the positions whose item the filter lets through, in increasing order |
| TodoList.Component.AddTodo | scripts/benchmark-direct-redis.js:42-46 | A blank input changes nothing; otherwise one new object is appended, with the text and state AddByField gives, and the input is cleared; the todos stay distinct objects with proper texts |
| TodoList.Component.FilteredTodos | scripts/benchmark-direct-redis.js:62-66 | The view holds the very objects at the visible positions |
| TodoList.Component.IndexOf | scripts/benchmark-direct-redis.js:82 | Finds the first position that holds this very object, or reports that none does |
| TodoList.Component.ToggleTodo | scripts/benchmark-direct-redis.js:52-56 | Flips the shared object at the position in place; list, order and every other object stay |
| TodoList.Component.DeleteTodo | scripts/benchmark-direct-redis.js:58-60 | Removes exactly that position and keeps the other objects in order |
| TodoList.Component.RowIndex | scripts/benchmark-direct-redis.js:80-84 | Translating row k back by reference gives the k-th visible position, even when texts repeat |
| TodoList.Component.Handle | scripts/benchmark-direct-redis.js:42-84 | Each event of the page, run on shared objects, has the effect it has on plain values |
| TodoTheorems.AlwaysProper | scripts/benchmark-direct-redis.js:42-46 | After any events every todo has a trimmed, non-empty text |
| TodoTheorems.AddByField | scripts/benchmark-direct-redis.js:42-50 | Add or Enter on a text that is not blank appends one active item whose text is the typed one without surrounding white space, clears the input and keeps the filter; on a blank text it changes nothing |
| TodoTheorems.CoreUnique | scripts/benchmark-direct-redis.js:43-44 | There is one such text |
| TodoTheorems.RowShows | scripts/benchmark-direct-redis.js:80-83 | Row k shows the item at the k-th visible position, with k visible items before it |
| TodoTheorems.ToggleTouchesOneItem | scripts/benchmark-direct-redis.js:52-82 | Toggling row k flips the item row k shows and changes nothing else on the page |
| TodoTheorems.DeleteTakesOneRow | scripts/benchmark-direct-redis.js:58-84 | Deleting row k takes that item off the list and exactly row k off the view, keeping the order of the rest |
| TodoTheorems.ViewsPartition | scripts/benchmark-direct-redis.js:62-66 | The active and completed views share no position and together are the whole list |
| TodoTheorems.RemainingIsActive | scripts/benchmark-direct-redis.js:68 | The remaining count is the length of the active view |
| TodoTheorems.ToggleRowTwiceRestoresIff | scripts/benchmark-direct-redis.js:52-82 | Clicking the same row's checkbox twice restores the page if and only if the filter is "all" |
| ExpenseStore.FindsFirst | challenges/express-expense-tracker/challenge.ts:646-653 | A lookup finds the first record with the id, and fails exactly when there is none |
| ExpenseStore.ExpenseModel.Create | challenges/express-expense-tracker/challenge.ts:626-638 | Appends one new object with the id exp_ and the next number, the given fields, an empty description if none is given, and its creation time |
| ExpenseStore.ExpenseModel.FindById | challenges/express-expense-tracker/challenge.ts:645-648 | Returns the store's own object of the first record with the id, or null exactly when there is none |
| ExpenseStore.ExpenseModel.Update | challenges/express-expense-tracker/challenge.ts:650-657 | Puts a new object into the slot whose every field is the one the update carries, or else the old record's; no existing object is modified; null exactly when there is no such record |
| ExpenseStore.ExpenseModel.Delete | challenges/express-expense-tracker/challenge.ts:659-666 | Removes exactly the first record with the id and keeps the others in order; false exactly when there is none |
| ExpenseStore.ExpenseModel.ListUnaffected | challenges/express-expense-tracker/challenge.ts:640-643 | A list returned by getAll shows the same records after any later operations |
| ExpenseTheorems.RunOrdered | challenges/express-expense-tracker/challenge.ts:616-672 | Over any run in which no update carries an id, ids strictly increase along the list |
| ExpenseTheorems.UpdateKeepsIdsIff | challenges/express-expense-tracker/challenge.ts:650-657 | An update keeps the list of ids if and only if it finds nothing, carries no id, or carries the same id |
| ExpenseIds.AllFoundIff | challenges/express-expense-tracker/challenge.ts:646-653 | Every record is the one its id finds if and only if the ids are distinct |
| ExpenseIds.UpdateHidesIff | challenges/express-expense-tracker/challenge.ts:650-657 | From distinct ids, every record stays reachable after an update if and only if it finds nothing, carries no id or the record's own, or carries an id no record has |
| ExpenseIds.StepHealthyIff | challenges/express-expense-tracker/challenge.ts:616-672 | A store whose ids are distinct and none still to be issued stays so exactly under every operation but an update that changes an id to one a record has or the counter will reach |
| ExpenseIds.RunHealthyIff | challenges/express-expense-tracker/challenge.ts:616-672 | Over a whole run the store was healthy all along if and only if every operation was safe when it came |
| ExpenseIds.HealthyIff | challenges/express-expense-tracker/challenge.ts:616-638 | A store is healthy if and only if every record stays reachable however many more are created |
| ExpenseIds.NextIdHides | challenges/express-expense-tracker/challenge.ts:616-657 | Create, update the record to the next id, create: both records carry that id and the new one is unreachable |
| ExpenseTheorems.IdsNeverReused | challenges/express-expense-tracker/challenge.ts:620-624 | Over any run without clear, whatever is updated or deleted, no id is handed out twice |
| ExpenseTheorems.LookupIsMap | challenges/express-expense-tracker/challenge.ts:645-648 | Lookups by id agree with a map from ids to records |
| ExpenseTheorems.RunRefinesOrderedMap | challenges/express-expense-tracker/challenge.ts:616-672 | Over any run in which no update carries an id, the array with its counter behaves as an insertion-ordered map |
| ExpenseByField.FoundIffStands | challenges/express-expense-tracker/challenge.ts:616-672 | Over any run without id-carrying updates an id finds a record if and only if a create gave it out and neither a delete of it nor a clear came since |
| ExpenseByField.CounterByField | challenges/express-expense-tracker/challenge.ts:620-624 | The counter is the number of creates since the last clear |
| ExpenseByField.AmountByRun | challenges/express-expense-tracker/challenge.ts:650-657 | Over such a run the amount an id finds is that of the last update of the id that carried one, or that of its creation |
| ExpenseByField.DescriptionByRun | challenges/express-expense-tracker/challenge.ts:626-657 | The description, likewise; a creation without one leaves it empty |
| ExpenseByField.CategoryByRun | challenges/express-expense-tracker/challenge.ts:650-657 | The category, likewise |
| ExpenseByField.DateByRun | challenges/express-expense-tracker/challenge.ts:650-657 | The date, likewise |
| ExpenseByField.CreationTimeByRun | challenges/express-expense-tracker/challenge.ts:626-657 | The creation time, likewise |
| ChallengeSync.Database.SyncAllChallenges | packages/database/sync-all-challenges.ts:75-143 | The loop skips missing, throwing and invalid files, updates or inserts by name, and reports one id per valid file; what it leaves in each column is ColumnsByField, RunnerByField and RowsByField |
| ChallengeSync.Database.CreateMultiChallengeExam | packages/database/sync-all-challenges.ts:150-212 | The loop skips unknown ids and updates or inserts one exam per title; what it leaves in each column is OldExamByField, NewExamByField and ConfiguredByField |
| SyncTheorems.SyncUpserts | packages/database/sync-all-challenges.ts:75-138 | From at most one row per name a run leaves exactly one row per name a valid file carries, with the content of the last such file and the last runner any of them gave, old rows in place with their ids, and all other rows untouched |
| SyncByField.ColumnsByField | packages/database/sync-all-challenges.ts:98-128 | From unique names, the row of a name ends with description, starter files, public tests and hidden tests of the last valid file of that name, its dependencies or {}, and its non-empty node version or 20 |
| SyncByField.RunnerByField | packages/database/sync-all-challenges.ts:98-128 | Its runner is that of the last valid file of the name that gives one; if none does, the old row's, or none in a new row |
| SyncByField.RowsByField | packages/database/sync-all-challenges.ts:93-133 | Old rows keep place, id, name and creator, and everything if no valid file has their name; the rows that follow have the next ids, the admin as creator and the name of a valid file |
| SyncTheorems.LastWriterWinsIff | packages/database/sync-all-challenges.ts:98-111 | The last file wins in every column if and only if it gives a runner or none was there before |
| SyncTheorems.RunnerSurvives | packages/database/sync-all-challenges.ts:98-111 | Two files of one name, the second without a runner, leave one row with the second's content and the first's runner |
| SyncTheorems.SyncIdempotent | packages/database/sync-all-challenges.ts:75-138 | A second run on the same files changes nothing, even when several files carry the same name |
| SyncTheorems.IdStable | packages/database/sync-all-challenges.ts:98-111 | A name keeps its row and the id it was first given through any run |
| SyncTheorems.SyncedReportsFinalIds | packages/database/sync-all-challenges.ts:114-133 | Every valid file is reported once, in order, with the id its name has in the final table |
| SyncByField.ReportedByField | packages/database/sync-all-challenges.ts:114-133 | The k-th valid file is the k-th reported, with its name and the id of the row of that name |
| SyncByField.ReportedCount | packages/database/sync-all-challenges.ts:82-91 | Files that are missing, throw, yield no challenge or one without a name are not reported |
| SyncTheorems.SyncedStable | packages/database/sync-all-challenges.ts:114-133 | A second run reports the same ids for the same names |
| SyncTheorems.ExamsReady | packages/database/sync-all-challenges.ts:167-211 | After a run every requested challenge has an exam of its title with the wanted settings, and titles stay unique |
| SyncTheorems.ExamsIdempotent | packages/database/sync-all-challenges.ts:167-211 | A second run of the exam loop changes nothing but publication times |
| SyncTheorems.ExamsFrame | packages/database/sync-all-challenges.ts:180-192 | Existing exams keep place, id, title, challenge, flags, creator and the description of their first settings, and exams of other titles are untouched |
| ExamsByField.OldExamByField | packages/database/sync-all-challenges.ts:180-192 | An exam that was there keeps id, title, description, challenge, the three flags and creator |
| ExamsByField.NewExamByField | packages/database/sync-all-challenges.ts:195-210 | An exam that was not there has the next id and is for a challenge asked for under its title, with the description of that challenge and the settings, full screen and tab logging on, pasting allowed, created by the admin |
| ExamsByField.ConfiguredByField | packages/database/sync-all-challenges.ts:180-210 | The last pass for an exam's title gives it the settings, the threshold 0.6 and its time of publication; an exam no pass is for is as it was |
| ChallengeSync.Database.SyncAndExamine | packages/database/sync-all-challenges.ts:214-226 | The script syncs the files and then makes exams for exactly the ids it reported, in order |
| SyncAndExams.EveryChallengeExamined | packages/database/sync-all-challenges.ts:214-226 | After the script the challenge of every valid file has its exam with the wanted settings, and that exam points to the challenge if and only if no exam of the title was there before or the one there did |
| SyncAndExams.TablesStayUnique | packages/database/sync-all-challenges.ts:75-212 | Names, titles and row ids stay unique in both tables over the whole script, and different names have different exams |
| Batches.PromiseAll | scripts/benchmark-grading.js:166 | Whatever the completion order of a batch, its results come back in item order |
| Batches.BatchRun | scripts/benchmark-grading.js:162-173 | For any positive size and any completion order within batches: results in item order, every call once, never more than the batch size in flight, batches strictly one after another |
| Batches.WavesExact | scripts/stress-test-realistic.js:186-214 | The ceil(n/size) login waves visit every user exactly once, in order, and none is empty |
| Batches.RoundRobinFair | scripts/benchmark-grading.js:238 | Every user gets floor(n/users) attempts, plus one exactly for the first n mod users |
| FakeIp.DecodeFakeIP | scripts/stress-test-realistic.js:113-118 | Splitting the printed address at the dots and reading its numbers gives the user index back |
| FakeIp.AddressByField | scripts/stress-test-realistic.js:113-118 | The address of user a*65536 + b*256 + c, b and c below 256, is printed 10.(a+10).b.c |
| FakeIp.FakeIPInjective | scripts/stress-test-realistic.js:113-118 | Two users have the same printed address only if they are the same user |
| FakeIp.FakeIPValidIff | scripts/stress-test-realistic.js:113-118 | The address is an IPv4 address in the sense of section 3.2.2 of RFC 3986 if and only if the index is below 246 * 65536 |
| Addresses.AddressesDistinctPerPhase | scripts/stress-test-realistic.js:129-151 | Whatever order the registrations complete in, no two users share an address within a phase |
| Addresses.SameAddressIff | scripts/stress-test-realistic.js:191-196 | Every user logs in from the address it registered from if and only if the registrations completed in index order |
| GradingOutcomes.JobOutcome | scripts/benchmark-grading.js:265-327 | A job is an error exactly when the submit failed without a job id; otherwise the loop ends, within 600 polls, with the first poll that settles the job or comes too late, and SubmitByField and RunTestsByField say which is which |
| GradingOutcomes.SubmitByField | scripts/benchmark-grading.js:283-325 | A submission is completed if and only if the first poll in time that is answered 200 with status GRADED, COMPLETED or FAILED shows one of the first two, failed if and only if it shows the third, timed out exactly if there is no such poll |
| GradingOutcomes.RunTestsByField | scripts/benchmark-grading.js:283-298 | A run of the tests is completed if and only if some poll in time is answered 200 with the attempt graded, and otherwise times out |
| GradingOutcomes.ReportedByField | scripts/benchmark-grading.js:359-363 | A class holds exactly the job numbers of attempts that were created and had its outcome, the setup errors exactly those of attempts without an id |
| GradingOutcomes.EveryAttemptOnce | scripts/benchmark-grading.js:359-363 | Every attempt is in exactly one of the classes completed, failed, error, timeout and setup error |
| GradingOutcomes.OutcomesConserved | scripts/benchmark-grading.js:237-363 | Whatever order the attempts were created in, every job number is in exactly one class and the class sizes add up to the number of jobs |
| SessionPairing.PairingCorrectIff | scripts/stress-test-aggressive.js:186-189 | For distinct keys the filter-then-index pairing equals the index-preserving one if and only if no failed reply precedes a successful one |
| SessionPairing.SessionsDistinct | scripts/stress-test-aggressive.js:186-189 | Whatever the replies, the sessions handed on have distinct emails |
| SessionPairing.BothStages | scripts/stress-test-aggressive.js:186-221 | Tokens stay with their credentials, and attempts with their sessions, each if and only if its own stage's failures come last |

## Left out

- Redis, HTTP and Postgres clients, timers and consoles: replies, clock readings, completion orders and the steps of graders are parameters, and the theorems hold for all of them.
- DirectBenchmark.Benchmark.TakePoll: the statuses of one poll are read at one moment.
- BenchmarkStore.TameKeepsFinished: whether graders undo a finished job is not decided in the benchmark's store; for the queue it is, by QueueFinality.FinalIff and QueueTheorems.TerminalForever.
- Messages that the retry loop puts back are not recorded in the benchmark's store.
- In the grading queue a read and the write that directly follows it (the payload lookup before storing it, HGETALL before XADD) are one step; MULTI blocks and the Lua script are one step each.
- Redis commands other than the ZADD and the ZREM of a retry that fail, which the worker logs and passes over: a status that could not be written, an attempt that could not be counted, a dead letter that could not be appended. A failed acknowledgement is covered as a crash before it, a failed requeue as a mover that stops.
- Expiry of hashes, the 30-minute cleanup of the retry set, stream trimming, the pause key, concurrency slots, read batches and the times stored as retry scores: the model lets any waiting message or retry entry be taken at any moment.
- The high and low priority streams are one map of messages, told apart by the payload; which is read first is left open. Messages without a job id are acknowledged by the worker and do not appear.
- Resetting the counters while jobs are live, as the 100-candidate test does when it starts.
- Progress updates, attempt results, error texts and times kept in job hashes.
- Job ids, attempt ids and row ids are assumed unique; the code builds them from clocks and UUIDs.
- JavaScript objects used as dictionaries: keys such as `constructor` that an object inherits behave differently there.
- Floating-point rounding, toFixed and NaN: all numbers are exact; parseInt is taken on well-formed or missing times.
- ChallengeSync.Database.SyncAllChallenges: all columns but the runner are taken to be given by every file; which of several rows findFirst returns beyond the first in table order is not part of this model.
- Loading challenge files, caught database errors and the printed reports.
- React rendering beyond one atomic handler per event, with the handlers of the latest rendering.
- arrMin, arrMax and the category model, which would only add easy members; security and attack scripts; TODO starter handlers.
- The configured limit is at least one after config.go:95-96; the queue model also covers smaller limits.
