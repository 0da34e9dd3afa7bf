# celery-bench: a verified model of one benchmark run

celery-bench fills Redis lists with Celery task messages, lets N workers pop them with
BRPOP, and reports throughput and latency. This project models that run in three layers
and proves what holds of it under every schedule.

* **The trial** (`Protocol`, `Schedules`, `Tally`, `Readings`, `Invariants`, `Theorems`,
  `History`, `Progress`, `Shutdown`, `Abort`, `Overshoot`, `Witnesses`, `Endings`). A
  transition system in which every step that another thread can observe is separate: a
  worker's look at the shutdown flag, its look at the target, the server's pop, the
  delivery, the send, the increment, the signal; the collector's and the monitor's steps;
  the orchestrator's spawns, polls, joins and reads. A task is aborted only at a suspension
  point. A schedule is any sequence of enabled steps, so a statement about reachable states
  is about all interleavings. Atomics are sequentially consistent and a timer may fire at
  any moment.
* **The store and the producer** (`Broker`, `Fill`, `RoundRobin`, `Producer`, `Placement`). Redis lists
  with LPUSH, DEL, FLUSHDB and multi-key BRPOP as an object, the batched fill as a method
  against that object, and the exact store and pop order a fill leads to.
* **Keys and payloads** (`Bytes`, `Base64`, `Json`, `Job`). Priority flooring, key
  expansion, decimal rendering, and the JSON and base64 text that carries the enqueue
  timestamp, over byte strings.

`Worker` and `Recording` are the worker, the counters, the collector and the monitor as
objects with loops. `Worker.TurnIsRun` and `Recording.TickIsRun` show that a turn of the
worker's loop and a tick of the monitor's are sequences of steps of the transition system;
`Recording.CollectorIsLoop` shows that in every schedule the collector is where its loop
would be.
`Running` says what a trial makes of a given schedule. `Bench` is the loop over concurrency
levels; it joins the three layers. `ReportText` is
the thousands grouping.

## Where the code and its comments part

* `src/main.rs:603-611` says that polling the done flag first makes "target reached" win
  every tie. It does when one poll sees one snapshot (`Theorems.AtomicPollIsRight`). A
  worker on another thread can still count the last job, set the flag and exit between
  that look and the look at the workers: `Endings.CompleteTrialMislabelled` is such a
  schedule. `Theorems.LabelExact` gives the exact condition: the label is right if and only
  if the flag, read again when it is given, is still clear. A timeout can be wrong in the same
  way, and can become wrong afterwards: `Endings.TimeoutAfterTarget` has the last job
  counted before the timer is looked at, `Endings.TargetInDrain` has it counted while the
  workers are drained. `Theorems.ReachedExactly` says when a report shows its target
  reached whatever its verdict, and `Shutdown.DrainAdds` bounds what the drain adds.
* `src/main.rs:553-571` pushes throughput and errors as two separate steps, and
  `src/main.rs:638` aborts the monitor without waiting for it. The two reported series can
  therefore differ in length by one. `Witnesses.SeriesAgreeExactly` says exactly when they
  are sure to agree, and `Witnesses.CaughtMidTick` that the other case occurs. The latency
  series is as long as the throughput series or one shorter, never longer
  (`Theorems.ReportSeriesBounded`); `Witnesses.LatencyGapExactly` says when it is sure to
  be which.
* `src/main.rs:438-447` says that every reachable latency is recordable. A latency is
  counted from the moment a job is built, before the trial's clock starts, so no bound on
  the trial bounds it. `Bench.SlowJobDropped` gives, for every bound, a successful trial
  whose one job is missing from the histogram; `Bench.ReportIsTimelyWaits` says exactly
  which jobs are in it, and that none is missing if and only if none had waited too long.
* A percentile listed k times gets k samples a tick in one series
  (`Recording.SeriesLength`).

## Model

| member | source | states |
|---|---|---|
| Job.PriorityStep | src/job.rs:30-40 | the flooring loop returns the greatest configured step not above n, for every u8 |
| Job.KeyExactly | src/job.rs:44-51 | the text of a key: the queue's name, followed from priority 3 on by the separator and the digit of the floored step |
| Job.KeyPosition | src/job.rs:61-66 | the polled list has four keys a queue, queue j at step m standing at m * queues + j |
| Job.NoStrandedJob | src/job.rs:44-66 | the key written for any queue and any u8 priority is in the polled and cleared list, at the position of its floored step |
| Job.KeysDistinct | src/main.rs:374-380 | for every base name, separator bytes included, and every count, all expanded keys differ, four a queue |
| Bytes.DecimalInjective | src/main.rs:378 | distinct indices render to distinct decimals |
| Base64.DecodeEncode | src/job.rs:166 | strict decoding inverts standard padded encoding on all byte strings |
| Base64.EncodeDecode | src/job.rs:211 | the strict decoder accepts encodings only |
| Base64.EncodeBits | src/job.rs:166 | an encoding has four characters for each three bytes begun; character k stands for the six bits of the input from 6k on, zeros after its end, and is padding where none is left (section 4 of RFC 4648) |
| Base64.SymbolExactly | src/job.rs:166 | the alphabet, place by place, in both directions (table 1 of RFC 4648) |
| Json.ValueRoundTrip | src/job.rs:164-165 | with d units of recursion left a printed value is read back, whatever follows it, exactly when it nests less than d deep |
| Json.ParsePrint | src/job.rs:210-213 | printing then parsing gives back any value of null, bool, u64, string, array, object exactly when it nests fewer than 128 containers; otherwise the parse fails |
| Json.LeadingSpace | src/job.rs:212 | white space before a document changes nothing |
| Json.ShortEscapes | src/job.rs:212 | what the two-character escapes stand for (section 7 of RFC 8259) |
| Json.UnitRead | src/job.rs:212 | an escaped code unit is the UTF-8 text of its character; a low surrogate alone is refused |
| Json.PairRead | src/job.rs:212 | an escaped surrogate pair is the UTF-8 text of the character it encodes, for every one beyond the basic plane |
| Job.KwargsText | src/job.rs:157 | the exact text of the kwargs object, with the marker first |
| Job.MarkerRoundTrip | src/job.rs:149-214 | for every queue, priority, index and u64 timestamp, the timestamp read from an envelope is the one it was built with |
| Job.MarkerExactly | src/job.rs:207-214 | a list element has the marker t if and only if it is an envelope whose body is the base64 of a JSON array whose second element is an object with t as its last enqueued_at_ns |
| Job.NoMarkerExactly | src/job.rs:207-214 | bytes that are no envelope have no marker; an element has none if and only if its body carries no timestamp |
| Readings.DecodeExactly | src/worker.rs:83-105 | a job whose body carries t gives one sample counted from t and no error; any other payload one error and no sample |
| Job.BodyText | src/job.rs:156-165 | the exact text of the whole body: empty args, the kwargs, and four nulls in sorted order |
| Job.EnvelopeExactly | src/job.rs:149-204 | an envelope is addressed to its queue, carries the priority unfloored, and holds exactly that text in base64 |
| Job.BodyInjective | src/job.rs:149-166 | envelopes with equal bodies were built for the same job index at the same instant |
| Broker.Redis.BrPop | src/worker.rs:54-64 | BRPOP takes the right end of the first non-empty key in argument order, and nothing else changes |
| Broker.PopTakesHead | src/worker.rs:54-64 | a pop returns the head of one sequence that the store determines, and leaves its tail |
| Producer.ClearQueue | src/producer.rs:14-24 | deletes exactly the expanded keys |
| Producer.BuildPipe | src/producer.rs:74-83 | the inner loop builds one push a job, in order, from job idx on |
| Producer.BulkEnqueue | src/producer.rs:59-91 | pipelined batches of a thousand leave the store that one push at a time leaves |
| Fill.IndicesExact | src/producer.rs:74-82 | the list of a key is exactly the increasing sequence of the jobs routed to it |
| Producer.ExactStore | src/producer.rs:14-91 | after clear and fill each polled key, read from the right, holds exactly its jobs in increasing order, and any other key is as before |
| Placement.JobIsPlaced | src/producer.rs:74-82 | job i is keyed by, and its envelope addressed to, queue i mod queues at priority (i div queues) mod priorities |
| Producer.PopOrderSorted | src/producer.rs:70-88 | draining a fill visits each of the n jobs once, sorted by priority step, then queue, then index |
| RoundRobin.PairIsPlaceInCycle | src/producer.rs:46-48 | job i gets (q, p) exactly when i is q + queues * p modulo queues * priorities |
| RoundRobin.WindowHitsOnce | src/producer.rs:32-48 | any window of queues * priorities jobs hits each pair exactly once, whatever the gcd |
| RoundRobin.PairCountExact | src/producer.rs:46-48 | the exact number of the first n jobs that get a given pair |
| RoundRobin.RoundRobinFair | src/producer.rs:32-48 | no pair ever leads another by more than one job |
| Placement.ListLength | src/producer.rs:59-91 | after clear and fill each polled list is as long as the exact shares of the pairs that derive its key come to |
| Placement.ListsAreFair | src/producer.rs:32-91 | two lists fed by one pair each never differ by more than one job |
| Worker.Metrics.IncCompleted | src/metrics.rs:26-30 | increments and returns the new value |
| Worker.Metrics.IncError | src/metrics.rs:32-34 | increments the error count only |
| Worker.LoadWorker.HandleMessage | src/worker.rs:83-111 | one job counted; one sample sent or one error counted, by what the payload decodes to; done set from the target on; the steps of the transition system in their order |
| Worker.LoadWorker.HandleReply | src/worker.rs:60-79 | a job to be had leaves its list, is counted, and is sampled or found unreadable; a transient failure adds one error, a lost connection drops the sender, and otherwise nothing changes |
| Worker.LoadWorker.Run | src/worker.rs:39-81 | the loop against any script comes to the state that turn after turn gives; n rounds of data count exactly min(n, listed, target - counted) jobs, the first listed ones in order, and the worker leaves in the round after the target |
| Worker.HandleIsRun | src/worker.rs:83-111 | handle_message is decode, increment and, from the target on, signal |
| Worker.TurnIsRun | src/worker.rs:46-80 | every turn of the loop is a given sequence of the worker's own enabled steps: the look at the flag, the look at the target, and what the reply asks for |
| Worker.RoundsCount | src/worker.rs:46-80 | how far a script of data takes a worker, exactly |
| Invariants.StepInv | src/main.rs:454-693 | every step of every task keeps all the invariants below together |
| Theorems.PopsFollowOneOrder | src/worker.rs:46-64 | what any workers pop in any interleaving is a prefix of one sequence fixed by the initial store |
| Theorems.ExactlyOnce | src/worker.rs:46-111 | at every moment the enqueued jobs are the disjoint union of listed, held, counted and lost ones |
| Theorems.CountedOnce | src/worker.rs:107 | the count never exceeds the enqueued jobs, and equals them exactly when none is listed, held or lost |
| Theorems.NoStall | src/worker.rs:46-80 | short of the target with nothing lost, a list is non-empty or a worker has a job in hand |
| Progress.TargetStaysInReach | src/worker.rs:46-111 | from every such state with one connected worker some continuation reaches the target |
| Theorems.BacklogFalls | src/worker.rs:46-111 | a weighted measure of listed and held jobs never rises and drops on every pop and handling step |
| Theorems.WorkIsBounded | src/worker.rs:46-111 | no schedule, however long, has more job-handling steps than that measure at its start |
| Theorems.SamplesConserved | src/worker.rs:83-111 | samples plus undecodable payloads equal counted jobs plus workers between their send or error and their increment |
| History.CountersExactly | src/worker.rs:69-111 | in every schedule the count of jobs is the number of increments, the count of errors that of transient BRPOP failures and unreadable payloads; done is set exactly if a worker has signalled |
| Theorems.ReportConserves | src/main.rs:644-692 | at the end the histogram holds exactly the samples in range, and total + failed BRPOPs = histogram count + samples out of range + errors, even with aborted workers |
| Theorems.WindowsPartition | src/main.rs:479-497 | at every moment the trial-long histogram is the concatenation of all windows handed out and the current one |
| Theorems.OvershootBound | src/worker.rs:50-52 | whatever the lists hold, at most target + workers - 1 jobs are counted |
| Overshoot.OvershootAttained | src/worker.rs:50-111 | that bound is reached by some schedule for every target and pool size, given enough jobs |
| Theorems.DoneExact | src/worker.rs:107-110 | done implies the target was reached; once reached, done is set or some worker is about to set it; exactly one increment returns the target |
| Theorems.DoneStays | src/worker.rs:108-110 | done never reverts |
| Theorems.NotTimedOutIsComplete | src/main.rs:612-663 | timed_out = false implies total_jobs >= jobs |
| History.VerdictExactly | src/main.rs:598-631 | in every schedule, for any number of workers: not timed out if and only if some poll began with the flag set; timed out by the timer, or for want of workers, if and only if a poll found so |
| History.PollWithFlagSucceeds | src/main.rs:612-614 | a poll that begins with the flag set makes the trial not timed out, whatever happens then |
| Abort.SuccessInReach | src/main.rs:612-692 | from every such state some continuation comes to a report that is not timed out |
| Abort.TimeoutInReach | src/main.rs:612-692 | from every state in which a poll begins with the flag clear, a timeout can still be the reported outcome |
| Theorems.VerdictStays | src/main.rs:598-631 | the outcome, once decided, is final |
| Theorems.LabelExact | src/main.rs:620-630 | when all workers have exited, the target was missed if and only if the flag is clear |
| Theorems.ReachedExactly | src/main.rs:612-663 | whatever the verdict, a report shows its target reached if and only if the done flag is set by then |
| Theorems.AtomicPollIsRight | src/main.rs:603-631 | if nothing runs within the poll, "all workers exited" is said only short of the target |
| Endings.CompleteTrialMislabelled | src/main.rs:612-631 | a schedule in which a trial that reached its target is labelled as one whose workers exited early |
| Endings.TimeoutAfterTarget | src/main.rs:612-619 | a schedule in which the target has been reached when the timeout is declared |
| Endings.TargetInDrain | src/main.rs:633-663 | a schedule in which a timeout declared short of the target is reported with the target reached |
| Theorems.CleanClosure | src/main.rs:502-661 | senders = sentinel + template + live workers; workers are joined once each and only when finished; the collector exits only with every sample consumed and nobody left to send |
| Theorems.FinishedIsQuiet | src/main.rs:656-692 | after the report no step touches the store, the counters or the report |
| Shutdown.OneMoreJobEach | src/main.rs:644-656 | after the shutdown flag each worker counts at most one more job |
| Shutdown.DrainAdds | src/main.rs:644-664 | the reported total is at least the count at the shutdown flag and at most one more for each worker that had passed its look at the flag |
| Shutdown.NeverStuck | src/main.rs:522-673 | in every state short of the report some step is enabled |
| Shutdown.ShutdownTerminates | src/main.rs:633-692 | after the shutdown flag every schedule runs out of steps, and only at the finished report |
| Abort.HangingWorkersAborted | src/main.rs:644-692 | if the drain finds every worker hanging, however many, the trial can still end with the count it has, losing exactly the jobs whose replies had not arrived |
| Theorems.MonitorTelescopes | src/main.rs:553-571 | no delta is negative, and the samples add up to the last counter read, which is at most the current one |
| Theorems.SeriesInStep | src/main.rs:553-584 | the i-th latency sample belongs to the i-th window; the three series never differ by more than the tick under way |
| Theorems.ReportSeriesBounded | src/main.rs:663-673 | the reported series sum to at most the reported totals; the error series differs from the throughput series by at most one sample, the latency series is level with it or one shorter |
| Witnesses.SeriesAgreeExactly | src/main.rs:638-673 | the reported throughput and error series are sure to have one length if and only if the monitor is not between, or still before, the two pushes of a tick when the first is read |
| Witnesses.LatencyGapExactly | src/main.rs:573-673 | the reported latency series is sure to be g samples shorter than the throughput series if and only if, as the reads begin, it is behind by g and the monitor neither has a tick to push nor a window in hand |
| Witnesses.CaughtMidTick | src/main.rs:633-663 | a schedule in which the monitor is caught there |
| Recording.Collect | src/main.rs:474-498 | the collector's loop keeps every sample in range and cuts the same samples into windows |
| Recording.CutPartitions | src/main.rs:479-497 | however snapshot requests fall between samples, windows and remainder make up the whole |
| Recording.SeriesLength | src/main.rs:573-584 | a name listed k times gets k samples for each window |
| Recording.LatencyFollowsThroughput | src/main.rs:553-584 | a name listed once has a series level with throughput or one behind, its i-th sample taken on the i-th window |
| Recording.ReportedSeries | src/main.rs:573-673 | in the report a name listed k times has k samples for each throughput sample, or for each but the last |
| Recording.ReportedLatency | src/main.rs:573-673 | in the report a name listed once has a series level with throughput or one shorter, its i-th sample taken on the i-th window |
| Recording.CollectorIsLoop | src/main.rs:474-498 | in every schedule the collector is where its loop would be after the samples and requests it was handed |
| Recording.TickIsRun | src/main.rs:557-584 | an uninterrupted tick is a sequence of the monitor's steps and the collector's answer |
| Recording.MonitorTask.Tick | src/main.rs:557-584 | one tick pushes exactly the counters' growth since the last and keeps the telescoping |
| Recording.MonitorTask.StoreSnapshot | src/main.rs:326-335 | one pass over the specifications pushes one value for each: 0 on an empty window, else the specification's own |
| Bench.RunTrial | src/main.rs:454-693 | the trial goes through the schedule's steps up to its report, the schedule's end or a step that cannot be taken; keys that are not polled stay |
| Running.PlayReports | src/main.rs:454-693 | executing a schedule ends in a report if and only if some first steps of it lead to one |
| Bench.Prepare | src/main.rs:897-944 | clearing and filling leaves exactly the plan's jobs under the polled keys; with FLUSHDB no other key is left, with DEL every other key is as before |
| Bench.RunLevel | src/main.rs:886-911 | a level gives a result if and only if its schedules bring warmup and trial to reports; the result is an execution of its schedule, from its own clock's jobs |
| Bench.RunLevels | src/main.rs:886-932 | the results are the trials of the levels up to the first that comes to no report, or of all; each starts from exactly its own jobs; the timeout flag is exact; without FLUSHDB no foreign key changes |
| Bench.TrialsAreIsolated | src/main.rs:886-911 | no worker of a finished trial, warmup or measured, is left, and nothing of it still running touches the store |
| Bench.SchedulerIndependentOrder | src/worker.rs:54-64 | for any number of workers and any interleaving the popped jobs are the first of all jobs sorted by priority step, queue, index |
| Bench.NeverMoreThanEnqueued | src/main.rs:898-904 | with its own jobs only, a trial never counts more than it enqueued |
| Bench.SuccessIsExact | src/main.rs:612-663 | a trial not timed out counted exactly the enqueued jobs, each once, with none left, held or lost |
| Bench.JobCarriesMarker | src/producer.rs:79-82 | every enqueued payload decodes to the instant at which it was built |
| Bench.SamplesAreWaits | src/worker.rs:83-111 | at every moment of a measured trial each sample sent is the wait of one of its jobs, from the instant it was built to the instant it was read, and no job is read twice |
| Bench.ErrorsAreFailedPops | src/worker.rs:66-111 | in a measured trial every error is a failed BRPOP, and the total is the histogram's count plus the samples too large for it |
| Bench.ReportIsTimelyWaits | src/main.rs:438-498 | the reported histogram holds exactly the waits of the counted jobs that were read less than cap + 1 microseconds after they were built; it misses none if and only if all were |
| Bench.SlowJobDropped | src/main.rs:438-452 | for every bound, producer clock and prior store there is a measured trial, not timed out, that reports a job and an empty histogram |
| Endings.SampleDropped | src/main.rs:438-498 | the same for any store and decoding: one worker, one job, read too late |
| ReportText.FormatN | src/report.rs:20-30 | every fourth character from the right is a comma and no other is; removing them gives back the decimal |

## Left out

- Json.ParsePrint: no floats on the printing side, and the parser neither checks that strings are valid UTF-8 nor rejects numbers too large for a float; payloads of this tool contain neither.
- Theorems.AtomicPollIsRight: assumes that nothing else runs within one poll of the select, which several threads do not guarantee; the exact condition without it is LabelExact.
- Bench.ReportIsTimelyWaits: the histogram's capacity is a parameter, a minute at least; how the HDR crate rounds its bound up, its buckets and its quantiles are not modelled.
- Bench.RunLevels: a Redis error while clearing or filling ends the process and is not modelled; a trial that fails to connect or whose schedule does not bring it to a report ends the run.
- The connection pool: when a connection cannot be opened, run_trial returns early and the process ends; the model freezes the trial there (phase Failed).
- 64-bit overflow of the two counters, which 2^64 jobs would take.
- Real time: the timeout, the drain timeout, the BRPOP timeout, the one-second tick and the 20 ms pause are events that may happen at any moment; rates and durations are not computed.
- A reply that was popped by the server but never reached its worker counts as lost; an aborted worker's connection is assumed to pop nothing afterwards.
- The outer envelope's JSON and its constant, UUID and process-id header fields: a list element either is an envelope or does not parse.
- URL building and redaction, TLS, tag lookup, command-line and path validation, percentile parsing, console tables and the JSON report file.
