# RadarRT-DSP: a verified model

RadarRT-DSP samples a radar signal on a fixed schedule, hands it through a bounded queue to a pool of DSP
workers (noise filter, FFT, target detection), and logs each result through a second queue. This project models
its two hard parts, the concurrent pipeline with its ordered drain and the signal-processing chain, together with
the two small time protocols beside them, and proves what they promise.

`dafny verify dfyconfig.toml` checks everything.

| file | what it holds |
|---|---|
| `Options.dfy` | a value that may be missing |
| `Queue.dfy` | `ThreadSafeQueue` as a class, proved against a queue that remembers its whole history |
| `Monitor.dfy` | the same queue under any interleaving of any number of threads: no lost wake-up |
| `Pipeline.dfy` | the application as a transition system: main, producer, N workers, logger, watchdog |
| `PipelinePhases.dfy` | the fixed order of startup and shutdown |
| `PipelineFlow.dfy`, `PipelineResults.dfy`, `PipelineLog.dfy` | where every signal, every result and every record is |
| `PipelineWake.dfy` | whoever sleeps through the end is owed a notification |
| `PipelineStart.dfy` | startup: everybody, or a rollback |
| `PipelineFlag.dfy` | why the shutdown flag is set, who leaves for it, and that every throw is counted once and ends in a drain |
| `PipelineBeats.dfy`, `PipelineScan.dfy` | what a heartbeat says about its thread, and what a scan makes of it |
| `PipelineLive.dfy` | while the queues are open nobody sleeps on work that is there |
| `PipelineRuns.dfy` | the theorems about every reachable state and every run |
| `PipelineDrain.dfy` | the drain always finishes |
| `PipelineWitness.dfy` | stretches of runs from which the concrete runs below are built |
| `PipelineLimits.dfy` | exactly when the drain empties the input queue |
| `PipelineReports.dfy` | stall reports that come too late: a run, and exactly when they are possible |
| `PipelineGauge.dfy` | the gauge of log drops: exactly when it is right after a drain, and runs in which it is not |
| `Schedule.dfy` | the producer's absolute-deadline loop |
| `Heartbeat.dfy` | the lock-free heartbeat and the order in which it is read |
| `Ring.dfy`, `Residues.dfy`, `Complex.dfy` | exact arithmetic: commutative rings, the integers modulo 257, complex numbers over the reals |
| `BitReversal.dfy`, `Fourier.dfy`, `Fft.dfy`, `DftLaws.dfy` | the in-place FFT and the plain DFT it equals |
| `Dsp.dfy`, `DspTheorems.dfy` | filter, spectrum, detector, and what holds end to end |

## How the concurrent part is modelled

A step is one lock section, one notification issued after unlocking, or one atomic load or store; between steps the
clock may advance by any amount. Sleeping threads may wake spuriously, `notify_one` wakes any one waiter, a thread
may throw anywhere inside its `try` block except in a notification or in `requestShutdown` (both are `noexcept`),
and starting a thread may fail. The number of workers is arbitrary, the capacities are any value of at least 1 (the
constructor of the queue refuses 0) and the liveness timeout is any number. Signals are numbered in the order the
producer offers them, so "no signal twice" is a statement about numbers. The ledger in a state holds the counters of
`Metrics` and, for the proofs, what became of every value.

The state carries every heartbeat, in the order of registration, marked Running and Waiting where the source marks
it: the producer is Running from before its push until its wait, also while it sleeps in the push and after it has
left; a worker and the logger are Running from after a pop until they come back for the next. A scan reads the clock
once and flags exactly the heartbeats that it finds Running with a timestamp older than the timeout. A clock reading
returns any time between the step before it and the step that uses it.

The FFT is generic over a commutative ring and a family of roots with `root(1) = 1`, `root(2) = -1` and
`root(2L)^2 = root(L)`, which is what `cos` and `sin` of the source's angles satisfy. `Residues.dfy` shows that the
assumptions can be met for the source's 256 samples.

## Where the code and its documentation differ

- `ARCHITECTURE.md:370-384` says that the watchdog stops scanning first and that joining the workers guarantees no
  further pushes into the output queue. A scan under way when the flag is set runs on and may push; its record is
  refused when the output queue is already closed. `StallReportRefused` gives such a run for every configuration: a
  producer that has been Running for longer than the timeout. `LateReportIff` says exactly when it can happen: when
  the output queue is about to be closed, the watchdog is about to push a report, or its scan has yet to visit a
  heartbeat that is Running and too old, or the logger's, which may still turn Running. Records of DSP workers are
  never refused (`DspPushAccepted`).
- `ARCHITECTURE.md:363` says that in-flight signals must not be lost. `workerCount` is not validated, and with an
  empty pool an undisturbed drain leaves the accepted signals in the queue. `DrainsInputIff` proves that the promise
  holds exactly when there is at least one worker.
- `src/thread_pool.cpp:75-82` and `src/watchdog.cpp:91-92` say that the workers mirror the queue's drop count into the
  gauge of log drops. The gauge never exceeds that count (`CounterHonesty`). Without stall reports it is exact after
  every completed drain if and only if the pool has at most one worker (`GaugeExactIff`): two workers read and store
  the count in separate steps, and a stale store can be the last. A report can evict a record after the last store
  of a worker, and then the gauge stays behind for good (`ReportNotMirrored`).

## Model

| member | source | states |
|---|---|---|
| `QueueModel.HistoryRefined` | include/radar/thread_safe_queue.hpp:66-179 | for every capacity, policy and operation sequence: pushes answered true are the accepted values in order, accepted = removed prefix (popped or evicted) + buffer, size never exceeds capacity, closed exactly after a close, drops = evictions + the pushes answered false before the close and never the refusals after it, end of stream only when closed with everything removed |
| `QueueModel.DrainLaw` | include/radar/thread_safe_queue.hpp:84-112 | as many pops as there are buffered values, closed or open, deliver exactly those values in order and leave the queue empty |
| `QueueModel.PushesStore` | include/radar/thread_safe_queue.hpp:66-80 | as long as there is room every push on an open queue is stored, whatever the policy |
| `QueueModel.RoundTrip` | include/radar/thread_safe_queue.hpp:66-100 | values that fit come out in the order they were pushed |
| `QueueModel.EnqueueValid` | include/radar/thread_safe_queue.hpp:148-165 | storing, evicting, rejecting and refusing each keep the history equation and the drop count exact |
| `QueueModel.DequeueValid` | include/radar/thread_safe_queue.hpp:167-179 | a pop keeps the history equation and delivers the oldest buffered value |
| `QueueModel.PoppedInOrder` | include/radar/thread_safe_queue.hpp:84-112 | consumers see an increasing subsequence of the accepted values, short of the removed prefix by exactly the evictions |
| `QueueModel.LosslessPrefix` | include/radar/thread_safe_queue.hpp:66-72 | without evictions nothing is skipped: what consumers received is the removed prefix |
| `QueueModel.ThreadSafeQueue.EnqueueLocked` | include/radar/thread_safe_queue.hpp:148-165 | the in-place section equals the specification and keeps the history invariant; written out: refused when closed, appended when there is room, oldest evicted and counted under DropOldest, rejected and counted otherwise |
| `QueueModel.ThreadSafeQueue.PushSection` | include/radar/thread_safe_queue.hpp:66-72 | waits exactly for Block, full and open, changing nothing; otherwise it is the specified push |
| `QueueModel.ThreadSafeQueue.TryPush` | include/radar/thread_safe_queue.hpp:77-80 | never waits, whatever the policy; equals the specified push |
| `QueueModel.ThreadSafeQueue.PopSection` | include/radar/thread_safe_queue.hpp:84-91 | waits exactly for empty and open; written out: the oldest value, which is removed, if there is one, and end of stream if the queue is empty and closed |
| `QueueModel.ThreadSafeQueue.TryPop` | include/radar/thread_safe_queue.hpp:94-100 | never waits; written out: the oldest value, which is removed, or nothing if the queue is empty |
| `QueueModel.ThreadSafeQueue.CloseLocked` | include/radar/thread_safe_queue.hpp:105-112 | closes, keeps the buffer and the history |
| `QueueModel.NewQueue` | include/radar/thread_safe_queue.hpp:49-54 | refuses exactly a capacity of zero; otherwise an empty open queue |
| `Monitor.StepKeeps` | include/radar/thread_safe_queue.hpp:66-179 | every lock section, notification and spurious wake-up of any thread keeps: helpers (awake consumers, pending notify_one) cover the buffered items while a consumer sleeps and the queue is open; a sleeper on not_full_ has a false predicate unless a notify_all is pending |
| `Monitor.AlwaysInv` | include/radar/thread_safe_queue.hpp:84-118 | the above in every state of every run, for any threads, capacity and policy |
| `Monitor.Linearizable` | include/radar/thread_safe_queue.hpp:66-112 | however threads are interleaved, the queue is what its operations, in the order of their lock sections, make of it one after another |
| `Monitor.ReturnsWhenDone` | include/radar/thread_safe_queue.hpp:66-118 | a blocking pop returns without a value only at end of stream, waitUntilEmpty only on an empty queue, and a push waits exactly for Block, full and open |
| `Monitor.TriesNeverWait` | include/radar/thread_safe_queue.hpp:77-100 | tryPush and tryPop never wait |
| `Monitor.NoLostWakeup` | include/radar/thread_safe_queue.hpp:66-118 | when nothing is in progress, a sleeping consumer means empty and open, a sleeping producer full and open, a sleeping waitUntilEmpty a non-empty queue |
| `PipelinePhases.MainPhase` | src/application.cpp:79-109 | the main thread keeps the fixed order: threads start consumers first, queues close and threads are joined in the order of shutdown |
| `PipelineFlow.InputKept` | src/radar_producer.cpp:51-60 | every step of every thread keeps: signals numbered in order of acceptance, nothing rejected or evicted, accepted minus produced fixed by where the producer is |
| `PipelineFlow.FlowAtKept` | src/thread_pool.cpp:64-74 | every step keeps, for each signal: times removed = times processed + held by workers + lost with a worker that threw |
| `PipelineResults.ResultAtKept` | src/thread_pool.cpp:73-80 | every step keeps, for each signal: times processed = its records accepted for output + held before the push + lost with a worker that threw |
| `PipelineLog.LogsKept` | src/logger.cpp:99-117 | every step keeps: popped records = written in order + lost when the logger threw + in its hands; only stall reports refused; normal exits only at end of stream; every death by exception counted; losses only with a dead worker |
| `PipelineWake.TokenKept` | src/shutdown_token.cpp:5-14 | every step keeps: asleep in waitFor with the flag set implies that a thread which is awake has yet to notify |
| `PipelineWake.WakeKept` | include/radar/thread_safe_queue.hpp:105-112 | every step keeps: asleep on a closed queue implies that close has yet to notify |
| `PipelineRuns.InitInv` | src/application.cpp:79-88 | the state before any thread is started satisfies the whole invariant |
| `PipelineRuns.StepKeeps` | src/application.cpp:38-109 | every step of every thread, throws and spurious wake-ups included, keeps the whole invariant |
| `PipelineRuns.Conservation` | src/thread_pool.cpp:53-92 | in every reachable state, as multisets and as counts: accepted = processed + in flight + lost in a worker that threw + buffered; no signal is accepted or processed twice |
| `PipelineRuns.CounterHonesty` | src/radar_producer.cpp:55-60 | accepted minus produced is 0 or 1, processed at most produced + 1, input drops 0 throughout, the log-drop gauge never above the queue's own count |
| `PipelineRuns.DspPushAccepted` | src/thread_pool.cpp:75-80 | a worker's output push is never refused in any reachable state |
| `PipelineRuns.OnlyStallsRefused` | src/watchdog.cpp:98-98 | every refused record is a stall report, and only after the output queue was closed |
| `PipelineRuns.WrittenInOrder` | src/logger.cpp:99-112 | what a logger that did not throw has written is an ordered subsequence of the accepted records |
| `PipelineRuns.LogAccounted` | src/logger.cpp:99-117 | after a normal exit of the logger written + evicted = accepted and nothing is left |
| `PipelineRuns.LeftBehind` | src/thread_pool.cpp:84-91 | after any drain, a non-empty input queue implies that every worker was started and died by an exception |
| `PipelineRuns.CleanDrain` | src/application.cpp:98-106 | after a drain without exceptions (at least one worker): input empty, produced = processed = accepted, each signal processed once and its record accepted for output once |
| `PipelineRuns.CleanLog` | src/application.cpp:106-107 | after a drain without exceptions, every accepted record was written or counted as dropped |
| `PipelineRuns.NoLostShutdown` | include/radar/shutdown_token.hpp:34-39 | in every reachable state a thread asleep in waitFor has the flag unset or a notification pending |
| `PipelineRuns.QuietAfterShutdown` | src/radar_producer.cpp:51-77 | over every run from a set flag: at most one more signal is stored and no further scan begins |
| `PipelineStart.EverybodyStarted` | src/application.cpp:79-88 | in every reachable state in which the main thread waits for a signal, every thread has been started |
| `PipelineFlag.ThrowSetsFlag` | src/thread_pool.cpp:84-91 | in every reachable state a producer, worker, logger or watchdog that is past its exception boundary has set the shutdown flag |
| `PipelineFlag.ThrowDrains` | src/application.cpp:90-109 | from every reachable state in which some thread has thrown, a run leads to the finished drain with every thread joined |
| `PipelineFlag.ExceptionsCounted` | src/thread_pool.cpp:88-90 | in every reachable state the exception counter is exactly the number of threads that threw and have counted it |
| `PipelineFlag.NoFlagWithoutReason` | src/shutdown_token.cpp:5-14 | before the main thread shuts down and without exceptions the flag is set only by a watchdog that is configured to escalate and has found a stall |
| `PipelineFlag.StallEscalates` | src/watchdog.cpp:79-84 | a watchdog configured to escalate does not wait, scan or leave after a stall unless shutdown has been requested |
| `PipelineFlag.NobodyLeavesEarly` | src/radar_producer.cpp:51-77 | producer and watchdog end normally only when shutdown has been requested |
| `PipelineFlag.FlushedAtEnd` | src/logger.cpp:99-117 | the sinks are flushed exactly by a logger that leaves normally, when the queue is closed and drained |
| `PipelineFlag.NoSampleWithoutTimeout` | src/radar_producer.cpp:72-77 | over every run in which the producer's wait does not time out, nothing more is stored |
| `PipelineFlag.NoScanWithoutTimeout` | src/watchdog.cpp:54-56 | over every run in which the watchdog's wait does not time out, no scan begins |
| `PipelineBeats.BeatsTellTheTruth` | include/radar/heartbeat.hpp:41-49 | in every reachable state every heartbeat fits where its thread is: a worker Running from processing until it comes back for the next signal and not while it waits, the producer not while it waits between samples, the logger only while it writes; no stamp lies in the future |
| `PipelineBeats.WorkerMarksFresh` | src/thread_pool.cpp:69-70 | a worker's mark carries a time between its pop and the present |
| `PipelineScan.HangingIsReported` | src/watchdog.cpp:59-77 | over every run in which the owner of a heartbeat that is Running and too old makes no step, a scan that has yet to visit it goes on to offer a report about it |
| `PipelineScan.HungWorkerReported` | src/watchdog.cpp:64-77 | a worker that stays in processing past the timeout is counted as a stall and reported before the scan is over |
| `PipelineScan.OnlyStallsReported` | src/watchdog.cpp:68-76 | in every reachable state a stall is counted only when a scan comes to a heartbeat that is Running with a stamp older than the timeout |
| `PipelineScan.StallsCounted` | src/watchdog.cpp:93-98 | in every reachable state the stall counter is the number of reports offered to the output queue, apart from the one being made |
| `PipelineLive.LiveKept` | include/radar/thread_safe_queue.hpp:148-179 | every step, throws included, keeps: a producer asleep in push has a full queue or a pending notification, a sleeping logger no record or a pending notification, and while a worker sleeps every buffered signal has an awake worker, a pending notify_one, or a worker that threw |
| `PipelineLive.NobodyForgotten` | src/thread_pool.cpp:64-82 | the above in every reachable state, until the queue in question is closed |
| `PipelineDrain.StepDrains` | src/application.cpp:90-109 | with the flag set, every step of a thread but a spurious wake-up, throws and timeouts included, lowers the weight |
| `PipelineDrain.DrainBound` | src/application.cpp:90-109 | the length of any run after the flag is set is at most the weight of its first state, plus two per spurious wake-up and one per advance of the clock |
| `PipelineDrain.DrainProgress` | src/application.cpp:65-109 | with the flag set and the drain unfinished some thread can take an ordinary step, from any prefix of startup and with any threads dead |
| `PipelineDrain.MaximalRunFinishes` | src/application.cpp:102-109 | a run that cannot go on has joined every thread that was started |
| `PipelineDrain.DrainFinishes` | src/application.cpp:90-109 | from every state with the flag set there is a run of ordinary steps, no longer than the weight, that joins every thread |
| `PipelineLimits.DrainsInputIff` | src/thread_pool.cpp:31-45 | exception-free drains always empty the input queue if and only if the pool has at least one worker |
| `PipelineLimits.EmptyPoolLoses` | src/application.cpp:102-108 | the run with an empty pool that ends with an accepted signal still buffered |
| `PipelineReports.StallReportRefused` | src/watchdog.cpp:59-99 | for every pool size, capacity and timeout, a run in which the report about a producer that has been Running too long is refused by the output queue, closed after the pool was joined |
| `PipelineReports.LateReportIff` | src/application.cpp:105-108 | in every reachable state with the output queue about to be closed, a report can still be refused if and only if the watchdog is about to push one, or its scan has yet to visit a heartbeat that is Running and too old or, the logger's, can still become so |
| `PipelineGauge.GaugeExactIff` | src/thread_pool.cpp:75-82 | after every completed drain without exceptions and without stall reports the gauge of log drops equals the queue's count, if and only if the pool has at most one worker |
| `PipelineGauge.StaleStore` | src/thread_pool.cpp:80-82 | for every pool of two or more and every capacity, a completed run without exceptions or reports whose gauge is too low, because an older count was stored last |
| `PipelineGauge.ReportNotMirrored` | src/watchdog.cpp:87-98 | for every non-empty pool, every capacity and timeout, a completed run without exceptions in which the eviction by a report about a Running heartbeat never reaches the gauge |
| `Schedule.ProduceLoop` | src/radar_producer.cpp:48-78 | the loop's deadlines and samples follow the schedule exactly, the sample refused by the closed queue included; produced counts the stored signals, the miss counter is the number of cycles that had reached their next deadline, and the loop ends only when a stop or the closed queue ends it |
| `Schedule.FirstSample` | src/radar_producer.cpp:48-53 | the first sample is due at the start and taken at once |
| `Schedule.Recurrence` | src/radar_producer.cpp:62-77 | written out: after a miss the deadline is realigned to now and the next sample follows at once, otherwise the deadline moves by one period and the sample waits for it |
| `Schedule.DeadlineAt` | src/radar_producer.cpp:62-70 | deadline k = start + k periods + the lateness of all cycles before it |
| `Schedule.SampleNotEarly` | src/radar_producer.cpp:63-77 | no sample is taken before its deadline |
| `Schedule.RefusedNotEarly` | src/radar_producer.cpp:52-57 | the sample whose push is refused is not early either, and its deadline is on the schedule |
| `Schedule.NoDrift` | src/radar_producer.cpp:62-65 | between misses deadlines are exactly one period apart |
| `Schedule.RateBound` | src/radar_producer.cpp:48-77 | for a positive period, at most floor((T - start) / period) + 1 samples by time T, stored or refused |
| `Heartbeats.StepKeeps` | include/radar/heartbeat.hpp:41-49 | every atomic step of worker and scan keeps: the timestamp is the latest completed beat or a newer one, and a flagged stall is real |
| `Heartbeats.NoFalseStall` | src/watchdog.cpp:59-77 | in any interleaving a flagged heartbeat was Running when its state was read, with its latest completed beat older than the timeout at the scan's time |
| `Heartbeats.HungIsFlagged` | src/watchdog.cpp:64-77 | a worker hung in Running past the timeout can only be flagged by the scan that has begun |
| `Heartbeats.HungIsFound` | src/watchdog.cpp:60-76 | a scan that begins when a worker has been hung for longer than the timeout can only end by flagging it |
| `Heartbeats.FreshBeat` | include/radar/heartbeat.hpp:41-44 | markRunning, with any steps of the scan and the clock in between, publishes Running and exactly the time that was read |
| `Heartbeats.WaitingNotFlagged` | include/radar/heartbeat.hpp:46-49 | a worker that has marked itself waiting is not flagged until it marks itself running, however long it waits |
| `Heartbeats.FalseStall` | include/radar/heartbeat.hpp:51-55 | for every timeout, a run with the two loads swapped that flags a fresh heartbeat |
| `Heartbeats.ReadOrderIff` | include/radar/heartbeat.hpp:51-61 | no false stall is ever reported if and only if the state is loaded first |
| `BitReversal.CarryFromTop` | src/fft.cpp:27-31 | the reversed-carry loop never runs out of bits and adds one from the top |
| `BitReversal.RevSuccessor` | src/fft.cpp:26-31 | adding one from the top takes the reversal of i to the reversal of i + 1 |
| `BitReversal.RevInvolution` | src/fft.cpp:26-35 | reversing the bits twice is the identity |
| `BitReversal.PermuteInPlace` | src/fft.cpp:26-35 | the swap loop leaves data[i] = old[rev(i)] |
| `BitReversal.BitReverseTwice` | src/fft.cpp:26-35 | that permutation undoes itself |
| `Fourier.SplitEval` | src/fft.cpp:37-51 | a sum over powers splits into its even and odd terms at the square |
| `Fourier.HalfTurn` | src/fft.cpp:39-40 | half a turn of every root is -1 |
| `Fourier.ButterflyAt` | src/fft.cpp:44-47 | two bins of a block are the sum and difference of the half-length transforms |
| `Fourier.BinsAreDft` | src/fft.cpp:37-51 | evaluating at the powers of the root is the plain DFT sum |
| `Fft.ButterflyBlock` | src/fft.cpp:42-49 | one block with its running twiddle factor: every pair combined with the right power, everything else untouched |
| `Fft.CellIsEval` | src/fft.cpp:38-51 | what a finished block holds is the transform of its strided subsequence of the input |
| `Fft.Stage` | src/fft.cpp:41-50 | one pass over all blocks turns transforms of length len / 2 into transforms of length len |
| `Fft.Stages` | src/fft.cpp:38-51 | all passes, from blocks of one to the whole array |
| `Fft.Transform` | src/fft.cpp:25-51 | for every n = 2^m, every input and every ring with such roots, the in-place result is the plain DFT sum |
| `DftLaws.ScaledDft` | src/fft.cpp:37-51 | the transform of a scaled input is the scaled transform |
| `DftLaws.ConstantDft` | src/fft.cpp:37-51 | a constant input has all its energy in bin 0 |
| `DftLaws.MirrorDft` | src/fft.cpp:37-51 | over any ring with a conjugation, bin n - k is the conjugate of bin k |
| `Residues.RootsFor256` | include/radar/radar_signal.hpp:13-13 | the integers modulo 257 have such roots for 256 samples |
| `ComplexNumbers.ComplexIsRing` | src/fft.cpp:44-48 | complex arithmetic over the reals is a commutative ring |
| `ComplexNumbers.RealInputMirror` | include/radar/fft.hpp:10-16 | for real input bin n - k is the conjugate of bin k and has the same magnitude |
| `SignalProcessing.NoiseFilter` | include/radar/noise_filter.hpp:15-33 | written out: three times each inner output is the sum of the sample and its neighbours, twice each end is the sum of the two samples there, a single sample is kept |
| `SignalProcessing.SmoothedIff` | include/radar/noise_filter.hpp:19-31 | these equations have exactly one solution, the mean of each window |
| `SignalProcessing.Transformed` | src/fft.cpp:21-51 | the complex data after the loops is the DFT of the real samples |
| `SignalProcessing.Spectrum` | src/fft.cpp:18-59 | the lower half of the magnitudes of the DFT, divided by n; written out: n times bin i is the magnitude of the i-th DFT sum |
| `SignalProcessing.TargetDetection` | include/radar/target_detection.hpp:20-33 | the peak is the maximum (at least 0), and the flag holds exactly when the number of bins times the peak exceeds four times their sum |
| `SignalProcessing.OnePeakDetected` | include/radar/target_detection.hpp:29-31 | one bin p above n - 1 bins of level a is a target if and only if (n - 4) p > 4 (n - 1) a |
| `SignalProcessing.DetectorMeaning` | include/radar/target_detection.hpp:20-33 | for non-negative spectra: the peak is the maximum, the flag holds exactly when some bin exceeds four times the mean, a flat spectrum is never flagged |
| `SignalProcessing.FewAboveThreshold` | include/radar/target_detection.hpp:29-31 | fewer than a quarter of the bins exceed the threshold |
| `SignalProcessing.Process` | include/radar/signal_processor.hpp:18-24 | the composition of the three stages |
| `SignalTheorems.ResultMeaning` | include/radar/signal_processor.hpp:18-24 | whatever smooths the samples and is the spectrum of that decides the result: largest bin, and number of bins times it against four times the sum |
| `SignalTheorems.ResultUnique` | include/radar/signal_processor.hpp:18-24 | the specification of the chain fixes flag and peak |
| `SignalTheorems.ProcessScales` | include/radar/signal_processor.hpp:18-24 | scaling every sample by c > 0 keeps the flag and multiplies the peak by c |
| `SignalTheorems.ProcessConstant` | include/radar/signal_processor.hpp:18-24 | a constant input has peak equal to its absolute value and is flagged if and only if it is non-zero and n >= 16 |

## Left out

- Floating-point rounding, `cos`, `sin` and `kPi`: the FFT is exact, over an abstract family of roots. That the
  reals hold such roots of order 256 and every square root is not proved; roots and the absolute value are parameters.
- Concurrency is modelled on values, as transition systems; only the critical sections of the queue are methods of a
  class. Locking itself, `PiMutex` and priority inheritance are plain mutual exclusion.
- Weak memory beyond interleaved atomic steps.
- Spurious wake-ups are in every safety result; in the bound of the drain they are counted, not excluded, and
  fairness of the scheduler is not modelled.
- How long a timed wait lasts, in the pipeline: a timeout may happen, and a deadline may be missed, at any reading of
  the clock. The schedule itself is in `Schedule.dfy`.
- In the pipeline a scan loads the two words of a heartbeat in one step and `markRunning` stores them in one; the
  interleavings in between are in `Heartbeat.dfy`.
- `SignalHandler` system calls: an arriving signal, a failed wait and a token seen by the poll are steps of the main
  thread. The real-time setup of `RealtimeManager` and the failures it reports are not modelled.
- The guard that makes a second `shutdown` a no-op, exit codes and the printed summary.
- Sinks, line formatting and stderr: writing a record is one step that may throw.
- Queue-depth and latency gauges, and the deadline-miss counter inside the pipeline.
- Sample values: signals are numbers in the pipeline and arbitrary samples in the DSP chain.
- `Config`, exception types, `ManagedThread` move semantics and `HeartbeatRegistry` storage: easy members.
