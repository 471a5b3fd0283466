# Silo with epoch-based group commit: a verified model

The program is an in-memory transaction engine. Workers run optimistic transactions over a table of tuples
(`transaction.cpp`), a leader advances a global epoch (`util.cpp`), and loggers write the workers' records to
log files and publish up to which epoch everything is on disk (`log_buffer.cpp`, `include/log_queue.h`,
`logger.cpp`, `notifier.cpp`). This project models the three parts as step systems, composes them, and proves
what holds in every run of every interleaving. Its central theorem is that replaying the log files up to a durable epoch
gives exactly the table after a prefix of the serial order.

## How the model is built

Every access to memory that another thread can see is one step; what a thread computes on its own data belongs
to the step that follows it. A run is any sequence of enabled steps.

- `CommitModel.dfy`: the commit protocol and the epoch clock. A worker has a program counter, read and write
  sets and epoch register; the shared state is the tuple table and the epoch words. Values are read and
  installed byte by byte. `CommitLog`, `CommitInv` and `CommitSteps` hold the inductive invariant,
  `CommitTheorems` and `EpochFrontier` what follows from it.
- `LogModel.dfy`: buffers, pools, queues, loggers, notifier, with `LogInv`, `LogSteps` and `LogTheorems`;
  `FirstCommit`, `TwoWorkers` and `BufferCycle` add what depends on a worker's first commit and on the cycle of
  buffers.
- `System.dfy`: both machines together. A worker's step that concerns the log is one joint step. `Recovery` and
  `RecoveryBytes` read the log files of its states.
- `RecoveryIff.dfy`: which configurations recover from every crash, and in which the loggers keep their bounds.
  The runs that fail are runs of `WorkerLoop.dfy`, which adds to the two machines where each thread stands in the
  loop of `worker_th`; `WorkerAttempt` proves what its attempts do. `SystemRun`, `WorkerRun` and `LoggerRun` put
  such runs together, for any number of workers and loggers; `FullBufferRun`, `BlindRun`, `LostWriteRun` and
  `LoneLoggerRun` are those in which a write gets lost, `PepochBack` the one in which the pepoch file steps back.
- `TidWord.dfy` and `LogFormat.dfy`: the packed TID word and the bytes of `data.log`.
- `TxExecutor`, `EpochClock`, `LogQueue`, `LogBuffer`, `LogPass`, `LogWorker`, `LogWriter`, `Logger`, `LoggerAffinity`,
  `TableInit`: the code's own classes and loops. Their methods run without interference, up to the point where
  the code would wait for another thread, and are shown to take exactly steps of the machines (`Ran`: the
  thread alone leads from one state to the other), so that what is proved of the machines is about these loops.

The state carries a few fields of history that no guard and no real field depends on: the log of transactions
in the order in which they load `GlobalEpoch` in `validationPhase` (the serial order), the version a tuple or read
element shows, the holder of a lock, what a worker has pushed, and `blind`, which says that a logger has
stored a bound after a scan that took a worker without `CTIDW` for idle.

## Assumptions

- Memory is sequentially consistent. Queue and pool operations are atomic, also `empty()` and `min_epoch()`,
  which the code runs without the lock.
- `GlobalEpoch` stays below 2^32 - 1, and fewer than 2^29 transactions commit in one epoch (`Bounded`). The
  wrap-around of the 29-bit increment is modelled; `TidWords.CommitTidExceedsIff` says exactly when it hurts.
- Tuples start with TID 0 and absent 0, which `partTableInit` does not set.
- `write` is called with its default empty value, so that the value logged is the value installed.
- `fsync` makes durable what was written before it, and the pepoch file is one register. `data.log` means what
  one run writes to it: the file is opened without truncation, and older content is outside the model.
- Timers are nondeterministic. What holds in all runs is proved of workers that may begin any transaction, pause,
  and call `leaderWork` at any time between transactions; this only adds runs.
- Where a run is claimed to exist ("as coded", `WorkerLoops.CodedReachable`) every thread follows `worker_th` until
  quit is set: `leaderWork` once in each attempt and once in each `epochWork`, a pause just when `pauseCondition`
  holds, `epochWork` for a buffer just when `is_ready` fails, and after an abort the same operations again. A
  transaction has between one and `MAX_OPE` operations that take steps; `makeProcedure` makes always `MAX_OPE`, of
  which those that find their key already taken up do nothing.
- A crash leaves of each log file its fsynced part and some beginning of what was written after it.

## The first commit

Two places where code and comments differ are followed as coded. `nid_set_` is never cleared, since `pass_nid` is
commented out, so a recycled buffer counts as used and is enqueued without records under the key ~0. `CTIDW`
starts at ~0 and is then no lower bound: `find_min_epoch` skips a worker whose first commit is in flight.

The second one matters. For the whole program, for every `EPOCH_DIFF`, over all runs and also over the runs as
coded alone:

- the bounds of all loggers are kept in all runs if and only if every logger serves one worker
  (`RecoveryIff.BoundsKeptIff`);
- recovery up to the durable epoch is right after every crash if and only if every logger serves one worker, or
  there is one logger with workers 0 and 1 in this order (`RecoveryIff.RecoversIff`, and from bytes, torn blocks
  included, `CrashSafeIff`). In that one case a bound may pass a write, but `DurableEpoch` lags behind far enough:
  what worker 0 has in flight is of the current epoch, because worker 0 drives the clock, and what worker 1 has is
  at most one epoch older.

The run that fails: a (not 0) locks a tuple in its first transaction and loads epoch 1; all others have read that
tuple, abort and try again. Worker b has filled its buffers before, so that `epochWork` takes its `CTIDW` to epoch 2
while a is still in flight, and the logger, which sees only b, passes a by. Then a commits and the others' second
attempts succeed, one of them worker 0's, which so comes to its next call of `leaderWork`. Another logger's fold, or
the next `epochWork` of b, makes epoch 1 durable while a's record lies in its buffer.

Where a logger serves several workers, durability theorems assume that no logger was blind;
`Recovery.RecoveryOnceSettled` shows that recovery is right for good once every worker has stored a `CTIDW`.

## Model

| member | source | states |
|---|---|---|
| `Recovery.RecoveryIsSerialPrefix` | logger.cpp:47-124 | in every reachable state of the whole program without a blind logger, for every epoch e up to `DurableEpoch`, replaying the fsynced records of all loggers with epoch at most e (largest TID wins) gives the table after the serial execution of the transactions of epochs up to e; these are a prefix of the serial order and all decided |
| `Recovery.RecoveryOneWorkerEach` | logger.cpp:92-110 | with one worker for each logger recovery is right in every reachable state, without further hypothesis |
| `Recovery.ReplayComplete` | transaction.cpp:231-260 | replay gives the serial prefix whenever the epochs up to e are decided and on disk |
| `Recovery.ShutdownWritesAll` | logger.cpp:133-167 | once a logger has left its loop, its file holds on disk exactly the pushes of each worker's committed transactions, each once, in one piece and in commit order, and the worker has finished |
| `Recovery.ShutdownRecovery` | main.cpp:86-90 | after a shutdown, blind loggers or not, replaying all records gives the table in memory, value by value |
| `Recovery.FileTidsIncrease` | transaction.cpp:231-249 | along a log file the TIDs of each worker's transactions strictly increase |
| `Recovery.DiskIsCommitted` | log_buffer.cpp:32-48 | every record on disk was written by a committed transaction, with its TID and its value |
| `Recovery.RecoveryOnceSettled` | logger.cpp:92-110 | from a state in which no logger is blind, every worker has stored a real `CTIDW` and no scan under way skipped anybody, recovery is right in every later state of every run |
| `RecoveryIff.RecoversIff` | logger.cpp:92-124 | for any workers and loggers (fewer than 2^29 - 2^17) and any `EPOCH_DIFF`: replay up to any durable epoch is right in all reachable states, whatever the table and the values, if and only if no logger serves two workers or there is one logger with workers 0 and 1 in this order; the same for the states that threads reach which follow `worker_th` |
| `RecoveryIff.CrashSafeIff` | include/log_buffer.h:60-78 | the same from bytes: replaying the whole blocks of whatever a crash may leave of the files is right up to every durable epoch in exactly these configurations |
| `RecoveryIff.BoundsKeptIff` | logger.cpp:55-131 | for any table, workers, loggers and `EPOCH_DIFF`: in all reachable states of the whole program all that is not on disk lies above the bound of its logger if and only if no logger serves two workers; the same for the states that threads reach which follow `worker_th` |
| `RecoveryIff.PipelineBoundsKeptIff` | logger.cpp:92-105 | the same of the pipeline under any behaviour of transactions and clock |
| `RecoveryIff.RecoveryFails` | main.cpp:153 | for every table, whenever a logger serves workers a (not 0) and b, and it is not the only logger or asks b last, and a's value stands out: a run in which every thread follows `worker_th`, which reaches durable epoch 1 and from which replay gives another table than the serial prefix |
| `RecoveryIff.RecoveryTwoWorkers` | util.cpp:8-24 | with one logger and workers 0 and 1, in this order, recovery is right in every reachable state although the logger may be blind |
| `RecoveryIff.BoundBroken` | logger.cpp:126-131 | whenever a logger serves a worker other than 0 and a second one, a run in which every thread follows `worker_th` that ends with bound 1 stored and a committed record of epoch 1 not on disk |
| `TwoWorkers.StepKeepsTwo` | logger.cpp:92-124 | with one logger that asks worker 0 first: every step keeps that all which is not on disk, and all to come, is later than `DurableEpoch`, as long as what is in flight is of the current epoch for worker 0 and at most one older for worker 1 |
| `BlindRuns.PassesBy` | transaction.cpp:295-333 | the run behind `BoundBroken`, for any number of other workers and loggers, with what every worker, thread and logger is left in: a has committed, b is in `epochWork`, the others are to try their read again |
| `LostWrites.OtherLoggerLoses` | notifier.cpp:46-64 | with two loggers or more: once the second attempts have succeeded and the leader has come to its next `leaderWork`, the fold of another logger makes the wrong bound durable |
| `LostWrites.LostIsWrong` | log_buffer.cpp:32-48 | when the last write of epoch 1 is in no file and its value stands out, replay up to epoch 1 is wrong |
| `LoneLoggers.LoneLoggerLoses` | transaction.cpp:314-333 | with one logger that asks b last, also for `EPOCH_DIFF` 0: `epochWork` raises the `CTIDW` of b twice while it waits for a buffer, and a scan that skipped a before its commit makes epoch 1 durable |
| `FullBuffers.Fills` | log_buffer.cpp:8-30 | a worker that commits one record after the other in epoch 1 ends with no buffer in hand or in its pool: all of them are in the queue |
| `WorkerLoops.LeadsIsRun` | main.cpp:50-84 | the closure by which the runs are put together is a trace of steps that threads take which follow `worker_th` |
| `WorkerLoops.CodedIsRun` | main.cpp:50-84 | such a trace, without the tests of its loops, is a run of the program |
| `WorkerAttempts.AttemptsAsPlanned` | main.cpp:61-84 | along it a worker's read and write sets are what the operations of its attempt make of them, a worker outside an attempt is between transactions, and an attempt that validates, commits or aborts after an abort has done exactly the operations of the one before |
| `RecoveryFromBytes.BytesRecover` | include/log_buffer.h:60-78 | the fsynced bytes of the log files decode, with every checksum right, and wherever replay of the fsynced records is right, so is replay of what the bytes decode to |
| `RecoveryFromBytes.CrashRecovers` | include/log_buffer.h:60-78 | whatever a crash leaves of each file behind its fsynced part, torn blocks and whole blocks of any epoch included: when the epochs up to e are decided and on disk, replaying the whole blocks up to e gives the serial state |
| `RecoveryFromBytes.CrashRecoversUnblinded` | logger.cpp:47-124 | and so it does up to every durable epoch while no logger is blind |
| `LogFormats.BeginningReads` | include/log_buffer.h:60-78 | any beginning of a log file reads as the blocks that it has in full, never as more or others |
| `FirstCommit.SettledStays` | transaction.cpp:276-287 | once all workers of a logger have stored a real `CTIDW`, and no scan under way began before, the logger is never blind later |
| `FirstCommit.OneWorkerNeverBlind` | logger.cpp:94-105 | a logger with one worker never stores a bound over a skipped worker |
| `System.PartsReachable` | main.cpp:23-91 | a run of the whole program is a run of the commit protocol and a run of the pipeline, so that all theorems about either hold of the program |
| `System.NeverBlocked` | transaction.cpp:231-264 | joining the two machines disables no step of a transaction, apart from those at which the code itself waits for its log |
| `CommitTheorems.Serializable` | transaction.cpp:141-189 | every value read by a committed transaction is the value in the serial state just before it, in the order of the loads of `GlobalEpoch` |
| `CommitTheorems.UnlockedIsSerial` | transaction.cpp:251-260 | a tuple found unlocked holds the value of the serial execution of everything committed so far |
| `CommitTheorems.QuiescentIsSerial` | transaction.cpp:141-264 | when all workers are between transactions the table is the result of the serial execution and nothing is undecided |
| `CommitTheorems.ReadsAreWhole` | transaction.cpp:78-100 | any value and TID in a read set were installed together by one committed transaction, or loaded initially, although values are copied byte by byte and aborting transactions lock and unlock in between |
| `CommitTheorems.EpochPrefix` | transaction.cpp:149-151 | epochs never decrease along the serial order, a commit TID carries the epoch loaded at the serial point, and the transactions of epochs up to e are a prefix |
| `CommitTheorems.CommitTidsIncrease` | transaction.cpp:231-247 | a commit TID is greater in epoch and TID than every word read, every version overwritten and every earlier commit TID of the worker |
| `CommitTheorems.InstallsIncrease` | transaction.cpp:251-260 | a step leaves the epoch and TID of a tuple alone unless it installs a version, and then they increase |
| `CommitTheorems.WordsNeverGoBack` | transaction.cpp:251-260 | the same over any run, with locks coming and going on the word |
| `CommitTheorems.TidFieldBound` | include/tuple.h:16 | every TID in use in an epoch, in the table, a read set or a worker's registers, is at most the number of commits of that epoch |
| `CommitTheorems.LockDiscipline` | transaction.cpp:43-60 | the lock bit of a tuple is set if and only if some worker holds it, and never two |
| `CommitTheorems.HeldUntouched` | transaction.cpp:120-139 | no step of another worker changes a tuple that a worker holds |
| `CommitTheorems.UnlockRestores` | transaction.cpp:120-139 | releasing a lock in an abort leaves word and value of the version that was locked |
| `CommitTheorems.NothingLeftLocked` | transaction.cpp:141-189 | outside the commit phases a worker holds no tuple: an abort released all it took |
| `CommitTheorems.NeverStuck` | main.cpp:50-85 | in every reachable state a worker can take its next step; no access is out of bounds |
| `CommitSteps.StepKeepsInv` | transaction.cpp:43-264 | every step of every worker keeps the invariant of the protocol |
| `CommitSteps.SortAscending` | transaction.cpp:145 | sorting the write set keeps its keys and puts them in strictly ascending order |
| `CommitSteps.CheckedCopy` | transaction.cpp:88-98 | a byte-wise copy whose word has not moved is a copy of one version |
| `CommitSteps.ReadValidated` | transaction.cpp:166-184 | a read that passes its check is of the last version before the serial point |
| `EpochFrontier.EpochLag` | util.cpp:8-24 | in every run `GlobalEpoch` is at most one ahead of each worker but worker 0, whose epoch is current from load to last install; a commit in flight is at most one epoch behind |
| `TidWords.UnpackObj` | include/tuple.h:9-19 | unpacking the packed word gives back its fields |
| `TidWords.ObjUnpack` | include/tuple.h:9-19 | packing what a 64-bit integer unpacks to gives back the integer |
| `TidWords.LessIsLexicographic` | include/tuple.h:23-25 | order on `obj_` is lexicographic on epoch, TID, absent, latest, lock |
| `TidWords.CommitTidEpoch` | transaction.cpp:231-247 | the commit TID lies in the epoch loaded by the transaction, whatever the three maxima are, and is unlocked |
| `TidWords.CommitTidExceedsIff` | transaction.cpp:231-247 | the commit TID exceeds all three words if and only if none of them is the last TID of the current epoch |
| `TidWords.CommitTidTight` | transaction.cpp:231-247 | it is at most one above the largest TID of its epoch among the three |
| `LogTheorems.LoggerDurable` | logger.cpp:47-131 | under a logger that was never blind, what a worker has pushed is, in order, what is on disk followed by pushes of epochs above the logger's bound only |
| `LogTheorems.NothingLate` | transaction.cpp:276-311 | along any later run without blindness no worker of the logger produces a record at or below its bound |
| `LogTheorems.DurableEpochBounds` | notifier.cpp:46-64 | pepoch is at most `DurableEpoch`, that is at most every logger's bound, and that is below `GlobalEpoch` |
| `PepochBacks.PepochStepsBack` | notifier.cpp:55-62 | the word in the pepoch file is no such maximum: with two loggers a reachable step takes it from 2 back to 1 while `DurableEpoch` stays 2, since it is written after the compare-and-swap |
| `LogTheorems.DurableEpochMonotone` | notifier.cpp:46-64 | neither `DurableEpoch` nor any logger's bound decreases along a run |
| `LogTheorems.FileInPushOrder` | logger.cpp:66-81 | a log file holds each worker's pushes in the order it made them, none left out |
| `LogTheorems.SingleEpochBuffers` | log_buffer.cpp:8-48 | a buffer holds one epoch and never more records than it has room for; outside `wal` its epoch is that of the worker's `CTIDW`, also after `epochWork` |
| `LogTheorems.ShutdownComplete` | logger.cpp:145-152 | a logger that has left its loop has everything its workers ever pushed on disk |
| `LogTheorems.PushLate` | transaction.cpp:276-287 | what `wal` has not appended yet lies above the bound of a logger that was never blind |
| `LogSteps.StepKeepsInv` | logger.cpp:47-167 | every step of workers and loggers keeps the invariant of the pipeline |
| `BufferCycles.BuffersConserved` | log_buffer.cpp:51-88 | each buffer of a pool is in exactly one place: current, pool, queue or the logger's batch |
| `BufferCycles.NextPassReturns` | logger.cpp:47-90 | while a worker waits for a buffer its logger is alive, and whatever the logger is in the middle of, by its own steps alone it gets past the test for epoch 0 and returns one of the worker's buffers |
| `LogInv.EnqStream` | include/log_queue.h:44-51 | inserting by epoch keeps the order of a worker's records, although empty buffers are filed under ~0 |
| `LogQueues.FilingIsEnq` | include/log_queue.h:44-51 | filing a buffer in the map under its epoch is, as seen by `deq`, inserting it behind all buffers of the same or lower epochs |
| `LogQueues.DeqIsStableSort` | include/log_queue.h:63-80 | `deq` returns what was enqueued, sorted by epoch, and for each epoch in the order it came |
| `LogQueues.LogQueue.Enq` | include/log_queue.h:44-51 | the queue becomes the old one with the buffer inserted in epoch order |
| `LogQueues.LogQueue.Deq` | include/log_queue.h:63-80 | the erase loop returns the whole queue in order and leaves it empty |
| `LogQueues.LogQueue.MinEpoch` | include/log_queue.h:86-92 | the epoch of the buffer that `deq` would return first, or ~0 |
| `LogQueues.LogQueue.Quit` | include/log_queue.h:59-61 | true just if the queue was terminated and is empty |
| `LogQueues.LogQueue.WaitDeq` | include/log_queue.h:53-57 | whether there is something to do at once |
| `LogBuffers.LogBuffer.Push` | log_buffer.cpp:32-48 | the array holds the old records followed by those of the transaction, and the buffer is what the pipeline's append makes of it |
| `LogBuffers.LogBuffer.Write` | include/log_buffer.h:60-78 | the file grows by one block that encodes exactly the records, `byte_count_` by its length, and the buffer is empty; nothing happens when there are no records |
| `LogBuffers.LogBuffer.PrepareHeader` | include/log_buffer.h:64-69 | the header has the number of records and the checksum that makes all words add up to 0 |
| `LogPasses.WriteAll` | logger.cpp:71-81 | the loop over the dequeued buffers appends to data.log exactly the encoding of the blocks that the pipeline adds to its file, counts their bytes, and leaves every buffer empty |
| `LogPasses.StillShown` | logger.cpp:71-81 | so the bytes of data.log stay the encoding of the pipeline's file from pass to pass |
| `LogFormats.ComputeChkSum` | include/log.h:37-46 | the sum of the record's 32-bit words modulo 2^32 |
| `LogFormats.LogHeader.ConvertChkSumIntoComplementOnTwo` | include/log.h:20-23 | old and new checksum add up to 0 modulo 2^32 |
| `LogFormats.BlockSumsToZero` | include/log_buffer.h:60-78 | in every block header checksum and record words add up to 0 modulo 2^32 |
| `LogFormats.RecordRoundTrip` | include/log.h:26-35 | a record decodes from its 16 bytes |
| `LogFormats.FileRoundTrip` | include/log_buffer.h:60-78 | a file of blocks decodes to the records written, block by block |
| `LogFormats.FileReadsOneWay` | include/log_buffer.h:60-78 | different blocks never give the same bytes |
| `LogWriters.PosixWriter.Write` | include/log_writer.h:22-32 | whatever pieces the kernel takes, the file grows by exactly the bytes given, or the program aborts in the middle of them |
| `LogWorkers.LogBufferPool.constructor` | include/log_buffer.h:111-122 | buffer 0 is current and the others are in the pool |
| `LogWorkers.LogBufferPool.IsReady` | log_buffer.cpp:51-65 | true if there is a buffer or the pool has quit; takes the last one of the pool only if there is none |
| `LogWorkers.LogBufferPool.Publish` | log_buffer.cpp:68-81 | pool and queue are those of the pipeline after its publishing step |
| `LogWorkers.LogBufferPool.Push` | log_buffer.cpp:8-30 | push takes own steps of the worker in the pipeline and ends with the records handed over once, or waiting with an empty pool |
| `LogWorkers.LogBufferPool.Terminate` | log_buffer.cpp:91-99 | what is left in the current buffer goes to the queue |
| `LogWorkers.TxExecutorLog.Wal` | transaction.cpp:276-287 | wal takes own steps of the worker; when it is done the records have been handed over once and `CTIDW` has the epoch of the commit TID |
| `LogWorkers.TxExecutorLog.EpochWork` | transaction.cpp:295-311 | epochWork takes own steps of the worker and changes no other worker's registers |
| `LogRuns.RanIsRun` | main.cpp:23-91 | the thread alone leads from one state to the other if and only if there is a trace of its own actions |
| `Loggers.Notifier.CheckDurable` | notifier.cpp:46-64 | returns the minimum of the bounds; `DurableEpoch` becomes the larger of the two, and pepoch is written just if it rose; all by own steps of the logger |
| `Loggers.Logger.FindMinEpoch` | logger.cpp:92-110 | returns the epoch of the least `CTIDW` word in use, or of the queue's first key if that is less, or 0 if no word is below ~0; by own steps of the logger |
| `Loggers.BoundIsLeast` | logger.cpp:92-110 | of valid words such a bound is at most the epoch of each and of the queue, and it is one of them |
| `Loggers.Logger.OnTimeout` | logger.cpp:126-131 | a wait in vain raises the bound by the least word alone, 0 changing nothing, by own steps of the logger after its timeout |
| `Loggers.Logger.SendNidToNotifier` | logger.cpp:114-124 | the logger's bound is raised to min_epoch - 1 just if min_epoch is neither 0 nor ~0 and that is an advance, after the fold, and no other bound changes |
| `Loggers.Logger.WriteLog` | logger.cpp:66-82 | the queue is emptied and the file grows by a block for each buffer that has records, all of it synced |
| `Loggers.Logger.Logging` | logger.cpp:47-90 | a pass over an empty queue does nothing, or with quit the final fold; any other writes and syncs the whole queue and raises the bound accordingly, unless there is no bound, when it changes nothing; by own steps of the logger |
| `Loggers.Logger.AddAll` | logger.cpp:38-45 | when the workers of a new logger have registered one after the other, it is what the pipeline starts from: it asks them in the order in which they registered, and all are running |
| `Loggers.Logger.WorkerEnd` | logger.cpp:160-165 | the queue is closed just when the last worker is taken out |
| `LoggerAffinities.LoggerAffinity.Init` | logger.cpp:8-36 | in both branches each node gets its block of threads, less its logger where CPUs suffice, indices are in bounds, `back()` is never called on an empty list, and no node is left without a worker |
| `LoggerAffinities.LoggerAffinity.Share` | logger.cpp:21-30 | thread i goes to the node in whose block it lies, with the product taken in 32 bits |
| `LoggerAffinities.BlockSizes` | logger.cpp:21-30 | blocks cover all threads and differ in size by at most one |
| `LoggerAffinities.NoBlockEmptyIff` | logger.cpp:21-30 | no block is empty if and only if there are at least as many threads as nodes |
| `LoggerAffinities.AllWorkers` | logger.cpp:20-35 | exactly worker_num workers are left over all nodes |
| `LoggerAffinities.InitGivesConfig` | main.cpp:179-187 | what main makes of the nodes is a configuration as the theorems require it: each worker has one logger, each logger a worker |
| `TxExecutors.TxExecutor.Read` | transaction.cpp:62-104 | read takes own steps of the worker and adds value and word of the tuple together, once for each key, or spins on a lock |
| `TxExecutors.TxExecutor.Write` | transaction.cpp:214-229 | a key is in the write set once |
| `TxExecutors.TxExecutor.SearchReadSet` | transaction.cpp:106-111 | finds a key just if it is there |
| `TxExecutors.TxExecutor.SearchWriteSet` | transaction.cpp:113-118 | finds a key just if it is there |
| `TxExecutors.TxExecutor.LockWriteSet` | transaction.cpp:43-60 | aborts if and only if some tuple of the write set was locked, with the table as before; otherwise exactly the write set is locked |
| `TxExecutors.TxExecutor.UnlockWriteSet` | transaction.cpp:131-139 | clears the lock bits of exactly the first elements and nothing else |
| `TxExecutors.TxExecutor.ValidationPhase` | transaction.cpp:141-189 | alone, passes if and only if the write set is unlocked and every tuple read is unlocked and of the version read; on failure the table is as before |
| `TxExecutors.TxExecutor.ValidateReads` | transaction.cpp:164-188 | passes if and only if all reads hold in the locked table; otherwise the locks are released |
| `TxExecutors.TxExecutor.ComputeTid` | transaction.cpp:231-249 | the commit TID of the model, by own steps of the worker |
| `TxExecutors.TxExecutor.WritePhase` | transaction.cpp:231-264 | every tuple of the write set has the value and the commit TID, unlocked, and nothing else has changed |
| `TxExecutors.TxExecutor.Abort` | transaction.cpp:32-35 | both sets are empty, which is the worker's last step of the abort |
| `TxExecutors.RanIsRun` | main.cpp:50-85 | the worker alone leads from one state to the other if and only if there is a trace of its own actions |
| `EpochClocks.EpochClock.ChkEpochLoaded` | util.cpp:8-15 | true if and only if every thread but 0 has the current epoch |
| `EpochClocks.EpochClock.LeaderWork` | util.cpp:18-24 | the epoch advances by one just if its time has come and all other threads have it, by own steps of worker 0 |
| `TableInits.MakeDb` | main.cpp:116-128 | every tuple is loaded once, whatever number of threads divides the table |
| `TableInits.PartTableInit` | main.cpp:104-114 | loads exactly the tuples of its part, leaving TID and absent as the memory held them |

## Left out

- Recovery.RecoveryIsSerialPrefix: assumes that no logger was blind; `RecoveryIff` says exactly when that is not needed.
- RecoveryIff.RecoversIff: assumes fewer than 2^29 - 2^17 loggers, since the failing run has a worker of every logger commit once in one epoch, and one fill its buffers.
- RecoveryIff.CrashSafeIff: the same.
- BufferCycles.NextPassReturns: scheduling is not modelled, so nothing is said about when the logger takes its steps.
- TxExecutors.TxExecutor.Read: like all methods of the classes, runs without interference; interleavings are the subject of the step systems. Loops that spin are cut where they would wait.
- LogWorkers.LogBufferPool.Push: pool, queue and logger keep buffers as values with an identity, so that aliasing of buffer pointers is not captured; `LogBuffers.LogBuffer` has the array and the in-place updates of one buffer.
- LogBuffers.LogBuffer.Write: two aborts of the program, in the header and in the records, are one outcome.
- Loggers.Logger.Logging: `logging(true)` is called on an empty queue only, as `worker` does; what `quit` would do in `send_nid_to_notifier` is not modelled.
- RecoveryFromBytes.CrashRecovers: what lies behind the fsynced part is a beginning of what was written; blocks that reach the disk out of order are not covered.
- Writing a buffer and returning it to its pool is one step of the pipeline.
- Weak memory, thread creation, CPU pinning, condition variables and sleeping.
- Files, mmap, msync and directories beyond fsync and the pepoch word; `TxExecutor::wal`'s own file, which the run does not use.
- Workload generation, explicit write values, clocks, counters, latencies and results.
- The notification ids of transactions: only whether a buffer has any is kept.
