# Verification of the benchmark harness

This project models the parts of the harness whose correctness is not visible in one
place and proves what they are for: the worker pool with its mailboxes and its barrier,
the streaming SHA-256 benchmark, the result table from the measuring worker to the
printed page, and the arithmetic of `do_dgemm`, `tune_size` and the split timebase read.
`dafny verify dfyconfig.toml` checks everything.

## How it is organised

**The pool** (`Sync`, `Pool*`, `Drivers`). `Pool` is a state machine with a program counter
per thread. Every pthread call of `src/worker.c`, `src/barrier.c` and the run drivers of
`src/main.cc` is a step of its own: lock, the test or update under the lock, signal or
broadcast, unlock. Mutexes have owners, a condition wait releases its mutex and falls asleep
in one step, a sleeper may wake at any moment without a signal, and a signal wakes a sleeper
of the scheduler's choice whenever there is one. The main thread is controller and worker 0
(the "dirigent") at once. A `Config` has any number of threads and any list of rounds; a run
is any interleaving. `Sync` holds what the code between two pthread calls does to a mailbox
or the barrier; the classes in `CriticalSections.dfy` do the same in place.
`PoolInvariant` states the invariant per thread; `PoolFrames`, `PoolQuiet`, `PoolWorker`,
`PoolBarrier`, `PoolReturn`, `PoolController`, `PoolRounds` and `PoolQueue` show that each
kind of step keeps it, `PoolSafety` puts them together, `PoolProgress` shows that some thread
can always move, `PoolRank` and `PoolTermination` that every step but a spurious wakeup lowers
a rank, `PoolGuarantees` reads off the promises, and `PoolSerial` what holds in rounds with one
member. `Drivers` writes the drivers of
`src/main.cc` as rounds and follows a whole program from `synchronize_worker_init` to
`stop_workers`; `DriverGuarantees` says who works together with whom inside the drivers. `BarrierReuse` is the barrier alone, used without bound with a phase counter
that wraps around.

**SHA-256** (`Fips180`, `Sha256Code`, `Streaming`). `Fips180` is the standard. `Sha256Code` has
the macros and both round forms of the compression on arrays; `Streaming` has the hash state
as a class with `Init`, `Process` and `Done`. `Bits` has the
shifts and masks of the length field. The streaming proofs take the compression as a parameter `f`, as the macro `HASH_PROCESS` does, which `IsCompress` ties to section 6.2.2 of
FIPS 180-4. `KnownAnswer` works out the first vector of `sha256_test` word by word and round by
round, so that what the functions of `Fips180` compute does not rest on their own text.

**Results** (`Layouts`, `Counters`, `Measure`). Index arithmetic is on 32-bit numbers. The
workers' repetitions may interleave in any order.

**Arithmetic** (`Dgemm`, `TuneSize`, `Timebase`, on `Powers` and `Division`), and the two
comma-separated lists that `main` splits with `strtok` (`OptionLists`).

## What came out

- Under the PAIR policy `run_two_benchmarks` collects workers from index 1 only, so the
  dirigent's mailbox stays DONE. The next call queues to it, and the assertion in `queue_work`
  fires (assertions are taken as compiled in). `Drivers.ProgramOutcome` proves that a program
  aborts exactly under PAIR with more than two benchmarks; all other programs finish.
- The overflow test of `sha256_process` adds a byte count to a bit count. It never rejects input
  that fits, but misses a whole range of lengths (`Streaming.OverflowTestMeaning`), and there input is
  accepted although the message then has 2^64 bits or more (`Streaming.OverflowAccepted`).
- `tune_size` keeps within the cache for every input if and only if `data_size` divides
  `line_size`; for one input the exact condition is `TuneSize.FitsExactly`.
- `result_print` reads the right cell for every measurement exactly when there are at most 2^32
  cells (`Layouts.ReaderInjectiveExactly`); its row labels are right exactly when the workers
  were created in ascending order of their CPU numbers (`Measure.LabelsOnPages`), and its
  counter titles exactly when no PMU event resolves after one that does not
  (`Measure.TitlesOnPages`).
- A list of PMU events with an empty name (`a,,b`) leaves entries of the event array unwritten,
  although its length counts them (`OptionLists.ParsePmcs`); the benchmark list does not have
  this problem, since its length is corrected after the loop.

## Model

| member | source | states |
|---|---|---|
| PoolSafety.StepSafe | src/worker.c:43-88 | every step of every thread keeps the invariant; the only assertion that can fail is the one of `queue_work` on a mailbox left DONE, and it fails without changing anything else |
| PoolSafety.RunSafe | src/worker.c:43-294 | for any number of threads, any rounds and any interleaving with spurious wakeups, every reachable state satisfies the invariant, or is the abort in `queue_work` of the dirigent after a pair round |
| PoolInvariant.StartInv | src/main.cc:101-115 | the freshly spawned pool satisfies the invariant |
| PoolBarrier.EnterInv | src/barrier.c:66-77 | an arrival at the barrier, completing or not, keeps the invariant: count is the number of threads that saved the current phase |
| PoolBarrier.BroadcastInv | src/barrier.c:71 | the broadcast wakes everybody of the old phase and keeps the invariant |
| PoolWorker.WaitInv | src/worker.c:222-247 | start-up, run loop and `wait_for_work` keep the invariant |
| PoolReturn.LeaveInv | src/worker.c:286-288 | the dirigent leaving `worker` and going on as controller keeps the invariant |
| PoolQueue.PutInv | src/main.cc:295-307 | filling the mailbox in `queue_work` keeps the invariant |
| PoolQueue.CollectInv | src/main.cc:312-314 | taking finished work in `wait_until_done` keeps the invariant |
| PoolRounds.InitInv | src/worker.c:20-35 | `init_step` for a fresh round keeps the invariant |
| PoolRounds.FreeInv | src/worker.c:37-41 | `free_step` keeps the invariant: nobody holds a pointer into the step |
| PoolProgress.NoDeadlock | src/main.cc:286-319 | in every reachable state before the program is done some thread has a step that is not a spurious wakeup |
| PoolTermination.StepRank | src/main.cc:286-319 | a rank over mailboxes, barrier, repetitions and program counters falls on every step; a spurious wakeup raises it by at most two |
| PoolTermination.RunRank | src/main.cc:286-319 | a run is no longer than the fall of the rank plus three steps for each spurious wakeup |
| PoolTermination.RunsEnd | src/main.cc:286-319 | the length of every run is bounded by the initial rank and the spurious wakeups |
| PoolTermination.RunOutcome | src/main.cc:244-413 | a run that cannot go on has finished (all calls made, mailboxes idle, stopped threads joined once, step freed) if and only if no round queues to the dirigent after a pair round, and has otherwise aborted |
| PoolGuarantees.MailboxPointers | src/worker.c:43-88 | the work pointer is in the mailbox exactly when it is QUEUED or DONE, and with the worker exactly when it is WORKING |
| PoolGuarantees.CollectsWhatWasQueued | src/worker.c:53-64 | `wait_until_done` gets the very slot that was queued |
| PoolGuarantees.SignalHitsItsWaiter | src/worker.c:49-86 | at every signal at most one thread sleeps on the condition variable, and what it waits for has just come true, so `signal` never wakes the wrong one |
| PoolGuarantees.SleepersAreSignalled | src/worker.c:53-88 | a sleeping thread whose condition holds is about to be signalled: no wakeup is lost |
| PoolGuarantees.SynchronisedStart | src/worker.c:249-281 | while any worker is in its repetition loop every member of the round has taken its job and passed `init_arg` and `arch_pmu_init` |
| PoolGuarantees.StepStaysValid | src/worker.c:250-284 | a worker's pointer leads to its own slot of a live step, which still holds the job it was queued with |
| PoolGuarantees.StepNotDisturbed | src/main.cc:328-367 | the slot being filled and the step being freed are in no worker's hands |
| PoolGuarantees.StopIsOwn | src/main.cc:207-211 | a stop job clears the flag of the thread that runs it and no other, and a flag is clear exactly when the thread has executed its own stop job |
| PoolGuarantees.IdleBetweenRounds | src/main.cc:295-306 | whenever a driver starts a round all mailboxes are free, but for that of a dirigent left DONE by an earlier pair round |
| PoolSerial.SerialOneBusy | src/main.cc:331-365 | in a round with one member, whatever the other rounds are, at most one mailbox is not IDLE, not counting that of a dirigent left behind |
| PoolSerial.SerialNeverWaits | src/main.cc:328-367 | in a round with one member, whatever the other rounds are, the barrier never blocks anybody |
| Drivers.OneByOneIsSerial | src/main.cc:321-370 | in every run of a whole ONE_BY_ONE program, from the end of the synchronisation round on, at most one mailbox is in use and nobody waits at the barrier |
| Drivers.StoppingIsSerial | src/main.cc:244-260 | the same for `stop_workers` under every policy, not counting the mailbox that a pair run has left DONE |
| Drivers.AfterCollectable | src/main.cc:286-413 | a driver called after any others can queue to the dirigent exactly when none of them has left it behind |
| Drivers.DriverOutcome | src/main.cc:286-413 | every run of a driver called after any other drivers aborts exactly when the dirigent was left behind, and otherwise ends with `reps` more calls by every worker and idle mailboxes, except for the dirigent's after a pair run |
| DriverGuarantees.DriverTogether | src/main.cc:286-319 | `run_in_parallel` and `run_two_benchmarks`, after any other drivers: whenever a worker executes a call, every worker has its job and has arrived at the barrier of all n, or has made all its calls, and worker t works on slot t |
| DriverGuarantees.DriverInTurn | src/main.cc:321-371 | `run_one_by_one`, after any other drivers: whenever a worker executes a call, it works alone at a barrier for one, the workers before it have made all their calls and those after it none |
| DriverGuarantees.OneStepPerDriver | src/main.cc:286-371 | a driver initialises one step, which lives until its last worker has been collected |
| DriverGuarantees.OneStepForStopping | src/main.cc:244-255 | `stop_workers` uses one step for all threads that it stops |
| DriverGuarantees.ProgramTogether | src/main.cc:804-839 | in a whole program all workers start together in the synchronisation round of every policy and in every benchmark round under PARALLEL and PAIR |
| Drivers.EveryBenchmarkOnce | src/main.cc:812-836 | every entry of the benchmark list is taken in exactly one turn of the loop, which has as many turns as entries, or half as many, rounded up, under PAIR |
| Drivers.MainRounds | src/main.cc:804-842 | the loop, with its index stepped twice under PAIR, makes exactly the rounds of the program and takes every benchmark in one turn |
| Drivers.ProgramCollectable | src/main.cc:827-833 | the dirigent can always be queued again unless the policy is PAIR and there are more than two benchmarks |
| Drivers.ProgramHistory | src/main.cc:804-842 | a program asks each worker for one start-up call, `reps` calls for each benchmark, or for each two of them, rounded up, under PAIR, and one stop call of all but the dirigent, and stops workers 1, 2, .. in this order |
| Drivers.ProgramOutcome | src/main.cc:804-842 | every run of a whole program either finishes with all calls made and every other worker joined once, or, exactly under PAIR with more than two benchmarks, aborts |
| BarrierReuse.RunInv | src/barrier.c:65-82 | the barrier's invariant holds in every state of every run, for any number of threads and phases |
| BarrierReuse.NoEarlyReturn | src/barrier.c:65-82 | nobody returns from phase p before everybody has arrived in phase p |
| BarrierReuse.PhaseNeverConfused | src/barrier.c:75-78 | a thread inside sees its own phase or the next, so comparing wrapped counters is exact |
| BarrierReuse.Accounting | src/barrier.c:67-80 | with the mutex free, count is below the limit and is the number of threads inside that saved the current phase; every sleeper saved it |
| BarrierReuse.OneSerialThread | src/barrier.c:67-80 | of those that return from a phase exactly one gets PTHREAD_BARRIER_SERIAL_THREAD |
| BarrierReuse.NoDeadlock | src/barrier.c:65-82 | some thread can move until all have returned from all their calls |
| BarrierReuse.StepRank | src/barrier.c:65-82 | every step lowers a rank, a spurious wakeup raises it by at most two |
| BarrierReuse.EveryPhaseCompletes | src/barrier.c:65-82 | every run is finite up to spurious wakeups and lets every thread through all its phases |
| Mailboxes.Arg.QueueWork | src/worker.c:43-51 | when both assertions hold the mailbox becomes QUEUED with the pointer, otherwise it is unchanged |
| Mailboxes.Arg.TryCollect | src/worker.c:53-64 | takes the pointer and makes the mailbox IDLE exactly when it was DONE |
| Mailboxes.Arg.TryTake | src/worker.c:66-78 | takes the pointer and makes the mailbox WORKING exactly when it was QUEUED |
| Mailboxes.Arg.ReturnFinishedWork | src/worker.c:80-88 | when both assertions hold the mailbox becomes DONE with the pointer, otherwise it is unchanged |
| Mailboxes.Arg.WaitForWork | src/worker.c:66-78 | whatever other threads do during its waits, it takes the first work it finds, waits no longer than that, and fails its assertion exactly in a WORKING mailbox |
| Mailboxes.Arg.WaitUntilDone | src/worker.c:53-64 | whatever other threads do during its waits, it takes the first finished work it finds and leaves the mailbox IDLE |
| Mailboxes.Circle | src/worker.c:43-88 | queue, take, return and collect in a row fail no assertion, hand over the same pointer and restore the mailbox |
| Barriers.PhaseBarrier.Init | src/barrier.c:34-57 | zero participants give EINVAL and no change; otherwise the counters start at zero |
| Barriers.PhaseBarrier.Enter | src/barrier.c:65-75 | an arrival completes the phase exactly when it is the last one |
| Barriers.PhaseBarrier.Wait | src/barrier.c:65-82 | the last to arrive completes the phase and is the serial thread; any other waits at least once and returns when it first finds another phase than the one it arrived in |
| Barriers.ArrivalsCount | src/barrier.c:67-70 | any n arrivals complete exactly (count + n) / limit phases, modulo the width of the counter |
| Sha256Code.LogicForms | src/benchmarks/sha256.c:189-190 | the macros Ch and Maj compute the functions of section 4.1.2 of FIPS 180-4 |
| Sha256Code.RotateForms | src/benchmarks/sha256.c:52-55 | the masked macro RORc is the rotation |
| Sha256Code.SigmaForms | src/benchmarks/sha256.c:191-196 | the macros Sigma and Gamma compute the four functions of section 4.1.2 |
| Sha256Code.LoadBigEndian | src/benchmarks/sha256.c:28-32 | LOAD32H on a little-endian machine reads a big-endian word |
| Sha256Code.StoreBigEndian | src/benchmarks/sha256.c:34-38 | STORE32H on a little-endian machine writes a big-endian word |
| Sha256Code.RenamedUpdate | src/benchmarks/sha256.c:240-253 | overwriting two registers and renaming by one is shifting all eight, so variable k stands in S[(k - i) mod 8] after i rounds |
| Sha256Code.RndIsRound | src/benchmarks/sha256.c:240-244 | the macro RND computes one iteration of step 3 of section 6.2.2 |
| Sha256Code.Rnd | src/benchmarks/sha256.c:240-244 | RND on renamed registers of the array is one round, for every round number |
| Sha256Code.EightRounds | src/benchmarks/sha256.c:246-253 | eight lines of the unrolled code are eight rounds and bring every register home |
| Sha256Code.TableRows | src/benchmarks/sha256.c:246-309 | the 64 constants written in the unrolled code are those of section 4.2.2 |
| Sha256Code.UnrolledRounds | src/benchmarks/sha256.c:246-309 | the 64 lines are the 64 rounds |
| Sha256Code.FillSchedule | src/benchmarks/sha256.c:216-224 | W is the message schedule |
| Sha256Code.CompressUnrolled | src/benchmarks/sha256.c:199-320 | the unrolled compression is section 6.2.2 for every state and block |
| Sha256Code.ShiftRegisters | src/benchmarks/sha256.c:236-237 | the assignments after RND in the small form rename every register by one |
| Sha256Code.CompressSmall | src/benchmarks/sha256.c:226-238 | the shifting form computes the same function as the unrolled one |
| Fips180.ZeroCountLeast | src/benchmarks/sha256.c:391-402 | the number of zeros in the padding is the least that fills a block |
| Fips180.BigEndianDigits | src/benchmarks/sha256.c:40-50 | the eight length bytes are the base-256 digits of the length, most significant first |
| Streaming.StoredBytes | src/benchmarks/sha256.c:40-50 | the shifts and masks of STORE64H, taken bit by bit, write those eight bytes |
| Fips180.OutputAt | src/benchmarks/sha256.c:408-411 | byte j of word i of the digest stands at place 4 i + j |
| Fips180.AbsorbAppend | src/benchmarks/sha256.c:71-93 | hashing can stop after any byte and go on from what is left over |
| Fips180.AbsorbBlock | src/benchmarks/sha256.c:71-93 | one whole block is compressed once and less than a block is left over |
| Fips180.PadShape | src/benchmarks/sha256.c:384-406 | the padded message is the message, 0x80, zeros and the length in bits, in as few blocks as can hold them |
| Fips180.NextWordImpulse | src/benchmarks/sha256.c:222-224 | with all other words zero, the word at t - 16 or t - 7 enters word t as it is, the one at t - 15 through Gamma0 and the one at t - 2 through Gamma1, and no other word enters |
| KnownAnswer.ScheduleFollows | src/benchmarks/sha256.c:216-224 | the schedule is the sixteen words of the block and then the recurrence, on all 64 words at once |
| KnownAnswer.AbcDigest | src/benchmarks/sha256.c:487-489 | the message digest of "abc" is the one that the self-test expects |
| KnownAnswer.FirstVector | src/benchmarks/sha256.c:487-504 | init, `process` on any pieces of "abc" and done give these 32 bytes |
| Streaming.HashState.Init | src/benchmarks/sha256.c:337-352 | the state holds the empty message with the initial hash value of section 5.3.3 |
| Streaming.HashState.Process | src/benchmarks/sha256.c:58-95 | error codes and no change on bad states and on the overflow test; otherwise hash value, buffered tail and 64-bit length are those of the pending bytes followed by the input, even when the buffer was full on entry |
| Streaming.HashState.Feed | src/benchmarks/sha256.c:71-93 | the loop absorbs its input and terminates by the remaining input and the fill of the buffer |
| Streaming.HashState.Done | src/benchmarks/sha256.c:369-416 | the digest is that of the pending bytes with the padding of section 5.1.1, in one or two blocks; a full buffer is an error |
| Streaming.HashState.Finish | src/benchmarks/sha256.c:384-406 | the blocks compressed at the end are 0x80, zeros and the length after the pending bytes |
| Streaming.HashState.StoreDigest | src/benchmarks/sha256.c:408-411 | the eight words go out big-endian, the rest of the output buffer is untouched |
| Streaming.Append | src/benchmarks/sha256.c:361 | a state that holds msg holds msg + input after `process`, which accepts all input whose bits fit |
| Streaming.HeldState | src/benchmarks/sha256.c:65-93 | between calls curlen < 64, length is a multiple of 512, length / 8 + curlen is the bytes consumed and the buffer holds the end of the message |
| Streaming.HashPieces | src/benchmarks/sha256.c:337-416 | init, `process` on any cutting of a message into pieces and `done` give the message digest of section 6.2 when the message has fewer than 2^64 bits |
| Streaming.CutAnywhere | src/benchmarks/sha256.c:361 | wherever a message is cut, its pieces in a row are the message |
| Streaming.RepeatAt | src/benchmarks/sha256.c:589-591 | what `iterations` calls on a buffer hash is byte by byte the buffer, over and over |
| Streaming.Call | src/benchmarks/sha256.c:586-594 | the benchmark's call hashes its buffer `iterations` times on top of what the state holds, and its assertion does not fail while the bits fit |
| Streaming.OverflowTestMeaning | src/benchmarks/sha256.c:68-70 | the test never rejects what fits, and is right if and only if length is outside [2^64 - 8 (curlen + inlen), 2^64 - inlen) |
| Streaming.OverflowAccepted | src/benchmarks/sha256.c:68-93 | in the whole range where the test errs `process` accepts its input although the message then has 2^64 bits or more |
| Streaming.OverflowRestarts | src/benchmarks/sha256.c:68-93 | a state at 512 bits below the limit accepts one more block and its length starts again at 0 |
| Layouts.CellInverse | src/main.cc:278-279 | the cell number determines thread, repetition and counter |
| Layouts.CellInjective | src/main.cc:300 | different measurements have different cells, so workers never write the same one |
| Layouts.CellInRange | src/main.cc:183-184 | every measurement has a cell inside the allocation |
| Layouts.EveryCell | src/main.cc:183-184 | every allocated cell belongs to a measurement |
| Layouts.ReaderWraps | src/main.cc:278-279 | the reader's index is the cell number modulo 2^32 |
| Layouts.SameCell | src/worker.c:265-279 | with at most 2^32 cells writer and reader use the same cell for every measurement |
| Layouts.ReaderInjectiveExactly | src/main.cc:278-279 | the reader tells all measurements apart if and only if there are at most 2^32 cells |
| Counters.Init | include/arch.h:356-411 | the active slots hold the events that resolve and open, moved down |
| Counters.ResolvedExact | include/arch.h:356-411 | the slots are exactly the resolving events in ascending order |
| Counters.TitlesMatchExactly | include/arch.h:359-363 | slot k counts event k for all slots if and only if no event resolves after one that does not |
| Counters.AllResolve | include/arch.h:359-363 | every event has a slot with its own title if and only if every event resolves |
| Measure.PmuBegin | include/arch.h:476-478 | stores the first readings in the active slots and nothing else |
| Measure.PmuEnd | include/arch.h:517-526 | turns every active slot into what the second reading is ahead of the first, modulo 2^64, and changes nothing else |
| Measure.Elapsed | src/worker.c:279 | the stored value is what must be added to the first reading to reach the second modulo 2^64, their plain difference when the counter has not wrapped |
| Measure.Repetition | src/worker.c:270-280 | one repetition writes time and active counters at its row and nothing else |
| Measure.NextRepetition | src/worker.c:265-281 | one more repetition of any worker leaves all other measurements alone |
| Measure.WorkerLoop | src/worker.c:265-281 | a worker's loop stores all its measurements and nothing else |
| Measure.AllWorkers | src/main.cc:295-314 | in every interleaving of the workers' repetitions each cell ends up with its own measurement |
| Measure.NextCpuIs | src/main.cc:268-273 | stepping through the CPU set visits it in ascending order |
| Measure.PrintRow | src/main.cc:275-280 | the innermost loop reads the cells of its counter and thread |
| Measure.ResultPrint | src/main.cc:262-284 | every page, row and column shows the cell of its counter, thread and repetition, with the title of the counter and the CPU of ascending rank |
| Measure.LabelsOnPages | src/main.cc:268-274 | the printed rows carry the CPUs of the workers whose measurements stand in them if and only if the workers were created in ascending order of CPU number |
| Measure.TitlesOnPages | src/main.cc:267-271 | the page of every active counter carries the name of the event that it counts if, and for distinct names only if, no event resolves after one that does not |
| Measure.MeasureAndPrint | src/main.cc:262-319 | the table shows for each worker and repetition the time from start to stop and, on the page of each active counter, by how much that counter rose, with labels and titles right under exactly these conditions |
| Dgemm.Entry | src/benchmarks/dgemm.c:57-61 | the innermost loop computes an entry of A * B |
| Dgemm.ProductOfOne | src/benchmarks/dgemm.c:60 | if row i of A or column j of B is zero but for place k, entry (i, j) of A * B is A[i*N+k] * B[k*N+j] |
| Dgemm.ProductAdds | src/benchmarks/dgemm.c:60 | the product is additive in a row of A |
| Dgemm.ProductUnit | src/benchmarks/dgemm.c:57-61 | the unit matrix is neutral on both sides |
| Dgemm.NextEntry | src/benchmarks/dgemm.c:63 | after one round an entry is alpha times that of A * B plus beta times itself |
| Dgemm.Round | src/benchmarks/dgemm.c:55-65 | the loops over rows and columns give alpha * A * B + beta * C, every entry from its own old value |
| Dgemm.ClosedStep | src/benchmarks/dgemm.c:43-63 | the closed form for no rounds is the entry itself, and one more round is one more update |
| Dgemm.DoDgemm | src/benchmarks/dgemm.c:22-72 | after r rounds C is beta^r * C + alpha * (1 + beta + .. + beta^(r-1)) * A * B; A and B are not changed |
| Dgemm.InitArgument | src/benchmarks/dgemm.c:114-135 | all entries of the three matrices are 2, 1/2 and 1 |
| Dgemm.ClosedCompose | src/benchmarks/dgemm.c:146-151 | rounds of consecutive calls add up |
| Dgemm.Benchmark | src/benchmarks/dgemm.c:114-151 | with the benchmark's own values every entry is 1 + rounds * N after any number of calls |
| TuneSize.TightWorkingSet | src/benchmarks/benchmark.c:92-98 | when data_size divides line_size, n is a multiple of the elements per line and the working set fits the cache share, which one more line per dimension exceeds |
| TuneSize.FitsExactly | src/benchmarks/benchmark.c:92-98 | for any sizes the working set fits if and only if the lines' remainders add up to no more elements than the root has beyond whole lines |
| TuneSize.NextLineOverflows | src/benchmarks/benchmark.c:92-98 | one more line per dimension never fits |
| TuneSize.DividingIsNeeded | src/benchmarks/benchmark.c:95-98 | when data_size does not divide line_size some cache size makes the working set too large |
| Timebase.AgreedUpper | include/arch.h:712-718 | when the upper reads agree the composed value is the timebase at the low read |
| Timebase.OneOfTwoAgrees | include/arch.h:713-717 | of two attempts that span fewer than 2^32 ticks one succeeds |
| Timebase.ReadTimebase | include/arch.h:706-720 | the loop ends and returns the timebase at the low read of the first attempt whose upper reads agree, at most the second when two attempts span fewer than 2^32 ticks |
| OptionLists.CountChars | src/main.cc:485-495 | the number of places where the character stands; with commas one less than the pieces of the list |
| OptionLists.PiecesJoin | src/main.cc:699-707 | the pieces of a list have no commas and give the list when joined with commas |
| OptionLists.TokensAreNonEmptyPieces | src/main.cc:699-707 | repeated `strtok` yields exactly the pieces that are not empty, in order |
| OptionLists.ParseBenchmarks | src/main.cc:687-709 | the array holds the known ones of all names in order, although unknown names step the unsigned index back, below zero if need be |
| OptionLists.ParsePmcs | src/main.cc:716-731 | the names are stored in order, and every entry of the array is written if and only if no name in the list is empty |

## Left out

- Topology discovery, CPU binding and affinity checks (hwloc): the pool is given as n workers; a CPU set is given as an ascending sequence.
- Memory allocation failure, error returns of the pthread functions, and `pthread_join` failing.
- Option parsing other than the two lists, progress messages, file output: printed pages are returned as values.
- Jobs without a result array (the stop job): they write no measurements.
- OptionLists.ParseBenchmarks: for lists of fewer than 2^32 pieces, which the `int` index of `count_chars` demands anyway; names are compared by a function that is a parameter.
- Which of its two benchmarks a worker runs under PAIR, and the affinity sets: a job is its number of repetitions and, for the stop job, its target.
- The interleaving inside a repetition: writes of one repetition are one block in `Measure`; that they touch different cells than any other worker's is `Layouts.CellInjective`.
- The time between `arch_timestamp_begin` and `arch_timestamp_end`, inline assembly, MSR and perf calls: clock and counter readings are inputs; only the RDPMC variant of the PMU code is modelled.
- Rounding of `double`: `Dgemm` and `TuneSize` are on exact reals, and `pow(x, 1.0 / power)` is any real whose power is x.
- Dgemm.DoDgemm: the `int` index products `i*N` and `k*N` are taken as unbounded, so N * N must fit an `int` for it to speak of the program.
- Drivers.DriverOutcome: the earlier calls are any that stop no workers, as in the program, where `stop_workers` comes last.
- Mailboxes.Arg.WaitForWork: that some wake-up finds work is assumed here; that it does so in the program is PoolTermination.RunOutcome.
- TuneSize.TightWorkingSet: assumes that no 32-bit conversion or product wraps (`NoWrap`).
- Measure.ResultPrint: assumes at most 2^32 cells; beyond that `Layouts.ReaderInjectiveExactly` shows that reading goes wrong.
- Streaming.HashPieces: for fewer than 2^64 bits in all, as FIPS 180-4 does; what happens to the length beyond is in `Streaming.HashState.Process` and `Done`.
- The second vector of `sha256_test`: the same working out for two more blocks; how blocks are chained is `Fips180.AbsorbBlock` and `Fips180.AbsorbAppend`.
- Big-endian machines (BSWAP32 as identity) and `LTC_CLEAN_STACK`: not part of this model.
- The vendor BLAS variants of `do_dgemm` and its disabled test driver: not part of this model.
- HPCCG, MiniFE, HACCmk, STREAM, FWQ and the capacity kernels, `tune_time` and the suffix parser: floating point, foreign code, or easy members only.
