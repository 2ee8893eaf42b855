# A verified model of the libaio engine

The native library lets any number of Java threads submit asynchronous reads and
writes through one Linux AIO context, and delivers their completions through one
polling thread. This project models that engine in Dafny, from the 32-bit
arithmetic of its user-space ring reader up to the concurrent close protocol, and
proves what its callers rely on.

## How the model is built

The lower layers are classes that are updated in place, as in the source; the
concurrent whole is a step system over the same functions.

- **`RingArithmetic`, `AioRing`**: the completion ring. `CompletionRing` is
  `ringio_get_events` with the kernel free to append between any two shared
  accesses.
- **`IocbPool`**: the circular pool of control blocks, over runs of gets and
  out-of-order puts.
- **`Lifecycle`, `IoControl`**: what one reaped event does, cut at every point
  where another thread can intervene, and the imperative code of `struct
  io_control` and `LibaioContext`, proved to compute those functions.
- **`Trace`, `Batches`**: what the caller must observe, stated without the code
  that makes it so; handling of whole batches; replayed completions.
- **`Machine`**: submitters, kernel, poller and closer as a step system. Control
  (`Ready`) is kept apart from memory safety (`Safe`), so that safety is a theorem
  and not an assumption of the step.
- **`Invariant`, `Frames`, `SubmitterSteps`, `KernelSteps`, `PollerSteps`,
  `EventSteps`, `CloserSteps`, `Runs`**: the inductive invariant and its proof,
  actor by actor.
- **`Guarantees`, `Sentinel`, `Refusal`, `Stranded`**: what holds in every run.
- **`Origins`**: from a submission to its completion and back: file, callback, result.
- **`Calls`**: one call of `ringio_get_events` from entry to return, and the loop of
  `blockedPoll` around it.
- **`Progress`**: who waits for what, and the free choices of the kernel.
- **`Extensions`, `Closing`**: how runs go on, and when a close can be completed.
- **`Overlap`**: runs of the code as it is, without the rule for array polls, and
  what that rule is worth.
- **`Lifetime`**: from `newContext` to the end of `deleteContext`.
- **`Undisturbed`**: the steps of a lone poller add up to the sequential loop.
- **`ContextHeap`**: allocation and destruction of a context, with every
  step allowed to fail.
- **`CallbackCache`**: the cache of callback objects.
- **`Circular`, `Sequences`, `Options`**: shared vocabulary and lemmas.

`dafny verify dfyconfig.toml` checks everything.

The step functions of `Machine` and the code they come from (C is
`src/main/c/org_apache_activemq_artemis_nativo_jlibaio_LibaioContext.c`, Java is
`LibaioContext.java`):

- `SubApply`: Java 204-240 (check, acquire), C 713-765 (block, preparation,
  reference) and 488-503 (submission, refusal).
- `CompleteApply`: the kernel's producer, seen through the ring of C 103-117.
- `PollApply`: C 132-209 (reap), 787-808 and 887-890 (around it), Java 349-357
  (release after an array poll).
- `HandleStep`: C 810-872 and 890-918, one event, cut before every access to
  shared state.
- `CloseApply`: Java 250-262 and C 641-685.

## What the runs assume

About the kernel:

- It appends completions at `tail`, keeps one slot free, never touches unread
  slots, and the ring has `queueSize < nr <= 2^31` slots with `head, tail < nr`.
  That it always finds a free slot is proved, not assumed.
- `io_getevents` fails and takes nothing, or takes a first-in first-out prefix of
  at most `max` events. `io_submit` accepts or refuses. `io_prep_pwrite` and
  `io_prep_pread` set the descriptor and zero `data`.
- In the step system it completes each accepted operation at most once. Replays
  are the subject of `Batches.ReplaysAreAbsorbed`.
- `io_queue_init` fails for a size that is not positive before it writes the
  handle, and clears the handle first for any other size.

About the program:

- Every shared access is one atomic, sequentially consistent step. A thread that
  waits for a permit or a lock is a thread whose step is not ready.
- One poller at a time, as the documentation of `poll` demands. A context is used
  either with the blocked poller or with array polls (`Config.blocking`). A
  blocked poller holds `pollLock` before `close` starts.
- Array polls may start and run at any time, also while `close` waits for its
  permits, but none is inside the library from the start of `deleteContext` on
  (`Machine.Orderly`). The code does not enforce this; `TrespassIsFatal` and
  `OrderlyIsSafe` show that it is exactly what callers must keep.
- With the blocked poller callbacks are not null, because NULL data is also its
  mark for a duplicate. With array polls they may be null.
- Callbacks return normally. Descriptors are non-negative and are not the dumb
  file.
- The closer goes on only when `tryAcquire(queueSize)` succeeded. The code ignores
  the result; `DrainCondition` says exactly when it can succeed.

## What the proofs found

- **A refused submission keeps its permit.** `submit` returns the block and the
  reference, and the exception passes `LibaioContext.submitWrite` without a
  release. `DrainCondition` and `RefusalForbidsDrain` show that from then on the
  drain in `close` can only time out.
- **`newContext` leaks everything when `NewDirectByteBuffer` returns NULL**, the
  one step whose failure it does not check, and **for a size that is not positive
  it releases a handle that nobody wrote**, which may name another context's
  queue. `NewContext` states both with their exact conditions.
- **Freeing by array slot is right only when the stale pointers happen to agree.**
  Handed-out slots keep their pointers, so the array can list a block twice
  (`StaleSlotsCanRepeat`). `PermutationCondition` and `PermutationHistory` say
  exactly when it does not; after a drain it never does, because the sentinel's
  block is the only one out and goes back to the slot that still names it.
- **`close` does not wait for array polls, and `poll` does not look at `closed`.**
  A poll that is inside when `deleteContext` begins, or that starts later, can be
  left in freed memory (`TrespassIsFatal`), and both happen
  (`BeginningTooSoonHappens`, `StartingTooLateHappens`). In the first of these
  runs the poll waits for an event, so a close that waited for it would never be
  completed either (`DrainedCanFinish`).
- **A submitter can be left behind.** A thread that passed the check of `closed`
  and waits in `acquire()` when the drain succeeds is never woken: the drained
  permits are not released again (`LateSubmittersWait`, `LateSubmitterHappens`).
- **The ring arithmetic needs `nr <= 2^31`** and is wrong for any larger ring
  (`AvailableExactness`).
- **Duplicates are recognised only until their block is filled again.**
  `ReplayWindow` gives the exact length of that window in submissions, and
  `LateReplay` what a replay does after it.
- `close()` documents that closing with pending writes is unsafe; with the drain
  it is safe, and that is what is proved.

## Model

| member | source | states |
|---|---|---|
| Runs.RunKeepsInv | src/main/c/org_apache_activemq_artemis_nativo_jlibaio_LibaioContext.c:448-921 | One inductive invariant holds in every state of every run of any number of submitters, the kernel, one poller and one closer, interleaved one shared access at a time, array polls that overlap `close` up to the start of `deleteContext` included |
| Runs.MemorySafety | src/main/c/org_apache_activemq_artemis_nativo_jlibaio_LibaioContext.c:157-187 | In every reachable state every step that can be taken is in bounds: ring slots, the buffer of `queueSize` events for every `max`, the pool array, allocated blocks; and the kernel always has a free ring slot |
| Progress.NobodyElseWaits | src/main/java/org/apache/activemq/artemis/nativo/jlibaio/LibaioContext.java:204-262 | In every reachable state a submitter is held up if and only if it has no permit or, to come in, the context is closed; a poller only before it starts; the closer if and only if something admitted, out, owed or refused keeps the drain from succeeding, a poll is inside, or `pollLock` is held: nobody ever waits for anything else |
| Progress.KernelChoosesFreely | src/main/c/org_apache_activemq_artemis_nativo_jlibaio_LibaioContext.c:488-503 | Every run goes on with every answer that the kernel may give: either outcome of each submission, any result of each completion, any count that a waiting call can be served, any failure of it |
| Guarantees.AdmissionIsSound | src/main/java/org/apache/activemq/artemis/nativo/jlibaio/LibaioContext.java:204-240 | With the semaphore, `used + permits <= queueSize` until the sentinel is taken, a thread holding a permit finds a free block, and no submission and no close is ever told "Not enough space in libaio queue" |
| Guarantees.RefusalMeansFull | src/main/c/org_apache_activemq_artemis_nativo_jlibaio_LibaioContext.c:448-468 | With or without the semaphore a submission is told so exactly when every block of the pool is out, and then nothing has changed |
| Guarantees.DrainCondition | src/main/java/org/apache/activemq/artemis/nativo/jlibaio/LibaioContext.java:250-255 | `tryAcquire(queueSize)` can succeed if and only if no thread is between permit and block, no block is out, no permit is still to be released, and the kernel never refused a submission |
| Refusal.RefusalForbidsDrain | src/main/c/org_apache_activemq_artemis_nativo_jlibaio_LibaioContext.c:488-503 | After one refused submission no later state of the run can drain: the refused call returns its block and its reference but never its permit |
| Refusal.RefusalStrandsPermit | src/main/c/org_apache_activemq_artemis_nativo_jlibaio_LibaioContext.c:488-503 | Every run in which a thread finds a permit can be extended to such a refusal, with as many blocks out as before it |
| Guarantees.RingNeverFills | src/main/c/org_apache_activemq_artemis_nativo_jlibaio_LibaioContext.c:621 | Unreaped completions plus operations in the kernel never exceed `used <= queueSize < nr` |
| Guarantees.CompletionsInOrder | src/main/c/org_apache_activemq_artemis_nativo_jlibaio_LibaioContext.c:810-872 | The notifications of every run are a prefix of what the completed operations owe, in completion order: one `onError` exactly when the result is negative, with the result without its sign (in plain numbers for all results that fit an `int`), then one `done` or one stored callback, nobody twice; for any mix of user-space reaps, system calls and EINTR retries |
| Guarantees.DurableBeforeDone | src/main/c/org_apache_activemq_artemis_nativo_jlibaio_LibaioContext.c:829-861 | With `useFdatasync`, every `done` in every run comes after an fdatasync of that completion's file that is later than the reap that brought it |
| Origins.SubmittedFile | src/main/c/org_apache_activemq_artemis_nativo_jlibaio_LibaioContext.c:729-741 | In every run, with either polling mode: a thread that passed the check with file `fd` arms its block for `fd` with a fresh live reference to its callback, and every completion that ever carries this reference is of file `fd` |
| Origins.DurableOnItsFile | src/main/c/org_apache_activemq_artemis_nativo_jlibaio_LibaioContext.c:829-861 | So, with `useFdatasync`, the `done` of that submission comes after an fdatasync of the file it was submitted on, later than the reap |
| Origins.CompletionHasOrigin | src/main/java/org/apache/activemq/artemis/nativo/jlibaio/LibaioContext.java:204-240 | Every completion that carries a callback goes back to one kernel completion with the result that is reported, one arming with that very reference, and the same thread's last check, which was taken before `closed` was set and names the file |
| Origins.ClosedAdmitsNobody | src/main/java/org/apache/activemq/artemis/nativo/jlibaio/LibaioContext.java:204-208 | Once `close` has begun no thread passes the check any more |
| Origins.CallbacksAreLive | src/main/c/org_apache_activemq_artemis_nativo_jlibaio_LibaioContext.c:844-862 | Every callback that is called, for an error or for the end, or stored for the program has a live global reference then and right after |
| Guarantees.LiveReferences | src/main/c/org_apache_activemq_artemis_nativo_jlibaio_LibaioContext.c:733-739 | A global reference is live if and only if its submission is armed, in the kernel, unreaped or undelivered, or its callback is being delivered; no two submissions share one |
| Guarantees.NoLeakAtRest | src/main/c/org_apache_activemq_artemis_nativo_jlibaio_LibaioContext.c:911-917 | When nothing is in transit or being delivered no reference is live, stale `data` in returned blocks notwithstanding |
| Guarantees.BlocksConserved | src/main/c/org_apache_activemq_artemis_nativo_jlibaio_LibaioContext.c:448-486 | In every state every block is in the free window or held, never both and never neither; two holders of one block are the same actor, and ring and batch list it at most once |
| Guarantees.DrainMeansEmpty | src/main/java/org/apache/activemq/artemis/nativo/jlibaio/LibaioContext.java:250-262 | When the drain has succeeded, nothing is in use, in flight or unreaped, and every submitter is outside the native code |
| Guarantees.DrainedCloseLosesNothing | src/main/c/org_apache_activemq_artemis_nativo_jlibaio_LibaioContext.c:810-872 | From the drain on, every completion has been notified in full, every reaped batch is the sentinel alone or free of it, and nothing but the sentinel is outstanding: the early `break` drops nothing |
| Sentinel.SentinelOnItsWay | src/main/c/org_apache_activemq_artemis_nativo_jlibaio_LibaioContext.c:655-664 | While the sentinel is submitted and the poller has not left its loop, the sentinel is in the kernel, in the ring or in the poller's batch, and is the only block out |
| Sentinel.SentinelEndsTheLoop | src/main/c/org_apache_activemq_artemis_nativo_jlibaio_LibaioContext.c:818-827 | The only event the poller can meet after the drain is the sentinel; it is its whole batch, stops the loop, returns the last block, and logs and frees nothing else |
| Guarantees.ExactlyOnceDestruction | src/main/c/org_apache_activemq_artemis_nativo_jlibaio_LibaioContext.c:661-684 | In every run that reaches `iocb_destroy` the array lists each original block exactly once, whoever reaped the sentinel, no reference is live, and no step on the freed context remains, given that callers keep array polls out of `deleteContext` |
| Lifetime.DestructionRestoresHeap | src/main/c/org_apache_activemq_artemis_nativo_jlibaio_LibaioContext.c:520-545 | In every such run the freeing loop frees each pool block once and leaves exactly the heap without the blocks |
| Lifetime.DeleteAfterRun | src/main/c/org_apache_activemq_artemis_nativo_jlibaio_LibaioContext.c:641-685 | `newContext`, then any run on its pool that ends in the destruction, then the end of `deleteContext` with the array as the run left it: every heap block (structure, pointer array, pool, events), the queue and the reference to the Java object are as before |
| Lifetime.NewContextStarts | src/main/c/org_apache_activemq_artemis_nativo_jlibaio_LibaioContext.c:597-636 | What `newContext` leaves, with any large enough empty ring, any block contents and any threads outside, is a state that runs start from |
| Closing.SentCanFinish | src/main/c/org_apache_activemq_artemis_nativo_jlibaio_LibaioContext.c:661-684 | Wherever the poller is in its loop when the sentinel has been submitted, the run can be continued to the destruction without any failing or interrupted kernel call |
| Closing.DrainedCanFinish | src/main/java/org/apache/activemq/artemis/nativo/jlibaio/LibaioContext.java:250-262 | After a successful drain the close can be completed, without failing kernel calls and with polls kept out of `deleteContext`, if and only if no array poll is waiting for at least one event; with the blocked poller always |
| Stranded.LateSubmittersWait | src/main/java/org/apache/activemq/artemis/nativo/jlibaio/LibaioContext.java:204-212 | From the drain on no submitter takes a step for the rest of the run; those that had passed the check of `closed` and had no permit yet, and no others, stay in `acquire()` for ever |
| Stranded.LateSubmitterHappens | src/main/java/org/apache/activemq/artemis/nativo/jlibaio/LibaioContext.java:250-255 | Every run with a thread outside and all permits home extends to one where such a thread is left behind by the drain |
| Closing.CloseCanFinish | src/main/java/org/apache/activemq/artemis/nativo/jlibaio/LibaioContext.java:250-262 | Before the drain too: with all permits home, and no array poll waiting for at least one event, the close can be taken to its end without failing kernel calls |
| Overlap.TrespassIsFatal | src/main/c/org_apache_activemq_artemis_nativo_jlibaio_LibaioContext.c:661-684 | With array polls, let every actor do what the code lets it do. At any state that runs reach while callers keep polls out of `deleteContext`, the two steps that break this rule (`deleteContext` beginning with a poll inside, a poll starting after it began) are possible, and the code can then get to a poll taking its next step in the freed context if and only if the kernel has not already refused the sentinel |
| Overlap.OrderlyIsSafe | src/main/c/org_apache_activemq_artemis_nativo_jlibaio_LibaioContext.c:878-921 | Conversely, while callers keep to the rule no run of the code has a poll in a freed context |
| Overlap.BeginningTooSoonHappens | src/main/java/org/apache/activemq/artemis/nativo/jlibaio/LibaioContext.java:349-357 | From the start of every context with array polls and a semaphore there is a run in which the drain succeeds while a poll is inside and waits for an event |
| Overlap.StartingTooLateHappens | src/main/java/org/apache/activemq/artemis/nativo/jlibaio/LibaioContext.java:349-357 | And a run in which `deleteContext` begins with nobody inside and any poll can still start |
| Guarantees.UserSpaceReapIsAtomic | src/main/c/org_apache_activemq_artemis_nativo_jlibaio_LibaioContext.c:138-196 | In every run, a reap served from the ring, with any steps of the kernel and other threads between its read of `tail`, its copies and its publication, delivers exactly the queue as it was when `tail` was read, and leaves exactly what was appended since |
| Calls.CallIsServed | src/main/c/org_apache_activemq_artemis_nativo_jlibaio_LibaioContext.c:132-209 | Every call for `min` to `max` events that returns a batch in any run is served in user space if and only if at its read of `head` the ring was usable and not forced off, and what it saw at its read of `tail` was at least `min` and either nothing or less than `max`; then the batch is exactly that; otherwise the kernel serves it; and a nonempty batch has at most `max` events |
| Calls.PollIsServed | src/main/c/org_apache_activemq_artemis_nativo_jlibaio_LibaioContext.c:878-889 | The same from the start of a poll with `min` and `max` |
| Calls.BlockedLoop | src/main/c/org_apache_activemq_artemis_nativo_jlibaio_LibaioContext.c:787-802 | The blocked poller keeps looping exactly until it meets an event on the dumb file or a call fails with anything but EINTR; EINTR repeats the call with the same 1 and `queueSize` and changes nothing else; once stopped it only releases `pollLock`, and reaps nothing more |
| Calls.BatchIsFinished | src/main/c/org_apache_activemq_artemis_nativo_jlibaio_LibaioContext.c:810-872 | The poller leaves a batch only at its end, or for the event on the dumb file; an array poll then returns the number of events it reaped |
| Calls.ArrayPollReturns | src/main/java/org/apache/activemq/artemis/nativo/jlibaio/LibaioContext.java:349-357 | Then exactly that many permits are released; a poll whose `io_getevents` fails releases none and changes nothing |
| Guarantees.OnlyTheSwitchForces | src/main/c/org_apache_activemq_artemis_nativo_jlibaio_LibaioContext.c:863-869 | Without replayed completions no step but the static switch changes `forceSysCall` |
| Guarantees.ForcedReapsCallTheKernel | src/main/c/org_apache_activemq_artemis_nativo_jlibaio_LibaioContext.c:138 | Once it is set and the reap under way is over, no reap reads the ring until the switch is turned off |
| RingArithmetic.AvailableExactness | src/main/c/org_apache_activemq_artemis_nativo_jlibaio_LibaioContext.c:139-148 | The wrapped 32-bit subtraction, the cast to `int` and the conditional `+= nr` give the number of unread events for all indices if and only if `nr <= 2^31` |
| RingArithmetic.ConversionIsExact | src/main/c/org_apache_activemq_artemis_nativo_jlibaio_LibaioContext.c:835 | The casts to `unsigned` and `int` give the one number of the range that differs by a multiple of 2^32, so a result that fits keeps its value and its sign |
| RingArithmetic.WalkIsCircular | src/main/c/org_apache_activemq_artemis_nativo_jlibaio_LibaioContext.c:177-187 | The modulo-free loop visits the slots, and ends on the head, of the always-modulo loop, in the exact-wrap case too; nothing overflows |
| RingArithmetic.NextHeadAt | src/main/c/org_apache_activemq_artemis_nativo_jlibaio_LibaioContext.c:181-186 | One iteration moves to the next circular slot in both loops |
| AioRing.AppendKeeps | src/main/c/org_apache_activemq_artemis_nativo_jlibaio_LibaioContext.c:103-117 | A kernel completion adds one event at the end of the queue and disturbs no unread slot |
| AioRing.PublishKeeps | src/main/c/org_apache_activemq_artemis_nativo_jlibaio_LibaioContext.c:188-191 | Publishing the head `count` slots on removes exactly the `count` oldest events |
| AioRing.CompletionRing.CopyOut | src/main/c/org_apache_activemq_artemis_nativo_jlibaio_LibaioContext.c:177-187 | The copying loop, with the kernel appending before every slot read, copies the queue as it was when the loop began and ends on the head after it |
| AioRing.CompletionRing.RingioGetEvents | src/main/c/org_apache_activemq_artemis_nativo_jlibaio_LibaioContext.c:132-209 | Whatever path serves a call and whatever completes meanwhile, the events delivered are the oldest unreaped ones in order, at most `max`, the rest of the buffer untouched, and a failure takes nothing; the user-space path is taken if and only if the ring may be used and what was there at the read of `tail` suffices and is zero or less than `max`, and takes exactly that; any other path returns the kernel's answer |
| AioRing.CompletionRing.IoGetEvents | src/main/c/org_apache_activemq_artemis_nativo_jlibaio_LibaioContext.c:204 | The assumed kernel call: it returns the kernel's answer, an error that takes nothing or the count of a FIFO prefix of at most `max` events |
| IocbPool.GetKeeps | src/main/c/org_apache_activemq_artemis_nativo_jlibaio_LibaioContext.c:448-468 | `getIOCB` hands out the oldest free block, never an outstanding one, and NULL exactly when all are outstanding |
| IocbPool.PutKeeps | src/main/c/org_apache_activemq_artemis_nativo_jlibaio_LibaioContext.c:473-486 | `putIOCB` of any outstanding block, in any order, appends it to the free window and keeps the partition |
| IocbPool.RunKeeps | src/main/c/org_apache_activemq_artemis_nativo_jlibaio_LibaioContext.c:448-486 | For every sequence of gets and out-of-order puts: free window and outstanding set partition the blocks, `get == put + used` modulo the size, and what was granted then what is free equals what was free then what was returned |
| IocbPool.ReuseDistance | src/main/c/org_apache_activemq_artemis_nativo_jlibaio_LibaioContext.c:457-464 | A block put back while `f` others are free is granted exactly as the (f+1)-st block from then on, whatever is put in between |
| IocbPool.AllFreeIsPermutation | src/main/c/org_apache_activemq_artemis_nativo_jlibaio_LibaioContext.c:520-545 | With nothing outstanding the array lists every block exactly once |
| IocbPool.SoleBlockKeepsArray | src/main/c/org_apache_activemq_artemis_nativo_jlibaio_LibaioContext.c:648-671 | Taking and returning one block of a full pool leaves the array unchanged at every moment |
| IocbPool.PermutationCondition | src/main/c/org_apache_activemq_artemis_nativo_jlibaio_LibaioContext.c:480-484 | The array lists every block exactly once if and only if the stale pointers in handed-out slots name exactly the blocks that are out |
| IocbPool.PermutationHistory | src/main/c/org_apache_activemq_artemis_nativo_jlibaio_LibaioContext.c:448-486 | From a full pool on, over every run: that is so if and only if the blocks returned so far are, in some order, the first as many that were granted |
| IocbPool.StaleSlotsCanRepeat | src/main/c/org_apache_activemq_artemis_nativo_jlibaio_LibaioContext.c:480-484 | A concrete history after which the array lists one block twice and another not at all |
| Batches.BlockedBatch | src/main/c/org_apache_activemq_artemis_nativo_jlibaio_LibaioContext.c:808-872 | A batch of distinct submissions handled by `blockedPoll` writes exactly the log required of it, returns one block and one permit each, deletes exactly their references, latches nothing and keeps running |
| Batches.ArrayBatch | src/main/c/org_apache_activemq_artemis_nativo_jlibaio_LibaioContext.c:890-918 | The same for `poll(callbacks, min, max)`: the required log, one block each, exactly the stored references deleted |
| Batches.ReplayIsAbsorbed | src/main/c/org_apache_activemq_artemis_nativo_jlibaio_LibaioContext.c:855-869 | An event whose block carries no data changes no pool, block, permit, reference or call other than an fdatasync, and latches `forceSysCall` |
| Batches.ReplaysAreAbsorbed | src/main/c/org_apache_activemq_artemis_nativo_jlibaio_LibaioContext.c:842-869 | Any stream of events, batches, submissions into the block the pool hands out, and the sentinel, which ends it, leads to the state of the stream with its replays erased, up to fdatasyncs; `forceSysCall` ends set if and only if it was set or there was a replay |
| Batches.FreeBlockWaits | src/main/c/org_apache_activemq_artemis_nativo_jlibaio_LibaioContext.c:457-464 | A block with `f` free ones before it stays free, and events on it are absorbed, over every stream with at most `f` fillings |
| Batches.ReplayWindow | src/main/c/org_apache_activemq_artemis_nativo_jlibaio_LibaioContext.c:855-869 | After a block's event has been handled, a second event on it is absorbed if and only if no more blocks were filled since than were free at that time |
| Batches.LateReplay | src/main/c/org_apache_activemq_artemis_nativo_jlibaio_LibaioContext.c:855-869 | Past that window the replay finishes the new submission with the old result, and the submission's own completion is then taken for the duplicate |
| Batches.LateReplayHappens | src/main/c/org_apache_activemq_artemis_nativo_jlibaio_LibaioContext.c:855-869 | A concrete stream in which a callback is done before its operation |
| Trace.LogNotes | src/main/c/org_apache_activemq_artemis_nativo_jlibaio_LibaioContext.c:834-862 | The log required of a sequence of batches notifies exactly what its completions owe, in order |
| Trace.OwedOnce | src/main/c/org_apache_activemq_artemis_nativo_jlibaio_LibaioContext.c:855-862 | If no reference completes twice, no callback is finished twice |
| Trace.OwedIsPlain | src/main/c/org_apache_activemq_artemis_nativo_jlibaio_LibaioContext.c:835-862 | For results that fit an `int` what is owed can be said without casts: an error exactly for a negative result, numbered by the result without its sign |
| Trace.StoredByIndex | src/main/c/org_apache_activemq_artemis_nativo_jlibaio_LibaioContext.c:911-914 | In the log required of an array poll the callback of the k-th event, and nothing else, is stored at index k |
| Trace.LogDurable | src/main/c/org_apache_activemq_artemis_nativo_jlibaio_LibaioContext.c:785-862 | In the required log every `done` is preceded, since the last reap, by an fdatasync of its file |
| Trace.SyncsPerBatch | src/main/c/org_apache_activemq_artemis_nativo_jlibaio_LibaioContext.c:808-832 | The number of fdatasync calls of a batch is its number of maximal runs of equal descriptors, for non-negative descriptors |
| Undisturbed.BatchAlone | src/main/c/org_apache_activemq_artemis_nativo_jlibaio_LibaioContext.c:810-872 | The poller of the step system, running alone, ends a batch in exactly the state the sequential loop computes and stops exactly when that loop does |
| Undisturbed.ArrayBatchAlone | src/main/c/org_apache_activemq_artemis_nativo_jlibaio_LibaioContext.c:890-918 | The same for the array poll: the lone poller's steps over a batch add up to `PollBatch` |
| IoControl.IoControl.constructor | src/main/java/org/apache/activemq/artemis/nativo/jlibaio/LibaioContext.java:177-192 | A new context: full pool of distinct blocks, `queueSize` permits with the semaphore, no references |
| IoControl.IoControl.GetIOCB | src/main/c/org_apache_activemq_artemis_nativo_jlibaio_LibaioContext.c:448-468 | Computes `Get` in place |
| IoControl.IoControl.PutIOCB | src/main/c/org_apache_activemq_artemis_nativo_jlibaio_LibaioContext.c:473-486 | Computes `Put` in place |
| IoControl.IoControl.Submit | src/main/c/org_apache_activemq_artemis_nativo_jlibaio_LibaioContext.c:488-503 | Success changes nothing; refusal deletes the reference, if any, and returns the block |
| IoControl.IoControl.NativeSubmit | src/main/c/org_apache_activemq_artemis_nativo_jlibaio_LibaioContext.c:713-765 | Fails for lack of space exactly when the pool is empty; acceptance arms the next free block with the given file and a fresh reference; a refusal returns that same block, leaves no reference and touches no other block |
| IoControl.IoControl.SubmitRequest | src/main/java/org/apache/activemq/artemis/nativo/jlibaio/LibaioContext.java:204-240 | All outcomes of a request with their permits: a closed context or a missing permit changes nothing, every other outcome spends one permit, refusals included |
| IoControl.IoControl.Done | src/main/java/org/apache/activemq/artemis/nativo/jlibaio/LibaioContext.java:375-380 | Notifies, then releases one permit |
| IoControl.IoControl.HandleOne | src/main/c/org_apache_activemq_artemis_nativo_jlibaio_LibaioContext.c:829-870 | The in-place loop body computes `HandleEvent`: fdatasync, `onError`, claim of the data, return of the block, `done`, release, deletion, in that order |
| IoControl.IoControl.BlockedPollBatch | src/main/c/org_apache_activemq_artemis_nativo_jlibaio_LibaioContext.c:808-872 | The in-place loop computes `HandleBatch` and stops at the sentinel |
| IoControl.IoControl.PollEvents | src/main/c/org_apache_activemq_artemis_nativo_jlibaio_LibaioContext.c:890-918 | The in-place loop computes `PollBatch`; the array holds each non-null callback at its event's index and is otherwise unchanged |
| IoControl.IoControl.Poll | src/main/java/org/apache/activemq/artemis/nativo/jlibaio/LibaioContext.java:349-357 | Releases as many permits as events were handled; a zero or negative result changes neither state nor array |
| ContextHeap.FreeAllExactly | src/main/c/org_apache_activemq_artemis_nativo_jlibaio_LibaioContext.c:520-524 | Freeing a list of pointers is correct if and only if they are distinct and allocated, and then frees exactly those |
| ContextHeap.Process.DestroyMembers | src/main/c/org_apache_activemq_artemis_nativo_jlibaio_LibaioContext.c:520-524 | The loop frees the first `upperBound` blocks, each once |
| ContextHeap.Process.AllocateBlocks | src/main/c/org_apache_activemq_artemis_nativo_jlibaio_LibaioContext.c:582-596 | Either all blocks are allocated and distinct, or the first allocation that is bound to fail is reported and those before it and the array have been freed |
| ContextHeap.Process.NewContext | src/main/c/org_apache_activemq_artemis_nativo_jlibaio_LibaioContext.c:550-639 | For every size and every set of steps bound to fail: NULL is returned if and only if one of the steps fails, and the first of them is where it stops; then heap and references are as before, if and only if that step is not the last one, `NewDirectByteBuffer`, after which `queueSize + 3` heap blocks, one queue and one reference are left; the other queues are as before if and only if the size is positive, or the structure was not allocated, or the handle that the fresh memory happens to hold names none of them; success gives a full pool of distinct fresh blocks |
| ContextHeap.Process.Delete | src/main/c/org_apache_activemq_artemis_nativo_jlibaio_LibaioContext.c:674-684 | Given an array that lists the context's blocks once each, frees exactly what `NewContext` allocated, each once |
| CallbackCache.CallbackCache.Get | src/main/java/org/apache/activemq/artemis/nativo/jlibaio/util/CallbackCache.java:41-59 | Returns and removes the oldest callback, null when there is none; the NullPointerException branch is never taken |
| CallbackCache.CallbackCache.Put | src/main/java/org/apache/activemq/artemis/nativo/jlibaio/util/CallbackCache.java:61-75 | Appends a callback if there is room and drops it otherwise; null for null; for every size, zero included |
| CallbackCache.RunIsFifo | src/main/java/org/apache/activemq/artemis/nativo/jlibaio/util/CallbackCache.java:41-75 | Over every run of gets and puts: what came out, then what is left, is what was there, then what was put while there was room |
| CallbackCache.RecyclingRotates | src/test/java/org/apache/activemq/artemis/nativo/jlibaio/test/CallbackCachelTest.java:42-45 | Any number of `put(get())` rounds rotates the cache |
| CallbackCache.RecyclingKeeps | src/test/java/org/apache/activemq/artemis/nativo/jlibaio/test/CallbackCachelTest.java:47-54 | So the same callbacks stay in it, each as often |

## Left out

- A `close` whose 10-second drain times out, or of a context without a semaphore: `deleteContext` then runs with operations pending, which the class documentation calls unsafe.
- What array polls and the close do to each other after `deleteContext` has begun with a poll inside, beyond the fact that it can be fatal: the guarantees above are for runs that keep to `Machine.Orderly`.
- A blocked poller that enters `blockedPoll` after `deleteContext` has begun, null callbacks with the blocked poller, and callbacks that throw: the code gives no guarantee for them.
- Replays inside the step system: a replayed completion would take a ring slot that no block pays for, so the ring bound would not follow from the pool; replays are treated on streams of events in `Batches`.
- An `acquire()` ended by an interrupt: the request ends without a permit and before it touches anything.
- Other contexts in the process: `forceSysCall` is global in the source and is kept per context here, where `SetForce` lets anyone change it at any step.
- A zero timeout of `ringio_get_events`: no caller passes one; `RingioGetEvents` keeps it as a parameter, the step system does not.
- The outer `while (running)` loop of `blockedPoll` exists only in the step system (`BlockedLoop`), where its reaps and its `lastFile = -1` are steps; `BlockedPollBatch` is its body from one reap to the next. The exception that it throws on an error is not an entry of the log.
- Termination under fair scheduling: `SentCanFinish` and `DrainedCanFinish` say that the close can be completed, and `SentinelOnItsWay` that the poller's last event is on its way, not that a scheduler will deliver it.
- The memory model: the barriers are not modelled.
- Mutexes of the pool: `getIOCB` and `putIOCB` are single steps.
- Negation of the smallest `int`: `-eventResult` of -2^31 is undefined in C and is 2^31 here.
- Data buffers, positions and sizes of operations, and what the kernel writes to files.
- Message texts, `strerror`, the printed warnings, exception construction, JNI class and method lookup, library loading and the version check.
- `open`, `close(fd)`, `lock`, `getSize`, `getBlockSize`, `fallocate`, `fill`, `memsetBuffer`, the aligned buffers and `LibaioFile`: single system calls or thin wrappers.
- The shutdown hook, the counter of contexts and `totalMaxIO`: counters outside the protocol.
- IoControl.IoControl.SubmitRequest: covers one request run without interference, so a missing permit is an outcome; the waiting thread is in the step system.
- Batches.ReplayWindow: covers streams in which submissions are whole, without a refusal in between and without null callbacks.
