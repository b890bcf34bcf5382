# A verified model of `co_queue`

This project models the concurrent core of the crate and proves what it is for: a lock-free
multi-producer multi-consumer queue that is linearizable to a plain FIFO queue, a word-sized lock and
a parking lot that lose no wake-up, and a mutex with one owner at a time.

Concurrent code is a step machine. A `State` holds the shared words, the heap and the program point of
every thread; one atomic load, store, CAS or fetch operation is one step; `Next(s, t, c)` is the step
of thread `t`, where the choice `c` decides everything the code does not (what an idle thread calls,
whether a weak CAS fails spuriously, whether a spin or a timeout has run out, what a callback answers).
`Run(threads, schedule)` is the state after an arbitrary schedule of an arbitrary number of threads.
Each machine has an inductive invariant `Inv`; `Run` promises it for every schedule, so a lemma that
asks for `Inv(s)` speaks of every reachable state. Fields that no step reads are history variables,
named as such beside the datatype. Loops over memory that the running thread has to itself are methods
with loop invariants: `LenOf`, `Walk`, `Destroy`, `FillPrev` and the class `ParkingBuckets.ParkingLot`.

| files | contents |
|---|---|
| `Wrappers`, `Threads` | options, thread ids |
| `QueueIndex`, `CoQueue`, `QueueInvariant` | index arithmetic, steps and invariant of `CoQueue` |
| `QueueRely`, `QueueSteps`, `QueueClaims`, `QueueSlots`, `QueueRuns` | every step keeps the invariant |
| `QueueTheorems`, `QueueFifo`, `QueueSafety`, `QueueSolo` | FIFO order, emptiness, memory safety, reclamation, completion of a thread alone |
| `QueueLenDrop`, `QueueEmpty`, `QueueLenRun`, `QueueDestroy` | `len`, `Drop`, `is_empty`, runs in which `len` and `is_empty` go wrong, `destroy` |
| `WordLock`, `WordLockScan` | the word lock and the scan of its waiter list |
| `Hashing`, `ParkingLists`, `ParkingBuckets` | hash table sizes, bucket lists, park, unpark and rehash on them |
| `ParkingSpec`, `ParkingProtocol`, `ParkingInvariant`, `ParkingSteps`, `ParkingRuns`, `ParkingTheorems` | the parking lot as a concurrent object: specification, steps, invariant, theorems |
| `RawMutex`, `MutexParking` | the mutex, and its use of the parking lot |

Where the code and its own documentation differ, the model follows the code:

- `destroy` scans up to `CHUNK_CAP`, but the last slot of a chunk is never marked READ, so the release
  at its end is out of reach and every fully popped chunk leaks (`QueueTheorems.NeverReleasedAsWritten`,
  `QueueSolo.DrainedIsReachable`).
  The bound is a parameter of the machine; with `CHUNK_CAP - 1` every drained chunk is released
  exactly once and after its last user.
- `len` underflows when head and tail stand on the same sentinel, although the queue is then empty
  (`QueueLenDrop.LenOf` and `QueueLenDrop.LenIsExact` give the exact condition,
  `QueueLenRun.SharedSentinelIsReachable` a run in which a call of `len` gets there).
- `is_empty` compares positions, so it answers false on an empty queue while head stands on a sentinel that tail
  has stepped over (`QueueEmpty.EmptyAnswer`, `QueueLenRun.FalseOnEmptyIsReachable`).
- The local copy of the word in `unlock_slow` keeps a clear queue-lock bit after the queue lock has
  been taken, so its first CAS always fails and the list is scanned again; this is harmless
  (`WordLock.FirstCopyIsStale`, `WordLock.StaleCopyFails`).
- The state table of `RawMutex` says that with both bits set some thread is parked or about to park; while an
  unlocker is between removing the last sleeper and its callback this is not so: `RawMutex.StateTable` says when,
  and `RawMutex.NobodyParkedIsReachable` gets there.
- Nothing requeues a parked thread, so the second test of `lock_bucket_checked` never fails
  (`ParkingTheorems.KeyCheckSucceeds`).

## Model

| member | source | states |
|---|---|---|
| `QueueFifo.EveryRunIsFifo` | src/lockless_queue.rs:128-283 | linearizability: replaying the successful tail and head CASes and the failed pops of any run on a plain sequence never takes from an empty queue, finds it empty at every `Err`, and ends with the contents of the concurrent queue |
| `QueueFifo.EveryPopIsFifo` | src/lockless_queue.rs:200-283 | the pop of rank k has returned the k-th value the plain queue gave out, or its thread is still at work on that slot |
| `QueueTheorems.StepRefinesFifo` | src/lockless_queue.rs:166-197 | a tail CAS appends its item, a head CAS removes the oldest value of a non-empty queue, no other step changes the contents |
| `QueueTheorems.PopsReturnPushes` | src/lockless_queue.rs:250-274 | the pop of rank k returns exactly the value of the push of rank k |
| `QueueTheorems.QuiescentPops` | src/lockless_queue.rs:128-283 | with every thread idle the returned values are the first pushed ones, in order, nothing lost or duplicated |
| `QueueTheorems.HeadBehindTail` | src/lockless_queue.rs:205-234 | never more pops than pushes; strictly fewer when head is behind tail in front of a slot |
| `QueueTheorems.HasNextIsSound` | src/lockless_queue.rs:219-234 | in every run HAS_NEXT in head means that tail is in a strictly later chunk, and head never passes tail |
| `QueueTheorems.SkippingTheTestIsSafe` | src/lockless_queue.rs:219-259 | a pop that skips the test for emptiness claims a slot that some push has claimed |
| `QueueTheorems.ErrMeansEmpty` | src/lockless_queue.rs:219-228 | `pop` returns `Err` only if the queue is empty when it loads tail, and then its head index is still current however old it is |
| `QueueTheorems.ClaimWorksOnItsChunk` | src/lockless_queue.rs:166-250 | a CAS that succeeds from index i works on chunk i / 32 of the chain, although index and pointer were loaded separately |
| `QueueTheorems.SameRankSameSlot` | src/lockless_queue.rs:173-260 | the pusher and the popper of one rank work on the same slot of the same chunk |
| `QueueTheorems.OneDestroyer` | src/lockless_queue.rs:68-81 | at most one thread destroys a chunk, every slot it has passed is READ, and the chunk is not yet released |
| `QueueTheorems.BatonMovesUp` | src/lockless_queue.rs:68-81 | whatever thread steps, the baton of a chunk only moves forward: to larger slots, then to the release |
| `QueueTheorems.NoUseAfterFree` | src/lockless_queue.rs:180-273 | no thread accesses or releases a chunk that has been released |
| `QueueTheorems.UnpoppedChunkIsLive` | src/lockless_queue.rs:250-272 | a chunk whose slots have not all been claimed by pops is not released |
| `QueueTheorems.DrainedChunks` | src/lockless_queue.rs:68-81 | a fully popped chunk without users has been released with bound CHUNK_CAP - 1, and has its baton stuck at the last slot with bound CHUNK_CAP |
| `QueueTheorems.NeverReleasedAsWritten` | src/lockless_queue.rs:69-80 | with the loop bound as written no run ever releases a chunk in `destroy` |
| `QueueTheorems.ReleaseIsLast` | src/lockless_queue.rs:266-272 | a release happens on a chunk not released before, after its last reader and its last writer |
| `QueueSolo.PushCompletes` | src/lockless_queue.rs:128-198 | from every quiescent state of every run a thread that runs alone, without spurious failures of its CASes, completes a push: a continuation of the run by at most 13 steps of that thread ends quiescent with the queue grown by its item |
| `QueueSolo.PopCompletes` | src/lockless_queue.rs:200-283 | from every quiescent state of every run a thread that runs alone, without a spurious failure of its CAS, completes a pop of a queue that is not empty: a continuation of the run by at most 81 steps of that thread ends quiescent, and the pop has returned the oldest value |
| `QueueSolo.EmptyPopCompletes` | src/lockless_queue.rs:200-228 | from every quiescent state of every run with an empty queue a thread that runs alone reaches the return of `Err` within at most 5 steps, and then the whole state is as it was |
| `QueueSolo.NextIsLinked` | src/lockless_queue.rs:56-66 | with no other thread at work `wait_next` does not wait |
| `QueueSolo.SlotIsFilled` | src/lockless_queue.rs:36-41 | with no other thread at work `wait_write` does not wait |
| `QueueSolo.DrainedIsReachable` | src/lockless_queue.rs:68-81 | for each loop bound, a run of 31 pushes and 31 pops of one thread that drains the first chunk, which has been released if and only if the bound is CHUNK_CAP - 1 |
| `QueueSafety.EveryStepIsSafe` | src/lockless_queue.rs:128-283 | in every run the next step of any thread touches only live chunks, and `Err` is returned only from an empty queue |
| `QueueSafety.EveryClaimIsSafe` | src/lockless_queue.rs:130-264 | in every run a successful CAS works in the chunk of its index, and a pop claims only what a push has claimed |
| `QueueSafety.EveryBatonIsSingle` | src/lockless_queue.rs:68-81 | in every run a chunk has at most one destroyer and everything behind it is READ |
| `QueueSafety.EveryDrainedChunk` | src/lockless_queue.rs:68-81 | in every run a drained chunk has been released if and only if the loop bound is CHUNK_CAP - 1 |
| `QueueSafety.EveryQuiescentRun` | src/lockless_queue.rs:338-373 | when nobody uses the queue any more, exactly the chunks before the head chunk have been released, and only with the shorter bound |
| `QueueRuns.InvStep` | src/lockless_queue.rs:128-325 | every step of `push`, `pop`, `destroy` and `len` by any thread keeps the invariant |
| `QueueRuns.Run` | src/lockless_queue.rs:109-126 | the invariant holds after every schedule from the empty queue |
| `QueueClaims.PushClaimKeepsInv` | src/lockless_queue.rs:166-175 | the tail CAS keeps the invariant: the claimed slot has one pusher |
| `QueueClaims.PopClaimKeepsInv` | src/lockless_queue.rs:243-251 | the head CAS keeps the invariant: the claimed slot has one popper |
| `QueueClaims.InstallKeepsInv` | src/lockless_queue.rs:149-159 | installing the first chunk by CAS makes it chunk 0 of the chain |
| `QueueClaims.PushStoreChunkKeepsInv` | src/lockless_queue.rs:176-181 | the store to tail.chunk at a rollover appends the spare chunk to the chain |
| `QueueSteps.PopPeekKeepsInv` | src/lockless_queue.rs:251-259 | HAS_NEXT is set on the index after a rollover only when tail has left the next chunk |
| `QueueRuns.TakeOverKeepsInv` | src/lockless_queue.rs:270-272 | a reader that finds DESTROY takes the baton over at the next slot |
| `QueueRuns.DestroyMarkKeepsInv` | src/lockless_queue.rs:72-77 | marking DESTROY on an unread slot leaves the baton there, on a slot read meanwhile it moves on |
| `QueueDestroy.Destroy` | src/lockless_queue.rs:68-81 | called alone, `destroy` releases the chunk if and only if every slot from `start` to the bound is READ, else it marks the first unread one and changes nothing else |
| `QueueDestroy.FirstUnread` | src/lockless_queue.rs:69-77 | the slot at which the loop stops: everything before it is READ and it is not |
| `QueueIndex.CountMonotone` | src/lockless_queue.rs:20-27 | block and slot count grow with the position |
| `QueueLenDrop.LenOf` | src/lockless_queue.rs:299-322 | for head <= tail the rotation and fix-ups give C(tail) - C(head) with C(i) = 31 (i / 32) + i mod 32, and the subtraction underflows if and only if both stand on the same sentinel |
| `QueueLenDrop.LengthIsCount` | src/lockless_queue.rs:291-325 | C(tail) - C(head) is the number of values in the queue |
| `QueueLenDrop.LenSnapshot` | src/lockless_queue.rs:294-295 | in every run, when `len` reads head, that word and the tail of that moment give the true length |
| `QueueLenDrop.LenIsExact` | src/lockless_queue.rs:291-325 | what `len` returns, in every run with any steps of other threads between its reads: if the check of tail succeeds, the length the queue had when head was read, except that it underflows, from an empty queue, if and only if both words are the same sentinel |
| `QueueLenRun.SharedSentinelIsReachable` | src/lockless_queue.rs:291-316 | a run of 31 pushes and 31 pops, each stopped after its CAS, in which a further thread calls `len`: its check of tail succeeds on an empty queue and the subtraction underflows |
| `QueueEmpty.EmptyAtOnce` | src/lockless_queue.rs:285-289 | at one instant the queue is empty if and only if head and tail are at the same position or head is on a sentinel and tail just behind it |
| `QueueEmpty.EmptyAnswer` | src/lockless_queue.rs:285-289 | in every run with any steps between its two reads, `is_empty` answers true if and only if the queue is empty when it reads tail, head has not moved since it was read, and no sentinel lies between them; so true is always right |
| `QueueEmpty.HeadMovesUp` | src/lockless_queue.rs:243-258 | in every run head never moves back |
| `QueueLenRun.FalseOnEmptyIsReachable` | src/lockless_queue.rs:285-289 | a run in which `is_empty`, with both reads at one instant, answers false on an empty queue |
| `QueueLenDrop.Walk` | src/lockless_queue.rs:348-371 | the loop of `drop` terminates, drops each value from head to tail once and in order, and releases each chunk from the head chunk to the tail chunk once |
| `QueueLenDrop.Drop` | src/lockless_queue.rs:338-373 | on a queue nobody uses, `drop` drops exactly its contents and releases exactly the chain from the head chunk on, each chunk once and none that had been released before |
| `QueueLenDrop.QuiescentShape` | src/lockless_queue.rs:340-346 | with every thread idle no index stands on a sentinel, and head points to the chunk of its index |
| `QueueLenDrop.QuiescentIsWalkable` | src/lockless_queue.rs:350-362 | with every thread idle the chunks are linked in order and hold exactly the unpopped values |
| `QueueLenDrop.BeforeDrop` | src/lockless_queue.rs:338-373 | a chunk has been released before `drop` if and only if it lies before the head chunk and the shorter bound is used |
| `WordLock.EveryRunIsSafe` | src/mutex/deadlock.rs:376-574 | in every run both bits are exclusive and set exactly while held, the list is acyclic and in reverse order of enqueueing, the removed threads are the first enqueued in order, and a queued waiter always has somebody who will wake it |
| `WordLock.InvStep` | src/mutex/deadlock.rs:376-574 | every step of `lock` and `unlock` keeps the invariant of word, list and threads |
| `WordLock.WakeupPendingStep` | src/mutex/deadlock.rs:390-574 | no step loses the duty to wake: with a waiter queued a bit is set, or an unlocker, a waker or an awake contender is responsible |
| `WordLock.ResponsibilityKept` | src/mutex/deadlock.rs:466-574 | a thread that stops being responsible leaves a set bit or an empty queue behind |
| `WordLock.EnqueueKeepsInv` | src/mutex/deadlock.rs:432-449 | a prepend by CAS keeps the list, also while another thread scans it |
| `WordLock.ScanReachesTail` | src/mutex/deadlock.rs:493-516 | the scan stays in the queue, each of its steps moves one node towards the oldest waiter, and it ends at a node with a queue tail with `prev` inverse to `next` from the scanned head to the tail |
| `WordLock.ScanUndisturbed` | src/mutex/deadlock.rs:432-449 | while a thread holds the queue lock, the steps of other threads only prepend and leave its scan where it is |
| `WordLock.ScanEnds` | src/mutex/deadlock.rs:493-506 | the scan terminates: in every run, however its steps are interleaved with prepends, it has found the tail after at most one step of its own more than there are unprocessed nodes |
| `WordLock.RemovesOldest` | src/mutex/deadlock.rs:536-573 | only the queue-lock holder removes a waiter, and it is the longest-queued one |
| `WordLock.SleepersAreAccounted` | src/mutex/deadlock.rs:566-572 | a sleeper that is not queued has been removed by a thread that is about to wake it |
| `WordLock.StaleCopyFails` | src/mutex/deadlock.rs:517-545 | in every run the queue-lock bit is set while a thread holds the queue lock, so a CAS from a copy of the word with a clear bit fails |
| `WordLock.FirstCopyIsStale` | src/mutex/deadlock.rs:476-495 | the copy with which the first scan starts has a clear queue-lock bit |
| `WordLockScan.FillPrev` | src/mutex/deadlock.rs:493-516 | the scan on the nodes in memory finds the oldest waiter, leaves the whole list processed and changes nothing but `prev` of queued nodes and the tail of the head |
| `WordLockScan.EveryListIsQueued` | src/mutex/deadlock.rs:302-320 | in every run a non-empty waiter list is one the scan can process |
| `Hashing.HashInTable` | src/mutex/deadlock.rs:906-911 | the hash of every key is a bucket of a table with that many hash bits |
| `Hashing.NextPow2Bits` | src/mutex/deadlock.rs:631-634 | the number of hash bits is the least with enough buckets |
| `Hashing.TableHasBits` | src/mutex/deadlock.rs:631-634 | a table for at least one thread has at least two hash bits, so the shift of `hash` stays below the word size |
| `Hashing.BitsFitWord` | src/mutex/deadlock.rs:631-634 | the number of buckets fits a word if and only if the load is at most half the range of a word; for a larger load `next_power_of_two` overflows |
| `Hashing.GrowthIsStrict` | src/mutex/deadlock.rs:822-850 | growing a table that is too small gives a strictly larger one that is large enough |
| `ParkingLists.RehashKeepsThreads` | src/mutex/deadlock.rs:852-860 | rehashing keeps exactly the parked threads and puts each into the bucket of its key only |
| `ParkingLists.RehashKeepsOrder` | src/mutex/deadlock.rs:852-899 | rehashing preserves the order among the threads of one key |
| `ParkingLists.RehashedDistinct` | src/mutex/deadlock.rs:852-899 | no thread is queued twice after a rehash |
| `ParkingLists.MoveOne` | src/mutex/deadlock.rs:885-898 | one round of the rehash loop keeps every new list and every old list still to be moved well formed |
| `ParkingBuckets.ParkingLot.RehashBucketInto` | src/mutex/deadlock.rs:883-899 | the loop over one bucket appends each of its threads to the list of its new bucket, on the links |
| `ParkingBuckets.ParkingLot.Rehash` | src/mutex/deadlock.rs:849-860 | all buckets end up as the specification of the rehash says, every list well formed with head null exactly when tail is |
| `ParkingBuckets.ParkingLot.Append` | src/mutex/deadlock.rs:1065-1077 | `park` queues its thread at the end of its bucket and sets its key and flag, everything else unchanged |
| `ParkingBuckets.ParkingLot.UnparkOne` | src/mutex/deadlock.rs:1190-1246 | removes exactly the first thread with the key, keeps all other order, tells exactly whether another entry with the key remains, calls the callback with that and passes on its token; or finds that there is none, changes nothing and still calls the callback |
| `ParkingBuckets.ParkingLot.Choose` | src/mutex/deadlock.rs:1195-1222 | what happens to the thread found: unlinked, the rest scanned, the callback called once with the result, its token stored and the flag cleared |
| `ParkingBuckets.ParkingLot.RemoveTimedOut` | src/mutex/deadlock.rs:1114-1160 | a timed-out `park` removes exactly itself, and `was_last_thread` says exactly whether no other entry with the key remains |
| `ParkingBuckets.ParkingLot.Unlink` | src/mutex/deadlock.rs:1120-1126 | unlinking a node keeps the list; the tail pointer changes only if the last node goes |
| `ParkingBuckets.ParkingLot.Scan` | src/mutex/deadlock.rs:1127-1137 | the scan of the rest finds an entry with the key if and only if there is one |
| `ParkingSpec.UnparkedByOne` | src/mutex/deadlock.rs:1071-1112 | in a legal history a `park` that returns `Unparked(v)` was queued, then chosen by exactly one `unpark_one` with token v |
| `ParkingSpec.TimedOutByNone` | src/mutex/deadlock.rs:1100-1160 | in a legal history a `park` that returns `TimedOut` withdrew and was chosen by nobody |
| `ParkingSpec.ChosenWaitedLongest` | src/mutex/deadlock.rs:1190-1231 | in a legal history `unpark_one` chooses the thread that has waited longest on its key |
| `ParkingSpec.QueueIsWaiters` | src/mutex/deadlock.rs:1046-1079 | in a legal history the queue of a key holds exactly the threads waiting on it, each once |
| `ParkingRuns.InvStep` | src/mutex/deadlock.rs:776-1246 | every step of park, unpark, timeout and growth by any thread keeps the invariant |
| `ParkingRuns.Run` | src/mutex/deadlock.rs:607-615 | the invariant, and with it the legality of the history, holds after every schedule |
| `ParkingRuns.PublishKeepsInv` | src/mutex/deadlock.rs:849-865 | publishing a rehashed table keeps every thread in the bucket of its key and every queue in order |
| `ParkingRuns.PublisherIsAlone` | src/mutex/deadlock.rs:829-865 | when a thread is about to publish, no other thread holds a bucket that `lock_bucket` has returned |
| `ParkingRuns.FlagMeansWaiting` | src/mutex/deadlock.rs:1105-1112 | while a thread holds the bucket of a sleeper, for whatever key, and is not just notifying it, a set flag means that nobody has chosen the sleeper |
| `ParkingRuns.ChooseKeepsInv` | src/mutex/deadlock.rs:1190-1231 | removing a thread in `unpark_one` keeps the invariant |
| `ParkingRuns.WithdrawKeepsInv` | src/mutex/deadlock.rs:1105-1160 | a timed-out `park` that removes itself keeps the invariant |
| `ParkingTheorems.UnparkedExactly` | src/mutex/deadlock.rs:1046-1246 | in every run a `park` returns `Unparked(v)` only with the token of the one `unpark_one` that dequeued it, which chose the longest-waiting thread of the key, across any growth of the table |
| `ParkingTheorems.TimedOutExactly` | src/mutex/deadlock.rs:1100-1160 | in every run a `park` returns `TimedOut` only if no `unpark_one` chose it |
| `ParkingTheorems.MissedExactly` | src/mutex/deadlock.rs:1241-1246 | in every run an `unpark_one` that finds nobody is right: no thread waits on its key |
| `ParkingTheorems.WaitingAtHome` | src/mutex/deadlock.rs:916-966 | in every run a thread is in a bucket of the current table if and only if it waits and the bucket is the hash of its key |
| `ParkingTheorems.WaitingOnKey` | src/mutex/deadlock.rs:1065-1077 | in every run a waiting thread waits on its key field, and there is a table |
| `ParkingTheorems.FlagIffQueued` | src/mutex/deadlock.rs:140-187 | in every run, while any thread holds the bucket of a sleeping thread, at any point and for any key, and is not just handing it its token, the sleeper is in the queue if and only if its flag is set |
| `ParkingTheorems.FlagExactly` | src/mutex/deadlock.rs:140-187 | in every run, locked or not, the flag of a sleeper is set if and only if it is queued or an `unpark_one` has removed it and not yet cleared the flag, and never both |
| `ParkingTheorems.KeyCheckSucceeds` | src/mutex/deadlock.rs:942-966 | in every run the test of `lock_bucket_checked` for a changed key finds it unchanged |
| `ParkingTheorems.StableWhileHeld` | src/mutex/deadlock.rs:916-936 | in every run, while a thread holds a bucket returned by `lock_bucket`, that table is current and no step replaces it |
| `ParkingTheorems.ReplacedByHolderOfAll` | src/mutex/deadlock.rs:822-872 | in every run the table is replaced only by a thread that holds every bucket lock of the current one, before and after the step |
| `ParkingTheorems.TablesStrictlyGrow` | src/mutex/deadlock.rs:822-850 | in every run successive tables strictly grow |
| `ParkingTheorems.GrowSuffices` | src/mutex/deadlock.rs:822-872 | in every run, when `grow_hashtable(n)` returns, the current table has at least 3n buckets |
| `ParkingTheorems.ScanFindsFirst` | src/mutex/deadlock.rs:1190-1195 | what the scan of `unpark_one` removes from the list is what the machine's step removes from the queue |
| `ParkingTheorems.ScanFindsNobody` | src/mutex/deadlock.rs:1241-1246 | the scan finds nobody exactly when the machine's step does |
| `RawMutex.MutualExclusion` | src/mutex/raw_mutex.rs:71-182 | in every run at most one thread owns the mutex, and LOCKED_BIT is set if and only if one does, counting an unlocker in `unlock_slow` and the target of a handoff |
| `RawMutex.NeverStrandsSleeper` | src/mutex/raw_mutex.rs:94-164 | in every run a queued thread implies PARKED_BIT and either LOCKED_BIT or an awake contender in `lock_slow` |
| `RawMutex.StateTable` | src/mutex/raw_mutex.rs:27-48 | in every run each row of the documented state table holds, with exactly one owner where one is claimed; in the last row, with nobody about to park, nobody is parked if and only if an unlocker has dequeued the last sleeper and not yet stored the new state |
| `RawMutex.ParkedBitClearedInBucket` | src/mutex/raw_mutex.rs:44-46 | in every run PARKED_BIT is cleared only by the unlock callback, from the state with both bits set, by the thread that holds the bucket lock |
| `RawMutex.NobodyParkedIsReachable` | src/mutex/raw_mutex.rs:42-46 | a run that reaches the exception of the last row: both bits set, nobody queued and nobody about to park |
| `RawMutex.HandoffKeepsLocked` | src/mutex/raw_mutex.rs:145-151 | a fair unlock passes ownership to the dequeued thread without clearing LOCKED_BIT, and PARKED_BIT then says whether anybody is queued |
| `RawMutex.InvStep` | src/mutex/raw_mutex.rs:71-217 | every step of `lock` and `unlock` keeps the invariant |
| `RawMutex.CallbackKeepsInv` | src/mutex/raw_mutex.rs:145-159 | the blind stores of the unlock callback keep the invariant, although they may erase a PARKED_BIT set by a thread not yet queued |
| `RawMutex.SleepersCoveredStep` | src/mutex/raw_mutex.rs:71-164 | a free mutex with sleepers always keeps an awake contender |
| `MutexParking.EveryHistoryIsLegal` | src/mutex/raw_mutex.rs:108-164 | in every run of the mutex the history of its `park` and `unpark_one` calls is one the specification of the parking lot allows, the threads waiting for the mutex are in order the queue of its key, and each thread is in its `park` where the history says |
| `MutexParking.OneKey` | src/mutex/raw_mutex.rs:108-161 | every call of the mutex to the parking lot is on its own address |
| `MutexParking.WakesLongestWaiting` | src/mutex/raw_mutex.rs:143-164 | in every run an unlock wakes the thread that has waited longest for the mutex |
| `MutexParking.HandedOverByOne` | src/mutex/raw_mutex.rs:126-128 | in every run a thread that returns from `park` with a handoff was parked on the mutex and chosen for it by exactly one unlock of that mutex |

## Left out

- Weak memory orderings and fences: every step is sequentially consistent.
- Index wrap-around at the machine word: indices are unbounded naturals, so a run longer than the word allows is not covered.
- In-place form of the concurrent operations: each is a function from state to state per atomic access, not a method on a mutable object, because a method call would be atomic; the loops one thread has to itself are methods.
- Reuse of an address by the allocator: addresses of chunks are never used twice, so an ABA on a recycled chunk address is not covered.
- Release of the private spare chunk of a push that did not need it.
- `Debug` for `CoQueue`, its channel fields, `stream.rs`, `blocking_col.rs`, `waker.rs`: only easy members.
- `RawMutex::try_lock` and `mark_parked_when_lock`: the former sets PARKED_BIT instead of LOCKED_BIT and so does not acquire the lock; the mutex theorems are about runs of `lock` and `unlock`, with `unlock` called by the owner only.
- The timeout callback of `RawMutex::lock_slow`: it parks without a timeout, so the callback is never called.
- `before_sleep` callbacks that call back into the parking lot: the only caller passes an empty one.
- Bucket locks in the parking-lot machine and the bucket of `RawMutex` are taken in one step; the `WordLock` machine is what justifies it, but the machines are not composed formally. `RawMutex` and the parking lot meet in `ParkingSpec`: every history of either is legal.
- `grow_hashtable` for a load above half the range of a word: such a table cannot be allocated, and the machine does not start it.
- The bucket lists in the parking-lot machine are sequences; the lists on links are `ParkingBuckets`, connected by `ScanFindsFirst`, `ScanFindsNobody` and the shared specification of the rehash.
- Futex system calls, error codes and clocks: a wait returns at any time and looks at the flag again; a timeout may expire at any time; the wake-up call after the flag is cleared is not a step.
- `SpinWait`, `Backoff` and `FairTimeout`: arbitrary choices.
- The 32-bit variant of `hash`.
- Deadlock detection, which nothing in the repository enables.
- `ShiftQueue`, `RawQueue`, `PtrGuard` and `own_ref.rs`: their code does not support the properties they aim at, or it is pointer casting only.
- Liveness under contention: nothing here says that a thread is ever scheduled; the theorems say that whoever must act still can, that a scan ends and that a thread alone completes its call.
