# lfsfree: shared-memory queue, allocator and session tables

A Dafny model of the three parts of lfsfree that are hard to get right, with proofs over every interleaving, every run
and every input.

**The message queue** (`msgqueue/`). `QueueMachine` is a step system: any number of threads, a program counter each, one
shared load or store a step, crashes, semaphore errors, spurious wake-ups and recovery of lost lock tokens.
`QueueSafety` holds the inductive invariant; `QueueTheorems`, `QueueProgress` and `QueueSole` draw the results from it,
and `QueueRuns` has the runs that show what goes wrong where it can. `QueueAnswers` says what each operation answers,
step by step and from call to return, and `QueueWakeups` counts the wake-up tokens. `MessageQueue` is the same queue as
one caller runs it, in place over the shared segment. `SemaphoreRecovery` is the lock stealing of `CSemaphore::Wait` on
its own (a timed mutual-exclusion protocol in Fischer's manner), `QueueRecovery` and `QueueOverLocks` the queue run over
two such locks and back, `SemaphoreWait` the slicing of a time budget, `RingAttach` the constructor's agreement on the
ring size.

**Memory** (`lfs/allocator.*` over `LFSadmin/`). `AllocationForest` is the manager's map from roots to children,
`BumpAllocator` the allocator among other clients, `Allocator` the object in place and its two-pass use, `MultiString`
the double-NUL list of strings.

**Sessions** (`LFSadmin/`). `SessionMemory` has the manager's segment as bytes and what each call does at the addresses
it computes, `SessionTables` the process, handle and service tables those bytes stand for, `SessionAnswers` what each
call answers, `SessionRuns` all runs of calls by any processes, `SessionManager` the calls in place over the array of
bytes.

`QueueMachine.Do`, `SemaphoreRecovery.Do`, `AllocationForest.Apply`, `BumpAllocator.NewMemory`/`NewAlloc`/`NewAnswer`,
`SessionMemory.Bytes` and the functions on `SessionTables.Tables` are the specifications. The class methods are proved
against them, and the lemmas say what they promise.

How to read the model:

- A run is any list of steps. `Try` skips a step that is not possible in its state, so a statement about all lists
  covers every schedule. Wake-up semaphores may be capped (`Config.cap`, 1 in the Windows macro); nothing depends on it.
- `written`, `author`, `consumed`, `taker` and the `at` part of a loaded index are history: no step reads them.
- There is no clock. A sleeper notes in `owed` who was inside the recovery window when it wrote its id; the sleep was
  long enough when none of them is left on the list (`Timely`).

Where the code does not keep what its comments suggest, the exact condition is proved instead:

- A failed inner wake-up wait returns without giving the lock back, and a failed lock wait in `Clear` goes on without
  the lock: `TokenLeakIff`, and runs from the start do it (`WriteLeakIsReachable`, `ReadLeakIsReachable`). A Clear that
  goes on without its lock is the one step that puts FIFO order at risk: `InOrderIff`.
- Recovery is exclusive exactly on `Harmless` steps (`ExclusiveIff`): a published or probed thread dies only when that
  leaves no token, the never-written id is read only when there is no token, and a sleeper that finds its own id finds
  nobody still about to write. `ExitAfterReleaseBreaks`, `ProbedExitBreaks`, `UnwrittenIdBreaks` and `ShortSleepBreaks`
  are runs from a new semaphore that end with two tokens, one for each.
- A lost lock comes back without another death exactly when its named owner is dead, somebody is about to write its id,
  or the named thread sleeps on its own claim (`RecoverableIff`, `WaiterServedIff`); a single waiter can do it alone
  exactly when the owner is dead and nobody else stands in an open window (`LoneWaiterIff`); and it stays lost for as
  long as the named thread lives exactly in the `Orphaned` states (`OrphanedIff`), which a holder that dies before it
  has published its id brings about (`OrphanIsReachable`).
- A wake-up is lost exactly when the thread that owes it dies between its commit and its post while the semaphore
  stands at zero (`LostWakeupIff`), which some run does on either side (`LostForReaderIsReachable`,
  `LostForWriterIsReachable`).
- The segment's size is an unsigned int. From 2^20 slots on handles need not agree on the ring (`AgreementIff`) and the
  last slots lie outside of what was asked for (`SlotsFitIff`): the queue's results presuppose fewer.
- The manager compares no index with the length of its array. A call leaves everybody else's bytes alone exactly for
  services up to 8704 and handles whose byte lies in its own block, outside the segment, or is not set (`IsolatedIff`).
  Service 8704 d + s is service s of the process d slots on (`ReachesNeighbour`), handle 139264 d + h its handle h
  (`EndsNeighbour`), and from the last seven slots a service is an entry of the pid table (`ReachesPids`); two sessions
  and one call are enough (`NeighbourMoves`), and 58 sessions for two slots of one process (`PidsCollide`). An open
  without a free slot writes over the caller's own handles (`FullOpenOverwrites`).
- `headPtr()` can be freed only when the allocator was given no source: `HeadPtrFreesIff`. A carved object is inside the
  head block only while the sum of sizes has not wrapped: `CarveInsideIff`, `WrapIsReachable`.
  `allocatedSize()` is an `int`: `Measures`.
- A string with a NUL inside does not survive the builders: `RoundTripIff`, `CreateOne`.
- Destroying handle 1 succeeds whether it is live or not, a full handle table answers from the caller's own variable,
  and the first request repeats the id of its open: `DestroyedIsGone`, `CreatedIsFresh`, `OpenIdRepeats`.

## Model

| member | source | states |
|---|---|---|
| QueueTheorems.FifoOrder | msgqueue/MessageQueue.h:115-227 | In every reachable state the messages written are those delivered or cleared, in order, followed by the slots from tail to head; at most queueSize-1 are held |
| QueueTheorems.StepRefines | msgqueue/MessageQueue.h:115-227 | Each step of any thread is one step of a bounded FIFO queue, and only the stores to head and tail are visible ones |
| QueueTheorems.RunRefines | msgqueue/MessageQueue.h:110-227 | A whole schedule of writers, readers, clearers, crashes and recoveries is a run of that queue and ends in the slots that lie in memory |
| QueueTheorems.NoSlotShared | msgqueue/MessageQueue.h:144-159 | From a writer's passing check to its head store at most queueSize-2 messages are held, and the slot it fills is not the one a reader has in hand, which stays as it is |
| QueueTheorems.DeliversOldest | msgqueue/MessageQueue.h:193-215 | A reader past its check reads the oldest message and hands over its exact length and bytes, whatever writers do meanwhile |
| QueueTheorems.InRange | msgqueue/MessageQueue.h:84-90 | No load or store of a message falls outside the shared array, and on a ring of fewer than 2^20 slots its byte lies in the segment |
| QueueTheorems.TokensConserved | msgqueue/MessageQueue.h:126-162 | In every reachable state a lock's value, its holders and its lost tokens make exactly one |
| QueueTheorems.TokenLeakIff | msgqueue/MessageQueue.h:129-136 | A step changes value plus holders of a lock exactly when a holder dies, an inner wake-up wait fails, or Clear ignores its failed lock wait |
| QueueWakeups.WakeupFlow | msgqueue/MessageQueue.h:131-226 | Without a cap a step moves a wake-up count by +1 exactly at a commit's post and by -1 exactly at a wake-up; with one, a post saturates |
| QueueWakeups.WakeupsConserved | msgqueue/MessageQueue.h:131-226 | Over every run an uncapped wake-up count is 1 plus its posts less its wake-ups, and a capped one never exceeds its cap |
| QueueTheorems.WriteAtomic | msgqueue/MessageQueue.h:115-163 | Under every schedule a Write adds its whole message once or not at all, its result says which, and a crash at any point leaves no part of a message |
| QueueTheorems.ReadAtomic | msgqueue/MessageQueue.h:170-219 | Under every schedule a Read takes one whole message or none, and its result says which |
| QueueSafety.InvStep | msgqueue/MessageQueue.h:110-227 | Ring, lock tokens and what each thread relies on survive every step of every thread |
| QueueSafety.DecideSafe | msgqueue/MessageQueue.h:110-168 | The full and empty checks decide correctly inside their lock although the other side's index may be stale |
| QueueSafety.Exclusive | msgqueue/MessageQueue.h:127-177 | No two threads hold the same lock |
| QueueProgress.LostWakeupIff | msgqueue/MessageQueue.h:129-226 | From any reachable state a step leaves a thread bound to wait with something to read, or room to write, and no signal, if and only if it is the death of the writer, reader or clearer that owes that signal, between its commit and its post, with the semaphore at zero |
| QueueProgress.NoLostWakeup | msgqueue/MessageQueue.h:129-161 | In a run without such a death, a reader bound to wait on a non-empty queue, or a writer on one with room, is signalled or about to be, for any saturation of the semaphores |
| QueueRuns.LostForReaderIsReachable | msgqueue/MessageQueue.h:159-161 | On every ring of two slots or more some run from the start leaves a waiting reader with a message and no signal |
| QueueRuns.LostForWriterIsReachable | msgqueue/MessageQueue.h:221-227 | And some run leaves a waiting writer with a ring that Clear has emptied and no signal |
| QueueRuns.WriteLeakIsReachable | msgqueue/MessageQueue.h:131-135 | On every ring of two slots or more a writer whose wake-up wait fails is back with -1 and the write lock is gone, with nobody dead |
| QueueRuns.ReadLeakIsReachable | msgqueue/MessageQueue.h:180-184 | The same for a reader and the read lock |
| QueueRuns.InOrderIff | msgqueue/MessageQueue.h:221-227 | From any reachable state of a ring of two slots or more, a step keeps FIFO order under all schedules that follow if and only if it is not a Clear that goes on without its lock |
| QueueRuns.ClearCanFail | msgqueue/MessageQueue.h:223-224 | That step is possible from the start |
| QueueRecovery.RunsAreQueueRuns | msgqueue/Semaphore.h:146-220 | Run over its two real locks, failing lock waits and wake-up waits included, with harmless deaths and recoveries the queue only does what its own step system does, the locks' counts are those it sees, and its messages stay in order |
| QueueRecovery.TimedRunsAreQueueRuns | msgqueue/Semaphore.h:184-192 | The same when sleepers only keep to the timing rule |
| QueueRecovery.LocksAreNotHeldBack | msgqueue/Semaphore.h:146-220 | Whatever step a lock takes, the queue is ready for its part in it |
| QueueOverLocks.StepOverLocks | msgqueue/Semaphore.h:146-220 | Each step of the queue's step system is a run over the real locks that leads to the same queue: taking a lock is wait, token and id, recovering it from a dead owner all seven steps of the recovery |
| QueueOverLocks.QueueRunsAreRuns | msgqueue/Semaphore.h:146-220 | Every schedule of the queue without deaths and recoveries, failing waits included, is a schedule over the real locks with the same queue at its end |
| QueueProgress.StandstillIsFullOrEmpty | msgqueue/MessageQueue.h:110-227 | With two slots or more and no errors or crashes, a standstill is a full queue with only writers waiting or an empty one with only readers and clearers waiting |
| QueueSole.AsyncProducerNeverBlocks | msgqueue/MessageQueue.h:115-136 | For a sole writer, unless a wake-up wait of its own fails, a passed unlocked check still holds inside the lock, the lock is free when it gets there, and it never waits for a reader |
| QueueSole.AsyncConsumerNeverBlocks | msgqueue/MessageQueue.h:170-185 | The same for a sole reader when nobody else reads or clears |
| QueueSole.RefusalKeepsQueue | msgqueue/MessageQueue.h:193-198 | A Read is refused exactly when its buffer is smaller than the oldest message; then it returns -1, gives the lock back and leaves queue and memory as they were |
| QueueSole.RetryGetsTheMessage | msgqueue/MessageQueue.h:193-219 | After a refusal the sole consumer that comes back with room enough never waits, never hears that the queue is empty, and gets that very message first |
| QueueAnswers.BeginAnswers | msgqueue/MessageQueue.h:115-124 | An asynchronous call looks at the indices first; a blocking Write of a bad length returns -1 at once, and all else goes for its lock |
| QueueAnswers.AsyncAnswers | msgqueue/MessageQueue.h:117-127 | An asynchronous call answers 0 exactly when the ring looks full, or empty, -1 exactly for a bad length otherwise, and goes on to its lock in all other cases |
| QueueAnswers.AsyncWriteAnswers | msgqueue/MessageQueue.h:117-127 | For a sole writer the refusal comes exactly when all written but unread messages filled the ring as it loaded the tail |
| QueueAnswers.AsyncReadAnswers | msgqueue/MessageQueue.h:172-176 | For a sole reader it comes exactly when all messages written were consumed as it loaded the head |
| QueueAnswers.EndAnswers | msgqueue/MessageQueue.h:115-227 | An operation under way ends with the message's length, -1 or 0, only by giving its lock back, by a failed wait or by an unlocked check |
| QueueAnswers.WaitsMayEnd | msgqueue/MessageQueue.h:127-185 | A thread may die anywhere, and any wake-up wait may end without a token or in an error; the check is then made afresh |
| QueueAnswers.NothingElseBlocks | msgqueue/MessageQueue.h:110-227 | Operations begin at any time, indices are loaded in either order, and only a semaphore at 0 holds a thread up |
| QueueAnswers.WriteAlone | msgqueue/MessageQueue.h:115-163 | Undisturbed, with room and a free lock, a Write of a good length returns that length in either mode with its message last, the lock free again and readers posted to |
| QueueAnswers.WriteRefused | msgqueue/MessageQueue.h:117-136 | Undisturbed it returns 0 on a full ring in asynchronous mode, else -1 for a bad length, else it waits for readers |
| QueueAnswers.ReadAlone | msgqueue/MessageQueue.h:170-219 | Undisturbed, with a message and a free lock, a Read takes the oldest one and returns its length and posts, or returns -1 and changes nothing when its buffer is too small |
| QueueAnswers.ReadRefused | msgqueue/MessageQueue.h:172-185 | Undisturbed on an empty ring it returns 0 in asynchronous mode and waits for writers otherwise |
| QueueAnswers.ClearAlone | msgqueue/MessageQueue.h:221-227 | Undisturbed a Clear empties the queue, posts for writers and gives its lock back |
| MessageQueue.Segment.constructor | msgqueue/MessageQueue.h:45-54 | A new segment is empty, with its size field zero and all four semaphores at 1 |
| MessageQueue.CMessageQueue.constructor | msgqueue/MessageQueue.h:80-84 | A handle is in blocking mode over its segment |
| MessageQueue.CMessageQueue.Open | msgqueue/MessageQueue.h:80-104 | Attaching leaves whatever the queue holds; below 2^20 slots it succeeds exactly with the segment's own size, and the process exits otherwise |
| MessageQueue.CMessageQueue.SetMode | msgqueue/MessageQueue.h:229-233 | Anything that is not asynchronous is blocking, and the segment is not touched |
| MessageQueue.CMessageQueue.IsWrite | msgqueue/MessageQueue.h:110-113 | True exactly when fewer than queueSize-1 messages are held |
| MessageQueue.CMessageQueue.IsRead | msgqueue/MessageQueue.h:165-168 | True exactly when a message is held |
| MessageQueue.Segment.InMemory | msgqueue/MessageQueue.h:144-159 | The abstract queue is what the slots from tail to head hold, read as the step system reads them |
| MessageQueue.CMessageQueue.FillSlot | msgqueue/MessageQueue.h:144-145 | Length and bytes go into the head slot, whole, and into no other |
| MessageQueue.CMessageQueue.Store | msgqueue/MessageQueue.h:144-159 | Filling the head slot and moving the head appends the message |
| MessageQueue.CMessageQueue.Fetch | msgqueue/MessageQueue.h:200-215 | What comes out is the first message, and the rest stays |
| MessageQueue.CMessageQueue.AwaitRoom | msgqueue/MessageQueue.h:129-136 | The loop goes round only while the ring is full, ends with room or with the semaphore's error, leaves what readers left, and moves the wake-up count by the posts around each wait and the token it used |
| MessageQueue.CMessageQueue.AwaitMessage | msgqueue/MessageQueue.h:178-185 | The loop goes round only while the ring is empty, ends with a message or with the semaphore's error, leaves what writers added, and moves the wake-up count by the posts around each wait and the token it used |
| MessageQueue.PostsCount | msgqueue/Semaphore.h:207-220 | Each post counts, up to the cap where there is one |
| MessageQueue.WaitCounts | msgqueue/MessageQueue.h:131-161 | Without a cap no post around a wait is lost, and the wait uses up exactly one token when it is to and there is one |
| MessageQueue.AddedIs | msgqueue/MessageQueue.h:115-160 | What writers add meanwhile is a prefix of what they offer, of good lengths, and ends only at a bad one or a full ring |
| MessageQueue.CMessageQueue.Write | msgqueue/MessageQueue.h:115-163 | 0 exactly for a full queue in asynchronous mode, -1 exactly for a bad length or a wait that failed, be it for the lock or inside it, still blocked exactly when there is no token for the lock or the ring is still full, otherwise the length with the message behind what readers left and one post for readers; nothing is stored without the lock, which is kept exactly by an inner wait that failed or has not ended |
| MessageQueue.CMessageQueue.Read | msgqueue/MessageQueue.h:170-219 | 0 exactly for an empty queue in asynchronous mode, -1 exactly for a wait that failed or a buffer smaller than the oldest message, which stays, still blocked exactly when there is no token for the lock or the ring is still empty, otherwise that message and one post for writers; nothing is taken without the lock, which is kept exactly by an inner wait that failed or has not ended |
| MessageQueue.CMessageQueue.ReadLocked | msgqueue/MessageQueue.h:178-219 | The same from the moment the lock is had |
| MessageQueue.CMessageQueue.Deliver | msgqueue/MessageQueue.h:193-218 | The lock is given back in any case; a buffer smaller than the oldest message gets -1 and changes nothing else, a larger one gets that message whole |
| MessageQueue.CMessageQueue.Clear | msgqueue/MessageQueue.h:221-227 | Empties the queue and posts for writers once the read lock is had, or without it when the wait for it fails, in which case the lock ends with a token too many |
| SemaphoreRecovery.RecoveryExclusive | msgqueue/Semaphore.h:146-205 | With any number of waiters, crashes and recoveries kept to the timing rule, value plus live holders never exceeds one, and each token lost with its holder is taken over at most once |
| SemaphoreRecovery.ExclusiveIff | msgqueue/Semaphore.h:174-192 | From any good state a step leaves all its harmless continuations exclusive if and only if it is harmless itself |
| SemaphoreRecovery.TimelyIsHarmless | msgqueue/Semaphore.h:184-192 | If everybody who was in the window when the id was written has left it, the second look at the id is safe |
| SemaphoreRecovery.DoomedBreaks | msgqueue/Semaphore.h:184-192 | If somebody is about to take over a lock that is not lost, some run ends with two tokens |
| SemaphoreRecovery.TokenFlow | msgqueue/Semaphore.h:146-220 | Value plus holders changes only when a holder dies or leaves with its token, or a sleeper finds its own id, by one each |
| SemaphoreRecovery.WaitEndsIff | msgqueue/Semaphore.h:168-204 | Wait returns without the lock exactly for a failed semaphore wait or a failed round with the budget used up, goes round again exactly for a failed round with budget left, and returns with the lock exactly once its own id stands |
| SemaphoreRecovery.NobodyAsksForItself | msgqueue/Semaphore.h:177-184 | Over every run a thread past its self-test is not the published one and never probes itself |
| SemaphoreRecovery.RecoveryRefinesLock | msgqueue/Semaphore.h:146-220 | Seen from its users the protocol is a lock that is acquired, released, lost with a dying holder, or taken over when lost |
| SemaphoreRecovery.ExitAfterReleaseBreaks | msgqueue/Semaphore.h:184-192 | A thread that exits after it has released the lock, while the next holder has not published its id, lets a run from a new semaphore end with two tokens |
| SemaphoreRecovery.UnwrittenIdBreaks | msgqueue/Semaphore.h:70-72 | So does a waiter that looks at the id before anybody has ever written it |
| SemaphoreRecovery.ProbedExitBreaks | msgqueue/Semaphore.h:184 | So does a former holder that exits while a waiter still asks for it and another one is published |
| SemaphoreRecovery.ShortSleepBreaks | msgqueue/Semaphore.h:186-188 | So does a sleep that ends before another waiter has written its id |
| SemaphoreRecovery.RecoverableIff | msgqueue/Semaphore.h:174-192 | A lost lock comes back without another death if and only if its named owner is dead, somebody is about to write its id, or the named thread sleeps on its own claim |
| SemaphoreRecovery.WaiterServedIff | msgqueue/Semaphore.h:146-205 | Exactly then every waiter can still get it |
| SemaphoreRecovery.LoneWaiterIff | msgqueue/Semaphore.h:174-192 | By its own steps alone a waiter gets it if and only if the named owner is dead and nobody stands in an open window |
| SemaphoreRecovery.LoneWaiterRecovers | msgqueue/Semaphore.h:174-192 | It then takes six steps: one slice, the two looks at the id, the probe, its own id, and the look after the sleep |
| SemaphoreRecovery.OrphanedIff | msgqueue/Semaphore.h:169-186 | No run that spares the named thread brings a lost lock back, whoever else dies, if and only if that thread lives, does not sleep on a claim, and nobody in the window looks at any other |
| SemaphoreRecovery.OrphanIsReachable | msgqueue/Semaphore.h:168-170 | A holder that dies between its token and its id brings that about, in a run from a new semaphore |
| SemaphoreRecovery.OrphanedForever | msgqueue/Semaphore.h:169-186 | Such a lock stays lost in the same way, step after step, for as long as the named thread lives |
| SemaphoreWait.CSemaphore.Wait | msgqueue/Semaphore.h:146-205 | Slices never sum to more than a finite timeout, and a timeout return comes exactly when they make up the whole plan and the last round goes on, within max(1, ceil(t/1000)) rounds; success, timeout and error each come from the last round alone, a successful caller is published, and the id cell ends as the last write |
| SemaphoreWait.CSemaphore.Settle | msgqueue/Semaphore.h:168-196 | A round is won exactly by acquiring, or by finding another and dead owner and one's own id still there after the sleep; the winner is published, and a round that finds itself or a living owner writes nothing |
| SemaphoreWait.CellIs | msgqueue/Semaphore.h:168-196 | What one more round does to the id cell: an acquirer writes its id, a claimer writes its own until somebody writes over it, and all other rounds write nothing |
| SemaphoreWait.PlanUsesBudget | msgqueue/Semaphore.h:152-166 | A finite budget is cut into slices that add up to it, all but the last of exactly a second, as few as possible |
| SemaphoreWait.BudgetKept | msgqueue/Semaphore.h:152-166 | However early a wait ends it has asked for no more than its budget |
| SemaphoreWait.Deadline | msgqueue/Semaphore.h:60-68 | A deadline is a normalised timespec and equals the clock reading plus the slice |
| RingAttach.HandlesAgree | msgqueue/MessageQueue.h:80-104 | Below 2^20 slots exactly the callers with the first caller's size attach, and all have that ring size |
| RingAttach.AgreementIff | msgqueue/MessageQueue.h:84-94 | Another size can attach too if and only if the first asked for 2^20 slots or more |
| RingAttach.FirstDecides | msgqueue/MessageQueue.h:89-102 | After any number of constructors the segment keeps the first caller's size, and who stays is decided by it |
| RingAttach.SlotsFitIff | msgqueue/MessageQueue.h:84-88 | All slots lie in the bytes the segment was asked for if and only if there are fewer than 2^20 |
| AllocationForest.RunForest | LFSadmin/LFSadmin.cpp:130-200 | Over every run, with addresses reused as malloc likes, the live blocks are the disjoint union of roots and children, each in one place, none overlapping another |
| AllocationForest.ReleaseForest | LFSadmin/LFSadmin.cpp:177-200 | Freeing a root takes its whole group, nothing else, and leaves every other group whole |
| AllocationForest.Manager.LFMAllocateBuffer | LFSadmin/LFSadmin.cpp:130-150 | A zeroed new root; no out pointer and no memory are errors that leave all blocks as they were |
| AllocationForest.Manager.LFMAllocateMore | LFSadmin/LFSadmin.cpp:152-175 | A zeroed block attached to an existing root; no out pointer, an address that is no root and no memory are errors that leave all blocks as they were |
| AllocationForest.Manager.LFMFreeBuffer | LFSadmin/LFSadmin.cpp:177-200 | Frees each block of the group once and forgets the root; null and unknown addresses are errors that change nothing |
| AllocationForest.Manager.FreeAll | LFSadmin/LFSadmin.cpp:192-193 | The loop frees each child, once, and no other block |
| BumpAllocator.RegionsAreSafe | lfs/allocator.cpp:33-83 | For every sequence of requests without size overflow, among other clients' calls and the owners' writes, each object lies inside a block obtained from the manager, no two share a byte, and a new one is all zero |
| BumpAllocator.RequestCosts | lfs/allocator.cpp:33-83 | A request that fits under the hint costs nothing; any other costs one zeroed block as a root or child, of the hint when it is the first and the hint is larger, and of its own size else |
| BumpAllocator.CarveInsideIff | lfs/allocator.cpp:73-80 | A carved object lies inside the head block if and only if the 64-bit sum of sizes has not wrapped |
| BumpAllocator.WrapIsReachable | lfs/allocator.cpp:73-80 | After any first request of a byte or more there are second requests whose sum wraps, which are carved although they reach past the head block |
| BumpAllocator.ReleasesExactly | lfs/allocator.hpp:103 | Freeing the head pointer of an allocator without a source releases every block it obtained and no other |
| BumpAllocator.HeadPtrIsFirst | lfs/allocator.hpp:103 | Over every run headPtr() is where the first object lies, and null as long as there is none |
| BumpAllocator.HeadPtrFreesIff | lfs/allocator.hpp:103 | The manager accepts the head pointer for freeing if and only if the allocator was given no source |
| Allocator.Measures | lfs/allocator.cpp:60-83 | For any hint the counter ends as the sum of the requested sizes, and allocatedSize() reports it if and only if it fits an int |
| Allocator.SizeIsInt | lfs/allocator.hpp:160 | allocatedSize() is the counter modulo 2^32 in the range of an int |
| Allocator.PlacesInOneBlock | lfs/allocator.cpp:60-83 | With that sum or more as a positive hint the manager is asked once, and the i-th object is in the head block at the sum of the sizes before it |
| Allocator.MeasureThenPlace | lfs/allocator.hpp:160 | Measuring with any hint and then placing with what was measured takes one block of exactly that size, objects side by side |
| Allocator.Allocator.constructor | lfs/allocator.cpp:20-31 | An allocator starts with nothing carved, remembering whether its source was null |
| Allocator.Allocator.MgrAllocate | lfs/allocator.cpp:33-58 | One block from the manager as root or child, or an exception that changes nothing |
| Allocator.Allocator.Allocate | lfs/allocator.cpp:60-83 | Manager's memory, fields and returned region are those of one specified request |
| Allocator.Allocator.CreateArray | lfs/allocator.hpp:121-134 | An array is the request for its table, which holds exactly its pointers and the terminator where asked for, followed by one request an item, in that order, whatever the allocator has left, up to the first that is refused |
| Allocator.TableHolds | lfs/allocator.hpp:123-131 | Pointer i lies inside the table's region exactly for the n items and, where asked for, the terminator |
| Allocator.Allocator.CreateItems | lfs/allocator.hpp:128 | The loop makes one request an item, after the table's, and ends with the first that is refused |
| MultiString.RoundTripIff | lfs/allocator.cpp:101-127 | Splitting the buffer at NULs up to the empty string gives back the non-empty strings in order if and only if none contains a NUL |
| MultiString.SameBufferIff | lfs/allocator.cpp:101-127 | Two lists of NUL-free strings share a buffer exactly when their non-empty strings agree |
| MultiString.BufferIs | lfs/allocator.cpp:103-123 | The buffer is null exactly for the empty list; otherwise it has one NUL for each string that reaches it and one more at its end, and no other byte |
| MultiString.NonEmptyJoin | lfs/allocator.cpp:108-120 | What reaches the buffer of two lists one behind the other is what reaches it of each, in this order |
| MultiString.Create | lfs/allocator.cpp:101-127 | The nested loops build that buffer, null for an empty list, and a C reader gets the non-empty strings back |
| MultiString.CreateOne | lfs/allocator.cpp:85-91 | A C reader of the copy gets what it would get of the original, the whole string exactly when it has no NUL, and the rest of the copy stays zero |
| SessionMemory.IsolatedIff | LFSadmin/LFSadmin.cpp:348-374 | A call leaves every byte alone that is not in its caller's block or pid entry if and only if its service is at most 8704, or its handle's byte lies in the block, outside the segment, or is not set; calls without an index always do |
| SessionMemory.ReachesNeighbour | LFSadmin/LFSadmin.cpp:365-367 | Service 8704 d + s is service s of the process d slots on: its counter moves and its id is the answer |
| SessionMemory.EndsNeighbour | LFSadmin/LFSadmin.cpp:562-574 | Handle 139264 d + h is handle h of that process, and destroying it ends that one |
| SessionMemory.ReachesPids | LFSadmin/LFSadmin.cpp:365-367 | From the last seven slots a service number is an entry of the pid table, which moves on by one |
| SessionMemory.FullOpenOverwrites | LFSadmin/LFSadmin.cpp:783-804 | An open without a free slot keeps the services, answers 8193, makes handle 1 live, ends 2 to 8 and leaves its library's pointer in the next eight |
| SessionMemory.StartUpRefines | LFSadmin/LFSadmin.cpp:904-920 | On the bytes, the first free entry gets the pid and its slot reads as blank; everything else reads as before |
| SessionMemory.CleanUpRefines | LFSadmin/LFSadmin.cpp:439-454 | On the bytes, one entry of the pid table becomes free and all slots read as before |
| SessionMemory.CreateRefines | LFSadmin/LFSadmin.cpp:500-511 | On the bytes, the first free handle becomes live and everything else reads as before |
| SessionMemory.DestroyRefines | LFSadmin/LFSadmin.cpp:562-581 | On the bytes, a handle of at most 8192 ends, everything else reads as before, and the answer is that of the tables |
| SessionMemory.OpenRefines | LFSadmin/LFSadmin.cpp:763-805 | On the bytes, while a slot is free, the first one gets counter 1 and the library, everything else reads as before |
| SessionMemory.IssueRefines | LFSadmin/LFSadmin.cpp:357-374 | On the bytes, a service of at most 8192 has its counter moved on by one, modulo 2^64, and everything else reads as before |
| SessionRuns.RunSound | LFSadmin/LFSadmin.cpp:904-920 | Over all runs of calls that stay at home a process has at most one slot |
| SessionRuns.OthersUntouched | LFSadmin/LFSadmin.cpp:439-582 | A call of one process that stays at home leaves every byte of the others' blocks and pid entries as it is |
| SessionRuns.OthersUntouchedRun | LFSadmin/LFSadmin.cpp:763-805 | So does any run of such calls by other processes |
| SessionRuns.SessionLife | LFSadmin/LFSadmin.cpp:904-920 | Over all runs at home: cleaning up makes a process absent; a start answers already started exactly for a present process, internal error exactly for an absent one with no entry free, and success otherwise, after which the session is blank whoever had the slot |
| SessionRuns.SessionIdentity | LFSadmin/LFSadmin.cpp:348-374 | Within a session that keeps to its tables successful opens return distinct services, ids per service go up by one without a repeat, and a request succeeds exactly on an opened service, whatever others do at home and however many opens failed |
| SessionRuns.NeighbourMoves | LFSadmin/LFSadmin.cpp:365-367 | When k processes have started, one request of the last but one for service 8705 makes the first open of the last get service 2 |
| SessionRuns.PidsCollide | LFSadmin/LFSadmin.cpp:365-367 | When 58 or more have started, one request of the last gives process 2 two slots |
| SessionTables.CreatedIsFresh | LFSadmin/LFSadmin.cpp:490-517 | A created handle was not live, becomes live and disturbs no other; with a full table the answer depends on the caller's variable |
| SessionTables.DestroyedIsGone | LFSadmin/LFSadmin.cpp:555-582 | Destroying a handle of the table ends exactly that one; it reports success for a live handle and always for handle 1 |
| SessionTables.OpenIdRepeats | LFSadmin/LFSadmin.cpp:789-804 | The first request on a new service gets id 1 again, the id of its open |
| SessionAnswers.StartUpAnswers | LFSadmin/LFSadmin.cpp:904-920 | On any bytes: already started exactly for a process with an entry, an internal error exactly for another when no entry is free, success otherwise |
| SessionAnswers.CreateAnswers | LFSadmin/LFSadmin.cpp:490-517 | Not started exactly without an entry; the lowest free handle is the one created; with all taken the caller's variable decides between success and an internal error |
| SessionAnswers.DestroyAnswers | LFSadmin/LFSadmin.cpp:555-582 | An invalid handle exactly for 0, or with a session for any but 1 whose byte is not set; not started exactly for another without an entry; success otherwise |
| SessionAnswers.OpenAnswers | LFSadmin/LFSadmin.cpp:763-805 | Not started exactly without an entry, an invalid provider exactly when loading throws, otherwise the first service whose counter is 0, or the one past the end |
| SessionAnswers.IssueAnswers | LFSadmin/LFSadmin.cpp:348-374 | Not started exactly without an entry, success exactly with a library behind the service, and the id is the counter before it moves on, library or not |
| SessionAnswers.HandlesApart | LFSadmin/LFSadmin.cpp:490-582 | Calls for handles of the table leave the services of their caller alone |
| SessionAnswers.ServicesApart | LFSadmin/LFSadmin.cpp:763-805 | Opens with a slot free and requests within the table leave the handles of their caller alone |
| SessionManager.ShMemLayout.constructor | LFSadmin/LFSadmin.cpp:54-78 | A new segment is all zero |
| SessionManager.ShMemLayout.LFSStartUp | LFSadmin/LFSadmin.cpp:904-920 | In place, the bytes are those of the specification; already started exactly for a process with an entry, an internal error exactly for another when no entry is free, success otherwise |
| SessionManager.ShMemLayout.LFSCleanUp | LFSadmin/LFSadmin.cpp:439-454 | Takes the process out, and reports an error exactly when it had no session |
| SessionManager.ShMemLayout.LFSCreateAppHandle | LFSadmin/LFSadmin.cpp:490-517 | In place, the bytes are those of the specification; no out pointer is an error that changes nothing, and with one the answer is not started exactly without an entry, and an internal error exactly when the caller's variable ends as 0 |
| SessionManager.ShMemLayout.LFSDestroyAppHandle | LFSadmin/LFSadmin.cpp:555-582 | For any handle the byte at its address is cleared if it is set, and index 0 or a cleared byte is success |
| SessionManager.ShMemLayout.LFSAsyncOpen | LFSadmin/LFSadmin.cpp:763-805 | The first free slot, or what lies behind the last, is written whether loading succeeds or throws; service handle and id 1 only on success |
| SessionManager.ShMemLayout.GetLibAndRequest | LFSadmin/LFSadmin.cpp:348-374 | For any service the counter at its address moves on before the library behind it is looked at; a missing out pointer, service or session is an error that changes nothing |

## Left out

- Weak memory: loads and stores are sequentially consistent. A byte of a memcpy is one step; loads of head or tail by the thread whose lock guards them are merged with the slot access. The two loads of a check come in either order.
- Trace counters and their mismatch branch in `Write` and `Read`: the macro is off in the build.
- Recovery inside the queue's step system is one step that takes over a lost token and needs no dead owner, so it allows more than `CSemaphore` does; `RunsAreQueueRuns` shows that it allows no less, and `StepOverLocks` which of its steps the real locks make.
- Runs in which `Clear` goes on after a failed lock wait are not part of `Reachable`; `TokenLeakIff` and `InOrderIff` say what that step does.
- MessageQueue.CMessageQueue.Write: the count of the wake-up semaphore it does not wait on moves by its own post alone, as if no reader waited meanwhile; the step system has them all.
- MessageQueue.CMessageQueue.Read: the same for writers.
- SemaphoreWait.CSemaphore.Wait: an infinite wait is a finite prefix of its rounds (`StillWaiting`); the wait for the id segment to be mapped is left out.
- Thread ids used again after a thread has died; `/proc` probing is an atomic look at who is alive.
- Sizes refused by the operating system when a segment is attached.
- AllocationForest.Manager.LFMAllocateBuffer: null from malloc is modelled for zero bytes only, and so it is in LFMAllocateMore: for more, the source clears through the null pointer before it tests for it.
- Allocator.Allocator.Allocate: needs malloc to find a fresh block when it is asked for one. A block of zero bytes has an address of its own.
- Alignment of carved objects: the source makes no provision for it. `checkAndAssert`'s exception is the answer `Refused`.
- Wide-string conversions and the integral `createArray` overloads: one request each.
- Moves of `UniquePtr` and `Handle`: they overwrite a resource without releasing it.
- SessionRuns.SessionIdentity: needs free slots, service numbers of at most 8192 and a counter that does not wrap for the session's own opens and requests.
- What lies at addresses outside of the manager's segment, which only a handle can name: a flag says whether the byte is set, and a fault is not modelled. Index arithmetic is that of the declared layout, 8-byte pointers and counters, low byte first.
- The ini lookup and the provider calls around the table parts.
- Timers, `MsgWnd`, the synchronous wrappers, `LFMPostMessage` threads, the registry wrapper, versions, logging and ini files: plumbing, or no invariant to prove.
