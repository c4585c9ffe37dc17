# Queue delegation locking, modelled and proved in Dafny

A queue delegation (QD) lock lets a thread hand its critical section to the thread that
holds the lock. A call of `delegate` ends in one of three ways: it takes the mutex and runs
its section itself; it leaves the section in the holder's queue and returns; or it takes the
mutex in the retry loop and becomes the *helper*, which opens the queue, runs its own section
and then executes everything the others enqueue until it closes the queue.

The project models the protocol, the queues below it and the locks it is built on, and
proves what they promise over every interleaving of any number of threads.

## How it is organised

| files | what they hold |
|---|---|
| `TantrumQueue` | the shared state of `dual_buffer_queue`, one function per atomic access, with its invariant |
| `Delegation`, `DelegationInvariant` | `delegate`, `helper`, `executor`, `enqueue`, `flush`, `rlock`, `runlock` as a transition system, for `qdlock`, `mrqdlock`, `hqdlock` and `mrhqdlock` at once; the invariant in parts |
| `DelegationQueues`, `-Writers`, `-Calls`, `-Order`, `-Readers`, `-Steps` | one part of the invariant each, and that every step keeps all of it |
| `DelegationTheorems`, `DelegationCounter`, `DelegationRetries` | what follows: exclusion, exactly-once, real-time order, close and drain, tiling, bounds on the counter and on retries |
| `DelegationRoles`, `DelegationWaits`, `DelegationHappens` | who becomes a helper and who does not; what the waiting loops and the answers of enqueue mean; a run in which a call is delegated |
| `TantrumSpec`, `TantrumRefinement`, `EntryQueue`, `EntryQueueCalls` | the abstract tantrum queue; `dual_buffer_queue` in the running protocol refines it; `entry_queue` refines it, and what its calls answer |
| `Marshalling`, `EntryLayout`, `DualBufferQueue` | bytes and slots; the queue as a class with arrays and loops, every statement tied to an access of `TantrumQueue` |
| `McsFutexLock`, `-Chain`, `-Steps`, `-Theorems`, `McsLock` | the MCS lock with a tagged tail word and futex sleeping; the plain MCS lock as a refinement of it |
| `FutexLock`, `TicketFutexLock`, `MutexLock`, `LockContract` | the other locks, and the contract all of them meet |
| `QdLock`, `QdLockAttempts`, `QdLockTheorems` | `qdlock` and `mrqdlock` = delegation over `mcs_futex_lock`; which calls of the lock delegate makes; what carries over from the parts |
| `QdLockPaths`, `QdLockReaders`, `QdLockProgress`, `QdLockCompletion` | deadlock freedom of both, readers included |
| `ThreadIds`, `ReaderGroups` | thread numbers and the reader indicator, as classes |

The concurrent parts are transition systems: a program point per thread and one step per
access to shared state. History variables (the log of executed sections, the calls that had
returned when a call began, the list of reservations) are plain fields that no step reads to
decide what to do. The parts that work on arrays and fields without being interrupted half
way are classes and loops.

A lock appears in `Delegation` only through its contract (`LockContract`): one holder between the
return of a locking call and the call of `unlock`, and an answer false of `is_locked` only if the
lock was without a holder at some moment of that call. Each lock model proves it: `MeetsContract`
in all five, `mutex_lock` with its lagging flag included, and `FalseMeansFree` where `is_locked`
takes two loads.

## Assumptions

- Atomics are sequentially consistent and each step makes one atomic access.
- Queue slots start null; the constructors of the queues do not write them.
- An entry needs at least one and at most ENTRIES slots, and a slot has room for the four
  byte size field, which is all a padding entry may have.
- User sections, those of readers too, terminate and do not use the lock that runs them.
- Node addresses have bit 0 clear, so the tagged word is a pair of pointer and flag. The
  futex call on that word compares 32 bits, so it may also sleep on another flagged word;
  system calls may return for no reason.
- The fill at the end of `flush` clears whole slots. The program leaves out the last byte of
  the last slot, which is zero already in a code pointer.
- Counters are unbounded numbers. `CounterBound` and `AdditionDoesNotWrap` say when the
  delegation queue's unsigned counter cannot wrap; `ticket` and `serving` are assumed not to.
- A thread stays on its NUMA node.

Where code and comments differ, the model follows the code. `enqueue` is documented to return
CLOSED if the queue was closed explicitly and FULL if it is full; it also returns CLOSED for a
full open queue, and FULL if the queue was closed after the first check. The comment in `flush`
speaks of waiting for the size field; the code waits for the function pointer.

A comment in `hqdlock.hpp:404` asks whether it is enough for a reader to look at the global lock
only. It is: `ReadersExcluded` covers that variant, whose writers hold the global lock from before
the scan of the readers until after the flush.

A property that does not hold: in `ticket_futex_lock`, a thread inside `try_lock_or_wait` can
sleep on a free lock, with nobody to wake it. It can happen exactly if the ticket it reads first is
behind the serving number it reads second, that is, if the lock was released for a later ticket in
between (`StrandedExactly`, for all values of the two). The branch at line 86 does not tell this
case from a taken lock. Any other sleeper has somebody to wake it (`TrySleeperHasWaker`).

## Model

| member | source | states |
|---|---|---|
| DelegationTheorems.RealTimeOrder | qdlock_base.hpp:643-677 | in every run, if delegate(a) has returned before delegate(b) begins, then wherever b stands in the execution log, a stands before it |
| DelegationTheorems.LogRespectsReturns | examples/counter/counter_qd.cpp:32-35 | a logged section comes after those of all calls that had returned when its call began, which is what the empty marker section relies on |
| DelegationTheorems.BeganAfter | qdlock_base.hpp:643-677 | a call that begins after another has returned has it among its recorded predecessors |
| DelegationTheorems.RunningAfterReturned | qdlock_base.hpp:605-622 | when a section starts, directly, by the helper or from the queue, the sections of all earlier returned calls have finished, and it has not run before |
| DelegationTheorems.ExecutedOnce | qdlock_base.hpp:643-677 | no section is executed twice |
| DelegationTheorems.ReturnedIsExecutedOrHelped | qdlock_base.hpp:625-677 | a returned call is in the log, or in its node's queue while a helper that holds the mutex is draining it, and never both |
| DelegationRoles.PlainStaysOwn | mrqdlock.hpp:136-144 | a plain lock() is never handed over: in every reachable state it is in no queue, no thread is enqueueing it, and if it has returned it has been executed |
| DelegationRoles.PlainRunsItself | mrqdlock.hpp:136-144 | a plain lock() is run by its own thread, which holds its node's mutex, beside a closed queue |
| DelegationRoles.BothKindsBegin | mrqdlock.hpp:136-144 | in every reachable state an idle thread can call lock as well as delegate, and the call is recorded as what it is |
| DelegationRoles.DelegatedLocksLate | qdlock_base.hpp:654-674 | a call that is about to take the mutex by lock is a plain one, or the starvation_free policy is in force |
| DelegationRoles.RetryTakerHelps | qdlock_base.hpp:605-669 | over a run: a thread that takes the mutex in the retry loop has opened its node's queue, between the two steps, when it runs its own section, and is helping then |
| DelegationRoles.OtherTakerExecutes | qdlock_base.hpp:615-652 | over a run: a thread that takes the mutex at the first attempt or by lock runs its section beside a closed queue |
| DelegationHappens.DelegationHappens | qdlock_base.hpp:643-677 | for any two threads of a node there is a run in which one returns from delegate with its section only queued, and the other, helping, runs it later |
| DelegationTheorems.FlushedIsExecuted | qdlock_base.hpp:605-622 | when a node has no helper any more, every call that was returned there has been executed |
| DelegationTheorems.FreshIsUnexecuted | qdlock_base.hpp:625-641 | after a failed enqueue nobody else has executed the section or has it queued |
| DelegationTheorems.SectionsExclusive | qdlock_base.hpp:605-622 | sections never overlap, across threads, queues and nodes; the runner holds the mutex and, with a hierarchy, the global lock |
| DelegationTheorems.OneQueueOpen | hqdlock.hpp:30-37 | at most one node's queue is in use, and its helper holds the node's mutex and the global lock |
| DelegationTheorems.ReadersExcluded | mrqdlock.hpp:136-170 | no reader is between a successful rlock and runlock while a section runs, although the counters are scanned one at a time |
| DelegationTheorems.ScannedExcludes | mrqdlock.hpp:20-31 | a writer that has found every group empty once since it took the lock excludes readers until it lets the lock go, whether a section runs or not |
| DelegationWaits.ImpatienceRaises | mrqdlock.hpp:149-167 | a reader has raised the write barrier exactly if it has found the lock taken more often than its patience allows, and then the barrier is up |
| DelegationWaits.TurnsUsePatience | mrqdlock.hpp:155-163 | every turn of the waiting loop of rlock uses up patience, raises the barrier once when it is gone, or ends the loop on a free lock |
| DelegationWaits.WritersWait | mrqdlock.hpp:20-25 | over a run: while the barrier is up no waiting call gets past it |
| DelegationWaits.WritersGoOn | mrqdlock.hpp:20-25 | with the barrier down a call goes on, a plain one to lock, a delegated one to its first attempt |
| DelegationWaits.CountsOwnGroup | readindicator/reader_groups.hpp:26-31 | a reader moves the counter of its own group only, up by one when it arrives and down by one when it departs or leaves |
| DelegationTheorems.CountersExact | readindicator/reader_groups.hpp:26-31 | each group counter is the number of its readers, and the write barrier the number of readers that raised it |
| DelegationTheorems.QuietBetweenPeriods | queues/dual_buffer_queue.hpp:38-40 | between a flush and the next open the counter is at least ENTRIES, all slots are null and no enqueuer is in flight |
| DelegationTheorems.ReservationIsCovered | queues/dual_buffer_queue.hpp:60-84 | an enqueuer that got slots, whatever it had checked before, belongs to the current period and is within the final todo of its flush |
| DelegationWaits.ClosedForAReason | queues/dual_buffer_queue.hpp:91-101 | over a run: a queue is closed only because it is full, or because at an earlier moment of the flush everything reserved had been executed |
| DelegationWaits.CheckedRoom | queues/dual_buffer_queue.hpp:60-63 | the first check turns a call away exactly if its entry does not fit behind the counter it loads |
| DelegationWaits.AddedIfRoom | queues/dual_buffer_queue.hpp:64-84 | under both policies: the addition accepts a call exactly if its entry fits behind the counter it finds, pads a rest, and a failed compare-and-swap changes nothing |
| DelegationWaits.UndisturbedEnqueue | queues/dual_buffer_queue.hpp:56-77 | a call that finds room and is not disturbed returns after four steps of its thread, its entry published in its slots |
| DelegationTheorems.AwaitedSlotHasWriter | queues/dual_buffer_queue.hpp:102-108 | flush waits only for slots that some thread in flight is about to fill |
| DelegationTheorems.WritersDisjoint | queues/dual_buffer_queue.hpp:72-76 | the slots written by two enqueuers in flight do not overlap and lie inside the buffer |
| DelegationTheorems.ReservationsTile | queues/dual_buffer_queue.hpp:65-84 | every slot below the counter belongs to exactly one reservation, and only the last can be padding |
| DelegationTheorems.PeriodReservations | queues/dual_buffer_queue.hpp:64-84 | a period makes at most ENTRIES reservations, padding included |
| TantrumRefinement.HelpingBound | README.md:26-29 | in every run, from one open of a queue to the next, its flush appends at most ENTRIES sections of other threads to the log |
| DelegationTheorems.StepGrows | qdlock_base.hpp:643-677 | no step takes back an execution, a call record or a return |
| DelegationCounter.CounterBound | queues/dual_buffer_queue.hpp:60-71 | with T threads on a node and entries of at most M slots the counter never exceeds ENTRIES + (T - 1) * M |
| DelegationCounter.AdditionDoesNotWrap | queues/dual_buffer_queue.hpp:65-71 | under the resulting condition no addition to the unsigned counter wraps around |
| DelegationRetries.RetriesBounded | qdlock_base.hpp:654-671 | under the starvation_free policy no call makes more than 511 attempts before it falls back to lock |
| DelegationRetries.TriedEveryRound | qdlock_base.hpp:654-671 | over a run: a call in round r of the retry loop has tried to take the mutex in every round before |
| DelegationRetries.FallsBackLate | qdlock_base.hpp:654-674 | over a run: a delegated call falls back to lock only after it has tried in all 511 rounds |
| DelegationRetries.RefusalAdvances | qdlock_base.hpp:654-671 | every refused attempt takes the call exactly one round further |
| DelegationSteps.StepKeepsInv | qdlock_base.hpp:605-677 | every step of every thread keeps the whole invariant of the protocol |
| DelegationSteps.InitInv | queues/dual_buffer_queue.hpp:36 | the invariant holds when the queues have been constructed and all locks are free |
| DelegationSteps.ReachableInv | qdlock_base.hpp:605-677 | the invariant holds in every reachable state |
| DelegationQueues.EntryFacts | queues/dual_buffer_queue.hpp:104-112 | what flush finds at an entry is what the owner of the reservation stored there |
| DelegationQueues.NextEntry | queues/dual_buffer_queue.hpp:102-113 | the stored size takes flush to the next reservation head, never past todo |
| DelegationCalls.EntryHasReturned | queues/dual_buffer_queue.hpp:109-112 | a section taken from the queue belongs to a call whose thread has left delegate |
| DelegationOrder.EntersInOrder | qdlock_base.hpp:605-622 | a thread that enters the guarded region finds the sections of all earlier returned calls executed |
| DelegationReaders.ReadersOnOwn | readindicator/reader_groups.hpp:21-25 | the scan of the groups keeps readers apart from the groups already passed |
| DelegationReaders.ReadersOnCheck | mrqdlock.hpp:149-167 | a reader that passes the check of is_locked is not overlooked by any scan under way |
| TantrumQueue.ReserveKeeps | queues/dual_buffer_queue.hpp:65-84 | a fetch-and-add reserves the next slots, pads the rest, or changes nothing but the counter, and keeps the tiling |
| TantrumQueue.WriteEntryKeeps | queues/dual_buffer_queue.hpp:72-75 | storing size and arguments disturbs no other entry |
| TantrumQueue.WritePadKeeps | queues/dual_buffer_queue.hpp:79-80 | so does storing the size of the padding entry |
| TantrumQueue.PublishKeeps | queues/dual_buffer_queue.hpp:76-81 | a pointer becomes visible only over a complete entry |
| TantrumQueue.LoadTodoKeeps | queues/dual_buffer_queue.hpp:92-101 | a loaded counter, capped at ENTRIES, is the end of the last reservation |
| TantrumQueue.CloseKeeps | queues/dual_buffer_queue.hpp:94-97 | so is the exchanged one, and after it nothing can be reserved |
| TantrumQueue.AdvanceKeeps | queues/dual_buffer_queue.hpp:110-112 | the size of an executed entry leads to the start of the next |
| TantrumQueue.VisibleEntry | queues/dual_buffer_queue.hpp:104-112 | a non-null pointer at the flush position is the published entry with its size and operation |
| TantrumQueue.ReservationsDisjoint | queues/dual_buffer_queue.hpp:65-84 | because each reservation begins where the one before it ends, a slot belongs to at most one |
| TantrumQueue.SlotCovered | queues/dual_buffer_queue.hpp:65-84 | a slot below the end of the reservations belongs to one |
| TantrumQueue.StartAtLeast | queues/dual_buffer_queue.hpp:91-114 | k reservations take at least k slots, which bounds one flush |
| TantrumQueue.StartMonotone | queues/dual_buffer_queue.hpp:102-113 | later reservations start at larger slots, so flush meets them in order |
| TantrumSpec.FirstInFirstOut | queues/dual_buffer_queue.hpp:49-88 | in every history of an abstract tantrum queue, what was taken followed by what is pending is what was accepted |
| TantrumSpec.OpensEmpty | queues/dual_buffer_queue.hpp:38-40 | a queue is opened only when everything accepted has been taken |
| TantrumRefinement.StepRefines | queues/dual_buffer_queue.hpp:56-119 | each step of the protocol, with fetch-and-add or compare-and-swap, is one event of each node's abstract queue |
| TantrumRefinement.ReserveRefines | queues/dual_buffer_queue.hpp:65-84 | enqueue appends its operation or has no effect |
| TantrumRefinement.AdvanceRefines | queues/dual_buffer_queue.hpp:109-112 | running an entry takes the oldest operation, and padding takes none |
| TantrumRefinement.FlushMatches | queues/dual_buffer_queue.hpp:88-119 | what a step of flush takes is what it appends to the execution log |
| TantrumRefinement.RunRefines | queues/dual_buffer_queue.hpp:56-119 | every run of the protocol has an abstract history for each queue |
| TantrumRefinement.DelegatedInOrder | queues/dual_buffer_queue.hpp:87-119 | over a run each queue executes what it accepted, in order, and all of it once it is closed |
| EntryQueue.NextKeepsInv | queues/entry_queue.hpp:38-103 | every step of entry_queue keeps its invariant |
| EntryQueue.RunRefines | queues/entry_queue.hpp:38-103 | every run of entry_queue has an abstract history that takes what the flushes call |
| EntryQueue.EnqueueRefines | queues/entry_queue.hpp:50-69 | enqueue accepts an operation by its addition if the counter is below ENTRIES, otherwise not at all; for the answers of whole calls see CallAnswers |
| EntryQueueCalls.FlagFollowsHelper | queues/entry_queue.hpp:38-91 | over a run: the flag is OPEN from the second store of open to the store of CLOSED in flush and CLOSED otherwise, so CLOSED whenever no helper is at work; while it is OPEN the queue is live or full |
| EntryQueueCalls.CallAnswers | queues/entry_queue.hpp:50-69 | a whole call: if it loads CLOSED it returns at once and nothing has changed; if it loads OPEN it adds to the counter before it returns, and is accepted exactly if it finds the counter below ENTRIES |
| EntryQueueCalls.UndisturbedCall | queues/entry_queue.hpp:50-66 | a call on an open queue with a free entry is accepted, stored and published in its four steps, and nothing else changes |
| EntryQueueCalls.ClosedForAReason | queues/entry_queue.hpp:76-90 | over a run: the queue is closed only because it is full or because the flush has found nothing more to do |
| EntryQueueCalls.HelperAdvances | queues/entry_queue.hpp:73-110 | a flush ends: unless it waits for an unpublished entry, each of its steps makes a measure smaller that enqueuers cannot touch; having loaded a full counter it closes the queue before it calls anything more |
| EntryQueue.HelperRefines | queues/entry_queue.hpp:72-103 | open, flush and the clearing of entries are events of the abstract queue |
| EntryQueue.CalledInOrder | queues/entry_queue.hpp:71-103 | over a run the flushes call what was accepted, in order, all of it by the time the queue is idle |
| EntryQueue.IdleIsClean | queues/entry_queue.hpp:38-42 | between flush and open nobody is writing and every entry is free |
| EntryQueue.AwaitedSlotHasWriter | queues/entry_queue.hpp:88-93 | flush waits only for entries that an enqueuer is about to publish |
| Marshalling.UnpackRoundTrip | qdlock_base.hpp:92-114 | unpacking what forwardall wrote gives the same arguments in the same order and ends behind them |
| Marshalling.PromiseFollows | qdlock_base.hpp:478-488 | the pointer the unpackers leave behind is the promise |
| Marshalling.SlotsSuffice | queues/dual_buffer_queue.hpp:57-59 | size field and arguments fit in the computed number of slots and in no fewer |
| Marshalling.ConcatSize | util/type_tools.hpp:4-13 | the sum of the parameter sizes is the number of bytes forwardall writes |
| Marshalling.SizeFieldRoundTrip | queues/dual_buffer_queue.hpp:74-110 | an unsigned size written to the buffer is read back |
| Marshalling.ForwardAll | queues/dual_buffer_queue.hpp:42-48 | placing the arguments one by one writes exactly their concatenation and nothing else |
| Marshalling.Store | queues/dual_buffer_queue.hpp:45-46 | placing one object writes its bytes and nothing else |
| EntryLayout.UnmarshalRoundTrip | qdlock_base.hpp:257-279 | a wrapper called on a payload performs the call that was marshalled |
| EntryLayout.EntryBytesDisjoint | queues/dual_buffer_queue.hpp:74-76 | the bytes of an entry end before the next entry and inside the buffer |
| EntryLayout.RepClaimed | queues/dual_buffer_queue.hpp:72-84 | after an enqueue the arrays hold the old entries unchanged and the new one, or the padding |
| EntryLayout.EntryReadBack | queues/dual_buffer_queue.hpp:109-112 | flush reads at its position the size and the call that were stored there |
| DualBufferQueue.Queue.constructor | queues/dual_buffer_queue.hpp:36 | a new queue is closed |
| DualBufferQueue.Queue.Open | queues/dual_buffer_queue.hpp:38-40 | open starts an empty period by a store to the counter |
| DualBufferQueue.Queue.Enqueue | queues/dual_buffer_queue.hpp:56-85 | CLOSED exactly if the first load finds too few slots, and then nothing has changed; otherwise the counter moves by the slots and it is SUCCESS exactly if they were there behind the index the addition found; accepted last or not at all, and never on a closed queue |
| DualBufferQueue.Queue.Add | queues/dual_buffer_queue.hpp:65-84 | after the first check: SUCCESS exactly if the slots fit behind the counter, which moves by them in either case |
| DualBufferQueue.Queue.Claim | queues/dual_buffer_queue.hpp:66-84 | SUCCESS exactly if the slots were there at the addition; otherwise the gap is padded and nothing accepted |
| DualBufferQueue.Queue.Agree | queues/dual_buffer_queue.hpp:65-71 | under both policies, and however often others get in between, the index is the value the addition finds |
| DualBufferQueue.Queue.Execute | queues/dual_buffer_queue.hpp:104-111 | the stored size is read back and the pointer performs the next accepted call |
| DualBufferQueue.Queue.StoreEntry | queues/dual_buffer_queue.hpp:73-81 | size field, arguments and pointer go to the entry's own slots and nowhere else |
| DualBufferQueue.Queue.Flush | queues/dual_buffer_queue.hpp:88-119 | flush terminates, executes all accepted calls in order with their arguments, also those enqueued meanwhile, and leaves the queue closed with all slots null |
| DualBufferQueue.Queue.RunEntries | queues/dual_buffer_queue.hpp:102-113 | the inner loop executes the entries from done to todo in order |
| DualBufferQueue.Queue.RunEntry | queues/dual_buffer_queue.hpp:104-112 | one entry: the wrapper performs the next accepted call and the index moves to the next head |
| DualBufferQueue.Queue.LoadTodo | queues/dual_buffer_queue.hpp:92-101 | todo covers every reservation made so far; the last round has closed the queue |
| DualBufferQueue.Queue.Clear | queues/dual_buffer_queue.hpp:116-118 | the fill makes every slot null |
| McsFutexTheorems.MutualExclusion | locks/mcs_futex_lock.hpp:45-125 | at most one thread owns the lock |
| McsFutexTheorems.HeldIsLocked | locks/mcs_futex_lock.hpp:158-160 | is_locked is true while the lock is held, and nobody is in the chain while the word is free |
| McsFutexTheorems.TakesFreeWord | locks/mcs_futex_lock.hpp:45-152 | while the word is free, every step of a locking call takes the lock or brings it closer to taking it |
| McsFutexTheorems.FalseMeansTaken | locks/mcs_futex_lock.hpp:118-152 | try_lock answers false only on finding the lock taken; try_lock_or_wait goes to sleep only on a word it has found taken, which then carries the flag |
| McsFutexTheorems.HeadReturns | locks/mcs_futex_lock.hpp:57-75 | the head of the chain, once handed the lock, returns from lock by its own steps |
| McsFutexTheorems.SleepsWhenContended | locks/mcs_futex_lock.hpp:66-75 | a waiter that comes to its system call sleeps exactly if its node is still marked contended |
| McsFutexTheorems.UnlockEnds | locks/mcs_futex_lock.hpp:82-112 | unlock ends by its own steps, waiting at most for the link of a thread that has joined behind |
| McsFutexTheorems.FifoAcquisition | locks/mcs_futex_lock.hpp:50-75 | locking calls succeed in the order of the CASes on the word |
| McsFutexTheorems.ChainShape | locks/mcs_futex_lock.hpp:45-112 | the chain of distinct nodes ends in the word's pointer; neighbours are linked or the later one is about to store the link; only the head owns the lock |
| McsFutexTheorems.NodeSleeperIsWoken | locks/mcs_futex_lock.hpp:64-110 | a thread asleep on its node has it marked contended or its wake-up is on its way |
| McsFutexTheorems.WordSleeperIsWoken | locks/mcs_futex_lock.hpp:86-152 | a thread asleep on the word implies the flag or a pending notify_all, even with stale flags |
| McsFutexTheorems.TaggedWord | locks/mcs_futex_lock.hpp:82-100 | the word is never the bare flag and unlock re-enters itself at most once |
| McsFutexTheorems.FlagStays | locks/mcs_futex_lock.hpp:50-95 | the flag stays until the CAS that frees the word, which is followed by notify_all |
| McsFutexTheorems.WhoMoves | locks/mcs_futex_lock.hpp:45-152 | every wait inside the lock traces back to a thread that can move |
| McsFutexTheorems.LockNeverStuck | locks/mcs_futex_lock.hpp:45-152 | if a thread is inside a call, some thread holds the lock or can make a step |
| McsFutexTheorems.MeetsContract | locks/mcs_futex_lock.hpp:45-160 | the lock has one holder at a time, taken and given back by its own thread, and is_locked sees it |
| McsFutexSteps.StepKeepsInv | locks/mcs_futex_lock.hpp:45-152 | every step keeps chain, links, sleepers and order |
| McsLock.StepSimulates | locks/mcs_lock.hpp:42-115 | every step of mcs_lock is a sequence of steps of mcs_futex_lock |
| McsLock.RunSimulates | locks/mcs_lock.hpp:42-115 | every reachable state of mcs_lock is one of mcs_futex_lock |
| McsLock.CasSimulates | locks/mcs_lock.hpp:64-75 | the CAS of unlock is a step of mcs_futex_lock that reads the flag, which is clear, and then its CAS |
| McsLock.FailedCasHasSuccessor | locks/mcs_lock.hpp:68-79 | the CAS of unlock fails only if another thread has queued behind and has linked itself or is about to, so what the CAS finds is not the own node and unlock never calls itself |
| McsLock.MutualExclusion | locks/mcs_lock.hpp:42-115 | at most one holder, and is_locked is true while there is one |
| McsLock.TakesFreeLock | locks/mcs_lock.hpp:42-115 | while the lock is free, every step of a locking call takes it or brings it closer to taking it |
| McsLock.CallsAnswer | locks/mcs_lock.hpp:42-98 | try_lock answers false only on finding the lock taken; a waiter whose node is free has the lock at its next poll |
| McsLock.UnlockEnds | locks/mcs_lock.hpp:64-84 | unlock ends by its own steps, waiting at most for the link of a thread that has joined behind |
| McsLock.MeetsContract | locks/mcs_lock.hpp:42-115 | only the moving thread takes or gives back the lock, it takes it only if nobody holds it, and is_locked sees the holder |
| FutexLock.LockedIffOwned | locks/futex_lock.hpp:29-53 | the word is not free exactly while one thread, and only one, owns the lock |
| FutexLock.TakenOnlyWhenFree | locks/futex_lock.hpp:29-88 | lock, try_lock and try_lock_or_wait succeed only on a free lock |
| FutexLock.TakesFreeLock | locks/futex_lock.hpp:29-88 | while the lock is free, every step of a locking call takes it or brings it closer to taking it |
| FutexLock.FalseMeansTaken | locks/futex_lock.hpp:58-88 | try_lock answers false only on finding the lock taken; try_lock_or_wait gives up only after that, and only by way of its wait |
| FutexLock.SleepsWhenContended | locks/futex_lock.hpp:34-88 | a thread that comes to its system call sleeps exactly if the word is still contended |
| FutexLock.UnlockEnds | locks/futex_lock.hpp:47-52 | unlock frees the lock with its first step and wakes all sleepers before it returns if the word was contended |
| FutexLock.SleeperHasWaker | locks/futex_lock.hpp:47-116 | behind every sleeper there is an owner that will see the mark or a pending notify_all |
| FutexLock.MarkStays | locks/futex_lock.hpp:47-52 | the contended mark goes only with an unlock that notifies |
| FutexLock.NeverStuck | locks/futex_lock.hpp:29-88 | while a call is unfinished some awake thread can move |
| FutexLock.StepKeepsInv | locks/futex_lock.hpp:29-88 | every step keeps ownership and the sleepers' invariant |
| FutexLock.MeetsContract | locks/futex_lock.hpp:29-96 | the lock meets the contract of the delegation protocol |
| TicketFutexLock.TicketsDistinct | locks/ticket_futex_lock.hpp:34-75 | outstanding tickets lie between serving and ticket and have distinct owners; only the one being served owns the lock |
| TicketFutexLock.DifferenceCounts | locks/ticket_futex_lock.hpp:34-75 | serving is at most ticket and their difference is the number of holders and waiters |
| TicketFutexLock.ServedInOrder | locks/ticket_futex_lock.hpp:34-63 | calls succeed in the order of their tickets |
| TicketFutexLock.ServedCallReturns | locks/ticket_futex_lock.hpp:34-48 | a call of lock that has the ticket being served returns by its own steps |
| TicketFutexLock.TriesTakeFreeLock | locks/ticket_futex_lock.hpp:69-91 | try_lock takes a free lock whose word is not flagged, try_lock_or_wait any free lock, if nothing moves between the loads |
| TicketFutexLock.SleepsWhenUnchanged | locks/ticket_futex_lock.hpp:37-102 | a thread that comes to its system call has seen a flagged word and sleeps exactly if the word is still that one |
| TicketFutexLock.UnlockServesNext | locks/ticket_futex_lock.hpp:55-63 | unlock serves the next ticket without the flag and wakes all sleepers before it returns if the word was flagged |
| TicketFutexLock.SleeperIsWatched | locks/ticket_futex_lock.hpp:37-62 | a sleeper sleeps on the current flagged word or a notify_all is pending |
| TicketFutexLock.LockSleeperHasWaker | locks/ticket_futex_lock.hpp:34-62 | a thread asleep inside lock has an awake thread to move the queue on |
| TicketFutexLock.WhoMoves | locks/ticket_futex_lock.hpp:34-62 | while a ticket is outstanding the thread being served, or one about to notify, is awake |
| TicketFutexLock.TrySleeperHasWaker | locks/ticket_futex_lock.hpp:82-102 | a thread asleep inside try_lock_or_wait whose ticket, read first, was not behind the number read second has a waker: the lock is taken under the flag, or a notification is pending |
| TicketFutexLock.StrandedExactly | locks/ticket_futex_lock.hpp:82-102 | for all ticket values k and serving numbers m: a thread that read k, then m can end asleep with nobody to wake it if and only if k is less than m |
| TicketFutexLock.StaleTicketSleeps | locks/ticket_futex_lock.hpp:82-102 | for all k less than m, a run that ends with a thread asleep on a free lock and the only other thread outside |
| TicketFutexLock.StepKeepsInv | locks/ticket_futex_lock.hpp:34-102 | every step keeps tickets, sleepers and order |
| TicketFutexLock.MeetsContract | locks/ticket_futex_lock.hpp:34-102 | the lock has one holder at a time, taken and given back by its own thread |
| TicketFutexLock.FalseMeansFree | locks/ticket_futex_lock.hpp:108-110 | is_locked makes two loads, in either order; if it answers false nobody held the lock at some moment from the first to the second |
| MutexLock.MutualExclusion | locks/mutex_lock.hpp:14-40 | at most one thread is between a successful locking call and unlock |
| MutexLock.CallsAnswer | locks/mutex_lock.hpp:14-40 | lock takes a free mutex; try_lock gives up without trying only if the mutex is taken by another thread; both set the flag before they return |
| MutexLock.UnlockEnds | locks/mutex_lock.hpp:22-25 | unlock clears the flag before it gives the mutex back |
| MutexLock.FlagLags | locks/mutex_lock.hpp:26-36 | is_locked is wrong only while the owner is inside a locking call or inside unlock |
| MutexLock.HeldIsLocked | locks/mutex_lock.hpp:14-40 | if is_locked answers false no thread holds the lock |
| MutexLock.MeetsContract | locks/mutex_lock.hpp:14-40 | despite the lag the lock meets the contract that reader exclusion rests on |
| QdLock.StepKeepsInv | qd.hpp:33-34 | every step of the composed lock, with or without readers, keeps the invariants of both parts, and is a step of each part or leaves it alone |
| QdLock.RefinesParts | qd.hpp:33-34 | the two parts of every reachable state of the composition are reachable in the protocol and in the lock |
| QdLock.CheckPart | mrqdlock.hpp:149-167 | a load of the word of mcs_futex_lock answers a reader as the protocol allows |
| QdLockAttempts.SleepsRarely | qdlock_base.hpp:660-667 | delegate calls try_lock_or_wait in every 128th round and try_lock in its first attempt and all other rounds |
| QdLockAttempts.UndisturbedAttempt | qdlock_base.hpp:648-669 | an undisturbed attempt on a free lock takes it in three steps, the first as executor, one in the retry loop as helper |
| QdLockAttempts.CheckAnswers | mrqdlock.hpp:153-155 | a reader that has arrived and loads a free word is let in, otherwise it departs again, the barrier as before |
| QdLockAttempts.UndisturbedReader | mrqdlock.hpp:149-167 | an rlock that finds the lock free is in after three steps, counted once in its group |
| QdLockTheorems.ReadersExcluded | mrqdlock.hpp:136-170 | in mrqdlock over mcs_futex_lock no reader is inside while a section runs |
| QdLockTheorems.SectionsExclusive | qdlock_base.hpp:605-622 | sections do not overlap and whoever runs one holds mcs_futex_lock |
| QdLockTheorems.LogRespectsReturns | qdlock_base.hpp:643-677 | the execution log of the composed lock respects the order of returned calls |
| QdLockTheorems.ReadersCanEnter | mrqdlock.hpp:149-167 | from every reachable state a thread inside rlock can be let in |
| QdLockTheorems.FreeWhenDone | qdlock_base.hpp:643-677 | when all calls have returned the lock is free |
| QdLockReaders.ScanPasses | mrqdlock.hpp:26-30 | the wait for readers ends: every counted reader departs, let in or not, while the writer holds the lock |
| QdLockReaders.BarrierFalls | mrqdlock.hpp:20-25 | the wait at the write barrier ends while the lock is free: every reader that raised it gets in and lowers it |
| QdLockProgress.NoDeadlock | qdlock_base.hpp:643-677 | in qdlock and mrqdlock, from every reachable state with an unfinished call, steps of awake threads that change something lead to the return of one |
| QdLockProgress.UnlockFinishes | locks/mcs_futex_lock.hpp:82-112 | a thread in unlock can finish, waiting at most for a link that will come |
| QdLockProgress.HolderFinishes | qdlock_base.hpp:605-613 | the holder can wait out the readers, run its section, drain its queue and unlock |
| QdLockProgress.StoringFinishes | queues/dual_buffer_queue.hpp:72-77 | an enqueuer that got slots finishes on its own |
| QdLockProgress.CallerFinishes | qdlock_base.hpp:643-677 | while the lock is free a call can take it or be helped to its end |
| QdLockProgress.TakenFinishes | locks/mcs_futex_lock.hpp:45-112 | while the lock is taken the head of the chain can make progress |
| QdLockCompletion.AllCallsCanReturn | qdlock_base.hpp:643-677 | from every reachable state all calls that have begun can return |
| ThreadIds.ThreadIdStore.Get | threadid.hpp:13-24 | get returns the smallest number not in use and takes exactly that |
| ThreadIds.ThreadIdStore.Free | threadid.hpp:25-35 | free gives back exactly its number and shrinks the maximum past orphans |
| ThreadIds.ThreadIdStore.First | threadid.hpp:19-20 | the first orphan is the smallest |
| ThreadIds.SmallestFreeIsSmall | threadid.hpp:13-24 | a number handed out is at most one more than the count of those in use |
| ThreadIds.MaxInUse | threadid.hpp:25-35 | the maximum is the largest number in use |
| ReaderGroups.Indicator.Query | readindicator/reader_groups.hpp:21-25 | false means the groups were found empty one after the other, each at its own moment of the scan; true that a reader was there; undisturbed, it is true exactly if a reader is there |
| ReaderGroups.Indicator.Arrive | readindicator/reader_groups.hpp:26-28 | the counter of the thread's group is one more, every other counter the same, and each counter equals the arrivals less the departures of its group |
| ReaderGroups.Indicator.Depart | readindicator/reader_groups.hpp:29-31 | the counter of the thread's group is one less, every other counter the same, and each counter equals the arrivals less the departures of its group |
| ReaderGroups.GroupCountsVisitors | readindicator/reader_groups.hpp:26-31 | over any history, the count of a group is the sum over its threads of how often each has arrived without departing |
| ReaderGroups.QuietScan | readindicator/reader_groups.hpp:21-25 | a scan during which nothing happens is a snapshot |
| ReaderGroups.MissesExactly | readindicator/reader_groups.hpp:21-25 | that all groups were found empty means that there was a moment without readers if and only if there is one group |
| ReaderGroups.ScanIsNotASnapshot | readindicator/reader_groups.hpp:21-25 | for any number of groups from two on, the arrivals and departures during an ordered scan that show it, no counter ever being negative |

## Left out

- `queues/buffer_queue.hpp`: its function maps are copied on write and reclaimed at flush; the same queue idea is modelled through dual_buffer_queue.
- `queues/simple_locked_queue.hpp` and `qd_condition_variable.hpp`: a mutex around a standard queue, and a file that is marked unfinished.
- `locks/tatas_lock.hpp`, `locks/pthreads_lock.hpp`, `locks/waitable_lock.hpp`: they would only repeat the argument of mutex_lock.
- Fairness: no call is proved to return under every schedule. Sleepers on the lock word are woken only when the lock becomes free, and handovers can postpone that for ever. What is proved is that no state is a dead end.
- Deadlock freedom is proved for `qdlock` and `mrqdlock` over mcs_futex_lock, not for the variants with several nodes under a global lock.
- Weak memory orders, cache line padding, `pause`, and the system calls themselves.
- `std::promise` and `std::future`: a promise is a sequence of bytes that reaches the wrapper unchanged.
- The families of `delegate_n`, `delegate_f`, `delegate_p`, `delegate_fp` and `execute` overloads: one abstract operation stands for them.
- Threads that move to another NUMA node between `lock` and `unlock` of hqdlock, and the set-up of the node map.
- `mcs_futex_lock::wake` and the specialised wait of waitable locks: `delegate` does not call them.
- DualBufferQueue.Queue.Enqueue: other threads interfere between its accesses only with whole enqueues; enqueues interrupted half way are covered by `Delegation`.
- DualBufferQueue.Queue.Flush: for the same reason the wait for an unpublished pointer ends at its first load here; waiting is covered by `DelegationTheorems.AwaitedSlotHasWriter` and `QdLockProgress`.
- TicketFutexLock.SleeperIsWatched: that a pending notification or the current word covers a sleeper does not mean it is woken; for try_lock_or_wait see `StrandedExactly`.
- EntryQueue: the copying of arguments into an entry is one step that stores the operation.
