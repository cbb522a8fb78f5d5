# Eddy: verified models of the runtime's shared-state protocols

Eddy is an async runtime made of small protocols over shared state. This project models the
hardest of them in Dafny and proves what each one promises, for every run.

| modules | what they model |
|---|---|
| `Options`, `Bits`, `TaskWord` | absent values, bit operations, the packed task word and its compare-and-swap transitions |
| `TaskProtocol`, `TaskTheorems`, `TaskGuarantees`, `TaskResults`, `TaskReclaim` | one task under every interleaving of polls, wakes, aborts, joins, queue entries, scheduler shutdown and deallocation; where its result comes from, and who reads the cell too late |
| `Tally`, `Waiters`, `Semaphore`, `SemaphoreState`, `Mutex`, `RwLock`, `RwLockState`, `Mpsc`, `MpscState` | the primitives with waiter queues, futures dropped at any point |
| `Rings`, `Uring`, `UringAnswers`, `UringState` | the rings shared with the kernel, and who owns an operation's resource |
| `ReadyWord`, `ScheduledIo`, `ScheduledIoState` | a readiness registration with lock-free clears |
| `RunQueues`, `ParkProtocol` | the current-thread scheduler: fairness and sleeping |
| `Wire`, `Events`, `FrameCodec`, `FrameEncoder`, `Framing`, `WireFormat` | the event encoder of the runtime against the incremental decoder of the console |
| `Broadcast`, `BroadcastState` | the broadcast ring against an endless log |
| `ByteStreams`, `CopyStreams` | buffered streams under arbitrary partial progress |

## How the models are built

An operation that the source runs under a lock, or a single atomic access, is one step: a function
from state to state. A run is any sequence of steps that are enabled, so a theorem about runs is a
theorem about every interleaving. The invariant of each protocol is split into named predicates;
every step has its own lemma, and an induction over runs gives the main theorems. Where the source
updates an object in place, a class does the same with the same branches and loops, and its
contracts equate the new state with the step function of the old one.

Handles, threads and references of one kind are interchangeable and are counted in the task
model; the thread that works on the stage is a single agent, and a step that would need a second
one, break an assertion of the runtime, underflow a count or touch a freed cell raises a fault
flag that is proved never to rise. One access is kept apart, because it does come too late: the
wake of the owner behind an entry whose reference was handed over raises a flag of its own. History fields (`ledger`, `accepted`, `received`, `log`,
`started`, `released`, `history`) exist to state the theorems only.

Atomics are sequentially consistent. The kernel of io_uring is an environment: it takes requests
and answers each one once, at any time, with any result. Two promises of it are used: a
cancellation answers zero exactly when it found its operation in flight and stopped it, and an
operation stopped that way is not touched any more and answers with an error. A reader or a writer
at the far end of a stream is known by its contract alone.

## Where the code does less than one might expect

* Tasks: after pushing an entry from outside the owner's fast path, a thread wakes the owner through
  the scheduler handle stored in the task's cell (crates/eddy/src/scheduler/current_thread.rs:116-118
  and 316-317). A wake by value has given its reference to that entry, a deferred deallocation its
  last one to the queue, so the owner may have freed the cell by then. It can happen exactly in these
  two cases (`TaskReclaim.TooLateIff`), in a run from spawn (`TaskReclaim.FreedCellIsRead`), and not
  while anybody else owns the cell (`TaskReclaim.UnparkIsSafeIff`).
* Semaphore: dropping a queued request does not run the grant loop again; that, at the head and with
  a next request that fits, is the only operation that leaves somebody parked who could be served
  (`Semaphore.StepStrandsIff`, `Semaphore.BlockedThroughoutIff`).
* RwLock: dropping a queued writer at the front leaves the readers behind it parked although the
  lock is only shared, and nothing else does (`RwLock.StepStrandsIff`, `RwLock.ParksNoReaderIff`).
* Mpsc: permits do not count as senders, so a permit can still send, successfully, to a receiver
  that was told the channel ended (`Mpsc.PermitItemReceivableIff`).
* Readiness: the documentation gives the generation 32 bits, the shift by 33 leaves 31. A
  registration numbered 2^31 or above hears no event until it is armed again, which only
  edge-triggered ones are (`ReadyWord.DispatchedIff`), and once the top bit is gone a stale event is
  taken for the registration 2^31 later (`ReadyWord.StaleDispatchedIff`). A test
  (crates/eddy/src/io/driver.rs:696) promises that a clear does not consume a freshly reported event;
  it does whenever the stored bits are those of the snapshot again (`ScheduledIo.ClearErasesIff`,
  `ScheduledIo.ReportSurvivesClearIff`, `ScheduledIo.ReportAfterOtherClearIsErased`).
* Codec: the encoder accepts payloads below 2^32 bytes, the console refuses those above 16 MiB
  (`FrameCodec.RefusedIff`); a push that fails drops the events it had decoded itself
  (`Framing.FailureDelivers`).
* Broadcast: `try_recv` reports the end of the channel before the values still buffered, the future
  after them (`Broadcast.TryRecvAgreesIff`); dropping the last sender wakes no receiver
  (`Broadcast.WaiterIsNotToldOfTheEnd`).
* Scheduler: at the wrap of the tick counter two due ticks are 57 calls apart instead of 61
  (`RunQueues.DuesAreSpaced`).

## Model

| member | source | states |
|---|---|---|
| `TaskWord.InitialWord` | crates/eddy/src/task/state.rs:122-137 | a new word holds two references, join interest and NOTIFIED, and no other flag |
| `TaskWord.Tests` | crates/eddy/src/task/state.rs:26-55 | each mask test of the packed word answers for its own flag and no other |
| `TaskWord.FlagWrite` | crates/eddy/src/task/state.rs:57-83 | setting or clearing any flag leaves the count and every other flag alone |
| `TaskWord.CountWrite` | crates/eddy/src/task/state.rs:298-320 | reference arithmetic moves the count by one and disturbs no flag |
| `TaskWord.RunningPacked` | crates/eddy/src/task/state.rs:165-178 | on the packed word, the closure makes exactly the idle-to-running transition, or refuses and changes nothing |
| `TaskWord.IdlePacked` | crates/eddy/src/task/state.rs:180-199 | on the packed word, running to idle, with the cancelled and notified outcomes |
| `TaskWord.CompletePacked` | crates/eddy/src/task/state.rs:201-219 | completion sets COMPLETE and clears RUNNING and NOTIFIED only; the snapshot returned is the new word |
| `TaskWord.NotifyPacked` | crates/eddy/src/task/state.rs:221-255 | both notifications decide alike; by reference a submitted entry gets one new reference, by value none |
| `TaskWord.FlagTransitionsPacked` | crates/eddy/src/task/state.rs:257-296 | cancellation, join interest and join waker writes touch their own flag; a join waker is refused once complete |
| `TaskWord.State.FetchUpdate` | crates/eddy/src/task/state.rs:144-163 | the compare-and-swap loop is one application of the closure to the last word it saw, whatever others store between its attempts |
| `TaskWord.State.TransitionToRunning` | crates/eddy/src/task/state.rs:165-178 | the call is the atomic idle-to-running transition of one observed word |
| `TaskWord.State.TransitionToIdle` | crates/eddy/src/task/state.rs:180-199 | the call is the atomic running-to-idle transition of the last observed word |
| `TaskWord.State.TransitionToComplete` | crates/eddy/src/task/state.rs:201-219 | the call completes the last observed word and returns the new snapshot |
| `TaskWord.State.TransitionToNotifiedByRef` | crates/eddy/src/task/state.rs:221-236 | one atomic notification; the submitted entry has its own reference |
| `TaskWord.State.TransitionToNotifiedByVal` | crates/eddy/src/task/state.rs:238-255 | one atomic notification that takes no reference |
| `TaskWord.State.SetCancelled` | crates/eddy/src/task/state.rs:257-263 | sets CANCELLED on the last observed word and returns what it saw |
| `TaskWord.State.UnsetJoinInterest` | crates/eddy/src/task/state.rs:265-273 | clears join interest on the last observed word and returns what it saw |
| `TaskWord.State.SetJoinWaker` | crates/eddy/src/task/state.rs:275-286 | sets the join waker flag unless the word seen is complete |
| `TaskWord.State.RefInc` | crates/eddy/src/task/state.rs:298-307 | adds one to the count; the process aborts exactly when the previous count had reached the bound |
| `TaskWord.State.RefDec` | crates/eddy/src/task/state.rs:309-320 | takes one from the count; true for exactly the caller that took the last reference |
| `TaskTheorems.SpawnedInv` | crates/eddy/src/task/mod.rs:135-166 | the state after spawn satisfies the invariant |
| `TaskTheorems.WakeByRefKeeps` | crates/eddy/src/task/raw.rs:274-286 | waking by reference keeps the invariant and delays no pending answer |
| `TaskTheorems.WakeByValKeeps` | crates/eddy/src/task/raw.rs:258-270 | waking by value keeps it: the reference goes to the queue entry or is about to be dropped |
| `TaskTheorems.RunEntryKeeps` | crates/eddy/src/task/harness.rs:24-48 | running a queue entry keeps it: it starts the only poll, finishes a cancelled task, or drops a stale entry |
| `TaskTheorems.GoIdleKeeps` | crates/eddy/src/task/harness.rs:135-151 | going idle keeps it: the reference is dropped, reused for the requeued entry, or kept for cancellation |
| `TaskTheorems.FinalizeCompleteKeeps` | crates/eddy/src/task/harness.rs:157-199 | marking a task complete keeps it |
| `TaskTheorems.AbortByHandleKeeps` | crates/eddy/src/task/harness.rs:334-373 | an abort keeps it (TaskResults.AbortCancels says what it stores) |
| `TaskTheorems.JoinPollKeeps` | crates/eddy/src/task/harness.rs:281-320 | the first locked step of a join poll keeps it |
| `TaskTheorems.JoinDropKeeps` | crates/eddy/src/task/join.rs:122-129 | the first step of dropping a join handle keeps it |
| `TaskTheorems.ReleaseKeeps` | crates/eddy/src/task/raw.rs:244-248 | giving one reference back keeps it, and the last one starts the only deallocation |
| `TaskTheorems.DeallocKeeps` | crates/eddy/src/task/harness.rs:226-241 | deallocating at once, or pushing a deferred entry and going on to wake the owner, keeps it |
| `TaskTheorems.StepKeeps` | crates/eddy/src/task/harness.rs:24-373 | every step of every thread keeps the invariant and moves no pending answer away, and all but the wakes behind a handed-over entry are taken on a cell not yet freed |
| `TaskTheorems.UnparkBorrowingKeeps` | crates/eddy/src/scheduler/current_thread.rs:86-119 | a thread that woke by reference wakes the owner through a living cell |
| `TaskTheorems.HandedOverKeeps` | crates/eddy/src/scheduler/current_thread.rs:305-317 | the wake behind a by-value or deferred entry keeps the invariant, and is recorded as dangling exactly when the cell was freed |
| `TaskTheorems.RunKeeps` | crates/eddy/src/task/harness.rs:24-373 | the invariant holds after every run from spawn |
| `TaskGuarantees.ReferencesAreExact` | crates/eddy/src/task/state.rs:298-320 | in every interleaving the count equals the number of live owners; no assertion fails, no count underflows, and the poll of a stage that is not running is never reached |
| `TaskGuarantees.FreedOnceAndLast` | crates/eddy/src/task/raw.rs:244-254 | the cell is freed at most once, with no owner left, and nothing can follow but the wake behind an entry whose reference was handed over |
| `TaskGuarantees.LastOwnerFrees` | crates/eddy/src/task/harness.rs:226-241 | when every owner is gone the cell is freed or its deallocation is under way |
| `TaskGuarantees.NoWakeIsLost` | crates/eddy/src/task/state.rs:165-255 | for a live task NOTIFIED without RUNNING is exactly one outstanding queue claim, RUNNING is none, and an unanswered wake is still recorded |
| `TaskGuarantees.DutyAdvances` | crates/eddy/src/task/harness.rs:24-155 | while a wake or cancellation is unanswered, the next step of the responsible thread can be taken and brings the answer nearer |
| `TaskGuarantees.NothingDelays` | crates/eddy/src/task/harness.rs:24-155 | no step of any other thread moves the answer further away |
| `TaskGuarantees.EveryWakeIsAnswered` | crates/eddy/src/task/harness.rs:135-155 | in every run the responsible threads take at most seven steps before a wake has been followed by a new poll, completion, or the entry being thrown away |
| `TaskGuarantees.FinalizedOnce` | crates/eddy/src/task/harness.rs:157-199 | the output is stored once and the task completes once under any race of poll, wake and abort |
| `TaskGuarantees.CancelledMakesNoClaim` | crates/eddy/src/task/state.rs:221-263 | cancellation is final, creates no queue entry afterwards, and leaves somebody to finish the task |
| `TaskGuarantees.OutputLeavesOnce` | crates/eddy/src/task/harness.rs:212-217 | an output leaves the cell at most once and unchanged; a quiet finished task has given it away exactly when its join handle is gone |
| `TaskGuarantees.JoinWakerIsWoken` | crates/eddy/src/task/harness.rs:201-332 | every join waker stored was woken, superseded or is still stored, and a quiet finished task stores none |
| `TaskResults.ResultIsEarned` | crates/eddy/src/task/harness.rs:73-199 | over every run the result stored is what happened: the output a poll returned, the panic of a poll, or a cancellation, and the last only if no poll ever returned |
| `TaskResults.ReturnedIsResult` | crates/eddy/src/task/harness.rs:73-199 | what a poll returned is the result stored, whatever aborts come in between |
| `TaskResults.AbortCancels` | crates/eddy/src/task/harness.rs:334-373 | an abort cancels, and finalizes on the spot, with the cancellation, exactly when the task is neither complete, cancelled, running nor notified |
| `TaskResults.CancelledStaysCancelled` | crates/eddy/src/task/harness.rs:24-48 | once a task is cancelled while no poll has been begun, no poll ever returns, over every run |
| `TaskResults.JoinPollAnswers` | crates/eddy/src/task/harness.rs:281-320 | polling the join handle takes the result exactly when there is one, always for a complete task, and else stores the waker |
| `TaskResults.WakersAreNotThrownAway` | crates/eddy/src/task/harness.rs:201-332 | a stored join waker is given up unwoken only for a newer one or with its handle |
| `TaskResults.WakeIsRemembered` | crates/eddy/src/task/state.rs:221-255 | a wake of a live task sets NOTIFIED and leaves a poll owed |
| `TaskResults.WakeIsForgottenByPoll` | crates/eddy/src/task/harness.rs:24-48 | an owed poll is forgotten only when a poll of the task begins |
| `TaskResults.HandlesWork` | crates/eddy/src/task/waker.rs:90-115 | whoever has a waker, an entry, an abort handle or an idle join handle can use it |
| `TaskResults.DoneIsUnregistered` | crates/eddy/src/task/harness.rs:177-183 | the registry lets go of a task when it is done, over every run |
| `TaskReclaim.CanBeFreed` | crates/eddy/src/task/harness.rs:226-241 | from every state with a living cell some run frees it, in which no thread behind a handed-over entry gets to wake the owner: nothing keeps a cell alive for good |
| `TaskReclaim.AliveIff` | crates/eddy/src/task/raw.rs:244-248 | the cell lives exactly as long as somebody owns it or its deallocation is still under way |
| `TaskReclaim.BorrowedIsPinned` | crates/eddy/src/task/raw.rs:274-286 | a thread that woke by reference and still has to wake the owner finds the cell alive |
| `TaskReclaim.UnparkIsSafeIff` | crates/eddy/src/scheduler/current_thread.rs:86-119 | waking the owner behind a push is safe exactly while somebody owns the cell or its deallocation is under way; behind a wake by reference always |
| `TaskReclaim.TooLateIff` | crates/eddy/src/scheduler/current_thread.rs:108-119 | in every reachable state with a living cell, a thread behind a push can find the cell freed exactly when it pushed by value or deferred a deallocation |
| `TaskReclaim.DangledIff` | crates/eddy/src/scheduler/current_thread.rs:86-90 | a step reads a freed cell exactly when a thread that handed its reference over takes it after the free |
| `TaskReclaim.WakeByValueReadsFreedCell` | crates/eddy/src/task/harness.rs:219-224 | every waiting task whose only owner is one waker has a run, begun by using that waker by value, that reads the freed cell |
| `TaskReclaim.FreedCellIsRead` | crates/eddy/src/scheduler/current_thread.rs:108-119 | a concrete run from spawn that reads the freed cell |
| `Semaphore.GrantServesPrefix` | crates/eddy/src/sync/semaphore.rs:187-210 | the grant loop serves a prefix of the queue and stops only at a head that asks for more than is available |
| `Semaphore.GrantMarks` | crates/eddy/src/sync/semaphore.rs:187-210 | exactly the served futures are marked granted |
| `Semaphore.GrantBalances` | crates/eddy/src/sync/semaphore.rs:187-210 | granting moves permits and loses none |
| `Semaphore.PollKeeps` | crates/eddy/src/sync/semaphore.rs:88-143 | polling an acquire keeps conservation, the queue and the blocked head |
| `Semaphore.DropFutureKeeps` | crates/eddy/src/sync/semaphore.rs:145-159 | dropping an acquire at any point keeps conservation; a granted one gives its permits on |
| `Semaphore.DropPermitKeeps` | crates/eddy/src/sync/semaphore.rs:176-184 | dropping a permit keeps conservation and leaves no servable head |
| `Semaphore.TryAcquireKeeps` | crates/eddy/src/sync/semaphore.rs:264-282 | try_acquire_many keeps conservation and takes nothing past a waiter |
| `Semaphore.PollAnswers` | crates/eddy/src/sync/semaphore.rs:88-143 | a poll acquires exactly when granted, or open with nobody waiting and the permits there; then and only then one more holder has exactly those permits; it fails exactly when closed before a grant, and else waits in the list |
| `Semaphore.PermitAnswers` | crates/eddy/src/sync/semaphore.rs:176-310 | try_acquire_many succeeds exactly when open with nobody waiting and the permits there, and takes exactly those; a dropped or forgotten permit is held no more; close empties the list |
| `Semaphore.StepKeeps` | crates/eddy/src/sync/semaphore.rs:88-310 | every operation keeps the invariant; with one-permit requests also the blocked head (StepStrandsIff says when otherwise) |
| `Semaphore.StepLosesNothing` | crates/eddy/src/sync/semaphore.rs:187-188 | the saturating addition cuts nothing off while all permits fit a word |
| `Semaphore.PermitsAreConserved` | crates/eddy/src/sync/semaphore.rs:88-310 | over every run available, held, granted and forgotten permits add up to the initial ones plus those added |
| `Semaphore.NobodyParkedWhilePermitFree` | crates/eddy/src/sync/semaphore.rs:187-210 | with one-permit requests a non-empty wait list implies that no permit is available, over every run |
| `Semaphore.DropLeavesParkedIff` | crates/eddy/src/sync/semaphore.rs:145-151 | dropping a queued request leaves a servable waiter parked exactly when it was the head and the next fits into what is available |
| `Semaphore.StepStrandsIff` | crates/eddy/src/sync/semaphore.rs:88-310 | for every operation and requests of any size, the head stays blocked exactly unless the operation is that drop |
| `Semaphore.BlockedThroughoutIff` | crates/eddy/src/sync/semaphore.rs:88-310 | over whole runs nobody who could be served is ever parked, exactly when no step is such a drop |
| `Semaphore.ParkedBehindDroppedRequest` | crates/eddy/src/sync/semaphore.rs:145-151 | a concrete run that leaves a one-permit waiter parked with two permits available |
| `SemaphoreState.Inner.GrantLoop` | crates/eddy/src/sync/semaphore.rs:187-210 | the in-place loop is the grant function, and wakes the prefix it takes off the list |
| `SemaphoreState.Inner.PollAcquire` | crates/eddy/src/sync/semaphore.rs:88-143 | the poll in place is the poll on values |
| `SemaphoreState.Inner.DropAcquire` | crates/eddy/src/sync/semaphore.rs:145-159 | the drop in place is the drop on values; those it wakes and those left waiting are together the others of the list, in order |
| `SemaphoreState.Inner.CloseAll` | crates/eddy/src/sync/semaphore.rs:294-310 | close empties the wait list and wakes everybody on it, in order |
| `Mutex.AtMostOneGuard` | crates/eddy/src/sync/mutex.rs:22-82 | over every run there is at most one guard, nothing is promised to anybody while it lives, and whoever is parked waits for a guard, a granted locker or a leaked guard |
| `Mutex.TryLockIff` | crates/eddy/src/sync/mutex.rs:47-55 | try_lock succeeds exactly when there is no guard, no granted locker and no leaked guard |
| `RwLock.WakeReadersServes` | crates/eddy/src/sync/rwlock.rs:82-92 | the reader loop serves a prefix of the queue and stops at a writer |
| `RwLock.WakeReadersServesReaders` | crates/eddy/src/sync/rwlock.rs:82-92 | everybody it serves is a reader |
| `RwLock.WakeNextKeeps` | crates/eddy/src/sync/rwlock.rs:94-120 | after waking, the counters are exact, the lock is held if anybody waits, and no reader is parked behind a shared lock |
| `RwLock.GrantsFollowQueue` | crates/eddy/src/sync/rwlock.rs:94-120 | grants follow the queue: what leaves it is a prefix, readers only or one writer |
| `RwLock.PollReadKeeps` | crates/eddy/src/sync/rwlock.rs:199-231 | polling a read future keeps the invariant |
| `RwLock.PollWriteKeeps` | crates/eddy/src/sync/rwlock.rs:247-279 | polling a write future keeps the invariant |
| `RwLock.DropFutureKeeps` | crates/eddy/src/sync/rwlock.rs:233-294 | dropping a future at any point keeps the invariant and never underflows the reader count |
| `RwLock.GuardsKeep` | crates/eddy/src/sync/rwlock.rs:157-179 | the try operations keep the invariant, and so do guard drops and downgrade, which leave exactly one reader guard after a downgrade and no reader parked |
| `RwLock.ReadAnswers` | crates/eddy/src/sync/rwlock.rs:199-231 | a read poll answers with a guard exactly when granted, or new with no writer holding or waiting and nobody queued; exactly then there is one more read guard, with no writer beside it; else it waits in the queue |
| `RwLock.WriteAnswers` | crates/eddy/src/sync/rwlock.rs:247-279 | a write poll answers with a guard exactly when granted, or new with nobody holding and nobody queued; exactly then there is one more guard and it is the only one; else it waits in the queue |
| `RwLock.TryAnswers` | crates/eddy/src/sync/rwlock.rs:157-179 | the try operations answer true exactly when they take a guard, and change nothing otherwise |
| `RwLock.GuardsCounted` | crates/eddy/src/sync/rwlock.rs:319-352 | a guard dropped is gone, a downgraded one is a read guard, and no other changes |
| `RwLock.TryLocksIff` | crates/eddy/src/sync/rwlock.rs:157-179 | try_write succeeds exactly when nobody holds the lock or has been granted it, try_read exactly when no writer does and nobody waits |
| `RwLock.LockIsSafe` | crates/eddy/src/sync/rwlock.rs:82-352 | over every run a writer excludes readers and other writers, the counters equal guards plus unpolled grants, and a non-empty queue implies a holder |
| `RwLock.PollParksNoReader` | crates/eddy/src/sync/rwlock.rs:199-279 | a poll parks no reader behind a lock that is only shared |
| `RwLock.DropLeavesReaderParkedIff` | crates/eddy/src/sync/rwlock.rs:281-294 | dropping a queued future leaves a reader parked behind a shared lock exactly when it was a writer at the front with a reader next |
| `RwLock.StepStrandsIff` | crates/eddy/src/sync/rwlock.rs:82-352 | for every operation, a reader is left parked behind a shared lock exactly when the operation is such a drop |
| `RwLock.ParksNoReaderIff` | crates/eddy/src/sync/rwlock.rs:82-352 | over whole runs no reader is ever parked behind a shared lock, exactly when no step is such a drop |
| `RwLockState.Inner.WakeReadersLocked` | crates/eddy/src/sync/rwlock.rs:82-92 | the in-place loop is the reader wake function and wakes a prefix of the queue |
| `RwLockState.Inner.WakeNextLocked` | crates/eddy/src/sync/rwlock.rs:94-120 | in place, the wake function |
| `RwLockState.Inner.PollReadFuture` | crates/eddy/src/sync/rwlock.rs:199-231 | in place, the read poll |
| `RwLockState.Inner.PollWriteFuture` | crates/eddy/src/sync/rwlock.rs:247-279 | in place, the write poll |
| `RwLockState.Inner.CancelFuture` | crates/eddy/src/sync/rwlock.rs:233-294 | in place, dropping a future, and whom it wakes |
| `RwLockState.Inner.ReleaseRead` | crates/eddy/src/sync/rwlock.rs:319-325 | in place, dropping a read guard, and whom it wakes |
| `RwLockState.Inner.ReleaseWrite` | crates/eddy/src/sync/rwlock.rs:346-352 | in place, dropping a write guard, and whom it wakes |
| `RwLockState.Inner.DowngradeWrite` | crates/eddy/src/sync/rwlock.rs:327-344 | in place, downgrading a write guard, and whom it wakes |
| `Mpsc.WakeOneKeeps` | crates/eddy/src/sync/mpsc.rs:122-137 | whoever frees one slot and wakes one sender restores the whole invariant |
| `Mpsc.PollSendKeeps` | crates/eddy/src/sync/mpsc.rs:200-239 | polling a send keeps order, capacity and promises, also when its grant was overtaken |
| `Mpsc.PollReserveKeeps` | crates/eddy/src/sync/mpsc.rs:256-293 | polling a reservation keeps them |
| `Mpsc.DropFutureKeeps` | crates/eddy/src/sync/mpsc.rs:241-312 | dropping a send or reserve future at any point keeps them |
| `Mpsc.PermitSendKeeps` | crates/eddy/src/sync/mpsc.rs:314-326 | sending on a permit keeps them |
| `Mpsc.PermitDropKeeps` | crates/eddy/src/sync/mpsc.rs:328-337 | dropping a permit keeps them |
| `Mpsc.RecvKeeps` | crates/eddy/src/sync/mpsc.rs:354-384 | receiving keeps them |
| `Mpsc.StepKeeps` | crates/eddy/src/sync/mpsc.rs:110-400 | every operation keeps the invariant |
| `Mpsc.ChannelIsSound` | crates/eddy/src/sync/mpsc.rs:110-400 | over every run accepted items are received items followed by the queue, queue and reservations fit the capacity, reservations are counted exactly, and while senders wait every free slot is promised to a granted plain send |
| `Mpsc.SendersReachTheReceiver` | crates/eddy/src/sync/mpsc.rs:168-239 | through a sender, success means that the receiver is still attached |
| `Mpsc.AttachedCanDrain` | crates/eddy/src/sync/mpsc.rs:354-384 | an attached receiver can receive everything accepted so far |
| `Mpsc.DetachedIsFinal` | crates/eddy/src/sync/mpsc.rs:354-384 | once the receiver was told of the end, nothing is ever received again |
| `Mpsc.PermitItemReceivableIff` | crates/eddy/src/sync/mpsc.rs:314-384 | an item reported as sent on a permit can be received exactly when the receiver has not been told of the end: permits are not counted as senders |
| `Mpsc.PermitSendsIntoNowhere` | crates/eddy/src/sync/mpsc.rs:314-384 | a concrete run in which a permit send succeeds and its item can never be received |
| `Mpsc.SendAnswers` | crates/eddy/src/sync/mpsc.rs:200-239 | a send succeeds exactly when the receiver lives, a slot is left, and it was granted or nobody waits; exactly then its item is the newest accepted one; it is rejected with its item exactly when the receiver is gone; else it keeps its item and waits in the list |
| `Mpsc.ReserveAnswers` | crates/eddy/src/sync/mpsc.rs:256-293 | a reservation succeeds exactly when the receiver lives and it was granted, or a slot is left and nobody waits; exactly then there is one more permit |
| `Mpsc.PermitAnswers` | crates/eddy/src/sync/mpsc.rs:314-337 | a permit send succeeds exactly when the receiver lives, exactly then its item is the newest accepted one, and the permit is used up either way |
| `Mpsc.EndsAnswer` | crates/eddy/src/sync/mpsc.rs:183-198 | a dropped receiver is gone for every sender, the last sender dropped wakes the receiver, and a receiver told of the end lets go |
| `Mpsc.HistoriesGrow` | crates/eddy/src/sync/mpsc.rs:110-400 | items are received by receiving alone and accepted by sends alone |
| `Mpsc.RecvTakesNext` | crates/eddy/src/sync/mpsc.rs:354-384 | the receiver gets the accepted items in order, waits exactly when it has them all and a sender lives, and sees the end exactly when it has them all and none does |
| `Mpsc.TrySendIff` | crates/eddy/src/sync/mpsc.rs:168-176 | try_send succeeds exactly when the receiver lives, nobody waits, and queue, live permits and unpolled reservations leave a slot |
| `MpscState.State.WakeOneSender` | crates/eddy/src/sync/mpsc.rs:122-137 | in place, waking one sender, and whom it wakes |
| `MpscState.State.PollSendFuture` | crates/eddy/src/sync/mpsc.rs:200-239 | in place, the send poll |
| `MpscState.State.PollReserveFuture` | crates/eddy/src/sync/mpsc.rs:256-293 | in place, the reserve poll |
| `MpscState.State.CancelFuture` | crates/eddy/src/sync/mpsc.rs:241-312 | in place, dropping a future, and whom it wakes |
| `MpscState.State.SendWithPermit` | crates/eddy/src/sync/mpsc.rs:314-326 | in place, sending on a permit |
| `MpscState.State.ReleasePermit` | crates/eddy/src/sync/mpsc.rs:328-337 | in place, dropping a permit, and whom it wakes |
| `MpscState.State.Receive` | crates/eddy/src/sync/mpsc.rs:354-384 | in place, receiving, and whom the freed slot wakes |
| `MpscState.State.CloseReceiver` | crates/eddy/src/sync/mpsc.rs:386-400 | dropping the receiver pops and wakes every waiting sender, in order |
| `Rings.SlotOfCursor` | crates/eddy/src/io/uring.rs:1650-1660 | the slot of a position is found from its wrapped 32-bit cursor and the mask alone |
| `Rings.DistanceOfCursors` | crates/eddy/src/io/uring.rs:1464-1480 | the wrapped difference of two cursors is the distance of their positions |
| `Rings.WindowGrows` | crates/eddy/src/io/uring.rs:1652-1676 | writing the next slot overwrites nothing unconsumed while there is room |
| `Rings.SubmissionRing.Space` | crates/eddy/src/io/uring.rs:1464-1480 | the free space is the entry count minus the unconsumed requests, across wraparound |
| `Rings.SubmissionRing.Queue` | crates/eddy/src/io/uring.rs:1629-1676 | queuing appends to the unconsumed requests, or refuses exactly when the ring is full |
| `Rings.SubmissionRing.PendingIsDistance` | crates/eddy/src/io/uring.rs:1674-1738 | the pending count is the wrapped tail minus head and lies within the ring |
| `Rings.SubmissionRing.Submit` | crates/eddy/src/io/uring.rs:1722-1738 | a submission hands the oldest requests over in order, as many as the kernel is willing to take, and the pending count stays exact and never underflows |
| `Rings.CompletionRing.Reap` | crates/eddy/src/io/uring.rs:1763-1781 | one reap visits each completion that was available once and in order, while the kernel goes on posting |
| `Uring.IdsAreFresh` | crates/eddy/src/io/uring.rs:1449-1462 | an id handed out is in use nowhere |
| `Uring.StartOpKeeps` | crates/eddy/src/io/uring.rs:902-969 | starting an operation keeps the invariant, on both error paths too |
| `Uring.TakeResultKeeps` | crates/eddy/src/io/uring.rs:1166-1179 | taking a result keeps it |
| `Uring.DropFutureKeeps` | crates/eddy/src/io/uring.rs:1256-1294 | dropping a future keeps it: a completed operation is released, an unanswered one orphaned |
| `Uring.SubmitCancelKeeps` | crates/eddy/src/io/uring.rs:1296-1324 | queuing a cancellation keeps it |
| `Uring.ForgetCancelKeeps` | crates/eddy/src/io/uring.rs:1325-1335 | forgetting the target of a cancellation whose submission failed keeps it |
| `Uring.ReapKeeps` | crates/eddy/src/io/uring.rs:1771-1985 | processing any completion keeps it |
| `Uring.KernelMemoryStays` | crates/eddy/src/io/uring.rs:902-1985 | in every run the ring holds, without a result, the resource of each operation the kernel may still touch |
| `Uring.OneHome` | crates/eddy/src/io/uring.rs:902-1985 | every operation started is in exactly one of awaiting, completed, orphaned and retired |
| `Uring.ResultIsOwn` | crates/eddy/src/io/uring.rs:1166-1179 | the result a future takes is the kernel's answer to the request that future started, with the resource it was started with, although slab keys are reused |
| `Uring.ReleaseHasReason` | crates/eddy/src/io/uring.rs:1782-1985 | a resource leaves the ring only with its own answer, with the answer of a cancellation that stopped it, or unsent |
| `Uring.DescriptorsAreKept` | crates/eddy/src/io/uring.rs:1269-1276 | an accepted descriptor waits in the slab, went to its future, or was closed |
| `UringAnswers.StartAnswers` | crates/eddy/src/io/uring.rs:902-969 | an operation starts exactly when its resource has an address and the queue has room: its slot, id, future and request are in place and nothing is released; else no table changes and the resource is handed back |
| `UringAnswers.IdsWrap` | crates/eddy/src/io/uring.rs:1449-1451 | ids go up by one and after the last start over at one, never at zero |
| `UringAnswers.CancelAnswers` | crates/eddy/src/io/uring.rs:1296-1324 | a cancellation is queued under an id of its own with its target remembered, exactly when there is room |
| `UringAnswers.ReapAnswersFuture` | crates/eddy/src/io/uring.rs:1925-1933 | the answer to an operation whose future waits goes into its slot and nowhere else |
| `UringAnswers.ReapAnswersOrphan` | crates/eddy/src/io/uring.rs:1967-1978 | the answer to an orphan releases it and closes the descriptor it brought |
| `UringAnswers.ReapAnswersCancel` | crates/eddy/src/io/uring.rs:1782-1808 | the answer to a cancellation releases its orphan exactly when it is success |
| `UringAnswers.EveryAnswerArrives` | crates/eddy/src/io/uring.rs:902-1985 | from every valid state with ids, a free slot and room, each operation can get each answer: a run ends with its future ready to take it with its resource |
| `UringAnswers.OrphanCanBeCancelled` | crates/eddy/src/io/uring.rs:1296-1808 | an orphan the kernel works on has a run that ends with its resource released by the cancellation |
| `UringState.RingState.NextUserData` | crates/eddy/src/io/uring.rs:1449-1462 | in place, handing out an id |
| `UringState.RingState.BeginOp` | crates/eddy/src/io/uring.rs:902-969 | starting an operation: on success its slot, id, future and request are in place, on failure no table has changed and the resource is handed back |
| `UringState.RingState.Take` | crates/eddy/src/io/uring.rs:1166-1179 | in place, taking a result; nothing changes when there is none |
| `UringState.RingState.OrphanOp` | crates/eddy/src/io/uring.rs:1256-1294 | in place, dropping a future, with the descriptor it closes and the id it asks to cancel |
| `UringState.RingState.CancelOp` | crates/eddy/src/io/uring.rs:1296-1324 | in place, queuing a cancellation |
| `UringState.RingState.ReapOne` | crates/eddy/src/io/uring.rs:1771-1985 | in place, one pass of the reaping loop, and whether it wakes |
| `UringState.RingState.ReapBatch` | crates/eddy/src/io/uring.rs:1771-1985 | the reaping loop is the fold of single passes |
| `ReadyWord.WithReadyFrame` | crates/eddy/src/io/driver.rs:185-192 | writing the readiness bits touches neither generation nor shutdown flag |
| `ReadyWord.NewGeneration` | crates/eddy/src/io/driver.rs:138-150 | the word remembers the generation modulo 2^31, one bit less than its documentation says |
| `ReadyWord.DispatchedIff` | crates/eddy/src/io/driver.rs:529-550 | the events of a registration reach it exactly when its generation is below 2^31 or the poller has been armed again since, whatever the system calls before |
| `ReadyWord.LateRegistrationIsDeaf` | crates/eddy/src/io/driver.rs:661-671 | the first registration that hears nothing until it is armed again, and does then |
| `ReadyWord.StaleDispatchedIff` | crates/eddy/src/io/driver.rs:552-571 | an event in flight for an earlier registration of a slot is taken for the later one exactly when the generations are 2^31 apart and the token in flight lacks the top bit |
| `ReadyWord.WordLayout` | crates/eddy/src/io/driver.rs:26-33 | the generation from bit 33, sixteen readiness bits from bit 17, the shutdown flag at bit 16 |
| `ReadyWord.SatisfiedByBits` | crates/eddy/src/io/driver.rs:71-78 | readable is met by the readable, read-closed and error bits, writable by the writable, write-closed and error bits, both by either, neither by nothing |
| `ReadyWord.UnionSatisfies` | crates/eddy/src/io/driver.rs:71-78 | an interest is met by a union of reports exactly when it is met by one of them |
| `ScheduledIo.StoreKeeps` | crates/eddy/src/io/driver.rs:185-192 | storing an event keeps the invariant although the store is not a compare-and-swap |
| `ScheduledIo.WakeKeeps` | crates/eddy/src/io/driver.rs:193-223 | removing the waiters an event satisfies restores the idle invariant |
| `ScheduledIo.ClearKeeps` | crates/eddy/src/io/driver.rs:226-252 | a lock-free clear keeps the invariant wherever it falls |
| `ScheduledIo.FinishAddKeeps` | crates/eddy/src/io/driver.rs:254-302 | registering, or refusing to, keeps the invariant |
| `ScheduledIo.DropKeeps` | crates/eddy/src/io/driver.rs:367-433 | a dropped future leaves nothing registered and removes nobody else |
| `ScheduledIo.AddsExactly` | crates/eddy/src/io/driver.rs:254-302 | a waiter is added exactly when the bits do not meet its interest and nothing shuts down, to the first free place of its interest or the end of the list, and nobody else moves |
| `ScheduledIo.NobodySleepsOnReadiness` | crates/eddy/src/io/driver.rs:182-331 | over every run, whenever the lock is free no registered waiter is satisfied by the stored bits |
| `ScheduledIo.WakesExactly` | crates/eddy/src/io/driver.rs:193-223 | delivering an event wakes and removes exactly the waiters it satisfies |
| `ScheduledIo.NoEventIsMissed` | crates/eddy/src/io/driver.rs:182-331 | a waiter still registered when the lock is free has missed no event since it registered |
| `ScheduledIo.ClearIsGuarded` | crates/eddy/src/io/driver.rs:226-252 | a clear acts exactly on the same generation with the bits it saw, and on nothing but the bits |
| `ScheduledIo.ClearErasesIff` | crates/eddy/src/io/driver.rs:226-252 | over every run between snapshot and clear, the clear erases exactly when the bits stored at that moment are those of the snapshot, and then all of them |
| `ScheduledIo.ReportSurvivesClearIff` | crates/eddy/src/io/driver.rs:229-243 | with no other clear in between, the reports stored since the snapshot survive exactly when one of them brings a bit the snapshot lacks |
| `ScheduledIo.ReportAfterOtherClearIsErased` | crates/eddy/src/io/driver.rs:229-243 | from every state with only the readable bit stored, a run in which another clear comes first and a report that does add a bit is erased |
| `ScheduledIo.RepeatedReportIsCleared` | crates/eddy/src/io/driver.rs:229-243 | a concrete repeated report that the clear erases |
| `ScheduledIo.ClearInsideEventIsUndone` | crates/eddy/src/io/driver.rs:185-192 | a clear between the load and the store of an event has no effect |
| `ScheduledIoState.Registration.RotateList` | crates/eddy/src/io/driver.rs:203-218 | one rotation of the list removes exactly the satisfied waiters and keeps the order of the rest |
| `ScheduledIoState.Registration.SetReadinessAndWake` | crates/eddy/src/io/driver.rs:185-224 | in place, the whole delivery of an event, whatever clears run inside it |
| `ScheduledIoState.Registration.ClearReady` | crates/eddy/src/io/driver.rs:226-252 | the loop is one guarded clear of the last word it saw |
| `ScheduledIoState.Registration.CheckReadiness` | crates/eddy/src/io/driver.rs:156-180 | readiness is reported exactly when it meets the interest or the driver shuts down, which reads as both directions closed with an error |
| `ScheduledIoState.Registration.AddWaiter` | crates/eddy/src/io/driver.rs:254-302 | in place, the whole registration: refused exactly when already satisfied or shut down |
| `ScheduledIoState.Registration.RemoveWaiter` | crates/eddy/src/io/driver.rs:304-331 | in place, detaching a future: its own waiter leaves, if still registered, and every other waiter stays registered |
| `ScheduledIoState.Registration.UnlinkNode` | crates/eddy/src/io/driver.rs:320-331 | exactly one node leaves the list, wherever it stands, and the others keep their order |
| `RunQueues.Scheduler.Enqueue` | crates/eddy/src/scheduler/current_thread.rs:92-119 | the task ends in exactly one queue unless the runtime has shut down for good; it takes the fast path exactly on the owner of an open runtime, and else the caller must wake the owner |
| `RunQueues.Scheduler.Next` | crates/eddy/src/scheduler/current_thread.rs:121-137 | in place, the choice of the next task |
| `RunQueues.Scheduler.DrainDeferred` | crates/eddy/src/scheduler/current_thread.rs:253-257 | deferred entries are run oldest first until none is left |
| `RunQueues.NextTakesOne` | crates/eddy/src/scheduler/current_thread.rs:121-137 | each call takes the oldest task of exactly one queue, a deferred one first, and answers with none exactly when all are empty |
| `RunQueues.GapSteps` | crates/eddy/src/scheduler/current_thread.rs:121-129 | the distance to the next due tick goes down by one per call, also across the wrap |
| `RunQueues.InjectionIsServed` | crates/eddy/src/scheduler/current_thread.rs:121-137 | the task at position k of the injection queue is returned within the calls to the next due tick plus 61 k, whatever arrives |
| `RunQueues.InjectionBound` | crates/eddy/src/scheduler/current_thread.rs:121-137 | and so within 61 (k + 1) calls |
| `RunQueues.LocalIsServed` | crates/eddy/src/scheduler/current_thread.rs:121-137 | a local task waits for those before it and for one injection task per due tick only |
| `RunQueues.DuesAreSpaced` | crates/eddy/src/scheduler/current_thread.rs:121-129 | due ticks are 61 calls apart, 57 at the wrap |
| `RunQueues.OneDuePerInterval` | crates/eddy/src/scheduler/current_thread.rs:121-129 | at most one of 57 successive calls is due, of 61 away from the wrap |
| `RunQueues.LocalBound` | crates/eddy/src/scheduler/current_thread.rs:121-137 | over any stretch and any number of wraps a local task is returned within its position plus one call in 57 |
| `ParkProtocol.StepKeeps` | crates/eddy/src/scheduler/current_thread.rs:192-237 | every step of the owner and of other threads keeps: what the owner found empty can only have been filled by a thread that still has to unpark it or already has |
| `ParkProtocol.OwnerNeverSleepsPastWork` | crates/eddy/src/scheduler/current_thread.rs:192-237 | over every interleaving an owner blocked in park has empty queues and an unsignalled root, unless a thread is between its push or store and its unpark |
| `ParkProtocol.WorkIsConserved` | crates/eddy/src/scheduler/current_thread.rs:92-257 | over every run each task pushed has been run once or is still queued |
| `ParkProtocol.SignalMeansPoll` | crates/eddy/src/scheduler/current_thread.rs:200-206 | a root signal is consumed only by going on to poll the root future, and whoever swaps and finds it does |
| `ParkProtocol.LoopEnds` | crates/eddy/src/scheduler/current_thread.rs:200-237 | the loop is left exactly when the root future is ready, the slot is cleared before the owner, and parking is entered only from the last check |
| `Wire.FieldReads` | crates/eddy-console/src/lib.rs:222-293 | reading a written field gives its value and stops right behind it, for every kind of field |
| `Wire.FieldWrites` | crates/eddy-console/src/lib.rs:222-293 | whatever field is read, writing its value gives the bytes read |
| `Events.BuildUndoesFields` | crates/eddy-console/src/lib.rs:295-390 | the event built from an event's fields is that event |
| `Events.FieldsUndoBuild` | crates/eddy-console/src/lib.rs:295-413 | the fields of an event built from fields are those fields, for every tag |
| `FrameEncoder.WriteIds` | crates/eddy/src/instrument.rs:708-716 | the loop over an id list writes the count and each id |
| `FrameEncoder.WrittenIsPayload` | crates/eddy/src/instrument.rs:574-779 | what the runtime writes, event by event, is the payload of the event with its durations cut to 64 bits |
| `FrameEncoder.EncodeFrame` | crates/eddy/src/instrument.rs:509-779 | the frame produced is the length and the payload of that event |
| `FrameEncoder.ClampOnlyCutsLongDurations` | crates/eddy/src/instrument.rs:534-547 | the cut changes an event exactly when a duration does not fit 64 bits |
| `FrameCodec.PayloadDecodes` | crates/eddy-console/src/lib.rs:295-413 | decoding an encoded event gives it back |
| `FrameCodec.AcceptedIsCanonical` | crates/eddy-console/src/lib.rs:295-413 | any payload the console accepts is byte for byte what the runtime would send for the decoded event |
| `WireFormat.LittleEndian` | crates/eddy/src/instrument.rs:514-519 | byte i of a written integer is its digit i to the base 256 |
| `WireFormat.Utf8Iff` | crates/eddy-console/src/lib.rs:247-251 | a string is accepted exactly when it is the UTF-8 form of some sequence of scalar values (section 3 of RFC 3629) |
| `WireFormat.DecodeRefuses` | crates/eddy-console/src/lib.rs:295-390 | a payload is refused exactly when no event has it; an empty one is truncated, an unknown first byte is named |
| `WireFormat.TrailingIsCounted` | crates/eddy-console/src/lib.rs:283-293 | bytes behind a whole event are refused and counted |
| `WireFormat.ClampIsMinimum` | crates/eddy/src/instrument.rs:534-547 | the encoder cuts each duration to the largest 64-bit value and changes no other field |
| `WireFormat.TagsAreStable` | crates/eddy/src/instrument.rs:582-773 | the stable number of each kind of event |
| `WireFormat.BudgetExhaustedFrame` | crates/eddy/src/instrument.rs:831-837 | the frame of one event, byte by byte |
| `WireFormat.MarkersAreStable` | crates/eddy/src/instrument.rs:548-580 | the option markers and the numbers of wake sources, poll results and unpark reasons |
| `FrameCodec.RefusedIff` | crates/eddy-console/src/lib.rs:180-196 | the console refuses a frame the runtime sends exactly when its payload exceeds 16 MiB |
| `FrameCodec.StreamRoundTrip` | crates/eddy-console/src/lib.rs:180-209 | any chunking of any list of encoded events decodes to exactly that list with nothing left over |
| `Framing.DrainInTwo` | crates/eddy-console/src/lib.rs:180-201 | scanning a prefix first changes neither events, leftover nor error |
| `Framing.ChunkingIsIrrelevant` | crates/eddy-console/src/lib.rs:180-201 | however a stream is cut, feeding it fails with the error of the whole or yields its events and leftover |
| `Framing.FailureDelivers` | crates/eddy-console/src/lib.rs:180-201 | when a feed fails, the events that arrived are exactly those of the bytes before the failing chunk |
| `Framing.FrameDecoder.Push` | crates/eddy-console/src/lib.rs:180-201 | the in-place loop is the scan of the buffered bytes followed by the chunk; an error drops the events of the same call |
| `Framing.FrameDecoder.Finish` | crates/eddy-console/src/lib.rs:203-209 | finishing succeeds exactly between frames |
| `Broadcast.PushedRing` | crates/eddy/src/sync/broadcast.rs:205-209 | the ring holds the newest values of the log after every send |
| `Broadcast.SendKeeps` | crates/eddy/src/sync/broadcast.rs:196-224 | sending keeps the ring and every receiver's history |
| `Broadcast.ReadsTheLog` | crates/eddy/src/sync/broadcast.rs:159-163 | a read answers from the log: the value at the cursor while among the last capacity, the number of evicted values when older, nothing at the end |
| `Broadcast.ReadKeeps` | crates/eddy/src/sync/broadcast.rs:233-256 | reading moves the cursor by what it reports, reports the log, and is empty exactly when caught up |
| `Broadcast.PollKeeps` | crates/eddy/src/sync/broadcast.rs:258-293 | polling keeps the invariant: a stored waker means caught up |
| `Broadcast.OthersKeep` | crates/eddy/src/sync/broadcast.rs:144-157 | cloning, registering and dropping receivers keep it |
| `Broadcast.ReceiversFollowTheLog` | crates/eddy/src/sync/broadcast.rs:144-293 | over every run values delivered plus values skipped equal cursor minus start, each in its place in the log, and only evicted values are skipped |
| `Broadcast.OutcomeInLog` | crates/eddy/src/sync/broadcast.rs:233-256 | each outcome of a receiver names the log position reached: the value there, or a gap before the last capacity values |
| `Broadcast.SendAnswers` | crates/eddy/src/sync/broadcast.rs:196-224 | a send succeeds exactly when some receiver has a slot; exactly then its value is the newest of the log and of the ring and every waker is taken; else nothing changes |
| `Broadcast.ReadAnswers` | crates/eddy/src/sync/broadcast.rs:233-256 | the answer is what is written into the history and what the log has at the cursor, and the cursor moves past exactly that |
| `Broadcast.PollAnswers` | crates/eddy/src/sync/broadcast.rs:233-293 | try_recv and the future answer from that read; the future reports the end or waits with its waker stored exactly when there is nothing to read |
| `Broadcast.CloneAnswers` | crates/eddy/src/sync/broadcast.rs:144-157 | a clone starts at the end of the log and has been told nothing; a dropped receiver is gone |
| `Broadcast.CountsClosedIff` | crates/eddy/src/sync/broadcast.rs:233-282 | the comparison of handles with slots says closed exactly when no sender is left, no receiver is being cloned or dropped, and every receiver has its slot |
| `Broadcast.TryRecvAgreesIff` | crates/eddy/src/sync/broadcast.rs:233-282 | try_recv and the future agree exactly while that comparison does not say closed or the receiver has caught up |
| `Broadcast.WaiterIsNotToldOfTheEnd` | crates/eddy/src/sync/broadcast.rs:258-293 | after the last sender is dropped, the waker of a waiting receiver stays stored over every run that does not poll it again, although a poll would report the end |
| `BroadcastState.Inner.Ended` | crates/eddy/src/sync/broadcast.rs:233-282 | in place, the comparison, and what it means |
| `BroadcastState.Inner.SendValue` | crates/eddy/src/sync/broadcast.rs:196-224 | in place, sending, with the loop that takes every waker |
| `BroadcastState.Inner.TryReceive` | crates/eddy/src/sync/broadcast.rs:233-256 | in place, try_recv |
| `BroadcastState.Inner.PollReceive` | crates/eddy/src/sync/broadcast.rs:258-293 | in place, polling |
| `ByteStreams.BufReader.FillBuf` | crates/eddy/src/io/buf.rs:47-61 | filling loses nothing: bytes read are delivered bytes followed by the buffer |
| `ByteStreams.BufReader.Consume` | crates/eddy/src/io/buf.rs:209-212 | consuming delivers the next bytes, at most what is buffered |
| `ByteStreams.BufReader.PollRead` | crates/eddy/src/io/buf.rs:64-89 | a read delivers the next bytes of the stream, as many as are buffered and asked for, and none on pending or error, which are the inner reader's |
| `ByteStreams.BufWriter.Compact` | crates/eddy/src/io/buf.rs:127-134 | compacting keeps exactly the unwritten bytes |
| `ByteStreams.BufWriter.PollWrite` | crates/eddy/src/io/buf.rs:138-164 | accepted bytes are always the bytes given to the inner writer followed by the buffer, under every partial write, pending and error; a write takes as much as fits, and holds back or fails exactly when the inner writer did |
| `ByteStreams.BufWriter.PollFlush` | crates/eddy/src/io/buf.rs:165-183 | a completed flush has given everything accepted to the inner writer and flushed it |
| `ByteStreams.BufWriter.PollShutdown` | crates/eddy/src/io/buf.rs:185-195 | the inner writer is shut down only after it has everything accepted |
| `CopyStreams.DirectionState.WriteSome` | crates/eddy/src/io/ops.rs:80-97 | one write of the loop keeps source bytes equal to written bytes followed by the buffer, and the count exact |
| `CopyStreams.DirectionState.ReadSome` | crates/eddy/src/io/ops.rs:110-126 | one read of the loop keeps the same |
| `CopyStreams.DirectionState.PollDirection` | crates/eddy/src/io/ops.rs:69-128 | the loop keeps the same; the writer is shut down at most once, with every byte read written and counted; it waits exactly when an end held back and fails exactly when an end failed or took nothing |
| `CopyStreams.DirectionState.Finish` | crates/eddy/src/io/ops.rs:98-107 | at the end of the stream the writer is shut down once |
| `CopyStreams.CopyBidirectional.Poll` | crates/eddy/src/io/ops.rs:134-169 | a result is returned only when both directions are complete, with their exact counts; it fails exactly when an end failed or took nothing, and waits only when one held back |

## Left out

- The console's views, key handling and web bridge, macros, benches and examples: presentation.
- Socket wrappers, poller backends, timer wheel, delay queue and the multi-thread scheduler; timers are wakes at any time.
- Weak-memory reorderings, pointer provenance and allocation: steps are sequentially consistent.
- io_uring multishot operations, provided buffers, SQPOLL and the teardown of the ring: they follow other release rules.
- More than 2^64 - 2 ids: a run of `Uring` hands out fewer, so reuse of an id after its wrap is not modelled.
- The push itself is one step under the queue's lock; the guard dropped behind it refers to the scheduler, not to the cell.
- Leaking a task, a waker or a guard with `mem::forget`, except the mutex guard.
- TaskProtocol.RefusePush: dropping an entry after `shutdown_complete` while the owner slot is locked, and remote drops after it, are not modelled beyond the reference they give back.
- The task steps of the multi-thread scheduler's `schedule`: that scheduler is not part of this model.
- The completion queue's overflow: a completion that finds the ring full is posted again later.
- Overflow of word-sized counters of futures, guards and senders; permits are the exception.
- The one-directional `copy`, `BufStream` and the file adapters: the same buffers over other ends.
- TaskTheorems.RunKeeps: runs stop at the reference bound, where the process aborts.
- TaskGuarantees.EveryWakeIsAnswered: bounds the steps of the responsible threads; that a thread is ever run again is the operating system's part.
- TaskGuarantees.NoWakeIsLost: for tasks whose scheduler throws no entry away.
- Rings.SubmissionRing.Submit: an interrupted call consumes nothing and is made again; a failed call is one that takes nothing.
- FrameEncoder.EncodeFrame: instants are given as their distance from the process origin, and a payload must be shorter than 2^32 bytes.
- ScheduledIo.NobodySleepsOnReadiness: the shutdown bit is read as the source reads it, but nothing in the source sets it.
- The lock-free readiness test that opens a poll only reads, so it is a method (`CheckReadiness`) and no step of `ScheduledIo`.
- Bits.MaskIsRemainder: words are natural numbers; widths are stated where a value could leave them.
