/** One task cell under every interleaving of its users: the queue, the poller, wakers, abort
    handles, the join handle, the scheduler registry and the deallocator.

    Threads and handles of one kind are interchangeable, so the model counts them. The thread that
    may touch the stage (the poller or the finalizer) is the `agent`. A step that would start a
    second agent, break an assertion of the runtime, underflow the count, or touch a freed cell
    raises `fault`; that no run ever does is a theorem. One kind of access is kept apart: after an
    entry has been pushed from outside the owner's fast path, the pushing thread wakes the owner
    through the scheduler handle inside the cell. When it has given its own reference to the entry,
    that access can come too late and raises `dangled`. */
module TaskProtocol {
  import opened Options
  import opened TaskWord

  datatype Result = Output(v: int) | Panicked | WasCancelled

  datatype Stage = Future | Finished(r: Result) | Consumed

  /** The stage slot, with the history of what was stored in it and what left it. */
  datatype Slot = Slot(stage: Stage, stores: nat, produced: Option<Result>, taken: nat, handed: Option<Result>) {
    function Store(r: Result): Slot { this.(stage := Finished(r), stores := stores + 1, produced := Some(r)) }

    /** `discard_finished_output`, and the replace of a successful join. */
    function Take(): Slot {
      if stage.Finished? then this.(stage := Consumed, taken := taken + 1, handed := Some(stage.r)) else this
    }
  }

  /** The join waker slot, with the history of what became of every stored waker. */
  datatype Trailer = Trailer(waker: bool, stored: nat, woken: nat, superseded: nat) {
    function Store(): Trailer {
      Trailer(true, stored + 1, woken, if waker then superseded + 1 else superseded)
    }
    function Wake(): Trailer { if waker then Trailer(false, stored, woken + 1, superseded) else this }
    function Clear(): Trailer { if waker then Trailer(false, stored, woken, superseded + 1) else this }
  }

  /** On whose behalf a finalizer works: a poll that still has RUNNING set, the holder of a
      queue reference without RUNNING, or an abort that only borrows a handle. */
  datatype Backing = RunningPoll | QueueClaim | ByJoin | ByAbort | ByShutdown

  datatype FinalizePc = StoreOutput | MarkComplete | WakeJoiner | DiscardOutput | Unregister

  datatype Agent =
    | NoAgent
    | Claimed
    | Polling
    | ReturnedPending
    | Finalizing(pc: FinalizePc, r: Result, backing: Backing, sawInterest: bool)

  datatype Join =
    | JoinIdle
    | JoinStoring
    | JoinFlagging
    | JoinSelfWaking
    | DropClearingFlag(sawComplete: bool)
    | DropClearingWaker(sawComplete: bool)
    | DropDiscarding(sawComplete: bool)
    | JoinReleasing
    | JoinGone

  /** Owned references, by kind: wakers, abort handles, the registry, the list that scheduler
      shutdown took from it, threads about to queue an entry, queued entries, threads about to
      drop a reference. */
  datatype Refs = Refs(
    wakers: nat, aborts: nat, registry: bool, shutdown: bool, scheds: nat, entries: nat, releasing: nat)

  datatype Memory = Memory(deallocating: nat, deferred: nat, frees: nat)

  /** How a thread that is about to queue an entry stands to the cell afterwards: it does not read it
      again (the owner's fast path, a spawn), or reads the scheduler handle in it while borrowing a
      waker, or does so having given its reference to the entry. */
  datatype Pusher = Apart | Borrowing | Giving

  /** `pusher`: the thread about to queue. Then the threads that still have to wake the owner: by
      reference, counted from the wake on since the waker stays borrowed; by value, counted from the
      push; and behind a deferred deallocation. */
  datatype Tails = Tails(pusher: Pusher, borrowed: nat, given: nat, deferring: nat)

  /** `unpushed`: the spawner still holds the first entry. `abandoned`: the scheduler has thrown an
      entry away. `owed`: a wake arrived and no poll has started since. */
  datatype Task = Task(
    count: nat,
    flags: Flags,
    slot: Slot,
    trailer: Trailer,
    join: Join,
    agent: Agent,
    refs: Refs,
    mem: Memory,
    unpushed: bool,
    abandoned: bool,
    owed: bool,
    completions: nat,
    tails: Tails,
    fault: bool,
    dangled: bool)

  /** The state `spawn` leaves behind. */
  function Spawned(): Task {
    Task(INITIAL.count, INITIAL.flags,
         Slot(Future, 0, None, 0, None), Trailer(false, 0, 0, 0), JoinIdle, NoAgent,
         Refs(0, 0, false, false, 1, 0, 0), Memory(0, 0, 0), true, false, true, 0, Tails(Apart, 0, 0, 0), false, false)
  }

  // ----- Pieces of steps -----

  /** `drop_reference`: the caller that takes the last reference goes on to deallocate. */
  function Release(s: Task, rest: Refs): Task {
    s.(refs := rest,
       count := if s.count == 0 then 0 else s.count - 1,
       mem := s.mem.(deallocating := s.mem.deallocating + One(s.count == 1)),
       fault := s.fault || s.count == 0)
  }

  /** `ref_inc`; the process aborts at the bound, so there is no next state. */
  function Acquire(s: Task, refs: Refs): Option<Task> {
    if s.count < REF_MAX_COUNT then Some(s.(refs := refs, count := s.count + 1)) else None
  }

  /** The stage lock is free: it is held for as long as the future is being polled. */
  predicate StageFree(s: Task) { !s.agent.Polling? }

  /** A waker can be used: an owned one exists, or a poll lends its own. */
  predicate HasWaker(s: Task) { s.refs.wakers > 0 || s.agent.Polling? }

  predicate Pinned(s: Task, b: Backing) { s.agent.Finalizing? && s.agent.backing == b }

  // ----- Wakers -----

  function CloneWaker(s: Task): Option<Task> {
    if !HasWaker(s) then None else Acquire(s, s.refs.(wakers := s.refs.wakers + 1))
  }

  /** A waker that a `wake_by_ref` call borrows is not given up meanwhile. */
  predicate WakerToSpare(s: Task) { s.refs.wakers > (if s.tails.borrowed > 0 then 1 else 0) }

  /** `foreign`: the push will not be the owner's fast path. */
  function WakeByRef(s: Task, foreign: bool): Option<Task> {
    var (submit, f) := Notify(s.flags);
    if !HasWaker(s) || (submit && s.count >= REF_MAX_COUNT) then None
    else Some(s.(count := s.count + One(submit), flags := f, owed := true,
                 refs := s.refs.(scheds := s.refs.scheds + One(submit)),
                 tails := s.tails.(pusher := if !submit then s.tails.pusher else if foreign then Borrowing else Apart,
                                   borrowed := s.tails.borrowed + One(submit && foreign))))
  }

  function WakeByVal(s: Task, foreign: bool): Option<Task> {
    var (submit, f) := Notify(s.flags);
    if !WakerToSpare(s) then None
    else Some(s.(flags := f, owed := true,
                 refs := s.refs.(wakers := s.refs.wakers - 1,
                                 scheds := s.refs.scheds + One(submit),
                                 releasing := s.refs.releasing + One(!submit)),
                 tails := s.tails.(pusher := if !submit then s.tails.pusher else if foreign then Giving else Apart)))
  }

  function DropWaker(s: Task): Option<Task> {
    if !WakerToSpare(s) then None else Some(Release(s, s.refs.(wakers := s.refs.wakers - 1)))
  }

  // ----- Queue entries -----

  /** The entry is in the queue. A thread that gave its reference away still has to wake the owner. */
  function Push(s: Task): Option<Task> {
    if s.refs.scheds == 0 then None
    else Some(s.(refs := s.refs.(scheds := s.refs.scheds - 1, entries := s.refs.entries + 1), unpushed := false,
                 tails := s.tails.(given := s.tails.given + One(s.tails.pusher.Giving?))))
  }

  /** The scheduler has shut down, drops the entry it is given, and wakes nobody. */
  function RefusePush(s: Task): Option<Task> {
    if s.refs.scheds == 0 then None
    else Some(s.(refs := s.refs.(scheds := s.refs.scheds - 1, releasing := s.refs.releasing + 1),
                 unpushed := false, abandoned := true,
                 tails := s.tails.(borrowed := Less(s.tails.borrowed, s.tails.pusher.Borrowing?))))
  }

  function Less(n: nat, b: bool): nat { if b && n > 0 then n - 1 else n }

  /** Threads that have pushed by reference and still have to wake the owner. */
  function Borrowers(s: Task): nat { Less(s.tails.borrowed, s.refs.scheds > 0 && s.tails.pusher.Borrowing?) }

  /** `unpark_owner`, through the scheduler handle in the cell. */
  function UnparkBorrowing(s: Task): Option<Task> {
    if Borrowers(s) == 0 then None else Some(s.(tails := s.tails.(borrowed := Less(s.tails.borrowed, true))))
  }

  function UnparkGiving(s: Task): Option<Task> {
    if s.tails.given == 0 then None else Some(s.(tails := s.tails.(given := s.tails.given - 1)))
  }

  function UnparkDeferring(s: Task): Option<Task> {
    if s.tails.deferring == 0 then None else Some(s.(tails := s.tails.(deferring := s.tails.deferring - 1)))
  }

  function DropEntry(s: Task): Option<Task> {
    if s.refs.entries == 0 then None
    else Some(s.(refs := s.refs.(entries := s.refs.entries - 1, releasing := s.refs.releasing + 1), abandoned := true))
  }

  /** The head of `poll`: claim the task, finish a cancelled one, or release a stale entry. */
  function RunEntry(s: Task): Option<Task> {
    var (ok, f) := ToRunning(s.flags);
    var finish := !ok && s.flags.cancelled && !s.flags.complete;
    var stale := !ok && !finish;
    if s.refs.entries == 0 then None
    else Some(s.(flags := f, owed := s.owed && !ok,
                 agent := if ok then Claimed
                          else if finish then Finalizing(StoreOutput, WasCancelled, QueueClaim, false)
                          else s.agent,
                 fault := s.fault || (!stale && !s.agent.NoAgent?),
                 refs := s.refs.(entries := s.refs.entries - 1, releasing := s.refs.releasing + One(stale))))
  }

  // ----- Polling -----

  function BeginPoll(s: Task): Option<Task> {
    if !s.agent.Claimed? then None
    else Some(s.(agent := Polling, fault := s.fault || s.slot.stage != Future))
  }

  function PollPending(s: Task): Option<Task> {
    if !s.agent.Polling? then None else Some(s.(agent := ReturnedPending))
  }

  function PollDone(s: Task, r: Result): Option<Task> {
    if !s.agent.Polling? then None else Some(s.(agent := Finalizing(StoreOutput, r, RunningPoll, false)))
  }

  /** Polls run on the owner thread, so a requeue takes the fast path. Nothing is queued after IdleOk, the poll's reference becomes a queue entry after IdleNotified. */
  function GoIdle(s: Task): Option<Task> {
    var (outcome, f) := ToIdle(s.flags);
    if !s.agent.ReturnedPending? then None
    else Some(s.(flags := f, fault := s.fault || !s.flags.running,
                 agent := if outcome.IdleCancelled? then Finalizing(StoreOutput, WasCancelled, QueueClaim, false) else NoAgent,
                 refs := s.refs.(scheds := s.refs.scheds + One(outcome.IdleNotified?),
                                 releasing := s.refs.releasing + One(outcome.IdleOk?)),
                 tails := s.tails.(pusher := if outcome.IdleNotified? then Apart else s.tails.pusher)))
  }

  // ----- Finalizing -----

  function FinalizeStore(s: Task): Option<Task> {
    if !(s.agent.Finalizing? && s.agent.pc.StoreOutput?) then None
    else Some(s.(slot := s.slot.Store(s.agent.r), agent := s.agent.(pc := MarkComplete)))
  }

  function FinalizeComplete(s: Task): Option<Task> {
    if !(s.agent.Finalizing? && s.agent.pc.MarkComplete?) then None
    else if s.flags.complete then Some(s.(fault := true))
    else Some(s.(flags := ToComplete(s.flags), completions := s.completions + 1,
                 agent := s.agent.(pc := WakeJoiner, sawInterest := s.flags.joinInterest)))
  }

  function FinalizeWake(s: Task): Option<Task> {
    if !(s.agent.Finalizing? && s.agent.pc.WakeJoiner?) then None
    else Some(s.(trailer := s.trailer.Wake(),
                 agent := s.agent.(pc := if s.agent.sawInterest then Unregister else DiscardOutput)))
  }

  function FinalizeDiscard(s: Task): Option<Task> {
    if !(s.agent.Finalizing? && s.agent.pc.DiscardOutput?) then None
    else Some(s.(slot := s.slot.Take(), agent := s.agent.(pc := Unregister)))
  }

  /** `task_complete`, and then the queue reference of a finalizer that owns one. */
  function FinalizeEnd(s: Task): Option<Task> {
    if !(s.agent.Finalizing? && s.agent.pc.Unregister?) then None
    else
      var owned := One(OwnsReference(s.agent)) + One(s.refs.registry);
      Some(s.(agent := NoAgent, refs := s.refs.(registry := false, releasing := s.refs.releasing + owned)))
  }

  // ----- Abort handles and the registry -----

  /** Only a truly idle task is finalized by its aborter. */
  function Shutdown(s: Task, b: Backing): Task {
    var idle := !s.flags.complete && !s.flags.cancelled && !s.flags.running && !s.flags.notified;
    s.(flags := s.flags.(cancelled := true),
       agent := if idle then Finalizing(StoreOutput, WasCancelled, b, false) else s.agent,
       fault := s.fault || (idle && !s.agent.NoAgent?))
  }

  function AbortByJoin(s: Task): Option<Task> {
    if s.join.JoinIdle? then Some(Shutdown(s, ByJoin)) else None
  }

  function AbortByHandle(s: Task): Option<Task> {
    if s.refs.aborts > 0 then Some(Shutdown(s, ByAbort)) else None
  }

  function AbortByScheduler(s: Task): Option<Task> {
    if s.refs.shutdown then Some(Shutdown(s, ByShutdown)) else None
  }

  /** `JoinHandle::abort_handle`, or the clone of an abort handle. */
  function NewAbortHandle(s: Task): Option<Task> {
    if s.join.JoinIdle? || s.refs.aborts > 0 then Acquire(s, s.refs.(aborts := s.refs.aborts + 1)) else None
  }

  function DropAbortHandle(s: Task): Option<Task> {
    if s.refs.aborts == 0 || (s.refs.aborts == 1 && Pinned(s, ByAbort)) then None
    else Some(Release(s, s.refs.(aborts := s.refs.aborts - 1)))
  }

  function Register(s: Task): Option<Task> {
    if s.unpushed && s.refs.scheds > 0 && !s.refs.registry then Acquire(s, s.refs.(registry := true)) else None
  }

  function CloseRegistry(s: Task): Option<Task> {
    if s.refs.registry && !s.refs.shutdown then Some(s.(refs := s.refs.(registry := false, shutdown := true))) else None
  }

  function ReleaseShutdownRef(s: Task): Option<Task> {
    if s.refs.shutdown && !Pinned(s, ByShutdown) then Some(Release(s, s.refs.(shutdown := false))) else None
  }

  // ----- Deallocation -----

  function FinishRelease(s: Task): Option<Task> {
    if s.refs.releasing == 0 then None else Some(Release(s, s.refs.(releasing := s.refs.releasing - 1)))
  }

  /** Free at once on the owner thread, or revive one reference for a deferred entry, push that, and go
      on to wake the owner. */
  function Dealloc(s: Task, now: bool): Option<Task> {
    if s.mem.deallocating == 0 then None
    else Some(s.(count := s.count + One(!now),
                 mem := Memory(s.mem.deallocating - 1, s.mem.deferred + One(!now), s.mem.frees + One(now)),
                 tails := s.tails.(deferring := s.tails.deferring + One(!now))))
  }

  function RunDeferred(s: Task): Option<Task> {
    if s.mem.deferred == 0 then None
    else Some(s.(mem := s.mem.(deferred := s.mem.deferred - 1, frees := s.mem.frees + 1)))
  }

  // ----- The join handle -----

  function JoinPoll(s: Task): Option<Task> {
    if !s.join.JoinIdle? || Pinned(s, ByJoin) || !StageFree(s) then None
    else Some(s.(slot := s.slot.Take(), join := if s.slot.stage.Finished? then JoinReleasing else JoinStoring))
  }

  function JoinStore(s: Task): Option<Task> {
    if !s.join.JoinStoring? then None else Some(s.(join := JoinFlagging, trailer := s.trailer.Store()))
  }

  function JoinFlag(s: Task): Option<Task> {
    if !s.join.JoinFlagging? then None
    else if s.flags.complete then Some(s.(join := JoinSelfWaking))
    else Some(s.(join := JoinIdle, flags := s.flags.(joinWaker := true)))
  }

  function JoinSelfWake(s: Task): Option<Task> {
    if !s.join.JoinSelfWaking? then None else Some(s.(join := JoinIdle, trailer := s.trailer.Wake()))
  }

  function JoinDrop(s: Task): Option<Task> {
    if !s.join.JoinIdle? || Pinned(s, ByJoin) then None
    else Some(s.(join := DropClearingFlag(s.flags.complete), flags := s.flags.(joinInterest := false)))
  }

  function DropClearFlag(s: Task): Option<Task> {
    if !s.join.DropClearingFlag? then None
    else Some(s.(join := DropClearingWaker(s.join.sawComplete), flags := s.flags.(joinWaker := false)))
  }

  function DropClearWaker(s: Task): Option<Task> {
    if !s.join.DropClearingWaker? then None
    else Some(s.(join := DropDiscarding(s.join.sawComplete), trailer := s.trailer.Clear()))
  }

  function DropDiscard(s: Task): Option<Task> {
    if !s.join.DropDiscarding? || (s.join.sawComplete && !StageFree(s)) then None
    else Some(s.(slot := if s.join.sawComplete then s.slot.Take() else s.slot, join := JoinReleasing))
  }

  function JoinRelease(s: Task): Option<Task> {
    if !s.join.JoinReleasing? then None else Some(Release(s.(join := JoinGone), s.refs))
  }

  // ----- Runs -----

  datatype Step =
    | ACloneWaker | AWakeByRef(foreign: bool) | AWakeByVal(foreign: bool) | ADropWaker
    | APush | ARefusePush | ADropEntry | ARunEntry
    | AUnparkBorrowing | AUnparkGiving | AUnparkDeferring
    | ABeginPoll | APollPending | APollReady(v: int) | APollPanic | AGoIdle
    | AFinalizeStore | AFinalizeComplete | AFinalizeWake | AFinalizeDiscard | AFinalizeEnd
    | AAbortByJoin | AAbortByHandle | AAbortByScheduler | ANewAbortHandle | ADropAbortHandle
    | ARegister | ACloseRegistry | AReleaseShutdownRef
    | AFinishRelease | ADealloc(now: bool) | ARunDeferred
    | AJoinPoll | AJoinStore | AJoinFlag | AJoinSelfWake | AJoinDrop
    | ADropClearFlag | ADropClearWaker | ADropDiscard | AJoinRelease

  function Apply(s: Task, a: Step): Option<Task> {
    match a
    case ACloneWaker => CloneWaker(s)
    case AWakeByRef(foreign) => WakeByRef(s, foreign)
    case AWakeByVal(foreign) => WakeByVal(s, foreign)
    case ADropWaker => DropWaker(s)
    case APush => Push(s)
    case ARefusePush => RefusePush(s)
    case ADropEntry => DropEntry(s)
    case ARunEntry => RunEntry(s)
    case AUnparkBorrowing => UnparkBorrowing(s)
    case AUnparkGiving => UnparkGiving(s)
    case AUnparkDeferring => UnparkDeferring(s)
    case ABeginPoll => BeginPoll(s)
    case APollPending => PollPending(s)
    case APollReady(v) => PollDone(s, Output(v))
    case APollPanic => PollDone(s, Panicked)
    case AGoIdle => GoIdle(s)
    case AFinalizeStore => FinalizeStore(s)
    case AFinalizeComplete => FinalizeComplete(s)
    case AFinalizeWake => FinalizeWake(s)
    case AFinalizeDiscard => FinalizeDiscard(s)
    case AFinalizeEnd => FinalizeEnd(s)
    case AAbortByJoin => AbortByJoin(s)
    case AAbortByHandle => AbortByHandle(s)
    case AAbortByScheduler => AbortByScheduler(s)
    case ANewAbortHandle => NewAbortHandle(s)
    case ADropAbortHandle => DropAbortHandle(s)
    case ARegister => Register(s)
    case ACloseRegistry => CloseRegistry(s)
    case AReleaseShutdownRef => ReleaseShutdownRef(s)
    case AFinishRelease => FinishRelease(s)
    case ADealloc(now) => Dealloc(s, now)
    case ARunDeferred => RunDeferred(s)
    case AJoinPoll => JoinPoll(s)
    case AJoinStore => JoinStore(s)
    case AJoinFlag => JoinFlag(s)
    case AJoinSelfWake => JoinSelfWake(s)
    case AJoinDrop => JoinDrop(s)
    case ADropClearFlag => DropClearFlag(s)
    case ADropClearWaker => DropClearWaker(s)
    case ADropDiscard => DropDiscard(s)
    case AJoinRelease => JoinRelease(s)
  }

  /** The accesses of a thread that owns nothing any more. */
  predicate HandedOver(a: Step) { a.AUnparkGiving? || a.AUnparkDeferring? }

  /** One atomic step, if it can be taken. Every step reads or writes the cell. */
  function Next(s: Task, a: Step): Option<Task> {
    var t := Apply(s, a);
    if t.Some? && s.mem.frees > 0 then
      Some(t.value.(fault := t.value.fault || !HandedOver(a), dangled := t.value.dangled || HandedOver(a)))
    else t
  }

  /** A run from `s`, or nothing if some step of it cannot be taken. */
  function Run(s: Task, steps: seq<Step>): Option<Task> {
    if steps == [] then Some(s)
    else
      var t := Run(s, steps[..|steps| - 1]);
      if t.None? then None else Next(t.value, steps[|steps| - 1])
  }

  // ----- Ownership -----

  function One(b: bool): nat { if b then 1 else 0 }

  /** The agent owns the reference of the queue entry it came from; an abort only borrows its handle's. */
  predicate OwnsReference(a: Agent) {
    a.Claimed? || a.Polling? || a.ReturnedPending?
    || (a.Finalizing? && (a.backing.RunningPoll? || a.backing.QueueClaim?))
  }

  /** Everything that owns a reference to the cell. */
  function Owners(s: Task): nat {
    s.refs.wakers + s.refs.aborts + One(s.refs.registry) + One(s.refs.shutdown)
    + s.refs.scheds + s.refs.entries + s.refs.releasing
    + One(!s.join.JoinGone?) + One(OwnsReference(s.agent)) + s.mem.deferred
  }
}
