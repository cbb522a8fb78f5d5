/** What every run of the task protocol keeps. */
module TaskTheorems {
  import opened Options
  import opened TaskWord
  import opened TaskProtocol

  function Claims(r: Refs): nat { r.scheds + r.entries }

  function Going(m: Memory): nat { m.deallocating + m.deferred + m.frees }

  predicate Early(a: Agent) { a.Claimed? || a.Polling? || a.ReturnedPending? }

  predicate FinalizingAt(a: Agent, pc: FinalizePc) { a.Finalizing? && a.pc == pc }

  /** The agent works while RUNNING is set. */
  predicate HoldsRunning(a: Agent) {
    Early(a) || ((FinalizingAt(a, StoreOutput) || FinalizingAt(a, MarkComplete)) && a.backing.RunningPoll?)
  }

  predicate Dropping(j: Join) { j.DropClearingFlag? || j.DropClearingWaker? || j.DropDiscarding? }

  predicate Undecided(j: Join) { j.JoinIdle? || j.JoinStoring? || j.JoinFlagging? || j.JoinSelfWaking? }

  // ----- The inductive invariant -----

  /** References are counted exactly, and deallocation starts once, when nobody owns one any more. */
  predicate Counted(count: nat, owners: nat, m: Memory, a: Agent) {
    && (m.frees == 0 ==> count == owners)
    && Going(m) <= 1
    && (Going(m) == 1 ==> owners == m.deferred && a.NoAgent?)
    && (m.frees == 0 && count == 0 ==> m.deallocating == 1)
  }

  /** Queue claims and the agent exclude each other, and a borrowed handle stays alive. */
  predicate Exclusive(f: Flags, claims: nat, a: Agent, j: Join, aborts: nat, shutdown: bool) {
    && claims + One(!a.NoAgent?) <= 1
    && (f.running <==> HoldsRunning(a))
    && (a.Finalizing? && a.backing.ByJoin? ==> j.JoinIdle?)
    && (a.Finalizing? && a.backing.ByAbort? ==> aborts > 0)
    && (a.Finalizing? && a.backing.ByShutdown? ==> shutdown)
  }

  /** The stage follows the single finalization. */
  predicate Staged(f: Flags, claims: nat, a: Agent, slot: Slot, completions: nat) {
    && slot.stores == One(slot.stage != Future) && completions == One(f.complete)
    && (f.complete ==> slot.stage != Future && !f.notified && claims == 0)
    && (slot.stage != Future && !f.complete <==> FinalizingAt(a, MarkComplete))
    && (Early(a) || FinalizingAt(a, StoreOutput) ==> slot.stage == Future)
    && (a.Finalizing? && !a.pc.StoreOutput? && !a.pc.MarkComplete? ==> f.complete)
    && (a.Finalizing? && !a.backing.RunningPoll? ==> f.cancelled)
  }

  /** What the cell has produced and what has left it. */
  predicate Delivered(slot: Slot) {
    match slot.stage
    case Future => slot.produced == None && slot.taken == 0
    case Finished(r) => slot.produced == Some(r) && slot.taken == 0
    case Consumed => slot.produced.Some? && slot.taken == 1 && slot.handed == slot.produced
  }

  /** Queue claims mirror NOTIFIED, an owed poll is remembered, a cancelled task is being finished. */
  predicate Notified(f: Flags, claims: nat, a: Agent, abandoned: bool, owed: bool) {
    && (claims == 1 ==> f.notified)
    && (!f.complete && !f.cancelled && !abandoned ==>
          && (f.notified && !f.running ==> claims == 1)
          && (owed ==> f.notified))
    && (f.cancelled && !f.complete && !abandoned ==> claims == 1 || !a.NoAgent?)
  }

  /** Who will take the output once the join handle has lost interest. */
  predicate Joined(f: Flags, a: Agent, slot: Slot, j: Join) {
    && (Undecided(j) ==> f.joinInterest && slot.stage != Consumed)
    && (Dropping(j) ==> !f.joinInterest && (j.sawComplete ==> f.complete))
    && (!Undecided(j) && f.joinInterest ==> slot.stage == Consumed)
    && (a.Finalizing? && f.complete && !a.sawInterest ==> !f.joinInterest)
    && (FinalizingAt(a, DiscardOutput) ==> !a.sawInterest)
    && (slot.stage.Finished? && !f.joinInterest ==>
          || (Dropping(j) && j.sawComplete)
          || FinalizingAt(a, MarkComplete)
          || ((FinalizingAt(a, WakeJoiner) || FinalizingAt(a, DiscardOutput)) && !a.sawInterest))
  }

  /** Who will wake a stored join waker after completion. */
  predicate Trailed(complete: bool, a: Agent, j: Join, t: Trailer) {
    && t.stored == t.woken + t.superseded + One(t.waker)
    && (t.waker && complete ==>
          || j.JoinFlagging? || j.JoinSelfWaking? || j.DropClearingFlag? || j.DropClearingWaker?
          || FinalizingAt(a, WakeJoiner))
  }

  /** A borrowed waker is there as long as it is borrowed. */
  predicate WakerPinned(t: Tails, wakers: nat, scheds: nat) {
    (t.borrowed > 0 ==> wakers > 0) && (scheds > 0 && t.pusher.Borrowing? ==> t.borrowed > 0)
  }

  predicate Inv(s: Task) {
    && !s.fault
    && Counted(s.count, Owners(s), s.mem, s.agent)
    && Exclusive(s.flags, Claims(s.refs), s.agent, s.join, s.refs.aborts, s.refs.shutdown)
    && Staged(s.flags, Claims(s.refs), s.agent, s.slot, s.completions)
    && Delivered(s.slot)
    && Notified(s.flags, Claims(s.refs), s.agent, s.abandoned, s.owed)
    && Joined(s.flags, s.agent, s.slot, s.join)
    && Trailed(s.flags.complete, s.agent, s.join, s.trailer)
    && WakerPinned(s.tails, s.refs.wakers, s.refs.scheds)
  }

  // ----- What a step may not undo -----

  /** A wake or a cancellation that has not been answered by a poll or by completion. */
  predicate Pending(s: Task) { !s.flags.complete && !s.abandoned && (s.owed || s.flags.cancelled) }

  /** How many steps the responsible thread is away from answering. */
  function RankOf(a: Agent, scheds: nat, entries: nat): nat {
    match a
    case Claimed => 7
    case Polling => 6
    case ReturnedPending => 5
    case Finalizing(pc, _, _, _) => if pc.StoreOutput? then 2 else if pc.MarkComplete? then 1 else 0
    case NoAgent => if scheds > 0 then 4 else if entries > 0 then 3 else 0
  }

  function Rank(s: Task): nat { RankOf(s.agent, s.refs.scheds, s.refs.entries) }

  /** An answer comes no further away, cancellation is final and stops new queue entries. */
  predicate Forward(s: Task, t: Task) {
    && (Pending(s) && Pending(t) ==> Rank(t) <= Rank(s))
    && (s.flags.cancelled ==> t.flags.cancelled && Claims(t.refs) <= Claims(s.refs))
  }

  // ----- Every step keeps the invariant -----

  lemma ReleaseCounted(s: Task, t: Task)
    requires Inv(s) && s.mem.frees == 0 && t == Release(s, t.refs).(join := t.join)
    requires Owners(t) == Owners(s) - 1 && (t.agent.NoAgent? || Owners(t) >= 1)
    ensures !t.fault && Counted(t.count, Owners(t), t.mem, t.agent)
  {
  }

  lemma AliveWhileOwned(s: Task)
    requires Inv(s) && Owners(s) > s.mem.deferred
    ensures s.mem.frees == 0 && Going(s.mem) == 0 && s.count >= 1
  {
  }

  /** Giving one reference back, together with whatever handle or borrow it stood for. */
  lemma ReleaseKeeps(s: Task, t: Task)
    requires Inv(s) && s.mem.frees == 0 && t == Release(s, t.refs).(join := t.join)
    requires Owners(t) == Owners(s) - 1 && (t.agent.NoAgent? || Owners(t) >= 1)
    requires t.refs.scheds == s.refs.scheds && t.refs.entries == s.refs.entries
    requires t.join == s.join || (s.join.JoinReleasing? && t.join.JoinGone?)
    requires s.agent.Finalizing? && s.agent.backing.ByAbort? ==> t.refs.aborts > 0
    requires s.agent.Finalizing? && s.agent.backing.ByShutdown? ==> t.refs.shutdown
    requires s.tails.borrowed > 0 ==> t.refs.wakers > 0
    ensures Inv(t) && Forward(s, t)
  {
    ReleaseCounted(s, t);
    ReleaseExclusive(s, t);
  }

  lemma ReleaseExclusive(s: Task, t: Task)
    requires Exclusive(s.flags, Claims(s.refs), s.agent, s.join, s.refs.aborts, s.refs.shutdown)
    requires t.flags == s.flags && t.agent == s.agent && t.refs.scheds == s.refs.scheds && t.refs.entries == s.refs.entries
    requires t.join == s.join || (s.join.JoinReleasing? && t.join.JoinGone?)
    requires s.agent.Finalizing? && s.agent.backing.ByAbort? ==> t.refs.aborts > 0
    requires s.agent.Finalizing? && s.agent.backing.ByShutdown? ==> t.refs.shutdown
    ensures Exclusive(t.flags, Claims(t.refs), t.agent, t.join, t.refs.aborts, t.refs.shutdown)
  {
  }

  lemma CloneWakerKeeps(s: Task)
    requires Inv(s) && CloneWaker(s).Some?
    ensures s.mem.frees == 0 && Inv(CloneWaker(s).value) && Forward(s, CloneWaker(s).value)
  {
  }

  lemma WakeByRefKeeps(s: Task, foreign: bool)
    requires Inv(s) && WakeByRef(s, foreign).Some?
    ensures s.mem.frees == 0 && Inv(WakeByRef(s, foreign).value) && Forward(s, WakeByRef(s, foreign).value)
  {
  }

  lemma WakeByValKeeps(s: Task, foreign: bool)
    requires Inv(s) && WakeByVal(s, foreign).Some?
    ensures s.mem.frees == 0 && Inv(WakeByVal(s, foreign).value) && Forward(s, WakeByVal(s, foreign).value)
  {
  }

  lemma DropWakerKeeps(s: Task)
    requires Inv(s) && DropWaker(s).Some?
    ensures s.mem.frees == 0 && Inv(DropWaker(s).value) && Forward(s, DropWaker(s).value)
  {
    var t := DropWaker(s).value;
    AliveWhileOwned(s);
    assert Owners(t) == Owners(s) - 1;
    ReleaseKeeps(s, t);
  }

  lemma PushKeeps(s: Task)
    requires Inv(s) && Push(s).Some?
    ensures s.mem.frees == 0 && Inv(Push(s).value) && Forward(s, Push(s).value)
  {
  }

  lemma RefusePushKeeps(s: Task)
    requires Inv(s) && RefusePush(s).Some?
    ensures s.mem.frees == 0 && Inv(RefusePush(s).value) && Forward(s, RefusePush(s).value)
  {
  }

  lemma UnparkBorrowingKeeps(s: Task)
    requires Inv(s) && UnparkBorrowing(s).Some?
    ensures s.mem.frees == 0 && Inv(UnparkBorrowing(s).value) && Forward(s, UnparkBorrowing(s).value)
  {
    assert s.refs.wakers > 0;
    AliveWhileOwned(s);
  }

  /** These two may find the cell freed; the invariant holds all the same. */
  lemma HandedOverKeeps(s: Task, a: Step)
    requires Inv(s) && HandedOver(a) && Next(s, a).Some?
    ensures Inv(Next(s, a).value) && Forward(s, Next(s, a).value)
    ensures Next(s, a).value.dangled <==> s.dangled || s.mem.frees > 0
  {
  }

  lemma DropEntryKeeps(s: Task)
    requires Inv(s) && DropEntry(s).Some?
    ensures s.mem.frees == 0 && Inv(DropEntry(s).value) && Forward(s, DropEntry(s).value)
  {
  }

  lemma RunEntryKeeps(s: Task)
    requires Inv(s) && RunEntry(s).Some?
    ensures s.mem.frees == 0 && Inv(RunEntry(s).value) && Forward(s, RunEntry(s).value)
  {
  }

  lemma BeginPollKeeps(s: Task)
    requires Inv(s) && BeginPoll(s).Some?
    ensures s.mem.frees == 0 && Inv(BeginPoll(s).value) && Forward(s, BeginPoll(s).value)
  {
  }

  lemma PollPendingKeeps(s: Task)
    requires Inv(s) && PollPending(s).Some?
    ensures s.mem.frees == 0 && Inv(PollPending(s).value) && Forward(s, PollPending(s).value)
  {
  }

  lemma PollDoneKeeps(s: Task, r: Result)
    requires Inv(s) && PollDone(s, r).Some?
    ensures s.mem.frees == 0 && Inv(PollDone(s, r).value) && Forward(s, PollDone(s, r).value)
  {
  }

  lemma GoIdleKeeps(s: Task)
    requires Inv(s) && GoIdle(s).Some?
    ensures s.mem.frees == 0 && Inv(GoIdle(s).value) && Forward(s, GoIdle(s).value)
  {
  }

  lemma FinalizeStoreKeeps(s: Task)
    requires Inv(s) && FinalizeStore(s).Some?
    ensures s.mem.frees == 0 && Inv(FinalizeStore(s).value) && Forward(s, FinalizeStore(s).value)
  {
  }

  lemma FinalizeCompleteKeeps(s: Task)
    requires Inv(s) && FinalizeComplete(s).Some?
    ensures s.mem.frees == 0 && Inv(FinalizeComplete(s).value) && Forward(s, FinalizeComplete(s).value)
  {
  }

  lemma FinalizeWakeKeeps(s: Task)
    requires Inv(s) && FinalizeWake(s).Some?
    ensures s.mem.frees == 0 && Inv(FinalizeWake(s).value) && Forward(s, FinalizeWake(s).value)
  {
  }

  lemma FinalizeDiscardKeeps(s: Task)
    requires Inv(s) && FinalizeDiscard(s).Some?
    ensures s.mem.frees == 0 && Inv(FinalizeDiscard(s).value) && Forward(s, FinalizeDiscard(s).value)
  {
  }

  lemma FinalizeEndKeeps(s: Task)
    requires Inv(s) && FinalizeEnd(s).Some?
    ensures s.mem.frees == 0 && Inv(FinalizeEnd(s).value) && Forward(s, FinalizeEnd(s).value)
  {
  }

  lemma AbortByJoinKeeps(s: Task)
    requires Inv(s) && AbortByJoin(s).Some?
    ensures s.mem.frees == 0 && Inv(AbortByJoin(s).value) && Forward(s, AbortByJoin(s).value)
  {
  }

  lemma AbortByHandleKeeps(s: Task)
    requires Inv(s) && AbortByHandle(s).Some?
    ensures s.mem.frees == 0 && Inv(AbortByHandle(s).value) && Forward(s, AbortByHandle(s).value)
  {
  }

  lemma AbortBySchedulerKeeps(s: Task)
    requires Inv(s) && AbortByScheduler(s).Some?
    ensures s.mem.frees == 0 && Inv(AbortByScheduler(s).value) && Forward(s, AbortByScheduler(s).value)
  {
  }

  lemma NewAbortHandleKeeps(s: Task)
    requires Inv(s) && NewAbortHandle(s).Some?
    ensures s.mem.frees == 0 && Inv(NewAbortHandle(s).value) && Forward(s, NewAbortHandle(s).value)
  {
  }

  lemma DropAbortHandleKeeps(s: Task)
    requires Inv(s) && DropAbortHandle(s).Some?
    ensures s.mem.frees == 0 && Inv(DropAbortHandle(s).value) && Forward(s, DropAbortHandle(s).value)
  {
    var t := DropAbortHandle(s).value;
    AliveWhileOwned(s);
    assert Owners(t) == Owners(s) - 1;
    ReleaseKeeps(s, t);
  }

  lemma RegisterKeeps(s: Task)
    requires Inv(s) && Register(s).Some?
    ensures s.mem.frees == 0 && Inv(Register(s).value) && Forward(s, Register(s).value)
  {
  }

  lemma CloseRegistryKeeps(s: Task)
    requires Inv(s) && CloseRegistry(s).Some?
    ensures s.mem.frees == 0 && Inv(CloseRegistry(s).value) && Forward(s, CloseRegistry(s).value)
  {
  }

  lemma ReleaseShutdownRefKeeps(s: Task)
    requires Inv(s) && ReleaseShutdownRef(s).Some?
    ensures s.mem.frees == 0 && Inv(ReleaseShutdownRef(s).value) && Forward(s, ReleaseShutdownRef(s).value)
  {
    var t := ReleaseShutdownRef(s).value;
    AliveWhileOwned(s);
    assert Owners(t) == Owners(s) - 1;
    ReleaseKeeps(s, t);
  }

  lemma FinishReleaseKeeps(s: Task)
    requires Inv(s) && FinishRelease(s).Some?
    ensures s.mem.frees == 0 && Inv(FinishRelease(s).value) && Forward(s, FinishRelease(s).value)
  {
    var t := FinishRelease(s).value;
    AliveWhileOwned(s);
    assert Owners(t) == Owners(s) - 1;
    ReleaseKeeps(s, t);
  }

  lemma DeallocKeeps(s: Task, now: bool)
    requires Inv(s) && Dealloc(s, now).Some?
    ensures s.mem.frees == 0 && Inv(Dealloc(s, now).value) && Forward(s, Dealloc(s, now).value)
  {
  }

  lemma RunDeferredKeeps(s: Task)
    requires Inv(s) && RunDeferred(s).Some?
    ensures s.mem.frees == 0 && Inv(RunDeferred(s).value) && Forward(s, RunDeferred(s).value)
  {
  }

  lemma JoinPollKeeps(s: Task)
    requires Inv(s) && JoinPoll(s).Some?
    ensures s.mem.frees == 0 && Inv(JoinPoll(s).value) && Forward(s, JoinPoll(s).value)
  {
  }

  lemma JoinStoreKeeps(s: Task)
    requires Inv(s) && JoinStore(s).Some?
    ensures s.mem.frees == 0 && Inv(JoinStore(s).value) && Forward(s, JoinStore(s).value)
  {
  }

  lemma JoinFlagKeeps(s: Task)
    requires Inv(s) && JoinFlag(s).Some?
    ensures s.mem.frees == 0 && Inv(JoinFlag(s).value) && Forward(s, JoinFlag(s).value)
  {
  }

  lemma JoinSelfWakeKeeps(s: Task)
    requires Inv(s) && JoinSelfWake(s).Some?
    ensures s.mem.frees == 0 && Inv(JoinSelfWake(s).value) && Forward(s, JoinSelfWake(s).value)
  {
  }

  lemma JoinDropKeeps(s: Task)
    requires Inv(s) && JoinDrop(s).Some?
    ensures s.mem.frees == 0 && Inv(JoinDrop(s).value) && Forward(s, JoinDrop(s).value)
  {
  }

  lemma DropClearFlagKeeps(s: Task)
    requires Inv(s) && DropClearFlag(s).Some?
    ensures s.mem.frees == 0 && Inv(DropClearFlag(s).value) && Forward(s, DropClearFlag(s).value)
  {
  }

  lemma DropClearWakerKeeps(s: Task)
    requires Inv(s) && DropClearWaker(s).Some?
    ensures s.mem.frees == 0 && Inv(DropClearWaker(s).value) && Forward(s, DropClearWaker(s).value)
  {
  }

  lemma DropDiscardKeeps(s: Task)
    requires Inv(s) && DropDiscard(s).Some?
    ensures s.mem.frees == 0 && Inv(DropDiscard(s).value) && Forward(s, DropDiscard(s).value)
  {
  }

  lemma JoinReleaseKeeps(s: Task)
    requires Inv(s) && JoinRelease(s).Some?
    ensures s.mem.frees == 0 && Inv(JoinRelease(s).value) && Forward(s, JoinRelease(s).value)
  {
    var t := JoinRelease(s).value;
    AliveWhileOwned(s);
    assert Owners(t) == Owners(s) - 1;
    ReleaseKeeps(s, t);
  }

  /** Wakes, queue entries and polls. */
  predicate Scheduling(a: Step) {
    || a.ACloneWaker? || a.AWakeByRef? || a.AWakeByVal? || a.ADropWaker? || a.APush?
    || a.ARefusePush? || a.ADropEntry? || a.ARunEntry? || a.AUnparkBorrowing? || a.ABeginPoll? || a.APollPending?
    || a.APollReady? || a.APollPanic? || a.AGoIdle?
  }

  /** A join handle being polled. */
  predicate JoinPolling(a: Step) { a.AJoinPoll? || a.AJoinStore? || a.AJoinFlag? || a.AJoinSelfWake? }

  /** A join handle being dropped. */
  predicate JoinDropping(a: Step) { a.AJoinDrop? || a.ADropClearFlag? || a.ADropClearWaker? || a.ADropDiscard? || a.AJoinRelease? }

  lemma SchedulingKeeps(s: Task, a: Step)
    requires Inv(s) && Scheduling(a) && Next(s, a).Some?
    ensures s.mem.frees == 0 && Inv(Next(s, a).value) && Forward(s, Next(s, a).value)
  {
    match a {
      case ACloneWaker => CloneWakerKeeps(s);
      case AWakeByRef(foreign) => WakeByRefKeeps(s, foreign);
      case AWakeByVal(foreign) => WakeByValKeeps(s, foreign);
      case ADropWaker => DropWakerKeeps(s);
      case APush => PushKeeps(s);
      case ARefusePush => RefusePushKeeps(s);
      case ADropEntry => DropEntryKeeps(s);
      case ARunEntry => RunEntryKeeps(s);
      case AUnparkBorrowing => UnparkBorrowingKeeps(s);
      case ABeginPoll => BeginPollKeeps(s);
      case APollPending => PollPendingKeeps(s);
      case APollReady(v) => PollDoneKeeps(s, Output(v));
      case APollPanic => PollDoneKeeps(s, Panicked);
      case AGoIdle => GoIdleKeeps(s);
    }
  }

  lemma OwningKeeps(s: Task, a: Step)
    requires Inv(s) && !Scheduling(a) && !JoinPolling(a) && !JoinDropping(a) && !HandedOver(a) && Next(s, a).Some?
    ensures s.mem.frees == 0 && Inv(Next(s, a).value) && Forward(s, Next(s, a).value)
  {
    match a {
      case AFinalizeStore => FinalizeStoreKeeps(s);
      case AFinalizeComplete => FinalizeCompleteKeeps(s);
      case AFinalizeWake => FinalizeWakeKeeps(s);
      case AFinalizeDiscard => FinalizeDiscardKeeps(s);
      case AFinalizeEnd => FinalizeEndKeeps(s);
      case AAbortByJoin => AbortByJoinKeeps(s);
      case AAbortByHandle => AbortByHandleKeeps(s);
      case AAbortByScheduler => AbortBySchedulerKeeps(s);
      case ANewAbortHandle => NewAbortHandleKeeps(s);
      case ADropAbortHandle => DropAbortHandleKeeps(s);
      case ARegister => RegisterKeeps(s);
      case ACloseRegistry => CloseRegistryKeeps(s);
      case AReleaseShutdownRef => ReleaseShutdownRefKeeps(s);
      case AFinishRelease => FinishReleaseKeeps(s);
      case ADealloc(now) => DeallocKeeps(s, now);
      case ARunDeferred => RunDeferredKeeps(s);
    }
  }

  lemma JoinPollingKeeps(s: Task, a: Step)
    requires Inv(s) && JoinPolling(a) && Next(s, a).Some?
    ensures s.mem.frees == 0 && Inv(Next(s, a).value) && Forward(s, Next(s, a).value)
  {
    match a {
      case AJoinPoll => JoinPollKeeps(s);
      case AJoinStore => JoinStoreKeeps(s);
      case AJoinFlag => JoinFlagKeeps(s);
      case AJoinSelfWake => JoinSelfWakeKeeps(s);
    }
  }

  lemma JoinDroppingKeeps(s: Task, a: Step)
    requires Inv(s) && JoinDropping(a) && Next(s, a).Some?
    ensures s.mem.frees == 0 && Inv(Next(s, a).value) && Forward(s, Next(s, a).value)
  {
    if a.AJoinRelease? {
      JoinReleaseKeeps(s);
    } else {
      JoinLosingKeeps(s, a);
    }
  }

  lemma JoinLosingKeeps(s: Task, a: Step)
    requires Inv(s) && JoinDropping(a) && !a.AJoinRelease? && Next(s, a).Some?
    ensures s.mem.frees == 0 && Inv(Next(s, a).value) && Forward(s, Next(s, a).value)
  {
    match a {
      case AJoinDrop => JoinDropKeeps(s);
      case ADropClearFlag => DropClearFlagKeeps(s);
      case ADropClearWaker => DropClearWakerKeeps(s);
      case ADropDiscard => DropDiscardKeeps(s);
    }
  }

  /** Every step keeps the invariant and is taken on a live cell, except that the wake behind an entry
      whose reference was handed over may come after the cell has been freed. */
  lemma StepKeeps(s: Task, a: Step)
    requires Inv(s) && Next(s, a).Some?
    ensures s.mem.frees == 0 || HandedOver(a)
    ensures Inv(Next(s, a).value) && Forward(s, Next(s, a).value)
  {
    if HandedOver(a) {
      HandedOverKeeps(s, a);
    } else if Scheduling(a) {
      SchedulingKeeps(s, a);
    } else if JoinPolling(a) {
      JoinPollingKeeps(s, a);
    } else if JoinDropping(a) {
      JoinDroppingKeeps(s, a);
    } else {
      OwningKeeps(s, a);
    }
  }

  lemma {:induction false} RunKeeps(steps: seq<Step>)
    requires Run(Spawned(), steps).Some?
    ensures Inv(Run(Spawned(), steps).value)
  {
    if steps == [] {
      SpawnedInv();
    } else {
      RunKeeps(steps[..|steps| - 1]);
      StepKeeps(Run(Spawned(), steps[..|steps| - 1]).value, steps[|steps| - 1]);
    }
  }

  lemma SpawnedInv()
    ensures Inv(Spawned())
  {
  }
}
