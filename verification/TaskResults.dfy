/** Where the result of a task comes from, and what the calls on a task do. */
module TaskResults {
  import opened Options
  import opened TaskWord
  import opened TaskProtocol
  import opened TaskTheorems
  import opened TaskGuarantees

  // ----- Results -----

  /** The poll returned. */
  predicate Returns(a: Step) { a.APollReady? || a.APollPanic? }

  /** What in a run entitles a task to a result. */
  ghost predicate Earned(r: Result, cancelled: bool, steps: seq<Step>) {
    match r
    case Output(v) => APollReady(v) in steps
    case Panicked => APollPanic in steps
    case WasCancelled => cancelled && forall a :: a in steps ==> !Returns(a)
  }

  /** The result is stored, or the finalizer is about to store it. */
  predicate InHand(slot: Slot, agent: Agent, r: Result) {
    slot.produced == Some(r) || (FinalizingAt(agent, StoreOutput) && agent.r == r)
  }

  ghost predicate Traced(slot: Slot, agent: Agent, cancelled: bool, steps: seq<Step>) {
    && (slot.produced.Some? ==> Earned(slot.produced.value, cancelled, steps))
    && (agent.Finalizing? ==> Earned(agent.r, cancelled, steps))
    && (agent.Finalizing? && !agent.pc.StoreOutput? ==> slot.produced == Some(agent.r))
    && (forall v :: APollReady(v) in steps ==> InHand(slot, agent, Output(v)))
    && (APollPanic in steps ==> InHand(slot, agent, Panicked))
  }

  ghost predicate Source(s: Task, steps: seq<Step>) { Traced(s.slot, s.agent, s.flags.cancelled, steps) }

  /** A step in which no poll returns, and which does not touch the finalizer or what was produced. */
  lemma OtherStep(s: Task, steps: seq<Step>, a: Step, t: Task)
    requires Source(s, steps) && !Returns(a) && t.agent == s.agent && t.slot.produced == s.slot.produced
    requires s.flags.cancelled ==> t.flags.cancelled
    ensures Source(t, steps + [a])
  {
  }

  /** A task on whose stage nobody works, and which is not complete, has not returned. */
  lemma NotReturned(s: Task, steps: seq<Step>)
    requires Inv(s) && Source(s, steps) && !s.flags.complete && !s.agent.Finalizing?
    ensures s.slot.produced == None && forall a :: a in steps ==> !Returns(a)
  {
  }

  /** A step that leaves nobody finalizing. */
  lemma QuietStep(s: Task, steps: seq<Step>, a: Step, t: Task)
    requires Source(s, steps) && !Returns(a) && !s.agent.Finalizing? && !t.agent.Finalizing?
    requires t.slot.produced == s.slot.produced && (s.flags.cancelled ==> t.flags.cancelled)
    ensures Source(t, steps + [a])
  {
  }

  /** A cancellation begins to finalize. */
  lemma CancelStep(s: Task, steps: seq<Step>, a: Step, t: Task, b: Backing)
    requires Inv(s) && Source(s, steps) && !Returns(a) && !s.flags.complete && !s.agent.Finalizing?
    requires t.agent == Finalizing(StoreOutput, WasCancelled, b, false) && t.flags.cancelled && t.slot.produced == s.slot.produced
    ensures Source(t, steps + [a])
  {
    NotReturned(s, steps);
  }

  lemma ReturnStep(s: Task, steps: seq<Step>, a: Step, t: Task, r: Result)
    requires Inv(s) && Source(s, steps) && s.agent.Polling?
    requires (a.APollReady? && r == Output(a.v)) || (a.APollPanic? && r == Panicked)
    requires t.agent == Finalizing(StoreOutput, r, RunningPoll, false) && t.slot == s.slot && t.flags == s.flags
    ensures Source(t, steps + [a])
  {
    NotReturned(s, steps);
  }

  /** The finalizer goes on to store, or past it. */
  lemma FinalStep(s: Task, steps: seq<Step>, a: Step, t: Task)
    requires Inv(s) && Source(s, steps) && !Returns(a) && s.agent.Finalizing? && (s.flags.cancelled ==> t.flags.cancelled)
    requires t.slot.produced == (if s.agent.pc.StoreOutput? then Some(s.agent.r) else s.slot.produced)
    requires t.agent.NoAgent? ==> !s.agent.pc.StoreOutput?
    requires t.agent.NoAgent? || (t.agent.Finalizing? && t.agent.r == s.agent.r && !t.agent.pc.StoreOutput?)
    ensures Source(t, steps + [a])
  {
  }

  lemma FinalizerSource(s: Task, steps: seq<Step>, a: Step)
    requires Inv(s) && Source(s, steps) && Next(s, a).Some? && s.mem.frees == 0
    requires a.AFinalizeStore? || a.AFinalizeComplete? || a.AFinalizeWake? || a.AFinalizeDiscard? || a.AFinalizeEnd?
    ensures Source(Next(s, a).value, steps + [a])
  {
    FinalStep(s, steps, a, Next(s, a).value);
  }

  lemma AbortSource(s: Task, steps: seq<Step>, a: Step, b: Backing)
    requires Inv(s) && Source(s, steps) && Next(s, a).Some? && s.mem.frees == 0 && Next(s, a).value == Shutdown(s, b) && !Returns(a)
    ensures Source(Next(s, a).value, steps + [a])
  {
    var t := Shutdown(s, b);
    if t.agent == s.agent { OtherStep(s, steps, a, t); } else { CancelStep(s, steps, a, t, b); }
  }

  lemma PollSource(s: Task, steps: seq<Step>, a: Step)
    requires Inv(s) && Source(s, steps) && Next(s, a).Some? && s.mem.frees == 0
    requires a.ARunEntry? || a.ABeginPoll? || a.APollPending? || Returns(a) || a.AGoIdle?
    ensures Source(Next(s, a).value, steps + [a])
  {
    var t := Next(s, a).value;
    if Returns(a) {
      ReturnStep(s, steps, a, t, if a.APollReady? then Output(a.v) else Panicked);
    } else {
      ClaimSource(s, steps, a);
    }
  }

  lemma ClaimSource(s: Task, steps: seq<Step>, a: Step)
    requires Inv(s) && Source(s, steps) && Next(s, a).Some? && s.mem.frees == 0
    requires a.ARunEntry? || a.ABeginPoll? || a.APollPending? || a.AGoIdle?
    ensures Source(Next(s, a).value, steps + [a])
  {
    var t := Next(s, a).value;
    if t.agent == s.agent {
      OtherStep(s, steps, a, t);
    } else if t.agent.Finalizing? {
      CancelStep(s, steps, a, t, QueueClaim);
    } else {
      QuietStep(s, steps, a, t);
    }
  }

  predicate Works(a: Step) {
    || a.AFinalizeStore? || a.AFinalizeComplete? || a.AFinalizeWake? || a.AFinalizeDiscard? || a.AFinalizeEnd?
    || a.ARunEntry? || a.ABeginPoll? || a.APollPending? || Returns(a) || a.AGoIdle?
    || a.AAbortByJoin? || a.AAbortByHandle? || a.AAbortByScheduler?
  }

  /** A step that leaves the finalizer, what was produced, the cancellation and the completion alone, and
      registers nothing but a task not queued yet. */
  predicate Alone(s: Task, t: Option<Task>) {
    t.Some? ==>
      && t.value.agent == s.agent && t.value.slot.produced == s.slot.produced
      && t.value.flags.cancelled == s.flags.cancelled && t.value.flags.complete == s.flags.complete
      && (t.value.refs.registry ==> s.refs.registry || s.refs.scheds > 0)
  }

  lemma WakersLeaveAlone(s: Task, foreign: bool)
    ensures Alone(s, CloneWaker(s)) && Alone(s, WakeByRef(s, foreign)) && Alone(s, WakeByVal(s, foreign)) && Alone(s, DropWaker(s))
  {
    WakesLeaveAlone(s, foreign);
  }

  lemma WakesLeaveAlone(s: Task, foreign: bool)
    ensures Alone(s, WakeByRef(s, foreign)) && Alone(s, WakeByVal(s, foreign))
  {
    assert Notify(s.flags).1.cancelled == s.flags.cancelled && Notify(s.flags).1.complete == s.flags.complete;
  }

  lemma EntriesLeaveAlone(s: Task)
    ensures Alone(s, Push(s)) && Alone(s, RefusePush(s)) && Alone(s, DropEntry(s))
    ensures Alone(s, UnparkBorrowing(s)) && Alone(s, UnparkGiving(s)) && Alone(s, UnparkDeferring(s))
  {
  }

  lemma HandlesLeaveAlone(s: Task)
    ensures Alone(s, NewAbortHandle(s)) && Alone(s, DropAbortHandle(s)) && Alone(s, Register(s)) && Alone(s, CloseRegistry(s))
  {
  }

  lemma OwnersLeaveAlone(s: Task, now: bool)
    ensures Alone(s, ReleaseShutdownRef(s)) && Alone(s, FinishRelease(s)) && Alone(s, Dealloc(s, now)) && Alone(s, RunDeferred(s))
  {
  }

  lemma JoinPollsLeaveAlone(s: Task)
    ensures Alone(s, JoinPoll(s)) && Alone(s, JoinStore(s)) && Alone(s, JoinFlag(s)) && Alone(s, JoinSelfWake(s))
  {
  }

  lemma JoinDropsLeaveAlone(s: Task)
    ensures Alone(s, JoinDrop(s)) && Alone(s, DropClearFlag(s)) && Alone(s, DropClearWaker(s))
    ensures Alone(s, DropDiscard(s)) && Alone(s, JoinRelease(s))
  {
  }

  lemma OthersLeaveAlone(s: Task, a: Step)
    requires !Works(a)
    ensures Alone(s, Apply(s, a))
  {
    if a.ACloneWaker? || Wakes(a) || a.ADropWaker? {
      WakerLeavesAlone(s, a);
    } else if Scheduling(a) || HandedOver(a) {
      EntriesLeaveAlone(s);
    } else if JoinPolling(a) {
      JoinPollsLeaveAlone(s);
    } else if JoinDropping(a) {
      JoinDropsLeaveAlone(s);
    } else {
      OwnerLeavesAlone(s, a);
    }
  }

  lemma WakerLeavesAlone(s: Task, a: Step)
    requires a.ACloneWaker? || Wakes(a) || a.ADropWaker?
    ensures Alone(s, Apply(s, a))
  {
    WakersLeaveAlone(s, if Wakes(a) then a.foreign else true);
  }

  lemma OwnerLeavesAlone(s: Task, a: Step)
    requires !Works(a) && !Scheduling(a) && !HandedOver(a) && !JoinPolling(a) && !JoinDropping(a)
    ensures Alone(s, Apply(s, a))
  {
    HandlesLeaveAlone(s);
    OwnersLeaveAlone(s, if a.ADealloc? then a.now else true);
  }

  lemma IdlerSource(s: Task, steps: seq<Step>, a: Step)
    requires Source(s, steps) && Next(s, a).Some? && !Works(a)
    ensures Source(Next(s, a).value, steps + [a])
  {
    OthersLeaveAlone(s, a);
    OtherStep(s, steps, a, Next(s, a).value);
  }

  lemma AborterSource(s: Task, steps: seq<Step>, a: Step)
    requires Inv(s) && Source(s, steps) && Next(s, a).Some? && s.mem.frees == 0
    requires a.AAbortByJoin? || a.AAbortByHandle? || a.AAbortByScheduler?
    ensures Source(Next(s, a).value, steps + [a])
  {
    AbortSource(s, steps, a, if a.AAbortByJoin? then ByJoin else if a.AAbortByHandle? then ByAbort else ByShutdown);
  }

  predicate Finalizes(a: Step) {
    a.AFinalizeStore? || a.AFinalizeComplete? || a.AFinalizeWake? || a.AFinalizeDiscard? || a.AFinalizeEnd?
  }

  lemma StepSource(s: Task, steps: seq<Step>, a: Step)
    requires Inv(s) && Source(s, steps) && Next(s, a).Some?
    ensures Source(Next(s, a).value, steps + [a])
  {
    StepKeeps(s, a);
    if !Works(a) {
      IdlerSource(s, steps, a);
    } else if a.AAbortByJoin? || a.AAbortByHandle? || a.AAbortByScheduler? {
      AborterSource(s, steps, a);
    } else if Finalizes(a) {
      FinalizerSource(s, steps, a);
    } else {
      PollSource(s, steps, a);
    }
  }

  function Then(t: Option<Task>, a: Step): Option<Task> { if t.None? then None else Next(t.value, a) }

  lemma OneMore(s: Task, front: seq<Step>, a: Step)
    ensures Run(s, front + [a]) == Then(Run(s, front), a)
  {
    assert (front + [a])[..|front|] == front;
  }

  lemma {:induction false} RunSource(steps: seq<Step>)
    requires Run(Spawned(), steps).Some?
    ensures Source(End(steps), steps)
  {
    if steps != [] {
      var front, a := steps[..|steps| - 1], steps[|steps| - 1];
      assert steps == front + [a];
      OneMore(Spawned(), front, a);
      RunKeeps(front);
      RunSource(front);
      StepSource(Run(Spawned(), front).value, front, a);
    }
  }

  /** Over every run the result of a task is what happened to it: the output that a poll returned, the
      panic of a poll, or a cancellation, and the last only if no poll ever returned. */
  lemma ResultIsEarned(steps: seq<Step>)
    requires Run(Spawned(), steps).Some? && End(steps).slot.produced.Some?
    ensures Earned(End(steps).slot.produced.value, End(steps).flags.cancelled, steps)
  {
    RunSource(steps);
  }

  /** And what a poll returned is the result of the task, as soon as anything is stored: an abort that
      comes later changes nothing. */
  lemma ReturnedIsResult(steps: seq<Step>)
    requires Run(Spawned(), steps).Some? && End(steps).slot.produced.Some?
    ensures forall v :: APollReady(v) in steps ==> End(steps).slot.produced == Some(Output(v))
    ensures APollPanic in steps ==> End(steps).slot.produced == Some(Panicked)
  {
    RunSource(steps);
    RunKeeps(steps);
  }

  // ----- Aborting -----

  predicate Aborts(a: Step) { a.AAbortByJoin? || a.AAbortByHandle? || a.AAbortByScheduler? }

  /** An abort cancels, and it finalizes the task on the spot exactly when nobody else is going to. */
  lemma AbortCancels(s: Task, a: Step)
    requires Inv(s) && Aborts(a) && Next(s, a).Some?
    ensures Next(s, a).value.flags.cancelled
    ensures Next(s, a).value.agent != s.agent <==>
              !s.flags.complete && !s.flags.cancelled && !s.flags.running && !s.flags.notified
    ensures Next(s, a).value.agent != s.agent ==>
              FinalizingAt(Next(s, a).value.agent, StoreOutput) && Next(s, a).value.agent.r == WasCancelled
  {
    StepKeeps(s, a);
    var b := if a.AAbortByJoin? then ByJoin else if a.AAbortByHandle? then ByAbort else ByShutdown;
    assert Next(s, a) == Some(Shutdown(s, b));
    ShutdownCancels(s, b);
  }

  lemma ShutdownCancels(s: Task, b: Backing)
    requires Inv(s)
    ensures var t := Shutdown(s, b);
            && t.flags.cancelled
            && (t.agent != s.agent <==> !s.flags.complete && !s.flags.cancelled && !s.flags.running && !s.flags.notified)
            && (t.agent != s.agent ==> t.agent == Finalizing(StoreOutput, WasCancelled, b, false))
  {
  }

  /** Cancelled while no poll has been begun. */
  predicate Doomed(s: Task) { s.flags.cancelled && !s.agent.Claimed? && !s.agent.Polling? }

  lemma DoomedStep(s: Task, a: Step)
    requires Inv(s) && Doomed(s) && Next(s, a).Some?
    ensures !Returns(a) && Doomed(Next(s, a).value)
  {
    StepKeeps(s, a);
    if !Works(a) {
      OthersLeaveAlone(s, a);
    } else if Finalizes(a) {
      FinalizerStaysDoomed(s, a);
    } else if Aborts(a) {
      AbortCancels(s, a);
    } else {
      PollerStaysDoomed(s, a);
    }
  }

  lemma PollerStaysDoomed(s: Task, a: Step)
    requires Inv(s) && Doomed(s) && Next(s, a).Some?
    requires a.ARunEntry? || a.ABeginPoll? || a.APollPending? || Returns(a) || a.AGoIdle?
    ensures !Returns(a) && Doomed(Next(s, a).value)
  {
  }

  predicate StillDoomed(t: Option<Task>) { t.Some? ==> Doomed(t.value) }

  lemma FinalizingStaysDoomed(s: Task)
    requires Doomed(s)
    ensures StillDoomed(FinalizeStore(s)) && StillDoomed(FinalizeComplete(s)) && StillDoomed(FinalizeWake(s))
    ensures StillDoomed(FinalizeDiscard(s)) && StillDoomed(FinalizeEnd(s))
  {
  }

  lemma FinalizerStaysDoomed(s: Task, a: Step)
    requires Doomed(s) && Finalizes(a) && Next(s, a).Some?
    ensures Doomed(Next(s, a).value)
  {
    FinalizingStaysDoomed(s);
  }

  /** Once a task is cancelled while no poll has been begun, no poll ever returns: whatever result it
      gets from then on is the cancellation, unless an earlier poll had returned. */
  lemma {:induction false} CancelledStaysCancelled(s: Task, steps: seq<Step>)
    requires Inv(s) && Doomed(s) && Run(s, steps).Some?
    ensures Inv(Run(s, steps).value) && Doomed(Run(s, steps).value)
    ensures forall a :: a in steps ==> !Returns(a)
    decreases |steps|
  {
    if steps != [] {
      var front, a := steps[..|steps| - 1], steps[|steps| - 1];
      assert steps == front + [a];
      OneMore(s, front, a);
      CancelledStaysCancelled(s, front);
      StepKeeps(Run(s, front).value, a);
      DoomedStep(Run(s, front).value, a);
    }
  }

  // ----- Joining -----

  /** Polling the join handle of a complete task takes its result, and that alone; before that it goes
      on to store its waker. */
  lemma JoinPollAnswers(steps: seq<Step>)
    requires Run(Spawned(), steps).Some? && Next(End(steps), AJoinPoll).Some?
    ensures var s, t := End(steps), Next(End(steps), AJoinPoll).value;
            && (t.join.JoinReleasing? <==> s.slot.stage.Finished?)
            && (t.join.JoinReleasing? ==> t.slot.taken == 1 && t.slot.handed == s.slot.produced != None)
            && (!t.join.JoinReleasing? ==> t.join.JoinStoring? && t.slot == s.slot)
            && (s.flags.complete ==> t.join.JoinReleasing?)
  {
    RunKeeps(steps);
    StepKeeps(End(steps), AJoinPoll);
  }

  /** A stored join waker is given up without being woken only for a newer one, or with its handle. */
  lemma WakersAreNotThrownAway(s: Task, a: Step)
    requires Inv(s) && Next(s, a).Some?
    ensures var t, u := s.trailer, Next(s, a).value.trailer;
            && (u.superseded != t.superseded ==> a.AJoinStore? || a.ADropClearWaker?)
            && (u.woken != t.woken ==> t.waker && !u.waker && u.woken == t.woken + 1)
            && (t.waker && !u.waker ==> u.woken == t.woken + 1 || a.ADropClearWaker?)
            && (u.stored != t.stored <==> a.AJoinStore?)
  {
    StepKeeps(s, a);
    if TouchesTrailer(a) {
      TrailerMoves(s, a);
    } else {
      TrailerStays(s, a);
    }
  }

  lemma TrailerMoves(s: Task, a: Step)
    requires Apply(s, a).Some? && (a.AJoinStore? || a.AJoinSelfWake? || a.ADropClearWaker? || a.AFinalizeWake?)
    ensures var t, u := s.trailer, Apply(s, a).value.trailer;
            && (u.superseded != t.superseded ==> a.AJoinStore? || a.ADropClearWaker?)
            && (u.woken != t.woken ==> t.waker && !u.waker && u.woken == t.woken + 1)
            && (t.waker && !u.waker ==> u.woken == t.woken + 1 || a.ADropClearWaker?)
            && (u.stored != t.stored <==> a.AJoinStore?)
  {
  }

  predicate TouchesTrailer(a: Step) { a.AJoinStore? || a.AJoinSelfWake? || a.ADropClearWaker? || a.AFinalizeWake? }

  lemma TrailerStays(s: Task, a: Step)
    requires Apply(s, a).Some? && !TouchesTrailer(a)
    ensures Apply(s, a).value.trailer == s.trailer
  {
    if Scheduling(a) {
      SchedulersLeaveTrailer(s, a);
    } else if JoinPolling(a) || JoinDropping(a) {
      JoinersLeaveTrailer(s, a);
    } else if Works(a) {
      WorkersLeaveTrailer(s, a);
    } else {
      OwnersLeaveTrailer(s, a);
    }
  }

  lemma SchedulersLeaveTrailer(s: Task, a: Step)
    requires Apply(s, a).Some? && Scheduling(a)
    ensures Apply(s, a).value.trailer == s.trailer
  {
    if Works(a) { PollersLeaveTrailer(s, a); } else { QueuersLeaveTrailer(s, a); }
  }

  lemma PollersLeaveTrailer(s: Task, a: Step)
    requires Apply(s, a).Some? && Scheduling(a) && Works(a)
    ensures Apply(s, a).value.trailer == s.trailer
  {
  }

  lemma QueuersLeaveTrailer(s: Task, a: Step)
    requires Apply(s, a).Some? && Scheduling(a) && !Works(a)
    ensures Apply(s, a).value.trailer == s.trailer
  {
  }

  lemma JoinersLeaveTrailer(s: Task, a: Step)
    requires Apply(s, a).Some? && !TouchesTrailer(a) && (JoinPolling(a) || JoinDropping(a))
    ensures Apply(s, a).value.trailer == s.trailer
  {
  }

  lemma WorkersLeaveTrailer(s: Task, a: Step)
    requires Apply(s, a).Some? && Works(a) && !a.AFinalizeWake?
    ensures Apply(s, a).value.trailer == s.trailer
  {
    if Finalizes(a) { FinalizersLeaveTrailer(s, a); }
  }

  lemma FinalizersLeaveTrailer(s: Task, a: Step)
    requires Apply(s, a).Some? && Finalizes(a) && !a.AFinalizeWake?
    ensures Apply(s, a).value.trailer == s.trailer
  {
  }

  lemma OwnersLeaveTrailer(s: Task, a: Step)
    requires Apply(s, a).Some? && !Works(a) && !Scheduling(a) && !JoinPolling(a) && !JoinDropping(a)
    ensures Apply(s, a).value.trailer == s.trailer
  {
  }

  // ----- Waking -----

  predicate Wakes(a: Step) { a.AWakeByRef? || a.AWakeByVal? }

  /** A wake of a live task is remembered. */
  lemma WakeIsRemembered(s: Task, a: Step)
    requires Inv(s) && Live(s) && Wakes(a) && Next(s, a).Some?
    ensures Next(s, a).value.owed && Next(s, a).value.flags.notified && Pending(Next(s, a).value)
  {
  }

  /** And it is forgotten only when a poll of the task begins. */
  lemma WakeIsForgottenByPoll(s: Task, a: Step)
    requires s.owed && Next(s, a).Some? && !Next(s, a).value.owed
    ensures a.ARunEntry? && Next(s, a).value.agent.Claimed?
  {
    if !a.ARunEntry? { OwedStays(s, a); }
  }

  lemma OwedStays(s: Task, a: Step)
    requires Apply(s, a).Some? && !a.ARunEntry? && s.owed
    ensures Apply(s, a).value.owed
  {
    if Scheduling(a) {
      SchedulersKeepOwed(s, a);
    } else if JoinPolling(a) || JoinDropping(a) {
      JoinersKeepOwed(s, a);
    } else {
      OwnersKeepOwed(s, a);
    }
  }

  lemma SchedulersKeepOwed(s: Task, a: Step)
    requires Apply(s, a).Some? && !a.ARunEntry? && s.owed && Scheduling(a)
    ensures Apply(s, a).value.owed
  {
  }

  lemma JoinersKeepOwed(s: Task, a: Step)
    requires Apply(s, a).Some? && s.owed && (JoinPolling(a) || JoinDropping(a))
    ensures Apply(s, a).value.owed
  {
  }

  lemma OwnersKeepOwed(s: Task, a: Step)
    requires Apply(s, a).Some? && s.owed && !Scheduling(a) && !JoinPolling(a) && !JoinDropping(a)
    ensures Apply(s, a).value.owed
  {
  }

  // ----- Handles -----

  /** Whoever has a waker, an entry or a handle can use it: below the reference bound nothing is in the
      way but the finalizer that borrows the handle, and for a join poll the poll in progress. */
  lemma HandlesWork(s: Task, foreign: bool)
    requires s.count < REF_MAX_COUNT
    ensures s.refs.wakers > 0 ==> CloneWaker(s).Some? && WakeByRef(s, foreign).Some?
    ensures s.refs.wakers > 1 || (s.refs.wakers == 1 && s.tails.borrowed == 0) ==>
              WakeByVal(s, foreign).Some? && DropWaker(s).Some?
    ensures s.refs.scheds > 0 ==> Push(s).Some?
    ensures s.refs.entries > 0 ==> RunEntry(s).Some?
    ensures s.join.JoinIdle? ==> AbortByJoin(s).Some? && NewAbortHandle(s).Some?
    ensures s.join.JoinIdle? && !(s.agent.Finalizing? && s.agent.backing.ByJoin?) ==> JoinDrop(s).Some?
    ensures s.join.JoinIdle? && !(s.agent.Finalizing? && s.agent.backing.ByJoin?) && !s.agent.Polling? ==> JoinPoll(s).Some?
    ensures s.refs.aborts > 0 ==> AbortByHandle(s).Some?
    ensures s.refs.aborts > 1 || (s.refs.aborts == 1 && !(s.agent.Finalizing? && s.agent.backing.ByAbort?)) ==>
              DropAbortHandle(s).Some?
    ensures s.refs.shutdown ==> AbortByScheduler(s).Some?
  {
  }

  // ----- The registry -----

  predicate Unregistered(s: Task) { s.flags.complete && s.agent.NoAgent? ==> !s.refs.registry }

  lemma UnregisteredStep(s: Task, a: Step)
    requires Inv(s) && Unregistered(s) && Next(s, a).Some?
    ensures Unregistered(Next(s, a).value)
  {
    StepKeeps(s, a);
    if Works(a) {
      WorkerUnregisters(s, a);
    } else {
      OthersLeaveAlone(s, a);
    }
  }

  lemma WorkerUnregisters(s: Task, a: Step)
    requires Inv(s) && Unregistered(s) && Works(a) && Next(s, a).Some?
    ensures Unregistered(Next(s, a).value)
  {
    if Finalizes(a) {
      FinalizerUnregisters(s, a);
    } else if Aborts(a) {
      AbortCancels(s, a);
    } else {
      PollerUnregisters(s, a);
    }
  }

  lemma FinalizerUnregisters(s: Task, a: Step)
    requires Inv(s) && Finalizes(a) && Next(s, a).Some?
    ensures Unregistered(Next(s, a).value)
  {
  }

  lemma PollerUnregisters(s: Task, a: Step)
    requires Inv(s) && Unregistered(s) && Next(s, a).Some?
    requires a.ARunEntry? || a.ABeginPoll? || a.APollPending? || Returns(a) || a.AGoIdle?
    ensures Unregistered(Next(s, a).value)
  {
  }

  /** The registry lets go of a task when it is done. */
  lemma {:induction false} DoneIsUnregistered(steps: seq<Step>)
    requires Run(Spawned(), steps).Some?
    ensures Unregistered(End(steps))
  {
    if steps != [] {
      var k := |steps| - 1;
      RunKeeps(steps[..k]);
      DoneIsUnregistered(steps[..k]);
      UnregisteredStep(End(steps[..k]), steps[k]);
    }
  }
}
