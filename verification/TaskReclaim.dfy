/** A task cell can always be reclaimed, and who may still read it afterwards. */
module TaskReclaim {
  import opened Options
  import opened TaskWord
  import opened TaskProtocol
  import opened TaskTheorems
  import opened TaskGuarantees

  // ----- Runs, from the front -----

  lemma {:induction false} RunCons(s: Task, a: Step, rest: seq<Step>)
    requires Next(s, a).Some?
    ensures Run(s, [a] + rest) == Run(Next(s, a).value, rest)
    decreases |rest|
  {
    var all := [a] + rest;
    var k := |rest|;
    assert all[..k] == if rest == [] then [] else [a] + rest[..k - 1];
    if rest != [] {
      RunCons(s, a, rest[..k - 1]);
      assert all[k] == rest[k - 1];
    } else {
      assert Run(s, []) == Some(s);
    }
  }

  function Then(t: Option<Task>, a: Step): Option<Task> { if t.None? then None else Next(t.value, a) }

  lemma RunLast(s: Task, steps: seq<Step>, a: Step)
    ensures Run(s, steps + [a]) == Then(Run(s, steps), a)
  {
    assert (steps + [a])[..|steps|] == steps;
  }

  lemma {:induction false} RunChain(s: Task, first: seq<Step>, more: seq<Step>)
    requires Run(s, first).Some?
    ensures Run(s, first + more) == Run(Run(s, first).value, more)
    decreases |more|
  {
    if more == [] {
      assert first + more == first;
    } else {
      var front, a := more[..|more| - 1], more[|more| - 1];
      assert front + [a] == more && (first + front) + [a] == first + more;
      RunChain(s, first, front);
      ChainLast(s, first + front, Run(s, first).value, front, a);
    }
  }

  lemma ChainLast(s: Task, whole: seq<Step>, t: Task, front: seq<Step>, a: Step)
    requires Run(s, whole) == Run(t, front)
    ensures Run(s, whole + [a]) == Run(t, front + [a])
  {
    RunLast(s, whole, a);
    RunLast(t, front, a);
  }

  lemma {:induction false} RunInv(s: Task, steps: seq<Step>)
    requires Inv(s) && Run(s, steps).Some?
    ensures Inv(Run(s, steps).value)
    decreases |steps|
  {
    if steps != [] {
      var k := |steps| - 1;
      RunInv(s, steps[..k]);
      StepKeeps(Run(s, steps[..k]).value, steps[k]);
    }
  }

  // ----- Giving everything up -----

  function AgentLoad(a: Agent): nat {
    match a
    case Claimed => 9
    case Polling => 8
    case ReturnedPending => 12
    case Finalizing(pc, _, _, _) =>
      if pc.StoreOutput? then 6 else if pc.MarkComplete? then 5 else if pc.WakeJoiner? then 4
      else if pc.DiscardOutput? then 3 else 2
    case NoAgent => 0
  }

  function JoinLoad(j: Join): nat {
    match j
    case JoinStoring => 8
    case JoinFlagging => 7
    case JoinSelfWaking => 6
    case JoinIdle => 5
    case DropClearingFlag(_) => 4
    case DropClearingWaker(_) => 3
    case DropDiscarding(_) => 2
    case JoinReleasing => 1
    case JoinGone => 0
  }

  /** How much is left to finish and to give up. */
  function Load(s: Task): nat {
    AgentLoad(s.agent) + JoinLoad(s.join) + 11 * s.refs.scheds + 10 * s.refs.entries + s.refs.releasing
    + s.refs.wakers + s.tails.borrowed + s.refs.aborts + 3 * One(s.refs.registry) + One(s.refs.shutdown)
  }

  function AgentStep(a: Agent): Step {
    match a
    case Claimed => ABeginPoll
    case Polling => APollPanic
    case ReturnedPending => AGoIdle
    case Finalizing(pc, _, _, _) =>
      if pc.StoreOutput? then AFinalizeStore else if pc.MarkComplete? then AFinalizeComplete
      else if pc.WakeJoiner? then AFinalizeWake else if pc.DiscardOutput? then AFinalizeDiscard else AFinalizeEnd
    case NoAgent => ARunDeferred
  }

  function JoinStep(j: Join): Step {
    match j
    case JoinStoring => AJoinStore
    case JoinFlagging => AJoinFlag
    case JoinSelfWaking => AJoinSelfWake
    case JoinIdle => AJoinDrop
    case DropClearingFlag(_) => ADropClearFlag
    case DropClearingWaker(_) => ADropClearWaker
    case DropDiscarding(_) => ADropDiscard
    case JoinReleasing => AJoinRelease
    case JoinGone => ARunDeferred
  }

  /** The next thing to finish or to give up. */
  function GiveUp(s: Task): Step {
    if !s.agent.NoAgent? then AgentStep(s.agent)
    else if s.refs.scheds > 0 then APush
    else if s.refs.entries > 0 then ARunEntry
    else if s.refs.releasing > 0 then AFinishRelease
    else if !s.join.JoinGone? then JoinStep(s.join)
    else if s.tails.borrowed > 0 then AUnparkBorrowing
    else if s.refs.wakers > 0 then ADropWaker
    else if s.refs.aborts > 0 then ADropAbortHandle
    else if s.refs.shutdown then AReleaseShutdownRef
    else ACloseRegistry
  }

  /** No thread that still has to wake the owner does so, and none is forgotten. */
  predicate TailsStay(s: Task, t: Task) { t.tails.given >= s.tails.given && t.tails.deferring >= s.tails.deferring }

  /** A step that can be taken, leaves less to do and frees nothing. */
  predicate Lighter(s: Task, t: Option<Task>) {
    t.Some? && Load(t.value) < Load(s) && TailsStay(s, t.value) && t.value.mem.frees == s.mem.frees
  }

  lemma PollLighter(s: Task)
    ensures s.agent.Claimed? ==> Lighter(s, BeginPoll(s))
    ensures s.agent.Polling? ==> Lighter(s, PollDone(s, Panicked))
  {
  }

  lemma IdleLighter(s: Task)
    requires s.agent.ReturnedPending?
    ensures Lighter(s, GoIdle(s))
  {
  }

  lemma StoreLighter(s: Task)
    requires s.agent.Finalizing?
    ensures s.agent.pc.StoreOutput? ==> Lighter(s, FinalizeStore(s))
    ensures s.agent.pc.MarkComplete? && !s.flags.complete ==> Lighter(s, FinalizeComplete(s))
  {
  }

  lemma FinishLighter(s: Task)
    requires s.agent.Finalizing?
    ensures s.agent.pc.WakeJoiner? ==> Lighter(s, FinalizeWake(s))
    ensures s.agent.pc.DiscardOutput? ==> Lighter(s, FinalizeDiscard(s))
    ensures s.agent.pc.Unregister? ==> Lighter(s, FinalizeEnd(s))
  {
  }

  lemma AgentLighter(s: Task)
    requires Inv(s) && !s.agent.NoAgent?
    ensures Lighter(s, Apply(s, AgentStep(s.agent)))
  {
    match s.agent {
      case Claimed => PollLighter(s);
      case Polling => PollLighter(s);
      case ReturnedPending => IdleLighter(s);
      case Finalizing(pc, _, _, _) =>
        if pc.StoreOutput? || pc.MarkComplete? { StoreLighter(s); } else { FinishLighter(s); }
    }
  }

  lemma JoinPollLighter(s: Task)
    ensures s.join.JoinStoring? ==> Lighter(s, JoinStore(s))
    ensures s.join.JoinFlagging? ==> Lighter(s, JoinFlag(s))
    ensures s.join.JoinSelfWaking? ==> Lighter(s, JoinSelfWake(s))
  {
  }

  lemma JoinDropLighter(s: Task)
    requires s.agent.NoAgent?
    ensures s.join.JoinIdle? ==> Lighter(s, JoinDrop(s))
    ensures s.join.DropClearingFlag? ==> Lighter(s, DropClearFlag(s))
    ensures s.join.DropClearingWaker? ==> Lighter(s, DropClearWaker(s))
    ensures s.join.DropDiscarding? ==> Lighter(s, DropDiscard(s))
    ensures s.join.JoinReleasing? ==> Lighter(s, JoinRelease(s))
  {
  }

  lemma JoinLighter(s: Task)
    requires s.agent.NoAgent? && !s.join.JoinGone?
    ensures Lighter(s, Apply(s, JoinStep(s.join)))
  {
    match s.join {
      case JoinStoring => JoinPollLighter(s);
      case JoinFlagging => JoinPollLighter(s);
      case JoinSelfWaking => JoinPollLighter(s);
      case _ => JoinDropLighter(s);
    }
  }

  lemma RunEntryLighter(s: Task)
    requires s.agent.NoAgent? && s.refs.entries > 0
    ensures Lighter(s, RunEntry(s))
  {
  }

  lemma EntryLighter(s: Task)
    requires s.agent.NoAgent?
    ensures s.refs.scheds > 0 ==> Lighter(s, Push(s))
    ensures s.refs.entries > 0 ==> Lighter(s, RunEntry(s))
    ensures s.refs.releasing > 0 ==> Lighter(s, FinishRelease(s))
  {
    if s.refs.scheds > 0 { assert Load(Push(s).value) == Load(s) - 1; }
    if s.refs.entries > 0 { RunEntryLighter(s); }
    if s.refs.releasing > 0 { assert Load(FinishRelease(s).value) == Load(s) - 1; }
  }

  lemma WakerLighter(s: Task)
    requires s.agent.NoAgent?
    ensures s.refs.scheds == 0 && s.tails.borrowed > 0 ==> Lighter(s, UnparkBorrowing(s))
    ensures s.tails.borrowed == 0 && s.refs.wakers > 0 ==> Lighter(s, DropWaker(s))
  {
  }

  lemma HandleLighter(s: Task)
    requires s.agent.NoAgent?
    ensures s.refs.aborts > 0 ==> Lighter(s, DropAbortHandle(s))
    ensures s.refs.shutdown ==> Lighter(s, ReleaseShutdownRef(s))
    ensures s.refs.registry && !s.refs.shutdown ==> Lighter(s, CloseRegistry(s))
  {
  }

  lemma ReferenceLighter(s: Task)
    requires s.agent.NoAgent? && s.join.JoinGone? && Owners(s) > s.mem.deferred
    requires s.refs.scheds == 0 && s.refs.entries == 0 && s.refs.releasing == 0
    ensures Lighter(s, Apply(s, GiveUp(s)))
  {
    WakerLighter(s);
    HandleLighter(s);
  }

  lemma GiveUpLighter(s: Task)
    requires Inv(s) && Owners(s) > s.mem.deferred
    ensures Lighter(s, Apply(s, GiveUp(s)))
  {
    if !s.agent.NoAgent? {
      AgentLighter(s);
    } else if s.refs.scheds > 0 || s.refs.entries > 0 || s.refs.releasing > 0 {
      EntryLighter(s);
    } else if !s.join.JoinGone? {
      JoinLighter(s);
    } else {
      ReferenceLighter(s);
    }
  }

  lemma LighterStep(s: Task, a: Step)
    requires Inv(s) && s.mem.frees == 0 && Lighter(s, Apply(s, a))
    ensures Lighter(s, Next(s, a)) && Inv(Next(s, a).value)
  {
    assert Next(s, a) == Apply(s, a);
    StepKeeps(s, a);
  }

  lemma StillOwned(s: Task)
    requires Inv(s) && s.mem.frees == 0 && Going(s.mem) == 0
    ensures Owners(s) > s.mem.deferred
  {
  }

  /** While somebody owns the cell, something can be finished or given up. */
  lemma GiveUpAdvances(s: Task)
    requires Inv(s) && s.mem.frees == 0 && Going(s.mem) == 0
    ensures Lighter(s, Next(s, GiveUp(s))) && Inv(Next(s, GiveUp(s)).value)
  {
    StillOwned(s);
    GiveUpLighter(s);
    LighterStep(s, GiveUp(s));
  }

  /** From every state in which the cell lives, a run frees it, in which none of the threads that have
      handed their reference over gets to wake the owner. Nothing can keep a cell alive for good. */
  lemma {:induction false} CanBeFreed(s: Task) returns (steps: seq<Step>)
    requires Inv(s) && s.mem.frees == 0
    ensures Run(s, steps).Some? && Run(s, steps).value.mem.frees == 1 && TailsStay(s, Run(s, steps).value)
    decreases Load(s)
  {
    if Going(s.mem) == 1 {
      var a := if s.mem.deallocating == 1 then ADealloc(true) else ARunDeferred;
      steps := [a];
      RunCons(s, a, []);
      assert Run(Next(s, a).value, []) == Some(Next(s, a).value);
    } else {
      GiveUpAdvances(s);
      var t := Next(s, GiveUp(s)).value;
      var rest := CanBeFreed(t);
      steps := [GiveUp(s)] + rest;
      RunCons(s, GiveUp(s), rest);
    }
  }

  // ----- Who reads the cell too late -----

  /** The three ways to be behind a push with the owner still to be woken. */
  datatype Waker = ByReference | ByValue | Deferred

  function Unpark(w: Waker): Step {
    match w case ByReference => AUnparkBorrowing case ByValue => AUnparkGiving case Deferred => AUnparkDeferring
  }

  /** A thread of this kind has pushed and still has to wake the owner. */
  predicate Waits(s: Task, w: Waker) {
    match w
    case ByReference => Borrowers(s) > 0
    case ByValue => s.tails.given > 0
    case Deferred => s.tails.deferring > 0
  }

  /** From `s`, somebody may free the cell while a thread of this kind still has to read it. */
  ghost predicate CanComeTooLate(s: Task, w: Waker) {
    exists more :: Run(s, more).Some? && Waits(Run(s, more).value, w) && Run(s, more).value.mem.frees > 0
  }

  /** A wake by reference, whatever happens around it, reads a live cell: its own waker pins it. */
  lemma BorrowedIsPinned(s: Task)
    requires Inv(s) && Waits(s, ByReference)
    ensures s.mem.frees == 0
  {
    assert s.refs.wakers > 0;
    AliveWhileOwned(s);
  }

  /** The cell is there exactly as long as somebody owns it or the thread that took the last reference
      has not deallocated it. So a thread behind a push is safe if another owner outlives its call. */
  lemma AliveIff(steps: seq<Step>)
    requires Run(Spawned(), steps).Some?
    ensures End(steps).mem.frees == 0 <==> Owners(End(steps)) > 0 || End(steps).mem.deallocating == 1
  {
    RunKeeps(steps);
    var s := End(steps);
    if s.mem.frees == 0 && s.count == 0 { assert s.mem.deallocating == 1; }
  }

  /** In every reachable state with a living cell, a thread that has pushed and still has to wake the
      owner can find the cell freed exactly when it did not wake by reference: a wake by value has given
      its only reference to the entry, a deferred deallocation its last one to the queue. */
  lemma TooLateIff(steps: seq<Step>, w: Waker)
    requires Run(Spawned(), steps).Some? && End(steps).mem.frees == 0 && Waits(End(steps), w)
    ensures CanComeTooLate(End(steps), w) <==> w != ByReference
  {
    RunKeeps(steps);
    var s := End(steps);
    if w == ByReference {
      forall more | Run(s, more).Some? && Waits(Run(s, more).value, w) ensures Run(s, more).value.mem.frees == 0 {
        RunInv(s, more);
        BorrowedIsPinned(Run(s, more).value);
      }
    } else {
      var more := CanBeFreed(s);
      assert Waits(Run(s, more).value, w);
    }
  }

  /** Waking the owner behind a push is safe exactly while somebody owns the cell or its deallocation is
      still under way; for a wake by reference that is always so. */
  lemma UnparkIsSafeIff(steps: seq<Step>, w: Waker)
    requires Run(Spawned(), steps).Some? && !End(steps).dangled && Waits(End(steps), w)
    ensures Next(End(steps), Unpark(w)).Some?
    ensures !Next(End(steps), Unpark(w)).value.dangled <==> Owners(End(steps)) > 0 || End(steps).mem.deallocating == 1
    ensures w == ByReference ==> Owners(End(steps)) > 0
  {
    RunKeeps(steps);
    AliveIff(steps);
    DangledIff(End(steps), Unpark(w));
    if w == ByReference { BorrowedIsPinned(End(steps)); }
  }

  /** A step reads a freed cell exactly when it is taken by a thread that has handed its reference
      over, after the cell was freed. */
  lemma DangledIff(s: Task, a: Step)
    requires Inv(s) && Next(s, a).Some?
    ensures Next(s, a).value.dangled <==> s.dangled || (s.mem.frees > 0 && HandedOver(a))
  {
    ApplyIsSafe(s, a);
  }

  lemma ApplyIsSafe(s: Task, a: Step)
    requires Apply(s, a).Some?
    ensures Apply(s, a).value.dangled == s.dangled
  {
    if Scheduling(a) {
      SchedulingIsSafe(s, a);
    } else if JoinPolling(a) || JoinDropping(a) {
      JoiningIsSafe(s, a);
    } else {
      OwningIsSafe(s, a);
    }
  }

  lemma SchedulingIsSafe(s: Task, a: Step)
    requires Scheduling(a) && Apply(s, a).Some?
    ensures Apply(s, a).value.dangled == s.dangled
  {
  }

  lemma JoiningIsSafe(s: Task, a: Step)
    requires (JoinPolling(a) || JoinDropping(a)) && Apply(s, a).Some?
    ensures Apply(s, a).value.dangled == s.dangled
  {
  }

  lemma OwningIsSafe(s: Task, a: Step)
    requires !Scheduling(a) && !JoinPolling(a) && !JoinDropping(a) && Apply(s, a).Some?
    ensures Apply(s, a).value.dangled == s.dangled
  {
  }

  // ----- Runs that read the freed cell -----

  /** One more step of a run. */
  lemma Extend(s: Task, steps: seq<Step>, t: Task, a: Step, u: Task) returns (longer: seq<Step>)
    requires Run(s, steps) == Some(t) && t.mem.frees == 0 && Apply(t, a) == Some(u)
    ensures longer == steps + [a] && Run(s, longer) == Some(u)
  {
    longer := steps + [a];
    assert longer[..|steps|] == steps;
  }

  lemma RunJoin(s: Task, a: seq<Step>, t: Task, b: seq<Step>, u: Task) returns (all: seq<Step>)
    requires Run(s, a) == Some(t) && Run(t, b) == Some(u)
    ensures Run(s, all) == Some(u)
  {
    RunChain(s, a, b);
    all := a + b;
  }

  /** A task that waits to be woken, whose only owner is one waker. */
  predicate Detached(s: Task) {
    && s.agent.NoAgent? && s.join.JoinGone? && s.refs == Refs(1, 0, false, false, 0, 0, 0) && s.count == 1
    && s.flags == Flags(false, false, false, false, false, false) && s.slot == Slot(Future, 0, None, 0, None)
    && s.mem == Memory(0, 0, 0) && s.tails.borrowed == 0 && s.tails.given == 0 && !s.trailer.waker && !s.fault
  }

  /** Its waker is used by value, and the entry pushed. */
  function WokenByValue(s: Task): Task {
    s.(refs := Refs(0, 0, false, false, 0, 1, 0), flags := s.flags.(notified := true), owed := true, unpushed := false,
       tails := s.tails.(pusher := Giving, given := 1))
  }

  /** The owner takes the entry up and polls. */
  function TakenUp(s: Task): Task {
    WokenByValue(s).(refs := Refs(0, 0, false, false, 0, 0, 0), flags := s.flags.(running := true), owed := false, agent := Claimed)
  }

  function PolledAgain(s: Task): Task { TakenUp(s).(agent := Polling) }

  /** The poll yields `v`, and the task completes. */
  function Returned(s: Task, v: int): Task {
    PolledAgain(s).(slot := Slot(Finished(Output(v)), 1, Some(Output(v)), 0, None),
                    agent := Finalizing(MarkComplete, Output(v), RunningPoll, false))
  }

  function Completed(s: Task, v: int): Task {
    Returned(s, v).(flags := s.flags.(complete := true), completions := s.completions + 1,
                    agent := Finalizing(WakeJoiner, Output(v), RunningPoll, false))
  }

  /** Its output is thrown away, and its last reference is about to be dropped. */
  function Discarded(s: Task, v: int): Task {
    Completed(s, v).(slot := Slot(Consumed, 1, Some(Output(v)), 1, Some(Output(v))),
                     agent := Finalizing(Unregister, Output(v), RunningPoll, false))
  }

  function Unreferenced(s: Task, v: int): Task {
    Discarded(s, v).(agent := NoAgent, refs := Refs(0, 0, false, false, 0, 0, 1))
  }

  /** The cell is freed. */
  function Released(s: Task, v: int): Task {
    Unreferenced(s, v).(count := 0, refs := Refs(0, 0, false, false, 0, 0, 0), mem := Memory(1, 0, 0))
  }

  function Freed(s: Task, v: int): Task { Released(s, v).(mem := Memory(0, 0, 1)) }

  lemma WakeAndPush(s: Task) returns (steps: seq<Step>)
    requires Detached(s)
    ensures Run(s, steps) == Some(WokenByValue(s))
  {
    var t0 := s;
    assert Run(t0, []) == Some(t0);
    steps := [];
    var t1 := t0.(refs := Refs(0, 0, false, false, 1, 0, 0), flags := s.flags.(notified := true), owed := true, tails := s.tails.(pusher := Giving));
    assert WakeByVal(t0, true) == Some(t1);
    steps := Extend(t0, steps, t0, AWakeByVal(true), t1);
    var t2 := WokenByValue(s);
    assert Push(t1) == Some(t2);
    steps := Extend(t0, steps, t1, APush, t2);
  }

  lemma TakeEntry(s: Task) returns (steps: seq<Step>)
    requires Detached(s)
    ensures Run(WokenByValue(s), steps) == Some(TakenUp(s))
  {
    var t0 := WokenByValue(s);
    assert Run(t0, []) == Some(t0);
    steps := [];
    var t1 := TakenUp(s);
    assert RunEntry(t0) == Some(t1);
    steps := Extend(t0, steps, t0, ARunEntry, t1);
  }

  lemma PollEntry(s: Task) returns (steps: seq<Step>)
    requires Detached(s)
    ensures Run(TakenUp(s), steps) == Some(PolledAgain(s))
  {
    var t0 := TakenUp(s);
    assert Run(t0, []) == Some(t0);
    steps := [];
    var t1 := PolledAgain(s);
    assert BeginPoll(t0) == Some(t1);
    steps := Extend(t0, steps, t0, ABeginPoll, t1);
  }

  lemma Return(s: Task, v: int) returns (steps: seq<Step>)
    requires Detached(s)
    ensures Run(PolledAgain(s), steps) == Some(Returned(s, v))
  {
    var t0 := PolledAgain(s);
    assert Run(t0, []) == Some(t0);
    steps := [];
    var t1 := t0.(agent := Finalizing(StoreOutput, Output(v), RunningPoll, false));
    assert PollDone(t0, Output(v)) == Some(t1);
    steps := Extend(t0, steps, t0, APollReady(v), t1);
    var t2 := Returned(s, v);
    assert FinalizeStore(t1) == Some(t2);
    steps := Extend(t0, steps, t1, AFinalizeStore, t2);
  }

  lemma Complete(s: Task, v: int) returns (steps: seq<Step>)
    requires Detached(s)
    ensures Run(Returned(s, v), steps) == Some(Completed(s, v))
  {
    var t0 := Returned(s, v);
    assert Run(t0, []) == Some(t0);
    steps := [];
    var t1 := Completed(s, v);
    assert FinalizeComplete(t0) == Some(t1);
    steps := Extend(t0, steps, t0, AFinalizeComplete, t1);
  }

  lemma Discard(s: Task, v: int) returns (steps: seq<Step>)
    requires Detached(s)
    ensures Run(Completed(s, v), steps) == Some(Discarded(s, v))
  {
    var t0 := Completed(s, v);
    assert Run(t0, []) == Some(t0);
    steps := [];
    var t1 := t0.(agent := Finalizing(DiscardOutput, Output(v), RunningPoll, false));
    assert FinalizeWake(t0) == Some(t1);
    steps := Extend(t0, steps, t0, AFinalizeWake, t1);
    var t2 := Discarded(s, v);
    assert FinalizeDiscard(t1) == Some(t2);
    steps := Extend(t0, steps, t1, AFinalizeDiscard, t2);
  }

  lemma Finish(s: Task, v: int) returns (steps: seq<Step>)
    requires Detached(s)
    ensures Run(Discarded(s, v), steps) == Some(Unreferenced(s, v))
  {
    var t0 := Discarded(s, v);
    assert Run(t0, []) == Some(t0);
    steps := [];
    var t1 := Unreferenced(s, v);
    assert FinalizeEnd(t0) == Some(t1);
    steps := Extend(t0, steps, t0, AFinalizeEnd, t1);
  }

  lemma DropLast(s: Task, v: int) returns (steps: seq<Step>)
    requires Detached(s)
    ensures Run(Unreferenced(s, v), steps) == Some(Released(s, v))
  {
    var t0 := Unreferenced(s, v);
    assert Run(t0, []) == Some(t0);
    steps := [];
    var t1 := Released(s, v);
    assert FinishRelease(t0) == Some(t1);
    steps := Extend(t0, steps, t0, AFinishRelease, t1);
  }

  lemma Free(s: Task, v: int) returns (steps: seq<Step>)
    requires Detached(s)
    ensures Run(Released(s, v), steps) == Some(Freed(s, v))
  {
    var t0 := Released(s, v);
    assert Run(t0, []) == Some(t0);
    steps := [];
    var t1 := Freed(s, v);
    assert Dealloc(t0, true) == Some(t1);
    steps := Extend(t0, steps, t0, ADealloc(true), t1);
  }

  lemma LastAccess(t: Task)
    requires t.mem.frees == 1 && t.tails.given == 1 && !t.fault
    ensures Next(t, AUnparkGiving).Some? && Next(t, AUnparkGiving).value.dangled && !Next(t, AUnparkGiving).value.fault
  {
  }

  /** A thread wakes such a task by value from outside the owner's fast path and pushes the entry; the
      owner runs the entry to the end, whatever it yields, and frees the cell; then the thread goes on to
      wake the owner, through the freed cell. */
  lemma WakeByValueReadsFreedCell(s: Task, v: int) returns (steps: seq<Step>)
    requires Detached(s)
    ensures Run(s, steps).Some? && Run(s, steps).value.dangled && !Run(s, steps).value.fault
  {
    steps := WakeAndPush(s);
    var next := TakeEntry(s);
    steps := RunJoin(s, steps, WokenByValue(s), next, TakenUp(s));
    next := PollEntry(s);
    steps := RunJoin(s, steps, TakenUp(s), next, PolledAgain(s));
    next := Return(s, v);
    steps := RunJoin(s, steps, PolledAgain(s), next, Returned(s, v));
    next := Complete(s, v);
    steps := RunJoin(s, steps, Returned(s, v), next, Completed(s, v));
    next := Discard(s, v);
    steps := RunJoin(s, steps, Completed(s, v), next, Discarded(s, v));
    next := Finish(s, v);
    steps := RunJoin(s, steps, Discarded(s, v), next, Unreferenced(s, v));
    next := DropLast(s, v);
    steps := RunJoin(s, steps, Unreferenced(s, v), next, Released(s, v));
    next := Free(s, v);
    steps := RunJoin(s, steps, Released(s, v), next, Freed(s, v));
    LastAccess(Freed(s, v));
    RunLast(s, steps, AUnparkGiving);
    steps := steps + [AUnparkGiving];
  }

  // ----- Such a task exists -----

  /** Being polled for the first time. */
  function FirstPoll(): Task {
    Spawned().(agent := Polling, flags := Flags(true, false, false, false, true, false), refs := Refs(0, 0, false, false, 0, 0, 0),
               unpushed := false, owed := false)
  }

  /** Waiting, with one waker out. */
  function Parked(): Task {
    Spawned().(flags := Flags(false, false, false, false, true, false), refs := Refs(1, 0, false, false, 0, 0, 0),
               unpushed := false, owed := false)
  }

  lemma RunsToFirstPoll() returns (steps: seq<Step>)
    ensures Run(Spawned(), steps) == Some(FirstPoll())
  {
    var t0 := Spawned();
    assert Run(t0, []) == Some(t0);
    steps := [];
    var t1 := t0.(refs := Refs(0, 0, false, false, 0, 1, 0), unpushed := false);
    assert Push(t0) == Some(t1);
    steps := Extend(t0, steps, t0, APush, t1);
    var t2 := t1.(refs := Refs(0, 0, false, false, 0, 0, 0), owed := false, agent := Claimed, flags := Flags(true, false, false, false, true, false));
    assert RunEntry(t1) == Some(t2);
    steps := Extend(t0, steps, t1, ARunEntry, t2);
    var t3 := FirstPoll();
    assert BeginPoll(t2) == Some(t3);
    steps := Extend(t0, steps, t2, ABeginPoll, t3);
  }

  lemma RunsToParked() returns (steps: seq<Step>)
    ensures Run(FirstPoll(), steps) == Some(Parked())
  {
    var t0 := FirstPoll();
    assert Run(t0, []) == Some(t0);
    steps := [];
    var t1 := t0.(refs := Refs(1, 0, false, false, 0, 0, 0), count := 3);
    assert CloneWaker(t0) == Some(t1);
    steps := Extend(t0, steps, t0, ACloneWaker, t1);
    var t2 := t1.(agent := ReturnedPending);
    assert PollPending(t1) == Some(t2);
    steps := Extend(t0, steps, t1, APollPending, t2);
    var t3 := t2.(agent := NoAgent, flags := Flags(false, false, false, false, true, false), refs := Refs(1, 0, false, false, 0, 0, 1));
    assert GoIdle(t2) == Some(t3);
    steps := Extend(t0, steps, t2, AGoIdle, t3);
    var t4 := Parked();
    assert FinishRelease(t3) == Some(t4);
    steps := Extend(t0, steps, t3, AFinishRelease, t4);
  }

  /** A task that waits, with its join handle and another owner. */
  predicate Parks(s: Task) {
    s.join.JoinIdle? && s.agent.NoAgent? && !s.flags.complete && s.count > 1 && !s.trailer.waker && s.mem == Memory(0, 0, 0)
    && !s.fault
  }

  /** Its join handle is being dropped, and then gone. */
  function Uninterested(s: Task): Task { s.(flags := s.flags.(joinInterest := false), join := DropClearingFlag(false)) }

  function Dropping(s: Task): Task {
    s.(flags := s.flags.(joinInterest := false, joinWaker := false), join := DropClearingWaker(false))
  }

  function Discarding(s: Task): Task { Dropping(s).(join := DropDiscarding(false)) }

  function Releasing(s: Task): Task { Dropping(s).(join := JoinReleasing) }

  function WithoutHandle(s: Task): Task
    requires s.count > 0
  {
    Releasing(s).(join := JoinGone, count := s.count - 1)
  }

  lemma InterestDropped(s: Task) returns (steps: seq<Step>)
    requires Parks(s)
    ensures Run(s, steps) == Some(Uninterested(s))
  {
    var t0 := s;
    assert Run(t0, []) == Some(t0);
    steps := [];
    var t1 := Uninterested(s);
    assert JoinDrop(t0) == Some(t1);
    steps := Extend(t0, steps, t0, AJoinDrop, t1);
  }

  lemma FlagCleared(s: Task) returns (steps: seq<Step>)
    requires Parks(s)
    ensures Run(Uninterested(s), steps) == Some(Dropping(s))
  {
    var t0 := Uninterested(s);
    assert Run(t0, []) == Some(t0);
    steps := [];
    var t1 := Dropping(s);
    assert DropClearFlag(t0) == Some(t1);
    steps := Extend(t0, steps, t0, ADropClearFlag, t1);
  }

  lemma WakerDropped(s: Task) returns (steps: seq<Step>)
    requires Parks(s)
    ensures Run(Dropping(s), steps) == Some(Discarding(s))
  {
    var t0 := Dropping(s);
    assert Run(t0, []) == Some(t0);
    steps := [];
    var t1 := Discarding(s);
    assert DropClearWaker(t0) == Some(t1);
    steps := Extend(t0, steps, t0, ADropClearWaker, t1);
  }

  lemma NothingDiscarded(s: Task) returns (steps: seq<Step>)
    requires Parks(s)
    ensures Run(Discarding(s), steps) == Some(Releasing(s))
  {
    var t0 := Discarding(s);
    assert Run(t0, []) == Some(t0);
    steps := [];
    var t1 := Releasing(s);
    assert DropDiscard(t0) == Some(t1);
    steps := Extend(t0, steps, t0, ADropDiscard, t1);
  }

  lemma HandleReleased(s: Task) returns (steps: seq<Step>)
    requires Parks(s)
    ensures Run(Releasing(s), steps) == Some(WithoutHandle(s))
  {
    var t0 := Releasing(s);
    assert Run(t0, []) == Some(t0);
    steps := [];
    var t1 := WithoutHandle(s);
    assert JoinRelease(t0) == Some(t1);
    steps := Extend(t0, steps, t0, AJoinRelease, t1);
  }

  lemma HandleDropped(s: Task) returns (steps: seq<Step>)
    requires Parks(s)
    ensures Run(s, steps) == Some(WithoutHandle(s))
  {
    steps := InterestDropped(s);
    var next := FlagCleared(s);
    steps := RunJoin(s, steps, Uninterested(s), next, Dropping(s));
    next := WakerDropped(s);
    steps := RunJoin(s, steps, Dropping(s), next, Discarding(s));
    next := NothingDiscarded(s);
    steps := RunJoin(s, steps, Discarding(s), next, Releasing(s));
    next := HandleReleased(s);
    steps := RunJoin(s, steps, Releasing(s), next, WithoutHandle(s));
  }

  /** From spawn a run reads the freed cell: the task is polled and waits, its join handle is dropped, and
      its last waker is used by value. */
  lemma FreedCellIsRead() returns (steps: seq<Step>)
    ensures Run(Spawned(), steps).Some? && End(steps).dangled && !End(steps).fault
  {
    steps := RunsToFirstPoll();
    var next := RunsToParked();
    steps := RunJoin(Spawned(), steps, FirstPoll(), next, Parked());
    next := HandleDropped(Parked());
    steps := RunJoin(Spawned(), steps, Parked(), next, WithoutHandle(Parked()));
    next := WakeByValueReadsFreedCell(WithoutHandle(Parked()), 0);
    RunChain(Spawned(), steps, next);
    steps := steps + next;
  }
}
