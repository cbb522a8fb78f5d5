/** How the current-thread scheduler sleeps: the owner's loop as a program over single atomic steps,
    interleaved with threads that push work or wake the root future and then unpark the owner. */
module ParkProtocol {
  import opened Options

  /** Where the thread inside `block_on` is; `Idle` when there is none. */
  datatype Pc =
    | Idle | Claimed
    | Drain | Swap | PollRoot
    | NextDeferred | NextDue | NextLocal | NextInjection | RunTask
    | Advance | CheckDeferred | CheckLocal | CheckInjection | Paused | Park
    | Cleanup | Release

  /** Queues by length. `owner`, `slot`: the thread in `block_on`, and the thread foreign pushers will
      unpark. `tokens`: threads whose park token is set. `pushed`: threads that have pushed and not yet
      read the slot. `unparking`: for each thread, those about to unpark it. */
  datatype Sched = Sched(
    pc: Pc,
    owner: Option<nat>,
    slot: Option<nat>,
    local: nat,
    injection: nat,
    deferred: nat,
    woken: bool,
    tokens: set<nat>,
    pushed: nat,
    unparking: multiset<nat>)

  datatype Step =
    | Enter(thread: nat) | SetSlot
    | DrainOne | DrainDone | SwapSignal | RootPending | RootReady
    | TakeDeferred | TakeDue | SkipDue | TakeLocal | TakeInjection | TaskDone
    | Advanced | SeeDeferred | SeeLocal | SeeInjection | PausedAdvance | NotPaused
    | Unparked | ParkReturns
    | ClearSlot | ClearOwner
    | OwnerPush | OwnerDefer | OwnerWakeRoot
    | ForeignPush | ForeignDefer | ReadSlot | ForeignWakeRoot | Unpark(thread: nat) | StrayUnpark(thread: nat)

  /** User code, or timers, run on the owner thread. */
  predicate RunsCode(pc: Pc) { pc in {Drain, PollRoot, RunTask, Advance} }

  /** A `block_on` call is past its setup and has not returned. */
  predicate InLoop(pc: Pc) { !(pc in {Idle, Claimed, Cleanup, Release}) }

  predicate Enabled(s: Sched, step: Step) {
    match step
    case Enter(_) => s.pc == Idle && s.owner == None
    case SetSlot => s.pc == Claimed
    case DrainOne => s.pc == Drain && s.deferred > 0
    case DrainDone => s.pc == Drain && s.deferred == 0
    case SwapSignal => s.pc == Swap
    case RootPending => s.pc == PollRoot
    case RootReady => s.pc == PollRoot
    case TakeDeferred => s.pc == NextDeferred
    case TakeDue => s.pc == NextDue
    case SkipDue => s.pc == NextDue
    case TakeLocal => s.pc == NextLocal
    case TakeInjection => s.pc == NextInjection
    case TaskDone => s.pc == RunTask
    case Advanced => s.pc == Advance
    case SeeDeferred => s.pc == CheckDeferred
    case SeeLocal => s.pc == CheckLocal
    case SeeInjection => s.pc == CheckInjection
    case PausedAdvance => s.pc == Paused
    case NotPaused => s.pc == Paused
    case Unparked => s.pc == Park && s.owner.Some? && s.owner.value in s.tokens
    case ParkReturns => s.pc == Park
    case ClearSlot => s.pc == Cleanup
    case ClearOwner => s.pc == Release
    case OwnerPush => RunsCode(s.pc)
    case OwnerDefer => RunsCode(s.pc) && s.owner.Some?
    case OwnerWakeRoot => RunsCode(s.pc) && s.owner.Some?
    case ForeignPush => true
    case ForeignDefer => true
    case ReadSlot => s.pushed > 0
    case ForeignWakeRoot => InLoop(s.pc) && s.owner.Some?
    case Unpark(t) => t in s.unparking
    case StrayUnpark(_) => true
  }

  function New(): Sched { Sched(Idle, None, None, 0, 0, 0, false, {}, 0, multiset{}) }

  function Dec(n: nat): nat { if n > 0 then n - 1 else 0 }

  /** One atomic step: a lock-protected queue operation, an atomic access, a park or an unpark. */
  function Apply(s: Sched, step: Step): Sched
    requires Enabled(s, step)
  {
    match step
    case Enter(t) => s.(pc := Claimed, owner := Some(t))
    case SetSlot => s.(pc := Drain, slot := s.owner, woken := true)
    case DrainOne => s.(deferred := s.deferred - 1)
    case DrainDone => s.(pc := Swap)
    case SwapSignal => s.(pc := if s.woken then PollRoot else NextDeferred, woken := false)
    case RootPending => s.(pc := NextDeferred)
    case RootReady => s.(pc := Cleanup)
    case TakeDeferred => s.(pc := if s.deferred > 0 then RunTask else NextDue, deferred := Dec(s.deferred))
    case TakeDue => s.(pc := if s.injection > 0 then RunTask else NextLocal, injection := Dec(s.injection))
    case SkipDue => s.(pc := NextLocal)
    case TakeLocal => s.(pc := if s.local > 0 then RunTask else NextInjection, local := Dec(s.local))
    case TakeInjection => s.(pc := if s.injection > 0 then RunTask else Advance, injection := Dec(s.injection))
    case TaskDone => s.(pc := Drain)
    case Advanced => s.(pc := CheckDeferred)
    case SeeDeferred => s.(pc := if s.deferred > 0 then Drain else CheckLocal)
    case SeeLocal => s.(pc := if s.local > 0 then Drain else CheckInjection)
    case SeeInjection => s.(pc := if s.injection > 0 then Drain else Paused)
    case PausedAdvance => s.(pc := Drain)
    case NotPaused => s.(pc := Park)
    case Unparked => s.(pc := Drain, tokens := s.tokens - {s.owner.value})
    case ParkReturns => s.(pc := Drain)
    case ClearSlot => s.(pc := Release, slot := None)
    case ClearOwner => s.(pc := Idle, owner := None)
    case OwnerPush => s.(local := s.local + 1)
    case OwnerDefer => s.(deferred := s.deferred + 1, tokens := s.tokens + {s.owner.value})
    case OwnerWakeRoot => s.(woken := true, tokens := s.tokens + {s.owner.value})
    case ForeignPush => s.(injection := s.injection + 1, pushed := s.pushed + 1)
    case ForeignDefer => s.(deferred := s.deferred + 1, pushed := s.pushed + 1)
    case ReadSlot =>
      s.(pushed := s.pushed - 1, unparking := if s.slot.Some? then s.unparking + multiset{s.slot.value} else s.unparking)
    case ForeignWakeRoot => s.(woken := true, unparking := s.unparking + multiset{s.owner.value})
    case Unpark(t) => s.(unparking := s.unparking - multiset{t}, tokens := s.tokens + {t})
    case StrayUnpark(t) => s.(tokens := s.tokens + {t})
  }

  // ----- The invariant -----

  /** The owner will not sleep, or somebody is about to wake it. */
  predicate Alerted(s: Sched, t: nat) { t in s.tokens || t in s.unparking }

  /** Past the swap of this iteration. */
  predicate Swapped(pc: Pc) {
    pc in {PollRoot, NextDeferred, NextDue, NextLocal, NextInjection, RunTask} || pc == Advance || PastAdvance(pc)
  }

  predicate PastAdvance(pc: Pc) { pc in {CheckDeferred, CheckLocal, CheckInjection, Paused, Park} }

  predicate SawDeferred(pc: Pc) { pc in {CheckLocal, CheckInjection, Paused, Park} }

  predicate SawLocal(pc: Pc) { pc in {CheckInjection, Paused, Park} }

  predicate SawInjection(pc: Pc) { pc in {Paused, Park} }

  /** What the owner has found empty can only have been filled by a thread that still has to unpark it,
      or already has. */
  predicate Valid(s: Sched) {
    && (s.pc == Idle <==> s.owner == None)
    && (InLoop(s.pc) ==> s.owner.Some? && s.slot == s.owner)
    && (s.pc in {Idle, Claimed, Release} ==> s.slot == None)
    && (SawLocal(s.pc) ==> s.local == 0)
    && (InLoop(s.pc) && s.owner.Some? ==>
          && (SawDeferred(s.pc) && s.deferred > 0 ==> s.pushed > 0 || Alerted(s, s.owner.value))
          && (SawInjection(s.pc) && s.injection > 0 ==> s.pushed > 0 || Alerted(s, s.owner.value))
          && (Swapped(s.pc) && s.woken ==> Alerted(s, s.owner.value)))
  }

  predicate Foreign(step: Step) {
    step.ForeignPush? || step.ForeignDefer? || step.ReadSlot? || step.ForeignWakeRoot? || step.Unpark? || step.StrayUnpark?
  }

  /** The steps by which the owner takes work, or sees that there is none. */
  predicate Looks(step: Step) {
    || step.DrainOne? || step.DrainDone? || step.SwapSignal? || step.TakeDeferred? || step.TakeDue? || step.SkipDue?
    || step.TakeLocal? || step.TakeInjection? || step.SeeDeferred? || step.SeeLocal? || step.SeeInjection?
  }

  lemma ForeignKeeps(s: Sched, step: Step)
    requires Valid(s) && Enabled(s, step) && Foreign(step)
    ensures Valid(Apply(s, step))
  {
  }

  lemma LookKeeps(s: Sched, step: Step)
    requires Valid(s) && Enabled(s, step) && Looks(step)
    ensures Valid(Apply(s, step))
  {
  }

  lemma OtherKeeps(s: Sched, step: Step)
    requires Valid(s) && Enabled(s, step) && !Foreign(step) && !Looks(step)
    ensures Valid(Apply(s, step))
  {
  }

  lemma StepKeeps(s: Sched, step: Step)
    requires Valid(s) && Enabled(s, step)
    ensures Valid(Apply(s, step))
  {
    if Foreign(step) { ForeignKeeps(s, step); } else if Looks(step) { LookKeeps(s, step); } else { OtherKeeps(s, step); }
  }

  predicate Reaches(s: Sched, steps: seq<Step>, t: Sched)
    decreases |steps|
  {
    if steps == [] then s == t else Enabled(s, steps[0]) && Reaches(Apply(s, steps[0]), steps[1..], t)
  }

  lemma {:induction false} RunKeeps(s: Sched, steps: seq<Step>, t: Sched)
    requires Valid(s) && Reaches(s, steps, t)
    ensures Valid(t)
    decreases |steps|
  {
    if steps != [] {
      StepKeeps(s, steps[0]);
      RunKeeps(Apply(s, steps[0]), steps[1..], t);
    }
  }

  /** The owner never sleeps past work: in every interleaving, an owner that is blocked in `park` has
      empty queues and an unsignalled root future, unless some thread is between its push and its
      unpark. */
  lemma OwnerNeverSleepsPastWork(steps: seq<Step>, t: Sched)
    requires Reaches(New(), steps, t) && t.pc == Park
    ensures t.owner.Some?
    ensures t.owner.value !in t.tokens && t.pushed == 0 && t.owner.value !in t.unparking ==>
              t.local == 0 && t.injection == 0 && t.deferred == 0 && !t.woken
  {
    RunKeeps(New(), steps, t);
  }

  // ----- Work -----

  /** Tasks in the queues. */
  function Queued(s: Sched): nat { s.local + s.injection + s.deferred }

  predicate Pushes(step: Step) { step.OwnerPush? || step.OwnerDefer? || step.ForeignPush? || step.ForeignDefer? }

  /** Does this step hand a task to the owner to run? */
  predicate Runs(s: Sched, step: Step)
    requires Enabled(s, step)
  {
    step.DrainOne? || (Apply(s, step).pc.RunTask? && !s.pc.RunTask?)
  }

  function PushCount(steps: seq<Step>): nat
    decreases |steps|
  {
    if steps == [] then 0 else (if Pushes(steps[0]) then 1 else 0) + PushCount(steps[1..])
  }

  function RunCount(s: Sched, steps: seq<Step>, t: Sched): nat
    requires Reaches(s, steps, t)
    decreases |steps|
  {
    if steps == [] then 0 else (if Runs(s, steps[0]) then 1 else 0) + RunCount(Apply(s, steps[0]), steps[1..], t)
  }

  lemma StepConserves(s: Sched, step: Step)
    requires Enabled(s, step)
    ensures Queued(Apply(s, step)) + (if Runs(s, step) then 1 else 0) == Queued(s) + (if Pushes(step) then 1 else 0)
  {
  }

  /** Over every run each task pushed has been run once or is still queued. */
  lemma {:induction false} WorkIsConserved(s: Sched, steps: seq<Step>, t: Sched)
    requires Reaches(s, steps, t)
    ensures Queued(s) + PushCount(steps) == RunCount(s, steps, t) + Queued(t)
    decreases |steps|
  {
    if steps != [] {
      StepConserves(s, steps[0]);
      WorkIsConserved(Apply(s, steps[0]), steps[1..], t);
    }
  }

  /** A signal of the root future is given by a wake or by the start of a run, and is consumed only by
      going on to poll the root; and whoever swaps and finds it does poll. */
  lemma SignalMeansPoll(s: Sched, step: Step)
    requires Enabled(s, step)
    ensures s.woken && !Apply(s, step).woken ==> step.SwapSignal? && Apply(s, step).pc.PollRoot?
    ensures step.SwapSignal? ==> (Apply(s, step).pc.PollRoot? <==> s.woken) && !Apply(s, step).woken
    ensures !s.woken && Apply(s, step).woken ==> step.SetSlot? || step.OwnerWakeRoot? || step.ForeignWakeRoot?
    ensures step.SetSlot? || step.OwnerWakeRoot? || step.ForeignWakeRoot? ==> Apply(s, step).woken
  {
  }

  /** The loop is left exactly when the root future is ready, and then the slot and the owner are given
      up, in this order; until then every iteration drains, swaps and looks into all queues. */
  lemma LoopEnds(s: Sched, step: Step)
    requires Valid(s) && Enabled(s, step)
    ensures InLoop(s.pc) && !InLoop(Apply(s, step).pc) <==> step.RootReady?
    ensures s.owner.Some? && Apply(s, step).owner.None? <==> step.ClearOwner?
    ensures step.ClearOwner? ==> s.slot.None?
    ensures Apply(s, step).pc.Park? && !s.pc.Park? ==> step.NotPaused? && s.pc.Paused?
  {
  }
}
