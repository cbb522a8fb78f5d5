/** The guarantees of the task protocol, for every run from `Spawned`. */
module TaskGuarantees {
  import opened Options
  import opened TaskWord
  import opened TaskProtocol
  import opened TaskTheorems

  function End(steps: seq<Step>): Task
    requires Run(Spawned(), steps).Some?
  {
    Run(Spawned(), steps).value
  }

  // ----- Memory -----

  /** No assertion of the runtime fails, no second thread gets at the stage, and the count is exact. */
  lemma ReferencesAreExact(steps: seq<Step>)
    requires Run(Spawned(), steps).Some?
    ensures !End(steps).fault
    ensures End(steps).mem.frees == 0 ==> End(steps).count == Owners(End(steps))
  {
    RunKeeps(steps);
  }

  /** The cell is freed at most once, after its last owner has gone, and nothing can follow but the wake
      behind an entry whose reference was handed over. */
  lemma FreedOnceAndLast(steps: seq<Step>)
    requires Run(Spawned(), steps).Some?
    ensures End(steps).mem.frees <= 1
    ensures End(steps).mem.frees == 1 ==>
              Owners(End(steps)) == 0 && forall a :: Next(End(steps), a).Some? ==> HandedOver(a)
  {
    RunKeeps(steps);
    var s := End(steps);
    if s.mem.frees == 1 {
      forall a | Next(s, a).Some? ensures HandedOver(a) {
        StepKeeps(s, a);
      }
    }
  }

  /** Nothing leaks: when every owner is gone the cell is freed or somebody is about to free it. */
  lemma LastOwnerFrees(steps: seq<Step>)
    requires Run(Spawned(), steps).Some?
    requires Owners(End(steps)) == End(steps).mem.deferred
    ensures Going(End(steps).mem) == 1
  {
    RunKeeps(steps);
  }

  // ----- Wakes -----

  predicate Live(s: Task) { !s.flags.complete && !s.flags.cancelled && !s.abandoned }

  /** NOTIFIED without RUNNING is exactly one outstanding queue entry, RUNNING is none, and a wake
      that no poll has answered is still recorded. */
  lemma NoWakeIsLost(steps: seq<Step>)
    requires Run(Spawned(), steps).Some? && Live(End(steps))
    ensures End(steps).flags.notified && !End(steps).flags.running <==> Claims(End(steps).refs) == 1
    ensures End(steps).flags.running ==> Claims(End(steps).refs) == 0
    ensures End(steps).owed ==> End(steps).flags.notified
  {
    RunKeeps(steps);
  }

  /** The next step of the responsible thread; a poll may return in three ways. */
  predicate Duty(s: Task, a: Step) {
    match s.agent
    case Claimed => a.ABeginPoll?
    case Polling => a.APollPending? || a.APollReady? || a.APollPanic?
    case ReturnedPending => a.AGoIdle?
    case Finalizing(pc, _, _, _) => if pc.StoreOutput? then a.AFinalizeStore? else a.AFinalizeComplete?
    case NoAgent => if s.refs.scheds > 0 then a.APush? else a.ARunEntry?
  }

  /** While something is pending, some thread has a step to take, and that step is progress. */
  lemma DutyAdvances(s: Task, a: Step)
    requires Inv(s) && Pending(s) && Duty(s, a)
    ensures Rank(s) > 0 && Next(s, a).Some?
    ensures Pending(Next(s, a).value) ==> Rank(Next(s, a).value) < Rank(s)
  {
    if s.agent.NoAgent? || s.agent.Finalizing? { ClaimAdvances(s, a); } else { PollAdvances(s, a); }
  }

  lemma ClaimAdvances(s: Task, a: Step)
    requires Inv(s) && Pending(s) && Duty(s, a) && (s.agent.NoAgent? || s.agent.Finalizing?)
    ensures Rank(s) > 0 && Next(s, a).Some?
    ensures Pending(Next(s, a).value) ==> Rank(Next(s, a).value) < Rank(s)
  {
  }

  lemma PollAdvances(s: Task, a: Step)
    requires Inv(s) && Pending(s) && Duty(s, a) && !s.agent.NoAgent? && !s.agent.Finalizing?
    ensures Rank(s) > 0 && Next(s, a).Some?
    ensures Pending(Next(s, a).value) ==> Rank(Next(s, a).value) < Rank(s)
  {
  }

  /** No step of anybody else moves the answer away. */
  lemma NothingDelays(s: Task, a: Step)
    requires Inv(s) && Pending(s) && Next(s, a).Some? && Pending(Next(s, a).value)
    ensures Rank(Next(s, a).value) <= Rank(s)
  {
    StepKeeps(s, a);
  }

  /** Steps of the responsible threads along a run, and whether something stays pending throughout. */
  function Duties(s: Task, steps: seq<Step>): nat
    requires Run(s, steps).Some?
  {
    if steps == [] then 0
    else
      var k := |steps| - 1;
      Duties(s, steps[..k]) + One(Duty(Run(s, steps[..k]).value, steps[k]))
  }

  predicate PendingThroughout(s: Task, steps: seq<Step>)
    requires Run(s, steps).Some?
  {
    Pending(Run(s, steps).value) && (steps != [] ==> PendingThroughout(s, steps[..|steps| - 1]))
  }

  /** Every wake is answered: in any run that follows, before the responsible threads have taken
      eight steps the task has been polled again, completed, or been thrown away by its scheduler. */
  lemma {:induction false} EveryWakeIsAnswered(s: Task, steps: seq<Step>)
    requires Inv(s) && Run(s, steps).Some? && PendingThroughout(s, steps)
    ensures Inv(Run(s, steps).value)
    ensures Duties(s, steps) + Rank(Run(s, steps).value) <= Rank(s) <= 7
  {
    if steps != [] {
      var k := |steps| - 1;
      EveryWakeIsAnswered(s, steps[..k]);
      var mid := Run(s, steps[..k]).value;
      StepKeeps(mid, steps[k]);
      NothingDelays(mid, steps[k]);
      if Duty(mid, steps[k]) { DutyAdvances(mid, steps[k]); }
    }
  }

  // ----- Finalization and cancellation -----

  /** The output is stored once and the task completes once, whatever polls, wakes and aborts race. */
  lemma FinalizedOnce(steps: seq<Step>)
    requires Run(Spawned(), steps).Some?
    ensures End(steps).slot.stores <= 1 && End(steps).completions <= 1
    ensures End(steps).flags.complete <==> End(steps).completions == 1
  {
    RunKeeps(steps);
  }

  /** After cancellation no queue entry is created, and an unfinished task has somebody to finish it. */
  lemma CancelledMakesNoClaim(steps: seq<Step>, a: Step)
    requires Run(Spawned(), steps).Some? && End(steps).flags.cancelled && Next(End(steps), a).Some?
    ensures Next(End(steps), a).value.flags.cancelled
    ensures Claims(Next(End(steps), a).value.refs) <= Claims(End(steps).refs)
    ensures !End(steps).flags.complete && !End(steps).abandoned ==> Rank(End(steps)) > 0
  {
    RunKeeps(steps);
    StepKeeps(End(steps), a);
  }

  // ----- Output and join waker -----

  /** No thread is inside an operation that touches the stage or the join handle. */
  predicate Quiet(s: Task) { s.agent.NoAgent? && (s.join.JoinIdle? || s.join.JoinGone?) }

  /** An output leaves the cell at most once and unchanged; once a finished task is quiet and its join
      handle is gone it has left, and before that it is still there to be joined. */
  lemma OutputLeavesOnce(steps: seq<Step>)
    requires Run(Spawned(), steps).Some?
    ensures End(steps).slot.taken <= 1
    ensures End(steps).slot.taken == 1 ==> End(steps).slot.handed == End(steps).slot.produced != None
    ensures End(steps).flags.complete && Quiet(End(steps)) ==>
              End(steps).slot.taken == One(End(steps).join.JoinGone?)
    ensures End(steps).join.JoinIdle? && End(steps).flags.complete ==> End(steps).slot.stage.Finished?
  {
    RunKeeps(steps);
  }

  /** Every join waker ever stored was woken, replaced by a newer one, dropped with the handle, or is
      still stored; and a quiet finished task stores none. */
  lemma JoinWakerIsWoken(steps: seq<Step>)
    requires Run(Spawned(), steps).Some?
    ensures var t := End(steps).trailer; t.stored == t.woken + t.superseded + One(t.waker)
    ensures End(steps).flags.complete && Quiet(End(steps)) ==> !End(steps).trailer.waker
  {
    RunKeeps(steps);
  }
}
