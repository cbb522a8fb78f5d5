/** The task state word: `[ refcount : 48 ][ flags : 16 ]` in one atomic `usize`,
    changed only by compare-and-swap loops, `fetch_add` and `fetch_sub`. */
module TaskWord {
  import opened Options
  import opened Bits

  const RUNNING: nat := 1
  const COMPLETE: nat := 2
  const NOTIFIED: nat := 4
  const CANCELLED: nat := 8
  const JOIN_INTEREST: nat := 16
  const JOIN_WAKER_SET: nat := 32
  const REF_ONE: nat := 0x1_0000
  const REF_MAX_COUNT: nat := 0x100_0000

  datatype Flags = Flags(
    running: bool,
    complete: bool,
    notified: bool,
    cancelled: bool,
    joinInterest: bool,
    joinWaker: bool)

  /** What a word means: the reference count and the six flags. */
  datatype Snapshot = Snapshot(count: nat, flags: Flags)

  /** One reference for the join handle and one for the first queue entry. */
  const INITIAL := Snapshot(2, Flags(false, false, true, false, true, false))

  function View(v: nat): Snapshot {
    Snapshot(Shr(v, 16), Flags(Bit(v, 0), Bit(v, 1), Bit(v, 2), Bit(v, 3), Bit(v, 4), Bit(v, 5)))
  }

  function WithFlag(w: Flags, k: nat, b: bool): Flags
    requires k < 6
  {
    match k
    case 0 => w.(running := b)
    case 1 => w.(complete := b)
    case 2 => w.(notified := b)
    case 3 => w.(cancelled := b)
    case 4 => w.(joinInterest := b)
    case _ => w.(joinWaker := b)
  }

  // ----- Meaning of the transitions -----

  datatype IdleOutcome = IdleOk | IdleNotified | IdleCancelled

  function ToRunning(f: Flags): (bool, Flags) {
    if f.complete || f.cancelled || f.running then (false, f)
    else (true, f.(running := true, notified := false))
  }

  function ToIdle(f: Flags): (IdleOutcome, Flags) {
    (if f.cancelled then IdleCancelled else if f.notified then IdleNotified else IdleOk, f.(running := false))
  }

  function ToComplete(f: Flags): Flags {
    f.(running := false, complete := true, notified := false)
  }

  /** A wake submits a queue entry only to an idle task that nobody has notified yet. */
  function Notify(f: Flags): (bool, Flags) {
    if f.complete || f.notified || f.cancelled then (false, f)
    else (!f.running, f.(notified := true))
  }

  // ----- The same transitions on the packed word, as the closures compute them -----

  function RawToRunning(v: nat): (bool, Option<nat>) {
    if And(v, COMPLETE) != 0 || And(v, CANCELLED) != 0 || And(v, RUNNING) != 0 then (false, None)
    else (true, Some(AndNot(Or(v, RUNNING), NOTIFIED)))
  }

  function RawToIdle(v: nat): (IdleOutcome, Option<nat>) {
    var idle := AndNot(v, RUNNING);
    if And(idle, CANCELLED) != 0 then (IdleCancelled, Some(idle))
    else if And(idle, NOTIFIED) != 0 then (IdleNotified, Some(idle))
    else (IdleOk, Some(idle))
  }

  function RawToComplete(v: nat): (nat, Option<nat>) {
    var done := AndNot(Or(AndNot(v, RUNNING), COMPLETE), NOTIFIED);
    (done, Some(done))
  }

  function RawNotifyByRef(v: nat): (bool, Option<nat>) {
    if And(v, COMPLETE) != 0 || And(v, NOTIFIED) != 0 || And(v, CANCELLED) != 0 then (false, None)
    else if And(v, RUNNING) != 0 then (false, Some(Or(v, NOTIFIED)))
    else (true, Some(Or(v, NOTIFIED) + REF_ONE))
  }

  function RawNotifyByVal(v: nat): (bool, Option<nat>) {
    if And(v, COMPLETE) != 0 || And(v, NOTIFIED) != 0 || And(v, CANCELLED) != 0 then (false, None)
    else (And(v, RUNNING) == 0, Some(Or(v, NOTIFIED)))
  }

  function RawCancel(v: nat): (nat, Option<nat>) { (v, Some(Or(v, CANCELLED))) }

  function RawUnsetJoinInterest(v: nat): (nat, Option<nat>) { (v, Some(AndNot(v, JOIN_INTEREST))) }

  function RawSetJoinWaker(v: nat): (bool, Option<nat>) {
    if And(v, COMPLETE) != 0 then (false, None) else (true, Some(Or(v, JOIN_WAKER_SET)))
  }

  function RawUnsetJoinWaker(v: nat): ((), Option<nat>) { ((), Some(AndNot(v, JOIN_WAKER_SET))) }

  // ----- Packing is faithful -----

  /** Each mask tests its own flag. */
  lemma Tests(v: nat)
    ensures And(v, RUNNING) != 0 <==> View(v).flags.running
    ensures And(v, COMPLETE) != 0 <==> View(v).flags.complete
    ensures And(v, NOTIFIED) != 0 <==> View(v).flags.notified
    ensures And(v, CANCELLED) != 0 <==> View(v).flags.cancelled
    ensures And(v, JOIN_INTEREST) != 0 <==> View(v).flags.joinInterest
    ensures And(v, JOIN_WAKER_SET) != 0 <==> View(v).flags.joinWaker
  {
    Powers();
    TestBit(v, 0); TestBit(v, 1); TestBit(v, 2); TestBit(v, 3); TestBit(v, 4); TestBit(v, 5);
  }

  /** Setting or clearing one flag changes that flag only: not the count, not another flag. */
  lemma FlagWrite(v: nat, k: nat)
    requires k < 6
    ensures View(Or(v, Pow2(k))) == View(v).(flags := WithFlag(View(v).flags, k, true))
    ensures View(AndNot(v, Pow2(k))) == View(v).(flags := WithFlag(View(v).flags, k, false))
  {
    BitWriteFrame(v, k, 0); BitWriteFrame(v, k, 1); BitWriteFrame(v, k, 2); BitWriteFrame(v, k, 3);
    BitWriteFrame(v, k, 4); BitWriteFrame(v, k, 5); BitWriteFrame(v, k, 16);
  }

  /** Reference arithmetic changes the count by one and disturbs no flag. */
  lemma CountWrite(v: nat)
    ensures View(v + REF_ONE) == View(v).(count := View(v).count + 1)
  {
    assert Pow2(16) == REF_ONE by { Powers(); }
    FieldAdd(v, 16, 0); FieldAdd(v, 16, 1); FieldAdd(v, 16, 2);
    FieldAdd(v, 16, 3); FieldAdd(v, 16, 4); FieldAdd(v, 16, 5);
  }

  lemma Powers()
    ensures Pow2(0) == RUNNING && Pow2(1) == COMPLETE && Pow2(2) == NOTIFIED
    ensures Pow2(3) == CANCELLED && Pow2(4) == JOIN_INTEREST && Pow2(5) == JOIN_WAKER_SET
    ensures Pow2(16) == REF_ONE
  {
    assert Pow2(0) == 1 && Pow2(1) == 2 && Pow2(2) == 4 && Pow2(3) == 8;
    assert Pow2(4) == 16 && Pow2(5) == 32 && Pow2(6) == 64 && Pow2(7) == 128 && Pow2(8) == 256;
    assert Pow2(9) == 512 && Pow2(10) == 1024 && Pow2(11) == 2048 && Pow2(12) == 4096;
  }

  lemma CountPositive(v: nat)
    ensures View(v).count >= 1 <==> v >= REF_ONE
  {
    Powers();
    ShrPositive(v, 16);
  }

  /** The word left behind by a closure result. */
  function After(v: nat, next: Option<nat>): nat { if next.Some? then next.value else v }

  // Every closure of the state machine computes, on the packed word, the transition of its name.

  lemma RunningPacked(v: nat)
    ensures RawToRunning(v).0 == ToRunning(View(v).flags).0
    ensures View(After(v, RawToRunning(v).1)) == View(v).(flags := ToRunning(View(v).flags).1)
  {
    Tests(v); Powers();
    FlagWrite(v, 0); FlagWrite(Or(v, RUNNING), 2);
  }

  lemma IdlePacked(v: nat)
    ensures RawToIdle(v).0 == ToIdle(View(v).flags).0
    ensures View(After(v, RawToIdle(v).1)) == View(v).(flags := ToIdle(View(v).flags).1)
  {
    Powers();
    FlagWrite(v, 0); Tests(AndNot(v, RUNNING));
  }

  lemma CompletePacked(v: nat)
    ensures View(After(v, RawToComplete(v).1)) == View(RawToComplete(v).0) == View(v).(flags := ToComplete(View(v).flags))
  {
    Powers();
    FlagWrite(v, 0); FlagWrite(AndNot(v, RUNNING), 1); FlagWrite(Or(AndNot(v, RUNNING), COMPLETE), 2);
  }

  /** By reference a submitted entry gets a reference of its own, by value it takes the waker's. */
  lemma NotifyPacked(v: nat)
    ensures RawNotifyByRef(v).0 == RawNotifyByVal(v).0 == Notify(View(v).flags).0
    ensures View(After(v, RawNotifyByVal(v).1)) == View(v).(flags := Notify(View(v).flags).1)
    ensures View(After(v, RawNotifyByRef(v).1)).flags == Notify(View(v).flags).1
    ensures View(After(v, RawNotifyByRef(v).1)).count == View(v).count + (if RawNotifyByRef(v).0 then 1 else 0)
  {
    Tests(v); Powers();
    FlagWrite(v, 2); CountWrite(Or(v, NOTIFIED));
  }

  lemma FlagTransitionsPacked(v: nat)
    ensures View(After(v, RawCancel(v).1)) == View(v).(flags := View(v).flags.(cancelled := true))
    ensures View(After(v, RawUnsetJoinInterest(v).1)) == View(v).(flags := View(v).flags.(joinInterest := false))
    ensures RawSetJoinWaker(v).0 == !View(v).flags.complete
    ensures View(After(v, RawSetJoinWaker(v).1)) ==
            if View(v).flags.complete then View(v) else View(v).(flags := View(v).flags.(joinWaker := true))
    ensures View(After(v, RawUnsetJoinWaker(v).1)) == View(v).(flags := View(v).flags.(joinWaker := false))
  {
    Tests(v); Powers();
    FlagWrite(v, 3); FlagWrite(v, 4); FlagWrite(v, 5);
  }

  /** Value `i` of the word as one thread sees it: its first load, then what each failed exchange returned. */
  function Observed(first: nat, others: seq<nat>, i: nat): nat
    requires i <= |others|
  {
    if i == 0 then first else others[i - 1]
  }

  /** The atomic word. `others` lists the words that make a compare-exchange of this call fail,
      in order: stores of other threads, or the same word again for a spurious failure. */
  class State {
    var val: nat

    constructor ()
      ensures View(val) == INITIAL
    {
      val := 2 * REF_ONE + JOIN_INTEREST + NOTIFIED;
      new;
      InitialWord();
    }

    /** The compare-and-swap loop is one atomic application of `f` to the last word it observed. */
    method FetchUpdate<T>(f: nat -> (T, Option<nat>), others: seq<nat>) returns (out: T, ghost seen: nat)
      modifies this
      ensures exists i :: 0 <= i <= |others| && seen == Observed(old(val), others, i)
                          && (f(seen).1.Some? ==> i == |others|)
      ensures out == f(seen).0
      ensures val == After(seen, f(seen).1)
    {
      var cur := val;
      var i := 0;
      while true
        invariant 0 <= i <= |others|
        invariant val == cur == Observed(old(val), others, i)
        decreases |others| - i
      {
        var (o, next) := f(cur);
        seen := cur;
        if next.None? {
          return o, seen;
        }
        if i == |others| {
          val := next.value;
          return o, seen;
        }
        val := others[i];
        cur := val;
        i := i + 1;
      }
    }

    method TransitionToRunning(others: seq<nat>) returns (success: bool, ghost seen: nat)
      modifies this
      ensures success == ToRunning(View(seen).flags).0
      ensures View(val) == View(seen).(flags := ToRunning(View(seen).flags).1)
      ensures exists i :: 0 <= i <= |others| && seen == Observed(old(val), others, i)
    {
      success, seen := FetchUpdate(RawToRunning, others);
      RunningPacked(seen);
    }

    method TransitionToIdle(others: seq<nat>) returns (outcome: IdleOutcome, ghost seen: nat)
      modifies this
      ensures outcome == ToIdle(View(seen).flags).0
      ensures View(val) == View(seen).(flags := ToIdle(View(seen).flags).1) && seen == Observed(old(val), others, |others|)
    {
      outcome, seen := FetchUpdate(RawToIdle, others);
      IdlePacked(seen);
    }

    method TransitionToComplete(others: seq<nat>) returns (completed: nat, ghost seen: nat)
      modifies this
      ensures View(val) == View(completed) == View(seen).(flags := ToComplete(View(seen).flags))
      ensures seen == Observed(old(val), others, |others|)
    {
      completed, seen := FetchUpdate(RawToComplete, others);
      CompletePacked(seen);
    }

    method TransitionToNotifiedByRef(others: seq<nat>) returns (submit: bool, ghost seen: nat)
      modifies this
      ensures submit == Notify(View(seen).flags).0
      ensures View(val) == Snapshot(View(seen).count + (if submit then 1 else 0), Notify(View(seen).flags).1)
      ensures exists i :: 0 <= i <= |others| && seen == Observed(old(val), others, i)
    {
      submit, seen := FetchUpdate(RawNotifyByRef, others);
      NotifyPacked(seen);
    }

    method TransitionToNotifiedByVal(others: seq<nat>) returns (submit: bool, ghost seen: nat)
      modifies this
      ensures submit == Notify(View(seen).flags).0
      ensures View(val) == View(seen).(flags := Notify(View(seen).flags).1)
      ensures exists i :: 0 <= i <= |others| && seen == Observed(old(val), others, i)
    {
      submit, seen := FetchUpdate(RawNotifyByVal, others);
      NotifyPacked(seen);
    }

    method SetCancelled(others: seq<nat>) returns (before: nat, ghost seen: nat)
      modifies this
      ensures before == seen == Observed(old(val), others, |others|)
      ensures View(val) == View(before).(flags := View(before).flags.(cancelled := true))
    {
      before, seen := FetchUpdate(RawCancel, others);
      FlagTransitionsPacked(seen);
    }

    method UnsetJoinInterest(others: seq<nat>) returns (before: nat, ghost seen: nat)
      modifies this
      ensures before == seen == Observed(old(val), others, |others|)
      ensures View(val) == View(before).(flags := View(before).flags.(joinInterest := false))
    {
      before, seen := FetchUpdate(RawUnsetJoinInterest, others);
      FlagTransitionsPacked(seen);
    }

    method SetJoinWaker(others: seq<nat>) returns (ok: bool, ghost seen: nat)
      modifies this
      ensures ok == !View(seen).flags.complete
      ensures View(val) == if ok then View(seen).(flags := View(seen).flags.(joinWaker := true)) else View(seen)
      ensures exists i :: 0 <= i <= |others| && seen == Observed(old(val), others, i)
    {
      ok, seen := FetchUpdate(RawSetJoinWaker, others);
      FlagTransitionsPacked(seen);
    }

    /** `fetch_add`; the process aborts (`None`) when the previous count had reached the bound. */
    method RefInc() returns (previous: Option<nat>)
      modifies this
      ensures View(val) == old(View(val)).(count := old(View(val)).count + 1)
      ensures previous == if old(View(val)).count >= REF_MAX_COUNT then None else Some(old(val))
    {
      var prev := val;
      val := val + REF_ONE;
      CountWrite(prev);
      previous := if Shr(prev, 16) >= REF_MAX_COUNT then None else Some(prev);
    }

    /** `fetch_sub`; true for the caller that took the last reference. */
    method RefDec() returns (last: bool)
      requires View(val).count >= 1
      modifies this
      ensures View(val) == old(View(val)).(count := old(View(val)).count - 1)
      ensures last <==> View(val).count == 0
    {
      CountPositive(val);
      CountWrite(val - REF_ONE);
      var prev := val;
      val := val - REF_ONE;
      last := Shr(prev, 16) == 1;
    }
  }

  lemma InitialWord()
    ensures View(2 * REF_ONE + JOIN_INTEREST + NOTIFIED) == INITIAL
  {
    var flags := JOIN_INTEREST + NOTIFIED;
    assert View(flags) == Snapshot(0, INITIAL.flags) by {
      assert Bit(20, 0) == false && Bit(20, 1) == Bit(10, 0) && Bit(20, 2) == Bit(5, 0);
      assert Bit(20, 3) == Bit(10, 2) == Bit(5, 1) == Bit(2, 0);
      assert Bit(20, 4) == Bit(10, 3) == Bit(5, 2) == Bit(2, 1) == Bit(1, 0);
      assert Bit(20, 5) == Bit(10, 4) == Bit(5, 3) == Bit(2, 2) == Bit(1, 1) == Bit(0, 0);
      CountPositive(flags);
    }
    CountWrite(flags);
    CountWrite(flags + REF_ONE);
  }
}
