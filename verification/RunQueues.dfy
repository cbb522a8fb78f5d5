/** The current-thread scheduler's queues: local work first, the injection queue every 61st tick of a
    wrapping 32-bit counter. */
module RunQueues {
  import opened Options

  const INTERVAL: nat := 61
  const WRAP: nat := 0x1_0000_0000

  datatype Queues<T> = Queues(local: seq<T>, injection: seq<T>, deferred: seq<T>, tick: nat)

  function Tick(tick: nat): nat { (tick + 1) % WRAP }

  predicate Due(tick: nat) { tick % INTERVAL == 0 }

  function Front<T>(s: seq<T>): Option<T> { if s == [] then None else Some(s[0]) }

  function Rest<T>(s: seq<T>): seq<T> { if s == [] then [] else s[1..] }

  /** `next_task` */
  function NextTask<T>(q: Queues<T>): (Queues<T>, Option<T>) {
    var tick := Tick(q.tick);
    var t := q.(tick := tick);
    if q.deferred != [] then (t.(deferred := q.deferred[1..]), Some(q.deferred[0]))
    else if Due(tick) && q.injection != [] then (t.(injection := q.injection[1..]), Some(q.injection[0]))
    else if q.local != [] then (t.(local := q.local[1..]), Some(q.local[0]))
    else (t.(injection := Rest(q.injection)), Front(q.injection))
  }

  /** What became of a task handed to `enqueue`. */
  datatype Enqueued = Dropped | OnOwner | MustUnpark

  class Scheduler<T> {
    var local: seq<T>
    var injection: seq<T>
    var deferred: seq<T>
    var tick: nat
    var owner: Option<nat>
    var closed: bool
    var shutdownComplete: bool

    ghost function View(): Queues<T>
      reads this
    {
      Queues(local, injection, deferred, tick)
    }

    constructor ()
      ensures View() == Queues([], [], [], 0) && owner.None? && !closed && !shutdownComplete
    {
      local, injection, deferred, tick := [], [], [], 0;
      owner, closed, shutdownComplete := None, false, false;
    }

    /** The thread inside `block_on` has the owner slot to itself. */
    method Enter(current: nat) returns (ok: bool)
      modifies this`owner
      ensures ok <==> old(owner).None?
      ensures owner == if ok then Some(current) else old(owner)
    {
      ok := owner.None?;
      if ok { owner := Some(current); }
    }

    method Leave(current: nat)
      modifies this`owner
      ensures owner == if old(owner) == Some(current) then None else old(owner)
    {
      if owner == Some(current) { owner := None; }
    }

    /** `enqueue` called by thread `current`. The owner's lock is released before the injection queue is
        locked; `completes` says that a shutdown completed in between. The task ends up in exactly one
        queue unless the runtime has shut down for good, and whoever did not run on the owner of an open
        runtime must wake it. */
    method Enqueue(x: T, current: nat, completes: bool) returns (r: Enqueued)
      requires completes ==> closed
      modifies this`local, this`injection, this`shutdownComplete
      ensures old(shutdownComplete) ==> shutdownComplete
      ensures shutdownComplete && !old(shutdownComplete) ==> completes
      ensures r == Dropped <==> closed && shutdownComplete
      ensures r == OnOwner <==> owner == Some(current) && !closed
      ensures r == Dropped ==> View() == old(View())
      ensures r == OnOwner ==> View() == old(View()).(local := old(local) + [x])
      ensures r == MustUnpark ==> View() == old(View()).(injection := old(injection) + [x])
    {
      if closed && shutdownComplete {
        return Dropped;
      }
      if owner == Some(current) && !closed {
        local := local + [x];
        return OnOwner;
      }
      shutdownComplete := shutdownComplete || completes;
      if closed && shutdownComplete {
        return Dropped;
      }
      injection := injection + [x];
      r := MustUnpark;
    }

    method Next() returns (task: Option<T>)
      modifies this`local, this`injection, this`deferred, this`tick
      ensures (View(), task) == NextTask(old(View()))
    {
      tick := (tick + 1) % WRAP;
      if deferred != [] {
        task, deferred := Some(deferred[0]), deferred[1..];
        return;
      }
      if tick % INTERVAL == 0 {
        if injection != [] {
          task, injection := Some(injection[0]), injection[1..];
          return;
        }
      }
      if local != [] {
        task, local := Some(local[0]), local[1..];
        return;
      }
      if injection != [] {
        task, injection := Some(injection[0]), injection[1..];
        return;
      }
      task := None;
    }

    /** `drain_deferred`: the tasks handed to `run`, oldest first. */
    method DrainDeferred() returns (ran: seq<T>)
      modifies this`deferred
      ensures deferred == [] && ran == old(deferred)
    {
      ran := [];
      while deferred != []
        invariant ran + deferred == old(deferred)
        decreases |deferred|
      {
        ran, deferred := ran + [deferred[0]], deferred[1..];
      }
    }
  }

  /** Each call takes the oldest task of exactly one queue and answers with it, a deferred one first; it
      answers with none exactly when every queue is empty. */
  lemma NextTakesOne<T>(q: Queues<T>)
    ensures var (t, x) := NextTask(q);
            && (x.None? <==> q.deferred == [] && q.local == [] && q.injection == [])
            && (q.deferred != [] ==> x == Some(q.deferred[0]) && t == q.(tick := Tick(q.tick), deferred := q.deferred[1..]))
            && (x.Some? ==>
                  || ([x.value] + t.deferred == q.deferred && t.local == q.local && t.injection == q.injection)
                  || ([x.value] + t.local == q.local && t.deferred == q.deferred && t.injection == q.injection)
                  || ([x.value] + t.injection == q.injection && t.deferred == q.deferred && t.local == q.local))
            && (x.None? ==> t == q.(tick := Tick(q.tick)))
  {
  }

  // ----- Rounds -----

  /** What is queued before a call of `next_task`. */
  datatype Arrivals<T> = Arrivals(local: seq<T>, injection: seq<T>)

  function Fill<T>(q: Queues<T>, a: Arrivals<T>): Queues<T> {
    q.(local := q.local + a.local, injection := q.injection + a.injection)
  }

  /** The answers of successive calls, each after its arrivals. */
  function Answers<T>(q: Queues<T>, rounds: seq<Arrivals<T>>): (r: seq<Option<T>>)
    ensures |r| == |rounds|
    decreases |rounds|
  {
    if rounds == [] then []
    else
      var (t, x) := NextTask(Fill(q, rounds[0]));
      [x] + Answers(t, rounds[1..])
  }

  /** Calls until a due tick is reached; the wrapped counter starts over at a due tick. */
  function Gap(tick: nat): nat
    requires tick < WRAP
  {
    var d := INTERVAL - tick % INTERVAL;
    if tick + d < WRAP then d else WRAP - tick
  }

  lemma GapRange(tick: nat)
    requires tick < WRAP
    ensures 1 <= Gap(tick) <= INTERVAL
  {
  }

  lemma GapEnds(tick: nat)
    requires tick < WRAP
    ensures Gap(tick) == 1 <==> Due(Tick(tick))
  {
    if tick + 1 < WRAP { assert (tick + 1) % INTERVAL == 0 <==> tick % INTERVAL == INTERVAL - 1; }
  }

  lemma GapFalls(tick: nat)
    requires tick < WRAP && Gap(tick) > 1
    ensures Gap(Tick(tick)) == Gap(tick) - 1
  {
    if tick % INTERVAL < INTERVAL - 1 { assert (tick + 1) % INTERVAL == tick % INTERVAL + 1; }
  }

  lemma GapSteps(tick: nat)
    requires tick < WRAP
    ensures 1 <= Gap(tick) <= INTERVAL
    ensures Gap(tick) == 1 <==> Due(Tick(tick))
    ensures Gap(tick) > 1 ==> Gap(Tick(tick)) == Gap(tick) - 1
  {
    GapRange(tick);
    GapEnds(tick);
    if Gap(tick) > 1 { GapFalls(tick); }
  }

  ghost predicate Answered<T>(q: Queues<T>, rounds: seq<Arrivals<T>>, within: nat, x: T) {
    exists i :: 0 <= i < within && i < |rounds| && Answers(q, rounds)[i] == Some(x)
  }

  lemma Later<T>(q: Queues<T>, rounds: seq<Arrivals<T>>, within: nat, x: T)
    requires rounds != [] && Answered(NextTask(Fill(q, rounds[0])).0, rounds[1..], within, x)
    ensures Answered(q, rounds, within + 1, x)
  {
    var t := NextTask(Fill(q, rounds[0])).0;
    var i :| 0 <= i < within && i < |rounds| - 1 && Answers(t, rounds[1..])[i] == Some(x);
    assert Answers(q, rounds)[i + 1] == Some(x);
  }

  /** While nothing is deferred, the task at position `k` of the injection queue is returned within the
      calls to the next due tick plus 61 calls per task before it, whatever arrives meanwhile, and also
      across the wrap of the tick. */
  lemma {:induction false} InjectionIsServed<T>(q: Queues<T>, rounds: seq<Arrivals<T>>, k: nat)
    requires q.deferred == [] && q.tick < WRAP && k < |q.injection|
    requires |rounds| >= Gap(q.tick) + INTERVAL * k
    ensures Answered(q, rounds, Gap(q.tick) + INTERVAL * k, q.injection[k])
    decreases |rounds|
  {
    GapSteps(q.tick);
    var f := Fill(q, rounds[0]);
    var (t, r) := NextTask(f);
    var x := q.injection[k];
    var fromInjection := Due(t.tick) || f.local == [];
    assert f.injection[k] == x;
    if fromInjection && k == 0 {
      assert Answers(q, rounds)[0] == Some(x);
    } else if fromInjection {
      GapSteps(t.tick);
      InjectionIsServed(t, rounds[1..], k - 1);
      Widen(t, rounds[1..], Gap(t.tick) + INTERVAL * (k - 1), Gap(q.tick) + INTERVAL * k - 1, x);
      Later(q, rounds, Gap(q.tick) + INTERVAL * k - 1, x);
    } else {
      InjectionIsServed(t, rounds[1..], k);
      Later(q, rounds, Gap(t.tick) + INTERVAL * k, x);
    }
  }

  lemma Widen<T>(q: Queues<T>, rounds: seq<Arrivals<T>>, a: nat, b: nat, x: T)
    requires a <= b && Answered(q, rounds, a, x)
    ensures Answered(q, rounds, b, x)
  {
    var i :| 0 <= i < a && i < |rounds| && Answers(q, rounds)[i] == Some(x);
    assert 0 <= i < b;
  }

  /** In particular within 61 calls per position. */
  lemma InjectionBound<T>(q: Queues<T>, rounds: seq<Arrivals<T>>, k: nat)
    requires q.deferred == [] && q.tick < WRAP && k < |q.injection| && |rounds| >= INTERVAL * (k + 1)
    ensures Answered(q, rounds, INTERVAL * (k + 1), q.injection[k])
  {
    GapSteps(q.tick);
    InjectionIsServed(q, rounds, k);
    Widen(q, rounds, Gap(q.tick) + INTERVAL * k, INTERVAL * (k + 1), q.injection[k]);
  }

  // ----- Local tasks -----

  /** How many of the next `n` calls fall on a due tick. */
  function Dues(tick: nat, n: nat): nat
    decreases n
  {
    if n == 0 then 0 else (if Due(Tick(tick)) then 1 else 0) + Dues(Tick(tick), n - 1)
  }

  /** The local task at position `k` waits for the local tasks before it and for one injection task per
      due tick, and for nothing else. */
  lemma {:induction false} LocalIsServed<T>(q: Queues<T>, rounds: seq<Arrivals<T>>, k: nat, n: nat)
    requires q.deferred == [] && q.tick < WRAP && k < |q.local|
    requires n <= |rounds| && n >= k + 1 + Dues(q.tick, n)
    ensures Answered(q, rounds, n, q.local[k])
    decreases |rounds|
  {
    var f := Fill(q, rounds[0]);
    var (t, r) := NextTask(f);
    var x := q.local[k];
    assert f.local[k] == x;
    if !(Due(t.tick) && f.injection != []) && k == 0 {
      assert Answers(q, rounds)[0] == Some(x);
    } else {
      LocalIsServed(t, rounds[1..], if Due(t.tick) && f.injection != [] then k else k - 1, n - 1);
      Later(q, rounds, n - 1, x);
    }
  }

  /** Away from the wrap due ticks are 61 calls apart; the one at the wrap comes 57 calls after its
      predecessor. */
  lemma DuesAreSpaced(tick: nat)
    requires tick < WRAP
    ensures Due(tick) ==> Gap(tick) == if tick + INTERVAL < WRAP then INTERVAL else 57
  {
    assert WRAP % INTERVAL == 57;
  }

  lemma {:induction false} NoDueInGap(tick: nat, n: nat)
    requires tick < WRAP && n < Gap(tick)
    ensures Dues(tick, n) == 0
    decreases n
  {
    GapSteps(tick);
    if n > 0 { NoDueInGap(Tick(tick), n - 1); }
  }

  /** So at most one of any 57 successive calls is due, and at most one of 61 away from the wrap. */
  lemma {:induction false} OneDuePerInterval(tick: nat, n: nat)
    requires tick < WRAP && n <= INTERVAL && (n <= 57 || tick + n < WRAP)
    ensures Dues(tick, n) <= 1
    decreases n
  {
    GapSteps(tick);
    if n == 0 {
    } else if Due(Tick(tick)) {
      DuesAreSpaced(Tick(tick));
      NoDueInGap(Tick(tick), n - 1);
    } else {
      OneDuePerInterval(Tick(tick), n - 1);
    }
  }

  function Capped(tick: nat): nat
    requires tick < WRAP
  {
    if Gap(tick) < 57 then Gap(tick) else 57
  }

  lemma {:induction false} DuesBound(tick: nat, n: nat)
    requires tick < WRAP
    ensures 57 * Dues(tick, n) <= n + 57 - Capped(tick)
    decreases n
  {
    GapSteps(tick);
    if n > 0 {
      DuesAreSpaced(Tick(tick));
      DuesBound(Tick(tick), n - 1);
    }
  }

  /** Over any stretch, however long and across any number of wraps, injection tasks delay a local task
      by at most one call in 57. */
  lemma LocalBound<T>(q: Queues<T>, rounds: seq<Arrivals<T>>, k: nat, n: nat)
    requires q.deferred == [] && q.tick < WRAP && k < |q.local|
    requires n <= |rounds| && 57 * (n - (k + 1)) >= n + 56
    ensures Answered(q, rounds, n, q.local[k])
  {
    GapSteps(q.tick);
    DuesBound(q.tick, n);
    LocalIsServed(q, rounds, k, n);
  }
}
