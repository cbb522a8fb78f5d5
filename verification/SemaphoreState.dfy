/** The semaphore's locked state, updated in place, against the operations on values. */
module SemaphoreState {
  import opened Waiters
  import opened Semaphore

  class Inner {
    var permits: nat
    var closed: bool
    var waiters: seq<nat>
    var futures: map<nat, Acquire>
    ghost var ledger: Ledger

    ghost function View(): Sem
      reads this
    {
      Sem(permits, closed, waiters, futures, ledger)
    }

    constructor (permits: nat)
      ensures View() == New(permits)
    {
      this.permits, closed, waiters, futures := permits, false, [], map[];
      ledger := Ledger(map[], permits, 0, 0, 0);
    }

    /** Pop the head, pay for it and grant it. */
    method GrantHead() returns (head: nat)
      requires Linked(View()) && waiters != [] && futures[waiters[0]].permits <= permits
      modifies this
      ensures View() == ServeHead(old(View())) && [head] + waiters == old(waiters)
    {
      head := waiters[0];
      permits := permits - futures[head].permits;
      waiters := waiters[1..];
      futures := futures[head := futures[head].(granted := true)];
    }

    /** The grant loop. The wakers collected are those of the served waiters, first come first served. */
    method GrantLoop() returns (wakes: seq<nat>)
      requires Linked(View())
      modifies this
      ensures View() == GrantAll(old(View()))
      ensures wakes + waiters == old(waiters)
    {
      wakes := [];
      while waiters != [] && futures[waiters[0]].permits <= permits
        invariant Linked(View()) && GrantAll(View()) == GrantAll(old(View()))
        invariant wakes + waiters == old(waiters)
        decreases |waiters|
      {
        ServeHeadStep(View());
        var head := GrantHead();
        assert wakes + ([head] + waiters) == (wakes + [head]) + waiters;
        wakes := wakes + [head];
      }
    }

    method ReleaseLocked(n: nat) returns (wakes: seq<nat>)
      requires Linked(View())
      modifies this
      ensures View() == Release(old(View()), n)
      ensures wakes + waiters == old(waiters)
    {
      var total := permits + n;
      permits := if total > USIZE_MAX then USIZE_MAX else total;
      ledger := ledger.(lost := ledger.lost + (total - permits));
      assert View() == Released(old(View()), n);
      wakes := GrantLoop();
    }

    method PollAcquire(id: nat, ghost g: nat, proceed: bool) returns (r: Outcome)
      requires id in futures && g !in ledger.held
      modifies this
      ensures (View(), r) == Poll(old(View()), id, g, proceed)
    {
      if !proceed { return Pending; }
      var f := futures[id];
      if f.granted {
        futures := futures[id := f.(granted := false)];
        ledger := ledger.(held := ledger.held[g := f.permits]);
        return Acquired;
      }
      if closed {
        waiters := Without(waiters, id);
        return Closed;
      }
      if id !in waiters && waiters == [] && permits >= f.permits {
        permits := permits - f.permits;
        ledger := ledger.(held := ledger.held[g := f.permits]);
        return Acquired;
      }
      if id !in waiters {
        waiters := waiters + [id];
      }
      r := Pending;
    }

    method DropAcquire(id: nat) returns (wakes: seq<nat>)
      requires Linked(View()) && id in futures
      modifies this
      ensures View() == DropFuture(old(View()), id)
      ensures wakes + waiters == if id in old(waiters) then Without(old(waiters), id) else old(waiters)
    {
      wakes := [];
      var f := futures[id];
      if id in waiters {
        waiters := Without(waiters, id);
        futures := futures - {id};
      } else {
        DropUnlinked(View(), id);
        futures := futures - {id};
        if f.granted {
          wakes := ReleaseLocked(f.permits);
        }
      }
    }

    /** Close pops every waiter without granting it anything. */
    method CloseAll() returns (wakes: seq<nat>)
      modifies this
      ensures View() == Close(old(View())) && wakes == old(waiters)
    {
      closed := true;
      wakes := [];
      while waiters != []
        invariant wakes + waiters == old(waiters)
        invariant View() == old(View()).(closed := true, waiters := waiters)
        decreases |waiters|
      {
        assert wakes + waiters == (wakes + [waiters[0]]) + waiters[1..];
        wakes := wakes + [waiters[0]];
        waiters := waiters[1..];
      }
    }
  }
}
