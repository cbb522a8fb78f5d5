/** The lock's state, updated in place, against the operations on values. */
module RwLockState {
  import opened Waiters
  import opened RwLock

  class Inner {
    var readers: nat
    var writer: bool
    var waitingWriters: int
    var queue: seq<nat>
    var futures: map<nat, Fut>
    ghost var readGuards: nat
    ghost var writeGuards: nat

    ghost function View(): Lock
      reads this
    {
      Lock(readers, writer, waitingWriters, queue, futures, readGuards, writeGuards)
    }

    constructor ()
      ensures View() == New()
    {
      readers, writer, waitingWriters, queue, futures := 0, false, 0, [], map[];
      readGuards, writeGuards := 0, 0;
    }

    method WakeReadersLocked() returns (woken: seq<nat>)
      requires Queued(View())
      modifies this
      ensures View() == WakeReaders(old(View()))
      ensures woken + queue == old(queue)
    {
      woken := [];
      while queue != []
        invariant Queued(View()) && WakeReaders(View()) == WakeReaders(old(View()))
        invariant woken + queue == old(queue)
        decreases |queue|
      {
        var head := queue[0];
        if futures[head].kind != Reader {
          return;
        }
        GrantHeadQueued(View());
        ghost var next := GrantHead(View()).(readers := readers + 1);
        assert woken + queue == (woken + [head]) + queue[1..];
        queue := queue[1..];
        readers := readers + 1;
        futures := futures[head := futures[head].(granted := true)];
        woken := woken + [head];
        assert View() == next;
      }
    }

    method WakeNextLocked() returns (woken: seq<nat>)
      requires Queued(View())
      modifies this
      ensures View() == WakeNext(old(View()))
      ensures woken + queue == old(queue)
    {
      woken := [];
      if writer {
        return;
      }
      if queue != [] && futures[queue[0]].kind == Writer {
        if readers != 0 {
          return;
        }
        var head := queue[0];
        queue := queue[1..];
        waitingWriters := waitingWriters - 1;
        writer := true;
        futures := futures[head := futures[head].(granted := true)];
        woken := [head];
        return;
      }
      woken := WakeReadersLocked();
    }

    method PollReadFuture(id: nat, proceed: bool) returns (ready: bool)
      requires id in futures && futures[id].kind == Reader
      modifies this
      ensures (View(), ready) == PollRead(old(View()), id, proceed)
    {
      if !proceed { return false; }
      var f := futures[id];
      if f.granted {
        futures := futures[id := Fut(Reader, false, false)];
        readGuards := readGuards + 1;
        return true;
      }
      if !f.registered && !writer && waitingWriters == 0 && queue == [] {
        readers := readers + 1;
        readGuards := readGuards + 1;
        return true;
      }
      if !f.registered {
        queue := queue + [id];
        futures := futures[id := f.(registered := true)];
      }
      ready := false;
    }

    method PollWriteFuture(id: nat, proceed: bool) returns (ready: bool)
      requires id in futures && futures[id].kind == Writer
      modifies this
      ensures (View(), ready) == PollWrite(old(View()), id, proceed)
    {
      if !proceed { return false; }
      var f := futures[id];
      if f.granted {
        futures := futures[id := Fut(Writer, false, false)];
        writeGuards := writeGuards + 1;
        return true;
      }
      if !f.registered && !writer && readers == 0 && queue == [] {
        writer := true;
        writeGuards := writeGuards + 1;
        return true;
      }
      if !f.registered {
        waitingWriters := waitingWriters + 1;
        queue := queue + [id];
        futures := futures[id := f.(registered := true)];
      }
      ready := false;
    }

    method CancelFuture(id: nat) returns (woken: seq<nat>)
      requires Valid(View()) && id in futures
      modifies this
      ensures old(futures[id].granted && futures[id].kind == Reader ==> readers > 0)
      ensures View() == DropFuture(old(View()), id)
      ensures woken + queue == Without(old(queue), id)
    {
      DropQueued(View(), id);
      woken := [];
      var f := futures[id];
      if f.granted {
        GrantIsHeld(View(), id);
        woken := GiveBack(id);
        return;
      }
      futures := futures - {id};
      queue := Without(queue, id);
      if f.registered && f.kind == Writer {
        waitingWriters := waitingWriters - 1;
      }
    }

    /** The granted part of a drop. */
    method GiveBack(id: nat) returns (woken: seq<nat>)
      requires Queued(View()) && id in futures && futures[id].granted && (futures[id].kind == Reader ==> readers > 0)
      modifies this
      ensures View() == DropFuture(old(View()), id)
      ensures woken + queue == Without(old(queue), id)
    {
      DropQueued(View(), id);
      ghost var left := View().(queue := Without(queue, id), futures := futures - {id});
      ghost var next := if futures[id].kind == Reader then left.(readers := readers - 1) else left.(writer := false);
      if futures[id].kind == Reader { readers := readers - 1; } else { writer := false; }
      futures := futures - {id};
      queue := Without(queue, id);
      assert View() == next;
      woken := WakeNextLocked();
    }

    method ReleaseRead() returns (woken: seq<nat>)
      requires Valid(View()) && readGuards > 0
      modifies this
      ensures old(readers) > 0 && View() == DropReadGuard(old(View()))
      ensures woken + queue == old(queue)
    {
      ghost var next := View().(readers := readers - 1, readGuards := readGuards - 1);
      readers := readers - 1;
      readGuards := readGuards - 1;
      assert View() == next;
      woken := WakeNextLocked();
    }

    method ReleaseWrite() returns (woken: seq<nat>)
      requires Queued(View()) && writeGuards > 0
      modifies this
      ensures View() == DropWriteGuard(old(View()))
      ensures woken + queue == old(queue)
    {
      ghost var next := View().(writer := false, writeGuards := writeGuards - 1);
      writer := false;
      writeGuards := writeGuards - 1;
      assert View() == next;
      woken := WakeNextLocked();
    }

    method DowngradeWrite() returns (woken: seq<nat>)
      requires Queued(View()) && writeGuards > 0
      modifies this
      ensures View() == Downgrade(old(View()))
      ensures woken + queue == old(queue)
    {
      ghost var next := View().(writer := false, readers := 1, writeGuards := writeGuards - 1, readGuards := readGuards + 1);
      writer := false;
      readers := 1;
      writeGuards := writeGuards - 1;
      readGuards := readGuards + 1;
      assert View() == next;
      woken := WakeNextLocked();
    }
  }
}
