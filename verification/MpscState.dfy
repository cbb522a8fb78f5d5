/** The channel's state, updated in place, against the operations on values. */
module MpscState {
  import opened Options
  import opened Waiters
  import opened Mpsc

  /** The senders woken by one offer. */
  function Woken(w: Option<nat>): seq<nat> { if w.Some? then [w.value] else [] }

  class State<T> {
    var queue: seq<T>
    const capacity: Option<nat>
    var reserved: int
    var senders: nat
    var receiverAlive: bool
    var recvWaker: bool
    var waiters: seq<nat>
    var futures: map<nat, Fut<T>>
    var attached: bool
    ghost var permits: nat
    ghost var accepted: seq<T>
    ghost var received: seq<T>

    ghost function View(): Chan<T>
      reads this
    {
      Chan(queue, capacity, reserved, senders, receiverAlive, attached, recvWaker, waiters, futures, permits, accepted, received)
    }

    constructor (capacity: Option<nat>)
      ensures View() == New(capacity)
    {
      this.capacity := capacity;
      queue, reserved, senders, receiverAlive, attached, recvWaker := [], 0, 1, true, true, false;
      waiters, futures, permits, accepted, received := [], map[], 0, [], [];
    }

    method CapacityAvailable() returns (room: bool)
      ensures room == Room(View())
    {
      room := if capacity.None? then true else |queue| + reserved < capacity.value;
    }

    method WakeOneSender() returns (woken: Option<nat>)
      requires Listed(View())
      modifies this`waiters, this`reserved, this`futures
      ensures View() == WakeOne(old(View()))
      ensures woken == if old(Room(View()) && waiters != []) then Some(old(waiters)[0]) else None
      ensures Woken(woken) + waiters == old(waiters)
    {
      var room := CapacityAvailable();
      if !room || waiters == [] { return None; }
      var w := waiters[0];
      waiters := waiters[1..];
      if futures[w].reserves { reserved := reserved + 1; }
      futures := futures[w := futures[w].(granted := true)];
      woken := Some(w);
    }

    /** `woke`: the receiver was waiting and is woken. */
    method AcceptItem(x: T) returns (woke: bool)
      modifies this`queue, this`recvWaker, this`accepted
      ensures View() == Accept(old(View()), x)
      ensures woke == old(recvWaker)
    {
      woke := recvWaker;
      queue := queue + [x];
      recvWaker := false;
      accepted := accepted + [x];
    }

    method PollSendFuture(id: nat, proceed: bool) returns (r: SendResult<T>)
      requires id in futures && !futures[id].reserves && futures[id].item.Some?
      modifies this
      ensures (View(), r) == PollSend(old(View()), id, proceed)
    {
      if !proceed { return SendPending; }
      var f := futures[id];
      if !receiverAlive {
        futures := futures[id := f.(item := None)];
        return Rejected(f.item.value);
      }
      var registered := f.registered && !f.granted;
      var room := CapacityAvailable();
      if room && (f.granted || (!registered && waiters == [])) {
        var _ := AcceptItem(f.item.value);
        futures := futures[id := Fut(false, None, false, false)];
        return Sent;
      }
      if !registered { waiters := waiters + [id]; }
      futures := futures[id := Fut(false, f.item, true, false)];
      r := SendPending;
    }

    method PollReserveFuture(id: nat, proceed: bool) returns (r: ReserveResult)
      requires id in futures && futures[id].reserves
      modifies this
      ensures (View(), r) == PollReserve(old(View()), id, proceed)
    {
      if !proceed { return ReservePending; }
      var f := futures[id];
      if !receiverAlive { return ReceiverGone; }
      if f.granted {
        futures := futures[id := f.(registered := false, granted := false)];
        permits := permits + 1;
        return Reserved;
      }
      var room := CapacityAvailable();
      if !f.registered && waiters == [] && room {
        reserved := reserved + 1;
        permits := permits + 1;
        return Reserved;
      }
      if !f.registered { waiters := waiters + [id]; }
      futures := futures[id := f.(registered := true)];
      r := ReservePending;
    }

    /** Unlink the waiter, give back an unused grant and pass the room on. */
    method CancelFuture(id: nat) returns (woken: Option<nat>)
      requires Listed(View()) && id in futures
      modifies this
      ensures View() == DropFuture(old(View()), id)
      ensures Woken(woken) + waiters == Without(old(waiters), id)
    {
      woken := None;
      var f := futures[id];
      LeftListed(View(), id);
      waiters := Without(waiters, id);
      futures := futures - {id};
      if f.granted {
        if f.reserves { reserved := reserved - 1; }
        woken := WakeOneSender();
      }
    }

    method SendWithPermit(x: T) returns (ok: bool)
      requires permits > 0
      modifies this
      ensures (View(), ok) == PermitSend(old(View()), x)
    {
      reserved := reserved - 1;
      permits := permits - 1;
      if !receiverAlive { return false; }
      var _ := AcceptItem(x);
      ok := true;
    }

    method ReleasePermit() returns (woken: Option<nat>)
      requires Listed(View()) && permits > 0
      modifies this
      ensures View() == PermitDrop(old(View()))
      ensures Woken(woken) + waiters == old(waiters)
    {
      reserved := reserved - 1;
      permits := permits - 1;
      woken := WakeOneSender();
    }

    /** An item received frees a slot, and the sender it is offered to is woken. */
    method Receive(proceed: bool) returns (r: RecvResult<T>, woken: Option<nat>)
      requires Listed(View()) && attached
      modifies this
      ensures (View(), r) == Recv(old(View()), proceed)
      ensures Woken(woken) + waiters == old(waiters)
    {
      woken := None;
      if !proceed { return RecvPending, None; }
      if |queue| > 0 {
        var x := queue[0];
        queue := queue[1..];
        received := received + [x];
        woken := WakeOneSender();
        return Item(x), woken;
      }
      if senders == 0 {
        attached := false;
        return Disconnected, None;
      }
      recvWaker := true;
      r := RecvPending;
    }

    /** The receiver goes: every waiting sender is popped and woken, in order. */
    method CloseReceiver() returns (woken: seq<nat>)
      modifies this
      ensures View() == DropReceiver(old(View()))
      ensures woken == if old(attached) then old(waiters) else []
    {
      woken := [];
      if !attached { return; }
      attached := false;
      receiverAlive := false;
      while waiters != []
        invariant woken + waiters == old(waiters)
        invariant View() == old(View()).(attached := false, receiverAlive := false, waiters := waiters)
        decreases |waiters|
      {
        woken := woken + [waiters[0]];
        waiters := waiters[1..];
      }
    }
  }
}
