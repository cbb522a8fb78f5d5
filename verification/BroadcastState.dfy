/** The broadcast channel's state, updated in place, against the operations on values. */
module BroadcastState {
  import opened Broadcast

  class Inner<T(==)> {
    const capacity: nat
    var buffer: seq<T>
    var nextSeq: nat
    var receivers: map<nat, Rx<T>>
    var senders: nat
    var transient: nat
    ghost var log: seq<T>

    ghost function View(): Chan<T>
      reads this
    {
      Chan(capacity, buffer, nextSeq, receivers, senders, transient, log)
    }

    constructor (capacity: nat)
      requires capacity > 0
      ensures View() == New(capacity)
    {
      this.capacity := capacity;
      buffer, nextSeq, receivers, log := [], 0, map[0 := Rx(0, true, false, 0, [])], [];
      senders, transient := 1, 0;
    }

    /** Take every waker. */
    method WakeAll()
      modifies this`receivers
      ensures receivers == Woken(old(receivers))
    {
      var todo := receivers.Keys;
      while todo != {}
        invariant receivers.Keys == old(receivers).Keys && todo <= receivers.Keys
        invariant forall id :: id in receivers ==>
          receivers[id] == if id in todo then old(receivers)[id] else old(receivers)[id].(waker := false)
        decreases todo
      {
        var id :| id in todo;
        receivers := receivers[id := receivers[id].(waker := false)];
        todo := todo - {id};
      }
    }

    method SendValue(x: T) returns (ok: bool)
      requires Valid(View())
      modifies this
      ensures (View(), ok) == Send(old(View()), x)
    {
      if forall id :: id in receivers ==> !receivers[id].registered {
        return false;
      }
      if |buffer| == capacity {
        buffer := buffer[1..];
      }
      buffer := buffer + [x];
      nextSeq := nextSeq + 1;
      log := log + [x];
      WakeAll();
      ok := true;
    }

    /** The read shared by `try_recv` and the future. */
    method ReadNext(id: nat) returns (a: Answer<T>)
      requires id in receivers && Valid(View())
      modifies this`receivers
      ensures (View(), a) == Read(old(View()), id)
    {
      var r := receivers[id];
      RingHolds(View(), r.cursor);
      var held := if |buffer| < capacity then |buffer| else capacity;
      var first := if nextSeq >= held then nextSeq - held else 0;
      if r.cursor < first {
        var lagged := first - r.cursor;
        receivers := receivers[id := r.(cursor := first, registered := true, history := r.history + [Lagged(lagged)])];
        return Missed(lagged);
      }
      if r.cursor < nextSeq {
        var value := buffer[r.cursor - first];
        receivers := receivers[id := r.(cursor := r.cursor + 1, registered := true, history := r.history + [Got(value)])];
        return Value(value);
      }
      assert receivers[id := r] == receivers;
      a := Empty;
    }

    /** The handles that share the channel against the slots. */
    method Ended() returns (closed: bool)
      ensures closed == CountsClosed(View())
      ensures closed <==>
                senders == 0 && transient == 0 && forall id :: id in receivers ==> receivers[id].registered
    {
      CountsClosedIff(View());
      var strong := senders + transient + |receivers|;
      var slots := set id | id in receivers && receivers[id].registered;
      assert slots == Slots(receivers);
      closed := strong == |slots|;
    }

    method TryReceive(id: nat) returns (a: Answer<T>)
      requires id in receivers && Valid(View())
      modifies this`receivers
      ensures (View(), a) == TryRecv(old(View()), id)
    {
      var closed := Ended();
      if closed { return Closed; }
      a := ReadNext(id);
    }

    method PollReceive(id: nat, proceed: bool) returns (a: Answer<T>)
      requires id in receivers && Valid(View())
      modifies this`receivers
      ensures (View(), a) == Poll(old(View()), id, proceed)
    {
      if !proceed { return Pending; }
      a := ReadNext(id);
      if a != Empty { return; }
      var closed := Ended();
      if closed { return Closed; }
      receivers := receivers[id := receivers[id].(registered := true, waker := true)];
      a := Pending;
    }
  }
}
