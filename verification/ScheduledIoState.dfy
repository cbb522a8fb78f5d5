/** The registration's word, slots and list, updated in place, against the steps on values. */
module ScheduledIoState {
  import opened Options
  import opened Bits
  import opened ReadyWord
  import opened ScheduledIo

  class Registration {
    var word: nat
    var reader: Option<Waiter>
    var writer: Option<Waiter>
    var list: seq<Waiter>
    var freshId: nat
    ghost var futures: map<nat, Fut>
    ghost var woken: seq<Waiter>

    /** The registration between two locked operations. */
    ghost function View(): Io
      reads this
    {
      Io(word, reader, writer, list, Free, futures, freshId, woken)
    }

    constructor (generation: nat)
      ensures View() == Fresh(generation)
    {
      word, reader, writer, list, freshId := (generation * GEN_UNIT) % WORD, None, None, [], 0;
      futures, woken := map[], [];
    }

    method TakeMatchingReader(event: nat) returns (popped: seq<Waiter>)
      modifies this`reader
      ensures reader == Left(old(reader), event) && popped == Taken(old(reader), event)
    {
      popped := [];
      if reader.Some? && Satisfied(reader.value.interest, event) {
        popped := [reader.value];
        reader := None;
      }
    }

    method TakeMatchingWriter(event: nat) returns (popped: seq<Waiter>)
      modifies this`writer
      ensures writer == Left(old(writer), event) && popped == Taken(old(writer), event)
    {
      popped := [];
      if writer.Some? && Satisfied(writer.value.interest, event) {
        popped := [writer.value];
        writer := None;
      }
    }

    /** One pass over the list: each waiter is popped, and pushed back when it is not satisfied. */
    method RotateList(event: nat) returns (popped: seq<Waiter>)
      modifies this`list
      ensures list == Select(old(list), event, false) && popped == Select(old(list), event, true)
    {
      popped := [];
      ghost var rest := list;
      ghost var kept: seq<Waiter> := [];
      for i := 0 to |list|
        invariant |rest| == |old(list)| - i && list == rest + kept
        invariant kept + Select(rest, event, false) == Select(old(list), event, false)
        invariant popped + Select(rest, event, true) == Select(old(list), event, true)
      {
        var waiter := list[0];
        assert rest[0] == waiter && list[1..] == rest[1..] + kept;
        list := list[1..];
        SelectFront(rest, event, true);
        SelectFront(rest, event, false);
        if Satisfied(waiter.interest, event) {
          assert popped + ([waiter] + Select(rest[1..], event, true)) == (popped + [waiter]) + Select(rest[1..], event, true);
          popped := popped + [waiter];
        } else {
          assert kept + ([waiter] + Select(rest[1..], event, false)) == (kept + [waiter]) + Select(rest[1..], event, false);
          list := list + [waiter];
          kept := kept + [waiter];
        }
        rest := rest[1..];
      }
    }

    /** `set_readiness_and_wake`; `clears` run between its load and its store and make no difference.
        The waiters returned are the ones to wake. */
    method SetReadinessAndWake(event: nat, clears: seq<(nat, nat)>) returns (popped: seq<Waiter>)
      requires word < WORD && event < READY_LIMIT
      modifies this
      ensures View() == Wake(Store(BeginSet(old(View()), event)))
      ensures woken == old(woken) + popped
    {
      var loaded := word;
      for i := 0 to |clears|
        invariant unchanged(`reader) && unchanged(`writer) && unchanged(`list) && unchanged(`freshId)
        invariant unchanged(`futures) && unchanged(`woken)
      {
        var _ := ClearReady(clears[i].0, clears[i].1, []);
      }
      word := WithReady(loaded, Or(Ready(loaded), event));
      var first := TakeMatchingReader(event);
      var second := TakeMatchingWriter(event);
      var third := RotateList(event);
      popped := first + second + third;
      assert woken + popped == woken + first + second + third;
      woken := woken + popped;
    }

    /** `clear_ready`: the compare-and-swap loop acts once, on the last word it saw. `others` are the
        words that other threads put there between a load and its exchange. */
    method ClearReady(generation: nat, ready: nat, others: seq<nat>) returns (ghost seen: nat)
      modifies this`word
      ensures word == Cleared(seen, generation, ready)
      ensures seen == old(word) || seen in others
      ensures others == [] ==> View() == Clear(old(View()), generation, ready)
    {
      var packed := word;
      var i := 0;
      seen := packed;
      while true
        invariant 0 <= i <= |others| && packed == word == seen
        invariant seen == if i == 0 then old(word) else others[i - 1]
        decreases |others| - i
      {
        if Generation(packed) != generation {
          return;
        }
        if Ready(packed) != ready {
          return;
        }
        if i == |others| {
          word := packed - ready * READY_UNIT;
          return;
        }
        word := others[i];
        packed := word;
        seen := packed;
        i := i + 1;
      }
    }

    /** `readiness`, without the lock: the bits reported, when they meet the interest or the driver shuts
        down, which reads as both directions closed with an error. */
    method CheckReadiness(interest: Interest) returns (ready: Option<nat>)
      ensures ready.Some? <==> Satisfied(interest, Ready(word)) || Shutdown(word)
      ensures ready.Some? && !Shutdown(word) ==> ready.value == Ready(word)
      ensures ready.Some? && Shutdown(word) ==>
        forall k :: Bit(ready.value, k) <==> k == 2 || k == 3 || k == 4
    {
      if Shutdown(word) {
        ClosedBits();
        return Some(Or(Or(0x4, 0x8), 0x10));
      }
      if Satisfied(interest, Ready(word)) {
        return Some(Ready(word));
      }
      ready := None;
    }

    /** `add_waiter`: refused when the interest is met already, else parked in the first free place. */
    method AddWaiter(owner: nat, interest: Interest) returns (place: Place)
      requires owner in futures && futures[owner] == Fut(interest, Unregistered)
      modifies this
      ensures View() == FinishAdd(BeginAdd(old(View()), owner))
      ensures futures[owner].place == place
      ensures place == Unregistered <==> Satisfied(interest, Ready(word)) || Shutdown(word)
      ensures place.In? ==>
        && (place.slot == ReaderSlot <==> interest.readable && old(reader).None?)
        && (place.slot == WriterSlot <==> interest.writable && old(writer).None? && !(interest.readable && old(reader).None?))
    {
      if Satisfied(interest, Ready(word)) || Shutdown(word) {
        return Unregistered;
      }
      var w := Waiter(freshId, owner, interest);
      freshId := freshId + 1;
      if interest.readable && reader.None? {
        reader := Some(w);
        place := In(ReaderSlot, w.id);
      } else if interest.writable && writer.None? {
        writer := Some(w);
        place := In(WriterSlot, w.id);
      } else {
        list := list + [w];
        place := In(Overflow, w.id);
      }
      futures := futures[owner := Fut(interest, place)];
    }

    /** Take one node out of the list, wherever it stands; the others keep their order. */
    method UnlinkNode(id: nat)
      modifies this`list
      ensures list == Unlinked(old(list), id)
      ensures (exists i :: 0 <= i < |old(list)| && old(list)[i].id == id && list == old(list)[..i] + old(list)[i + 1..])
              || (list == old(list) && forall i :: 0 <= i < |list| ==> list[i].id != id)
    {
      var i := 0;
      while i < |list| && list[i].id != id
        invariant 0 <= i <= |list| && forall j :: 0 <= j < i ==> list[j].id != id
      {
        i := i + 1;
      }
      if i < |list| {
        UnlinkedAt(list, id, i);
        list := list[..i] + list[i + 1..];
      } else {
        UnlinkedNone(list, id);
      }
    }

    /** Removal for future `f`, whose node was put into `slot`: its own waiter leaves, if it is still
        registered, and every other waiter stays where it is. */
    method RemoveWaiter(ghost f: nat, slot: Slot, id: nat)
      requires Valid(View()) && f in futures && futures[f].place == In(slot, id)
      modifies this
      ensures View() == Detach(old(View()), f) && Valid(View())
      ensures forall w :: Registered(View(), w) <==> Registered(old(View()), w) && w.owner != f
    {
      DetachExact(View(), f);
      DetachKeeps(View(), f);
      match slot {
        case ReaderSlot => if reader.Some? && reader.value.id == id { reader := None; }
        case WriterSlot => if writer.Some? && writer.value.id == id { writer := None; }
        case Overflow => UnlinkNode(id);
      }
      futures := futures[f := futures[f].(place := Unregistered)];
    }
  }

  lemma ClosedBits()
    ensures Or(Or(0x4, 0x8), 0x10) == 0x1C
    ensures forall k: nat :: Bit(0x1C, k) <==> k == 2 || k == 3 || k == 4
  {
    assert Or(0x4, 0x8) == 0xC;
    assert Or(0xC, 0x10) == 0x1C;
    forall k: nat ensures Bit(0x1C, k) <==> k == 2 || k == 3 || k == 4 {
      if k >= 5 {
        assert Bit(0x1C, k) == Bit(0xE, k - 1) == Bit(0x7, k - 2) == Bit(0x3, k - 3) == Bit(0x1, k - 4) == Bit(0, k - 5);
        BitOfZero(k - 5);
      }
    }
  }

  lemma SelectFront(list: seq<Waiter>, event: nat, met: bool)
    requires list != []
    ensures Select(list, event, met) ==
            (if Satisfied(list[0].interest, event) == met then [list[0]] else []) + Select(list[1..], event, met)
  {
  }

  lemma {:induction false} UnlinkedAt(list: seq<Waiter>, id: nat, i: nat)
    requires i < |list| && list[i].id == id && forall j :: 0 <= j < i ==> list[j].id != id
    ensures Unlinked(list, id) == list[..i] + list[i + 1..]
    decreases i
  {
    if i > 0 {
      UnlinkedAt(list[1..], id, i - 1);
      assert list[..i] + list[i + 1..] == [list[0]] + (list[1..][..i - 1] + list[1..][i..]);
    }
  }

  lemma {:induction false} UnlinkedNone(list: seq<Waiter>, id: nat)
    requires forall j :: 0 <= j < |list| ==> list[j].id != id
    ensures Unlinked(list, id) == list
  {
    if list != [] { UnlinkedNone(list[1..], id); }
  }
}
