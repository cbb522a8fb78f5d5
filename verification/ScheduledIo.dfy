/** The readiness registration of one descriptor: events are stored and waiters added under the waiters
    lock, clears are lock-free. A lock-protected operation is cut where a clear can fall in between. */
module ScheduledIo {
  import opened Options
  import opened Bits
  import opened ReadyWord

  /** `id` is the identity of the waiter node, `owner` the future that made it. */
  datatype Waiter = Waiter(id: nat, owner: nat, interest: Interest)

  datatype Slot = ReaderSlot | WriterSlot | Overflow

  datatype Place = Unregistered | In(slot: Slot, id: nat)

  datatype Fut = Fut(interest: Interest, place: Place)

  /** Who holds the waiters lock, and what it has read so far. */
  datatype Lock =
    | Free
    | Setting(loaded: nat, event: nat)
    | Waking(event: nat)
    | Adding(loaded: nat, future: nat)

  datatype Io = Io(
    word: nat,
    reader: Option<Waiter>,
    writer: Option<Waiter>,
    list: seq<Waiter>,
    lock: Lock,
    futures: map<nat, Fut>,
    fresh_id: nat,
    woken: seq<Waiter>)

  function Fresh(generation: nat): Io {
    Io(ReadyWord.New(generation), None, None, [], Free, map[], 0, [])
  }

  // ----- Waiters an event satisfies -----

  /** The waiters of a list that an event satisfies, or those it does not, in order. */
  function Select(list: seq<Waiter>, event: nat, met: bool): seq<Waiter> {
    if list == [] then []
    else if Satisfied(list[0].interest, event) == met then [list[0]] + Select(list[1..], event, met)
    else Select(list[1..], event, met)
  }

  function Taken(slot: Option<Waiter>, event: nat): seq<Waiter> {
    if slot.Some? && Satisfied(slot.value.interest, event) then [slot.value] else []
  }

  function Left(slot: Option<Waiter>, event: nat): Option<Waiter> {
    if slot.Some? && Satisfied(slot.value.interest, event) then None else slot
  }

  // ----- Steps -----

  /** Take the lock and load the word. */
  function BeginSet(s: Io, event: nat): Io { s.(lock := Setting(s.word, event)) }

  /** Store the union computed from the loaded word. */
  function Store(s: Io): Io
    requires s.lock.Setting?
  {
    var w := s.lock.loaded;
    s.(word := WithReady(w, Or(Ready(w), s.lock.event)), lock := Waking(s.lock.event))
  }

  /** Remove and wake the matching waiters, release the lock. */
  function Wake(s: Io): Io
    requires s.lock.Waking?
  {
    var e := s.lock.event;
    s.(reader := Left(s.reader, e), writer := Left(s.writer, e), list := Select(s.list, e, false), lock := Free,
       woken := s.woken + Taken(s.reader, e) + Taken(s.writer, e) + Select(s.list, e, true))
  }

  /** `clear_ready`: the compare-and-swap that succeeds, or the test that gives up. */
  function Cleared(word: nat, generation: nat, ready: nat): nat {
    if Generation(word) == generation && Ready(word) == ready then WithReady(word, 0) else word
  }

  function Clear(s: Io, generation: nat, ready: nat): Io { s.(word := Cleared(s.word, generation, ready)) }

  function Start(s: Io, f: nat, interest: Interest): Io { s.(futures := s.futures[f := Fut(interest, Unregistered)]) }

  function BeginAdd(s: Io, f: nat): Io { s.(lock := Adding(s.word, f)) }

  /** `add_waiter` after its load: report readiness instead of parking, or register in the first free
      slot of the interest, or in the list. */
  function FinishAdd(s: Io): Io
    requires s.lock.Adding? && s.lock.future in s.futures
  {
    var f := s.lock.future;
    var interest := s.futures[f].interest;
    var w := Waiter(s.fresh_id, f, interest);
    if Satisfied(interest, Ready(s.lock.loaded)) || Shutdown(s.lock.loaded) then s.(lock := Free)
    else
      var slot := FreeSlot(s, interest);
      s.(lock := Free,
         reader := if slot == ReaderSlot then Some(w) else s.reader,
         writer := if slot == WriterSlot then Some(w) else s.writer,
         list := if slot == Overflow then s.list + [w] else s.list,
         fresh_id := w.id + 1,
         futures := s.futures[f := Fut(interest, In(slot, w.id))])
  }

  function FreeSlot(s: Io, interest: Interest): Slot {
    if interest.readable && s.reader.None? then ReaderSlot
    else if interest.writable && s.writer.None? then WriterSlot
    else Overflow
  }

  function Unless(slot: Option<Waiter>, id: nat): Option<Waiter> {
    if slot.Some? && slot.value.id == id then None else slot
  }

  function Unlinked(list: seq<Waiter>, id: nat): seq<Waiter> {
    if list == [] then [] else if list[0].id == id then list[1..] else [list[0]] + Unlinked(list[1..], id)
  }

  /** `detach`: take the waiter out of where it was put, if it is still there. */
  function Detach(s: Io, f: nat): Io
    requires f in s.futures
  {
    var fut := s.futures[f];
    match fut.place
    case Unregistered => s
    case In(slot, id) =>
      s.(futures := s.futures[f := fut.(place := Unregistered)],
         reader := if slot == ReaderSlot then Unless(s.reader, id) else s.reader,
         writer := if slot == WriterSlot then Unless(s.writer, id) else s.writer,
         list := if slot == Overflow then Unlinked(s.list, id) else s.list)
  }

  function DropFuture(s: Io, f: nat): Io
    requires f in s.futures
  {
    var t := Detach(s, f);
    t.(futures := t.futures - {f})
  }

  // ----- The invariant -----

  predicate Unmet(w: Waiter, ready: nat) { !Satisfied(w.interest, ready) }

  ghost predicate NoneMet(reader: Option<Waiter>, writer: Option<Waiter>, list: seq<Waiter>, ready: nat) {
    && (reader.Some? ==> Unmet(reader.value, ready))
    && (writer.Some? ==> Unmet(writer.value, ready))
    && (forall i :: 0 <= i < |list| ==> Unmet(list[i], ready))
  }

  /** Whoever is met by the stored bits is met by the event being delivered. */
  predicate Due(w: Waiter, ready: nat, event: nat) { Satisfied(w.interest, ready) ==> Satisfied(w.interest, event) }

  ghost predicate AllDue(reader: Option<Waiter>, writer: Option<Waiter>, list: seq<Waiter>, ready: nat, event: nat) {
    && (reader.Some? ==> Due(reader.value, ready, event))
    && (writer.Some? ==> Due(writer.value, ready, event))
    && (forall i :: 0 <= i < |list| ==> Due(list[i], ready, event))
  }

  ghost predicate Quiet(s: Io) {
    match s.lock
    case Free => NoneMet(s.reader, s.writer, s.list, Ready(s.word))
    case Setting(loaded, e) =>
      && NoneMet(s.reader, s.writer, s.list, Ready(s.word)) && NoneMet(s.reader, s.writer, s.list, Ready(loaded))
      && loaded < WORD && e < READY_LIMIT && Generation(loaded) == Generation(s.word)
    case Waking(e) => AllDue(s.reader, s.writer, s.list, Ready(s.word), e)
    case Adding(loaded, f) =>
      && NoneMet(s.reader, s.writer, s.list, Ready(s.word)) && (Ready(s.word) == Ready(loaded) || Ready(s.word) == 0)
      && f in s.futures && s.futures[f].place == Unregistered
  }

  /** A registered waiter is where its future says it is. */
  predicate Placed(w: Waiter, slot: Slot, futures: map<nat, Fut>, fresh_id: nat) {
    w.owner in futures && futures[w.owner] == Fut(w.interest, In(slot, w.id)) && w.id < fresh_id
  }

  ghost predicate AllPlaced(s: Io) {
    && (s.reader.Some? ==> Placed(s.reader.value, ReaderSlot, s.futures, s.fresh_id))
    && (s.writer.Some? ==> Placed(s.writer.value, WriterSlot, s.futures, s.fresh_id))
    && ListPlaced(s.list, s.futures, s.fresh_id)
  }

  ghost predicate ListPlaced(list: seq<Waiter>, futures: map<nat, Fut>, fresh_id: nat) {
    && (forall i :: 0 <= i < |list| ==> Placed(list[i], Overflow, futures, fresh_id))
    && (forall i, j :: 0 <= i < j < |list| ==> list[i].id != list[j].id)
  }

  /** No two futures hold the same node. */
  ghost predicate Handled(futures: map<nat, Fut>, fresh_id: nat) {
    && (forall f :: f in futures && futures[f].place.In? ==> futures[f].place.id < fresh_id)
    && (forall f, g :: f in futures && g in futures && f != g && futures[f].place.In? && futures[g].place.In? ==>
          futures[f].place.id != futures[g].place.id)
  }

  ghost predicate Valid(s: Io) { s.word < WORD && Quiet(s) && AllPlaced(s) && Handled(s.futures, s.fresh_id) }

  ghost predicate Registered(s: Io, w: Waiter) {
    s.reader == Some(w) || s.writer == Some(w) || w in s.list
  }

  // ----- Lists -----

  /** Selecting by an event keeps exactly the waiters asked for. */
  lemma {:induction false} SelectExact(list: seq<Waiter>, event: nat, met: bool)
    ensures forall w :: w in Select(list, event, met) <==> w in list && Satisfied(w.interest, event) == met
    ensures |Select(list, event, met)| + |Select(list, event, !met)| == |list|
  {
    if list != [] {
      SelectExact(list[1..], event, met);
      assert list == [list[0]] + list[1..];
    }
  }

  lemma {:induction false} SelectPlaced(list: seq<Waiter>, event: nat, met: bool, futures: map<nat, Fut>, n: nat)
    requires ListPlaced(list, futures, n)
    ensures ListPlaced(Select(list, event, met), futures, n)
  {
    if list != [] {
      SelectPlaced(list[1..], event, met, futures, n);
      SelectExact(list[1..], event, met);
      var rest := Select(list[1..], event, met);
      forall i | 0 <= i < |rest| ensures rest[i].id != list[0].id {
        assert rest[i] in list[1..];
      }
    }
  }

  lemma {:induction false} UnlinkedExact(list: seq<Waiter>, id: nat, futures: map<nat, Fut>, n: nat)
    requires ListPlaced(list, futures, n)
    ensures ListPlaced(Unlinked(list, id), futures, n)
    ensures forall w :: w in Unlinked(list, id) <==> w in list && w.id != id
  {
    if list != [] {
      UnlinkedExact(list[1..], id, futures, n);
      assert list == [list[0]] + list[1..];
      var rest := Unlinked(list[1..], id);
      forall i | 0 <= i < |rest| ensures rest[i].id != list[0].id {
        assert rest[i] in list[1..];
      }
    }
  }

  // ----- Every step keeps the invariant -----

  lemma UnionUnmet(reader: Option<Waiter>, writer: Option<Waiter>, list: seq<Waiter>, ready: nat, event: nat)
    requires NoneMet(reader, writer, list, ready)
    ensures AllDue(reader, writer, list, Or(ready, event), event)
  {
    forall w: Waiter ensures Unmet(w, ready) ==> Due(w, Or(ready, event), event) {
      UnionSatisfies(w.interest, ready, event);
    }
  }

  lemma NoneMetByNothing(reader: Option<Waiter>, writer: Option<Waiter>, list: seq<Waiter>, event: nat)
    ensures NoneMet(reader, writer, list, 0) && AllDue(reader, writer, list, 0, event)
  {
    forall w: Waiter ensures Unmet(w, 0) {
      NothingSatisfies(w.interest);
    }
  }

  lemma StoreKeeps(s: Io)
    requires Valid(s) && s.lock.Setting?
    ensures Valid(Store(s)) && Generation(Store(s).word) == Generation(s.word)
  {
    var w := s.lock.loaded;
    ReadyUnion(Ready(w), s.lock.event);
    WithReadyFrame(w, Or(Ready(w), s.lock.event));
    UnionUnmet(s.reader, s.writer, s.list, Ready(w), s.lock.event);
  }

  lemma WakeKeeps(s: Io)
    requires Valid(s) && s.lock.Waking?
    ensures Valid(Wake(s))
  {
    SelectExact(s.list, s.lock.event, false);
    SelectPlaced(s.list, s.lock.event, false, s.futures, s.fresh_id);
    var left := Select(s.list, s.lock.event, false);
    forall i | 0 <= i < |left| ensures Unmet(left[i], Ready(s.word)) {
      assert left[i] in s.list && Due(left[i], Ready(s.word), s.lock.event);
    }
  }

  /** A clear may fall anywhere, also between the load and the store of an event. */
  lemma ClearKeeps(s: Io, generation: nat, ready: nat)
    requires Valid(s)
    ensures Valid(Clear(s, generation, ready)) && Generation(Clear(s, generation, ready).word) == Generation(s.word)
  {
    WithReadyFrame(s.word, 0);
    NoneMetByNothing(s.reader, s.writer, s.list, if s.lock.Waking? then s.lock.event else 0);
  }

  lemma FinishAddKeeps(s: Io)
    requires Valid(s) && s.lock.Adding?
    ensures Valid(FinishAdd(s))
  {
    var f := s.lock.future;
    var t := FinishAdd(s);
    NothingSatisfies(s.futures[f].interest);
    assert Quiet(t);
    HandledAdd(s.futures, s.fresh_id, f, t.futures[f]);
  }

  lemma HandledAdd(futures: map<nat, Fut>, n: nat, f: nat, fut: Fut)
    requires Handled(futures, n) && (fut.place.In? ==> fut.place.id == n)
    ensures Handled(futures[f := fut], n + 1)
  {
  }

  lemma RegisteredPlaced(s: Io, w: Waiter)
    requires AllPlaced(s) && Registered(s, w)
    ensures w.owner in s.futures && w.id < s.fresh_id
    ensures exists slot :: s.futures[w.owner] == Fut(w.interest, In(slot, w.id))
  {
    if s.reader == Some(w) {
      assert s.futures[w.owner] == Fut(w.interest, In(ReaderSlot, w.id));
    } else if s.writer == Some(w) {
      assert s.futures[w.owner] == Fut(w.interest, In(WriterSlot, w.id));
    } else {
      var i :| 0 <= i < |s.list| && s.list[i] == w;
      assert s.futures[w.owner] == Fut(w.interest, In(Overflow, w.id));
    }
  }

  /** Detaching removes the future's own waiter and no other. */
  lemma DetachExact(s: Io, f: nat)
    requires Valid(s) && s.lock.Free? && f in s.futures
    ensures forall w :: Registered(Detach(s, f), w) <==> Registered(s, w) && w.owner != f
  {
    var fut := s.futures[f];
    forall w | Registered(s, w)
      ensures w.owner == f <==> fut.place.In? && fut.place.id == w.id
      ensures w.owner == f ==> match fut.place.slot
                               case ReaderSlot => s.reader == Some(w)
                               case WriterSlot => s.writer == Some(w)
                               case Overflow => w in s.list {
      RegisteredPlaced(s, w);
    }
    if fut.place.In? {
      UnlinkedExact(s.list, fut.place.id, s.futures, s.fresh_id);
      forall w ensures Registered(Detach(s, f), w) <==> Registered(s, w) && w.owner != f { }
    }
  }

  lemma DetachKeeps(s: Io, f: nat)
    requires Valid(s) && s.lock.Free? && f in s.futures
    ensures Valid(Detach(s, f)) && Detach(s, f).futures[f].place == Unregistered
  {
    var fut := s.futures[f];
    if fut.place.In? {
      DetachExact(s, f);
      UnlinkedExact(s.list, fut.place.id, s.futures, s.fresh_id);
      var t := Detach(s, f);
      forall i | 0 <= i < |t.list| ensures Placed(t.list[i], Overflow, t.futures, t.fresh_id) && Unmet(t.list[i], Ready(s.word)) {
        assert Registered(t, t.list[i]) && t.list[i] in s.list;
      }
      assert t.reader.Some? ==> Registered(t, t.reader.value);
      assert t.writer.Some? ==> Registered(t, t.writer.value);
    }
  }

  /** A dropped future leaves nothing registered. */
  lemma DropKeeps(s: Io, f: nat)
    requires Valid(s) && s.lock.Free? && f in s.futures
    ensures Valid(DropFuture(s, f))
    ensures forall w :: Registered(DropFuture(s, f), w) <==> Registered(s, w) && w.owner != f
  {
    DetachExact(s, f);
    DetachKeeps(s, f);
    var t := Detach(s, f);
    assert forall w :: w in t.list ==> Registered(t, w);
  }

  // ----- Runs -----

  datatype Op =
    | DoBeginSet(event: nat) | DoStore | DoWake
    | DoClear(generation: nat, ready: nat)
    | DoStart(f: nat, interest: Interest) | DoBeginAdd(f: nat) | DoFinishAdd
    | DoDetach(f: nat) | DoDrop(f: nat)

  /** Locked operations take turns; a future adds a waiter only after it detached the last one. */
  predicate Enabled(s: Io, op: Op) {
    match op
    case DoBeginSet(event) => s.lock.Free? && event < READY_LIMIT
    case DoStore => s.lock.Setting?
    case DoWake => s.lock.Waking?
    case DoClear(_, _) => true
    case DoStart(f, _) => f !in s.futures
    case DoBeginAdd(f) => s.lock.Free? && f in s.futures && s.futures[f].place == Unregistered
    case DoFinishAdd => s.lock.Adding? && s.lock.future in s.futures
    case DoDetach(f) => s.lock.Free? && f in s.futures
    case DoDrop(f) => s.lock.Free? && f in s.futures
  }

  function Apply(s: Io, op: Op): Io
    requires Enabled(s, op)
  {
    match op
    case DoBeginSet(event) => BeginSet(s, event)
    case DoStore => Store(s)
    case DoWake => Wake(s)
    case DoClear(generation, ready) => Clear(s, generation, ready)
    case DoStart(f, interest) => Start(s, f, interest)
    case DoBeginAdd(f) => BeginAdd(s, f)
    case DoFinishAdd => FinishAdd(s)
    case DoDetach(f) => Detach(s, f)
    case DoDrop(f) => DropFuture(s, f)
  }

  lemma StartKeeps(s: Io, f: nat, interest: Interest)
    requires Valid(s) && f !in s.futures
    ensures Valid(Start(s, f, interest))
  {
  }

  lemma StepKeeps(s: Io, op: Op)
    requires Valid(s) && Enabled(s, op)
    ensures Valid(Apply(s, op))
  {
    match op {
      case DoBeginSet(event) =>
      case DoStore => StoreKeeps(s);
      case DoWake => WakeKeeps(s);
      case DoClear(generation, ready) => ClearKeeps(s, generation, ready);
      case DoStart(f, interest) => StartKeeps(s, f, interest);
      case DoBeginAdd(f) =>
      case DoFinishAdd => FinishAddKeeps(s);
      case DoDetach(f) => DetachKeeps(s, f);
      case DoDrop(f) => DropKeeps(s, f);
    }
  }

  predicate Reaches(s: Io, ops: seq<Op>, t: Io)
    decreases |ops|
  {
    if ops == [] then s == t else Enabled(s, ops[0]) && Reaches(Apply(s, ops[0]), ops[1..], t)
  }

  lemma {:induction false} RunKeeps(s: Io, ops: seq<Op>, t: Io)
    requires Valid(s) && Reaches(s, ops, t)
    ensures Valid(t)
    decreases |ops|
  {
    if ops != [] {
      StepKeeps(s, ops[0]);
      RunKeeps(Apply(s, ops[0]), ops[1..], t);
    }
  }

  /** Over every run, whenever the lock is free no registered waiter is satisfied by the stored bits. */
  lemma NobodySleepsOnReadiness(generation: nat, ops: seq<Op>, t: Io, w: Waiter)
    requires generation < U32 && Reaches(Fresh(generation), ops, t) && t.lock.Free? && Registered(t, w)
    ensures !Satisfied(w.interest, Ready(t.word))
  {
    NewGeneration(generation);
    RunKeeps(Fresh(generation), ops, t);
    assert w in t.list ==> exists i :: 0 <= i < |t.list| && t.list[i] == w;
  }

  // ----- Events -----

  /** Delivering an event wakes exactly the registered waiters it satisfies, and only they leave. */
  lemma WakesExactly(s: Io, w: Waiter)
    requires Valid(s) && s.lock.Waking?
    ensures Registered(Wake(s), w) <==> Registered(s, w) && !Satisfied(w.interest, s.lock.event)
    ensures w in Wake(s).woken[|s.woken|..] <==> Registered(s, w) && Satisfied(w.interest, s.lock.event)
  {
    var e := s.lock.event;
    SelectExact(s.list, e, true);
    SelectExact(s.list, e, false);
    var all := Taken(s.reader, e) + Taken(s.writer, e) + Select(s.list, e, true);
    assert Wake(s).woken == s.woken + all;
    assert Wake(s).woken[|s.woken|..] == all;
  }

  /** An event that satisfies `w` is on its way. */
  predicate Coming(s: Io, w: Waiter) {
    match s.lock
    case Setting(_, e) => Satisfied(w.interest, e)
    case Waking(e) => Satisfied(w.interest, e)
    case _ => false
  }

  predicate Reports(op: Op, w: Waiter) { op.DoBeginSet? && Satisfied(w.interest, op.event) }

  /** Once under way, an event reaches every waiter that is registered; a node never comes back. */
  lemma EventAdvances(s: Io, op: Op, w: Waiter)
    requires Valid(s) && Enabled(s, op) && w.id < s.fresh_id
    ensures w.id < Apply(s, op).fresh_id
    ensures Registered(Apply(s, op), w) ==> Registered(s, w)
    ensures Registered(Apply(s, op), w) && (Coming(s, w) || Reports(op, w)) ==> Coming(Apply(s, op), w)
  {
    match op {
      case DoWake => WakesExactly(s, w);
      case DoDetach(f) => DetachExact(s, f);
      case DoDrop(f) => DropKeeps(s, f);
      case _ =>
    }
  }

  lemma {:induction false} EventArrives(s: Io, ops: seq<Op>, t: Io, w: Waiter)
    requires Valid(s) && Reaches(s, ops, t) && w.id < s.fresh_id
    requires Registered(t, w) && t.lock.Free?
    ensures Registered(s, w) && !Coming(s, w)
    ensures forall i :: 0 <= i < |ops| ==> !Reports(ops[i], w)
    decreases |ops|
  {
    if ops != [] {
      var u := Apply(s, ops[0]);
      StepKeeps(s, ops[0]);
      EventAdvances(s, ops[0], w);
      EventArrives(u, ops[1..], t, w);
      forall i | 0 <= i < |ops| ensures !Reports(ops[i], w) {
        if i > 0 { assert ops[i] == ops[1..][i - 1]; }
      }
    }
  }

  /** A waiter that is still registered when the lock is free has missed nothing: no event reported
      since it was registered satisfied it, whatever clears, additions and drops ran in between. */
  lemma NoEventIsMissed(s: Io, ops: seq<Op>, t: Io, w: Waiter)
    requires Valid(s) && Registered(s, w) && Reaches(s, ops, t) && Registered(t, w) && t.lock.Free?
    ensures forall i :: 0 <= i < |ops| ==> !Reports(ops[i], w)
  {
    RegisteredPlaced(s, w);
    EventArrives(s, ops, t, w);
  }

  /** A waiter is added exactly when the bits loaded do not meet its interest and nothing shuts down. It
      goes to the reader's place if it may read and that is free, else to the writer's if it may write
      and that is free, else to the end of the list; nobody else moves. */
  lemma AddsExactly(s: Io)
    requires Valid(s) && s.lock.Adding?
    ensures var f := s.lock.future; var i := s.futures[f].interest; var w := Waiter(s.fresh_id, f, i); var t := FinishAdd(s);
            var parked := !Satisfied(i, Ready(s.lock.loaded)) && !Shutdown(s.lock.loaded);
            && t.lock.Free? && t.word == s.word
            && (forall v :: Registered(t, v) <==> Registered(s, v) || (parked && v == w))
            && (t.reader == Some(w) <==> parked && i.readable && s.reader.None?)
            && (t.writer == Some(w) <==> parked && i.writable && s.writer.None? && !(i.readable && s.reader.None?))
            && (t.list != s.list ==> t.list == s.list + [w])
            && (t.futures[f].place.In? <==> parked)
  {
    var w := Waiter(s.fresh_id, s.lock.future, s.futures[s.lock.future].interest);
    NobodyFresh(s);
    assert forall v :: v in s.list + [w] <==> v in s.list || v == w;
  }

  lemma NobodyFresh(s: Io)
    requires AllPlaced(s)
    ensures forall w :: Registered(s, w) ==> w.id < s.fresh_id
  {
    forall w | Registered(s, w) ensures w.id < s.fresh_id { RegisteredPlaced(s, w); }
  }

  // ----- Clears -----

  /** A clear touches only the readiness bits, only for its own generation, and only when the stored
      bits are the ones it saw. */
  lemma ClearIsGuarded(word: nat, generation: nat, ready: nat)
    requires word < WORD
    ensures Cleared(word, generation, ready) != word <==>
              Generation(word) == generation && Ready(word) == ready && ready != 0
    ensures Cleared(word, generation, ready) != word ==> Ready(Cleared(word, generation, ready)) == 0
    ensures Generation(Cleared(word, generation, ready)) == Generation(word)
    ensures Shutdown(Cleared(word, generation, ready)) == Shutdown(word)
  {
    WithReadyFrame(word, 0);
  }

  /** The word after an event was stored into it. */
  function Reported(word: nat, event: nat): nat { WithReady(word, Or(Ready(word), event)) }

  /** A registration keeps its generation over every run. */
  lemma {:induction false} GenerationStays(s: Io, ops: seq<Op>, t: Io)
    requires Valid(s) && Reaches(s, ops, t)
    ensures Valid(t) && Generation(t.word) == Generation(s.word)
    decreases |ops|
  {
    if ops != [] {
      StepKeeps(s, ops[0]);
      match ops[0] {
        case DoStore => StoreKeeps(s);
        case DoClear(generation, ready) => ClearKeeps(s, generation, ready);
        case _ =>
      }
      GenerationStays(Apply(s, ops[0]), ops[1..], t);
    }
  }

  /** Whatever ran between the snapshot a future took in state `s` and its clear in state `t`, reports and
      clears included, the clear erases exactly when the bits stored at that moment are the bits of the
      snapshot again; then nothing is left of them, else all of them stay. */
  lemma ClearErasesIff(s: Io, ops: seq<Op>, t: Io)
    requires Valid(s) && Reaches(s, ops, t) && Ready(s.word) != 0
    ensures var after := Clear(t, Generation(s.word), Ready(s.word));
            && (after.word != t.word <==> Ready(t.word) == Ready(s.word))
            && Ready(after.word) == if Ready(t.word) == Ready(s.word) then 0 else Ready(t.word)
  {
    GenerationStays(s, ops, t);
    ClearIsGuarded(t.word, Generation(s.word), Ready(s.word));
  }

  /** The events whose bits are stored in the course of a run. */
  function Stored(s: Io, ops: seq<Op>, t: Io): seq<nat>
    requires Reaches(s, ops, t)
    decreases |ops|
  {
    if ops == [] then []
    else (if ops[0].DoStore? then [s.lock.event] else []) + Stored(Apply(s, ops[0]), ops[1..], t)
  }

  /** The union of the bits `ready` with those of every event. */
  function Union(ready: nat, events: seq<nat>): nat
    decreases |events|
  {
    if events == [] then ready else Union(Or(ready, events[0]), events[1..])
  }

  lemma {:induction false} UnionGrows(ready: nat, events: seq<nat>)
    ensures Union(ready, events) >= ready
    decreases |events|
  {
    if events != [] {
      OrGrows(ready, events[0]);
      UnionGrows(Or(ready, events[0]), events[1..]);
    }
  }

  /** Does some event bring a bit that is not in `ready`? */
  ghost predicate AddsBit(ready: nat, events: seq<nat>) {
    exists i :: 0 <= i < |events| && Or(ready, events[i]) != ready
  }

  lemma {:induction false} UnionChangesIff(ready: nat, events: seq<nat>)
    ensures Union(ready, events) != ready <==> AddsBit(ready, events)
    decreases |events|
  {
    if events != [] {
      OrGrows(ready, events[0]);
      UnionGrows(Or(ready, events[0]), events[1..]);
      if Or(ready, events[0]) == ready {
        UnionChangesIff(ready, events[1..]);
        if AddsBit(ready, events[1..]) {
          var i :| 0 <= i < |events[1..]| && Or(ready, events[1..][i]) != ready;
          assert events[i + 1] == events[1..][i];
        }
        if AddsBit(ready, events) {
          var i :| 0 <= i < |events| && Or(ready, events[i]) != ready;
          assert events[1..][i - 1] == events[i];
        }
      }
    }
  }

  /** No clear has fallen into the event being delivered. */
  predicate Undisturbed(s: Io) { s.lock.Setting? ==> Ready(s.lock.loaded) == Ready(s.word) }

  /** One step that is no clear: a store adds the event's bits, nothing else changes any. */
  lemma StoredStep(s: Io, op: Op)
    requires Valid(s) && Undisturbed(s) && Enabled(s, op) && !op.DoClear?
    ensures Undisturbed(Apply(s, op))
    ensures Ready(Apply(s, op).word) == if op.DoStore? then Or(Ready(s.word), s.lock.event) else Ready(s.word)
  {
    match op {
      case DoStore =>
        ReadyUnion(Ready(s.lock.loaded), s.lock.event);
        WithReadyFrame(s.lock.loaded, Or(Ready(s.lock.loaded), s.lock.event));
      case _ =>
    }
  }

  lemma {:induction false} StoredUnion(s: Io, ops: seq<Op>, t: Io)
    requires Valid(s) && Undisturbed(s) && Reaches(s, ops, t)
    requires forall i :: 0 <= i < |ops| ==> !ops[i].DoClear?
    ensures Ready(t.word) == Union(Ready(s.word), Stored(s, ops, t))
    decreases |ops|
  {
    if ops != [] {
      StepKeeps(s, ops[0]);
      StoredStep(s, ops[0]);
      StoredUnion(Apply(s, ops[0]), ops[1..], t);
      var rest := Stored(Apply(s, ops[0]), ops[1..], t);
      if ops[0].DoStore? {
        assert Stored(s, ops, t) == [s.lock.event] + rest;
        assert ([s.lock.event] + rest)[1..] == rest;
      } else {
        assert Stored(s, ops, t) == rest;
      }
    }
  }

  /** With no other clear between the snapshot and the clear, the reports stored in between survive
      exactly when one of them brings a bit the snapshot lacks: the same bits reported again cannot be
      told from the old ones. */
  lemma ReportSurvivesClearIff(s: Io, ops: seq<Op>, t: Io)
    requires Valid(s) && Undisturbed(s) && Reaches(s, ops, t) && Ready(s.word) != 0
    requires forall i :: 0 <= i < |ops| ==> !ops[i].DoClear?
    ensures Clear(t, Generation(s.word), Ready(s.word)).word == t.word <==> AddsBit(Ready(s.word), Stored(s, ops, t))
  {
    ClearErasesIff(s, ops, t);
    StoredUnion(s, ops, t);
    UnionChangesIff(Ready(s.word), Stored(s, ops, t));
  }

  /** One whole event. */
  function Event(event: nat): seq<Op> { [DoBeginSet(event), DoStore, DoWake] }

  lemma EventRuns(s: Io, event: nat)
    requires Valid(s) && s.lock.Free? && event < READY_LIMIT
    ensures Reaches(s, Event(event), Wake(Store(BeginSet(s, event))))
    ensures Ready(Wake(Store(BeginSet(s, event))).word) == Or(Ready(s.word), event)
  {
    var t := BeginSet(s, event);
    var u := Store(t);
    assert Event(event)[1..] == [DoStore, DoWake] && [DoStore, DoWake][1..] == [DoWake] && [DoWake][1..] == [];
    assert Reaches(u, [DoWake], Wake(u));
    assert Reaches(t, [DoStore, DoWake], Wake(u));
    ReadyUnion(Ready(s.word), event);
    WithReadyFrame(s.word, Or(Ready(s.word), event));
  }

  lemma {:induction false} Chain(s: Io, a: seq<Op>, t: Io, b: seq<Op>, u: Io)
    requires Reaches(s, a, t) && Reaches(t, b, u)
    ensures Reaches(s, a + b, u)
    decreases |a|
  {
    if a == [] {
      assert a + b == b;
    } else {
      assert (a + b)[1..] == a[1..] + b;
      Chain(Apply(s, a[0]), a[1..], t, b, u);
    }
  }

  /** With another clear in between, a report that does add a bit to what is stored is erased all the
      same: snapshot readable, report writable, another future clears both, report readable, clear. */
  lemma ReportAfterOtherClearIsErased(s: Io) returns (ops: seq<Op>, before: Io, t: Io)
    requires Valid(s) && s.lock.Free? && Ready(s.word) == 1
    ensures Reaches(s, ops, before) && Reaches(before, Event(1), t)
    ensures Or(Ready(before.word), 1) != Ready(before.word)
    ensures Ready(t.word) == 1 && Ready(Clear(t, Generation(s.word), 1).word) == 0
  {
    var a: Io;
    a := WritableThenCleared(s);
    EventRuns(s, 2);
    before := Clear(a, Generation(s.word), 3);
    assert [DoClear(Generation(s.word), 3)][1..] == [];
    assert Reaches(before, [], before);
    assert Reaches(a, [DoClear(Generation(s.word), 3)], before);
    ops := Event(2) + [DoClear(Generation(s.word), 3)];
    Chain(s, Event(2), a, [DoClear(Generation(s.word), 3)], before);
    GenerationStays(s, ops, before);
    assert Or(0, 1) == 1;
    EventRuns(before, 1);
    t := Wake(Store(BeginSet(before, 1)));
    GenerationStays(before, Event(1), t);
    ClearIsGuarded(t.word, Generation(s.word), 1);
  }

  lemma WritableThenCleared(s: Io) returns (a: Io)
    requires Valid(s) && s.lock.Free? && Ready(s.word) == 1
    ensures a == Wake(Store(BeginSet(s, 2))) && Reaches(s, Event(2), a) && Valid(a)
    ensures var cleared := Clear(a, Generation(s.word), 3); cleared.lock.Free? && Ready(cleared.word) == 0
  {
    assert Or(1, 2) == 3;
    EventRuns(s, 2);
    a := Wake(Store(BeginSet(s, 2)));
    GenerationStays(s, Event(2), a);
    ClearIsGuarded(a.word, Generation(s.word), 3);
  }

  /** A readable report, its snapshot, a second readable report, then the clear: nothing is left. */
  lemma RepeatedReportIsCleared()
    ensures var word := Reported(ReadyWord.New(1), 1);
            Ready(word) == 1 && Ready(Cleared(Reported(word, 1), Generation(word), Ready(word))) == 0
  {
    NewGeneration(1);
    var start := ReadyWord.New(1);
    assert Or(0, 1) == 1 && Or(1, 1) == 1;
    WithReadyFrame(start, 1);
    var word := Reported(start, 1);
    WithReadyFrame(word, 1);
    ClearIsGuarded(Reported(word, 1), Generation(word), 1);
  }

  /** A clear that falls between the load and the store of an event is undone by the store. */
  lemma ClearInsideEventIsUndone(s: Io, event: nat)
    requires Valid(s) && s.lock.Free? && event < READY_LIMIT
    ensures var clear := Clear(BeginSet(s, event), Generation(s.word), Ready(s.word));
            Store(clear) == Store(BeginSet(s, event))
  {
  }
}
