/** The broadcast channel: a ring of the last `capacity` values and one cursor per receiver, against the
    endless log of everything sent. Every operation runs under the state lock. */
module Broadcast {

  datatype Outcome<T> = Got(value: T) | Lagged(count: nat)

  /** `registered`: the receiver has its slot. `start` and `history` are where it began and what it has
      been told since. */
  datatype Rx<T> = Rx(cursor: nat, registered: bool, waker: bool, start: nat, history: seq<Outcome<T>>)

  /** `senders` is the number of sender handles. `transient` counts receiver handles that share the
      channel without being one of `receivers`: a clone before its cursor is read, a dropped receiver
      between giving up its slot and giving up its share. `log` is everything ever sent; it is not in
      memory. */
  datatype Chan<T> = Chan(
    capacity: nat, buffer: seq<T>, nextSeq: nat, receivers: map<nat, Rx<T>>, senders: nat, transient: nat, log: seq<T>)

  datatype Answer<T> = Value(value: T) | Missed(count: nat) | Closed | Empty | Pending

  /** A new channel with its sender and its first receiver. */
  function New<T>(capacity: nat): Chan<T> { Chan(capacity, [], 0, map[0 := Rx(0, true, false, 0, [])], 1, 0, []) }

  function Min(a: nat, b: nat): nat { if a < b then a else b }

  /** `first_seq`: the oldest sequence number still buffered. */
  function FirstSeq<T>(s: Chan<T>): nat {
    var held := Min(|s.buffer|, s.capacity);
    if s.nextSeq >= held then s.nextSeq - held else 0
  }

  // ----- Operations -----

  predicate Unheard<T>(receivers: map<nat, Rx<T>>) { forall id :: id in receivers ==> !receivers[id].registered }

  function Woken<T>(receivers: map<nat, Rx<T>>): map<nat, Rx<T>> {
    map id | id in receivers :: receivers[id].(waker := false)
  }

  function Pushed<T>(buffer: seq<T>, capacity: nat, x: T): seq<T> {
    (if |buffer| == capacity && |buffer| > 0 then buffer[1..] else buffer) + [x]
  }

  /** `send`; refused when no receiver is registered. */
  function Send<T>(s: Chan<T>, x: T): (Chan<T>, bool) {
    if Unheard(s.receivers) then (s, false)
    else
      (s.(buffer := Pushed(s.buffer, s.capacity, x), nextSeq := s.nextSeq + 1, receivers := Woken(s.receivers), log := s.log + [x]), true)
  }

  /** What the buffer has for a cursor. */
  function Look<T>(s: Chan<T>, cursor: nat): Answer<T> {
    var first := FirstSeq(s);
    if cursor < first then Missed(first - cursor)
    else if cursor < s.nextSeq && cursor - first < |s.buffer| then Value(s.buffer[cursor - first])
    else Empty
  }

  /** The receiver moves past what it is told. */
  function Heard<T>(r: Rx<T>, a: Answer<T>): Rx<T> {
    match a
    case Missed(n) => r.(cursor := r.cursor + n, registered := true, history := r.history + [Lagged(n)])
    case Value(x) => r.(cursor := r.cursor + 1, registered := true, history := r.history + [Got(x)])
    case _ => r
  }

  /** The part that `try_recv` and the future share. */
  function Read<T>(s: Chan<T>, id: nat): (Chan<T>, Answer<T>)
    requires id in s.receivers
  {
    var a := Look(s, s.receivers[id].cursor);
    (s.(receivers := s.receivers[id := Heard(s.receivers[id], a)]), a)
  }

  /** The ids of the receivers that have a slot. */
  function Slots<T>(receivers: map<nat, Rx<T>>): set<nat> { set id | id in receivers && receivers[id].registered }

  /** The test for the end of the channel: as many handles share it as there are slots. */
  predicate CountsClosed<T>(s: Chan<T>) { s.senders + s.transient + |s.receivers| == |Slots(s.receivers)| }

  function TryRecv<T>(s: Chan<T>, id: nat): (Chan<T>, Answer<T>)
    requires id in s.receivers
  {
    if CountsClosed(s) then (s, Closed) else Read(s, id)
  }

  /** Polling the receiver. */
  function Poll<T>(s: Chan<T>, id: nat, proceed: bool): (Chan<T>, Answer<T>)
    requires id in s.receivers
  {
    if !proceed then (s, Pending)
    else
      var (t, a) := Read(s, id);
      if a != Empty then (t, a)
      else if CountsClosed(t) then (t, Closed)
      else (t.(receivers := t.receivers[id := t.receivers[id].(registered := true, waker := true)]), Pending)
  }

  /** A clone shares the channel first, then reads its cursor, then takes its slot. */
  function BeginClone<T>(s: Chan<T>): Chan<T> { s.(transient := s.transient + 1) }

  function CloneReceiver<T>(s: Chan<T>, id: nat): Chan<T>
    requires s.transient > 0
  {
    s.(transient := s.transient - 1, receivers := s.receivers[id := Rx(s.nextSeq, false, false, s.nextSeq, [])])
  }

  function RegisterSlot<T>(s: Chan<T>, id: nat): Chan<T>
    requires id in s.receivers
  {
    s.(receivers := s.receivers[id := s.receivers[id].(registered := true)])
  }

  /** A dropped receiver gives up its slot first and its share of the channel afterwards. */
  function DropReceiver<T>(s: Chan<T>, id: nat): Chan<T>
    requires id in s.receivers
  {
    s.(transient := s.transient + 1, receivers := s.receivers - {id})
  }

  function EndDrop<T>(s: Chan<T>): Chan<T>
    requires s.transient > 0
  {
    s.(transient := s.transient - 1)
  }

  function CloneSender<T>(s: Chan<T>): Chan<T> { s.(senders := s.senders + 1) }

  /** Dropping a sender wakes nobody. */
  function DropSender<T>(s: Chan<T>): Chan<T>
    requires s.senders > 0
  {
    s.(senders := s.senders - 1)
  }

  // ----- The invariant -----

  /** The ring holds the newest values of the log. */
  ghost predicate Ring<T>(capacity: nat, buffer: seq<T>, nextSeq: nat, log: seq<T>) {
    capacity > 0 && nextSeq == |log| && |buffer| == Min(capacity, |log|) && buffer == log[|log| - |buffer|..]
  }

  /** What a receiver was told, read from sequence number `from` on: each value is the log's value at
      the position reached, and what is skipped lies before the last `capacity` values. */
  ghost predicate Tells<T>(history: seq<Outcome<T>>, from: nat, log: seq<T>, capacity: nat)
    decreases |history|
  {
    if history == [] then true
    else match history[0]
      case Got(x) => from < |log| && log[from] == x && Tells(history[1..], from + 1, log, capacity)
      case Lagged(n) => n > 0 && from + n + capacity <= |log| && Tells(history[1..], from + n, log, capacity)
  }

  /** Values delivered plus values reported as missed. */
  function Count<T>(history: seq<Outcome<T>>): nat
    decreases |history|
  {
    if history == [] then 0 else (if history[0].Got? then 1 else history[0].count) + Count(history[1..])
  }

  ghost predicate Faithful<T>(r: Rx<T>, log: seq<T>, capacity: nat) {
    && r.cursor == r.start + Count(r.history) <= |log|
    && Tells(r.history, r.start, log, capacity)
    && (r.waker ==> r.registered && r.cursor == |log|)
  }

  ghost predicate Valid<T>(s: Chan<T>) {
    && Ring(s.capacity, s.buffer, s.nextSeq, s.log)
    && forall id :: id in s.receivers ==> Faithful(s.receivers[id], s.log, s.capacity)
  }

  // ----- Histories -----

  lemma {:induction false} TellsMore<T>(history: seq<Outcome<T>>, from: nat, log: seq<T>, x: T, capacity: nat)
    requires Tells(history, from, log, capacity)
    ensures Tells(history, from, log + [x], capacity)
    decreases |history|
  {
    if history != [] {
      TellsMore(history[1..], from + (if history[0].Got? then 1 else history[0].count), log, x, capacity);
    }
  }

  lemma {:induction false} TellsNext<T>(history: seq<Outcome<T>>, from: nat, log: seq<T>, o: Outcome<T>, capacity: nat)
    requires Tells(history, from, log, capacity) && Tells([o], from + Count(history), log, capacity)
    ensures Tells(history + [o], from, log, capacity)
    ensures Count(history + [o]) == Count(history) + (if o.Got? then 1 else o.count)
    decreases |history|
  {
    if history != [] {
      assert (history + [o])[1..] == history[1..] + [o];
      TellsNext(history[1..], from + (if history[0].Got? then 1 else history[0].count), log, o, capacity);
    }
  }

  // ----- Every operation keeps the invariant -----

  lemma PushedRing<T>(capacity: nat, buffer: seq<T>, nextSeq: nat, log: seq<T>, x: T)
    requires Ring(capacity, buffer, nextSeq, log)
    ensures Ring(capacity, Pushed(buffer, capacity, x), nextSeq + 1, log + [x])
  {
    var from := |log| - |buffer|;
    if |buffer| == capacity {
      assert buffer[1..] == log[from + 1..];
      assert (log + [x])[from + 1..] == log[from + 1..] + [x];
    } else {
      assert (log + [x])[from..] == log[from..] + [x];
    }
  }

  lemma SendKeeps<T>(s: Chan<T>, x: T)
    requires Valid(s)
    ensures Valid(Send(s, x).0)
  {
    PushedRing(s.capacity, s.buffer, s.nextSeq, s.log, x);
    forall id | id in s.receivers ensures Faithful(s.receivers[id].(waker := false), s.log + [x], s.capacity) {
      TellsMore(s.receivers[id].history, s.receivers[id].start, s.log, x, s.capacity);
    }
  }

  /** The oldest buffered number, and the log's value at each buffered number. */
  lemma RingHolds<T>(s: Chan<T>, i: nat)
    requires Ring(s.capacity, s.buffer, s.nextSeq, s.log)
    ensures FirstSeq(s) == s.nextSeq - |s.buffer|
    ensures FirstSeq(s) > 0 ==> FirstSeq(s) + s.capacity == |s.log|
    ensures FirstSeq(s) <= i < s.nextSeq ==> i - FirstSeq(s) < |s.buffer| && s.buffer[i - FirstSeq(s)] == s.log[i]
  {
  }

  /** A read answers from the log: the value at the cursor while it is among the last `capacity`, the
      number of evicted values when it is older, and nothing when the cursor is at the end. */
  lemma ReadsTheLog<T>(s: Chan<T>, cursor: nat)
    requires Ring(s.capacity, s.buffer, s.nextSeq, s.log) && cursor <= |s.log|
    ensures Look(s, cursor) ==
            if cursor == |s.log| then Empty
            else if cursor + s.capacity >= |s.log| then Value(s.log[cursor])
            else Missed(|s.log| - s.capacity - cursor)
  {
    RingHolds(s, cursor);
  }

  lemma Updated<T>(s: Chan<T>, id: nat, r: Rx<T>)
    requires Valid(s) && Faithful(r, s.log, s.capacity)
    ensures Valid(s.(receivers := s.receivers[id := r]))
  {
  }

  lemma HistoryGrows<T>(r: Rx<T>, log: seq<T>, capacity: nat, o: Outcome<T>, cursor: nat)
    requires Faithful(r, log, capacity) && Tells([o], r.cursor, log, capacity)
    requires r.cursor < cursor == r.cursor + (if o.Got? then 1 else o.count) <= |log|
    ensures Faithful(r.(cursor := cursor, registered := true, history := r.history + [o]), log, capacity)
  {
    TellsNext(r.history, r.start, log, o, capacity);
  }

  lemma HeardGap<T>(s: Chan<T>, r: Rx<T>, n: nat)
    requires Ring(s.capacity, s.buffer, s.nextSeq, s.log) && Faithful(r, s.log, s.capacity) && Look(s, r.cursor) == Missed(n)
    ensures Faithful(Heard(r, Missed(n)), s.log, s.capacity)
  {
    ReadsTheLog(s, r.cursor);
    HistoryGrows(r, s.log, s.capacity, Lagged(n), r.cursor + n);
  }

  lemma HeardValue<T>(s: Chan<T>, r: Rx<T>, x: T)
    requires Ring(s.capacity, s.buffer, s.nextSeq, s.log) && Faithful(r, s.log, s.capacity) && Look(s, r.cursor) == Value(x)
    ensures Faithful(Heard(r, Value(x)), s.log, s.capacity)
  {
    ReadsTheLog(s, r.cursor);
    HistoryGrows(r, s.log, s.capacity, Got(x), r.cursor + 1);
  }

  lemma HeardFaithful<T>(s: Chan<T>, r: Rx<T>)
    requires Ring(s.capacity, s.buffer, s.nextSeq, s.log) && Faithful(r, s.log, s.capacity)
    ensures Faithful(Heard(r, Look(s, r.cursor)), s.log, s.capacity)
    ensures Look(s, r.cursor) == Empty <==> r.cursor == s.nextSeq
  {
    ReadsTheLog(s, r.cursor);
    match Look(s, r.cursor) {
      case Missed(n) => HeardGap(s, r, n);
      case Value(x) => HeardValue(s, r, x);
      case _ =>
    }
  }

  /** Reading advances the cursor by what it reports, and reports the log. */
  lemma ReadKeeps<T>(s: Chan<T>, id: nat)
    requires Valid(s) && id in s.receivers
    ensures Valid(Read(s, id).0)
    ensures Read(s, id).1 == Empty <==> s.receivers[id].cursor == s.nextSeq
  {
    var r := s.receivers[id];
    HeardFaithful(s, r);
    Updated(s, id, Heard(r, Look(s, r.cursor)));
  }

  lemma PollKeeps<T>(s: Chan<T>, id: nat, proceed: bool)
    requires Valid(s) && id in s.receivers
    ensures Valid(Poll(s, id, proceed).0)
  {
    ReadKeeps(s, id);
  }

  lemma OthersKeep<T>(s: Chan<T>, id: nat)
    requires Valid(s)
    ensures s.transient > 0 ==> Valid(CloneReceiver(s, id)) && Valid(EndDrop(s))
    ensures id in s.receivers ==> Valid(RegisterSlot(s, id)) && Valid(DropReceiver(s, id))
  {
  }

  // ----- Runs -----

  datatype Op<T> =
    | DoSend(value: T) | DoTryRecv(id: nat) | DoPoll(id: nat, proceed: bool)
    | DoBeginClone | DoClone(id: nat) | DoRegister(id: nat) | DoDrop(id: nat) | DoEndDrop
    | DoCloneSender | DoDropSender

  predicate Enabled<T>(s: Chan<T>, op: Op<T>) {
    match op
    case DoSend(_) => s.senders > 0
    case DoTryRecv(id) => id in s.receivers
    case DoPoll(id, _) => id in s.receivers
    case DoBeginClone => s.receivers != map[]
    case DoClone(id) => id !in s.receivers && s.transient > 0
    case DoRegister(id) => id in s.receivers
    case DoDrop(id) => id in s.receivers
    case DoEndDrop => s.transient > 0
    case DoCloneSender => s.senders > 0
    case DoDropSender => s.senders > 0
  }

  function Apply<T(==)>(s: Chan<T>, op: Op<T>): Chan<T>
    requires Enabled(s, op)
  {
    match op
    case DoSend(x) => Send(s, x).0
    case DoTryRecv(id) => TryRecv(s, id).0
    case DoPoll(id, proceed) => Poll(s, id, proceed).0
    case DoBeginClone => BeginClone(s)
    case DoClone(id) => CloneReceiver(s, id)
    case DoRegister(id) => RegisterSlot(s, id)
    case DoDrop(id) => DropReceiver(s, id)
    case DoEndDrop => EndDrop(s)
    case DoCloneSender => CloneSender(s)
    case DoDropSender => DropSender(s)
  }

  lemma StepKeeps<T>(s: Chan<T>, op: Op<T>)
    requires Valid(s) && Enabled(s, op)
    ensures Valid(Apply(s, op))
  {
    match op {
      case DoSend(x) => SendKeeps(s, x);
      case DoTryRecv(id) => ReadKeeps(s, id);
      case DoPoll(id, proceed) => PollKeeps(s, id, proceed);
      case DoClone(id) => OthersKeep(s, id);
      case DoRegister(id) => OthersKeep(s, id);
      case DoDrop(id) => OthersKeep(s, id);
      case DoEndDrop => OthersKeep(s, 0);
      case _ =>
    }
  }

  ghost predicate Reaches<T>(s: Chan<T>, ops: seq<Op<T>>, t: Chan<T>)
    decreases |ops|
  {
    if ops == [] then s == t else Enabled(s, ops[0]) && Reaches(Apply(s, ops[0]), ops[1..], t)
  }

  lemma {:induction false} RunKeeps<T>(s: Chan<T>, ops: seq<Op<T>>, t: Chan<T>)
    requires Valid(s) && Reaches(s, ops, t)
    ensures Valid(t)
    decreases |ops|
  {
    if ops != [] {
      StepKeeps(s, ops[0]);
      RunKeeps(Apply(s, ops[0]), ops[1..], t);
    }
  }

  /** The values among the outcomes. */
  function Delivered<T>(history: seq<Outcome<T>>): nat
    decreases |history|
  {
    if history == [] then 0 else (if history[0].Got? then 1 else 0) + Delivered(history[1..])
  }

  function Skipped<T>(history: seq<Outcome<T>>): nat
    decreases |history|
  {
    if history == [] then 0 else (if history[0].Got? then 0 else history[0].count) + Skipped(history[1..])
  }

  lemma {:induction false} CountSplits<T>(history: seq<Outcome<T>>)
    ensures Count(history) == Delivered(history) + Skipped(history)
    decreases |history|
  {
    if history != [] { CountSplits(history[1..]); }
  }

  /** Over every run, what each receiver was told accounts for every log position between its start and
      its cursor, in order: delivered values are the log's, skipped ones had been evicted. A receiver
      that waits has been told everything. */
  lemma ReceiversFollowTheLog<T>(capacity: nat, ops: seq<Op<T>>, t: Chan<T>, id: nat)
    requires capacity > 0 && Reaches(New(capacity), ops, t) && id in t.receivers
    ensures var r := t.receivers[id];
            && Delivered(r.history) + Skipped(r.history) == r.cursor - r.start
            && r.cursor <= |t.log| && Tells(r.history, r.start, t.log, t.capacity)
            && (r.waker ==> r.cursor == |t.log|)
  {
    RunKeeps(New(capacity), ops, t);
    CountSplits(t.receivers[id].history);
  }

  /** One outcome located in the log: the outcomes before it say where it belongs. */
  lemma {:induction false} OutcomeInLog<T>(history: seq<Outcome<T>>, from: nat, log: seq<T>, capacity: nat, i: nat)
    requires Tells(history, from, log, capacity) && i < |history|
    ensures var at := from + Count(history[..i]);
            match history[i]
            case Got(x) => at < |log| && log[at] == x
            case Lagged(n) => at + n + capacity <= |log|
    decreases |history|
  {
    if i > 0 {
      assert history[..i][1..] == history[1..][..i - 1];
      OutcomeInLog(history[1..], from + (if history[0].Got? then 1 else history[0].count), log, capacity, i - 1);
    }
  }

  // ----- What each end is told -----

  /** `send` succeeds exactly when some receiver has a slot; then the value is the newest of the log, the
      ring ends with it, and every waker has been taken. A refused value changes nothing. */
  lemma SendAnswers<T>(s: Chan<T>, x: T)
    requires Valid(s)
    ensures var (t, ok) := Send(s, x);
            && (ok <==> exists id :: id in s.receivers && s.receivers[id].registered)
            && t.log == s.log + (if ok then [x] else [])
            && (ok ==> t.buffer != [] && t.buffer[|t.buffer| - 1] == x && t.receivers.Keys == s.receivers.Keys
                       && forall id :: id in t.receivers ==> !t.receivers[id].waker && t.receivers[id].cursor == s.receivers[id].cursor)
            && (!ok ==> t == s)
  {
    assert s.log + [] == s.log;
  }

  /** The outcome an answer stands for. */
  function Told<T>(a: Answer<T>): seq<Outcome<T>> {
    match a
    case Value(x) => [Got(x)]
    case Missed(n) => [Lagged(n)]
    case _ => []
  }

  /** What a receiver answers is what it writes into its history, and is what the log has at its cursor:
      the value there while it is among the last `capacity`, the number of evicted ones when it is older,
      neither at the end. The cursor moves past exactly that. */
  lemma ReadAnswers<T>(s: Chan<T>, id: nat)
    requires Valid(s) && id in s.receivers
    ensures var (t, a) := Read(s, id); var from := s.receivers[id].cursor;
            && id in t.receivers && t.receivers[id].history == s.receivers[id].history + Told(a)
            && t.receivers[id].cursor == from + Count(Told(a))
            && a == (if from == |s.log| then Empty
                     else if from + s.capacity >= |s.log| then Value(s.log[from])
                     else Missed(|s.log| - s.capacity - from))
            && t.log == s.log && t.buffer == s.buffer && t.receivers == s.receivers[id := t.receivers[id]]
  {
    ReadsTheLog(s, s.receivers[id].cursor);
  }

  /** `try_recv` and the future answer from that read; the future reports the end, or waits with its
      waker stored, exactly when there is nothing to read. */
  lemma PollAnswers<T>(s: Chan<T>, id: nat, proceed: bool)
    requires Valid(s) && id in s.receivers
    ensures var (t, a) := Poll(s, id, proceed); var caught := s.receivers[id].cursor == |s.log|;
            && id in t.receivers && t.receivers[id].history == s.receivers[id].history + Told(a)
            && (a == Closed <==> proceed && caught && CountsClosed(s))
            && (a == Pending <==> !proceed || (caught && !CountsClosed(s)))
            && (a == Pending && proceed ==> t.receivers[id].waker && t.receivers[id].registered)
            && (proceed && !caught ==> a == Read(s, id).1)
    ensures var (t, a) := TryRecv(s, id);
            && id in t.receivers && t.receivers[id].history == s.receivers[id].history + Told(a)
            && (a == Closed <==> CountsClosed(s)) && (a != Closed ==> a == Read(s, id).1)
  {
    ReadAnswers(s, id);
    if s.receivers[id].cursor == |s.log| {
      assert s.receivers[id := s.receivers[id]] == s.receivers;
      assert Read(s, id).0 == s;
    }
  }

  /** A clone starts at the end of the log as it is when its cursor is read, and has been told nothing. */
  lemma CloneAnswers<T>(s: Chan<T>, id: nat)
    requires Valid(s) && s.transient > 0
    ensures var t := CloneReceiver(s, id);
            && t.receivers == s.receivers[id := t.receivers[id]]
            && t.receivers[id].cursor == t.receivers[id].start == |s.log| && t.receivers[id].history == []
            && !t.receivers[id].registered && t.log == s.log
    ensures id in s.receivers ==> RegisterSlot(s, id).receivers[id] == s.receivers[id].(registered := true)
    ensures id in s.receivers ==> DropReceiver(s, id).receivers == s.receivers - {id} && DropReceiver(s, id).log == s.log
  {
  }

  // ----- The end of the channel -----

  lemma SlotsAreReceivers<T>(receivers: map<nat, Rx<T>>)
    ensures |Slots(receivers)| <= |receivers|
    ensures |Slots(receivers)| == |receivers| <==> forall id :: id in receivers ==> receivers[id].registered
  {
    var slots, all := Slots(receivers), receivers.Keys;
    assert slots <= all;
    SubsetSize(slots, all);
  }

  lemma SubsetSize(a: set<nat>, b: set<nat>)
    requires a <= b
    ensures |a| <= |b| && (|a| == |b| <==> a == b)
  {
    assert b == a + (b - a);
  }

  /** The test says that the channel has ended exactly when no sender is left, no receiver is being
      cloned and no dropped one still has its share: it never ends while a sender lives, but a drop or
      a clone in progress hides the end. */
  lemma CountsClosedIff<T>(s: Chan<T>)
    ensures CountsClosed(s) <==>
              s.senders == 0 && s.transient == 0 && forall id :: id in s.receivers ==> s.receivers[id].registered
  {
    SlotsAreReceivers(s.receivers);
  }

  /** `try_recv` and the future agree exactly while the channel has not ended or the receiver has caught
      up: after the end `try_recv` reports it before the values still buffered. */
  lemma TryRecvAgreesIff<T>(s: Chan<T>, id: nat)
    requires Valid(s) && id in s.receivers
    ensures var polled := Poll(s, id, true).1;
            TryRecv(s, id).1 == (if polled == Pending then Empty else polled) <==>
              !CountsClosed(s) || s.receivers[id].cursor == s.nextSeq
  {
    ReadKeeps(s, id);
    if s.receivers[id].cursor == s.nextSeq {
      RingHolds(s, s.receivers[id].cursor);
      assert Read(s, id).0 == s by { assert s.receivers[id := s.receivers[id]] == s.receivers; }
    }
  }

  /** An operation of receiver `id` itself. */
  predicate Touches<T>(op: Op<T>, id: nat) {
    match op
    case DoTryRecv(i) => i == id
    case DoPoll(i, _) => i == id
    case DoDrop(i) => i == id
    case DoRegister(i) => i == id
    case _ => false
  }

  lemma {:induction false} SendersStayGone<T>(s: Chan<T>, ops: seq<Op<T>>, t: Chan<T>, id: nat)
    requires s.senders == 0 && Reaches(s, ops, t) && id in s.receivers
    requires forall i :: 0 <= i < |ops| ==> !Touches(ops[i], id)
    ensures t.senders == 0 && t.log == s.log && id in t.receivers && t.receivers[id] == s.receivers[id]
    decreases |ops|
  {
    if ops != [] {
      assert !Touches(ops[0], id);
      SendersStayGone(Apply(s, ops[0]), ops[1..], t, id);
    }
  }

  /** Nobody tells a waiting receiver that the last sender has gone: over every run in which its task
      does not poll it again for some other reason, its waker stays stored, although a poll would answer
      that the channel has ended as soon as the handles of others are settled. */
  lemma WaiterIsNotToldOfTheEnd<T>(s: Chan<T>, ops: seq<Op<T>>, t: Chan<T>, id: nat)
    requires Valid(s) && id in s.receivers && s.receivers[id].waker && s.senders == 1
    requires Reaches(DropSender(s), ops, t) && forall i :: 0 <= i < |ops| ==> !Touches(ops[i], id)
    ensures id in t.receivers && t.receivers[id].waker
    ensures t.transient == 0 && (forall i :: i in t.receivers ==> t.receivers[i].registered) ==>
              Poll(t, id, true).1 == Closed
  {
    SendersStayGone(DropSender(s), ops, t, id);
    RunKeeps(DropSender(s), ops, t);
    CountsClosedIff(t);
    ReadKeeps(t, id);
    assert t.receivers[id := t.receivers[id]] == t.receivers;
  }
}
