/** `encode_frame`: the runtime appends one event, field by field, to a byte vector. */
module FrameEncoder {
  import opened Options
  import opened Wire
  import opened Events
  import opened FrameCodec

  /** `duration`: nanoseconds clamped to what a `u64` can hold. */
  function Nanos(ns: nat): (n: nat)
    ensures n < U64_BOUND && (ns < U64_BOUND ==> n == ns)
  {
    if ns < U64_BOUND then ns else U64_BOUND - 1
  }

  /** The event as it goes on the wire: every duration and timestamp clamped. */
  function Clamped(e: Event): Event {
    match e
    case TaskPollStart(id, worker, at) => TaskPollStart(id, worker, Nanos(at))
    case TaskPollEnd(id, worker, d, r) => TaskPollEnd(id, worker, Nanos(d), r)
    case TaskDropped(id, polls, busy, idle) => TaskDropped(id, polls, Nanos(busy), Nanos(idle))
    case WorkerPark(worker, Some(t)) => WorkerPark(worker, Some(Nanos(t)))
    case TimerSet(id, deadline, task) => TimerSet(id, Nanos(deadline), task)
    case TimerFired(id, lateness) => TimerFired(id, Nanos(lateness))
    case BlockingDetected(task, d, loc) => BlockingDetected(task, Nanos(d), loc)
    case _ => e
  }

  lemma PutAllOne(ks: seq<Kind>, vs: seq<Value>)
    requires FitAll(ks, vs) && |ks| == 1
    ensures PutAll(ks, vs) == Put(ks[0], vs[0])
  {
    assert PutAll(ks[1..], vs[1..]) == [];
  }

  lemma PutAllTwo(ks: seq<Kind>, vs: seq<Value>)
    requires FitAll(ks, vs) && |ks| == 2
    ensures PutAll(ks, vs) == Put(ks[0], vs[0]) + Put(ks[1], vs[1])
  {
    PutAllOne(ks[1..], vs[1..]);
  }

  lemma PutAllThree(ks: seq<Kind>, vs: seq<Value>)
    requires FitAll(ks, vs) && |ks| == 3
    ensures PutAll(ks, vs) == Put(ks[0], vs[0]) + Put(ks[1], vs[1]) + Put(ks[2], vs[2])
  {
    PutAllTwo(ks[1..], vs[1..]);
  }

  lemma PutAllFour(ks: seq<Kind>, vs: seq<Value>)
    requires FitAll(ks, vs) && |ks| == 4
    ensures PutAll(ks, vs) == Put(ks[0], vs[0]) + Put(ks[1], vs[1]) + Put(ks[2], vs[2]) + Put(ks[3], vs[3])
  {
    PutAllThree(ks[1..], vs[1..]);
  }

  lemma PutAllFive(ks: seq<Kind>, vs: seq<Value>)
    requires FitAll(ks, vs) && |ks| == 5
    ensures PutAll(ks, vs) == Put(ks[0], vs[0]) + Put(ks[1], vs[1]) + Put(ks[2], vs[2]) + Put(ks[3], vs[3]) + Put(ks[4], vs[4])
  {
    PutAllFour(ks[1..], vs[1..]);
    FiveInRow(Put(ks[0], vs[0]), Put(ks[1], vs[1]), Put(ks[2], vs[2]), Put(ks[3], vs[3]), Put(ks[4], vs[4]));
  }

  lemma FiveInRow(a: bytes, b: bytes, c: bytes, d: bytes, e: bytes)
    ensures a + (b + c + d + e) == a + b + c + d + e
  {
  }

  /** The fields of an event, in the order and with the writers the runtime uses. */
  function Written(e: Event): bytes
    requires Encodable(Clamped(e))
  {
    var vs := Fields(Clamped(e));
    var ks := Shape(Tag(Clamped(e)));
    match e
    case TaskSpawned(id, name, loc, parent) =>
      assert Fits(ks[1], vs[1]) && Fits(ks[4], vs[4]);
      LE(id, 8) + (if name.Some? then [1] + PutText(name.value) else [0])
      + PutText(loc.file) + LE(loc.line, 4) + (if parent.Some? then [1] + LE(parent.value, 8) else [0])
    case TaskPollStart(id, worker, at) => LE(id, 8) + LE(worker, 4) + LE(Nanos(at), 8)
    case TaskPollEnd(id, worker, d, r) => LE(id, 8) + LE(worker, 4) + LE(Nanos(d), 8) + [ResultCode(r)]
    case TaskWoken(id, w) => assert Fits(ks[1], vs[1]); LE(id, 8) + Put(Source, By(w))
    case TaskDropped(id, polls, busy, idle) => LE(id, 8) + LE(polls, 8) + LE(Nanos(busy), 8) + LE(Nanos(idle), 8)
    case TaskAborted(id) => LE(id, 8)
    case WorkerPark(worker, timeout) =>
      LE(worker, 4) + (if timeout.Some? then [1] + LE(Nanos(timeout.value), 8) else [0])
    case WorkerUnpark(worker, reason) => LE(worker, 4) + [ReasonCode(reason)]
    case WorkerSteal(thief, victim, count) => LE(thief, 4) + LE(victim, 4) + LE(count, 8)
    case QueueDepth(worker, local, global, lifo) =>
      LE(worker, 4) + LE(local, 8) + LE(global, 8) + [if lifo then 1 else 0]
    case IoRegistered(fd, interest, task) =>
      assert Fits(ks[0], vs[0]); LE(ToU32(fd), 4) + PutText(interest) + LE(task, 8)
    case IoReady(fd, readiness, woke) =>
      assert Fits(ks[0], vs[0]); LE(ToU32(fd), 4) + PutText(readiness) + (LE(|woke|, 4) + PutIds(woke))
    case TimerSet(id, deadline, task) => LE(id, 8) + LE(Nanos(deadline), 8) + LE(task, 8)
    case TimerFired(id, lateness) => LE(id, 8) + LE(Nanos(lateness), 8)
    case TimerCancelled(id) => LE(id, 8)
    case BlockingDetected(task, d, loc) => LE(task, 8) + LE(Nanos(d), 8) + PutText(loc.file) + LE(loc.line, 4)
    case BudgetExhausted(task) => LE(task, 8)
    case ResourceContended(kind, holder, waiters) => PutText(kind) + LE(holder, 8) + (LE(|waiters|, 4) + PutIds(waiters))
  }

  /** What the runtime writes is the payload of the clamped event. */
  lemma WrittenIsPayload(e: Event)
    requires Encodable(Clamped(e))
    ensures [Tag(e)] + Written(e) == Payload(Clamped(e))
  {
    match |Fields(e)| {
      case 1 => WrittenOne(e);
      case 2 => WrittenTwo(e);
      case 3 => WrittenThree(e);
      case 4 => WrittenFour(e);
      case _ => WrittenFive(e);
    }
  }

  lemma WrittenOne(e: Event)
    requires Encodable(Clamped(e)) && |Fields(e)| == 1
    ensures Tag(e) == Tag(Clamped(e)) && Written(e) == PutAll(Shape(Tag(e)), Fields(Clamped(e)))
  {
    PutAllOne(Shape(Tag(Clamped(e))), Fields(Clamped(e)));
  }

  lemma WrittenTwo(e: Event)
    requires Encodable(Clamped(e)) && |Fields(e)| == 2
    ensures Tag(e) == Tag(Clamped(e)) && Written(e) == PutAll(Shape(Tag(e)), Fields(Clamped(e)))
  {
    PutAllTwo(Shape(Tag(Clamped(e))), Fields(Clamped(e)));
  }

  lemma WrittenThree(e: Event)
    requires Encodable(Clamped(e)) && |Fields(e)| == 3
    ensures Tag(e) == Tag(Clamped(e)) && Written(e) == PutAll(Shape(Tag(e)), Fields(Clamped(e)))
  {
    if e.IoRegistered? || e.IoReady? || e.ResourceContended? { WrittenThreeTexts(e); } else { WrittenThreeNumbers(e); }
  }

  lemma WrittenThreeTexts(e: Event)
    requires Encodable(Clamped(e)) && (e.IoRegistered? || e.IoReady? || e.ResourceContended?)
    ensures Tag(e) == Tag(Clamped(e)) && Written(e) == PutAll(Shape(Tag(e)), Fields(Clamped(e)))
  {
    PutAllThree(Shape(Tag(Clamped(e))), Fields(Clamped(e)));
  }

  lemma WrittenThreeNumbers(e: Event)
    requires Encodable(Clamped(e)) && (e.TaskPollStart? || e.WorkerSteal? || e.TimerSet?)
    ensures Tag(e) == Tag(Clamped(e)) && Written(e) == PutAll(Shape(Tag(e)), Fields(Clamped(e)))
  {
    PutAllThree(Shape(Tag(Clamped(e))), Fields(Clamped(e)));
  }

  lemma WrittenFour(e: Event)
    requires Encodable(Clamped(e)) && |Fields(e)| == 4
    ensures Tag(e) == Tag(Clamped(e)) && Written(e) == PutAll(Shape(Tag(e)), Fields(Clamped(e)))
  {
    if e.TaskPollEnd? || e.TaskDropped? { WrittenFourTask(e); } else { WrittenFourOther(e); }
  }

  lemma WrittenFourTask(e: Event)
    requires Encodable(Clamped(e)) && (e.TaskPollEnd? || e.TaskDropped?)
    ensures Tag(e) == Tag(Clamped(e)) && Written(e) == PutAll(Shape(Tag(e)), Fields(Clamped(e)))
  {
    PutAllFour(Shape(Tag(Clamped(e))), Fields(Clamped(e)));
  }

  lemma WrittenFourOther(e: Event)
    requires Encodable(Clamped(e)) && (e.QueueDepth? || e.BlockingDetected?)
    ensures Tag(e) == Tag(Clamped(e)) && Written(e) == PutAll(Shape(Tag(e)), Fields(Clamped(e)))
  {
    if e.QueueDepth? { WrittenQueueDepth(e); } else { WrittenBlocking(e); }
  }

  lemma WrittenQueueDepth(e: Event)
    requires Encodable(Clamped(e)) && e.QueueDepth?
    ensures Tag(e) == Tag(Clamped(e)) && Written(e) == PutAll(Shape(Tag(e)), Fields(Clamped(e)))
  {
    PutAllFour(Shape(Tag(Clamped(e))), Fields(Clamped(e)));
  }

  lemma WrittenBlocking(e: Event)
    requires Encodable(Clamped(e)) && e.BlockingDetected?
    ensures Tag(e) == Tag(Clamped(e)) && Written(e) == PutAll(Shape(Tag(e)), Fields(Clamped(e)))
  {
    PutAllFour(Shape(Tag(Clamped(e))), Fields(Clamped(e)));
  }

  lemma WrittenFive(e: Event)
    requires Encodable(Clamped(e)) && |Fields(e)| == 5
    ensures Tag(e) == Tag(Clamped(e)) && Written(e) == PutAll(Shape(Tag(e)), Fields(Clamped(e)))
  {
    PutAllFive(Shape(Tag(Clamped(e))), Fields(Clamped(e)));
  }

  /** The loop over an id list. */
  method WriteIds(out: bytes, ids: seq<nat>) returns (payload: bytes)
    ensures payload == out + (LE(|ids|, 4) + PutIds(ids))
  {
    payload := out + LE(|ids|, 4);
    var i := 0;
    while i < |ids|
      invariant 0 <= i <= |ids|
      invariant payload + PutIds(ids[i..]) == out + (LE(|ids|, 4) + PutIds(ids))
    {
      assert ids[i..][0] == ids[i] && ids[i..][1..] == ids[i + 1..];
      payload := payload + LE(ids[i], 8);
      i := i + 1;
    }
    assert payload + [] == payload;
  }

  /** What precedes the id list of an event that ends in one. */
  function BeforeList(e: Event): bytes
    requires Encodable(Clamped(e)) && (e.IoReady? || e.ResourceContended?)
  {
    if e.IoReady? then
      assert Fits(Shape(11)[0], Fields(Clamped(e))[0]);
      LE(ToU32(e.fd), 4) + PutText(e.readiness)
    else PutText(e.kind) + LE(e.holder, 8)
  }

  function ListOf(e: Event): seq<nat> {
    if e.IoReady? then e.woke else if e.ResourceContended? then e.waiters else []
  }

  lemma WrittenEndsInList(e: Event)
    requires Encodable(Clamped(e)) && (e.IoReady? || e.ResourceContended?)
    ensures Written(e) == BeforeList(e) + (LE(|ListOf(e)|, 4) + PutIds(ListOf(e)))
  {
  }

  /** Append an id list behind a prefix. */
  method AppendList(tag: byte, before: bytes, ids: seq<nat>) returns (payload: bytes)
    ensures payload == [tag] + (before + (LE(|ids|, 4) + PutIds(ids)))
  {
    payload := WriteIds([tag] + before, ids);
    assert payload == [tag] + (before + (LE(|ids|, 4) + PutIds(ids)));
  }

  method EncodePayload(e: Event) returns (payload: bytes)
    requires Encodable(Clamped(e))
    ensures payload == [Tag(e)] + Written(e)
  {
    if e.IoReady? || e.ResourceContended? {
      WrittenEndsInList(e);
      payload := AppendList(Tag(e), BeforeList(e), ListOf(e));
    } else {
      payload := [Tag(e)] + Written(e);
    }
  }

  method EncodeFrame(e: Event) returns (frame: bytes)
    requires Encodable(Clamped(e)) && |Payload(Clamped(e))| < U32_BOUND
    ensures frame == Frame(Clamped(e))
  {
    var payload := EncodePayload(e);
    WrittenIsPayload(e);
    frame := LE(|payload|, 4) + payload;
  }

  /** What the console reads back is the event itself exactly when no duration needs more than 64 bits. */
  lemma ClampOnlyCutsLongDurations(e: Event)
    requires Encodable(Clamped(e))
    ensures Clamped(e) == e <==> Encodable(e)
  {
    if Encodable(e) {
      match e {
        case TaskPollStart(_, _, _) => assert Fits(U64, Fields(e)[2]);
        case TaskPollEnd(_, _, _, _) => assert Fits(U64, Fields(e)[2]);
        case TaskDropped(_, _, _, _) => assert Fits(U64, Fields(e)[2]) && Fits(U64, Fields(e)[3]);
        case WorkerPark(_, _) => assert Fits(OptU64, Fields(e)[1]);
        case TimerSet(_, _, _) => assert Fits(U64, Fields(e)[1]);
        case TimerFired(_, _) => assert Fits(U64, Fields(e)[1]);
        case BlockingDetected(_, _, _) => assert Fits(U64, Fields(e)[1]);
        case _ =>
      }
    }
  }
}
