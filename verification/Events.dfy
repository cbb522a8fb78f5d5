/** Instrumentation events: what the runtime encodes and the console decodes. */
module Events {
  import opened Options
  import opened Wire

  datatype Location = Location(file: bytes, line: nat)

  datatype PollResult = Ready | Pending | Panicked

  datatype UnparkReason = ByTask | ByShutdown | BySteal | ByEvent

  /** Durations and timestamps are nanoseconds. */
  datatype Event =
    | TaskSpawned(id: nat, name: Option<bytes>, location: Location, parent: Option<nat>)
    | TaskPollStart(id: nat, worker: nat, atNs: nat)
    | TaskPollEnd(id: nat, worker: nat, durationNs: nat, result: PollResult)
    | TaskWoken(id: nat, by_: WakeSource)
    | TaskDropped(id: nat, totalPolls: nat, totalBusyNs: nat, totalIdleNs: nat)
    | TaskAborted(id: nat)
    | WorkerPark(worker: nat, timeoutNs: Option<nat>)
    | WorkerUnpark(worker: nat, reason: UnparkReason)
    | WorkerSteal(thief: nat, victim: nat, count: nat)
    | QueueDepth(worker: nat, local: nat, global: nat, lifo: bool)
    | IoRegistered(fd: int, interest: bytes, task: nat)
    | IoReady(fd: int, readiness: bytes, woke: seq<nat>)
    | TimerSet(id: nat, deadlineNs: nat, task: nat)
    | TimerFired(id: nat, latenessNs: nat)
    | TimerCancelled(id: nat)
    | BlockingDetected(task: nat, pollDurationNs: nat, location: Location)
    | BudgetExhausted(task: nat)
    | ResourceContended(kind: bytes, holder: nat, waiters: seq<nat>)

  function Tag(e: Event): (t: byte)
    ensures t < 18
  {
    match e
    case TaskSpawned(_, _, _, _) => 0
    case TaskPollStart(_, _, _) => 1
    case TaskPollEnd(_, _, _, _) => 2
    case TaskWoken(_, _) => 3
    case TaskDropped(_, _, _, _) => 4
    case TaskAborted(_) => 5
    case WorkerPark(_, _) => 6
    case WorkerUnpark(_, _) => 7
    case WorkerSteal(_, _, _) => 8
    case QueueDepth(_, _, _, _) => 9
    case IoRegistered(_, _, _) => 10
    case IoReady(_, _, _) => 11
    case TimerSet(_, _, _) => 12
    case TimerFired(_, _) => 13
    case TimerCancelled(_) => 14
    case BlockingDetected(_, _, _) => 15
    case BudgetExhausted(_) => 16
    case ResourceContended(_, _, _) => 17
  }

  /** The fields behind a tag, in the order both sides agree on. */
  function Shape(tag: byte): seq<Kind> {
    match tag
    case 0 => [U64, OptStr, Str, U32, OptU64]
    case 1 => [U64, U32, U64]
    case 2 => [U64, U32, U64, Choice(3, "poll result")]
    case 3 => [U64, Source]
    case 4 => [U64, U64, U64, U64]
    case 5 => [U64]
    case 6 => [U32, OptU64]
    case 7 => [U32, Choice(4, "unpark reason")]
    case 8 => [U32, U32, U64]
    case 9 => [U32, U64, U64, Choice(2, "lifo marker")]
    case 10 => [Fd, Str, U64]
    case 11 => [Fd, Str, Ids]
    case 12 => [U64, U64, U64]
    case 13 => [U64, U64]
    case 14 => [U64]
    case 15 => [U64, U64, Str, U32]
    case 16 => [U64]
    case 17 => [Str, U64, Ids]
    case _ => []
  }

  function ResultCode(r: PollResult): nat { match r case Ready => 0 case Pending => 1 case Panicked => 2 }

  function ResultOf(n: nat): PollResult { if n == 0 then Ready else if n == 1 then Pending else Panicked }

  function ReasonCode(r: UnparkReason): nat {
    match r case ByTask => 0 case ByShutdown => 1 case BySteal => 2 case ByEvent => 3
  }

  function ReasonOf(n: nat): UnparkReason {
    if n == 0 then ByTask else if n == 1 then ByShutdown else if n == 2 then BySteal else ByEvent
  }

  /** The field values of an event, in wire order. */
  function Fields(e: Event): seq<Value> {
    match e
    case TaskSpawned(id, name, loc, parent) => [Num(id), MaybeText(name), Text(loc.file), Num(loc.line), MaybeNum(parent)]
    case TaskPollStart(id, worker, at) => [Num(id), Num(worker), Num(at)]
    case TaskPollEnd(id, worker, d, r) => [Num(id), Num(worker), Num(d), Num(ResultCode(r))]
    case TaskWoken(id, w) => [Num(id), By(w)]
    case TaskDropped(id, polls, busy, idle) => [Num(id), Num(polls), Num(busy), Num(idle)]
    case TaskAborted(id) => [Num(id)]
    case WorkerPark(worker, timeout) => [Num(worker), MaybeNum(timeout)]
    case WorkerUnpark(worker, reason) => [Num(worker), Num(ReasonCode(reason))]
    case WorkerSteal(thief, victim, count) => [Num(thief), Num(victim), Num(count)]
    case QueueDepth(worker, local, global, lifo) => [Num(worker), Num(local), Num(global), Num(if lifo then 1 else 0)]
    case IoRegistered(fd, interest, task) => [Int(fd), Text(interest), Num(task)]
    case IoReady(fd, readiness, woke) => [Int(fd), Text(readiness), List(woke)]
    case TimerSet(id, deadline, task) => [Num(id), Num(deadline), Num(task)]
    case TimerFired(id, lateness) => [Num(id), Num(lateness)]
    case TimerCancelled(id) => [Num(id)]
    case BlockingDetected(task, d, loc) => [Num(task), Num(d), Text(loc.file), Num(loc.line)]
    case BudgetExhausted(task) => [Num(task)]
    case ResourceContended(kind, holder, waiters) => [Text(kind), Num(holder), List(waiters)]
  }

  predicate FitAll(ks: seq<Kind>, vs: seq<Value>) {
    |ks| == |vs| && forall i :: 0 <= i < |ks| ==> Fits(ks[i], vs[i])
  }

  /** Every field is in the range of its wire type; ids and lengths are below the integer bounds. */
  predicate Encodable(e: Event) { FitAll(Shape(Tag(e)), Fields(e)) }

  /** The event a tag and its fields stand for. */
  function Build(tag: byte, v: seq<Value>): Event
    requires tag < 18 && FitAll(Shape(tag), v)
  {
    match tag
    case 0 =>
      assert Fits(OptStr, v[1]) && Fits(Str, v[2]) && Fits(U32, v[3]) && Fits(OptU64, v[4]);
      TaskSpawned(v[0].n, v[1].t, Location(v[2].s, v[3].n), v[4].m)
    case 1 => TaskPollStart(v[0].n, v[1].n, v[2].n)
    case 2 => TaskPollEnd(v[0].n, v[1].n, v[2].n, ResultOf(v[3].n))
    case 3 => TaskWoken(v[0].n, v[1].w)
    case 4 => TaskDropped(v[0].n, v[1].n, v[2].n, v[3].n)
    case 5 => TaskAborted(v[0].n)
    case 6 => WorkerPark(v[0].n, v[1].m)
    case 7 => WorkerUnpark(v[0].n, ReasonOf(v[1].n))
    case 8 => WorkerSteal(v[0].n, v[1].n, v[2].n)
    case 9 => QueueDepth(v[0].n, v[1].n, v[2].n, v[3].n == 1)
    case 10 => IoRegistered(v[0].i, v[1].s, v[2].n)
    case 11 => IoReady(v[0].i, v[1].s, v[2].ids)
    case 12 => TimerSet(v[0].n, v[1].n, v[2].n)
    case 13 => TimerFired(v[0].n, v[1].n)
    case 14 => TimerCancelled(v[0].n)
    case 15 => BlockingDetected(v[0].n, v[1].n, Location(v[2].s, v[3].n))
    case 16 => BudgetExhausted(v[0].n)
    case _ => ResourceContended(v[0].s, v[1].n, v[2].ids)
  }

  lemma BuildUndoesFields(e: Event)
    requires Encodable(e)
    ensures Build(Tag(e), Fields(e)) == e
  {
  }

  lemma FieldsUndoBuild(tag: byte, v: seq<Value>)
    requires tag < 18 && FitAll(Shape(tag), v)
    ensures Tag(Build(tag, v)) == tag && Fields(Build(tag, v)) == v
  {
    if |v| <= 2 { FieldsUndoShort(tag, v); } else if |v| == 3 { FieldsUndoThree(tag, v); } else { FieldsUndoLong(tag, v); }
  }

  lemma FieldsUndoShort(tag: byte, v: seq<Value>)
    requires tag < 18 && FitAll(Shape(tag), v) && |v| <= 2
    ensures Tag(Build(tag, v)) == tag && Fields(Build(tag, v)) == v
  {
  }

  lemma FieldsUndoThree(tag: byte, v: seq<Value>)
    requires tag < 18 && FitAll(Shape(tag), v) && |v| == 3
    ensures Tag(Build(tag, v)) == tag && Fields(Build(tag, v)) == v
  {
  }

  lemma FieldsUndoLong(tag: byte, v: seq<Value>)
    requires tag < 18 && FitAll(Shape(tag), v) && |v| > 3
    ensures Tag(Build(tag, v)) == tag && Fields(Build(tag, v)) == v
  {
  }
}
