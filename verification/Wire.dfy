/** Field encodings of the instrumentation protocol, on both sides of the socket: the writers of
    the runtime and the readers of the console. */
module Wire {
  import opened Options
  import opened Bits

  type byte = b: int | 0 <= b < 256

  type bytes = seq<byte>

  datatype DecodeError =
    | FrameTooLarge(size: nat)
    | UnknownTag(tag: byte)
    | Truncated
    | InvalidUtf8
    | InvalidValue(what: string)
    | TrailingBytes(tag: byte, remaining: nat)

  /** A reader's outcome: the value and the bytes behind it, or the first error. */
  datatype Parsed<+T> = Got(value: T, rest: bytes) | Bad(error: DecodeError)

  // ----- Integers -----

  /** The `n` little-endian bytes of `v`. */
  function LE(v: nat, n: nat): (s: bytes)
    ensures |s| == n
  {
    if n == 0 then [] else [v % 256] + LE(v / 256, n - 1)
  }

  function FromLE(s: bytes): nat {
    if s == [] then 0 else s[0] + 256 * FromLE(s[1..])
  }

  function Bound(n: nat): (p: nat)
    ensures p > 0
  {
    if n == 0 then 1 else 256 * Bound(n - 1)
  }

  const U32_BOUND: nat := 0x1_0000_0000
  const U64_BOUND: nat := 0x1_0000_0000_0000_0000

  lemma Bounds()
    ensures Bound(4) == U32_BOUND && Bound(8) == U64_BOUND
  {
    assert Bound(1) == 0x100 && Bound(2) == 0x1_0000 && Bound(3) == 0x100_0000 && Bound(4) == 0x1_0000_0000;
    assert Bound(5) == 0x100_0000_0000 && Bound(6) == 0x1_0000_0000_0000;
  }

  lemma {:induction false} LEDecodes(v: nat, n: nat)
    requires v < Bound(n)
    ensures FromLE(LE(v, n)) == v
  {
    if n > 0 {
      LEDecodes(v / 256, n - 1);
      assert LE(v, n)[1..] == LE(v / 256, n - 1);
    }
  }

  lemma {:induction false} LEEncodes(s: bytes)
    ensures FromLE(s) < Bound(|s|) && LE(FromLE(s), |s|) == s
  {
    if s != [] {
      LEEncodes(s[1..]);
      assert s == [s[0]] + s[1..];
    }
  }

  // ----- UTF-8 (section 4 of RFC 3629) -----

  predicate Tail(s: bytes, i: nat) { i < |s| && 0x80 <= s[i] <= 0xBF }

  /** Length of the well-formed sequence at the front of `s`, or 0. */
  function Utf8Step(s: bytes): (n: nat)
    ensures n <= |s|
  {
    if s == [] then 0
    else if s[0] <= 0x7F then 1
    else if 0xC2 <= s[0] <= 0xDF && Tail(s, 1) then 2
    else if 0xE0 <= s[0] <= 0xEF && Tail(s, 1) && Tail(s, 2)
            && (s[0] == 0xE0 ==> s[1] >= 0xA0) && (s[0] == 0xED ==> s[1] <= 0x9F) then 3
    else if 0xF0 <= s[0] <= 0xF4 && Tail(s, 1) && Tail(s, 2) && Tail(s, 3)
            && (s[0] == 0xF0 ==> s[1] >= 0x90) && (s[0] == 0xF4 ==> s[1] <= 0x8F) then 4
    else 0
  }

  predicate Utf8(s: bytes)
    decreases |s|
  {
    s == [] || (Utf8Step(s) > 0 && Utf8(s[Utf8Step(s)..]))
  }

  // ----- Readers and writers of one field -----

  datatype WakeSource = Io(fd: int) | Timer(id: nat) | FromTask(task: nat) | Channel(kind: bytes) | External

  /** The shapes of fields that occur in events. A `Choice` is one byte below a limit. */
  datatype Kind = U32 | U64 | Choice(limit: byte, what: string) | Fd | Str | OptStr | OptU64 | Ids | Source

  datatype Value =
    | Num(n: nat)
    | Int(i: int)
    | Text(s: bytes)
    | MaybeText(t: Option<bytes>)
    | MaybeNum(m: Option<nat>)
    | List(ids: seq<nat>)
    | By(w: WakeSource)

  predicate IsI32(i: int) { -0x8000_0000 <= i < 0x8000_0000 }

  predicate IsText(s: bytes) { Utf8(s) && |s| < U32_BOUND }

  predicate AllU64(ids: seq<nat>) { forall i :: 0 <= i < |ids| ==> ids[i] < U64_BOUND }

  /** The values a field of kind `k` can hold. */
  predicate Fits(k: Kind, v: Value) {
    match k
    case U32 => v.Num? && v.n < U32_BOUND
    case U64 => v.Num? && v.n < U64_BOUND
    case Choice(limit, _) => v.Num? && v.n < limit
    case Fd => v.Int? && IsI32(v.i)
    case Str => v.Text? && IsText(v.s)
    case OptStr => v.MaybeText? && (v.t.Some? ==> IsText(v.t.value))
    case OptU64 => v.MaybeNum? && (v.m.Some? ==> v.m.value < U64_BOUND)
    case Ids => v.List? && |v.ids| < U32_BOUND && AllU64(v.ids)
    case Source => v.By? && match v.w {
      case Io(fd) => IsI32(fd)
      case Timer(id) => id < U64_BOUND
      case FromTask(task) => task < U64_BOUND
      case Channel(kind) => IsText(kind)
      case External => true
    }
  }

  /** `fd as u32` and `u32 as i32` */
  function ToU32(i: int): nat
    requires IsI32(i)
  {
    if i < 0 then i + U32_BOUND else i
  }

  function ToI32(n: nat): int { if n < 0x8000_0000 then n else n - U32_BOUND }

  function PutText(s: bytes): bytes { LE(|s|, 4) + s }

  function PutIds(ids: seq<nat>): bytes {
    if ids == [] then [] else LE(ids[0], 8) + PutIds(ids[1..])
  }

  function Put(k: Kind, v: Value): bytes
    requires Fits(k, v)
  {
    match k
    case U32 => LE(v.n, 4)
    case U64 => LE(v.n, 8)
    case Choice(_, _) => [v.n]
    case Fd => LE(ToU32(v.i), 4)
    case Str => PutText(v.s)
    case OptStr => if v.t.None? then [0] else [1] + PutText(v.t.value)
    case OptU64 => if v.m.None? then [0] else [1] + LE(v.m.value, 8)
    case Ids => LE(|v.ids|, 4) + PutIds(v.ids)
    case Source => match v.w {
      case Io(fd) => [0] + LE(ToU32(fd), 4)
      case Timer(id) => [1] + LE(id, 8)
      case FromTask(task) => [2] + LE(task, 8)
      case Channel(kind) => [3] + PutText(kind)
      case External => [4]
    }
  }

  /** `Payload::u32` and `Payload::u64` */
  function GetInt(s: bytes, n: nat): Parsed<nat> {
    if n > |s| then Bad(Truncated) else Got(FromLE(s[..n]), s[n..])
  }

  function GetByte(s: bytes): Parsed<byte> {
    if s == [] then Bad(Truncated) else Got(s[0], s[1..])
  }

  function GetText(s: bytes): Parsed<bytes> {
    match GetInt(s, 4)
    case Bad(e) => Bad(e)
    case Got(len, rest) =>
      if len > |rest| then Bad(Truncated)
      else if !Utf8(rest[..len]) then Bad(InvalidUtf8)
      else Got(rest[..len], rest[len..])
  }

  function GetIds(s: bytes, count: nat): Parsed<seq<nat>> {
    if count == 0 then Got([], s)
    else match GetInt(s, 8)
      case Bad(e) => Bad(e)
      case Got(id, rest) =>
        match GetIds(rest, count - 1)
        case Bad(e) => Bad(e)
        case Got(ids, rest') => Got([id] + ids, rest')
  }

  function Wrap<T, U>(p: Parsed<T>, f: T -> U): Parsed<U> {
    match p case Bad(e) => Bad(e) case Got(v, rest) => Got(f(v), rest)
  }

  function GetSource(s: bytes): Parsed<WakeSource> {
    match GetByte(s)
    case Bad(e) => Bad(e)
    case Got(tag, rest) =>
      if tag == 0 then Wrap(GetInt(rest, 4), n => Io(ToI32(n)))
      else if tag == 1 then Wrap(GetInt(rest, 8), n => Timer(n))
      else if tag == 2 then Wrap(GetInt(rest, 8), n => FromTask(n))
      else if tag == 3 then Wrap(GetText(rest), t => Channel(t))
      else if tag == 4 then Got(External, rest)
      else Bad(InvalidValue("wake source"))
  }

  function Get(k: Kind, s: bytes): Parsed<Value> {
    match k
    case U32 => Wrap(GetInt(s, 4), n => Num(n))
    case U64 => Wrap(GetInt(s, 8), n => Num(n))
    case Choice(limit, what) =>
      (match GetByte(s)
       case Bad(e) => Bad(e)
       case Got(b, rest) => if b < limit then Got(Num(b), rest) else Bad(InvalidValue(what)))
    case Fd => Wrap(GetInt(s, 4), n => Int(ToI32(n)))
    case Str => Wrap(GetText(s), t => Text(t))
    case OptStr =>
      (match GetByte(s)
       case Bad(e) => Bad(e)
       case Got(b, rest) =>
         if b == 0 then Got(MaybeText(None), rest)
         else if b == 1 then Wrap(GetText(rest), t => MaybeText(Some(t)))
         else Bad(InvalidValue("optional string marker")))
    case OptU64 =>
      (match GetByte(s)
       case Bad(e) => Bad(e)
       case Got(b, rest) =>
         if b == 0 then Got(MaybeNum(None), rest)
         else if b == 1 then Wrap(GetInt(rest, 8), n => MaybeNum(Some(n)))
         else Bad(InvalidValue("optional integer marker")))
    case Ids =>
      (match GetInt(s, 4)
       case Bad(e) => Bad(e)
       case Got(count, rest) =>
         if count > |rest| / 8 then Bad(Truncated)
         else Wrap(GetIds(rest, count), ids => List(ids)))
    case Source => Wrap(GetSource(s), w => By(w))
  }

  // ----- Reading undoes writing, and writing undoes reading -----

  lemma IntReads(v: nat, n: nat, rest: bytes)
    requires v < Bound(n)
    ensures GetInt(LE(v, n) + rest, n) == Got(v, rest)
  {
    LEDecodes(v, n);
    assert (LE(v, n) + rest)[..n] == LE(v, n) && (LE(v, n) + rest)[n..] == rest;
  }

  lemma IntWrites(s: bytes, n: nat)
    requires GetInt(s, n).Got?
    ensures GetInt(s, n).value < Bound(n) && s == LE(GetInt(s, n).value, n) + GetInt(s, n).rest
  {
    LEEncodes(s[..n]);
  }

  lemma TextReads(t: bytes, rest: bytes)
    requires IsText(t)
    ensures GetText(PutText(t) + rest) == Got(t, rest)
  {
    Bounds();
    assert PutText(t) + rest == LE(|t|, 4) + (t + rest);
    IntReads(|t|, 4, t + rest);
    assert (t + rest)[..|t|] == t && (t + rest)[|t|..] == rest;
  }

  lemma TextWrites(s: bytes)
    requires GetText(s).Got?
    ensures IsText(GetText(s).value) && s == PutText(GetText(s).value) + GetText(s).rest
  {
    Bounds();
    IntWrites(s, 4);
    var rest := GetInt(s, 4).rest;
    var len := GetInt(s, 4).value;
    assert rest == rest[..len] + rest[len..];
    assert s == LE(len, 4) + rest[..len] + rest[len..];
  }

  lemma {:induction false} IdsRead(ids: seq<nat>, rest: bytes)
    requires AllU64(ids)
    ensures GetIds(PutIds(ids) + rest, |ids|) == Got(ids, rest)
    ensures |PutIds(ids)| == 8 * |ids|
  {
    Bounds();
    if ids == [] {
      assert PutIds(ids) + rest == rest;
    } else {
      var more := PutIds(ids[1..]) + rest;
      assert PutIds(ids) + rest == LE(ids[0], 8) + more;
      IntReads(ids[0], 8, more);
      IdsRead(ids[1..], rest);
      assert [ids[0]] + ids[1..] == ids;
    }
  }

  lemma {:induction false} IdsWrite(s: bytes, count: nat)
    requires GetIds(s, count).Got?
    ensures var p := GetIds(s, count); |p.value| == count && AllU64(p.value) && s == PutIds(p.value) + p.rest
    decreases count
  {
    Bounds();
    if count == 0 {
      assert s == PutIds([]) + s;
    } else {
      IntWrites(s, 8);
      var head := GetInt(s, 8);
      IdsWrite(head.rest, count - 1);
      var tail := GetIds(head.rest, count - 1);
      var ids := [head.value] + tail.value;
      assert ids[1..] == tail.value;
      assert PutIds(ids) == LE(head.value, 8) + PutIds(tail.value);
      assert s == LE(head.value, 8) + (PutIds(tail.value) + tail.rest);
    }
  }

  /** Reading a written field gives the value back and stops exactly behind it. */
  lemma FieldReads(k: Kind, v: Value, rest: bytes)
    requires Fits(k, v)
    ensures Get(k, Put(k, v) + rest) == Got(v, rest)
  {
    Bounds();
    match k {
      case U32 => IntReads(v.n, 4, rest);
      case U64 => IntReads(v.n, 8, rest);
      case Choice(_, _) =>
      case Fd => IntReads(ToU32(v.i), 4, rest);
      case Str => TextReads(v.s, rest);
      case OptStr => OptTextReads(v.t, rest);
      case OptU64 => OptNumReads(v.m, rest);
      case Ids => ListReads(v.ids, rest);
      case Source => SourceReads(v.w, rest);
    }
  }

  lemma OptTextReads(t: Option<bytes>, rest: bytes)
    requires Fits(OptStr, MaybeText(t))
    ensures Get(OptStr, Put(OptStr, MaybeText(t)) + rest) == Got(MaybeText(t), rest)
  {
    if t.Some? {
      assert ([1] + PutText(t.value) + rest)[1..] == PutText(t.value) + rest;
      TextReads(t.value, rest);
    } else {
      assert ([0] + rest)[1..] == rest;
    }
  }

  lemma OptNumReads(m: Option<nat>, rest: bytes)
    requires Fits(OptU64, MaybeNum(m))
    ensures Get(OptU64, Put(OptU64, MaybeNum(m)) + rest) == Got(MaybeNum(m), rest)
  {
    Bounds();
    if m.Some? {
      assert ([1] + LE(m.value, 8) + rest)[1..] == LE(m.value, 8) + rest;
      IntReads(m.value, 8, rest);
    } else {
      assert ([0] + rest)[1..] == rest;
    }
  }

  lemma ListReads(ids: seq<nat>, rest: bytes)
    requires Fits(Ids, List(ids))
    ensures Get(Ids, Put(Ids, List(ids)) + rest) == Got(List(ids), rest)
  {
    Bounds();
    var more := PutIds(ids) + rest;
    assert Put(Ids, List(ids)) + rest == LE(|ids|, 4) + more;
    IntReads(|ids|, 4, more);
    IdsRead(ids, rest);
  }

  lemma SourceReads(w: WakeSource, rest: bytes)
    requires Fits(Source, By(w))
    ensures GetSource(Put(Source, By(w)) + rest) == Got(w, rest)
  {
    Bounds();
    var s := Put(Source, By(w)) + rest;
    match w {
      case Io(fd) => assert s[1..] == LE(ToU32(fd), 4) + rest; IntReads(ToU32(fd), 4, rest);
      case Timer(id) => assert s[1..] == LE(id, 8) + rest; IntReads(id, 8, rest);
      case FromTask(task) => assert s[1..] == LE(task, 8) + rest; IntReads(task, 8, rest);
      case Channel(kind) => assert s[1..] == PutText(kind) + rest; TextReads(kind, rest);
      case External => assert s[1..] == rest;
    }
  }

  /** What a reader accepts is exactly what the writer writes: no second spelling is accepted. */
  lemma FieldWrites(k: Kind, s: bytes)
    requires Get(k, s).Got?
    ensures Fits(k, Get(k, s).value) && s == Put(k, Get(k, s).value) + Get(k, s).rest
  {
    match k {
      case OptStr => OptStrWrites(s);
      case OptU64 => OptU64Writes(s);
      case Ids => IdListWrites(s);
      case Source => SourceWrites(s);
      case _ => ScalarWrites(k, s);
    }
  }

  lemma ScalarWrites(k: Kind, s: bytes)
    requires k.U32? || k.U64? || k.Choice? || k.Fd? || k.Str?
    requires Get(k, s).Got?
    ensures Fits(k, Get(k, s).value) && s == Put(k, Get(k, s).value) + Get(k, s).rest
  {
    Bounds();
    match k {
      case U32 => IntWrites(s, 4);
      case U64 => IntWrites(s, 8);
      case Choice(_, _) =>
      case Fd => IntWrites(s, 4);
      case Str => TextWrites(s);
    }
  }

  lemma OptStrWrites(s: bytes)
    requires Get(OptStr, s).Got?
    ensures Fits(OptStr, Get(OptStr, s).value) && s == Put(OptStr, Get(OptStr, s).value) + Get(OptStr, s).rest
  {
    assert s == [s[0]] + s[1..];
    if s[0] == 1 { TextWrites(s[1..]); }
  }

  lemma OptU64Writes(s: bytes)
    requires Get(OptU64, s).Got?
    ensures Fits(OptU64, Get(OptU64, s).value) && s == Put(OptU64, Get(OptU64, s).value) + Get(OptU64, s).rest
  {
    Bounds();
    assert s == [s[0]] + s[1..];
    if s[0] == 1 { IntWrites(s[1..], 8); }
  }

  lemma IdListWrites(s: bytes)
    requires Get(Ids, s).Got?
    ensures Fits(Ids, Get(Ids, s).value) && s == Put(Ids, Get(Ids, s).value) + Get(Ids, s).rest
  {
    Bounds();
    IntWrites(s, 4);
    var count := GetInt(s, 4);
    IdsWrite(count.rest, count.value);
  }

  lemma SourceWrites(s: bytes)
    requires GetSource(s).Got?
    ensures Fits(Source, By(GetSource(s).value)) && s == Put(Source, By(GetSource(s).value)) + GetSource(s).rest
  {
    Bounds();
    var t := s[1..];
    assert s == [s[0]] + t;
    if s[0] == 0 { IntWrites(t, 4); }
    else if s[0] == 1 || s[0] == 2 { IntWrites(t, 8); }
    else if s[0] == 3 { TextWrites(t); }
  }
}
