/** The bytes of the protocol, spelled out: what the round trips cannot tell apart when both sides would
    change together. */
module WireFormat {
  import opened Options
  import opened Bits
  import opened Wire
  import opened Events
  import opened Framing
  import opened FrameCodec
  import opened FrameEncoder

  // ----- Integers -----

  lemma DivideTwice(v: nat, a: nat, b: nat)
    requires a > 0 && b > 0
    ensures a * b > 0 && v / a / b == v / (a * b)
  {
    var q, r := v / a / b, v / a % b;
    DivMod(v, a);
    DivMod(v / a, b);
    var low := a * r + v % a;
    assert v == (a * b) * q + low by {
      MulAssoc(a, b, q);
      Distribute(a, b * q, r);
    }
    assert low < a * b by { Below(a, r, b, v % a); }
    Positive(a, b);
    RemainderUnique(v, a * b, q, low);
  }

  lemma Distribute(m: int, a: int, b: int)
    ensures m * (a + b) == m * a + m * b
  {
  }

  lemma Positive(a: nat, b: nat)
    requires a > 0 && b > 0
    ensures a * b > 0
  {
    MulAtLeast(a, b);
  }

  lemma Below(a: nat, r: nat, b: nat, x: nat)
    requires r < b && x < a
    ensures 0 <= a * r + x < a * b
  {
    Distribute(a, r, b - r);
    MulAtLeast(a, b - r);
    if r > 0 { Positive(a, r); }
  }

  /** Byte `i` of a written integer is its digit `i` to the base 256: least significant byte first. */
  lemma {:induction false} LittleEndian(v: nat, n: nat, i: nat)
    requires i < n
    ensures LE(v, n)[i] == v / Bound(i) % 256
    decreases n
  {
    if i > 0 {
      LittleEndian(v / 256, n - 1, i - 1);
      DivideTwice(v, 256, Bound(i - 1));
    }
  }

  // ----- Text -----

  /** Unicode scalar values: code points that are no surrogates. */
  predicate Scalar(c: nat) { c < 0x11_0000 && !(0xD800 <= c < 0xE000) }

  /** The UTF-8 form of a scalar value (section 3 of RFC 3629). */
  function Encoded(c: nat): (s: bytes)
    requires Scalar(c)
    ensures 1 <= |s| <= 4
  {
    if c < 0x80 then [c]
    else if c < 0x800 then [0xC0 + c / 0x40, 0x80 + c % 0x40]
    else if c < 0x1_0000 then [0xE0 + c / 0x1000, 0x80 + c / 0x40 % 0x40, 0x80 + c % 0x40]
    else [0xF0 + c / 0x4_0000, 0x80 + c / 0x1000 % 0x40, 0x80 + c / 0x40 % 0x40, 0x80 + c % 0x40]
  }

  predicate Scalars(cs: seq<nat>) { forall i :: 0 <= i < |cs| ==> Scalar(cs[i]) }

  function EncodedAll(cs: seq<nat>): bytes
    requires Scalars(cs)
    decreases |cs|
  {
    if cs == [] then [] else Encoded(cs[0]) + EncodedAll(cs[1..])
  }

  /** Two, three and four bytes put together. */
  function Joined(lead: int, base: int, a: int): int { (lead - base) * 0x40 + (a - 0x80) }

  /** The scalar value of a well-formed sequence. */
  function Scanned(s: bytes): int
    requires Utf8Step(s) > 0
  {
    if Utf8Step(s) == 1 then s[0]
    else if Utf8Step(s) == 2 then Joined(s[0], 0xC0, s[1])
    else if Utf8Step(s) == 3 then Joined(Joined(s[0], 0xE0, s[1]), 0, s[2])
    else Joined(Joined(Joined(s[0], 0xF0, s[1]), 0, s[2]), 0, s[3])
  }

  lemma JoinedSplits(lead: int, a: int)
    requires lead >= 0 && 0x80 <= a <= 0xBF
    ensures Joined(lead, 0, a) >= 0 && Joined(lead, 0, a) / 0x40 == lead && Joined(lead, 0, a) % 0x40 == a - 0x80
  {
  }

  lemma TwoIsEncoded(s: bytes)
    requires Utf8Step(s) == 2
    ensures Scanned(s) >= 0 && Scalar(Scanned(s)) && s[..2] == Encoded(Scanned(s))
  {
    JoinedSplits(s[0] - 0xC0, s[1]);
  }

  lemma ThreeIsEncoded(s: bytes)
    requires Utf8Step(s) == 3
    ensures Scanned(s) >= 0 && Scalar(Scanned(s)) && s[..3] == Encoded(Scanned(s))
  {
    var high := Joined(s[0], 0xE0, s[1]);
    JoinedSplits(s[0] - 0xE0, s[1]);
    JoinedSplits(high, s[2]);
    var c := Scanned(s);
    DivideTwice(c, 0x40, 0x40);
    assert Encoded(c) == [0xE0 + high / 0x40, 0x80 + high % 0x40, 0x80 + c % 0x40];
  }

  lemma FourDigits(a: nat, b: nat, c: nat, d: nat)
    requires b < 0x40 && c < 0x40 && d < 0x40
    ensures var v := ((a * 0x40 + b) * 0x40 + c) * 0x40 + d;
            v % 0x40 == d && v / 0x40 % 0x40 == c && v / 0x1000 % 0x40 == b && v / 0x4_0000 == a
  {
  }

  lemma FourIsEncoded(s: bytes)
    requires Utf8Step(s) == 4
    ensures Scanned(s) >= 0 && Scalar(Scanned(s)) && s[..4] == Encoded(Scanned(s))
  {
    FourDigits(s[0] - 0xF0, s[1] - 0x80, s[2] - 0x80, s[3] - 0x80);
  }

  lemma StepIsEncoded(s: bytes)
    requires Utf8Step(s) > 0
    ensures Scanned(s) >= 0 && Scalar(Scanned(s)) && s[..Utf8Step(s)] == Encoded(Scanned(s))
  {
    match Utf8Step(s) {
      case 1 =>
      case 2 => TwoIsEncoded(s);
      case 3 => ThreeIsEncoded(s);
      case _ => FourIsEncoded(s);
    }
  }

  lemma EncodedIsStep(c: nat, rest: bytes)
    requires Scalar(c)
    ensures Utf8Step(Encoded(c) + rest) == |Encoded(c)|
  {
    var s := Encoded(c) + rest;
    assert s[0] == Encoded(c)[0];
    if |Encoded(c)| > 1 { assert s[1] == Encoded(c)[1]; }
    if |Encoded(c)| > 2 { assert s[2] == Encoded(c)[2]; }
    if |Encoded(c)| > 3 { assert s[3] == Encoded(c)[3]; }
  }

  lemma EncodedFront(c: nat, cs: seq<nat>)
    requires Scalar(c) && Scalars(cs)
    ensures Scalars([c] + cs) && EncodedAll([c] + cs) == Encoded(c) + EncodedAll(cs)
  {
    assert ([c] + cs)[1..] == cs;
  }

  lemma Glue(s: bytes, n: nat, a: bytes, b: bytes)
    requires n <= |s| && s[..n] == a && s[n..] == b
    ensures s == a + b
  {
  }

  lemma {:induction false} TextIsEncoded(s: bytes) returns (cs: seq<nat>)
    requires Utf8(s)
    ensures Scalars(cs) && s == EncodedAll(cs)
    decreases |s|
  {
    if s == [] {
      cs := [];
    } else {
      var n := Utf8Step(s);
      StepIsEncoded(s);
      var rest := TextIsEncoded(s[n..]);
      cs := [Scanned(s)] + rest;
      EncodedFront(Scanned(s), rest);
      Glue(s, n, Encoded(Scanned(s)), EncodedAll(rest));
    }
  }

  lemma {:induction false} EncodedIsText(cs: seq<nat>)
    requires Scalars(cs)
    ensures Utf8(EncodedAll(cs))
    decreases |cs|
  {
    if cs != [] {
      var rest := EncodedAll(cs[1..]);
      EncodedIsText(cs[1..]);
      EncodedIsStep(cs[0], rest);
      assert (Encoded(cs[0]) + rest)[|Encoded(cs[0])|..] == rest;
    }
  }

  /** The console takes a string exactly when it is the UTF-8 form of some sequence of scalar values. */
  lemma Utf8Iff(s: bytes)
    ensures Utf8(s) <==> exists cs :: Scalars(cs) && s == EncodedAll(cs)
  {
    if Utf8(s) {
      var cs := TextIsEncoded(s);
      assert Scalars(cs) && s == EncodedAll(cs);
    }
    forall cs | Scalars(cs) && s == EncodedAll(cs) ensures Utf8(s) {
      EncodedIsText(cs);
    }
  }

  // ----- Errors -----

  /** `decode_payload` refuses a payload exactly when no event has it; an empty one is truncated, an
      unknown first byte is named, and bytes behind a whole event are counted. */
  lemma DecodeRefuses(s: bytes)
    ensures Decode(s).Ok? <==> exists e :: Encodable(e) && Payload(e) == s
    ensures s == [] ==> Decode(s) == Err(Truncated)
    ensures s != [] && s[0] >= 18 ==> Decode(s) == Err(UnknownTag(s[0]))
  {
    if Decode(s).Ok? {
      AcceptedIsCanonical(s);
      assert Encodable(Decode(s).value) && Payload(Decode(s).value) == s;
    }
    forall e | Encodable(e) && Payload(e) == s ensures Decode(s).Ok? { PayloadDecodes(e); }
  }

  lemma LeftOver(s: bytes, tag: byte, vs: seq<Value>, extra: bytes)
    requires s != [] && s[0] == tag < 18 && extra != [] && GetAll(Shape(tag), s[1..]) == Got(vs, extra)
    ensures Decode(s) == Err(TrailingBytes(tag, |extra|))
  {
  }

  lemma Behind(p: bytes, tag: byte, body: bytes, extra: bytes)
    requires p == [tag] + body
    ensures p + extra != [] && (p + extra)[0] == tag && (p + extra)[1..] == body + extra
  {
  }

  lemma TrailingIsCounted(e: Event, extra: bytes)
    requires Encodable(e) && extra != []
    ensures Decode(Payload(e) + extra) == Err(TrailingBytes(Tag(e), |extra|))
  {
    PutAllReads(Shape(Tag(e)), Fields(e), extra);
    Behind(Payload(e), Tag(e), PutAll(Shape(Tag(e)), Fields(e)), extra);
    LeftOver(Payload(e) + extra, Tag(e), Fields(e), extra);
  }

  // ----- Clamping -----

  /** The clamp is the smaller of a duration and the largest 64-bit value, in every field that is a
      duration, and nothing else changes. */
  lemma ClampIsMinimum(e: Event, i: nat)
    requires i < |Fields(e)|
    ensures Tag(Clamped(e)) == Tag(e) && |Fields(Clamped(e))| == |Fields(e)|
    ensures var was, now := Fields(e)[i], Fields(Clamped(e))[i];
            || now == was
            || (was.Num? && was.n >= U64_BOUND && now == Num(U64_BOUND - 1))
            || (was.MaybeNum? && was.m.Some? && was.m.value >= U64_BOUND && now == MaybeNum(Some(U64_BOUND - 1)))
  {
  }

  // ----- Numbers both sides agree on -----

  /** The stable number of each kind of event. */
  lemma TagsAreStable(e: Event)
    requires Encodable(e)
    ensures Payload(e)[0] == match e
              case TaskSpawned(_, _, _, _) => 0
              case TaskPollStart(_, _, _) => 1
              case TaskPollEnd(_, _, _, _) => 2
              case TaskWoken(_, _) => 3
              case TaskDropped(_, _, _, _) => 4
              case TaskAborted(_) => 5
              case WorkerPark(_, _) => 6
              case WorkerUnpark(_, _) => 7
              case WorkerSteal(_, _, _) => 8
              case QueueDepth(_, _, _, _) => 9
              case IoRegistered(_, _, _) => 10
              case IoReady(_, _, _) => 11
              case TimerSet(_, _, _) => 12
              case TimerFired(_, _) => 13
              case TimerCancelled(_) => 14
              case BlockingDetected(_, _, _) => 15
              case BudgetExhausted(_) => 16
              case ResourceContended(_, _, _) => 17
  {
  }

  lemma SmallIntegers()
    ensures LE(7, 8) == [7, 0, 0, 0, 0, 0, 0, 0] && LE(9, 4) == [9, 0, 0, 0]
  {
    assert LE(0, 1) == [0] && LE(0, 2) == [0, 0] && LE(0, 3) == [0, 0, 0];
    assert LE(0, 4) == [0] + LE(0, 3) && LE(0, 5) == [0] + LE(0, 4) && LE(0, 6) == [0] + LE(0, 5);
    assert LE(0, 7) == [0] + LE(0, 6) && LE(7, 8) == [7] + LE(0, 7) && LE(9, 4) == [9] + LE(0, 3);
  }

  /** The frame of one event, byte by byte: length, number, task. */
  lemma BudgetExhaustedFrame()
    ensures Encodable(BudgetExhausted(7))
    ensures Frame(BudgetExhausted(7)) == [9, 0, 0, 0, 16, 7, 0, 0, 0, 0, 0, 0, 0]
  {
    assert Fits(U64, Num(7));
    var e := BudgetExhausted(7);
    PutAllOne(Shape(16), Fields(e));
    SmallIntegers();
    assert Payload(e) == [16] + LE(7, 8);
    assert Frame(e) == LE(9, 4) + ([16] + LE(7, 8));
  }

  /** Option markers and the numbers of wake sources, poll results and unpark reasons. */
  lemma MarkersAreStable()
    ensures forall t :: Fits(OptStr, MaybeText(t)) ==> Put(OptStr, MaybeText(t))[0] == if t.None? then 0 else 1
    ensures forall m :: Fits(OptU64, MaybeNum(m)) ==> Put(OptU64, MaybeNum(m))[0] == if m.None? then 0 else 1
    ensures forall w :: Fits(Source, By(w)) ==>
              Put(Source, By(w))[0] == if w.Io? then 0 else if w.Timer? then 1 else if w.FromTask? then 2 else if w.Channel? then 3 else 4
    ensures ResultCode(Ready) == 0 && ResultCode(PollResult.Pending) == 1 && ResultCode(PollResult.Panicked) == 2
    ensures ReasonCode(ByTask) == 0 && ReasonCode(ByShutdown) == 1 && ReasonCode(BySteal) == 2 && ReasonCode(ByEvent) == 3
  {
  }
}
