/** Length-prefixed event frames: the encoder of the runtime against the incremental decoder of
    the console. */
module FrameCodec {
  import opened Options
  import opened Wire
  import opened Events
  import opened Framing

  // ----- Payloads -----

  function PutAll(ks: seq<Kind>, vs: seq<Value>): bytes
    requires FitAll(ks, vs)
  {
    if ks == [] then [] else Put(ks[0], vs[0]) + PutAll(ks[1..], vs[1..])
  }

  function GetAll(ks: seq<Kind>, s: bytes): Parsed<seq<Value>> {
    if ks == [] then Got([], s)
    else match Get(ks[0], s)
      case Bad(e) => Bad(e)
      case Got(v, rest) =>
        match GetAll(ks[1..], rest)
        case Bad(e) => Bad(e)
        case Got(vs, rest') => Got([v] + vs, rest')
  }

  function Payload(e: Event): bytes
    requires Encodable(e)
  {
    [Tag(e)] + PutAll(Shape(Tag(e)), Fields(e))
  }

  /** `decode_payload`: the tag, its fields in order, and then nothing. */
  function Decode(s: bytes): Result<Event> {
    match GetByte(s)
    case Bad(e) => Err(e)
    case Got(tag, rest) =>
      if tag >= 18 then Err(UnknownTag(tag))
      else match GetAll(Shape(tag), rest)
        case Bad(e) => Err(e)
        case Got(vs, left) =>
          GetAllFits(Shape(tag), rest);
          if left == [] then Ok(Build(tag, vs)) else Err(TrailingBytes(tag, |left|))
  }

  lemma {:induction false} GetAllFits(ks: seq<Kind>, s: bytes)
    ensures GetAll(ks, s).Got? ==>
              FitAll(ks, GetAll(ks, s).value) && s == PutAll(ks, GetAll(ks, s).value) + GetAll(ks, s).rest
  {
    if ks != [] && GetAll(ks, s).Got? {
      FieldWrites(ks[0], s);
      var rest := Get(ks[0], s).rest;
      GetAllFits(ks[1..], rest);
      var vs := GetAll(ks, s).value;
      assert vs[1..] == GetAll(ks[1..], rest).value;
      forall i | 0 <= i < |ks| ensures Fits(ks[i], vs[i]) {
        if i > 0 { assert Fits(ks[1..][i - 1], vs[1..][i - 1]); }
      }
    }
  }

  lemma {:induction false} PutAllReads(ks: seq<Kind>, vs: seq<Value>, rest: bytes)
    requires FitAll(ks, vs)
    ensures GetAll(ks, PutAll(ks, vs) + rest) == Got(vs, rest)
  {
    if ks == [] {
      assert PutAll(ks, vs) + rest == rest;
    } else {
      var more := PutAll(ks[1..], vs[1..]) + rest;
      assert PutAll(ks, vs) + rest == Put(ks[0], vs[0]) + more;
      FieldReads(ks[0], vs[0], more);
      PutAllReads(ks[1..], vs[1..], rest);
      assert [vs[0]] + vs[1..] == vs;
    }
  }

  /** Decoding an encoded event gives it back. */
  lemma PayloadDecodes(e: Event)
    requires Encodable(e)
    ensures Decode(Payload(e)) == Ok(e)
  {
    var body := PutAll(Shape(Tag(e)), Fields(e));
    assert Payload(e)[1..] == body && body + [] == body;
    PutAllReads(Shape(Tag(e)), Fields(e), []);
    BuildUndoesFields(e);
  }

  /** Whatever the console accepts is byte for byte what the runtime would have sent. */
  lemma AcceptedIsCanonical(s: bytes)
    requires Decode(s).Ok?
    ensures Encodable(Decode(s).value) && Payload(Decode(s).value) == s
  {
    var tag := s[0];
    GetAllFits(Shape(tag), s[1..]);
    var vs := GetAll(Shape(tag), s[1..]).value;
    FieldsUndoBuild(tag, vs);
    assert s == [tag] + s[1..];
  }

  // ----- Frames and streams -----

  function Frame(e: Event): bytes
    requires Encodable(e) && |Payload(e)| < U32_BOUND
  {
    LE(|Payload(e)|, 4) + Payload(e)
  }

  /** The events the console is willing to read: encodable, and a payload of at most 16 MiB. */
  predicate Sendable(e: Event) { Encodable(e) && |Payload(e)| <= MAX_FRAME_SIZE }

  predicate AllSendable(es: seq<Event>) { forall i :: 0 <= i < |es| ==> Sendable(es[i]) }

  function Stream(es: seq<Event>): bytes
    requires AllSendable(es)
  {
    if es == [] then [] else Frame(es[0]) + Stream(es[1..])
  }

  lemma FrameFront(e: Event, rest: bytes)
    requires Sendable(e)
    ensures FrontOf(Frame(e) + rest) == Whole(Payload(e), rest)
  {
    var p, s := Payload(e), Frame(e) + rest;
    Bounds();
    LEDecodes(|p|, 4);
    assert s[..4] == LE(|p|, 4) && s[4..4 + |p|] == p && s[4 + |p|..] == rest;
  }

  /** The console refuses a frame the runtime sends exactly when its payload exceeds 16 MiB. */
  lemma RefusedIff(e: Event, rest: bytes)
    requires Encodable(e) && |Payload(e)| < U32_BOUND
    ensures FrontOf(Frame(e) + rest).TooLarge? <==> |Payload(e)| > MAX_FRAME_SIZE
    ensures |Payload(e)| > MAX_FRAME_SIZE ==>
              Drain(Decode, Frame(e) + rest) == Scan([], Frame(e) + rest, Some(FrameTooLarge(|Payload(e)|)))
  {
    var p, s := Payload(e), Frame(e) + rest;
    Bounds();
    LEDecodes(|p|, 4);
    assert s[..4] == LE(|p|, 4);
  }

  /** Draining an encoded stream gives exactly its events. */
  lemma {:induction false} StreamDrains(es: seq<Event>)
    requires AllSendable(es)
    ensures Drain(Decode, Stream(es)) == Scan(es, [], None)
  {
    if es != [] {
      FrameFront(es[0], Stream(es[1..]));
      PayloadDecodes(es[0]);
      DrainWhole(Decode, Stream(es), es[0]);
      StreamDrains(es[1..]);
      assert [es[0]] + es[1..] == es;
    }
  }

  /** The round trip of the whole protocol: any chunking of the encoded events decodes to exactly
      those events, and nothing is left over, so the decoder finishes cleanly. */
  lemma StreamRoundTrip(es: seq<Event>, chunks: seq<bytes>)
    requires AllSendable(es) && Concat(chunks) == Stream(es)
    ensures Feed(Decode, [], chunks) == Scan(es, [], None)
  {
    assert [] + Concat(chunks) == Stream(es);
    ChunkingIsIrrelevant(Decode, [], chunks);
    StreamDrains(es);
  }
}
