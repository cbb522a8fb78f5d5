/** Splitting a byte stream into length-prefixed frames, for any payload decoder. */
module Framing {
  import opened Options
  import opened Wire

  const MAX_FRAME_SIZE: nat := 16 * 1024 * 1024

  datatype Result<+T> = Ok(value: T) | Err(error: DecodeError)

  /** What the front of a buffer is: not yet a frame, a frame that is refused, or a whole frame. */
  datatype Front = Incomplete | TooLarge(size: nat) | Whole(payload: bytes, rest: bytes)

  function FrontOf(buf: bytes): (f: Front)
    ensures f.Whole? ==> |f.rest| < |buf|
  {
    if |buf| < 4 then Incomplete
    else
      var size := FromLE(buf[..4]);
      if size > MAX_FRAME_SIZE then TooLarge(size)
      else if |buf| < 4 + size then Incomplete
      else Whole(buf[4..4 + size], buf[4 + size..])
  }

  /** The complete frames at the front of a buffer, what is left, and the error that stopped the scan. */
  datatype Scan<E> = Scan(events: seq<E>, rest: bytes, error: Option<DecodeError>)

  function Drain<E>(decode: bytes -> Result<E>, buf: bytes): Scan<E>
    decreases |buf|
  {
    match FrontOf(buf)
    case Incomplete => Scan([], buf, None)
    case TooLarge(size) => Scan([], buf, Some(FrameTooLarge(size)))
    case Whole(payload, rest) =>
      match decode(payload)
      case Err(e) => Scan([], rest, Some(e))
      case Ok(ev) =>
        var more := Drain(decode, rest);
        Scan([ev] + more.events, more.rest, more.error)
  }

  /** Bytes that arrive later do not change what the front already is. */
  lemma FrontIsStable(a: bytes, b: bytes)
    ensures FrontOf(a).TooLarge? ==> FrontOf(a + b) == FrontOf(a)
    ensures FrontOf(a).Whole? ==> FrontOf(a + b) == Whole(FrontOf(a).payload, FrontOf(a).rest + b)
  {
    if |a| >= 4 {
      assert (a + b)[..4] == a[..4];
      var size := FromLE(a[..4]);
      if 4 + size <= |a| {
        assert (a + b)[4..4 + size] == a[4..4 + size];
        assert (a + b)[4 + size..] == a[4 + size..] + b;
      }
    }
  }

  /** A scan that goes on where another one, without an error, stopped. */
  function Join<E>(first: Scan<E>, more: Scan<E>): Scan<E> { Scan(first.events + more.events, more.rest, more.error) }

  function Prepend<E>(ev: E, scan: Scan<E>): Scan<E> { scan.(events := [ev] + scan.events) }

  lemma JoinPrepend<E>(ev: E, first: Scan<E>, more: Scan<E>)
    ensures Join(Prepend(ev, first), more) == Prepend(ev, Join(first, more))
  {
    assert [ev] + (first.events + more.events) == ([ev] + first.events) + more.events;
  }

  ghost predicate InTwo<E>(decode: bytes -> Result<E>, a: bytes, b: bytes) {
    var first, both := Drain(decode, a), Drain(decode, a + b);
    if first.error.Some? then both.error == first.error && both.events == first.events
    else both == Join(first, Drain(decode, first.rest + b))
  }

  /** Scanning a prefix first changes nothing: its leftover joins what follows. An error found in the
      prefix is the error of the whole. */
  lemma {:induction false} DrainInTwo<E>(decode: bytes -> Result<E>, a: bytes, b: bytes)
    ensures InTwo(decode, a, b)
    decreases |a|
  {
    FrontIsStable(a, b);
    match FrontOf(a) {
      case Incomplete =>
        assert [] + Drain(decode, a + b).events == Drain(decode, a + b).events;
      case TooLarge(_) =>
      case Whole(payload, rest) =>
        if decode(payload).Ok? {
          DrainInTwo(decode, rest, b);
          FrameThenTwo(decode, a, b);
        }
    }
  }

  lemma FrameThenTwo<E>(decode: bytes -> Result<E>, a: bytes, b: bytes)
    requires FrontOf(a).Whole? && decode(FrontOf(a).payload).Ok? && InTwo(decode, FrontOf(a).rest, b)
    ensures InTwo(decode, a, b)
  {
    var ev, rest := decode(FrontOf(a).payload).value, FrontOf(a).rest;
    FrontIsStable(a, b);
    DrainWhole(decode, a, ev);
    DrainWhole(decode, a + b, ev);
    JoinPrepend(ev, Drain(decode, rest), Drain(decode, Drain(decode, rest).rest + b));
  }

  /** A whole frame in front is decoded and the rest drained. */
  lemma DrainWhole<E>(decode: bytes -> Result<E>, buf: bytes, ev: E)
    requires FrontOf(buf).Whole? && decode(FrontOf(buf).payload) == Ok(ev)
    ensures Drain(decode, buf) == Prepend(ev, Drain(decode, FrontOf(buf).rest))
  {
  }

  /** A leftover holds no complete frame. */
  lemma {:induction false} LeftoverIsQuiet<E>(decode: bytes -> Result<E>, buf: bytes)
    requires Drain(decode, buf).error.None?
    ensures Drain(decode, Drain(decode, buf).rest) == Scan([], Drain(decode, buf).rest, None)
    decreases |buf|
  {
    if FrontOf(buf).Whole? { LeftoverIsQuiet(decode, FrontOf(buf).rest); }
  }

  function Concat(chunks: seq<bytes>): bytes {
    if chunks == [] then [] else chunks[0] + Concat(chunks[1..])
  }

  /** Pushing chunk after chunk, stopping at the first error as the console does. */
  function Feed<E>(decode: bytes -> Result<E>, buf: bytes, chunks: seq<bytes>): Scan<E>
    decreases |chunks|
  {
    if chunks == [] then Scan([], buf, None)
    else
      var first := Drain(decode, buf + chunks[0]);
      if first.error.Some? then Scan([], first.rest, first.error)
      else
        var more := Feed(decode, first.rest, chunks[1..]);
        Scan(first.events + more.events, more.rest, more.error)
  }

  /** However a byte stream is cut into chunks, feeding it fails with the error of the whole stream,
      or else yields the events of the whole stream and the same leftover. */
  lemma {:induction false} ChunkingIsIrrelevant<E>(decode: bytes -> Result<E>, buf: bytes, chunks: seq<bytes>)
    requires Drain(decode, buf) == Scan([], buf, None)
    ensures Feed(decode, buf, chunks).error == Drain(decode, buf + Concat(chunks)).error
    ensures Feed(decode, buf, chunks).error.None? ==> Feed(decode, buf, chunks) == Drain(decode, buf + Concat(chunks))
    decreases |chunks|
  {
    if chunks == [] {
      assert buf + Concat(chunks) == buf;
    } else {
      var c, tail := chunks[0], Concat(chunks[1..]);
      assert buf + Concat(chunks) == (buf + c) + tail;
      DrainInTwo(decode, buf + c, tail);
      if Drain(decode, buf + c).error.None? {
        LeftoverIsQuiet(decode, buf + c);
        ChunkingIsIrrelevant(decode, Drain(decode, buf + c).rest, chunks[1..]);
      }
    }
  }

  /** The chunk whose push fails: the first one with which the bytes so far hold an error. */
  ghost predicate FailsAt<E>(decode: bytes -> Result<E>, buf: bytes, chunks: seq<bytes>, j: nat) {
    && j < |chunks|
    && Drain(decode, buf + Concat(chunks[..j])).error.None?
    && Drain(decode, buf + Concat(chunks[..j + 1])).error.Some?
  }

  /** When a feed fails, the events that arrived are exactly those of the bytes before the failing
      chunk: the push that fails drops the events it decoded itself. */
  lemma {:induction false} FailureDelivers<E>(decode: bytes -> Result<E>, buf: bytes, chunks: seq<bytes>)
    requires Drain(decode, buf) == Scan([], buf, None)
    ensures Feed(decode, buf, chunks).error.Some? ==>
              exists j: nat :: FailsAt(decode, buf, chunks, j) &&
                Feed(decode, buf, chunks).events == Drain(decode, buf + Concat(chunks[..j])).events
    decreases |chunks|
  {
    if chunks != [] && Feed(decode, buf, chunks).error.Some? {
      var c, more := chunks[0], chunks[1..];
      var first := Drain(decode, buf + c);
      if first.error.Some? {
        assert buf + Concat(chunks[..0]) == buf;
        assert chunks[..1] == [c] && Concat([c]) == c + [] == c;
        assert FailsAt(decode, buf, chunks, 0);
      } else {
        LeftoverIsQuiet(decode, buf + c);
        FailureDelivers(decode, first.rest, more);
        var j: nat :| FailsAt(decode, first.rest, more, j) &&
                 Feed(decode, first.rest, more).events == Drain(decode, first.rest + Concat(more[..j])).events;
        PrefixInTwo(decode, buf, chunks, j);
        PrefixInTwo(decode, buf, chunks, j + 1);
        assert FailsAt(decode, buf, chunks, j + 1);
      }
    }
  }

  lemma PrefixInTwo<E>(decode: bytes -> Result<E>, buf: bytes, chunks: seq<bytes>, j: nat)
    requires j < |chunks| && Drain(decode, buf + chunks[0]).error.None?
    ensures var first := Drain(decode, buf + chunks[0]);
            Drain(decode, buf + Concat(chunks[..j + 1])) == Join(first, Drain(decode, first.rest + Concat(chunks[1..][..j])))
  {
    var c := chunks[0];
    assert chunks[..j + 1][1..] == chunks[1..][..j];
    assert buf + Concat(chunks[..j + 1]) == (buf + c) + Concat(chunks[1..][..j]);
    DrainInTwo(decode, buf + c, Concat(chunks[1..][..j]));
  }

  /** The console's decoder; `decode` is fixed at creation. */
  class FrameDecoder<E> {
    const decode: bytes -> Result<E>
    var buffer: bytes

    constructor (decode: bytes -> Result<E>)
      ensures this.decode == decode && buffer == []
    {
      this.decode := decode;
      buffer := [];
    }

    /** An error drops the events decoded by the same call. */
    method Push(chunk: bytes) returns (r: Result<seq<E>>)
      modifies this
      ensures var scan := Drain(decode, old(buffer) + chunk);
              buffer == scan.rest && r == if scan.error.Some? then Err(scan.error.value) else Ok(scan.events)
    {
      buffer := buffer + chunk;
      ghost var whole := Drain(decode, buffer);
      var events: seq<E> := [];
      while true
        invariant Drain(decode, buffer).rest == whole.rest && Drain(decode, buffer).error == whole.error
        invariant events + Drain(decode, buffer).events == whole.events
        decreases |buffer|
      {
        if |buffer| < 4 { break; }
        var size := FromLE(buffer[..4]);
        if size > MAX_FRAME_SIZE { return Err(FrameTooLarge(size)); }
        var frameSize := 4 + size;
        if |buffer| < frameSize { break; }
        var payload := buffer[4..frameSize];
        buffer := buffer[frameSize..];
        match decode(payload) {
          case Err(e) => return Err(e);
          case Ok(ev) =>
            assert events + ([ev] + Drain(decode, buffer).events) == (events + [ev]) + Drain(decode, buffer).events;
            events := events + [ev];
        }
      }
      assert events + [] == events;
      r := Ok(events);
    }

    /** A clean close is valid only between complete frames. */
    method Finish() returns (r: Result<()>)
      ensures r.Ok? <==> buffer == []
      ensures r.Err? ==> r.error == Truncated
    {
      r := if buffer == [] then Ok(()) else Err(Truncated);
    }
  }
}
