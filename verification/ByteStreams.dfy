/** Byte streams under arbitrary partial progress: `BufReader` and `BufWriter` over ends that may hold
    back, fail, or move any number of bytes at each poll. */
module ByteStreams {

  type byte = b: int | 0 <= b < 256

  /** A poll that moves bytes; `Failed` is an error, `Stalled` the error for a write that moved nothing. */
  datatype Progress = Pending | Moved(count: nat) | Failed

  datatype Completion = NotYet | Completed | Broken | Stalled

  /** A reader known by its contract alone: `rest` is what will come, `consumed` what was read; `waits`
      and `errors` count the polls that held back and that failed. */
  class Source {
    var rest: seq<byte>
    ghost var consumed: seq<byte>
    ghost var waits: nat
    ghost var errors: nat

    constructor (stream: seq<byte>)
      ensures rest == stream && consumed == [] && waits == errors == 0
    {
      rest, consumed, waits, errors := stream, [], 0, 0;
    }

    method PollRead(buf: array<byte>) returns (r: Progress)
      modifies this, buf
      ensures r.Moved? ==>
                && r.count <= buf.Length && r.count <= |old(rest)|
                && buf[..r.count] == old(rest)[..r.count]
                && consumed == old(consumed) + old(rest)[..r.count] && rest == old(rest)[r.count..]
      ensures !r.Moved? ==> consumed == old(consumed) && rest == old(rest)
      ensures waits == old(waits) + (if r.Pending? then 1 else 0)
      ensures errors == old(errors) + (if r.Failed? then 1 else 0)
    {
      if * {
        waits := waits + 1;
        return Pending;
      }
      if * {
        errors := errors + 1;
        return Failed;
      }
      var n: nat :| n <= buf.Length && n <= |rest|;
      for i := 0 to n
        invariant rest == old(rest) && consumed == old(consumed) && waits == old(waits) && errors == old(errors)
        invariant buf[..i] == rest[..i]
      {
        buf[i] := rest[i];
      }
      consumed := consumed + rest[..n];
      rest := rest[n..];
      r := Moved(n);
    }
  }

  /** A writer known by its contract alone: `written` is what it took, `flushed` how much of that it has
      reported flushed, `shutdowns` how often it was shut down; `waits`, `errors` and `stalls` count the
      calls that held back, that failed, and the writes of something that took nothing. */
  class Sink {
    ghost var written: seq<byte>
    ghost var flushed: nat
    ghost var shutdowns: nat
    ghost var waits: nat
    ghost var errors: nat
    ghost var stalls: nat

    constructor ()
      ensures written == [] && flushed == 0 && shutdowns == 0 && waits == errors == stalls == 0
    {
      written, flushed, shutdowns, waits, errors, stalls := [], 0, 0, 0, 0, 0;
    }

    method PollWrite(buf: seq<byte>) returns (r: Progress)
      modifies this`written, this`waits, this`errors, this`stalls
      ensures r.Moved? ==> r.count <= |buf| && written == old(written) + buf[..r.count]
      ensures !r.Moved? ==> written == old(written)
      ensures waits == old(waits) + (if r.Pending? then 1 else 0)
      ensures errors == old(errors) + (if r.Failed? then 1 else 0)
      ensures stalls == old(stalls) + (if r == Moved(0) && buf != [] then 1 else 0)
    {
      if * {
        waits := waits + 1;
        return Pending;
      }
      if * {
        errors := errors + 1;
        return Failed;
      }
      var n: nat :| n <= |buf|;
      written := written + buf[..n];
      if n == 0 && buf != [] { stalls := stalls + 1; }
      r := Moved(n);
    }

    method PollFlush() returns (r: Completion)
      modifies this`flushed, this`waits, this`errors
      ensures r == Completed ==> flushed == |written|
      ensures r != Completed ==> flushed == old(flushed)
      ensures waits == old(waits) + (if r == NotYet then 1 else 0)
      ensures errors == old(errors) + (if r == Broken then 1 else 0)
      ensures r != Stalled
    {
      if * {
        waits := waits + 1;
        return NotYet;
      }
      if * {
        errors := errors + 1;
        return Broken;
      }
      flushed := |written|;
      r := Completed;
    }

    method PollShutdown() returns (r: Completion)
      modifies this`shutdowns, this`waits, this`errors
      ensures shutdowns == old(shutdowns) + (if r == Completed then 1 else 0)
      ensures waits == old(waits) + (if r == NotYet then 1 else 0)
      ensures errors == old(errors) + (if r == Broken then 1 else 0)
      ensures r != Stalled
    {
      if * {
        waits := waits + 1;
        return NotYet;
      }
      if * {
        errors := errors + 1;
        return Broken;
      }
      shutdowns := shutdowns + 1;
      r := Completed;
    }
  }

  /** `delivered` is what readers of the buffer have taken. */
  class BufReader {
    const inner: Source
    const buffer: array<byte>
    var pos: nat
    var cap: nat
    ghost var delivered: seq<byte>

    /** Everything read from the inner reader was delivered or is still in the buffer. */
    ghost predicate Valid()
      reads this, inner, buffer
    {
      && buffer.Length > 0 && pos <= cap <= buffer.Length
      && inner.consumed == delivered + buffer[pos..cap]
    }

    constructor (inner: Source, capacity: nat)
      requires capacity > 0 && inner.consumed == []
      ensures Valid() && delivered == [] && this.inner == inner && fresh(buffer)
    {
      this.inner := inner;
      buffer := new byte[capacity](_ => 0);
      pos, cap, delivered := 0, 0, [];
    }

    method FillBuf() returns (r: Progress)
      requires Valid()
      modifies this`pos, this`cap, inner, buffer
      ensures Valid() && delivered == old(delivered)
      ensures r.Moved? ==> r.count == cap - pos
      ensures r.Moved? && r.count == 0 ==> inner.consumed == old(inner.consumed) == delivered
      ensures old(pos < cap) ==> r == Moved(old(cap - pos)) && unchanged(inner) && unchanged(buffer)
      ensures !r.Moved? ==> pos == cap == old(cap) && inner.consumed == old(inner.consumed)
      ensures inner.waits == old(inner.waits) + (if r.Pending? then 1 else 0)
      ensures inner.errors == old(inner.errors) + (if r.Failed? then 1 else 0)
    {
      if pos < cap {
        return Moved(cap - pos);
      }
      r := inner.PollRead(buffer);
      if r.Moved? {
        assert inner.consumed == delivered + buffer[..r.count];
        pos := 0;
        cap := r.count;
        assert buffer[pos..cap] == buffer[..r.count];
      }
    }

    method Consume(amount: nat)
      requires Valid()
      modifies this`pos, this`delivered
      ensures Valid()
      ensures var n := if amount <= old(cap - pos) then amount else old(cap - pos);
              pos == old(pos) + n && delivered == old(delivered) + buffer[old(pos)..pos]
    {
      var next := if pos + amount <= cap then pos + amount else cap;
      assert buffer[pos..cap] == buffer[pos..next] + buffer[next..cap];
      assert delivered + (buffer[pos..next] + buffer[next..cap]) == (delivered + buffer[pos..next]) + buffer[next..cap];
      delivered := delivered + buffer[pos..next];
      pos := next;
    }

    /** Up to `limit` bytes, in the order of the stream, as many as are buffered; an error or a pending
        read takes nothing, and is reported exactly when the inner reader reported it. */
    method PollRead(limit: nat) returns (r: Progress, data: seq<byte>)
      requires Valid()
      modifies this`pos, this`cap, this`delivered, inner, buffer
      ensures Valid() && delivered == old(delivered) + data
      ensures r.Moved? ==> |data| == r.count <= limit
      ensures !r.Moved? ==> data == []
      ensures r.Moved? ==> r.count == limit || pos == cap
      ensures r == Moved(0) && limit > 0 ==> inner.consumed == delivered == old(delivered)
      ensures inner.waits == old(inner.waits) + (if r.Pending? then 1 else 0)
      ensures inner.errors == old(inner.errors) + (if r.Failed? then 1 else 0)
    {
      data := [];
      if limit == 0 {
        return Moved(0), [];
      }
      r := FillBuf();
      if !r.Moved? {
        return;
      }
      var amount := if r.count <= limit then r.count else limit;
      data := buffer[pos..pos + amount];
      Consume(amount);
      r := Moved(amount);
    }
  }

  /** `accepted` is every byte a write reported as taken. */
  class BufWriter {
    const inner: Sink
    var buffer: seq<byte>
    var pos: nat
    const capacity: nat
    ghost var accepted: seq<byte>

    /** Everything accepted was given to the inner writer or waits in the buffer, in order. */
    ghost predicate Valid()
      reads this, inner
    {
      && capacity > 0 && pos <= |buffer| <= capacity
      && accepted == inner.written + buffer[pos..]
    }

    constructor (inner: Sink, capacity: nat)
      requires capacity > 0 && inner.written == []
      ensures Valid() && accepted == [] && this.inner == inner && this.capacity == capacity
    {
      this.inner, this.capacity := inner, capacity;
      buffer, pos, accepted := [], 0, [];
    }

    method Compact()
      requires Valid()
      modifies this`buffer, this`pos
      ensures Valid() && pos == 0 && buffer == old(buffer[pos..])
    {
      if pos > 0 {
        buffer := buffer[pos..];
        pos := 0;
      }
    }

    method PollFlush() returns (r: Completion)
      requires Valid()
      modifies this`buffer, this`pos, inner`written, inner`flushed, inner`waits, inner`errors, inner`stalls
      ensures Valid() && accepted == old(accepted)
      ensures old(inner.written) <= inner.written
      ensures r == Completed ==> buffer == [] && inner.written == accepted && inner.flushed == |accepted|
      ensures inner.waits == old(inner.waits) + (if r == NotYet then 1 else 0)
      ensures inner.errors == old(inner.errors) + (if r == Broken then 1 else 0)
      ensures inner.stalls == old(inner.stalls) + (if r == Stalled then 1 else 0)
    {
      while pos < |buffer|
        invariant Valid() && accepted == old(accepted) && old(inner.written) <= inner.written
        invariant inner.waits == old(inner.waits) && inner.errors == old(inner.errors) && inner.stalls == old(inner.stalls)
        decreases |buffer| - pos
      {
        var step := inner.PollWrite(buffer[pos..]);
        match step {
          case Pending => return NotYet;
          case Failed => return Broken;
          case Moved(n) =>
            if n == 0 {
              return Stalled;
            }
            assert buffer[pos..] == buffer[pos..][..n] + buffer[pos + n..];
            pos := pos + n;
        }
      }
      buffer := [];
      pos := 0;
      r := inner.PollFlush();
    }

    /** A write takes a prefix of `buf`: into the buffer as much as fits, or past an empty buffer what the
        inner writer takes. It holds back or fails exactly when the inner writer did. */
    method PollWrite(buf: seq<byte>) returns (r: Progress)
      requires Valid()
      modifies this, inner`written, inner`flushed, inner`waits, inner`errors, inner`stalls
      ensures Valid() && old(inner.written) <= inner.written
      ensures r.Moved? ==> r.count <= |buf| && accepted == old(accepted) + buf[..r.count]
      ensures !r.Moved? ==> accepted == old(accepted)
      ensures r.Moved? && r.count < |buf| ==> |buffer| == capacity || (buffer == [] && |buf| >= capacity)
      ensures r == Moved(0) && buf != [] ==> buffer == [] && |buf| >= capacity
      ensures inner.waits == old(inner.waits) + (if r.Pending? then 1 else 0)
      ensures r.Failed? ==> inner.errors + inner.stalls == old(inner.errors + inner.stalls) + 1
      ensures inner.errors > old(inner.errors) ==> r.Failed?
    {
      if buf == [] {
        return Moved(0);
      }
      Compact();
      if |buffer| == capacity {
        var flush := PollFlush();
        match flush {
          case NotYet => return Pending;
          case Completed =>
          case Broken => return Failed;
          case Stalled => return Failed;
        }
      }
      if buffer == [] && |buf| >= capacity {
        r := inner.PollWrite(buf);
        if r.Moved? {
          accepted := accepted + buf[..r.count];
        }
        return;
      }
      var amount := Append(buf);
      r := Moved(amount);
    }

    /** As much as fits goes behind what is buffered. */
    method Append(buf: seq<byte>) returns (amount: nat)
      requires Valid() && pos == 0
      modifies this`buffer, this`accepted
      ensures Valid() && amount == (if |buf| <= capacity - old(|buffer|) then |buf| else capacity - old(|buffer|))
      ensures accepted == old(accepted) + buf[..amount] && |buffer| == old(|buffer|) + amount
    {
      amount := if |buf| <= capacity - |buffer| then |buf| else capacity - |buffer|;
      assert inner.written + (buffer + buf[..amount]) == (inner.written + buffer) + buf[..amount];
      buffer := buffer + buf[..amount];
      accepted := accepted + buf[..amount];
    }

    /** The inner writer is shut down only after it was given every accepted byte and flushed. Holding back
        and failing are the inner writer's. */
    method PollShutdown() returns (r: Completion)
      requires Valid()
      modifies this`buffer, this`pos, inner
      ensures Valid() && accepted == old(accepted) && old(inner.written) <= inner.written
      ensures inner.shutdowns == old(inner.shutdowns) + (if r == Completed then 1 else 0)
      ensures r == Completed ==> inner.written == accepted && inner.flushed == |accepted|
      ensures inner.waits == old(inner.waits) + (if r == NotYet then 1 else 0)
      ensures inner.errors == old(inner.errors) + (if r == Broken then 1 else 0)
      ensures inner.stalls == old(inner.stalls) + (if r == Stalled then 1 else 0)
    {
      r := PollFlush();
      if r == Completed {
        r := inner.PollShutdown();
      }
    }
  }
}
