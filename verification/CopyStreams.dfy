/** `copy_bidirectional`: two directions, each moving bytes from a reader to a writer through its own
    buffer, polled in turn. */
module CopyStreams {
  import opened ByteStreams

  datatype DirectionPoll = Waits | Done | Fails

  datatype CopyPoll = CopyPending | Copied(leftToRight: nat, rightToLeft: nat) | CopyFailed

  /** The first `n` bytes of the buffered chunk go to the end of what was written. */
  lemma BytesMove(read: seq<byte>, written: seq<byte>, from: nat, chunk: seq<byte>, n: nat)
    requires from <= |written| && read == written[from..] + chunk && n <= |chunk|
    ensures read == (written + chunk[..n])[from..] + chunk[n..]
  {
    assert (written + chunk[..n])[from..] == written[from..] + chunk[..n];
    assert chunk == chunk[..n] + chunk[n..];
  }

  /** One direction. `read0`, `written0` and `shut0` are where its two ends stood at the start. */
  class DirectionState {
    const buffer: array<byte>
    var filled: nat
    var pos: nat
    var eof: bool
    var copied: nat
    var dstShutdown: bool
    ghost const src: Source
    ghost const dst: Sink
    ghost const read0: nat
    ghost const written0: nat
    ghost const shut0: nat

    /** What was read is what was written followed by what is in the buffer; the count is exact; the
        writer was shut down at most once, at the end of the stream with nothing left to write. */
    ghost predicate Valid()
      reads this, buffer, src, dst
    {
      && buffer.Length > 0 && pos <= filled <= buffer.Length
      && read0 <= |src.consumed| && written0 <= |dst.written|
      && src.consumed[read0..] == dst.written[written0..] + buffer[pos..filled]
      && copied == |dst.written| - written0
      && (eof ==> pos == filled)
      && (dstShutdown ==> eof)
      && dst.shutdowns == shut0 + (if dstShutdown then 1 else 0)
    }

    constructor (src: Source, dst: Sink)
      ensures Valid() && this.src == src && this.dst == dst && fresh(buffer)
      ensures read0 == |src.consumed| && written0 == |dst.written| && shut0 == dst.shutdowns
      ensures copied == 0
    {
      this.src, this.dst, read0, written0, shut0 := src, dst, |src.consumed|, |dst.written|, dst.shutdowns;
      buffer := new byte[8192](_ => 0);
      filled, pos, eof, copied, dstShutdown := 0, 0, false, 0, false;
    }

    /** Every byte read so far has been written, the count says so, and the writer is shut down. */
    ghost predicate Complete()
      reads this, buffer, src, dst
    {
      Valid() && dstShutdown && src.consumed[read0..] == dst.written[written0..] && copied == |src.consumed| - read0
    }

    method WriteSome(to: Sink) returns (step: Progress)
      requires Valid() && to == dst && pos < filled
      modifies this`pos, this`copied, dst`written, dst`waits, dst`errors, dst`stalls
      ensures dst.waits == old(dst.waits) + (if step.Pending? then 1 else 0)
      ensures dst.errors == old(dst.errors) + (if step.Failed? then 1 else 0)
      ensures dst.stalls == old(dst.stalls) + (if step == Moved(0) then 1 else 0)
      ensures Valid() && pos >= old(pos) && old(dst.written) <= dst.written
      ensures step.Moved? ==> pos == old(pos) + step.count
      ensures !step.Moved? ==> pos == old(pos) && dst.written == old(dst.written)
    {
      ghost var chunk := buffer[pos..filled];
      step := to.PollWrite(buffer[pos..filled]);
      if step.Moved? {
        var n := step.count;
        assert chunk[n..] == buffer[pos + n..filled];
        BytesMove(src.consumed[read0..], old(dst.written), written0, chunk, n);
        pos := pos + n;
        copied := copied + n;
      }
    }

    method ReadSome(from: Source) returns (step: Progress)
      requires Valid() && from == src && pos == filled && !eof
      modifies this`pos, this`filled, this`eof, src, buffer
      ensures src.waits == old(src.waits) + (if step.Pending? then 1 else 0)
      ensures src.errors == old(src.errors) + (if step.Failed? then 1 else 0)
      ensures Valid() && old(src.consumed) <= src.consumed
      ensures step.Moved? ==> pos == 0 && filled == step.count && (eof <==> filled == 0) && |src.rest| + filled == |old(src.rest)|
      ensures !step.Moved? ==> pos == old(pos) && filled == old(filled) && !eof && src.consumed == old(src.consumed)
    {
      step := from.PollRead(buffer);
      if step.Moved? {
        assert src.consumed[read0..] == old(src.consumed)[read0..] + buffer[..step.count];
        filled := step.count;
        pos := 0;
        assert buffer[pos..filled] == buffer[..step.count];
        if filled == 0 { eof := true; }
      }
    }

    /** Calls of the two ends that held back, and that failed or, for a write, took nothing. */
    ghost function Waited(): nat
      reads src, dst
    {
      src.waits + dst.waits
    }

    ghost function Broke(): nat
      reads src, dst
    {
      src.errors + dst.errors + dst.stalls
    }

    /** At the end of the stream, with nothing left to write, the writer is shut down once. */
    method Finish(to: Sink) returns (r: DirectionPoll)
      requires Valid() && to == dst && eof
      modifies this`dstShutdown, dst`shutdowns, dst`waits, dst`errors
      ensures Valid() && dst.written == old(dst.written)
      ensures r == Done <==> dstShutdown
      ensures old(dstShutdown) ==> dstShutdown
      ensures Waited() == old(Waited()) + (if r == Waits then 1 else 0)
      ensures Broke() == old(Broke()) + (if r == Fails then 1 else 0)
    {
      if !dstShutdown {
        var shut := to.PollShutdown();
        match shut {
          case NotYet => return Waits;
          case Completed => dstShutdown := true;
          case _ => return Fails;
        }
      }
      r := Done;
    }

    /** `poll_direction`: write what is buffered, then read more, then shut the writer down. It waits
        exactly when one of the ends held back, and fails exactly when one failed or took nothing. */
    method PollDirection(from: Source, to: Sink) returns (r: DirectionPoll)
      requires Valid() && from == src && to == dst
      modifies this, src, buffer, dst`written, dst`shutdowns, dst`waits, dst`errors, dst`stalls
      ensures Waited() == old(Waited()) + (if r == Waits then 1 else 0)
      ensures Broke() == old(Broke()) + (if r == Fails then 1 else 0)
      ensures Valid() && old(src.consumed) <= src.consumed && old(dst.written) <= dst.written
      ensures r == Done <==> dstShutdown
      ensures r == Done ==> Complete()
      ensures dst.shutdowns > old(dst.shutdowns) ==> Complete()
      ensures old(dstShutdown) ==> dstShutdown && r == Done && copied == old(copied)
    {
      while true
        invariant Valid() && old(src.consumed) <= src.consumed && old(dst.written) <= dst.written
        invariant dstShutdown == old(dstShutdown) && dst.shutdowns == old(dst.shutdowns)
        invariant Waited() == old(Waited()) && Broke() == old(Broke())
        invariant old(dstShutdown) ==> copied == old(copied)
        decreases |src.rest|, !eof, filled - pos
      {
        if pos < filled {
          var step := WriteSome(to);
          match step {
            case Pending => return Waits;
            case Failed => return Fails;
            case Moved(n) => if n == 0 { return Fails; }
          }
          continue;
        }
        if eof {
          r := Finish(to);
          return;
        }
        var step := ReadSome(from);
        match step {
          case Pending => return Waits;
          case Failed => return Fails;
          case Moved(_) =>
        }
      }
    }
  }

  /** Both directions; the four ends and the two buffers are distinct objects. */
  class CopyBidirectional {
    const leftIn: Source
    const leftOut: Sink
    const rightIn: Source
    const rightOut: Sink
    const leftToRight: DirectionState
    const rightToLeft: DirectionState

    ghost predicate Valid()
      reads this, leftIn, leftOut, rightIn, rightOut, leftToRight, rightToLeft, leftToRight.buffer, rightToLeft.buffer
    {
      && leftToRight != rightToLeft && leftToRight.buffer != rightToLeft.buffer
      && leftIn != rightIn && leftOut != rightOut
      && leftToRight.src == leftIn && leftToRight.dst == rightOut
      && rightToLeft.src == rightIn && rightToLeft.dst == leftOut
      && leftToRight.Valid() && rightToLeft.Valid()
    }

    constructor (leftIn: Source, leftOut: Sink, rightIn: Source, rightOut: Sink)
      requires leftIn != rightIn && leftOut != rightOut
      ensures Valid()
      ensures leftToRight.copied == 0 && rightToLeft.copied == 0
    {
      this.leftIn, this.leftOut, this.rightIn, this.rightOut := leftIn, leftOut, rightIn, rightOut;
      leftToRight := new DirectionState(leftIn, rightOut);
      rightToLeft := new DirectionState(rightIn, leftOut);
    }

    /** The first direction is polled, then the second; the result comes when both are complete. It fails
        exactly when an end failed or a writer took nothing, and waits exactly when neither that nor both
        are complete. */
    method Poll() returns (r: CopyPoll)
      requires Valid()
      modifies leftToRight, leftToRight.buffer, rightToLeft, rightToLeft.buffer
      modifies leftIn, rightIn
      modifies leftOut`written, leftOut`shutdowns, leftOut`waits, leftOut`errors, leftOut`stalls
      modifies rightOut`written, rightOut`shutdowns, rightOut`waits, rightOut`errors, rightOut`stalls
      ensures leftToRight.Broke() + rightToLeft.Broke() ==
              old(leftToRight.Broke() + rightToLeft.Broke()) + (if r == CopyFailed then 1 else 0)
      ensures r == CopyPending ==> leftToRight.Waited() + rightToLeft.Waited() > old(leftToRight.Waited() + rightToLeft.Waited())
      ensures r.Copied? ==> leftToRight.Waited() + rightToLeft.Waited() == old(leftToRight.Waited() + rightToLeft.Waited())
      ensures Valid()
      ensures r.Copied? ==> leftToRight.Complete() && rightToLeft.Complete()
      ensures r.Copied? ==> r.leftToRight == leftToRight.copied && r.rightToLeft == rightToLeft.copied
      ensures r == CopyPending ==> !(leftToRight.dstShutdown && rightToLeft.dstShutdown)
    {
      var first := leftToRight.PollDirection(leftIn, rightOut);
      if first == Fails { return CopyFailed; }
      var second := rightToLeft.PollDirection(rightIn, leftOut);
      if second == Fails { return CopyFailed; }
      if first == Done && second == Done {
        return Copied(leftToRight.copied, rightToLeft.copied);
      }
      r := CopyPending;
    }
  }
}
