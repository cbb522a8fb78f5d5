/** The rings shared with the kernel: 32-bit cursors that wrap, masked into a power-of-two array. Each
    ring is proved against a plain queue whose positions never wrap. */
module Rings {
  import opened Bits

  const WRAP: nat := 0x1_0000_0000

  /** `a.wrapping_sub(b)` and `a.wrapping_add(1)` on 32-bit words. */
  function WrappingSub(a: int, b: int): nat { (a - b) % WRAP }

  function SaturatingSub(a: nat, b: nat): nat { if a >= b then a - b else 0 }

  function WrappingNext(a: nat): nat { (a + 1) % WRAP }

  lemma WrapIsPowerOfTwo()
    ensures WRAP == Pow2(32)
  {
    assert Pow2(8) == 0x100;
    assert Pow2(16) == 0x1_0000;
    assert Pow2(24) == 0x100_0000;
  }

  lemma {:induction false} Pow2Splits(k: nat, n: nat)
    requires k <= n
    ensures Pow2(n) == Pow2(k) * Pow2(n - k)
    decreases n - k
  {
    if k < n {
      Pow2Splits(k, n - 1);
      MulAssoc(2, Pow2(k), Pow2(n - 1 - k));
      MulAssoc(Pow2(k), 2, Pow2(n - 1 - k));
    }
  }

  /** The slot of a position is found from its wrapped cursor alone. */
  lemma SlotOfCursor(position: nat, k: nat)
    requires k <= 32
    ensures And(position % WRAP, Pow2(k) - 1) == position % Pow2(k)
  {
    var m, c := Pow2(k), Pow2(32 - k);
    WrapIsPowerOfTwo();
    Pow2Splits(k, 32);
    var low := position % WRAP;
    MaskIsRemainder(low, k);
    DivMod(position, WRAP);
    DivMod(low, m);
    var q := position / WRAP;
    MulAssoc(m, c, q);
    Distribute(m, c * q, low / m);
    NonNegative(c, q);
    RemainderUnique(position, m, c * q + low / m, low % m);
  }

  lemma Distribute(m: int, a: int, b: int)
    ensures m * (a + b) == m * a + m * b
  {
  }

  lemma NonNegative(a: nat, b: nat)
    ensures a * b >= 0
  {
  }

  /** The difference of two wrapped cursors is the difference of the positions. */
  lemma DistanceOfCursors(head: nat, tail: nat)
    requires head <= tail < head + WRAP
    ensures WrappingSub(tail % WRAP, head % WRAP) == tail - head
  {
  }

  lemma NextCursor(position: nat)
    ensures WrappingNext(position % WRAP) == (position + 1) % WRAP
  {
  }

  lemma SlotsDiffer(i: nat, j: nat, m: nat)
    requires m > 0 && i < j < i + m
    ensures i % m != j % m
  {
    DivMod(i, m);
    DivMod(j, m);
    MulSub(m, j / m, i / m);
    if i % m == j % m {
      OneLap(m, j / m - i / m);
    }
  }

  lemma OneLap(m: nat, d: int)
    requires m > 0
    ensures m * d <= 0 || m * d >= m
  {
    if d >= 1 {
      MulAtLeast(m, d);
    } else {
      NonNegative(m, -d);
      assert m * d == -(m * -d);
    }
  }

  /** Positions `from <= i < to` of an endless history, each in its slot. */
  ghost predicate Window<T>(slots: seq<T>, history: seq<T>, from: nat, to: nat) {
    && 0 < |slots| && from <= to <= |history| && to <= from + |slots|
    && forall i :: from <= i < to ==> slots[i % |slots|] == history[i]
  }

  /** Writing the slot of the next position overwrites no position of the window, while it has room. */
  lemma WindowGrows<T>(slots: seq<T>, history: seq<T>, from: nat, x: T)
    requires Window(slots, history, from, |history|) && |history| < from + |slots|
    ensures Window(slots[|history| % |slots| := x], history + [x], from, |history| + 1)
  {
    forall i | from <= i < |history| ensures i % |slots| != |history| % |slots| {
      SlotsDiffer(i, |history|, |slots|);
    }
  }

  /** The order array names the slot of each position of the window. */
  ghost predicate InOrder(order: seq<nat>, from: nat, to: nat) {
    0 < |order| && forall i :: from <= i < to ==> order[i % |order|] == i % |order|
  }

  lemma OrderGrows(order: seq<nat>, from: nat, to: nat)
    requires InOrder(order, from, to) && from <= to < from + |order|
    ensures InOrder(order[to % |order| := to % |order|], from, to + 1)
  {
    forall i | from <= i < to ensures i % |order| != to % |order| {
      SlotsDiffer(i, to, |order|);
    }
  }

  datatype Sqe = Sqe(userData: nat, opcode: nat, addr: nat)

  datatype Cqe = Cqe(userData: nat, res: int)

  /** The submission side. `sent` is everything ever queued, `taken` how much of it the kernel has
      consumed; neither is in memory. */
  class SubmissionRing {
    const bits: nat
    const entries: nat
    const mask: nat
    const sqes: array<Sqe>
    const order: array<nat>
    var head: nat
    var tail: nat
    var pending: int
    ghost var sent: seq<Sqe>
    ghost var taken: nat

    predicate Shaped() {
      bits < 32 && entries == Pow2(bits) && sqes.Length == entries && order.Length == entries && mask == entries - 1
      && entries < WRAP
    }

    /** The two cursors and the two arrays hold the unconsumed requests. */
    ghost predicate Rings()
      reads this, sqes, order
    {
      && Shaped()
      && tail == |sent| % WRAP && head == taken % WRAP
      && Window(sqes[..], sent, taken, |sent|)
      && InOrder(order[..], taken, |sent|)
    }

    /** Whenever the lock is free the pending count is the distance of the cursors. */
    ghost predicate Valid()
      reads this, sqes, order
    {
      Rings() && pending == |sent| - taken
    }

    /** What the kernel has yet to consume. */
    ghost function Contents(): seq<Sqe>
      requires Rings()
      reads this, sqes, order
    {
      sent[taken..]
    }

    constructor (bits: nat)
      requires bits < 32
      ensures Valid() && Contents() == [] && this.bits == bits && sent == [] && fresh(sqes) && fresh(order)
    {
      var size := Pow2(bits);
      BelowWrap(bits);
      this.bits, entries, mask := bits, size, size - 1;
      sqes := new Sqe[size](_ => Sqe(0, 0, 0));
      order := new nat[size](_ => 0);
      head, tail, pending, sent, taken := 0, 0, 0, [], 0;
    }

    method Space() returns (free: nat)
      requires Valid()
      ensures free == entries - |Contents()|
    {
      DistanceOfCursors(taken, |sent|);
      var used := WrappingSub(tail, head);
      free := SaturatingSub(entries, used);
    }

    /** The pending count agrees with the wrapped cursors. */
    lemma PendingIsDistance()
      requires Valid()
      ensures 0 <= pending <= entries && pending == WrappingSub(tail, head)
    {
      DistanceOfCursors(taken, |sent|);
    }

    /** Queue one request, or refuse it when the ring is full; nothing unconsumed is overwritten. */
    method Queue(x: Sqe) returns (ok: bool)
      requires Valid()
      modifies this, sqes, order
      ensures Valid() && ok == (old(|Contents()|) < entries)
      ensures Contents() == if ok then old(Contents()) + [x] else old(Contents())
      ensures sent == if ok then old(sent) + [x] else old(sent)
    {
      DistanceOfCursors(taken, |sent|);
      if WrappingSub(tail, head) >= entries {
        return false;
      }
      SlotOfCursor(|sent|, bits);
      var index := And(tail, mask);
      WindowGrows(sqes[..], sent, taken, x);
      OrderGrows(order[..], taken, |sent|);
      NextCursor(|sent|);
      sqes[index] := x;
      order[index] := index;
      tail := WrappingNext(tail);
      pending := pending + 1;
      assert sqes[..] == old(sqes[..])[index := x];
      assert order[..] == old(order[..])[index := index];
      sent := sent + [x];
      ok := true;
    }

    /** The kernel consumes the oldest request, found through the order array. */
    method KernelTake() returns (x: Sqe)
      requires Rings() && Contents() != []
      modifies this`head, this`taken
      ensures Rings() && x == old(Contents())[0] && Contents() == old(Contents())[1..]
    {
      SlotOfCursor(taken, bits);
      var index := And(head, mask);
      assert order[..][taken % entries] == index;
      x := sqes[order[index]];
      assert x == sqes[..][taken % entries];
      NextCursor(taken);
      head := WrappingNext(head);
      taken := taken + 1;
    }

    /** `submit_inner`: the kernel takes at most the requests offered, in order, and says how many. The
        pending count is corrected by that answer and stays exact. */
    method Submit(willing: nat) returns (consumed: seq<Sqe>)
      requires Valid()
      modifies this
      ensures Valid() && sent == old(sent)
      ensures consumed + Contents() == old(Contents())
      ensures |consumed| == if willing <= old(pending) then willing else old(pending)
    {
      consumed := [];
      if pending == 0 {
        assert Contents() == [];
        return;
      }
      var offered := if willing <= pending then willing else pending;
      while |consumed| < offered
        invariant Rings() && sent == old(sent) && pending == old(pending) && taken == old(taken) + |consumed|
        invariant |consumed| <= offered
        invariant consumed + Contents() == old(Contents())
      {
        ghost var rest := Contents();
        var x := KernelTake();
        assert rest == [x] + rest[1..];
        assert consumed + ([x] + rest[1..]) == (consumed + [x]) + rest[1..];
        consumed := consumed + [x];
      }
      pending := pending - |consumed|;
    }
  }

  lemma {:induction false} BelowWrap(bits: nat)
    requires bits < 32
    ensures Pow2(bits) < WRAP
  {
    WrapIsPowerOfTwo();
    Pow2Splits(bits, 31);
    MulAtLeast(Pow2(bits), Pow2(31 - bits));
    assert Pow2(32) == 2 * Pow2(31);
  }

  /** The completion side. `posted` is everything the kernel ever posted, `reaped` how much of it the
      published head has given back. */
  class CompletionRing {
    const bits: nat
    const entries: nat
    const mask: nat
    const cqes: array<Cqe>
    var head: nat
    var tail: nat
    ghost var posted: seq<Cqe>
    ghost var reaped: nat

    ghost predicate Valid()
      reads this, cqes
    {
      && bits < 32 && entries == Pow2(bits) && cqes.Length == entries && mask == entries - 1 && entries < WRAP
      && tail == |posted| % WRAP && head == reaped % WRAP
      && Window(cqes[..], posted, reaped, |posted|)
    }

    ghost function Contents(): seq<Cqe>
      requires Valid()
      reads this, cqes
    {
      posted[reaped..]
    }

    constructor (bits: nat)
      requires bits < 32
      ensures Valid() && Contents() == [] && this.bits == bits && posted == [] && fresh(cqes)
    {
      var size := Pow2(bits);
      BelowWrap(bits);
      this.bits, entries, mask := bits, size, size - 1;
      cqes := new Cqe[size](_ => Cqe(0, 0));
      head, tail, posted, reaped := 0, 0, [], 0;
    }

    /** The kernel posts a completion when the ring has room for it. */
    method KernelPost(x: Cqe) returns (ok: bool)
      requires Valid()
      modifies this`tail, this`posted, cqes
      ensures Valid() && ok == (old(|Contents()|) < entries)
      ensures posted == if ok then old(posted) + [x] else old(posted)
    {
      DistanceOfCursors(reaped, |posted|);
      if WrappingSub(tail, head) >= entries {
        return false;
      }
      SlotOfCursor(|posted|, bits);
      WindowGrows(cqes[..], posted, reaped, x);
      NextCursor(|posted|);
      cqes[And(tail, mask)] := x;
      assert cqes[..] == old(cqes[..])[And(tail, mask) := x];
      tail := WrappingNext(tail);
      posted := posted + [x];
      ok := true;
    }

    method KernelPosts(xs: seq<Cqe>)
      requires Valid()
      modifies this`tail, this`posted, cqes
      ensures Valid() && old(posted) <= posted
    {
      for i := 0 to |xs|
        invariant Valid() && old(posted) <= posted
      {
        var _ := KernelPost(xs[i]);
      }
    }

    /** One reap: the number available is read once, the entries are visited one by one while the kernel
        may go on posting (`arrivals`), and the head is published at the end. Exactly the entries that
        were there at the start are visited, once each and in order; later ones stay for the next reap. */
    method Reap(arrivals: nat -> seq<Cqe>) returns (visited: seq<Cqe>)
      requires Valid()
      modifies this, cqes
      ensures Valid() && visited == old(Contents())
      ensures old(posted) <= posted && Contents() == posted[|old(posted)|..]
    {
      DistanceOfCursors(reaped, |posted|);
      var current := head;
      var available := WrappingSub(tail, head);
      visited := [];
      for i := 0 to available
        invariant Valid() && reaped == old(reaped) && old(posted) <= posted
        invariant current == (reaped + i) % WRAP
        invariant visited == old(posted)[reaped..reaped + i]
      {
        SlotOfCursor(reaped + i, bits);
        var slot := And(current, mask);
        assert cqes[slot] == cqes[..][(reaped + i) % entries] == posted[reaped + i];
        visited := visited + [cqes[slot]];
        NextCursor(reaped + i);
        current := WrappingNext(current);
        KernelPosts(arrivals(i));
      }
      head := current;
      reaped := reaped + available;
    }
  }
}
