/** The packed readiness word of a registration: generation above bit 33, sixteen readiness bits above
    bit 17, the shutdown flag at bit 16. */
module ReadyWord {
  import opened Bits

  const READY_UNIT: nat := 0x2_0000
  const GEN_UNIT: nat := 0x2_0000_0000
  const READY_LIMIT: nat := 0x1_0000
  const WORD: nat := 0x1_0000_0000_0000_0000
  const U32: nat := 0x1_0000_0000

  function New(generation: nat): nat { (generation * GEN_UNIT) % WORD }

  function Generation(w: nat): nat { (w / GEN_UNIT) % U32 }

  function Ready(w: nat): nat { (w / READY_UNIT) % READY_LIMIT }

  predicate Shutdown(w: nat) { (w / READY_LIMIT) % 2 == 1 }

  /** `(w & !READY_MASK) | (ready << READY_SHIFT)` */
  function WithReady(w: nat, ready: nat): nat { w - Ready(w) * READY_UNIT + ready * READY_UNIT }

  /** Writing the readiness bits touches nothing else in the word. */
  lemma WithReadyFrame(w: nat, ready: nat)
    requires w < WORD && ready < READY_LIMIT
    ensures WithReady(w, ready) < WORD
    ensures Ready(WithReady(w, ready)) == ready
    ensures Generation(WithReady(w, ready)) == Generation(w) && Shutdown(WithReady(w, ready)) == Shutdown(w)
    ensures WithReady(w, ready) % READY_UNIT == w % READY_UNIT
  {
    var high, low := w / GEN_UNIT, w % READY_UNIT;
    assert w == high * GEN_UNIT + Ready(w) * READY_UNIT + low;
    var v := WithReady(w, ready);
    assert v == high * GEN_UNIT + ready * READY_UNIT + low;
    assert v / GEN_UNIT == high;
    assert v / READY_UNIT == high * READY_LIMIT + ready;
    assert w / READY_UNIT == high * READY_LIMIT + Ready(w);
    assert v / READY_LIMIT == 2 * (v / READY_UNIT) + low / READY_LIMIT;
    assert w / READY_LIMIT == 2 * (w / READY_UNIT) + low / READY_LIMIT;
  }

  /** The layout of the word: the generation from bit 33, sixteen readiness bits from bit 17, the shutdown
      flag at bit 16. */
  lemma WordLayout(generation: nat, ready: nat, shutdown: bool, rest: nat)
    requires generation < 0x8000_0000 && ready < 0x1_0000 && rest < 0x1_0000
    ensures var w := generation * 0x2_0000_0000 + ready * 0x2_0000 + (if shutdown then 0x1_0000 else 0) + rest;
            w < WORD && Generation(w) == generation && Ready(w) == ready && Shutdown(w) == shutdown
  {
    var flag := if shutdown then 1 else 0;
    var w := generation * 0x2_0000_0000 + ready * 0x2_0000 + flag * 0x1_0000 + rest;
    Quotient(w, 0x2_0000_0000, generation, ready * 0x2_0000 + flag * 0x1_0000 + rest);
    Quotient(w, 0x2_0000, generation * 0x1_0000 + ready, flag * 0x1_0000 + rest);
    Quotient(w, 0x1_0000, 2 * (generation * 0x1_0000 + ready) + flag, rest);
  }

  lemma Quotient(w: nat, m: nat, q: nat, r: nat)
    requires m > 0 && r < m && w == m * q + r
    ensures w / m == q
  {
    RemainderUnique(w, m, q, r);
  }

  /** These are the bit positions 16, 17, 31 and 33. */
  lemma LayoutPowers()
    ensures Pow2(16) == 0x1_0000 && Pow2(17) == 0x2_0000 && Pow2(31) == 0x8000_0000 && Pow2(33) == 0x2_0000_0000
  {
    assert Pow2(8) == 0x100;
    assert Pow2(16) == 0x1_0000;
    assert Pow2(24) == 0x100_0000;
    assert Pow2(31) == 0x8000_0000;
    assert Pow2(33) == 4 * Pow2(31);
  }

  // ----- The generation field is one bit short -----

  /** Poller tokens keep all 32 bits of the generation. */
  function Token(index: nat, generation: nat): nat { generation * U32 + index }

  function TokenGeneration(token: nat): nat { (token / U32) % U32 }

  function TokenIndex(token: nat): nat { token % U32 }

  lemma TokenKeepsBoth(index: nat, generation: nat)
    requires index < U32 && generation < U32
    ensures TokenIndex(Token(index, generation)) == index && TokenGeneration(Token(index, generation)) == generation
  {
  }

  /** The word of a new registration remembers the generation modulo 2^31. */
  lemma NewGeneration(generation: nat)
    requires generation < U32
    ensures Generation(New(generation)) == generation % 0x8000_0000
    ensures Ready(New(generation)) == 0 && !Shutdown(New(generation)) && New(generation) < WORD
  {
    var kept := generation % 0x8000_0000;
    assert generation * GEN_UNIT == (generation / 0x8000_0000) * WORD + kept * GEN_UNIT;
    assert New(generation) == kept * GEN_UNIT;
  }

  /** A registration in its slab slot: the generation its word remembers, and the token the poller
      reports its events with. */
  datatype Entry = Entry(index: nat, generation: nat, token: nat)

  /** The first token carries the generation as it was handed out. */
  function Register(index: nat, generation: nat): Entry { Entry(index, Generation(New(generation)), Token(index, generation)) }

  /** An edge-triggered registration is armed again after every system call, with the generation read
      back from its word. */
  function Rearm(e: Entry): Entry { e.(token := Token(e.index, e.generation)) }

  /** A registration after system calls; `tries` says of each whether it armed the poller again. */
  function AfterTries(e: Entry, tries: seq<bool>): Entry
    decreases |tries|
  {
    if tries == [] then e else AfterTries(if tries[0] then Rearm(e) else e, tries[1..])
  }

  /** The dispatcher finds the entry through the index of the token and compares generations. */
  predicate Dispatched(e: Entry, token: nat) { TokenIndex(token) == e.index && TokenGeneration(token) == e.generation }

  lemma {:induction false} TokenAfterTries(index: nat, generation: nat, e: Entry, tries: seq<bool>)
    requires e.index == index && e.generation == Generation(New(generation))
    ensures AfterTries(e, tries) == e.(token := if true in tries then Token(index, e.generation) else e.token)
    decreases |tries|
  {
    if tries != [] {
      TokenAfterTries(index, generation, if tries[0] then Rearm(e) else e, tries[1..]);
      assert tries == [tries[0]] + tries[1..];
    }
  }

  /** The events of a registration reach it exactly when its generation is below 2^31 or the poller has
      been armed again since: only the first token holds all 32 bits. */
  lemma DispatchedIff(index: nat, generation: nat, tries: seq<bool>)
    requires index < U32 && generation < U32
    ensures var e := AfterTries(Register(index, generation), tries);
            Dispatched(e, e.token) <==> generation < 0x8000_0000 || true in tries
  {
    NewGeneration(generation);
    TokenAfterTries(index, generation, Register(index, generation), tries);
    TokenKeepsBoth(index, generation);
    TokenKeepsBoth(index, Generation(New(generation)));
  }

  /** The first registration that hears nothing until it is armed again. */
  lemma LateRegistrationIsDeaf(index: nat)
    requires index < U32
    ensures var e := Register(index, 0x8000_0000); !Dispatched(e, e.token) && Dispatched(Rearm(e), Rearm(e).token)
  {
    DispatchedIff(index, 0x8000_0000, []);
    DispatchedIff(index, 0x8000_0000, [true]);
    assert AfterTries(Register(index, 0x8000_0000), [true]) == Rearm(Register(index, 0x8000_0000));
  }

  lemma HalfApart(a: nat, b: nat)
    requires a < U32 && b < U32 && a != b
    ensures a % 0x8000_0000 == b % 0x8000_0000 <==> a == b + 0x8000_0000 || b == a + 0x8000_0000
    ensures a == b % 0x8000_0000 <==> a < 0x8000_0000 && b == a + 0x8000_0000
  {
  }

  /** An event still in flight for an earlier registration of a slot is taken for one of the later
      registration exactly when the two generations are 2^31 apart and the token in flight had lost, or
      never had, the top bit. */
  lemma StaleDispatchedIff(index: nat, earlier: nat, tries: seq<bool>, later: nat, tries': seq<bool>)
    requires index < U32 && earlier < U32 && later < U32 && earlier != later
    ensures var stale := AfterTries(Register(index, earlier), tries).token;
            Dispatched(AfterTries(Register(index, later), tries'), stale) <==>
              && (earlier == later + 0x8000_0000 || later == earlier + 0x8000_0000)
              && (true in tries || earlier < 0x8000_0000)
  {
    NewGeneration(earlier);
    NewGeneration(later);
    TokenAfterTries(index, earlier, Register(index, earlier), tries);
    TokenAfterTries(index, later, Register(index, later), tries');
    TokenKeepsBoth(index, earlier);
    TokenKeepsBoth(index, Generation(New(earlier)));
    HalfApart(earlier, later);
  }

  // ----- Readiness bits -----

  const READABLE: nat := 0x15
  const WRITABLE: nat := 0x1A

  datatype Interest = Interest(readable: bool, writable: bool)

  predicate Satisfied(interest: Interest, ready: nat) {
    match (interest.readable, interest.writable)
    case (true, false) => And(ready, READABLE) != 0
    case (false, true) => And(ready, WRITABLE) != 0
    case (true, true) => And(ready, READABLE) != 0 || And(ready, WRITABLE) != 0
    case (false, false) => false
  }

  lemma {:induction false} MaskOfUnion(a: nat, b: nat, m: nat)
    ensures And(Or(a, b), m) != 0 <==> And(a, m) != 0 || And(b, m) != 0
    decreases a + b
  {
    if a == 0 {
      OrZero(b);
    } else if b == 0 {
      AndZero(a);
    } else if m != 0 {
      MaskOfUnion(a / 2, b / 2, m / 2);
      BitOfUnion(a, b);
      AndSplits(a, m);
      AndSplits(b, m);
      AndSplits(Or(a, b), m);
    } else {
      AndZero(a);
    }
  }

  lemma AndSplits(a: nat, m: nat)
    ensures And(a, m) != 0 <==> And(a / 2, m / 2) != 0 || (a % 2 == 1 && m % 2 == 1)
  {
    if a == 0 || m == 0 {
      AndZero(a / 2);
    } else {
      var low := (a % 2) * (m % 2);
      BitProduct(a % 2, m % 2);
      assert And(a, m) == 2 * And(a / 2, m / 2) + low;
    }
  }

  lemma LowBits(r: nat)
    ensures var r1, r2, r3, r4 := r / 2, r / 2 / 2, r / 2 / 2 / 2, r / 2 / 2 / 2 / 2;
            && (Bit(r, 0) <==> r % 2 == 1) && (Bit(r, 1) <==> r1 % 2 == 1) && (Bit(r, 2) <==> r2 % 2 == 1)
            && (Bit(r, 3) <==> r3 % 2 == 1) && (Bit(r, 4) <==> r4 % 2 == 1)
  {
    assert Bit(r, 4) == Bit(r / 2, 3) == Bit(r / 2 / 2, 2) == Bit(r / 2 / 2 / 2, 1);
    assert Bit(r, 3) == Bit(r / 2, 2) == Bit(r / 2 / 2, 1);
  }

  /** Readable, read closed and error. */
  lemma ReadableMask(r: nat)
    ensures And(r, READABLE) != 0 <==> Bit(r, 0) || Bit(r, 2) || Bit(r, 4)
  {
    LowBits(r);
    AndZero(r / 2 / 2 / 2 / 2 / 2);
    AndSplits(r, 0x15);
    AndSplits(r / 2, 0xA);
    AndSplits(r / 2 / 2, 0x5);
    AndSplits(r / 2 / 2 / 2, 0x2);
    AndSplits(r / 2 / 2 / 2 / 2, 0x1);
  }

  /** Writable, write closed and error. */
  lemma WritableMask(r: nat)
    ensures And(r, WRITABLE) != 0 <==> Bit(r, 1) || Bit(r, 3) || Bit(r, 4)
  {
    LowBits(r);
    AndZero(r / 2 / 2 / 2 / 2 / 2);
    AndSplits(r, 0x1A);
    AndSplits(r / 2, 0xD);
    AndSplits(r / 2 / 2, 0x6);
    AndSplits(r / 2 / 2 / 2, 0x3);
    AndSplits(r / 2 / 2 / 2 / 2, 0x1);
  }

  /** Which bits meet which interest. */
  lemma SatisfiedByBits(r: nat)
    ensures Satisfied(Interest(true, false), r) <==> Bit(r, 0) || Bit(r, 2) || Bit(r, 4)
    ensures Satisfied(Interest(false, true), r) <==> Bit(r, 1) || Bit(r, 3) || Bit(r, 4)
    ensures Satisfied(Interest(true, true), r) <==> Satisfied(Interest(true, false), r) || Satisfied(Interest(false, true), r)
    ensures !Satisfied(Interest(false, false), r)
  {
    ReadableMask(r);
    WritableMask(r);
  }

  lemma BitProduct(x: nat, y: nat)
    requires x < 2 && y < 2
    ensures x * y == if x == 1 && y == 1 then 1 else 0
  {
  }

  lemma BitOfUnion(a: nat, b: nat)
    ensures Or(a, b) / 2 == Or(a / 2, b / 2) && (Or(a, b) % 2 == 1 <==> a % 2 == 1 || b % 2 == 1)
  {
  }

  lemma {:induction false} OrZero(b: nat)
    ensures Or(0, b) == b
  {
    if b > 0 { OrZero(b / 2); }
  }

  lemma {:induction false} OrBound(a: nat, b: nat, n: nat)
    requires a < Pow2(n) && b < Pow2(n)
    ensures Or(a, b) < Pow2(n)
    decreases n
  {
    if n > 0 { OrBound(a / 2, b / 2, n - 1); }
  }

  lemma {:induction false} OrGrows(a: nat, b: nat)
    ensures Or(a, b) >= a
    decreases a + b
  {
    if a == 0 && b == 0 {
    } else {
      OrGrows(a / 2, b / 2);
    }
  }

  lemma ReadyUnion(a: nat, b: nat)
    requires a < READY_LIMIT && b < READY_LIMIT
    ensures Or(a, b) < READY_LIMIT
  {
    assert Pow2(8) == 0x100;
    assert Pow2(16) == 0x1_0000;
    OrBound(a, b, 16);
  }

  /** An interest is met by two reports together exactly when one of them meets it. */
  lemma UnionSatisfies(interest: Interest, a: nat, b: nat)
    ensures Satisfied(interest, Or(a, b)) <==> Satisfied(interest, a) || Satisfied(interest, b)
  {
    MaskOfUnion(a, b, READABLE);
    MaskOfUnion(a, b, WRITABLE);
  }

  lemma NothingSatisfies(interest: Interest)
    ensures !Satisfied(interest, 0)
  {
  }
}
