/** Bitwise operators on natural numbers, as the machine words of the runtime
    use them: `v & m` and `v | m` for a single-bit mask, and `v & (2^k - 1)`. */
module Bits {

  function Pow2(k: nat): (p: nat)
    ensures p > 0
  {
    if k == 0 then 1 else 2 * Pow2(k - 1)
  }

  /** `a & b` */
  function And(a: nat, b: nat): nat
    decreases a
  {
    if a == 0 || b == 0 then 0 else 2 * And(a / 2, b / 2) + (a % 2) * (b % 2)
  }

  /** `a | b` */
  function Or(a: nat, b: nat): nat
    decreases a + b
  {
    if a == 0 && b == 0 then 0
    else 2 * Or(a / 2, b / 2) + (if a % 2 == 1 || b % 2 == 1 then 1 else 0)
  }

  /** `a & !b` on a word that is at least as wide as both operands. */
  function AndNot(a: nat, b: nat): nat
    decreases a
  {
    if a == 0 then 0 else 2 * AndNot(a / 2, b / 2) + (if a % 2 == 1 && b % 2 == 0 then 1 else 0)
  }

  /** Bit `k` of `v`. */
  predicate Bit(v: nat, k: nat) {
    if k == 0 then v % 2 == 1 else Bit(v / 2, k - 1)
  }

  lemma {:induction false} AndZero(a: nat)
    ensures And(a, 0) == 0 && Or(a, 0) == a && AndNot(a, 0) == a
  {
    if a > 0 { AndZero(a / 2); }
  }

  /** A one-bit mask tests that bit. */
  lemma {:induction false} TestBit(v: nat, k: nat)
    ensures And(v, Pow2(k)) == if Bit(v, k) then Pow2(k) else 0
    decreases k
  {
    if v == 0 {
      BitOfZero(k);
    } else if k == 0 {
      AndZero(v / 2);
    } else {
      TestBit(v / 2, k - 1);
    }
  }

  lemma {:induction false} BitOfZero(k: nat)
    ensures !Bit(0, k)
  {
    if k > 0 { BitOfZero(k - 1); }
  }

  /** `v |= 1 << k` adds the bit when it is missing, `v &= !(1 << k)` takes it away when it is there. */
  lemma {:induction false} SetAndClearBit(v: nat, k: nat)
    ensures Or(v, Pow2(k)) == if Bit(v, k) then v else v + Pow2(k)
    ensures Bit(v, k) ==> v >= Pow2(k)
    ensures AndNot(v, Pow2(k)) == if Bit(v, k) then v - Pow2(k) else v
    decreases k
  {
    if k == 0 {
      AndZero(v / 2);
    } else {
      SetAndClearBit(v / 2, k - 1);
    }
  }

  /** `v >> n` */
  function Shr(v: nat, n: nat): nat {
    if n == 0 then v else Shr(v / 2, n - 1)
  }

  /** Writing bit `k` changes no other bit and nothing above it. */
  lemma {:induction false} BitWriteFrame(v: nat, k: nat, j: nat)
    ensures Bit(Or(v, Pow2(k)), j) == (j == k || Bit(v, j))
    ensures Bit(AndNot(v, Pow2(k)), j) == (j != k && Bit(v, j))
    ensures j > k ==> Shr(Or(v, Pow2(k)), j) == Shr(v, j) == Shr(AndNot(v, Pow2(k)), j)
    decreases k, j
  {
    if k == 0 {
      AndZero(v / 2);
    } else if j > 0 {
      BitWriteFrame(v / 2, k - 1, j - 1);
    }
  }

  /** Adding `2^n` adds one to the field above bit `n` and leaves the `n` low bits alone. */
  lemma {:induction false} FieldAdd(v: nat, n: nat, j: nat)
    ensures Shr(v + Pow2(n), n) == Shr(v, n) + 1
    ensures j < n ==> Bit(v + Pow2(n), j) == Bit(v, j)
    decreases n, j
  {
    if n > 0 {
      assert (v + Pow2(n)) / 2 == v / 2 + Pow2(n - 1);
      FieldAdd(v / 2, n - 1, if j > 0 then j - 1 else 0);
    }
  }

  lemma {:induction false} ShrPositive(v: nat, n: nat)
    ensures Shr(v, n) >= 1 <==> v >= Pow2(n)
    decreases n
  {
    if n > 0 { ShrPositive(v / 2, n - 1); }
  }

  /** Masking with `2^k - 1` is the remainder modulo `2^k`. */
  lemma {:induction false} MaskIsRemainder(v: nat, k: nat)
    ensures And(v, Pow2(k) - 1) == v % Pow2(k)
    decreases k
  {
    if k == 0 {
      AndZero(v);
    } else {
      var p := Pow2(k - 1);
      MaskIsRemainder(v / 2, k - 1);
      HalfMask(v, p);
      HalfRemainder(v, p);
    }
  }

  lemma HalfMask(v: nat, p: nat)
    requires p > 0
    ensures And(v, 2 * p - 1) == 2 * And(v / 2, p - 1) + v % 2
  {
    assert (2 * p - 1) / 2 == p - 1 && (2 * p - 1) % 2 == 1;
  }

  lemma HalfRemainder(v: nat, p: nat)
    requires p > 0
    ensures v % (2 * p) == 2 * ((v / 2) % p) + v % 2
  {
    var h := v / 2;
    var q, r := h / p, h % p;
    DivMod(h, p);
    MulAssoc(2, p, q);
    RemainderUnique(v, 2 * p, q, 2 * r + v % 2);
  }

  lemma DivMod(v: nat, m: nat)
    requires m > 0
    ensures v == m * (v / m) + v % m && v / m >= 0 && 0 <= v % m < m
  {
  }

  lemma MulAssoc(a: int, b: int, c: int)
    ensures a * b * c == a * (b * c)
  {
  }

  lemma MulAtLeast(m: nat, d: int)
    requires d >= 1
    ensures m * d >= m
  {
    assert m * d == m * (d - 1) + m;
  }

  lemma MulSub(m: int, a: int, b: int)
    ensures m * a - m * b == m * (a - b)
  {
  }

  lemma RemainderUnique(v: nat, m: nat, q: nat, r: nat)
    requires m > 0 && r < m && v == m * q + r
    ensures v % m == r && v / m == q
  {
    DivMod(v, m);
    var q', r' := v / m, v % m;
    MulSub(m, q, q');
    if q > q' {
      MulAtLeast(m, q - q');
    } else if q < q' {
      MulSub(m, q', q);
      MulAtLeast(m, q' - q);
    }
  }
}
