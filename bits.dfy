/**
 * Python's integer shifts and bitwise operators, on the non-negative
 * integers the colour packing works with: `x << k` is `x * 2^k`, `x >> k` is
 * `x // 2^k`, and `|` and `&` work bit by bit from the least significant bit.
 */
module Bits {

  function Pow2(k: nat): (p: nat)
    ensures p >= 1
  {
    if k == 0 then 1 else 2 * Pow2(k - 1)
  }

  /** `a | b` */
  function BitOr(a: nat, b: nat): nat
    decreases a + b
  {
    if a == 0 then b
    else if b == 0 then a
    else 2 * BitOr(a / 2, b / 2) + (if a % 2 == 1 || b % 2 == 1 then 1 else 0)
  }

  /** `a & b` */
  function BitAnd(a: nat, b: nat): nat
    decreases a + b
  {
    if a == 0 || b == 0 then 0
    else 2 * BitAnd(a / 2, b / 2) + (if a % 2 == 1 && b % 2 == 1 then 1 else 0)
  }

  /** `x << k` */
  function ShiftLeft(x: nat, k: nat): nat { x * Pow2(k) }

  /** `x >> k` */
  function ShiftRight(x: nat, k: nat): nat
  {
    DivBounds(x, Pow2(k));
    x / Pow2(k)
  }

  lemma DivBounds(x: nat, p: nat)
    requires p >= 1
    ensures 0 <= x / p <= x
  {
  }

  lemma {:induction false} BitOrCommutes(a: nat, b: nat)
    ensures BitOr(a, b) == BitOr(b, a)
    decreases a + b
  {
    if a != 0 && b != 0 {
      BitOrCommutes(a / 2, b / 2);
    }
  }

  /** Or-ing a value below 2^k into a multiple of 2^k is addition: the bits do not overlap. */
  lemma {:induction false} BitOrDisjoint(a: nat, b: nat, k: nat)
    requires a < Pow2(k)
    ensures BitOr(a, b * Pow2(k)) == a + b * Pow2(k)
  {
    if k > 0 && a != 0 && b != 0 {
      var p := Pow2(k - 1);
      assert b * Pow2(k) == 2 * (b * p);
      assert (b * Pow2(k)) / 2 == b * p && (b * Pow2(k)) % 2 == 0;
      BitOrDisjoint(a / 2, b, k - 1);
    }
  }

  lemma ModDouble(a: nat, p: nat)
    requires p >= 1
    ensures a % (2 * p) == 2 * ((a / 2) % p) + a % 2
  {
    var q := a / 2;
    var m := q / p;
    var s := q % p;
    assert q == p * m + s;
    assert a == (2 * p) * m + (2 * s + a % 2);
    ModUnique(a, 2 * p, m, 2 * s + a % 2);
  }

  lemma ModUnique(a: nat, d: nat, m: nat, r: nat)
    requires d >= 1 && a == d * m + r && r < d
    ensures a % d == r && a / d == m
  {
    var q, s := a / d, a % d;
    assert d * q + s == d * m + r;
    if q > m {
      MulAtLeast(d, q - m);
      assert false;
    } else if q < m {
      MulAtLeast(d, m - q);
      assert false;
    }
  }

  lemma MulAtLeast(d: nat, x: nat)
    requires x >= 1
    ensures d * x >= d
  {
  }

  /** Masking with 2^k - 1 keeps the low k bits. */
  lemma {:induction false} BitAndLowMask(a: nat, k: nat)
    ensures BitAnd(a, Pow2(k) - 1) == a % Pow2(k)
  {
    if k == 0 {
      assert Pow2(0) - 1 == 0;
    } else if a == 0 {
      ModUnique(0, Pow2(k), 0, 0);
    } else {
      var p := Pow2(k - 1);
      var low := (a / 2) % p;
      assert BitAnd(a / 2, p - 1) == low by {
        BitAndLowMask(a / 2, k - 1);
      }
      BitAndLowMaskStep(a, p, low);
      ModDouble(a, p);
      assert Pow2(k) == 2 * p;
    }
  }

  /** One bit of the induction: masking with `2p - 1` masks the upper bits with `p - 1` and keeps the lowest. */
  lemma BitAndLowMaskStep(a: nat, p: nat, x: nat)
    requires a != 0 && p >= 1 && BitAnd(a / 2, p - 1) == x
    ensures BitAnd(a, 2 * p - 1) == 2 * x + a % 2
  {
    var m := 2 * p - 1;
    HalveOdd(p);
    BitAndOddStep(a, m);
  }

  /** `2p - 1` is odd, and halving it gives `p - 1`. */
  lemma HalveOdd(p: nat)
    requires p >= 1
    ensures (2 * p - 1) % 2 == 1 && (2 * p - 1) / 2 == p - 1
  {
  }

  /** With an odd mask, the lowest bit of `a & m` is the lowest bit of `a`. */
  lemma BitAndOddStep(a: nat, m: nat)
    requires a != 0 && m % 2 == 1
    ensures BitAnd(a, m) == 2 * BitAnd(a / 2, m / 2) + a % 2
  {
  }
}
