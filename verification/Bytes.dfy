/**
 * Bytes, fixed-width integers and Python's bit operators on them.  The operators are defined
 * bit by bit on unbounded integers, as Python's are.
 */
module Bytes {
  type u8 = x: int | 0 <= x < 0x100
  type u16 = x: int | 0 <= x < 0x1_0000
  type u32 = x: int | 0 <= x < 0x1_0000_0000

  function Zeros(n: nat): (r: seq<u8>)
    ensures |r| == n
  {
    seq(n, i => 0)
  }

  function Pow2(n: nat): (r: nat)
    ensures 0 < r
  {
    if n == 0 then 1 else 2 * Pow2(n - 1)
  }

  /** The exclusive or of the low `n` bits. */
  function XorBits(n: nat, a: nat, b: nat): (r: nat)
    ensures r < Pow2(n)
  {
    if n == 0 then 0 else (a + b) % 2 + 2 * XorBits(n - 1, a / 2, b / 2)
  }

  function Xor(a: u8, b: u8): u8 {
    assert Pow2(8) == 0x100 by { assert Pow2(4) == 16; }
    XorBits(8, a, b)
  }

  lemma XorBitsStep(n: nat, a: nat, b: nat)
    requires 0 < n
    ensures XorBits(n, a, b) == (a + b) % 2 + 2 * XorBits(n - 1, a / 2, b / 2)
  {
  }

  lemma LowBitCancels(a: nat, b: nat, rest: nat)
    ensures ((a + b) % 2 + 2 * rest + b) % 2 == a % 2
  {
  }

  lemma {:induction false} XorBitsCancels(n: nat, a: nat, b: nat)
    requires a < Pow2(n)
    ensures XorBits(n, XorBits(n, a, b), b) == a
  {
    if n != 0 {
      var rest := XorBits(n - 1, a / 2, b / 2);
      var r := (a + b) % 2 + 2 * rest;
      assert XorBits(n, a, b) == r && r / 2 == rest;
      XorBitsCancels(n - 1, a / 2, b / 2);
      XorBitsStep(n, r, b);
      LowBitCancels(a, b, rest);
    }
  }

  lemma {:induction false} XorBitsCommutes(n: nat, a: nat, b: nat)
    ensures XorBits(n, a, b) == XorBits(n, b, a)
  {
    if n != 0 {
      XorBitsCommutes(n - 1, a / 2, b / 2);
    }
  }

  /** The exclusive or with a byte undoes itself. */
  lemma XorCancels(pad: u8, value: u8)
    ensures Xor(pad, Xor(pad, value)) == value
  {
    assert Pow2(8) == 0x100 by { assert Pow2(4) == 16; }
    XorBitsCommutes(8, pad, value);
    XorBitsCancels(8, value, pad);
    XorBitsCommutes(8, pad, Xor(pad, value));
  }

  lemma XorCancelsRight(value: u8, pad: u8)
    ensures Xor(Xor(value, pad), pad) == value
  {
    assert Pow2(8) == 0x100 by { assert Pow2(4) == 16; }
    XorBitsCancels(8, value, pad);
  }

  /** `x & y` for non-negative `x` and `y`. */
  function And(x: nat, y: nat): nat {
    if x == 0 || y == 0 then 0 else (x % 2) * (y % 2) + 2 * And(x / 2, y / 2)
  }

  /** `x & -a` for non-negative `x` and positive `a`: -a has low bit `a % 2` and high part -((a + 1) / 2). */
  function AndMinus(x: nat, a: nat): nat
    requires 0 < a
  {
    if x == 0 then 0 else (x % 2) * (a % 2) + 2 * AndMinus(x / 2, (a + 1) / 2)
  }

  /** The test `a & (a - 1) == 0` on a positive number. */
  predicate OneBit(a: nat)
    requires 0 < a
  {
    And(a, a - 1) == 0
  }

  lemma {:induction false} OneBitHalves(a: nat)
    requires 1 < a && OneBit(a)
    ensures a % 2 == 0 && OneBit(a / 2)
  {
    if a % 2 == 1 {
      assert And(a, a - 1) == 2 * And(a / 2, a / 2);
      AndSelf(a / 2);
    } else {
      assert (a - 1) / 2 == a / 2 - 1;
    }
  }

  lemma {:induction false} AndSelf(a: nat)
    ensures And(a, a) == a
  {
    if a != 0 {
      AndSelf(a / 2);
    }
  }

  /** For a power of two, `x & -a` rounds down to a multiple of `a`. */
  lemma {:induction false} AndMinusRoundsDown(x: nat, a: nat)
    requires 0 < a && OneBit(a)
    ensures AndMinus(x, a) == x - x % a
    decreases x
  {
    if x == 0 {
    } else if a == 1 {
      AndMinusRoundsDown(x / 2, 1);
    } else {
      OneBitHalves(a);
      AndMinusRoundsDown(x / 2, a / 2);
      ModHalves(x, a / 2);
    }
  }

  lemma ModHalves(x: nat, b: nat)
    requires 0 < b
    ensures x % (2 * b) == x % 2 + 2 * (x / 2 % b)
  {
    var q := x / 2 / b;
    var r := x % 2 + 2 * (x / 2 % b);
    assert x == 2 * (b * q + x / 2 % b) + x % 2;
    assert x == (2 * b) * q + r && 0 <= r < 2 * b;
    ModUnique(x, 2 * b, q, r);
  }

  lemma MulAtLeast(m: int, d: int)
    requires 0 < m && 1 <= d
    ensures m <= m * d
  {
  }

  lemma MulDistributes(m: int, a: int, b: int)
    ensures m * (a - b) == m * a - m * b
  {
  }

  lemma ModUnique(x: int, m: int, q: int, r: int)
    requires 0 < m && x == m * q + r && 0 <= r < m
    ensures x / m == q && x % m == r
  {
    var (q', r') := (x / m, x % m);
    assert x == m * q' + r';
    if q < q' {
      MulAtLeast(m, q' - q);
      MulDistributes(m, q', q);
    } else if q' < q {
      MulAtLeast(m, q - q');
      MulDistributes(m, q, q');
    }
  }
}
