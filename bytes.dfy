/**
 * Bytes, fixed-width unsigned integers, little-endian byte order and the
 * bitwise OR that the modelled code uses to assemble headers and fields.
 */
module Bytes {

  type byte = x: int | 0 <= x < 0x100
  type u16 = x: int | 0 <= x < 0x1_0000

  function Pow2(k: nat): (r: nat)
    ensures r >= 1
  {
    if k == 0 then 1 else 2 * Pow2(k - 1)
  }

  lemma Pow2Values()
    ensures Pow2(3) == 8 && Pow2(8) == 0x100 && Pow2(11) == 2048 && Pow2(16) == 0x1_0000
  {
    assert Pow2(8) == 0x100;
    assert Pow2(11) == 2048;
  }

  function Pow256(n: nat): (r: nat)
    ensures r >= 1
  {
    if n == 0 then 1 else 0x100 * Pow256(n - 1)
  }

  /** The unsigned value of `bs` read least significant byte first. */
  function FromLe(bs: seq<byte>): (r: nat)
    ensures r < Pow256(|bs|)
  {
    if |bs| == 0 then 0 else bs[0] + 0x100 * FromLe(bs[1..])
  }

  /** The `n` least significant bytes of `v`, least significant first. */
  function ToLe(v: nat, n: nat): (r: seq<byte>)
    requires v < Pow256(n)
    ensures |r| == n
    ensures FromLe(r) == v
  {
    if n == 0 then [] else [v % 0x100] + ToLe(v / 0x100, n - 1)
  }

  lemma {:induction false} ToLeFromLe(bs: seq<byte>)
    ensures ToLe(FromLe(bs), |bs|) == bs
  {
    if |bs| > 0 {
      var x := FromLe(bs[1..]);
      ToLeFromLe(bs[1..]);
      DigitSplit(bs[0], x);
      assert ToLe(FromLe(bs), |bs|) == [bs[0]] + ToLe(x, |bs| - 1);
    }
  }

  /** Two bytes, least significant first. */
  lemma FromLeTwo(b0: byte, b1: byte)
    ensures FromLe([b0, b1]) == b0 + 0x100 * b1
  {
    assert [b0, b1][1..] == [b1];
    assert [b1][1..] == [];
  }

  lemma ToLeTwo(v: nat)
    requires v < 0x1_0000
    ensures ToLe(v, 2) == [v % 0x100, v / 0x100]
  {
    assert Pow256(2) == 0x1_0000 by { assert Pow256(1) == 0x100; }
    assert ToLe(v / 0x100, 1) == [v / 0x100 % 0x100] + ToLe(v / 0x100 / 0x100, 0);
  }

  /** The two bytes of `lo + 256 * x`. */
  lemma ToLeDigits(lo: byte, x: byte)
    ensures lo + 0x100 * x < 0x1_0000
    ensures ToLe(lo + 0x100 * x, 2) == [lo, x]
  {
    ToLeTwo(lo + 0x100 * x);
    DigitSplit(lo, x);
  }

  /** Splitting `d + 256 * x` back into its low byte and the rest. */
  lemma DigitSplit(d: byte, x: nat)
    ensures (d + 0x100 * x) % 0x100 == d && (d + 0x100 * x) / 0x100 == x
  {
  }

  /** A value below the modulus is its own remainder. */
  lemma ModBelow(x: nat, m: nat)
    requires x < m
    ensures x % m == x
  {
  }

  /** Half of Pow256(n): the bound of the signed `n`-byte range. */
  function Half(n: nat): (h: int)
    requires n > 0
    ensures h >= 1 && 2 * h == Pow256(n)
  {
    0x80 * Pow256(n - 1)
  }

  /** Reinterprets an `n`-byte unsigned value as two's complement. */
  function Signed(u: nat, n: nat): (r: int)
    requires n > 0 && u < Pow256(n)
    ensures -Half(n) <= r < Half(n)
    ensures r >= 0 ==> r == u
    ensures r < 0 ==> r + Pow256(n) == u
  {
    if u < Half(n) then u else u - Pow256(n)
  }

  /** The `n`-byte two's-complement encoding of `v`, as an unsigned value. */
  function Unsigned(v: int, n: nat): (u: nat)
    requires n > 0 && -Half(n) <= v < Half(n)
    ensures u < Pow256(n) && Signed(u, n) == v
  {
    if v < 0 then v + Pow256(n) else v
  }

  /** Bitwise OR of two non-negative integers, bit by bit from the least significant. */
  function BitOr(a: nat, b: nat): nat
    decreases a + b
  {
    if a == 0 then b
    else if b == 0 then a
    else 2 * BitOr(a / 2, b / 2) + (if a % 2 == 1 || b % 2 == 1 then 1 else 0)
  }

  /** The recursive step of BitOr also holds when an operand is zero. */
  lemma BitOrStep(a: nat, b: nat)
    ensures BitOr(a, b) == 2 * BitOr(a / 2, b / 2) + (if a % 2 == 1 || b % 2 == 1 then 1 else 0)
  {
  }

  lemma BitOrZero(a: nat)
    ensures BitOr(a, 0) == a && BitOr(0, a) == a
  {
  }

  lemma {:induction false} BitOrCommutes(a: nat, b: nat)
    ensures BitOr(a, b) == BitOr(b, a)
    decreases a + b
  {
    if a != 0 && b != 0 {
      BitOrCommutes(a / 2, b / 2);
    }
  }

  /** `a << k`, by doubling. */
  function Shl(a: nat, k: nat): nat
  {
    if k == 0 then a else 2 * Shl(a, k - 1)
  }

  lemma {:induction false} ShlIsProduct(a: nat, k: nat)
    ensures Shl(a, k) == a * Pow2(k)
  {
    if k > 0 {
      ShlIsProduct(a, k - 1);
      Twice(a, Pow2(k - 1));
    }
  }

  lemma Twice(x: int, p: int)
    ensures x * (2 * p) == 2 * (x * p)
  {
  }

  /**
   * OR-ing two numbers that agree on being split at bit k: the high parts are
   * OR-ed and the low k bits of the second survive unchanged.
   */
  lemma {:induction false} BitOrShl(hi: nat, bh: nat, bl: nat, k: nat)
    requires bl < Pow2(k)
    ensures BitOr(Shl(hi, k), Shl(bh, k) + bl) == Shl(BitOr(hi, bh), k) + bl
  {
    if k > 0 {
      var m, x, o := Shl(hi, k - 1), Shl(bh, k - 1), Shl(BitOr(hi, bh), k - 1);
      HalfOf(0, bl);
      BitOrShl(hi, bh, bl / 2, k - 1);
      HalfOf(x, bl);
      BitOrEven(m, 2 * x + bl);
    }
  }

  lemma HalfOf(x: nat, bl: nat)
    ensures (2 * x + bl) / 2 == x + bl / 2 && (2 * x + bl) % 2 == bl % 2
    ensures bl == 2 * (bl / 2) + bl % 2
  {
  }

  /** BitOrShl with the shifts written as products. */
  lemma BitOrShifted(hi: nat, bh: nat, bl: nat, k: nat)
    requires bl < Pow2(k)
    ensures BitOr(hi * Pow2(k), bh * Pow2(k) + bl) == BitOr(hi, bh) * Pow2(k) + bl
  {
    BitOrShl(hi, bh, bl, k);
    ShlIsProduct(hi, k);
    ShlIsProduct(bh, k);
    ShlIsProduct(BitOr(hi, bh), k);
  }

  /** OR-ing into an even number: the low bit comes from `b` alone. */
  lemma BitOrEven(m: nat, b: nat)
    ensures BitOr(2 * m, b) == 2 * BitOr(m, b / 2) + b % 2
  {
    BitOrStep(2 * m, b);
  }

  /** OR-ing a value below 2^k into a multiple of 2^k is addition: the bits do not overlap. */
  lemma BitOrDisjoint(hi: nat, lo: nat, k: nat)
    requires lo < Pow2(k)
    ensures BitOr(hi * Pow2(k), lo) == hi * Pow2(k) + lo
    ensures BitOr(lo, hi * Pow2(k)) == hi * Pow2(k) + lo
  {
    assert 0 * Pow2(k) + lo == lo;
    BitOrShifted(hi, 0, lo, k);
    BitOrZero(hi);
    BitOrCommutes(lo, hi * Pow2(k));
  }
}
