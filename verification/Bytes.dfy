/** Octets, and the machine arithmetic the client's network code does on them. */
module Bytes {

  type byte = x: int | 0 <= x < 256

  /** 2^n. */
  function Pow2(n: nat): (p: nat)
    ensures p >= 1
  {
    if n == 0 then 1 else 2 * Pow2(n - 1)
  }

  /** Two's complement wrap-around of a 32-bit `int`. */
  function Wrap32(x: int): (r: int)
    ensures -0x8000_0000 <= r < 0x8000_0000
    ensures (r - x) % 0x1_0000_0000 == 0
  {
    (x + 0x8000_0000) % 0x1_0000_0000 - 0x8000_0000
  }

  /** Bitwise exclusive or of two n-bit numbers, lowest bit first. */
  function XorBits(a: nat, b: nat, n: nat): (r: nat)
    ensures r < Pow2(n)
  {
    if n == 0 then 0 else 2 * XorBits(a / 2, b / 2, n - 1) + (a + b) % 2
  }

  const OCTET: nat := 8

  lemma OctetRange()
    ensures Pow2(OCTET) == 256
  {}

  /** Exclusive or of two octets. */
  function Xor(a: byte, b: byte): byte {
    OctetRange();
    XorBits(a, b, OCTET)
  }

  /** A number by its lowest bit and the rest. */
  lemma LowestBit(half: nat, bit: nat)
    requires bit < 2
    ensures (2 * half + bit) / 2 == half && (2 * half + bit) % 2 == bit
  {}

  lemma BitTwice(a: nat, m: nat, r: nat)
    requires r % 2 == (a + m) % 2
    ensures (r + m) % 2 == a % 2
  {}

  lemma {:induction false} XorBitsTwice(a: nat, m: nat, n: nat)
    requires a < Pow2(n)
    ensures XorBits(XorBits(a, m, n), m, n) == a
  {
    if n > 0 {
      var half := XorBits(a / 2, m / 2, n - 1);
      LowestBit(half, (a + m) % 2);
      BitTwice(a, m, XorBits(a, m, n));
      XorBitsTwice(a / 2, m / 2, n - 1);
    }
  }

  // ---- bits ------------------------------------------------------------------------------------------------

  /** Bit i of a number, the lowest being bit 0. */
  predicate Bit(a: nat, i: nat) {
    if i == 0 then a % 2 == 1 else Bit(a / 2, i - 1)
  }

  lemma HalveTwice(a: nat, p: nat, q: nat)
    requires p in {1, 2, 4, 8, 16, 32, 64} && q == 2 * p
    ensures a / 2 / p == a / q
  {}

  lemma OctetPowers(i: nat)
    requires i < 8
    ensures Pow2(i) in {1, 2, 4, 8, 16, 32, 64, 128} && (i < 7 ==> Pow2(i) in {1, 2, 4, 8, 16, 32, 64})
  {
    assert Pow2(1) == 2 && Pow2(2) == 4 && Pow2(3) == 8;
    assert Pow2(4) == 16 && Pow2(5) == 32 && Pow2(6) == 64 && Pow2(7) == 128;
  }

  /** Bit i of an octet as a shift and a mask read it. */
  lemma {:induction false} BitIsQuotient(a: nat, i: nat)
    requires i < 8
    ensures Bit(a, i) <==> a / Pow2(i) % 2 == 1
  {
    if i > 0 {
      BitIsQuotient(a / 2, i - 1);
      OctetPowers(i - 1);
      HalveTwice(a, Pow2(i - 1), Pow2(i));
    }
  }

  lemma SumIsOdd(a: nat, b: nat)
    ensures (a + b) % 2 == 1 <==> (a % 2 == 1) != (b % 2 == 1)
  {}

  /** Bit by bit: set where exactly one of the two numbers has it set. */
  lemma {:induction false} XorBitsAt(a: nat, b: nat, n: nat, i: nat)
    requires i < n
    ensures Bit(XorBits(a, b, n), i) <==> Bit(a, i) != Bit(b, i)
  {
    LowestBit(XorBits(a / 2, b / 2, n - 1), (a + b) % 2);
    if i == 0 {
      SumIsOdd(a, b);
    } else {
      XorBitsAt(a / 2, b / 2, n - 1, i - 1);
    }
  }

  /** The bits of `Xor`, as a machine computes them on two octets. */
  lemma XorAt(a: byte, b: byte, i: nat)
    requires i < 8
    ensures Bit(Xor(a, b), i) <==> Bit(a, i) != Bit(b, i)
  {
    XorBitsAt(a, b, OCTET, i);
  }

  lemma {:induction false} XorBitsZero(a: nat, n: nat)
    requires a < Pow2(n)
    ensures XorBits(a, 0, n) == a
  {
    if n > 0 {
      XorBitsZero(a / 2, n - 1);
    }
  }

  lemma XorZero(a: byte)
    ensures Xor(a, 0) == a
  {
    OctetRange();
    XorBitsZero(a, OCTET);
  }

  /** Masking twice with the same octet gives the original octet back. */
  lemma XorTwice(a: byte, m: byte)
    ensures Xor(Xor(a, m), m) == a
  {
    OctetRange();
    XorBitsTwice(a, m, OCTET);
  }
}
