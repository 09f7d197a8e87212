/** Machine-level integer helpers used by the lanplus crypto model: C's unsigned
    8- and 32-bit types, the conversions C performs when it stores into them, and
    bitwise OR on non-negative integers. */
module Bits {

  /** A `uint8_t`. */
  type byte = x: int | 0 <= x < 256

  /** A `uint32_t`. */
  type uint32 = x: int | 0 <= x < 0x1_0000_0000

  /** C's conversion of a non-negative value to `uint8_t`: reduction modulo 2^8. */
  function ToByte(x: nat): byte
  {
    x % 256
  }

  /** C's conversion of a non-negative value to `uint32_t`: reduction modulo 2^32. */
  function ToUint32(x: nat): uint32
  {
    x % 0x1_0000_0000
  }

  /** Bitwise OR of two non-negative integers, one binary digit at a time from
      the least significant end. */
  function Or(a: nat, b: nat): nat
    decreases a + b
  {
    if a == 0 then b
    else if b == 0 then a
    else 2 * Or(a / 2, b / 2) + (if a % 2 == 1 || b % 2 == 1 then 1 else 0)
  }

  /** Zero is the identity of OR on the left. */
  lemma OrZero(b: nat)
    ensures Or(0, b) == b
  {
  }

  /** OR with an even mask: the lowest bit is `b`'s own. */
  lemma OrEvenMask(a: nat, b: nat)
    ensures Or(2 * a, b) == 2 * Or(a, b / 2) + b % 2
  {
  }

  /** OR with an odd mask: the lowest bit is set. */
  lemma OrOddMask(a: nat, b: nat)
    ensures Or(2 * a + 1, b) == 2 * Or(a, b / 2) + 1
  {
  }

  /** OR with 0b111 sets the three low bits and keeps the rest. */
  lemma {:induction false} OrSeven(z: nat)
    ensures Or(7, z) == 8 * (z / 8) + 7
  {
    OrOddMask(3, z);
    OrOddMask(1, z / 2);
    OrOddMask(0, z / 4);
    OrZero(z / 8);
    assert z / 2 / 2 == z / 4;
    assert z / 4 / 2 == z / 8;
  }

  /** OR with 0x70 sets bits 4, 5 and 6 and keeps every other bit of `y`. */
  lemma {:induction false} OrSeventyHex(y: nat)
    ensures Or(0x70, y) == 128 * (y / 128) + 0x70 + y % 16
  {
    OrEvenMask(56, y);
    OrEvenMask(28, y / 2);
    OrEvenMask(14, y / 4);
    OrEvenMask(7, y / 8);
    OrSeven(y / 16);
    assert y / 2 / 2 == y / 4;
    assert y / 4 / 2 == y / 8;
    assert y / 8 / 2 == y / 16;
    assert y / 16 / 8 == y / 128;
  }

  /** OR is commutative. */
  lemma {:induction false} OrCommutes(a: nat, b: nat)
    ensures Or(a, b) == Or(b, a)
    decreases a + b
  {
    if a != 0 && b != 0 {
      OrCommutes(a / 2, b / 2);
    }
  }
}
