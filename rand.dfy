/** `lanplus_rand` as compiled: `IPMI_LANPLUS_FAKE_RAND` is defined right above
    the `#ifdef`, so the function always fills the buffer with the recognisable
    pattern `0x70 | i` and reports success. */
module LanplusRand {
  import opened Bits

  /** The byte the fake generator stores at index `i`: the C expression
      `0x70 | i`, computed on `int` and then stored into a `uint8_t`. */
  function FakeByte(i: nat): byte
  {
    ToByte(Or(0x70, i))
  }

  /** The first `n` bytes of the fake pattern. */
  function FakePattern(n: nat): (s: seq<byte>)
    ensures |s| == n
    ensures forall i :: 0 <= i < n ==> s[i] == FakeByte(i)
  {
    if n == 0 then [] else FakePattern(n - 1) + [FakeByte(n - 1)]
  }

  /** Truncating after the OR is the same as OR-ing 0x70 into the low byte of
      the index: `(0x70 | i) mod 256 == 0x70 | (i mod 256)`. Concretely the
      byte keeps bit 7 and bits 0-3 of the index and has bits 4-6 set. */
  lemma {:induction false} FakeByteLowByte(i: nat)
    ensures FakeByte(i) == Or(0x70, i % 256)
    ensures FakeByte(i) == 0x80 * (i / 128 % 2) + 0x70 + i % 16
  {
    var r := i % 256;
    var low := Or(0x70, r);
    OrHighBytes(i);
    OrSeventyHex(r);
    LowByteDigits(i);
    assert low == 0x80 * (i / 128 % 2) + 0x70 + i % 16;
    TruncateHighBytes(i / 256, low);
  }

  /** Bit 7 and bits 0-3 of the low byte of `i` are those of `i`. */
  lemma LowByteDigits(i: nat)
    ensures i % 256 / 128 == i / 128 % 2
    ensures i % 256 % 16 == i % 16
  {
  }

  /** OR with 0x70 only touches the low byte: the higher bytes of `i` pass through. */
  lemma OrHighBytes(i: nat)
    ensures Or(0x70, i) == 256 * (i / 256) + Or(0x70, i % 256)
  {
    OrSeventyHex(i);
    OrSeventyHex(i % 256);
    SplitLowByte(i, Or(0x70, i), Or(0x70, i % 256));
  }

  /** The arithmetic behind `OrHighBytes`: the closed form of `0x70 | i`
      differs from that of `0x70 | (i mod 256)` by the bytes above the lowest. */
  lemma SplitLowByte(i: nat, x: nat, y: nat)
    requires x == 128 * (i / 128) + 0x70 + i % 16
    requires y == 128 * (i % 256 / 128) + 0x70 + i % 256 % 16
    ensures x == 256 * (i / 256) + y
  {
    var r := i % 256;
    assert i / 128 == 2 * (i / 256) + r / 128;
    assert i % 16 == r % 16;
  }

  /** Storing `256 * q + low` into a byte keeps `low`. */
  lemma TruncateHighBytes(q: nat, low: nat)
    requires low < 256
    ensures ToByte(256 * q + low) == low
  {
  }

  /** Every byte of the pattern has the bits of 0x70 set, which is what makes it
      easy to spot in a hex dump: bits 4-6 are ones, and OR-ing 0x70 into the
      byte again changes nothing. */
  lemma FakeByteMarked(i: nat)
    ensures FakeByte(i) / 16 % 8 == 7
    ensures Or(FakeByte(i), 0x70) == FakeByte(i)
  {
    var b := FakeByte(i);
    FakeByteLowByte(i);
    OrCommutes(b, 0x70);
    OrSeventyHex(b);
    MarkedDigits(b, i / 128 % 2, i % 16);
  }

  /** The arithmetic behind `FakeByteMarked`: a byte made of bit 7 `x`, the
      bits of 0x70 and low nibble `y` has bits 4-6 set and is its own closed
      form under OR with 0x70. */
  lemma MarkedDigits(b: nat, x: nat, y: nat)
    requires x < 2 && y < 16 && b == 0x80 * x + 0x70 + y
    ensures b / 16 % 8 == 7
    ensures 128 * (b / 128) + 0x70 + b % 16 == b
  {
  }

  /** The pattern does not depend on how many bytes are requested: a shorter
      request yields a prefix of a longer one. */
  lemma FakePatternPrefix(n: nat, m: nat)
    requires n <= m
    ensures FakePattern(n) == FakePattern(m)[..n]
  {
  }

  /** `lanplus_rand(buffer, num_bytes)`: writes the fake pattern into
      `buffer[0 .. num_bytes)`, leaves the rest of the buffer alone and
      returns 0. */
  method Rand(buffer: array<byte>, numBytes: uint32) returns (status: int)
    requires numBytes <= buffer.Length
    modifies buffer
    ensures status == 0
    ensures buffer[..numBytes] == FakePattern(numBytes)
    ensures buffer[numBytes..] == old(buffer[numBytes..])
  {
    var i: nat := 0;
    while i < numBytes
      invariant i <= numBytes
      invariant forall k :: 0 <= k < i ==> buffer[k] == FakeByte(k)
      invariant forall k :: numBytes <= k < buffer.Length ==> buffer[k] == old(buffer[k])
    {
      buffer[i] := ToByte(Or(0x70, i));
      i := i + 1;
    }
    status := 0;
  }
}
