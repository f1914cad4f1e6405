/** Fixed-width integers, little-endian coding and byte sums, as the C++ helpers compute them. */
module Bytes {
  type byte = x: int | 0 <= x < 0x100
  type uint16 = x: int | 0 <= x < 0x1_0000
  type uint64 = x: int | 0 <= x < 0x1_0000_0000_0000_0000

  /** A cast to uint8_t, also of a negative int16_t. */
  function LowByte(v: int): byte {
    v % 0x100
  }

  /** A shift right by eight (arithmetic when negative) and a cast to uint8_t. */
  function HighByte(v: int): byte {
    (v / 0x100) % 0x100
  }

  /** Two bytes as an unsigned integer, low byte first. */
  function Uint16(low: byte, high: byte): uint16 {
    var l: int, h: int := low, high;
    l + 0x100 * h
  }

  function ReadUint16(buffer: seq<byte>): uint16
    requires |buffer| >= 2
  {
    Uint16(buffer[0], buffer[1])
  }

  function ReadInt16(buffer: seq<byte>): int
    requires |buffer| >= 2
  {
    var raw: int := Uint16(buffer[0], buffer[1]);
    if raw < 0x8000 then raw else raw - 0x1_0000
  }

  function ReadInt32(buffer: seq<byte>): int
    requires |buffer| >= 4
  {
    var low: int, high: int := Uint16(buffer[0], buffer[1]), Uint16(buffer[2], buffer[3]);
    var raw := low + 0x1_0000 * high;
    if raw < 0x8000_0000 then raw else raw - 0x1_0000_0000
  }

  /** The difference of two uint64_t time stamps. */
  function Elapsed(now: uint64, since: uint64): uint64 {
    (now - since) % 0x1_0000_0000_0000_0000
  }

  /** A cast of a double to an integer type: truncation toward zero. */
  function Truncate(x: real): int {
    if x >= 0.0 then x.Floor else -((-x).Floor)
  }

  /** The integer nearest to x on the side of zero. */
  lemma TruncateIsTowardZero(x: real)
    ensures x >= 0.0 ==> Truncate(x) as real <= x < Truncate(x) as real + 1.0
    ensures Truncate(-x) == -Truncate(x)
  {
  }

  function Sum(bytes: seq<byte>): nat {
    if bytes == [] then 0 else Sum(bytes[..|bytes| - 1]) + bytes[|bytes| - 1]
  }

  function Checksum(bytes: seq<byte>): byte {
    Sum(bytes) % 0x100
  }

  lemma {:induction false} SumAppend(a: seq<byte>, b: seq<byte>)
    ensures Sum(a + b) == Sum(a) + Sum(b)
  {
    if b == [] {
      assert a + b == a;
    } else {
      SumAppend(a, b[..|b| - 1]);
      assert (a + b)[..|a + b| - 1] == a + b[..|b| - 1];
    }
  }

  lemma {:induction false} SumSingle(b: byte)
    ensures Sum([b]) == b
  {
    assert [b][..0] == [];
  }

  /** Adding to a uint8_t accumulator: truncating early or late makes no difference. */
  lemma AddModulo(a: int, b: int)
    ensures (a % 0x100 + b) % 0x100 == (a + b) % 0x100
  {
    var q := a / 0x100;
    assert a + b == 0x100 * q + (a % 0x100 + b);
  }

  /** The two bytes written for any value in range are read back as that value. */
  lemma LittleEndianRoundTrip(v: int)
    ensures 0 <= v < 0x1_0000 ==> ReadUint16([LowByte(v), HighByte(v)]) == v
    ensures -0x8000 <= v < 0x8000 ==> ReadInt16([LowByte(v), HighByte(v)]) == v
  {
    var q, low := v / 0x100, v % 0x100;
    assert v == 0x100 * q + low;
    assert 0 <= v < 0x1_0000 ==> 0 <= q < 0x100;
    assert -0x8000 <= v < 0 ==> -0x80 <= q < 0;
    assert 0 <= v < 0x8000 ==> 0 <= q < 0x80;
  }
}
