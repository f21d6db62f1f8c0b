/** Bytes, their integer values and the big-endian conversions used on the wire. */
module Bytes {
  type byte = bv8

  // ----- the value of a byte -----

  function Bit(b: byte, mask: byte): nat { if b & mask != 0 then 1 else 0 }

  /** The value of the four low bits. */
  function Nibble(b: byte): (v: nat)
    ensures v < 16
  {
    Bit(b, 0x01) + 2 * Bit(b, 0x02) + 4 * Bit(b, 0x04) + 8 * Bit(b, 0x08)
  }

  function Value(b: byte): (v: nat)
    ensures v < 256
  {
    16 * Nibble(b >> 4) + Nibble(b)
  }

  function ToNibble(n: nat): (b: byte)
    requires n < 16
    ensures b < 16
  {
    (if n >= 8 then 0x08 else 0) | (if n % 8 >= 4 then 0x04 else 0)
    | (if n % 4 >= 2 then 0x02 else 0) | (if n % 2 >= 1 then 0x01 else 0)
  }

  lemma NibbleRoundTrip(n: nat)
    requires n < 16
    ensures Nibble(ToNibble(n)) == n
  {
  }

  lemma Halves(high: byte, low: byte)
    requires high < 16 && low < 16
    ensures var b := (high << 4) | low;
      b >> 4 == high && Nibble(b) == Nibble(low)
  {
  }

  function ToByte(n: nat): (b: byte)
    requires n < 256
    ensures Value(b) == n
  {
    NibbleRoundTrip(n / 16);
    NibbleRoundTrip(n % 16);
    Halves(ToNibble(n / 16), ToNibble(n % 16));
    (ToNibble(n / 16) << 4) | ToNibble(n % 16)
  }

  lemma NibbleValue(b: byte)
    requires b < 16
    ensures ToNibble(Nibble(b)) == b
  {
  }

  /** Bytes and the numbers below 256 correspond one to one. */
  lemma ByteRoundTrip(b: byte)
    ensures ToByte(Value(b)) == b
  {
    NibbleValue(b >> 4);
    NibbleValue(b & 0x0F);
    assert Nibble(b) == Nibble(b & 0x0F);
    assert Value(b) / 16 == Nibble(b >> 4) && Value(b) % 16 == Nibble(b);
    assert ((b >> 4) << 4) | (b & 0x0F) == b;
  }

  // ----- 24-bit trouble code numbers -----

  const MASK24: bv32 := 0x00FF_FFFF

  function HighByte(n: bv32): byte { ((n >> 16) & 0xFF) as bv8 }
  function MiddleByte(n: bv32): byte { ((n >> 8) & 0xFF) as bv8 }
  function LowByte(n: bv32): byte { (n & 0xFF) as bv8 }

  function Join24(high: byte, middle: byte, low: byte): (n: bv32)
    ensures n & MASK24 == n
  {
    ((high as bv32) << 16) | ((middle as bv32) << 8) | (low as bv32)
  }

  lemma JoinSplit24(n: bv32)
    ensures Join24(HighByte(n), MiddleByte(n), LowByte(n)) == n & MASK24
  {
  }

  // ----- the numbers that joined bytes stand for -----

  /** The value of a byte is its built-in number. */
  lemma ValueIsNumber(b: byte)
    ensures Value(b) == b as int
  {
  }

  function Bit32(n: bv32, mask: bv32): nat { if n & mask != 0 then 1 else 0 }

  function Nibble32(n: bv32): nat {
    Bit32(n, 0x01) + 2 * Bit32(n, 0x02) + 4 * Bit32(n, 0x04) + 8 * Bit32(n, 0x08)
  }

  /** The value of the eight low bits. */
  function Octet(n: bv32): nat { 16 * Nibble32(n >> 4) + Nibble32(n) }

  /** The value of the 24 low bits. */
  function Number24(n: bv32): nat { 0x1_0000 * Octet(n >> 16) + 0x100 * Octet(n >> 8) + Octet(n) }

  function Number16(a: bv16): nat { Number24(a as bv32) }

  lemma OctetOfByte(n: bv32, b: byte)
    requires n & 0xFF == b as bv32
    ensures Octet(n) == Value(b)
  {
  }

  lemma ThreeOctets(n: bv32, high: byte, middle: byte, low: byte)
    requires (n >> 16) & 0xFF == high as bv32 && (n >> 8) & 0xFF == middle as bv32 && n & 0xFF == low as bv32
    ensures Number24(n) == 0x1_0000 * Value(high) + 0x100 * Value(middle) + Value(low)
  {
    OctetOfByte(n >> 16, high);
    OctetOfByte(n >> 8, middle);
    OctetOfByte(n, low);
  }

  lemma JoinOctets(high: byte, middle: byte, low: byte)
    ensures var n := Join24(high, middle, low);
      (n >> 16) & 0xFF == high as bv32 && (n >> 8) & 0xFF == middle as bv32 && n & 0xFF == low as bv32
  {
  }

  /** Three bytes are joined most significant first. */
  lemma JoinedNumber(high: byte, middle: byte, low: byte)
    ensures Number24(Join24(high, middle, low)) == 0x1_0000 * Value(high) + 0x100 * Value(middle) + Value(low)
  {
    JoinOctets(high, middle, low);
    ThreeOctets(Join24(high, middle, low), high, middle, low);
  }

  lemma SplitOctets(n: bv32)
    ensures (n >> 16) & 0xFF == HighByte(n) as bv32
    ensures (n >> 8) & 0xFF == MiddleByte(n) as bv32
    ensures n & 0xFF == LowByte(n) as bv32
  {
  }

  /** The three number bytes of a code are its value, most significant first. */
  lemma SplitNumber(n: bv32)
    ensures Number24(n) == 0x1_0000 * Value(HighByte(n)) + 0x100 * Value(MiddleByte(n)) + Value(LowByte(n))
  {
    SplitOctets(n);
    ThreeOctets(n, HighByte(n), MiddleByte(n), LowByte(n));
  }

  // ----- 32-bit values -----

  function BigEndian32(v: int): (s: seq<byte>)
    requires 0 <= v < 0x1_0000_0000
    ensures |s| == 4
  {
    [ToByte(v / 0x100_0000), ToByte(v / 0x1_0000 % 256), ToByte(v / 0x100 % 256), ToByte(v % 256)]
  }

  function FromBigEndian32(s: seq<byte>): int
    requires |s| == 4
  {
    Value(s[0]) * 0x100_0000 + Value(s[1]) * 0x1_0000 + Value(s[2]) * 0x100 + Value(s[3])
  }

  lemma BigEndianDigits(v: int)
    requires 0 <= v < 0x1_0000_0000
    ensures v == v / 0x100_0000 * 0x100_0000 + v / 0x1_0000 % 256 * 0x1_0000 + v / 0x100 % 256 * 0x100 + v % 256
  {
    var a := v / 0x100;
    var b := v / 0x1_0000;
    assert a == b * 256 + a % 256;
    assert b == v / 0x100_0000 * 256 + b % 256;
  }

  lemma FromFourBytes(a: nat, b: nat, c: nat, d: nat)
    requires a < 256 && b < 256 && c < 256 && d < 256
    ensures FromBigEndian32([ToByte(a), ToByte(b), ToByte(c), ToByte(d)])
         == a * 0x100_0000 + b * 0x1_0000 + c * 0x100 + d
  {
  }

  /** The four bytes are the digits of the value to the base 256, most significant first. */
  lemma BigEndianBytes(v: int)
    requires 0 <= v < 0x1_0000_0000
    ensures var s := BigEndian32(v);
      Value(s[0]) * 0x100_0000 + Value(s[1]) * 0x1_0000 + Value(s[2]) * 0x100 + Value(s[3]) == v
  {
    BigEndianRoundTrip(v);
  }

  lemma BigEndianRoundTrip(v: int)
    requires 0 <= v < 0x1_0000_0000
    ensures FromBigEndian32(BigEndian32(v)) == v
  {
    FromFourBytes(v / 0x100_0000, v / 0x1_0000 % 256, v / 0x100 % 256, v % 256);
    BigEndianDigits(v);
  }

  /** The unsigned word read back as a two's complement signed word. */
  function Signed32(v: int): int
    requires 0 <= v < 0x1_0000_0000
  {
    if v < 0x8000_0000 then v else v - 0x1_0000_0000
  }

  function Unsigned32(v: int): (u: int)
    requires -0x8000_0000 <= v < 0x8000_0000
    ensures 0 <= u < 0x1_0000_0000 && Signed32(u) == v
  {
    if v >= 0 then v else v + 0x1_0000_0000
  }
}
