/** Integer widths of the C firmware, the little-endian byte encodings its records
    and commands use, and an Option type for values that may be absent. */
module Basics {

  datatype Option<+T> = None | Some(value: T)

  type byte = x: int | 0 <= x < 0x100
  type u16 = x: int | 0 <= x < 0x1_0000
  type i16 = x: int | -0x8000 <= x < 0x8000
  type u32 = x: int | 0 <= x < 0x1_0000_0000

  /** A run of `n` copies of `b` (what memset leaves behind). */
  function Fill(b: byte, n: nat): (r: seq<byte>)
    ensures |r| == n
    ensures forall i :: 0 <= i < n ==> r[i] == b
  {
    seq(n, _ => b)
  }

  /** C's conversion of an int to uint16_t: reduction modulo 2^16. */
  function ToU16(x: int): (r: u16)
    ensures (x - r) % 0x1_0000 == 0
    ensures 0 <= x < 0x1_0000 ==> r == x
  {
    x % 0x1_0000
  }

  /** The conversion of an int to int16_t on the two's-complement target:
      the representative of x modulo 2^16 in [-2^15, 2^15). */
  function ToI16(x: int): (r: i16)
    ensures (x - r) % 0x1_0000 == 0
    ensures -0x8000 <= x < 0x8000 ==> r == x
  {
    var u := x % 0x1_0000;
    if u < 0x8000 then u else u - 0x1_0000
  }

  /** Little-endian bytes of a uint16_t, low byte first. */
  function EncodeU16(x: u16): (r: seq<byte>)
    ensures |r| == 2
    ensures r[0] as int + 0x100 * r[1] as int == x
  {
    [x % 0x100, x / 0x100]
  }

  /** `lo | hi << 8` on two bytes, as the firmware assembles a uint16_t. */
  function DecodeU16(lo: byte, hi: byte): (r: u16)
    ensures EncodeU16(r) == [lo, hi]
  {
    lo as int + 0x100 * hi as int
  }

  lemma U16RoundTrip(x: u16)
    ensures DecodeU16(EncodeU16(x)[0], EncodeU16(x)[1]) == x
  {
  }

  /** Two's-complement little-endian bytes of an int16_t. */
  function EncodeI16(x: i16): (r: seq<byte>)
    ensures |r| == 2
  {
    EncodeU16(ToU16(x))
  }

  /** `lo | hi << 8` stored into an int16_t. */
  function DecodeI16(lo: byte, hi: byte): (r: i16)
  {
    ToI16(DecodeU16(lo, hi))
  }

  lemma {:induction false} I16RoundTrip(x: i16)
    ensures DecodeI16(EncodeI16(x)[0], EncodeI16(x)[1]) == x
  {
    var e := EncodeI16(x);
    assert DecodeU16(e[0], e[1]) == ToU16(x);
  }

  lemma {:induction false} I16BytesRoundTrip(lo: byte, hi: byte)
    ensures EncodeI16(DecodeI16(lo, hi)) == [lo, hi]
  {
    var u := DecodeU16(lo, hi);
    assert ToU16(ToI16(u)) == u;
  }

  /** Little-endian bytes of a uint32_t. */
  function EncodeU32(x: u32): (r: seq<byte>)
    ensures |r| == 4
  {
    EncodeU16(x % 0x1_0000) + EncodeU16(x / 0x1_0000)
  }

  function DecodeU32(s: seq<byte>): (r: u32)
    requires |s| == 4
  {
    DecodeU16(s[0], s[1]) as int + 0x1_0000 * DecodeU16(s[2], s[3]) as int
  }

  lemma {:induction false} U32RoundTrip(x: u32)
    ensures DecodeU32(EncodeU32(x)) == x
  {
    var e := EncodeU32(x);
    assert e[..2] == EncodeU16(x % 0x1_0000);
    assert e[2..] == EncodeU16(x / 0x1_0000);
  }

  /** Quotient and remainder by 2^16 are determined by any split of x into a
      multiple of 2^16 and a remainder in range. */
  lemma {:induction false} DivModOf(x: int, q: int, r: int)
    requires 0 <= r < 0x1_0000 && x == q * 0x1_0000 + r
    ensures x / 0x1_0000 == q && x % 0x1_0000 == r
  {
  }

  lemma {:induction false} U32BytesRoundTrip(s: seq<byte>)
    requires |s| == 4
    ensures EncodeU32(DecodeU32(s)) == s
  {
    var lo, hi := DecodeU16(s[0], s[1]), DecodeU16(s[2], s[3]);
    var x := DecodeU32(s);
    DivModOf(x, hi as int, lo as int);
    assert EncodeU32(x) == [s[0], s[1]] + [s[2], s[3]];
  }
}
