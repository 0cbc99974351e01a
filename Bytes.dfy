/** Machine integers and little-endian byte layout, as .NET's BinaryWriter
    writes them (it always writes little-endian, two's complement). */
module Bytes {

  type Byte = x: int | 0 <= x < 0x100

  /** A C# `int`. */
  type Int32 = x: int | -0x8000_0000 <= x < 0x8000_0000

  /** A C# `short`. */
  type Int16 = x: int | -0x8000 <= x < 0x8000

  const TwoTo16: int := 0x1_0000
  const TwoTo32: int := 0x1_0000_0000

  /** Unchecked 32-bit wrap-around, as C# integer arithmetic does by default. */
  function WrapInt32(x: int): (r: Int32)
    ensures (r - x) % TwoTo32 == 0
    ensures -0x8000_0000 <= x < 0x8000_0000 ==> r == x
  {
    (x + 0x8000_0000) % TwoTo32 - 0x8000_0000
  }

  /** The C# cast `(short)x` of an `int`: keeps the low 16 bits. */
  function ToInt16(x: int): (r: Int16)
    ensures (r - x) % TwoTo16 == 0
    ensures -0x8000 <= x < 0x8000 ==> r == x
  {
    (x + 0x8000) % TwoTo16 - 0x8000
  }

  /** C#'s `/` on integers: the quotient truncated toward zero. */
  function TruncDiv(a: int, d: int): (q: int)
    requires d > 0
    ensures a >= 0 ==> 0 <= a - q * d < d
    ensures a < 0 ==> -d < a - q * d <= 0
  {
    if a >= 0 then a / d else -((-a) / d)
  }

  /** The two bytes BinaryWriter.Write(short) emits: the low 16 bits, low byte first. */
  function Le16(v: int): (b: seq<Byte>)
    ensures |b| == 2
  {
    var u := v % TwoTo16;
    [u % 0x100, u / 0x100]
  }

  /** The four bytes BinaryWriter.Write(int) emits: the low 32 bits, low byte first. */
  function Le32(v: int): (b: seq<Byte>)
    ensures |b| == 4
  {
    var u := v % TwoTo32;
    [u % 0x100, (u / 0x100) % 0x100, (u / 0x100 / 0x100) % 0x100, u / 0x100 / 0x100 / 0x100]
  }

  /** The unsigned 16-bit value stored little-endian at `b[at..at+2]`. */
  function ReadU16(b: seq<Byte>, at: nat): (v: nat)
    requires at + 2 <= |b|
    ensures v < TwoTo16
  {
    b[at] as int + 0x100 * b[at + 1] as int
  }

  /** The unsigned 32-bit value stored little-endian at `b[at..at+4]`. */
  function ReadU32(b: seq<Byte>, at: nat): (v: nat)
    requires at + 4 <= |b|
    ensures v < TwoTo32
  {
    b[at] as int + 0x100 * b[at + 1] as int + 0x1_0000 * b[at + 2] as int + 0x100_0000 * b[at + 3] as int
  }

  lemma SmallMod32(x: int)
    requires 0 <= x < TwoTo32
    ensures x % TwoTo32 == x
  {
  }

  lemma SmallMod16(x: int)
    requires 0 <= x < TwoTo16
    ensures x % TwoTo16 == x
  {
  }

  lemma Le16RoundTrip(v: int)
    ensures ReadU16(Le16(v), 0) == v % TwoTo16
  {
  }

  lemma Le32RoundTrip(v: int)
    ensures ReadU32(Le32(v), 0) == v % TwoTo32
  {
    var u := v % TwoTo32;
    var q1 := u / 0x100;
    var q2 := q1 / 0x100;
    var q3 := q2 / 0x100;
    assert u == u % 0x100 + 0x100 * q1;
    assert q1 == q1 % 0x100 + 0x100 * q2;
    assert q2 == q2 % 0x100 + 0x100 * q3;
  }

  /** Values equal modulo 2^16 are written as the same two bytes. */
  lemma Le16Congruent(x: int, y: int)
    requires (x - y) % TwoTo16 == 0
    ensures Le16(x) == Le16(y)
  {
    assert x % TwoTo16 == y % TwoTo16;
  }

  /** Values equal modulo 2^32 are written as the same four bytes. */
  lemma Le32Congruent(x: int, y: int)
    requires (x - y) % TwoTo32 == 0
    ensures Le32(x) == Le32(y)
  {
    assert x % TwoTo32 == y % TwoTo32;
  }

  predicate IsAscii(s: string)
  {
    forall i :: 0 <= i < |s| ==> s[i] < 128 as char
  }

  /** The bytes BinaryWriter.Write(char[]) emits for ASCII characters (UTF-8: one byte each). */
  function Ascii(s: string): (b: seq<Byte>)
    requires IsAscii(s)
    ensures |b| == |s|
    ensures forall i :: 0 <= i < |b| ==> b[i] < 0x80
  {
    seq(|s|, i requires 0 <= i < |s| => s[i] as int)
  }

  /** Reads bytes back as characters, one character per byte. */
  function AsciiText(b: seq<Byte>): (s: string)
    ensures |s| == |b|
  {
    seq(|b|, i requires 0 <= i < |b| => b[i] as char)
  }

  /** Writing ASCII text and reading it back gives the text. */
  lemma AsciiRoundTrip(s: string)
    requires IsAscii(s)
    ensures AsciiText(Ascii(s)) == s
  {
    var t := AsciiText(Ascii(s));
    assert forall i :: 0 <= i < |s| ==> t[i] == s[i];
  }
}
