/** The base64 alphabet and padding of section 4 of RFC 4648, as used by
    Convert.ToBase64String (no line breaks) and Convert.FromBase64String. */
module Base64 {
  import opened Bytes
  import opened Wrappers
  import Seqs

  /** The character that stands for the 6-bit value `v`. */
  function Symbol(v: nat): (c: char)
    requires v < 64
  {
    if v < 26 then (65 + v) as char           // 'A'..'Z'
    else if v < 52 then (97 + v - 26) as char // 'a'..'z'
    else if v < 62 then (48 + v - 52) as char // '0'..'9'
    else if v == 62 then '+'
    else '/'
  }

  /** The 6-bit value of an alphabet character; None for any other character (padding included). */
  function Value(c: char): (r: Option<nat>)
    ensures r.Some? ==> r.value < 64 && Symbol(r.value) == c
  {
    if 'A' <= c <= 'Z' then Some(c as int - 65)
    else if 'a' <= c <= 'z' then Some(c as int - 97 + 26)
    else if '0' <= c <= '9' then Some(c as int - 48 + 52)
    else if c == '+' then Some(62)
    else if c == '/' then Some(63)
    else None
  }

  lemma ValueOfSymbol(v: nat)
    requires v < 64
    ensures Value(Symbol(v)) == Some(v)
  {
  }

  /** Three bytes as four characters. */
  function FullGroup(x: Byte, y: Byte, z: Byte): (q: string)
    ensures |q| == 4
  {
    [Symbol(x / 4), Symbol((x % 4) * 16 + y / 16), Symbol((y % 16) * 4 + z / 64), Symbol(z % 64)]
  }

  /** A final two bytes as three characters and one `=`. */
  function TwoGroup(x: Byte, y: Byte): (q: string)
    ensures |q| == 4
  {
    [Symbol(x / 4), Symbol((x % 4) * 16 + y / 16), Symbol((y % 16) * 4), '=']
  }

  /** A final byte as two characters and two `=`. */
  function OneGroup(x: Byte): (q: string)
    ensures |q| == 4
  {
    [Symbol(x / 4), Symbol((x % 4) * 16), '=', '=']
  }

  /** Encodes each group of three bytes as four characters; a final group of
      one or two bytes is padded with `=` to four characters. */
  function Encode(b: seq<Byte>): (s: string)
    ensures |s| == 4 * ((|b| + 2) / 3)
    decreases |b|
  {
    if |b| == 0 then ""
    else if |b| == 1 then OneGroup(b[0])
    else if |b| == 2 then TwoGroup(b[0], b[1])
    else
      assert (|b| + 2) / 3 == (|b| - 3 + 2) / 3 + 1;
      FullGroup(b[0], b[1], b[2]) + Encode(b[3..])
  }

  /** Four alphabet characters without padding: three bytes. */
  function DecodeFull(q: string): Option<seq<Byte>>
    requires |q| == 4
  {
    match (Value(q[0]), Value(q[1]), Value(q[2]), Value(q[3]))
    case (Some(a), Some(b), Some(c), Some(d)) =>
      Some([a * 4 + b / 16, (b % 16) * 16 + c / 4, (c % 4) * 64 + d])
    case _ => None
  }

  /** The last group, which may end in one or two padding characters.  The
      bits a padded group leaves unused are not checked. */
  function DecodeLast(q: string): Option<seq<Byte>>
    requires |q| == 4
  {
    if q[2] == '=' && q[3] == '=' then
      match (Value(q[0]), Value(q[1]))
      case (Some(a), Some(b)) => Some([a * 4 + b / 16])
      case _ => None
    else if q[3] == '=' then
      match (Value(q[0]), Value(q[1]), Value(q[2]))
      case (Some(a), Some(b), Some(c)) => Some([a * 4 + b / 16, (b % 16) * 16 + c / 4])
      case _ => None
    else DecodeFull(q)
  }

  function DecodeGroups(s: string): (r: Option<seq<Byte>>)
    requires |s| % 4 == 0
    ensures r.Some? ==> |r.value| <= 3 * (|s| / 4) <= |r.value| + 2
    decreases |s|
  {
    if |s| == 0 then Some([])
    else if |s| == 4 then DecodeLast(s)
    else match DecodeFull(s[..4])
      case None => None
      case Some(head) =>
        match DecodeGroups(s[4..])
        case None => None
        case Some(tail) => Some(head + tail)
  }

  /** Decodes a base64 string; None where Convert.FromBase64String throws a
      FormatException (length not a multiple of four, a character outside the
      alphabet, padding anywhere but at the end). */
  function Decode(s: string): (r: Option<seq<Byte>>)
    ensures r.Some? ==> |s| % 4 == 0
    ensures r.Some? ==> |r.value| <= 3 * (|s| / 4) <= |r.value| + 2
  {
    if |s| % 4 != 0 then None else DecodeGroups(s)
  }

  /** The three 6-bit values of a full group give back its three bytes. */
  lemma DecodeFullGroup(x: Byte, y: Byte, z: Byte)
    ensures DecodeFull(FullGroup(x, y, z)) == Some([x, y, z])
  {
    var b := (x % 4) * 16 + y / 16;
    assert b / 16 == x % 4 && b % 16 == y / 16;
    var c := (y % 16) * 4 + z / 64;
    assert c / 4 == y % 16 && c % 4 == z / 64;
    ValueOfSymbol(x / 4);
    ValueOfSymbol(b);
    ValueOfSymbol(c);
    ValueOfSymbol(z % 64);
  }

  /** An unpadded last group decodes as a full one. */
  lemma DecodeLastFullGroup(x: Byte, y: Byte, z: Byte)
    ensures DecodeLast(FullGroup(x, y, z)) == Some([x, y, z])
  {
    var q := FullGroup(x, y, z);
    assert q[3] != '=';
    DecodeFullGroup(x, y, z);
  }

  /** A final group of two bytes survives its padding. */
  lemma DecodeTwoGroup(x: Byte, y: Byte)
    ensures DecodeLast(TwoGroup(x, y)) == Some([x, y])
  {
    var b := (x % 4) * 16 + y / 16;
    assert b / 16 == x % 4 && b % 16 == y / 16;
    ValueOfSymbol(x / 4);
    ValueOfSymbol(b);
    ValueOfSymbol((y % 16) * 4);
  }

  /** A final group of one byte survives its padding. */
  lemma DecodeOneGroup(x: Byte)
    ensures DecodeLast(OneGroup(x)) == Some([x])
  {
    ValueOfSymbol(x / 4);
    ValueOfSymbol((x % 4) * 16);
  }

  lemma DecodeOneQuad(q: string)
    requires |q| == 4
    ensures Decode(q) == DecodeLast(q)
  {
  }

  /** A full group in front of further groups decodes to its bytes in front of theirs. */
  lemma DecodeCons(q: string, rest: string, head: seq<Byte>, tail: seq<Byte>)
    requires |q| == 4 && |rest| % 4 == 0 && |rest| > 0
    requires DecodeFull(q) == Some(head) && Decode(rest) == Some(tail)
    ensures Decode(q + rest) == Some(head + tail)
  {
    var s := q + rest;
    assert s[..4] == q && s[4..] == rest;
  }

  lemma RoundTripOne(x: Byte)
    ensures Decode(Encode([x])) == Some([x])
  {
    assert Encode([x]) == OneGroup(x);
    DecodeOneGroup(x);
    DecodeOneQuad(OneGroup(x));
  }

  lemma RoundTripTwo(x: Byte, y: Byte)
    ensures Decode(Encode([x, y])) == Some([x, y])
  {
    assert Encode([x, y]) == TwoGroup(x, y);
    DecodeTwoGroup(x, y);
    DecodeOneQuad(TwoGroup(x, y));
  }

  lemma RoundTripThree(x: Byte, y: Byte, z: Byte)
    ensures Decode(Encode([x, y, z])) == Some([x, y, z])
  {
    assert [x, y, z][3..] == [];
    assert Encode([x, y, z]) == FullGroup(x, y, z) + "" == FullGroup(x, y, z);
    DecodeLastFullGroup(x, y, z);
    DecodeOneQuad(FullGroup(x, y, z));
  }

  /** A full group in front of bytes that round-trip round-trips too. */
  lemma RoundTripCons(b: seq<Byte>)
    requires |b| > 3
    requires Decode(Encode(b[3..])) == Some(b[3..])
    ensures Decode(Encode(b)) == Some(b)
  {
    var head := FullGroup(b[0], b[1], b[2]);
    DecodeFullGroup(b[0], b[1], b[2]);
    Seqs.TakeThree(b);
    assert Encode(b) == head + Encode(b[3..]);
    DecodeCons(head, Encode(b[3..]), b[..3], b[3..]);
    Seqs.SplitAt(b, 3);
  }

  /** Decoding undoes encoding, for every byte sequence. */
  lemma {:induction false} DecodeEncode(b: seq<Byte>)
    ensures Decode(Encode(b)) == Some(b)
    decreases |b|
  {
    if |b| == 1 {
      assert b == [b[0]];
      RoundTripOne(b[0]);
    } else if |b| == 2 {
      assert b == [b[0], b[1]];
      RoundTripTwo(b[0], b[1]);
    } else if |b| == 3 {
      assert b == [b[0], b[1], b[2]];
      RoundTripThree(b[0], b[1], b[2]);
    } else if |b| > 3 {
      DecodeEncode(b[3..]);
      RoundTripCons(b);
    }
  }
}
