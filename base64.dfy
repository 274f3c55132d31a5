/** Base 64 encoding with padding, section 4 of RFC 4648: the output of
    `btoa`, and a decoder for it. */
module Base64 {
  import opened Common

  /** The character of a 6-bit value (table 1 of section 4). */
  function CharOf(d: int): (c: char)
    requires 0 <= d < 64
    ensures c != '='
  {
    if d < 26 then ('A' as int + d) as char
    else if d < 52 then ('a' as int + d - 26) as char
    else if d < 62 then ('0' as int + d - 52) as char
    else if d == 62 then '+'
    else '/'
  }

  /** The 6-bit value of an alphabet character, or -1. */
  function IndexOf(c: char): (d: int)
    ensures -1 <= d < 64
  {
    if 'A' <= c <= 'Z' then c as int - 'A' as int
    else if 'a' <= c <= 'z' then c as int - 'a' as int + 26
    else if '0' <= c <= '9' then c as int - '0' as int + 52
    else if c == '+' then 62
    else if c == '/' then 63
    else -1
  }

  lemma IndexOfCharOf(d: int)
    requires 0 <= d < 64
    ensures IndexOf(CharOf(d)) == d
  {
  }

  /** Three bytes as four characters. */
  function EncodeBlock(b0: byte, b1: byte, b2: byte): (r: string)
    ensures |r| == 4
  {
    [CharOf(b0 / 4), CharOf((b0 % 4) * 16 + b1 / 16), CharOf((b1 % 16) * 4 + b2 / 64), CharOf(b2 % 64)]
  }

  /** A final group of one byte: two characters and `==`. */
  function EncodeFinalOne(b0: byte): (r: string)
    ensures |r| == 4
  {
    [CharOf(b0 / 4), CharOf((b0 % 4) * 16), '=', '=']
  }

  /** A final group of two bytes: three characters and `=`. */
  function EncodeFinalTwo(b0: byte, b1: byte): (r: string)
    ensures |r| == 4
  {
    [CharOf(b0 / 4), CharOf((b0 % 4) * 16 + b1 / 16), CharOf((b1 % 16) * 4), '=']
  }

  /** The whole encoding; a final group of one or two bytes is padded with `=`. */
  function Encode(b: seq<byte>): (r: string)
    ensures |r| == 4 * ((|b| + 2) / 3)
    decreases |b|
  {
    if |b| == 0 then []
    else if |b| == 1 then EncodeFinalOne(b[0])
    else if |b| == 2 then EncodeFinalTwo(b[0], b[1])
    else EncodeBlock(b[0], b[1], b[2]) + Encode(b[3..])
  }

  /** Four characters, the last one or two of which may be padding when the
      group is the final one. */
  function DecodeGroup(q: string, last: bool): (r: Option<seq<byte>>)
    requires |q| == 4
    ensures r.Some? ==> 1 <= |r.value| <= 3
  {
    var d0, d1, d2, d3 := IndexOf(q[0]), IndexOf(q[1]), IndexOf(q[2]), IndexOf(q[3]);
    if d0 < 0 || d1 < 0 then None
    else if last && q[2] == '=' && q[3] == '=' then
      Some([d0 * 4 + d1 / 16])
    else if d2 < 0 then None
    else if last && q[3] == '=' then
      Some([d0 * 4 + d1 / 16, (d1 % 16) * 16 + d2 / 4])
    else if d3 < 0 then None
    else Some([d0 * 4 + d1 / 16, (d1 % 16) * 16 + d2 / 4, (d2 % 4) * 64 + d3])
  }

  /** Decodes a padded base 64 string; fails on any length that is not a
      multiple of four, and on characters outside the alphabet. */
  function Decode(s: string): Option<seq<byte>>
    decreases |s|
  {
    if |s| == 0 then Some([])
    else if |s| < 4 then None
    else match DecodeGroup(s[..4], |s| == 4)
      case None => None
      case Some(g) =>
        match Decode(s[4..])
        case None => None
        case Some(rest) => Some(g + rest)
  }

  lemma DecodeEncodeBlock(b0: byte, b1: byte, b2: byte)
    ensures DecodeGroup(EncodeBlock(b0, b1, b2), false) == Some([b0, b1, b2])
    ensures DecodeGroup(EncodeBlock(b0, b1, b2), true) == Some([b0, b1, b2])
  {
    var d0, d1, d2, d3 := b0 / 4, (b0 % 4) * 16 + b1 / 16, (b1 % 16) * 4 + b2 / 64, b2 % 64;
    IndexOfCharOf(d0);
    IndexOfCharOf(d1);
    IndexOfCharOf(d2);
    IndexOfCharOf(d3);
    assert d1 / 16 == b0 % 4 && d1 % 16 == b1 / 16;
    assert d2 / 4 == b1 % 16 && d2 % 4 == b2 / 64;
  }

  lemma DecodePaddedTwo(d0: int, d1: int)
    requires 0 <= d0 < 64 && 0 <= d1 < 64
    ensures DecodeGroup([CharOf(d0), CharOf(d1), '=', '='], true) == Some([d0 * 4 + d1 / 16])
  {
    IndexOfCharOf(d0);
    IndexOfCharOf(d1);
  }

  lemma DecodePaddedOne(d0: int, d1: int, d2: int)
    requires 0 <= d0 < 64 && 0 <= d1 < 64 && 0 <= d2 < 64
    ensures DecodeGroup([CharOf(d0), CharOf(d1), CharOf(d2), '='], true)
         == Some([d0 * 4 + d1 / 16, (d1 % 16) * 16 + d2 / 4])
  {
    IndexOfCharOf(d0);
    IndexOfCharOf(d1);
    IndexOfCharOf(d2);
  }

  lemma DecodeFinalOne(b0: byte)
    ensures DecodeGroup(EncodeFinalOne(b0), true) == Some([b0])
  {
    var d0, d1 := b0 / 4, (b0 % 4) * 16;
    DecodePaddedTwo(d0, d1);
    assert d1 / 16 == b0 % 4;
  }

  lemma TwoByteDigits(b0: byte, b1: byte)
    ensures var d0, d1, d2 := b0 / 4, (b0 % 4) * 16 + b1 / 16, (b1 % 16) * 4;
      d0 * 4 + d1 / 16 == b0 && (d1 % 16) * 16 + d2 / 4 == b1
  {
    var d1 := (b0 % 4) * 16 + b1 / 16;
    assert d1 / 16 == b0 % 4;
    assert d1 % 16 == b1 / 16;
  }

  lemma DecodeFinalTwo(b0: byte, b1: byte)
    ensures DecodeGroup(EncodeFinalTwo(b0, b1), true) == Some([b0, b1])
  {
    var d0, d1, d2 := b0 / 4, (b0 % 4) * 16 + b1 / 16, (b1 % 16) * 4;
    DecodePaddedOne(d0, d1, d2);
    TwoByteDigits(b0, b1);
  }

  /** A final group of one or two bytes decodes to those bytes. */
  lemma DecodeEncodeFinal(b: seq<byte>)
    requires 1 <= |b| <= 2
    ensures Decode(Encode(b)) == Some(b)
  {
    var e := Encode(b);
    if |b| == 1 {
      DecodeFinalOne(b[0]);
      assert b == [b[0]];
    } else {
      DecodeFinalTwo(b[0], b[1]);
      assert b == [b[0], b[1]];
    }
    assert e[..4] == e && e[4..] == [];
    assert b + [] == b;
  }

  /** A group followed by a well-formed rest decodes to the group's bytes
      followed by the rest's. */
  lemma DecodeAppend(q: string, t: string, g: seq<byte>, r: seq<byte>)
    requires |q| == 4
    requires DecodeGroup(q, t == []) == Some(g) && Decode(t) == Some(r)
    ensures Decode(q + t) == Some(g + r)
  {
    var s := q + t;
    assert s[..4] == q && s[4..] == t;
  }

  /** A full group in front of bytes that round-trip round-trips too. */
  lemma DecodeEncodeStep(b: seq<byte>)
    requires |b| >= 3 && Decode(Encode(b[3..])) == Some(b[3..])
    ensures Decode(Encode(b)) == Some(b)
  {
    var rest := b[3..];
    var q := EncodeBlock(b[0], b[1], b[2]);
    assert Encode(b) == q + Encode(rest);
    DecodeEncodeBlock(b[0], b[1], b[2]);
    DecodeAppend(q, Encode(rest), [b[0], b[1], b[2]], rest);
    SplitThree(b);
  }

  lemma SplitThree<T>(b: seq<T>)
    requires |b| >= 3
    ensures [b[0], b[1], b[2]] + b[3..] == b
  {
  }

  /** Decoding what `Encode` produced gives back the bytes (the payload of a
      `;base64` data URI decodes to exactly the encoded octets). */
  lemma {:induction false} DecodeEncode(b: seq<byte>)
    ensures Decode(Encode(b)) == Some(b)
    decreases |b|
  {
    if 1 <= |b| <= 2 {
      DecodeEncodeFinal(b);
    } else if |b| >= 3 {
      DecodeEncode(b[3..]);
      DecodeEncodeStep(b);
    }
  }

  /** Every character of an encoding is in the alphabet or is `=`; none is
      above U+007F, so the result is safe in a URI. */
  lemma {:induction false} EncodeIsAscii(b: seq<byte>)
    ensures forall i :: 0 <= i < |Encode(b)| ==> Encode(b)[i] as int < 0x80
    decreases |b|
  {
    if |b| >= 3 {
      EncodeIsAscii(b[3..]);
    }
  }
}
