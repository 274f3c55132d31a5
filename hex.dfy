/** Base 16 encoding (section 8 of RFC 4648) written in lower case with a
    `0x` prefix: the ``0x${...}`` byte strings passed as Solidity `bytes`. */
module Hex {
  import opened Common
  import JsString

  /** One byte as two lower-case digits, high nibble first. */
  function EncodeByte(b: byte): (r: string)
    ensures |r| == 2
  {
    [JsString.DigitChar(b / 16), JsString.DigitChar(b % 16)]
  }

  /** `b.toString(16).padStart(2, "0")` writes exactly the two digits of
      `EncodeByte`. */
  lemma PaddedToStringIsEncodeByte(b: byte)
    ensures JsString.PadStart(JsString.NatToString(b, 16), 2, '0') == EncodeByte(b)
  {
    if b >= 16 {
      assert JsString.NatToString(b / 16, 16) == [JsString.DigitChar(b / 16)];
    }
  }

  /** The digits of every byte, joined. */
  function Encode(bs: seq<byte>): (r: string)
    ensures |r| == 2 * |bs|
    ensures forall i :: 0 <= i < |r| ==> IsLowerHexDigit(r[i])
  {
    if bs == [] then [] else EncodeByte(bs[0]) + Encode(bs[1..])
  }

  /** ``0x${hex}`` */
  function Encode0x(bs: seq<byte>): (r: string)
    ensures |r| == 2 + 2 * |bs|
    ensures r[..2] == "0x"
  {
    "0x" + Encode(bs)
  }

  predicate IsLowerHexDigit(c: char)
  {
    ('0' <= c <= '9') || ('a' <= c <= 'f')
  }

  /** The value of a lower-case hex digit, or -1. */
  function NibbleOf(c: char): (v: int)
    ensures -1 <= v < 16
    ensures v >= 0 <==> IsLowerHexDigit(c)
  {
    if '0' <= c <= '9' then c as int - '0' as int
    else if 'a' <= c <= 'f' then c as int - 'a' as int + 10
    else -1
  }

  /** Decodes pairs of lower-case digits; fails on an odd length or on any
      other character. */
  function Decode(s: string): (r: Option<seq<byte>>)
    ensures r.Some? ==> 2 * |r.value| == |s|
  {
    if s == [] then Some([])
    else if |s| == 1 then None
    else
      var hi, lo := NibbleOf(s[0]), NibbleOf(s[1]);
      if hi < 0 || lo < 0 then None
      else match Decode(s[2..])
        case None => None
        case Some(rest) => Some([hi * 16 + lo] + rest)
  }

  /** Reads a ``0x``-prefixed hex string. */
  function Decode0x(s: string): (r: Option<seq<byte>>)
  {
    if |s| >= 2 && s[..2] == "0x" then Decode(s[2..]) else None
  }

  lemma {:induction false} DecodeEncode(bs: seq<byte>)
    ensures Decode(Encode(bs)) == Some(bs)
  {
    if bs != [] {
      var e := Encode(bs);
      var b := bs[0];
      JsString.DigitRoundTrip(b / 16);
      JsString.DigitRoundTrip(b % 16);
      assert NibbleOf(e[0]) == b / 16 && NibbleOf(e[1]) == b % 16;
      assert e[2..] == Encode(bs[1..]);
      DecodeEncode(bs[1..]);
      assert [b] + bs[1..] == bs;
    }
  }

  /** The ``0x`` form decodes back to the same bytes. */
  lemma DecodeEncode0x(bs: seq<byte>)
    ensures Decode0x(Encode0x(bs)) == Some(bs)
  {
    assert Encode0x(bs)[2..] == Encode(bs);
    DecodeEncode(bs);
  }
}
