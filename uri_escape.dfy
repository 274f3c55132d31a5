/** The browser built-ins behind the metadata encoders: `encodeURIComponent`,
    the `/%([0-9A-F]{2})/g` replacement that turns each escape back into the
    character with that code, and `btoa`, which accepts only code units up
    to U+00FF. */
module UriEscape {
  import opened Common
  import Utf8
  import Base64

  /** The characters `encodeURIComponent` leaves alone. */
  predicate IsUnreserved(c: char)
  {
    ('A' <= c <= 'Z') || ('a' <= c <= 'z') || ('0' <= c <= '9') ||
    c == '-' || c == '_' || c == '.' || c == '!' || c == '~' || c == '*' ||
    c == '\'' || c == '(' || c == ')'
  }

  /** An upper-case hex digit, as the escapes are written. */
  function UpperHexChar(d: nat): (c: char)
    requires d < 16
    ensures IsUpperHexDigit(c)
  {
    if d < 10 then ('0' as int + d) as char else ('A' as int + d - 10) as char
  }

  predicate IsUpperHexDigit(c: char)
  {
    ('0' <= c <= '9') || ('A' <= c <= 'F')
  }

  function UpperHexValue(c: char): (v: nat)
    requires IsUpperHexDigit(c)
    ensures v < 16
  {
    if '0' <= c <= '9' then c as int - '0' as int else c as int - 'A' as int + 10
  }

  /** The characters that can appear in the output of `encodeURIComponent`. */
  predicate IsEscapeOutput(c: char)
  {
    IsUnreserved(c) || c == '%'
  }

  /** `%XX` for one byte. */
  function PercentByte(b: byte): (r: string)
    ensures |r| == 3 && r[0] == '%'
  {
    ['%', UpperHexChar(b / 16), UpperHexChar(b % 16)]
  }

  function PercentBytes(bs: seq<byte>): (r: string)
    ensures |r| == 3 * |bs|
    ensures forall i :: 0 <= i < |r| ==> IsEscapeOutput(r[i])
  {
    if bs == [] then [] else PercentByte(bs[0]) + PercentBytes(bs[1..])
  }

  /** What `encodeURIComponent` writes for one character. */
  function EscapeChar(c: char): (r: string)
    ensures forall i :: 0 <= i < |r| ==> IsEscapeOutput(r[i])
  {
    if IsUnreserved(c) then [c] else PercentBytes(Utf8.EncodeChar(c))
  }

  /** `encodeURIComponent(s)`. Dafny strings hold no lone surrogates, so the
      `URIError` case of the built-in cannot arise. */
  function EncodeUriComponent(s: string): (r: string)
    ensures forall i :: 0 <= i < |r| ==> IsEscapeOutput(r[i])
  {
    if s == [] then [] else EscapeChar(s[0]) + EncodeUriComponent(s[1..])
  }

  /** `s.replace(/%([0-9A-F]{2})/g, (m, p1) => String.fromCharCode(parseInt(p1, 16)))`:
      a left-to-right scan that replaces each non-overlapping match. */
  function ReplacePercentEscapes(s: string): (r: string)
    ensures |r| <= |s|
    decreases |s|
  {
    if s == [] then []
    else if s[0] == '%' && |s| >= 3 && IsUpperHexDigit(s[1]) && IsUpperHexDigit(s[2]) then
      [(UpperHexValue(s[1]) * 16 + UpperHexValue(s[2])) as char] + ReplacePercentEscapes(s[3..])
    else
      [s[0]] + ReplacePercentEscapes(s[1..])
  }

  /** Each byte as the character with that code (a "binary string"). */
  function Latin1(bs: seq<byte>): (r: string)
    ensures |r| == |bs|
    ensures forall i :: 0 <= i < |bs| ==> r[i] as int == bs[i]
  {
    seq(|bs|, i requires 0 <= i < |bs| => bs[i] as char)
  }

  /** The code units of a string all of whose characters are at most U+00FF. */
  function Latin1Bytes(s: string): (r: seq<byte>)
    requires forall i :: 0 <= i < |s| ==> s[i] as int < 256
    ensures |r| == |s|
    ensures forall i :: 0 <= i < |s| ==> r[i] == s[i] as int
  {
    seq(|s|, i requires 0 <= i < |s| => s[i] as int)
  }

  /** `btoa(s)`: the base 64 encoding of the code units, or `None` where the
      built-in throws because some character lies above U+00FF. */
  function Btoa(s: string): (r: Option<string>)
    ensures r.None? <==> exists i :: 0 <= i < |s| && s[i] as int >= 256
  {
    if forall i :: 0 <= i < |s| ==> s[i] as int < 256 then Some(Base64.Encode(Latin1Bytes(s)))
    else None
  }

  lemma ReplacePercentByte(b: byte, rest: string)
    ensures ReplacePercentEscapes(PercentByte(b) + rest) == [b as char] + ReplacePercentEscapes(rest)
  {
    var s := PercentByte(b) + rest;
    assert UpperHexValue(s[1]) == b / 16 && UpperHexValue(s[2]) == b % 16;
    assert s[3..] == rest;
  }

  lemma {:induction false} ReplacePercentBytes(bs: seq<byte>, rest: string)
    ensures ReplacePercentEscapes(PercentBytes(bs) + rest) == Latin1(bs) + ReplacePercentEscapes(rest)
  {
    if bs == [] {
      assert PercentBytes(bs) + rest == rest;
    } else {
      var tail := PercentBytes(bs[1..]) + rest;
      calc {
        ReplacePercentEscapes(PercentBytes(bs) + rest);
      == { assert PercentBytes(bs) + rest == PercentByte(bs[0]) + tail; }
        ReplacePercentEscapes(PercentByte(bs[0]) + tail);
      == { ReplacePercentByte(bs[0], tail); }
        [bs[0] as char] + ReplacePercentEscapes(tail);
      == { ReplacePercentBytes(bs[1..], rest); }
        [bs[0] as char] + (Latin1(bs[1..]) + ReplacePercentEscapes(rest));
      == { assert Latin1(bs) == [bs[0] as char] + Latin1(bs[1..]); }
        Latin1(bs) + ReplacePercentEscapes(rest);
      }
    }
  }

  lemma Latin1Append(a: seq<byte>, b: seq<byte>)
    ensures Latin1(a + b) == Latin1(a) + Latin1(b)
  {
  }

  /** The replacement undoes `encodeURIComponent` down to the UTF-8 bytes:
      the result holds one character per byte of the UTF-8 encoding, which is
      what lets `btoa` accept text with any code point. */
  lemma {:induction false} ReplaceAfterEncodeIsUtf8(s: string)
    ensures ReplacePercentEscapes(EncodeUriComponent(s)) == Latin1(Utf8.Encode(s))
  {
    if s != [] {
      var c, rest := s[0], EncodeUriComponent(s[1..]);
      ReplaceAfterEncodeIsUtf8(s[1..]);
      if IsUnreserved(c) {
        assert ([c] + rest)[1..] == rest;
        assert Utf8.EncodeChar(c) == [c as int];
      } else {
        ReplacePercentBytes(Utf8.EncodeChar(c), rest);
      }
      Latin1Append(Utf8.EncodeChar(c), Utf8.Encode(s[1..]));
    }
  }

  /** `btoa` of a binary string is the base 64 encoding of its bytes. */
  lemma BtoaLatin1(bs: seq<byte>)
    ensures Btoa(Latin1(bs)) == Some(Base64.Encode(bs))
  {
    assert Latin1Bytes(Latin1(bs)) == bs;
  }

  /** On ASCII text the UTF-8 bytes are the code units themselves. */
  lemma {:induction false} Utf8OfAscii(s: string)
    requires forall i :: 0 <= i < |s| ==> s[i] as int < 0x80
    ensures Latin1(Utf8.Encode(s)) == s
  {
    if s != [] {
      Utf8OfAscii(s[1..]);
      Latin1Append(Utf8.EncodeChar(s[0]), Utf8.Encode(s[1..]));
      assert s == [s[0]] + s[1..];
    }
  }
}
