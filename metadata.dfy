/** Deed metadata: the JSON values the mint flows build, and the
    `data:application/json;base64,` URIs (RFC 2397) that carry them.
    `JSON.stringify` itself is not modelled; it is a parameter wherever the
    text of a value is needed. */
module Metadata {
  import opened Common
  import Utf8
  import Base64
  import UriEscape

  /** A JSON value as built by an object literal; members keep their order. */
  datatype Json =
    | JNull
    | JBool(b: bool)
    | JStr(s: string)
    | JArr(items: seq<Json>)
    | JObj(members: seq<(string, Json)>)

  /** The member names of an object value, in order. */
  function Keys(members: seq<(string, Json)>): (r: seq<string>)
    ensures |r| == |members|
    ensures forall i :: 0 <= i < |r| ==> r[i] == members[i].0
  {
    if members == [] then [] else [members[0].0] + Keys(members[1..])
  }

  /** An array of strings, as `files.map(f => f.name)` produces. */
  function StrArray(ss: seq<string>): (r: Json)
    ensures r.JArr? && |r.items| == |ss|
    ensures forall i :: 0 <= i < |ss| ==> r.items[i] == JStr(ss[i])
  {
    JArr(seq(|ss|, i requires 0 <= i < |ss| => JStr(ss[i])))
  }

  const DataUriPrefix: string := "data:application/json;base64,"

  /** The URI of the mint form: the JSON text is passed through
      `encodeURIComponent`, each `%XX` is turned back into one character,
      and `btoa` encodes the result. That is the base 64 of the UTF-8 bytes,
      for every text. */
  function Utf8DataUri(json: string): (r: string)
    ensures r == DataUriPrefix + Base64.Encode(Utf8.Encode(json))
  {
    var binary := UriEscape.ReplacePercentEscapes(UriEscape.EncodeUriComponent(json));
    UriEscape.ReplaceAfterEncodeIsUtf8(json);
    UriEscape.BtoaLatin1(Utf8.Encode(json));
    DataUriPrefix + UriEscape.Btoa(binary).value
  }

  /** The URI of the mint page: `btoa` applied to the JSON text directly.
      `None` is the exception `btoa` throws on a character above U+00FF. */
  function Latin1DataUri(json: string): (r: Option<string>)
    ensures r.None? <==> exists i :: 0 <= i < |json| && json[i] as int >= 256
  {
    match UriEscape.Btoa(json)
    case None => None
    case Some(b64) => Some(DataUriPrefix + b64)
  }

  /** The octets carried by a base 64 JSON data URI, if it is one. */
  function ParseDataUri(uri: string): (r: Option<seq<byte>>)
  {
    if |uri| >= |DataUriPrefix| && uri[..|DataUriPrefix|] == DataUriPrefix then
      Base64.Decode(uri[|DataUriPrefix|..])
    else None
  }

  /** Decoding the mint form's URI gives the UTF-8 bytes of the JSON text, and
      those bytes decode to the text again. */
  lemma Utf8DataUriRoundTrip(json: string)
    ensures ParseDataUri(Utf8DataUri(json)) == Some(Utf8.Encode(json))
    ensures Utf8.Decode(Utf8.Encode(json)) == Some(json)
  {
    var uri := Utf8DataUri(json);
    assert uri[|DataUriPrefix|..] == Base64.Encode(Utf8.Encode(json));
    Base64.DecodeEncode(Utf8.Encode(json));
    Utf8.DecodeEncode(json);
  }

  /** Decoding the mint page's URI gives one byte per character: the code
      units of the text, not its UTF-8 encoding. */
  lemma Latin1DataUriRoundTrip(json: string)
    requires forall i :: 0 <= i < |json| ==> json[i] as int < 256
    ensures Latin1DataUri(json).Some?
    ensures ParseDataUri(Latin1DataUri(json).value) == Some(UriEscape.Latin1Bytes(json))
  {
    var uri := Latin1DataUri(json).value;
    assert uri[|DataUriPrefix|..] == Base64.Encode(UriEscape.Latin1Bytes(json));
    Base64.DecodeEncode(UriEscape.Latin1Bytes(json));
  }

  /** On ASCII text the two encoders produce the same URI. */
  lemma AsciiUrisAgree(json: string)
    requires forall i :: 0 <= i < |json| ==> json[i] as int < 0x80
    ensures Latin1DataUri(json) == Some(Utf8DataUri(json))
  {
    UriEscape.Utf8OfAscii(json);
    assert UriEscape.Latin1Bytes(json) == Utf8.Encode(json) by {
      UriEscape.BtoaLatin1(Utf8.Encode(json));
    }
  }

  /** For text such as `"é"` the two encoders differ: the mint page's payload
      is the single octet 0xE9, which is not UTF-8. */
  lemma Latin1UriIsNotUtf8()
    ensures ParseDataUri(Latin1DataUri("é").value) == Some([0xE9])
    ensures Utf8.Decode([0xE9]) == None
    ensures Utf8.Encode("é") == [0xC3, 0xA9]
  {
    Latin1DataUriRoundTrip("é");
    assert UriEscape.Latin1Bytes("é") == [0xE9];
  }
}
