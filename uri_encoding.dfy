/**
  `encodeURIComponent`, as the web client applies it to query keys and
  values: the unreserved characters stay, every other character becomes the
  `%XX` escapes of its UTF-8 bytes, in upper-case hex. `Decode` is the
  percent-decoding a server applies to a query component; the two are
  proved inverse.

  Characters are Unicode scalar values, so the lone surrogates for which
  `encodeURIComponent` throws cannot occur.
 */
module UriEncoding {
  import opened Json

  /** The characters `encodeURIComponent` leaves as they are. */
  predicate Unreserved(c: char) {
    ('A' <= c <= 'Z') || ('a' <= c <= 'z') || ('0' <= c <= '9') ||
    c == '-' || c == '_' || c == '.' || c == '!' || c == '~' || c == '*' || c == '\'' || c == '(' || c == ')'
  }

  function HexChar(d: nat): (c: char)
    requires d < 16
    ensures ('0' <= c <= '9') || ('A' <= c <= 'F')
  {
    if d < 10 then ('0' as int + d) as char else ('A' as int + d - 10) as char
  }

  function HexValue(c: char): (r: Option<nat>) {
    if '0' <= c <= '9' then Some(c as int - '0' as int)
    else if 'A' <= c <= 'F' then Some(c as int - 'A' as int + 10)
    else if 'a' <= c <= 'f' then Some(c as int - 'a' as int + 10)
    else None
  }

  lemma HexRoundTrip(d: nat)
    requires d < 16
    ensures HexValue(HexChar(d)) == Some(d)
  {
  }

  /** The UTF-8 bytes of a code point: six payload bits per continuation byte. */
  function Utf8(c: char): (bs: seq<nat>)
    ensures 1 <= |bs| <= 4
    ensures forall i :: 0 <= i < |bs| ==> bs[i] < 256
  {
    var cp := c as int;
    if cp < 0x80 then [cp]
    else if cp < 0x800 then [0xC0 + cp / 64, 0x80 + cp % 64]
    else if cp < 0x10000 then
      var h := cp / 64;
      [0xE0 + h / 64, 0x80 + h % 64, 0x80 + cp % 64]
    else
      var h := cp / 64;
      var hh := h / 64;
      [0xF0 + hh / 64, 0x80 + hh % 64, 0x80 + h % 64, 0x80 + cp % 64]
  }

  /** `%XX` for each byte. */
  function PercentEncoded(bs: seq<nat>): (s: string)
    requires forall i :: 0 <= i < |bs| ==> bs[i] < 256
    ensures |s| == 3 * |bs|
  {
    if bs == [] then "" else ['%', HexChar(bs[0] / 16), HexChar(bs[0] % 16)] + PercentEncoded(bs[1..])
  }

  function EncodeChar(c: char): (r: string) {
    if Unreserved(c) then [c] else PercentEncoded(Utf8(c))
  }

  /** `encodeURIComponent(s)`. */
  function Encode(s: string): (r: string) {
    if s == [] then "" else EncodeChar(s[0]) + Encode(s[1..])
  }

  /** What an encoded string is made of: unreserved characters, `%` and upper-case hex digits. */
  predicate EncodedChar(c: char) {
    Unreserved(c) || c == '%'
  }

  lemma {:induction false} PercentEncodedChars(bs: seq<nat>)
    requires forall i :: 0 <= i < |bs| ==> bs[i] < 256
    ensures forall i :: 0 <= i < |PercentEncoded(bs)| ==> EncodedChar(PercentEncoded(bs)[i])
  {
    if bs != [] {
      PercentEncodedChars(bs[1..]);
    }
  }

  lemma {:induction false} EncodeChars(s: string)
    ensures forall i :: 0 <= i < |Encode(s)| ==> EncodedChar(Encode(s)[i])
  {
    if s != [] {
      EncodeChars(s[1..]);
      if !Unreserved(s[0]) {
        PercentEncodedChars(Utf8(s[0]));
      }
      var e := EncodeChar(s[0]);
      assert forall i :: 0 <= i < |e| ==> EncodedChar(e[i]);
      assert Encode(s) == e + Encode(s[1..]);
    }
  }

  lemma NotDelimiter(c: char)
    requires EncodedChar(c)
    ensures c !in "&=?# "
  {
    assert "&=?# " == ['&', '=', '?', '#', ' '];
  }

  /** No encoded component contains a query delimiter: '&', '=', '?', '#' and the space never survive. */
  lemma EncodeHasNoDelimiters(s: string)
    ensures forall i :: 0 <= i < |Encode(s)| ==> EncodedChar(Encode(s)[i])
    ensures forall i :: 0 <= i < |Encode(s)| ==> Encode(s)[i] !in "&=?# "
  {
    EncodeChars(s);
    forall i | 0 <= i < |Encode(s)|
      ensures Encode(s)[i] !in "&=?# "
    {
      NotDelimiter(Encode(s)[i]);
    }
  }

  // ---------------------------------------------------------------- decoding

  /** The byte escaped as `%XX` at the start of `s`, if it starts with one. */
  function EscapedByte(s: string): (r: Option<nat>) {
    if |s| < 3 || s[0] != '%' then None
    else match (HexValue(s[1]), HexValue(s[2]))
      case (Some(hi), Some(lo)) => Some(16 * hi + lo)
      case _ => None
  }

  /** `n` escaped bytes from the start of `s`. */
  function EscapedBytes(s: string, n: nat): (r: Option<seq<nat>>)
    decreases n
  {
    if n == 0 then Some([])
    else match EscapedByte(s)
      case None => None
      case Some(b) =>
        match EscapedBytes(s[3..], n - 1)
        case None => None
        case Some(rest) => Some([b] + rest)
  }

  /** The length of a UTF-8 sequence from its lead byte; 0 for a byte that cannot lead one. */
  function SequenceLength(b: nat): (r: nat) {
    if b < 0x80 then 1
    else if 0xC0 <= b < 0xE0 then 2
    else if 0xE0 <= b < 0xF0 then 3
    else if 0xF0 <= b < 0xF8 then 4
    else 0
  }

  predicate Continuation(b: nat) {
    0x80 <= b < 0xC0
  }

  /** The code point a well-formed UTF-8 sequence carries. */
  function CodePoint(bs: seq<nat>): (r: Option<char>) {
    var cp: int :=
      if |bs| == 1 then bs[0]
      else if |bs| == 2 then (bs[0] as int - 0xC0) * 64 + (bs[1] as int - 0x80)
      else if |bs| == 3 then ((bs[0] as int - 0xE0) * 64 + (bs[1] as int - 0x80)) * 64 + (bs[2] as int - 0x80)
      else if |bs| == 4 then (((bs[0] as int - 0xF0) * 64 + (bs[1] as int - 0x80)) * 64 + (bs[2] as int - 0x80)) * 64 + (bs[3] as int - 0x80)
      else -1;
    if (forall i :: 1 <= i < |bs| ==> Continuation(bs[i])) && ((0 <= cp < 0xD800) || (0xE000 <= cp < 0x11_0000))
    then Some(cp as char)
    else None
  }

  /** Percent-decoding of UTF-8: `None` for a malformed escape. */
  function Decode(s: string): (r: Option<string>)
    decreases |s|
  {
    if s == [] then Some("")
    else if s[0] != '%' then
      match Decode(s[1..])
      case None => None
      case Some(rest) => Some([s[0]] + rest)
    else
      match EscapedByte(s)
      case None => None
      case Some(lead) =>
        var n := SequenceLength(lead);
        if n == 0 || |s| < 3 * n then None
        else
          match EscapedBytes(s, n)
          case None => None
          case Some(bs) =>
            match CodePoint(bs)
            case None => None
            case Some(c) =>
              match Decode(s[3 * n..])
              case None => None
              case Some(rest) => Some([c] + rest)
  }

  /** One `%XX` escape reads back as its byte. */
  lemma EscapedByteOf(b: nat, rest: string)
    requires b < 256
    ensures EscapedByte(['%', HexChar(b / 16), HexChar(b % 16)] + rest) == Some(b)
  {
    HexRoundTrip(b / 16);
    HexRoundTrip(b % 16);
  }

  lemma {:induction false} EscapedBytesOfEncoded(bs: seq<nat>, rest: string)
    requires forall i :: 0 <= i < |bs| ==> bs[i] < 256
    ensures EscapedBytes(PercentEncoded(bs) + rest, |bs|) == Some(bs)
  {
    if bs != [] {
      var head := ['%', HexChar(bs[0] / 16), HexChar(bs[0] % 16)];
      var tail := PercentEncoded(bs[1..]) + rest;
      var s := PercentEncoded(bs) + rest;
      assert s == head + tail;
      EscapedByteOf(bs[0], tail);
      assert s[3..] == tail;
      EscapedBytesOfEncoded(bs[1..], rest);
      assert [bs[0]] + bs[1..] == bs;
    }
  }

  /** The code point survives its UTF-8 encoding. */
  lemma Utf8RoundTrip(c: char)
    ensures SequenceLength(Utf8(c)[0]) == |Utf8(c)|
    ensures CodePoint(Utf8(c)) == Some(c)
  {
    var cp := c as int;
    var bs := Utf8(c);
    if cp >= 0x80 && cp < 0x800 {
      assert (bs[0] - 0xC0) * 64 + (bs[1] - 0x80) == cp;
    } else if cp >= 0x800 && cp < 0x10000 {
      var h := cp / 64;
      assert (bs[0] - 0xE0) * 64 + (bs[1] - 0x80) == h;
      assert h * 64 + (bs[2] - 0x80) == cp;
    } else if cp >= 0x10000 {
      var h := cp / 64;
      var hh := h / 64;
      assert (bs[0] - 0xF0) * 64 + (bs[1] - 0x80) == hh;
      assert hh * 64 + (bs[2] - 0x80) == h;
      assert h * 64 + (bs[3] - 0x80) == cp;
    }
  }

  lemma DecodeEncodedChar(c: char, rest: string)
    ensures Decode(EncodeChar(c) + rest) == match Decode(rest) case None => None case Some(r) => Some([c] + r)
  {
    var s := EncodeChar(c) + rest;
    if Unreserved(c) {
      assert s[1..] == rest;
    } else {
      var bs := Utf8(c);
      assert s == PercentEncoded(bs) + rest;
      assert s == ['%', HexChar(bs[0] / 16), HexChar(bs[0] % 16)] + (PercentEncoded(bs[1..]) + rest);
      EscapedByteOf(bs[0], PercentEncoded(bs[1..]) + rest);
      Utf8RoundTrip(c);
      EscapedBytesOfEncoded(bs, rest);
      assert s[3 * |bs|..] == rest;
    }
  }

  /** A server decoding an encoded component gets back exactly the string that was encoded. */
  lemma {:induction false} DecodeEncode(s: string)
    ensures Decode(Encode(s)) == Some(s)
  {
    if s != [] {
      DecodeEncode(s[1..]);
      DecodeEncodedChar(s[0], Encode(s[1..]));
      assert [s[0]] + s[1..] == s;
    }
  }
}
