/**
 * `encodeURIComponent` (ECMAScript section 19.2.6.5) on strings of Unicode
 * scalar values, and the percent-decoding a server applies to a query value.
 */
module Uri {
  import opened Common

  type Byte = b: nat | b < 256

  /** Characters `encodeURIComponent` leaves as they are. */
  predicate Unreserved(c: char) {
    ('A' <= c <= 'Z') || ('a' <= c <= 'z') || ('0' <= c <= '9')
    || c == '-' || c == '_' || c == '.' || c == '!' || c == '~' || c == '*'
    || c == '\'' || c == '(' || c == ')'
  }

  /** UTF-8 encoding of one code point. */
  function Utf8(c: char): (r: seq<Byte>)
    ensures 1 <= |r| <= 4
    ensures (|r| == 1) <==> c as int < 0x80
    ensures |r| == 1 ==> r[0] == c as int
  {
    var cp := c as int;
    if cp < 0x80 then [cp]
    else if cp < 0x800 then [0xC0 + cp / 64, 0x80 + cp % 64]
    else if cp < 0x10000 then [0xE0 + cp / 4096, 0x80 + (cp / 64) % 64, 0x80 + cp % 64]
    else [0xF0 + cp / 262144, 0x80 + (cp / 4096) % 64, 0x80 + (cp / 64) % 64, 0x80 + cp % 64]
  }

  function Utf8String(s: string): seq<Byte>
    decreases |s|
  {
    if s == [] then [] else Utf8(s[0]) + Utf8String(s[1..])
  }

  function HexDigit(d: nat): (c: char)
    requires d < 16
    ensures Unreserved(c)
  {
    "0123456789ABCDEF"[d]
  }

  predicate IsHex(c: char) {
    ('0' <= c <= '9') || ('A' <= c <= 'F') || ('a' <= c <= 'f')
  }

  function HexValue(c: char): (d: nat)
    requires IsHex(c)
    ensures d < 16
  {
    if '0' <= c <= '9' then c as int - '0' as int
    else if 'A' <= c <= 'F' then c as int - 'A' as int + 10
    else c as int - 'a' as int + 10
  }

  lemma HexDigitValue(d: nat)
    requires d < 16
    ensures IsHex(HexDigit(d)) && HexValue(HexDigit(d)) == d
  {
  }

  /** `%XY` for each byte, with upper-case hexadecimal digits. */
  function EscapeBytes(bs: seq<Byte>): (r: string)
    ensures |r| == 3 * |bs|
    ensures forall i :: 0 <= i < |r| ==> r[i] == '%' || Unreserved(r[i])
    decreases |bs|
  {
    if bs == [] then "" else ['%', HexDigit(bs[0] / 16), HexDigit(bs[0] % 16)] + EscapeBytes(bs[1..])
  }

  function EncodeChar(c: char): (r: string)
    ensures forall i :: 0 <= i < |r| ==> r[i] == '%' || Unreserved(r[i])
  {
    if Unreserved(c) then [c] else EscapeBytes(Utf8(c))
  }

  /** `encodeURIComponent(s)`. */
  function EncodeURIComponent(s: string): (r: string)
    ensures forall i :: 0 <= i < |r| ==> r[i] == '%' || Unreserved(r[i])
    ensures (forall i :: 0 <= i < |s| ==> Unreserved(s[i])) ==> r == s
    decreases |s|
  {
    if s == [] then "" else EncodeChar(s[0]) + EncodeURIComponent(s[1..])
  }

  /** Percent-decoding of a query value into bytes; None on a malformed escape or a non-ASCII character. */
  function PercentDecode(t: string): Option<seq<Byte>>
    decreases |t|
  {
    if t == [] then Some([])
    else if t[0] == '%' then
      if |t| >= 3 && IsHex(t[1]) && IsHex(t[2]) then
        Prepend([16 * HexValue(t[1]) + HexValue(t[2])], PercentDecode(t[3..]))
      else None
    else if t[0] as int < 0x80 then Prepend([t[0] as int], PercentDecode(t[1..]))
    else None
  }

  function Prepend(bs: seq<Byte>, rest: Option<seq<Byte>>): Option<seq<Byte>> {
    match rest
    case None => None
    case Some(r) => Some(bs + r)
  }

  lemma {:induction false} DecodeEscapes(bs: seq<Byte>, t: string)
    ensures PercentDecode(EscapeBytes(bs) + t) == Prepend(bs, PercentDecode(t))
    decreases |bs|
  {
    if bs != [] {
      EscapeFirst(bs, t);
      DecodeOneEscape(bs[0], EscapeBytes(bs[1..]) + t);
      DecodeEscapes(bs[1..], t);
      PrependTwice(bs[0], bs[1..], PercentDecode(t));
      assert [bs[0]] + bs[1..] == bs;
    } else {
      assert EscapeBytes(bs) + t == t;
      match PercentDecode(t)
      case None =>
      case Some(r) =>
        assert bs + r == r;
    }
  }

  lemma EscapeFirst(bs: seq<Byte>, t: string)
    requires bs != []
    ensures EscapeBytes(bs) + t == ['%', HexDigit(bs[0] / 16), HexDigit(bs[0] % 16)] + (EscapeBytes(bs[1..]) + t)
  {
  }

  /** One escape decodes to its byte. */
  lemma DecodeOneEscape(b: Byte, rest: string)
    ensures PercentDecode(['%', HexDigit(b / 16), HexDigit(b % 16)] + rest) == Prepend([b], PercentDecode(rest))
  {
    var u := ['%', HexDigit(b / 16), HexDigit(b % 16)] + rest;
    HexDigitValue(b / 16);
    HexDigitValue(b % 16);
    assert u[3..] == rest;
    assert 16 * HexValue(u[1]) + HexValue(u[2]) == b;
  }

  lemma PrependTwice(b: Byte, bs: seq<Byte>, d: Option<seq<Byte>>)
    ensures Prepend([b], Prepend(bs, d)) == Prepend([b] + bs, d)
  {
    match d
    case None =>
    case Some(r) =>
      assert [b] + (bs + r) == ([b] + bs) + r;
  }

  lemma DecodeChar(c: char, t: string)
    ensures PercentDecode(EncodeChar(c) + t) == Prepend(Utf8(c), PercentDecode(t))
  {
    if Unreserved(c) {
      assert ([c] + t)[1..] == t;
    } else {
      DecodeEscapes(Utf8(c), t);
    }
  }

  /** Decoding what `encodeURIComponent` produced gives the UTF-8 bytes of the original text. */
  lemma {:induction false} EncodeDecodeRoundTrip(s: string)
    ensures PercentDecode(EncodeURIComponent(s)) == Some(Utf8String(s))
    decreases |s|
  {
    if s != [] {
      EncodeDecodeRoundTrip(s[1..]);
      DecodeChar(s[0], EncodeURIComponent(s[1..]));
    }
  }

  /** The encoding never contains a character with a meaning in a query string. */
  lemma EncodedHasNoDelimiters(s: string)
    ensures !Includes(EncodeURIComponent(s), "&")
    ensures !Includes(EncodeURIComponent(s), "=")
    ensures !Includes(EncodeURIComponent(s), "#")
    ensures !Includes(EncodeURIComponent(s), " ")
  {
    var r := EncodeURIComponent(s);
    LacksNotIncluded(r, '&');
    LacksNotIncluded(r, '=');
    LacksNotIncluded(r, '#');
    LacksNotIncluded(r, ' ');
  }
}
