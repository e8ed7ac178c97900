/** `encodeURIComponent` of ECMA-262 (section 19.2.6.5): every character
    outside the unescaped set (ASCII letters, digits and - _ . ! ~ * ' ( ))
    is written as the UTF-8 bytes of its code point, each as "%XY" with
    upper-case hexadecimal digits (percent-encoding, section 2.1 of
    RFC 3986). The decoder below is the inverse used to show that encoding
    loses nothing. */
module UriEncoding {
  import opened Wrappers

  predicate IsUnescaped(c: char)
  {
    || ('A' <= c <= 'Z') || ('a' <= c <= 'z') || ('0' <= c <= '9')
    || c == '-' || c == '_' || c == '.' || c == '!' || c == '~'
    || c == '*' || c == '\'' || c == '(' || c == ')'
  }

  predicate IsUpperHexDigit(c: char)
  {
    ('0' <= c <= '9') || ('A' <= c <= 'F')
  }

  /** A character that can appear in the output of the encoder. */
  predicate IsEncodedChar(c: char)
  {
    IsUnescaped(c) || c == '%' || IsUpperHexDigit(c)
  }

  predicate IsByte(b: int)
  {
    0 <= b < 256
  }

  function HexDigit(n: int): (c: char)
    requires 0 <= n < 16
    ensures IsUpperHexDigit(c)
  {
    if n < 10 then ('0' as int + n) as char else ('A' as int + n - 10) as char
  }

  /** UTF-8 encoding of a code point (RFC 3629, section 3). */
  function Utf8(cp: int): (bytes: seq<int>)
    requires 0 <= cp < 0x11_0000
    ensures 1 <= |bytes| <= 4
    ensures forall i | 0 <= i < |bytes| :: IsByte(bytes[i])
  {
    if cp < 0x80 then [cp]
    else if cp < 0x800 then [0xC0 + cp / 64, 0x80 + cp % 64]
    else if cp < 0x1_0000 then [0xE0 + cp / 64 / 64, 0x80 + cp / 64 % 64, 0x80 + cp % 64]
    else [0xF0 + cp / 64 / 64 / 64, 0x80 + cp / 64 / 64 % 64, 0x80 + cp / 64 % 64, 0x80 + cp % 64]
  }

  function PercentEscape(b: int): (r: string)
    requires IsByte(b)
    ensures |r| == 3 && r[0] == '%' && IsUpperHexDigit(r[1]) && IsUpperHexDigit(r[2])
  {
    ['%', HexDigit(b / 16), HexDigit(b % 16)]
  }

  function EscapeBytes(bytes: seq<int>): (r: string)
    requires forall i | 0 <= i < |bytes| :: IsByte(bytes[i])
    ensures |r| == 3 * |bytes|
    ensures forall i | 0 <= i < |r| :: r[i] == '%' || IsUpperHexDigit(r[i])
  {
    if bytes == [] then "" else PercentEscape(bytes[0]) + EscapeBytes(bytes[1..])
  }

  function EncodeChar(c: char): (r: string)
    ensures forall i | 0 <= i < |r| :: IsEncodedChar(r[i])
  {
    if IsUnescaped(c) then [c] else EscapeBytes(Utf8(c as int))
  }

  /** ECMA-262 `encodeURIComponent` on a string of Unicode scalar values. */
  function EncodeURIComponent(s: string): (r: string)
    ensures |r| >= |s|
    ensures forall i | 0 <= i < |r| :: IsEncodedChar(r[i])
  {
    if s == [] then "" else EncodeChar(s[0]) + EncodeURIComponent(s[1..])
  }

  /** An encoded component holds no path separator and no query delimiter,
      so it can neither add a path segment nor start or split a query. */
  lemma EncodedHasNoDelimiters(s: string)
    ensures '/' !in EncodeURIComponent(s)
    ensures '?' !in EncodeURIComponent(s)
    ensures '&' !in EncodeURIComponent(s)
    ensures '#' !in EncodeURIComponent(s)
  {
  }

  /** A string made only of unescaped characters is its own encoding. */
  lemma {:induction false} EncodeIdentity(s: string)
    requires forall i | 0 <= i < |s| :: IsUnescaped(s[i])
    ensures EncodeURIComponent(s) == s
  {
    if s != [] {
      EncodeIdentity(s[1..]);
    }
  }

  // ---------------------------------------------------------------------
  // Decoding, the inverse of the encoder.

  function HexValue(c: char): Option<int>
  {
    if '0' <= c <= '9' then Some(c as int - '0' as int)
    else if 'A' <= c <= 'F' then Some(c as int - 'A' as int + 10)
    else if 'a' <= c <= 'f' then Some(c as int - 'a' as int + 10)
    else None
  }

  /** The byte written as "%XY" at the start of `s`. */
  function EscapedByte(s: string): (r: Option<int>)
    ensures r.Some? ==> |s| >= 3 && IsByte(r.value)
  {
    if |s| >= 3 && s[0] == '%' && HexValue(s[1]).Some? && HexValue(s[2]).Some?
    then Some(HexValue(s[1]).value * 16 + HexValue(s[2]).value)
    else None
  }

  /** The first `n` escaped bytes of `s`. */
  function EscapedBytes(s: string, n: nat): (r: Option<seq<int>>)
    ensures r.Some? ==> |r.value| == n && |s| >= 3 * n
  {
    if n == 0 then Some([])
    else match EscapedByte(s)
      case None => None
      case Some(b) =>
        match EscapedBytes(s[3..], n - 1)
        case None => None
        case Some(rest) => Some([b] + rest)
  }

  /** Number of bytes of a UTF-8 sequence that starts with `lead`, or 0. */
  function Utf8Length(lead: int): nat
  {
    if 0 <= lead < 0x80 then 1
    else if 0xC0 <= lead < 0xE0 then 2
    else if 0xE0 <= lead < 0xF0 then 3
    else if 0xF0 <= lead < 0xF8 then 4
    else 0
  }

  predicate IsContinuation(b: int)
  {
    0x80 <= b < 0xC0
  }

  /** The code point of one complete UTF-8 sequence. */
  function Utf8Decode(bytes: seq<int>): Option<int>
  {
    if |bytes| == 1 && 0 <= bytes[0] < 0x80 then Some(bytes[0])
    else if |bytes| == 2 && Utf8Length(bytes[0]) == 2 && IsContinuation(bytes[1]) then
      Some((bytes[0] - 0xC0) * 64 + (bytes[1] - 0x80))
    else if |bytes| == 3 && Utf8Length(bytes[0]) == 3 && IsContinuation(bytes[1]) && IsContinuation(bytes[2]) then
      Some(((bytes[0] - 0xE0) * 64 + (bytes[1] - 0x80)) * 64 + (bytes[2] - 0x80))
    else if |bytes| == 4 && Utf8Length(bytes[0]) == 4 && IsContinuation(bytes[1])
            && IsContinuation(bytes[2]) && IsContinuation(bytes[3]) then
      Some((((bytes[0] - 0xF0) * 64 + (bytes[1] - 0x80)) * 64 + (bytes[2] - 0x80)) * 64 + (bytes[3] - 0x80))
    else None
  }

  predicate IsScalarValue(cp: int)
  {
    (0 <= cp < 0xD800) || (0xE000 <= cp < 0x11_0000)
  }

  /** Decodes a percent-encoded string; `None` for a malformed escape. */
  function PercentDecode(s: string): Option<string>
    decreases |s|
  {
    if s == [] then Some("")
    else if s[0] != '%' then
      match PercentDecode(s[1..])
      case None => None
      case Some(t) => Some([s[0]] + t)
    else
      match EscapedByte(s)
      case None => None
      case Some(lead) =>
        var n := Utf8Length(lead);
        if n == 0 then None
        else match EscapedBytes(s, n)
          case None => None
          case Some(bytes) =>
            match Utf8Decode(bytes)
            case None => None
            case Some(cp) =>
              if !IsScalarValue(cp) then None
              else match PercentDecode(s[3 * n..])
                case None => None
                case Some(t) => Some([cp as char] + t)
  }

  lemma HexRoundTrip(n: int)
    requires 0 <= n < 16
    ensures HexValue(HexDigit(n)) == Some(n)
  {
  }

  lemma EscapedByteOf(b: int, t: string)
    requires IsByte(b)
    ensures EscapedByte(PercentEscape(b) + t) == Some(b)
  {
    var s := PercentEscape(b) + t;
    HexRoundTrip(b / 16);
    HexRoundTrip(b % 16);
    assert s[0] == '%' && s[1] == HexDigit(b / 16) && s[2] == HexDigit(b % 16);
  }

  lemma {:induction false} EscapedBytesOf(bytes: seq<int>, t: string)
    requires forall i | 0 <= i < |bytes| :: IsByte(bytes[i])
    ensures EscapedBytes(EscapeBytes(bytes) + t, |bytes|) == Some(bytes)
    decreases |bytes|
  {
    if bytes != [] {
      var s := EscapeBytes(bytes) + t;
      assert s == PercentEscape(bytes[0]) + (EscapeBytes(bytes[1..]) + t);
      EscapedByteOf(bytes[0], EscapeBytes(bytes[1..]) + t);
      assert s[3..] == EscapeBytes(bytes[1..]) + t;
      EscapedBytesOf(bytes[1..], t);
      assert [bytes[0]] + bytes[1..] == bytes;
    }
  }

  /** UTF-8 round trip for one code point. */
  lemma Utf8RoundTrip(cp: int)
    requires 0 <= cp < 0x11_0000
    ensures Utf8Length(Utf8(cp)[0]) == |Utf8(cp)|
    ensures Utf8Decode(Utf8(cp)) == Some(cp)
  {
    var q := cp / 64;
    assert cp == q * 64 + cp % 64;
    if cp >= 0x800 {
      assert q == q / 64 * 64 + q % 64;
      if cp >= 0x1_0000 {
        var q2 := q / 64;
        assert q2 == q2 / 64 * 64 + q2 % 64;
      }
    }
  }

  lemma DecodeEncodeChar(c: char, t: string)
    ensures PercentDecode(EncodeChar(c) + t)
         == match PercentDecode(t) case None => None case Some(u) => Some([c] + u)
  {
    var s := EncodeChar(c) + t;
    if IsUnescaped(c) {
      assert s[0] == c && s[1..] == t;
    } else {
      DecodeEncodeEscaped(c, t);
    }
  }

  /** The same for a character that is written as %XX escapes. */
  lemma DecodeEncodeEscaped(c: char, t: string)
    requires !IsUnescaped(c)
    ensures PercentDecode(EncodeChar(c) + t)
         == match PercentDecode(t) case None => None case Some(u) => Some([c] + u)
  {
    var s := EncodeChar(c) + t;
    var cp := c as int;
    var bytes := Utf8(cp);
    Utf8RoundTrip(cp);
    assert s == PercentEscape(bytes[0]) + (EscapeBytes(bytes[1..]) + t);
    EscapedByteOf(bytes[0], EscapeBytes(bytes[1..]) + t);
    EscapedBytesOf(bytes, t);
    assert s[3 * |bytes|..] == t;
    assert (cp as char) == c;
  }

  /** Decoding undoes encoding, so two different components never encode to
      the same text. */
  lemma {:induction false} DecodeEncode(s: string)
    ensures PercentDecode(EncodeURIComponent(s)) == Some(s)
  {
    if s != [] {
      DecodeEncodeChar(s[0], EncodeURIComponent(s[1..]));
      DecodeEncode(s[1..]);
      assert [s[0]] + s[1..] == s;
    }
  }

  lemma EncodeInjective(a: string, b: string)
    requires EncodeURIComponent(a) == EncodeURIComponent(b)
    ensures a == b
  {
    DecodeEncode(a);
    DecodeEncode(b);
  }
}
