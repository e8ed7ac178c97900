/** `parseInt(string, 10)` of ECMA-262 (section 19.2.5): skip leading white
    space, take an optional sign, then the longest run of decimal digits.
    `None` stands for NaN, returned when that run is empty. */
module DecimalParseInt {
  import opened Wrappers

  /** StrWhiteSpaceChar of ECMA-262: WhiteSpace (TAB, VT, FF, ZWNBSP and the
      Unicode space separators) and LineTerminator. */
  predicate IsStrWhiteSpace(c: char)
  {
    || c == '\t' || c == '\U{000B}' || c == '\U{000C}' || c == '\U{FEFF}'
    || c == ' ' || c == '\U{00A0}' || c == '\U{1680}' || ('\U{2000}' <= c <= '\U{200A}')
    || c == '\U{202F}' || c == '\U{205F}' || c == '\U{3000}'
    || c == '\n' || c == '\r' || c == '\U{2028}' || c == '\U{2029}'
  }

  predicate IsDecimalDigit(c: char)
  {
    '0' <= c <= '9'
  }

  predicate AllDigits(d: string)
  {
    forall i | 0 <= i < |d| :: IsDecimalDigit(d[i])
  }

  predicate AllWhiteSpace(w: string)
  {
    forall i | 0 <= i < |w| :: IsStrWhiteSpace(w[i])
  }

  /** The input without its leading white space. */
  function TrimStart(s: string): (r: string)
    ensures |r| <= |s| && r == s[|s| - |r|..]
    ensures AllWhiteSpace(s[..|s| - |r|])
    ensures r == [] || !IsStrWhiteSpace(r[0])
  {
    if s != [] && IsStrWhiteSpace(s[0]) then TrimStart(s[1..]) else s
  }

  /** The longest prefix made of decimal digits. */
  function LeadingDigits(s: string): (r: string)
    ensures |r| <= |s| && r == s[..|r|]
    ensures AllDigits(r)
    ensures |r| < |s| ==> !IsDecimalDigit(s[|r|])
  {
    if s != [] && IsDecimalDigit(s[0]) then [s[0]] + LeadingDigits(s[1..]) else []
  }

  function DigitValue(c: char): int
    requires IsDecimalDigit(c)
  {
    c as int - '0' as int
  }

  /** The mathematical value of a decimal numeral. */
  function DecimalValue(d: string): nat
    requires AllDigits(d)
  {
    if d == [] then 0 else DecimalValue(d[..|d| - 1]) * 10 + DigitValue(d[|d| - 1])
  }

  function Signed(negative: bool, magnitude: nat): int
  {
    if negative then -(magnitude as int) else magnitude
  }

  function ParseInt(s: string): Option<int>
  {
    ParseSignedNumeral(TrimStart(s))
  }

  /** parseInt after the leading white space is gone. */
  function ParseSignedNumeral(t: string): Option<int>
  {
    var negative := t != [] && t[0] == '-';
    var u := if t != [] && (t[0] == '+' || t[0] == '-') then t[1..] else t;
    var z := LeadingDigits(u);
    if z == [] then None else Some(Signed(negative, DecimalValue(z)))
  }

  /** Position `i` holds the first digit of a numeral that parseInt reads:
      everything before it is white space, except that the character right
      before it may be a sign. */
  predicate NumeralStartsAt(s: string, i: int)
  {
    && 0 <= i < |s| && IsDecimalDigit(s[i])
    && (forall j | 0 <= j < i - 1 :: IsStrWhiteSpace(s[j]))
    && (i > 0 ==> IsStrWhiteSpace(s[i - 1]) || s[i - 1] == '+' || s[i - 1] == '-')
  }

  lemma NumeralIsRead(s: string, i: int)
    requires NumeralStartsAt(s, i)
    ensures ParseInt(s).Some?
  {
    var j := if i > 0 && (s[i - 1] == '+' || s[i - 1] == '-') then i - 1 else i;
    var w, sign := s[..j], s[j..i];
    var d := LeadingDigits(s[i..]);
    var rest := s[i + |d|..];
    forall k | 0 <= k < j
      ensures IsStrWhiteSpace(w[k])
    {
      assert w[k] == s[k];
    }
    assert sign == "" || sign == "+" || sign == "-" by {
      if j < i {
        assert sign == [s[i - 1]];
      }
    }
    var m := i + |d|;
    SuffixSlices(s, i, |d|);
    CutInFour(s, j, i, m);
    ParseIntOf(w, sign, d, rest);
  }

  lemma SuffixSlices(s: string, i: nat, n: nat)
    requires i + n <= |s|
    ensures s[i..][..n] == s[i..i + n] && s[i..][n..] == s[i + n..]
  {
  }

  lemma CutInFour(s: string, j: nat, i: nat, m: nat)
    requires j <= i <= m <= |s|
    ensures s == s[..j] + s[j..i] + s[i..m] + s[m..]
  {
    assert s == s[..j] + (s[j..i] + (s[i..m] + s[m..]));
  }

  /** parseInt gives NaN exactly when no numeral starts anywhere in the input. */
  lemma ParseIntNaN(s: string)
    ensures ParseInt(s).None? <==> forall i :: !NumeralStartsAt(s, i)
  {
    if ParseInt(s).Some? {
      ParsedNumeralStarts(s);
    } else {
      forall i | NumeralStartsAt(s, i) ensures false {
        NumeralIsRead(s, i);
      }
    }
  }

  /** A number is read only where a numeral starts. */
  lemma ParsedNumeralStarts(s: string)
    requires ParseInt(s).Some?
    ensures exists i :: NumeralStartsAt(s, i)
  {
    var t := TrimStart(s);
    var k := |s| - |t|;
    var signed := t != [] && (t[0] == '+' || t[0] == '-');
    assert t == s[k..];
    assert NumeralStartsAt(s, if signed then k + 1 else k);
  }

  lemma {:induction false} LeadingDigitsOf(d: string, rest: string)
    requires AllDigits(d)
    requires rest == [] || !IsDecimalDigit(rest[0])
    ensures LeadingDigits(d + rest) == d
  {
    if d != [] {
      assert (d + rest)[1..] == d[1..] + rest;
      LeadingDigitsOf(d[1..], rest);
      assert [d[0]] + d[1..] == d;
    } else {
      assert d + rest == rest;
    }
  }

  lemma {:induction false} TrimStartOf(w: string, x: string)
    requires AllWhiteSpace(w)
    requires x == [] || !IsStrWhiteSpace(x[0])
    ensures TrimStart(w + x) == x
  {
    if w != [] {
      assert (w + x)[1..] == w[1..] + x;
      TrimStartOf(w[1..], x);
    } else {
      assert w + x == x;
    }
  }

  /** The value parseInt reads from white space, an optional sign, a
      non-empty numeral and whatever does not continue the numeral. */
  lemma ParseIntOf(w: string, sign: string, d: string, rest: string)
    requires AllWhiteSpace(w)
    requires sign == "" || sign == "+" || sign == "-"
    requires d != [] && AllDigits(d)
    requires rest == [] || !IsDecimalDigit(rest[0])
    ensures ParseInt(w + sign + d + rest)
         == Some(Signed(sign == "-", DecimalValue(d)))
  {
    var x := sign + (d + rest);
    assert w + sign + d + rest == w + x;
    assert x[0] == if sign == "" then d[0] else sign[0];
    TrimStartOf(w, x);
    SignedNumeralOf(sign, d, rest);
  }

  lemma SignedNumeralOf(sign: string, d: string, rest: string)
    requires sign == "" || sign == "+" || sign == "-"
    requires d != [] && AllDigits(d)
    requires rest == [] || !IsDecimalDigit(rest[0])
    ensures ParseSignedNumeral(sign + (d + rest)) == Some(Signed(sign == "-", DecimalValue(d)))
  {
    var x, u := sign + (d + rest), d + rest;
    LeadingDigitsOf(d, rest);
    if sign == "" {
      assert x == u && IsDecimalDigit(x[0]);
    } else {
      assert x[0] == sign[0] && x[1..] == u;
    }
    assert (if x != [] && (x[0] == '+' || x[0] == '-') then x[1..] else x) == u;
    assert (x != [] && x[0] == '-') == (sign == "-");
    assert LeadingDigits(u) == d;
  }

  function DigitChar(n: int): (c: char)
    requires 0 <= n < 10
    ensures IsDecimalDigit(c) && DigitValue(c) == n
  {
    ('0' as int + n) as char
  }

  /** The decimal numeral of a natural number, without leading zeros. */
  function NatToString(n: nat): (r: string)
    ensures r != [] && AllDigits(r)
  {
    if n < 10 then [DigitChar(n)] else NatToString(n / 10) + [DigitChar(n % 10)]
  }

  /** The decimal numeral of an integer, as `String(n)` writes it for
      integers below 10^21. */
  function IntToString(n: int): string
  {
    if n < 0 then "-" + NatToString(-n) else NatToString(n)
  }

  lemma {:induction false} DecimalValueOfNat(n: nat)
    ensures DecimalValue(NatToString(n)) == n
  {
    if n >= 10 {
      DecimalValueOfNat(n / 10);
      var r := NatToString(n);
      assert r[..|r| - 1] == NatToString(n / 10);
    }
  }

  /** parseInt reads back every integer numeral. */
  lemma ParseIntOfNumeral(n: int)
    ensures ParseInt(IntToString(n)) == Some(n)
  {
    var m: nat := if n < 0 then -n else n;
    var sign := if n < 0 then "-" else "";
    NumeralParts(n);
    DecimalValueOfNat(m);
    ParseIntOf("", sign, NatToString(m), "");
  }

  /** The numeral of an integer is its sign, then the digits of its magnitude. */
  lemma NumeralParts(n: int)
    ensures IntToString(n) == "" + (if n < 0 then "-" else "") + NatToString(if n < 0 then -n else n) + ""
  {
  }
}
