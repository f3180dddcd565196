/** Decimal text as JavaScript produces and reads it: `${n}` for integers and
    `parseInt(value, 10)`. Numbers are unbounded integers here. */
module NumberText {
  import opened Outcomes

  predicate IsDigit(c: char) {
    '0' <= c <= '9'
  }

  predicate AllDigits(s: string) {
    forall i :: 0 <= i < |s| ==> IsDigit(s[i])
  }

  function DigitValue(c: char): nat
    requires IsDigit(c)
  {
    (c as int) - ('0' as int)
  }

  function DigitChar(d: nat): (c: char)
    requires d < 10
    ensures IsDigit(c) && DigitValue(c) == d
  {
    ('0' as int + d) as char
  }

  /** The decimal text of a natural number, most significant digit first,
      without leading zeros. */
  function NatToDecimal(n: nat): (s: string)
    ensures 1 <= |s| && AllDigits(s)
    ensures |s| > 1 ==> s[0] != '0'
    decreases n
  {
    if n < 10 then [DigitChar(n)] else NatToDecimal(n / 10) + [DigitChar(n % 10)]
  }

  /** `String(i)` for an integer-valued JavaScript number. */
  function IntToDecimal(i: int): string {
    if i < 0 then "-" + NatToDecimal(-i) else NatToDecimal(i)
  }

  /** The value of a string of decimal digits. */
  function DigitsValue(s: string): nat
    requires AllDigits(s)
  {
    if s == [] then 0 else DigitsValue(s[..|s| - 1]) * 10 + DigitValue(s[|s| - 1])
  }

  lemma {:induction false} DecimalRoundTrip(n: nat)
    ensures DigitsValue(NatToDecimal(n)) == n
  {
    if n >= 10 {
      DecimalRoundTrip(n / 10);
      var s := NatToDecimal(n);
      assert s[..|s| - 1] == NatToDecimal(n / 10);
    }
  }

  /** The characters `parseInt` skips before the number: ECMAScript's
      WhiteSpace and LineTerminator code points. */
  predicate IsJsWhitespace(c: char) {
    || c == ' ' || c == '\t' || c == '\n' || c == '\r'
    || c == '\U{000B}' || c == '\U{000C}' || c == '\U{00A0}' || c == '\U{1680}'
    || ('\U{2000}' <= c <= '\U{200A}')
    || c == '\U{2028}' || c == '\U{2029}' || c == '\U{202F}' || c == '\U{205F}'
    || c == '\U{3000}' || c == '\U{FEFF}'
  }

  function TrimStart(s: string): (r: string)
    ensures |r| <= |s| && r == s[|s| - |r|..]
    ensures r == [] || !IsJsWhitespace(r[0])
    ensures forall i :: 0 <= i < |s| - |r| ==> IsJsWhitespace(s[i])
  {
    if s != [] && IsJsWhitespace(s[0]) then TrimStart(s[1..]) else s
  }

  /** The longest prefix of `s` made of decimal digits. */
  function LeadingDigits(s: string): (d: string)
    ensures d <= s && AllDigits(d)
    ensures |d| == |s| || !IsDigit(s[|d|])
  {
    if s != [] && IsDigit(s[0]) then [s[0]] + LeadingDigits(s[1..]) else []
  }

  /** `parseInt(s, 10)`: skip leading white space, read an optional sign and
      then as many decimal digits as there are; `None` stands for `NaN`
      (no digit at all). */
  function ParseInt(s: string): Option<int> {
    SignedDigits(TrimStart(s))
  }

  /** What `parseInt` reads once the white space is skipped. */
  function SignedDigits(t: string): Option<int> {
    var negative := t != [] && t[0] == '-';
    var body := if t != [] && (t[0] == '-' || t[0] == '+') then t[1..] else t;
    var digits := LeadingDigits(body);
    if digits == [] then None
    else Some(if negative then -(DigitsValue(digits) as int) else DigitsValue(digits))
  }

  /** `parseInt(s, 10) || 0`: `NaN` (and zero) become 0. */
  function ParseIntOrZero(s: string): int {
    match ParseInt(s)
    case None => 0
    case Some(v) => v
  }

  lemma {:induction false} LeadingDigitsOfDigits(d: string, rest: string)
    requires AllDigits(d)
    requires rest == [] || !IsDigit(rest[0])
    ensures LeadingDigits(d + rest) == d
  {
    if d != [] {
      assert (d + rest)[1..] == d[1..] + rest;
      LeadingDigitsOfDigits(d[1..], rest);
    }
  }

  lemma TrimStartKeeps(s: string)
    requires s != [] && !IsJsWhitespace(s[0])
    ensures TrimStart(s) == s
  {
  }

  /** `parseInt` on text that starts with a run of digits reads exactly
      that run. */
  lemma SignedDigitsOfRun(d: string, rest: string)
    requires d != [] && AllDigits(d)
    requires rest == [] || !IsDigit(rest[0])
    ensures SignedDigits(d + rest) == Some(DigitsValue(d))
  {
    var s := d + rest;
    assert s[0] == d[0];
    assert !(s[0] == '-' || s[0] == '+');
    LeadingDigitsOfDigits(d, rest);
  }

  /** The same run after a minus sign is read as a negative number. */
  lemma NegatedRun(d: string, rest: string)
    requires d != [] && AllDigits(d)
    requires rest == [] || !IsDigit(rest[0])
    ensures SignedDigits(['-'] + (d + rest)) == Some(-(DigitsValue(d) as int))
  {
    var m := ['-'] + (d + rest);
    assert m[1..] == d + rest;
    LeadingDigitsOfDigits(d, rest);
  }

  /** 2^53: every integer up to this magnitude is a JavaScript number of its
      own, written by `String` without an exponent. */
  const MaxSafeMagnitude: int := 0x20_0000_0000_0000

  /** `parseInt` reads back what `String` writes, and stops at the first
      character that is not a digit; in JavaScript this holds for the
      integers a number holds exactly. */
  lemma ParseIntReadsDecimal(i: int, rest: string)
    requires -MaxSafeMagnitude <= i <= MaxSafeMagnitude
    requires rest == [] || !IsDigit(rest[0])
    ensures ParseIntOrZero(IntToDecimal(i) + rest) == i
  {
    var n: nat := if i < 0 then -i else i;
    var d := NatToDecimal(n);
    var s := if i < 0 then ['-'] + (d + rest) else d + rest;
    assert IntToDecimal(i) + rest == s by {
      assert IntToDecimal(i) == if i < 0 then "-" + d else d;
    }
    assert ParseInt(s) == SignedDigits(s) by {
      assert s[0] == if i < 0 then '-' else d[0];
      TrimStartKeeps(s);
    }
    assert SignedDigits(s) == Some(i) by {
      DecimalRoundTrip(n);
      if i < 0 {
        NegatedRun(d, rest);
      } else {
        SignedDigitsOfRun(d, rest);
      }
    }
  }

  /** Text without any decimal digit is `NaN` to `parseInt`, hence 0. */
  lemma ParseIntWithoutDigits(s: string)
    requires forall i :: 0 <= i < |s| ==> !IsDigit(s[i])
    ensures ParseIntOrZero(s) == 0
  {
    var t := TrimStart(s);
    var body := if t != [] && (t[0] == '-' || t[0] == '+') then t[1..] else t;
    assert body == s[|s| - |body|..];
    assert ParseInt(s) == SignedDigits(t);
    if body != [] {
      assert body[0] == s[|s| - |body|];
    }
  }
}
