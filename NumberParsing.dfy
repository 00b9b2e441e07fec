/**
 * The parts of the .NET base library that the server-query client relies on
 * to turn the Minecraft challenge text into a number: Int32.Parse(string)
 * under the default NumberStyles.Integer with the invariant culture's signs,
 * and Int32.ToString(), the decimal text a server writes.
 *
 * Int32.Parse accepts  white* sign? digit+ white* NUL*  where white is
 * U+0009..U+000D or U+0020 and NUL is U+0000; anything else is a
 * FormatException. A well-formed text whose value lies outside the 32-bit
 * range is an OverflowException: the shape is checked before the range.
 */
module NumberParsing {

  /** The values of a C# `int`. */
  type int32 = x: int | -0x8000_0000 <= x < 0x8000_0000

  /** The two exceptions Int32.Parse raises on a non-null string. */
  datatype ParseError = BadFormat | Overflow

  datatype Parsed = Parsed(value: int32) | Failed(error: ParseError)

  predicate InInt32(v: int) {
    -0x8000_0000 <= v < 0x8000_0000
  }

  predicate IsWhite(c: char) {
    c == ' ' || '\t' <= c <= '\r'
  }

  predicate IsDigit(c: char) {
    '0' <= c <= '9'
  }

  predicate AllDigits(s: string) {
    forall i :: 0 <= i < |s| ==> IsDigit(s[i])
  }

  predicate AllNul(s: string) {
    forall i :: 0 <= i < |s| ==> s[i] == '\0'
  }

  /** `k` NUL characters. */
  function Nuls(k: nat): (s: string)
    ensures |s| == k && AllNul(s)
  {
    seq(k, _ => '\0')
  }

  /** Length of the longest prefix of `s` made of white space. */
  function WhiteSpan(s: string): (n: nat)
    ensures n <= |s|
    ensures forall i :: 0 <= i < n ==> IsWhite(s[i])
    ensures n < |s| ==> !IsWhite(s[n])
  {
    if s != [] && IsWhite(s[0]) then 1 + WhiteSpan(s[1..]) else 0
  }

  /** Length of the longest prefix of `s` made of decimal digits. */
  function DigitSpan(s: string): (n: nat)
    ensures n <= |s|
    ensures AllDigits(s[..n])
    ensures n < |s| ==> !IsDigit(s[n])
  {
    if s != [] && IsDigit(s[0]) then
      var n := 1 + DigitSpan(s[1..]);
      assert s[..n] == [s[0]] + s[1..][..n - 1];
      n
    else 0
  }

  function DigitValue(c: char): (d: nat)
    requires IsDigit(c)
    ensures d < 10
  {
    c as int - '0' as int
  }

  function DigitChar(d: nat): (c: char)
    requires d < 10
    ensures IsDigit(c) && DigitValue(c) == d
  {
    ('0' as int + d) as char
  }

  /** The number a string of decimal digits denotes, most significant digit first. */
  function DigitsValue(s: string): nat
    requires AllDigits(s)
  {
    if s == [] then 0 else DigitsValue(s[..|s| - 1]) * 10 + DigitValue(s[|s| - 1])
  }

  /** Int32.Parse(s). */
  function ParseInt32(s: string): Parsed
  {
    var a := s[WhiteSpan(s)..];
    var negative := |a| > 0 && a[0] == '-';
    var b := if |a| > 0 && (a[0] == '-' || a[0] == '+') then a[1..] else a;
    var n := DigitSpan(b);
    var rest := b[n..];
    if n == 0 || !AllNul(rest[WhiteSpan(rest)..]) then
      Failed(BadFormat)
    else
      var magnitude: int := DigitsValue(b[..n]);
      var v := if negative then -magnitude else magnitude;
      if InInt32(v) then Parsed(v) else Failed(Overflow)
  }

  /** The decimal digits of `n`, without leading zeros. */
  function Decimal(n: nat): (s: string)
    ensures |s| > 0 && AllDigits(s)
  {
    if n < 10 then [DigitChar(n)] else Decimal(n / 10) + [DigitChar(n % 10)]
  }

  /** Int32.ToString() and its unbounded extension: a minus sign, then the digits. */
  function Format(v: int): (s: string)
    ensures |s| > 0 && (s[0] == '-' || IsDigit(s[0]))
    ensures forall i :: 0 < i < |s| ==> IsDigit(s[i])
  {
    if v < 0 then "-" + Decimal(-v) else Decimal(v)
  }

  function Pow10(k: nat): (p: nat)
    ensures p > 0
  {
    if k == 0 then 1 else 10 * Pow10(k - 1)
  }

  /** Reading back the digits of `n` gives `n`. */
  lemma {:induction false} DecimalValue(n: nat)
    ensures DigitsValue(Decimal(n)) == n
  {
    if n >= 10 {
      var d := Decimal(n);
      assert d[..|d| - 1] == Decimal(n / 10);
      DecimalValue(n / 10);
    }
  }

  /** A number below 10^k has at most k digits. */
  lemma {:induction false} DecimalLength(n: nat, k: nat)
    requires 0 < k && n < Pow10(k)
    ensures |Decimal(n)| <= k
  {
    if n >= 10 {
      DecimalLength(n / 10, k - 1);
    }
  }

  /** The digits of a digit run followed by a non-digit are exactly that run. */
  lemma {:induction false} DigitSpanOfRun(d: string, rest: string)
    requires AllDigits(d)
    requires rest == [] || !IsDigit(rest[0])
    ensures DigitSpan(d + rest) == |d|
  {
    if d != [] {
      assert (d + rest)[1..] == d[1..] + rest;
      DigitSpanOfRun(d[1..], rest);
    } else {
      assert d + rest == rest;
    }
  }

  /**
   * Int32.Parse undoes Int32.ToString, also when the text is followed by NUL
   * padding; a formatted value outside the 32-bit range is an overflow, not a
   * format error.
   */
  lemma ParseFormatted(v: int, k: nat)
    ensures ParseInt32(Format(v) + Nuls(k)) == if InInt32(v) then Parsed(v) else Failed(Overflow)
  {
    var s := Format(v) + Nuls(k);
    assert !IsWhite(s[0]);
    assert s[WhiteSpan(s)..] == s;
    var m := if v < 0 then -v else v;
    var b := Decimal(m) + Nuls(k);
    assert s == if v < 0 then "-" + b else b;
    if v < 0 {
      assert s[1..] == b;
    }
    DigitSpanOfRun(Decimal(m), Nuls(k));
    assert b[..|Decimal(m)|] == Decimal(m);
    var rest := b[|Decimal(m)|..];
    assert rest == Nuls(k);
    assert rest[WhiteSpan(rest)..] == rest;
    DecimalValue(m);
  }

  /** Int32.Parse reads back the text Int32.ToString writes, with any NUL padding. */
  lemma ParseFormattedInt32(v: int32, k: nat)
    ensures ParseInt32(Format(v) + Nuls(k)) == Parsed(v)
  {
    ParseFormatted(v, k);
  }

  /** Int32.ToString of a 32-bit value has at most eleven characters. */
  lemma FormatLength(v: int32)
    ensures |Format(v)| <= 11
  {
    var w: int := v;
    var m: nat := if w < 0 then -w else w;
    assert m < Pow10(10);
    DecimalLength(m, 10);
  }

  /** A text that starts with NUL (the empty C string) is not a number. */
  lemma ParseRejectsNulFirst(s: string)
    requires s == [] || s[0] == '\0'
    ensures ParseInt32(s) == Failed(BadFormat)
  {
    assert WhiteSpan(s) == 0;
    assert s[0..] == s;
    assert DigitSpan(s) == 0;
  }
}
