/**
 Decimal text the handlers produce and consume: the two-decimal rendering of
 an integer count of hundredths (`(n / 100).toFixed(2)` on an integer `n`),
 a reader for that format, and the question `parseFloat(s) > 0` that the
 Mollie handler asks of a recurring amount.
 */
module Decimal {
  import opened Js
  import opened Text

  predicate IsDigit(c: char) {
    '0' <= c <= '9'
  }

  predicate AllDigits(s: string) {
    forall i :: 0 <= i < |s| ==> IsDigit(s[i])
  }

  function DigitChar(d: nat): (c: char)
    requires d < 10
    ensures IsDigit(c)
  {
    (d + '0' as int) as char
  }

  function DigitValue(c: char): nat
    requires IsDigit(c)
  {
    c as int - '0' as int
  }

  /** A decimal numeral as JavaScript prints one: at least one digit, and no
      leading zero unless the numeral is "0" itself. */
  predicate CanonicalDigits(s: string) {
    |s| >= 1 && AllDigits(s) && (s[0] == '0' ==> |s| == 1)
  }

  /** Decimal digits of `n`, most significant first, without leading zeros. */
  function NatDigits(n: nat): (s: string)
    ensures |s| >= 1
    ensures AllDigits(s)
    ensures s[0] == '0' <==> n == 0
    ensures |s| == 1 <==> n < 10
    ensures CanonicalDigits(s)
    decreases n
  {
    if n < 10 then [DigitChar(n)] else NatDigits(n / 10) + [DigitChar(n % 10)]
  }

  /** The number a string of decimal digits denotes. */
  function DigitsValue(s: string): nat
    requires AllDigits(s)
    decreases |s|
  {
    if |s| == 0 then 0 else DigitsValue(s[..|s| - 1]) * 10 + DigitValue(s[|s| - 1])
  }

  /** Reading the digits of `n` back gives `n`. */
  lemma {:induction false} NatDigitsRoundTrip(n: nat)
    ensures DigitsValue(NatDigits(n)) == n
    decreases n
  {
    if n >= 10 {
      NatDigitsRoundTrip(n / 10);
      var s := NatDigits(n);
      assert s[..|s| - 1] == NatDigits(n / 10);
    }
  }

  /** A numeral that does not start with '0' denotes a positive number. */
  lemma {:induction false} LeadingNonZeroPositive(s: string)
    requires |s| >= 1 && AllDigits(s) && s[0] != '0'
    ensures DigitsValue(s) > 0
    decreases |s|
  {
    if |s| > 1 {
      var q := s[..|s| - 1];
      assert q[0] == s[0];
      LeadingNonZeroPositive(q);
    }
  }

  /** Two canonical numerals with the same value are the same numeral. */
  lemma {:induction false} CanonicalDigitsUnique(a: string, b: string)
    requires CanonicalDigits(a) && CanonicalDigits(b)
    requires DigitsValue(a) == DigitsValue(b)
    ensures a == b
    decreases |a| + |b|
  {
    var pa, pb := a[..|a| - 1], b[..|b| - 1];
    assert DigitsValue(a) == DigitsValue(pa) * 10 + DigitValue(a[|a| - 1]);
    assert DigitsValue(b) == DigitsValue(pb) * 10 + DigitValue(b[|b| - 1]);
    if |a| > 1 {
      assert pa[0] == a[0];
      LeadingNonZeroPositive(pa);
    }
    if |b| > 1 {
      assert pb[0] == b[0];
      LeadingNonZeroPositive(pb);
    }
    if |a| > 1 && |b| > 1 {
      CanonicalDigitsUnique(pa, pb);
      assert a == pa + [a[|a| - 1]] && b == pb + [b[|b| - 1]];
    } else if |a| == 1 && |b| == 1 {
      assert a == [a[0]] && b == [b[0]];
    }
  }

  /** `NatDigits(n)` is the only canonical numeral for `n`. */
  lemma NatDigitsUnique(s: string, n: nat)
    requires CanonicalDigits(s) && DigitsValue(s) == n
    ensures s == NatDigits(n)
  {
    NatDigitsRoundTrip(n);
    CanonicalDigitsUnique(s, NatDigits(n));
  }

  /** Two digits of a number below 100. */
  function TwoDigits(r: nat): (s: string)
    requires r < 100
    ensures |s| == 2 && AllDigits(s)
  {
    [DigitChar(r / 10), DigitChar(r % 10)]
  }

  /** `(n / 100).toFixed(2)` for an integer `n`: sign, whole part, point,
      exactly two decimals. */
  function FormatHundredths(n: int): (r: string)
    ensures |r| >= 4 && r[|r| - 3] == '.'
    ensures r[0] == '-' <==> n < 0
    ensures ParseHundredths(r) == Some(n)
    ensures CanonicalDigits(r[(if n < 0 then 1 else 0)..|r| - 3])
  {
    var m := if n < 0 then -n else n;
    var t := UnsignedHundredths(m);
    if n < 0 then
      assert ("-" + t)[1..] == t;
      "-" + t
    else
      t
  }

  /** The sign-less part of the rendering: whole part, point, two decimals. */
  function UnsignedHundredths(m: nat): (t: string)
    ensures |t| >= 4 && t[|t| - 3] == '.' && IsDigit(t[0])
    ensures ParseUnsigned(t) == Some(m)
    ensures CanonicalDigits(t[..|t| - 3])
  {
    var whole := NatDigits(m / 100);
    var t := whole + "." + TwoDigits(m % 100);
    assert t[..|t| - 3] == whole;
    assert t[|t| - 2..] == TwoDigits(m % 100);
    NatDigitsRoundTrip(m / 100);
    TwoDigitsValue(m % 100);
    t
  }

  lemma TwoDigitsValue(r: nat)
    requires r < 100
    ensures DigitsValue(TwoDigits(r)) == r
  {
    var d := TwoDigits(r);
    var a := d[..1];
    assert a[..0] == [] && a[0] == d[0];
    assert DigitsValue(a) == DigitValue(d[0]) == r / 10;
    assert d[..|d| - 1] == a;
    assert DigitValue(d[1]) == r % 10;
  }

  /** How a template literal shows an integer: optional minus, then its digits. */
  function FormatInteger(n: int): (r: string)
    ensures n >= 0 ==> CanonicalDigits(r) && DigitsValue(r) == n && (r[0] == '0' <==> n == 0)
    ensures n < 0 ==> |r| >= 2 && r[0] == '-' && CanonicalDigits(r[1..]) && r[1] != '0' && DigitsValue(r[1..]) == -n
  {
    if n < 0 then
      NatDigitsRoundTrip(-n);
      assert ("-" + NatDigits(-n))[1..] == NatDigits(-n);
      "-" + NatDigits(-n)
    else
      NatDigitsRoundTrip(n);
      NatDigits(n)
  }

  /** Reads `-?digits.dd` back into a count of hundredths; anything else is None. */
  function ParseHundredths(s: string): Option<int> {
    var neg := |s| > 0 && s[0] == '-';
    match ParseUnsigned(if neg then s[1..] else s)
    case None => None
    case Some(v) =>
      var w: int := if neg then -(v as int) else v;
      Some(w)
  }

  /** Reads `digits.dd` into a count of hundredths. */
  function ParseUnsigned(t: string): Option<nat> {
    if |t| >= 4 && t[|t| - 3] == '.' && AllDigits(t[..|t| - 3]) && AllDigits(t[|t| - 2..]) then
      Some(DigitsValue(t[..|t| - 3]) * 100 + DigitsValue(t[|t| - 2..]))
    else
      None
  }

  // ---- parseFloat(s) > 0 ----

  /** The characters `parseFloat` skips before the number: the ECMAScript
      white space and line terminators. */
  predicate IsJsSpace(c: char) {
    var k := c as int;
    || 0x09 <= k <= 0x0D                                   // TAB LF VT FF CR
    || k == 0x20 || k == 0xA0 || k == 0x1680               // space, NBSP, OGHAM
    || 0x2000 <= k <= 0x200A || k == 0x202F || k == 0x205F // other Zs spaces
    || k == 0x2028 || k == 0x2029                          // LS PS
    || k == 0x3000 || k == 0xFEFF                          // ideographic, BOM
  }

  function TrimStart(s: string): (r: string)
    ensures |r| <= |s|
    ensures |r| > 0 ==> !IsJsSpace(r[0])
    decreases |s|
  {
    if |s| > 0 && IsJsSpace(s[0]) then TrimStart(s[1..]) else s
  }

  /** The longest prefix of `s` made of decimal digits. */
  function LeadingDigits(s: string): (r: string)
    ensures |r| <= |s| && r == s[..|r|]
    ensures AllDigits(r)
    ensures |r| < |s| ==> !IsDigit(s[|r|])
    decreases |s|
  {
    if |s| > 0 && IsDigit(s[0]) then [s[0]] + LeadingDigits(s[1..]) else ""
  }

  /** The digits of the mantissa `parseFloat` reads: integer part, then the
      fraction after a point. An exponent can only scale the value. */
  function MantissaDigits(u: string): string {
    var a := LeadingDigits(u);
    var rest := u[|a|..];
    if |rest| > 0 && rest[0] == '.' then a + LeadingDigits(rest[1..]) else a
  }

  predicate HasNonZeroDigit(s: string) {
    exists i :: 0 <= i < |s| && '1' <= s[i] <= '9'
  }

  /** `parseFloat(s) > 0`: after leading white space, no minus sign, and either
      `Infinity` or a mantissa with a non-zero digit. A string with no number
      at all parses to NaN, which is not positive either. */
  predicate ParsesPositive(s: string) {
    var t := TrimStart(s);
    if |t| > 0 && t[0] == '-' then false
    else
      var u := if |t| > 0 && t[0] == '+' then t[1..] else t;
      StartsWith(u, "Infinity") || HasNonZeroDigit(MantissaDigits(u))
  }

  lemma {:induction false} NatDigitsNonZero(n: nat)
    ensures HasNonZeroDigit(NatDigits(n)) <==> n > 0
    decreases n
  {
    var s := NatDigits(n);
    if n < 10 {
      assert s == [DigitChar(n)];
      if n > 0 {
        assert '1' <= s[0] <= '9';
      }
    } else {
      NatDigitsNonZero(n / 10);
      var k :| 0 <= k < |NatDigits(n / 10)| && '1' <= NatDigits(n / 10)[k] <= '9';
      assert s[k] == NatDigits(n / 10)[k];
    }
  }

  lemma LeadingDigitsOfAllDigits(a: string, b: string)
    requires AllDigits(a)
    requires |b| == 0 || !IsDigit(b[0])
    ensures LeadingDigits(a + b) == a
    decreases |a|
  {
    if |a| > 0 {
      assert (a + b)[1..] == a[1..] + b;
      LeadingDigitsOfAllDigits(a[1..], b);
    } else {
      assert a + b == b;
    }
  }

  lemma MantissaOfUnsigned(m: nat)
    ensures MantissaDigits(UnsignedHundredths(m)) == NatDigits(m / 100) + TwoDigits(m % 100)
  {
    var whole := NatDigits(m / 100);
    var frac := TwoDigits(m % 100);
    var t := UnsignedHundredths(m);
    assert t == whole + ("." + frac);
    LeadingDigitsOfAllDigits(whole, "." + frac);
    assert t[|whole|..] == "." + frac;
    assert ("." + frac)[1..] == frac + "";
    LeadingDigitsOfAllDigits(frac, "");
  }

  lemma DigitsNonZero(m: nat)
    ensures HasNonZeroDigit(NatDigits(m / 100) + TwoDigits(m % 100)) <==> m > 0
  {
    var whole := NatDigits(m / 100);
    var frac := TwoDigits(m % 100);
    var d := whole + frac;
    NatDigitsNonZero(m / 100);
    if m / 100 > 0 {
      var k :| 0 <= k < |whole| && '1' <= whole[k] <= '9';
      assert d[k] == whole[k];
    } else if m % 100 / 10 > 0 {
      assert d[|whole|] == frac[0];
    } else if m % 100 > 0 {
      assert d[|whole| + 1] == frac[1];
    } else {
      assert !HasNonZeroDigit(whole);
      assert forall i :: |whole| <= i < |d| ==> d[i] == '0';
    }
  }

  /** An amount in the two-decimal format is read as positive by
      `parseFloat` exactly when the count of hundredths is positive. */
  lemma {:induction false} FormattedPositive(n: int)
    ensures ParsesPositive(FormatHundredths(n)) <==> n > 0
  {
    var s := FormatHundredths(n);
    assert !IsJsSpace(s[0]) by {
      assert s[0] == '-' || IsDigit(s[0]);
    }
    assert TrimStart(s) == s;
    if n >= 0 {
      assert s == UnsignedHundredths(n);
      assert s[0] != "Infinity"[0];
      MantissaOfUnsigned(n);
      DigitsNonZero(n);
    }
  }
}
