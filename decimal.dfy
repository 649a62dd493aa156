/** Decimal text: digit strings, the integer rendering of `String(n)` and
    its inverse, and the part of JavaScript's `parseFloat` that the
    exchanges' numeric strings use. */
module Decimal {
  import opened Common

  predicate IsDigit(c: char) {
    '0' <= c <= '9'
  }

  function DigitValue(c: char): int
    requires IsDigit(c)
  {
    c as int - '0' as int
  }

  function DigitChar(d: int): (c: char)
    requires 0 <= d < 10
    ensures IsDigit(c) && DigitValue(c) == d
  {
    ('0' as int + d) as char
  }

  predicate AllDigits(s: string) {
    forall i :: 0 <= i < |s| ==> IsDigit(s[i])
  }

  /** The value of a digit string read in base 10; `""` reads as 0. */
  function DigitsValue(s: string): nat
    requires AllDigits(s)
  {
    if s == [] then 0 else DigitsValue(s[..|s| - 1]) * 10 + DigitValue(s[|s| - 1])
  }

  /** The decimal digits of `n`, without leading zeros. */
  function NatToString(n: nat): (s: string)
    ensures |s| >= 1 && AllDigits(s)
    ensures |s| > 1 ==> s[0] != '0'
  {
    if n < 10 then [DigitChar(n)] else NatToString(n / 10) + [DigitChar(n % 10)]
  }

  lemma {:induction false} NatToStringValue(n: nat)
    ensures DigitsValue(NatToString(n)) == n
  {
    if n >= 10 {
      var s := NatToString(n);
      assert s[..|s| - 1] == NatToString(n / 10);
      NatToStringValue(n / 10);
    }
  }

  /** `String(n)` for an integer `n`. */
  function IntToString(n: int): string {
    if n < 0 then "-" + NatToString(-n) else NatToString(n)
  }

  /** Reads an optional minus sign followed by at least one digit. */
  function ParseInt(s: string): Option<int> {
    if |s| > 0 && s[0] == '-' then
      (if |s| > 1 && AllDigits(s[1..]) then Some(0 - DigitsValue(s[1..])) else None)
    else if |s| > 0 && AllDigits(s) then Some(DigitsValue(s))
    else None
  }

  /** `ParseInt` inverts `IntToString`. */
  lemma ParseIntToString(n: int)
    ensures ParseInt(IntToString(n)) == Some(n)
  {
    var s := IntToString(n);
    if n < 0 {
      assert s[0] == '-' && s[1..] == NatToString(-n);
      NatToStringValue(-n);
    } else {
      assert s == NatToString(n) && IsDigit(s[0]);
      NatToStringValue(n);
    }
  }

  function Pow10(n: nat): (p: nat)
    ensures p >= 1
  {
    if n == 0 then 1 else 10 * Pow10(n - 1)
  }

  /** The length of the longest prefix of `s` made of digits. */
  function DigitPrefix(s: string): (p: nat)
    ensures p <= |s| && AllDigits(s[..p])
    ensures p < |s| ==> !IsDigit(s[p])
  {
    if s == [] || !IsDigit(s[0]) then 0
    else
      var p := 1 + DigitPrefix(s[1..]);
      assert s[..p] == [s[0]] + s[1..][..p - 1];
      p
  }

  lemma AllDigitsPrefix(a: string, t: string)
    requires AllDigits(a)
    requires |t| > 0 ==> !IsDigit(t[0])
    ensures DigitPrefix(a + t) == |a|
  {
    if |a| > 0 {
      assert (a + t)[1..] == a[1..] + t;
      AllDigitsPrefix(a[1..], t);
    } else {
      assert a + t == t;
    }
  }

  /** The value of an integer part and a fraction part written `ip.frac`. */
  function DecimalValue(ip: string, frac: string): real
    requires AllDigits(ip) && AllDigits(frac)
  {
    DigitsValue(ip) as real + DigitsValue(frac) as real / Pow10(|frac|) as real
  }

  /** The digits of a fraction `.digits` at the start of `rest`, if any. */
  function FractionDigits(rest: string): (f: string)
    ensures AllDigits(f)
  {
    if |rest| > 0 && rest[0] == '.' then rest[1..][..DigitPrefix(rest[1..])] else ""
  }

  /** `parseFloat` after the sign: digits, then an optional fraction. */
  function ParseUnsigned(body: string): Option<real> {
    var ip := DigitPrefix(body);
    var frac := FractionDigits(body[ip..]);
    if ip == 0 && |frac| == 0 then None else Some(DecimalValue(body[..ip], frac))
  }

  /** `parseFloat` on the grammar `[+-]? digits* ('.' digits*)?`: the longest
      prefix of that shape is read, and there is no number (`NaN`, here
      `None`) when the prefix holds no digit. */
  function ParseFloat(s: string): Option<real> {
    if |s| > 0 && s[0] == '-' then
      match ParseUnsigned(s[1..])
      case Some(v) => Some(-v)
      case None => None
    else if |s| > 0 && s[0] == '+' then ParseUnsigned(s[1..])
    else ParseUnsigned(s)
  }

  lemma ParseUnsignedInteger(a: string, t: string)
    requires |a| > 0 && AllDigits(a)
    requires |t| > 0 ==> !IsDigit(t[0]) && t[0] != '.'
    ensures ParseUnsigned(a + t) == Some(DigitsValue(a) as real)
  {
    AllDigitsPrefix(a, t);
    assert (a + t)[..|a|] == a;
    assert (a + t)[|a|..] == t;
    assert FractionDigits(t) == "";
    assert DigitsValue("") == 0 && Pow10(0) == 1;
    assert DecimalValue(a, "") == DigitsValue(a) as real;
  }

  /** A digit string followed by something that cannot continue a number
      reads as that digit string's value. */
  lemma ParseFloatInteger(a: string, t: string)
    requires |a| > 0 && AllDigits(a)
    requires |t| > 0 ==> !IsDigit(t[0]) && t[0] != '.'
    ensures ParseFloat(a + t) == Some(DigitsValue(a) as real)
  {
    ParseUnsignedInteger(a, t);
    assert IsDigit((a + t)[0]);
  }

  lemma FractionDigitsOf(frac: string, t: string)
    requires AllDigits(frac)
    requires |t| > 0 ==> !IsDigit(t[0])
    ensures FractionDigits("." + frac + t) == frac
  {
    var r := "." + frac + t;
    assert r[1..] == frac + t;
    AllDigitsPrefix(frac, t);
    assert (frac + t)[..|frac|] == frac;
  }

  lemma ParseUnsignedFraction(ip: string, frac: string, t: string)
    requires |ip| > 0 && AllDigits(ip) && AllDigits(frac)
    requires |t| > 0 ==> !IsDigit(t[0])
    ensures ParseUnsigned(ip + "." + frac + t) == Some(DecimalValue(ip, frac))
  {
    var s := ip + "." + frac + t;
    var tail := "." + frac + t;
    assert s == ip + tail;
    AllDigitsPrefix(ip, tail);
    assert s[..|ip|] == ip;
    assert s[|ip|..] == tail;
    FractionDigitsOf(frac, t);
  }

  /** `ip.frac` reads as its decimal value, whatever non-number text
      follows. */
  lemma ParseFloatFraction(ip: string, frac: string, t: string)
    requires |ip| > 0 && AllDigits(ip) && AllDigits(frac)
    requires |t| > 0 ==> !IsDigit(t[0])
    ensures ParseFloat(ip + "." + frac + t) == Some(DecimalValue(ip, frac))
  {
    ParseUnsignedFraction(ip, frac, t);
    assert IsDigit((ip + "." + frac + t)[0]);
  }

  /** A leading minus negates the number the rest of the text reads as, and
      leaves text without a number without one. */
  lemma ParseFloatMinus(s: string)
    ensures ParseFloat("-" + s) == match ParseUnsigned(s) case Some(v) => Some(-v) case None => None
  {
    assert ("-" + s)[1..] == s;
  }
}
