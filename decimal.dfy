/**
 * Formatting of a two-place decimal with Python's f"{value:.2f}", as the CSV
 * exports write weights and quantities, and the parser that reads such text back.
 */
module Decimal {
  import opened Common

  predicate IsDigit(c: char)
  {
    '0' <= c <= '9'
  }

  predicate AllDigits(s: string)
  {
    forall i :: 0 <= i < |s| ==> IsDigit(s[i])
  }

  function DigitChar(d: nat): (c: char)
    requires d < 10
    ensures IsDigit(c)
  {
    ('0' as int + d) as char
  }

  function DigitValue(c: char): (d: nat)
    requires IsDigit(c)
    ensures d < 10 && DigitChar(d) == c
  {
    c as int - '0' as int
  }

  /** Decimal digits of n, most significant first, with no leading zero. */
  function NatToDigits(n: nat): (s: string)
    ensures |s| >= 1 && AllDigits(s)
    ensures s[0] == '0' <==> n == 0
    decreases n
  {
    if n < 10 then [DigitChar(n)] else NatToDigits(n / 10) + [DigitChar(n % 10)]
  }

  function DigitsToNat(s: string): nat
    requires AllDigits(s)
    decreases |s|
  {
    if s == [] then 0 else DigitsToNat(s[..|s| - 1]) * 10 + DigitValue(s[|s| - 1])
  }

  lemma {:induction false} DigitsRoundTrip(n: nat)
    ensures DigitsToNat(NatToDigits(n)) == n
    decreases n
  {
    if n >= 10 {
      var s := NatToDigits(n);
      assert s[..|s| - 1] == NatToDigits(n / 10);
      DigitsRoundTrip(n / 10);
    }
  }

  /** f"{weight:.2f}" for the weight c / 100: optional minus sign, integer part, point, two digits. */
  function FormatCents(c: Cents): (s: string)
    ensures |s| >= 4 && s[|s| - 3] == '.' && IsDigit(s[|s| - 2]) && IsDigit(s[|s| - 1])
    ensures s[0] == '-' <==> c < 0
  {
    var m := if c < 0 then -c else c;
    var d := NatToDigits(m / 100);
    assert d[0] != '-';
    (if c < 0 then "-" else "") + d + "." + [DigitChar(m % 100 / 10), DigitChar(m % 10)]
  }

  /** Reads "<digits>.<d><d>" as hundredths. */
  function ParseUnsigned(t: string): Option<nat>
  {
    if |t| >= 4 && t[|t| - 3] == '.' && AllDigits(t[..|t| - 3]) && IsDigit(t[|t| - 2]) && IsDigit(t[|t| - 1])
    then Some(DigitsToNat(t[..|t| - 3]) * 100 + DigitValue(t[|t| - 2]) * 10 + DigitValue(t[|t| - 1]))
    else None
  }

  /** Reads text in the shape FormatCents writes, with an optional leading minus sign. */
  function ParseCents(s: string): Option<Cents>
  {
    if |s| > 0 && s[0] == '-' then
      match ParseUnsigned(s[1..])
      case Some(m) => Some(-(m as int))
      case None => None
    else
      match ParseUnsigned(s)
      case Some(m) => Some(m)
      case None => None
  }

  lemma {:induction false} ParseUnsignedFormat(m: nat)
    ensures ParseUnsigned(NatToDigits(m / 100) + "." + [DigitChar(m % 100 / 10), DigitChar(m % 10)]) == Some(m)
  {
    var d := NatToDigits(m / 100);
    var t := d + "." + [DigitChar(m % 100 / 10), DigitChar(m % 10)];
    assert t[..|t| - 3] == d;
    assert t[|t| - 3] == '.';
    DigitsRoundTrip(m / 100);
  }

  /** The printed weight denotes exactly the stored decimal: formatting loses nothing. */
  lemma FormatCentsRoundTrip(c: Cents)
    ensures ParseCents(FormatCents(c)) == Some(c)
  {
    var m := if c < 0 then -c else c;
    var u := NatToDigits(m / 100) + "." + [DigitChar(m % 100 / 10), DigitChar(m % 10)];
    ParseUnsignedFormat(m);
    if c < 0 {
      assert FormatCents(c) == "-" + u;
      assert ("-" + u)[1..] == u;
    } else {
      assert FormatCents(c) == u;
      assert u[0] != '-';
    }
  }

  /** Distinct weights print differently. */
  lemma FormatCentsInjective(a: Cents, b: Cents)
    requires FormatCents(a) == FormatCents(b)
    ensures a == b
  {
    FormatCentsRoundTrip(a);
    FormatCentsRoundTrip(b);
  }
}
