/**
 * Decimal rendering of integers, as Go's strconv.Itoa does it, together with
 * the reading it is the inverse of. Query parameters (page[number],
 * page[size], version) carry integers in this form.
 */
module Strconv {
  import opened Wrappers

  predicate IsDigit(c: char) {
    '0' <= c <= '9'
  }

  predicate AllDigits(s: string) {
    forall i | 0 <= i < |s| :: IsDigit(s[i])
  }

  function DigitChar(d: nat): (c: char)
    requires d < 10
    ensures IsDigit(c)
  {
    ('0' as int + d) as char
  }

  function DigitValue(c: char): (d: nat)
    requires IsDigit(c)
    ensures d < 10 && DigitChar(d) == c
  {
    c as int - '0' as int
  }

  /** The decimal digits of n, most significant first. */
  function NatToDecimal(n: nat): string
    decreases n
  {
    if n < 10 then [DigitChar(n)] else NatToDecimal(n / 10) + [DigitChar(n % 10)]
  }

  /**
   * strconv.Itoa: base 10, a leading '-' exactly for negative values, and
   * decimal digits after it.
   */
  function Itoa(n: int): (s: string)
    ensures |s| > 0
    ensures s[0] == '-' <==> n < 0
    ensures AllDigits(if n < 0 then s[1..] else s)
  {
    NatToDecimalCanonical(if n < 0 then -n else n);
    if n < 0 then "-" + NatToDecimal(-n) else NatToDecimal(n)
  }

  /** The value of a run of decimal digits. */
  function DigitsValue(s: string): nat
    requires AllDigits(s)
    decreases |s|
  {
    if s == [] then 0 else DigitsValue(s[..|s| - 1]) * 10 + DigitValue(s[|s| - 1])
  }

  /** Reads an optional '-' followed by one or more decimal digits. */
  function ParseDecimal(s: string): Option<int> {
    if |s| > 1 && s[0] == '-' && AllDigits(s[1..]) then Some(0 - DigitsValue(s[1..]))
    else if |s| > 0 && AllDigits(s) then Some(DigitsValue(s))
    else None
  }

  /** Digits without a superfluous leading zero. */
  predicate IsCanonicalDigits(s: string) {
    |s| > 0 && AllDigits(s) && (s[0] == '0' ==> |s| == 1)
  }

  /** The strings Itoa produces: canonical digits, or '-' and canonical digits other than "0". */
  predicate IsCanonicalDecimal(s: string) {
    IsCanonicalDigits(s) || (|s| > 1 && s[0] == '-' && IsCanonicalDigits(s[1..]) && s[1..] != "0")
  }

  lemma {:induction false} NatToDecimalCanonical(n: nat)
    ensures IsCanonicalDigits(NatToDecimal(n))
    ensures DigitsValue(NatToDecimal(n)) == n
    decreases n
  {
    var s := NatToDecimal(n);
    if n < 10 {
      assert s[..0] == [];
    } else {
      var t := NatToDecimal(n / 10);
      NatToDecimalCanonical(n / 10);
      assert s == t + [DigitChar(n % 10)];
      assert s[..|s| - 1] == t;
      assert s[0] == t[0];
    }
  }

  lemma {:induction false} LeadingNonZeroPositive(s: string)
    requires |s| > 0 && AllDigits(s) && s[0] != '0'
    ensures DigitsValue(s) >= 1
    decreases |s|
  {
    if |s| == 1 {
      assert s[..0] == [];
    } else {
      LeadingNonZeroPositive(s[..|s| - 1]);
    }
  }

  lemma {:induction false} CanonicalDigitsRoundTrip(s: string)
    requires IsCanonicalDigits(s)
    ensures NatToDecimal(DigitsValue(s)) == s
    decreases |s|
  {
    var t := s[..|s| - 1];
    var d := DigitValue(s[|s| - 1]);
    if |s| == 1 {
      assert t == [];
      assert s == [DigitChar(d)];
    } else {
      assert t[0] == s[0] != '0';
      LeadingNonZeroPositive(t);
      CanonicalDigitsRoundTrip(t);
      var n := DigitsValue(s);
      assert n == DigitsValue(t) * 10 + d;
      assert n / 10 == DigitsValue(t) && n % 10 == d;
      assert s == t + [s[|s| - 1]];
    }
  }

  /** Reading back what Itoa wrote gives the original integer, and Itoa writes canonical decimals. */
  lemma ItoaRoundTrip(n: int)
    ensures IsCanonicalDecimal(Itoa(n))
    ensures ParseDecimal(Itoa(n)) == Some(n)
  {
    if n < 0 {
      var t := NatToDecimal(-n);
      NatToDecimalCanonical(-n);
      assert Itoa(n)[1..] == t;
    } else {
      NatToDecimalCanonical(n);
    }
  }

  /** Every canonical decimal is read and written back unchanged. */
  lemma ParseRoundTrip(s: string)
    requires IsCanonicalDecimal(s)
    ensures ParseDecimal(s).Some?
    ensures Itoa(ParseDecimal(s).value) == s
  {
    if IsCanonicalDigits(s) {
      CanonicalDigitsRoundTrip(s);
    } else {
      var t := s[1..];
      assert t[0] != '0';
      LeadingNonZeroPositive(t);
      CanonicalDigitsRoundTrip(t);
      assert s == "-" + t;
    }
  }

  /** Distinct integers are rendered differently. */
  lemma ItoaInjective(a: int, b: int)
    requires Itoa(a) == Itoa(b)
    ensures a == b
  {
    ItoaRoundTrip(a);
    ItoaRoundTrip(b);
  }
}
