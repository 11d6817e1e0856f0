/**
 Decimal text for non-negative integers, as an f-string renders an `int`: the
 shortest run of digits, most significant first, with no sign and no leading
 zero. Reading the digits back is its inverse.
 */
module Decimal {
  import opened Wrappers

  predicate IsDigit(c: char)
  {
    '0' <= c <= '9'
  }

  /** Whether every character of `s` is a decimal digit. */
  predicate AllDigits(s: string)
  {
    forall i :: 0 <= i < |s| ==> IsDigit(s[i])
  }

  /** The character for a digit value. */
  function DigitChar(d: nat): (c: char)
    requires d < 10
    ensures IsDigit(c)
    ensures c as int - '0' as int == d
  {
    ('0' as int + d) as char
  }

  /** The value of a digit character. */
  function DigitValue(c: char): (d: nat)
    requires IsDigit(c)
    ensures d < 10 && DigitChar(d) == c
  {
    c as int - '0' as int
  }

  /** The decimal text of `n`. */
  function NatToString(n: nat): (s: string)
    ensures |s| > 0 && AllDigits(s)
    ensures |s| > 1 ==> s[0] != '0'
    ensures n < 10 <==> |s| == 1
  {
    if n < 10 then [DigitChar(n)]
    else NatToString(n / 10) + [DigitChar(n % 10)]
  }

  /** The number a run of digits denotes, most significant first. */
  function DigitsValue(s: string): (n: nat)
    requires AllDigits(s)
  {
    if s == [] then 0
    else DigitsValue(s[..|s| - 1]) * 10 + DigitValue(s[|s| - 1])
  }

  /**
   Reads a non-empty run of digits; anything else is not a number. A run
   without a leading zero reads as the number whose text it is.
   */
  function ParseNat(s: string): (r: Option<nat>)
    ensures r.Some? <==> s != [] && AllDigits(s)
    ensures r.Some? && (|s| == 1 || s[0] != '0') ==> NatToString(r.value) == s
  {
    if s != [] && AllDigits(s) then
      var n := DigitsValue(s);
      assert (|s| == 1 || s[0] != '0') ==> NatToString(n) == s by {
        if |s| == 1 || s[0] != '0' {
          CanonicalDigitsAreText(s);
        }
      }
      Some(n)
    else None
  }

  /** Reading back the digits of `n` gives `n`. */
  lemma {:induction false} DigitsOfNat(n: nat)
    ensures DigitsValue(NatToString(n)) == n
  {
    var s := NatToString(n);
    if n < 10 {
      assert s[..0] == [];
    } else {
      var t := NatToString(n / 10);
      assert s[..|s| - 1] == t;
      DigitsOfNat(n / 10);
    }
  }

  /** Parsing the text of a number gives the number back. */
  lemma ParseNatRoundTrip(n: nat)
    ensures ParseNat(NatToString(n)) == Some(n)
  {
    DigitsOfNat(n);
  }

  /**
   A non-empty run of digits without a leading zero is the text of the number
   it denotes: with DigitsOfNat, NatToString and DigitsValue are inverse
   bijections between the naturals and such canonical runs.
   */
  lemma {:induction false} CanonicalDigitsAreText(s: string)
    requires s != [] && AllDigits(s) && (|s| == 1 || s[0] != '0')
    ensures NatToString(DigitsValue(s)) == s
  {
    var n := DigitsValue(s);
    var t, last := s[..|s| - 1], s[|s| - 1];
    if |s| == 1 {
      assert t == [] && DigitsValue(t) == 0;
      assert n == DigitValue(last);
      assert s == [last];
    } else {
      assert t[0] == s[0];
      assert AllDigits(t);
      var m := DigitsValue(t);
      assert m >= 1 by { LeadingDigitMakesPositive(t); }
      assert n == m * 10 + DigitValue(last);
      assert n / 10 == m && n % 10 == DigitValue(last);
      CanonicalDigitsAreText(t);
      assert s == t + [last];
    }
  }

  /** A run of digits that starts with a non-zero digit denotes a positive number. */
  lemma {:induction false} LeadingDigitMakesPositive(s: string)
    requires s != [] && AllDigits(s) && s[0] != '0'
    ensures DigitsValue(s) >= 1
  {
    if |s| == 1 {
      assert s[..0] == [];
    } else {
      var t := s[..|s| - 1];
      assert t[0] == s[0];
      LeadingDigitMakesPositive(t);
    }
  }

  /** Different numbers have different texts. */
  lemma NatToStringInjective(m: nat, n: nat)
    requires NatToString(m) == NatToString(n)
    ensures m == n
  {
    DigitsOfNat(m);
    DigitsOfNat(n);
  }
}
