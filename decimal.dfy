/**
 * Decimal text for credit counts. A credit count leaves the payment route as a number in the
 * Razorpay order's notes, which Razorpay keeps and delivers back as a string; the webhook turns
 * that string into a number again with JavaScript's `parseInt`. This module models `parseInt` on
 * strings made only of the digits 0-9, and the decimal rendering of a natural number.
 */
module Decimal {
  import opened Wrappers

  predicate IsDigit(c: char) {
    '0' <= c <= '9'
  }

  predicate AllDigits(s: string) {
    forall i :: 0 <= i < |s| ==> IsDigit(s[i])
  }

  function DigitValue(c: char): (d: nat)
    requires IsDigit(c)
    ensures d < 10
  {
    c as int - '0' as int
  }

  function DigitChar(d: nat): (c: char)
    requires d < 10
    ensures IsDigit(c) && DigitValue(c) == d
  {
    ('0' as int + d) as char
  }

  /** The number a digit string denotes, most significant digit first. */
  function DigitsValue(s: string): nat
    requires AllDigits(s)
    decreases |s|
  {
    if s == [] then 0 else DigitsValue(s[..|s| - 1]) * 10 + DigitValue(s[|s| - 1])
  }

  /**
   * `parseInt(s)` for a string of decimal digits; `None` stands for the NaN it gives on the
   * empty string. Leading zeros are accepted, as `parseInt` accepts them.
   */
  function ParseInt(s: string): (r: Option<nat>)
    ensures r.Some? <==> s != [] && AllDigits(s)
  {
    if s != [] && AllDigits(s) then Some(DigitsValue(s)) else None
  }

  /** The decimal rendering of `n` (JavaScript's `String(n)`): no sign, no leading zero. */
  function Show(n: nat): (s: string)
    ensures s != [] && AllDigits(s)
    ensures |s| > 1 ==> s[0] != '0'
    decreases n
  {
    if n < 10 then [DigitChar(n)] else Show(n / 10) + [DigitChar(n % 10)]
  }

  /** A digit string in the form `Show` produces: "0" alone, or no leading zero. */
  predicate Canonical(s: string) {
    s != [] && AllDigits(s) && (|s| > 1 ==> s[0] != '0')
  }

  /** Parsing the rendering of a count gives back that count. */
  lemma {:induction false} ParseShow(n: nat)
    ensures ParseInt(Show(n)) == Some(n)
  {
    if n >= 10 {
      var prefix, last := Show(n / 10), DigitChar(n % 10);
      var s := prefix + [last];
      ParseShow(n / 10);
      assert s[..|s| - 1] == prefix && s[|s| - 1] == last;
      assert DigitsValue(s) == (n / 10) * 10 + n % 10;
    } else {
      var s := Show(n);
      assert s == [DigitChar(n)] && s[..|s| - 1] == [];
      assert DigitsValue(s) == DigitValue(DigitChar(n));
    }
  }

  /** Rendering the value of a canonical digit string gives back the string itself. */
  lemma {:induction false} ShowParse(s: string)
    requires Canonical(s)
    ensures ParseInt(s).Some? && Show(ParseInt(s).value) == s
    decreases |s|
  {
    if |s| > 1 {
      var prefix := s[..|s| - 1];
      assert Canonical(prefix) by {
        assert prefix[0] == s[0];
      }
      ShowParse(prefix);
      LeadingNonZero(s);
      var n := DigitsValue(s);
      assert n / 10 == DigitsValue(prefix) && n % 10 == DigitValue(s[|s| - 1]);
      assert s == prefix + [s[|s| - 1]];
    }
  }

  /** A canonical string longer than one digit denotes a number of at least 1. */
  lemma {:induction false} LeadingNonZero(s: string)
    requires Canonical(s) && |s| > 1
    ensures DigitsValue(s[..|s| - 1]) >= 1
  {
    var prefix := s[..|s| - 1];
    if |prefix| > 1 {
      assert Canonical(prefix) by {
        assert prefix[0] == s[0];
      }
      LeadingNonZero(prefix);
    } else {
      assert prefix[0] == s[0];
    }
  }

  /** Two counts with the same rendering are equal: the notes string identifies the count. */
  lemma ShowInjective(m: nat, n: nat)
    requires Show(m) == Show(n)
    ensures m == n
  {
    ParseShow(m);
    ParseShow(n);
  }
}
