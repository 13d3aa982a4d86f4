/** Decimal rendering of non-negative integers, as `strconv.Itoa` does it. */
module Decimal {

  predicate IsDigit(c: char)
  {
    '0' <= c <= '9'
  }

  predicate AllDigits(s: string)
  {
    forall i :: 0 <= i < |s| ==> IsDigit(s[i])
  }

  /** A non-empty digit string without a superfluous leading zero. */
  predicate IsCanonical(s: string)
  {
    |s| > 0 && AllDigits(s) && (|s| > 1 ==> s[0] != '0')
  }

  function DigitChar(d: nat): (c: char)
    requires d < 10
    ensures IsDigit(c)
  {
    ('0' as int + d) as char
  }

  function DigitValue(c: char): (d: nat)
    requires IsDigit(c)
    ensures d < 10
  {
    c as int - '0' as int
  }

  /** The number a digit string denotes (the empty string denotes 0). */
  function Parse(s: string): nat
    requires AllDigits(s)
  {
    if s == [] then 0 else Parse(s[..|s| - 1]) * 10 + DigitValue(s[|s| - 1])
  }

  /** The decimal text of `n`: canonical, and it denotes `n`. */
  function FromNat(n: nat): (s: string)
    ensures IsCanonical(s)
    ensures Parse(s) == n
    ensures n > 0 ==> s[0] != '0'
  {
    if n < 10 then [DigitChar(n)] else FromNat(n / 10) + [DigitChar(n % 10)]
  }

  /** A canonical digit string that does not start with '0' denotes a positive number. */
  lemma {:induction false} ParsePositive(s: string)
    requires IsCanonical(s) && s[0] != '0'
    ensures Parse(s) >= 1
    ensures |s| > 1 ==> Parse(s) >= 10
  {
    if |s| > 1 {
      ParsePositive(s[..|s| - 1]);
    }
  }

  /** Two canonical strings that denote the same number are the same string. */
  lemma {:induction false} CanonicalUnique(s: string, t: string)
    requires IsCanonical(s) && IsCanonical(t)
    requires Parse(s) == Parse(t)
    ensures s == t
  {
    if |s| > 1 {
      ParsePositive(s);
    }
    if |t| > 1 {
      ParsePositive(t);
    }
    if |s| > 1 && |t| > 1 {
      var s', t' := s[..|s| - 1], t[..|t| - 1];
      assert Parse(s') == Parse(s) / 10 && Parse(t') == Parse(t) / 10;
      CanonicalUnique(s', t');
      assert DigitValue(s[|s| - 1]) == Parse(s) % 10 == DigitValue(t[|t| - 1]);
      assert s == s' + [s[|s| - 1]] && t == t' + [t[|t| - 1]];
    }
  }

  /** `FromNat(n)` is the only canonical decimal text of `n`. */
  lemma FromNatIsOnlyText(n: nat, s: string)
    requires IsCanonical(s) && Parse(s) == n
    ensures s == FromNat(n)
  {
    CanonicalUnique(s, FromNat(n));
  }
}
