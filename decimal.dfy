/** Decimal text of a non-negative integer, as JavaScript's template strings
    print `Date.now()` into the ids `test_<time>` and `cb_<time>`, and the
    inverse parse used to recognise array-index property names. */
module Decimal {

  predicate IsDigit(c: char) {
    '0' <= c <= '9'
  }

  function DigitChar(d: nat): (c: char)
    requires d < 10
    ensures IsDigit(c)
  {
    "0123456789"[d]
  }

  function DigitValue(c: char): (d: nat)
    requires IsDigit(c)
    ensures d < 10
  {
    (c as int - '0' as int) as nat
  }

  lemma DigitRoundTrip(d: nat)
    requires d < 10
    ensures DigitValue(DigitChar(d)) == d
  {
  }

  /** The shortest decimal text of `n`, most significant digit first. */
  function DecimalString(n: nat): (s: string)
    ensures |s| >= 1
    ensures forall i :: 0 <= i < |s| ==> IsDigit(s[i])
    decreases n
  {
    if n < 10 then [DigitChar(n)] else DecimalString(n / 10) + [DigitChar(n % 10)]
  }

  predicate AllDigits(s: string) {
    forall i :: 0 <= i < |s| ==> IsDigit(s[i])
  }

  /** Value of a string of digits read in base ten. */
  function ParseDecimal(s: string): nat
    requires AllDigits(s)
    decreases |s|
  {
    if s == [] then 0 else ParseDecimal(s[..|s| - 1]) * 10 + DigitValue(s[|s| - 1])
  }

  /** Printing and then parsing gives the number back. */
  lemma {:induction false} ParsePrinted(n: nat)
    ensures ParseDecimal(DecimalString(n)) == n
    decreases n
  {
    var s := DecimalString(n);
    if n < 10 {
      assert s[..0] == [];
      DigitRoundTrip(n);
    } else {
      var p := DecimalString(n / 10);
      assert s == p + [DigitChar(n % 10)];
      assert s[..|s| - 1] == p;
      ParsePrinted(n / 10);
      DigitRoundTrip(n % 10);
    }
  }

  /** Distinct clock readings print as distinct texts. */
  lemma PrintedInjective(a: nat, b: nat)
    requires DecimalString(a) == DecimalString(b)
    ensures a == b
  {
    ParsePrinted(a);
    ParsePrinted(b);
  }

  /** A canonical array-index property name ("0", "1", ..., no leading zero):
      the names JavaScript reads as positions of a string. */
  predicate IsCanonicalIndex(k: string) {
    |k| >= 1 && AllDigits(k) && (k[0] == '0' ==> |k| == 1)
  }

  lemma {:induction false} PrintedIsCanonical(n: nat)
    ensures IsCanonicalIndex(DecimalString(n))
    ensures DecimalString(n)[0] == '0' ==> n == 0
    decreases n
  {
    if n >= 10 {
      PrintedIsCanonical(n / 10);
      assert DecimalString(n)[0] == DecimalString(n / 10)[0];
    }
  }

  /** How a template string prints an integer: a minus sign before the
      digits of a negative one. */
  function IntText(n: int): (s: string)
    ensures |s| >= 1
    ensures n >= 0 ==> AllDigits(s) && ParseDecimal(s) == n
    ensures n < 0 ==> |s| >= 2 && s[0] == '-' && AllDigits(s[1..]) && ParseDecimal(s[1..]) == -n
  {
    if n >= 0 then
      ParsePrinted(n);
      DecimalString(n)
    else
      ParsePrinted(-n);
      assert ("-" + DecimalString(-n))[1..] == DecimalString(-n);
      "-" + DecimalString(-n)
  }

  /** Only a negative number's text starts with '-'. */
  lemma SignShown(n: int)
    ensures IntText(n)[0] == '-' <==> n < 0
  {
    if n >= 0 {
      assert IsDigit(DecimalString(n)[0]);
    }
  }

  /** Distinct clock readings give distinct texts, so ids made from them
      differ. */
  lemma IntTextInjective(a: int, b: int)
    requires IntText(a) == IntText(b)
    ensures a == b
  {
    if a >= 0 && b >= 0 {
      PrintedInjective(a, b);
    } else if a < 0 && b < 0 {
      assert DecimalString(-a) == IntText(a)[1..];
      PrintedInjective(-a, -b);
    } else {
      SignShown(a);
      SignShown(b);
      assert false;
    }
  }

  /** Two texts with the same prefix are equal only if what follows it is. */
  lemma PrefixedInjective(prefix: string, a: string, b: string)
    requires prefix + a == prefix + b
    ensures a == b
  {
    assert a == (prefix + a)[|prefix|..];
    assert b == (prefix + b)[|prefix|..];
  }
}
