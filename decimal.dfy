/**
 * Decimal rendering of integers, as Go's `strconv.Itoa` produces it, and the
 * matching reading back of a decimal string.
 */
module Decimal {
  import opened Types

  predicate IsDigit(c: char) {
    '0' <= c <= '9'
  }

  predicate AllDigits(s: string) {
    forall i :: 0 <= i < |s| ==> IsDigit(s[i])
  }

  function DigitChar(d: nat): (c: char)
    requires d < 10
    ensures IsDigit(c)
  {
    ('0' as int + d) as char
  }

  function DigitValue(c: char): (d: nat)
    requires IsDigit(c)
    ensures d < 10 && DigitChar(d) == c
  {
    c as int - '0' as int
  }

  /** The shortest decimal spelling of `n`: nonempty, digits only, no leading zero. */
  function NatDigits(n: nat): (s: string)
    ensures |s| > 0 && AllDigits(s)
    ensures s[0] == '0' ==> n == 0
    decreases n
  {
    if n < 10 then [DigitChar(n)] else NatDigits(n / 10) + [DigitChar(n % 10)]
  }

  /** strconv.Itoa: a minus sign for negative values, then the digits of the magnitude. */
  function Itoa(n: int): (s: string)
    ensures |s| > 0 && (s[0] == '-' <==> n < 0)
    ensures n < 0 ==> |s| > 1 && AllDigits(s[1..]) && s[1] != '0'
    ensures n >= 0 ==> AllDigits(s) && (s[0] == '0' ==> n == 0)
  {
    if n < 0 then "-" + NatDigits(-n) else NatDigits(n)
  }

  /** The value of a string of decimal digits, most significant first. */
  function DigitsValue(s: string): nat
    requires AllDigits(s)
    decreases |s|
  {
    if s == [] then 0 else DigitsValue(s[..|s| - 1]) * 10 + DigitValue(s[|s| - 1])
  }

  /** A nonempty string of digits without a leading zero (except "0" itself). */
  predicate Canonical(s: string) {
    |s| > 0 && AllDigits(s) && (s[0] == '0' ==> |s| == 1)
  }

  /**
   * Reads back the spelling Itoa writes: an optional minus sign before a
   * canonical digit string, and no "-0". Anything else is rejected.
   */
  function Atoi(s: string): (r: Option<int>)
    ensures r.Some? ==> |s| > 0
  {
    if |s| > 1 && s[0] == '-' && Canonical(s[1..]) && s[1] != '0' then Some(0 - DigitsValue(s[1..]) as int)
    else if Canonical(s) then Some(DigitsValue(s))
    else None
  }

  lemma {:induction false} DigitsValueOfNatDigits(n: nat)
    ensures DigitsValue(NatDigits(n)) == n
    decreases n
  {
    var s := NatDigits(n);
    if n >= 10 {
      assert s[..|s| - 1] == NatDigits(n / 10);
      DigitsValueOfNatDigits(n / 10);
    }
  }

  /** Reading back what Itoa wrote gives the number again, for every integer. */
  lemma ItoaRoundTrip(n: int)
    ensures Atoi(Itoa(n)) == Some(n)
  {
    var s := Itoa(n);
    if n < 0 {
      var d := NatDigits(-n);
      assert s == "-" + d;
      assert s[1..] == d;
      DigitsValueOfNatDigits(-n);
      assert d[0] != '0';
    } else {
      DigitsValueOfNatDigits(n);
      assert s[0] != '-';
    }
  }

  /** Itoa never writes the same text for two different integers. */
  lemma ItoaInjective(a: int, b: int)
    requires Itoa(a) == Itoa(b)
    ensures a == b
  {
    ItoaRoundTrip(a);
    ItoaRoundTrip(b);
  }

  /** Itoa's output holds no character other than a leading '-' and digits. */
  lemma ItoaAlphabet(n: int)
    ensures forall i :: 0 <= i < |Itoa(n)| ==> IsDigit(Itoa(n)[i]) || (i == 0 && n < 0 && Itoa(n)[i] == '-')
  {
  }

  lemma {:induction false} DigitsValuePositive(s: string)
    requires |s| > 0 && AllDigits(s) && s[0] != '0'
    ensures DigitsValue(s) >= 1
    decreases |s|
  {
    if |s| > 1 {
      DigitsValuePositive(s[..|s| - 1]);
    }
  }

  lemma {:induction false} NatDigitsOfDigitsValue(s: string)
    requires Canonical(s)
    ensures NatDigits(DigitsValue(s)) == s
    decreases |s|
  {
    var d := DigitValue(s[|s| - 1]);
    if |s| > 1 {
      var front := s[..|s| - 1];
      DigitsValuePositive(front);
      NatDigitsOfDigitsValue(front);
      var v := DigitsValue(front) * 10 + d;
      assert v / 10 == DigitsValue(front) && v % 10 == d;
      assert s == front + [s[|s| - 1]];
    }
  }

  /** Atoi accepts only what Itoa writes: a successful read spells its value back exactly. */
  lemma AtoiExact(s: string, n: int)
    requires Atoi(s) == Some(n)
    ensures Itoa(n) == s
  {
    if |s| > 1 && s[0] == '-' && Canonical(s[1..]) && s[1] != '0' {
      DigitsValuePositive(s[1..]);
      NatDigitsOfDigitsValue(s[1..]);
    } else {
      NatDigitsOfDigitsValue(s);
    }
  }
}
