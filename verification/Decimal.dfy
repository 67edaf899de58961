/** Decimal text: digit strings of any kind, and numerals without superfluous zeros. */
module Decimal {

  predicate IsDigit(c: char) {
    '0' <= c <= '9'
  }

  predicate AllDigits(s: string) {
    forall i :: 0 <= i < |s| ==> IsDigit(s[i])
  }

  function DigitValue(c: char): (d: nat)
    requires IsDigit(c)
    ensures d < 10
  {
    c as int - '0' as int
  }

  function DigitChar(d: nat): (c: char)
    requires d < 10
    ensures IsDigit(c) && DigitValue(c) == d
  {
    ('0' as int + d) as char
  }

  /** The number a digit string stands for; leading zeros count for nothing. */
  function Value(s: string): nat
    requires AllDigits(s)
  {
    if s == "" then 0 else 10 * Value(s[..|s| - 1]) + DigitValue(s[|s| - 1])
  }

  /** A 0, or digits that do not start with one. */
  predicate IsNumeral(s: string) {
    s != "" && AllDigits(s) && (s[0] == '0' ==> |s| == 1)
  }

  function Numeral(n: nat): (s: string) {
    if n < 10 then [DigitChar(n)] else Numeral(n / 10) + [DigitChar(n % 10)]
  }

  /** Writing a number and reading it gives the number back. */
  lemma {:induction false} ValueOfNumeral(n: nat)
    ensures IsNumeral(Numeral(n)) && Value(Numeral(n)) == n
    ensures n > 0 ==> Numeral(n)[0] != '0'
  {
    if n < 10 {
      assert Value(Numeral(n)) == 10 * Value("") + n;
    } else {
      ValueOfNumeral(n / 10);
      var s := Numeral(n);
      assert s[..|s| - 1] == Numeral(n / 10);
    }
  }

  lemma {:induction false} NumeralsAreLarge(s: string)
    requires IsNumeral(s) && s != "0"
    ensures Value(s) > 0
  {
    if |s| > 1 {
      NumeralsAreLarge(s[..|s| - 1]);
    } else {
      assert Value(s) == 10 * Value("") + DigitValue(s[0]);
    }
  }

  /** Reading a numeral and writing it gives the very same text back. */
  lemma {:induction false} NumeralOfValue(s: string)
    requires IsNumeral(s)
    ensures Numeral(Value(s)) == s
  {
    var init, last := s[..|s| - 1], s[|s| - 1];
    if |s| == 1 {
      assert Value(s) == 10 * Value("") + DigitValue(last);
      assert s == [last];
    } else {
      NumeralOfValue(init);
      NumeralsAreLarge(init);
      assert s == init + [last];
    }
  }

  /** How many digits a string starts with. */
  function DigitsLen(s: string): (n: nat)
    ensures n <= |s|
  {
    if s == "" || !IsDigit(s[0]) then 0 else 1 + DigitsLen(s[1..])
  }

  lemma {:induction false} DigitsLenIsMaximal(s: string)
    ensures AllDigits(s[..DigitsLen(s)])
    ensures DigitsLen(s) < |s| ==> !IsDigit(s[DigitsLen(s)])
  {
    if s != "" && IsDigit(s[0]) {
      DigitsLenIsMaximal(s[1..]);
      assert s[..DigitsLen(s)] == [s[0]] + s[1..][..DigitsLen(s[1..])];
    }
  }

  /** The digits in front of a non-digit, or of the end, are all the digits there are. */
  lemma {:induction false} DigitsLenIs(d: string, rest: string)
    requires AllDigits(d) && (rest != "" ==> !IsDigit(rest[0]))
    ensures DigitsLen(d + rest) == |d|
  {
    if d == "" {
      assert d + rest == rest;
    } else {
      assert (d + rest)[1..] == d[1..] + rest;
      DigitsLenIs(d[1..], rest);
    }
  }
}
