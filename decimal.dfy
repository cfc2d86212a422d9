/**
 * Rust's `{}` formatting of an integer (an optional '-' followed by the
 * decimal digits of the magnitude, no leading zeros), with a parser that
 * recovers the number from the text.
 */
module Decimal {
  import opened Wrappers

  predicate IsDigit(c: char) {
    '0' <= c <= '9'
  }

  predicate IsDigits(s: string) {
    |s| > 0 && forall i :: 0 <= i < |s| ==> IsDigit(s[i])
  }

  function DigitChar(d: nat): (c: char)
    requires d < 10
    ensures IsDigit(c)
  {
    (48 + d) as char
  }

  /** The decimal digits of `n`, most significant first. */
  function Digits(n: nat): (s: string)
    ensures IsDigits(s)
    ensures n < 10 <==> |s| == 1
    decreases n
  {
    if n < 10 then [DigitChar(n)] else Digits(n / 10) + [DigitChar(n % 10)]
  }

  /** The number a string of digits denotes. */
  function DigitsValue(s: string): nat
    requires forall i :: 0 <= i < |s| ==> IsDigit(s[i])
  {
    if s == [] then 0
    else
      assert IsDigit(s[|s| - 1]);
      DigitsValue(s[..|s| - 1]) * 10 + (s[|s| - 1] as int - 48)
  }

  /** `format!("{}", n)`. */
  function Format(n: int): (s: string)
    ensures |s| > 0
    ensures s[0] == '-' <==> n < 0
  {
    if n < 0 then "-" + Digits(-n) else Digits(n)
  }

  /** Reads back what Format writes; None for anything else. */
  function Parse(s: string): Option<int> {
    if |s| > 0 && s[0] == '-' then
      if IsDigits(s[1..]) then Some(0 - DigitsValue(s[1..]) as int) else None
    else if IsDigits(s) then Some(DigitsValue(s))
    else None
  }

  lemma {:induction false} DigitsValueOfDigits(n: nat)
    ensures DigitsValue(Digits(n)) == n
    decreases n
  {
    if n >= 10 {
      var s := Digits(n);
      assert s[..|s| - 1] == Digits(n / 10);
      DigitsValueOfDigits(n / 10);
    }
  }

  /** The formatted text determines the number. */
  lemma ParseFormat(n: int)
    ensures Parse(Format(n)) == Some(n)
  {
    var s := Format(n);
    if n < 0 {
      assert s == "-" + Digits(-n);
      assert s[1..] == Digits(-n);
      DigitsValueOfDigits(-n);
      assert Parse(s) == Some(0 - DigitsValue(Digits(-n)) as int);
    } else {
      assert s == Digits(n);
      assert s[0] != '-';
      DigitsValueOfDigits(n);
    }
  }

  lemma FormatInjective(a: int, b: int)
    ensures Format(a) == Format(b) <==> a == b
  {
    if Format(a) == Format(b) {
      ParseFormat(a);
      ParseFormat(b);
    }
  }
}
