/** Decimal numerals, as they stand in ids and messages. */
module Numerals {

  function Digit(n: nat): char
    requires n < 10
  {
    "0123456789"[n]
  }

  function Decimal(n: nat): (r: string)
    ensures |r| >= 1
    ensures n < 10 ==> |r| == 1
    ensures n < 100 ==> |r| <= 2
    ensures forall c <- r :: c in "0123456789"
  {
    if n < 10 then [Digit(n)] else Decimal(n / 10) + [Digit(n % 10)]
  }

  lemma OneDigit(n: nat)
    ensures |Decimal(n)| == 1 <==> n < 10
  {
  }

  lemma {:induction false} DecimalInjective(m: nat, n: nat)
    requires Decimal(m) == Decimal(n)
    ensures m == n
  {
    if m < 10 || n < 10 {
      OneDigit(m);
      OneDigit(n);
    } else {
      var a, b := Decimal(m / 10) + [Digit(m % 10)], Decimal(n / 10) + [Digit(n % 10)];
      assert a[..|a| - 1] == Decimal(m / 10) && b[..|b| - 1] == Decimal(n / 10);
      assert a[|a| - 1] == b[|b| - 1];
      DecimalInjective(m / 10, n / 10);
    }
  }

  /** The number a numeral stands for. */
  function Value(text: string): nat {
    if text == [] then 0 else 10 * Value(text[..|text| - 1]) + DigitValue(text[|text| - 1])
  }

  function DigitValue(c: char): nat {
    if '0' <= c <= '9' then (c - '0') as nat else 0
  }

  /** A number's numeral stands for it, and has no leading nought. */
  lemma {:induction false} DecimalStandsFor(n: nat)
    ensures Value(Decimal(n)) == n
    ensures Decimal(n)[0] == '0' <==> n == 0
  {
    if n < 10 {
      LastDigit("", n);
    } else {
      DecimalStandsFor(n / 10);
      LastDigit(Decimal(n / 10), n % 10);
    }
  }

  lemma LastDigit(text: string, n: nat)
    requires n < 10
    ensures Value(text + [Digit(n)]) == 10 * Value(text) + n
    ensures text == "" ==> text + [Digit(n)] == [Digit(n)]
    ensures Digit(n) == '0' <==> n == 0
  {
    var r := text + [Digit(n)];
    assert r[..|r| - 1] == text;
    assert Digit(n) == '0' + (n as char);
  }

  /** How many digits a small number takes. */
  lemma DecimalLength(n: nat)
    ensures n < 10 ==> |Decimal(n)| == 1
    ensures 10 <= n < 100 ==> |Decimal(n)| == 2
    ensures 100 <= n < 1000 ==> |Decimal(n)| == 3
  {
  }
}
