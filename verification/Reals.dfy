/**
 The few facts about products of reals that the interval proofs lean on. Products are passed
 by name, which keeps each fact linear where it is used.
 */
module Reals {

  function Sq(a: real): real { a * a }

  lemma Positive(a: real, b: real, product: real)
    requires a > 0.0 && b > 0.0 && product == a * b
    ensures product > 0.0
  {
  }

  lemma NonNegative(a: real, b: real, product: real)
    requires a >= 0.0 && b >= 0.0 && product == a * b
    ensures product >= 0.0
  {
  }

  lemma Scaled(a: real, b: real, c: real, ac: real, bc: real)
    requires a <= b && c >= 0.0 && ac == a * c && bc == b * c
    ensures ac <= bc
  {
  }

  lemma ScaledStrictly(a: real, b: real, c: real, ac: real, bc: real)
    requires a < b && c > 0.0 && ac == a * c && bc == b * c
    ensures ac < bc
  {
  }

  lemma Unscaled(a: real, b: real, c: real, ac: real, bc: real)
    requires c > 0.0 && ac == a * c && bc == b * c
    ensures ac <= bc <==> a <= b
  {
    if a < b { ScaledStrictly(a, b, c, ac, bc); } else { Scaled(b, a, c, bc, ac); }
    if b < a { ScaledStrictly(b, a, c, bc, ac); }
  }

  lemma SqPositive(a: real)
    ensures Sq(a) >= 0.0
    ensures Sq(a) == 0.0 <==> a == 0.0
  {
    if a > 0.0 {
      Positive(a, a, Sq(a));
    } else if a < 0.0 {
      Positive(-a, -a, Sq(a));
    } else {
      assert a == 0.0;
    }
  }

  lemma SqGrows(a: real, b: real)
    requires 0.0 <= b < a
    ensures Sq(b) < Sq(a)
  {
    ScaledStrictly(b, a, a, b * a, Sq(a));
    Scaled(b, a, b, Sq(b), b * a);
  }

  lemma SqEven(a: real)
    ensures Sq(-a) == Sq(a)
  {
  }

  lemma SqOrder(a: real, b: real)
    requires b >= 0.0
    ensures Sq(a) <= Sq(b) <==> -b <= a <= b
  {
    SqEven(a);
    if a > b {
      SqGrows(a, b);
    } else if a < -b {
      SqGrows(-a, b);
    } else if a >= 0.0 {
      if a < b { SqGrows(b, a); }
    } else {
      if -a < b { SqGrows(b, -a); }
    }
  }

  /** `q` is `x / n`. */
  lemma Quotient(x: real, n: real, q: real)
    requires n > 0.0 && q == x / n
    ensures q * n == x
  {
  }

  lemma QuotientOrder(x: real, n: real, q: real)
    requires n > 0.0 && q == x / n
    ensures q <= 1.0 <==> x <= n
    ensures q == 1.0 <==> x == n
    ensures q >= 0.0 <==> x >= 0.0
    ensures q == 0.0 <==> x == 0.0
  {
    Quotient(x, n, q);
    Unscaled(q, 1.0, n, x, n);
    Unscaled(1.0, q, n, n, x);
    Unscaled(0.0, q, n, 0.0, x);
    Unscaled(q, 0.0, n, x, 0.0);
  }
}
