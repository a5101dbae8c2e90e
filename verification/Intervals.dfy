/**
 Wilson's score interval and Newcombe's hybrid interval for a difference, over exact reals.

 The confidence level enters as its critical value `z`; the square root is any function that
 behaves as one on the non-negative reals.
 */
module Intervals {
  import opened Reals

  datatype Interval = Interval(low: real, high: real)

  ghost predicate IsSqrt(sqrt: real -> real) {
    forall x: real :: x >= 0.0 ==> sqrt(x) >= 0.0 && Sq(sqrt(x)) == x
  }

  function Min(a: real, b: real): real { if a <= b then a else b }
  function Max(a: real, b: real): real { if a >= b then a else b }

  /** An arm of `n` draws, `x` of them passes. */
  predicate ValidArm(x: nat, n: nat) {
    0 < n && x <= n
  }

  function Estimate(x: nat, n: nat): real
    requires ValidArm(x, n)
  {
    x as real / n as real
  }

  function Centre(x: nat, n: nat, z: real): real
    requires ValidArm(x, n) && n as real + Sq(z) > 0.0
  {
    (x as real + Sq(z) / 2.0) / (n as real + Sq(z))
  }

  function Radicand(x: nat, n: nat, z: real): real
    requires ValidArm(x, n)
  {
    x as real * (n as real - x as real) / n as real + Sq(z) / 4.0
  }

  function HalfWidth(sqrt: real -> real, x: nat, n: nat, z: real): real
    requires ValidArm(x, n) && n as real + Sq(z) > 0.0
  {
    (z / (n as real + Sq(z))) * sqrt(Radicand(x, n, z))
  }

  function Wilson(sqrt: real -> real, x: nat, n: nat, z: real): Interval
    requires ValidArm(x, n) && z > 0.0
  {
    SqPositive(z);
    var centre, halfWidth, estimate := Centre(x, n, z), HalfWidth(sqrt, x, n, z), Estimate(x, n);
    Interval(Min(Max(0.0, centre - halfWidth), estimate), Max(Min(1.0, centre + halfWidth), estimate))
  }

  function Hypot(sqrt: real -> real, a: real, b: real): real {
    sqrt(Sq(a) + Sq(b))
  }

  /** The distances to the bounds that push the difference outward, combined in quadrature. */
  function Hybrid(sqrt: real -> real, p1: real, first: Interval, p2: real, second: Interval): Interval {
    Interval(p1 - p2 - Hypot(sqrt, p1 - first.low, second.high - p2),
             p1 - p2 + Hypot(sqrt, first.high - p1, p2 - second.low))
  }

  /** Newcombe's interval before it is clamped to [-1, 1]. */
  function NewcombeRaw(sqrt: real -> real, x1: nat, n1: nat, x2: nat, n2: nat, z: real): Interval
    requires ValidArm(x1, n1) && ValidArm(x2, n2) && z > 0.0
  {
    Hybrid(sqrt, Estimate(x1, n1), Wilson(sqrt, x1, n1, z), Estimate(x2, n2), Wilson(sqrt, x2, n2, z))
  }

  function Newcombe(sqrt: real -> real, x1: nat, n1: nat, x2: nat, n2: nat, z: real): Interval
    requires ValidArm(x1, n1) && ValidArm(x2, n2) && z > 0.0
  {
    var raw := NewcombeRaw(sqrt, x1, n1, x2, n2, z);
    Interval(Max(-1.0, raw.low), Min(1.0, raw.high))
  }

  // ---- Wilson's interval is the score test inverted ------------------------------------------

  /** The proportions a score test at `z` does not reject: n(p̂-p)² <= z²p(1-p). */
  predicate NotRejected(x: nat, n: nat, z: real, p: real)
    requires ValidArm(x, n)
  {
    n as real * Sq(Estimate(x, n) - p) <= Sq(z) * (p * (1.0 - p))
  }

  lemma EstimateShape(x: nat, n: nat)
    requires ValidArm(x, n)
    ensures Estimate(x, n) * n as real == x as real
    ensures 0.0 <= Estimate(x, n) <= 1.0
    ensures Estimate(x, n) == 0.0 <==> x == 0
    ensures Estimate(x, n) == 1.0 <==> x == n
  {
    Quotient(x as real, n as real, Estimate(x, n));
    QuotientOrder(x as real, n as real, Estimate(x, n));
  }

  /** The score test's statistic against its bound. */
  function ExcessOf(n: real, e: real, zz: real, p: real): real {
    n * Sq(e - p) - zz * (p * (1.0 - p))
  }

  function RadicandOf(x: real, e: real, zz: real): real {
    x - x * e + zz / 4.0
  }

  lemma RadicandSimplified(n: real, x: real, e: real)
    requires n > 0.0 && e * n == x
    ensures x * (n - x) / n == x - x * e
  {
    assert x * (n - x) == n * (x - x * e);
    assert x * (n - x) / n == (n * (x - x * e)) / n;
  }

  lemma CentreSquared(n: real, x: real, e: real, zz: real, d: real, c: real, radicand: real)
    requires e * n == x && d == n + zz && c == x + zz / 2.0 && radicand == RadicandOf(x, e, zz)
    ensures Sq(c) - zz * radicand == d * (x * e)
  {
    assert c * c == x * x + x * zz + zz * zz / 4.0;
    assert x * x == n * (x * e);
  }

  lemma DistanceSquared(d: real, c: real, p: real, g: real, distance: real)
    requires g == d * p * p - 2.0 * c * p && distance == d * p - c
    ensures Sq(distance) == d * g + Sq(c)
  {
    assert (d * p - c) * (d * p - c) == d * (d * p * p - 2.0 * c * p) + c * c;
  }

  lemma ScoreExpanded(n: real, x: real, e: real, zz: real, p: real, d: real, c: real, g: real)
    requires e * n == x && d == n + zz && c == x + zz / 2.0 && g == d * p * p - 2.0 * c * p
    ensures ExcessOf(n, e, zz, p) == g + x * e
  {
    assert n * ((e - p) * (e - p)) == n * e * e - 2.0 * (n * e) * p + n * p * p;
    assert n * e * e == x * e;
  }

  /** Completing the square. */
  lemma Completed(n: real, x: real, e: real, zz: real, p: real, d: real, c: real, radicand: real,
                  squared: real, excess: real, distance: real)
    requires n > 0.0 && e * n == x && radicand == RadicandOf(x, e, zz) && squared == zz * radicand
    requires d == n + zz && c == x + zz / 2.0 && distance == d * p - c
    requires excess == ExcessOf(n, e, zz, p)
    ensures Sq(distance) - squared == excess * d
  {
    var g := d * p * p - 2.0 * c * p;
    CentreSquared(n, x, e, zz, d, c, radicand);
    DistanceSquared(d, c, p, g, distance);
    ScoreExpanded(n, x, e, zz, p, d, c, g);
    Summed(g, x * e, d, excess, Sq(distance), Sq(c), squared);
  }

  lemma Summed(a: real, b: real, d: real, excess: real, whole: real, part: real, squared: real)
    requires excess == a + b && whole == d * a + part && part - squared == d * b
    ensures whole - squared == excess * d
  {
  }

  /** A square compared with a square, through a positive factor. */
  lemma WithinRoot(distance: real, q: real, excess: real, d: real, scaled: real)
    requires d > 0.0 && q >= 0.0 && scaled == excess * d && Sq(distance) - Sq(q) == scaled
    ensures -q <= distance <= q <==> excess <= 0.0
  {
    SqOrder(distance, q);
    Unscaled(excess, 0.0, d, scaled, 0.0);
  }

  lemma WithinBounds(d: real, c: real, q: real, centre: real, h: real, p: real)
    requires d > 0.0 && h * d == q && centre * d == c
    ensures centre - h <= p <= centre + h <==> -q <= d * p - c <= q
  {
    Unscaled(centre - h, p, d, c - q, d * p);
    Unscaled(p, centre + h, d, d * p, c + q);
  }

  lemma RadicandPositive(x: nat, n: nat, z: real)
    requires ValidArm(x, n) && z > 0.0
    ensures Radicand(x, n, z) > 0.0
  {
    var m := x as real * (n as real - x as real);
    NonNegative(x as real, n as real - x as real, m);
    QuotientOrder(m, n as real, m / n as real);
    SqPositive(z);
  }

  /** The half-width times the denominator is `z` times the root. */
  lemma HalfWidthScaled(sqrt: real -> real, x: nat, n: nat, z: real, q: real)
    requires IsSqrt(sqrt) && ValidArm(x, n) && z > 0.0 && q == z * sqrt(Radicand(x, n, z))
    ensures n as real + Sq(z) > 0.0 && q > 0.0
    ensures HalfWidth(sqrt, x, n, z) * (n as real + Sq(z)) == q
    ensures Sq(q) == Sq(z) * Radicand(x, n, z)
    ensures Centre(x, n, z) * (n as real + Sq(z)) == x as real + Sq(z) / 2.0
  {
    RadicandPositive(x, n, z);
    SqPositive(z);
    var d, r := n as real + Sq(z), Radicand(x, n, z);
    var s := sqrt(r);
    assert s >= 0.0 && Sq(s) == r;
    SqPositive(s);
    Positive(z, s, q);
    assert Sq(q) == Sq(z) * Sq(s) by { SqProduct(z, s, q); }
    Quotient(z, d, z / d);
    assert ((z / d) * s) * d == ((z / d) * d) * s;
    Quotient(x as real + Sq(z) / 2.0, d, Centre(x, n, z));
  }

  lemma SqProduct(a: real, b: real, product: real)
    requires product == a * b
    ensures Sq(product) == Sq(a) * Sq(b)
  {
  }

  predicate InRaw(sqrt: real -> real, x: nat, n: nat, z: real, p: real)
    requires ValidArm(x, n) && n as real + Sq(z) > 0.0
  {
    Centre(x, n, z) - HalfWidth(sqrt, x, n, z) <= p <= Centre(x, n, z) + HalfWidth(sqrt, x, n, z)
  }

  lemma BoundsInvert(n: real, x: real, e: real, zz: real, p: real, d: real, c: real, radicand: real,
                     q: real, centre: real, h: real, excess: real)
    requires n > 0.0 && e * n == x && radicand == RadicandOf(x, e, zz)
    requires q >= 0.0 && Sq(q) == zz * radicand
    requires d > 0.0 && d == n + zz && c == x + zz / 2.0 && h * d == q && centre * d == c
    requires excess == ExcessOf(n, e, zz, p)
    ensures centre - h <= p <= centre + h <==> excess <= 0.0
  {
    var distance := d * p - c;
    WithinBounds(d, c, q, centre, h, p);
    Completed(n, x, e, zz, p, d, c, radicand, Sq(q), excess, distance);
    WithinRoot(distance, q, excess, d, excess * d);
  }

  /** The unclamped Wilson bounds enclose exactly the proportions that are not rejected. */
  lemma RawWilsonInverts(sqrt: real -> real, x: nat, n: nat, z: real, p: real)
    requires IsSqrt(sqrt) && ValidArm(x, n) && z > 0.0
    ensures n as real + Sq(z) > 0.0
    ensures InRaw(sqrt, x, n, z, p) <==> NotRejected(x, n, z, p)
  {
    var q := z * sqrt(Radicand(x, n, z));
    HalfWidthScaled(sqrt, x, n, z, q);
    ExcessDecides(x, n, z, p);
    RawInverts(x, n, z, p, q, Centre(x, n, z), HalfWidth(sqrt, x, n, z));
  }

  lemma RawInverts(x: nat, n: nat, z: real, p: real, q: real, centre: real, h: real)
    requires ValidArm(x, n) && z > 0.0 && n as real + Sq(z) > 0.0
    requires q >= 0.0 && Sq(q) == Sq(z) * Radicand(x, n, z)
    requires h * (n as real + Sq(z)) == q && centre * (n as real + Sq(z)) == x as real + Sq(z) / 2.0
    ensures centre - h <= p <= centre + h <==> Excess(x, n, z, p) <= 0.0
  {
    var N, X, e, zz, r := n as real, x as real, Estimate(x, n), Sq(z), Radicand(x, n, z);
    EstimateShape(x, n);
    RadicandIs(x, n, z);
    BoundsInvert(N, X, e, zz, p, N + zz, X + zz / 2.0, r, q, centre, h, Excess(x, n, z, p));
  }

  lemma RadicandIs(x: nat, n: nat, z: real)
    requires ValidArm(x, n)
    ensures Radicand(x, n, z) == RadicandOf(x as real, Estimate(x, n), Sq(z))
  {
    EstimateShape(x, n);
    RadicandSimplified(n as real, x as real, Estimate(x, n));
  }

  function Excess(x: nat, n: nat, z: real, p: real): real
    requires ValidArm(x, n)
  {
    ExcessOf(n as real, Estimate(x, n), Sq(z), p)
  }

  lemma ExcessDecides(x: nat, n: nat, z: real, p: real)
    requires ValidArm(x, n)
    ensures NotRejected(x, n, z, p) <==> Excess(x, n, z, p) <= 0.0
  {
  }

  lemma RejectedOutside(x: nat, n: nat, z: real, p: real)
    requires ValidArm(x, n) && z > 0.0 && (p < 0.0 || p > 1.0)
    ensures !NotRejected(x, n, z, p)
  {
    var e := Estimate(x, n);
    var v := p * (1.0 - p);
    SqPositive(e - p);
    NonNegative(n as real, Sq(e - p), n as real * Sq(e - p));
    if p < 0.0 { Positive(-p, 1.0 - p, -v); } else { Positive(p, p - 1.0, -v); }
    SqPositive(z);
    Positive(Sq(z), -v, -(Sq(z) * v));
  }

  lemma EstimateNotRejected(x: nat, n: nat, z: real)
    requires ValidArm(x, n) && z > 0.0
    ensures NotRejected(x, n, z, Estimate(x, n))
  {
    var e := Estimate(x, n);
    EstimateShape(x, n);
    NonNegative(e, 1.0 - e, e * (1.0 - e));
    SqPositive(z);
    NonNegative(Sq(z), e * (1.0 - e), Sq(z) * (e * (1.0 - e)));
    assert Sq(e - e) == 0.0;
  }

  lemma EndsRejected(x: nat, n: nat, z: real)
    requires ValidArm(x, n) && z > 0.0
    ensures NotRejected(x, n, z, 0.0) <==> x == 0
    ensures NotRejected(x, n, z, 1.0) <==> x == n
  {
    var e := Estimate(x, n);
    EstimateShape(x, n);
    SqPositive(e - 0.0);
    SqPositive(e - 1.0);
    if e != 0.0 { Positive(n as real, Sq(e - 0.0), n as real * Sq(e - 0.0)); }
    if e != 1.0 { Positive(n as real, Sq(e - 1.0), n as real * Sq(e - 1.0)); }
    assert Sq(z) * (0.0 * (1.0 - 0.0)) == 0.0;
    assert Sq(z) * (1.0 * (1.0 - 1.0)) == 0.0;
  }

  /** The clamps never move a bound. */
  lemma WilsonIsRaw(sqrt: real -> real, x: nat, n: nat, z: real)
    requires IsSqrt(sqrt) && ValidArm(x, n) && z > 0.0
    ensures n as real + Sq(z) > 0.0
    ensures Wilson(sqrt, x, n, z)
            == Interval(Centre(x, n, z) - HalfWidth(sqrt, x, n, z), Centre(x, n, z) + HalfWidth(sqrt, x, n, z))
    ensures HalfWidth(sqrt, x, n, z) > 0.0
  {
    SqPositive(z);
    var q := z * sqrt(Radicand(x, n, z));
    HalfWidthScaled(sqrt, x, n, z, q);
    Unscaled(HalfWidth(sqrt, x, n, z), 0.0, n as real + Sq(z), q, 0.0);
    var low, high := Centre(x, n, z) - HalfWidth(sqrt, x, n, z), Centre(x, n, z) + HalfWidth(sqrt, x, n, z);
    EstimateNotRejected(x, n, z);
    RawWilsonInverts(sqrt, x, n, z, Estimate(x, n));
    RawWilsonInverts(sqrt, x, n, z, low);
    RawWilsonInverts(sqrt, x, n, z, high);
    if low < 0.0 { RejectedOutside(x, n, z, low); }
    if high > 1.0 { RejectedOutside(x, n, z, high); }
  }

  /** Wilson's interval is exactly the set of proportions a score test at `z` does not reject. */
  lemma WilsonInverts(sqrt: real -> real, x: nat, n: nat, z: real, p: real)
    requires IsSqrt(sqrt) && ValidArm(x, n) && z > 0.0
    ensures var i := Wilson(sqrt, x, n, z); i.low <= p <= i.high <==> NotRejected(x, n, z, p)
  {
    WilsonIsRaw(sqrt, x, n, z);
    RawWilsonInverts(sqrt, x, n, z, p);
  }

  /** It contains the estimate, stays in [0, 1], has width, and reaches an end exactly at 0/n and n/n. */
  lemma WilsonShape(sqrt: real -> real, x: nat, n: nat, z: real)
    requires IsSqrt(sqrt) && ValidArm(x, n) && z > 0.0
    ensures var i := Wilson(sqrt, x, n, z);
            && 0.0 <= i.low <= Estimate(x, n) <= i.high <= 1.0
            && i.low < i.high
            && (i.low == 0.0 <==> x == 0)
            && (i.high == 1.0 <==> x == n)
  {
    var i := Wilson(sqrt, x, n, z);
    WilsonIsRaw(sqrt, x, n, z);
    EstimateNotRejected(x, n, z);
    WilsonInverts(sqrt, x, n, z, Estimate(x, n));
    WilsonInverts(sqrt, x, n, z, i.low);
    WilsonInverts(sqrt, x, n, z, i.high);
    if i.low < 0.0 { RejectedOutside(x, n, z, i.low); }
    if i.high > 1.0 { RejectedOutside(x, n, z, i.high); }
    WilsonInverts(sqrt, x, n, z, 0.0);
    WilsonInverts(sqrt, x, n, z, 1.0);
    EndsRejected(x, n, z);
  }

  predicate Inside(i: Interval, j: Interval) {
    j.low <= i.low && i.high <= j.high
  }

  /** A larger critical value gives a wider interval. */
  lemma WilsonNested(sqrt: real -> real, x: nat, n: nat, z: real, z': real)
    requires IsSqrt(sqrt) && ValidArm(x, n) && 0.0 < z <= z'
    ensures Inside(Wilson(sqrt, x, n, z), Wilson(sqrt, x, n, z'))
  {
    var i := Wilson(sqrt, x, n, z);
    WilsonShape(sqrt, x, n, z);
    StillNotRejected(x, n, z, z', i.low);
    StillNotRejected(x, n, z, z', i.high);
    WilsonInverts(sqrt, x, n, z, i.low);
    WilsonInverts(sqrt, x, n, z, i.high);
    WilsonInverts(sqrt, x, n, z', i.low);
    WilsonInverts(sqrt, x, n, z', i.high);
  }

  lemma StillNotRejected(x: nat, n: nat, z: real, z': real, p: real)
    requires ValidArm(x, n) && 0.0 < z <= z' && 0.0 <= p <= 1.0
    ensures NotRejected(x, n, z, p) ==> NotRejected(x, n, z', p)
  {
    var v := p * (1.0 - p);
    NonNegative(p, 1.0 - p, v);
    if z < z' { SqGrows(z', z); }
    Scaled(Sq(z), Sq(z'), v, Sq(z) * v, Sq(z') * v);
  }

  // ---- Newcombe's interval for a difference ----------------------------------------------------

  lemma HypotBounds(sqrt: real -> real, a: real, b: real)
    requires IsSqrt(sqrt) && a >= 0.0 && b >= 0.0
    ensures 0.0 <= Hypot(sqrt, a, b) <= a + b
    ensures Sq(Hypot(sqrt, a, b)) == Sq(a) + Sq(b)
  {
    SqPositive(a);
    SqPositive(b);
    var h := Hypot(sqrt, a, b);
    assert h >= 0.0 && Sq(h) == Sq(a) + Sq(b);
    NonNegative(a, b, a * b);
    assert Sq(a + b) == Sq(a) + Sq(b) + 2.0 * (a * b);
    SqOrder(h, a + b);
  }

  lemma HypotGrows(sqrt: real -> real, a: real, b: real, a': real, b': real)
    requires IsSqrt(sqrt) && 0.0 <= a <= a' && 0.0 <= b <= b'
    ensures Hypot(sqrt, a, b) <= Hypot(sqrt, a', b')
  {
    HypotBounds(sqrt, a, b);
    HypotBounds(sqrt, a', b');
    SqOrder(a, a');
    SqOrder(b, b');
    SqOrder(Hypot(sqrt, a, b), Hypot(sqrt, a', b'));
  }

  /** It contains the difference and stays in [-1, 1] even before it is clamped. */
  lemma NewcombeShape(sqrt: real -> real, x1: nat, n1: nat, x2: nat, n2: nat, z: real)
    requires IsSqrt(sqrt) && ValidArm(x1, n1) && ValidArm(x2, n2) && z > 0.0
    ensures var i := Newcombe(sqrt, x1, n1, x2, n2, z);
            && -1.0 <= i.low <= Estimate(x1, n1) - Estimate(x2, n2) <= i.high <= 1.0
            && i == NewcombeRaw(sqrt, x1, n1, x2, n2, z)
  {
    WilsonShape(sqrt, x1, n1, z);
    WilsonShape(sqrt, x2, n2, z);
    var first, second := Wilson(sqrt, x1, n1, z), Wilson(sqrt, x2, n2, z);
    var p1, p2 := Estimate(x1, n1), Estimate(x2, n2);
    HypotBounds(sqrt, p1 - first.low, second.high - p2);
    HypotBounds(sqrt, first.high - p1, p2 - second.low);
  }

  /** Swapping the arms negates it. */
  lemma NewcombeSwaps(sqrt: real -> real, x1: nat, n1: nat, x2: nat, n2: nat, z: real)
    requires IsSqrt(sqrt) && ValidArm(x1, n1) && ValidArm(x2, n2) && z > 0.0
    ensures var i, j := Newcombe(sqrt, x1, n1, x2, n2, z), Newcombe(sqrt, x2, n2, x1, n1, z);
            j.low == -i.high && j.high == -i.low
  {
    var first, second := Wilson(sqrt, x1, n1, z), Wilson(sqrt, x2, n2, z);
    var p1, p2 := Estimate(x1, n1), Estimate(x2, n2);
    HypotSwaps(sqrt, p1 - first.low, second.high - p2);
    HypotSwaps(sqrt, first.high - p1, p2 - second.low);
  }

  lemma HypotSwaps(sqrt: real -> real, a: real, b: real)
    ensures Hypot(sqrt, a, b) == Hypot(sqrt, b, a)
  {
    assert Sq(a) + Sq(b) == Sq(b) + Sq(a);
  }

  /** Each bound lies from the difference by the two Wilson distances that push it outward, in quadrature. */
  lemma NewcombeQuadrature(sqrt: real -> real, x1: nat, n1: nat, x2: nat, n2: nat, z: real)
    requires IsSqrt(sqrt) && ValidArm(x1, n1) && ValidArm(x2, n2) && z > 0.0
    ensures var i, first, second := Newcombe(sqrt, x1, n1, x2, n2, z), Wilson(sqrt, x1, n1, z), Wilson(sqrt, x2, n2, z);
            var p1, p2 := Estimate(x1, n1), Estimate(x2, n2);
            && Sq(p1 - p2 - i.low) == Sq(p1 - first.low) + Sq(second.high - p2)
            && Sq(i.high - (p1 - p2)) == Sq(first.high - p1) + Sq(p2 - second.low)
  {
    NewcombeShape(sqrt, x1, n1, x2, n2, z);
    WilsonShape(sqrt, x1, n1, z);
    WilsonShape(sqrt, x2, n2, z);
    HybridQuadrature(sqrt, Estimate(x1, n1), Wilson(sqrt, x1, n1, z), Estimate(x2, n2), Wilson(sqrt, x2, n2, z));
  }

  lemma HybridQuadrature(sqrt: real -> real, p1: real, first: Interval, p2: real, second: Interval)
    requires IsSqrt(sqrt) && first.low <= p1 <= first.high && second.low <= p2 <= second.high
    ensures var i := Hybrid(sqrt, p1, first, p2, second);
            && Sq(p1 - p2 - i.low) == Sq(p1 - first.low) + Sq(second.high - p2)
            && Sq(i.high - (p1 - p2)) == Sq(first.high - p1) + Sq(p2 - second.low)
  {
    HypotBounds(sqrt, p1 - first.low, second.high - p2);
    HypotBounds(sqrt, first.high - p1, p2 - second.low);
    var i := Hybrid(sqrt, p1, first, p2, second);
    assert p1 - p2 - i.low == Hypot(sqrt, p1 - first.low, second.high - p2);
    assert i.high - (p1 - p2) == Hypot(sqrt, first.high - p1, p2 - second.low);
  }

  lemma HybridNested(sqrt: real -> real, p1: real, first: Interval, first': Interval,
                     p2: real, second: Interval, second': Interval)
    requires IsSqrt(sqrt) && first.low <= p1 <= first.high && second.low <= p2 <= second.high
    requires Inside(first, first') && Inside(second, second')
    ensures Inside(Hybrid(sqrt, p1, first, p2, second), Hybrid(sqrt, p1, first', p2, second'))
  {
    HypotGrows(sqrt, p1 - first.low, second.high - p2, p1 - first'.low, second'.high - p2);
    HypotGrows(sqrt, first.high - p1, p2 - second.low, first'.high - p1, p2 - second'.low);
  }

  /** A larger critical value only widens it: the lower bound falls and the upper one rises. */
  lemma NewcombeNested(sqrt: real -> real, x1: nat, n1: nat, x2: nat, n2: nat, z: real, z': real)
    requires IsSqrt(sqrt) && ValidArm(x1, n1) && ValidArm(x2, n2) && 0.0 < z <= z'
    ensures Inside(Newcombe(sqrt, x1, n1, x2, n2, z), Newcombe(sqrt, x1, n1, x2, n2, z'))
  {
    WilsonShape(sqrt, x1, n1, z);
    WilsonShape(sqrt, x2, n2, z);
    WilsonNested(sqrt, x1, n1, z, z');
    WilsonNested(sqrt, x2, n2, z, z');
    HybridNested(sqrt, Estimate(x1, n1), Wilson(sqrt, x1, n1, z), Wilson(sqrt, x1, n1, z'),
                 Estimate(x2, n2), Wilson(sqrt, x2, n2, z), Wilson(sqrt, x2, n2, z'));
  }
}
