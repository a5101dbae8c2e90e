/**
 The imbalance of a partial split, and what placing one more group does to it.
 */
module SplitPotential {
  import opened Sums
  import opened Splits

  /** How far test is ahead of twice dev. */
  function Excess(placed: Placed, name: string): real {
    placed.test[name] as real - 2.0 * placed.dev[name] as real
  }

  function OverallExcess(placed: Placed): real {
    |placed.test| as real - 2.0 * |placed.dev| as real
  }

  ghost function Squares(totals: multiset<string>, placed: Placed): string -> real {
    name => Lean(Excess(placed, name), Excess(placed, name), totals[name] as real)
  }

  ghost function Slacks(strata: multiset<string>, totals: multiset<string>, placed: Placed): string -> real {
    name => Lean(strata[name] as real, Excess(placed, name), totals[name] as real)
  }

  ghost function Weights(strata: multiset<string>, totals: multiset<string>): string -> real {
    name => Lean(strata[name] as real, strata[name] as real, totals[name] as real)
  }

  ghost function OverallSquare(totals: multiset<string>, placed: Placed): real {
    Lean(OverallExcess(placed), OverallExcess(placed), |totals| as real)
  }

  /** The imbalance of a partial split, over the strata and over everything. */
  ghost function Potential(totals: multiset<string>, placed: Placed): real {
    SumOver(Names(totals), Squares(totals, placed))
    + OverallSquare(totals, placed)
  }

  /** Which way the strata of a group lean. */
  ghost function Slack(strata: multiset<string>, totals: multiset<string>, placed: Placed): real {
    SumOver(Names(strata), Slacks(strata, totals, placed))
    + Lean(|strata| as real, OverallExcess(placed), |totals| as real)
  }

  ghost function Weight(strata: multiset<string>, totals: multiset<string>): real {
    SumOver(Names(strata), Weights(strata, totals)) + Lean(|strata| as real, |strata| as real, |totals| as real)
  }

  /** `c(T·share - p) / (share·T)` is `c - (c·p/T)/share`. */
  lemma NeedTermIs(c: real, t: real, p: real, share: real)
    requires t != 0.0 && share > 0.0
    ensures Over(c * (t * share - p), share * t) == c - (1.0 / share) * Over(c * p, t)
  {
    var q, k := Over(c * p, t), 1.0 / share;
    OverTimes(c * p, t);
    assert k * share == 1.0;
    assert (k * q) * (share * t) == (k * share) * (q * t);
    assert (c - k * q) * (share * t) == c * (share * t) - (k * q) * (share * t);
    assert c * (t * share - p) == c * (share * t) - c * p;
    OverIs(c * (t * share - p), share * t, c - k * q);
  }

  /** The lean two needs are compared by. */
  function Lean(c: real, x: real, t: real): real {
    Over(c * x, t)
  }

  lemma PointGap(c: real, t: real, dev: real, test: real, x: real)
    requires t != 0.0 && x == test - 2.0 * dev
    ensures NeedAt(c, t, dev, DevShare) == NeedAt(c, t, test, 1.0 - DevShare) + 1.5 * Lean(c, x, t)
  {
    NeedTermIs(c, t, dev, DevShare);
    NeedTermIs(c, t, test, 1.0 - DevShare);
    assert c * x == c * test + (-2.0) * (c * dev) + 0.0 * 0.0;
    OverSum(c * test, c * dev, 0.0, -2.0, 0.0, t);
  }

  /** The counts of one group are part of the whole. */
  predicate Within(strata: multiset<string>, totals: multiset<string>) {
    |strata| > 0 && strata <= totals
  }

  /** The two needs differ by one and a half times the lean of the group's strata. */
  lemma NeedGap(strata: multiset<string>, totals: multiset<string>, placed: Placed)
    requires Within(strata, totals)
    ensures Need(strata, totals, placed.dev, Dev, |totals|)
            == Need(strata, totals, placed.test, Test, |totals|) + 1.5 * Slack(strata, totals, placed)
  {
    forall name | name in Names(strata)
      ensures NeedTerms(strata, totals, placed.dev, DevShare)(name)
              == NeedTerms(strata, totals, placed.test, 1.0 - DevShare)(name) + 1.5 * Slacks(strata, totals, placed)(name)
    {
      StratumGap(strata, totals, placed, name);
    }
    SumGap(Names(strata), NeedTerms(strata, totals, placed.dev, DevShare),
           NeedTerms(strata, totals, placed.test, 1.0 - DevShare), Slacks(strata, totals, placed));
    OverallGap(strata, totals, placed);
  }

  lemma TotalsPositive(strata: multiset<string>, totals: multiset<string>)
    requires Within(strata, totals)
    ensures |totals| > 0
  {
    assert totals == strata + (totals - strata);
  }

  lemma StratumGap(strata: multiset<string>, totals: multiset<string>, placed: Placed, name: string)
    requires name in totals
    ensures NeedTerm(strata, totals, placed.dev, DevShare, name)
            == NeedTerm(strata, totals, placed.test, 1.0 - DevShare, name) + 1.5 * Slacks(strata, totals, placed)(name)
  {
    PointGap(strata[name] as real, totals[name] as real, placed.dev[name] as real, placed.test[name] as real,
             Excess(placed, name));
  }

  lemma OverallGap(strata: multiset<string>, totals: multiset<string>, placed: Placed)
    requires Within(strata, totals)
    ensures OverallNeed(strata, placed.dev, DevShare, |totals|)
            == OverallNeed(strata, placed.test, 1.0 - DevShare, |totals|)
               + 1.5 * Lean(|strata| as real, OverallExcess(placed), |totals| as real)
  {
    TotalsPositive(strata, totals);
    PointGap(|strata| as real, |totals| as real, |placed.dev| as real, |placed.test| as real, OverallExcess(placed));
  }

  lemma {:induction false} SumGap(names: set<string>, f: string -> real, g: string -> real, u: string -> real)
    requires forall name <- names :: f(name) == g(name) + 1.5 * u(name)
    ensures SumOver(names, f) == SumOver(names, g) + 1.5 * SumOver(names, u)
  {
    if names != {} {
      var name :| name in names;
      SumRemoves(names, name, f);
      SumRemoves(names, name, g);
      SumRemoves(names, name, u);
      SumGap(names - {name}, f, g, u);
    }
  }

  /** A square after a move to dev, or to test. */
  lemma SquareMoves(x: real, c: real, t: real, toDev: real, toTest: real)
    requires t != 0.0 && toDev == x - 2.0 * c && toTest == x + c
    ensures Lean(toDev, toDev, t) == Lean(x, x, t) + -4.0 * Lean(c, x, t) + 4.0 * Lean(c, c, t)
    ensures Lean(toTest, toTest, t) == Lean(x, x, t) + 2.0 * Lean(c, x, t) + 1.0 * Lean(c, c, t)
  {
    assert toDev * toDev == x * x + (-4.0) * (c * x) + 4.0 * (c * c);
    assert toTest * toTest == x * x + 2.0 * (c * x) + 1.0 * (c * c);
    OverSum(x * x, c * x, c * c, -4.0, 4.0, t);
    OverSum(x * x, c * x, c * c, 2.0, 1.0, t);
  }

  lemma StratumMoves(strata: multiset<string>, totals: multiset<string>, placed: Placed, name: string)
    requires name in totals
    ensures var x, u, v := Squares(totals, placed)(name), Slacks(strata, totals, placed)(name),
                           Weights(strata, totals)(name);
            && Squares(totals, placed.With(Dev, strata))(name) == x + -4.0 * u + 4.0 * v
            && Squares(totals, placed.With(Test, strata))(name) == x + 2.0 * u + 1.0 * v
  {
    SquareMoves(Excess(placed, name), strata[name] as real, totals[name] as real,
                Excess(placed.With(Dev, strata), name), Excess(placed.With(Test, strata), name));
  }

  lemma OverallMoves(strata: multiset<string>, totals: multiset<string>, placed: Placed)
    requires Within(strata, totals)
    ensures var x, u, v := OverallSquare(totals, placed), Lean(|strata| as real, OverallExcess(placed), |totals| as real),
                           Lean(|strata| as real, |strata| as real, |totals| as real);
            && OverallSquare(totals, placed.With(Dev, strata)) == x + -4.0 * u + 4.0 * v
            && OverallSquare(totals, placed.With(Test, strata)) == x + 2.0 * u + 1.0 * v
  {
    TotalsPositive(strata, totals);
    SquareMoves(OverallExcess(placed), |strata| as real, |totals| as real,
                OverallExcess(placed.With(Dev, strata)), OverallExcess(placed.With(Test, strata)));
  }

  lemma StrataMoveDev(strata: multiset<string>, totals: multiset<string>, placed: Placed)
    requires Within(strata, totals)
    ensures SumOver(Names(totals), Squares(totals, placed.With(Dev, strata)))
            == SumOver(Names(totals), Squares(totals, placed)) + -4.0 * SumOver(Names(strata), Slacks(strata, totals, placed))
               + 4.0 * SumOver(Names(strata), Weights(strata, totals))
  {
    var f, g, u, v := Squares(totals, placed.With(Dev, strata)), Squares(totals, placed),
                      Slacks(strata, totals, placed), Weights(strata, totals);
    forall name | name in Names(totals) ensures f(name) == g(name) + -4.0 * u(name) + 4.0 * v(name) {
      StratumMoves(strata, totals, placed, name);
    }
    NoughtOutside(strata, totals, placed);
    DevSums(Names(totals), f, g, u, v);
  }

  lemma StrataMoveTest(strata: multiset<string>, totals: multiset<string>, placed: Placed)
    requires Within(strata, totals)
    ensures SumOver(Names(totals), Squares(totals, placed.With(Test, strata)))
            == SumOver(Names(totals), Squares(totals, placed)) + 2.0 * SumOver(Names(strata), Slacks(strata, totals, placed))
               + 1.0 * SumOver(Names(strata), Weights(strata, totals))
  {
    var f, g, u, v := Squares(totals, placed.With(Test, strata)), Squares(totals, placed),
                      Slacks(strata, totals, placed), Weights(strata, totals);
    forall name | name in Names(totals) ensures f(name) == g(name) + 2.0 * u(name) + v(name) {
      StratumMoves(strata, totals, placed, name);
    }
    NoughtOutside(strata, totals, placed);
    TestSums(Names(totals), f, g, u, v);
  }

  lemma {:induction false} DevSums(names: set<string>, f: string -> real, g: string -> real, u: string -> real,
                                   v: string -> real)
    requires forall name <- names :: f(name) == g(name) + -4.0 * u(name) + 4.0 * v(name)
    ensures SumOver(names, f) == SumOver(names, g) + -4.0 * SumOver(names, u) + 4.0 * SumOver(names, v)
  {
    if names != {} {
      var name :| name in names;
      SumRemoves(names, name, f);
      SumRemoves(names, name, g);
      SumRemoves(names, name, u);
      SumRemoves(names, name, v);
      DevSums(names - {name}, f, g, u, v);
    }
  }

  lemma {:induction false} TestSums(names: set<string>, f: string -> real, g: string -> real, u: string -> real,
                                    v: string -> real)
    requires forall name <- names :: f(name) == g(name) + 2.0 * u(name) + v(name)
    ensures SumOver(names, f) == SumOver(names, g) + 2.0 * SumOver(names, u) + SumOver(names, v)
  {
    if names != {} {
      var name :| name in names;
      SumRemoves(names, name, f);
      SumRemoves(names, name, g);
      SumRemoves(names, name, u);
      SumRemoves(names, name, v);
      TestSums(names - {name}, f, g, u, v);
    }
  }

  /** What placing a group does to the imbalance, exactly. */
  lemma PotentialMoves(strata: multiset<string>, totals: multiset<string>, placed: Placed)
    requires Within(strata, totals)
    ensures Potential(totals, placed.With(Dev, strata))
            == Potential(totals, placed) - 4.0 * Slack(strata, totals, placed) + 4.0 * Weight(strata, totals)
    ensures Potential(totals, placed.With(Test, strata))
            == Potential(totals, placed) + 2.0 * Slack(strata, totals, placed) + Weight(strata, totals)
  {
    StrataMoveDev(strata, totals, placed);
    StrataMoveTest(strata, totals, placed);
    OverallMoves(strata, totals, placed);
  }

  /** Strata the group has nothing in add nothing. */
  lemma NoughtOutside(strata: multiset<string>, totals: multiset<string>, placed: Placed)
    requires strata <= totals
    ensures SumOver(Names(totals), Slacks(strata, totals, placed)) == SumOver(Names(strata), Slacks(strata, totals, placed))
    ensures SumOver(Names(totals), Weights(strata, totals)) == SumOver(Names(strata), Weights(strata, totals))
  {
    forall name | name in Names(totals) && name !in Names(strata)
      ensures Slacks(strata, totals, placed)(name) == 0.0 && Weights(strata, totals)(name) == 0.0
    {
      assert strata[name] == 0;
      OverIs(0.0, totals[name] as real, 0.0);
    }
    SumExtends(Names(strata), Names(totals), Slacks(strata, totals, placed));
    SumExtends(Names(strata), Names(totals), Weights(strata, totals));
  }

  /** A group placed by need, not forced by the ratio, adds at most four times its weight. */
  lemma GrowthBounded(strata: multiset<string>, totals: multiset<string>, placed: Placed)
    requires Within(strata, totals) && !Forced(strata, placed)
    ensures var side := BetterSide(strata, totals, placed, |totals|);
            Potential(totals, placed.With(side, strata)) <= Potential(totals, placed) + 4.0 * Weight(strata, totals)
  {
    var side := BetterSide(strata, totals, placed, |totals|);
    NeedGap(strata, totals, placed);
    PotentialMoves(strata, totals, placed);
    WeightNonNegative(strata, totals);
  }

  /** A count times a lead of at most the whole, over the whole. */
  lemma LeanAtMost(c: real, x: real, t: real)
    requires c >= 0.0 && t > 0.0 && x <= t
    ensures Lean(c, x, t) <= c
  {
    OverTimes(c * x, t);
    RoomLeft(c, x, t);
    QuotientSign((c - Lean(c, x, t)) * t, t, c - Lean(c, x, t));
  }

  lemma RoomLeft(c: real, x: real, t: real)
    requires c >= 0.0 && x <= t && t > 0.0
    ensures (c - Lean(c, x, t)) * t >= 0.0
  {
    OverTimes(c * x, t);
    assert (c - Lean(c, x, t)) * t == c * t - Lean(c, x, t) * t;
    ProductSign(c, t - x);
    assert c * (t - x) == c * t - c * x;
  }

  lemma ProductSign(a: real, b: real)
    requires a >= 0.0 && b >= 0.0
    ensures a * b >= 0.0
  {
  }

  lemma LeanScales(c: real, x: real, k: real, t: real)
    requires t != 0.0
    ensures Lean(c, k * x, t) == k * Lean(c, x, t)
  {
    assert c * (k * x) == 0.0 + k * (c * x) + 0.0 * 0.0;
    OverSum(0.0, c * x, 0.0, k, 0.0, t);
    OverIs(0.0, t, 0.0);
  }

  lemma LeanAtLeast(c: real, x: real, t: real)
    requires c >= 0.0 && t > 0.0 && -2.0 * t <= x
    ensures -2.0 * c <= Lean(c, x, t)
  {
    var half := -0.5 * x;
    LeanAtMost(c, half, t);
    LeanScales(c, half, -2.0, t);
    assert -2.0 * half == x;
  }

  lemma LeanGrows(c: real, x: real, y: real, t: real)
    requires c >= 0.0 && t > 0.0 && x <= y
    ensures Lean(c, x, t) <= Lean(c, y, t)
  {
    assert c * y == c * x + 1.0 * (c * (y - x)) + 0.0 * 0.0;
    OverSum(c * x, c * (y - x), 0.0, 1.0, 0.0, t);
    OverTimes(c * (y - x), t);
    ProductSign(c, y - x);
    QuotientSign(c * (y - x), t, Over(c * (y - x), t));
  }

  ghost function Counts(strata: multiset<string>): string -> real {
    name => strata[name] as real
  }

  /** The strata's counts add up to the group's size. */
  lemma {:induction false} CountsAddUp(strata: multiset<string>)
    ensures SumOver(Names(strata), Counts(strata)) == |strata| as real
    decreases |strata|
  {
    if strata != multiset{} {
      var name :| name in strata;
      var rest := strata[name := 0];
      CountsAddUp(rest);
      assert Names(rest) == Names(strata) - {name};
      SumRemoves(Names(strata), name, Counts(strata));
      SumAgrees(Names(rest), Counts(rest), Counts(strata));
    }
  }

  lemma {:induction false} SumOrder(names: set<string>, f: string -> real, g: string -> real)
    requires forall name <- names :: f(name) <= g(name)
    ensures SumOver(names, f) <= SumOver(names, g)
  {
    if names != {} {
      var name :| name in names;
      SumRemoves(names, name, f);
      SumRemoves(names, name, g);
      SumOrder(names - {name}, f, g);
    }
  }

  lemma SlackAt(strata: multiset<string>, totals: multiset<string>, placed: Placed, name: string)
    requires Within(strata, totals) && placed.dev <= totals && placed.test <= totals && name in strata
    ensures Slacks(strata, totals, placed)(name) <= Counts(strata)(name)
    ensures -2.0 * Counts(strata)(name) <= Slacks(strata, totals, placed)(name)
  {
    LeanAtMost(strata[name] as real, Excess(placed, name), totals[name] as real);
    LeanAtLeast(strata[name] as real, Excess(placed, name), totals[name] as real);
  }

  ghost function StrataSlack(strata: multiset<string>, totals: multiset<string>, placed: Placed): real {
    SumOver(Names(strata), Slacks(strata, totals, placed))
  }

  /** The strata can lean to test by no more than the group's size. */
  lemma StrataSlackAtMost(strata: multiset<string>, totals: multiset<string>, placed: Placed)
    requires Within(strata, totals) && placed.dev <= totals && placed.test <= totals
    ensures StrataSlack(strata, totals, placed) <= |strata| as real
  {
    var f := Slacks(strata, totals, placed);
    forall name | name in Names(strata) ensures f(name) <= Counts(strata)(name) {
      SlackAt(strata, totals, placed, name);
    }
    SumOrder(Names(strata), f, Counts(strata));
    CountsAddUp(strata);
  }

  lemma {:induction false} SumAtLeast(names: set<string>, f: string -> real, g: string -> real)
    requires forall name <- names :: -2.0 * g(name) <= f(name)
    ensures -2.0 * SumOver(names, g) <= SumOver(names, f)
  {
    if names != {} {
      var name :| name in names;
      SumRemoves(names, name, f);
      SumRemoves(names, name, g);
      SumAtLeast(names - {name}, f, g);
    }
  }

  /** And to dev by no more than twice that. */
  lemma StrataSlackAtLeast(strata: multiset<string>, totals: multiset<string>, placed: Placed)
    requires Within(strata, totals) && placed.dev <= totals && placed.test <= totals
    ensures -2.0 * |strata| as real <= StrataSlack(strata, totals, placed)
  {
    var f := Slacks(strata, totals, placed);
    forall name | name in Names(strata) ensures -2.0 * Counts(strata)(name) <= f(name) {
      SlackAt(strata, totals, placed, name);
    }
    SumAtLeast(Names(strata), f, Counts(strata));
    CountsAddUp(strata);
  }

  lemma SizesBound(part: multiset<string>, totals: multiset<string>)
    requires part <= totals
    ensures |part| <= |totals|
  {
    assert totals == part + (totals - part);
  }

  /** The ratio overrules only where test leads by no more than one and a half times the group. */
  lemma ForcedLead(strata: multiset<string>, placed: Placed)
    requires Forced(strata, placed)
    ensures OverallExcess(placed) <= 1.5 * |strata| as real
  {
    var dev, all := (|placed.dev| + |strata|) as real, (|placed.dev| + |placed.test| + |strata|) as real;
    OverTimes(dev, all);
    Exceeds(Over(dev, all), all, dev);
  }

  lemma Exceeds(q: real, n: real, qn: real)
    requires q > 13.0 / 30.0 && n > 0.0 && q * n == qn
    ensures 30.0 * qn >= 13.0 * n
  {
    ProductSign(q - 13.0 / 30.0, n);
    assert (q - 13.0 / 30.0) * n == q * n - 13.0 / 30.0 * n;
  }

  /** A group the ratio forced to test adds at most four times its weight and twice its size. */
  lemma ForcedGrowth(strata: multiset<string>, totals: multiset<string>, placed: Placed)
    requires Within(strata, totals) && placed.dev <= totals && placed.test <= totals && Forced(strata, placed)
    ensures Potential(totals, placed.With(Test, strata))
            <= Potential(totals, placed) + 4.0 * Weight(strata, totals) + 2.0 * |strata| as real
  {
    var g, n := |strata| as real, |totals| as real;
    StrataSlackAtMost(strata, totals, placed);
    TotalsPositive(strata, totals);
    ForcedLead(strata, placed);
    LeanGrows(g, OverallExcess(placed), 1.5 * g, n);
    LeanScales(g, g, 1.5, n);
    OverallWithinWeight(strata, totals);
    PotentialMoves(strata, totals, placed);
  }

  lemma OverallWithinWeight(strata: multiset<string>, totals: multiset<string>)
    ensures Lean(|strata| as real, |strata| as real, |totals| as real) <= Weight(strata, totals)
  {
    forall name | name in Names(strata) ensures Weights(strata, totals)(name) >= 0.0 {
      OverNonNegative(strata[name] as real, totals[name] as real);
    }
    SumNonNegative(Names(strata), Weights(strata, totals));
  }

  /** A frozen group adds at most four times its weight and sixteen (dev) or four (test) times its size. */
  lemma FrozenGrowth(strata: multiset<string>, totals: multiset<string>, placed: Placed, side: Side)
    requires Within(strata, totals) && placed.dev <= totals && placed.test <= totals
    ensures Potential(totals, placed.With(side, strata))
            <= Potential(totals, placed) + 4.0 * Weight(strata, totals)
               + (if side.Dev? then 16.0 else 4.0) * |strata| as real
  {
    var g, n := |strata| as real, |totals| as real;
    StrataSlackAtMost(strata, totals, placed);
    StrataSlackAtLeast(strata, totals, placed);
    TotalsPositive(strata, totals);
    SizesBound(placed.dev, totals);
    SizesBound(placed.test, totals);
    LeanAtMost(g, OverallExcess(placed), n);
    LeanAtLeast(g, OverallExcess(placed), n);
    WeightNonNegative(strata, totals);
    PotentialMoves(strata, totals, placed);
  }

  lemma WeightNonNegative(strata: multiset<string>, totals: multiset<string>)
    ensures Weight(strata, totals) >= 0.0
  {
    forall name | name in Names(strata) ensures Weights(strata, totals)(name) >= 0.0 {
      OverNonNegative(strata[name] as real, totals[name] as real);
    }
    SumNonNegative(Names(strata), Weights(strata, totals));
    OverNonNegative(|strata| as real, |totals| as real);
  }

  lemma OverNonNegative(x: real, t: real)
    requires t >= 0.0
    ensures Lean(x, x, t) >= 0.0
  {
    if t != 0.0 {
      OverTimes(x * x, t);
      assert x * x >= 0.0;
      QuotientSign(x * x, t, Over(x * x, t));
    }
  }

  lemma QuotientSign(a: real, t: real, q: real)
    requires t > 0.0 && q * t == a && a >= 0.0
    ensures q >= 0.0
  {
  }
}
