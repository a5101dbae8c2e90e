/**
 The order the split places tasks in, read off the items: frozen tasks first, then larger ones,
 then by name; and what that order gives a fresh split.
 */
module SplitOrder {
  import opened Sums
  import opened Splits
  import opened SplitPotential
  import opened SplitBalance

  /** The items of one task. */
  function ItemsOf(items: seq<Item>, group: string): seq<Item> {
    if items == [] then []
    else ItemsOf(items[..|items| - 1], group)
         + if items[|items| - 1].Group() == group then [items[|items| - 1]] else []
  }

  function SizeOf(items: seq<Item>, group: string): nat { |ItemsOf(items, group)| }

  lemma {:induction false} StrataCountItems(items: seq<Item>, group: string)
    ensures |StrataOf(items, group)| == SizeOf(items, group)
  {
    if items != [] { StrataCountItems(items[..|items| - 1], group); }
  }

  // ---- Names -----------------------------------------------------------------------------------

  /** `a` comes before `b`: they agree up to some place where `a` ends or has the smaller character. */
  ghost predicate ComesBefore(a: string, b: string) {
    exists n: nat :: DiffersAt(a, b, n)
  }

  predicate DiffersAt(a: string, b: string, n: nat) {
    n <= |a| && n < |b| && a[..n] == b[..n] && (n == |a| || a[n] < b[n])
  }

  lemma {:induction false} LexIsComesBefore(a: string, b: string)
    ensures LexLess(a, b) <==> ComesBefore(a, b)
    decreases |a|
  {
    if LexLess(a, b) { LexDiffers(a, b); }
    if n: nat :| DiffersAt(a, b, n) { DifferenceIsLex(a, b, n); }
  }

  lemma {:induction false} LexDiffers(a: string, b: string)
    requires LexLess(a, b)
    ensures ComesBefore(a, b)
    decreases |a|
  {
    if a == [] || a[0] < b[0] {
      assert DiffersAt(a, b, 0);
    } else {
      LexDiffers(a[1..], b[1..]);
      var n: nat :| DiffersAt(a[1..], b[1..], n);
      assert a == [a[0]] + a[1..] && b == [b[0]] + b[1..];
      assert a[..n + 1] == [a[0]] + a[1..][..n] && b[..n + 1] == [b[0]] + b[1..][..n];
      assert DiffersAt(a, b, n + 1);
    }
  }

  lemma {:induction false} DifferenceIsLex(a: string, b: string, n: nat)
    requires DiffersAt(a, b, n)
    ensures LexLess(a, b)
    decreases n
  {
    if n > 0 {
      assert a[..n][0] == a[0] && b[..n][0] == b[0];
      assert a[1..][..n - 1] == a[..n][1..] && b[1..][..n - 1] == b[..n][1..];
      assert DiffersAt(a[1..], b[1..], n - 1);
      DifferenceIsLex(a[1..], b[1..], n - 1);
    }
  }

  // ---- The order -------------------------------------------------------------------------------

  /** The task at the first place may be placed before the one at the second. */
  ghost predicate MayPrecede(items: seq<Item>, inherit: map<string, Side>, a: string, b: string) {
    if a in inherit && b !in inherit then true
    else if b in inherit && a !in inherit then false
    else SizeOf(items, a) > SizeOf(items, b) || (SizeOf(items, a) == SizeOf(items, b) && ComesBefore(a, b))
  }

  /** Every task once, frozen ones first, then in order of size, then by name. */
  ghost predicate InPlacingOrder(items: seq<Item>, inherit: map<string, Side>, ordered: seq<string>) {
    && (forall group :: group in ordered <==> exists item <- items :: item.Group() == group)
    && forall i, j | 0 <= i < j < |ordered| :: ordered[i] != ordered[j] && MayPrecede(items, inherit, ordered[i], ordered[j])
  }

  lemma BeforeIsMayPrecede(items: seq<Item>, inherit: map<string, Side>, a: string, b: string)
    requires a in WorldOf(items, inherit).strata && b in WorldOf(items, inherit).strata
    ensures Before(WorldOf(items, inherit), a, b) <==> MayPrecede(items, inherit, a, b)
  {
    StrataCountItems(items, a);
    StrataCountItems(items, b);
    LexIsComesBefore(a, b);
  }

  /** The groups of any run are in that order. */
  lemma RunInPlacingOrder(items: seq<Item>, inherit: map<string, Side>, ordered: seq<string>)
    requires Ordering(WorldOf(items, inherit), ordered)
    ensures InPlacingOrder(items, inherit, ordered)
  {
    var w := WorldOf(items, inherit);
    forall group ensures group in ordered <==> exists item <- items :: item.Group() == group {
      assert group in w.strata <==> group in GroupsOf(items);
    }
    forall i, j | 0 <= i < j < |ordered|
      ensures ordered[i] != ordered[j] && MayPrecede(items, inherit, ordered[i], ordered[j])
    {
      assert Before(w, ordered[i], ordered[j]);
      BeforeIsMayPrecede(items, inherit, ordered[i], ordered[j]);
      BeforeOrders(w, ordered[i], ordered[j], ordered[j]);
    }
  }

  /** What `AssignSplits` returns was placed in that order. */
  lemma AssignedInOrder(items: seq<Item>, inherit: map<string, Side>, sides: map<string, Side>)
    requires IsSplit(WorldOf(items, inherit), sides)
    ensures exists ordered, choices ::
              IsRun(WorldOf(items, inherit), ordered, choices, sides) && InPlacingOrder(items, inherit, ordered)
  {
    var ordered, choices :| IsRun(WorldOf(items, inherit), ordered, choices, sides);
    RunInPlacingOrder(items, inherit, ordered);
  }

  // ---- Which side ------------------------------------------------------------------------------

  /** Dev may still take `size` more items: it would be its first task, or within 13/30 of everything placed. */
  predicate DevHasRoom(dev: nat, test: nat, size: nat) {
    dev == 0 || 30 * (dev + size) <= 13 * (dev + test + size)
  }

  /** With them dev would be at most a third, to a billionth. */
  predicate DevAThird(dev: nat, test: nat, size: nat) {
    3_000_000_000 * (dev + size) <= 1_000_000_003 * (dev + test + size)
  }

  lemma ShareWithin(part: nat, all: nat, num: nat, den: nat)
    requires all > 0 && den > 0
    ensures Over(part as real, all as real) <= num as real / den as real <==> den * part <= num * all
  {
    var q, bound := Over(part as real, all as real), num as real / den as real;
    OverTimes(part as real, all as real);
    assert bound * den as real == num as real;
    ScaledOrder(q, bound, all as real, den as real, part as real, num as real);
    assert den as real * part as real == (den * part) as real && num as real * all as real == (num * all) as real;
  }

  lemma ScaledOrder(q: real, bound: real, n: real, d: real, qn: real, bd: real)
    requires n > 0.0 && d > 0.0 && q * n == qn && bound * d == bd
    ensures q <= bound <==> d * qn <= bd * n
  {
    assert d * qn == q * (n * d) && bd * n == bound * (n * d);
    assert n * d > 0.0;
    Cancels(q, bound, n * d);
  }

  lemma Cancels(a: real, b: real, c: real)
    requires c > 0.0
    ensures a <= b <==> a * c <= b * c
  {
    assert b * c - a * c == (b - a) * c;
    if a <= b { ProductSign(b - a, c); } else { StrictProduct(a - b, c); }
  }

  lemma StrictProduct(a: real, b: real)
    requires a > 0.0 && b > 0.0
    ensures a * b > 0.0
  {
  }

  /**
   Which side an unfrozen group goes to, in numbers of items: to dev when dev has room and the
   group's strata lean to test, or lean to neither and dev stays within a third.
   */
  lemma PlacedByLean(strata: multiset<string>, totals: multiset<string>, placed: Placed)
    requires Within(strata, totals)
    ensures BetterSide(strata, totals, placed, |totals|) == Dev
            <==> DevHasRoom(|placed.dev|, |placed.test|, |strata|)
                 && (Slack(strata, totals, placed) > 0.0
                     || (Slack(strata, totals, placed) == 0.0 && DevAThird(|placed.dev|, |placed.test|, |strata|)))
  {
    NeedGap(strata, totals, placed);
    var part, all := |placed.dev| + |strata|, |placed.dev| + |placed.test| + |strata|;
    ShareWithin(part, all, 13, 30);
    ShareWithin(part, all, 1_000_000_003, 3_000_000_000);
  }

  /** So is every unfrozen group of every run, on what was placed before it. */
  lemma EachPlacedByLean(items: seq<Item>, inherit: map<string, Side>, ordered: seq<string>, choices: seq<Side>,
                         sides: map<string, Side>, j: nat)
    requires IsRun(WorldOf(items, inherit), ordered, choices, sides) && j < |ordered| && ordered[j] !in inherit
    ensures var w := WorldOf(items, inherit);
            var strata, placed := StrataOf(items, ordered[j]), PlaceFirst(w, ordered, choices, j).placed;
            choices[j] == Dev
            <==> DevHasRoom(|placed.dev|, |placed.test|, |strata|)
                 && (Slack(strata, w.totals, placed) > 0.0
                     || (Slack(strata, w.totals, placed) == 0.0 && DevAThird(|placed.dev|, |placed.test|, |strata|)))
  {
    var w := WorldOf(items, inherit);
    WorldIsFromItems(items, inherit);
    WorldIsOrdered(w, items, ordered);
    OrderedAt(w, ordered, j);
    assert ChosenAt(w, ordered, choices, j) && StrataAre(w, items, ordered[j]);
    PlacedByLean(w.strata[ordered[j]], w.totals, PlaceFirst(w, ordered, choices, j).placed);
  }

  // ---- Where the largest go --------------------------------------------------------------------

  /** `group` is on `side`, and no task but `spared` is larger. */
  ghost predicate LargestOn(items: seq<Item>, sides: map<string, Side>, group: string, side: Side, spared: set<string>) {
    && group in sides && sides[group] == side
    && forall other <- sides.Keys - spared :: SizeOf(items, other) <= SizeOf(items, group)
  }

  /**
   With nothing frozen and two or more tasks, one as large as any goes to test, and of the rest one
   as large as any goes to dev.
   */
  lemma LargestGoToTestThenDev(items: seq<Item>, inherit: map<string, Side>, sides: map<string, Side>)
    requires IsSplit(WorldOf(items, inherit), sides) && GroupsOf(items) !! inherit.Keys && |GroupsOf(items)| >= 2
    ensures exists first, second :: first != second
              && LargestOn(items, sides, first, Test, {}) && LargestOn(items, sides, second, Dev, {first})
  {
    var w := WorldOf(items, inherit);
    var ordered, choices :| IsRun(w, ordered, choices, sides);
    WorldIsFromItems(items, inherit);
    WorldIsOrdered(w, items, ordered);
    SplitIsComplete(w, items, ordered, choices, sides);
    assert NothingInherited(w);
    SmallSet(GroupsOf(items), ordered);
    FirstTwo(w, ordered, choices);
    SidesStay(w, ordered, choices, 0, |ordered|);
    SidesStay(w, ordered, choices, 1, |ordered|);
    RunInPlacingOrder(items, inherit, ordered);
    TopTwo(items, inherit, ordered, sides);
  }

  lemma TopTwo(items: seq<Item>, inherit: map<string, Side>, ordered: seq<string>, sides: map<string, Side>)
    requires InPlacingOrder(items, inherit, ordered) && |ordered| >= 2
    requires forall group <- ordered :: group !in inherit
    requires forall group :: group in sides <==> group in ordered
    requires ordered[0] in sides && ordered[1] in sides && sides[ordered[0]] == Test && sides[ordered[1]] == Dev
    ensures ordered[0] != ordered[1]
    ensures LargestOn(items, sides, ordered[0], Test, {}) && LargestOn(items, sides, ordered[1], Dev, {ordered[0]})
  {
    forall other | other in sides.Keys ensures SizeOf(items, other) <= SizeOf(items, ordered[0]) {
      var j :| 0 <= j < |ordered| && ordered[j] == other;
      if j > 0 { assert MayPrecede(items, inherit, ordered[0], ordered[j]); }
    }
    forall other | other in sides.Keys - {ordered[0]} ensures SizeOf(items, other) <= SizeOf(items, ordered[1]) {
      var j :| 0 <= j < |ordered| && ordered[j] == other;
      if j > 1 { assert MayPrecede(items, inherit, ordered[1], ordered[j]); }
    }
  }

  // ---- What a task and a stratum are -----------------------------------------------------------

  lemma SeparatorAt(a: string, b: string, sep: char)
    requires sep !in a
    ensures (a + [sep] + b)[|a|] == sep && forall i | 0 <= i < |a| :: (a + [sep] + b)[i] != sep
  {
    forall i | 0 <= i < |a| ensures (a + [sep] + b)[i] != sep { assert (a + [sep] + b)[i] == a[i]; }
  }

  /** What stands before the first separator, and after it, is determined. */
  lemma ColonSplits(a: string, b: string, c: string, d: string, sep: char)
    requires sep !in a && sep !in c && a + [sep] + b == c + [sep] + d
    ensures a == c && b == d
  {
    SeparatorAt(a, b, sep);
    SeparatorAt(c, d, sep);
    assert |a| == |c|;
    assert (a + [sep] + b)[..|a|] == a && (c + [sep] + d)[..|c|] == c;
    assert (a + [sep] + b)[|a| + 1..] == b && (c + [sep] + d)[|c| + 1..] == d;
  }

  /** Items move together exactly when they are of one task of one domain; strata are what is said besides. */
  lemma GroupsAreTasks(a: Item, b: Item)
    requires ':' !in a.domain && ':' !in b.domain
    ensures a.Group() == b.Group() <==> a.domain == b.domain && a.taskId == b.taskId
  {
    if a.Group() == b.Group() {
      assert a.Group() == a.domain + [':'] + a.taskId && b.Group() == b.domain + [':'] + b.taskId;
      ColonSplits(a.domain, a.taskId, b.domain, b.taskId, ':');
    }
  }

  lemma StrataAreKinds(a: Item, b: Item)
    requires '|' !in a.domain && '|' !in b.domain && '|' !in a.faultType && '|' !in b.faultType
    ensures a.Stratum() == b.Stratum() <==> a.domain == b.domain && a.faultType == b.faultType && a.bucket == b.bucket
  {
    if a.Stratum() == b.Stratum() {
      var x, y := a.faultType + ['|'] + a.bucket, b.faultType + ['|'] + b.bucket;
      assert a.Stratum() == a.domain + ['|'] + x && b.Stratum() == b.domain + ['|'] + y;
      ColonSplits(a.domain, x, b.domain, y, '|');
      ColonSplits(a.faultType, a.bucket, b.faultType, b.bucket, '|');
    }
  }
}
