/**
 What the greedy split guarantees over whole runs: frozen sides are kept, the ratio holds, both
 sides get something, and the imbalance stays within what the groups' own sizes force.
 */
module SplitBalance {
  import opened Sums
  import opened Splits
  import opened SplitPotential

  // ---- The run -----------------------------------------------------------------------------------

  ghost predicate Ordered(w: World, ordered: seq<string>) {
    && Ordering(w, ordered)
    && forall group <- w.strata :: Within(w.strata[group], w.totals)
  }

  lemma OrderedAt(w: World, ordered: seq<string>, k: nat)
    requires Ordered(w, ordered) && k < |ordered|
    ensures ordered[k] in w.strata && Within(w.strata[ordered[k]], w.totals)
    ensures forall j :: 0 <= j < k ==> ordered[j] != ordered[k]
  {
    assert ordered[k] in ordered;
    forall j | 0 <= j < k ensures ordered[j] != ordered[k] {
      assert Before(w, ordered[j], ordered[k]);
      BeforeOrders(w, ordered[j], ordered[k], ordered[j]);
    }
  }

  lemma {:induction false} CollectedSum(items: seq<Item>, f: Item -> multiset<string>, g: Item -> multiset<string>,
                                        h: Item -> multiset<string>)
    requires forall item <- items :: h(item) == f(item) + g(item)
    ensures Collected(items, h) == Collected(items, f) + Collected(items, g)
  {
    if items != [] {
      assert items == items[..|items| - 1] + [items[|items| - 1]];
      CollectedSum(items[..|items| - 1], f, g, h);
    }
  }

  /** A group's strata are part of everything's. */
  lemma GroupWithin(items: seq<Item>, group: string)
    requires group in GroupsOf(items)
    ensures Within(StrataOf(items, group), TotalStrata(items))
  {
    var mine := StratumIn(group);
    var others := (item: Item) => if item.Group() == group then multiset{} else multiset{item.Stratum()};
    CollectedSum(items, mine, others, (item: Item) => multiset{item.Stratum()});
    GroupNonEmpty(items, group);
  }

  lemma GroupNonEmpty(items: seq<Item>, group: string)
    requires group in GroupsOf(items)
    ensures |StrataOf(items, group)| > 0
  {
    var item :| item in items && item.Group() == group;
    assert item in multiset(items);
    var a, b := Extract(items, item);
    CollectedWithout(a, item, b, StratumIn(group));
  }

  /** The groups, their strata and the totals are those of the items. */
  ghost predicate FromItems(w: World, items: seq<Item>) {
    && w.strata.Keys == GroupsOf(items)
    && w.totals == TotalStrata(items)
    && SameStrata(w, items)
  }

  ghost predicate SameStrata(w: World, items: seq<Item>) {
    forall group <- w.strata :: StrataAre(w, items, group)
  }

  ghost predicate StrataAre(w: World, items: seq<Item>, group: string) {
    group in w.strata && w.strata[group] == StrataOf(items, group)
  }

  lemma WorldIsFromItems(items: seq<Item>, inherit: map<string, Side>)
    ensures FromItems(WorldOf(items, inherit), items)
  {
  }

  lemma WorldIsOrdered(w: World, items: seq<Item>, ordered: seq<string>)
    requires FromItems(w, items) && Ordering(w, ordered)
    ensures Ordered(w, ordered)
  {
    forall group | group in w.strata ensures Within(w.strata[group], w.totals) {
      assert StrataAre(w, items, group);
      GroupWithin(items, group);
    }
  }

  // ---- What is where ---------------------------------------------------------------------------

  /** The strata of the items on one side. */
  function OnSide(sides: map<string, Side>, side: Side): Item -> multiset<string> {
    (item: Item) =>
      if item.Group() in sides && sides[item.Group()] == side then multiset{item.Stratum()} else multiset{}
  }

  /** The groups placed so far. */
  function FirstGroups(ordered: seq<string>, k: nat): set<string>
    requires k <= |ordered|
  {
    set j | 0 <= j < k :: ordered[j]
  }

  lemma OneMoreGroup(ordered: seq<string>, k: nat)
    requires k < |ordered|
    ensures FirstGroups(ordered, k + 1) == FirstGroups(ordered, k) + {ordered[k]}
  {
  }

  /** A partial split counts, on each side, exactly the items it has put there. */
  ghost predicate CountsItems(items: seq<Item>, ordered: seq<string>, k: nat, r: Split)
    requires k <= |ordered|
  {
    && r.sides.Keys == FirstGroups(ordered, k)
    && r.placed.dev == Collected(items, OnSide(r.sides, Dev))
    && r.placed.test == Collected(items, OnSide(r.sides, Test))
  }

  lemma {:induction false} PlacedIsOnSide(w: World, items: seq<Item>, ordered: seq<string>, choices: seq<Side>, k: nat)
    requires SameStrata(w, items) && Distinct(ordered) && Shaped(w, ordered, choices) && k <= |ordered|
    ensures CountsItems(items, ordered, k, PlaceFirst(w, ordered, choices, k))
  {
    if k == 0 {
      NothingCounts(items, ordered);
    } else {
      PlacedIsOnSide(w, items, ordered, choices, k - 1);
      assert NewAt(ordered, k - 1);
      assert ordered[k - 1] in ordered;
      var before, group := PlaceFirst(w, ordered, choices, k - 1), ordered[k - 1];
      assert StrataAre(w, items, group);
      PlacingCounts(w, items, ordered, k, before, choices[k - 1]);
    }
  }

  ghost predicate Distinct(ordered: seq<string>) {
    forall k | 0 <= k < |ordered| :: NewAt(ordered, k)
  }

  ghost predicate NewAt(ordered: seq<string>, k: nat)
    requires k < |ordered|
  {
    ordered[k] !in FirstGroups(ordered, k)
  }

  lemma OrderedIsDistinct(w: World, ordered: seq<string>)
    requires Ordered(w, ordered)
    ensures Distinct(ordered)
  {
    forall k | 0 <= k < |ordered| ensures NewAt(ordered, k) {
      OrderedAt(w, ordered, k);
      NotYet(ordered, k);
    }
  }

  lemma NothingCounts(items: seq<Item>, ordered: seq<string>)
    ensures CountsItems(items, ordered, 0, Split(map[], Nothing))
  {
    NothingCollected(items, OnSide(map[], Dev));
    NothingCollected(items, OnSide(map[], Test));
  }

  lemma NotYet(ordered: seq<string>, k: nat)
    requires k < |ordered| && forall j :: 0 <= j < k ==> ordered[j] != ordered[k]
    ensures ordered[k] !in FirstGroups(ordered, k)
  {
  }

  lemma PlacingCounts(w: World, items: seq<Item>, ordered: seq<string>, k: nat, r: Split, to: Side)
    requires 0 < k <= |ordered| && StrataAre(w, items, ordered[k - 1])
    requires CountsItems(items, ordered, k - 1, r) && ordered[k - 1] !in FirstGroups(ordered, k - 1)
    ensures CountsItems(items, ordered, k, PlaceOne(w, r, ordered[k - 1], to))
  {
    OneMoreGroup(ordered, k - 1);
    GroupMoves(items, r.sides, ordered[k - 1], to, Dev);
    GroupMoves(items, r.sides, ordered[k - 1], to, Test);
  }

  lemma ItemMoves(item: Item, sides: map<string, Side>, group: string, to: Side, side: Side)
    requires group !in sides
    ensures OnSide(sides[group := to], side)(item)
            == OnSide(sides, side)(item) + if to == side then StratumIn(group)(item) else multiset{}
  {
  }

  lemma GroupMoves(items: seq<Item>, sides: map<string, Side>, group: string, to: Side, side: Side)
    requires group !in sides
    ensures Collected(items, OnSide(sides[group := to], side))
            == Collected(items, OnSide(sides, side)) + if to == side then StrataOf(items, group) else multiset{}
  {
    var none := (item: Item) => multiset{};
    var more := if to == side then StratumIn(group) else none;
    forall item | item in items
      ensures OnSide(sides[group := to], side)(item) == OnSide(sides, side)(item) + more(item)
    {
      ItemMoves(item, sides, group, to, side);
    }
    NothingCollected(items, none);
    CollectedSum(items, OnSide(sides, side), more, OnSide(sides[group := to], side));
  }

  lemma {:induction false} NothingCollected(items: seq<Item>, f: Item -> multiset<string>)
    requires forall item :: f(item) == multiset{}
    ensures Collected(items, f) == multiset{}
  {
    if items != [] { NothingCollected(items[..|items| - 1], f); }
  }

  /**
   Every task is on one side, and the counts the decisions were taken on are the counts of the
   items themselves.
   */
  lemma SplitIsComplete(w: World, items: seq<Item>, ordered: seq<string>, choices: seq<Side>, sides: map<string, Side>)
    requires FromItems(w, items) && IsRun(w, ordered, choices, sides)
    ensures sides.Keys == GroupsOf(items)
    ensures var placed := PlaceFirst(w, ordered, choices, |ordered|).placed;
            && placed.dev == Collected(items, OnSide(sides, Dev))
            && placed.test == Collected(items, OnSide(sides, Test))
            && placed.Count() == |items|
  {
    WorldIsOrdered(w, items, ordered);
    OrderedIsDistinct(w, ordered);
    PlacedIsOnSide(w, items, ordered, choices, |ordered|);
    AllGroups(w, ordered);
    BothSidesAreAll(items, sides);
    TotalCount(items);
    CountsAdd(PlaceFirst(w, ordered, choices, |ordered|).placed);
  }

  /** An inherited task keeps its side. */
  lemma InheritedSidesKept(w: World, items: seq<Item>, sides: map<string, Side>, group: string)
    requires FromItems(w, items) && IsSplit(w, sides) && group in GroupsOf(items) && group in w.inherit
    ensures group in sides && sides[group] == w.inherit[group]
  {
    var ordered, choices :| IsRun(w, ordered, choices, sides);
    WorldIsOrdered(w, items, ordered);
    var i :| 0 <= i < |ordered| && ordered[i] == group;
    assert ChosenAt(w, ordered, choices, i);
    SidesStay(w, ordered, choices, i, |ordered|);
  }

  lemma CountsAdd(placed: Placed)
    ensures |placed.dev + placed.test| == placed.Count()
  {
  }

  lemma AllGroups(w: World, ordered: seq<string>)
    requires Ordering(w, ordered)
    ensures FirstGroups(ordered, |ordered|) == w.strata.Keys
  {
    forall group ensures group in FirstGroups(ordered, |ordered|) <==> group in ordered {}
  }

  lemma BothSidesAreAll(items: seq<Item>, sides: map<string, Side>)
    requires sides.Keys == GroupsOf(items)
    ensures Collected(items, OnSide(sides, Dev)) + Collected(items, OnSide(sides, Test)) == TotalStrata(items)
  {
    var all := (item: Item) => multiset{item.Stratum()};
    forall item | item in items ensures all(item) == OnSide(sides, Dev)(item) + OnSide(sides, Test)(item) {
      assert item.Group() in GroupsOf(items);
    }
    CollectedSum(items, OnSide(sides, Dev), OnSide(sides, Test), all);
  }

  lemma {:induction false} TotalCount(items: seq<Item>)
    ensures |TotalStrata(items)| == |items|
  {
    if items != [] { TotalCount(items[..|items| - 1]); }
  }

  /** A group keeps the side it was given. */
  lemma {:induction false} SidesStay(w: World, ordered: seq<string>, choices: seq<Side>, i: nat, k: nat)
    requires Ordered(w, ordered) && Shaped(w, ordered, choices) && i < k <= |ordered|
    ensures var sides := PlaceFirst(w, ordered, choices, k).sides;
            ordered[i] in sides && sides[ordered[i]] == choices[i]
  {
    if i < k - 1 {
      SidesStay(w, ordered, choices, i, k - 1);
      OrderedAt(w, ordered, k - 1);
    }
  }

  // ---- The ratio -------------------------------------------------------------------------------

  ghost predicate NothingInherited(w: World) {
    forall group <- w.strata :: group !in w.inherit
  }

  /** The groups on dev. */
  ghost function DevGroups(sides: map<string, Side>): set<string> {
    set group <- sides | sides[group].Dev?
  }

  /** Dev holds at most 13/30 of what is placed, or a single group. */
  ghost predicate RatioHolds(r: Split) {
    30 * |r.placed.dev| <= 13 * r.placed.Count() || |DevGroups(r.sides)| == 1
  }

  ghost predicate DevCounted(r: Split) {
    |r.placed.dev| == 0 <==> DevGroups(r.sides) == {}
  }

  lemma DevGroupsGrow(sides: map<string, Side>, group: string, side: Side)
    requires group !in sides
    ensures DevGroups(sides[group := side]) == DevGroups(sides) + if side.Dev? then {group} else {}
    ensures group !in DevGroups(sides)
  {
  }

  lemma RatioStep(r: Split, group: string, side: Side, strata: multiset<string>)
    requires group !in r.sides && |strata| > 0 && RatioHolds(r) && DevCounted(r)
    requires side.Dev? ==> !Forced(strata, r.placed)
    ensures var after := Split(r.sides[group := side], r.placed.With(side, strata));
            RatioHolds(after) && DevCounted(after)
  {
    DevGroupsGrow(r.sides, group, side);
    if side.Dev? && |r.placed.dev| > 0 {
      ShareBounds(|r.placed.dev| + |strata|, |r.placed.dev| + |r.placed.test| + |strata|);
    }
  }

  lemma ShareBounds(dev: nat, all: nat)
    requires all > 0 && Over(dev as real, all as real) <= DevShare + SplitTolerance
    ensures 30 * dev <= 13 * all
  {
    OverTimes(dev as real, all as real);
    Shrinks(Over(dev as real, all as real), 13.0 / 30.0, all as real, dev as real);
  }

  lemma Shrinks(q: real, bound: real, n: real, qn: real)
    requires q <= bound && n > 0.0 && q * n == qn
    ensures qn <= bound * n
  {
    assert bound * n - q * n == (bound - q) * n;
    ProductNonNegative(bound - q, n);
  }

  lemma ProductNonNegative(a: real, b: real)
    requires a >= 0.0 && b >= 0.0
    ensures a * b >= 0.0
  {
  }

  lemma {:induction false} RatioKept(w: World, ordered: seq<string>, choices: seq<Side>, k: nat)
    requires Shaped(w, ordered, choices) && k <= |ordered|
    requires forall j: nat | j < |ordered| :: RatioStays(w, ordered, choices, j)
    ensures RatioAt(w, ordered, choices, k)
  {
    if k == 0 {
      RatioStarts(w, ordered, choices);
    } else {
      RatioKept(w, ordered, choices, k - 1);
      assert RatioStays(w, ordered, choices, k - 1);
    }
  }

  ghost predicate RatioAt(w: World, ordered: seq<string>, choices: seq<Side>, k: nat) {
    Shaped(w, ordered, choices) && k <= |ordered| && RatioAfter(ordered, k, PlaceFirst(w, ordered, choices, k))
  }

  ghost predicate RatioStays(w: World, ordered: seq<string>, choices: seq<Side>, j: nat) {
    RatioAt(w, ordered, choices, j) ==> RatioAt(w, ordered, choices, j + 1)
  }

  lemma RatioStarts(w: World, ordered: seq<string>, choices: seq<Side>)
    requires Shaped(w, ordered, choices)
    ensures RatioAt(w, ordered, choices, 0)
  {
  }

  lemma RatioThroughout(w: World, ordered: seq<string>, choices: seq<Side>)
    requires Ordered(w, ordered) && Chosen(w, ordered, choices) && NothingInherited(w)
    ensures RatioAt(w, ordered, choices, |ordered|)
  {
    forall j: nat | j < |ordered| ensures RatioStays(w, ordered, choices, j) {
      if RatioAt(w, ordered, choices, j) { RatioNext(w, ordered, choices, j); }
    }
    RatioKept(w, ordered, choices, |ordered|);
  }

  ghost predicate RatioAfter(ordered: seq<string>, k: nat, r: Split)
    requires k <= |ordered|
  {
    RatioHolds(r) && DevCounted(r) && r.sides.Keys == FirstGroups(ordered, k)
  }

  lemma RatioNext(w: World, ordered: seq<string>, choices: seq<Side>, k: nat)
    requires Ordered(w, ordered) && Chosen(w, ordered, choices) && NothingInherited(w) && k < |ordered|
    requires RatioAfter(ordered, k, PlaceFirst(w, ordered, choices, k))
    ensures RatioAt(w, ordered, choices, k + 1)
  {
    OrderedAt(w, ordered, k);
    OneMoreGroup(ordered, k);
    NotYet(ordered, k);
    ChosenByRule(w, ordered, choices, k);
    RatioStep(PlaceFirst(w, ordered, choices, k), ordered[k], choices[k], w.strata[ordered[k]]);
  }

  /** With nothing inherited, a group forced by the ratio never goes to dev. */
  lemma ChosenByRule(w: World, ordered: seq<string>, choices: seq<Side>, k: nat)
    requires Ordered(w, ordered) && Chosen(w, ordered, choices) && NothingInherited(w) && k < |ordered|
    ensures ordered[k] in w.strata
    ensures var placed := PlaceFirst(w, ordered, choices, k).placed;
            && choices[k] == BetterSide(w.strata[ordered[k]], w.totals, placed, |w.totals|)
            && (choices[k].Dev? ==> !Forced(w.strata[ordered[k]], placed))
  {
    OrderedAt(w, ordered, k);
    assert ChosenAt(w, ordered, choices, k);
  }

  /** The pre-registered ratio: at most 1/3 + 1/10 of the items are on dev, or dev is one task. */
  lemma DevShareBounded(w: World, items: seq<Item>, sides: map<string, Side>)
    requires FromItems(w, items) && IsSplit(w, sides) && NothingInherited(w)
    ensures 30 * |Collected(items, OnSide(sides, Dev))| <= 13 * |items| || |DevGroups(sides)| == 1
  {
    var ordered, choices :| IsRun(w, ordered, choices, sides);
    WorldIsOrdered(w, items, ordered);
    RatioThroughout(w, ordered, choices);
    SplitIsComplete(w, items, ordered, choices, sides);
  }

  // ---- Both sides ------------------------------------------------------------------------------

  lemma NothingLeans(strata: multiset<string>, totals: multiset<string>)
    requires Within(strata, totals)
    ensures Slack(strata, totals, Nothing) == 0.0
  {
    var zero := (name: string) => 0.0;
    forall name | name in Names(strata) ensures Slacks(strata, totals, Nothing)(name) == 0.0 {
      OverIs(0.0, totals[name] as real, 0.0);
    }
    SumExtends({}, Names(strata), Slacks(strata, totals, Nothing));
    TotalsPositive(strata, totals);
    OverIs(0.0, |totals| as real, 0.0);
  }

  /** With nothing placed the needs are level, and a whole group would be all dev: it goes to test. */
  lemma FirstGoesToTest(strata: multiset<string>, totals: multiset<string>)
    requires Within(strata, totals)
    ensures BetterSide(strata, totals, Nothing, |totals|) == Test
  {
    NeedGap(strata, totals, Nothing);
    NothingLeans(strata, totals);
    OverIs(|strata| as real, |strata| as real, 1.0);
  }

  /** With everything so far on test, dev is in greater need. */
  lemma SecondGoesToDev(strata: multiset<string>, totals: multiset<string>, first: multiset<string>)
    requires Within(strata, totals) && |first| > 0
    ensures BetterSide(strata, totals, Nothing.With(Test, first), |totals|) == Dev
  {
    var placed := Nothing.With(Test, first);
    assert placed.dev == multiset{};
    forall name | name in Names(strata) ensures Slacks(strata, totals, placed)(name) >= 0.0 {
      LeanNonNegative(strata[name] as real, Excess(placed, name), totals[name] as real);
    }
    SumNonNegative(Names(strata), Slacks(strata, totals, placed));
    TotalsPositive(strata, totals);
    assert |placed.test| == |first|;
    LeanPositive(|strata| as real, OverallExcess(placed), |totals| as real);
    NeedGap(strata, totals, placed);
  }

  lemma LeanNonNegative(c: real, x: real, t: real)
    requires c >= 0.0 && x >= 0.0 && t > 0.0
    ensures Lean(c, x, t) >= 0.0
  {
    OverTimes(c * x, t);
    assert c * x >= 0.0;
    QuotientSign(c * x, t, Over(c * x, t));
  }

  lemma LeanPositive(c: real, x: real, t: real)
    requires c > 0.0 && x > 0.0 && t > 0.0
    ensures Lean(c, x, t) > 0.0
  {
    LeanNonNegative(c, x, t);
    OverTimes(c * x, t);
    assert c * x > 0.0;
  }

  /** Two or more fresh tasks never all land on one side. */
  lemma BothSidesFilled(w: World, items: seq<Item>, sides: map<string, Side>)
    requires FromItems(w, items) && IsSplit(w, sides) && NothingInherited(w) && |GroupsOf(items)| >= 2
    ensures Test in sides.Values && Dev in sides.Values
  {
    var ordered, choices :| IsRun(w, ordered, choices, sides);
    WorldIsOrdered(w, items, ordered);
    SmallSet(GroupsOf(items), ordered);
    FirstTwo(w, ordered, choices);
    SidesStay(w, ordered, choices, 0, |ordered|);
    SidesStay(w, ordered, choices, 1, |ordered|);
    assert sides[ordered[0]] == Test && sides[ordered[1]] == Dev;
  }

  lemma FirstTwo(w: World, ordered: seq<string>, choices: seq<Side>)
    requires Ordered(w, ordered) && Chosen(w, ordered, choices) && NothingInherited(w) && |ordered| >= 2
    ensures choices[0] == Test && choices[1] == Dev
  {
    OrderedAt(w, ordered, 0);
    OrderedAt(w, ordered, 1);
    ChosenByRule(w, ordered, choices, 0);
    FirstGoesToTest(w.strata[ordered[0]], w.totals);
    assert PlaceFirst(w, ordered, choices, 0).placed == Nothing;
    assert PlaceFirst(w, ordered, choices, 1).placed == Nothing.With(Test, w.strata[ordered[0]]);
    ChosenByRule(w, ordered, choices, 1);
    SecondGoesToDev(w.strata[ordered[1]], w.totals, w.strata[ordered[0]]);
  }

  lemma {:induction false} SmallSet(groups: set<string>, ordered: seq<string>)
    requires forall group :: group in groups <==> group in ordered
    ensures |groups| <= |ordered|
  {
    if ordered == [] {
      assert groups == {};
    } else {
      var rest := set group <- groups | group in ordered[1..];
      assert ordered == [ordered[0]] + ordered[1..];
      SmallSet(rest, ordered[1..]);
      assert groups == rest + {ordered[0]};
    }
  }

  // ---- Self-balancing --------------------------------------------------------------------------

  /** The group was placed by need: not inherited, and not forced by the ratio. */
  ghost predicate ByNeed(w: World, ordered: seq<string>, choices: seq<Side>, j: nat)
    requires Shaped(w, ordered, choices) && j < |ordered|
  {
    && ordered[j] in w.strata && ordered[j] !in w.inherit
    && !Forced(w.strata[ordered[j]], PlaceFirst(w, ordered, choices, j).placed)
  }

  /** What the first `k` groups weigh. */
  ghost function WeightOfFirst(w: World, ordered: seq<string>, k: nat): real
    requires k <= |ordered| && forall group <- ordered :: group in w.strata
  {
    if k == 0 then 0.0 else WeightOfFirst(w, ordered, k - 1) + Weight(w.strata[ordered[k - 1]], w.totals)
  }

  /** What a group placed against its need may add besides: frozen on a side, or forced to test. */
  ghost function ChargeOf(w: World, strata: multiset<string>, placed: Placed, group: string, side: Side): nat {
    if group in w.inherit then (if side.Dev? then 16 else 4) * |strata|
    else if Forced(strata, placed) then 2 * |strata|
    else 0
  }

  ghost function Charge(w: World, ordered: seq<string>, choices: seq<Side>, j: nat): nat
    requires Shaped(w, ordered, choices) && j < |ordered| && ordered[j] in w.strata
  {
    ChargeOf(w, w.strata[ordered[j]], PlaceFirst(w, ordered, choices, j).placed, ordered[j], choices[j])
  }

  ghost function ChargeOfFirst(w: World, ordered: seq<string>, choices: seq<Side>, k: nat): nat
    requires Shaped(w, ordered, choices) && k <= |ordered|
  {
    if k == 0 then 0 else ChargeOfFirst(w, ordered, choices, k - 1) + Charge(w, ordered, choices, k - 1)
  }

  /** What is placed on either side is part of everything. */
  ghost predicate Part(placed: Placed, totals: multiset<string>) {
    placed.dev <= totals && placed.test <= totals
  }

  lemma {:induction false} CollectedBelow(items: seq<Item>, f: Item -> multiset<string>, h: Item -> multiset<string>)
    requires forall item <- items :: f(item) <= h(item)
    ensures Collected(items, f) <= Collected(items, h)
  {
    if items != [] {
      assert items == items[..|items| - 1] + [items[|items| - 1]];
      CollectedBelow(items[..|items| - 1], f, h);
    }
  }

  lemma SideIsPart(items: seq<Item>, sides: map<string, Side>, side: Side)
    ensures Collected(items, OnSide(sides, side)) <= TotalStrata(items)
  {
    CollectedBelow(items, OnSide(sides, side), (item: Item) => multiset{item.Stratum()});
  }

  ghost predicate PartAt(w: World, ordered: seq<string>, choices: seq<Side>, k: nat) {
    Shaped(w, ordered, choices) && k <= |ordered| && Part(PlaceFirst(w, ordered, choices, k).placed, w.totals)
  }

  lemma CountedIsPart(items: seq<Item>, ordered: seq<string>, k: nat, r: Split)
    requires k <= |ordered| && CountsItems(items, ordered, k, r)
    ensures Part(r.placed, TotalStrata(items))
  {
    SideIsPart(items, r.sides, Dev);
    SideIsPart(items, r.sides, Test);
  }

  lemma PlacedIsPart(w: World, items: seq<Item>, ordered: seq<string>, choices: seq<Side>)
    requires FromItems(w, items) && Ordered(w, ordered) && Shaped(w, ordered, choices)
    ensures forall k: nat | k <= |ordered| :: PartAt(w, ordered, choices, k)
  {
    OrderedIsDistinct(w, ordered);
    forall k: nat | k <= |ordered| ensures PartAt(w, ordered, choices, k) {
      PlacedIsOnSide(w, items, ordered, choices, k);
      CountedIsPart(items, ordered, k, PlaceFirst(w, ordered, choices, k));
    }
  }

  ghost function Allowance(w: World, ordered: seq<string>, choices: seq<Side>, k: nat): real
    requires Shaped(w, ordered, choices) && k <= |ordered|
  {
    4.0 * WeightOfFirst(w, ordered, k) + ChargeOfFirst(w, ordered, choices, k) as real
  }

  ghost function PotentialAfter(w: World, ordered: seq<string>, choices: seq<Side>, k: nat): real
    requires Shaped(w, ordered, choices) && k <= |ordered|
  {
    Potential(w.totals, PlaceFirst(w, ordered, choices, k).placed)
  }

  lemma {:induction false} PotentialBounded(w: World, ordered: seq<string>, choices: seq<Side>, k: nat)
    requires Shaped(w, ordered, choices) && k <= |ordered|
    requires forall j: nat | j < |ordered| :: StaysWithin(w, ordered, choices, j)
    ensures WithinAllowance(w, ordered, choices, k)
  {
    if k == 0 {
      StartsWithin(w, ordered, choices);
    } else {
      PotentialBounded(w, ordered, choices, k - 1);
      assert StaysWithin(w, ordered, choices, k - 1);
    }
  }

  ghost predicate WithinAllowance(w: World, ordered: seq<string>, choices: seq<Side>, k: nat) {
    && Shaped(w, ordered, choices) && k <= |ordered|
    && PotentialAfter(w, ordered, choices, k) <= Allowance(w, ordered, choices, k)
  }

  ghost predicate StaysWithin(w: World, ordered: seq<string>, choices: seq<Side>, j: nat) {
    WithinAllowance(w, ordered, choices, j) ==> WithinAllowance(w, ordered, choices, j + 1)
  }

  lemma StartsWithin(w: World, ordered: seq<string>, choices: seq<Side>)
    requires Shaped(w, ordered, choices)
    ensures WithinAllowance(w, ordered, choices, 0)
  {
    NothingMoves(w.totals);
  }

  lemma OneGroupBounded(w: World, ordered: seq<string>, choices: seq<Side>, j: nat)
    requires Ordered(w, ordered) && Chosen(w, ordered, choices) && j < |ordered| && PartAt(w, ordered, choices, j)
    ensures StaysWithin(w, ordered, choices, j)
  {
    OrderedAt(w, ordered, j);
    assert ChosenAt(w, ordered, choices, j);
    GroupGrowth(w, w.strata[ordered[j]], PlaceFirst(w, ordered, choices, j).placed, ordered[j], choices[j]);
    AllowanceGrows(w, ordered, choices, j);
  }

  lemma AllowanceGrows(w: World, ordered: seq<string>, choices: seq<Side>, j: nat)
    requires Shaped(w, ordered, choices) && j < |ordered| && ordered[j] in w.strata
    ensures Allowance(w, ordered, choices, j + 1) - Allowance(w, ordered, choices, j)
            == 4.0 * Weight(w.strata[ordered[j]], w.totals) + Charge(w, ordered, choices, j) as real
  {
  }

  /** Each of the three ways a group is placed keeps within its allowance. */
  lemma GroupGrowth(w: World, strata: multiset<string>, placed: Placed, group: string, side: Side)
    requires group in w.strata && strata == w.strata[group] && Within(strata, w.totals) && Part(placed, w.totals)
    requires side == SideOf(w, group, placed)
    ensures Potential(w.totals, placed.With(side, strata))
            <= Potential(w.totals, placed) + 4.0 * Weight(strata, w.totals) + ChargeOf(w, strata, placed, group, side) as real
  {
    if group in w.inherit {
      FrozenGrowth(strata, w.totals, placed, side);
    } else if Forced(strata, placed) {
      ForcedGrowth(strata, w.totals, placed);
    } else {
      GrowthBounded(strata, w.totals, placed);
    }
  }

  lemma NothingMoves(totals: multiset<string>)
    ensures Potential(totals, Nothing) == 0.0
  {
    forall name | name in Names(totals) ensures Squares(totals, Nothing)(name) == 0.0 {
      OverIs(0.0, totals[name] as real, 0.0);
    }
    SumExtends({}, Names(totals), Squares(totals, Nothing));
    if |totals| > 0 { OverIs(0.0, |totals| as real, 0.0); }
  }

  lemma OverallWithinPotential(totals: multiset<string>, placed: Placed)
    ensures OverallSquare(totals, placed) <= Potential(totals, placed)
  {
    forall name | name in Names(totals) ensures Squares(totals, placed)(name) >= 0.0 {
      OverNonNegative(Excess(placed, name), totals[name] as real);
    }
    SumNonNegative(Names(totals), Squares(totals, placed));
  }

  /** How far test is from twice dev, squared, per item. */
  function Imbalance(items: seq<Item>, sides: map<string, Side>): real
    requires items != []
  {
    Ratio(ExcessOf(items, sides), |items|)
  }

  function ExcessOf(items: seq<Item>, sides: map<string, Side>): int {
    |Collected(items, OnSide(sides, Test))| - 2 * |Collected(items, OnSide(sides, Dev))|
  }

  function StratumExcess(items: seq<Item>, sides: map<string, Side>, name: string): int {
    Collected(items, OnSide(sides, Test))[name] as int - 2 * Collected(items, OnSide(sides, Dev))[name] as int
  }

  /** The same for one stratum, per item of it. */
  function StratumImbalance(items: seq<Item>, sides: map<string, Side>, name: string): real
    requires name in TotalStrata(items)
  {
    Ratio(StratumExcess(items, sides, name), TotalStrata(items)[name])
  }

  function Ratio(excess: int, n: nat): real
    requires n > 0
  {
    excess as real * excess as real / n as real
  }

  lemma ExcessIs(totals: multiset<string>, placed: Placed, excess: int, n: nat)
    requires |totals| == n > 0 && excess == |placed.test| - 2 * |placed.dev|
    ensures OverallSquare(totals, placed) == Ratio(excess, n)
  {
  }

  lemma RunWithin(w: World, items: seq<Item>, ordered: seq<string>, choices: seq<Side>)
    requires FromItems(w, items) && Ordering(w, ordered) && Chosen(w, ordered, choices)
    ensures WithinAllowance(w, ordered, choices, |ordered|)
  {
    WorldIsOrdered(w, items, ordered);
    PlacedIsPart(w, items, ordered, choices);
    forall j: nat | j < |ordered| ensures StaysWithin(w, ordered, choices, j) {
      assert PartAt(w, ordered, choices, j);
      OneGroupBounded(w, ordered, choices, j);
    }
    PotentialBounded(w, ordered, choices, |ordered|);
  }

  /**
   The final imbalance `test - 2·dev` of every run: its square, over the number of items, is at most
   four times the groups' weights, plus two items' worth for each item of a group the ratio forced,
   and sixteen (dev) or four (test) for each item frozen on a side.
   */
  lemma GreedySplitIsBalanced(w: World, items: seq<Item>, ordered: seq<string>, choices: seq<Side>,
                              sides: map<string, Side>)
    requires FromItems(w, items) && IsRun(w, ordered, choices, sides) && items != []
    ensures Imbalance(items, sides) <= Allowance(w, ordered, choices, |ordered|)
  {
    RunWithin(w, items, ordered, choices);
    OverallWithinPotential(w.totals, PlaceFirst(w, ordered, choices, |ordered|).placed);
    RunImbalance(w, items, ordered, choices, sides);
  }

  lemma {:induction false} PartOfSum(names: set<string>, name: string, f: string -> real)
    requires name in names && forall other <- names :: f(other) >= 0.0
    ensures f(name) <= SumOver(names, f)
  {
    SumRemoves(names, name, f);
    SumNonNegative(names - {name}, f);
  }

  lemma StratumWithinPotential(totals: multiset<string>, placed: Placed, name: string)
    requires name in totals
    ensures Squares(totals, placed)(name) <= Potential(totals, placed)
  {
    forall other | other in Names(totals) ensures Squares(totals, placed)(other) >= 0.0 {
      OverNonNegative(Excess(placed, other), totals[other] as real);
    }
    PartOfSum(Names(totals), name, Squares(totals, placed));
    OverNonNegative(OverallExcess(placed), |totals| as real);
  }

  lemma StratumExcessIs(totals: multiset<string>, placed: Placed, name: string, excess: int, n: nat)
    requires totals[name] == n > 0 && excess == placed.test[name] as int - 2 * placed.dev[name] as int
    ensures Squares(totals, placed)(name) == Ratio(excess, n)
  {
    var x := Excess(placed, name);
    assert x == excess as real;
    assert Squares(totals, placed)(name) == Lean(x, x, n as real);
    LeanIsRatio(x, excess, n);
  }

  lemma LeanIsRatio(x: real, excess: int, n: nat)
    requires n > 0 && x == excess as real
    ensures Lean(x, x, n as real) == Ratio(excess, n)
  {
    assert n as real != 0.0;
    assert Ratio(excess, n) == x * x / n as real;
  }

  /** No single stratum is off balance by more than that either. */
  lemma EachStratumIsBalanced(w: World, items: seq<Item>, ordered: seq<string>, choices: seq<Side>,
                              sides: map<string, Side>, name: string)
    requires FromItems(w, items) && IsRun(w, ordered, choices, sides) && name in TotalStrata(items)
    ensures StratumImbalance(items, sides, name) <= Allowance(w, ordered, choices, |ordered|)
  {
    var placed := PlaceFirst(w, ordered, choices, |ordered|).placed;
    RunWithin(w, items, ordered, choices);
    SplitIsComplete(w, items, ordered, choices, sides);
    StratumExcessIs(w.totals, placed, name, StratumExcess(items, sides, name), TotalStrata(items)[name]);
    StratumWithinPotential(w.totals, placed, name);
  }

  lemma {:induction false} NeedChargesNothing(w: World, ordered: seq<string>, choices: seq<Side>, k: nat)
    requires Shaped(w, ordered, choices) && k <= |ordered|
    requires forall j | 0 <= j < k :: ByNeed(w, ordered, choices, j)
    ensures ChargeOfFirst(w, ordered, choices, k) == 0
  {
    if k > 0 {
      NeedChargesNothing(w, ordered, choices, k - 1);
      assert ByNeed(w, ordered, choices, k - 1);
    }
  }

  /** When every group was placed by need the weights alone bound it. */
  lemma NeedAloneBalances(w: World, items: seq<Item>, ordered: seq<string>, choices: seq<Side>, sides: map<string, Side>)
    requires FromItems(w, items) && IsRun(w, ordered, choices, sides) && items != []
    requires forall j | 0 <= j < |ordered| :: ByNeed(w, ordered, choices, j)
    ensures Imbalance(items, sides) <= 4.0 * WeightOfFirst(w, ordered, |ordered|)
  {
    GreedySplitIsBalanced(w, items, ordered, choices, sides);
    NeedChargesNothing(w, ordered, choices, |ordered|);
  }

  lemma RunImbalance(w: World, items: seq<Item>, ordered: seq<string>, choices: seq<Side>, sides: map<string, Side>)
    requires FromItems(w, items) && IsRun(w, ordered, choices, sides) && items != []
    ensures Imbalance(items, sides) == OverallSquare(w.totals, PlaceFirst(w, ordered, choices, |ordered|).placed)
  {
    SplitIsComplete(w, items, ordered, choices, sides);
    CountedImbalance(w.totals, items, sides, PlaceFirst(w, ordered, choices, |ordered|).placed);
  }

  lemma CountedImbalance(totals: multiset<string>, items: seq<Item>, sides: map<string, Side>, placed: Placed)
    requires items != [] && totals == TotalStrata(items)
    requires placed.dev == Collected(items, OnSide(sides, Dev)) && placed.test == Collected(items, OnSide(sides, Test))
    ensures Imbalance(items, sides) == OverallSquare(totals, placed)
  {
    TotalCount(items);
    ExcessIs(totals, placed, ExcessOf(items, sides), |items|);
  }

  // ---- What `assign_splits` returns --------------------------------------------------------------

  ghost predicate BalancedRun(w: World, items: seq<Item>, ordered: seq<string>, choices: seq<Side>,
                              sides: map<string, Side>)
    requires items != []
  {
    && IsRun(w, ordered, choices, sides)
    && Imbalance(items, sides) <= Allowance(w, ordered, choices, |ordered|)
    && forall name <- TotalStrata(items) :: StratumImbalance(items, sides, name) <= Allowance(w, ordered, choices, |ordered|)
  }

  /** Whatever `AssignSplits` returns places every group, keeps the frozen ones and is balanced. */
  lemma AssignedSplit(items: seq<Item>, inherit: map<string, Side>, sides: map<string, Side>)
    requires IsSplit(WorldOf(items, inherit), sides)
    ensures sides.Keys == GroupsOf(items)
    ensures forall group <- GroupsOf(items) :: group in inherit ==> group in sides && sides[group] == inherit[group]
    ensures items != [] ==> exists ordered, choices ::
              BalancedRun(WorldOf(items, inherit), items, ordered, choices, sides)
  {
    var w := WorldOf(items, inherit);
    WorldIsFromItems(items, inherit);
    var ordered, choices :| IsRun(w, ordered, choices, sides);
    SplitIsComplete(w, items, ordered, choices, sides);
    forall group | group in GroupsOf(items) && group in inherit
      ensures group in sides && sides[group] == inherit[group]
    {
      InheritedSidesKept(w, items, sides, group);
    }
    if items != [] {
      GreedySplitIsBalanced(w, items, ordered, choices, sides);
      forall name | name in TotalStrata(items)
        ensures StratumImbalance(items, sides, name) <= Allowance(w, ordered, choices, |ordered|)
      {
        EachStratumIsBalanced(w, items, ordered, choices, sides, name);
      }
      assert BalancedRun(w, items, ordered, choices, sides);
    }
  }

  /** And with nothing frozen it keeps the ratio and uses both sides. */
  lemma FreshSplit(items: seq<Item>, inherit: map<string, Side>, sides: map<string, Side>)
    requires IsSplit(WorldOf(items, inherit), sides) && GroupsOf(items) !! inherit.Keys
    ensures 30 * |Collected(items, OnSide(sides, Dev))| <= 13 * |items| || |DevGroups(sides)| == 1
    ensures |GroupsOf(items)| >= 2 ==> Test in sides.Values && Dev in sides.Values
  {
    var w := WorldOf(items, inherit);
    WorldIsFromItems(items, inherit);
    assert NothingInherited(w);
    DevShareBounded(w, items, sides);
    if |GroupsOf(items)| >= 2 { BothSidesFilled(w, items, sides); }
  }
}
