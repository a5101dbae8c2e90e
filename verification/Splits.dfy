/**
 The frozen split: tasks are placed one by one, inherited ones first and larger ones before
 smaller, each on the side furthest below its share, unless that would break the 1:2 ratio.

 A counter dictionary is a multiset of its keys; float arithmetic is exact.
 */
module Splits {
  import opened Sums

  datatype Side = Dev | Test

  datatype Item = Item(id: string, domain: string, taskId: string, faultType: string, bucket: string)
  {
    /** Everything from one task moves together. */
    function Group(): string { domain + ":" + taskId }
    function Stratum(): string { domain + "|" + faultType + "|" + bucket }
  }

  const DevShare: real := 1.0 / 3.0
  const SplitTolerance: real := 0.1
  const ShareEpsilon: real := 0.000000001

  /** The strata counted on each side so far. */
  datatype Placed = Placed(dev: multiset<string>, test: multiset<string>)
  {
    function With(side: Side, strata: multiset<string>): Placed {
      if side.Dev? then this.(dev := dev + strata) else this.(test := test + strata)
    }
    function Count(): nat { |dev| + |test| }
  }

  const Nothing := Placed(multiset{}, multiset{})

  function Names(strata: multiset<string>): set<string> {
    set name | name in strata
  }

  function Max(a: nat, b: nat): nat { if a >= b then a else b }

  function ShareOf(side: Side): real { if side.Dev? then DevShare else 1.0 - DevShare }

  // ---- Where a group goes ----------------------------------------------------------------------

  /** How far `p` of `t` is below its share, weighted by `c`. */
  function NeedAt(c: real, t: real, p: real, share: real): real {
    Over(c * (t * share - p), share * t)
  }

  function NeedTerm(strata: multiset<string>, totals: multiset<string>, placed: multiset<string>, share: real,
                    name: string): real
  {
    NeedAt(strata[name] as real, totals[name] as real, placed[name] as real, share)
  }

  ghost function NeedTerms(strata: multiset<string>, totals: multiset<string>, placed: multiset<string>, share: real)
      : string -> real
  {
    name => NeedTerm(strata, totals, placed, share, name)
  }

  function OverallNeed(strata: multiset<string>, placed: multiset<string>, share: real, n: nat): real {
    NeedAt(|strata| as real, Max(n, 1) as real, |placed| as real, share)
  }

  /** How far below its target a side is, as a fraction of that target. */
  ghost function Need(strata: multiset<string>, totals: multiset<string>, placed: multiset<string>, side: Side, n: nat)
      : real
  {
    SumOver(Names(strata), NeedTerms(strata, totals, placed, ShareOf(side)))
    + OverallNeed(strata, placed, ShareOf(side), n)
  }

  /** The share dev would have after taking the group. */
  function Projected(strata: multiset<string>, placed: Placed): real {
    Over((|placed.dev| + |strata|) as real, (|placed.dev| + |placed.test| + |strata|) as real)
  }

  /** The ratio overrules the strata. */
  predicate Forced(strata: multiset<string>, placed: Placed) {
    |placed.dev| > 0 && Projected(strata, placed) > DevShare + SplitTolerance
  }

  ghost function BetterSide(strata: multiset<string>, totals: multiset<string>, placed: Placed, n: nat): Side {
    if Forced(strata, placed) then Test
    else if Need(strata, totals, placed.dev, Dev, n) > Need(strata, totals, placed.test, Test, n) then Dev
    else if Need(strata, totals, placed.test, Test, n) > Need(strata, totals, placed.dev, Dev, n) then Test
    else if Projected(strata, placed) <= DevShare + ShareEpsilon then Dev
    else Test
  }

  /** The sum over a counter's entries, in whatever order they come. */
  method NeedOf(strata: multiset<string>, totals: multiset<string>, placed: multiset<string>, side: Side, n: nat)
      returns (r: real)
    ensures r == Need(strata, totals, placed, side, n)
  {
    var share, rest := ShareOf(side), Names(strata);
    ghost var terms := NeedTerms(strata, totals, placed, share);
    r := 0.0;
    while rest != {}
      invariant r + SumOver(rest, terms) == SumOver(Names(strata), terms)
      decreases rest
    {
      var name :| name in rest;
      SumRemoves(rest, name, terms);
      r := r + NeedTerm(strata, totals, placed, share, name);
      rest := rest - {name};
    }
    r := r + OverallNeed(strata, placed, share, n);
  }

  method ChooseSide(strata: multiset<string>, totals: multiset<string>, placed: Placed, n: nat) returns (side: Side)
    ensures side == BetterSide(strata, totals, placed, n)
  {
    if Forced(strata, placed) {
      return Test;
    }
    var dev := NeedOf(strata, totals, placed.dev, Dev, n);
    var test := NeedOf(strata, totals, placed.test, Test, n);
    if dev > test {
      return Dev;
    }
    if test > dev {
      return Test;
    }
    return if Projected(strata, placed) <= DevShare + ShareEpsilon then Dev else Test;
  }

  // ---- The whole assignment --------------------------------------------------------------------

  /** What the split is computed from: each group's strata, everything's, and the frozen sides. */
  datatype World = World(strata: map<string, multiset<string>>, totals: multiset<string>, inherit: map<string, Side>)

  ghost function SideOf(w: World, group: string, placed: Placed): Side
    requires group in w.strata
  {
    if group in w.inherit then w.inherit[group] else BetterSide(w.strata[group], w.totals, placed, |w.totals|)
  }

  datatype Split = Split(sides: map<string, Side>, placed: Placed)

  function PlaceOne(w: World, sofar: Split, group: string, side: Side): Split
    requires group in w.strata
  {
    Split(sofar.sides[group := side], sofar.placed.With(side, w.strata[group]))
  }

  /** One choice for each group of the world, in some order. */
  ghost predicate Shaped(w: World, ordered: seq<string>, choices: seq<Side>) {
    |choices| == |ordered| && forall group <- ordered :: group in w.strata
  }

  /** The split after the first `k` choices. */
  ghost function PlaceFirst(w: World, ordered: seq<string>, choices: seq<Side>, k: nat): Split
    requires Shaped(w, ordered, choices) && k <= |ordered|
  {
    if k == 0 then Split(map[], Nothing)
    else PlaceOne(w, PlaceFirst(w, ordered, choices, k - 1), ordered[k - 1], choices[k - 1])
  }

  ghost predicate ChosenAt(w: World, ordered: seq<string>, choices: seq<Side>, k: nat)
    requires Shaped(w, ordered, choices) && k < |ordered|
  {
    choices[k] == SideOf(w, ordered[k], PlaceFirst(w, ordered, choices, k).placed)
  }

  /** Every choice is the one the rule makes on what was placed before it. */
  ghost predicate Chosen(w: World, ordered: seq<string>, choices: seq<Side>) {
    Shaped(w, ordered, choices) && forall k | 0 <= k < |ordered| :: ChosenAt(w, ordered, choices, k)
  }

  predicate LexLess(a: string, b: string) {
    b != [] && (a == [] || a[0] < b[0] || (a[0] == b[0] && LexLess(a[1..], b[1..])))
  }

  /** Inherited groups first, then larger ones, then by name. */
  predicate Before(w: World, a: string, b: string)
    requires a in w.strata && b in w.strata
  {
    if (a in w.inherit) != (b in w.inherit) then a in w.inherit
    else if |w.strata[a]| != |w.strata[b]| then |w.strata[a]| > |w.strata[b]|
    else LexLess(a, b)
  }

  /** All groups, each once, in that order. */
  ghost predicate Ordering(w: World, ordered: seq<string>) {
    && (forall group :: group in ordered <==> group in w.strata)
    && forall i, j :: 0 <= i < j < |ordered| ==>
         ordered[i] in w.strata && ordered[j] in w.strata && Before(w, ordered[i], ordered[j])
  }

  lemma {:induction false} LexTotal(a: string, b: string)
    ensures a == b || LexLess(a, b) || LexLess(b, a)
    ensures !(LexLess(a, b) && LexLess(b, a))
    ensures !LexLess(a, a)
    decreases |a|
  {
    if a != [] {
      if b != [] {
        LexTotal(a[1..], b[1..]);
        assert a == [a[0]] + a[1..] && b == [b[0]] + b[1..];
      }
      LexTotal(a[1..], a[1..]);
    }
  }

  lemma {:induction false} LexTransitive(a: string, b: string, c: string)
    requires LexLess(a, b) && LexLess(b, c)
    ensures LexLess(a, c)
    decreases |a|
  {
    if a != [] && a[0] == b[0] == c[0] { LexTransitive(a[1..], b[1..], c[1..]); }
  }

  lemma BeforeOrders(w: World, a: string, b: string, c: string)
    requires a in w.strata && b in w.strata && c in w.strata
    ensures a != b ==> Before(w, a, b) || Before(w, b, a)
    ensures !(Before(w, a, b) && Before(w, b, a))
    ensures Before(w, a, b) && Before(w, b, c) ==> Before(w, a, c)
  {
    LexTotal(a, b);
    if LexLess(a, b) && LexLess(b, c) { LexTransitive(a, b, c); }
  }

  /** There is only one ordering. */
  lemma {:induction false} OrderingUnique(w: World, xs: seq<string>, ys: seq<string>)
    requires Ordering(w, xs) && Ordering(w, ys)
    ensures xs == ys
    decreases |xs|
  {
    if xs == [] {
      if ys != [] { FirstOrdered(w, ys); }
    } else {
      assert xs[0] in xs && xs[0] in ys;
      assert ys[0] in ys && ys[0] in xs;
      BeforeOrders(w, xs[0], ys[0], xs[0]);
      assert xs[0] == ys[0];
      var w' := w.(strata := w.strata - {xs[0]});
      TailOrders(w, xs);
      TailOrders(w, ys);
      OrderingUnique(w', xs[1..], ys[1..]);
    }
  }

  lemma FirstOrdered(w: World, xs: seq<string>)
    requires Ordering(w, xs) && xs != []
    ensures xs[0] in w.strata
  {
    assert xs[0] in xs;
  }

  lemma TailOrders(w: World, xs: seq<string>)
    requires Ordering(w, xs) && xs != []
    ensures Ordering(w.(strata := w.strata - {xs[0]}), xs[1..])
  {
    var w', rest := w.(strata := w.strata - {xs[0]}), xs[1..];
    assert xs == [xs[0]] + rest;
    forall group ensures group in rest <==> group in w'.strata {
      if group in rest { TailAfterFirst(w, xs, group); }
    }
    forall i, j | 0 <= i < j < |rest|
      ensures rest[i] in w'.strata && rest[j] in w'.strata && Before(w', rest[i], rest[j])
    {
      assert rest[i] in rest && rest[j] in rest;
      assert Before(w, xs[i + 1], xs[j + 1]);
    }
  }

  lemma TailAfterFirst(w: World, xs: seq<string>, group: string)
    requires Ordering(w, xs) && xs != [] && group in xs[1..]
    ensures group in w.strata && group != xs[0]
  {
    var i :| 0 <= i < |xs[1..]| && xs[1..][i] == group;
    assert xs[i + 1] == group && group in xs;
    assert Before(w, xs[0], xs[i + 1]);
    LexTotal(group, group);
  }

  method SortGroups(w: World) returns (ordered: seq<string>)
    ensures Ordering(w, ordered)
  {
    ordered := [];
    var rest := w.strata.Keys;
    while rest != {}
      invariant rest <= w.strata.Keys
      invariant forall group :: group in ordered <==> group in w.strata && group !in rest
      invariant SortedBy(w, ordered)
      decreases rest
    {
      var group :| group in rest;
      var i := 0;
      while i < |ordered| && Before(w, ordered[i], group)
        invariant 0 <= i <= |ordered|
        invariant forall j :: 0 <= j < i ==> ordered[j] in w.strata && Before(w, ordered[j], group)
      {
        i := i + 1;
      }
      InsertSorts(w, ordered, group, i);
      ordered := ordered[..i] + [group] + ordered[i..];
      rest := rest - {group};
    }
  }

  ghost predicate SortedBy(w: World, ordered: seq<string>) {
    && (forall group <- ordered :: group in w.strata)
    && forall i, j :: 0 <= i < j < |ordered| ==> Before(w, ordered[i], ordered[j])
  }

  lemma InsertSorts(w: World, ordered: seq<string>, group: string, i: nat)
    requires SortedBy(w, ordered) && group in w.strata && group !in ordered && i <= |ordered|
    requires forall j :: 0 <= j < i ==> Before(w, ordered[j], group)
    requires i < |ordered| ==> !Before(w, ordered[i], group)
    ensures SortedBy(w, ordered[..i] + [group] + ordered[i..])
    ensures forall other :: other in ordered[..i] + [group] + ordered[i..] <==> other == group || other in ordered
  {
    assert ordered == ordered[..i] + ordered[i..];
    forall j | i <= j < |ordered| ensures Before(w, group, ordered[j]) {
      assert ordered[i] in ordered && ordered[j] in ordered;
      BeforeOrders(w, ordered[i], group, group);
      BeforeOrders(w, group, ordered[i], ordered[j]);
    }
    var result := ordered[..i] + [group] + ordered[i..];
    forall j, k | 0 <= j < k < |result| ensures Before(w, result[j], result[k]) {
      if k == i {
        assert result[j] == ordered[j];
      } else if k > i {
        assert result[k] == ordered[k - 1];
        if j != i { assert result[j] == ordered[if j < i then j else j - 1]; }
      } else {
        assert result[j] == ordered[j] && result[k] == ordered[k];
      }
    }
  }

  // ---- What it depends on ----------------------------------------------------------------------

  /** Counts collected over the items. */
  function Collected(items: seq<Item>, f: Item -> multiset<string>): multiset<string> {
    if items == [] then multiset{} else Collected(items[..|items| - 1], f) + f(items[|items| - 1])
  }

  function StratumIn(group: string): Item -> multiset<string> {
    (item: Item) => if item.Group() == group then multiset{item.Stratum()} else multiset{}
  }

  /** The strata of one group's items, counted. */
  function StrataOf(items: seq<Item>, group: string): multiset<string> {
    Collected(items, StratumIn(group))
  }

  function TotalStrata(items: seq<Item>): multiset<string> {
    Collected(items, (item: Item) => multiset{item.Stratum()})
  }

  function GroupsOf(items: seq<Item>): set<string> {
    set item <- items :: item.Group()
  }

  function WorldOf(items: seq<Item>, inherit: map<string, Side>): World {
    World(map group | group in GroupsOf(items) :: StrataOf(items, group), TotalStrata(items), inherit)
  }

  lemma {:induction false} CollectedAdds(a: seq<Item>, b: seq<Item>, f: Item -> multiset<string>)
    ensures Collected(a + b, f) == Collected(a, f) + Collected(b, f)
  {
    if b == [] {
      assert a + b == a;
    } else {
      assert (a + b)[..|a + b| - 1] == a + b[..|b| - 1];
      CollectedAdds(a, b[..|b| - 1], f);
    }
  }

  lemma CollectedWithout(a: seq<Item>, item: Item, b: seq<Item>, f: Item -> multiset<string>)
    ensures Collected(a + [item] + b, f) == Collected(a + b, f) + f(item)
  {
    CollectedAdds(a + [item], b, f);
    CollectedAdds(a, b, f);
    assert (a + [item])[..|a|] == a;
  }

  lemma Cancels(m: multiset<Item>, n: multiset<Item>, item: Item)
    requires m + multiset{item} == n + multiset{item}
    ensures m == n
  {
    assert m == (m + multiset{item}) - multiset{item};
    assert n == (n + multiset{item}) - multiset{item};
  }

  lemma Extract(items: seq<Item>, item: Item) returns (a: seq<Item>, b: seq<Item>)
    requires item in multiset(items)
    ensures items == a + [item] + b
    ensures multiset(items) == multiset(a + b) + multiset{item}
  {
    var i :| 0 <= i < |items| && items[i] == item;
    a, b := items[..i], items[i + 1..];
    assert items == a + [item] + b;
    assert multiset(a + [item] + b) == multiset(a) + multiset{item} + multiset(b);
  }

  lemma {:induction false} CollectedPermutes(items: seq<Item>, others: seq<Item>, f: Item -> multiset<string>)
    requires multiset(items) == multiset(others)
    ensures Collected(items, f) == Collected(others, f)
    decreases |items|
  {
    assert |items| == |multiset(items)| == |others|;
    if items != [] {
      var last, init := items[|items| - 1], items[..|items| - 1];
      assert items == init + [last];
      assert multiset(items) == multiset(init) + multiset{last};
      var a, b := Extract(others, last);
      Cancels(multiset(init), multiset(a + b), last);
      CollectedPermutes(init, a + b, f);
      CollectedWithout(a, last, b, f);
    }
  }

  /** The order the items come in does not matter. */
  lemma WorldPermutes(items: seq<Item>, others: seq<Item>, inherit: map<string, Side>)
    requires multiset(items) == multiset(others)
    ensures WorldOf(items, inherit) == WorldOf(others, inherit)
  {
    SameGroups(items, others);
    CollectedPermutes(items, others, (item: Item) => multiset{item.Stratum()});
    SameStrataOf(items, others);
    var w, v := WorldOf(items, inherit), WorldOf(others, inherit);
    assert w.totals == v.totals && w.strata == v.strata;
  }

  lemma SameStrataOf(items: seq<Item>, others: seq<Item>)
    requires multiset(items) == multiset(others)
    ensures forall group :: StrataOf(items, group) == StrataOf(others, group)
  {
    forall group ensures StrataOf(items, group) == StrataOf(others, group) {
      CollectedPermutes(items, others, StratumIn(group));
    }
  }

  lemma SameGroups(items: seq<Item>, others: seq<Item>)
    requires multiset(items) == multiset(others)
    ensures GroupsOf(items) == GroupsOf(others)
  {
    forall item ensures item in items <==> item in others {
      assert item in items <==> item in multiset(items);
      assert item in others <==> item in multiset(others);
    }
  }

  /** The choices of a run of the rule over all groups, and what they come to. */
  ghost predicate IsRun(w: World, ordered: seq<string>, choices: seq<Side>, sides: map<string, Side>) {
    && Ordering(w, ordered)
    && Chosen(w, ordered, choices)
    && sides == PlaceFirst(w, ordered, choices, |ordered|).sides
  }

  ghost predicate IsSplit(w: World, sides: map<string, Side>) {
    exists ordered, choices :: IsRun(w, ordered, choices, sides)
  }

  lemma {:induction false} PlaceFirstReads(w: World, ordered: seq<string>, choices: seq<Side>, others: seq<Side>, k: nat)
    requires Shaped(w, ordered, choices) && Shaped(w, ordered, others) && k <= |ordered|
    requires choices[..k] == others[..k]
    ensures PlaceFirst(w, ordered, choices, k) == PlaceFirst(w, ordered, others, k)
  {
    if k > 0 {
      assert choices[..k - 1] == choices[..k][..k - 1] && others[..k - 1] == others[..k][..k - 1];
      assert choices[k - 1] == choices[..k][k - 1] && others[k - 1] == others[..k][k - 1];
      PlaceFirstReads(w, ordered, choices, others, k - 1);
    }
  }

  lemma {:induction false} ChoicesUnique(w: World, ordered: seq<string>, choices: seq<Side>, others: seq<Side>, k: nat)
    requires Chosen(w, ordered, choices) && Chosen(w, ordered, others) && k <= |ordered|
    ensures choices[..k] == others[..k]
  {
    if k > 0 {
      ChoicesUnique(w, ordered, choices, others, k - 1);
      NextChoiceUnique(w, ordered, choices, others, k - 1);
      assert choices[..k] == choices[..k - 1] + [choices[k - 1]];
      assert others[..k] == others[..k - 1] + [others[k - 1]];
    }
  }

  lemma NextChoiceUnique(w: World, ordered: seq<string>, choices: seq<Side>, others: seq<Side>, k: nat)
    requires Chosen(w, ordered, choices) && Chosen(w, ordered, others) && k < |ordered| && choices[..k] == others[..k]
    ensures choices[k] == others[k]
  {
    PlaceFirstReads(w, ordered, choices, others, k);
    assert ChosenAt(w, ordered, choices, k) && ChosenAt(w, ordered, others, k);
  }

  /** `assign_splits`. */
  method AssignSplits(items: seq<Item>, inherit: map<string, Side>) returns (sides: map<string, Side>)
    ensures IsSplit(WorldOf(items, inherit), sides)
  {
    var w := WorldOf(items, inherit);
    sides := SplitWorld(w);
  }

  /** A frozen task cannot move; any other goes where it is needed. */
  method PlaceGroup(w: World, group: string, placed: Placed) returns (side: Side)
    requires group in w.strata
    ensures side == SideOf(w, group, placed)
  {
    if group in w.inherit {
      return w.inherit[group];
    }
    side := ChooseSide(w.strata[group], w.totals, placed, |w.totals|);
  }

  lemma NothingRun(w: World, ordered: seq<string>)
    ensures RunsUpTo(w, ordered, [], 0, Split(map[], Nothing))
  {
  }

  method SplitWorld(w: World) returns (sides: map<string, Side>)
    ensures IsSplit(w, sides)
  {
    var ordered := SortGroups(w);
    sides := map[];
    var placed := Nothing;
    ghost var choices: seq<Side> := [];
    NothingRun(w, ordered);
    for k := 0 to |ordered|
      invariant RunsUpTo(w, ordered, choices, k, Split(sides, placed))
    {
      var group := ordered[k];
      assert group in ordered;
      var side := PlaceGroup(w, group, placed);
      OneMoreChoice(w, ordered, choices, k, Split(sides, placed), side);
      choices := choices + [side];
      sides := sides[group := side];
      placed := placed.With(side, w.strata[group]);
    }
    RunComplete(w, ordered, choices, Split(sides, placed));
  }

  /** The loop so far is the run of the rule over the first `k` groups. */
  ghost predicate RunsUpTo(w: World, ordered: seq<string>, choices: seq<Side>, k: nat, r: Split) {
    && k <= |ordered|
    && Shaped(w, ordered[..k], choices)
    && Chosen(w, ordered[..k], choices)
    && r == PlaceFirst(w, ordered[..k], choices, k)
  }

  lemma {:induction false} PlaceFirstPrefix(w: World, ordered: seq<string>, choices: seq<Side>, group: string,
                                            side: Side, k: nat)
    requires Shaped(w, ordered, choices) && group in w.strata && k <= |ordered|
    ensures Shaped(w, ordered + [group], choices + [side])
    ensures PlaceFirst(w, ordered + [group], choices + [side], k) == PlaceFirst(w, ordered, choices, k)
  {
    if k > 0 { PlaceFirstPrefix(w, ordered, choices, group, side, k - 1); }
  }

  lemma OneMoreChoice(w: World, ordered: seq<string>, choices: seq<Side>, k: nat, r: Split, side: Side)
    requires RunsUpTo(w, ordered, choices, k, r) && k < |ordered| && ordered[k] in w.strata
    requires side == SideOf(w, ordered[k], r.placed)
    ensures RunsUpTo(w, ordered, choices + [side], k + 1, PlaceOne(w, r, ordered[k], side))
  {
    var before, group := ordered[..k], ordered[k];
    assert ordered[..k + 1] == before + [group];
    PlaceFirstPrefix(w, before, choices, group, side, k);
    forall j | 0 <= j < k + 1 ensures ChosenAt(w, before + [group], choices + [side], j) {
      PlaceFirstPrefix(w, before, choices, group, side, j);
      if j < k { assert ChosenAt(w, before, choices, j); }
    }
  }

  lemma RunComplete(w: World, ordered: seq<string>, choices: seq<Side>, r: Split)
    requires Ordering(w, ordered) && RunsUpTo(w, ordered, choices, |ordered|, r)
    ensures IsSplit(w, r.sides)
  {
    assert ordered[..|ordered|] == ordered;
    assert IsRun(w, ordered, choices, r.sides);
  }

  /** Any two runs over the same items, in any order, make the same assignment. */
  lemma SplitDependsOnItemsOnly(items: seq<Item>, others: seq<Item>, inherit: map<string, Side>,
                                sides: map<string, Side>, sides': map<string, Side>)
    requires multiset(items) == multiset(others)
    requires IsSplit(WorldOf(items, inherit), sides) && IsSplit(WorldOf(others, inherit), sides')
    ensures sides == sides'
  {
    WorldPermutes(items, others, inherit);
    SplitUnique(WorldOf(items, inherit), sides, sides');
  }

  lemma SplitUnique(w: World, sides: map<string, Side>, sides': map<string, Side>)
    requires IsSplit(w, sides) && IsSplit(w, sides')
    ensures sides == sides'
  {
    var xs, choices :| IsRun(w, xs, choices, sides);
    var ys, others :| IsRun(w, ys, others, sides');
    OrderingUnique(w, xs, ys);
    ChoicesUnique(w, xs, choices, others, |xs|);
    assert choices[..|xs|] == choices && others[..|xs|] == others;
  }
}
