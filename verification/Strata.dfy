/**
 Position strata: the thirds of a run, and the order its candidates are tried in.
 */
module Strata {

  datatype Bucket = Early | Middle | Late

  const Buckets: seq<Bucket> := [Early, Middle, Late]

  function Number(b: Bucket): nat { match b case Early => 0 case Middle => 1 case Late => 2 }

  /** Where the `k`-th third of `total` positions begins. */
  function Edge(k: nat, total: nat): nat {
    match k
    case 0 => 0
    case 1 => (total + 2) / 3
    case 2 => (2 * total + 2) / 3
    case _ => total
  }

  /** Which third a position falls in. */
  function BucketOf(position: nat, total: nat): (r: Bucket)
    requires position < total
    ensures Edge(Number(r), total) <= position < Edge(Number(r) + 1, total)
  {
    ThirdBounds(position, total);
    Buckets[position * 3 / total]
  }

  lemma ThirdBounds(position: nat, total: nat)
    requires position < total
    ensures 0 <= position * 3 / total < 3
    ensures match position * 3 / total
            case 0 => position * 3 < total
            case 1 => total <= position * 3 < 2 * total
            case _ => 2 * total <= position * 3
  {
    var third := position * 3 / total;
    assert position * 3 == third * total + position * 3 % total;
    ThreeOrMore(third, total);
  }

  lemma ThreeOrMore(third: int, total: nat)
    ensures third >= 3 ==> third * total >= 3 * total
  {
    assert third * total - 3 * total == (third - 3) * total;
    if third >= 3 { assert (third - 3) * total >= 0; }
  }

  /** The steps of one bucket: a contiguous third of them. */
  function Third(steps: seq<nat>, b: Bucket): (r: seq<nat>)
  {
    steps[Edge(Number(b), |steps|)..Edge(Number(b) + 1, |steps|)]
  }

  /** What the first `n` steps put into a bucket. */
  function FilledTo(steps: seq<nat>, b: Bucket, n: nat): seq<nat>
    requires n <= |steps|
  {
    var from, to := Edge(Number(b), |steps|), Edge(Number(b) + 1, |steps|);
    if n <= from then [] else if n <= to then steps[from..n] else steps[from..to]
  }

  lemma FilledNext(steps: seq<nat>, b: Bucket, n: nat)
    requires n < |steps|
    ensures FilledTo(steps, b, n + 1) == FilledTo(steps, b, n) + if BucketOf(n, |steps|) == b then [steps[n]] else []
  {
    var from, to := Edge(Number(b), |steps|), Edge(Number(b) + 1, |steps|);
    if from <= n < to { assert steps[from..n + 1] == steps[from..n] + [steps[n]]; }
  }

  ghost predicate Filled(found: map<Bucket, seq<nat>>, steps: seq<nat>, n: nat)
    requires n <= |steps|
  {
    forall b :: b in found && found[b] == FilledTo(steps, b, n)
  }

  lemma FillsOneMore(found: map<Bucket, seq<nat>>, steps: seq<nat>, n: nat)
    requires n < |steps| && Filled(found, steps, n)
    ensures var bucket := BucketOf(n, |steps|); Filled(found[bucket := found[bucket] + [steps[n]]], steps, n + 1)
  {
    var bucket := BucketOf(n, |steps|);
    var after := found[bucket := found[bucket] + [steps[n]]];
    forall b ensures b in after && after[b] == FilledTo(steps, b, n + 1) { FilledNext(steps, b, n); }
  }

  lemma NothingFilled(steps: seq<nat>)
    ensures Filled(map[Early := [], Middle := [], Late := []], steps, 0)
  {
    var found: map<Bucket, seq<nat>> := map[Early := [], Middle := [], Late := []];
    forall b: Bucket ensures b in found && found[b] == [] {
      match b case Early => case Middle => case Late =>
    }
  }

  lemma AllFilled(found: map<Bucket, seq<nat>>, steps: seq<nat>)
    requires Filled(found, steps, |steps|)
    ensures forall b :: b in found && found[b] == Third(steps, b)
  {
    forall b ensures FilledTo(steps, b, |steps|) == Third(steps, b) { FilledIsThird(steps, b); }
  }

  lemma FilledIsThird(steps: seq<nat>, b: Bucket)
    ensures FilledTo(steps, b, |steps|) == Third(steps, b)
  {
  }

  /** `bucketed`: every step goes to the bucket of its position, in order. */
  method Bucketed(steps: seq<nat>) returns (found: map<Bucket, seq<nat>>)
    ensures forall b :: b in found && found[b] == Third(steps, b)
  {
    found := map[Early := [], Middle := [], Late := []];
    NothingFilled(steps);
    for position := 0 to |steps|
      invariant Filled(found, steps, position)
    {
      FillsOneMore(found, steps, position);
      var bucket := BucketOf(position, |steps|);
      found := found[bucket := found[bucket] + [steps[position]]];
    }
    AllFilled(found, steps);
  }

  /** The thirds put together are the steps, and no two of them differ by more than one. */
  lemma ThirdsAreFair(steps: seq<nat>, a: Bucket, b: Bucket)
    ensures Third(steps, Early) + Third(steps, Middle) + Third(steps, Late) == steps
    ensures -1 <= |Third(steps, a)| - |Third(steps, b)| <= 1
  {
    var first, second := Edge(1, |steps|), Edge(2, |steps|);
    assert steps[0..first] + steps[first..second] + steps[second..|steps|] == steps;
    ThirdSize(steps, a);
    ThirdSize(steps, b);
  }

  lemma ThirdSize(steps: seq<nat>, b: Bucket)
    ensures |steps| / 3 <= |Third(steps, b)| <= |steps| / 3 + 1
  {
  }

  // ---- The order of attempts -----------------------------------------------------------------------

  datatype Attempt = Attempt(bucket: Bucket, step: nat)

  type Shortlists = Bucket -> seq<nat>

  function TurnOf(lists: Shortlists, b: Bucket, k: nat): seq<Attempt> {
    if k < |lists(b)| then [Attempt(b, lists(b)[k])] else []
  }

  /** One round visits every bucket that still has a candidate. */
  function Round(lists: Shortlists, k: nat): seq<Attempt> {
    TurnOf(lists, Early, k) + TurnOf(lists, Middle, k) + TurnOf(lists, Late, k)
  }

  function Rounds(lists: Shortlists, n: nat): seq<Attempt> {
    if n == 0 then [] else Rounds(lists, n - 1) + Round(lists, n - 1)
  }

  /** `attempt_order`: round robin over the buckets. */
  method AttemptOrder(lists: Shortlists, attemptsPerBucket: nat) returns (order: seq<Attempt>)
    ensures order == Rounds(lists, attemptsPerBucket)
  {
    order := [];
    for attempt := 0 to attemptsPerBucket
      invariant order == Rounds(lists, attempt)
    {
      ghost var before := order;
      for i := 0 to |Buckets|
        invariant order == before + (if i > 0 then TurnOf(lists, Early, attempt) else [])
                           + (if i > 1 then TurnOf(lists, Middle, attempt) else [])
                           + (if i > 2 then TurnOf(lists, Late, attempt) else [])
      {
        order := order + TurnOf(lists, Buckets[i], attempt);
      }
    }
  }

  lemma RoundHolds(lists: Shortlists, k: nat, a: Attempt)
    ensures a in Round(lists, k) <==> k < |lists(a.bucket)| && lists(a.bucket)[k] == a.step
  {
    match a.bucket case Early => case Middle => case Late =>
  }

  /** An attempt is in the order exactly when one of the first candidates of its bucket is its step. */
  lemma {:induction false} RoundsHold(lists: Shortlists, n: nat, a: Attempt)
    ensures a in Rounds(lists, n) <==> exists k :: 0 <= k < n && k < |lists(a.bucket)| && lists(a.bucket)[k] == a.step
  {
    if n > 0 {
      RoundsHold(lists, n - 1, a);
      RoundHolds(lists, n - 1, a);
    }
  }

  /** The attempt at this rank of its bucket's shortlist. */
  predicate Ranked(lists: Shortlists, a: Attempt, rank: nat) {
    rank < |lists(a.bucket)| && lists(a.bucket)[rank] == a.step
  }

  /** A lower rank first; within one rank early, then middle, then late. */
  predicate InTurn(a: Attempt, i: nat, b: Attempt, j: nat) {
    i < j || (i == j && (a.bucket == Early || b.bucket == Late) && a.bucket != b.bucket)
  }

  /** The attempts, each with its rank, in turn. */
  ghost predicate TakesTurns(lists: Shortlists, order: seq<Attempt>, ranks: seq<nat>) {
    && |ranks| == |order|
    && (forall i | 0 <= i < |order| :: Ranked(lists, order[i], ranks[i]))
    && forall i, j | 0 <= i < j < |order| :: InTurn(order[i], ranks[i], order[j], ranks[j])
  }

  lemma RoundTakesTurns(lists: Shortlists, k: nat)
    ensures TakesTurns(lists, Round(lists, k), seq(|Round(lists, k)|, _ => k))
  {
  }

  lemma TurnsJoin(lists: Shortlists, xs: seq<Attempt>, ps: seq<nat>, ys: seq<Attempt>, qs: seq<nat>, k: nat)
    requires TakesTurns(lists, xs, ps) && TakesTurns(lists, ys, qs)
    requires (forall i <- ps :: i < k) && forall j <- qs :: j >= k
    ensures TakesTurns(lists, xs + ys, ps + qs)
  {
    forall i, j | 0 <= i < j < |xs + ys| ensures InTurn((xs + ys)[i], (ps + qs)[i], (xs + ys)[j], (ps + qs)[j]) {
      if i < |xs| && j >= |xs| { assert ps[i] in ps && qs[j - |xs|] in qs; }
    }
  }

  /** Round robin: no bucket's second candidate is tried before every bucket's first, and so on. */
  lemma {:induction false} RoundsTakeTurns(lists: Shortlists, n: nat) returns (ranks: seq<nat>)
    ensures TakesTurns(lists, Rounds(lists, n), ranks)
    ensures forall rank <- ranks :: rank < n
  {
    if n == 0 {
      ranks := [];
    } else {
      var before := RoundsTakeTurns(lists, n - 1);
      var round := seq(|Round(lists, n - 1)|, _ => n - 1);
      RoundTakesTurns(lists, n - 1);
      TurnsJoin(lists, Rounds(lists, n - 1), before, Round(lists, n - 1), round, n - 1);
      ranks := before + round;
    }
  }

  /** The shortlists name no step twice. */
  ghost predicate DistinctSteps(lists: Shortlists) {
    forall b, c, i, j :: ApartAt(lists, b, c, i, j)
  }

  predicate ApartAt(lists: Shortlists, b: Bucket, c: Bucket, i: int, j: int) {
    0 <= i < |lists(b)| && 0 <= j < |lists(c)| && lists(b)[i] == lists(c)[j] ==> b == c && i == j
  }

  ghost predicate NoStepTwice(order: seq<Attempt>) {
    forall i, j | 0 <= i < j < |order| :: order[i].step != order[j].step
  }

  lemma NoStepTwiceJoins(xs: seq<Attempt>, ys: seq<Attempt>)
    requires NoStepTwice(xs) && NoStepTwice(ys) && forall x, y | x in xs && y in ys :: x.step != y.step
    ensures NoStepTwice(xs + ys)
  {
    forall i, j | 0 <= i < j < |xs + ys| ensures (xs + ys)[i].step != (xs + ys)[j].step {
      if i < |xs| && j >= |xs| { assert xs[i] in xs && ys[j - |xs|] in ys; }
    }
  }

  lemma RoundNamesOnce(lists: Shortlists, k: nat)
    requires DistinctSteps(lists)
    ensures NoStepTwice(Round(lists, k))
  {
    var early, middle, late := TurnOf(lists, Early, k), TurnOf(lists, Middle, k), TurnOf(lists, Late, k);
    assert ApartAt(lists, Early, Middle, k, k) && ApartAt(lists, Early, Late, k, k) && ApartAt(lists, Middle, Late, k, k);
    NoStepTwiceJoins(early, middle);
    NoStepTwiceJoins(early + middle, late);
  }

  lemma LaterRoundsDiffer(lists: Shortlists, k: nat)
    requires DistinctSteps(lists)
    ensures forall x, y | x in Rounds(lists, k) && y in Round(lists, k) :: x.step != y.step
  {
    forall x, y | x in Rounds(lists, k) && y in Round(lists, k) ensures x.step != y.step {
      RoundsHold(lists, k, x);
      RoundHolds(lists, k, y);
      var i :| 0 <= i < k && i < |lists(x.bucket)| && lists(x.bucket)[i] == x.step;
      assert ApartAt(lists, x.bucket, y.bucket, i, k);
    }
  }

  lemma OneMoreRound(lists: Shortlists, k: nat)
    requires DistinctSteps(lists) && NoStepTwice(Rounds(lists, k))
    ensures NoStepTwice(Rounds(lists, k + 1))
  {
    RoundNamesOnce(lists, k);
    LaterRoundsDiffer(lists, k);
    NoStepTwiceJoins(Rounds(lists, k), Round(lists, k));
    assert Rounds(lists, k + 1) == Rounds(lists, k) + Round(lists, k);
  }

  lemma {:induction false} RoundsNameEachStepOnce(lists: Shortlists, n: nat)
    requires DistinctSteps(lists)
    ensures NoStepTwice(Rounds(lists, n))
  {
    if n > 0 {
      RoundsNameEachStepOnce(lists, n - 1);
      OneMoreRound(lists, n - 1);
    }
  }

  // ---- Those that can bite first -------------------------------------------------------------------

  type Key = nat

  /** Flowing candidates before the others, and among each the late ones first. */
  function KeyFor(flowing: bool, b: Bucket): Key {
    (if flowing then 0 else 4) + (match b case Late => 0 case Middle => 1 case Early => 2)
  }

  function KeyOf(flows: nat -> bool, a: Attempt): Key {
    KeyFor(flows(a.step), a.bucket)
  }

  function Inserted(flows: nat -> bool, a: Attempt, order: seq<Attempt>): seq<Attempt> {
    if order == [] then [a]
    else if KeyOf(flows, a) <= KeyOf(flows, order[0]) then [a] + order
    else [order[0]] + Inserted(flows, a, order[1..])
  }

  /** `_flowing_first`: a stable sort by that key. */
  function FlowingFirst(flows: nat -> bool, order: seq<Attempt>): seq<Attempt> {
    if order == [] then [] else Inserted(flows, order[0], FlowingFirst(flows, order[1..]))
  }

  ghost predicate SortedBy(flows: nat -> bool, order: seq<Attempt>) {
    forall i, j | 0 <= i < j < |order| :: KeyOf(flows, order[i]) <= KeyOf(flows, order[j])
  }

  /** The attempts with one key, in order. */
  function WithKey(flows: nat -> bool, order: seq<Attempt>, key: Key): seq<Attempt> {
    if order == [] then [] else IfKey(flows, order[0], key) + WithKey(flows, order[1..], key)
  }

  function IfKey(flows: nat -> bool, a: Attempt, key: Key): seq<Attempt> {
    if KeyOf(flows, a) == key then [a] else []
  }

  lemma {:induction false} InsertedPermutes(flows: nat -> bool, a: Attempt, order: seq<Attempt>)
    ensures multiset(Inserted(flows, a, order)) == multiset(order) + multiset{a}
    ensures forall x :: x in Inserted(flows, a, order) <==> x == a || x in order
  {
    if order != [] {
      assert order == [order[0]] + order[1..];
      if KeyOf(flows, a) > KeyOf(flows, order[0]) { InsertedPermutes(flows, a, order[1..]); }
    }
  }

  lemma {:induction false} InsertedSorts(flows: nat -> bool, a: Attempt, order: seq<Attempt>)
    requires SortedBy(flows, order)
    ensures SortedBy(flows, Inserted(flows, a, order))
  {
    if order != [] && KeyOf(flows, a) > KeyOf(flows, order[0]) {
      var rest := order[1..];
      assert order == [order[0]] + rest;
      InsertedSorts(flows, a, rest);
      InsertedPermutes(flows, a, rest);
      var tail := Inserted(flows, a, rest);
      forall j | 0 <= j < |tail| ensures KeyOf(flows, order[0]) <= KeyOf(flows, tail[j]) {
        assert tail[j] in tail;
      }
    }
  }

  lemma {:induction false} InsertedIsStable(flows: nat -> bool, a: Attempt, order: seq<Attempt>, key: Key)
    requires SortedBy(flows, order)
    ensures WithKey(flows, Inserted(flows, a, order), key) == IfKey(flows, a, key) + WithKey(flows, order, key)
  {
    if order == [] {
      WithKeyHead(flows, a, [], key);
    } else if KeyOf(flows, a) <= KeyOf(flows, order[0]) {
      WithKeyHead(flows, a, order, key);
    } else {
      InsertedIsStable(flows, a, order[1..], key);
      WithKeyHead(flows, order[0], Inserted(flows, a, order[1..]), key);
      EitherFirst(IfKey(flows, order[0], key), IfKey(flows, a, key), WithKey(flows, order[1..], key));
    }
  }

  lemma EitherFirst(x: seq<Attempt>, y: seq<Attempt>, rest: seq<Attempt>)
    requires x == [] || y == []
    ensures x + (y + rest) == y + (x + rest)
  {
  }

  lemma WithKeyHead(flows: nat -> bool, a: Attempt, rest: seq<Attempt>, key: Key)
    ensures WithKey(flows, [a] + rest, key) == IfKey(flows, a, key) + WithKey(flows, rest, key)
  {
    assert ([a] + rest)[1..] == rest;
  }

  lemma {:induction false} FlowingFirstSorts(flows: nat -> bool, order: seq<Attempt>)
    ensures SortedBy(flows, FlowingFirst(flows, order))
    ensures multiset(FlowingFirst(flows, order)) == multiset(order)
  {
    if order != [] {
      assert order == [order[0]] + order[1..];
      FlowingFirstSorts(flows, order[1..]);
      InsertedSorts(flows, order[0], FlowingFirst(flows, order[1..]));
      InsertedPermutes(flows, order[0], FlowingFirst(flows, order[1..]));
    }
  }

  lemma {:induction false} FlowingFirstIsStable(flows: nat -> bool, order: seq<Attempt>, key: Key)
    ensures WithKey(flows, FlowingFirst(flows, order), key) == WithKey(flows, order, key)
  {
    if order != [] {
      FlowingFirstSorts(flows, order[1..]);
      FlowingFirstIsStable(flows, order[1..], key);
      InsertedIsStable(flows, order[0], FlowingFirst(flows, order[1..]), key);
    }
  }

  /** It changes the order attempts are spent in, never which ones exist, nor the order within a group. */
  lemma FlowingFirstIsAStableSort(flows: nat -> bool, order: seq<Attempt>, key: Key)
    ensures SortedBy(flows, FlowingFirst(flows, order))
    ensures multiset(FlowingFirst(flows, order)) == multiset(order)
    ensures WithKey(flows, FlowingFirst(flows, order), key) == WithKey(flows, order, key)
  {
    FlowingFirstSorts(flows, order);
    FlowingFirstIsStable(flows, order, key);
  }

  /** One that flows before one that does not; of two alike in that, late before middle before early. */
  predicate TriedNoLater(flows: nat -> bool, a: Attempt, b: Attempt) {
    if flows(a.step) != flows(b.step) then flows(a.step)
    else a.bucket == b.bucket || a.bucket == Late || (a.bucket == Middle && b.bucket == Early)
  }

  /** The attempts of one third that flow, or that do not, in order. */
  function Alike(flows: nat -> bool, order: seq<Attempt>, flowing: bool, b: Bucket): seq<Attempt> {
    if order == [] then []
    else (if flows(order[0].step) == flowing && order[0].bucket == b then [order[0]] else [])
         + Alike(flows, order[1..], flowing, b)
  }

  lemma {:induction false} AlikeIsOneKey(flows: nat -> bool, order: seq<Attempt>, flowing: bool, b: Bucket)
    ensures Alike(flows, order, flowing, b) == WithKey(flows, order, KeyFor(flowing, b))
  {
    if order != [] { AlikeIsOneKey(flows, order[1..], flowing, b); }
  }

  /**
   Which attempts come first: flowing ones, and of those alike in that the later thirds; two that
   are alike in both stay in the order they were in, and the attempts are the same.
   */
  lemma FlowingThenLate(flows: nat -> bool, order: seq<Attempt>, flowing: bool, b: Bucket)
    ensures var first := FlowingFirst(flows, order);
            && (forall i, j | 0 <= i < j < |first| :: TriedNoLater(flows, first[i], first[j]))
            && multiset(first) == multiset(order)
            && Alike(flows, first, flowing, b) == Alike(flows, order, flowing, b)
  {
    var first := FlowingFirst(flows, order);
    FlowingFirstIsAStableSort(flows, order, KeyFor(flowing, b));
    AlikeIsOneKey(flows, first, flowing, b);
    AlikeIsOneKey(flows, order, flowing, b);
    forall i, j | 0 <= i < j < |first| ensures TriedNoLater(flows, first[i], first[j]) {
      assert KeyOf(flows, first[i]) <= KeyOf(flows, first[j]);
    }
  }

  /** So no step is named twice after it either. */
  lemma FlowingFirstNamesEachStepOnce(flows: nat -> bool, order: seq<Attempt>)
    requires NoStepTwice(order)
    ensures NoStepTwice(FlowingFirst(flows, order))
  {
    FlowingFirstIsAStableSort(flows, order, 0);
    StepsPermute(order, FlowingFirst(flows, order));
  }

  lemma {:induction false} StepsPermute(xs: seq<Attempt>, ys: seq<Attempt>)
    requires multiset(xs) == multiset(ys) && NoStepTwice(xs)
    ensures NoStepTwice(ys)
  {
    forall i, j | 0 <= i < j < |ys| ensures ys[i].step != ys[j].step {
      if ys[i].step == ys[j].step {
        assert ys[i] in multiset(xs) && ys[j] in multiset(xs);
        var m :| 0 <= m < |xs| && xs[m] == ys[i];
        var n :| 0 <= n < |xs| && xs[n] == ys[j];
        assert m == n;
        TwiceIn(ys, i, j);
        OnceIn(xs, m);
      }
    }
  }

  lemma TwiceIn(xs: seq<Attempt>, i: nat, j: nat)
    requires i < j < |xs| && xs[i] == xs[j]
    ensures multiset(xs)[xs[i]] >= 2
  {
    assert xs == xs[..j] + [xs[j]] + xs[j + 1..];
    assert xs[i] == xs[..j][i];
    assert xs[i] in multiset(xs[..j]);
  }

  lemma OnceIn(xs: seq<Attempt>, m: nat)
    requires NoStepTwice(xs) && m < |xs|
    ensures multiset(xs)[xs[m]] == 1
  {
    assert xs == xs[..m] + [xs[m]] + xs[m + 1..];
    assert xs[m] !in xs[..m] && xs[m] !in xs[m + 1..];
    assert xs[m] !in multiset(xs[..m]) && xs[m] !in multiset(xs[m + 1..]);
  }
}
