/**
 The sequential estimator: a step's treated arm is drawn in batches until its verdict is
 decisive or the plan is exhausted, and a run blames the earliest blameworthy step.

 A sampler is a state transformer that may raise. The seed of a draw is derived from the step,
 the arm and the draws already taken, so those three name it.
 */
module Estimator {
  import opened Wrappers
  import opened Intervals

  datatype Arm = Treated | Control
  datatype ControlMode = Shared | PerStep | NoControl
  datatype StopReason = Blameworthy | Cleared | MaxN
  datatype Boundary = OBrienFleming | Nominal

  datatype ArmResult = ArmResult(successes: nat, n: nat)

  /** `z` is the critical value of the reported confidence level. */
  datatype Config = Config(batch: nat, maxN: nat, delta: real, z: real, boundary: Boundary)

  datatype Draw = Draw(step: nat, arm: Arm, n: nat, offset: nat)
  type Sampler<!S> = (S, Draw) -> Option<(S, seq<bool>)>

  datatype StepEffect = StepEffect(step: nat, treated: ArmResult, control: Option<ArmResult>, effect: real,
                                   reported: Interval, nBatches: nat, stopReason: StopReason,
                                   decisionZ: real, decisionLow: real)

  datatype RunEstimate = RunEstimate(effects: seq<StepEffect>, blamed: Option<nat>, mode: ControlMode,
                                     controlForkStep: Option<nat>, treatedReruns: nat, controlReruns: nat,
                                     samplerCalls: nat)
  {
    function TotalReruns(): nat { treatedReruns + controlReruns }
  }

  /** What a sampled computation left behind: the sampler's state, a value, and every draw asked for. */
  datatype Ran<+S, +T> = Ran(state: S, value: T, asked: seq<Draw>)

  const ObfLooks := 4
  const ObfCriticalZ: seq<real> := [4.049, 2.863, 2.337, 2.024]

  function PlannedLooks(c: Config): nat
    requires c.batch > 0
  {
    (c.maxN + c.batch - 1) / c.batch
  }

  predicate ValidConfig(c: Config) {
    && 0 < c.batch <= c.maxN
    && 0.0 <= c.delta < 1.0
    && c.z > 0.0
    && (c.boundary.OBrienFleming? ==> PlannedLooks(c) == ObfLooks)
  }

  function DecisionZ(c: Config, look: nat): real
    requires ValidConfig(c) && 1 <= look <= PlannedLooks(c)
  {
    if c.boundary.Nominal? then c.z else ObfCriticalZ[look - 1]
  }

  predicate Sampleable(arm: ArmResult) {
    ValidArm(arm.successes, arm.n)
  }

  /** The two arms an interval is taken from; `None` when there is no control. */
  predicate ComparableArms(treated: ArmResult, control: Option<ArmResult>) {
    Sampleable(treated) && (control.Some? ==> Sampleable(control.value))
  }

  function Rate(arm: ArmResult): real
    requires Sampleable(arm)
  {
    Estimate(arm.successes, arm.n)
  }

  function EffectOf(treated: ArmResult, control: Option<ArmResult>): real
    requires ComparableArms(treated, control)
  {
    match control
    case None => Rate(treated)
    case Some(arm) => Rate(treated) - Rate(arm)
  }

  function IntervalOf(sqrt: real -> real, treated: ArmResult, control: Option<ArmResult>, z: real): Interval
    requires ComparableArms(treated, control) && z > 0.0
  {
    match control
    case None => Wilson(sqrt, treated.successes, treated.n, z)
    case Some(arm) => Newcombe(sqrt, treated.successes, treated.n, arm.successes, arm.n, z)
  }

  /** Blame on the decision interval, clear on the reported one. */
  function StopReasonOf(decision: Interval, reported: Interval, delta: real): Option<StopReason> {
    if decision.low > delta then Some(Blameworthy)
    else if reported.high <= delta then Some(Cleared)
    else None
  }

  /** Two arms after so many looks. */
  datatype Arms = Arms(treated: ArmResult, control: Option<ArmResult>, batches: nat)

  predicate Looked(c: Config, a: Arms) {
    ValidConfig(c) && ComparableArms(a.treated, a.control) && 1 <= a.batches <= PlannedLooks(c)
  }

  function Verdict(sqrt: real -> real, c: Config, a: Arms): Option<StopReason>
    requires Looked(c, a)
  {
    StopReasonOf(IntervalOf(sqrt, a.treated, a.control, DecisionZ(c, a.batches)),
                 IntervalOf(sqrt, a.treated, a.control, c.z), c.delta)
  }

  function EffectAt(sqrt: real -> real, c: Config, step: nat, a: Arms): StepEffect
    requires Looked(c, a)
  {
    var decisionZ := DecisionZ(c, a.batches);
    StepEffect(step, a.treated, a.control, EffectOf(a.treated, a.control),
               IntervalOf(sqrt, a.treated, a.control, c.z), a.batches, Verdict(sqrt, c, a).GetOr(MaxN),
               decisionZ, IntervalOf(sqrt, a.treated, a.control, decisionZ).low)
  }

  // ---- One look --------------------------------------------------------------------------------

  function Passes(outcomes: seq<bool>): (r: nat)
    ensures r <= |outcomes|
  {
    if outcomes == [] then 0 else Passes(outcomes[..|outcomes| - 1]) + (if outcomes[|outcomes| - 1] then 1 else 0)
  }

  /** An arm's successes are its passing outcomes. */
  lemma {:induction false} PassesAreTrues(outcomes: seq<bool>)
    ensures Passes(outcomes) == multiset(outcomes)[true]
  {
    if outcomes != [] {
      var init, last := outcomes[..|outcomes| - 1], outcomes[|outcomes| - 1];
      PassesAreTrues(init);
      assert outcomes == init + [last];
    }
  }

  /** Asks for `draw` and tallies it; a reply of another length is an error. */
  function Tallied<S>(sampler: Sampler<S>, s: S, draw: Draw): (r: Option<(S, ArmResult)>)
    ensures r.Some? ==> r.value.1.n == draw.n && r.value.1.successes <= draw.n
  {
    match sampler(s, draw)
    case None => None
    case Some((s', outcomes)) =>
      if |outcomes| == draw.n then Some((s', ArmResult(Passes(outcomes), draw.n))) else None
  }

  function Extended(arm: ArmResult, more: ArmResult): ArmResult {
    ArmResult(arm.successes + more.successes, arm.n + more.n)
  }

  function Take(c: Config, n: nat): nat
    requires n <= c.maxN
  {
    if c.batch <= c.maxN - n then c.batch else c.maxN - n
  }

  /** The draws a look asks for, in order. */
  function LookDraws(c: Config, mode: ControlMode, step: nat, n: nat): seq<Draw>
    requires n <= c.maxN
  {
    [Draw(step, Treated, Take(c, n), n)] + if mode.PerStep? then [Draw(step, Control, Take(c, n), n)] else []
  }

  /** Arms between looks: on the plan, and not yet exhausted. */
  predicate Ready(c: Config, mode: ControlMode, a: Arms) {
    && ValidConfig(c)
    && a.treated.n == a.batches * c.batch < c.maxN
    && a.treated.successes <= a.treated.n
    && (mode.NoControl? <==> a.control.None?)
    && (mode.Shared? ==> Sampleable(a.control.value))
    && (mode.PerStep? ==> a.control.value.n == a.treated.n && a.control.value.successes <= a.treated.n)
  }

  function TakeLook<S>(sampler: Sampler<S>, c: Config, mode: ControlMode, step: nat, s: S, a: Arms)
      : (r: Option<(S, Arms)>)
    requires Ready(c, mode, a)
    ensures r.Some? ==> Looked(c, r.value.1) && AfterLook(c, mode, a, r.value.1)
  {
    LookOnPlan(c, a.treated.n, a.batches);
    var take := Take(c, a.treated.n);
    match Tallied(sampler, s, Draw(step, Treated, take, a.treated.n))
    case None => None
    case Some((s1, treated)) =>
      if mode.PerStep? then
        match Tallied(sampler, s1, Draw(step, Control, take, a.control.value.n))
        case None => None
        case Some((s2, control)) =>
          Some((s2, Arms(Extended(a.treated, treated), Some(Extended(a.control.value, control)), a.batches + 1)))
      else
        Some((s1, Arms(Extended(a.treated, treated), a.control, a.batches + 1)))
  }

  /** What a look does to the arms: both sampled arms grow alike, and it stays on the plan. */
  predicate AfterLook(c: Config, mode: ControlMode, a: Arms, b: Arms)
    requires a.treated.n <= c.maxN
  {
    && b.treated.n == a.treated.n + Take(c, a.treated.n)
    && b.batches == a.batches + 1
    && c.batch > 0 && b.batches == (b.treated.n + c.batch - 1) / c.batch
    && (b.treated.n < c.maxN ==> Ready(c, mode, b))
    && (!mode.PerStep? ==> b.control == a.control)
    && (mode.PerStep? ==> b.control.Some? && b.control.value.n == b.treated.n)
    && (mode.NoControl? <==> b.control.None?)
  }

  lemma Quotients(q: nat, b: nat, r: nat)
    requires 0 < r <= b
    ensures (q * b + r + b - 1) / b == q + 1
  {
    assert q * b + r + b - 1 == (q + 1) * b + (r - 1);
    QuotientUnique(q * b + r + b - 1, b, q + 1, r - 1);
  }

  lemma QuotientUnique(x: int, b: nat, q: int, r: nat)
    requires x == q * b + r && r < b
    ensures x / b == q
  {
    SameQuotient(q, r, x / b, x % b, b, q * b, x / b * b);
  }

  lemma SameQuotient(q: int, r: int, d: int, m: int, b: int, qb: int, db: int)
    requires qb == q * b && db == d * b && qb + r == db + m && 0 <= r < b && 0 <= m < b
    ensures q == d
  {
    if q < d { OneMore(q, d, b, qb, db); } else if d < q { OneMore(d, q, b, db, qb); }
  }

  lemma OneMore(p: int, q: int, b: int, pb: int, qb: int)
    requires p < q && b > 0 && pb == p * b && qb == q * b
    ensures pb + b <= qb
  {
    Apart(p, q, b);
    AtLeast(q - p, b);
  }

  lemma Apart(p: int, q: int, b: int)
    ensures q * b - p * b == (q - p) * b
  {
  }

  lemma AtLeast(k: int, b: int)
    requires k >= 1 && b > 0
    ensures k * b >= b
  {
    assert k * b == (k - 1) * b + b;
  }

  lemma LookOnPlan(c: Config, n: nat, k: nat)
    requires ValidConfig(c) && n == k * c.batch < c.maxN
    ensures var n' := n + Take(c, n);
            && n' <= c.maxN && Take(c, n) > 0
            && k + 1 == (n' + c.batch - 1) / c.batch
            && k + 1 <= PlannedLooks(c)
            && (n' < c.maxN ==> n' == (k + 1) * c.batch)
  {
    var n' := n + Take(c, n);
    Quotients(k, c.batch, Take(c, n));
    assert (k + 1) * c.batch == n + c.batch;
    DivOrder(n' + c.batch - 1, c.maxN + c.batch - 1, c.batch);
  }

  lemma DivOrder(x: nat, y: nat, b: nat)
    requires x <= y && b > 0
    ensures x / b <= y / b
  {
    if y / b < x / b { OneMore(y / b, x / b, b, y / b * b, x / b * b); }
  }

  // ---- One step --------------------------------------------------------------------------------

  function StartingControl(mode: ControlMode, shared: Option<ArmResult>): Option<Option<ArmResult>> {
    if mode.Shared? then
      if shared.Some? && Sampleable(shared.value) then Some(shared) else None
    else if shared.Some? then None
    else Some(if mode.NoControl? then None else Some(ArmResult(0, 0)))
  }

  /** Looks until the verdict is decisive or the plan is exhausted. */
  function RunStep<S>(sqrt: real -> real, sampler: Sampler<S>, c: Config, mode: ControlMode, step: nat, s: S,
                      a: Arms): (r: Option<Ran<S, Arms>>)
    requires Ready(c, mode, a)
    ensures r.Some? ==> Looked(c, r.value.value)
    decreases c.maxN - a.treated.n
  {
    LookOnPlan(c, a.treated.n, a.batches);
    match TakeLook(sampler, c, mode, step, s, a)
    case None => None
    case Some((s', b)) =>
      var draws := LookDraws(c, mode, step, a.treated.n);
      if Finished(sqrt, c, b) then Some(Ran(s', b, draws))
      else AfterDraws(draws, RunStep(sqrt, sampler, c, mode, step, s', b))
  }

  predicate Finished(sqrt: real -> real, c: Config, a: Arms)
    requires Looked(c, a)
  {
    Verdict(sqrt, c, a).Some? || a.treated.n >= c.maxN
  }

  function AfterDraws<S, T>(asked: seq<Draw>, ran: Option<Ran<S, T>>): Option<Ran<S, T>> {
    match ran
    case None => None
    case Some(r) => Some(r.(asked := asked + r.asked))
  }

  lemma AfterNoDraws<S, T>(ran: Option<Ran<S, T>>)
    ensures AfterDraws([], ran) == ran
  {
    if ran.Some? { assert [] + ran.value.asked == ran.value.asked; }
  }

  lemma AfterDrawsTwice<S, T>(first: seq<Draw>, second: seq<Draw>, ran: Option<Ran<S, T>>)
    ensures AfterDraws(first, AfterDraws(second, ran)) == AfterDraws(first + second, ran)
  {
    if ran.Some? { assert first + (second + ran.value.asked) == (first + second) + ran.value.asked; }
  }

  function Starting(control: Option<ArmResult>): Arms {
    Arms(ArmResult(0, 0), control, 0)
  }

  function EstimateStep<S>(sqrt: real -> real, sampler: Sampler<S>, c: Config, mode: ControlMode,
                           shared: Option<ArmResult>, step: nat, s: S): Option<Ran<S, StepEffect>>
    requires ValidConfig(c)
  {
    match StartingControl(mode, shared)
    case None => None
    case Some(control) =>
      match RunStep(sqrt, sampler, c, mode, step, s, Starting(control))
      case None => None
      case Some(ran) => Some(Ran(ran.state, EffectAt(sqrt, c, step, ran.value), ran.asked))
  }

  /** What is left of the loop, seen from its current state, finishes the whole of it. */
  ghost predicate Continues<S>(sqrt: real -> real, sampler: Sampler<S>, c: Config, mode: ControlMode, step: nat,
                               whole: Option<Ran<S, Arms>>, asked: seq<Draw>, s: S, a: Arms)
    requires Ready(c, mode, a)
  {
    whole == AfterDraws(asked, RunStep(sqrt, sampler, c, mode, step, s, a))
  }

  lemma Continued<S>(sqrt: real -> real, sampler: Sampler<S>, c: Config, mode: ControlMode, step: nat,
                     whole: Option<Ran<S, Arms>>, asked: seq<Draw>, s: S, a: Arms)
    requires Ready(c, mode, a) && a.treated.n <= c.maxN
    requires Continues(sqrt, sampler, c, mode, step, whole, asked, s, a)
    ensures var look, draws := TakeLook(sampler, c, mode, step, s, a), asked + LookDraws(c, mode, step, a.treated.n);
            if look.None? then whole.None?
            else if Finished(sqrt, c, look.value.1) then whole == Some(Ran(look.value.0, look.value.1, draws))
            else Ready(c, mode, look.value.1)
                 && Continues(sqrt, sampler, c, mode, step, whole, draws, look.value.0, look.value.1)
  {
    var look := TakeLook(sampler, c, mode, step, s, a);
    if look.Some? && !Finished(sqrt, c, look.value.1) {
      AfterDrawsTwice(asked, LookDraws(c, mode, step, a.treated.n),
                      RunStep(sqrt, sampler, c, mode, step, look.value.0, look.value.1));
    }
  }

  /** The sampling loop of one step. */
  method SampleStep<S(!new)>(sqrt: real -> real, sampler: Sampler<S>, c: Config, mode: ControlMode,
                             shared: Option<ArmResult>, step: nat, s: S) returns (r: Option<Ran<S, StepEffect>>)
    requires ValidConfig(c)
    ensures r == EstimateStep(sqrt, sampler, c, mode, shared, step, s)
  {
    var starting := StartingControl(mode, shared);
    if starting.None? {
      return None;
    }
    var state, arms, asked := s, Starting(starting.value), [];
    ghost var whole := RunStep(sqrt, sampler, c, mode, step, s, arms);
    AfterNoDraws(whole);
    while true
      invariant Ready(c, mode, arms)
      invariant Continues(sqrt, sampler, c, mode, step, whole, asked, state, arms)
      decreases c.maxN - arms.treated.n
    {
      LookOnPlan(c, arms.treated.n, arms.batches);
      Continued(sqrt, sampler, c, mode, step, whole, asked, state, arms);
      var draws := LookDraws(c, mode, step, arms.treated.n);
      var look := TakeLook(sampler, c, mode, step, state, arms);
      if look.None? {
        return None;
      }
      state, arms, asked := look.value.0, look.value.1, asked + draws;
      if Finished(sqrt, c, arms) {
        return Some(Ran(state, EffectAt(sqrt, c, step, arms), asked));
      }
    }
  }

  // ---- One run ---------------------------------------------------------------------------------

  function Inserted(x: nat, xs: seq<nat>): seq<nat> {
    if xs == [] || x < xs[0] then [x] + xs
    else if x == xs[0] then xs
    else [xs[0]] + Inserted(x, xs[1..])
  }

  /** The distinct tested steps in increasing order. */
  function SortedSteps(tested: seq<nat>): seq<nat> {
    if tested == [] then [] else Inserted(tested[0], SortedSteps(tested[1..]))
  }

  predicate Increasing(xs: seq<nat>) {
    forall i, j :: 0 <= i < j < |xs| ==> xs[i] < xs[j]
  }

  lemma {:induction false} InsertedIncreases(x: nat, xs: seq<nat>)
    requires Increasing(xs)
    ensures Increasing(Inserted(x, xs))
    ensures forall y :: y in Inserted(x, xs) <==> y == x || y in xs
  {
    if xs != [] && x > xs[0] {
      InsertedIncreases(x, xs[1..]);
      assert xs == [xs[0]] + xs[1..];
    }
  }

  lemma {:induction false} SortedStepsIncrease(tested: seq<nat>)
    ensures Increasing(SortedSteps(tested))
    ensures forall y :: y in SortedSteps(tested) <==> y in tested
  {
    if tested != [] {
      SortedStepsIncrease(tested[1..]);
      InsertedIncreases(tested[0], SortedSteps(tested[1..]));
      assert tested == [tested[0]] + tested[1..];
    }
  }

  function RunSteps<S>(sqrt: real -> real, sampler: Sampler<S>, c: Config, mode: ControlMode,
                       shared: Option<ArmResult>, steps: seq<nat>, s: S): Option<Ran<S, seq<StepEffect>>>
    requires ValidConfig(c)
  {
    if steps == [] then Some(Ran(s, [], []))
    else
      match EstimateStep(sqrt, sampler, c, mode, shared, steps[0], s)
      case None => None
      case Some(first) =>
        match RunSteps(sqrt, sampler, c, mode, shared, steps[1..], first.state)
        case None => None
        case Some(rest) => Some(Ran(rest.state, [first.value] + rest.value, first.asked + rest.asked))
  }

  function InsertedByStep(e: StepEffect, effects: seq<StepEffect>): seq<StepEffect> {
    if effects == [] || e.step <= effects[0].step then [e] + effects
    else [effects[0]] + InsertedByStep(e, effects[1..])
  }

  function SortedByStep(effects: seq<StepEffect>): seq<StepEffect> {
    if effects == [] then [] else InsertedByStep(effects[0], SortedByStep(effects[1..]))
  }

  function FirstBlameworthy(effects: seq<StepEffect>): Option<nat> {
    if effects == [] then None
    else if effects[0].stopReason.Blameworthy? then Some(effects[0].step)
    else FirstBlameworthy(effects[1..])
  }

  function Blame(effects: seq<StepEffect>): Option<nat> {
    FirstBlameworthy(SortedByStep(effects))
  }

  function SumBatches(effects: seq<StepEffect>): nat {
    if effects == [] then 0 else effects[0].nBatches + SumBatches(effects[1..])
  }

  function SumTreated(effects: seq<StepEffect>): nat {
    if effects == [] then 0 else effects[0].treated.n + SumTreated(effects[1..])
  }

  function SumControl(effects: seq<StepEffect>): nat {
    if effects == [] then 0
    else (if effects[0].control.Some? then effects[0].control.value.n else 0) + SumControl(effects[1..])
  }

  function SamplerCalls(effects: seq<StepEffect>, mode: ControlMode): nat {
    match mode
    case PerStep => 2 * SumBatches(effects)
    case Shared => SumBatches(effects) + 1
    case NoControl => SumBatches(effects)
  }

  function Assembled(effects: seq<StepEffect>, mode: ControlMode, forkStep: nat, maxN: nat): RunEstimate {
    RunEstimate(effects, Blame(effects), mode, if mode.Shared? then Some(forkStep) else None, SumTreated(effects),
                match mode { case Shared => maxN case PerStep => SumControl(effects) case NoControl => 0 },
                SamplerCalls(effects, mode))
  }

  function SharedDraw(c: Config, step: nat): Draw {
    Draw(step, Control, c.maxN, 0)
  }

  function EstimateRun<S>(sqrt: real -> real, sampler: Sampler<S>, c: Config, mode: ControlMode, tested: seq<nat>,
                          s: S): Option<Ran<S, RunEstimate>>
    requires ValidConfig(c)
  {
    var steps := SortedSteps(tested);
    if steps == [] then None
    else if mode.Shared? then
      match Tallied(sampler, s, SharedDraw(c, steps[0]))
      case None => None
      case Some((s', arm)) =>
        match RunSteps(sqrt, sampler, c, mode, Some(arm), steps, s')
        case None => None
        case Some(ran) =>
          Some(Ran(ran.state, Assembled(ran.value, mode, steps[0], c.maxN), [SharedDraw(c, steps[0])] + ran.asked))
    else
      match RunSteps(sqrt, sampler, c, mode, None, steps, s)
      case None => None
      case Some(ran) => Some(Ran(ran.state, Assembled(ran.value, mode, steps[0], c.maxN), ran.asked))
  }

  /** Earlier steps' effects and draws, before what the remaining ones give. */
  function Preceded<S>(effects: seq<StepEffect>, asked: seq<Draw>, rest: Option<Ran<S, seq<StepEffect>>>)
      : Option<Ran<S, seq<StepEffect>>>
  {
    match rest
    case None => None
    case Some(ran) => Some(Ran(ran.state, effects + ran.value, asked + ran.asked))
  }

  lemma PrecededBy<S>(effects: seq<StepEffect>, asked: seq<Draw>, first: Ran<S, StepEffect>,
                      rest: Option<Ran<S, seq<StepEffect>>>)
    ensures Preceded(effects, asked, Preceded([first.value], first.asked, rest))
            == Preceded(effects + [first.value], asked + first.asked, rest)
  {
    if rest.Some? {
      assert effects + ([first.value] + rest.value.value) == effects + [first.value] + rest.value.value;
      assert asked + (first.asked + rest.value.asked) == asked + first.asked + rest.value.asked;
    }
  }

  lemma PrecededByNothing<S>(rest: Option<Ran<S, seq<StepEffect>>>)
    ensures Preceded([], [], rest) == rest
  {
    if rest.Some? {
      assert [] + rest.value.value == rest.value.value;
      assert [] + rest.value.asked == rest.value.asked;
    }
  }

  lemma StepsHead<S>(sqrt: real -> real, sampler: Sampler<S>, c: Config, mode: ControlMode,
                     shared: Option<ArmResult>, steps: seq<nat>, i: nat, s: S)
    requires ValidConfig(c) && i < |steps|
    ensures var first := EstimateStep(sqrt, sampler, c, mode, shared, steps[i], s);
            RunSteps(sqrt, sampler, c, mode, shared, steps[i..], s)
            == if first.None? then None
               else Preceded([first.value.value], first.value.asked,
                             RunSteps(sqrt, sampler, c, mode, shared, steps[i + 1..], first.value.state))
  {
    assert steps[i..][1..] == steps[i + 1..];
  }

  /** The steps from `i` on finish the whole run. */
  ghost predicate StepsContinue<S>(sqrt: real -> real, sampler: Sampler<S>, c: Config, mode: ControlMode,
                                   shared: Option<ArmResult>, steps: seq<nat>, i: nat,
                                   whole: Option<Ran<S, seq<StepEffect>>>, effects: seq<StepEffect>,
                                   asked: seq<Draw>, s: S)
    requires ValidConfig(c) && i <= |steps|
  {
    whole == Preceded(effects, asked, RunSteps(sqrt, sampler, c, mode, shared, steps[i..], s))
  }

  lemma StepsContinued<S>(sqrt: real -> real, sampler: Sampler<S>, c: Config, mode: ControlMode,
                          shared: Option<ArmResult>, steps: seq<nat>, i: nat, whole: Option<Ran<S, seq<StepEffect>>>,
                          effects: seq<StepEffect>, asked: seq<Draw>, s: S)
    requires ValidConfig(c) && i < |steps|
    requires StepsContinue(sqrt, sampler, c, mode, shared, steps, i, whole, effects, asked, s)
    ensures var first := EstimateStep(sqrt, sampler, c, mode, shared, steps[i], s);
            if first.None? then whole.None?
            else StepsContinue(sqrt, sampler, c, mode, shared, steps, i + 1, whole, effects + [first.value.value],
                               asked + first.value.asked, first.value.state)
  {
    StepsHead(sqrt, sampler, c, mode, shared, steps, i, s);
    var first := EstimateStep(sqrt, sampler, c, mode, shared, steps[i], s);
    if first.Some? {
      PrecededBy(effects, asked, first.value,
                 RunSteps(sqrt, sampler, c, mode, shared, steps[i + 1..], first.value.state));
    }
  }

  /** Every step of a run in turn, each with the sampler as the last one left it. */
  method SampleSteps<S(!new)>(sqrt: real -> real, sampler: Sampler<S>, c: Config, mode: ControlMode,
                              shared: Option<ArmResult>, steps: seq<nat>, s: S)
      returns (r: Option<Ran<S, seq<StepEffect>>>)
    requires ValidConfig(c)
    ensures r == RunSteps(sqrt, sampler, c, mode, shared, steps, s)
  {
    var state, effects, asked := s, [], [];
    ghost var whole := RunSteps(sqrt, sampler, c, mode, shared, steps, s);
    PrecededByNothing(whole);
    assert steps[0..] == steps;
    for i := 0 to |steps|
      invariant StepsContinue(sqrt, sampler, c, mode, shared, steps, i, whole, effects, asked, state)
    {
      StepsContinued(sqrt, sampler, c, mode, shared, steps, i, whole, effects, asked, state);
      var first := SampleStep(sqrt, sampler, c, mode, shared, steps[i], state);
      if first.None? {
        return None;
      }
      state, effects, asked := first.value.state, effects + [first.value.value], asked + first.value.asked;
    }
    assert effects + [] == effects && asked + [] == asked;
    return Some(Ran(state, effects, asked));
  }

  /** `estimate_run`: the shared control first, if there is one, then every tested step. */
  method SampleRun<S(!new)>(sqrt: real -> real, sampler: Sampler<S>, c: Config, mode: ControlMode, tested: seq<nat>,
                            s: S) returns (r: Option<Ran<S, RunEstimate>>)
    requires ValidConfig(c)
    ensures r == EstimateRun(sqrt, sampler, c, mode, tested, s)
  {
    var steps := SortedSteps(tested);
    if steps == [] {
      return None;
    }
    var state, shared, asked := s, None, [];
    if mode.Shared? {
      var drawn := Tallied(sampler, s, SharedDraw(c, steps[0]));
      if drawn.None? {
        return None;
      }
      state, shared, asked := drawn.value.0, Some(drawn.value.1), [SharedDraw(c, steps[0])];
    }
    var ran := SampleSteps(sqrt, sampler, c, mode, shared, steps, state);
    if ran.None? {
      return None;
    }
    assert [] + ran.value.asked == ran.value.asked;
    return Some(Ran(ran.value.state, Assembled(ran.value.value, mode, steps[0], c.maxN), asked + ran.value.asked));
  }

  lemma {:induction false} InsertedByStepSorts(e: StepEffect, effects: seq<StepEffect>)
    requires ByStep(effects)
    ensures ByStep(InsertedByStep(e, effects))
    ensures forall x :: x in InsertedByStep(e, effects) <==> x == e || x in effects
  {
    if effects != [] && e.step > effects[0].step {
      InsertedByStepSorts(e, effects[1..]);
      assert effects == [effects[0]] + effects[1..];
      var rest := InsertedByStep(e, effects[1..]);
      forall j | 0 <= j < |rest| ensures effects[0].step <= rest[j].step { assert rest[j] in rest; }
    }
  }

  predicate ByStep(effects: seq<StepEffect>) {
    forall i, j :: 0 <= i < j < |effects| ==> effects[i].step <= effects[j].step
  }

  lemma {:induction false} SortedByStepSorts(effects: seq<StepEffect>)
    ensures ByStep(SortedByStep(effects))
    ensures forall x :: x in SortedByStep(effects) <==> x in effects
  {
    if effects != [] {
      SortedByStepSorts(effects[1..]);
      InsertedByStepSorts(effects[0], SortedByStep(effects[1..]));
      assert effects == [effects[0]] + effects[1..];
    }
  }

  predicate BlameworthyAt(effects: seq<StepEffect>, step: nat) {
    exists e <- effects :: e.step == step && e.stopReason.Blameworthy?
  }

  lemma {:induction false} FirstBlameworthyIsLeast(effects: seq<StepEffect>)
    requires ByStep(effects)
    ensures match FirstBlameworthy(effects)
            case None => forall step :: !BlameworthyAt(effects, step)
            case Some(step) => BlameworthyAt(effects, step)
                               && forall other :: BlameworthyAt(effects, other) ==> step <= other
  {
    if effects != [] {
      assert effects == [effects[0]] + effects[1..];
      if !effects[0].stopReason.Blameworthy? {
        FirstBlameworthyIsLeast(effects[1..]);
        forall step ensures BlameworthyAt(effects, step) <==> BlameworthyAt(effects[1..], step) {}
      }
    }
  }

  /** The blamed step is the least one with a blameworthy verdict, whatever order the effects come in. */
  lemma BlameIsEarliest(effects: seq<StepEffect>, step: nat)
    ensures Blame(effects) == Some(step)
            <==> BlameworthyAt(effects, step) && forall other :: BlameworthyAt(effects, other) ==> step <= other
    ensures Blame(effects).None? <==> forall other :: !BlameworthyAt(effects, other)
  {
    var sorted := SortedByStep(effects);
    SortedByStepSorts(effects);
    FirstBlameworthyIsLeast(sorted);
    forall other ensures BlameworthyAt(sorted, other) <==> BlameworthyAt(effects, other) {}
  }
}
