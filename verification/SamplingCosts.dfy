/**
 What an estimate costs: every draw asked of the sampler, against the plan and against what the
 estimate reports.
 */
module SamplingCosts {
  import opened Wrappers
  import opened Estimator

  function Drawn(asked: seq<Draw>, arm: Arm): nat {
    if asked == [] then 0 else (if asked[0].arm == arm then asked[0].n else 0) + Drawn(asked[1..], arm)
  }

  lemma {:induction false} DrawnAdds(first: seq<Draw>, second: seq<Draw>, arm: Arm)
    ensures Drawn(first + second, arm) == Drawn(first, arm) + Drawn(second, arm)
  {
    if first == [] {
      assert first + second == second;
    } else {
      assert (first + second)[1..] == first[1..] + second;
      DrawnAdds(first[1..], second, arm);
    }
  }

  function CallsPerLook(mode: ControlMode): nat { if mode.PerStep? then 2 else 1 }

  /** `a` grew to `b` by the draws in `asked`. */
  ghost predicate Paid(c: Config, mode: ControlMode, a: Arms, b: Arms, asked: seq<Draw>) {
    && a.batches <= b.batches
    && |asked| == (b.batches - a.batches) * CallsPerLook(mode)
    && a.treated.n + Drawn(asked, Treated) == b.treated.n <= c.maxN
    && (mode.PerStep? ==> a.treated.n + Drawn(asked, Control) == b.treated.n)
    && (mode.PerStep? ==> b.control.Some? && b.control.value.n == b.treated.n)
    && (!mode.PerStep? ==> Drawn(asked, Control) == 0 && b.control == a.control)
    && c.batch > 0 && b.batches == (b.treated.n + c.batch - 1) / c.batch
  }

  lemma LookPaid(c: Config, mode: ControlMode, step: nat, a: Arms, b: Arms)
    requires Ready(c, mode, a) && a.treated.n <= c.maxN && AfterLook(c, mode, a, b)
    ensures Paid(c, mode, a, b, LookDraws(c, mode, step, a.treated.n))
  {
    var n := a.treated.n;
    var treated, control := Draw(step, Treated, Take(c, n), n), Draw(step, Control, Take(c, n), n);
    DrawnOne(treated);
    DrawnOne(control);
    DrawnAdds([treated], [control], Treated);
    DrawnAdds([treated], [control], Control);
    assert [treated] + [] == [treated];
  }

  lemma DrawnOne(draw: Draw)
    ensures forall arm :: Drawn([draw], arm) == if draw.arm == arm then draw.n else 0
  {
    assert forall arm :: Drawn([draw][1..], arm) == 0;
  }

  lemma PaidTwice(c: Config, mode: ControlMode, a: Arms, b: Arms, d: Arms, first: seq<Draw>, second: seq<Draw>)
    requires Paid(c, mode, a, b, first) && Paid(c, mode, b, d, second)
    ensures Paid(c, mode, a, d, first + second)
  {
    DrawnAdds(first, second, Treated);
    DrawnAdds(first, second, Control);
  }

  lemma {:induction false} StepPaid<S>(sqrt: real -> real, sampler: Sampler<S>, c: Config, mode: ControlMode,
                                       step: nat, s: S, a: Arms)
    requires Ready(c, mode, a)
    ensures var r := RunStep(sqrt, sampler, c, mode, step, s, a);
            r.Some? ==> Paid(c, mode, a, r.value.value, r.value.asked)
    decreases c.maxN - a.treated.n
  {
    LookOnPlan(c, a.treated.n, a.batches);
    var look := TakeLook(sampler, c, mode, step, s, a);
    if look.Some? {
      var b := look.value.1;
      LookPaid(c, mode, step, a, b);
      if !Finished(sqrt, c, b) {
        StepPaid(sqrt, sampler, c, mode, step, look.value.0, b);
        var r := RunStep(sqrt, sampler, c, mode, step, look.value.0, b);
        if r.Some? {
          PaidTwice(c, mode, a, b, r.value.value, LookDraws(c, mode, step, a.treated.n), r.value.asked);
        }
      }
    }
  }

  /** What one step's effect says about its own cost. */
  ghost predicate EffectPaid(c: Config, mode: ControlMode, shared: Option<ArmResult>, e: StepEffect) {
    && ValidConfig(c)
    && 1 <= e.nBatches == (e.treated.n + c.batch - 1) / c.batch <= PlannedLooks(c)
    && 1 <= e.treated.n <= c.maxN
    && (match mode
        case Shared => e.control == shared
        case PerStep => e.control.Some? && e.control.value.n == e.treated.n
        case NoControl => e.control.None?)
  }

  lemma EffectIsPaid<S>(sqrt: real -> real, sampler: Sampler<S>, c: Config, mode: ControlMode,
                        shared: Option<ArmResult>, step: nat, s: S)
    requires ValidConfig(c)
    ensures var r := EstimateStep(sqrt, sampler, c, mode, shared, step, s);
            r.Some? ==>
              && r.value.value.step == step
              && EffectPaid(c, mode, shared, r.value.value)
              && StepTotals(mode, r.value.value, r.value.asked)
  {
    var starting := StartingControl(mode, shared);
    if starting.Some? {
      StepPaid(sqrt, sampler, c, mode, step, s, Starting(starting.value));
    }
  }

  ghost predicate EffectsPaid(c: Config, mode: ControlMode, shared: Option<ArmResult>, steps: seq<nat>,
                              effects: seq<StepEffect>)
  {
    && |effects| == |steps|
    && forall i :: 0 <= i < |steps| ==> effects[i].step == steps[i] && EffectPaid(c, mode, shared, effects[i])
  }

  ghost predicate TotalsPaid(mode: ControlMode, most: nat, effects: seq<StepEffect>, asked: seq<Draw>) {
    && |asked| == SumBatches(effects) * CallsPerLook(mode)
    && Drawn(asked, Treated) == SumTreated(effects) <= most
    && Drawn(asked, Control) == (if mode.PerStep? then SumControl(effects) else 0)
    && (mode.PerStep? ==> SumControl(effects) == SumTreated(effects))
  }

  /** What a whole profile of effects cost. */
  ghost predicate ProfilePaid(c: Config, mode: ControlMode, shared: Option<ArmResult>, steps: seq<nat>,
                              effects: seq<StepEffect>, asked: seq<Draw>)
  {
    EffectsPaid(c, mode, shared, steps, effects) && TotalsPaid(mode, |steps| * c.maxN, effects, asked)
  }

  ghost predicate StepTotals(mode: ControlMode, e: StepEffect, asked: seq<Draw>) {
    && |asked| == e.nBatches * CallsPerLook(mode)
    && Drawn(asked, Treated) == e.treated.n
    && Drawn(asked, Control) == if mode.PerStep? then e.treated.n else 0
  }

  lemma TotalsGrow(mode: ControlMode, maxN: nat, most: nat, e: StepEffect, first: seq<Draw>, rest: seq<StepEffect>,
                   second: seq<Draw>)
    requires StepTotals(mode, e, first) && TotalsPaid(mode, most, rest, second) && e.treated.n <= maxN
    requires mode.PerStep? ==> e.control.Some? && e.control.value.n == e.treated.n
    ensures TotalsPaid(mode, maxN + most, [e] + rest, first + second)
  {
    DrawnAdds(first, second, Treated);
    DrawnAdds(first, second, Control);
    SumsGrow(e, rest);
  }

  lemma EffectsGrow(c: Config, mode: ControlMode, shared: Option<ArmResult>, steps: seq<nat>, e: StepEffect,
                    rest: seq<StepEffect>)
    requires steps != [] && e.step == steps[0] && EffectPaid(c, mode, shared, e)
    requires EffectsPaid(c, mode, shared, steps[1..], rest)
    ensures EffectsPaid(c, mode, shared, steps, [e] + rest)
  {
    forall i | 0 <= i < |steps|
      ensures ([e] + rest)[i].step == steps[i] && EffectPaid(c, mode, shared, ([e] + rest)[i])
    {
      if i > 0 { assert ([e] + rest)[i] == rest[i - 1] && steps[i] == steps[1..][i - 1]; }
    }
  }

  lemma ProfileGrows(c: Config, mode: ControlMode, shared: Option<ArmResult>, steps: seq<nat>, e: StepEffect,
                     first: seq<Draw>, rest: seq<StepEffect>, second: seq<Draw>)
    requires steps != [] && e.step == steps[0] && EffectPaid(c, mode, shared, e) && StepTotals(mode, e, first)
    requires ProfilePaid(c, mode, shared, steps[1..], rest, second)
    ensures ProfilePaid(c, mode, shared, steps, [e] + rest, first + second)
  {
    EffectsGrow(c, mode, shared, steps, e, rest);
    TotalsGrow(mode, c.maxN, |steps[1..]| * c.maxN, e, first, rest, second);
    OneMoreStep(|steps|, c.maxN);
  }

  lemma OneMoreStep(k: nat, maxN: nat)
    requires k > 0
    ensures k * maxN == maxN + (k - 1) * maxN
  {
  }

  lemma SumsGrow(e: StepEffect, rest: seq<StepEffect>)
    ensures SumBatches([e] + rest) == e.nBatches + SumBatches(rest)
    ensures SumTreated([e] + rest) == e.treated.n + SumTreated(rest)
    ensures SumControl([e] + rest) == (if e.control.Some? then e.control.value.n else 0) + SumControl(rest)
  {
    assert ([e] + rest)[1..] == rest;
  }

  lemma {:induction false} StepsPaid<S>(sqrt: real -> real, sampler: Sampler<S>, c: Config, mode: ControlMode,
                                        shared: Option<ArmResult>, steps: seq<nat>, s: S)
    requires ValidConfig(c)
    ensures var r := RunSteps(sqrt, sampler, c, mode, shared, steps, s);
            r.Some? ==> ProfilePaid(c, mode, shared, steps, r.value.value, r.value.asked)
  {
    if steps != [] {
      EffectIsPaid(sqrt, sampler, c, mode, shared, steps[0], s);
      var first := EstimateStep(sqrt, sampler, c, mode, shared, steps[0], s);
      if first.Some? {
        StepsPaid(sqrt, sampler, c, mode, shared, steps[1..], first.value.state);
        var rest := RunSteps(sqrt, sampler, c, mode, shared, steps[1..], first.value.state);
        if rest.Some? {
          ProfileGrows(c, mode, shared, steps, first.value.value, first.value.asked, rest.value.value,
                       rest.value.asked);
        }
      }
    }
  }

  function RerunBound(c: Config, mode: ControlMode, k: nat): nat {
    match mode
    case Shared => (k + 1) * c.maxN
    case PerStep => 2 * (k * c.maxN)
    case NoControl => k * c.maxN
  }

  /** An estimate's recorded cost is what was asked of the sampler, and within the plan. */
  ghost predicate CostExact(c: Config, steps: seq<nat>, estimate: RunEstimate, asked: seq<Draw>) {
    && ValidConfig(c)
    && estimate.samplerCalls == |asked|
    && estimate.treatedReruns == Drawn(asked, Treated)
    && estimate.controlReruns == Drawn(asked, Control)
    && estimate.TotalReruns() <= RerunBound(c, estimate.mode, |steps|)
    && |estimate.effects| == |steps|
    && forall i :: 0 <= i < |steps| ==>
         && estimate.effects[i].step == steps[i]
         && 1 <= estimate.effects[i].nBatches
              == (estimate.effects[i].treated.n + c.batch - 1) / c.batch <= PlannedLooks(c)
  }

  lemma AssembledCost(c: Config, mode: ControlMode, shared: Option<ArmResult>, steps: seq<nat>,
                      effects: seq<StepEffect>, asked: seq<Draw>)
    requires ValidConfig(c) && steps != [] && ProfilePaid(c, mode, shared, steps, effects, asked)
    ensures CostExact(c, steps, Assembled(effects, mode, steps[0], c.maxN),
                      (if mode.Shared? then [SharedDraw(c, steps[0])] else []) + asked)
  {
    var draw := SharedDraw(c, steps[0]);
    DrawnOne(draw);
    DrawnAdds([draw], asked, Treated);
    DrawnAdds([draw], asked, Control);
    assert [] + asked == asked;
    OneMoreStep(|steps| + 1, c.maxN);
    forall i | 0 <= i < |steps|
      ensures 1 <= effects[i].nBatches == (effects[i].treated.n + c.batch - 1) / c.batch <= PlannedLooks(c)
    {
      assert EffectPaid(c, mode, shared, effects[i]);
    }
  }

  /**
   Every run's recorded cost is what it asked of the sampler: `samplerCalls` the invocations,
   and the two rerun counts the draws of each arm, within the plan's bound.
   */
  lemma CostsAreExact<S>(sqrt: real -> real, sampler: Sampler<S>, c: Config, mode: ControlMode, tested: seq<nat>, s: S)
    requires ValidConfig(c)
    ensures var r := EstimateRun(sqrt, sampler, c, mode, tested, s);
            r.Some? ==> r.value.value.mode == mode && CostExact(c, SortedSteps(tested), r.value.value, r.value.asked)
  {
    var steps := SortedSteps(tested);
    if steps != [] {
      if mode.Shared? {
        var drawn := Tallied(sampler, s, SharedDraw(c, steps[0]));
        if drawn.Some? {
          StepsPaid(sqrt, sampler, c, mode, Some(drawn.value.1), steps, drawn.value.0);
          var ran := RunSteps(sqrt, sampler, c, mode, Some(drawn.value.1), steps, drawn.value.0);
          if ran.Some? { AssembledCost(c, mode, Some(drawn.value.1), steps, ran.value.value, ran.value.asked); }
        }
      } else {
        StepsPaid(sqrt, sampler, c, mode, None, steps, s);
        var ran := RunSteps(sqrt, sampler, c, mode, None, steps, s);
        if ran.Some? {
          AssembledCost(c, mode, None, steps, ran.value.value, ran.value.asked);
          assert [] + ran.value.asked == ran.value.asked;
        }
      }
    }
  }
}
