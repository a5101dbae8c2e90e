/**
 What an estimate reports, read off its own numbers: the arms, the two intervals taken from
 them, and the one verdict those allow.
 */
module Verdicts {
  import opened Wrappers
  import opened Intervals
  import opened Estimator
  import Boundary

  // ---- The boundary's levels -------------------------------------------------------------------

  /** The critical value a look of the plan is decided at. */
  predicate LevelOf(c: Config, look: nat, z: real) {
    if c.boundary.Nominal? then z == c.z
    else
      || (look == 1 && z == 4.049) || (look == 2 && z == 2.863)
      || (look == 3 && z == 2.337) || (look == 4 && z == 2.024)
  }

  /** They are O'Brien and Fleming's for four looks: 2.024·sqrt(4 / look), to a thousandth. */
  lemma LevelsAreOBrienFleming(c: Config, look: nat, z: real)
    requires c.boundary.OBrienFleming? && LevelOf(c, look, z)
    ensures 1 <= look <= 4
    ensures (z - 0.001) * (z - 0.001) * look as real <= 4.0 * (2.024 * 2.024) <= (z + 0.001) * (z + 0.001) * look as real
  {
  }

  // ---- One step --------------------------------------------------------------------------------

  /** `i` is the interval of these arms at `z`: Newcombe's for two arms, Wilson's for one. */
  ghost predicate TakenAt(sqrt: real -> real, treated: ArmResult, control: Option<ArmResult>, z: real, i: Interval) {
    && ValidArm(treated.successes, treated.n) && z > 0.0
    && match control
       case None => i == Wilson(sqrt, treated.successes, treated.n, z)
       case Some(arm) => ValidArm(arm.successes, arm.n)
                         && i == Newcombe(sqrt, treated.successes, treated.n, arm.successes, arm.n, z)
  }

  /** `effect` is how much more often the treated arm passed. */
  predicate Difference(treated: ArmResult, control: Option<ArmResult>, effect: real) {
    && treated.n > 0
    && match control
       case None => effect == treated.successes as real / treated.n as real
       case Some(arm) => arm.n > 0 && effect == treated.successes as real / treated.n as real
                                                - arm.successes as real / arm.n as real
  }

  /** The effect's numbers are those of its arms, at the level reported and at its look's. */
  ghost predicate Measured(sqrt: real -> real, c: Config, e: StepEffect) {
    && Difference(e.treated, e.control, e.effect)
    && TakenAt(sqrt, e.treated, e.control, c.z, e.reported)
    && LevelOf(c, e.nBatches, e.decisionZ)
    && exists decision :: TakenAt(sqrt, e.treated, e.control, e.decisionZ, decision) && e.decisionLow == decision.low
  }

  /** Blame above delta at the look's level, clear below it at the reported one, and otherwise an exhausted plan. */
  predicate Decided(c: Config, e: StepEffect) {
    && (e.stopReason == Blameworthy <==> e.decisionLow > c.delta)
    && (e.stopReason == Cleared <==> e.decisionLow <= c.delta && e.reported.high <= c.delta)
    && (e.stopReason == MaxN <==> e.decisionLow <= c.delta < e.reported.high)
    && (e.stopReason == MaxN ==> e.treated.n == c.maxN)
  }

  /** Whole batches of the plan, or the plan's end; a per-step control arm as long, a shared one as it was. */
  predicate ArmsOnPlan(c: Config, mode: ControlMode, shared: Option<ArmResult>, a: Arms) {
    && a.batches > 0
    && a.treated.n == (if a.batches * c.batch <= c.maxN then a.batches * c.batch else c.maxN)
    && (a.batches - 1) * c.batch < c.maxN
    && (mode.NoControl? ==> a.control.None?)
    && (mode.PerStep? ==> a.control.Some? && a.control.value.n == a.treated.n)
    && (mode.Shared? ==> a.control == shared)
  }

  lemma LevelIs(c: Config, look: nat)
    requires ValidConfig(c) && 1 <= look <= PlannedLooks(c)
    ensures LevelOf(c, look, DecisionZ(c, look)) && DecisionZ(c, look) > 0.0
  {
    if c.boundary.OBrienFleming? { assert look == 1 || look == 2 || look == 3 || look == 4; }
  }

  lemma IntervalIsTaken(sqrt: real -> real, treated: ArmResult, control: Option<ArmResult>, z: real)
    requires ComparableArms(treated, control) && z > 0.0
    ensures TakenAt(sqrt, treated, control, z, IntervalOf(sqrt, treated, control, z))
  {
  }

  lemma EffectMeasures(sqrt: real -> real, c: Config, step: nat, a: Arms)
    requires Looked(c, a)
    ensures Measured(sqrt, c, EffectAt(sqrt, c, step, a))
    ensures EffectAt(sqrt, c, step, a).step == step
  {
    LevelIs(c, a.batches);
    IntervalIsTaken(sqrt, a.treated, a.control, c.z);
    IntervalIsTaken(sqrt, a.treated, a.control, DecisionZ(c, a.batches));
  }

  lemma EffectDecides(sqrt: real -> real, c: Config, step: nat, a: Arms)
    requires Looked(c, a) && Finished(sqrt, c, a) && a.treated.n <= c.maxN
    ensures Decided(c, EffectAt(sqrt, c, step, a))
  {
  }

  lemma LookStaysOnPlan<S>(sampler: Sampler<S>, c: Config, mode: ControlMode, step: nat, s: S, a: Arms)
    requires Ready(c, mode, a) && TakeLook(sampler, c, mode, step, s, a).Some?
    ensures ArmsOnPlan(c, mode, a.control, TakeLook(sampler, c, mode, step, s, a).value.1)
  {
    var b := TakeLook(sampler, c, mode, step, s, a).value.1;
    LookOnPlan(c, a.treated.n, a.batches);
    assert b.batches - 1 == a.batches;
    assert b.batches * c.batch == a.batches * c.batch + c.batch;
  }

  lemma {:induction false} RunEnds<S>(sqrt: real -> real, sampler: Sampler<S>, c: Config, mode: ControlMode, step: nat,
                                      s: S, a: Arms)
    requires Ready(c, mode, a)
    ensures var r := RunStep(sqrt, sampler, c, mode, step, s, a);
            r.Some? ==> Finished(sqrt, c, r.value.value) && ArmsOnPlan(c, mode, a.control, r.value.value)
    decreases c.maxN - a.treated.n
  {
    LookOnPlan(c, a.treated.n, a.batches);
    var look := TakeLook(sampler, c, mode, step, s, a);
    if look.Some? {
      LookStaysOnPlan(sampler, c, mode, step, s, a);
      if !Finished(sqrt, c, look.value.1) { RunEnds(sqrt, sampler, c, mode, step, look.value.0, look.value.1); }
    }
  }

  /** Everything a step's effect says, and nothing else, follows from its arms. */
  ghost predicate Reports(sqrt: real -> real, c: Config, mode: ControlMode, shared: Option<ArmResult>, step: nat, e: StepEffect) {
    e.step == step && Measured(sqrt, c, e) && Decided(c, e)
    && ArmsOnPlan(c, mode, shared, Arms(e.treated, e.control, e.nBatches))
  }

  /**
   A step's effect: its numbers are its arms', its verdict is the one they allow, and only a plan
   run to its end is left undecided.
   */
  lemma StepReports<S>(sqrt: real -> real, sampler: Sampler<S>, c: Config, mode: ControlMode,
                       shared: Option<ArmResult>, step: nat, s: S)
    requires ValidConfig(c)
    ensures var r := EstimateStep(sqrt, sampler, c, mode, shared, step, s);
            r.Some? ==> Reports(sqrt, c, mode, shared, step, r.value.value)
  {
    var starting := StartingControl(mode, shared);
    if starting.Some? {
      RunEnds(sqrt, sampler, c, mode, step, s, Starting(starting.value));
      var r := RunStep(sqrt, sampler, c, mode, step, s, Starting(starting.value));
      if r.Some? { EndReports(sqrt, c, mode, starting.value, step, r.value.value); }
    }
  }

  lemma EndReports(sqrt: real -> real, c: Config, mode: ControlMode, shared: Option<ArmResult>, step: nat, a: Arms)
    requires Looked(c, a) && Finished(sqrt, c, a) && ArmsOnPlan(c, mode, shared, a)
    ensures Reports(sqrt, c, mode, shared, step, EffectAt(sqrt, c, step, a))
  {
    PlanNotExceeded(c, mode, shared, a);
    EffectMeasures(sqrt, c, step, a);
    EffectDecides(sqrt, c, step, a);
  }

  lemma PlanNotExceeded(c: Config, mode: ControlMode, shared: Option<ArmResult>, a: Arms)
    requires ArmsOnPlan(c, mode, shared, a)
    ensures a.treated.n <= c.maxN
  {
  }

  // ---- One run ---------------------------------------------------------------------------------

  /** One effect for each of these steps, in order, each reporting its own arms. */
  ghost predicate AllReport(sqrt: real -> real, c: Config, mode: ControlMode, shared: Option<ArmResult>, steps: seq<nat>,
                            effects: seq<StepEffect>)
  {
    |effects| == |steps| && forall i | 0 <= i < |steps| :: Reports(sqrt, c, mode, shared, steps[i], effects[i])
  }

  lemma {:induction false} StepsReport<S>(sqrt: real -> real, sampler: Sampler<S>, c: Config, mode: ControlMode,
                                          shared: Option<ArmResult>, steps: seq<nat>, s: S)
    requires ValidConfig(c)
    ensures var r := RunSteps(sqrt, sampler, c, mode, shared, steps, s);
            r.Some? ==> AllReport(sqrt, c, mode, shared, steps, r.value.value)
  {
    if steps != [] {
      var first := EstimateStep(sqrt, sampler, c, mode, shared, steps[0], s);
      if first.Some? {
        StepReports(sqrt, sampler, c, mode, shared, steps[0], s);
        StepsReport(sqrt, sampler, c, mode, shared, steps[1..], first.value.state);
        var rest := RunSteps(sqrt, sampler, c, mode, shared, steps[1..], first.value.state);
        if rest.Some? {
          forall i | 0 < i < |steps| ensures Reports(sqrt, c, mode, shared, steps[i], ([first.value.value] + rest.value.value)[i]) {
            assert steps[1..][i - 1] == steps[i];
            assert ([first.value.value] + rest.value.value)[i] == rest.value.value[i - 1];
          }
        }
      }
    }
  }

  /** The steps are the tested ones, once each and in order. */
  predicate Lists(steps: seq<nat>, tested: seq<nat>) {
    && (forall i, j | 0 <= i < j < |steps| :: steps[i] < steps[j])
    && (forall step <- steps :: step in tested) && (forall step <- tested :: step in steps)
  }

  /** Some tested step's lower bound, at its own look's level, is above delta. */
  ghost predicate BeyondDelta(c: Config, effects: seq<StepEffect>, step: nat) {
    exists e <- effects :: e.step == step && e.decisionLow > c.delta
  }

  /** The arm all steps share: what the plan's whole length of control draws gave at `step`, asked before anything else. */
  predicate SharedIsDrawn<S>(sampler: Sampler<S>, c: Config, mode: ControlMode, step: nat, s: S, shared: Option<ArmResult>,
                             asked: seq<Draw>)
  {
    if !mode.Shared? then shared.None?
    else
      var draw := Draw(step, Control, c.maxN, 0);
      match sampler(s, draw)
      case None => false
      case Some((_, outcomes)) =>
        && |outcomes| == c.maxN
        && shared == Some(ArmResult(multiset(outcomes)[true], c.maxN))
        && asked != [] && asked[0] == draw
  }

  /**
   A run's estimate: one effect per tested step, in order, each saying what its arms say; and the
   blamed step is the earliest whose lower bound is above delta, or none when there is none.
   */
  lemma RunReports<S>(sqrt: real -> real, sampler: Sampler<S>, c: Config, mode: ControlMode, tested: seq<nat>, s: S)
    requires ValidConfig(c)
    ensures var r := EstimateRun(sqrt, sampler, c, mode, tested, s);
            r.Some? ==>
              var estimate := r.value.value;
              && (exists steps, shared :: Lists(steps, tested) && AllReport(sqrt, c, mode, shared, steps, estimate.effects)
                                          && SharedIsDrawn(sampler, c, mode, steps[0], s, shared, r.value.asked)
                                          && estimate.controlForkStep == if mode.Shared? then Some(steps[0]) else None)
              && estimate.mode == mode
              && (forall step :: estimate.blamed == Some(step) <==>
                    BeyondDelta(c, estimate.effects, step)
                    && forall other :: BeyondDelta(c, estimate.effects, other) ==> step <= other)
              && (estimate.blamed.None? <==> forall step :: !BeyondDelta(c, estimate.effects, step))
  {
    var r, steps := EstimateRun(sqrt, sampler, c, mode, tested, s), SortedSteps(tested);
    if r.Some? {
      SortedStepsIncrease(tested);
      assert Lists(steps, tested);
      var shared := SharedArmOf(sqrt, sampler, c, mode, tested, s);
      assert AllReport(sqrt, c, mode, shared, steps, r.value.value.effects);
      BlamedBeyond(sqrt, c, mode, shared, steps, r.value.value.effects);
    }
  }

  lemma SharedArmOf<S>(sqrt: real -> real, sampler: Sampler<S>, c: Config, mode: ControlMode, tested: seq<nat>, s: S)
      returns (shared: Option<ArmResult>)
    requires ValidConfig(c) && EstimateRun(sqrt, sampler, c, mode, tested, s).Some?
    ensures AllReport(sqrt, c, mode, shared, SortedSteps(tested), EstimateRun(sqrt, sampler, c, mode, tested, s).value.value.effects)
    ensures SharedIsDrawn(sampler, c, mode, SortedSteps(tested)[0], s, shared, EstimateRun(sqrt, sampler, c, mode, tested, s).value.asked)
  {
    var steps := SortedSteps(tested);
    if mode.Shared? {
      var drawn := Tallied(sampler, s, SharedDraw(c, steps[0])).value;
      PassesAreTrues(sampler(s, SharedDraw(c, steps[0])).value.1);
      shared := Some(drawn.1);
      StepsReport(sqrt, sampler, c, mode, shared, steps, drawn.0);
    } else {
      shared := None;
      StepsReport(sqrt, sampler, c, mode, shared, steps, s);
    }
  }

  lemma BlamedBeyond(sqrt: real -> real, c: Config, mode: ControlMode, shared: Option<ArmResult>, steps: seq<nat>,
                     effects: seq<StepEffect>)
    requires AllReport(sqrt, c, mode, shared, steps, effects)
    ensures forall step :: Blame(effects) == Some(step) <==>
              BeyondDelta(c, effects, step) && forall other :: BeyondDelta(c, effects, other) ==> step <= other
    ensures Blame(effects).None? <==> forall step :: !BeyondDelta(c, effects, step)
  {
    forall step ensures BlameworthyAt(effects, step) <==> BeyondDelta(c, effects, step) {
      forall e | e in effects ensures e.stopReason.Blameworthy? <==> e.decisionLow > c.delta {
        var i :| 0 <= i < |effects| && effects[i] == e;
        assert Reports(sqrt, c, mode, shared, steps[i], effects[i]);
      }
    }
    forall step ensures Blame(effects) == Some(step) <==>
              BeyondDelta(c, effects, step) && forall other :: BeyondDelta(c, effects, other) ==> step <= other
    {
      BlameIsEarliest(effects, step);
    }
    BlameIsEarliest(effects, 0);
  }

  /** A blamed step's measured effect is above delta. */
  lemma BlamedEffectExceedsDelta<S>(sqrt: real -> real, sampler: Sampler<S>, c: Config, mode: ControlMode,
                                    tested: seq<nat>, s: S, step: nat)
    requires ValidConfig(c) && IsSqrt(sqrt)
    ensures var r := EstimateRun(sqrt, sampler, c, mode, tested, s);
            r.Some? && r.value.value.blamed == Some(step) ==>
              step in tested && exists e <- r.value.value.effects :: e.step == step && e.effect > c.delta
  {
    var r, steps := EstimateRun(sqrt, sampler, c, mode, tested, s), SortedSteps(tested);
    if r.Some? && r.value.value.blamed == Some(step) {
      var effects := r.value.value.effects;
      var shared := SharedArmOf(sqrt, sampler, c, mode, tested, s);
      BlamedBeyond(sqrt, c, mode, shared, steps, effects);
      BeyondIsMeasured(sqrt, c, mode, shared, steps, effects, step);
      SortedStepsIncrease(tested);
    }
  }

  lemma BeyondIsMeasured(sqrt: real -> real, c: Config, mode: ControlMode, shared: Option<ArmResult>, steps: seq<nat>,
                         effects: seq<StepEffect>, step: nat)
    requires IsSqrt(sqrt) && AllReport(sqrt, c, mode, shared, steps, effects) && BeyondDelta(c, effects, step)
    ensures step in steps && exists e <- effects :: e.step == step && e.effect > c.delta
  {
    var e :| e in effects && e.step == step && e.decisionLow > c.delta;
    var i :| 0 <= i < |effects| && effects[i] == e;
    assert Reports(sqrt, c, mode, shared, steps[i], effects[i]);
    MeasuredIsAboveLow(sqrt, c, e);
  }

  lemma MeasuredIsAboveLow(sqrt: real -> real, c: Config, e: StepEffect)
    requires IsSqrt(sqrt) && Measured(sqrt, c, e)
    ensures e.decisionLow <= e.effect
  {
    Boundary.IntervalHoldsEffect(sqrt, e.treated, e.control, e.decisionZ);
  }
}
