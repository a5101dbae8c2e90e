/**
 Exactly which plans a recording answers, in every control mode; and a recording, with a shared
 control arm, that a plan of half its length cannot be answered from.
 */
module SharedControl {
  import opened Wrappers
  import opened Reals
  import opened Intervals
  import opened Estimator
  import opened Boundary
  import opened CostCurve
  import opened Rederivation
  import opened Truncation
  import opened LookPoints
  import opened Derivation

  /** The control arm a plan of `n` draws is measured against: the first `n` shared draws, or none of that kind. */
  function FirstControls(records: seq<Record>, mode: ControlMode, forkStep: nat, n: nat): Option<ArmResult> {
    var tape := Passed(Of(records, (forkStep, Control)));
    if mode.Shared? && n <= |tape| then Some(Tally(tape, n)) else None
  }

  lemma FirstControlsAre(records: seq<Record>, c: Config, mode: ControlMode, forkStep: nat, shared: Option<ArmResult>,
                         n: nat)
    requires SharedFrom(records, c, mode, forkStep, shared) && ValidLength(c, n)
    ensures SharedFrom(records, Derived(c, n), mode, forkStep, FirstControls(records, mode, forkStep, n))
    ensures StartingControl(mode, FirstControls(records, mode, forkStep, n)).Some?
  {
  }

  /** Every step of the list settles at some look of the plan within its own recorded draws. */
  ghost predicate AllSettle(sqrt: real -> real, records: seq<Record>, c: Config, mode: ControlMode,
                            shared: Option<ArmResult>, steps: seq<nat>)
  {
    forall step <- steps :: Settles(sqrt, c, mode, shared, TapesOf(records, step))
  }

  lemma AllOnTapeIffSettle(sqrt: real -> real, records: seq<Record>, c: Config, mode: ControlMode,
                           shared: Option<ArmResult>, steps: seq<nat>)
    requires ValidConfig(c) && StartingControl(mode, shared).Some?
    ensures AllOnTape(sqrt, records, c, mode, shared, steps) <==> AllSettle(sqrt, records, c, mode, shared, steps)
  {
    forall step
      ensures StepOnTape(sqrt, c, mode, shared, step, TapesOf(records, step)).Some?
              <==> Settles(sqrt, c, mode, shared, TapesOf(records, step))
    {
      StepServedIffSettles(sqrt, c, mode, shared, step, TapesOf(records, step));
    }
  }

  /**
   A recording answers a plan of `n` draws over some of its steps exactly when each of those steps,
   against the first `n` control draws, settles at one of the plan's look points (a whole number of
   batches, or `n`) within the treated draws that were recorded for it.
   */
  lemma PlanServedIffAllSettle<E(!new)>(sqrt: real -> real, run: Executor<E>, c: Config, mode: ControlMode,
                                        tested: seq<nat>, world: E, n: nat, some: seq<nat>)
    requires ValidLength(c, n) && some != [] && forall step <- some :: step in tested
    ensures var r := EstimateRun(sqrt, ForkSampler(run), c, mode, tested, Forked(world, []));
            r.Some? ==>
              SortedSteps(tested) != [] &&
              var records := r.value.state.records;
              var shared := FirstControls(records, mode, SortedSteps(tested)[0], n);
              (EstimateRun(sqrt, RecordedSampler(records), Derived(c, n), mode, some, Fresh).Some?
               <==> AllSettle(sqrt, records, Derived(c, n), mode, shared, SortedSteps(some)))
  {
    var r := EstimateRun(sqrt, ForkSampler(run), c, mode, tested, Forked(world, []));
    if r.Some? {
      var records, forkStep := r.value.state.records, SortedSteps(tested)[0];
      RecordedControls(sqrt, run, c, mode, tested, world);
      RecordedShared(sqrt, run, c, mode, tested, world);
      SortedStepsIncrease(tested);
      FirstControlsAre(records, c, mode, forkStep, SharedOf(r.value.value), n);
      var shared := FirstControls(records, mode, forkStep, n);
      ServedRun(sqrt, records, Derived(c, n), mode, some, forkStep, shared);
      AllOnTapeIffSettle(sqrt, records, Derived(c, n), mode, shared, SortedSteps(some));
    }
  }

  /**
   When an answered plan says its control arm was borrowed: exactly when the arm is shared and the
   plan's earliest step is not the one the recorded arm was forked at.
   */
  lemma ControlReusedIff<E(!new)>(sqrt: real -> real, run: Executor<E>, c: Config, mode: ControlMode,
                                  tested: seq<nat>, world: E, n: nat, some: seq<nat>)
    requires ValidLength(c, n) && some != [] && forall step <- some :: step in tested
    ensures var r := EstimateRun(sqrt, ForkSampler(run), c, mode, tested, Forked(world, []));
            r.Some? ==>
              && SortedSteps(tested) != [] && SortedSteps(some) != []
              && var part := EstimateRun(sqrt, RecordedSampler(r.value.state.records), Derived(c, n), mode, some, Fresh);
                 part.Some? ==>
                   (part.value.state.controlReused
                    <==> mode.Shared? && SortedSteps(some)[0] != SortedSteps(tested)[0])
  {
    var r := EstimateRun(sqrt, ForkSampler(run), c, mode, tested, Forked(world, []));
    SortedStepsIncrease(some);
    assert some[0] in SortedSteps(some);
    if r.Some? {
      var records, forkStep := r.value.state.records, SortedSteps(tested)[0];
      RecordedControls(sqrt, run, c, mode, tested, world);
      RecordedShared(sqrt, run, c, mode, tested, world);
      SortedStepsIncrease(tested);
      FirstControlsAre(records, c, mode, forkStep, SharedOf(r.value.value), n);
      ServedRun(sqrt, records, Derived(c, n), mode, some, forkStep, FirstControls(records, mode, forkStep, n));
    }
  }

  // ---- A recording that a plan of half its length exhausts ---------------------------------------

  const Default := Config(4, 16, 0.1, 1.96, OBrienFleming)

  function Repeated(n: nat, arm: Arm, passed: bool): seq<Record> {
    seq(n, _ => Record(0, arm, passed, 1))
  }

  /** Sixteen control draws, only the later half passing, and four failed treated ones. */
  function LateControl(): seq<Record> {
    Repeated(8, Control, false) + Repeated(8, Control, true) + Repeated(4, Treated, false)
  }

  lemma LateControlQueues()
    ensures Of(LateControl(), (0, Treated)) == Repeated(4, Treated, false)
    ensures Of(LateControl(), (0, Control)) == Repeated(8, Control, false) + Repeated(8, Control, true)
    ensures forall step | step != 0 :: Of(LateControl(), (step, Control)) == []
  {
    var a, b, d := Repeated(8, Control, false), Repeated(8, Control, true), Repeated(4, Treated, false);
    forall key: Key
      ensures Of(LateControl(), key) == if key == (0, Control) then a + b else if key == (0, Treated) then d else []
    {
      OfAdds(a + b, d, key);
      OfAdds(a, b, key);
      OfUniform(a, (0, Control), key);
      OfUniform(b, (0, Control), key);
      OfUniform(d, (0, Treated), key);
    }
  }

  lemma {:induction false} PassesRepeated(n: nat, passed: bool)
    ensures Passes(seq(n, _ => passed)) == if passed then n else 0
  {
    if n > 0 {
      PassesRepeated(n - 1, passed);
      assert seq(n, _ => passed)[..n - 1] == seq(n - 1, _ => passed);
    }
  }

  /** Against 8 of 16 passing, four failures clear the step; against 0 of 8 they settle nothing. */
  lemma LateControlVerdicts(sqrt: real -> real)
    requires IsSqrt(sqrt)
    ensures ValidConfig(Default) && ValidConfig(Derived(Default, 8))
    ensures Verdict(sqrt, Default, Arms(ArmResult(0, 4), Some(ArmResult(8, 16)), 1)).Some?
    ensures Verdict(sqrt, Derived(Default, 8), Arms(ArmResult(0, 4), Some(ArmResult(0, 8)), 1)).None?
  {
    ClearedVerdict(sqrt, Arms(ArmResult(0, 4), Some(ArmResult(8, 16)), 1));
    UnsettledVerdict(sqrt, Arms(ArmResult(0, 4), Some(ArmResult(0, 8)), 1));
  }

  lemma ClearedVerdict(sqrt: real -> real, a: Arms)
    requires IsSqrt(sqrt) && a == Arms(ArmResult(0, 4), Some(ArmResult(8, 16)), 1)
    ensures Looked(Default, a) && Verdict(sqrt, Default, a).Some?
  {
    ClearedByTheWhole(sqrt);
    assert IntervalOf(sqrt, a.treated, a.control, 1.96) == Newcombe(sqrt, 0, 4, 8, 16, 1.96);
  }

  lemma UnsettledVerdict(sqrt: real -> real, a: Arms)
    requires IsSqrt(sqrt) && a == Arms(ArmResult(0, 4), Some(ArmResult(0, 8)), 1)
    ensures Looked(Derived(Default, 8), a) && Verdict(sqrt, Derived(Default, 8), a).None?
  {
    UnsettledByTheHalf(sqrt);
    assert IntervalOf(sqrt, a.treated, a.control, 1.96) == Newcombe(sqrt, 0, 4, 0, 8, 1.96);
  }

  lemma ClearedByTheWhole(sqrt: real -> real)
    requires IsSqrt(sqrt)
    ensures Newcombe(sqrt, 0, 4, 8, 16, 1.96).high <= 0.1
  {
    var first, second := Wilson(sqrt, 0, 4, 1.96), Wilson(sqrt, 8, 16, 1.96);
    WilsonShape(sqrt, 0, 4, 1.96);
    WilsonShape(sqrt, 8, 16, 1.96);
    WilsonInverts(sqrt, 0, 4, 1.96, 0.5);
    WilsonInverts(sqrt, 8, 16, 1.96, 0.27);
    assert !NotRejected(0, 4, 1.96, 0.5);
    assert !NotRejected(8, 16, 1.96, 0.27);
    assert Estimate(0, 4) == 0.0 && Estimate(8, 16) == 0.5;
    HypotGrows(sqrt, first.high - 0.0, 0.5 - second.low, 0.5, 0.23);
    HypotBounds(sqrt, 0.5, 0.23);
    assert Sq(0.5) + Sq(0.23) <= Sq(0.6);
    SqOrder(Hypot(sqrt, 0.5, 0.23), 0.6);
  }

  lemma UnsettledByTheHalf(sqrt: real -> real)
    requires IsSqrt(sqrt)
    ensures Newcombe(sqrt, 0, 4, 0, 8, 1.96).low <= 0.1 < Newcombe(sqrt, 0, 4, 0, 8, 1.96).high
  {
    var first, second := Wilson(sqrt, 0, 4, 1.96), Wilson(sqrt, 0, 8, 1.96);
    WilsonShape(sqrt, 0, 4, 1.96);
    WilsonShape(sqrt, 0, 8, 1.96);
    WilsonInverts(sqrt, 0, 4, 1.96, 0.4);
    assert NotRejected(0, 4, 1.96, 0.4);
    NewcombeShape(sqrt, 0, 4, 0, 8, 1.96);
    HypotGrows(sqrt, 0.4, 0.0, first.high - 0.0, 0.0 - second.low);
    HypotBounds(sqrt, 0.4, 0.0);
    SqOrder(0.4, Hypot(sqrt, 0.4, 0.0));
  }

  lemma LateControlArm(c: Config)
    requires ValidConfig(c) && (c.maxN == 8 || c.maxN == 16)
    ensures SharedFrom(LateControl(), c, Shared, 0, Some(ArmResult(if c.maxN == 16 then 8 else 0, c.maxN)))
  {
    LateControlQueues();
    var tape := Passed(Of(LateControl(), (0, Control)));
    var a, b := seq(8, _ => false), seq(8, _ => true);
    assert tape == a + b;
    PassesRepeated(8, false);
    PassesRepeated(8, true);
    PassesAdds(a, b);
    assert (a + b)[..8] == a;
    assert (a + b)[..16] == a + b;
  }

  /** The first look of the failing step, whatever plan of batch 4 takes it. */
  lemma LateControlLook(c: Config, control: ArmResult)
    requires ValidConfig(c) && c.batch == 4 && c.maxN > 4 && Sampleable(control)
    ensures var f, a := TapeSampler(TapesOf(LateControl(), 0)), Starting(Some(control));
            && Ready(c, Shared, a)
            && TakeLook(f, c, Shared, 0, (), a) == Some(((), Arms(ArmResult(0, 4), Some(control), 1)))
  {
    LateControlQueues();
    var tape := Passed(Of(LateControl(), (0, Treated)));
    assert tape == seq(4, _ => false);
    assert tape[0..4] == tape;
    PassesRepeated(4, false);
  }

  /** The forks that record it: treated ones fail, and so do the first eight controls. */
  function LateForks(): Executor<()> {
    (world: (), draw: Draw, i: nat) => Some(((), Outcome(draw.arm.Control? && i >= 8, 1)))
  }

  function LateRecord(draw: Draw, i: nat): Record {
    Record(draw.step, draw.arm, draw.arm.Control? && i >= 8, 1)
  }

  /** The records of the forks of a draw from the `i`-th on. */
  function LateRecords(draw: Draw, i: nat): (r: seq<Record>)
    requires i <= draw.n
    ensures |r| == draw.n - i
  {
    seq(draw.n - i, k requires 0 <= k => LateRecord(draw, i + k))
  }

  lemma {:induction false} LateForksRun(draw: Draw, i: nat)
    requires i <= draw.n
    ensures RunForks(LateForks(), (), draw, i) == Some(((), LateRecords(draw, i)))
    decreases draw.n - i
  {
    if i < draw.n {
      LateForksRun(draw, i + 1);
      assert LateRecords(draw, i) == [LateRecord(draw, i)] + LateRecords(draw, i + 1);
    }
  }

  function LateControls(): seq<Record> { Repeated(8, Control, false) + Repeated(8, Control, true) }

  lemma LateControlDraw()
    ensures RunForks(LateForks(), (), SharedDraw(Default, 0), 0) == Some(((), LateControls()))
    ensures |Passed(LateControls())| == 16 && Passes(Passed(LateControls())) == 8
  {
    LateForksRun(SharedDraw(Default, 0), 0);
    assert LateRecords(SharedDraw(Default, 0), 0) == LateControls();
    var a, b := seq(8, _ => false), seq(8, _ => true);
    assert Passed(LateControls()) == a + b;
    PassesAdds(a, b);
    PassesRepeated(8, false);
    PassesRepeated(8, true);
  }

  lemma LateTreatedDraw()
    ensures RunForks(LateForks(), (), Draw(0, Treated, 4, 0), 0) == Some(((), Repeated(4, Treated, false)))
    ensures |Passed(Repeated(4, Treated, false))| == 4 && Passes(Passed(Repeated(4, Treated, false))) == 0
  {
    LateForksRun(Draw(0, Treated, 4, 0), 0);
    assert LateRecords(Draw(0, Treated, 4, 0), 0) == Repeated(4, Treated, false);
    assert Passed(Repeated(4, Treated, false)) == seq(4, _ => false);
    PassesRepeated(4, false);
  }

  lemma LateControlTally()
    ensures Tallied(ForkSampler(LateForks()), Forked((), []), SharedDraw(Default, 0))
            == Some((Forked((), LateControls()), ArmResult(8, 16)))
  {
    LateControlDraw();
    assert [] + LateControls() == LateControls();
  }

  lemma LateTreatedTally(before: seq<Record>)
    ensures Tallied(ForkSampler(LateForks()), Forked((), before), Draw(0, Treated, 4, 0))
            == Some((Forked((), before + Repeated(4, Treated, false)), ArmResult(0, 4)))
  {
    LateTreatedDraw();
  }

  lemma LateLook(before: seq<Record>)
    ensures var a := Starting(Some(ArmResult(8, 16)));
            && Ready(Default, Shared, a)
            && TakeLook(ForkSampler(LateForks()), Default, Shared, 0, Forked((), before), a)
               == Some((Forked((), before + Repeated(4, Treated, false)),
                        Arms(ArmResult(0, 4), Some(ArmResult(8, 16)), 1)))
  {
    LateTreatedTally(before);
  }

  lemma LateRunStep(sqrt: real -> real, before: seq<Record>)
    requires IsSqrt(sqrt)
    ensures var a := Starting(Some(ArmResult(8, 16)));
            && Ready(Default, Shared, a)
            && var r := RunStep(sqrt, ForkSampler(LateForks()), Default, Shared, 0, Forked((), before), a);
               r.Some? && r.value.state == Forked((), before + Repeated(4, Treated, false))
  {
    LateLook(before);
    LateControlVerdicts(sqrt);
  }

  lemma LateStep(sqrt: real -> real, before: seq<Record>)
    requires IsSqrt(sqrt)
    ensures ValidConfig(Default)
    ensures var r := EstimateStep(sqrt, ForkSampler(LateForks()), Default, Shared, Some(ArmResult(8, 16)), 0,
                                  Forked((), before));
            r.Some? && r.value.state == Forked((), before + Repeated(4, Treated, false))
  {
    LateRunStep(sqrt, before);
  }

  /** It is what a run under the default plan records: its step is cleared at the first look. */
  lemma LateControlIsRecorded(sqrt: real -> real)
    requires IsSqrt(sqrt)
    ensures ValidConfig(Default)
    ensures var r := EstimateRun(sqrt, ForkSampler(LateForks()), Default, Shared, [0], Forked((), []));
            r.Some? && r.value.state.records == LateControl()
  {
    OneStep();
    LateControlTally();
    LateStep(sqrt, LateControls());
    OneStepRun(sqrt, ForkSampler(LateForks()), Default, Some(ArmResult(8, 16)), 0, Forked((), LateControls()));
  }

  /** A profile of one step is that step. */
  lemma OneStepRun<S>(sqrt: real -> real, f: Sampler<S>, c: Config, shared: Option<ArmResult>, step: nat, s: S)
    requires ValidConfig(c) && EstimateStep(sqrt, f, c, Shared, shared, step, s).Some?
    ensures var r := RunSteps(sqrt, f, c, Shared, shared, [step], s);
            r.Some? && r.value.state == EstimateStep(sqrt, f, c, Shared, shared, step, s).value.state
  {
    assert [step][1..] == [];
  }

  /**
   With a shared control arm a shorter plan can need draws the recording lacks: this recorded run
   stopped early because its longer control arm cleared the step at once.
   */
  lemma SharedControlCanExhaust(sqrt: real -> real)
    requires IsSqrt(sqrt)
    ensures ValidConfig(Default) && ValidLength(Default, 8) && BelowBoundary(Default)
    ensures var r := EstimateRun(sqrt, ForkSampler(LateForks()), Default, Shared, [0], Forked((), []));
            && r.Some?
            && EstimateRun(sqrt, RecordedSampler(r.value.state.records), Derived(Default, 8), Shared, [0], Fresh).None?
  {
    LateControlIsRecorded(sqrt);
    OneStep();
    LateControlArm(Derived(Default, 8));
    HalfControlExhausts(sqrt);
    ServedRun(sqrt, LateControl(), Derived(Default, 8), Shared, [0], 0, Some(ArmResult(0, 8)));
  }

  lemma OneStep()
    ensures SortedSteps([0]) == [0] && 0 in SortedSteps([0])
  {
    assert SortedSteps([0][1..]) == [];
  }

  lemma HalfControlExhausts(sqrt: real -> real)
    requires IsSqrt(sqrt)
    ensures ValidConfig(Derived(Default, 8))
    ensures StepOnTape(sqrt, Derived(Default, 8), Shared, Some(ArmResult(0, 8)), 0, TapesOf(LateControl(), 0)).None?
  {
    LateControlVerdicts(sqrt);
    LateControlLook(Derived(Default, 8), ArmResult(0, 8));
    SecondLookLacks(sqrt, Derived(Default, 8), ArmResult(0, 8));
  }

  lemma SecondLookLacks(sqrt: real -> real, c: Config, control: ArmResult)
    requires ValidConfig(c) && c.batch == 4 && c.maxN > 4 && Sampleable(control)
    ensures var b := Arms(ArmResult(0, 4), Some(control), 1);
            && Ready(c, Shared, b)
            && RunStep(sqrt, TapeSampler(TapesOf(LateControl(), 0)), c, Shared, 0, (), b).None?
  {
    var tapes, b := TapesOf(LateControl(), 0), Arms(ArmResult(0, 4), Some(control), 1);
    LateControlQueues();
    assert tapes.treated == seq(4, _ => false);
    assert tapes.treated[..4] == tapes.treated;
    PassesRepeated(4, false);
    TapeLook(tapes, c, Shared, 0, b);
  }
}
