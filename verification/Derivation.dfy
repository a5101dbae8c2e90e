/**
 The cost curve over whole runs: from the records of one estimate, every shorter plan over any
 of its tested steps can be answered, and at full length only earlier or equal blame results.
 */
module Derivation {
  import opened Wrappers
  import opened Intervals
  import opened Estimator
  import opened SamplingCosts
  import opened Boundary
  import opened CostCurve
  import opened Rederivation
  import opened Truncation

  // ---- Which queues a recording has ------------------------------------------------------------

  lemma {:induction false} QueuedKeys(records: seq<Record>, key: Key)
    ensures key in Keys(records) <==> Of(records, key) != []
  {
    if records != [] {
      var init, last := records[..|records| - 1], records[|records| - 1];
      QueuedKeys(init, key);
      assert Keys(records) == Keys(init) + [(last.step, last.arm)];
    }
  }

  ghost predicate AsksFor(asked: seq<Draw>, key: Key) {
    exists d <- asked :: d.n > 0 && (d.step, d.arm) == key
  }

  lemma {:induction false} ExpandedKeys(asked: seq<Draw>, key: Key)
    ensures key in Expanded(asked) <==> AsksFor(asked, key)
  {
    if asked != [] {
      var init, last := asked[..|asked| - 1], asked[|asked| - 1];
      ExpandedKeys(init, key);
      assert asked == init + [last];
      var block := seq(last.n, _ => (last.step, last.arm));
      if last.n > 0 { assert block[0] == (last.step, last.arm); }
    }
  }

  ghost predicate OnlyTreated(asked: seq<Draw>) {
    forall d <- asked :: d.arm.Treated?
  }

  lemma {:induction false} StepAsks<S>(sqrt: real -> real, f: Sampler<S>, c: Config, mode: ControlMode, step: nat,
                                       s: S, a: Arms)
    requires Ready(c, mode, a)
    ensures var r := RunStep(sqrt, f, c, mode, step, s, a);
            r.Some? ==> if mode.PerStep? then AsksFor(r.value.asked, (step, Control)) else OnlyTreated(r.value.asked)
    decreases c.maxN - a.treated.n
  {
    LookOnPlan(c, a.treated.n, a.batches);
    var draws, look := LookDraws(c, mode, step, a.treated.n), TakeLook(f, c, mode, step, s, a);
    if mode.PerStep? {
      assert draws[1] in draws && draws[1] == Draw(step, Control, Take(c, a.treated.n), a.treated.n);
    }
    if look.Some? && !Finished(sqrt, c, look.value.1) {
      StepAsks(sqrt, f, c, mode, step, look.value.0, look.value.1);
    }
  }

  lemma {:induction false} StepsAsk<S>(sqrt: real -> real, f: Sampler<S>, c: Config, mode: ControlMode,
                                       shared: Option<ArmResult>, steps: seq<nat>, s: S)
    requires ValidConfig(c)
    ensures var r := RunSteps(sqrt, f, c, mode, shared, steps, s);
            r.Some? ==> if mode.PerStep? then forall step <- steps :: AsksFor(r.value.asked, (step, Control))
                        else OnlyTreated(r.value.asked)
  {
    if steps != [] {
      var first := EstimateStep(sqrt, f, c, mode, shared, steps[0], s);
      if first.Some? {
        StepAsks(sqrt, f, c, mode, steps[0], s, Starting(StartingControl(mode, shared).value));
        StepsAsk(sqrt, f, c, mode, shared, steps[1..], first.value.state);
      }
    }
  }

  /** The control arm a shared run recorded, and no other. */
  ghost predicate ControlledAt(records: seq<Record>, forkStep: nat) {
    && Of(records, (forkStep, Control)) != []
    && forall step | Of(records, (step, Control)) != [] :: step == forkStep
  }

  lemma RecordedControls<E(!new)>(sqrt: real -> real, run: Executor<E>, c: Config, mode: ControlMode,
                                  tested: seq<nat>, world: E)
    requires ValidConfig(c)
    ensures var r := EstimateRun(sqrt, ForkSampler(run), c, mode, tested, Forked(world, []));
            r.Some? ==>
              var steps, records := SortedSteps(tested), r.value.state.records;
              && steps != []
              && (mode.Shared? ==> ControlledAt(records, steps[0]))
              && forall step <- steps :: OwnControl(records, mode, step)
  {
    var s, f := Forked(world, []), ForkSampler(run);
    var r, steps := EstimateRun(sqrt, f, c, mode, tested, s), SortedSteps(tested);
    if r.Some? {
      var records := r.value.state.records;
      RecordsAreDraws(sqrt, run, c, mode, tested, world);
      forall key: Key ensures Of(records, key) != [] <==> AsksFor(r.value.asked, key) {
        QueuedKeys(records, key);
        ExpandedKeys(r.value.asked, key);
      }
      if mode.Shared? {
        var draw := SharedDraw(c, steps[0]);
        var drawn := Tallied(f, s, draw).value;
        StepsAsk(sqrt, f, c, mode, Some(drawn.1), steps, drawn.0);
        assert r.value.asked[0] == draw;
        assert draw in r.value.asked && AsksFor(r.value.asked, (steps[0], Control));
      } else {
        StepsAsk(sqrt, f, c, mode, None, steps, s);
      }
    }
  }

  // ---- Serving a whole run ---------------------------------------------------------------------

  /** `shared` is the recorded control arm's first `maxN` draws; other modes have none. */
  ghost predicate SharedFrom(records: seq<Record>, c: Config, mode: ControlMode, forkStep: nat,
                             shared: Option<ArmResult>)
  {
    if mode.Shared? then
      && ControlledAt(records, forkStep)
      && var tape := Passed(Of(records, (forkStep, Control)));
         c.maxN <= |tape| && shared == Some(Tally(tape, c.maxN))
    else shared == None
  }

  lemma SharedArm(records: seq<Record>, c: Config, step: nat, forkStep: nat, shared: Option<ArmResult>)
    requires ValidConfig(c) && SharedFrom(records, c, Shared, forkStep, shared)
    ensures var r := Tallied(RecordedSampler(records), Fresh, SharedDraw(c, step));
            && r.Some? && Some(r.value.1) == shared
            && (r.value.0.controlReused <==> step != forkStep)
            && forall other :: TakenOf(r.value.0, (other, Treated)) == 0
  {
    LastControlHeld(records);
    var queue := Of(records, (forkStep, Control));
    assert KeyOf(records, step, Control) == Some((forkStep, Control));
    PassedSlice(queue, 0, c.maxN);
    assert Passed(queue)[0..c.maxN] == Passed(queue)[..c.maxN];
    var served := Serve(records, Fresh, SharedDraw(c, step)).value;
    assert served.1 == Passed(queue[0..c.maxN]);
  }

  /** A run is answered from a recording exactly when each of its steps is, each from its own tapes. */
  lemma ServedRun(sqrt: real -> real, records: seq<Record>, c: Config, mode: ControlMode, tested: seq<nat>,
                  forkStep: nat, shared: Option<ArmResult>)
    requires ValidConfig(c) && tested != [] && SharedFrom(records, c, mode, forkStep, shared)
    requires forall step <- tested :: OwnControl(records, mode, step)
    ensures var r, steps := EstimateRun(sqrt, RecordedSampler(records), c, mode, tested, Fresh), SortedSteps(tested);
            && (r.Some? <==> AllOnTape(sqrt, records, c, mode, shared, steps))
            && (r.Some? ==> EffectsOnTape(sqrt, records, c, mode, shared, steps, r.value.value.effects))
            && (r.Some? ==> steps != [] && (r.value.state.controlReused <==> mode.Shared? && steps[0] != forkStep))
  {
    var steps := SortedSteps(tested);
    SortedStepsIncrease(tested);
    assert tested[0] in steps;
    if mode.Shared? {
      SharedArm(records, c, steps[0], forkStep, shared);
      var drawn := Tallied(RecordedSampler(records), Fresh, SharedDraw(c, steps[0])).value;
      RecordedSteps(sqrt, records, c, mode, shared, steps, drawn.0);
    } else {
      RecordedSteps(sqrt, records, c, mode, shared, steps, Fresh);
    }
  }

  // ---- Shorter plans ---------------------------------------------------------------------------

  ghost predicate EffectDerives(sqrt: real -> real, records: seq<Record>, c: Config, mode: ControlMode,
                                shared: Option<ArmResult>, n: nat, recorded: seq<StepEffect>, part: StepEffect)
    requires ValidConfig(c)
  {
    exists e <- recorded ::
      e.step == part.step
      && EffectTruncates(sqrt, c, mode, shared, part.step, TapesOf(records, part.step), n, e, part)
  }

  lemma EffectTruncated(sqrt: real -> real, records: seq<Record>, c: Config, mode: ControlMode,
                        shared: Option<ArmResult>, n: nat, steps: seq<nat>, recorded: seq<StepEffect>, step: nat)
    requires IsSqrt(sqrt) && ValidLength(c, n) && BelowBoundary(c)
    requires EffectsOnTape(sqrt, records, c, mode, shared, steps, recorded) && step in steps
    ensures var r := StepOnTape(sqrt, Derived(c, n), mode, shared, step, TapesOf(records, step));
            r.Some? && r.value.value.step == step
            && EffectDerives(sqrt, records, c, mode, shared, n, recorded, r.value.value)
  {
    var i :| 0 <= i < |steps| && steps[i] == step;
    assert EffectOnTape(sqrt, records, c, mode, shared, step, recorded[i]);
    StepTruncates(sqrt, c, mode, shared, step, TapesOf(records, step), n);
    EffectIsPaid(sqrt, TapeSampler(TapesOf(records, step)), c, mode, shared, step, ());
    EffectIsPaid(sqrt, TapeSampler(TapesOf(records, step)), Derived(c, n), mode, shared, step, ());
    assert recorded[i] in recorded;
  }

  /** The shared arm an estimate was taken against. */
  function SharedOf(estimate: RunEstimate): Option<ArmResult> {
    if estimate.mode.Shared? && estimate.effects != [] then estimate.effects[0].control else None
  }

  lemma RecordedShared<E(!new)>(sqrt: real -> real, run: Executor<E>, c: Config, mode: ControlMode,
                                tested: seq<nat>, world: E)
    requires ValidConfig(c)
    ensures var r := EstimateRun(sqrt, ForkSampler(run), c, mode, tested, Forked(world, []));
            r.Some? ==> SortedSteps(tested) != []
                        && SharedFrom(r.value.state.records, c, mode, SortedSteps(tested)[0], SharedOf(r.value.value))
  {
    var steps, r := SortedSteps(tested), EstimateRun(sqrt, ForkSampler(run), c, mode, tested, Forked(world, []));
    RecordedControls(sqrt, run, c, mode, tested, world);
    if r.Some? && mode.Shared? {
      EstimateRoundTrips(sqrt, run, c, mode, tested, world);
      var records := r.value.state.records;
      var f, draw := RecordedSampler(records), SharedDraw(c, steps[0]);
      var drawn := Tallied(f, Fresh, draw);
      assert drawn.Some?;
      var queue := Of(records, (steps[0], Control));
      assert c.maxN <= |queue|;
      SharedArm(records, c, steps[0], steps[0], Some(Tally(Passed(queue), c.maxN)));
      StepsPaid(sqrt, f, c, mode, Some(drawn.value.1), steps, drawn.value.0);
    }
  }

  /**
   A recording answers every shorter plan over any of its tested steps: no draw is missing, and
   each step's effect is the nominal plan's, cut at `n` draws. With a shared control arm this
   holds at the recorded length, where the same control draws are used.
   */
  lemma ShorterPlansAreServed<E(!new)>(sqrt: real -> real, run: Executor<E>, c: Config, mode: ControlMode,
                                       tested: seq<nat>, world: E, n: nat, some: seq<nat>)
    requires IsSqrt(sqrt) && ValidLength(c, n) && BelowBoundary(c) && (mode.Shared? ==> n == c.maxN)
    requires some != [] && forall step <- some :: step in tested
    ensures var r := EstimateRun(sqrt, ForkSampler(run), c, mode, tested, Forked(world, []));
            r.Some? ==>
              var records, shared := r.value.state.records, SharedOf(r.value.value);
              var part := EstimateRun(sqrt, RecordedSampler(records), Derived(c, n), mode, some, Fresh);
              && part.Some?
              && |part.value.value.effects| == |SortedSteps(some)|
              && forall i | 0 <= i < |SortedSteps(some)| ::
                   && part.value.value.effects[i].step == SortedSteps(some)[i]
                   && EffectDerives(sqrt, records, c, mode, shared, n, r.value.value.effects,
                                    part.value.value.effects[i])
  {
    var r := EstimateRun(sqrt, ForkSampler(run), c, mode, tested, Forked(world, []));
    if r.Some? {
      var records, shared, steps := r.value.state.records, SharedOf(r.value.value), SortedSteps(tested);
      EstimateRoundTrips(sqrt, run, c, mode, tested, world);
      RecordedControls(sqrt, run, c, mode, tested, world);
      RecordedShared(sqrt, run, c, mode, tested, world);
      SortedStepsIncrease(tested);
      SortedStepsIncrease(some);
      ServedRun(sqrt, records, c, mode, tested, steps[0], shared);
      ServedRun(sqrt, records, Derived(c, n), mode, some, steps[0], shared);
      forall step | step in some
        ensures var q := StepOnTape(sqrt, Derived(c, n), mode, shared, step, TapesOf(records, step));
                q.Some? && q.value.value.step == step
                && EffectDerives(sqrt, records, c, mode, shared, n, r.value.value.effects, q.value.value)
      {
        EffectTruncated(sqrt, records, c, mode, shared, n, steps, r.value.value.effects, step);
      }
      ServedEffects(sqrt, records, c, mode, shared, n, some, r.value.value.effects,
                    EstimateRun(sqrt, RecordedSampler(records), Derived(c, n), mode, some, Fresh));
    }
  }

  lemma ServedEffects(sqrt: real -> real, records: seq<Record>, c: Config, mode: ControlMode,
                      shared: Option<ArmResult>, n: nat, some: seq<nat>, recorded: seq<StepEffect>,
                      part: Option<Ran<Served, RunEstimate>>)
    requires ValidLength(c, n) && forall step :: step in SortedSteps(some) <==> step in some
    requires part.Some? <==> AllOnTape(sqrt, records, Derived(c, n), mode, shared, SortedSteps(some))
    requires part.Some? ==>
               EffectsOnTape(sqrt, records, Derived(c, n), mode, shared, SortedSteps(some), part.value.value.effects)
    requires forall step <- some ::
               var q := StepOnTape(sqrt, Derived(c, n), mode, shared, step, TapesOf(records, step));
               q.Some? && q.value.value.step == step
               && EffectDerives(sqrt, records, c, mode, shared, n, recorded, q.value.value)
    ensures part.Some? && |part.value.value.effects| == |SortedSteps(some)|
    ensures forall i | 0 <= i < |SortedSteps(some)| ::
              && part.value.value.effects[i].step == SortedSteps(some)[i]
              && EffectDerives(sqrt, records, c, mode, shared, n, recorded, part.value.value.effects[i])
  {
    var steps := SortedSteps(some);
    forall i | 0 <= i < |steps|
      ensures part.value.value.effects[i].step == steps[i]
              && EffectDerives(sqrt, records, c, mode, shared, n, recorded, part.value.value.effects[i])
    {
      assert steps[i] in some;
      assert EffectOnTape(sqrt, records, Derived(c, n), mode, shared, steps[i], part.value.value.effects[i]);
    }
  }

  /**
   Re-derived at the nominal level and full length, a run blames a step no later than the one
   the boundary blamed, on every shortlist that still holds that step.
   */
  lemma NominalBlameIsNoLater<E(!new)>(sqrt: real -> real, run: Executor<E>, c: Config, mode: ControlMode,
                                       tested: seq<nat>, world: E, some: seq<nat>)
    requires IsSqrt(sqrt) && ValidConfig(c) && BelowBoundary(c)
    requires forall step <- some :: step in tested
    ensures var r := EstimateRun(sqrt, ForkSampler(run), c, mode, tested, Forked(world, []));
            r.Some? && r.value.value.blamed.Some? && r.value.value.blamed.value in some ==>
              var part := EstimateRun(sqrt, RecordedSampler(r.value.state.records), AtNominal(c), mode, some, Fresh);
              && part.Some?
              && part.value.value.blamed.Some?
              && part.value.value.blamed.value <= r.value.value.blamed.value
  {
    var r := EstimateRun(sqrt, ForkSampler(run), c, mode, tested, Forked(world, []));
    if r.Some? && r.value.value.blamed.Some? && r.value.value.blamed.value in some {
      assert Derived(c, c.maxN) == AtNominal(c);
      ShorterPlansAreServed(sqrt, run, c, mode, tested, world, c.maxN, some);
      RunBlames(sqrt, ForkSampler(run), c, mode, tested, Forked(world, []));
      RunBlames(sqrt, RecordedSampler(r.value.state.records), AtNominal(c), mode, some, Fresh);
      SortedStepsIncrease(some);
      var part := EstimateRun(sqrt, RecordedSampler(r.value.state.records), AtNominal(c), mode, some, Fresh);
      var i :| 0 <= i < |SortedSteps(some)| && SortedSteps(some)[i] == r.value.value.blamed.value;
      BlameNoLater(sqrt, r.value.state.records, c, mode, SharedOf(r.value.value), SortedSteps(tested),
                   r.value.value.effects, part.value.value.effects, i);
    }
  }

  lemma RunBlames<S>(sqrt: real -> real, f: Sampler<S>, c: Config, mode: ControlMode, tested: seq<nat>, s: S)
    requires ValidConfig(c)
    ensures var r, steps := EstimateRun(sqrt, f, c, mode, tested, s), SortedSteps(tested);
            r.Some? ==>
              && r.value.value.blamed == Blame(r.value.value.effects)
              && Increasing(steps)
              && |r.value.value.effects| == |steps|
              && forall i | 0 <= i < |steps| :: r.value.value.effects[i].step == steps[i]
  {
    CostsAreExact(sqrt, f, c, mode, tested, s);
    SortedStepsIncrease(tested);
  }

  lemma BlameNoLater(sqrt: real -> real, records: seq<Record>, c: Config, mode: ControlMode,
                     shared: Option<ArmResult>, steps: seq<nat>, effects: seq<StepEffect>, parts: seq<StepEffect>,
                     i: nat)
    requires ValidConfig(c) && i < |parts| && Blame(effects) == Some(parts[i].step)
    requires EffectDerives(sqrt, records, c, mode, shared, c.maxN, effects, parts[i])
    requires Increasing(steps) && |effects| == |steps| && forall i | 0 <= i < |steps| :: effects[i].step == steps[i]
    ensures Blame(parts).Some? && Blame(parts).value <= parts[i].step
  {
    var blamed := parts[i].step;
    BlameIsEarliest(effects, blamed);
    BlameCarries(sqrt, records, c, mode, shared, effects, parts[i], steps);
    assert parts[i] in parts;
    assert BlameworthyAt(parts, blamed);
    BlameIsEarliest(parts, Blame(parts).GetOr(0));
  }

  lemma BlameCarries(sqrt: real -> real, records: seq<Record>, c: Config, mode: ControlMode,
                     shared: Option<ArmResult>, effects: seq<StepEffect>, part: StepEffect, steps: seq<nat>)
    requires ValidConfig(c) && EffectDerives(sqrt, records, c, mode, shared, c.maxN, effects, part)
    requires BlameworthyAt(effects, part.step)
    requires Increasing(steps) && |effects| == |steps| && forall i | 0 <= i < |steps| :: effects[i].step == steps[i]
    ensures part.stopReason.Blameworthy?
  {
    var e :| e in effects && e.step == part.step
             && EffectTruncates(sqrt, c, mode, shared, part.step, TapesOf(records, part.step), c.maxN, e, part);
    var b :| b in effects && b.step == part.step && b.stopReason.Blameworthy?;
    var i :| 0 <= i < |effects| && effects[i] == e;
    var j :| 0 <= j < |effects| && effects[j] == b;
    assert steps[i] == steps[j];
    EffectIsPaid(sqrt, TapeSampler(TapesOf(records, part.step)), AtNominal(c), mode, shared, part.step, ());
  }
}
