/**
 What a recording holds is enough to re-derive shorter plans: each step's re-derivation stops
 where the nominal plan would have, or at the shorter plan's end.
 */
module Truncation {
  import opened Wrappers
  import opened Intervals
  import opened Estimator
  import opened SamplingCosts
  import opened Boundary
  import opened CostCurve

  /** `config` truncated to `maxN = n` at the nominal boundary. */
  function Derived(c: Config, n: nat): Config {
    c.(maxN := n, batch := if c.batch <= n then c.batch else n, boundary := Nominal)
  }

  // ---- One step on a tape of outcomes ----------------------------------------------------------

  /** The outcomes of one step's two arms, in draw order. */
  datatype Tapes = Tapes(treated: seq<bool>, control: seq<bool>)
  {
    function For(arm: Arm): seq<bool> { if arm.Treated? then treated else control }
  }

  function TapeSampler(tapes: Tapes): Sampler<()> {
    (u: (), draw: Draw) =>
      var tape := tapes.For(draw.arm);
      if draw.offset + draw.n > |tape| then None else Some(((), tape[draw.offset..draw.offset + draw.n]))
  }

  function TapesOf(records: seq<Record>, step: nat): Tapes {
    Tapes(Passed(Of(records, (step, Treated))), Passed(Of(records, (step, Control))))
  }

  function StepOnTape(sqrt: real -> real, c: Config, mode: ControlMode, shared: Option<ArmResult>, step: nat,
                      tapes: Tapes): Option<Ran<(), StepEffect>>
    requires ValidConfig(c)
  {
    EstimateStep(sqrt, TapeSampler(tapes), c, mode, shared, step, ())
  }

  function Tally(tape: seq<bool>, n: nat): ArmResult
    requires n <= |tape|
  {
    ArmResult(Passes(tape[..n]), n)
  }

  /** Both sampled arms are tallies of their tapes' beginnings. */
  ghost predicate OnTapes(tapes: Tapes, mode: ControlMode, treated: ArmResult, control: Option<ArmResult>) {
    && treated.n <= |tapes.treated| && treated == Tally(tapes.treated, treated.n)
    && (mode.PerStep? ==> treated.n <= |tapes.control| && control == Some(Tally(tapes.control, treated.n)))
  }

  lemma {:induction false} PassesAdds(a: seq<bool>, b: seq<bool>)
    ensures Passes(a + b) == Passes(a) + Passes(b)
  {
    if b == [] {
      assert a + b == a;
    } else {
      assert (a + b)[..|a + b| - 1] == a + b[..|b| - 1];
      PassesAdds(a, b[..|b| - 1]);
    }
  }

  lemma TallyExtends(tape: seq<bool>, n: nat, more: nat)
    requires n + more <= |tape|
    ensures Extended(Tally(tape, n), ArmResult(Passes(tape[n..n + more]), more)) == Tally(tape, n + more)
  {
    assert tape[..n + more] == tape[..n] + tape[n..n + more];
    PassesAdds(tape[..n], tape[n..n + more]);
  }

  /** A look reads the next outcomes of each tape, if there are enough. */
  lemma TapeLook(tapes: Tapes, c: Config, mode: ControlMode, step: nat, a: Arms)
    requires Ready(c, mode, a) && OnTapes(tapes, mode, a.treated, a.control) && a.treated.n <= c.maxN
    ensures var look, n := TakeLook(TapeSampler(tapes), c, mode, step, (), a), a.treated.n + Take(c, a.treated.n);
            && (look.Some? <==> n <= |tapes.treated| && (mode.PerStep? ==> n <= |tapes.control|))
            && (look.Some? ==> OnTapes(tapes, mode, look.value.1.treated, look.value.1.control))
  {
    if TakeLook(TapeSampler(tapes), c, mode, step, (), a).Some? { TapeLookExtends(tapes, c, mode, step, a); }
  }

  lemma TapeLookExtends(tapes: Tapes, c: Config, mode: ControlMode, step: nat, a: Arms)
    requires Ready(c, mode, a) && OnTapes(tapes, mode, a.treated, a.control) && a.treated.n <= c.maxN
    requires TakeLook(TapeSampler(tapes), c, mode, step, (), a).Some?
    ensures var b := TakeLook(TapeSampler(tapes), c, mode, step, (), a).value.1;
            OnTapes(tapes, mode, b.treated, b.control)
  {
    var n, take := a.treated.n, Take(c, a.treated.n);
    TallyExtends(tapes.treated, n, take);
    if mode.PerStep? { TallyExtends(tapes.control, n, take); }
  }

  /** `part` is `whole` cut at `n` draws. */
  ghost predicate Truncates(tapes: Tapes, mode: ControlMode, n: nat, whole: Arms, part: Arms) {
    && part.treated.n == (if whole.treated.n <= n then whole.treated.n else n)
    && OnTapes(tapes, mode, part.treated, part.control)
    && (whole.treated.n <= n ==> part == whole)
  }

  /** What both plans do from the same arms. */
  ghost predicate TruncatesRun(sqrt: real -> real, tapes: Tapes, c: Config, mode: ControlMode, step: nat, a: Arms, n: nat)
    requires Ready(c, mode, a) && Ready(Derived(c, n), mode, a)
  {
    var whole, part := RunStep(sqrt, TapeSampler(tapes), c, mode, step, (), a),
                       RunStep(sqrt, TapeSampler(tapes), Derived(c, n), mode, step, (), a);
    whole.Some? ==> part.Some? && Truncates(tapes, mode, n, whole.value.value, part.value.value)
  }

  ghost predicate Truncatable(tapes: Tapes, c: Config, mode: ControlMode, a: Arms, n: nat) {
    && c.boundary.Nominal? && Ready(c, mode, a) && Ready(Derived(c, n), mode, a)
    && OnTapes(tapes, mode, a.treated, a.control)
    && a.treated.n < n <= c.maxN
  }

  /** The shorter plan ends inside the longer one's next batch. */
  lemma CutShort(sqrt: real -> real, tapes: Tapes, c: Config, mode: ControlMode, step: nat, a: Arms, n: nat)
    requires Truncatable(tapes, c, mode, a, n)
    requires Take(Derived(c, n), a.treated.n) < Take(c, a.treated.n) && a.treated.n + Take(Derived(c, n), a.treated.n) == n
    ensures TruncatesRun(sqrt, tapes, c, mode, step, a, n)
  {
    var d, f := Derived(c, n), TapeSampler(tapes);
    TapeLook(tapes, c, mode, step, a);
    TapeLook(tapes, d, mode, step, a);
    StepReaches(sqrt, f, c, mode, step, (), a);
  }

  /** However a run goes on, it has taken at least its first look. */
  lemma StepReaches<S>(sqrt: real -> real, f: Sampler<S>, c: Config, mode: ControlMode, step: nat, s: S, a: Arms)
    requires Ready(c, mode, a)
    ensures a.treated.n <= c.maxN
    ensures var r := RunStep(sqrt, f, c, mode, step, s, a);
            r.Some? ==> TakeLook(f, c, mode, step, s, a).Some?
                        && a.treated.n + Take(c, a.treated.n) <= r.value.value.treated.n
  {
    LookOnPlan(c, a.treated.n, a.batches);
    var look := TakeLook(f, c, mode, step, s, a);
    if look.Some? && !Finished(sqrt, c, look.value.1) {
      StepPaid(sqrt, f, c, mode, step, look.value.0, look.value.1);
    }
  }

  /** The shorter plan on the same tape stops where the nominal one does, or at its own end. */
  lemma {:induction false} TruncatedRun(sqrt: real -> real, tapes: Tapes, c: Config, mode: ControlMode, step: nat,
                                        a: Arms, n: nat)
    requires Truncatable(tapes, c, mode, a, n) && c.batch <= n
    ensures TruncatesRun(sqrt, tapes, c, mode, step, a, n)
    decreases c.maxN - a.treated.n
  {
    var d, f := Derived(c, n), TapeSampler(tapes);
    if Take(d, a.treated.n) < Take(c, a.treated.n) {
      CutShort(sqrt, tapes, c, mode, step, a, n);
    } else {
      TapeLook(tapes, c, mode, step, a);
      SameLook(tapes, c, mode, step, a, n);
      LookOnPlan(c, a.treated.n, a.batches);
      LookOnPlan(d, a.treated.n, a.batches);
      var look := TakeLook(f, c, mode, step, (), a);
      if look.Some? {
        var b := look.value.1;
        SameVerdict(sqrt, c, b, n);
        if !Finished(sqrt, c, b) && b.treated.n < n {
          TruncatedRun(sqrt, tapes, c, mode, step, b, n);
          AfterSameLook(sqrt, tapes, c, mode, step, a, n, b);
        } else {
          LastSameLook(sqrt, tapes, c, mode, step, a, n, b);
        }
      }
    }
  }

  /** Both plans took the same look and go on. */
  lemma AfterSameLook(sqrt: real -> real, tapes: Tapes, c: Config, mode: ControlMode, step: nat, a: Arms, n: nat, b: Arms)
    requires Truncatable(tapes, c, mode, a, n) && Ready(c, mode, b) && Ready(Derived(c, n), mode, b)
    requires TakeLook(TapeSampler(tapes), c, mode, step, (), a) == Some(((), b))
    requires TakeLook(TapeSampler(tapes), Derived(c, n), mode, step, (), a) == Some(((), b))
    requires !Finished(sqrt, c, b) && !Finished(sqrt, Derived(c, n), b)
    requires TruncatesRun(sqrt, tapes, c, mode, step, b, n)
    ensures TruncatesRun(sqrt, tapes, c, mode, step, a, n)
  {
  }

  /** The same look is the shorter plan's last, and perhaps the longer one's. */
  lemma LastSameLook(sqrt: real -> real, tapes: Tapes, c: Config, mode: ControlMode, step: nat, a: Arms, n: nat, b: Arms)
    requires Truncatable(tapes, c, mode, a, n) && Looked(c, b) && Looked(Derived(c, n), b)
    requires TakeLook(TapeSampler(tapes), c, mode, step, (), a) == Some(((), b))
    requires TakeLook(TapeSampler(tapes), Derived(c, n), mode, step, (), a) == Some(((), b))
    requires Finished(sqrt, c, b) || b.treated.n >= n
    requires Finished(sqrt, c, b) ==> Finished(sqrt, Derived(c, n), b)
    requires b.treated.n <= n && OnTapes(tapes, mode, b.treated, b.control)
    requires !Finished(sqrt, c, b) ==> Ready(c, mode, b)
    ensures TruncatesRun(sqrt, tapes, c, mode, step, a, n)
  {
    if !Finished(sqrt, c, b) { StepReaches(sqrt, TapeSampler(tapes), c, mode, step, (), b); }
  }

  lemma SameLook(tapes: Tapes, c: Config, mode: ControlMode, step: nat, a: Arms, n: nat)
    requires c.boundary.Nominal? && Ready(c, mode, a) && a.treated.n < n <= c.maxN && c.batch <= n
    requires Take(Derived(c, n), a.treated.n) == Take(c, a.treated.n)
    ensures Ready(Derived(c, n), mode, a)
    ensures TakeLook(TapeSampler(tapes), Derived(c, n), mode, step, (), a)
            == TakeLook(TapeSampler(tapes), c, mode, step, (), a)
  {
  }

  lemma SameVerdict(sqrt: real -> real, c: Config, b: Arms, n: nat)
    requires c.boundary.Nominal? && Looked(c, b) && Looked(Derived(c, n), b)
    ensures Verdict(sqrt, Derived(c, n), b) == Verdict(sqrt, c, b)
    ensures forall step :: EffectAt(sqrt, Derived(c, n), step, b) == EffectAt(sqrt, c, step, b)
  {
  }

  /** One step's re-derived effect, beside the one recorded under `c` and the nominal one. */
  ghost predicate EffectTruncates(sqrt: real -> real, c: Config, mode: ControlMode, shared: Option<ArmResult>, step: nat,
                                  tapes: Tapes, n: nat, recorded: StepEffect, part: StepEffect)
    requires ValidConfig(c)
  {
    && StepOnTape(sqrt, AtNominal(c), mode, shared, step, tapes).Some?
    && var nominal := StepOnTape(sqrt, AtNominal(c), mode, shared, step, tapes).value.value;
       && EffectNoLater(recorded, nominal)
       && part.treated.n == (if nominal.treated.n <= n then nominal.treated.n else n)
       && OnTapes(tapes, mode, part.treated, part.control)
       && (nominal.treated.n <= n ==> part == nominal)
  }

  predicate ValidLength(c: Config, n: nat) { ValidConfig(c) && 0 < n <= c.maxN }

  lemma FirstBatchCut(sqrt: real -> real, tapes: Tapes, c: Config, mode: ControlMode, step: nat, a: Arms, n: nat)
    requires Truncatable(tapes, c, mode, a, n) && (a.batches == 0 || c.batch <= n)
    ensures TruncatesRun(sqrt, tapes, c, mode, step, a, n)
  {
    if c.batch <= n { TruncatedRun(sqrt, tapes, c, mode, step, a, n); } else { CutShort(sqrt, tapes, c, mode, step, a, n); }
  }

  lemma RunTruncates(sqrt: real -> real, tapes: Tapes, c: Config, mode: ControlMode, step: nat, a: Arms, n: nat)
    requires Truncatable(tapes, AtNominal(c), mode, a, n) && a.batches == 0
    ensures Derived(AtNominal(c), n) == Derived(c, n)
    ensures var nominal, part := RunStep(sqrt, TapeSampler(tapes), AtNominal(c), mode, step, (), a),
                                 RunStep(sqrt, TapeSampler(tapes), Derived(c, n), mode, step, (), a);
            nominal.Some? ==>
              && part.Some?
              && Truncates(tapes, mode, n, nominal.value.value, part.value.value)
              && (nominal.value.value.treated.n <= n ==>
                    EffectAt(sqrt, Derived(c, n), step, part.value.value)
                    == EffectAt(sqrt, AtNominal(c), step, nominal.value.value))
  {
    FirstBatchCut(sqrt, tapes, AtNominal(c), mode, step, a, n);
    var nominal := RunStep(sqrt, TapeSampler(tapes), AtNominal(c), mode, step, (), a);
    if nominal.Some? && nominal.value.value.treated.n <= n {
      SameVerdict(sqrt, AtNominal(c), nominal.value.value, n);
    }
  }

  lemma StartsTruncatable(tapes: Tapes, c: Config, mode: ControlMode, shared: Option<ArmResult>, n: nat)
    requires ValidLength(c, n) && StartingControl(mode, shared).Some?
    ensures Truncatable(tapes, AtNominal(c), mode, Starting(StartingControl(mode, shared).value), n)
  {
    assert tapes.treated[..0] == [] && tapes.control[..0] == [];
  }

  /** A step that could be estimated under `c` can be under every shorter plan. */
  lemma StepTruncates(sqrt: real -> real, c: Config, mode: ControlMode, shared: Option<ArmResult>, step: nat,
                      tapes: Tapes, n: nat)
    requires IsSqrt(sqrt) && ValidLength(c, n) && BelowBoundary(c)
    ensures var recorded, part := StepOnTape(sqrt, c, mode, shared, step, tapes),
                                  StepOnTape(sqrt, Derived(c, n), mode, shared, step, tapes);
            recorded.Some? ==>
              part.Some? && EffectTruncates(sqrt, c, mode, shared, step, tapes, n, recorded.value.value, part.value.value)
  {
    StepsCouple(sqrt, TapeSampler(tapes), c, mode, shared, step, ());
    var starting := StartingControl(mode, shared);
    if starting.Some? {
      StartsTruncatable(tapes, c, mode, shared, n);
      RunTruncates(sqrt, tapes, c, mode, step, Starting(starting.value), n);
    }
  }

  // ---- A recording, step by step, is a tape ----------------------------------------------------

  /** Nothing of this step has been served beyond the arms' own draws. */
  ghost predicate Synced(st: Served, mode: ControlMode, step: nat, n: nat) {
    TakenOf(st, (step, Treated)) == n && (mode.PerStep? ==> TakenOf(st, (step, Control)) == n)
  }

  /** Serving a step leaves the other steps' queues and the reuse flag alone. */
  ghost predicate OnlyStep(st: Served, st': Served, step: nat) {
    && st'.controlReused == st.controlReused
    && forall key: Key | key.0 != step :: TakenOf(st', key) == TakenOf(st, key)
  }

  predicate OwnControl(records: seq<Record>, mode: ControlMode, step: nat) {
    mode.PerStep? ==> Of(records, (step, Control)) != []
  }

  lemma RecordedDraw(records: seq<Record>, st: Served, draw: Draw)
    requires draw.n > 0 && TakenOf(st, (draw.step, draw.arm)) == draw.offset
    requires draw.arm.Control? ==> Of(records, (draw.step, Control)) != []
    ensures var r, q := Tallied(RecordedSampler(records), st, draw),
                        Tallied(TapeSampler(TapesOf(records, draw.step)), (), draw);
            && (r.Some? <==> q.Some?)
            && (r.Some? ==> r.value.1 == q.value.1 && r.value.0.controlReused == st.controlReused
                            && r.value.0.taken == st.taken[(draw.step, draw.arm) := draw.offset + draw.n])
  {
    OwnServe(records, st, draw);
    var queue := Of(records, (draw.step, draw.arm));
    assert TapesOf(records, draw.step).For(draw.arm) == Passed(queue);
    if draw.offset + draw.n <= |queue| {
      PassedSlice(queue, draw.offset, draw.offset + draw.n);
    }
  }

  /** A draw from its own queue. */
  lemma OwnServe(records: seq<Record>, st: Served, draw: Draw)
    requires draw.n > 0 && TakenOf(st, (draw.step, draw.arm)) == draw.offset
    requires draw.arm.Control? ==> Of(records, (draw.step, Control)) != []
    ensures var key: Key, r := (draw.step, draw.arm), Serve(records, st, draw);
            && (r.Some? <==> draw.offset + draw.n <= |Of(records, key)|)
            && (r.Some? ==> && r.value.1 == Passed(Of(records, key)[draw.offset..draw.offset + draw.n])
                            && r.value.0.controlReused == st.controlReused
                            && r.value.0.taken == st.taken[key := draw.offset + draw.n])
  {
  }

  lemma PassedSlice(records: seq<Record>, i: nat, j: nat)
    requires i <= j <= |records|
    ensures Passed(records)[i..j] == Passed(records[i..j])
  {
  }

  lemma RecordedLook(records: seq<Record>, c: Config, mode: ControlMode, step: nat, st: Served, a: Arms)
    requires Ready(c, mode, a) && Synced(st, mode, step, a.treated.n) && OwnControl(records, mode, step)
    ensures var r, q := TakeLook(RecordedSampler(records), c, mode, step, st, a),
                        TakeLook(TapeSampler(TapesOf(records, step)), c, mode, step, (), a);
            && (r.Some? <==> q.Some?)
            && (r.Some? ==> r.value.1 == q.value.1 && OnlyStep(st, r.value.0, step)
                            && Synced(r.value.0, mode, step, r.value.1.treated.n))
  {
    var n := a.treated.n;
    LookOnPlan(c, n, a.batches);
    var first, second := Draw(step, Treated, Take(c, n), n), Draw(step, Control, Take(c, n), n);
    RecordedDraw(records, st, first);
    var r := Tallied(RecordedSampler(records), st, first);
    if r.Some? && mode.PerStep? {
      RecordedDraw(records, r.value.0, second);
    }
  }

  lemma {:induction false} RecordedRun(sqrt: real -> real, records: seq<Record>, c: Config, mode: ControlMode,
                                       step: nat, st: Served, a: Arms)
    requires Ready(c, mode, a) && Synced(st, mode, step, a.treated.n) && OwnControl(records, mode, step)
    ensures var r, q := RunStep(sqrt, RecordedSampler(records), c, mode, step, st, a),
                        RunStep(sqrt, TapeSampler(TapesOf(records, step)), c, mode, step, (), a);
            && (r.Some? <==> q.Some?)
            && (r.Some? ==> r.value.value == q.value.value && OnlyStep(st, r.value.state, step))
    decreases c.maxN - a.treated.n
  {
    LookOnPlan(c, a.treated.n, a.batches);
    RecordedLook(records, c, mode, step, st, a);
    var r := TakeLook(RecordedSampler(records), c, mode, step, st, a);
    if r.Some? && !Finished(sqrt, c, r.value.1) {
      RecordedRun(sqrt, records, c, mode, step, r.value.0, r.value.1);
    }
  }

  ghost predicate Untouched(st: Served, steps: seq<nat>, mode: ControlMode) {
    forall step <- steps :: Synced(st, mode, step, 0)
  }

  lemma RecordedStep(sqrt: real -> real, records: seq<Record>, c: Config, mode: ControlMode,
                     shared: Option<ArmResult>, step: nat, st: Served)
    requires ValidConfig(c) && Synced(st, mode, step, 0) && OwnControl(records, mode, step)
    ensures var r, q := EstimateStep(sqrt, RecordedSampler(records), c, mode, shared, step, st),
                        StepOnTape(sqrt, c, mode, shared, step, TapesOf(records, step));
            && (r.Some? <==> q.Some?)
            && (r.Some? ==> r.value.value == q.value.value && OnlyStep(st, r.value.state, step))
  {
    var starting := StartingControl(mode, shared);
    if starting.Some? {
      RecordedRun(sqrt, records, c, mode, step, st, Starting(starting.value));
    }
  }

  /** Every step can be estimated from its own tapes. */
  ghost predicate AllOnTape(sqrt: real -> real, records: seq<Record>, c: Config, mode: ControlMode,
                            shared: Option<ArmResult>, steps: seq<nat>)
    requires ValidConfig(c)
  {
    forall step <- steps :: StepOnTape(sqrt, c, mode, shared, step, TapesOf(records, step)).Some?
  }

  ghost predicate EffectsOnTape(sqrt: real -> real, records: seq<Record>, c: Config, mode: ControlMode,
                                shared: Option<ArmResult>, steps: seq<nat>, effects: seq<StepEffect>)
    requires ValidConfig(c)
  {
    && |effects| == |steps|
    && forall i | 0 <= i < |steps| ::
         EffectOnTape(sqrt, records, c, mode, shared, steps[i], effects[i])
  }

  ghost predicate EffectOnTape(sqrt: real -> real, records: seq<Record>, c: Config, mode: ControlMode,
                               shared: Option<ArmResult>, step: nat, effect: StepEffect)
    requires ValidConfig(c)
  {
    var r := StepOnTape(sqrt, c, mode, shared, step, TapesOf(records, step));
    r.Some? && r.value.value == effect
  }

  /** A profile can be re-derived exactly when each of its steps can, each from its own tapes. */
  lemma {:induction false} RecordedSteps(sqrt: real -> real, records: seq<Record>, c: Config, mode: ControlMode,
                                         shared: Option<ArmResult>, steps: seq<nat>, st: Served)
    requires ValidConfig(c) && Increasing(steps) && Untouched(st, steps, mode)
    requires forall step <- steps :: OwnControl(records, mode, step)
    ensures var r := RunSteps(sqrt, RecordedSampler(records), c, mode, shared, steps, st);
            && (r.Some? <==> AllOnTape(sqrt, records, c, mode, shared, steps))
            && (r.Some? ==> EffectsOnTape(sqrt, records, c, mode, shared, steps, r.value.value)
                            && r.value.state.controlReused == st.controlReused)
  {
    if steps != [] {
      AllOnTapeSplits(sqrt, records, c, mode, shared, steps);
      RecordedStep(sqrt, records, c, mode, shared, steps[0], st);
      var first := EstimateStep(sqrt, RecordedSampler(records), c, mode, shared, steps[0], st);
      if first.Some? {
        StillUntouched(st, first.value.state, steps, mode);
        RecordedSteps(sqrt, records, c, mode, shared, steps[1..], first.value.state);
        var rest := RunSteps(sqrt, RecordedSampler(records), c, mode, shared, steps[1..], first.value.state);
        if rest.Some? {
          EffectsOnTapeGrow(sqrt, records, c, mode, shared, steps, first.value.value, rest.value.value);
        }
      }
    }
  }

  lemma StillUntouched(st: Served, st': Served, steps: seq<nat>, mode: ControlMode)
    requires steps != [] && Increasing(steps) && Untouched(st, steps, mode) && OnlyStep(st, st', steps[0])
    ensures Increasing(steps[1..]) && Untouched(st', steps[1..], mode)
  {
    forall step | step in steps[1..] ensures Synced(st', mode, step, 0) {
      assert step in steps && Synced(st, mode, step, 0);
      assert step != steps[0];
    }
  }

  lemma AllOnTapeSplits(sqrt: real -> real, records: seq<Record>, c: Config, mode: ControlMode,
                        shared: Option<ArmResult>, steps: seq<nat>)
    requires ValidConfig(c) && steps != []
    ensures AllOnTape(sqrt, records, c, mode, shared, steps)
            <==> StepOnTape(sqrt, c, mode, shared, steps[0], TapesOf(records, steps[0])).Some?
                 && AllOnTape(sqrt, records, c, mode, shared, steps[1..])
  {
    assert steps == [steps[0]] + steps[1..];
  }

  lemma EffectsOnTapeGrow(sqrt: real -> real, records: seq<Record>, c: Config, mode: ControlMode,
                          shared: Option<ArmResult>, steps: seq<nat>, effect: StepEffect, rest: seq<StepEffect>)
    requires ValidConfig(c) && steps != [] && EffectOnTape(sqrt, records, c, mode, shared, steps[0], effect)
    requires EffectsOnTape(sqrt, records, c, mode, shared, steps[1..], rest)
    ensures EffectsOnTape(sqrt, records, c, mode, shared, steps, [effect] + rest)
  {
    forall i | 0 <= i < |steps| ensures EffectOnTape(sqrt, records, c, mode, shared, steps[i], ([effect] + rest)[i]) {
      if i > 0 { assert EffectOnTape(sqrt, records, c, mode, shared, steps[1..][i - 1], rest[i - 1]); }
    }
  }
}
