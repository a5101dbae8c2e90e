/**
 What early stopping does: a step's sampling ends at its first decisive look, and the
 O'Brien-Fleming boundary can only delay a nominal blame, never create one.
 */
module Boundary {
  import opened Wrappers
  import opened Intervals
  import opened Estimator
  import opened SamplingCosts

  // ---- The first decisive look -----------------------------------------------------------------

  /** The arms after `k` looks, whatever their verdicts. */
  ghost function LookAt<S>(sampler: Sampler<S>, c: Config, mode: ControlMode, step: nat, s: S, a: Arms, k: nat)
      : Option<(S, Arms)>
  {
    if k == 0 then Some((s, a))
    else
      match LookAt(sampler, c, mode, step, s, a, k - 1)
      case None => None
      case Some((s', b)) => if Ready(c, mode, b) then TakeLook(sampler, c, mode, step, s', b) else None
  }

  lemma {:induction false} LookShifts<S>(sampler: Sampler<S>, c: Config, mode: ControlMode, step: nat, s: S, a: Arms,
                                         k: nat)
    requires Ready(c, mode, a)
    ensures var look := TakeLook(sampler, c, mode, step, s, a);
            LookAt(sampler, c, mode, step, s, a, k + 1)
            == if look.None? then None else LookAt(sampler, c, mode, step, look.value.0, look.value.1, k)
  {
    if k > 0 { LookShifts(sampler, c, mode, step, s, a, k - 1); }
    else { assert LookAt(sampler, c, mode, step, s, a, 0) == Some((s, a)); }
  }

  /** The first `k` looks were taken and none of them settled anything. */
  ghost predicate Undecided<S>(sqrt: real -> real, sampler: Sampler<S>, c: Config, mode: ControlMode, step: nat, s: S,
                               a: Arms, k: nat)
  {
    forall j | 1 <= j <= k :: UndecidedAt(sqrt, c, LookAt(sampler, c, mode, step, s, a, j))
  }

  ghost predicate UndecidedAt<S>(sqrt: real -> real, c: Config, look: Option<(S, Arms)>) {
    look.Some? && Looked(c, look.value.1) && !Finished(sqrt, c, look.value.1)
  }

  /** Sampling ended after `k` looks: with the arms of the first finished one, or because it raised. */
  ghost predicate EndsAt<S>(sqrt: real -> real, sampler: Sampler<S>, c: Config, mode: ControlMode, step: nat, s: S,
                            a: Arms, r: Option<Ran<S, Arms>>, k: nat)
  {
    && k > 0
    && Undecided(sqrt, sampler, c, mode, step, s, a, k - 1)
    && var look := LookAt(sampler, c, mode, step, s, a, k);
       if r.None? then look.None?
       else look == Some((r.value.state, r.value.value)) && Looked(c, r.value.value)
            && Finished(sqrt, c, r.value.value)
  }

  lemma EndsAtOnce<S>(sqrt: real -> real, sampler: Sampler<S>, c: Config, mode: ControlMode, step: nat, s: S, a: Arms)
    requires Ready(c, mode, a)
    requires var look := TakeLook(sampler, c, mode, step, s, a); look.None? || Finished(sqrt, c, look.value.1)
    ensures EndsAt(sqrt, sampler, c, mode, step, s, a, RunStep(sqrt, sampler, c, mode, step, s, a), 1)
  {
    LookOnPlan(c, a.treated.n, a.batches);
    LookShifts(sampler, c, mode, step, s, a, 0);
  }

  lemma {:induction false} EndsAtFirstDecision<S>(sqrt: real -> real, sampler: Sampler<S>, c: Config,
                                                  mode: ControlMode, step: nat, s: S, a: Arms) returns (k: nat)
    requires Ready(c, mode, a)
    ensures EndsAt(sqrt, sampler, c, mode, step, s, a, RunStep(sqrt, sampler, c, mode, step, s, a), k)
    decreases c.maxN - a.treated.n
  {
    k := 1;
    var look := TakeLook(sampler, c, mode, step, s, a);
    if look.None? || Finished(sqrt, c, look.value.1) {
      EndsAtOnce(sqrt, sampler, c, mode, step, s, a);
    } else {
      LookOnPlan(c, a.treated.n, a.batches);
      var (s', b) := look.value;
      var rest := EndsAtFirstDecision(sqrt, sampler, c, mode, step, s', b);
      k := rest + 1;
      Shifted(sqrt, sampler, c, mode, step, s, a, rest);
    }
  }

  lemma Shifted<S>(sqrt: real -> real, sampler: Sampler<S>, c: Config, mode: ControlMode, step: nat, s: S, a: Arms,
                   rest: nat)
    requires Ready(c, mode, a)
    requires var look := TakeLook(sampler, c, mode, step, s, a);
             && UndecidedAt(sqrt, c, look)
             && rest > 0
             && Undecided(sqrt, sampler, c, mode, step, look.value.0, look.value.1, rest - 1)
    ensures var look := TakeLook(sampler, c, mode, step, s, a).value;
            && Undecided(sqrt, sampler, c, mode, step, s, a, rest)
            && LookAt(sampler, c, mode, step, s, a, rest + 1)
               == LookAt(sampler, c, mode, step, look.0, look.1, rest)
  {
    LookShifts(sampler, c, mode, step, s, a, rest);
    forall j | 1 <= j <= rest ensures UndecidedAt(sqrt, c, LookAt(sampler, c, mode, step, s, a, j)) {
      LookShifts(sampler, c, mode, step, s, a, j - 1);
    }
  }

  /** Only one outcome ends sampling: anything the first finished look shows is the result, and conversely. */
  lemma StopsAtFirstDecision<S>(sqrt: real -> real, sampler: Sampler<S>, c: Config, mode: ControlMode, step: nat,
                                s: S, a: Arms, end: S, b: Arms)
    requires Ready(c, mode, a)
    ensures (exists asked :: RunStep(sqrt, sampler, c, mode, step, s, a) == Some(Ran(end, b, asked)))
            <==> exists k: nat :: EndsAt(sqrt, sampler, c, mode, step, s, a, Some(Ran(end, b, [])), k)
  {
    var r := RunStep(sqrt, sampler, c, mode, step, s, a);
    var k := EndsAtFirstDecision(sqrt, sampler, c, mode, step, s, a);
    if asked :| r == Some(Ran(end, b, asked)) {
      assert EndsAt(sqrt, sampler, c, mode, step, s, a, Some(Ran(end, b, [])), k);
    }
    if k': nat :| EndsAt(sqrt, sampler, c, mode, step, s, a, Some(Ran(end, b, [])), k') {
      assert k == k';
      assert r == Some(Ran(end, b, r.value.asked));
    }
  }

  // ---- Nominal against O'Brien-Fleming ---------------------------------------------------------

  /** The same plan decided at the reported level at every look. */
  function AtNominal(c: Config): Config { c.(boundary := Nominal) }

  /** The reported level is below every look's boundary, as at 95%. */
  predicate BelowBoundary(c: Config) { c.z <= ObfCriticalZ[ObfLooks - 1] }

  lemma DecisionIsStricter(c: Config, look: nat)
    requires ValidConfig(c) && BelowBoundary(c) && 1 <= look <= PlannedLooks(c)
    ensures c.z <= DecisionZ(c, look)
  {
  }

  lemma IntervalNested(sqrt: real -> real, treated: ArmResult, control: Option<ArmResult>, z: real, z': real)
    requires IsSqrt(sqrt) && ComparableArms(treated, control) && 0.0 < z <= z'
    ensures Inside(IntervalOf(sqrt, treated, control, z), IntervalOf(sqrt, treated, control, z'))
    ensures IntervalOf(sqrt, treated, control, z).low <= IntervalOf(sqrt, treated, control, z).high
  {
    match control
    case None =>
      WilsonNested(sqrt, treated.successes, treated.n, z, z');
      WilsonShape(sqrt, treated.successes, treated.n, z);
    case Some(arm) =>
      NewcombeNested(sqrt, treated.successes, treated.n, arm.successes, arm.n, z, z');
      NewcombeShape(sqrt, treated.successes, treated.n, arm.successes, arm.n, z);
  }

  lemma IntervalHoldsEffect(sqrt: real -> real, treated: ArmResult, control: Option<ArmResult>, z: real)
    requires IsSqrt(sqrt) && ComparableArms(treated, control) && z > 0.0
    ensures IntervalOf(sqrt, treated, control, z).low <= EffectOf(treated, control)
            <= IntervalOf(sqrt, treated, control, z).high
  {
    match control
    case None => WilsonShape(sqrt, treated.successes, treated.n, z);
    case Some(arm) => NewcombeShape(sqrt, treated.successes, treated.n, arm.successes, arm.n, z);
  }

  /** No step is blamed whose measured effect is within `delta`, and none cleared whose effect is beyond it. */
  lemma VerdictFollowsEffect(sqrt: real -> real, c: Config, a: Arms)
    requires IsSqrt(sqrt) && Looked(c, a)
    ensures Verdict(sqrt, c, a) == Some(Blameworthy) ==> EffectOf(a.treated, a.control) > c.delta
    ensures Verdict(sqrt, c, a) == Some(Cleared) ==> EffectOf(a.treated, a.control) <= c.delta
  {
    IntervalHoldsEffect(sqrt, a.treated, a.control, c.z);
    if c.boundary.OBrienFleming? { BoundaryPositive(a.batches); }
    IntervalHoldsEffect(sqrt, a.treated, a.control, DecisionZ(c, a.batches));
  }

  lemma BoundaryPositive(look: nat)
    requires 1 <= look <= ObfLooks
    ensures ObfCriticalZ[look - 1] > 0.0
  {
  }

  /** At one look: equal verdicts, or the nominal one blames where the boundary is not yet crossed. */
  lemma VerdictsCouple(sqrt: real -> real, c: Config, a: Arms)
    requires IsSqrt(sqrt) && BelowBoundary(c) && Looked(c, a)
    ensures Looked(AtNominal(c), a)
    ensures var nominal := Verdict(sqrt, AtNominal(c), a);
            || nominal == Verdict(sqrt, c, a)
            || (nominal == Some(Blameworthy) && Verdict(sqrt, c, a).None?)
  {
    DecisionIsStricter(c, a.batches);
    IntervalNested(sqrt, a.treated, a.control, c.z, DecisionZ(c, a.batches));
  }

  /** The nominal run stopped with the other's arms, or earlier and blaming. */
  ghost predicate NoLater<S>(sqrt: real -> real, c: Config, run: Ran<S, Arms>, nominal: Ran<S, Arms>) {
    && Looked(c, run.value) && Looked(AtNominal(c), nominal.value)
    && nominal.value.treated.n <= run.value.treated.n
    && var verdict, other := Verdict(sqrt, c, run.value), Verdict(sqrt, AtNominal(c), nominal.value);
       || (nominal == run && (other == verdict || (verdict.None? && other == Some(Blameworthy))))
       || (nominal.value.batches < run.value.batches && other == Some(Blameworthy))
  }

  ghost predicate RunNoLater<S>(sqrt: real -> real, sampler: Sampler<S>, c: Config, mode: ControlMode, step: nat,
                                s: S, a: Arms)
    requires Ready(c, mode, a) && Ready(AtNominal(c), mode, a)
  {
    var run, nominal := RunStep(sqrt, sampler, c, mode, step, s, a),
                        RunStep(sqrt, sampler, AtNominal(c), mode, step, s, a);
    run.Some? ==> nominal.Some? && NoLater(sqrt, c, run.value, nominal.value)
  }

  /** One look that the boundary does not stop. */
  lemma NoLaterAfterLook<S>(sqrt: real -> real, sampler: Sampler<S>, c: Config, mode: ControlMode, step: nat, s: S,
                            a: Arms, s': S, b: Arms)
    requires IsSqrt(sqrt) && BelowBoundary(c) && Ready(c, mode, a) && Ready(AtNominal(c), mode, a)
    requires TakeLook(sampler, c, mode, step, s, a) == Some((s', b)) && !Finished(sqrt, c, b)
    requires Ready(AtNominal(c), mode, b) && RunNoLater(sqrt, sampler, c, mode, step, s', b)
    ensures RunNoLater(sqrt, sampler, c, mode, step, s, a)
  {
    LookIgnoresBoundary(sampler, c, mode, step, s, a);
    VerdictsCouple(sqrt, c, b);
    var rest := RunStep(sqrt, sampler, c, mode, step, s', b);
    if rest.Some? {
      StepTakesALook(sqrt, sampler, c, mode, step, s', b);
    }
  }

  lemma StepTakesALook<S>(sqrt: real -> real, sampler: Sampler<S>, c: Config, mode: ControlMode, step: nat, s: S,
                          a: Arms)
    requires Ready(c, mode, a)
    ensures var r := RunStep(sqrt, sampler, c, mode, step, s, a);
            r.Some? ==> a.batches < r.value.value.batches && a.treated.n <= r.value.value.treated.n
  {
    LookOnPlan(c, a.treated.n, a.batches);
    var look := TakeLook(sampler, c, mode, step, s, a);
    if look.Some? && !Finished(sqrt, c, look.value.1) {
      StepPaid(sqrt, sampler, c, mode, step, look.value.0, look.value.1);
    }
  }

  /**
   On the same draws the nominal run of a step never takes more looks, and a blame the boundary
   allows is one the nominal rule already made.
   */
  lemma {:induction false} BoundaryOnlyDelaysBlame<S>(sqrt: real -> real, sampler: Sampler<S>, c: Config,
                                                      mode: ControlMode, step: nat, s: S, a: Arms)
    requires IsSqrt(sqrt) && BelowBoundary(c) && Ready(c, mode, a)
    ensures Ready(AtNominal(c), mode, a)
    ensures RunNoLater(sqrt, sampler, c, mode, step, s, a)
    decreases c.maxN - a.treated.n
  {
    LookOnPlan(c, a.treated.n, a.batches);
    LookIgnoresBoundary(sampler, c, mode, step, s, a);
    var look := TakeLook(sampler, c, mode, step, s, a);
    if look.Some? {
      var (s', b) := look.value;
      if !Finished(sqrt, c, b) {
        BoundaryOnlyDelaysBlame(sqrt, sampler, c, mode, step, s', b);
        NoLaterAfterLook(sqrt, sampler, c, mode, step, s, a, s', b);
      } else {
        VerdictsCouple(sqrt, c, b);
      }
    }
  }

  lemma LookIgnoresBoundary<S>(sampler: Sampler<S>, c: Config, mode: ControlMode, step: nat, s: S, a: Arms)
    requires Ready(c, mode, a)
    ensures Ready(AtNominal(c), mode, a)
    ensures TakeLook(sampler, AtNominal(c), mode, step, s, a) == TakeLook(sampler, c, mode, step, s, a)
  {
  }

  /** Effects of one step: no more looks or draws, and blame under the boundary is blame without it. */
  ghost predicate EffectNoLater(run: StepEffect, nominal: StepEffect) {
    && nominal.step == run.step
    && nominal.nBatches <= run.nBatches
    && nominal.treated.n <= run.treated.n
    && (run.stopReason.Blameworthy? ==> nominal.stopReason.Blameworthy?)
    && (nominal.stopReason.Cleared? ==> run.stopReason.Cleared?)
    && (nominal.stopReason.MaxN? ==> run.stopReason.MaxN?)
  }

  lemma EffectsCouple<S>(sqrt: real -> real, c: Config, step: nat, run: Ran<S, Arms>, nominal: Ran<S, Arms>)
    requires NoLater(sqrt, c, run, nominal)
    ensures EffectNoLater(EffectAt(sqrt, c, step, run.value), EffectAt(sqrt, AtNominal(c), step, nominal.value))
  {
  }

  lemma RunsCouple<S>(sqrt: real -> real, sampler: Sampler<S>, c: Config, mode: ControlMode, step: nat, s: S, a: Arms)
    requires IsSqrt(sqrt) && BelowBoundary(c) && Ready(c, mode, a) && Ready(AtNominal(c), mode, a)
    ensures var run, nominal := RunStep(sqrt, sampler, c, mode, step, s, a),
                                RunStep(sqrt, sampler, AtNominal(c), mode, step, s, a);
            run.Some? ==>
              nominal.Some? && EffectNoLater(EffectAt(sqrt, c, step, run.value.value),
                                             EffectAt(sqrt, AtNominal(c), step, nominal.value.value))
  {
    BoundaryOnlyDelaysBlame(sqrt, sampler, c, mode, step, s, a);
    var run, nominal := RunStep(sqrt, sampler, c, mode, step, s, a),
                        RunStep(sqrt, sampler, AtNominal(c), mode, step, s, a);
    if run.Some? { EffectsCouple(sqrt, c, step, run.value, nominal.value); }
  }

  lemma StepsCouple<S>(sqrt: real -> real, sampler: Sampler<S>, c: Config, mode: ControlMode,
                       shared: Option<ArmResult>, step: nat, s: S)
    requires IsSqrt(sqrt) && ValidConfig(c) && BelowBoundary(c)
    ensures var run, nominal := EstimateStep(sqrt, sampler, c, mode, shared, step, s),
                                EstimateStep(sqrt, sampler, AtNominal(c), mode, shared, step, s);
            run.Some? ==> nominal.Some? && EffectNoLater(run.value.value, nominal.value.value)
  {
    var starting := StartingControl(mode, shared);
    if starting.Some? {
      RunsCouple(sqrt, sampler, c, mode, step, s, Starting(starting.value));
    }
  }
}
