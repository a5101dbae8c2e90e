/**
 When a recording answers a plan: exactly when each step, looked at where the plan looks, settles
 within the draws that were recorded for it.
 */
module LookPoints {
  import opened Wrappers
  import opened Estimator
  import opened Truncation

  /** The treated draws at the plan's `j`-th look: whole batches, or all there may be. */
  function LookEnd(c: Config, j: nat): nat {
    if j * c.batch <= c.maxN then j * c.batch else c.maxN
  }

  /** The recorded draws reach the `j`-th look. */
  predicate Reached(c: Config, mode: ControlMode, tapes: Tapes, j: nat) {
    LookEnd(c, j) <= |tapes.treated| && (mode.PerStep? ==> LookEnd(c, j) <= |tapes.control|)
  }

  /** The arms at the `j`-th look: tallies of the first draws, against the control of the mode. */
  function ArmsAt(c: Config, mode: ControlMode, shared: Option<ArmResult>, tapes: Tapes, j: nat): Arms
    requires Reached(c, mode, tapes, j)
  {
    var n := LookEnd(c, j);
    Arms(Tally(tapes.treated, n), if mode.PerStep? then Some(Tally(tapes.control, n)) else shared, j)
  }

  /** The `j`-th look is recorded, and what it shows is decisive or the plan's end. */
  ghost predicate SettlesAt(sqrt: real -> real, c: Config, mode: ControlMode, shared: Option<ArmResult>, tapes: Tapes,
                            j: nat)
  {
    && 1 <= j && Reached(c, mode, tapes, j)
    && Looked(c, ArmsAt(c, mode, shared, tapes, j))
    && Finished(sqrt, c, ArmsAt(c, mode, shared, tapes, j))
  }

  ghost predicate Settles(sqrt: real -> real, c: Config, mode: ControlMode, shared: Option<ArmResult>, tapes: Tapes) {
    exists j :: SettlesAt(sqrt, c, mode, shared, tapes, j)
  }

  /** The first look after the `k`-th that settles. */
  ghost predicate FirstAfter(sqrt: real -> real, c: Config, mode: ControlMode, shared: Option<ArmResult>, tapes: Tapes,
                             k: nat, j: nat)
  {
    && k < j && SettlesAt(sqrt, c, mode, shared, tapes, j)
    && forall i | k < i < j :: !SettlesAt(sqrt, c, mode, shared, tapes, i)
  }

  lemma LookEndGrows(c: Config, j: nat, k: nat)
    requires j <= k
    ensures LookEnd(c, j) <= LookEnd(c, k)
  {
    Times(j, k, c.batch);
  }

  lemma Times(j: nat, k: nat, b: nat)
    requires j <= k
    ensures j * b <= k * b
  {
    assert k * b - j * b == (k - j) * b;
  }

  /** The next look point is the next batch, or the plan's end. */
  lemma NextLookEnd(c: Config, k: nat)
    requires ValidConfig(c) && k * c.batch < c.maxN
    ensures LookEnd(c, k) == k * c.batch && LookEnd(c, k + 1) == k * c.batch + Take(c, k * c.batch)
  {
    assert (k + 1) * c.batch == k * c.batch + c.batch;
  }

  /** One more look on a tape: it is taken when the draws are there, and shows the arms of its look point. */
  lemma LookIsArmsAt(c: Config, mode: ControlMode, shared: Option<ArmResult>, tapes: Tapes, step: nat, k: nat)
    requires Reached(c, mode, tapes, k) && Ready(c, mode, ArmsAt(c, mode, shared, tapes, k))
    ensures var look := TakeLook(TapeSampler(tapes), c, mode, step, (), ArmsAt(c, mode, shared, tapes, k));
            && (look.Some? <==> Reached(c, mode, tapes, k + 1))
            && (look.Some? ==> look.value.1 == ArmsAt(c, mode, shared, tapes, k + 1))
  {
    var a := ArmsAt(c, mode, shared, tapes, k);
    NextLookEnd(c, k);
    TapeLook(tapes, c, mode, step, a);
  }

  lemma NoneReachedAfter(c: Config, mode: ControlMode, tapes: Tapes, k: nat, j: nat)
    requires k <= j && !Reached(c, mode, tapes, k)
    ensures !Reached(c, mode, tapes, j)
  {
    LookEndGrows(c, k, j);
  }

  lemma NoneSettlesAfter(sqrt: real -> real, c: Config, mode: ControlMode, shared: Option<ArmResult>, tapes: Tapes,
                         k: nat)
    requires !Reached(c, mode, tapes, k + 1)
    ensures forall i | k < i :: !SettlesAt(sqrt, c, mode, shared, tapes, i)
  {
    forall i | k < i ensures !SettlesAt(sqrt, c, mode, shared, tapes, i) {
      NoneReachedAfter(c, mode, tapes, k + 1, i);
    }
  }

  /** The recursion's next arms are ready, being on the plan and not at its end. */
  lemma NextIsReady(sqrt: real -> real, c: Config, mode: ControlMode, shared: Option<ArmResult>, tapes: Tapes,
                    step: nat, k: nat)
    requires Reached(c, mode, tapes, k) && Ready(c, mode, ArmsAt(c, mode, shared, tapes, k))
    requires Reached(c, mode, tapes, k + 1) && Looked(c, ArmsAt(c, mode, shared, tapes, k + 1))
    requires !Finished(sqrt, c, ArmsAt(c, mode, shared, tapes, k + 1))
    ensures Ready(c, mode, ArmsAt(c, mode, shared, tapes, k + 1))
    ensures LookEnd(c, k) < LookEnd(c, k + 1) < c.maxN
  {
    LookOnPlan(c, LookEnd(c, k), k);
    LookIsArmsAt(c, mode, shared, tapes, step, k);
    NextLookEnd(c, k);
  }

  /** From the `k`-th look on: sampling ends at the first look that settles, and not at all if none does. */
  lemma {:induction false} RunSettles(sqrt: real -> real, c: Config, mode: ControlMode, shared: Option<ArmResult>,
                                      tapes: Tapes, step: nat, k: nat) returns (j: nat)
    requires Reached(c, mode, tapes, k) && Ready(c, mode, ArmsAt(c, mode, shared, tapes, k))
    ensures var r := RunStep(sqrt, TapeSampler(tapes), c, mode, step, (), ArmsAt(c, mode, shared, tapes, k));
            if r.Some? then
              FirstAfter(sqrt, c, mode, shared, tapes, k, j) && r.value.value == ArmsAt(c, mode, shared, tapes, j)
            else forall i | k < i :: !SettlesAt(sqrt, c, mode, shared, tapes, i)
    decreases c.maxN - LookEnd(c, k)
  {
    var a := ArmsAt(c, mode, shared, tapes, k);
    j := k + 1;
    LookOnPlan(c, a.treated.n, k);
    LookIsArmsAt(c, mode, shared, tapes, step, k);
    var look := TakeLook(TapeSampler(tapes), c, mode, step, (), a);
    if look.None? {
      NoneSettlesAfter(sqrt, c, mode, shared, tapes, k);
    } else if !Finished(sqrt, c, look.value.1) {
      NextIsReady(sqrt, c, mode, shared, tapes, step, k);
      j := RunSettles(sqrt, c, mode, shared, tapes, step, k + 1);
      var r := RunStep(sqrt, TapeSampler(tapes), c, mode, step, (), look.value.1);
      OneLater(sqrt, c, mode, shared, tapes, k, r.Some?, j);
    }
  }

  /** A look that does not settle is passed over. */
  lemma OneLater(sqrt: real -> real, c: Config, mode: ControlMode, shared: Option<ArmResult>, tapes: Tapes, k: nat,
                 found: bool, j: nat)
    requires !SettlesAt(sqrt, c, mode, shared, tapes, k + 1)
    requires if found then FirstAfter(sqrt, c, mode, shared, tapes, k + 1, j)
             else forall i | k + 1 < i :: !SettlesAt(sqrt, c, mode, shared, tapes, i)
    ensures if found then FirstAfter(sqrt, c, mode, shared, tapes, k, j)
            else forall i | k < i :: !SettlesAt(sqrt, c, mode, shared, tapes, i)
  {
  }

  /** The control a step starts from is the mode's. */
  lemma StartsAtZero(c: Config, mode: ControlMode, shared: Option<ArmResult>, tapes: Tapes)
    requires ValidConfig(c) && StartingControl(mode, shared).Some?
    ensures Reached(c, mode, tapes, 0)
    ensures ArmsAt(c, mode, shared, tapes, 0) == Starting(StartingControl(mode, shared).value)
  {
    assert tapes.treated[..0] == [] && (mode.PerStep? ==> tapes.control[..0] == []);
  }

  /**
   A step is answered from its recorded draws exactly when some look of the plan within them
   settles; then its effect is the first such look's.
   */
  lemma StepServedIffSettles(sqrt: real -> real, c: Config, mode: ControlMode, shared: Option<ArmResult>, step: nat,
                             tapes: Tapes)
    requires ValidConfig(c) && StartingControl(mode, shared).Some?
    ensures var r := StepOnTape(sqrt, c, mode, shared, step, tapes);
            && (r.Some? <==> Settles(sqrt, c, mode, shared, tapes))
            && (r.Some? ==>
                  exists j :: FirstAfter(sqrt, c, mode, shared, tapes, 0, j)
                              && r.value.value == EffectAt(sqrt, c, step, ArmsAt(c, mode, shared, tapes, j)))
  {
    StartsAtZero(c, mode, shared, tapes);
    var j := RunSettles(sqrt, c, mode, shared, tapes, step, 0);
    var r := StepOnTape(sqrt, c, mode, shared, step, tapes);
    if r.Some? {
      assert SettlesAt(sqrt, c, mode, shared, tapes, j);
    }
  }
}
