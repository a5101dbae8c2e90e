/**
 Two samplers that answer alike give the same estimate. The relation between their states may
 depend on the draws asked for so far, and need only hold while the first one's state is still
 `live`: a state from which the wanted end can be reached.
 */
module Coupling {
  import opened Wrappers
  import opened Estimator

  type Relation<!S, !T> = (S, T, seq<Draw>) -> bool

  /** `g` answers as `f` does wherever `f` ends up live. */
  ghost predicate Answers<S(!new), T(!new)>(live: S -> bool, related: Relation<S, T>, f: Sampler<S>, g: Sampler<T>) {
    && (forall s, d :: LiveAfter(live, f, s, d) ==> live(s))
    && forall s, t, h, d :: related(s, t, h) && LiveAfter(live, f, s, d) ==> AnswersOne(related, f, g, s, t, h, d)
  }

  ghost predicate LiveAfter<S>(live: S -> bool, f: Sampler<S>, s: S, d: Draw) {
    d.n > 0 && f(s, d).Some? && |f(s, d).value.1| == d.n && live(f(s, d).value.0)
  }

  ghost predicate AnswersOne<S, T>(related: Relation<S, T>, f: Sampler<S>, g: Sampler<T>, s: S, t: T, h: seq<Draw>,
                                   d: Draw)
    requires f(s, d).Some?
  {
    && g(t, d).Some?
    && g(t, d).value.1 == f(s, d).value.1
    && related(f(s, d).value.0, g(t, d).value.0, h + [d])
  }

  /** Where `r` ended live it began live, and `q` is the same result in a related state. */
  ghost predicate Alike<S, T, V>(live: S -> bool, related: Relation<S, T>, s: S, t: T, h: seq<Draw>,
                                 r: Option<Ran<S, V>>, q: Option<Ran<T, V>>)
  {
    r.Some? && live(r.value.state) ==>
      && live(s)
      && (related(s, t, h) ==>
            && q.Some?
            && q.value.value == r.value.value
            && q.value.asked == r.value.asked
            && related(r.value.state, q.value.state, h + r.value.asked))
  }

  lemma AlikeDraw<S(!new), T(!new)>(live: S -> bool, related: Relation<S, T>, f: Sampler<S>, g: Sampler<T>,
                                    s: S, t: T, h: seq<Draw>, d: Draw)
    requires Answers(live, related, f, g) && d.n > 0
    ensures var r, q := Tallied(f, s, d), Tallied(g, t, d);
            r.Some? && live(r.value.0) ==>
              && live(s)
              && (related(s, t, h) ==> q.Some? && q.value.1 == r.value.1
                                       && related(r.value.0, q.value.0, h + [d]))
  {
    if Tallied(f, s, d).Some? && live(Tallied(f, s, d).value.0) {
      assert LiveAfter(live, f, s, d);
    }
  }

  /** A look as a run of its own draws. */
  function LookRan<S>(c: Config, mode: ControlMode, step: nat, n: nat, look: Option<(S, Arms)>): Option<Ran<S, Arms>>
    requires n <= c.maxN
  {
    match look
    case None => None
    case Some((s, a)) => Some(Ran(s, a, LookDraws(c, mode, step, n)))
  }

  lemma AlikeLook<S(!new), T(!new)>(live: S -> bool, related: Relation<S, T>, f: Sampler<S>, g: Sampler<T>,
                                    c: Config, mode: ControlMode, step: nat, s: S, t: T, h: seq<Draw>, a: Arms)
    requires Answers(live, related, f, g) && Ready(c, mode, a) && a.treated.n <= c.maxN
    ensures Alike(live, related, s, t, h, LookRan(c, mode, step, a.treated.n, TakeLook(f, c, mode, step, s, a)),
                  LookRan(c, mode, step, a.treated.n, TakeLook(g, c, mode, step, t, a)))
  {
    var n := a.treated.n;
    LookOnPlan(c, n, a.batches);
    var first, second := Draw(step, Treated, Take(c, n), n), Draw(step, Control, Take(c, n), n);
    AlikeDraw(live, related, f, g, s, t, h, first);
    if mode.PerStep? && Tallied(f, s, first).Some? {
      var s1 := Tallied(f, s, first).value.0;
      if Tallied(g, t, first).Some? {
        AlikeDraw(live, related, f, g, s1, Tallied(g, t, first).value.0, h + [first], second);
      } else {
        AlikeDraw(live, related, f, g, s1, t, h, second);
      }
      assert h + [first] + [second] == h + ([first] + [second]);
    } else {
      assert [first] + [] == [first];
    }
  }

  /** One thing after another. */
  lemma AlikeThen<S, T, U, V>(live: S -> bool, related: Relation<S, T>, s: S, t: T, h: seq<Draw>,
                              r: Ran<S, U>, q: Option<Ran<T, U>>, r': Option<Ran<S, V>>, q': Option<Ran<T, V>>)
    requires Alike(live, related, s, t, h, Some(r), q)
    requires r'.Some? && live(r'.value.state) ==> live(r.state)
    requires q.Some? && q.value.asked == r.asked ==>
               Alike(live, related, r.state, q.value.state, h + r.asked, r', q')
    ensures var after := if q.None? then None else AfterDraws(q.value.asked, q');
            Alike(live, related, s, t, h, AfterDraws(r.asked, r'), after)
  {
    if r'.Some? { assert h + r.asked + r'.value.asked == h + (r.asked + r'.value.asked); }
  }

  lemma {:induction false} AlikeStep<S(!new), T(!new)>(sqrt: real -> real, live: S -> bool, related: Relation<S, T>,
                                                       f: Sampler<S>, g: Sampler<T>, c: Config, mode: ControlMode,
                                                       step: nat, s: S, t: T, h: seq<Draw>, a: Arms)
    requires Answers(live, related, f, g) && Ready(c, mode, a)
    ensures Alike(live, related, s, t, h, RunStep(sqrt, f, c, mode, step, s, a),
                  RunStep(sqrt, g, c, mode, step, t, a))
    decreases c.maxN - a.treated.n
  {
    LookOnPlan(c, a.treated.n, a.batches);
    AlikeLook(live, related, f, g, c, mode, step, s, t, h, a);
    var draws := LookDraws(c, mode, step, a.treated.n);
    var look, other := TakeLook(f, c, mode, step, s, a), TakeLook(g, c, mode, step, t, a);
    if look.Some? && !Finished(sqrt, c, look.value.1) {
      var (s', b) := look.value;
      var r := RunStep(sqrt, f, c, mode, step, s', b);
      AlikeStep(sqrt, live, related, f, g, c, mode, step, s', t, h, b);
      if other.Some? && other.value.1 == b {
        AlikeStep(sqrt, live, related, f, g, c, mode, step, s', other.value.0, h + draws, b);
        AlikeThen(live, related, s, t, h, Ran(s', b, draws), Some(Ran(other.value.0, b, draws)),
                  r, RunStep(sqrt, g, c, mode, step, other.value.0, b));
      }
    }
  }

  lemma AlikeEffect<S(!new), T(!new)>(sqrt: real -> real, live: S -> bool, related: Relation<S, T>, f: Sampler<S>,
                                      g: Sampler<T>, c: Config, mode: ControlMode, shared: Option<ArmResult>,
                                      step: nat, s: S, t: T, h: seq<Draw>)
    requires Answers(live, related, f, g) && ValidConfig(c)
    ensures Alike(live, related, s, t, h, EstimateStep(sqrt, f, c, mode, shared, step, s),
                  EstimateStep(sqrt, g, c, mode, shared, step, t))
  {
    var starting := StartingControl(mode, shared);
    if starting.Some? {
      AlikeStep(sqrt, live, related, f, g, c, mode, step, s, t, h, Starting(starting.value));
    }
  }

  lemma {:induction false} AlikeSteps<S(!new), T(!new)>(sqrt: real -> real, live: S -> bool, related: Relation<S, T>,
                                                        f: Sampler<S>, g: Sampler<T>, c: Config, mode: ControlMode,
                                                        shared: Option<ArmResult>, steps: seq<nat>, s: S, t: T,
                                                        h: seq<Draw>)
    requires Answers(live, related, f, g) && ValidConfig(c)
    ensures Alike(live, related, s, t, h, RunSteps(sqrt, f, c, mode, shared, steps, s),
                  RunSteps(sqrt, g, c, mode, shared, steps, t))
  {
    if steps == [] {
      assert h + [] == h;
    } else {
      AlikeEffect(sqrt, live, related, f, g, c, mode, shared, steps[0], s, t, h);
      var first, other := EstimateStep(sqrt, f, c, mode, shared, steps[0], s),
                          EstimateStep(sqrt, g, c, mode, shared, steps[0], t);
      if first.Some? {
        var s' := first.value.state;
        var rest := RunSteps(sqrt, f, c, mode, shared, steps[1..], s');
        AlikeSteps(sqrt, live, related, f, g, c, mode, shared, steps[1..], s', t, h);
        if other.Some? && other.value.asked == first.value.asked {
          AlikeSteps(sqrt, live, related, f, g, c, mode, shared, steps[1..], s', other.value.state,
                     h + first.value.asked);
        }
        if rest.Some? {
          assert h + first.value.asked + rest.value.asked == h + (first.value.asked + rest.value.asked);
        }
      }
    }
  }

  /** A sampler that answers as another did, along every state that leads to the wanted end, estimates the same. */
  lemma AlikeRuns<S(!new), T(!new)>(sqrt: real -> real, live: S -> bool, related: Relation<S, T>, f: Sampler<S>,
                                    g: Sampler<T>, c: Config, mode: ControlMode, tested: seq<nat>, s: S, t: T)
    requires Answers(live, related, f, g) && ValidConfig(c)
    ensures Alike(live, related, s, t, [], EstimateRun(sqrt, f, c, mode, tested, s),
                  EstimateRun(sqrt, g, c, mode, tested, t))
  {
    var steps := SortedSteps(tested);
    if steps != [] {
      if mode.Shared? {
        var draw := SharedDraw(c, steps[0]);
        AlikeDraw(live, related, f, g, s, t, [], draw);
        var first, other := Tallied(f, s, draw), Tallied(g, t, draw);
        assert [] + [draw] == [draw];
        if first.Some? {
          var (s', arm) := first.value;
          AlikeSteps(sqrt, live, related, f, g, c, mode, Some(arm), steps, s', t, [draw]);
          if other.Some? {
            AlikeSteps(sqrt, live, related, f, g, c, mode, Some(arm), steps, s', other.value.0, [draw]);
          }
          var ran := RunSteps(sqrt, f, c, mode, Some(arm), steps, s');
          if ran.Some? { assert [] + ([draw] + ran.value.asked) == [draw] + ran.value.asked; }
        }
      } else {
        AlikeSteps(sqrt, live, related, f, g, c, mode, None, steps, s, t, []);
      }
    }
  }
}
