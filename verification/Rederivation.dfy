/**
 Re-deriving an estimate from its own recording: the round trip, and truncations of it.
 */
module Rederivation {
  import opened Estimator
  import opened SamplingCosts
  import opened Coupling
  import opened CostCurve

  // ---- Queues under concatenation --------------------------------------------------------------

  lemma {:induction false} OfAdds(a: seq<Record>, b: seq<Record>, key: Key)
    ensures Of(a + b, key) == Of(a, key) + Of(b, key)
  {
    if b == [] {
      assert a + b == a;
    } else {
      var init := b[..|b| - 1];
      assert (a + b)[..|a + b| - 1] == a + init;
      OfAdds(a, init, key);
    }
  }

  lemma {:induction false} SumCallsAdds(a: seq<Record>, b: seq<Record>)
    ensures SumCalls(a + b) == SumCalls(a) + SumCalls(b)
  {
    if b == [] {
      assert a + b == a;
    } else {
      var init := b[..|b| - 1];
      assert (a + b)[..|a + b| - 1] == a + init;
      SumCallsAdds(a, init);
    }
  }

  ghost predicate AllOf(records: seq<Record>, key: Key) {
    forall i | 0 <= i < |records| :: (records[i].step, records[i].arm) == key
  }

  lemma {:induction false} OfUniform(records: seq<Record>, mine: Key, key: Key)
    requires AllOf(records, mine)
    ensures Of(records, key) == if key == mine then records else []
  {
    if records != [] {
      OfUniform(records[..|records| - 1], mine, key);
      assert records == records[..|records| - 1] + [records[|records| - 1]];
    }
  }

  lemma {:induction false} ForksAreOf<E>(run: Executor<E>, world: E, draw: Draw, i: nat)
    ensures var r := RunForks(run, world, draw, i);
            r.Some? ==> AllOf(r.value.1, (draw.step, draw.arm))
    decreases draw.n - i
  {
    if i < draw.n && run(world, draw, i).Some? {
      ForksAreOf(run, run(world, draw, i).value.0, draw, i + 1);
    }
  }

  // ---- The round trip --------------------------------------------------------------------------

  ghost predicate IsPrefix(a: seq<Record>, b: seq<Record>) { |a| <= |b| && b[..|a|] == a }

  /** What was served of `all` is exactly `done`. */
  ghost predicate Caught(done: seq<Record>, t: Served) {
    && t.rerunsUsed == |done|
    && t.callsUsed == SumCalls(done)
    && !t.controlReused
    && forall key :: TakenOf(t, key) == |Of(done, key)|
  }

  lemma NextInQueue(all: seq<Record>, done: seq<Record>, next: seq<Record>, key: Key)
    requires IsPrefix(done + next, all) && AllOf(next, key)
    ensures var queue, start := Of(all, key), |Of(done, key)|;
            start + |next| <= |queue| && queue[start..start + |next|] == next
  {
    var rest := all[|done + next|..];
    assert all == (done + next) + rest;
    OfAdds(done + next, rest, key);
    OfAdds(done, next, key);
    OfUniform(next, key, key);
    assert Of(all, key) == Of(done, key) + next + Of(rest, key);
  }

  lemma CaughtUp(done: seq<Record>, next: seq<Record>, t: Served, key: Key)
    requires Caught(done, t) && AllOf(next, key)
    ensures Caught(done + next, Served(t.taken[key := TakenOf(t, key) + |next|], t.callsUsed + SumCalls(next),
                                       t.rerunsUsed + |next|, false))
  {
    SumCallsAdds(done, next);
    var taken := t.taken[key := TakenOf(t, key) + |next|];
    var t' := Served(taken, t.callsUsed + SumCalls(next), t.rerunsUsed + |next|, false);
    forall other ensures TakenOf(t', other) == |Of(done + next, other)| {
      OfAdds(done, next, other);
      OfUniform(next, key, other);
      assert TakenOf(t, other) == |Of(done, other)|;
    }
  }

  lemma ServesNext(all: seq<Record>, done: seq<Record>, next: seq<Record>, t: Served, draw: Draw)
    requires IsPrefix(done + next, all) && Caught(done, t)
    requires |next| == draw.n > 0 && AllOf(next, (draw.step, draw.arm))
    ensures Serve(all, t, draw).Some?
    ensures var (t', outcomes) := Serve(all, t, draw).value;
            outcomes == Passed(next) && Caught(done + next, t')
  {
    var key := (draw.step, draw.arm);
    NextInQueue(all, done, next, key);
    CaughtUp(done, next, t, key);
    assert TakenOf(t, key) == |Of(done, key)|;
  }

  ghost function Leads<E>(all: seq<Record>): Forked<E> -> bool {
    (s: Forked<E>) => IsPrefix(s.records, all)
  }

  ghost function Mirrors<E>(all: seq<Record>): Relation<Forked<E>, Served> {
    (s: Forked<E>, t: Served, h: seq<Draw>) => Caught(s.records, t)
  }

  lemma RecordingAnswers<E(!new)>(run: Executor<E>, all: seq<Record>)
    ensures Answers(Leads(all), Mirrors(all), ForkSampler(run), RecordedSampler(all))
  {
    var live, related, f, g := Leads<E>(all), Mirrors<E>(all), ForkSampler(run), RecordedSampler(all);
    forall s, d | LiveAfter(live, f, s, d) ensures live(s) {
      var next := RunForks(run, s.world, d, 0).value.1;
      assert IsPrefix(s.records + next, all);
      assert (s.records + next)[..|s.records|] == s.records;
    }
    forall s, t, h, d | related(s, t, h) && LiveAfter(live, f, s, d) ensures AnswersOne(related, f, g, s, t, h, d) {
      ForksAreOf(run, s.world, d, 0);
      ServesNext(all, s.records, RunForks(run, s.world, d, 0).value.1, t, d);
    }
  }

  function Keys(records: seq<Record>): seq<Key> {
    seq(|records|, i requires 0 <= i < |records| => (records[i].step, records[i].arm))
  }

  /** The keys a sequence of draws is recorded under. */
  function Expanded(asked: seq<Draw>): seq<Key> {
    if asked == [] then []
    else Expanded(asked[..|asked| - 1])
         + seq(asked[|asked| - 1].n, _ => (asked[|asked| - 1].step, asked[|asked| - 1].arm))
  }

  lemma {:induction false} ExpandedLength(asked: seq<Draw>)
    ensures |Expanded(asked)| == Drawn(asked, Treated) + Drawn(asked, Control)
  {
    if asked != [] {
      var last := asked[|asked| - 1];
      ExpandedLength(asked[..|asked| - 1]);
      assert asked == asked[..|asked| - 1] + [last];
      DrawnOne(last);
      DrawnAdds(asked[..|asked| - 1], [last], Treated);
      DrawnAdds(asked[..|asked| - 1], [last], Control);
    }
  }

  ghost function RecordsAsked<E>(): Relation<Forked<E>, Forked<E>> {
    (s: Forked<E>, t: Forked<E>, h: seq<Draw>) => s == t && Keys(s.records) == Expanded(h)
  }

  lemma ForksRecordWhatWasAsked<E(!new)>(run: Executor<E>)
    ensures Answers((s: Forked<E>) => true, RecordsAsked(), ForkSampler(run), ForkSampler(run))
  {
    var live, related, f := (s: Forked<E>) => true, RecordsAsked<E>(), ForkSampler(run);
    forall s, t, h, d | related(s, t, h) && LiveAfter(live, f, s, d) ensures AnswersOne(related, f, f, s, t, h, d) {
      ForksAreOf(run, s.world, d, 0);
      var next := RunForks(run, s.world, d, 0).value.1;
      assert (h + [d])[..|h|] == h;
      assert Keys(s.records + next) == Keys(s.records) + seq(d.n, _ => (d.step, d.arm));
    }
  }

  /** The records of a run are its draws, in order. */
  lemma RecordsAreDraws<E(!new)>(sqrt: real -> real, run: Executor<E>, c: Config, mode: ControlMode,
                                 tested: seq<nat>, world: E)
    requires ValidConfig(c)
    ensures var r := EstimateRun(sqrt, ForkSampler(run), c, mode, tested, Forked(world, []));
            r.Some? ==> Keys(r.value.state.records) == Expanded(r.value.asked)
                        && |r.value.state.records| == r.value.value.TotalReruns()
  {
    var s := Forked(world, []);
    var r := EstimateRun(sqrt, ForkSampler(run), c, mode, tested, s);
    ForksRecordWhatWasAsked(run);
    AlikeRuns(sqrt, (s: Forked<E>) => true, RecordsAsked(), ForkSampler(run), ForkSampler(run), c, mode, tested, s, s);
    CostsAreExact(sqrt, ForkSampler(run), c, mode, tested, s);
    if r.Some? {
      assert [] + r.value.asked == r.value.asked;
      ExpandedLength(r.value.asked);
      assert |Keys(r.value.state.records)| == |r.value.state.records|;
    }
  }

  /**
   Feeding a run's re-run records back under the same plan gives the identical estimate, and
   spends exactly what was recorded.
   */
  lemma EstimateRoundTrips<E(!new)>(sqrt: real -> real, run: Executor<E>, c: Config, mode: ControlMode,
                                    tested: seq<nat>, world: E)
    requires ValidConfig(c)
    ensures var r := EstimateRun(sqrt, ForkSampler(run), c, mode, tested, Forked(world, []));
            r.Some? ==>
              var records := r.value.state.records;
              var again := EstimateRun(sqrt, RecordedSampler(records), c, mode, tested, Fresh);
              && again.Some?
              && again.value.value == r.value.value
              && again.value.asked == r.value.asked
              && again.value.state.rerunsUsed == |records| == r.value.value.TotalReruns()
              && again.value.state.callsUsed == SumCalls(records)
              && !again.value.state.controlReused
  {
    var s := Forked(world, []);
    var r := EstimateRun(sqrt, ForkSampler(run), c, mode, tested, s);
    if r.Some? {
      var all := r.value.state.records;
      RecordingAnswers(run, all);
      AlikeRuns(sqrt, Leads(all), Mirrors(all), ForkSampler(run), RecordedSampler(all), c, mode, tested, s, Fresh);
      assert Caught([], Fresh);
      RecordsAreDraws(sqrt, run, c, mode, tested, world);
    }
  }
}
