/**
 The cost curve: an estimate re-derived from the re-runs another one recorded.
 */
module CostCurve {
  import opened Wrappers
  import opened Estimator

  type Key = (nat, Arm)

  datatype Record = Record(step: nat, arm: Arm, passed: bool, calls: nat)

  // ---- Recording: a sampler over forks ---------------------------------------------------------

  datatype Outcome = Outcome(passed: bool, calls: nat)

  /** Runs one fork; `None` is an infrastructure abort. */
  type Executor<!E> = (E, Draw, nat) -> Option<(E, Outcome)>

  /** The executor's world and everything recorded so far. */
  datatype Forked<+E> = Forked(world: E, records: seq<Record>)

  /** The remaining forks of a draw, in draw order. */
  function RunForks<E>(run: Executor<E>, world: E, draw: Draw, i: nat): (r: Option<(E, seq<Record>)>)
    ensures r.Some? && i <= draw.n ==> |r.value.1| == draw.n - i
    decreases draw.n - i
  {
    if i >= draw.n then Some((world, []))
    else
      match run(world, draw, i)
      case None => None
      case Some((world', outcome)) =>
        match RunForks(run, world', draw, i + 1)
        case None => None
        case Some((end, rest)) => Some((end, [Record(draw.step, draw.arm, outcome.passed, outcome.calls)] + rest))
  }

  function Passed(records: seq<Record>): (r: seq<bool>)
    ensures |r| == |records|
  {
    seq(|records|, i requires 0 <= i < |records| => records[i].passed)
  }

  function SampleForks<E>(run: Executor<E>, s: Forked<E>, draw: Draw): Option<(Forked<E>, seq<bool>)> {
    match RunForks(run, s.world, draw, 0)
    case None => None
    case Some((world, records)) => Some((Forked(world, s.records + records), Passed(records)))
  }

  function ForkSampler<E>(run: Executor<E>): Sampler<Forked<E>> {
    (s: Forked<E>, draw: Draw) => SampleForks(run, s, draw)
  }

  /** The whole draw is what was taken and then the rest. */
  ghost predicate CarriesOn<E>(all: Option<(E, seq<Record>)>, taken: seq<Record>, rest: Option<(E, seq<Record>)>) {
    all == match rest case None => None case Some((end, records)) => Some((end, taken + records))
  }

  lemma NothingTaken<E>(all: Option<(E, seq<Record>)>)
    ensures CarriesOn(all, [], all)
  {
    if all.Some? { assert [] + all.value.1 == all.value.1; }
  }

  lemma OneMoreTaken<E>(run: Executor<E>, world: E, draw: Draw, i: nat, all: Option<(E, seq<Record>)>,
                        taken: seq<Record>, record: Record)
    requires i < draw.n && CarriesOn(all, taken, RunForks(run, world, draw, i)) && run(world, draw, i).Some?
    requires var outcome := run(world, draw, i).value.1; record == Record(draw.step, draw.arm, outcome.passed, outcome.calls)
    ensures CarriesOn(all, taken + [record], RunForks(run, run(world, draw, i).value.0, draw, i + 1))
  {
    var tail := RunForks(run, run(world, draw, i).value.0, draw, i + 1);
    if tail.Some? { assert taken + ([record] + tail.value.1) == (taken + [record]) + tail.value.1; }
  }

  /** The sampler as the search holds it: records only grow, and only by whole draws. */
  class ForkRerunSampler<E(!new)> {
    const run: Executor<E>
    var world: E
    var records: seq<Record>

    constructor (run: Executor<E>, world: E)
      ensures this.run == run && State() == Forked(world, [])
    {
      this.run, this.world, this.records := run, world, [];
    }

    function State(): Forked<E>
      reads this
    {
      Forked(world, records)
    }

    method Sample(draw: Draw) returns (r: Option<seq<bool>>)
      modifies this
      ensures match SampleForks(run, old(State()), draw)
              case None => r.None? && records == old(records)
              case Some((s, outcomes)) => r == Some(outcomes) && State() == s
    {
      var taken: seq<Record>, i := [], 0;
      ghost var all := RunForks(run, world, draw, 0);
      NothingTaken(all);
      while i < draw.n
        invariant i <= draw.n && |taken| == i
        invariant records == old(records)
        invariant CarriesOn(all, taken, RunForks(run, world, draw, i))
      {
        var step := run(world, draw, i);
        if step.None? {
          return None;
        }
        var record := Record(draw.step, draw.arm, step.value.1.passed, step.value.1.calls);
        OneMoreTaken(run, world, draw, i, all, taken, record);
        world := step.value.0;
        taken := taken + [record];
        i := i + 1;
      }
      assert taken + [] == taken;
      records := records + taken;
      return Some(Passed(taken));
    }
  }

  // ---- Serving what was recorded ---------------------------------------------------------------

  /** The records of one step and arm, in draw order. */
  function Of(records: seq<Record>, key: Key): seq<Record> {
    if records == [] then []
    else
      var rest := Of(records[..|records| - 1], key);
      var last := records[|records| - 1];
      if (last.step, last.arm) == key then rest + [last] else rest
  }

  function SumCalls(records: seq<Record>): nat {
    if records == [] then 0 else SumCalls(records[..|records| - 1]) + records[|records| - 1].calls
  }

  /** The step of the last control record. */
  function ControlStep(records: seq<Record>): Option<nat> {
    if records == [] then None
    else if records[|records| - 1].arm.Control? then Some(records[|records| - 1].step)
    else ControlStep(records[..|records| - 1])
  }

  datatype Served = Served(taken: map<Key, nat>, callsUsed: nat, rerunsUsed: nat, controlReused: bool)

  const Fresh := Served(map[], 0, 0, false)

  function TakenOf(st: Served, key: Key): nat {
    if key in st.taken then st.taken[key] else 0
  }

  /** The queue a draw is served from; a control arm that was never drawn borrows the recorded one. */
  function KeyOf(records: seq<Record>, step: nat, arm: Arm): Option<Key> {
    if arm.Control? && Of(records, (step, arm)) == [] then
      match ControlStep(records)
      case None => None
      case Some(recorded) => Some((recorded, arm))
    else Some((step, arm))
  }

  function ServeFrom(records: seq<Record>, st: Served, key: Key, n: nat): Option<(Served, seq<bool>)> {
    var queue, start := Of(records, key), TakenOf(st, key);
    if queue == [] || start + n > |queue| then None
    else
      var served := queue[start..start + n];
      Some((Served(st.taken[key := start + n], st.callsUsed + SumCalls(served), st.rerunsUsed + n, st.controlReused),
            Passed(served)))
  }

  function Serve(records: seq<Record>, st: Served, draw: Draw): Option<(Served, seq<bool>)> {
    match KeyOf(records, draw.step, draw.arm)
    case None => None
    case Some(key) =>
      ServeFrom(records, st.(controlReused := st.controlReused || key != (draw.step, draw.arm)), key, draw.n)
  }

  function RecordedSampler(records: seq<Record>): Sampler<Served> {
    (st: Served, draw: Draw) => Serve(records, st, draw)
  }

  function CallsOf(records: seq<Record>): (r: seq<nat>)
    ensures |r| == |records|
  {
    seq(|records|, i requires 0 <= i < |records| => records[i].calls)
  }

  function Sum(xs: seq<nat>): nat {
    if xs == [] then 0 else Sum(xs[..|xs| - 1]) + xs[|xs| - 1]
  }

  lemma {:induction false} SumOfCalls(records: seq<Record>)
    ensures Sum(CallsOf(records)) == SumCalls(records)
  {
    if records != [] {
      SumOfCalls(records[..|records| - 1]);
      assert CallsOf(records)[..|records| - 1] == CallsOf(records[..|records| - 1]);
    }
  }

  /** The queues hold exactly `records`, key by key. */
  ghost predicate Holds(queues: map<Key, seq<bool>>, calls: map<Key, seq<nat>>, records: seq<Record>) {
    forall key :: HoldsAt(queues, calls, records, key)
  }

  ghost predicate HoldsAt(queues: map<Key, seq<bool>>, calls: map<Key, seq<nat>>, records: seq<Record>, key: Key) {
    if Of(records, key) == [] then key !in queues && key !in calls
    else key in queues && queues[key] == Passed(Of(records, key))
         && key in calls && calls[key] == CallsOf(Of(records, key))
  }

  lemma HoldsEach(queues: map<Key, seq<bool>>, calls: map<Key, seq<nat>>, records: seq<Record>, key: Key)
    requires Holds(queues, calls, records)
    ensures HoldsAt(queues, calls, records, key)
  {
  }

  function Queued<T>(queues: map<Key, seq<T>>, key: Key, x: T): map<Key, seq<T>> {
    queues[key := (if key in queues then queues[key] else []) + [x]]
  }

  lemma HoldsMore(queues: map<Key, seq<bool>>, calls: map<Key, seq<nat>>, records: seq<Record>, record: Record)
    requires Holds(queues, calls, records)
    ensures var key := (record.step, record.arm);
            Holds(Queued(queues, key, record.passed), Queued(calls, key, record.calls), records + [record])
  {
    var mine := (record.step, record.arm);
    assert (records + [record])[..|records|] == records;
    forall key
      ensures HoldsAt(Queued(queues, mine, record.passed), Queued(calls, mine, record.calls), records + [record], key)
    {
      assert HoldsAt(queues, calls, records, key);
      var had := Of(records, key);
      if key == mine {
        assert Of(records + [record], key) == had + [record];
        assert Passed(had + [record]) == Passed(had) + [record.passed];
        assert CallsOf(had + [record]) == CallsOf(had) + [record.calls];
      }
    }
  }

  lemma ServedSlice(queues: map<Key, seq<bool>>, calls: map<Key, seq<nat>>, records: seq<Record>, key: Key,
                    start: nat, n: nat)
    requires HoldsAt(queues, calls, records, key) && key in queues && key in calls && start + n <= |queues[key]|
    ensures |Of(records, key)| == |queues[key]| == |calls[key]|
    ensures var served := Of(records, key)[start..start + n];
            && queues[key][start..start + n] == Passed(served)
            && Sum(calls[key][start..start + n]) == SumCalls(served)
  {
    var served := Of(records, key)[start..start + n];
    assert calls[key][start..start + n] == CallsOf(served);
    SumOfCalls(served);
  }

  /** Serves stored outcomes from one queue per step and arm. */
  class RecordedQueues {
    var queues: map<Key, seq<bool>>
    var calls: map<Key, seq<nat>>
    var controlStep: Option<nat>
    var taken: map<Key, nat>
    var callsUsed: nat
    var rerunsUsed: nat
    var controlReused: bool

    ghost predicate Valid(records: seq<Record>)
      reads this
    {
      controlStep == ControlStep(records) && Holds(queues, calls, records)
    }

    function State(): Served
      reads this
    {
      Served(taken, callsUsed, rerunsUsed, controlReused)
    }

    constructor (records: seq<Record>)
      ensures Valid(records) && State() == Fresh
    {
      queues, calls, controlStep := map[], map[], None;
      taken, callsUsed, rerunsUsed, controlReused := map[], 0, 0, false;
      new;
      for i := 0 to |records|
        invariant Valid(records[..i]) && State() == Fresh
      {
        var record := records[i];
        var key := (record.step, record.arm);
        HoldsMore(queues, calls, records[..i], record);
        assert records[..i + 1] == records[..i] + [record];
        assert records[..i + 1][..i] == records[..i];
        queues := Queued(queues, key, record.passed);
        calls := Queued(calls, key, record.calls);
        if record.arm.Control? {
          controlStep := Some(record.step);
        }
      }
      assert records[..|records|] == records;
    }

    /** The source's `_key`. */
    method FindKey(ghost records: seq<Record>, step: nat, arm: Arm) returns (r: Option<Key>)
      requires Valid(records)
      modifies this`controlReused
      ensures r == KeyOf(records, step, arm)
      ensures controlReused == (old(controlReused) || (r.Some? && r.value != (step, arm)))
    {
      HoldsEach(queues, calls, records, (step, arm));
      if arm.Control? && (step, arm) !in queues {
        if controlStep.None? {
          return None;
        }
        controlReused := true;
        LastControlHeld(records);
        return Some((controlStep.value, arm));
      }
      return Some((step, arm));
    }

    method Sample(ghost records: seq<Record>, draw: Draw) returns (r: Option<seq<bool>>)
      requires Valid(records)
      modifies this
      ensures Valid(records)
      ensures match Serve(records, old(State()), draw)
              case None => r.None? && State().(controlReused := old(controlReused)) == old(State())
              case Some((st, outcomes)) => r == Some(outcomes) && State() == st
    {
      var found := FindKey(records, draw.step, draw.arm);
      if found.None? {
        return None;
      }
      r := TakeFrom(records, found.value, draw.n);
    }

    method TakeFrom(ghost records: seq<Record>, key: Key, n: nat) returns (r: Option<seq<bool>>)
      requires Valid(records)
      modifies this`taken, this`callsUsed, this`rerunsUsed
      ensures match ServeFrom(records, old(State()), key, n)
              case None => r.None? && State() == old(State())
              case Some((st, outcomes)) => r == Some(outcomes) && State() == st
    {
      HoldsEach(queues, calls, records, key);
      if key !in queues {
        return None;
      }
      var queue, start := queues[key], if key in taken then taken[key] else 0;
      if start + n > |queue| {
        return None;
      }
      ServedSlice(queues, calls, records, key, start, n);
      taken := taken[key := start + n];
      callsUsed := callsUsed + Sum(calls[key][start..start + n]);
      rerunsUsed := rerunsUsed + n;
      return Some(queue[start..start + n]);
    }
  }

  /** The borrowed control step has a queue. */
  lemma {:induction false} LastControlHeld(records: seq<Record>)
    ensures match ControlStep(records)
            case None => forall step :: Of(records, (step, Control)) == []
            case Some(step) => Of(records, (step, Control)) != []
  {
    if records != [] { LastControlHeld(records[..|records| - 1]); }
  }
}
