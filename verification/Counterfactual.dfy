/**
 Forks that follow a run. A control fork reproduces the run it was cut from; planting a fault
 by forking is living in the faulty world; and a standing fault survives every later fork,
 where a one-shot edit does not.
 */
module Counterfactual {
  import opened Wrappers
  import opened Simulation
  import opened Recording
  import opened Interventions
  import opened FaultInjector
  import opened Replay

  /** A row without what differs from one making of the same run to the next: its stamp and its source. */
  function Plain(step: Step): Step {
    var row := if step.row.ToolRow? then step.row.(result := step.row.result.(stamp := 0)) else step.row;
    step.(fromTape := false, row := row)
  }

  ghost predicate SameRows(a: seq<Step>, b: seq<Step>) {
    |a| == |b| && forall i | 0 <= i < |a| :: Plain(a[i]) == Plain(b[i])
  }

  ghost predicate SameRecorder(a: Recorder, b: Recorder) {
    a.nextIdx == b.nextIdx && a.cached == b.cached && SameRows(a.rows, b.rows)
  }

  /** A driven run is, so far, the run `s`: same history, same world, same tape. */
  ghost predicate Follows(d: Drive, s: Run) {
    && d.stopped.None?
    && d.history == s.history
    && d.replayer.db == s.db
    && d.replayer.events == |s.history|
    && SameRecorder(d.replayer.recorder, s.recorder)
  }

  lemma SameAppend(a: Recorder, b: Recorder, db: DB, actor: Actor, row: Row, row': Row, fromTape: bool, fromTape': bool)
    requires SameRecorder(a, b)
    requires row == row' || (row.ToolRow? && row'.ToolRow? && row.name == row'.name && row.args == row'.args
                             && row.result.answer == row'.result.answer)
    ensures SameRecorder(Appended(a, db, actor, row, fromTape), Appended(b, db, actor, row', fromTape'))
  {
  }

  /** The two worlds answer this run's next event alike. */
  ghost predicate AnswerAlike(p: Program, w: World, v: World, s: Run) {
    match p.next(s.history)
    case Finish(_) => true
    case Ask(q) => w.model(|s.history|, q) == v.model(|s.history|, q)
    case Execute(c) => w.tool(|s.history|, s.db, c) == v.tool(|s.history|, s.db, c)
  }

  /** Past the fork step, a run driven live in a world that answers alike keeps following. */
  lemma LiveEventFollows(p: Program, plan: Plan, w: World, v: World, d: Drive, s: Run)
    requires Follows(d, s) && AnswerAlike(p, w, v, s) && plan.hasLive && !Governed(plan, d.replayer.events)
    ensures Follows(DriveEvent(p, plan, w, d), RunEvent(p, v, s))
  {
    var i := |s.history|;
    match p.next(s.history) {
      case Finish(_) =>
      case Ask(q) =>
        var response := v.model(i, q);
        SameAppend(d.replayer.recorder, s.recorder, s.db, ActorOf(q.purpose), LlmRow(q, response), LlmRow(q, response), false, false);
      case Execute(c) =>
        var (answer, db) := v.tool(i, s.db, c);
        SameAppend(Begun(d.replayer.recorder, s.db), Begun(s.recorder, s.db), db, ToolActor,
                   ToolRow(c.name, c.args, Message(answer, w.clock(i))), ToolRow(c.name, c.args, Message(answer, v.clock(i))), false, false);
    }
  }

  /** The tape's row `i` is the row the run of `v` writes at event `i`. */
  ghost predicate RowOfRun(p: Program, v: World, db0: DB, steps: seq<Step>, i: nat)
    requires i < |steps|
  {
    var rows := Recorded(p, v, db0, i + 1).recorder.rows;
    |rows| == i + 1 && Plain(steps[i]) == Plain(rows[i])
  }

  /** The tape's first `k` rows are those of the run of `v`. */
  ghost predicate TapeOfRun(p: Program, v: World, db0: DB, steps: seq<Step>, k: nat) {
    k <= |steps| && forall i: nat | i < k :: RowOfRun(p, v, db0, steps, i)
  }

  /** While the tape governs and nothing is changed, serving a run's own row follows that run. */
  lemma TapedLlmFollows(p: Program, plan: Plan, w: World, v: World, d: Drive, s: Run, q: Request)
    requires Follows(d, s) && Governed(plan, d.replayer.events)
    requires !AtFork(plan, d.replayer.events) || plan.intervention == NoOp
    requires d.replayer.pos == |s.history| < |plan.steps|
    requires p.next(s.history) == Ask(q)
    requires plan.steps[|s.history|].row == LlmRow(q, v.model(|s.history|, q))
    ensures Follows(DriveEvent(p, plan, w, d), RunEvent(p, v, s))
  {
    var response := v.model(|s.history|, q);
    SameAppend(d.replayer.recorder, s.recorder, s.db, ActorOf(q.purpose), LlmRow(q, response), LlmRow(q, response), true, false);
  }

  lemma TapedToolFollows(p: Program, plan: Plan, w: World, v: World, d: Drive, s: Run, c: Call)
    requires Follows(d, s) && Governed(plan, d.replayer.events)
    requires !AtFork(plan, d.replayer.events) || plan.intervention == NoOp
    requires d.replayer.pos == |s.history| < |plan.steps|
    requires p.next(s.history) == Execute(c)
    requires var step := plan.steps[|s.history|];
             var (answer, db) := v.tool(|s.history|, s.db, c);
             && step.row.ToolRow? && step.row.name == c.name && step.row.args == c.args && step.row.result.answer == answer
             && (plan.mode.Snapshot? ==> step.after == db && step.hash == StateHash(db))
             && !plan.mode.Verify?
             && (plan.mode.RerunLive? ==> w.tool(|s.history|, s.db, c) == v.tool(|s.history|, s.db, c))
    ensures Follows(DriveEvent(p, plan, w, d), RunEvent(p, v, s))
  {
    var i := |s.history|;
    var (answer, db) := v.tool(i, s.db, c);
    SameAppend(Begun(d.replayer.recorder, s.db), Begun(s.recorder, s.db), db, ToolActor,
               ToolRow(c.name, c.args, Message(answer, w.clock(i))), ToolRow(c.name, c.args, Message(answer, v.clock(i))), true, false);
  }

  /** What a run writes at an event it makes. */
  lemma RowMade(p: Program, v: World, db0: DB, i: nat)
    requires |Recorded(p, v, db0, i + 1).recorder.rows| == i + 1
    ensures var s := Recorded(p, v, db0, i);
            var row := Recorded(p, v, db0, i + 1).recorder.rows[i];
            && |s.history| == |s.recorder.rows| == i
            && (match p.next(s.history)
                case Finish(_) => false
                case Ask(q) => row.row == LlmRow(q, v.model(i, q))
                case Execute(c) =>
                  var (answer, db) := v.tool(i, s.db, c);
                  && row.row == ToolRow(c.name, c.args, Message(answer, v.clock(i)))
                  && row.hash == StateHash(db) && row.actor == ToolActor && row.idx == i
                  && (!SilentAt(p, v, db0, i) && CacheExact(s) ==> row.after == db))
  {
    RowsFollowEvents(p, v, db0, i);
    RowsFollowEvents(p, v, db0, i + 1);
    CacheHashIsRight(p, v, db0, i);
  }

  /** One taped event with nothing changed, in either fork mode. */
  lemma TapedEventFollows(p: Program, plan: Plan, w: World, v: World, db0: DB, d: Drive, i: nat)
    requires Follows(d, Recorded(p, v, db0, i)) && Governed(plan, i)
    requires !AtFork(plan, i) || plan.intervention == NoOp
    requires d.replayer.pos == i == |Recorded(p, v, db0, i).history|
    requires i < |plan.steps| && RowOfRun(p, v, db0, plan.steps, i)
    requires !plan.mode.Verify?
    requires plan.mode.RerunLive? ==> SameTools(w, v)
    requires plan.mode.Snapshot? ==> NoSilentChange(p, v, db0, i + 1)
    ensures Follows(DriveEvent(p, plan, w, d), Recorded(p, v, db0, i + 1))
  {
    var s := Recorded(p, v, db0, i);
    RowMade(p, v, db0, i);
    var row := Recorded(p, v, db0, i + 1).recorder.rows[i];
    assert Plain(plan.steps[i]) == Plain(row);
    match p.next(s.history) {
      case Ask(q) =>
        assert plan.steps[i].row == row.row;
        TapedLlmFollows(p, plan, w, v, d, s, q);
      case Execute(c) =>
        if plan.mode.Snapshot? {
          assert !SilentAt(p, v, db0, i);
          CacheIsExact(p, v, db0, i);
        }
        TapedToolFollows(p, plan, w, v, d, s, c);
    }
  }

  /** How a control arm is forked: nothing changed at the fork step, either prefix mode. */
  predicate ControlPlan(plan: Plan) {
    plan.forkStep.Some? && plan.forkStep.value < |plan.steps| && plan.intervention == NoOp && plan.hasLive && !plan.mode.Verify?
  }

  ghost predicate CanFollow(p: Program, plan: Plan, w: World, v: World, db0: DB) {
    && ControlPlan(plan) && SameDynamics(w, v)
    && TapeOfRun(p, v, db0, plan.steps, plan.forkStep.value + 1)
    && (plan.mode.Snapshot? ==> NoSilentChange(p, v, db0, plan.forkStep.value + 1))
  }

  lemma ForkEventFollows(p: Program, plan: Plan, w: World, v: World, db0: DB, d: Drive, n: nat)
    requires CanFollow(p, plan, w, v, db0)
    requires Follows(d, Recorded(p, v, db0, n)) && Steady(plan, d.replayer)
    ensures Follows(DriveEvent(p, plan, w, d), Recorded(p, v, db0, n + 1))
  {
    OneEventPerStage(p, v, db0, n);
    if Finished(p, v, db0, n) {
    } else if Governed(plan, n) {
      assert RowOfRun(p, v, db0, plan.steps, n);
      TapedEventFollows(p, plan, w, v, db0, d, n);
    } else {
      LiveEventFollows(p, plan, w, v, d, Recorded(p, v, db0, n));
    }
  }

  lemma SteadyUnlessStopped(p: Program, plan: Plan, w: World, db0: DB, n: nat)
    requires Driven(p, plan, w, db0, n).stopped.None?
    ensures Steady(plan, Driven(p, plan, w, db0, n).replayer)
  {
    ReplayerInvariant(p, plan, w, db0, n);
  }

  /** A fork whose governing rows are those of the run of `v` follows that run for ever. */
  lemma {:induction false} ForkFollowsRun(p: Program, plan: Plan, w: World, v: World, db0: DB, n: nat)
    requires CanFollow(p, plan, w, v, db0)
    ensures Follows(Driven(p, plan, w, db0, n), Recorded(p, v, db0, n))
  {
    if n == 0 {
      assert Driven(p, plan, w, db0, 0) == NewDrive(db0);
      assert Recorded(p, v, db0, 0) == Run([], db0, NEW_RECORDER);
    } else {
      var d := Driven(p, plan, w, db0, n - 1);
      ForkFollowsRun(p, plan, w, v, db0, n - 1);
      SteadyUnlessStopped(p, plan, w, db0, n - 1);
      ForkEventFollows(p, plan, w, v, db0, d, n - 1);
      assert Driven(p, plan, w, db0, n) == DriveEvent(p, plan, w, d);
    }
  }

  /** A run's own tape is the tape of that run. */
  lemma OwnTape(p: Program, v: World, db0: DB, m: nat)
    ensures var rows := Recorded(p, v, db0, m).recorder.rows; TapeOfRun(p, v, db0, rows, |rows|)
  {
    var rows := Recorded(p, v, db0, m).recorder.rows;
    forall i: nat | i < |rows| ensures RowOfRun(p, v, db0, rows, i) {
      RowStays(p, v, db0, m, i);
      RowsFollowEvents(p, v, db0, i + 1);
      RowsFollowEvents(p, v, db0, i);
    }
  }

  /**
   Control-fork reproduction: forking a recorded run at any step with nothing changed, in a world
   that answers alike, gives the recorded history, worlds and tape at every stage, and its end and
   reward; so a snapshot prefix and a re-run-live prefix give the same run.
   */
  lemma ControlForkReproduces(p: Program, plan: Plan, w: World, v: World, db0: DB, m: nat, n: nat)
    requires Finished(p, v, db0, m) && plan.steps == Recorded(p, v, db0, m).recorder.rows
    requires ControlPlan(plan) && SameDynamics(w, v)
    requires plan.mode.Snapshot? ==> NoSilentChange(p, v, db0, plan.forkStep.value + 1)
    ensures Follows(Driven(p, plan, w, db0, n), Recorded(p, v, db0, n))
    ensures n >= m ==> var d := Driven(p, plan, w, db0, n);
                       && Ended(p, d) && SameRows(d.replayer.recorder.rows, plan.steps)
                       && p.score(d.history) == p.score(Recorded(p, v, db0, m).history)
  {
    OwnTape(p, v, db0, m);
    ForkFollowsRun(p, plan, w, v, db0, n);
    if n >= m { StaysFinished(p, v, db0, m, n); }
  }

  // ---- when a control fork reproduces its run ------------------------------------------------------

  /** The first `n` tool results a fork takes from its tape, or from its own tools, are the run's. */
  ghost predicate PrefixRestores(p: Program, plan: Plan, w: World, v: World, db0: DB, n: nat) {
    match plan.mode
    case Snapshot => NoSilentChange(p, v, db0, n)
    case RerunLive => SameTools(w, v)
    case Verify => false
  }

  lemma PrefixEventFollows(p: Program, plan: Plan, w: World, v: World, db0: DB, d: Drive, i: nat)
    requires PrefixRestores(p, plan, w, v, db0, i + 1) && plan.forkStep.Some? && i < plan.forkStep.value && i < |plan.steps|
    requires RowOfRun(p, v, db0, plan.steps, i)
    requires Follows(d, Recorded(p, v, db0, i)) && Steady(plan, d.replayer)
    ensures Follows(DriveEvent(p, plan, w, d), Recorded(p, v, db0, i + 1))
  {
    RowMade(p, v, db0, i);
    TapedEventFollows(p, plan, w, v, db0, d, i);
  }

  /** Once a fork follows a run at a stage, it does at the next: stage by stage up to `n`. */
  ghost predicate StageFollows(p: Program, plan: Plan, w: World, v: World, db0: DB, i: nat) {
    Follows(Driven(p, plan, w, db0, i), Recorded(p, v, db0, i))
    ==> Follows(Driven(p, plan, w, db0, i + 1), Recorded(p, v, db0, i + 1))
  }

  lemma {:induction false} FollowsThroughout(p: Program, plan: Plan, w: World, v: World, db0: DB, n: nat)
    requires forall i: nat | i < n :: StageFollows(p, plan, w, v, db0, i)
    ensures Follows(Driven(p, plan, w, db0, n), Recorded(p, v, db0, n))
  {
    if n == 0 {
      assert Driven(p, plan, w, db0, 0) == NewDrive(db0);
      assert Recorded(p, v, db0, 0) == Run([], db0, NEW_RECORDER);
    } else {
      FollowsThroughout(p, plan, w, v, db0, n - 1);
      assert StageFollows(p, plan, w, v, db0, n - 1);
    }
  }

  /** Up to its fork step a fork follows the run its tape is from, whatever it is about to change. */
  lemma PrefixFollows(p: Program, plan: Plan, w: World, v: World, db0: DB, k: nat, n: nat)
    requires PrefixRestores(p, plan, w, v, db0, n) && plan.forkStep == Some(k) && n <= k
    requires TapeOfRun(p, v, db0, plan.steps, k)
    ensures Follows(Driven(p, plan, w, db0, n), Recorded(p, v, db0, n))
  {
    forall i: nat | i < n ensures StageFollows(p, plan, w, v, db0, i) {
      assert RowOfRun(p, v, db0, plan.steps, i);
      if Follows(Driven(p, plan, w, db0, i), Recorded(p, v, db0, i)) { PrefixStageFollows(p, plan, w, v, db0, i); }
    }
    FollowsThroughout(p, plan, w, v, db0, n);
  }

  lemma PrefixStageFollows(p: Program, plan: Plan, w: World, v: World, db0: DB, i: nat)
    requires PrefixRestores(p, plan, w, v, db0, i + 1) && plan.forkStep.Some? && i < plan.forkStep.value && i < |plan.steps|
    requires RowOfRun(p, v, db0, plan.steps, i)
    requires Follows(Driven(p, plan, w, db0, i), Recorded(p, v, db0, i))
    ensures Follows(Driven(p, plan, w, db0, i + 1), Recorded(p, v, db0, i + 1))
  {
    SteadyUnlessStopped(p, plan, w, db0, i);
    PrefixEventFollows(p, plan, w, v, db0, Driven(p, plan, w, db0, i), i);
  }

  /** What a tape-governed tool event of a snapshot fork leaves the world as, its result changed or not: the tape's own snapshot. */
  lemma TapedToolRestores(p: Program, plan: Plan, w: World, d: Drive, i: nat)
    requires d.stopped.None? && plan.mode.Snapshot? && Governed(plan, i)
    requires !AtFork(plan, i) || !plan.intervention.Resample?
    requires d.replayer.events == d.replayer.pos == i < |plan.steps| && p.next(d.history).Execute?
    ensures var e := DriveEvent(p, plan, w, d); e.stopped.Some? || e.replayer.db == plan.steps[i].after
  {
  }

  /** A run's first silent event, restored from its stale snapshot, leaves another world than the run's. */
  lemma SilentEventBreaks(p: Program, plan: Plan, w: World, v: World, db0: DB, i: nat)
    requires ControlPlan(plan) && plan.mode.Snapshot? && i <= plan.forkStep.value
    requires TapeOfRun(p, v, db0, plan.steps, plan.forkStep.value + 1)
    requires SilentAt(p, v, db0, i) && NoSilentChange(p, v, db0, i)
    ensures !Follows(Driven(p, plan, w, db0, i + 1), Recorded(p, v, db0, i + 1))
  {
    var k := plan.forkStep.value;
    assert TapeOfRun(p, v, db0, plan.steps, k);
    PrefixFollows(p, plan, w, v, db0, k, i);
    assert RowOfRun(p, v, db0, plan.steps, i);
    SilentRowIsStale(p, v, db0, plan.steps, i);
    StaleRowRestored(p, plan, w, v, db0, i);
  }

  /** A run's first silent event is a tool's, and its row carries another world than it left. */
  lemma SilentRowIsStale(p: Program, v: World, db0: DB, steps: seq<Step>, i: nat)
    requires i < |steps| && RowOfRun(p, v, db0, steps, i) && SilentAt(p, v, db0, i) && NoSilentChange(p, v, db0, i)
    ensures |Recorded(p, v, db0, i).history| == i && p.next(Recorded(p, v, db0, i).history).Execute?
    ensures steps[i].after != Recorded(p, v, db0, i + 1).db
  {
    RowMade(p, v, db0, i);
    RowExactIffNotSilent(p, v, db0, i + 1, i);
    assert Plain(steps[i]) == Plain(Recorded(p, v, db0, i + 1).recorder.rows[i]);
  }

  lemma StaleRowRestored(p: Program, plan: Plan, w: World, v: World, db0: DB, i: nat)
    requires ControlPlan(plan) && plan.mode.Snapshot? && i <= plan.forkStep.value && i < |plan.steps|
    requires Follows(Driven(p, plan, w, db0, i), Recorded(p, v, db0, i))
    requires |Recorded(p, v, db0, i).history| == i && p.next(Recorded(p, v, db0, i).history).Execute?
    requires plan.steps[i].after != Recorded(p, v, db0, i + 1).db
    ensures !Follows(Driven(p, plan, w, db0, i + 1), Recorded(p, v, db0, i + 1))
  {
    SteadyUnlessStopped(p, plan, w, db0, i);
    TapedToolRestores(p, plan, w, Driven(p, plan, w, db0, i), i);
  }

  /** A fork with nothing changed follows the run its tape is from exactly when the snapshots it restores are that run's worlds. */
  lemma ForkFollowsIffExact(p: Program, plan: Plan, w: World, v: World, db0: DB)
    requires ControlPlan(plan) && SameDynamics(w, v) && TapeOfRun(p, v, db0, plan.steps, plan.forkStep.value + 1)
    ensures (forall n: nat :: Follows(Driven(p, plan, w, db0, n), Recorded(p, v, db0, n)))
            <==> (plan.mode.Snapshot? ==> NoSilentChange(p, v, db0, plan.forkStep.value + 1))
  {
    var k := plan.forkStep.value;
    if plan.mode.Snapshot? && !NoSilentChange(p, v, db0, k + 1) {
      var i := FirstSilent(p, v, db0, k + 1);
      SilentEventBreaks(p, plan, w, v, db0, i);
    } else {
      forall n: nat ensures Follows(Driven(p, plan, w, db0, n), Recorded(p, v, db0, n)) {
        ForkFollowsRun(p, plan, w, v, db0, n);
      }
    }
  }

  /** A control fork of a finished recording reproduces it at every stage exactly when its prefix has no stale snapshot to restore. */
  lemma ControlForkReproducesIffExact(p: Program, plan: Plan, w: World, v: World, db0: DB, m: nat)
    requires Finished(p, v, db0, m) && plan.steps == Recorded(p, v, db0, m).recorder.rows
    requires ControlPlan(plan) && SameDynamics(w, v)
    ensures (forall n: nat :: Follows(Driven(p, plan, w, db0, n), Recorded(p, v, db0, n)))
            <==> (plan.mode.Snapshot? ==> NoSilentChange(p, v, db0, plan.forkStep.value + 1))
  {
    OwnTape(p, v, db0, m);
    ForkFollowsIffExact(p, plan, w, v, db0);
  }

  /** The control fork of one tool call, at that call. */
  function OneCallControl(p: Program, v: World, db0: DB): Plan {
    Plan(Recorded(p, v, db0, 1).recorder.rows, Some(0), Snapshot, NoOp, true, false)
  }

  /** Such a fork: the run whose tool writes the user-side database is not reproduced. */
  lemma StaleForkDiffers(c: Call, agent: string, before: string, after: string)
    requires before != after
    ensures var p, v, db0 := OneCall(c), UserWriter(after), DB(agent, before);
            && Finished(p, v, db0, 1) && ControlPlan(OneCallControl(p, v, db0))
            && !Follows(Driven(p, OneCallControl(p, v, db0), v, db0, 1), Recorded(p, v, db0, 1))
  {
    var p, v, db0 := OneCall(c), UserWriter(after), DB(agent, before);
    UserWriteIsRecordedStale(c, agent, before, after);
    assert Recorded(p, v, db0, 0) == Run([], db0, NEW_RECORDER);
    assert SilentAt(p, v, db0, 0);
    OwnTape(p, v, db0, 1);
    SilentEventBreaks(p, OneCallControl(p, v, db0), v, v, db0, 0);
  }

  // ---- when the planted item shares its base run's prefix -----------------------------------------

  /** The fault would change what this recorded tool row answered. */
  predicate Corrupts(spec: FaultSpec, step: Step) {
    && step.row.ToolRow? && Matches(spec, step.row.name, step.row.args)
    && (spec.error || !step.row.result.answer.error)
    && (step.row.result.answer.content != spec.content || step.row.result.answer.error != spec.error)
  }

  lemma FaultyEvent(p: Program, v: World, db0: DB, steps: seq<Step>, spec: FaultSpec, i: nat)
    requires i < |steps| && RowOfRun(p, v, db0, steps, i)
    ensures var clean, faulty := RunEvent(p, v, Recorded(p, v, db0, i)), RunEvent(p, Faulted(v, Some(spec)), Recorded(p, v, db0, i));
            && |clean.history| == |faulty.history| == i + 1
            && (if Corrupts(spec, steps[i]) then faulty.history[i] != clean.history[i] else faulty == clean)
  {
    RowMade(p, v, db0, i);
    assert Plain(steps[i]) == Plain(Recorded(p, v, db0, i + 1).recorder.rows[i]);
  }

  lemma StageBefore(p: Program, w: World, db0: DB, i: nat)
    requires |Recorded(p, w, db0, i + 1).history| == i + 1
    ensures Recorded(p, w, db0, i).history == Recorded(p, w, db0, i + 1).history[..i]
  {
    RowsFollowEvents(p, w, db0, i);
    Grows(p, w, db0, i, i + 1);
    var s := Recorded(p, w, db0, i);
    assert Recorded(p, w, db0, i + 1) == RunEvent(p, w, s);
    assert |RunEvent(p, w, s).history| <= |s.history| + 1;
  }

  predicate NothingCorrupted(steps: seq<Step>, spec: FaultSpec, k: nat)
    requires k <= |steps|
  {
    forall i: nat | i < k :: !Corrupts(spec, steps[i])
  }

  ghost predicate SameHistory(p: Program, v: World, w: World, db0: DB, k: nat) {
    Recorded(p, w, db0, k).history == Recorded(p, v, db0, k).history
  }

  ghost predicate SameRun(p: Program, v: World, w: World, db0: DB, k: nat) {
    Recorded(p, w, db0, k) == Recorded(p, v, db0, k)
  }

  /** Sharing the history and sharing the run each come to `clean`. */
  ghost predicate SharedIff(p: Program, v: World, w: World, db0: DB, k: nat, clean: bool) {
    (SameHistory(p, v, w, db0, k) <==> clean) && (SameRun(p, v, w, db0, k) <==> clean)
  }

  /** If that holds at stage `i` of what the fault changes, it holds at the next. */
  ghost predicate SharedNext(p: Program, v: World, db0: DB, steps: seq<Step>, spec: FaultSpec, i: nat)
    requires i < |steps|
  {
    SharedIff(p, v, Faulted(v, Some(spec)), db0, i, NothingCorrupted(steps, spec, i))
    ==> SharedIff(p, v, Faulted(v, Some(spec)), db0, i + 1, NothingCorrupted(steps, spec, i + 1))
  }

  lemma {:induction false} SharedThroughout(p: Program, v: World, db0: DB, steps: seq<Step>, spec: FaultSpec, k: nat)
    requires k <= |steps| && forall i: nat | i < k :: SharedNext(p, v, db0, steps, spec, i)
    ensures SharedIff(p, v, Faulted(v, Some(spec)), db0, k, NothingCorrupted(steps, spec, k))
  {
    if k > 0 {
      SharedThroughout(p, v, db0, steps, spec, k - 1);
      assert SharedNext(p, v, db0, steps, spec, k - 1);
    }
  }

  /** The faulty world's run shares the clean run's first `k` events exactly when the fault changes none of them. */
  lemma PrefixSharedIffNothingCorrupted(p: Program, v: World, db0: DB, steps: seq<Step>, spec: FaultSpec, k: nat)
    requires TapeOfRun(p, v, db0, steps, k)
    ensures SharedIff(p, v, Faulted(v, Some(spec)), db0, k, NothingCorrupted(steps, spec, k))
  {
    forall i: nat | i < k ensures SharedNext(p, v, db0, steps, spec, i) {
      assert RowOfRun(p, v, db0, steps, i);
      OneMoreRow(steps, spec, i);
      if SharedIff(p, v, Faulted(v, Some(spec)), db0, i, NothingCorrupted(steps, spec, i)) {
        SharedStage(p, v, db0, steps, spec, i, NothingCorrupted(steps, spec, i));
      }
    }
    SharedThroughout(p, v, db0, steps, spec, k);
  }

  lemma SharedStage(p: Program, v: World, db0: DB, steps: seq<Step>, spec: FaultSpec, i: nat, clean: bool)
    requires i < |steps| && RowOfRun(p, v, db0, steps, i)
    requires SharedIff(p, v, Faulted(v, Some(spec)), db0, i, clean)
    ensures SharedIff(p, v, Faulted(v, Some(spec)), db0, i + 1, clean && !Corrupts(spec, steps[i]))
  {
    PrefixStage(p, v, db0, steps, spec, i);
  }

  lemma OneMoreRow(steps: seq<Step>, spec: FaultSpec, k: nat)
    requires k < |steps|
    ensures NothingCorrupted(steps, spec, k + 1) <==> NothingCorrupted(steps, spec, k) && !Corrupts(spec, steps[k])
  {
  }

  lemma PrefixStage(p: Program, v: World, db0: DB, steps: seq<Step>, spec: FaultSpec, i: nat)
    requires i < |steps| && RowOfRun(p, v, db0, steps, i)
    ensures var w := Faulted(v, Some(spec));
            && (SameHistory(p, v, w, db0, i + 1) ==> SameHistory(p, v, w, db0, i))
            && (SameRun(p, v, w, db0, i) && Corrupts(spec, steps[i]) ==> !SameHistory(p, v, w, db0, i + 1))
            && (SameRun(p, v, w, db0, i) && !Corrupts(spec, steps[i]) ==> SameRun(p, v, w, db0, i + 1))
  {
    var w := Faulted(v, Some(spec));
    FaultyEvent(p, v, db0, steps, spec, i);
    StageBefore(p, v, db0, i);
    if SameHistory(p, v, w, db0, i + 1) {
      StageBefore(p, w, db0, i);
    }
  }

  // ---- planting a fault ------------------------------------------------------------------------

  /** This exact call already occurs on the tape before step `k`. */
  predicate RepeatsBefore(steps: seq<Step>, k: nat)
    requires k < |steps| && steps[k].row.ToolRow?
  {
    exists i: nat :: i < k && steps[i].row.ToolRow? && steps[i].row.name == steps[k].row.name && steps[i].row.args == steps[k].row.args
  }

  /** Step `k` of a recording of `v` is a tool row. */
  ghost predicate ToolSite(p: Program, v: World, db0: DB, steps: seq<Step>, k: nat) {
    TapeOfRun(p, v, db0, steps, |steps|) && k < |steps| && steps[k].row.ToolRow?
  }

  /** And the snapshots up to it are exact. */
  ghost predicate Site(p: Program, v: World, db0: DB, steps: seq<Step>, k: nat) {
    ToolSite(p, v, db0, steps, k) && NoSilentChange(p, v, db0, k + 1)
  }

  function StandingFault(steps: seq<Step>, k: nat, mutated: Replacement, faultType: string): FaultSpec
    requires k < |steps| && steps[k].row.ToolRow?
  {
    FromMutation(steps[k].row.name, steps[k].row.args, mutated, k, faultType)
  }

  /** The standing fault changes no answer on the tape before `k`. */
  predicate Undisturbed(steps: seq<Step>, k: nat, mutated: Replacement, faultType: string)
    requires k < |steps| && steps[k].row.ToolRow?
  {
    NothingCorrupted(steps, StandingFault(steps, k, mutated, faultType), k)
  }

  /** The collector's guard is enough for that. */
  lemma NotRepeatedIsUndisturbed(steps: seq<Step>, k: nat, mutated: Replacement, faultType: string)
    requires k < |steps| && steps[k].row.ToolRow? && !RepeatsBefore(steps, k)
    ensures Undisturbed(steps, k, mutated, faultType)
  {
  }

  /** The fork that plants a fault: the recorded result replaced at step `k` of a snapshot prefix. */
  function PlantPlan(steps: seq<Step>, k: nat, mutated: Replacement): Plan {
    Plan(steps, Some(k), Snapshot, ReplaceToolResult(k, mutated), true, false)
  }

  /** Before the first faulted call the faulty world is the ordinary one. */
  lemma FaultyWorldAgreesBefore(p: Program, v: World, db0: DB, steps: seq<Step>, k: nat, mutated: Replacement, faultType: string, n: nat)
    requires ToolSite(p, v, db0, steps, k) && Undisturbed(steps, k, mutated, faultType) && n <= k
    ensures SameRun(p, v, Faulted(v, Some(StandingFault(steps, k, mutated, faultType))), db0, n)
  {
    var spec := StandingFault(steps, k, mutated, faultType);
    assert NothingCorrupted(steps, spec, n);
    PrefixSharedIffNothingCorrupted(p, v, db0, steps, spec, n);
  }

  /** This plan changes the recorded result of tool step `i` into itself overlaid with `r`. */
  ghost predicate Overlays(plan: Plan, i: nat, r: Replacement) {
    && plan.forkStep == Some(i) && plan.mode.Snapshot? && i < |plan.steps|
    && forall m: Message :: ApplyToResult(plan.intervention, plan.steps[i], m) == Use(Merged(m, r))
  }

  /** What a fork event that overlays a result shows the agent, and the world it leaves. */
  lemma OverlaidEvent(p: Program, plan: Plan, w: World, d: Drive, s: Run, c: Call, r: Replacement, db: DB)
    requires Follows(d, s) && p.next(s.history) == Execute(c) && d.replayer.pos == |s.history|
    requires Overlays(plan, |s.history|, r)
    requires var step := plan.steps[|s.history|];
             && step.row.ToolRow? && step.row.name == c.name && step.row.args == c.args
             && step.after == db && step.hash == StateHash(db)
    ensures var shown := Merged(Message(plan.steps[|s.history|].row.result.answer, 0), r).answer;
            var e := DriveEvent(p, plan, w, d);
            && e.stopped.None? && e.history == s.history + [Answered(shown)] && e.replayer.db == db
            && e.replayer.events == |s.history| + 1
            && SameRecorder(e.replayer.recorder, WithTool(Begun(s.recorder, s.db), db, c, Message(shown, 0), false))
  {
    var i := |s.history|;
    var recorded := plan.steps[i].row.result.answer;
    var shown := Merged(Message(recorded, 0), r).answer;
    assert Merged(Message(recorded, w.clock(i)), r).answer == shown;
    assert ApplyToResult(plan.intervention, plan.steps[i], Message(recorded, w.clock(i))) == Use(Merged(Message(recorded, w.clock(i)), r));
    SameAppend(Begun(d.replayer.recorder, s.db), Begun(s.recorder, s.db), db, ToolActor,
               ToolRow(c.name, c.args, Message(shown, w.clock(i))), ToolRow(c.name, c.args, Message(shown, 0)), true, false);
  }

  /** The fork event joins the run of `world` when it shows what `world`'s tool shows and leaves the same database. */
  lemma OverlaidEventFollows(p: Program, plan: Plan, w: World, world: World, d: Drive, s: Run, c: Call, r: Replacement, db: DB)
    requires Follows(d, s) && p.next(s.history) == Execute(c) && d.replayer.pos == |s.history|
    requires Overlays(plan, |s.history|, r)
    requires var step := plan.steps[|s.history|];
             && step.row.ToolRow? && step.row.name == c.name && step.row.args == c.args
             && step.after == db && step.hash == StateHash(db)
    requires world.tool(|s.history|, s.db, c).1 == db
    ensures Follows(DriveEvent(p, plan, w, d), RunEvent(p, world, s))
            <==> Merged(Message(plan.steps[|s.history|].row.result.answer, 0), r).answer == world.tool(|s.history|, s.db, c).0
  {
    OverlaidEvent(p, plan, w, d, s, c, r, db);
    var i := |s.history|;
    var shown := Merged(Message(plan.steps[i].row.result.answer, 0), r).answer;
    var (answer, _) := world.tool(i, s.db, c);
    assert RunEvent(p, world, s).history == s.history + [Answered(answer)];
    if shown == answer {
      SameAppend(Begun(s.recorder, s.db), Begun(s.recorder, s.db), db, ToolActor,
                 ToolRow(c.name, c.args, Message(shown, 0)), ToolRow(c.name, c.args, Message(answer, world.clock(i))), false, false);
    } else {
      assert (s.history + [Answered(answer)])[i] == Answered(answer);
      assert (s.history + [Answered(shown)])[i] == Answered(shown);
    }
  }

  /** Row `i` is this call's, whatever its answer said, leaving the database the tool left. */
  predicate RowOfCall(step: Step, i: nat, c: Call, answer: Answer, db: DB) {
    && step.row.ToolRow? && step.row.name == c.name && step.row.args == c.args
    && step.row.result.answer.id == answer.id && step.row.result.answer.requestor == answer.requestor
    && step.idx == i && step.actor == ToolActor && step.after == db && step.hash == StateHash(db)
  }

  /** The planted step of the clean run. */
  lemma SiteCall(p: Program, v: World, db0: DB, steps: seq<Step>, k: nat) returns (c: Call)
    requires Site(p, v, db0, steps, k)
    ensures var s := Recorded(p, v, db0, k);
            && |s.history| == |s.recorder.rows| == k && p.next(s.history) == Execute(c)
            && steps[k].row.result.answer == v.tool(k, s.db, c).0
            && RowOfCall(steps[k], k, c, v.tool(k, s.db, c).0, v.tool(k, s.db, c).1)
            && CacheExact(s) && !SilentAt(p, v, db0, k)
  {
    assert RowOfRun(p, v, db0, steps, k);
    RowMade(p, v, db0, k);
    assert !SilentAt(p, v, db0, k);
    CacheIsExact(p, v, db0, k);
    assert Plain(steps[k]) == Plain(Recorded(p, v, db0, k + 1).recorder.rows[k]);
    c := p.next(Recorded(p, v, db0, k).history).call;
  }

  /** At the planted step the fork joins the faulty world's run exactly when the mutation is plantable. */
  lemma PlantedStep(
    p: Program, v: World, w: World, db0: DB, steps: seq<Step>, k: nat, mutated: Replacement, faultType: string)
    requires Site(p, v, db0, steps, k) && Undisturbed(steps, k, mutated, faultType)
    ensures var world := Faulted(v, Some(StandingFault(steps, k, mutated, faultType)));
            Follows(Driven(p, PlantPlan(steps, k, mutated), w, db0, k + 1), Recorded(p, world, db0, k + 1))
            <==> Plantable(steps[k].row.result.answer, mutated)
  {
    var plan := PlantPlan(steps, k, mutated);
    var spec := StandingFault(steps, k, mutated, faultType);
    var world := Faulted(v, Some(spec));
    PrefixFollows(p, plan, w, v, db0, k, k);
    FaultyWorldAgreesBefore(p, v, db0, steps, k, mutated, faultType, k);
    SteadyUnlessStopped(p, plan, w, db0, k);
    var c := SiteCall(p, v, db0, steps, k);
    var d, s := Driven(p, plan, w, db0, k), Recorded(p, v, db0, k);
    var (answer, db) := v.tool(k, s.db, c);
    assert world.tool(k, s.db, c) == (Corrupted(spec, c, answer), db);
    OverlaidEventFollows(p, plan, w, world, d, s, c, mutated, db);
    assert Driven(p, plan, w, db0, k + 1) == DriveEvent(p, plan, w, d);
    ReplacedIsInjectedIffPlantable(Message(answer, 0), c, mutated, k, faultType);
  }

  /** Past its fork step a fork is live for good. */
  lemma PastTheFork(p: Program, v: World, plan: Plan, u: World, db0: DB, k: nat, n: nat)
    requires plan.forkStep == Some(k) && k < n && !Finished(p, v, db0, k)
    requires Follows(Driven(p, plan, u, db0, k + 1), Recorded(p, v, db0, k + 1))
    ensures !Governed(plan, Driven(p, plan, u, db0, n).replayer.events)
  {
    StageHappened(p, v, db0, k);
    CursorParks(p, plan, u, db0, k + 1, n);
  }

  lemma StageHappened(p: Program, v: World, db0: DB, k: nat)
    requires !Finished(p, v, db0, k)
    ensures |Recorded(p, v, db0, k + 1).history| == k + 1
  {
    OneEventPerStage(p, v, db0, k);
  }

  ghost predicate AlikeAt(p: Program, u: World, v: World, db0: DB, i: nat) {
    AnswerAlike(p, u, v, Recorded(p, v, db0, i))
  }

  lemma LiveStageFollows(p: Program, plan: Plan, u: World, v: World, db0: DB, n: nat)
    requires Follows(Driven(p, plan, u, db0, n), Recorded(p, v, db0, n)) && plan.hasLive && AlikeAt(p, u, v, db0, n)
    requires !Governed(plan, Driven(p, plan, u, db0, n).replayer.events)
    ensures Follows(Driven(p, plan, u, db0, n + 1), Recorded(p, v, db0, n + 1))
  {
    LiveEventFollows(p, plan, u, v, Driven(p, plan, u, db0, n), Recorded(p, v, db0, n));
    assert Driven(p, plan, u, db0, n + 1) == DriveEvent(p, plan, u, Driven(p, plan, u, db0, n));
  }

  /** Once joined at stage `i`, the fork is with the run at the next stage too. */
  ghost predicate StaysAt(p: Program, v: World, u: World, db0: DB, plan: Plan, i: nat) {
    Follows(Driven(p, plan, u, db0, i), Recorded(p, v, db0, i))
    ==> Follows(Driven(p, plan, u, db0, i + 1), Recorded(p, v, db0, i + 1))
  }

  lemma {:induction false} StaysThroughout(p: Program, v: World, u: World, db0: DB, plan: Plan, m: nat, n: nat)
    requires m <= n && Follows(Driven(p, plan, u, db0, m), Recorded(p, v, db0, m))
    requires forall i: nat | m <= i < n :: StaysAt(p, v, u, db0, plan, i)
    ensures Follows(Driven(p, plan, u, db0, n), Recorded(p, v, db0, n))
  {
    if m < n {
      StaysThroughout(p, v, u, db0, plan, m, n - 1);
      assert StaysAt(p, v, u, db0, plan, n - 1);
    }
  }

  /** A live fork that has joined a run stays with it through every event its world answers alike. */
  lemma StaysWithRun(p: Program, v: World, u: World, db0: DB, plan: Plan, k: nat, n: nat)
    requires plan.forkStep == Some(k) && plan.hasLive && k < n && !Finished(p, v, db0, k)
    requires Follows(Driven(p, plan, u, db0, k + 1), Recorded(p, v, db0, k + 1))
    requires forall i: nat | k < i < n :: AlikeAt(p, u, v, db0, i)
    ensures Follows(Driven(p, plan, u, db0, n), Recorded(p, v, db0, n))
  {
    forall i: nat | k + 1 <= i < n ensures StaysAt(p, v, u, db0, plan, i) {
      assert AlikeAt(p, u, v, db0, i);
      if Follows(Driven(p, plan, u, db0, i), Recorded(p, v, db0, i)) { PastStageFollows(p, v, u, db0, plan, k, i); }
    }
    StaysThroughout(p, v, u, db0, plan, k + 1, n);
  }

  lemma PastStageFollows(p: Program, v: World, u: World, db0: DB, plan: Plan, k: nat, i: nat)
    requires plan.forkStep == Some(k) && plan.hasLive && k < i && !Finished(p, v, db0, k) && AlikeAt(p, u, v, db0, i)
    requires Follows(Driven(p, plan, u, db0, k + 1), Recorded(p, v, db0, k + 1))
    requires Follows(Driven(p, plan, u, db0, i), Recorded(p, v, db0, i))
    ensures Follows(Driven(p, plan, u, db0, i + 1), Recorded(p, v, db0, i + 1))
  {
    PastTheFork(p, v, plan, u, db0, k, i);
    LiveStageFollows(p, plan, u, v, db0, i);
  }

  /**
   Planting by fork is living in the faulty world: forking the clean run at `k` with the result
   replaced and the fault standing gives, at every stage, the run made from scratch under the
   fault; and that run is the clean run at every stage up to `k`.
   */
  lemma PlantingIsLivingInTheFaultyWorld(
    p: Program, v: World, w: World, db0: DB, steps: seq<Step>, k: nat, mutated: Replacement, faultType: string, n: nat)
    requires Site(p, v, db0, steps, k) && Undisturbed(steps, k, mutated, faultType)
    requires Plantable(steps[k].row.result.answer, mutated)
    requires SameDynamics(w, Faulted(v, Some(StandingFault(steps, k, mutated, faultType))))
    ensures var world := Faulted(v, Some(StandingFault(steps, k, mutated, faultType)));
            && Follows(Driven(p, PlantPlan(steps, k, mutated), w, db0, n), Recorded(p, world, db0, n))
            && (n <= k ==> Recorded(p, world, db0, n) == Recorded(p, v, db0, n))
  {
    var plan := PlantPlan(steps, k, mutated);
    var world := Faulted(v, Some(StandingFault(steps, k, mutated, faultType)));
    if n <= k {
      PrefixFollows(p, plan, w, v, db0, k, n);
      FaultyWorldAgreesBefore(p, v, db0, steps, k, mutated, faultType, n);
    } else {
      var _ := SiteCall(p, v, db0, steps, k);
      FaultyWorldAgreesBefore(p, v, db0, steps, k, mutated, faultType, k);
      PlantedStep(p, v, w, db0, steps, k, mutated, faultType);
      forall i: nat | k < i < n ensures AlikeAt(p, w, world, db0, i) {
      }
      StaysWithRun(p, world, w, db0, plan, k, n);
    }
  }

  // ---- when planting is living under the fault -----------------------------------------------------

  /** What a tape-governed tool event before the fork step tells: the tape's own answer. */
  lemma TapedToolTells(p: Program, plan: Plan, w: World, d: Drive, i: nat)
    requires d.stopped.None? && plan.mode.Snapshot? && Governed(plan, i) && !AtFork(plan, i)
    requires d.replayer.events == d.replayer.pos == i < |plan.steps| && p.next(d.history).Execute?
    requires plan.steps[i].row.ToolRow?
    ensures var e := DriveEvent(p, plan, w, d);
            e.stopped.Some? || e.history == d.history + [Answered(plan.steps[i].row.result.answer)]
  {
  }

  /** A run's own tool row tells what the run was told. */
  lemma RowTold(p: Program, v: World, db0: DB, steps: seq<Step>, i: nat)
    requires i < |steps| && RowOfRun(p, v, db0, steps, i) && steps[i].row.ToolRow?
    ensures |Recorded(p, v, db0, i).history| == i && p.next(Recorded(p, v, db0, i).history).Execute?
    ensures Recorded(p, v, db0, i + 1).history
            == Recorded(p, v, db0, i).history + [Answered(steps[i].row.result.answer)]
  {
    RowMade(p, v, db0, i);
    assert Plain(steps[i]) == Plain(Recorded(p, v, db0, i + 1).recorder.rows[i]);
  }

  /** The first row the fault would change. */
  lemma {:induction false} FirstCorrupted(steps: seq<Step>, spec: FaultSpec, k: nat) returns (j: nat)
    requires k <= |steps| && !NothingCorrupted(steps, spec, k)
    ensures j < k && Corrupts(spec, steps[j]) && NothingCorrupted(steps, spec, j)
  {
    if NothingCorrupted(steps, spec, k - 1) { j := k - 1; } else { j := FirstCorrupted(steps, spec, k - 1); }
  }

  /** The fork is the faulty run at every stage. */
  ghost predicate LivesIn(p: Program, plan: Plan, w: World, world: World, db0: DB) {
    forall n: nat :: Follows(Driven(p, plan, w, db0, n), Recorded(p, world, db0, n))
  }

  lemma LivesAt(p: Program, plan: Plan, w: World, world: World, db0: DB, n: nat)
    requires LivesIn(p, plan, w, world, db0)
    ensures Follows(Driven(p, plan, w, db0, n), Recorded(p, world, db0, n))
  {
  }

  /** A planting that is living under the fault disturbs nothing before it: the tape would give it away. */
  lemma LivingIsUndisturbed(
    p: Program, v: World, w: World, db0: DB, steps: seq<Step>, k: nat, mutated: Replacement, faultType: string)
    requires ToolSite(p, v, db0, steps, k)
    requires LivesIn(p, PlantPlan(steps, k, mutated), w, Faulted(v, Some(StandingFault(steps, k, mutated, faultType))), db0)
    ensures Undisturbed(steps, k, mutated, faultType)
  {
    var spec := StandingFault(steps, k, mutated, faultType);
    if !NothingCorrupted(steps, spec, k) {
      var j := FirstCorrupted(steps, spec, k);
      LivesAt(p, PlantPlan(steps, k, mutated), w, Faulted(v, Some(spec)), db0, j);
      LivesAt(p, PlantPlan(steps, k, mutated), w, Faulted(v, Some(spec)), db0, j + 1);
      DisturbedShows(p, v, w, db0, steps, k, mutated, faultType, j);
    }
  }

  lemma DisturbedShows(
    p: Program, v: World, w: World, db0: DB, steps: seq<Step>, k: nat, mutated: Replacement, faultType: string, j: nat)
    requires ToolSite(p, v, db0, steps, k) && j < k
    requires var spec := StandingFault(steps, k, mutated, faultType);
             Corrupts(spec, steps[j]) && NothingCorrupted(steps, spec, j)
    ensures var world := Faulted(v, Some(StandingFault(steps, k, mutated, faultType)));
            Follows(Driven(p, PlantPlan(steps, k, mutated), w, db0, j), Recorded(p, world, db0, j)) ==>
              !Follows(Driven(p, PlantPlan(steps, k, mutated), w, db0, j + 1), Recorded(p, world, db0, j + 1))
  {
    var plan := PlantPlan(steps, k, mutated);
    FaultShowsAt(p, v, db0, steps, StandingFault(steps, k, mutated, faultType), j);
    if Follows(Driven(p, plan, w, db0, j), Recorded(p, v, db0, j)) { TapedStageTells(p, plan, w, v, db0, j); }
  }

  /** Up to the first row it changes the faulty run is the clean one; there it is told something else than the tape. */
  lemma FaultShowsAt(p: Program, v: World, db0: DB, steps: seq<Step>, spec: FaultSpec, j: nat)
    requires j < |steps| && TapeOfRun(p, v, db0, steps, |steps|)
    requires Corrupts(spec, steps[j]) && NothingCorrupted(steps, spec, j)
    ensures SameRun(p, v, Faulted(v, Some(spec)), db0, j)
    ensures |Recorded(p, v, db0, j).history| == j && p.next(Recorded(p, v, db0, j).history).Execute?
    ensures Recorded(p, Faulted(v, Some(spec)), db0, j + 1).history
            != Recorded(p, v, db0, j).history + [Answered(steps[j].row.result.answer)]
  {
    assert RowOfRun(p, v, db0, steps, j);
    RowTold(p, v, db0, steps, j);
    PrefixSharedIffNothingCorrupted(p, v, db0, steps, spec, j);
    StrayAt(p, v, db0, steps, spec, j);
  }

  /** After a row the fault would change the histories differ. */
  lemma StrayAt(p: Program, v: World, db0: DB, steps: seq<Step>, spec: FaultSpec, j: nat)
    requires j < |steps| && TapeOfRun(p, v, db0, steps, |steps|) && Corrupts(spec, steps[j])
    ensures !SameHistory(p, v, Faulted(v, Some(spec)), db0, j + 1)
  {
    OneMoreRow(steps, spec, j);
    PrefixSharedIffNothingCorrupted(p, v, db0, steps, spec, j + 1);
  }

  /** Before its fork step a fork that follows a run's tool rows so far is told what the tape says next, or stops. */
  lemma TapedStageTells(p: Program, plan: Plan, w: World, v: World, db0: DB, j: nat)
    requires plan.mode.Snapshot? && plan.forkStep.Some? && j < plan.forkStep.value && j < |plan.steps|
    requires plan.steps[j].row.ToolRow? && |Recorded(p, v, db0, j).history| == j
    requires Follows(Driven(p, plan, w, db0, j), Recorded(p, v, db0, j)) && p.next(Recorded(p, v, db0, j).history).Execute?
    ensures var e := Driven(p, plan, w, db0, j + 1);
            e.stopped.Some? || e.history == Recorded(p, v, db0, j).history + [Answered(plan.steps[j].row.result.answer)]
  {
    SteadyUnlessStopped(p, plan, w, db0, j);
    TapedToolTells(p, plan, w, Driven(p, plan, w, db0, j), j);
  }

  /** The fault changes answers, not worlds: one event from the same stage leaves the same database. */
  lemma FaultKeepsWorld(p: Program, v: World, spec: FaultSpec, s: Run)
    ensures RunEvent(p, Faulted(v, Some(spec)), s).db == RunEvent(p, v, s).db
  {
  }

  /** And restores no stale snapshot. */
  lemma LivingIsExact(
    p: Program, v: World, w: World, db0: DB, steps: seq<Step>, k: nat, mutated: Replacement, faultType: string)
    requires ToolSite(p, v, db0, steps, k) && Undisturbed(steps, k, mutated, faultType)
    requires LivesIn(p, PlantPlan(steps, k, mutated), w, Faulted(v, Some(StandingFault(steps, k, mutated, faultType))), db0)
    ensures NoSilentChange(p, v, db0, k + 1)
  {
    if !NoSilentChange(p, v, db0, k + 1) {
      var i := FirstSilent(p, v, db0, k + 1);
      var world := Faulted(v, Some(StandingFault(steps, k, mutated, faultType)));
      LivesAt(p, PlantPlan(steps, k, mutated), w, world, db0, i);
      LivesAt(p, PlantPlan(steps, k, mutated), w, world, db0, i + 1);
      StalePlantingShows(p, v, w, db0, steps, k, mutated, faultType, i);
    }
  }

  /** From the run's first silent event on, the planting is in another world than the faulty run. */
  lemma StalePlantingShows(
    p: Program, v: World, w: World, db0: DB, steps: seq<Step>, k: nat, mutated: Replacement, faultType: string, i: nat)
    requires ToolSite(p, v, db0, steps, k) && Undisturbed(steps, k, mutated, faultType) && i <= k
    requires SilentAt(p, v, db0, i) && NoSilentChange(p, v, db0, i)
    ensures var world := Faulted(v, Some(StandingFault(steps, k, mutated, faultType)));
            Follows(Driven(p, PlantPlan(steps, k, mutated), w, db0, i), Recorded(p, world, db0, i)) ==>
              !Follows(Driven(p, PlantPlan(steps, k, mutated), w, db0, i + 1), Recorded(p, world, db0, i + 1))
  {
    var plan, spec := PlantPlan(steps, k, mutated), StandingFault(steps, k, mutated, faultType);
    FaultyWorldAgreesBefore(p, v, db0, steps, k, mutated, faultType, i);
    FaultKeepsWorld(p, v, spec, Recorded(p, v, db0, i));
    assert RowOfRun(p, v, db0, steps, i);
    SilentRowIsStale(p, v, db0, steps, i);
    if Follows(Driven(p, plan, w, db0, i), Recorded(p, v, db0, i)) {
      SteadyUnlessStopped(p, plan, w, db0, i);
      TapedToolRestores(p, plan, w, Driven(p, plan, w, db0, i), i);
    }
  }

  /**
   When planting by fork is living in the faulty world: exactly when the fault changes no answer
   before `k`, no event up to `k` changed the world silently, and the mutation is one the injector
   can show.
   */
  lemma PlantingIsLivingIff(
    p: Program, v: World, w: World, db0: DB, steps: seq<Step>, k: nat, mutated: Replacement, faultType: string)
    requires ToolSite(p, v, db0, steps, k)
    requires SameDynamics(w, Faulted(v, Some(StandingFault(steps, k, mutated, faultType))))
    ensures LivesIn(p, PlantPlan(steps, k, mutated), w, Faulted(v, Some(StandingFault(steps, k, mutated, faultType))), db0)
            <==> Undisturbed(steps, k, mutated, faultType) && NoSilentChange(p, v, db0, k + 1)
                 && Plantable(steps[k].row.result.answer, mutated)
  {
    var plan, world := PlantPlan(steps, k, mutated), Faulted(v, Some(StandingFault(steps, k, mutated, faultType)));
    if LivesIn(p, plan, w, world, db0) {
      LivingIsUndisturbed(p, v, w, db0, steps, k, mutated, faultType);
      LivingIsExact(p, v, w, db0, steps, k, mutated, faultType);
      PlantedStep(p, v, w, db0, steps, k, mutated, faultType);
      LivesAt(p, plan, w, world, db0, k + 1);
    } else if Undisturbed(steps, k, mutated, faultType) && NoSilentChange(p, v, db0, k + 1)
              && Plantable(steps[k].row.result.answer, mutated) {
      forall n: nat ensures Follows(Driven(p, plan, w, db0, n), Recorded(p, world, db0, n)) {
        PlantingIsLivingInTheFaultyWorld(p, v, w, db0, steps, k, mutated, faultType, n);
      }
    }
  }

  /**
   What the collector plants, at a call not repeated before `k`: it is living under the fault
   exactly when no event up to `k` changed the world silently.
   */
  lemma CollectorPlantingIsLivingIff(
    p: Program, v: World, w: World, db0: DB, steps: seq<Step>, k: nat, mutated: Replacement, faultType: string)
    requires ToolSite(p, v, db0, steps, k) && !RepeatsBefore(steps, k)
    requires MadeFrom(steps[k].row.result.answer, mutated)
    requires SameDynamics(w, Faulted(v, Some(StandingFault(steps, k, mutated, faultType))))
    ensures LivesIn(p, PlantPlan(steps, k, mutated), w, Faulted(v, Some(StandingFault(steps, k, mutated, faultType))), db0)
            <==> NoSilentChange(p, v, db0, k + 1)
  {
    NotRepeatedIsUndisturbed(steps, k, mutated, faultType);
    MadeIsPlantable(steps[k].row.result.answer, mutated);
    PlantingIsLivingIff(p, v, w, db0, steps, k, mutated, faultType);
  }

  /** Such a planting: over the run whose tool writes the user-side database, whatever is planted. */
  lemma StalePlantingDiffers(c: Call, agent: string, before: string, after: string, mutated: Replacement, faultType: string,
                             w: World)
    requires before != after
    ensures var p, v, db0 := OneCall(c), UserWriter(after), DB(agent, before);
            var steps := Recorded(p, v, db0, 1).recorder.rows;
            && ToolSite(p, v, db0, steps, 0) && Undisturbed(steps, 0, mutated, faultType)
            && !Follows(Driven(p, PlantPlan(steps, 0, mutated), w, db0, 1),
                        Recorded(p, Faulted(v, Some(StandingFault(steps, 0, mutated, faultType))), db0, 1))
  {
    var p, v, db0 := OneCall(c), UserWriter(after), DB(agent, before);
    UserWriteIsRecordedStale(c, agent, before, after);
    assert Recorded(p, v, db0, 0) == Run([], db0, NEW_RECORDER);
    assert SilentAt(p, v, db0, 0);
    OwnTape(p, v, db0, 1);
    var steps := Recorded(p, v, db0, 1).recorder.rows;
    assert Driven(p, PlantPlan(steps, 0, mutated), w, db0, 0) == NewDrive(db0);
    StalePlantingShows(p, v, w, db0, steps, 0, mutated, faultType, 0);
  }

  // ---- forking a planted item again ------------------------------------------------------------

  /** A tape that is a run's tape up to stamps and sources governs like that run's own. */
  lemma SameTape(p: Program, v: World, db0: DB, m: nat, steps: seq<Step>)
    requires SameRows(steps, Recorded(p, v, db0, m).recorder.rows)
    ensures TapeOfRun(p, v, db0, steps, |steps|)
  {
    var rows := Recorded(p, v, db0, m).recorder.rows;
    OwnTape(p, v, db0, m);
    forall i: nat | i < |steps| ensures RowOfRun(p, v, db0, steps, i) {
      assert RowOfRun(p, v, db0, rows, i);
      assert Plain(steps[i]) == Plain(rows[i]);
    }
  }

  lemma SameRowsTransitive(a: seq<Step>, b: seq<Step>, c: seq<Step>)
    requires SameRows(a, b) && SameRows(c, b)
    ensures SameRows(a, c)
  {
    forall i | 0 <= i < |a| ensures Plain(a[i]) == Plain(c[i]) {
      assert Plain(a[i]) == Plain(b[i]) && Plain(c[i]) == Plain(b[i]);
    }
  }

  /**
   The failure is reproducible from anywhere: with the standing fault re-installed, a control fork
   of a planted item at any step, before the planted one or after it, is the item again.
   */
  lemma PlantedItemReproduces(
    p: Program, v: World, w: World, db0: DB, steps: seq<Step>, k: nat, mutated: Replacement, faultType: string, m: nat,
    plan: Plan, u: World, n: nat)
    requires Site(p, v, db0, steps, k) && Undisturbed(steps, k, mutated, faultType)
    requires Plantable(steps[k].row.result.answer, mutated)
    requires SameDynamics(w, Faulted(v, Some(StandingFault(steps, k, mutated, faultType))))
    requires SameDynamics(u, Faulted(v, Some(StandingFault(steps, k, mutated, faultType))))
    requires Ended(p, Driven(p, PlantPlan(steps, k, mutated), w, db0, m))
    requires ControlPlan(plan) && plan.steps == Driven(p, PlantPlan(steps, k, mutated), w, db0, m).replayer.recorder.rows
    requires plan.mode.Snapshot? ==>
               NoSilentChange(p, Faulted(v, Some(StandingFault(steps, k, mutated, faultType))), db0, plan.forkStep.value + 1)
    ensures var world := Faulted(v, Some(StandingFault(steps, k, mutated, faultType)));
            Follows(Driven(p, plan, u, db0, n), Recorded(p, world, db0, n))
    ensures n >= m ==> var item, again := Driven(p, PlantPlan(steps, k, mutated), w, db0, m), Driven(p, plan, u, db0, n);
                       && Ended(p, again) && again.history == item.history && again.replayer.db == item.replayer.db
                       && SameRows(again.replayer.recorder.rows, item.replayer.recorder.rows)
  {
    var world := Faulted(v, Some(StandingFault(steps, k, mutated, faultType)));
    PlantingIsLivingInTheFaultyWorld(p, v, w, db0, steps, k, mutated, faultType, m);
    SameTape(p, world, db0, m, plan.steps);
    assert TapeOfRun(p, world, db0, plan.steps, plan.forkStep.value + 1);
    ForkFollowsRun(p, plan, u, world, db0, n);
    if n >= m {
      StaysFinished(p, world, db0, m, n);
      SameRowsTransitive(Driven(p, plan, u, db0, n).replayer.recorder.rows, Recorded(p, world, db0, m).recorder.rows, plan.steps);
    }
  }

  /** And it is the item at every stage exactly when the faulty run's prefix has no stale snapshot to restore. */
  lemma PlantedItemReproducesIffExact(
    p: Program, v: World, w: World, db0: DB, steps: seq<Step>, k: nat, mutated: Replacement, faultType: string, m: nat,
    plan: Plan, u: World)
    requires Site(p, v, db0, steps, k) && Undisturbed(steps, k, mutated, faultType)
    requires Plantable(steps[k].row.result.answer, mutated)
    requires SameDynamics(w, Faulted(v, Some(StandingFault(steps, k, mutated, faultType))))
    requires SameDynamics(u, Faulted(v, Some(StandingFault(steps, k, mutated, faultType))))
    requires ControlPlan(plan) && plan.steps == Driven(p, PlantPlan(steps, k, mutated), w, db0, m).replayer.recorder.rows
    ensures var world := Faulted(v, Some(StandingFault(steps, k, mutated, faultType)));
            (forall n: nat :: Follows(Driven(p, plan, u, db0, n), Recorded(p, world, db0, n)))
            <==> (plan.mode.Snapshot? ==> NoSilentChange(p, world, db0, plan.forkStep.value + 1))
  {
    var world := Faulted(v, Some(StandingFault(steps, k, mutated, faultType)));
    PlantingIsLivingInTheFaultyWorld(p, v, w, db0, steps, k, mutated, faultType, m);
    SameTape(p, world, db0, m, plan.steps);
    assert TapeOfRun(p, world, db0, plan.steps, plan.forkStep.value + 1);
    ForkFollowsIffExact(p, plan, u, world, db0);
  }

  lemma CompletionGrows(plan: Plan, w: World, r: Replayer, q: Request)
    ensures r.recorder.rows <= Completion(plan, w, r, q).0.recorder.rows
  {
  }

  lemma GetResponseGrows(plan: Plan, w: World, r: Replayer, c: Call)
    ensures r.recorder.rows <= GetResponse(plan, w, r, c).0.recorder.rows
  {
  }

  /** Rows written stay written. */
  lemma {:induction false} DriveGrows(p: Program, plan: Plan, w: World, db0: DB, m: nat, n: nat)
    requires m <= n
    ensures Driven(p, plan, w, db0, m).replayer.recorder.rows <= Driven(p, plan, w, db0, n).replayer.recorder.rows
  {
    if m < n {
      DriveGrows(p, plan, w, db0, m, n - 1);
      var d := Driven(p, plan, w, db0, n - 1);
      if d.stopped.None? {
        match p.next(d.history) {
          case Finish(_) =>
          case Ask(q) => CompletionGrows(plan, w, d.replayer, q);
          case Execute(c) => GetResponseGrows(plan, w, d.replayer, c);
        }
      }
    }
  }

  /** A planted item's rows before the planted step are the clean run's, standing fault or not. */
  lemma ItemPrefix(p: Program, v: World, w: World, db0: DB, steps: seq<Step>, k: nat, mutated: Replacement, m: nat)
    requires Site(p, v, db0, steps, k) && k <= m
    ensures TapeOfRun(p, v, db0, Driven(p, PlantPlan(steps, k, mutated), w, db0, m).replayer.recorder.rows, k)
  {
    var plant := PlantPlan(steps, k, mutated);
    PrefixFollows(p, plant, w, v, db0, k, k);
    DriveGrows(p, plant, w, db0, k, m);
    var prefix, rows := Driven(p, plant, w, db0, k).replayer.recorder.rows, Driven(p, plant, w, db0, m).replayer.recorder.rows;
    SameTape(p, v, db0, k, prefix);
    assert RowOfRun(p, v, db0, steps, k);
    RowMade(p, v, db0, k);
    assert |prefix| == k;
    forall i: nat | i < k ensures RowOfRun(p, v, db0, rows, i) {
      assert RowOfRun(p, v, db0, prefix, i);
      assert rows[i] == prefix[i];
    }
  }

  /**
   A one-shot edit does not survive: an item planted without the standing fault, forked again at
   any step before the planted one, is the clean run, fault gone.
   */
  lemma OneShotFaultVanishes(
    p: Program, v: World, w: World, db0: DB, steps: seq<Step>, k: nat, mutated: Replacement, m: nat,
    plan: Plan, u: World, n: nat)
    requires Site(p, v, db0, steps, k) && k <= m
    requires ControlPlan(plan) && plan.forkStep.value < k && SameDynamics(u, v)
    requires plan.steps == Driven(p, PlantPlan(steps, k, mutated), w, db0, m).replayer.recorder.rows
    ensures Follows(Driven(p, plan, u, db0, n), Recorded(p, v, db0, n))
  {
    ItemPrefix(p, v, w, db0, steps, k, mutated, m);
    assert forall i: nat | i < plan.forkStep.value + 1 :: RowOfRun(p, v, db0, plan.steps, i);
    ForkFollowsRun(p, plan, u, v, db0, n);
  }
}
