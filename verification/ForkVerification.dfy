/**
 Verifying forks: a fork that altered no tool result re-executes, row by row, with the tools it
 was made under.
 */
module ForkVerification {
  import opened Simulation
  import opened Recording
  import opened Interventions
  import opened Replay
  import opened ReplayClosure
  import opened Counterfactual

  // ---- a tape and one more row -------------------------------------------------------------------

  lemma {:induction false} WorldAtPrefix(p: Program, rows: seq<Step>, row: Step, x: World, db0: DB, i: nat)
    requires i <= |rows|
    ensures WorldAt(p, rows + [row], x, db0, i) == WorldAt(p, rows, x, db0, i)
  {
    if i > 0 {
      WorldAtPrefix(p, rows, row, x, db0, i - 1);
      assert (rows + [row])[..i - 1] == rows[..i - 1];
    }
  }

  lemma ReexecutesPrefix(p: Program, rows: seq<Step>, row: Step, x: World, db0: DB, i: nat)
    requires i < |rows|
    ensures Reexecutes(p, rows + [row], x, db0, i) <==> Reexecutes(p, rows, x, db0, i)
  {
    WorldAtPrefix(p, rows, row, x, db0, i);
    assert (rows + [row])[..i] == rows[..i];
  }

  /** Every row re-executes, and re-executing them all ends in this world. */
  ghost predicate Verified(p: Program, rows: seq<Step>, x: World, db0: DB, db: DB) {
    && WorldAt(p, rows, x, db0, |rows|) == db
    && forall i: nat | i < |rows| :: Reexecutes(p, rows, x, db0, i)
  }

  lemma LlmRowVerified(p: Program, rows: seq<Step>, row: Step, x: World, db0: DB, db: DB)
    requires Verified(p, rows, x, db0, db) && p.next(HistoryOf(rows)).Ask?
    ensures Verified(p, rows + [row], x, db0, db)
  {
    assert (rows + [row])[..|rows|] == rows;
    WorldAtPrefix(p, rows, row, x, db0, |rows|);
    forall i: nat | i < |rows + [row]| ensures Reexecutes(p, rows + [row], x, db0, i) {
      if i < |rows| { ReexecutesPrefix(p, rows, row, x, db0, i); }
    }
  }

  lemma ToolRowVerified(p: Program, rows: seq<Step>, row: Step, x: World, db0: DB, db: DB, c: Call, after: DB)
    requires Verified(p, rows, x, db0, db) && p.next(HistoryOf(rows)) == Execute(c)
    requires row.row.ToolRow? && (row.row.result.answer, after) == x.tool(|rows|, db, c) && row.hash == StateHash(after)
    ensures Verified(p, rows + [row], x, db0, after)
  {
    assert (rows + [row])[..|rows|] == rows;
    WorldAtPrefix(p, rows, row, x, db0, |rows|);
    forall i: nat | i < |rows + [row]| ensures Reexecutes(p, rows + [row], x, db0, i) {
      if i < |rows| { ReexecutesPrefix(p, rows, row, x, db0, i); }
    }
  }

  // ---- what each event writes --------------------------------------------------------------------

  lemma ModelEventWrites(plan: Plan, w: World, r: Replayer, q: Request)
    ensures var (next, out) := Completion(plan, w, r, q);
            out.Success? ==>
              && next.db == r.db
              && |next.recorder.rows| == |r.recorder.rows| + 1
              && next.recorder.rows[..|r.recorder.rows|] == r.recorder.rows
  {
  }

  lemma ToolEventWrites(plan: Plan, w: World, r: Replayer, c: Call)
    ensures var (next, out) := GetResponse(plan, w, r, c);
            out.Success? ==>
              && |next.recorder.rows| == |r.recorder.rows| + 1
              && next.recorder.rows[..|r.recorder.rows|] == r.recorder.rows
              && var row := next.recorder.rows[|r.recorder.rows|];
                 row.row == ToolRow(c.name, c.args, out.value) && row.hash == StateHash(next.db)
  {
  }

  /** What this tool event tells and leaves is what `x`'s tool would. */
  ghost predicate ToolTold(plan: Plan, w: World, x: World, r: Replayer, c: Call) {
    var (next, out) := GetResponse(plan, w, r, c);
    out.Success? ==> (out.value.answer, next.db) == x.tool(r.events, r.db, c)
  }

  /** The fork changes no tool result: a tool step is forked with nothing changed. */
  predicate KeepsResults(plan: Plan) {
    plan.forkStep.Some? && plan.forkStep.value < |plan.steps|
    && (plan.steps[plan.forkStep.value].row.ToolRow? ==> plan.intervention == NoOp)
  }

  /** The tape's row at the cursor is what `x`'s tool would say and leave. */
  predicate TapeTells(plan: Plan, x: World, r: Replayer, c: Call) {
    r.pos < |plan.steps| && plan.steps[r.pos].row.ToolRow? ==>
      (plan.steps[r.pos].row.result.answer, plan.steps[r.pos].after) == x.tool(r.events, r.db, c)
  }

  lemma KeptResultsAreTold(plan: Plan, w: World, x: World, r: Replayer, c: Call)
    requires KeepsResults(plan) && SameTools(w, x) && Steady(plan, r)
    requires plan.mode.Snapshot? && Governed(plan, r.events) ==> TapeTells(plan, x, r, c)
    ensures ToolTold(plan, w, x, r, c)
  {
    assert forall i: nat, db, d :: w.tool(i, db, d) == x.tool(i, db, d);
  }

  // ---- whole forks -------------------------------------------------------------------------------

  ghost predicate DriveVerified(p: Program, x: World, db0: DB, d: Drive) {
    Verified(p, d.replayer.recorder.rows, x, db0, d.replayer.db)
  }

  lemma EventVerified(p: Program, plan: Plan, w: World, x: World, db0: DB, d: Drive)
    requires d.stopped.None? && DriveVerified(p, x, db0, d) && Faithful(p, d.history, d.replayer.recorder)
    requires |d.history| == d.replayer.events
    requires p.next(d.history).Execute? ==> ToolTold(plan, w, x, d.replayer, p.next(d.history).call)
    ensures var e := DriveEvent(p, plan, w, d); e.stopped.None? ==> DriveVerified(p, x, db0, e)
  {
    var rows, e := d.replayer.recorder.rows, DriveEvent(p, plan, w, d);
    match p.next(d.history) {
      case Finish(_) =>
      case Ask(q) =>
        ModelEventWrites(plan, w, d.replayer, q);
        if e.stopped.None? {
          var after := e.replayer.recorder.rows;
          assert after == rows + [after[|rows|]];
          LlmRowVerified(p, rows, after[|rows|], x, db0, d.replayer.db);
        }
      case Execute(c) =>
        ToolEventWrites(plan, w, d.replayer, c);
        if e.stopped.None? {
          var after := e.replayer.recorder.rows;
          assert after == rows + [after[|rows|]];
          ToolRowVerified(p, rows, after[|rows|], x, db0, d.replayer.db, c, e.replayer.db);
        }
    }
  }

  /** The tape a snapshot fork restores from is that of a run made with these tools, on exact snapshots. */
  ghost predicate ExactPrefix(p: Program, plan: Plan, v: World, x: World, db0: DB) {
    && plan.forkStep.Some? && SameTools(v, x)
    && TapeOfRun(p, v, db0, plan.steps, plan.forkStep.value + 1)
    && NoSilentChange(p, v, db0, plan.forkStep.value + 1)
  }

  lemma PrefixTells(p: Program, plan: Plan, w: World, v: World, x: World, db0: DB, i: nat)
    requires plan.mode.Snapshot? && ExactPrefix(p, plan, v, x, db0) && i <= plan.forkStep.value
    requires p.next(Driven(p, plan, w, db0, i).history).Execute?
    ensures var d := Driven(p, plan, w, db0, i); TapeTells(plan, x, d.replayer, p.next(d.history).call)
  {
    assert TapeOfRun(p, v, db0, plan.steps, plan.forkStep.value);
    assert NoSilentChange(p, v, db0, i);
    PrefixFollows(p, plan, w, v, db0, plan.forkStep.value, i);
    SteadyUnlessStopped(p, plan, w, db0, i);
    assert RowOfRun(p, v, db0, plan.steps, i);
    RowMade(p, v, db0, i);
    CacheIsExact(p, v, db0, i);
    assert !SilentAt(p, v, db0, i);
    assert Plain(plan.steps[i]) == Plain(Recorded(p, v, db0, i + 1).recorder.rows[i]);
  }

  /** While a fork has not stopped, every event has happened at its own stage, or the run has ended. */
  lemma StageOfEvent(p: Program, plan: Plan, w: World, db0: DB, n: nat)
    requires Driven(p, plan, w, db0, n).stopped.None? && !Ended(p, Driven(p, plan, w, db0, n))
    ensures Driven(p, plan, w, db0, n).replayer.events == n
  {
    DriveProgress(p, plan, w, db0, n);
  }

  lemma FreshVerified(p: Program, x: World, db0: DB)
    ensures DriveVerified(p, x, db0, NewDrive(db0))
  {
  }

  lemma NotStoppedBefore(p: Program, plan: Plan, w: World, db0: DB, n: nat)
    requires n > 0 && Driven(p, plan, w, db0, n).stopped.None?
    ensures Driven(p, plan, w, db0, n - 1).stopped.None?
  {
  }

  /** Unless the fork has stopped, its next event tells and leaves what `x`'s tools would. */
  ghost predicate ToldAt(p: Program, plan: Plan, w: World, x: World, db0: DB, n: nat) {
    var d := Driven(p, plan, w, db0, n);
    d.stopped.None? && p.next(d.history).Execute? ==> ToolTold(plan, w, x, d.replayer, p.next(d.history).call)
  }

  lemma DrivenVerified(p: Program, plan: Plan, w: World, x: World, db0: DB, n: nat)
    requires n > 0 && Driven(p, plan, w, db0, n).stopped.None? && Driven(p, plan, w, db0, n - 1).stopped.None?
    requires DriveVerified(p, x, db0, Driven(p, plan, w, db0, n - 1))
    requires ToldAt(p, plan, w, x, db0, n - 1)
    ensures DriveVerified(p, x, db0, Driven(p, plan, w, db0, n))
  {
    ForkFits(p, plan, w, db0, n - 1);
    ReplayerInvariant(p, plan, w, db0, n - 1);
    EventVerified(p, plan, w, x, db0, Driven(p, plan, w, db0, n - 1));
  }

  lemma NextCallTold(p: Program, plan: Plan, w: World, v: World, x: World, db0: DB, n: nat)
    requires KeepsResults(plan) && SameTools(w, x)
    requires plan.mode.Snapshot? ==> ExactPrefix(p, plan, v, x, db0)
    requires Driven(p, plan, w, db0, n).stopped.None? && p.next(Driven(p, plan, w, db0, n).history).Execute?
    ensures var d := Driven(p, plan, w, db0, n); ToolTold(plan, w, x, d.replayer, p.next(d.history).call)
  {
    var d := Driven(p, plan, w, db0, n);
    StageOfEvent(p, plan, w, db0, n);
    ReplayerInvariant(p, plan, w, db0, n);
    if plan.mode.Snapshot? && Governed(plan, n) { PrefixTells(p, plan, w, v, x, db0, n); }
    KeptResultsAreTold(plan, w, x, d.replayer, p.next(d.history).call);
  }

  lemma {:induction false} ToldForkVerified(p: Program, plan: Plan, w: World, x: World, db0: DB, n: nat)
    requires forall i: nat | i < n :: ToldAt(p, plan, w, x, db0, i)
    requires Driven(p, plan, w, db0, n).stopped.None?
    ensures DriveVerified(p, x, db0, Driven(p, plan, w, db0, n))
  {
    if n == 0 {
      FreshVerified(p, x, db0);
    } else {
      NotStoppedBefore(p, plan, w, db0, n);
      ToldForkVerified(p, plan, w, x, db0, n - 1);
      assert ToldAt(p, plan, w, x, db0, n - 1);
      DrivenVerified(p, plan, w, x, db0, n);
    }
  }

  lemma ForkVerifiedTo(p: Program, plan: Plan, w: World, v: World, x: World, db0: DB, n: nat)
    requires KeepsResults(plan) && SameTools(w, x)
    requires plan.mode.Snapshot? ==> ExactPrefix(p, plan, v, x, db0)
    requires Driven(p, plan, w, db0, n).stopped.None?
    ensures DriveVerified(p, x, db0, Driven(p, plan, w, db0, n))
  {
    forall i: nat | i < n ensures ToldAt(p, plan, w, x, db0, i) {
      var d := Driven(p, plan, w, db0, i);
      if d.stopped.None? && p.next(d.history).Execute? { NextCallTold(p, plan, w, v, x, db0, i); }
    }
    ToldForkVerified(p, plan, w, x, db0, n);
  }

  /**
   A fork that ended and changed no tool result verifies: a control, a resampled or forced model
   step, in either prefix mode, made and re-executed with the same tools.
   */
  lemma ForkVerifies(p: Program, plan: Plan, w: World, v: World, x: World, db0: DB, n: nat)
    requires KeepsResults(plan) && SameTools(w, x)
    requires plan.mode.Snapshot? ==> ExactPrefix(p, plan, v, x, db0)
    requires Ended(p, Driven(p, plan, w, db0, n))
    ensures var d := Driven(p, plan, w, db0, n);
            ReplayRun(p, d.replayer.recorder.rows, p.score(d.history), true, Verify, x, db0).Success?
  {
    ForkFits(p, plan, w, db0, n);
    ForkVerifiedTo(p, plan, w, v, x, db0, n);
    VerifyAcceptsIffReexecutes(p, Driven(p, plan, w, db0, n).replayer.recorder.rows, x, db0);
  }
}
