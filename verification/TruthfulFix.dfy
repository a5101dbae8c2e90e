/**
 The label-free fix: what a recorded tool call really answers, found by re-executing it on its
 own entry state. On an innocent step it changes nothing; on a planted one it undoes the fault.
 */
module TruthfulFix {
  import opened Wrappers
  import opened Numerals
  import opened Simulation
  import opened Recording
  import opened Interventions
  import opened FaultInjector
  import opened Replay
  import opened Counterfactual

  // ---- re-executing a recorded call ------------------------------------------------------------

  /** A throwaway environment's answer to the step's call, on the world that entered the step. */
  function Reexecuted(w: World, e: nat, step: Step): Option<Replacement> {
    if step.actor != ToolActor || !step.row.ToolRow? || step.row.name == "" then None
    else if step.hashBefore != "" && StateHash(step.before) != step.hashBefore then None
    else
      var answer := w.tool(e, step.before, Call("truth-" + Decimal(step.idx), step.row.name, step.row.args)).0;
      Some(Replacement(Some(answer.id), Some(answer.requestor), Some(answer.content), Some(answer.error), None))
  }

  /** There is a truth to be had exactly for a named tool call whose entry state is stored whole. */
  lemma TruthIsHadIff(w: World, e: nat, step: Step)
    ensures Reexecuted(w, e, step).Some?
            <==> step.actor == ToolActor && step.row.ToolRow? && step.row.name != ""
                 && (step.hashBefore == "" || step.hashBefore == StateHash(step.before))
  {
  }

  function Resolver(w: World, e: nat): TruthProvider {
    (step: Step) => Reexecuted(w, e, step)
  }

  predicate SameReply(a: (Answer, DB), b: (Answer, DB)) {
    a.0.content == b.0.content && a.0.error == b.0.error && a.1 == b.1
  }

  /** A deterministic domain: what a tool says and does depends on the database, its name and its arguments. */
  ghost predicate SteadyTools(w: World) {
    forall i: nat, j: nat, db: DB, c: Call, c': Call :: c.name == c'.name && c.args == c'.args ==>
                                          SameReply(w.tool(i, db, c), w.tool(j, db, c'))
  }

  /** The step was entered with this world, and its hash says so. */
  predicate EnteredAt(step: Step, db: DB) {
    step.before == db && step.hashBefore == StateHash(db)
  }

  /** Re-execution is available and tells what the tool told the run. */
  lemma TruthIsTheAnswer(w: World, e: nat, step: Step, i: nat, db: DB, c: Call)
    requires SteadyTools(w) && EnteredAt(step, db) && step.actor == ToolActor
    requires step.row.ToolRow? && step.row.name == c.name && step.row.args == c.args && c.name != ""
    ensures Reexecuted(w, e, step).Some?
    ensures Reexecuted(w, e, step).value.content == Some(w.tool(i, db, c).0.content)
    ensures Reexecuted(w, e, step).value.error == Some(w.tool(i, db, c).0.error)
  {
    assert SameReply(w.tool(e, db, Call("truth-" + Decimal(step.idx), step.row.name, step.row.args)), w.tool(i, db, c));
  }

  /** A recorded tool row on exact snapshots: its entry state is the world its call was made in. */
  lemma ToolRowEntry(p: Program, v: World, db0: DB, n: nat, i: nat) returns (c: Call)
    requires i < |Recorded(p, v, db0, n).recorder.rows| && Recorded(p, v, db0, n).recorder.rows[i].row.ToolRow?
    requires NoSilentChange(p, v, db0, i)
    ensures var row, s := Recorded(p, v, db0, n).recorder.rows[i], Recorded(p, v, db0, i);
            && EnteredAt(row, s.db) && row.idx == i && row.actor == ToolActor
            && row.row.name == c.name && row.row.args == c.args
            && row.row.result.answer == v.tool(i, s.db, c).0
  {
    RowStays(p, v, db0, n, i);
    RowsFollowEvents(p, v, db0, i);
    RowsFollowEvents(p, v, db0, i + 1);
    CacheIsExact(p, v, db0, i);
    RowMade(p, v, db0, i);
    c := p.next(Recorded(p, v, db0, i).history).call;
  }

  /** On an innocent tool step of a recording the label-free fix leaves the result as it is. */
  lemma InnocentFixChangesNothing(p: Program, v: World, db0: DB, n: nat, i: nat, e: nat, stamp: int)
    requires SteadyTools(v) && NoSilentChange(p, v, db0, i)
    requires i < |Recorded(p, v, db0, n).recorder.rows|
    requires var row := Recorded(p, v, db0, n).recorder.rows[i].row; row.ToolRow? && row.name != ""
    ensures var step := Recorded(p, v, db0, n).recorder.rows[i];
            var shown := Message(step.row.result.answer, stamp);
            ApplyToResult(TruthfulToolResult(i, Some(Resolver(v, e))), step, shown) == Use(shown)
  {
    var c := ToolRowEntry(p, v, db0, n, i);
    TruthIsTheAnswer(v, e, Recorded(p, v, db0, n).recorder.rows[i], i, Recorded(p, v, db0, i).db, c);
  }

  // ---- fixing a planted item -------------------------------------------------------------------

  /** The treated arm at `k`: the item's tape up to `k`, and the tool's true answer shown there. */
  function FixPlan(item: seq<Step>, k: nat, truth: TruthProvider): Plan {
    Plan(item, Some(k), Snapshot, TruthfulToolResult(k, Some(truth)), true, false)
  }

  /** The planted step of the run made in the faulty world. */
  lemma FaultySiteRow(p: Program, v: World, db0: DB, steps: seq<Step>, k: nat, mutated: Replacement, faultType: string, c: Call)
    requires Site(p, v, db0, steps, k) && Undisturbed(steps, k, mutated, faultType)
    requires p.next(Recorded(p, v, db0, k).history) == Execute(c)
    ensures var rows := Recorded(p, Faulted(v, Some(StandingFault(steps, k, mutated, faultType))), db0, k + 1).recorder.rows;
            var (answer, db) := v.tool(k, Recorded(p, v, db0, k).db, c);
            |rows| == k + 1 && RowOfCall(rows[k], k, c, answer, db) && EnteredAt(rows[k], Recorded(p, v, db0, k).db)
  {
    var c' := SiteCall(p, v, db0, steps, k);
    FaultyWorldAgreesBefore(p, v, db0, steps, k, mutated, faultType, k);
    var world := Faulted(v, Some(StandingFault(steps, k, mutated, faultType)));
    var s := Recorded(p, v, db0, k);
    assert world.tool(k, s.db, c).1 == v.tool(k, s.db, c).1;
    assert Recorded(p, world, db0, k + 1) == RunEvent(p, world, s);
    assert Recorded(p, v, db0, k + 1) == RunEvent(p, v, s);
    RowsFollowEvents(p, v, db0, k);
  }

  /** The item's planted row: the faulty world's, leaving the same database as the clean one. */
  lemma ItemRow(p: Program, v: World, w: World, db0: DB, steps: seq<Step>, k: nat, mutated: Replacement, faultType: string, m: nat, c: Call)
    requires Site(p, v, db0, steps, k) && Undisturbed(steps, k, mutated, faultType)
    requires Plantable(steps[k].row.result.answer, mutated) && k < m
    requires p.next(Recorded(p, v, db0, k).history) == Execute(c)
    ensures var item := Driven(p, PlantPlan(steps, k, mutated), w, db0, m).replayer.recorder.rows;
            var (answer, db) := v.tool(k, Recorded(p, v, db0, k).db, c);
            |item| > k && RowOfCall(item[k], k, c, answer, db) && EnteredAt(item[k], Recorded(p, v, db0, k).db)
  {
    var plan := PlantPlan(steps, k, mutated);
    var world := Faulted(v, Some(StandingFault(steps, k, mutated, faultType)));
    FaultySiteRow(p, v, db0, steps, k, mutated, faultType, c);
    PlantedStep(p, v, w, db0, steps, k, mutated, faultType);
    DriveGrows(p, plan, w, db0, k + 1, m);
    var now := Driven(p, plan, w, db0, k + 1).replayer.recorder.rows;
    assert Counterfactual.Plain(now[k]) == Counterfactual.Plain(Recorded(p, world, db0, k + 1).recorder.rows[k]);
    assert Driven(p, plan, w, db0, m).replayer.recorder.rows[k] == now[k];
  }

  /** At the planted step, the truth about the item's row is what the clean run's tool answered. */
  lemma FixedStep(
    p: Program, v: World, w: World, db0: DB, steps: seq<Step>, k: nat, mutated: Replacement, faultType: string, m: nat,
    e: nat, u: World)
    requires Site(p, v, db0, steps, k) && Undisturbed(steps, k, mutated, faultType)
    requires Plantable(steps[k].row.result.answer, mutated) && k < m
    requires SteadyTools(v) && steps[k].row.name != ""
    ensures var item := Driven(p, PlantPlan(steps, k, mutated), w, db0, m).replayer.recorder.rows;
            Follows(Driven(p, FixPlan(item, k, Resolver(v, e)), u, db0, k + 1), Recorded(p, v, db0, k + 1))
  {
    var item := Driven(p, PlantPlan(steps, k, mutated), w, db0, m).replayer.recorder.rows;
    var plan := FixPlan(item, k, Resolver(v, e));
    var c := SiteCall(p, v, db0, steps, k);
    ItemPrefix(p, v, w, db0, steps, k, mutated, m);
    ItemRow(p, v, w, db0, steps, k, mutated, faultType, m, c);
    assert NoSilentChange(p, v, db0, k);
    PrefixFollows(p, plan, u, v, db0, k, k);
    SteadyUnlessStopped(p, plan, u, db0, k);
    var d, s := Driven(p, plan, u, db0, k), Recorded(p, v, db0, k);
    TruthIsTheAnswer(v, e, item[k], k, s.db, c);
    var r := Reexecuted(v, e, item[k]).value;
    assert Overlays(plan, k, r);
    OverlaidEventFollows(p, plan, u, v, d, s, c, r, v.tool(k, s.db, c).1);
    assert Driven(p, plan, u, db0, k + 1) == DriveEvent(p, plan, u, d);
  }

  /** It is the intervention the search chooses for that step. */
  lemma FixIsChosen(p: Program, v: World, w: World, db0: DB, steps: seq<Step>, k: nat, mutated: Replacement, faultType: string,
                    m: nat, truth: TruthProvider)
    requires Site(p, v, db0, steps, k) && Undisturbed(steps, k, mutated, faultType)
    requires Plantable(steps[k].row.result.answer, mutated) && k < m
    ensures var item := Driven(p, PlantPlan(steps, k, mutated), w, db0, m).replayer.recorder.rows;
            |item| > k && ChooseIntervention(item[k], Some(truth)) == Some(FixPlan(item, k, truth).intervention)
  {
    var c := SiteCall(p, v, db0, steps, k);
    ItemRow(p, v, w, db0, steps, k, mutated, faultType, m, c);
  }

  /** An event of the clean run that the fault does not change happens alike in the faulty world. */
  lemma CleanEventAlike(p: Program, v: World, u: World, db0: DB, steps: seq<Step>, spec: FaultSpec, i: nat)
    requires SameDynamics(u, Faulted(v, Some(spec))) && TapeOfRun(p, v, db0, steps, |steps|) && Finished(p, v, db0, |steps|)
    requires i < |steps| ==> !Corrupts(spec, steps[i])
    ensures AnswerAlike(p, u, v, Recorded(p, v, db0, i))
  {
    if i < |steps| {
      assert RowOfRun(p, v, db0, steps, i);
      RowMade(p, v, db0, i);
      assert Counterfactual.Plain(steps[i]) == Counterfactual.Plain(Recorded(p, v, db0, i + 1).recorder.rows[i]);
    } else {
      StaysFinished(p, v, db0, |steps|, i);
    }
  }

  /**
   The label-free fix recovers the base run: re-executing the planted call on the world the item
   entered it with, in a clean environment, and showing that answer where the fault still stands,
   gives the clean run at every stage, for as long as that makes no call the fault would change.
   */
  lemma TruthfulFixRecoversTheCleanRun(
    p: Program, v: World, w: World, db0: DB, steps: seq<Step>, k: nat, mutated: Replacement, faultType: string, m: nat,
    e: nat, u: World, n: nat)
    requires Site(p, v, db0, steps, k) && Undisturbed(steps, k, mutated, faultType)
    requires Plantable(steps[k].row.result.answer, mutated) && k < m
    requires SteadyTools(v) && steps[k].row.name != ""
    requires SameDynamics(u, Faulted(v, Some(StandingFault(steps, k, mutated, faultType))))
    requires k < n && Finished(p, v, db0, |steps|)
    requires forall i: nat | k < i < |steps| && i < n :: !Corrupts(StandingFault(steps, k, mutated, faultType), steps[i])
    ensures var item := Driven(p, PlantPlan(steps, k, mutated), w, db0, m).replayer.recorder.rows;
            Follows(Driven(p, FixPlan(item, k, Resolver(v, e)), u, db0, n), Recorded(p, v, db0, n))
  {
    var item := Driven(p, PlantPlan(steps, k, mutated), w, db0, m).replayer.recorder.rows;
    FixedStep(p, v, w, db0, steps, k, mutated, faultType, m, e, u);
    var _ := SiteCall(p, v, db0, steps, k);
    forall i: nat | k < i < n ensures AlikeAt(p, u, v, db0, i) {
      CleanEventAlike(p, v, u, db0, steps, StandingFault(steps, k, mutated, faultType), i);
    }
    StaysWithRun(p, v, u, db0, FixPlan(item, k, Resolver(v, e)), k, n);
  }

  /** Nothing the clean run does after `k` is a call the standing fault would change. */
  predicate CleanAfter(steps: seq<Step>, spec: FaultSpec, k: nat) {
    forall i: nat | k < i < |steps| :: !Corrupts(spec, steps[i])
  }

  /** What a live tool event tells. */
  lemma LiveToolTells(p: Program, plan: Plan, u: World, d: Drive, c: Call)
    requires d.stopped.None? && !Governed(plan, d.replayer.events) && p.next(d.history) == Execute(c)
    ensures DriveEvent(p, plan, u, d).history
            == d.history + [Answered(u.tool(d.replayer.events, d.replayer.db, c).0)]
  {
  }

  /** A clean call that the fault changes is answered otherwise in the faulty world. */
  lemma ChangedAnswer(p: Program, v: World, db0: DB, steps: seq<Step>, spec: FaultSpec, i: nat) returns (c: Call)
    requires i < |steps| && RowOfRun(p, v, db0, steps, i) && Corrupts(spec, steps[i])
    ensures var s := Recorded(p, v, db0, i);
            && |s.history| == i && p.next(s.history) == Execute(c)
            && Recorded(p, v, db0, i + 1).history
               != s.history + [Answered(Faulted(v, Some(spec)).tool(i, s.db, c).0)]
  {
    RowMade(p, v, db0, i);
    assert Counterfactual.Plain(steps[i]) == Counterfactual.Plain(Recorded(p, v, db0, i + 1).recorder.rows[i]);
    var s := Recorded(p, v, db0, i);
    c := p.next(s.history).call;
    var told := Faulted(v, Some(spec)).tool(i, s.db, c).0;
    assert told != steps[i].row.result.answer;
    assert (s.history + [Answered(told)])[i] == Answered(told);
  }

  /** A live fork that has joined the clean run leaves it at the first call the standing fault changes. */
  lemma StandingFaultShows(p: Program, v: World, u: World, db0: DB, steps: seq<Step>, spec: FaultSpec, plan: Plan, k: nat, i: nat)
    requires plan.forkStep == Some(k) && k < i < |steps| && RowOfRun(p, v, db0, steps, i) && Corrupts(spec, steps[i])
    requires SameDynamics(u, Faulted(v, Some(spec))) && !Finished(p, v, db0, k)
    requires Follows(Driven(p, plan, u, db0, k + 1), Recorded(p, v, db0, k + 1))
    ensures Follows(Driven(p, plan, u, db0, i), Recorded(p, v, db0, i)) ==>
              !Follows(Driven(p, plan, u, db0, i + 1), Recorded(p, v, db0, i + 1))
  {
    if Follows(Driven(p, plan, u, db0, i), Recorded(p, v, db0, i)) {
      var c := ChangedAnswer(p, v, db0, steps, spec, i);
      PastTheFork(p, v, plan, u, db0, k, i);
      LiveToolTells(p, plan, u, Driven(p, plan, u, db0, i), c);
      assert Driven(p, plan, u, db0, i + 1) == DriveEvent(p, plan, u, Driven(p, plan, u, db0, i));
    }
  }

  /** Up to the planted step the fix's fork is the clean run. */
  lemma FixFollowsBefore(
    p: Program, v: World, w: World, db0: DB, steps: seq<Step>, k: nat, mutated: Replacement, m: nat, truth: TruthProvider,
    u: World, n: nat)
    requires Site(p, v, db0, steps, k) && k <= m && n <= k
    ensures var item := Driven(p, PlantPlan(steps, k, mutated), w, db0, m).replayer.recorder.rows;
            Follows(Driven(p, FixPlan(item, k, truth), u, db0, n), Recorded(p, v, db0, n))
  {
    ItemPrefix(p, v, w, db0, steps, k, mutated, m);
    var item := Driven(p, PlantPlan(steps, k, mutated), w, db0, m).replayer.recorder.rows;
    PrefixFollows(p, FixPlan(item, k, truth), u, v, db0, k, n);
  }

  /**
   The label-free fix gives the clean run at every stage exactly when the clean run makes no later
   call that the fault, still standing, would change.
   */
  lemma TruthfulFixRecoversIffCleanAfter(
    p: Program, v: World, w: World, db0: DB, steps: seq<Step>, k: nat, mutated: Replacement, faultType: string, m: nat,
    e: nat, u: World)
    requires Site(p, v, db0, steps, k) && Undisturbed(steps, k, mutated, faultType)
    requires Plantable(steps[k].row.result.answer, mutated) && k < m
    requires SteadyTools(v) && steps[k].row.name != ""
    requires SameDynamics(u, Faulted(v, Some(StandingFault(steps, k, mutated, faultType))))
    requires Finished(p, v, db0, |steps|)
    ensures var item := Driven(p, PlantPlan(steps, k, mutated), w, db0, m).replayer.recorder.rows;
            LivesIn(p, FixPlan(item, k, Resolver(v, e)), u, v, db0)
            <==> CleanAfter(steps, StandingFault(steps, k, mutated, faultType), k)
  {
    var item := Driven(p, PlantPlan(steps, k, mutated), w, db0, m).replayer.recorder.rows;
    var plan, spec := FixPlan(item, k, Resolver(v, e)), StandingFault(steps, k, mutated, faultType);
    if CleanAfter(steps, spec, k) {
      forall n: nat ensures Follows(Driven(p, plan, u, db0, n), Recorded(p, v, db0, n)) {
        if n <= k {
          FixFollowsBefore(p, v, w, db0, steps, k, mutated, m, Resolver(v, e), u, n);
        } else {
          TruthfulFixRecoversTheCleanRun(p, v, w, db0, steps, k, mutated, faultType, m, e, u, n);
        }
      }
    } else {
      var i: nat :| k < i < |steps| && Corrupts(spec, steps[i]);
      FixedStep(p, v, w, db0, steps, k, mutated, faultType, m, e, u);
      var _ := SiteCall(p, v, db0, steps, k);
      assert RowOfRun(p, v, db0, steps, i);
      StandingFaultShows(p, v, u, db0, steps, spec, plan, k, i);
    }
  }
}
