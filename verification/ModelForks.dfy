/**
 Forks at a model step. Up to the step the fork is the run it was cut from; what is said there is
 a live sample, or the forced message; and from then on the live world answers.
 */
module ModelForks {
  import opened Wrappers
  import opened Simulation
  import opened Recording
  import opened Interventions
  import opened Replay
  import opened Counterfactual

  // ---- the worlds such forks live in -------------------------------------------------------------

  /** Answers as `v` before event `k` and as `w` from it on. */
  function Spliced(v: World, w: World, k: nat): World {
    World((i: nat, q: Request) => if i < k then v.model(i, q) else w.model(i, q),
          (i: nat, db: DB, c: Call) => if i < k then v.tool(i, db, c) else w.tool(i, db, c),
          (i: nat) => if i < k then v.clock(i) else w.clock(i))
  }

  /** The same, but saying `message` at event `k`, with the rest of what `v` said there. */
  function Forced(v: World, w: World, k: nat, message: string): World {
    var spliced := Spliced(v, w, k);
    spliced.(model := (i: nat, q: Request) =>
               if i == k then Response(message, v.model(k, q).rest) else spliced.model(i, q))
  }

  ghost predicate AgreeBefore(u: World, v: World, k: nat) {
    && (forall i: nat, q | i < k :: u.model(i, q) == v.model(i, q))
    && (forall i: nat, db, c | i < k :: u.tool(i, db, c) == v.tool(i, db, c))
    && (forall i: nat | i < k :: u.clock(i) == v.clock(i))
  }

  ghost predicate AgreeAfter(u: World, w: World, k: nat) {
    && (forall i: nat, q | k < i :: u.model(i, q) == w.model(i, q))
    && (forall i: nat, db, c | k < i :: u.tool(i, db, c) == w.tool(i, db, c))
  }

  lemma SplicedAgrees(v: World, w: World, k: nat)
    ensures AgreeBefore(Spliced(v, w, k), v, k) && AgreeAfter(Spliced(v, w, k), w, k)
  {
  }

  lemma ForcedAgrees(v: World, w: World, k: nat, message: string)
    ensures AgreeBefore(Forced(v, w, k, message), v, k) && AgreeAfter(Forced(v, w, k, message), w, k)
  {
  }

  lemma EventAgrees(p: Program, u: World, v: World, s: Run, k: nat)
    requires AgreeBefore(u, v, k) && |s.history| < k
    ensures RunEvent(p, u, s) == RunEvent(p, v, s)
  {
  }

  /** Runs of two worlds are one and the same as long as the worlds agree. */
  lemma {:induction false} RunsAgree(p: Program, u: World, v: World, db0: DB, k: nat, n: nat)
    requires AgreeBefore(u, v, k) && n <= k
    ensures SameRun(p, v, u, db0, n)
  {
    if n > 0 {
      RunsAgree(p, u, v, db0, k, n - 1);
      StageAgrees(p, u, v, db0, k, n - 1);
    }
  }

  lemma StageAgrees(p: Program, u: World, v: World, db0: DB, k: nat, n: nat)
    requires AgreeBefore(u, v, k) && n < k && SameRun(p, v, u, db0, n)
    ensures SameRun(p, v, u, db0, n + 1)
  {
    RowsFollowEvents(p, v, db0, n);
    EventAgrees(p, u, v, Recorded(p, v, db0, n), k);
  }

  // ---- a fork at a model step --------------------------------------------------------------------

  /** A live fork of a recording of `v` at one of its model steps; re-run tools are the recording's. */
  ghost predicate ModelFork(p: Program, plan: Plan, w: World, v: World, db0: DB, k: nat) {
    && plan.forkStep == Some(k) && k < |plan.steps| && plan.hasLive && !plan.mode.Verify?
    && TapeOfRun(p, v, db0, plan.steps, k + 1)
    && plan.steps[k].actor != ToolActor
    && (plan.mode.RerunLive? ==> SameTools(w, v))
  }

  /** What the recording asked and was told at `k`, and how its row says so. */
  lemma ModelRow(p: Program, v: World, db0: DB, steps: seq<Step>, k: nat) returns (q: Request)
    requires k < |steps| && RowOfRun(p, v, db0, steps, k) && steps[k].actor != ToolActor
    ensures var s := Recorded(p, v, db0, k);
            && |s.history| == k && p.next(s.history) == Ask(q)
            && steps[k].row == LlmRow(q, v.model(k, q)) && steps[k].idx == k
  {
    RowMade(p, v, db0, k);
    RowsFollowEvents(p, v, db0, k + 1);
    assert Plain(steps[k]) == Plain(Recorded(p, v, db0, k + 1).recorder.rows[k]);
    q := p.next(Recorded(p, v, db0, k).history).request;
  }

  /** A resampled model event: the recording is set aside and one live call is made. */
  lemma ResampledEvent(p: Program, plan: Plan, w: World, u: World, d: Drive, s: Run, q: Request)
    requires Follows(d, s) && p.next(s.history) == Ask(q) && plan.hasLive
    requires var k := |s.history|;
             && AtFork(plan, k) && d.replayer.pos == k < |plan.steps| && plan.intervention == Resample(plan.steps[k].idx)
             && plan.steps[k].row.LlmRow? && plan.steps[k].row.request == q && u.model(k, q) == w.model(k, q)
    ensures Follows(DriveEvent(p, plan, w, d), RunEvent(p, u, s))
  {
    var response := w.model(|s.history|, q);
    SameAppend(d.replayer.recorder, s.recorder, s.db, ActorOf(q.purpose), LlmRow(q, response), LlmRow(q, response), false, false);
  }

  /** A forced model event: the message is replaced and the rest of the recorded response is kept. */
  lemma ForcedEvent(p: Program, plan: Plan, w: World, u: World, d: Drive, s: Run, q: Request, message: string)
    requires Follows(d, s) && p.next(s.history) == Ask(q)
    requires var k := |s.history|;
             && AtFork(plan, k) && d.replayer.pos == k < |plan.steps|
             && plan.intervention == ForceAction(plan.steps[k].idx, message) && plan.steps[k].actor != ToolActor
             && plan.steps[k].row.LlmRow? && plan.steps[k].row.request == q
             && u.model(k, q) == Response(message, plan.steps[k].row.response.rest)
    ensures Follows(DriveEvent(p, plan, w, d), RunEvent(p, u, s))
  {
    var response := u.model(|s.history|, q);
    SameAppend(d.replayer.recorder, s.recorder, s.db, ActorOf(q.purpose), LlmRow(q, response), LlmRow(q, response), true, false);
  }

  /** Past its step, the fork stays with the run of any world that answers there as the live one. */
  lemma LivesOn(p: Program, plan: Plan, w: World, u: World, db0: DB, k: nat, n: nat)
    requires plan.forkStep == Some(k) && plan.hasLive && k < n && !Finished(p, u, db0, k) && AgreeAfter(u, w, k)
    requires Follows(Driven(p, plan, w, db0, k + 1), Recorded(p, u, db0, k + 1))
    ensures Follows(Driven(p, plan, w, db0, n), Recorded(p, u, db0, n))
  {
    forall i: nat | k < i < n ensures AlikeAt(p, w, u, db0, i) { LaterEvent(p, w, u, db0, k, i); }
    StaysWithRun(p, u, w, db0, plan, k, n);
  }

  lemma LaterEvent(p: Program, w: World, u: World, db0: DB, k: nat, i: nat)
    requires k < i && AgreeAfter(u, w, k)
    ensures AlikeAt(p, w, u, db0, i)
  {
    OneEventPerStage(p, u, db0, i);
  }

  /** A stale snapshot before the fork step leaves the fork in another world than the run. */
  lemma StalePrefixShows(p: Program, plan: Plan, w: World, v: World, db0: DB, k: nat, i: nat)
    requires plan.mode.Snapshot? && plan.forkStep == Some(k) && i < k && TapeOfRun(p, v, db0, plan.steps, k)
    requires SilentAt(p, v, db0, i) && NoSilentChange(p, v, db0, i)
    ensures !Follows(Driven(p, plan, w, db0, i + 1), Recorded(p, v, db0, i + 1))
  {
    PrefixFollows(p, plan, w, v, db0, k, i);
    assert RowOfRun(p, v, db0, plan.steps, i);
    SilentRowIsStale(p, v, db0, plan.steps, i);
    SteadyUnlessStopped(p, plan, w, db0, i);
    TapedToolRestores(p, plan, w, Driven(p, plan, w, db0, i), i);
  }

  /** The fork is the run of `u` if it joins it at its step, over exact snapshots; and only over those. */
  lemma ForkLivesIff(p: Program, plan: Plan, w: World, v: World, u: World, db0: DB, k: nat)
    requires ModelFork(p, plan, w, v, db0, k) && AgreeBefore(u, v, k) && AgreeAfter(u, w, k)
    requires Follows(Driven(p, plan, w, db0, k), Recorded(p, v, db0, k)) ==>
               Follows(Driven(p, plan, w, db0, k + 1), Recorded(p, u, db0, k + 1)) && !Finished(p, u, db0, k)
    ensures LivesIn(p, plan, w, u, db0) <==> (plan.mode.Snapshot? ==> NoSilentChange(p, v, db0, k))
  {
    if plan.mode.Snapshot? && !NoSilentChange(p, v, db0, k) {
      ShorterTape(p, v, db0, plan.steps, k);
      var n := StaleForkStrays(p, plan, w, v, db0, k);
      StraysToo(p, plan, w, v, u, db0, k, n);
      StraysOnce(p, plan, w, u, db0, n);
    } else {
      assert TapeOfRun(p, v, db0, plan.steps, k);
      PrefixFollows(p, plan, w, v, db0, k, k);
      forall n: nat ensures Follows(Driven(p, plan, w, db0, n), Recorded(p, u, db0, n)) {
        if n <= k { LivesBefore(p, plan, w, v, u, db0, k, n); } else { LivesOn(p, plan, w, u, db0, k, n); }
      }
    }
  }

  lemma LivesBefore(p: Program, plan: Plan, w: World, v: World, u: World, db0: DB, k: nat, n: nat)
    requires ModelFork(p, plan, w, v, db0, k) && AgreeBefore(u, v, k) && n <= k
    requires plan.mode.Snapshot? ==> NoSilentChange(p, v, db0, k)
    ensures Follows(Driven(p, plan, w, db0, n), Recorded(p, u, db0, n))
  {
    assert TapeOfRun(p, v, db0, plan.steps, k);
    RunsAgree(p, u, v, db0, k, n);
    PrefixFollows(p, plan, w, v, db0, k, n);
  }

  lemma StaleForkStrays(p: Program, plan: Plan, w: World, v: World, db0: DB, k: nat) returns (n: nat)
    requires plan.mode.Snapshot? && plan.forkStep == Some(k) && TapeOfRun(p, v, db0, plan.steps, k)
    requires !NoSilentChange(p, v, db0, k)
    ensures n <= k && !Follows(Driven(p, plan, w, db0, n), Recorded(p, v, db0, n))
  {
    var i := FirstSilent(p, v, db0, k);
    StalePrefixShows(p, plan, w, v, db0, k, i);
    n := i + 1;
  }

  lemma StraysToo(p: Program, plan: Plan, w: World, v: World, u: World, db0: DB, k: nat, n: nat)
    requires AgreeBefore(u, v, k) && n <= k && !Follows(Driven(p, plan, w, db0, n), Recorded(p, v, db0, n))
    ensures !Follows(Driven(p, plan, w, db0, n), Recorded(p, u, db0, n))
  {
    RunsAgree(p, u, v, db0, k, n);
  }

  lemma StraysOnce(p: Program, plan: Plan, w: World, u: World, db0: DB, n: nat)
    requires !Follows(Driven(p, plan, w, db0, n), Recorded(p, u, db0, n))
    ensures !LivesIn(p, plan, w, u, db0)
  {
  }

  lemma ShorterTape(p: Program, v: World, db0: DB, steps: seq<Step>, k: nat)
    requires TapeOfRun(p, v, db0, steps, k + 1)
    ensures TapeOfRun(p, v, db0, steps, k)
  {
  }

  // ---- the two ways a model step is forked -------------------------------------------------------

  lemma ResampleJoins(p: Program, plan: Plan, w: World, v: World, db0: DB, k: nat)
    requires ModelFork(p, plan, w, v, db0, k) && plan.intervention == Resample(k)
    requires Follows(Driven(p, plan, w, db0, k), Recorded(p, v, db0, k))
    ensures var u := Spliced(v, w, k);
            Follows(Driven(p, plan, w, db0, k + 1), Recorded(p, u, db0, k + 1)) && !Finished(p, u, db0, k)
  {
    var u := Spliced(v, w, k);
    assert RowOfRun(p, v, db0, plan.steps, k);
    var q := ModelRow(p, v, db0, plan.steps, k);
    RunsAgree(p, u, v, db0, k, k);
    SteadyUnlessStopped(p, plan, w, db0, k);
    ResampledEvent(p, plan, w, u, Driven(p, plan, w, db0, k), Recorded(p, v, db0, k), q);
  }

  /**
   The treated arm at an agent's or a user's step: forking there, with the intervention chosen for
   that step, is at every stage the run of the world that answers as the recording's before the
   step and as the live one from it on, exactly when the prefix restores no stale snapshot.
   */
  lemma ChosenModelForkLivesIff(p: Program, plan: Plan, w: World, v: World, db0: DB, k: nat, truth: Option<TruthProvider>)
    requires ModelFork(p, plan, w, v, db0, k) && (plan.steps[k].actor == AgentActor || plan.steps[k].actor == UserActor)
    requires ChooseIntervention(plan.steps[k], truth) == Some(plan.intervention)
    ensures LivesIn(p, plan, w, Spliced(v, w, k), db0) <==> (plan.mode.Snapshot? ==> NoSilentChange(p, v, db0, k))
  {
    assert RowOfRun(p, v, db0, plan.steps, k);
    var q := ModelRow(p, v, db0, plan.steps, k);
    SplicedAgrees(v, w, k);
    if Follows(Driven(p, plan, w, db0, k), Recorded(p, v, db0, k)) { ResampleJoins(p, plan, w, v, db0, k); }
    ForkLivesIff(p, plan, w, v, Spliced(v, w, k), db0, k);
  }

  lemma ForceJoins(p: Program, plan: Plan, w: World, v: World, db0: DB, k: nat, message: string)
    requires ModelFork(p, plan, w, v, db0, k) && plan.intervention == ForceAction(k, message)
    requires Follows(Driven(p, plan, w, db0, k), Recorded(p, v, db0, k))
    ensures var u := Forced(v, w, k, message);
            Follows(Driven(p, plan, w, db0, k + 1), Recorded(p, u, db0, k + 1)) && !Finished(p, u, db0, k)
  {
    var u := Forced(v, w, k, message);
    assert RowOfRun(p, v, db0, plan.steps, k);
    var q := ModelRow(p, v, db0, plan.steps, k);
    RunsAgree(p, u, v, db0, k, k);
    SteadyUnlessStopped(p, plan, w, db0, k);
    ForcedEvent(p, plan, w, u, Driven(p, plan, w, db0, k), Recorded(p, v, db0, k), q, message);
  }

  /** Forcing an action: at the step the forced message is said, with the rest of the recorded response, and then the live world answers. */
  lemma ForcedForkLivesIff(p: Program, plan: Plan, w: World, v: World, db0: DB, k: nat, message: string)
    requires ModelFork(p, plan, w, v, db0, k) && plan.intervention == ForceAction(k, message)
    ensures LivesIn(p, plan, w, Forced(v, w, k, message), db0) <==> (plan.mode.Snapshot? ==> NoSilentChange(p, v, db0, k))
  {
    ForcedAgrees(v, w, k, message);
    if Follows(Driven(p, plan, w, db0, k), Recorded(p, v, db0, k)) { ForceJoins(p, plan, w, v, db0, k, message); }
    ForkLivesIff(p, plan, w, v, Forced(v, w, k, message), db0, k);
  }

  // ---- which model calls were live ---------------------------------------------------------------

  /** How many things were said from event `from` on. */
  function Saids(history: seq<Event>, from: nat): nat {
    if history == [] then 0
    else Saids(history[..|history| - 1], from)
         + if |history| - 1 >= from && history[|history| - 1].Said? then 1 else 0
  }

  lemma OneMoreSaid(history: seq<Event>, e: Event, from: nat)
    ensures Saids(history + [e], from) == Saids(history, from) + if |history| >= from && e.Said? then 1 else 0
  {
    assert (history + [e])[..|history|] == history;
  }

  lemma {:induction false} NothingSaidYet(history: seq<Event>, from: nat)
    requires |history| <= from
    ensures Saids(history, from) == 0
  {
    if history != [] { NothingSaidYet(history[..|history| - 1], from); }
  }

  /** The first event whose model call is live. */
  function LiveFrom(plan: Plan): nat
    requires plan.forkStep.Some?
  {
    if plan.intervention.Resample? then plan.forkStep.value else plan.forkStep.value + 1
  }

  predicate LiveCounted(plan: Plan, d: Drive)
    requires plan.forkStep.Some?
  {
    d.stopped.None? ==> d.replayer.liveCalls == Saids(d.history, LiveFrom(plan))
  }

  lemma ModelEventCounts(plan: Plan, w: World, r: Replayer, q: Request)
    requires plan.forkStep.Some?
    ensures var (next, out) := Completion(plan, w, r, q);
            out.Success? ==> next.liveCalls == r.liveCalls + if r.events >= LiveFrom(plan) then 1 else 0
  {
  }

  lemma ToolEventCounts(plan: Plan, w: World, r: Replayer, c: Call)
    ensures GetResponse(plan, w, r, c).0.liveCalls == r.liveCalls
  {
  }

  lemma EventCounts(p: Program, plan: Plan, w: World, d: Drive)
    requires plan.forkStep.Some? && LiveCounted(plan, d) && |d.history| == d.replayer.events
    ensures LiveCounted(plan, DriveEvent(p, plan, w, d))
  {
    if d.stopped.None? {
      match p.next(d.history) {
        case Finish(_) =>
        case Ask(q) =>
          ModelEventCounts(plan, w, d.replayer, q);
          var out := Completion(plan, w, d.replayer, q).1;
          if out.Success? { OneMoreSaid(d.history, Said(out.value), LiveFrom(plan)); }
        case Execute(c) =>
          ToolEventCounts(plan, w, d.replayer, c);
          var out := GetResponse(plan, w, d.replayer, c).1;
          if out.Success? { OneMoreSaid(d.history, Answered(out.value.answer), LiveFrom(plan)); }
      }
    }
  }

  /** In every fork the live model calls are exactly what was said after its step, and at it when resampled. */
  lemma {:induction false} LiveCallsAreSaid(p: Program, plan: Plan, w: World, db0: DB, n: nat)
    requires plan.forkStep.Some?
    ensures LiveCounted(plan, Driven(p, plan, w, db0, n))
  {
    if n == 0 {
      assert Driven(p, plan, w, db0, 0) == NewDrive(db0);
    } else {
      LiveCallsAreSaid(p, plan, w, db0, n - 1);
      ReplayerInvariant(p, plan, w, db0, n - 1);
      EventCounts(p, plan, w, Driven(p, plan, w, db0, n - 1));
    }
  }

  /** So the fork chosen for an agent's or a user's step pays for every model answer from that step on. */
  lemma ChosenModelForkIsLive(p: Program, plan: Plan, w: World, v: World, db0: DB, k: nat, truth: Option<TruthProvider>, n: nat)
    requires ModelFork(p, plan, w, v, db0, k) && (plan.steps[k].actor == AgentActor || plan.steps[k].actor == UserActor)
    requires ChooseIntervention(plan.steps[k], truth) == Some(plan.intervention)
    requires Driven(p, plan, w, db0, n).stopped.None?
    ensures var d := Driven(p, plan, w, db0, n); d.replayer.liveCalls == Saids(d.history, k)
  {
    LiveCallsAreSaid(p, plan, w, db0, n);
  }
}
