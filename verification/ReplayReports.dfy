/**
 What a replay reports: why it stopped, where each row of its own tape came from, and how many
 model calls it took from the recording.
 */
module ReplayReports {
  import opened Wrappers
  import opened Simulation
  import opened Recording
  import opened Interventions
  import opened Replay
  import opened ReplayClosure

  // ---- why a replay stops ------------------------------------------------------------------------

  /** The intervention cannot be used on this step, and why: it is for another one, or its truth is wanting. */
  predicate RefusedFor(iv: Intervention, step: Step, reason: Refusal) {
    match iv
    case NoOp => false
    case ReplaceToolResult(k, _) => reason == Misapplied && (k != step.idx || step.actor != ToolActor)
    case ForceAction(k, _) => reason == Misapplied && (k != step.idx || step.actor == ToolActor)
    case Resample(k) => reason == Misapplied && k != step.idx
    case TruthfulToolResult(k, truth) =>
      if k != step.idx || step.actor != ToolActor then reason == Misapplied
      else if truth.None? then reason == Unresolved
      else reason == TruthUnavailable && truth.value(step).None?
  }

  /** The tape's next row answers what the orchestrator asks for. */
  predicate Answers(p: Program, plan: Plan, d: Drive) {
    var i := d.replayer.events;
    i < |plan.steps| &&
    match p.next(d.history)
    case Finish(_) => false
    case Ask(q) => plan.steps[i].row.LlmRow? && (q.canonical == plan.steps[i].row.request.canonical || plan.unsafePositional)
    case Execute(c) => plan.steps[i].row.ToolRow? && plan.steps[i].row.name == c.name && plan.steps[i].row.args == c.args
  }

  /** Re-executing or restoring the tool row at the cursor gives what the tape says. */
  predicate Reproduces(p: Program, plan: Plan, w: World, d: Drive)
    requires Answers(p, plan, d)
  {
    p.next(d.history).Execute? ==>
      var i := d.replayer.events;
      match plan.mode
      case RerunLive => true
      case Snapshot => StateHash(plan.steps[i].after) == plan.steps[i].hash
      case Verify => var (answer, db) := w.tool(i, d.replayer.db, p.next(d.history).call);
                     answer == plan.steps[i].row.result.answer && StateHash(db) == plan.steps[i].hash
  }

  /** The next model call is a live one. */
  predicate AsksLive(p: Program, plan: Plan, w: World, d: Drive) {
    p.next(d.history).Ask? &&
      var i := d.replayer.events;
      if Governed(plan, i) then AtFork(plan, i) && Answers(p, plan, d) && plan.intervention == Resample(plan.steps[i].idx)
      else true
  }

  /** `stop` is what ends the replay at its next event, read off the tape and the orchestrator's request. */
  predicate StopsFor(p: Program, plan: Plan, w: World, d: Drive, stop: Stop) {
    var i, next := d.replayer.events, p.next(d.history);
    match stop
    case TapeExhausted(at) => !next.Finish? && Governed(plan, i) && i == |plan.steps| && at == i
    case WrongActor(at) =>
      !next.Finish? && Governed(plan, i) && at == i < |plan.steps| && (next.Ask? <==> plan.steps[i].row.ToolRow?)
    case RequestMismatch(at) =>
      next.Ask? && Governed(plan, i) && at == i < |plan.steps| && plan.steps[i].row.LlmRow? && !Answers(p, plan, d)
    case NameMismatch(at) =>
      next.Execute? && Governed(plan, i) && at == i < |plan.steps| && plan.steps[i].row.ToolRow?
      && plan.steps[i].row.name != next.call.name
    case ArgsMismatch(at) =>
      next.Execute? && Governed(plan, i) && at == i < |plan.steps| && plan.steps[i].row.ToolRow?
      && plan.steps[i].row.name == next.call.name && plan.steps[i].row.args != next.call.args
    case ResultMismatch(idx) =>
      next.Execute? && Governed(plan, i) && Answers(p, plan, d) && plan.mode == Verify && idx == plan.steps[i].idx
      && w.tool(i, d.replayer.db, next.call).0 != plan.steps[i].row.result.answer
    case StateMismatch(idx) =>
      next.Execute? && Governed(plan, i) && Answers(p, plan, d) && idx == plan.steps[i].idx && !Reproduces(p, plan, w, d)
      && (plan.mode == Verify ==> w.tool(i, d.replayer.db, next.call).0 == plan.steps[i].row.result.answer)
    case NoLiveCall(at) => at == i && !plan.hasLive && AsksLive(p, plan, w, d)
    case InterventionRefused(at, reason) =>
      at == i && AtFork(plan, i) && Answers(p, plan, d) && Reproduces(p, plan, w, d)
      && RefusedFor(plan.intervention, plan.steps[i], reason)
  }

  lemma RefusalSaysWhy(iv: Intervention, step: Step, m: Message, response: Response, reason: Refusal)
    requires WellTyped(step)
    ensures step.row.ToolRow? ==> (ApplyToResult(iv, step, m) == Refused(reason) <==> RefusedFor(iv, step, reason))
    ensures step.row.LlmRow? ==> (ApplyToResponse(iv, step, response) == Refused(reason) <==> RefusedFor(iv, step, reason))
  {
  }

  lemma ModelStop(p: Program, plan: Plan, w: World, d: Drive, q: Request, stop: Stop)
    requires d.stopped.None? && Steady(plan, d.replayer) && p.next(d.history) == Ask(q)
    requires forall step <- plan.steps :: WellTyped(step)
    ensures Completion(plan, w, d.replayer, q).1 == Failure(stop) <==> StopsFor(p, plan, w, d, stop)
  {
    var i := d.replayer.events;
    if Governed(plan, i) && i < |plan.steps| && plan.steps[i].row.LlmRow? && stop.InterventionRefused? {
      RefusalSaysWhy(plan.intervention, plan.steps[i], Message(Answer("", "", "", false), 0), plan.steps[i].row.response, stop.reason);
    }
  }

  lemma ToolStop(p: Program, plan: Plan, w: World, d: Drive, c: Call, stop: Stop)
    requires d.stopped.None? && Steady(plan, d.replayer) && p.next(d.history) == Execute(c)
    requires forall step <- plan.steps :: WellTyped(step)
    ensures GetResponse(plan, w, d.replayer, c).1 == Failure(stop) <==> StopsFor(p, plan, w, d, stop)
  {
    var i := d.replayer.events;
    if Governed(plan, i) && Answers(p, plan, d) && stop.InterventionRefused? {
      var served := ObtainedMessage(plan, w, d, c);
      RefusalSaysWhy(plan.intervention, plan.steps[i], served, Response("", ""), stop.reason);
    }
  }

  function ObtainedMessage(plan: Plan, w: World, d: Drive, c: Call): Message
    requires d.replayer.events < |plan.steps| && plan.steps[d.replayer.events].row.ToolRow?
  {
    var i := d.replayer.events;
    var answer := if plan.mode.Snapshot? then plan.steps[i].row.result.answer else w.tool(i, d.replayer.db, c).0;
    Message(answer, w.clock(i))
  }

  /**
   Why a replay stops, in every run: it does at an event exactly for one of these reasons, and says
   that one, with the place.
   */
  lemma StopSaysWhy(p: Program, plan: Plan, w: World, db0: DB, n: nat, stop: Stop)
    requires Driven(p, plan, w, db0, n).stopped.None? && forall step <- plan.steps :: WellTyped(step)
    ensures Driven(p, plan, w, db0, n + 1).stopped == Some(stop) <==> StopsFor(p, plan, w, Driven(p, plan, w, db0, n), stop)
  {
    ReplayerInvariant(p, plan, w, db0, n);
    var d := Driven(p, plan, w, db0, n);
    assert Driven(p, plan, w, db0, n + 1) == DriveEvent(p, plan, w, d);
    match p.next(d.history) {
      case Finish(_) =>
      case Ask(q) => ModelStop(p, plan, w, d, q, stop);
      case Execute(c) => ToolStop(p, plan, w, d, c, stop);
    }
  }

  // ---- where the rows come from ------------------------------------------------------------------

  /** The row at `i` was taken from the tape: up to the fork step, and there too unless a model call was made anew. */
  predicate TakenFromTape(plan: Plan, step: Step, i: nat) {
    Governed(plan, i) && !(AtFork(plan, i) && plan.intervention.Resample? && step.row.LlmRow?)
  }

  /** Every row says where it came from, and a tool row when it was made. */
  ghost predicate Sourced(plan: Plan, w: World, rows: seq<Step>) {
    forall i: nat | i < |rows| :: SourcedAt(plan, w, rows[i], i)
  }

  predicate SourcedAt(plan: Plan, w: World, row: Step, i: nat) {
    && row.idx == i
    && (row.row.ToolRow? <==> row.actor == ToolActor)
    && (row.row.LlmRow? ==>
          && (row.actor == AgentActor <==> row.row.request.purpose == AgentPurpose)
          && (row.actor == UserActor <==> row.row.request.purpose == UserPurpose))
    && (row.fromTape <==> TakenFromTape(plan, row, i))
    && (row.row.ToolRow? ==> row.row.result.stamp == w.clock(i))
  }

  lemma OneMoreSourced(plan: Plan, w: World, rows: seq<Step>, row: Step)
    requires Sourced(plan, w, rows) && SourcedAt(plan, w, row, |rows|)
    ensures Sourced(plan, w, rows + [row])
  {
  }

  /** A run's next row, and nothing else, is new. */
  predicate OneRowMore(r: Replayer, next: Replayer) {
    |next.recorder.rows| == |r.recorder.rows| + 1
    && next.recorder.rows == r.recorder.rows + [next.recorder.rows[|r.recorder.rows|]]
    && next.recorder.nextIdx == r.recorder.nextIdx + 1
  }

  lemma ModelRowSourced(plan: Plan, w: World, r: Replayer, q: Request)
    requires |r.recorder.rows| == r.recorder.nextIdx == r.events && Steady(plan, r)
    ensures var (next, out) := Completion(plan, w, r, q);
            if out.Success? then OneRowMore(r, next) && SourcedAt(plan, w, next.recorder.rows[r.events], r.events)
            else next.recorder.rows == r.recorder.rows && next.recorder.nextIdx == r.recorder.nextIdx
  {
  }

  lemma ToolRowSourced(plan: Plan, w: World, r: Replayer, c: Call)
    requires |r.recorder.rows| == r.recorder.nextIdx == r.events && Steady(plan, r)
    ensures var (next, out) := GetResponse(plan, w, r, c);
            if out.Success? then OneRowMore(r, next) && SourcedAt(plan, w, next.recorder.rows[r.events], r.events)
            else next.recorder.rows == r.recorder.rows && next.recorder.nextIdx == r.recorder.nextIdx
  {
  }

  ghost predicate DriveSourced(plan: Plan, w: World, d: Drive) {
    Sourced(plan, w, d.replayer.recorder.rows)
    && |d.replayer.recorder.rows| == d.replayer.recorder.nextIdx == d.replayer.events
  }

  lemma EventSourced(p: Program, plan: Plan, w: World, d: Drive)
    requires DriveSourced(plan, w, d) && InOrder(plan, d)
    ensures DriveSourced(plan, w, DriveEvent(p, plan, w, d))
  {
    if d.stopped.None? {
      var r := d.replayer;
      match p.next(d.history) {
        case Finish(_) =>
        case Ask(q) =>
          ModelRowSourced(plan, w, r, q);
          EventKeepsOrder(p, plan, w, d);
          var next := Completion(plan, w, r, q).0;
          if Completion(plan, w, r, q).1.Success? { OneMoreSourced(plan, w, r.recorder.rows, next.recorder.rows[r.events]); }
        case Execute(c) =>
          ToolRowSourced(plan, w, r, c);
          EventKeepsOrder(p, plan, w, d);
          var next := GetResponse(plan, w, r, c).0;
          if GetResponse(plan, w, r, c).1.Success? { OneMoreSourced(plan, w, r.recorder.rows, next.recorder.rows[r.events]); }
      }
    }
  }

  /** In every fork and every replay: the rows the tape governed say so and no others do, and each tool row bears its own time. */
  lemma {:induction false} RowsSayTheirSource(p: Program, plan: Plan, w: World, db0: DB, n: nat)
    ensures DriveSourced(plan, w, Driven(p, plan, w, db0, n))
  {
    if n == 0 {
      assert Driven(p, plan, w, db0, 0) == NewDrive(db0);
    } else {
      RowsSayTheirSource(p, plan, w, db0, n - 1);
      ReplayerInvariant(p, plan, w, db0, n - 1);
      EventSourced(p, plan, w, Driven(p, plan, w, db0, n - 1));
    }
  }

  // ---- what it makes of the end ------------------------------------------------------------------

  /** What a full replay says of a run that failed it, and what it counts of one that did not. */
  lemma ReplaySays(p: Program, rows: seq<Step>, recorded: Option<real>, expectSame: bool, mode: ToolMode, w: World, db0: DB)
    ensures var d, r := Driven(p, FullReplay(rows, mode), w, db0, |rows| + 1),
                        ReplayRun(p, rows, recorded, expectSame, mode, w, db0);
            && (forall stop :: r == Failure(Diverged(stop)) <==> d.stopped == Some(stop))
            && (forall at: nat :: r == Failure(Incomplete(at)) <==> Ended(p, d) && |d.history| == at < |rows|)
            && (r == Failure(OutcomeDiffers)
                <==> Ended(p, d) && |d.history| == |rows| && expectSame && p.score(d.history).Some?
                     && p.score(d.history) != recorded)
            && (r.Success? ==> Ended(p, d) && |d.history| == |rows| == r.value.steps && r.value.reward == p.score(d.history)
                               && r.value.tapeCalls == d.replayer.served && r.value.liveCalls == d.replayer.liveCalls
                               && r.value.unguarded == d.replayer.unguarded)
  {
    var plan := FullReplay(rows, mode);
    var d := Driven(p, plan, w, db0, |rows| + 1);
    FullReplaySettles(p, rows, mode, w, db0);
    ReplayerInvariant(p, plan, w, db0, |rows| + 1);
    RowsSayTheirSource(p, plan, w, db0, |rows| + 1);
  }

  // ---- what was taken from the recording ---------------------------------------------------------

  /** A model answer the tape governed: its own, or at the fork step one put in its place. */
  predicate ServedAt(plan: Plan, history: seq<Event>, i: nat)
    requires i < |history|
  {
    history[i].Said? && Governed(plan, i)
  }

  /** One whose request was not the recorded one. */
  predicate StrayAt(p: Program, plan: Plan, history: seq<Event>, i: nat)
    requires i < |history|
  {
    ServedAt(plan, history, i) && i < |plan.steps| && plan.steps[i].row.LlmRow? &&
    match p.next(history[..i])
    case Ask(q) => q.canonical != plan.steps[i].row.request.canonical
    case _ => false
  }

  function ServedIn(plan: Plan, history: seq<Event>): nat {
    if history == [] then 0
    else ServedIn(plan, history[..|history| - 1]) + if ServedAt(plan, history, |history| - 1) then 1 else 0
  }

  function StraysIn(p: Program, plan: Plan, history: seq<Event>): nat {
    if history == [] then 0
    else StraysIn(p, plan, history[..|history| - 1]) + if StrayAt(p, plan, history, |history| - 1) then 1 else 0
  }

  lemma OneMoreServed(p: Program, plan: Plan, history: seq<Event>, e: Event)
    ensures var longer := history + [e];
            && ServedIn(plan, longer) == ServedIn(plan, history) + (if e.Said? && Governed(plan, |history|) then 1 else 0)
            && StraysIn(p, plan, longer) == StraysIn(p, plan, history) + (if StrayAt(p, plan, longer, |history|) then 1 else 0)
            && longer[..|history|] == history
  {
    assert (history + [e])[..|history|] == history;
  }

  predicate ServedCounted(p: Program, plan: Plan, d: Drive) {
    d.stopped.None? ==>
      d.replayer.served == ServedIn(plan, d.history) && d.replayer.unguarded == StraysIn(p, plan, d.history)
  }

  lemma ModelEventServes(plan: Plan, w: World, r: Replayer, q: Request)
    requires Steady(plan, r)
    ensures var (next, out) := Completion(plan, w, r, q);
            out.Success? ==>
              && next.served == r.served + (if Governed(plan, r.events) then 1 else 0)
              && (Governed(plan, r.events) ==> r.events < |plan.steps| && plan.steps[r.events].row.LlmRow?)
              && next.unguarded == r.unguarded + if Governed(plan, r.events)
                                                    && q.canonical != plan.steps[r.events].row.request.canonical then 1 else 0
  {
  }

  lemma ToolEventServes(plan: Plan, w: World, r: Replayer, c: Call)
    ensures var next := GetResponse(plan, w, r, c).0; next.served == r.served && next.unguarded == r.unguarded
  {
  }

  lemma EventServes(p: Program, plan: Plan, w: World, d: Drive)
    requires ServedCounted(p, plan, d) && InOrder(plan, d)
    ensures ServedCounted(p, plan, DriveEvent(p, plan, w, d))
  {
    if d.stopped.None? {
      match p.next(d.history) {
        case Finish(_) =>
        case Ask(q) =>
          ModelEventServes(plan, w, d.replayer, q);
          var out := Completion(plan, w, d.replayer, q).1;
          if out.Success? { OneMoreServed(p, plan, d.history, Said(out.value)); }
        case Execute(c) =>
          ToolEventServes(plan, w, d.replayer, c);
          var out := GetResponse(plan, w, d.replayer, c).1;
          if out.Success? { OneMoreServed(p, plan, d.history, Answered(out.value.answer)); }
      }
    }
  }

  /** In every run: the tape served exactly the model answers it governed, and the unguarded ones are those it was asked otherwise for. */
  lemma {:induction false} TapeCallsAreCounted(p: Program, plan: Plan, w: World, db0: DB, n: nat)
    ensures ServedCounted(p, plan, Driven(p, plan, w, db0, n))
  {
    if n == 0 {
      assert Driven(p, plan, w, db0, 0) == NewDrive(db0);
    } else {
      TapeCallsAreCounted(p, plan, w, db0, n - 1);
      ReplayerInvariant(p, plan, w, db0, n - 1);
      EventServes(p, plan, w, Driven(p, plan, w, db0, n - 1));
    }
  }
}
