/**
 Full replays: `replay_run` accepts exactly the tapes that fit the orchestrator, and every
 recording and every fork fits, whatever the model and the tools did.
 */
module ReplayClosure {
  import opened Wrappers
  import opened Simulation
  import opened Recording
  import opened Interventions
  import opened Replay

  /** What the orchestrator saw when this row was written. */
  function EventOf(step: Step): Event {
    match step.row
    case LlmRow(_, response) => Said(response)
    case ToolRow(_, _, result) => Answered(result.answer)
  }

  function HistoryOf(rows: seq<Step>): (history: seq<Event>)
    ensures |history| == |rows|
  {
    seq(|rows|, i requires 0 <= i < |rows| => EventOf(rows[i]))
  }

  lemma HistoryGrows(rows: seq<Step>, step: Step)
    ensures HistoryOf(rows + [step]) == HistoryOf(rows) + [EventOf(step)]
  {
  }

  /** Row `i` is what the orchestrator asks for after the rows before it, and its snapshot hashes as it says. */
  predicate RowFits(p: Program, rows: seq<Step>, i: nat)
    requires i < |rows|
  {
    match p.next(HistoryOf(rows[..i]))
    case Finish(_) => false
    case Ask(q) => rows[i].row.LlmRow? && rows[i].row.request.canonical == q.canonical
    case Execute(c) =>
      && rows[i].row.ToolRow? && rows[i].row.name == c.name && rows[i].row.args == c.args
      && StateHash(rows[i].after) == rows[i].hash
  }

  ghost predicate Fits(p: Program, rows: seq<Step>) {
    forall i: nat | i < |rows| :: RowFits(p, rows, i)
  }

  /** A tape that is the whole of a run: every row fits and the orchestrator then ends. */
  ghost predicate WholeTape(p: Program, rows: seq<Step>) {
    Fits(p, rows) && p.next(HistoryOf(rows)).Finish?
  }

  lemma FitsGrows(p: Program, rows: seq<Step>, step: Step)
    requires Fits(p, rows) && RowFits(p, rows + [step], |rows|)
    ensures Fits(p, rows + [step])
  {
    forall i: nat | i < |rows| ensures RowFits(p, rows + [step], i) {
      assert RowFits(p, rows, i);
      assert (rows + [step])[..i] == rows[..i];
    }
  }

  // ---- what a recorder writes always fits ----------------------------------------------------

  predicate CaptureRight(r: Recorder) {
    r.cached.Some? ==> r.cached.value.hash == StateHash(r.cached.value.state)
  }

  ghost predicate Faithful(p: Program, history: seq<Event>, r: Recorder) {
    history == HistoryOf(r.rows) && Fits(p, r.rows) && CaptureRight(r)
  }

  lemma AppendLlm(p: Program, r: Recorder, db: DB, q: Request, asked: Request, response: Response, fromTape: bool)
    requires Faithful(p, HistoryOf(r.rows), r) && p.next(HistoryOf(r.rows)) == Ask(asked) && q.canonical == asked.canonical
    ensures Faithful(p, HistoryOf(r.rows) + [Said(response)], WithLlm(r, db, q, response, fromTape))
  {
    var rows := WithLlm(r, db, q, response, fromTape).rows;
    assert rows[..|r.rows|] == r.rows;
    HistoryGrows(r.rows, rows[|r.rows|]);
    FitsGrows(p, r.rows, rows[|r.rows|]);
  }

  lemma AppendTool(p: Program, r: Recorder, db: DB, c: Call, m: Message, fromTape: bool)
    requires Faithful(p, HistoryOf(r.rows), r) && p.next(HistoryOf(r.rows)) == Execute(c)
    ensures Faithful(p, HistoryOf(r.rows) + [Answered(m.answer)], WithTool(r, db, c, m, fromTape))
  {
    var rows := WithTool(r, db, c, m, fromTape).rows;
    assert rows[..|r.rows|] == r.rows;
    HistoryGrows(r.rows, rows[|r.rows|]);
    FitsGrows(p, r.rows, rows[|r.rows|]);
  }

  /** Every recording fits its orchestrator, for any model, tools and clock. */
  lemma {:induction false} RecordingFits(p: Program, w: World, db0: DB, n: nat)
    ensures var s := Recorded(p, w, db0, n); Faithful(p, s.history, s.recorder)
  {
    if n > 0 {
      RecordingFits(p, w, db0, n - 1);
      var s := Recorded(p, w, db0, n - 1);
      match p.next(s.history) {
        case Finish(_) =>
        case Ask(q) => AppendLlm(p, s.recorder, s.db, q, q, w.model(|s.history|, q), false);
        case Execute(c) =>
          var (answer, db) := w.tool(|s.history|, s.db, c);
          AppendTool(p, Begun(s.recorder, s.db), db, c, Message(answer, w.clock(|s.history|)), false);
      }
    }
  }

  lemma CompletionFits(p: Program, plan: Plan, w: World, history: seq<Event>, r: Replayer, q: Request)
    requires Faithful(p, history, r.recorder) && p.next(history) == Ask(q)
    ensures var (next, out) := Completion(plan, w, r, q);
            out.Success? ==> Faithful(p, history + [Said(out.value)], next.recorder)
  {
    var (next, out) := Completion(plan, w, r, q);
    if out.Success? {
      assert exists asked: Request, fromTape: bool ::
          asked.canonical == q.canonical && next.recorder == WithLlm(r.recorder, r.db, asked, out.value, fromTape);
      var asked: Request, fromTape: bool :|
        asked.canonical == q.canonical && next.recorder == WithLlm(r.recorder, r.db, asked, out.value, fromTape);
      AppendLlm(p, r.recorder, r.db, asked, q, out.value, fromTape);
    }
  }

  lemma GetResponseFits(p: Program, plan: Plan, w: World, history: seq<Event>, r: Replayer, c: Call)
    requires Faithful(p, history, r.recorder) && p.next(history) == Execute(c)
    ensures var (next, out) := GetResponse(plan, w, r, c);
            out.Success? ==> Faithful(p, history + [Answered(out.value.answer)], next.recorder)
  {
    var (next, out) := GetResponse(plan, w, r, c);
    if out.Success? {
      var begun := Begun(r.recorder, r.db);
      assert exists fromTape: bool :: next.recorder == WithTool(begun, next.db, c, out.value, fromTape);
      var fromTape: bool :| next.recorder == WithTool(begun, next.db, c, out.value, fromTape);
      AppendTool(p, begun, next.db, c, out.value, fromTape);
    }
  }

  /** Every fork's own tape fits, in every mode, under any intervention, even served past the request guard. */
  lemma {:induction false} ForkFits(p: Program, plan: Plan, w: World, db0: DB, n: nat)
    requires Driven(p, plan, w, db0, n).stopped.None?
    ensures var d := Driven(p, plan, w, db0, n); Faithful(p, d.history, d.replayer.recorder)
  {
    if n > 0 {
      ForkFits(p, plan, w, db0, n - 1);
      var d := Driven(p, plan, w, db0, n - 1);
      match p.next(d.history) {
        case Finish(_) =>
        case Ask(q) => CompletionFits(p, plan, w, d.history, d.replayer, q);
        case Execute(c) => GetResponseFits(p, plan, w, d.history, d.replayer, c);
      }
    }
  }

  // ---- replaying a whole tape ------------------------------------------------------------------

  /** A full replay's plan: the tape governs for ever and there is no live source. */
  function FullReplay(rows: seq<Step>, mode: ToolMode): Plan {
    Plan(rows, None, mode, NoOp, false, false)
  }

  datatype ReplayResult = ReplayResult(steps: nat, reward: Option<real>, tapeCalls: nat, liveCalls: nat, unguarded: nat)

  datatype ReplayError = Diverged(stop: Stop) | Incomplete(at: nat) | OutcomeDiffers

  /** What `replay_run` reports about a driven run: divergence, an unconsumed tape, a changed reward. */
  function Judged(p: Program, rows: seq<Step>, recorded: Option<real>, expectSame: bool, d: Drive): Result<ReplayResult, ReplayError> {
    if d.stopped.Some? then Failure(Diverged(d.stopped.value))
    else if d.replayer.pos < |rows| then Failure(Incomplete(d.replayer.pos))
    else
      var reward := p.score(d.history);
      if expectSame && reward.Some? && recorded != reward then Failure(OutcomeDiffers)
      else Success(ReplayResult(d.replayer.recorder.nextIdx, reward, d.replayer.served, d.replayer.liveCalls, d.replayer.unguarded))
  }

  /** `replay_run`. One event more than the tape has rows always settles it. */
  function ReplayRun(p: Program, rows: seq<Step>, recorded: Option<real>, expectSame: bool, mode: ToolMode, w: World, db0: DB)
    : Result<ReplayResult, ReplayError>
  {
    Judged(p, rows, recorded, expectSame, Driven(p, FullReplay(rows, mode), w, db0, |rows| + 1))
  }

  /** The same over the real objects. */
  method ReplayTape(p: Program, rows: seq<Step>, recorded: Option<real>, expectSame: bool, mode: ToolMode, w: World, db0: DB)
    returns (result: Result<ReplayResult, ReplayError>)
    ensures result == ReplayRun(p, rows, recorded, expectSame, mode, w, db0)
  {
    var sink := new Tau2Recorder();
    var replayer := new Tau2Replayer(FullReplay(rows, mode), db0, sink);
    var history, stopped := RunOrchestrator(p, w, replayer, |rows| + 1);
    result := Judged(p, rows, recorded, expectSame, Drive(history, replayer.State(), stopped));
  }

  /** A full replay has ended or stopped by then, so bounding it by the tape loses no run. */
  lemma FullReplaySettles(p: Program, rows: seq<Step>, mode: ToolMode, w: World, db0: DB)
    ensures var d := Driven(p, FullReplay(rows, mode), w, db0, |rows| + 1); d.stopped.Some? || Ended(p, d)
  {
    var plan := FullReplay(rows, mode);
    ReplayerInvariant(p, plan, w, db0, |rows| + 1);
    DriveProgress(p, plan, w, db0, |rows| + 1);
  }

  /** Stopped, ended, or `n` events on. */
  predicate Progressed(p: Program, d: Drive, n: nat) {
    d.stopped.Some? || Ended(p, d) || d.replayer.events == n
  }

  lemma EventProgress(p: Program, plan: Plan, w: World, d: Drive, n: nat)
    requires InOrder(plan, d) && Progressed(p, d, n)
    ensures Progressed(p, DriveEvent(p, plan, w, d), n + 1)
  {
    if d.stopped.None? {
      match p.next(d.history) {
        case Finish(_) =>
        case Ask(q) => CompletionKeeps(plan, w, d.replayer, q);
        case Execute(c) => GetResponseKeeps(plan, w, d.replayer, c);
      }
    }
  }

  lemma {:induction false} DriveProgress(p: Program, plan: Plan, w: World, db0: DB, n: nat)
    ensures Progressed(p, Driven(p, plan, w, db0, n), n)
  {
    if n == 0 {
      assert Driven(p, plan, w, db0, 0) == NewDrive(db0);
    } else {
      DriveProgress(p, plan, w, db0, n - 1);
      ReplayerInvariant(p, plan, w, db0, n - 1);
      EventProgress(p, plan, w, Driven(p, plan, w, db0, n - 1), n - 1);
    }
  }

  /** A replay is on track: it has reproduced the tape so far, guarded throughout. */
  predicate OnTrack(rows: seq<Step>, d: Drive, i: nat)
    requires i <= |rows|
  {
    && d.stopped.None? && d.history == HistoryOf(rows[..i])
    && d.replayer.pos == d.replayer.events == d.replayer.recorder.nextIdx == i
    && d.replayer.liveCalls == 0 && d.replayer.unguarded == 0
  }

  /** One snapshot-mode event is on track exactly when the tape's next row fits. */
  lemma SnapshotEvent(p: Program, rows: seq<Step>, w: World, d: Drive, i: nat)
    requires i < |rows| && OnTrack(rows, d, i)
    ensures RowFits(p, rows, i) ==> OnTrack(rows, DriveEvent(p, FullReplay(rows, Snapshot), w, d), i + 1)
    ensures !RowFits(p, rows, i) ==> var e := DriveEvent(p, FullReplay(rows, Snapshot), w, d); e.stopped.Some? || (e == d && Ended(p, e))
  {
    assert rows[..i + 1] == rows[..i] + [rows[i]];
    HistoryGrows(rows[..i], rows[i]);
  }

  lemma {:induction false} SnapshotReplayOnTrack(p: Program, rows: seq<Step>, w: World, db0: DB, n: nat)
    requires n <= |rows| && forall i: nat | i < n :: RowFits(p, rows, i)
    ensures OnTrack(rows, Driven(p, FullReplay(rows, Snapshot), w, db0, n), n)
  {
    if n == 0 {
      assert rows[..0] == [];
    } else {
      SnapshotReplayOnTrack(p, rows, w, db0, n - 1);
      SnapshotEvent(p, rows, w, Driven(p, FullReplay(rows, Snapshot), w, db0, n - 1), n - 1);
    }
  }

  lemma {:induction false} DriveStays(p: Program, plan: Plan, w: World, db0: DB, m: nat, n: nat)
    requires m <= n
    requires var d := Driven(p, plan, w, db0, m); d.stopped.Some? || Ended(p, d)
    ensures Driven(p, plan, w, db0, n) == Driven(p, plan, w, db0, m)
  {
    if m < n { DriveStays(p, plan, w, db0, m, n - 1); }
  }

  /** A snapshot replay reaches the end of a whole tape, from any environment and in any world. */
  lemma WholeTapeReplays(p: Program, rows: seq<Step>, w: World, db0: DB, n: nat)
    requires WholeTape(p, rows) && n >= |rows|
    ensures var d := Driven(p, FullReplay(rows, Snapshot), w, db0, n);
            Ended(p, d) && OnTrack(rows, d, |rows|) && d.history == HistoryOf(rows)
  {
    SnapshotReplayOnTrack(p, rows, w, db0, |rows|);
    assert rows[..|rows|] == rows;
    DriveStays(p, FullReplay(rows, Snapshot), w, db0, |rows|, n);
  }

  lemma SnapshotReplayAcceptsWhole(
    p: Program, rows: seq<Step>, recorded: Option<real>, expectSame: bool, w: World, db0: DB)
    requires WholeTape(p, rows)
    ensures var reward := p.score(HistoryOf(rows));
            ReplayRun(p, rows, recorded, expectSame, Snapshot, w, db0).Success?
            <==> (expectSame && reward.Some? ==> recorded == reward)
  {
    WholeTapeReplays(p, rows, w, db0, |rows| + 1);
  }

  /** A tape that fits but is followed by another event runs out. */
  lemma SnapshotReplayOutruns(
    p: Program, rows: seq<Step>, recorded: Option<real>, expectSame: bool, w: World, db0: DB)
    requires Fits(p, rows) && !WholeTape(p, rows)
    ensures ReplayRun(p, rows, recorded, expectSame, Snapshot, w, db0).Failure?
  {
    SnapshotReplayOnTrack(p, rows, w, db0, |rows|);
    assert rows[..|rows|] == rows;
    var d := Driven(p, FullReplay(rows, Snapshot), w, db0, |rows|);
    assert DriveEvent(p, FullReplay(rows, Snapshot), w, d).stopped.Some?;
  }

  /** A tape with a row that does not fit diverges there, or is left unconsumed. */
  lemma SnapshotReplayMisfits(
    p: Program, rows: seq<Step>, recorded: Option<real>, expectSame: bool, w: World, db0: DB, i: nat)
    requires i < |rows| && !RowFits(p, rows, i) && forall k: nat | k < i :: RowFits(p, rows, k)
    ensures ReplayRun(p, rows, recorded, expectSame, Snapshot, w, db0).Failure?
  {
    SnapshotReplayOnTrack(p, rows, w, db0, i);
    MisfitStops(p, rows, w, db0, i);
    ShortReplayFails(p, rows, recorded, expectSame, w, db0, i + 1);
  }

  /** Stopped, or at the orchestrator's end with rows left over. */
  predicate FellShort(p: Program, rows: seq<Step>, d: Drive) {
    d.stopped.Some? || (Ended(p, d) && d.replayer.pos < |rows|)
  }

  lemma MisfitStops(p: Program, rows: seq<Step>, w: World, db0: DB, i: nat)
    requires i < |rows| && !RowFits(p, rows, i) && OnTrack(rows, Driven(p, FullReplay(rows, Snapshot), w, db0, i), i)
    ensures FellShort(p, rows, Driven(p, FullReplay(rows, Snapshot), w, db0, i + 1))
  {
    SnapshotEvent(p, rows, w, Driven(p, FullReplay(rows, Snapshot), w, db0, i), i);
  }

  lemma ShortReplayFails(
    p: Program, rows: seq<Step>, recorded: Option<real>, expectSame: bool, w: World, db0: DB, n: nat)
    requires n <= |rows| + 1 && FellShort(p, rows, Driven(p, FullReplay(rows, Snapshot), w, db0, n))
    ensures ReplayRun(p, rows, recorded, expectSame, Snapshot, w, db0).Failure?
  {
    DriveStays(p, FullReplay(rows, Snapshot), w, db0, n, |rows| + 1);
  }

  /** `replay_run` in snapshot mode accepts exactly the whole tapes whose reward it reproduces. */
  lemma SnapshotReplayAcceptsIffWhole(
    p: Program, rows: seq<Step>, recorded: Option<real>, expectSame: bool, w: World, db0: DB)
    ensures var result := ReplayRun(p, rows, recorded, expectSame, Snapshot, w, db0);
            var reward := p.score(HistoryOf(rows));
            result.Success? <==> WholeTape(p, rows) && (expectSame && reward.Some? ==> recorded == reward)
  {
    if WholeTape(p, rows) {
      SnapshotReplayAcceptsWhole(p, rows, recorded, expectSame, w, db0);
    } else if Fits(p, rows) {
      SnapshotReplayOutruns(p, rows, recorded, expectSame, w, db0);
    } else {
      var i := FirstMisfit(p, rows, |rows|);
      SnapshotReplayMisfits(p, rows, recorded, expectSame, w, db0, i);
    }
  }

  lemma {:induction false} FirstMisfit(p: Program, rows: seq<Step>, n: nat) returns (i: nat)
    requires n <= |rows| && exists k: nat :: k < n && !RowFits(p, rows, k)
    ensures i < n && !RowFits(p, rows, i) && forall k: nat | k < i :: RowFits(p, rows, k)
  {
    if exists k: nat :: k < n - 1 && !RowFits(p, rows, k) { i := FirstMisfit(p, rows, n - 1); } else { i := n - 1; }
  }

  /** How many of the rows are model calls: what a full replay serves from the tape. */
  function ModelCalls(rows: seq<Step>): nat {
    if rows == [] then 0 else ModelCalls(rows[..|rows| - 1]) + (if rows[|rows| - 1].row.LlmRow? then 1 else 0)
  }

  lemma SnapshotEventServes(p: Program, rows: seq<Step>, w: World, d: Drive, i: nat)
    requires i < |rows| && OnTrack(rows, d, i) && RowFits(p, rows, i)
    ensures DriveEvent(p, FullReplay(rows, Snapshot), w, d).replayer.served
            == d.replayer.served + if rows[i].row.LlmRow? then 1 else 0
  {
  }

  lemma {:induction false} ServedIsModelCalls(p: Program, rows: seq<Step>, w: World, db0: DB, n: nat)
    requires n <= |rows| && forall i: nat | i < n :: RowFits(p, rows, i)
    ensures Driven(p, FullReplay(rows, Snapshot), w, db0, n).replayer.served == ModelCalls(rows[..n])
  {
    if n > 0 {
      ServedIsModelCalls(p, rows, w, db0, n - 1);
      SnapshotReplayOnTrack(p, rows, w, db0, n - 1);
      SnapshotEventServes(p, rows, w, Driven(p, FullReplay(rows, Snapshot), w, db0, n - 1), n - 1);
      assert rows[..n][..n - 1] == rows[..n - 1];
    }
  }

  lemma WholeTapeResult(p: Program, rows: seq<Step>, w: World, db0: DB)
    requires WholeTape(p, rows)
    ensures var reward := p.score(HistoryOf(rows));
            ReplayRun(p, rows, reward, true, Snapshot, w, db0) == Success(ReplayResult(|rows|, reward, ModelCalls(rows), 0, 0))
  {
    assert rows[..|rows|] == rows;
    WholeTapeReplays(p, rows, w, db0, |rows|);
    ServedIsModelCalls(p, rows, w, db0, |rows|);
    DriveStays(p, FullReplay(rows, Snapshot), w, db0, |rows|, |rows| + 1);
  }

  /** A finished recording replays: every row, the recorded reward, each model call from the tape and none live. */
  lemma RecordingReplays(p: Program, w: World, db0: DB, n: nat, elsewhere: World, db1: DB)
    requires Finished(p, w, db0, n)
    ensures var s := Recorded(p, w, db0, n);
            var rows := s.recorder.rows;
            ReplayRun(p, rows, p.score(s.history), true, Snapshot, elsewhere, db1)
            == Success(ReplayResult(|rows|, p.score(s.history), ModelCalls(rows), 0, 0))
  {
    RecordingFits(p, w, db0, n);
    WholeTapeResult(p, Recorded(p, w, db0, n).recorder.rows, elsewhere, db1);
  }

  /** So does every fork that reached its end, whatever tape it was cut from and whatever was changed at the fork. */
  lemma ForkReplays(p: Program, plan: Plan, w: World, db0: DB, n: nat, elsewhere: World, db1: DB)
    requires Ended(p, Driven(p, plan, w, db0, n))
    ensures var d := Driven(p, plan, w, db0, n);
            var rows := d.replayer.recorder.rows;
            ReplayRun(p, rows, p.score(d.history), true, Snapshot, elsewhere, db1)
            == Success(ReplayResult(|rows|, p.score(d.history), ModelCalls(rows), 0, 0))
  {
    ForkFits(p, plan, w, db0, n);
    WholeTapeResult(p, Driven(p, plan, w, db0, n).replayer.recorder.rows, elsewhere, db1);
  }

  // ---- verify mode -----------------------------------------------------------------------------

  /** The world after re-executing the tools of the first `i` rows. */
  function WorldAt(p: Program, rows: seq<Step>, w: World, db0: DB, i: nat): DB
    requires i <= |rows|
  {
    if i == 0 then db0
    else
      var db := WorldAt(p, rows, w, db0, i - 1);
      match p.next(HistoryOf(rows[..i - 1]))
      case Execute(c) => w.tool(i - 1, db, c).1
      case _ => db
  }

  /** Re-executing row `i`'s tool gives the recorded answer and the recorded state hash. */
  predicate Reexecutes(p: Program, rows: seq<Step>, w: World, db0: DB, i: nat)
    requires i < |rows|
  {
    match p.next(HistoryOf(rows[..i]))
    case Execute(c) =>
      var (answer, db) := w.tool(i, WorldAt(p, rows, w, db0, i), c);
      rows[i].row.ToolRow? && answer == rows[i].row.result.answer && StateHash(db) == rows[i].hash
    case _ => true
  }

  /** The two agree so far, and so do the worlds. */
  predicate VerifiedTo(p: Program, rows: seq<Step>, w: World, db0: DB, d: Drive, i: nat)
    requires i <= |rows|
  {
    OnTrack(rows, d, i) && d.replayer.db == WorldAt(p, rows, w, db0, i)
  }

  lemma VerifyEvent(p: Program, rows: seq<Step>, w: World, db0: DB, d: Drive, i: nat)
    requires i < |rows| && VerifiedTo(p, rows, w, db0, d, i) && RowFits(p, rows, i)
    ensures var e := DriveEvent(p, FullReplay(rows, Verify), w, d);
            if Reexecutes(p, rows, w, db0, i) then VerifiedTo(p, rows, w, db0, e, i + 1) else e.stopped.Some?
  {
    assert rows[..i + 1] == rows[..i] + [rows[i]];
    HistoryGrows(rows[..i], rows[i]);
  }

  lemma {:induction false} VerifyOnTrack(p: Program, rows: seq<Step>, w: World, db0: DB, n: nat)
    requires n <= |rows| && Fits(p, rows) && forall i: nat | i < n :: Reexecutes(p, rows, w, db0, i)
    ensures VerifiedTo(p, rows, w, db0, Driven(p, FullReplay(rows, Verify), w, db0, n), n)
  {
    if n == 0 {
      assert rows[..0] == [];
    } else {
      VerifyOnTrack(p, rows, w, db0, n - 1);
      assert RowFits(p, rows, n - 1) && Reexecutes(p, rows, w, db0, n - 1);
      VerifyEvent(p, rows, w, db0, Driven(p, FullReplay(rows, Verify), w, db0, n - 1), n - 1);
    }
  }

  lemma VerifySucceeds(p: Program, rows: seq<Step>, w: World, db0: DB)
    requires WholeTape(p, rows) && forall i: nat | i < |rows| :: Reexecutes(p, rows, w, db0, i)
    ensures ReplayRun(p, rows, p.score(HistoryOf(rows)), true, Verify, w, db0).Success?
  {
    var plan := FullReplay(rows, Verify);
    VerifyOnTrack(p, rows, w, db0, |rows|);
    assert rows[..|rows|] == rows;
    var d := Driven(p, plan, w, db0, |rows|);
    assert Ended(p, d);
    DriveStays(p, plan, w, db0, |rows|, |rows| + 1);
  }

  /** Verification stops at the first row that does not re-execute. */
  lemma VerifyStops(p: Program, rows: seq<Step>, w: World, db0: DB, i: nat)
    requires WholeTape(p, rows)
    requires i < |rows| && !Reexecutes(p, rows, w, db0, i) && forall k: nat | k < i :: Reexecutes(p, rows, w, db0, k)
    ensures ReplayRun(p, rows, p.score(HistoryOf(rows)), true, Verify, w, db0).Failure?
  {
    var plan := FullReplay(rows, Verify);
    VerifyOnTrack(p, rows, w, db0, i);
    assert RowFits(p, rows, i);
    VerifyEvent(p, rows, w, db0, Driven(p, plan, w, db0, i), i);
    DriveStays(p, plan, w, db0, i + 1, |rows| + 1);
  }

  /** A whole tape verifies exactly when every one of its tool rows re-executes. */
  lemma VerifyAcceptsIffReexecutes(p: Program, rows: seq<Step>, w: World, db0: DB)
    requires WholeTape(p, rows)
    ensures ReplayRun(p, rows, p.score(HistoryOf(rows)), true, Verify, w, db0).Success?
            <==> forall i: nat | i < |rows| :: Reexecutes(p, rows, w, db0, i)
  {
    if forall i: nat | i < |rows| :: Reexecutes(p, rows, w, db0, i) {
      VerifySucceeds(p, rows, w, db0);
    } else {
      var i := FirstDrift(p, rows, w, db0, |rows|);
      VerifyStops(p, rows, w, db0, i);
    }
  }

  lemma {:induction false} FirstDrift(p: Program, rows: seq<Step>, w: World, db0: DB, n: nat) returns (i: nat)
    requires n <= |rows| && exists k: nat :: k < n && !Reexecutes(p, rows, w, db0, k)
    ensures i < n && !Reexecutes(p, rows, w, db0, i) && forall k: nat | k < i :: Reexecutes(p, rows, w, db0, k)
  {
    if exists k: nat :: k < n - 1 && !Reexecutes(p, rows, w, db0, k) { i := FirstDrift(p, rows, w, db0, n - 1); } else { i := n - 1; }
  }

  /** What the tape held after `i` events is its first `i` rows ever after. */
  lemma RowsPrefix(p: Program, w: World, db0: DB, n: nat, i: nat)
    requires i <= |Recorded(p, w, db0, n).recorder.rows|
    ensures i <= n && |Recorded(p, w, db0, i).recorder.rows| == i
    ensures Recorded(p, w, db0, n).recorder.rows[..i] == Recorded(p, w, db0, i).recorder.rows
  {
    RowsFollowEvents(p, w, db0, n);
    RowsFollowEvents(p, w, db0, i);
    Grows(p, w, db0, i, n);
    if i > 0 { RowStays(p, w, db0, n, i - 1); }
  }

  lemma {:induction false} RecordingWorld(p: Program, w: World, db0: DB, v: World, n: nat, i: nat)
    requires SameTools(w, v) && i <= |Recorded(p, w, db0, n).recorder.rows|
    ensures var rows := Recorded(p, w, db0, n).recorder.rows;
            WorldAt(p, rows, v, db0, i) == Recorded(p, w, db0, i).db
            && HistoryOf(rows[..i]) == Recorded(p, w, db0, i).history
  {
    RowsPrefix(p, w, db0, n, i);
    RecordingFits(p, w, db0, i);
    if i > 0 {
      RecordingWorld(p, w, db0, v, n, i - 1);
      RowStays(p, w, db0, n, i - 1);
      RowsFollowEvents(p, w, db0, i - 1);
      WorldMoves(p, w, db0, i - 1);
    }
  }

  /** One more event moves the world by the tool it executed, or not at all. */
  lemma WorldMoves(p: Program, w: World, db0: DB, i: nat)
    requires !Finished(p, w, db0, i)
    ensures var s := Recorded(p, w, db0, i);
            Recorded(p, w, db0, i + 1).db
            == match p.next(s.history) case Execute(c) => w.tool(|s.history|, s.db, c).1 case _ => s.db
  {
  }

  /** With the tools it was recorded under, a recording verifies: same results, same hashes, same reward. */
  lemma RecordingVerifies(p: Program, w: World, db0: DB, n: nat, v: World)
    requires Finished(p, w, db0, n) && SameTools(w, v)
    ensures var s := Recorded(p, w, db0, n);
            ReplayRun(p, s.recorder.rows, p.score(s.history), true, Verify, v, db0).Success?
  {
    RecordingFits(p, w, db0, n);
    var rows := Recorded(p, w, db0, n).recorder.rows;
    forall i: nat | i < |rows| ensures Reexecutes(p, rows, v, db0, i) {
      RecordingWorld(p, w, db0, v, n, i);
      RowStays(p, w, db0, n, i);
      HashesAlwaysRight(p, w, db0, n, i);
      RowWritten(p, w, db0, i);
    }
    VerifyAcceptsIffReexecutes(p, rows, v, db0);
  }

  /** The row a tool event writes holds the answer the tool gave. */
  lemma RowWritten(p: Program, w: World, db0: DB, i: nat)
    requires |Recorded(p, w, db0, i).recorder.rows| == i && !Finished(p, w, db0, i)
    ensures var s := Recorded(p, w, db0, i);
            var rows := Recorded(p, w, db0, i + 1).recorder.rows;
            && |rows| == i + 1
            && (p.next(s.history).Execute? ==>
                  && rows[i].row.ToolRow?
                  && rows[i].row.result.answer == w.tool(|s.history|, s.db, p.next(s.history).call).0
                  && Recorded(p, w, db0, i + 1).db == w.tool(|s.history|, s.db, p.next(s.history).call).1)
  {
    RowsFollowEvents(p, w, db0, i);
  }
}
