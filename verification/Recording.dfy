/**
 `Tau2Recorder`: one tape row per model call and per tool execution, each with the world
 either side of it, and the runs it records.
 */
module Recording {
  import opened Wrappers
  import opened Simulation

  /** What a row holds besides the world: a model call, or a tool execution. */
  datatype Row =
    | LlmRow(request: Request, response: Response)
    | ToolRow(name: string, args: map<string, string>, result: Message)

  /** One tape row. `before` and `after` are the snapshots its blob references resolve to. */
  datatype Step = Step(
    idx: nat, actor: Actor, row: Row,
    before: DB, hashBefore: string, after: DB, hash: string,
    fromTape: bool)

  /** The last captured world: its snapshot, and the hash it was captured at. */
  datatype Capture = Capture(state: DB, hash: string)

  datatype Recorder = Recorder(nextIdx: nat, cached: Option<Capture>, rows: seq<Step>)

  const NEW_RECORDER := Recorder(0, None, [])

  /** The live world, captured again only when its hash differs from the cached one. */
  function Current(cached: Option<Capture>, db: DB): Capture {
    if cached.Some? && cached.value.hash == StateHash(db) then cached.value else Capture(db, StateHash(db))
  }

  /** Pin the world entering the next step. */
  function Begun(r: Recorder, db: DB): Recorder {
    r.(cached := Some(Current(r.cached, db)))
  }

  /** Append one row: entered at the cached world, left at the live one. */
  function Appended(r: Recorder, db: DB, actor: Actor, row: Row, fromTape: bool): Recorder {
    var before := if r.cached.Some? then r.cached.value else Current(None, db);
    var after := Current(Some(before), db);
    Recorder(r.nextIdx + 1, Some(after),
             r.rows + [Step(r.nextIdx, actor, row, before.state, before.hash, after.state, after.hash, fromTape)])
  }

  function WithLlm(r: Recorder, db: DB, q: Request, response: Response, fromTape: bool): Recorder {
    Appended(r, db, ActorOf(q.purpose), LlmRow(q, response), fromTape)
  }

  function WithTool(r: Recorder, db: DB, c: Call, m: Message, fromTape: bool): Recorder {
    Appended(r, db, ToolActor, ToolRow(c.name, c.args, m), fromTape)
  }

  /** The recorder object, writing to one run's append-only tape. */
  class Tau2Recorder {
    var nextIdx: nat
    var cached: Option<Capture>
    var tape: seq<Step>

    constructor ()
      ensures State() == NEW_RECORDER
    {
      nextIdx, cached, tape := 0, None, [];
    }

    function State(): Recorder
      reads this
    {
      Recorder(nextIdx, cached, tape)
    }

    method CurrentState(db: DB) returns (live: Capture)
      modifies this`cached
      ensures State() == Begun(old(State()), db)
      ensures Some(live) == cached && live.hash == StateHash(db)
    {
      var hash := StateHash(db);
      if cached.None? || cached.value.hash != hash {
        cached := Some(Capture(db, hash));
      }
      live := cached.value;
    }

    method BeginStep(db: DB)
      modifies this`cached
      ensures State() == Begun(old(State()), db)
    {
      var _ := CurrentState(db);
    }

    method Append(db: DB, actor: Actor, row: Row, fromTape: bool)
      modifies this
      ensures State() == Appended(old(State()), db, actor, row, fromTape)
    {
      var before;
      if cached.Some? {
        before := cached.value;
      } else {
        before := CurrentState(db);
      }
      var after := CurrentState(db);
      tape := tape + [Step(nextIdx, actor, row, before.state, before.hash, after.state, after.hash, fromTape)];
      nextIdx := nextIdx + 1;
    }

    method OnLlmCall(db: DB, q: Request, response: Response, fromTape: bool)
      modifies this
      ensures State() == WithLlm(old(State()), db, q, response, fromTape)
    {
      Append(db, ActorOf(q.purpose), LlmRow(q, response), fromTape);
    }

    method OnToolCall(db: DB, c: Call, m: Message, fromTape: bool)
      modifies this
      ensures State() == WithTool(old(State()), db, c, m, fromTape)
    {
      Append(db, ToolActor, ToolRow(c.name, c.args, m), fromTape);
    }
  }

  // ---- recorded runs -----------------------------------------------------------------------

  datatype Run = Run(history: seq<Event>, db: DB, recorder: Recorder)

  /** One event of a recorded run. A finished run stays where it is. */
  function RunEvent(p: Program, w: World, s: Run): Run {
    match p.next(s.history)
    case Finish(_) => s
    case Ask(q) =>
      var response := w.model(|s.history|, q);
      Run(s.history + [Said(response)], s.db, WithLlm(s.recorder, s.db, q, response, false))
    case Execute(c) =>
      var (answer, db) := w.tool(|s.history|, s.db, c);
      var m := Message(answer, w.clock(|s.history|));
      Run(s.history + [Answered(answer)], db, WithTool(Begun(s.recorder, s.db), db, c, m, false))
  }

  /** The run recorded from `db0` after up to `n` events. */
  function Recorded(p: Program, w: World, db0: DB, n: nat): Run {
    if n == 0 then Run([], db0, NEW_RECORDER) else RunEvent(p, w, Recorded(p, w, db0, n - 1))
  }

  /** The run has ended within `n` events. */
  predicate Finished(p: Program, w: World, db0: DB, n: nat) {
    p.next(Recorded(p, w, db0, n).history).Finish?
  }

  /** Every event made so far has its row, numbered in order. */
  lemma {:induction false} RowsFollowEvents(p: Program, w: World, db0: DB, n: nat)
    ensures var s := Recorded(p, w, db0, n);
            && |s.recorder.rows| == |s.history| == s.recorder.nextIdx <= n
            && (s.recorder.cached.Some? <==> s.recorder.rows != [])
            && forall i | 0 <= i < |s.recorder.rows| :: s.recorder.rows[i].idx == i
  {
    if n > 0 { RowsFollowEvents(p, w, db0, n - 1); }
  }

  /** Events only accumulate: an earlier stage is a prefix of a later one. */
  lemma {:induction false} Grows(p: Program, w: World, db0: DB, m: nat, n: nat)
    requires m <= n
    ensures Recorded(p, w, db0, m).history <= Recorded(p, w, db0, n).history
    ensures Recorded(p, w, db0, m).recorder.rows <= Recorded(p, w, db0, n).recorder.rows
  {
    if m < n {
      Grows(p, w, db0, m, n - 1);
      EventGrows(p, w, Recorded(p, w, db0, n - 1));
    }
  }

  lemma EventGrows(p: Program, w: World, s: Run)
    ensures s.history <= RunEvent(p, w, s).history
    ensures s.recorder.rows <= RunEvent(p, w, s).recorder.rows
  {
  }

  /** A run that has ended stays as it is. */
  lemma {:induction false} StaysFinished(p: Program, w: World, db0: DB, m: nat, n: nat)
    requires m <= n && Finished(p, w, db0, m)
    ensures Recorded(p, w, db0, n) == Recorded(p, w, db0, m)
  {
    if m < n { StaysFinished(p, w, db0, m, n - 1); }
  }

  /** While a run has not ended it has made exactly one event per stage. */
  lemma {:induction false} OneEventPerStage(p: Program, w: World, db0: DB, n: nat)
    ensures |Recorded(p, w, db0, n).history| == n || Finished(p, w, db0, n)
  {
    if n > 0 { OneEventPerStage(p, w, db0, n - 1); }
  }

  // ---- are the recorded snapshots the world? -----------------------------------------------

  /** Event `i` changes the world but not the hashed, agent-side database. */
  ghost predicate SilentAt(p: Program, w: World, db0: DB, i: nat) {
    && StateHash(Recorded(p, w, db0, i + 1).db) == StateHash(Recorded(p, w, db0, i).db)
    && Recorded(p, w, db0, i + 1).db != Recorded(p, w, db0, i).db
  }

  ghost predicate NoSilentChange(p: Program, w: World, db0: DB, n: nat) {
    forall i: nat | i < n :: !SilentAt(p, w, db0, i)
  }

  /** Row `i` of the run's tape carries the world the run was in after event `i`. */
  ghost predicate ExactAt(p: Program, w: World, db0: DB, n: nat, i: nat) {
    var rows := Recorded(p, w, db0, n).recorder.rows;
    i < |rows| ==> rows[i].after == Recorded(p, w, db0, i + 1).db
  }

  ghost predicate SnapshotsExact(p: Program, w: World, db0: DB, n: nat) {
    forall i: nat | i < n :: ExactAt(p, w, db0, n, i)
  }

  /** What the recorder holds on to is the live world. */
  predicate CacheExact(s: Run) {
    s.recorder.cached.Some? ==> s.recorder.cached.value == Capture(s.db, StateHash(s.db))
  }

  /** What the recorder holds on to hashes like the live world, whatever changed silently. */
  predicate CacheHashRight(s: Run) {
    s.recorder.cached.Some? ==>
      s.recorder.cached.value.hash == StateHash(s.recorder.cached.value.state) == StateHash(s.db)
  }

  lemma {:induction false} CacheHashIsRight(p: Program, w: World, db0: DB, n: nat)
    ensures CacheHashRight(Recorded(p, w, db0, n))
  {
    if n > 0 { CacheHashIsRight(p, w, db0, n - 1); }
  }

  lemma {:induction false} CacheIsExact(p: Program, w: World, db0: DB, n: nat)
    requires NoSilentChange(p, w, db0, n)
    ensures CacheExact(Recorded(p, w, db0, n))
  {
    if n > 0 {
      CacheIsExact(p, w, db0, n - 1);
      assert !SilentAt(p, w, db0, n - 1);
    }
  }

  /** Row `i` is the one written at event `i`, at every later stage. */
  lemma RowStays(p: Program, w: World, db0: DB, n: nat, i: nat)
    requires i < |Recorded(p, w, db0, n).recorder.rows|
    ensures i < n && i < |Recorded(p, w, db0, i + 1).recorder.rows|
    ensures Recorded(p, w, db0, n).recorder.rows[i] == Recorded(p, w, db0, i + 1).recorder.rows[i]
    ensures !Finished(p, w, db0, i) && |Recorded(p, w, db0, i).recorder.rows| == i
  {
    RowsFollowEvents(p, w, db0, n);
    RowsFollowEvents(p, w, db0, i);
    OneEventPerStage(p, w, db0, i);
    Grows(p, w, db0, i + 1, n);
    if Finished(p, w, db0, i) { StaysFinished(p, w, db0, i, n); }
  }

  /** The row of a silent event carries the world before it; every other row is exact. */
  lemma RowExactIffNotSilent(p: Program, w: World, db0: DB, n: nat, i: nat)
    requires i < |Recorded(p, w, db0, n).recorder.rows|
    requires NoSilentChange(p, w, db0, i)
    ensures Recorded(p, w, db0, n).recorder.rows[i].before == Recorded(p, w, db0, i).db
    ensures ExactAt(p, w, db0, n, i) <==> !SilentAt(p, w, db0, i)
  {
    RowStays(p, w, db0, n, i);
    CacheIsExact(p, w, db0, i);
  }

  lemma SnapshotsExactUnlessSilent(p: Program, w: World, db0: DB, n: nat)
    requires NoSilentChange(p, w, db0, n)
    ensures SnapshotsExact(p, w, db0, n)
  {
    RowsFollowEvents(p, w, db0, n);
    forall i: nat | i < n ensures ExactAt(p, w, db0, n, i) {
      if i < |Recorded(p, w, db0, n).recorder.rows| { RowExactIffNotSilent(p, w, db0, n, i); }
    }
  }

  /** The first silent event has a row, and it is stale. */
  lemma FirstSilentIsStale(p: Program, w: World, db0: DB, n: nat, i: nat)
    requires i < n && SilentAt(p, w, db0, i) && NoSilentChange(p, w, db0, i)
    ensures !ExactAt(p, w, db0, n, i)
  {
    EventHasRow(p, w, db0, n, i);
    RowExactIffNotSilent(p, w, db0, n, i);
  }

  lemma {:induction false} RowsAccumulate(p: Program, w: World, db0: DB, m: nat, n: nat)
    requires m <= n
    ensures |Recorded(p, w, db0, m).recorder.rows| <= |Recorded(p, w, db0, n).recorder.rows|
  {
    if m < n { RowsAccumulate(p, w, db0, m, n - 1); }
  }

  /** An event that happened has its row. */
  lemma EventHasRow(p: Program, w: World, db0: DB, n: nat, i: nat)
    requires i < n && !Finished(p, w, db0, i)
    ensures i < |Recorded(p, w, db0, n).recorder.rows|
  {
    OneEventPerStage(p, w, db0, i);
    RowsFollowEvents(p, w, db0, i);
    RowsAccumulate(p, w, db0, i + 1, n);
  }

  /** Re-capturing only on a changed hash is right exactly when the hash sees every change. */
  lemma SnapshotsExactIffNothingSilent(p: Program, w: World, db0: DB, n: nat)
    ensures SnapshotsExact(p, w, db0, n) <==> NoSilentChange(p, w, db0, n)
  {
    if NoSilentChange(p, w, db0, n) {
      SnapshotsExactUnlessSilent(p, w, db0, n);
    } else {
      var i := FirstSilent(p, w, db0, n);
      FirstSilentIsStale(p, w, db0, n, i);
    }
  }

  lemma {:induction false} FirstSilent(p: Program, w: World, db0: DB, n: nat) returns (i: nat)
    requires !NoSilentChange(p, w, db0, n)
    ensures i < n && SilentAt(p, w, db0, i) && NoSilentChange(p, w, db0, i)
  {
    if NoSilentChange(p, w, db0, n - 1) { i := n - 1; } else { i := FirstSilent(p, w, db0, n - 1); }
  }

  /** The hashes on the tape are always right, silent change or not. */
  lemma HashesAlwaysRight(p: Program, w: World, db0: DB, n: nat, i: nat)
    requires i < |Recorded(p, w, db0, n).recorder.rows|
    ensures var step := Recorded(p, w, db0, n).recorder.rows[i];
            step.hash == StateHash(step.after) == StateHash(Recorded(p, w, db0, i + 1).db)
  {
    RowStays(p, w, db0, n, i);
    CacheHashIsRight(p, w, db0, i);
  }

  /** One tool call, then the end. */
  function OneCall(c: Call): Program {
    Program(h => if h == [] then Execute(c) else Finish("done"), h => None)
  }

  /** A tool that writes only the user-side database. */
  function UserWriter(user: string): World {
    World((i, q) => Response("", ""), (i, db: DB, c: Call) => (Answer(c.id, "user", "ok", false), DB(db.agent, user)), i => 0)
  }

  /** A user-side write is on the tape as the world before it. */
  lemma UserWriteIsRecordedStale(c: Call, agent: string, before: string, after: string)
    requires before != after
    ensures var run := Recorded(OneCall(c), UserWriter(after), DB(agent, before), 1);
            && run.db == DB(agent, after)
            && |run.recorder.rows| == 1
            && run.recorder.rows[0].after == DB(agent, before)
  {
    assert Recorded(OneCall(c), UserWriter(after), DB(agent, before), 0) == Run([], DB(agent, before), NEW_RECORDER);
  }
}
