/**
 `Tau2Replayer`: a tape governs the steps up to the fork step, one intervention is applied
 there, and everything above it is live.
 */
module Replay {
  import opened Wrappers
  import opened Simulation
  import opened Recording
  import opened Interventions

  datatype ToolMode = Verify | Snapshot | RerunLive

  /** How a replay is armed. No fork step means the tape governs every step, for ever. */
  datatype Plan = Plan(
    steps: seq<Step>, forkStep: Option<nat>, mode: ToolMode, intervention: Intervention,
    hasLive: bool, unsafePositional: bool)

  /** Why a replay stopped: the divergences, and the intervention's own refusals. */
  datatype Stop =
    | TapeExhausted(at: nat)
    | WrongActor(at: nat)
    | RequestMismatch(at: nat)
    | NameMismatch(at: nat)
    | ArgsMismatch(at: nat)
    | ResultMismatch(at: nat)
    | StateMismatch(at: nat)
    | NoLiveCall(at: nat)
    | InterventionRefused(at: nat, reason: Refusal)

  /** A replayer's fields, the environment it drives, and the recorder it feeds. */
  datatype Replayer = Replayer(
    pos: nat, events: nat, liveCalls: nat, served: nat, unguarded: nat,
    applied: seq<nat>, db: DB, recorder: Recorder)

  function NewReplayer(db0: DB): Replayer {
    Replayer(0, 0, 0, 0, 0, [], db0, NEW_RECORDER)
  }

  predicate Governed(plan: Plan, events: nat) {
    plan.forkStep.None? || events <= plan.forkStep.value
  }

  predicate AtFork(plan: Plan, events: nat) {
    plan.forkStep == Some(events)
  }

  // ---- the model seam ------------------------------------------------------------------------

  /** A live call, counted as a step of this run; the router records it before it is used. */
  function LiveStep(plan: Plan, w: World, r: Replayer, q: Request): (Replayer, Result<Response, Stop>) {
    if !plan.hasLive then (r, Failure(NoLiveCall(r.events)))
    else
      var response := w.model(r.events, q);
      (r.(liveCalls := r.liveCalls + 1, events := r.events + 1,
          recorder := WithLlm(r.recorder, r.db, q, response, false)),
       Success(response))
  }

  /** The recorded response for `q`: the next row must be a model call for the same request. */
  function Serve(plan: Plan, r: Replayer, q: Request): (Replayer, Result<Response, Stop>) {
    if r.pos >= |plan.steps| then (r, Failure(TapeExhausted(r.pos)))
    else
      var step := plan.steps[r.pos];
      if step.row.ToolRow? then (r, Failure(WrongActor(r.pos)))
      else
        var taken := r.(pos := r.pos + 1);
        var matches := q.canonical == step.row.request.canonical;
        if !matches && !plan.unsafePositional then (taken, Failure(RequestMismatch(r.pos)))
        else
          (taken.(served := r.served + 1, unguarded := if matches then r.unguarded else r.unguarded + 1),
           Success(step.row.response))
  }

  /** Hand a taped response on: recorded under the purpose its row carries. */
  function KeepResponse(r: Replayer, q: Request, purpose: Purpose, response: Response): (Replayer, Result<Response, Stop>) {
    (r.(events := r.events + 1,
        recorder := WithLlm(r.recorder, r.db, q.(purpose := purpose), response, true)),
     Success(response))
  }

  /** The stand-in for the model. */
  function Completion(plan: Plan, w: World, r: Replayer, q: Request): (Replayer, Result<Response, Stop>) {
    if !Governed(plan, r.events) then LiveStep(plan, w, r, q)
    else
      var (taken, payload) := Serve(plan, r, q);
      if payload.Failure? then (taken, payload)
      else
        var step := plan.steps[r.pos];
        var purpose := step.row.request.purpose;
        if !AtFork(plan, r.events) then KeepResponse(taken, q, purpose, payload.value)
        else
          var touched := taken.(applied := taken.applied + [step.idx]);
          match ApplyToResponse(plan.intervention, step, payload.value)
          case Live => LiveStep(plan, w, touched, q)
          case Refused(reason) => (touched, Failure(InterventionRefused(r.pos, reason)))
          case Use(response) => KeepResponse(touched, q, purpose, response)
  }

  // ---- the tool seam -------------------------------------------------------------------------

  /** The next row must be an execution of exactly this call. */
  function TakeTool(plan: Plan, r: Replayer, c: Call): (Replayer, Result<Step, Stop>) {
    if r.pos >= |plan.steps| then (r, Failure(TapeExhausted(r.pos)))
    else
      var step := plan.steps[r.pos];
      if !step.row.ToolRow? then (r, Failure(WrongActor(r.pos)))
      else
        var taken := r.(pos := r.pos + 1);
        if step.row.name != c.name then (taken, Failure(NameMismatch(r.pos)))
        else if step.row.args != c.args then (taken, Failure(ArgsMismatch(r.pos)))
        else (taken, Success(step))
  }

  /** The answer the tape still governs: served and restored, re-executed, or re-executed and checked. */
  function Obtain(plan: Plan, w: World, r: Replayer, step: Step, c: Call): (Replayer, Result<Message, Stop>)
    requires step.row.ToolRow?
  {
    match plan.mode
    case Snapshot =>
      var restored := r.(db := step.after);
      if StateHash(step.after) != step.hash then (restored, Failure(StateMismatch(step.idx)))
      else (restored, Success(Message(step.row.result.answer, w.clock(r.events))))
    case RerunLive =>
      var (answer, db) := w.tool(r.events, r.db, c);
      (r.(db := db), Success(Message(answer, w.clock(r.events))))
    case Verify =>
      var (answer, db) := w.tool(r.events, r.db, c);
      if answer != step.row.result.answer then (r.(db := db), Failure(ResultMismatch(step.idx)))
      else if StateHash(db) != step.hash then (r.(db := db), Failure(StateMismatch(step.idx)))
      else (r.(db := db), Success(Message(answer, w.clock(r.events))))
  }

  function KeepMessage(r: Replayer, c: Call, m: Message, fromTape: bool): (Replayer, Result<Message, Stop>) {
    (r.(events := r.events + 1, recorder := WithTool(r.recorder, r.db, c, m, fromTape)), Success(m))
  }

  /** The fork step's own result: changed, executed live, or refused. */
  function Intervened(plan: Plan, w: World, r: Replayer, step: Step, c: Call, served: Message, at: nat)
      : (Replayer, Result<Message, Stop>)
  {
    var touched := r.(applied := r.applied + [step.idx]);
    match ApplyToResult(plan.intervention, step, served)
    case Refused(reason) => (touched, Failure(InterventionRefused(at, reason)))
    case Live =>
      var (answer, db) := w.tool(r.events, r.db, c);
      (touched.(db := db), Success(Message(answer, w.clock(r.events))))
    case Use(payload) => (touched, Success(Message(payload.answer, w.clock(r.events))))
  }

  /** The stand-in for tool execution. */
  function GetResponse(plan: Plan, w: World, r0: Replayer, c: Call): (Replayer, Result<Message, Stop>) {
    var r := r0.(recorder := Begun(r0.recorder, r0.db));
    if !Governed(plan, r.events) then
      var (answer, db) := w.tool(r.events, r.db, c);
      KeepMessage(r.(db := db), c, Message(answer, w.clock(r.events)), false)
    else
      var (taken, step) := TakeTool(plan, r, c);
      if step.Failure? then (taken, Failure(step.error))
      else
        var (obtained, m) := Obtain(plan, w, taken, step.value, c);
        if m.Failure? then (obtained, m)
        else if !AtFork(plan, r.events) then KeepMessage(obtained, c, m.value, true)
        else
          var (touched, used) := Intervened(plan, w, obtained, step.value, c, m.value, r.pos);
          if used.Failure? then (touched, used) else KeepMessage(touched, c, used.value, true)
  }

  /** The replayer object: one cursor shared by both seams. */
  class Tau2Replayer {
    const plan: Plan
    var pos: nat
    var events: nat
    var liveCalls: nat
    var served: nat
    var unguarded: nat
    var applied: seq<nat>
    var db: DB
    const sink: Tau2Recorder

    constructor (plan: Plan, db0: DB, sink: Tau2Recorder)
      requires sink.State() == NEW_RECORDER
      ensures this.plan == plan && this.sink == sink && State() == NewReplayer(db0)
    {
      this.plan, this.sink := plan, sink;
      pos, events, liveCalls, served, unguarded, applied, db := 0, 0, 0, 0, 0, [], db0;
    }

    function State(): Replayer
      reads this, sink
    {
      Replayer(pos, events, liveCalls, served, unguarded, applied, db, sink.State())
    }

    method Live(w: World, q: Request) returns (out: Result<Response, Stop>)
      modifies this, sink
      ensures (State(), out) == LiveStep(plan, w, old(State()), q)
    {
      if !plan.hasLive {
        return Failure(NoLiveCall(events));
      }
      liveCalls := liveCalls + 1;
      var response := w.model(events, q);
      sink.OnLlmCall(db, q, response, false);
      events := events + 1;
      out := Success(response);
    }

    method ServeRequest(q: Request) returns (out: Result<Response, Stop>)
      modifies this
      ensures (State(), out) == Serve(plan, old(State()), q)
      ensures out.Success? ==> old(pos) < |plan.steps| && plan.steps[old(pos)].row.LlmRow?
      ensures events == old(events) && db == old(db)
    {
      if pos >= |plan.steps| {
        return Failure(TapeExhausted(pos));
      }
      var step := plan.steps[pos];
      if step.row.ToolRow? {
        return Failure(WrongActor(pos));
      }
      pos := pos + 1;
      if q.canonical != step.row.request.canonical {
        if !plan.unsafePositional {
          return Failure(RequestMismatch(pos - 1));
        }
        unguarded := unguarded + 1;
      }
      served := served + 1;
      out := Success(step.row.response);
    }

    method Complete(w: World, q: Request) returns (out: Result<Response, Stop>)
      modifies this, sink
      ensures (State(), out) == Completion(plan, w, old(State()), q)
    {
      if !Governed(plan, events) {
        out := Live(w, q);
        return;
      }
      var at := pos;
      out := ServeRequest(q);
      if out.Failure? {
        return;
      }
      var step := plan.steps[at];
      var payload := out.value;
      if AtFork(plan, events) {
        applied := applied + [step.idx];
        match ApplyToResponse(plan.intervention, step, payload) {
          case Live =>
            out := Live(w, q);
            return;
          case Refused(reason) =>
            return Failure(InterventionRefused(at, reason));
          case Use(changed) =>
            payload := changed;
        }
      }
      sink.OnLlmCall(db, q.(purpose := step.row.request.purpose), payload, true);
      events := events + 1;
      out := Success(payload);
    }

    method TakeCall(c: Call) returns (out: Result<Step, Stop>)
      modifies this
      ensures (State(), out) == TakeTool(plan, old(State()), c)
      ensures out.Success? ==> out.value.row.ToolRow?
      ensures events == old(events) && db == old(db) && applied == old(applied)
    {
      if pos >= |plan.steps| {
        return Failure(TapeExhausted(pos));
      }
      var step := plan.steps[pos];
      if !step.row.ToolRow? {
        return Failure(WrongActor(pos));
      }
      pos := pos + 1;
      if step.row.name != c.name {
        return Failure(NameMismatch(pos - 1));
      }
      if step.row.args != c.args {
        return Failure(ArgsMismatch(pos - 1));
      }
      out := Success(step);
    }

    method ObtainResult(w: World, step: Step, c: Call) returns (out: Result<Message, Stop>)
      requires step.row.ToolRow?
      modifies this
      ensures (State(), out) == Obtain(plan, w, old(State()), step, c)
      ensures events == old(events) && applied == old(applied)
    {
      if plan.mode == Snapshot {
        db := step.after;
        if StateHash(db) != step.hash {
          return Failure(StateMismatch(step.idx));
        }
        return Success(Message(step.row.result.answer, w.clock(events)));
      }
      var (answer, after) := w.tool(events, db, c);
      db := after;
      if plan.mode == Verify {
        if answer != step.row.result.answer {
          return Failure(ResultMismatch(step.idx));
        }
        if StateHash(db) != step.hash {
          return Failure(StateMismatch(step.idx));
        }
      }
      out := Success(Message(answer, w.clock(events)));
    }

    method RespondLive(w: World, c: Call) returns (out: Result<Message, Stop>)
      modifies this, sink
      ensures var (answer, db) := w.tool(old(events), old(db), c);
              (State(), out) == KeepMessage(old(State()).(db := db), c, Message(answer, w.clock(old(events))), false)
    {
      var (answer, after) := w.tool(events, db, c);
      db := after;
      var live := Message(answer, w.clock(events));
      sink.OnToolCall(db, c, live, false);
      events := events + 1;
      out := Success(live);
    }

    method Intervene(w: World, step: Step, c: Call, served: Message, at: nat) returns (out: Result<Message, Stop>)
      modifies this
      ensures (State(), out) == Intervened(plan, w, old(State()), step, c, served, at)
      ensures events == old(events)
    {
      applied := applied + [step.idx];
      match ApplyToResult(plan.intervention, step, served) {
        case Refused(reason) =>
          return Failure(InterventionRefused(at, reason));
        case Live =>
          var (answer, after) := w.tool(events, db, c);
          db := after;
          return Success(Message(answer, w.clock(events)));
        case Use(payload) =>
          return Success(Message(payload.answer, w.clock(events)));
      }
    }

    method Respond(w: World, c: Call) returns (out: Result<Message, Stop>)
      modifies this, sink
      ensures (State(), out) == GetResponse(plan, w, old(State()), c)
    {
      sink.BeginStep(db);
      if !Governed(plan, events) {
        out := RespondLive(w, c);
        return;
      }
      var at := pos;
      var taken := TakeCall(c);
      if taken.Failure? {
        return Failure(taken.error);
      }
      var step := taken.value;
      out := ObtainResult(w, step, c);
      if out.Failure? {
        return;
      }
      if AtFork(plan, events) {
        out := Intervene(w, step, c, out.value, at);
        if out.Failure? {
          return;
        }
      }
      sink.OnToolCall(db, c, out.value, true);
      events := events + 1;
    }
  }

  // ---- whole runs ----------------------------------------------------------------------------

  /** An orchestrator driven through a replayer: what it has seen, and why it stopped, if it did. */
  datatype Drive = Drive(history: seq<Event>, replayer: Replayer, stopped: Option<Stop>)

  function NewDrive(db0: DB): Drive {
    Drive([], NewReplayer(db0), None)
  }

  /** One event of a driven run. A finished or stopped run stays where it is. */
  function DriveEvent(p: Program, plan: Plan, w: World, d: Drive): Drive {
    if d.stopped.Some? then d
    else
      match p.next(d.history)
      case Finish(_) => d
      case Ask(q) =>
        var (r, out) := Completion(plan, w, d.replayer, q);
        (match out
         case Success(response) => Drive(d.history + [Said(response)], r, None)
         case Failure(stop) => Drive(d.history, r, Some(stop)))
      case Execute(c) =>
        var (r, out) := GetResponse(plan, w, d.replayer, c);
        (match out
         case Success(m) => Drive(d.history + [Answered(m.answer)], r, None)
         case Failure(stop) => Drive(d.history, r, Some(stop)))
  }

  /** The run driven from a fresh environment `db0` through `plan`, after up to `n` events. */
  function Driven(p: Program, plan: Plan, w: World, db0: DB, n: nat): Drive {
    if n == 0 then NewDrive(db0) else DriveEvent(p, plan, w, Driven(p, plan, w, db0, n - 1))
  }

  /** The orchestrator reached its own end without a divergence. */
  predicate Ended(p: Program, d: Drive) {
    d.stopped.None? && p.next(d.history).Finish?
  }

  /** The orchestrator's next event, through whichever seam it goes. */
  method OneEvent(p: Program, w: World, replayer: Tau2Replayer, before: seq<Event>)
    returns (history: seq<Event>, stopped: Option<Stop>)
    modifies replayer, replayer.sink
    ensures Drive(history, replayer.State(), stopped)
            == DriveEvent(p, replayer.plan, w, Drive(before, old(replayer.State()), None))
  {
    history, stopped := before, None;
    match p.next(before) {
      case Finish(_) =>
      case Ask(q) =>
        var out := replayer.Complete(w, q);
        match out {
          case Success(response) => history := before + [Said(response)];
          case Failure(stop) => stopped := Some(stop);
        }
      case Execute(c) =>
        var out := replayer.Respond(w, c);
        match out {
          case Success(m) => history := before + [Answered(m.answer)];
          case Failure(stop) => stopped := Some(stop);
        }
    }
  }

  /** Drives the real objects for up to `n` events, as `run_simulation` does. */
  method RunOrchestrator(p: Program, w: World, replayer: Tau2Replayer, n: nat)
    returns (history: seq<Event>, stopped: Option<Stop>)
    requires replayer.State() == NewReplayer(replayer.db)
    modifies replayer, replayer.sink
    ensures Drive(history, replayer.State(), stopped) == Driven(p, replayer.plan, w, old(replayer.db), n)
  {
    history, stopped := [], None;
    for i := 0 to n
      invariant Drive(history, replayer.State(), stopped) == Driven(p, replayer.plan, w, old(replayer.db), i)
    {
      if stopped.None? {
        history, stopped := OneEvent(p, w, replayer, history);
      }
    }
  }

  // ---- what every driven run keeps -----------------------------------------------------------

  /** What holds between two events: the tape governs and the cursor is at this run's step, or the fork has happened. */
  predicate Steady(plan: Plan, r: Replayer) {
    if Governed(plan, r.events) then
      r.pos == r.events && r.pos <= |plan.steps| && r.liveCalls == 0 && r.applied == []
    else
      && r.pos == plan.forkStep.value + 1 <= |plan.steps|
      && r.applied == [plan.steps[plan.forkStep.value].idx]
      && r.liveCalls <= r.events - plan.forkStep.value
  }

  /** What holds of a run that diverged: at most the step it diverged on was taken, and applied only at the fork. */
  predicate Halted(plan: Plan, r: Replayer) {
    && r.pos <= |plan.steps|
    && (Governed(plan, r.events) ==>
          && r.events <= r.pos <= r.events + 1
          && r.liveCalls == 0
          && (r.applied == [] || (AtFork(plan, r.events) && r.pos == r.events + 1 && r.applied == [plan.steps[r.events].idx])))
    && (!Governed(plan, r.events) ==> Steady(plan, r))
  }

  ghost predicate Kept<T>(plan: Plan, r: Replayer, next: Replayer, out: Result<T, Stop>) {
    if out.Success? then Steady(plan, next) && next.events == r.events + 1
    else Halted(plan, next) && next.events == r.events
  }

  lemma CompletionKeeps(plan: Plan, w: World, r: Replayer, q: Request)
    requires Steady(plan, r)
    ensures var (next, out) := Completion(plan, w, r, q); Kept(plan, r, next, out)
  {
  }

  lemma GetResponseKeeps(plan: Plan, w: World, r: Replayer, c: Call)
    requires Steady(plan, r)
    ensures var (next, out) := GetResponse(plan, w, r, c); Kept(plan, r, next, out)
  {
  }

  /** One event each, and the cursor where it should be. */
  predicate InOrder(plan: Plan, d: Drive) {
    && |d.history| == d.replayer.events
    && (if d.stopped.None? then Steady(plan, d.replayer) else Halted(plan, d.replayer))
  }

  lemma EventKeepsOrder(p: Program, plan: Plan, w: World, d: Drive)
    requires InOrder(plan, d)
    ensures InOrder(plan, DriveEvent(p, plan, w, d))
  {
    if d.stopped.None? {
      match p.next(d.history) {
        case Finish(_) =>
        case Ask(q) => CompletionKeeps(plan, w, d.replayer, q);
        case Execute(c) => GetResponseKeeps(plan, w, d.replayer, c);
      }
    }
  }

  /** In every world, for every orchestrator, plan and tape, diverged or not. */
  lemma {:induction false} ReplayerInvariant(p: Program, plan: Plan, w: World, db0: DB, n: nat)
    ensures InOrder(plan, Driven(p, plan, w, db0, n))
  {
    if n == 0 {
      assert Driven(p, plan, w, db0, 0) == NewDrive(db0);
    } else {
      ReplayerInvariant(p, plan, w, db0, n - 1);
      EventKeepsOrder(p, plan, w, Driven(p, plan, w, db0, n - 1));
    }
  }

  /** Once the fork step has happened the cursor is parked for good. */
  lemma {:induction false} CursorParks(p: Program, plan: Plan, w: World, db0: DB, m: nat, n: nat)
    requires m <= n && !Governed(plan, Driven(p, plan, w, db0, m).replayer.events)
    ensures !Governed(plan, Driven(p, plan, w, db0, n).replayer.events)
    ensures Driven(p, plan, w, db0, n).replayer.pos == Driven(p, plan, w, db0, m).replayer.pos
    ensures Driven(p, plan, w, db0, n).replayer.applied == Driven(p, plan, w, db0, m).replayer.applied
  {
    if m < n { CursorParks(p, plan, w, db0, m, n - 1); }
  }

  /** With no fork step there is no live model call in any run, and none is even asked for. */
  lemma FullReplayIsOffline(p: Program, plan: Plan, w: World, db0: DB, n: nat)
    requires plan.forkStep.None?
    ensures var d := Driven(p, plan, w, db0, n);
            d.replayer.liveCalls == 0 && d.replayer.applied == [] && !WantsLive(d)
  {
    ReplayerInvariant(p, plan, w, db0, n);
    NeverAsksLive(p, plan, w, db0, n);
  }

  /** With no fork step no run ever stops for want of a live source. */
  lemma {:induction false} NeverAsksLive(p: Program, plan: Plan, w: World, db0: DB, n: nat)
    requires plan.forkStep.None?
    ensures !WantsLive(Driven(p, plan, w, db0, n))
  {
    if n > 0 {
      NeverAsksLive(p, plan, w, db0, n - 1);
      EventNeverAsks(p, plan, w, Driven(p, plan, w, db0, n - 1));
    }
  }

  /** The run stopped for want of a live source. */
  predicate WantsLive(d: Drive) {
    d.stopped.Some? && d.stopped.value.NoLiveCall?
  }

  lemma EventNeverAsks(p: Program, plan: Plan, w: World, d: Drive)
    requires plan.forkStep.None? && !WantsLive(d)
    ensures !WantsLive(DriveEvent(p, plan, w, d))
  {
  }

  /** Without a live source nothing live is ever counted: a step that needs one stops the run instead. */
  lemma {:induction false} NoSourceNoLiveCalls(p: Program, plan: Plan, w: World, db0: DB, n: nat)
    requires !plan.hasLive
    ensures Driven(p, plan, w, db0, n).replayer.liveCalls == 0
  {
    if n > 0 {
      NoSourceNoLiveCalls(p, plan, w, db0, n - 1);
      var d := Driven(p, plan, w, db0, n - 1);
      if d.stopped.None? { SourcelessEvent(p, plan, w, d); }
    }
  }

  lemma SourcelessEvent(p: Program, plan: Plan, w: World, d: Drive)
    requires !plan.hasLive && d.stopped.None?
    ensures DriveEvent(p, plan, w, d).replayer.liveCalls == d.replayer.liveCalls
  {
    match p.next(d.history)
    case Finish(_) =>
    case Ask(q) => assert Completion(plan, w, d.replayer, q).0.liveCalls == d.replayer.liveCalls;
    case Execute(c) => assert GetResponse(plan, w, d.replayer, c).0.liveCalls == d.replayer.liveCalls;
  }
}
