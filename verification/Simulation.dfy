/**
 The world a tau2 run lives in, as the recorder and the replayer see it.

 The orchestrator is an arbitrary deterministic function from what has happened so far to
 its next action. The model, the tools and the clock are oracles indexed by the event number
 of the run, so a world may answer the same question differently each time; a deterministic
 world is one whose answers ignore that index.
 */
module Simulation {
  import opened Wrappers

  /** A tau2 environment's state: the agent-side database and the user-side one. */
  datatype DB = DB(agent: string, user: string)

  /** `Environment.get_db_hash`: covers the agent-side database only. */
  function StateHash(db: DB): string { db.agent }

  datatype Purpose = AgentPurpose | UserPurpose | OtherPurpose
  datatype Actor = AgentActor | UserActor | ToolActor | EvaluatorActor

  /** Anything that is neither the agent nor the user simulator is the evaluator. */
  function ActorOf(purpose: Purpose): Actor {
    match purpose
    case AgentPurpose => AgentActor
    case UserPurpose => UserActor
    case OtherPurpose => EvaluatorActor
  }

  /** A model request: what the canonical request hash covers, and the purpose, which it does not. */
  datatype Request = Request(canonical: string, purpose: Purpose)

  /** A model response: the first choice's message, and everything else in the payload. */
  datatype Response = Response(message: string, rest: string)

  datatype Call = Call(id: string, name: string, args: map<string, string>)

  /** A tool message without the fields the domain stamps afresh on every run. */
  datatype Answer = Answer(id: string, requestor: string, content: string, error: bool)

  /** A tool message as recorded: the answer and the wall-clock stamp. */
  datatype Message = Message(answer: Answer, stamp: int)

  /** What the orchestrator has seen happen. Stamps never reach a request, so they are not here. */
  datatype Event = Said(response: Response) | Answered(answer: Answer)

  datatype Action = Ask(request: Request) | Execute(call: Call) | Finish(termination: string)

  /** tau2's orchestrator and evaluator: the next action, and the reward of a finished history. */
  datatype Program = Program(next: seq<Event> -> Action, score: seq<Event> -> Option<real>)

  datatype World = World(
    model: (nat, Request) -> Response,
    tool: (nat, DB, Call) -> (Answer, DB),
    clock: nat -> int)

  /** Two worlds that answer alike; only their clocks may differ. */
  ghost predicate SameDynamics(w: World, v: World) {
    && (forall i: nat, q :: w.model(i, q) == v.model(i, q))
    && (forall i: nat, db, c :: w.tool(i, db, c) == v.tool(i, db, c))
  }

  /** Two worlds whose tools are one and the same function of the database and the call. */
  ghost predicate SameTools(w: World, v: World) {
    forall i: nat, db, c :: w.tool(i, db, c) == v.tool(i, db, c)
  }
}
