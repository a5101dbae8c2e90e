/**
 The one thing changed at a fork step. Request-shaping interventions are not part of this
 model; each one here turns the recorded payload into the payload to use, or asks for a live
 sample, or refuses a step it was not built for.
 */
module Interventions {
  import opened Wrappers
  import opened Simulation
  import opened Recording

  /** A partial tool-result payload, laid over the recorded one. */
  datatype Replacement = Replacement(
    id: Option<string>, requestor: Option<string>, content: Option<string>, error: Option<bool>, stamp: Option<int>)

  /** What a recorded tool step's call really answers; `None` when that cannot be found out. */
  type TruthProvider = Step -> Option<Replacement>

  datatype Intervention =
    | NoOp
    | ReplaceToolResult(step: nat, newResult: Replacement)
    | TruthfulToolResult(step: nat, truth: Option<TruthProvider>)
    | ForceAction(step: nat, message: string)
    | Resample(step: nat)

  datatype Refusal = Misapplied | Unresolved | TruthUnavailable

  datatype Applied<+T> = Use(payload: T) | Live | Refused(reason: Refusal)

  /** `replacement` over `m`, then the fields that say which call it answers put back. */
  function Merged(m: Message, r: Replacement): (merged: Message)
    ensures merged.answer.id == m.answer.id && merged.answer.requestor == m.answer.requestor && merged.stamp == m.stamp
  {
    var over := Message(
                  Answer(r.id.GetOr(m.answer.id), r.requestor.GetOr(m.answer.requestor),
                         r.content.GetOr(m.answer.content), r.error.GetOr(m.answer.error)),
                  r.stamp.GetOr(m.stamp));
    over.(answer := over.answer.(id := m.answer.id, requestor := m.answer.requestor), stamp := m.stamp)
  }

  /** `apply` on a tool result. */
  function ApplyToResult(iv: Intervention, step: Step, m: Message): Applied<Message> {
    match iv
    case NoOp => Use(m)
    case ReplaceToolResult(k, r) =>
      if step.idx != k || step.actor != ToolActor then Refused(Misapplied) else Use(Merged(m, r))
    case TruthfulToolResult(k, truth) =>
      if step.idx != k || step.actor != ToolActor then Refused(Misapplied)
      else if truth.None? then Refused(Unresolved)
      else
        (match truth.value(step)
         case None => Refused(TruthUnavailable)
         case Some(said) => Use(Merged(m, said)))
    case ForceAction(k, _) => Refused(Misapplied)
    case Resample(k) => if step.idx != k then Refused(Misapplied) else Live
  }

  /** `apply` on a model response. Forcing an action replaces the first choice's message only. */
  function ApplyToResponse(iv: Intervention, step: Step, response: Response): Applied<Response> {
    match iv
    case NoOp => Use(response)
    case ReplaceToolResult(_, _) => Refused(Misapplied)
    case TruthfulToolResult(_, _) => Refused(Misapplied)
    case ForceAction(k, message) =>
      if step.idx != k || step.actor == ToolActor then Refused(Misapplied) else Use(response.(message := message))
    case Resample(k) => if step.idx != k then Refused(Misapplied) else Live
  }

  /** The intervention for a suspect, by step type alone; an evaluator step has none. */
  function ChooseIntervention(step: Step, truth: Option<TruthProvider>): Option<Intervention> {
    match step.actor
    case ToolActor => Some(TruthfulToolResult(step.idx, truth))
    case AgentActor => Some(Resample(step.idx))
    case UserActor => Some(Resample(step.idx))
    case EvaluatorActor => None
  }

  /** A row's actor and its content agree on whether it is a tool execution. */
  predicate WellTyped(step: Step) {
    step.actor == ToolActor <==> step.row.ToolRow?
  }

  /** Whether the intervention may meet this step: it is for this step, and for its kind of payload. */
  predicate Applies(iv: Intervention, step: Step) {
    match iv
    case NoOp => true
    case ReplaceToolResult(k, _) => step.idx == k && step.actor == ToolActor
    case TruthfulToolResult(k, truth) => step.idx == k && step.actor == ToolActor && truth.Some? && truth.value(step).Some?
    case ForceAction(k, _) => step.idx == k && step.actor != ToolActor
    case Resample(k) => step.idx == k
  }

  /** A payload is refused exactly when the intervention is for another step or another kind of payload. */
  lemma RefusedIffMisapplied(iv: Intervention, step: Step, m: Message, response: Response)
    requires WellTyped(step)
    ensures step.row.ToolRow? ==> (ApplyToResult(iv, step, m).Refused? <==> !Applies(iv, step))
    ensures step.row.LlmRow? ==> (ApplyToResponse(iv, step, response).Refused? <==> !Applies(iv, step))
  {
  }

  /** The intervention chosen for a suspect meets it: only the evaluator, and an unresolved truth, go without. */
  lemma ChosenApplies(step: Step, truth: Option<TruthProvider>)
    requires WellTyped(step)
    ensures ChooseIntervention(step, truth).None? <==> step.actor == EvaluatorActor
    ensures ChooseIntervention(step, truth).Some? ==>
              (Applies(ChooseIntervention(step, truth).value, step)
               <==> step.actor != ToolActor || (truth.Some? && truth.value(step).Some?))
  {
  }
}
