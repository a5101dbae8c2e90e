/**
 The injector that keeps a fault standing over a whole run: every execution of one call really
 happens, writes included, and the agent is shown a corrupted answer to it.
 */
module FaultInjector {
  import opened Wrappers
  import opened Simulation
  import opened Interventions

  datatype FaultSpec = FaultSpec(
    toolName: string, toolArgs: map<string, string>, content: string, error: bool, stepIdx: nat, faultType: string)

  predicate Matches(spec: FaultSpec, name: string, args: map<string, string>) {
    name == spec.toolName && args == spec.toolArgs
  }

  /** What the agent is shown instead of `answer`. A call that already failed is left alone. */
  function Corrupted(spec: FaultSpec, c: Call, answer: Answer): Answer {
    if answer.error && !spec.error then answer
    else if !Matches(spec, c.name, c.args) then answer
    else answer.(content := spec.content, error := spec.error)
  }

  /** `world` with the fault, if any, installed underneath the recorder and the replayer. */
  function Faulted(w: World, fault: Option<FaultSpec>): World {
    match fault
    case None => w
    case Some(spec) =>
      w.(tool := (i: nat, db: DB, c: Call) => var (answer, after) := w.tool(i, db, c); (Corrupted(spec, c, answer), after))
  }

  /** The `get_response` wrapper, with its counters. */
  class Injector {
    const spec: FaultSpec
    var hits: nat
    var executions: nat

    constructor (spec: FaultSpec)
      ensures this.spec == spec && hits == executions == 0
    {
      this.spec := spec;
      hits, executions := 0, 0;
    }

    method Respond(w: World, i: nat, db: DB, c: Call) returns (shown: Answer, after: DB)
      modifies this
      ensures (shown, after) == Faulted(w, Some(spec)).tool(i, db, c)
      ensures after == w.tool(i, db, c).1
      ensures executions == old(executions) + 1
      ensures var answer := w.tool(i, db, c).0;
              if c.name == spec.toolName && c.args == spec.toolArgs && (spec.error || !answer.error) then
                shown == answer.(content := spec.content, error := spec.error) && hits == old(hits) + 1
              else shown == answer && hits == old(hits)
    {
      var (answer, left) := w.tool(i, db, c);
      after := left;
      executions := executions + 1;
      if answer.error && !spec.error {
        shown := answer;
      } else if !Matches(spec, c.name, c.args) {
        shown := answer;
      } else {
        hits := hits + 1;
        shown := answer.(content := spec.content, error := spec.error);
      }
    }
  }

  /** The standing fault equivalent to one replacement payload. */
  function FromMutation(name: string, args: map<string, string>, mutated: Replacement, stepIdx: nat, faultType: string): FaultSpec {
    FaultSpec(name, args, mutated.content.GetOr(""), mutated.error.GetOr(false), stepIdx, faultType)
  }

  /** What a caller can check about a recorded result before planting `mutated` on it. */
  predicate Plantable(recorded: Answer, mutated: Replacement) {
    && (mutated.error.None? ==> !recorded.error || mutated.content.None? || mutated.content == Some(recorded.content))
    && (mutated.error == Some(false) ==> !recorded.error)
    && (mutated.content.None? ==>
          recorded.content == "" || (recorded.error && mutated.error.None?))
  }

  /** Replacing the result and standing the fault show the agent the same thing exactly for plantable mutations. */
  lemma ReplacedIsInjectedIffPlantable(m: Message, c: Call, mutated: Replacement, k: nat, faultType: string)
    ensures Merged(m, mutated).answer == Corrupted(FromMutation(c.name, c.args, mutated, k, faultType), c, m.answer)
            <==> Plantable(m.answer, mutated)
  {
  }

  /** A mutation of a recorded result: content there, and the error flag kept, or raised on a success. */
  predicate MadeFrom(recorded: Answer, mutated: Replacement) {
    && mutated.content.Some?
    && (if mutated.error.Some? then recorded.error ==> mutated.error.value else !recorded.error)
  }

  /** A recorded result as a payload: every field there. */
  function Payload(m: Message): Replacement {
    Replacement(Some(m.answer.id), Some(m.answer.requestor), Some(m.answer.content), Some(m.answer.error), Some(m.stamp))
  }

  /** What `plant` hands over for a fault in the result's body. */
  function BodyPayload(m: Message, content: string): Replacement {
    Payload(m).(content := Some(content))
  }

  /** And for a tool error, which a call that already failed cannot carry. */
  function ErrorPayload(m: Message, message: string): Option<Replacement> {
    if m.answer.error then None else Some(Payload(m).(content := Some(message), error := Some(true)))
  }

  lemma MadeIsPlantable(recorded: Answer, mutated: Replacement)
    requires MadeFrom(recorded, mutated)
    ensures Plantable(recorded, mutated)
  {
  }

  /** Everything `plant` builds is shown alike by the replacement and by the standing fault. */
  lemma WhatPlantBuildsIsInjected(m: Message, c: Call, text: string, k: nat, faultType: string)
    ensures var mutated := BodyPayload(m, text);
            && MadeFrom(m.answer, mutated)
            && Merged(m, mutated).answer == Corrupted(FromMutation(c.name, c.args, mutated, k, faultType), c, m.answer)
    ensures Merged(m, BodyPayload(m, text)) == Message(m.answer.(content := text), m.stamp)
    ensures ErrorPayload(m, text).None? <==> m.answer.error
    ensures ErrorPayload(m, text).Some? ==>
              var mutated := ErrorPayload(m, text).value;
              && MadeFrom(m.answer, mutated)
              && Merged(m, mutated) == Message(m.answer.(content := text, error := true), m.stamp)
              && Merged(m, mutated).answer == Corrupted(FromMutation(c.name, c.args, mutated, k, faultType), c, m.answer)
  {
    MadeIsPlantable(m.answer, BodyPayload(m, text));
    ReplacedIsInjectedIffPlantable(m, c, BodyPayload(m, text), k, faultType);
    if ErrorPayload(m, text).Some? {
      ReplacedIsInjectedIffPlantable(m, c, ErrorPayload(m, text).value, k, faultType);
    }
  }

  /**
   A mutation the injector cannot show, which only a direct caller can hand over: a failed call's
   content changed by a payload that says nothing of the error flag.
   */
  lemma FailedCallIsLeftAlone(m: Message, c: Call, content: string, k: nat, faultType: string)
    requires m.answer.error && content != m.answer.content
    ensures var mutated := Replacement(None, None, Some(content), None, None);
            && !Plantable(m.answer, mutated)
            && Merged(m, mutated).answer == m.answer.(content := content)
            && Corrupted(FromMutation(c.name, c.args, mutated, k, faultType), c, m.answer) == m.answer
  {
  }

  // ---- carrying the fault in a run manifest ---------------------------------------------------

  datatype ParamValue = Plain(text: string) | Fault(spec: FaultSpec)

  const MANIFEST_KEY := "fault_injector"

  datatype Manifest = Manifest(
    runId: string, task: string, seed: Option<int>, params: map<string, ParamValue>, parent: Option<string>, forkStep: Option<nat>)

  function WithInjector(params: map<string, ParamValue>, spec: FaultSpec): map<string, ParamValue> {
    params[MANIFEST_KEY := Fault(spec)]
  }

  function InjectorSpecFrom(params: map<string, ParamValue>): Option<FaultSpec> {
    if MANIFEST_KEY in params && params[MANIFEST_KEY].Fault? then Some(params[MANIFEST_KEY].spec) else None
  }

  /** The parent's manifest as a fork driver reads it: with the fault, if one stands, in its params. */
  function ReadThrough(parent: Manifest, fault: Option<FaultSpec>): Manifest {
    if fault.None? then parent else parent.(params := WithInjector(parent.params, fault.value))
  }

  /** A fork's manifest: everything its parent pinned, one link further down the chain. */
  function ForkManifest(parent: Manifest, runId: string, forkStep: nat): Manifest {
    Manifest(runId, parent.task, parent.seed, parent.params, Some(parent.runId), Some(forkStep))
  }

  /** Fork after fork, each made under the fault its own parent's manifest records. */
  function ForkChain(item: Manifest, links: seq<(string, nat)>): Manifest {
    if links == [] then item
    else
      var parent := ForkChain(item, links[..|links| - 1]);
      var (runId, forkStep) := links[|links| - 1];
      ForkManifest(ReadThrough(parent, InjectorSpecFrom(parent.params)), runId, forkStep)
  }

  /** However deep the chain, every fork of a planted item still knows the item's fault, and nothing else changed. */
  lemma {:induction false} FaultTravels(base: Manifest, spec: FaultSpec, runId: string, k: nat, links: seq<(string, nat)>)
    ensures var item := ForkManifest(ReadThrough(base, Some(spec)), runId, k);
            && InjectorSpecFrom(ForkChain(item, links).params) == Some(spec)
            && ForkChain(item, links).params - {MANIFEST_KEY} == base.params - {MANIFEST_KEY}
            && ForkChain(item, links).seed == base.seed
  {
    if links != [] { FaultTravels(base, spec, runId, k, links[..|links| - 1]); }
  }
}
