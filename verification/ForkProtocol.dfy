/**
 The executor as a resume protocol: any number of draws in flight, crashes at any point, and a
 tape that only grows.
 */
module ForkProtocol {
  import opened Wrappers
  import opened ForkExecutor

  // ---- Draws in flight -------------------------------------------------------------------------

  datatype Phase =
    | Idle
    | Trying(attempt: nat)
    | Picked(attempt: nat, id: string)
    | Running(attempt: nat, id: string)

  /** `spent` counts the live calls of each draw. */
  datatype State = State(tape: Tape, phases: map<DrawId, Phase>, spent: map<DrawId, nat>)

  datatype Action =
    | Invoke(draw: DrawId)
    | Pick(draw: DrawId)
    | Start(draw: DrawId)
    | Call(draw: DrawId)
    | Finish(draw: DrawId, outcome: Outcome)
    | Abort(draw: DrawId)
    | Fail(draw: DrawId)
    | Crash

  const Empty := State(Tape({}, map[]), map[], map[])

  function PhaseOf(s: State, d: DrawId): Phase {
    if d in s.phases then s.phases[d] else Idle
  }

  function SpentOn(s: State, d: DrawId): nat {
    if d in s.spent then s.spent[d] else 0
  }

  function In(s: State, d: DrawId, phase: Phase): State {
    s.(phases := s.phases[d := phase])
  }

  /** After an infrastructure failure: the next attempt, or giving up. */
  function Retried(attempt: nat): Phase {
    if attempt + 1 < InfraRetries then Trying(attempt + 1) else Idle
  }

  /** One atomic step; a step that is not enabled changes nothing. */
  function Next(s: State, a: Action): State {
    match a
    case Invoke(d) =>
      if PhaseOf(s, d).Idle? && Recorded(s.tape, d).None? then In(s, d, Trying(0)) else s
    case Pick(d) =>
      (match PhaseOf(s, d)
       case Trying(k) =>
         (match FreeRunId(s.tape.runs, ForkExecutor.Attempt(d, k))
          case None => In(s, d, Idle)
          case Some(id) => In(s, d, Picked(k, id)))
       case _ => s)
    case Start(d) =>
      (match PhaseOf(s, d)
       case Picked(k, id) =>
         if id in s.tape.runs then In(s, d, Retried(k))
         else In(s.(tape := s.tape.(runs := s.tape.runs + {id})), d, Running(k, id))
       case _ => s)
    case Call(d) =>
      if PhaseOf(s, d).Running? then s.(spent := s.spent[d := SpentOn(s, d) + 1]) else s
    case Finish(d, outcome) =>
      (match PhaseOf(s, d)
       case Running(_, id) =>
         if id in s.tape.outcomes then In(s, d, Idle)
         else In(s.(tape := s.tape.(outcomes := s.tape.outcomes[id := outcome])), d, Idle)
       case _ => s)
    case Abort(d) =>
      (match PhaseOf(s, d)
       case Picked(k, _) => In(s, d, Retried(k))
       case Running(k, _) => In(s, d, Retried(k))
       case _ => s)
    case Fail(d) => In(s, d, Idle)
    case Crash => s.(phases := map[])
  }

  function After(s: State, actions: seq<Action>): State
    decreases actions
  {
    if actions == [] then s else After(Next(s, actions[0]), actions[1..])
  }

  // ---- What every step keeps -------------------------------------------------------------------

  ghost predicate Mine(d: DrawId, id: string) { InFamily(d, MaxIdAttempts, id) }

  ghost predicate NoOutcome(tape: Tape, d: DrawId) {
    forall id <- tape.outcomes :: !Mine(d, id)
  }

  ghost predicate AtMostOne(tape: Tape, d: DrawId) {
    forall id, id' :: id in tape.outcomes && id' in tape.outcomes && Mine(d, id) && Mine(d, id') ==> id == id'
  }

  ghost predicate PhaseSound(tape: Tape, d: DrawId, phase: Phase) {
    match phase
    case Idle => true
    case Trying(k) => k < InfraRetries && NoOutcome(tape, d)
    case Picked(k, id) => k < InfraRetries && NoOutcome(tape, d) && Mine(d, id)
    case Running(k, id) => k < InfraRetries && NoOutcome(tape, d) && Mine(d, id)
  }

  ghost predicate InvAt(s: State, d: DrawId) {
    AtMostOne(s.tape, d) && PhaseSound(s.tape, d, PhaseOf(s, d))
  }

  /** A draw has at most one recorded outcome, and a draw at work has none. */
  ghost predicate Inv(s: State) {
    forall d: DrawId :: InvAt(s, d)
  }

  lemma RecordedMeansOutcome(tape: Tape, d: DrawId)
    ensures Recorded(tape, d).None? <==> NoOutcome(tape, d)
    ensures Recorded(tape, d).Some? ==>
              exists id :: id in tape.outcomes && Mine(d, id) && tape.outcomes[id] == Recorded(tape, d).value
  {
    var ids := CandidateIds(d, MaxIdAttempts);
    FirstRecordedIs(tape.outcomes, ids);
    forall id ensures id in ids <==> Mine(d, id) { CandidatesAreFamily(d, MaxIdAttempts, id); }
  }

  /** Changing only the phase of one draw. */
  lemma PhaseKeepsInv(s: State, d: DrawId, phase: Phase)
    requires Inv(s) && PhaseSound(s.tape, d, phase)
    ensures Inv(In(s, d, phase))
  {
    forall e: DrawId ensures InvAt(In(s, d, phase), e) { assert InvAt(s, e); }
  }

  lemma OutcomeKeepsOthers(tape: Tape, d: DrawId, id: string, outcome: Outcome, e: DrawId)
    requires Mine(d, id) && d != e
    ensures var tape' := tape.(outcomes := tape.outcomes[id := outcome]);
            && (NoOutcome(tape, e) ==> NoOutcome(tape', e))
            && (AtMostOne(tape, e) ==> AtMostOne(tape', e))
  {
    if Mine(e, id) { FamiliesAreDisjoint(d, e, MaxIdAttempts, id); }
  }

  lemma FinishKeepsInv(s: State, d: DrawId, outcome: Outcome)
    requires Inv(s)
    ensures Inv(Next(s, Finish(d, outcome)))
  {
    assert InvAt(s, d);
    match PhaseOf(s, d) {
      case Running(_, id) =>
        var s' := Next(s, Finish(d, outcome));
        forall e: DrawId ensures InvAt(s', e) {
          assert InvAt(s, e);
          if e != d { OutcomeKeepsOthers(s.tape, d, id, outcome, e); }
        }
      case _ =>
    }
  }

  lemma StartKeepsInv(s: State, d: DrawId)
    requires Inv(s)
    ensures Inv(Next(s, Start(d)))
  {
    assert InvAt(s, d);
    match PhaseOf(s, d) {
      case Picked(k, id) =>
        if id in s.tape.runs {
          PhaseKeepsInv(s, d, Retried(k));
        } else {
          forall e: DrawId ensures InvAt(Next(s, Start(d)), e) { assert InvAt(s, e); }
        }
      case _ =>
    }
  }

  lemma PickKeepsInv(s: State, d: DrawId)
    requires Inv(s)
    ensures Inv(Next(s, Pick(d)))
  {
    assert InvAt(s, d);
    match PhaseOf(s, d) {
      case Trying(k) =>
        var free := FreeRunId(s.tape.runs, ForkExecutor.Attempt(d, k));
        PickIsScanned(s.tape.runs, d, k);
        if free.Some? { CandidatesAreFamily(d, MaxIdAttempts, free.value); }
        PhaseKeepsInv(s, d, if free.None? then Idle else Picked(k, free.value));
      case _ =>
    }
  }

  lemma NextKeepsInv(s: State, a: Action)
    requires Inv(s)
    ensures Inv(Next(s, a))
  {
    match a {
      case Invoke(d) =>
        RecordedMeansOutcome(s.tape, d);
        if Recorded(s.tape, d).None? { PhaseKeepsInv(s, d, Trying(0)); }
      case Pick(d) => PickKeepsInv(s, d);
      case Start(d) => StartKeepsInv(s, d);
      case Call(d) => forall e: DrawId ensures InvAt(Next(s, a), e) { assert InvAt(s, e); }
      case Finish(d, outcome) => FinishKeepsInv(s, d, outcome);
      case Abort(d) => AbortKeepsInv(s, d);
      case Fail(d) => PhaseKeepsInv(s, d, Idle);
      case Crash => forall e: DrawId ensures InvAt(Next(s, a), e) { assert InvAt(s, e); }
    }
  }

  lemma AbortKeepsInv(s: State, d: DrawId)
    requires Inv(s)
    ensures Inv(Next(s, Abort(d)))
  {
    assert InvAt(s, d);
    match PhaseOf(s, d) {
      case Picked(k, _) => PhaseKeepsInv(s, d, Retried(k));
      case Running(k, _) => PhaseKeepsInv(s, d, Retried(k));
      case _ =>
    }
  }

  lemma {:induction false} RunsKeepInv(s: State, actions: seq<Action>)
    requires Inv(s)
    ensures Inv(After(s, actions))
    decreases actions
  {
    if actions != [] {
      NextKeepsInv(s, actions[0]);
      RunsKeepInv(Next(s, actions[0]), actions[1..]);
    }
  }

  /** Over any interleaving and any crashes, no draw ever has two outcomes. */
  lemma OneOutcomePerDraw(actions: seq<Action>, d: DrawId)
    ensures AtMostOne(After(Empty, actions).tape, d)
  {
    forall e: DrawId ensures InvAt(Empty, e) {}
    RunsKeepInv(Empty, actions);
    assert InvAt(After(Empty, actions), d);
  }

  // ---- Nothing is paid for twice ---------------------------------------------------------------

  /** A draw that is settled: its outcome is found, and it is not at work. */
  ghost predicate Settled(s: State, d: DrawId, outcome: Outcome, spent: nat) {
    Recorded(s.tape, d) == Some(outcome) && PhaseOf(s, d).Idle? && SpentOn(s, d) == spent
  }

  lemma {:induction false} FirstRecordedIgnores(outcomes: map<string, Outcome>, ids: seq<string>, id: string,
                                                outcome: Outcome)
    requires id !in ids
    ensures FirstRecorded(outcomes[id := outcome], ids) == FirstRecorded(outcomes, ids)
  {
    if ids != [] { FirstRecordedIgnores(outcomes, ids[1..], id, outcome); }
  }

  lemma StaysSettled(s: State, a: Action, d: DrawId, outcome: Outcome, spent: nat)
    requires Inv(s) && Settled(s, d, outcome, spent)
    ensures Settled(Next(s, a), d, outcome, spent)
  {
    if a.Finish? && PhaseOf(s, a.draw).Running? && a.draw != d {
      var id := PhaseOf(s, a.draw).id;
      assert InvAt(s, a.draw);
      CandidatesAreFamily(d, MaxIdAttempts, id);
      if Mine(d, id) { FamiliesAreDisjoint(d, a.draw, MaxIdAttempts, id); }
      FirstRecordedIgnores(s.tape.outcomes, CandidateIds(d, MaxIdAttempts), id, a.outcome);
    }
  }

  /**
   Once a draw has an outcome, every later history leaves that outcome and the draw's bill as
   they are, and asking for the draw again starts nothing.
   */
  lemma {:induction false} ResumePaysForNothingTwice(s: State, actions: seq<Action>, d: DrawId)
    requires Inv(s) && Recorded(s.tape, d).Some?
    ensures Settled(After(s, actions), d, Recorded(s.tape, d).value, SpentOn(s, d))
    ensures Next(After(s, actions), Invoke(d)) == After(s, actions)
    decreases actions
  {
    assert InvAt(s, d);
    RecordedMeansOutcome(s.tape, d);
    if actions != [] {
      StaysSettled(s, actions[0], d, Recorded(s.tape, d).value, SpentOn(s, d));
      NextKeepsInv(s, actions[0]);
      ResumePaysForNothingTwice(Next(s, actions[0]), actions[1..], d);
    }
  }

  // ---- The executor itself ---------------------------------------------------------------------

  /** How one fork ends; an aborted or failed one may or may not have left its manifest. */
  datatype ForkEnd =
    | Finished(outcome: Outcome, calls: nat)
    | Infra(started: bool, calls: nat)
    | Divergence(started: bool, calls: nat)

  datatype RunError = Infrastructure | Diverged | NoFreeId
  datatype RunResult = Returned(outcome: Outcome, calls: nat) | Raised(error: RunError)

  datatype Ran = Ran(tape: Tape, result: RunResult, retries: nat, spent: nat)

  function Started(tape: Tape, id: string, started: bool): Tape {
    if started then tape.(runs := tape.runs + {id}) else tape
  }

  /** The attempts from `k` on; `ends(k)` is how the fork of attempt `k` ends. */
  function Attempts(tape: Tape, d: DrawId, k: nat, ends: nat -> ForkEnd): Ran
    requires k < InfraRetries
    decreases InfraRetries - k
  {
    match FreeRunId(tape.runs, ForkExecutor.Attempt(d, k))
    case None => Ran(tape, Raised(NoFreeId), 0, 0)
    case Some(id) =>
      match ends(k)
      case Finished(outcome, calls) =>
        Ran(Tape(tape.runs + {id}, tape.outcomes[id := outcome]), Returned(outcome, calls), 0, calls)
      case Divergence(started, calls) =>
        Ran(Started(tape, id, started), Raised(Diverged), 0, if started then calls else 0)
      case Infra(started, calls) =>
        var tape', spent := Started(tape, id, started), if started then calls else 0;
        if k + 1 >= InfraRetries then Ran(tape', Raised(Infrastructure), 1, spent)
        else
          var rest := Attempts(tape', d, k + 1, ends);
          rest.(retries := rest.retries + 1, spent := rest.spent + spent)
  }

  function RunRequest(tape: Tape, d: DrawId, ends: nat -> ForkEnd): Ran {
    match Recorded(tape, d)
    case Some(outcome) => Ran(tape, Returned(outcome, 0), 0, 0)
    case None => Attempts(tape, d, 0, ends)
  }

  class Tau2ForkExecutor {
    var tape: Tape
    var reused: nat
    var infraRetries: nat
    var spent: nat

    constructor (tape: Tape)
      ensures this.tape == tape && reused == 0 && infraRetries == 0 && spent == 0
    {
      this.tape, reused, infraRetries, spent := tape, 0, 0, 0;
    }

    /** One fork: reused if the tape has it, otherwise run, and retried in place on infrastructure. */
    method Run(d: DrawId, ends: nat -> ForkEnd) returns (r: RunResult)
      modifies this
      ensures var ran := RunRequest(old(tape), d, ends);
              && r == ran.result
              && tape == ran.tape
              && infraRetries == old(infraRetries) + ran.retries
              && spent == old(spent) + ran.spent
      ensures reused == old(reused) + if Recorded(old(tape), d).Some? then 1 else 0
    {
      var recorded := Recorded(tape, d);
      if recorded.Some? {
        reused := reused + 1;
        return Returned(recorded.value, 0);
      }
      var attempt := 0;
      while true
        invariant attempt < InfraRetries && reused == old(reused)
        invariant var whole, rest := Attempts(old(tape), d, 0, ends), Attempts(tape, d, attempt, ends);
                  && whole.tape == rest.tape && whole.result == rest.result
                  && old(infraRetries) + whole.retries == infraRetries + rest.retries
                  && old(spent) + whole.spent == spent + rest.spent
        decreases InfraRetries - attempt
      {
        var over := TryOnce(d, attempt, ends);
        if over.Some? {
          return over.value;
        }
        attempt := attempt + 1;
      }
    }

    /** One attempt, and whether it settles the call. */
    method TryOnce(d: DrawId, attempt: nat, ends: nat -> ForkEnd) returns (over: Option<RunResult>)
      requires attempt < InfraRetries
      modifies this
      ensures reused == old(reused)
      ensures var whole := Attempts(old(tape), d, attempt, ends);
              match over
              case Some(r) =>
                && tape == whole.tape && r == whole.result
                && infraRetries == old(infraRetries) + whole.retries && spent == old(spent) + whole.spent
              case None =>
                && attempt + 1 < InfraRetries
                && var rest := Attempts(tape, d, attempt + 1, ends);
                   && whole.tape == rest.tape && whole.result == rest.result
                   && old(infraRetries) + whole.retries == infraRetries + rest.retries
                   && old(spent) + whole.spent == spent + rest.spent
    {
      var id := FindFreeRunId(tape.runs, ForkExecutor.Attempt(d, attempt));
      if id.None? {
        return Some(Raised(NoFreeId));
      }
      match ends(attempt) {
        case Finished(outcome, calls) =>
          tape := Tape(tape.runs + {id.value}, tape.outcomes[id.value := outcome]);
          spent := spent + calls;
          return Some(Returned(outcome, calls));
        case Divergence(started, calls) =>
          tape := Started(tape, id.value, started);
          spent := spent + if started then calls else 0;
          return Some(Raised(Diverged));
        case Infra(started, calls) =>
          tape := Started(tape, id.value, started);
          spent := spent + if started then calls else 0;
          infraRetries := infraRetries + 1;
          return if attempt + 1 >= InfraRetries then Some(Raised(Infrastructure)) else None;
      }
    }
  }

  // ---- One call of it is a behaviour of the protocol -------------------------------------------

  function Calls(d: DrawId, n: nat): seq<Action> {
    if n == 0 then [] else [Call(d)] + Calls(d, n - 1)
  }

  /** The steps one attempt takes before it ends. */
  function Begun(d: DrawId, started: bool, calls: nat): seq<Action> {
    [Pick(d)] + if started then [Start(d)] + Calls(d, calls) else []
  }

  function StepsOf(tape: Tape, d: DrawId, k: nat, ends: nat -> ForkEnd): seq<Action>
    requires k < InfraRetries
    decreases InfraRetries - k
  {
    match FreeRunId(tape.runs, ForkExecutor.Attempt(d, k))
    case None => [Pick(d)]
    case Some(id) =>
      match ends(k)
      case Finished(outcome, calls) => Begun(d, true, calls) + [Finish(d, outcome)]
      case Divergence(started, calls) => Begun(d, started, calls) + [Fail(d)]
      case Infra(started, calls) =>
        Begun(d, started, calls) + [Abort(d)]
        + if k + 1 >= InfraRetries then [] else StepsOf(Started(tape, id, started), d, k + 1, ends)
  }

  lemma {:induction false} AfterBoth(s: State, first: seq<Action>, second: seq<Action>)
    ensures After(s, first + second) == After(After(s, first), second)
    decreases first
  {
    if first == [] {
      assert first + second == second;
    } else {
      assert (first + second)[1..] == first[1..] + second;
      AfterBoth(Next(s, first[0]), first[1..], second);
    }
  }

  lemma {:induction false} AfterCalls(s: State, d: DrawId, n: nat)
    requires PhaseOf(s, d).Running?
    ensures After(s, Calls(d, n)) == if n == 0 then s else s.(spent := s.spent[d := SpentOn(s, d) + n])
    decreases n
  {
    if n > 0 {
      var s' := Next(s, Call(d));
      assert Calls(d, n)[1..] == Calls(d, n - 1);
      AfterCalls(s', d, n - 1);
      assert s'.spent[d := SpentOn(s, d) + n] == s.spent[d := SpentOn(s, d) + n];
    }
  }

  /** A state that differs from `s` only in what draw `d` did. */
  ghost predicate Reaches(s: State, s': State, d: DrawId, tape: Tape, phase: Phase, spent: nat) {
    && s'.tape == tape
    && PhaseOf(s', d) == phase
    && SpentOn(s', d) == SpentOn(s, d) + spent
    && forall e: DrawId | e != d :: PhaseOf(s', e) == PhaseOf(s, e) && SpentOn(s', e) == SpentOn(s, e)
  }

  lemma AfterBegun(s: State, d: DrawId, k: nat, started: bool, calls: nat)
    requires PhaseOf(s, d) == Trying(k) && k < InfraRetries
    requires FreeRunId(s.tape.runs, ForkExecutor.Attempt(d, k)).Some?
    ensures var id := FreeRunId(s.tape.runs, ForkExecutor.Attempt(d, k)).value;
            Reaches(s, After(s, Begun(d, started, calls)), d, Started(s.tape, id, started),
                    if started then Running(k, id) else Picked(k, id), if started then calls else 0)
  {
    PickIsScanned(s.tape.runs, d, k);
    var picked := Next(s, Pick(d));
    if started {
      var running := Next(picked, Start(d));
      var rest := [Start(d)] + Calls(d, calls);
      assert ([Pick(d)] + rest)[1..] == rest && rest[1..] == Calls(d, calls);
      AfterCalls(running, d, calls);
    } else {
      assert [Pick(d)][1..] == [];
    }
  }

  lemma AfterOne(s: State, a: Action)
    ensures After(s, [a]) == Next(s, a)
  {
    assert [a][1..] == [];
  }

  lemma ReachesBoth(s: State, m: State, s': State, d: DrawId, tape: Tape, p: Phase, spent: nat, tape': Tape,
                    p': Phase, spent': nat)
    requires Reaches(s, m, d, tape, p, spent) && Reaches(m, s', d, tape', p', spent')
    ensures Reaches(s, s', d, tape', p', spent + spent')
  {
  }

  lemma {:induction false} AttemptsAreSteps(s: State, d: DrawId, k: nat, ends: nat -> ForkEnd)
    requires PhaseOf(s, d) == Trying(k) && k < InfraRetries && Inv(s)
    ensures var ran := Attempts(s.tape, d, k, ends);
            Reaches(s, After(s, StepsOf(s.tape, d, k, ends)), d, ran.tape, Idle, ran.spent)
    decreases InfraRetries - k
  {
    var free := FreeRunId(s.tape.runs, ForkExecutor.Attempt(d, k));
    if free.None? {
      AfterOne(s, Pick(d));
    } else {
      AttemptIsSteps(s, d, k, ends, free.value);
      if ends(k).Infra? && k + 1 < InfraRetries {
        var Infra(started, calls) := ends(k);
        var begun := Begun(d, started, calls) + [Abort(d)];
        var m := After(s, begun);
        RunsKeepInv(s, begun);
        AttemptsAreSteps(m, d, k + 1, ends);
        AfterBoth(s, begun, StepsOf(m.tape, d, k + 1, ends));
        var rest := Attempts(m.tape, d, k + 1, ends);
        ReachesBoth(s, m, After(m, StepsOf(m.tape, d, k + 1, ends)), d, m.tape, Trying(k + 1),
                    if started then calls else 0, rest.tape, Idle, rest.spent);
      } else if ends(k).Infra? {
        var Infra(started, calls) := ends(k);
        var begun := Begun(d, started, calls) + [Abort(d)];
        assert begun + [] == begun;
      }
    }
  }

  /** The steps of attempt `k` alone, up to its end. */
  function OneAttempt(d: DrawId, end: ForkEnd): seq<Action> {
    match end
    case Finished(outcome, calls) => Begun(d, true, calls) + [Finish(d, outcome)]
    case Divergence(started, calls) => Begun(d, started, calls) + [Fail(d)]
    case Infra(started, calls) => Begun(d, started, calls) + [Abort(d)]
  }

  lemma AttemptIsSteps(s: State, d: DrawId, k: nat, ends: nat -> ForkEnd, id: string)
    requires PhaseOf(s, d) == Trying(k) && k < InfraRetries && Inv(s)
    requires FreeRunId(s.tape.runs, ForkExecutor.Attempt(d, k)) == Some(id)
    ensures Reaches(s, After(s, OneAttempt(d, ends(k))), d, TapeAfter(s.tape, id, ends(k)), PhaseAfter(k, ends(k)),
                    BillOf(ends(k)))
  {
    var started := ends(k).Finished? || ends(k).started;
    var begun, last := Begun(d, started, ends(k).calls), LastOf(d, ends(k));
    AfterBegun(s, d, k, started, ends(k).calls);
    AfterBoth(s, begun, [last]);
    AfterOne(After(s, begun), last);
    assert InvAt(s, d);
    PickIsScanned(s.tape.runs, d, k);
    CandidatesAreFamily(d, MaxIdAttempts, id);
    AfterLast(s, After(s, begun), d, k, ends(k), id);
  }

  function LastOf(d: DrawId, end: ForkEnd): Action {
    match end
    case Finished(outcome, _) => Finish(d, outcome)
    case Divergence(_, _) => Fail(d)
    case Infra(_, _) => Abort(d)
  }

  function TapeAfter(tape: Tape, id: string, end: ForkEnd): Tape {
    match end
    case Finished(outcome, _) => Tape(tape.runs + {id}, tape.outcomes[id := outcome])
    case Divergence(started, _) => Started(tape, id, started)
    case Infra(started, _) => Started(tape, id, started)
  }

  function PhaseAfter(k: nat, end: ForkEnd): Phase {
    if end.Infra? then Retried(k) else Idle
  }

  function BillOf(end: ForkEnd): nat {
    if end.Finished? || end.started then end.calls else 0
  }

  lemma AfterLast(s: State, m: State, d: DrawId, k: nat, end: ForkEnd, id: string)
    requires id !in s.tape.outcomes
    requires var started := end.Finished? || end.started;
             Reaches(s, m, d, Started(s.tape, id, started), if started then Running(k, id) else Picked(k, id),
                     if started then end.calls else 0)
    ensures Reaches(s, Next(m, LastOf(d, end)), d, TapeAfter(s.tape, id, end), PhaseAfter(k, end), BillOf(end))
  {
  }

  /** Every call of the executor is some run of the protocol's steps, by that draw alone. */
  lemma RunIsABehaviour(s: State, d: DrawId, ends: nat -> ForkEnd)
    requires Inv(s) && PhaseOf(s, d).Idle?
    ensures var ran := RunRequest(s.tape, d, ends);
            exists actions :: Reaches(s, After(s, actions), d, ran.tape, Idle, ran.spent)
  {
    if Recorded(s.tape, d).Some? {
      assert After(s, []) == s;
      assert Reaches(s, After(s, []), d, s.tape, Idle, 0);
    } else {
      var m := Next(s, Invoke(d));
      NextKeepsInv(s, Invoke(d));
      AttemptsAreSteps(m, d, 0, ends);
      var steps := StepsOf(m.tape, d, 0, ends);
      assert ([Invoke(d)] + steps)[1..] == steps;
      var ran := RunRequest(s.tape, d, ends);
      assert Reaches(s, After(s, [Invoke(d)] + steps), d, ran.tape, Idle, ran.spent);
    }
  }

  // ---- The bill -----------------------------------------------------------------------------------

  /** How many calls a draw makes in a history: those of its forks that are running. */
  function CallsMade(s: State, actions: seq<Action>, d: DrawId): nat
    decreases actions
  {
    if actions == [] then 0
    else (if actions[0] == Call(d) && PhaseOf(s, d).Running? then 1 else 0) + CallsMade(Next(s, actions[0]), actions[1..], d)
  }

  /** A draw's bill is the calls it made, from the first on: crashes and other draws neither add nor forgive. */
  lemma {:induction false} BillIsCallsMade(s: State, actions: seq<Action>, d: DrawId)
    ensures SpentOn(After(s, actions), d) == SpentOn(s, d) + CallsMade(s, actions, d)
    ensures SpentOn(Empty, d) == 0
    decreases actions
  {
    if actions != [] { BillIsCallsMade(Next(s, actions[0]), actions[1..], d); }
  }

  /** After any history and a crash, a draw without an outcome can still get one while an id of its own is free. */
  lemma CrashedDrawCanFinish(history: seq<Action>, d: DrawId, outcome: Outcome) returns (actions: seq<Action>)
    requires var s := After(Empty, history); Recorded(s.tape, d).None? && FreeRunId(s.tape.runs, d).Some?
    ensures Recorded(After(Empty, history + ([Crash] + actions)).tape, d) == Some(outcome)
  {
    var s := After(Empty, history);
    forall e: DrawId ensures InvAt(Empty, e) {}
    RunsKeepInv(Empty, history);
    actions := CrashThenFinish(s, d, outcome);
    AfterBoth(Empty, history, [Crash] + actions);
  }

  lemma CrashThenFinish(s: State, d: DrawId, outcome: Outcome) returns (actions: seq<Action>)
    requires Inv(s) && Recorded(s.tape, d).None? && FreeRunId(s.tape.runs, d).Some?
    ensures Recorded(After(s, [Crash] + actions).tape, d) == Some(outcome)
  {
    var ends := (k: nat) => Finished(outcome, 0);
    var crashed := Next(s, Crash);
    NextKeepsInv(s, Crash);
    RunIsABehaviour(crashed, d, ends);
    var ran := RunRequest(crashed.tape, d, ends);
    actions :| Reaches(crashed, After(crashed, actions), d, ran.tape, Idle, ran.spent);
    assert InvAt(crashed, d);
    RecordedMeansOutcome(s.tape, d);
    ReturnedIsRecorded(s.tape, d, 0, ends);
    assert ForkExecutor.Attempt(d, 0) == d;
    assert ([Crash] + actions)[1..] == actions;
  }

  // ---- How a call ends --------------------------------------------------------------------------

  /** What the first `k` attempts spent, if they all failed on infrastructure. */
  function LostCalls(ends: nat -> ForkEnd, k: nat): nat {
    if k == 0 then 0
    else LostCalls(ends, k - 1) + if ends(k - 1).Infra? && ends(k - 1).started then ends(k - 1).calls else 0
  }

  predicate InfraUpTo(ends: nat -> ForkEnd, k: nat) {
    forall i | 0 <= i < k :: ends(i).Infra?
  }

  /** Attempt `k` ended the call: those before it failed on infrastructure, and were paid for. */
  ghost predicate EndsAt(tape: Tape, d: DrawId, ends: nat -> ForkEnd, k: nat, ran: Ran) {
    && InfraUpTo(ends, k) && k <= 3
    && match ran.result
       case Returned(outcome, calls) =>
         && k < 3 && ends(k) == Finished(outcome, calls) && ran.retries == k && ran.spent == LostCalls(ends, k) + calls
         && exists id :: InFamily(d, MaxIdAttempts, id) && id !in tape.runs && ran.tape.outcomes == tape.outcomes[id := outcome]
       case Raised(Diverged) =>
         && k < 3 && ends(k).Divergence? && ran.retries == k && ran.tape.outcomes == tape.outcomes
         && ran.spent == LostCalls(ends, k) + if ends(k).started then ends(k).calls else 0
       case Raised(Infrastructure) =>
         k == 3 && ran.retries == 3 && ran.spent == LostCalls(ends, 3) && ran.tape.outcomes == tape.outcomes
       case Raised(NoFreeId) =>
         k < 3 && ran.retries == k && ran.spent == LostCalls(ends, k) && ran.tape.outcomes == tape.outcomes
  }

  /** The whole call, given what its attempts from `k` on came to. */
  function WithLost(ran: Ran, k: nat, lost: nat): Ran {
    ran.(retries := ran.retries + k, spent := ran.spent + lost)
  }

  lemma {:induction false} AttemptsEnd(first: Tape, tape: Tape, d: DrawId, k: nat, ends: nat -> ForkEnd) returns (last: nat)
    requires k < InfraRetries && InfraUpTo(ends, k) && first.runs <= tape.runs && first.outcomes == tape.outcomes
    ensures EndsAt(first, d, ends, last, WithLost(Attempts(tape, d, k, ends), k, LostCalls(ends, k)))
    decreases InfraRetries - k
  {
    last := k;
    PickIsScanned(tape.runs, d, k);
    var free := FreeRunId(tape.runs, ForkExecutor.Attempt(d, k));
    if free.Some? {
      CandidatesAreFamily(d, MaxIdAttempts, free.value);
      if ends(k).Infra? {
        assert InfraUpTo(ends, k + 1);
        if k + 1 >= InfraRetries {
          last := k + 1;
        } else {
          last := AttemptsEnd(first, Started(tape, free.value, ends(k).started), d, k + 1, ends);
        }
      }
    }
  }

  /**
   How a call ends: with an outcome already recorded, for nothing; or at the first attempt that does
   not fail on infrastructure, for what that and the lost ones spent; or after three that do.
   */
  lemma CallEndsAtFirstSettled(tape: Tape, d: DrawId, ends: nat -> ForkEnd) returns (k: nat)
    ensures var ran := RunRequest(tape, d, ends);
            match Recorded(tape, d)
            case Some(outcome) => ran == Ran(tape, Returned(outcome, 0), 0, 0)
            case None => EndsAt(tape, d, ends, k, ran)
  {
    k := AttemptsEnd(tape, tape, d, 0, ends);
  }

  lemma FinishedIsFound(tape: Tape, d: DrawId, id: string, outcome: Outcome)
    requires NoOutcome(tape, d) && Mine(d, id)
    ensures Recorded(Tape(tape.runs + {id}, tape.outcomes[id := outcome]), d) == Some(outcome)
  {
    RecordedMeansOutcome(Tape(tape.runs + {id}, tape.outcomes[id := outcome]), d);
  }

  /** A call that returned leaves its outcome where every later call finds it, and pays nothing there. */
  lemma {:induction false} ReturnedIsRecorded(tape: Tape, d: DrawId, k: nat, ends: nat -> ForkEnd)
    requires k < InfraRetries && NoOutcome(tape, d)
    ensures var ran := Attempts(tape, d, k, ends);
            && (ran.result.Returned? ==> Recorded(ran.tape, d) == Some(ran.result.outcome))
            && (ran.result.Raised? ==> NoOutcome(ran.tape, d))
    decreases InfraRetries - k
  {
    var free := FreeRunId(tape.runs, ForkExecutor.Attempt(d, k));
    PickIsScanned(tape.runs, d, k);
    if free.Some? {
      CandidatesAreFamily(d, MaxIdAttempts, free.value);
      match ends(k) {
        case Finished(outcome, _) => FinishedIsFound(tape, d, free.value, outcome);
        case Divergence(_, _) =>
        case Infra(started, _) =>
          if k + 1 < InfraRetries { ReturnedIsRecorded(Started(tape, free.value, started), d, k + 1, ends); }
      }
    }
  }

  /** Asking again returns the same outcome, for no calls, and leaves the tape alone. */
  lemma AskingAgainIsFree(tape: Tape, d: DrawId, ends: nat -> ForkEnd, later: nat -> ForkEnd)
    ensures var ran := RunRequest(tape, d, ends);
            ran.result.Returned? ==>
              RunRequest(ran.tape, d, later) == Ran(ran.tape, Returned(ran.result.outcome, 0), 0, 0)
  {
    RecordedMeansOutcome(tape, d);
    if Recorded(tape, d).None? { ReturnedIsRecorded(tape, d, 0, ends); }
  }
}
