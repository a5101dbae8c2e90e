/**
 One process-wide stand-in for the model call, shared by every thread that drives a replay: the
 first holder installs it over whatever was underneath and the last one puts that back.
 */
module Dispatcher {
  import opened Wrappers

  /** What the module attribute can hold: the router underneath, the dispatcher, or a replay's own completion. */
  datatype Callee = Router | TheDispatcher | Completion(replay: nat)

  // ---- The object ------------------------------------------------------------------------------

  class Seam {
    var completion: Callee

    constructor (completion: Callee)
      ensures this.completion == completion
    {
      this.completion := completion;
    }
  }

  /** The dispatcher's fields together with the seam it stands in for. */
  datatype Held = Held(seam: Callee, depth: nat, fallback: Option<Callee>)

  function Entered(h: Held): Held {
    if h.depth == 0 then Held(TheDispatcher, 1, Some(h.seam)) else h.(depth := h.depth + 1)
  }

  function Left(h: Held): Held
    requires h.depth > 0 && h.fallback.Some?
  {
    if h.depth == 1 then Held(h.fallback.value, 0, None) else h.(depth := h.depth - 1)
  }

  class CompletionDispatcher {
    var depth: nat
    var fallback: Option<Callee>

    constructor ()
      ensures depth == 0 && fallback == None
    {
      depth, fallback := 0, None;
    }

    function State(seam: Seam): Held
      reads this, seam
    {
      Held(seam.completion, depth, fallback)
    }

    method Enter(seam: Seam)
      modifies this, seam
      ensures State(seam) == Entered(old(State(seam)))
    {
      if depth == 0 {
        fallback := Some(seam.completion);
        seam.completion := TheDispatcher;
      }
      depth := depth + 1;
    }

    method Leave(seam: Seam)
      requires depth > 0 && fallback.Some?
      modifies this, seam
      ensures State(seam) == Left(old(State(seam)))
    {
      depth := depth - 1;
      if depth == 0 {
        seam.completion := fallback.value;
        fallback := None;
      }
    }
  }

  // ---- Threads ---------------------------------------------------------------------------------

  /** What a thread is inside of: an installation, or a replay's turn to serve it. */
  datatype Frame = Installed | Active(replay: nat)

  /** Each thread's frames, innermost first. */
  datatype State = State(held: Held, threads: seq<seq<Frame>>)

  datatype Action =
    | Install(thread: nat)
    | Activate(thread: nat, replay: nat)
    | Leave(thread: nat)

  function Holds(frames: seq<Frame>): nat {
    if frames == [] then 0 else (if frames[0].Installed? then 1 else 0) + Holds(frames[1..])
  }

  function HoldersOf(threads: seq<seq<Frame>>): nat {
    if threads == [] then 0 else Holds(threads[0]) + HoldersOf(threads[1..])
  }

  /** The completion the thread's context variable names. */
  function ActiveOf(frames: seq<Frame>): (r: Option<Callee>)
    ensures r.Some? ==> r.value.Completion?
  {
    if frames == [] then None
    else if frames[0].Active? then Some(Completion(frames[0].replay))
    else ActiveOf(frames[1..])
  }

  /** Whether the action can be taken: threads are fixed, and a replay serves only inside an installation. */
  predicate Enabled(s: State, a: Action) {
    && a.thread < |s.threads|
    && (a.Activate? ==> Holds(s.threads[a.thread]) > 0)
    && (a.Leave? ==> s.threads[a.thread] != [])
    && (a.Leave? && s.threads[a.thread][0].Installed? ==> s.held.depth > 0 && s.held.fallback.Some?)
  }

  function Next(s: State, a: Action): State {
    if !Enabled(s, a) then s
    else
      var frames := s.threads[a.thread];
      match a
      case Install(t) => State(Entered(s.held), s.threads[t := [Installed] + frames])
      case Activate(t, replay) => s.(threads := s.threads[t := [Active(replay)] + frames])
      case Leave(t) =>
        State(if frames[0].Installed? then Left(s.held) else s.held, s.threads[t := frames[1..]])
  }

  function After(s: State, actions: seq<Action>): State
    decreases actions
  {
    if actions == [] then s else After(Next(s, actions[0]), actions[1..])
  }

  /** Whom a thread's call reaches: the seam, and through the dispatcher its own replay or what is underneath. */
  function Reached(s: State, thread: nat): Callee
    requires thread < |s.threads|
  {
    if s.held.seam.TheDispatcher? then
      match ActiveOf(s.threads[thread])
      case Some(own) => own
      case None => s.held.fallback.GetOr(TheDispatcher)
    else s.held.seam
  }

  function IdleThreads(n: nat): seq<seq<Frame>> {
    seq(n, _ => [])
  }

  /** Before any replay: every thread idle, over whatever `original` is. */
  function Idle(original: Callee, threads: nat): State {
    State(Held(original, 0, None), IdleThreads(threads))
  }

  // ---- The protocol's invariant ----------------------------------------------------------------

  /** A replay's turn is always inside the same thread's installation. */
  predicate Nested(frames: seq<Frame>) {
    forall i | 0 <= i < |frames| :: frames[i].Active? ==> Holds(frames[i + 1..]) > 0
  }

  ghost predicate Inv(s: State, original: Callee) {
    && s.held == (if HoldersOf(s.threads) == 0 then Held(original, 0, None)
                  else Held(TheDispatcher, HoldersOf(s.threads), Some(original)))
    && forall frames <- s.threads :: Nested(frames)
  }

  lemma {:induction false} HoldersUpdate(threads: seq<seq<Frame>>, t: nat, frames: seq<Frame>)
    requires t < |threads|
    ensures HoldersOf(threads[t := frames]) == HoldersOf(threads) - Holds(threads[t]) + Holds(frames)
    ensures Holds(threads[t]) <= HoldersOf(threads)
  {
    if t == 0 {
      assert threads[0 := frames][1..] == threads[1..];
    } else {
      assert threads[t := frames][1..] == threads[1..][t - 1 := frames];
      HoldersUpdate(threads[1..], t - 1, frames);
    }
  }

  lemma NestedGrows(frames: seq<Frame>, frame: Frame)
    requires Nested(frames) && (frame.Active? ==> Holds(frames) > 0)
    ensures Nested([frame] + frames)
    ensures Holds([frame] + frames) == Holds(frames) + if frame.Installed? then 1 else 0
    ensures ([frame] + frames)[1..] == frames
  {
    forall i | 0 <= i < |[frame] + frames| && ([frame] + frames)[i].Active?
      ensures Holds(([frame] + frames)[i + 1..]) > 0
    {
      if i > 0 { assert ([frame] + frames)[i + 1..] == frames[i..]; } else { assert ([frame] + frames)[1..] == frames; }
    }
    assert ([frame] + frames)[1..] == frames;
  }

  lemma NestedShrinks(frames: seq<Frame>)
    requires Nested(frames) && frames != []
    ensures Nested(frames[1..])
  {
    forall i | 0 <= i < |frames[1..]| && frames[1..][i].Active? ensures Holds(frames[1..][i + 1..]) > 0 {
      assert frames[1..][i + 1..] == frames[i + 2..];
    }
  }

  lemma NextKeepsInv(s: State, a: Action, original: Callee)
    requires Inv(s, original)
    ensures Inv(Next(s, a), original)
  {
    if Enabled(s, a) {
      var t := a.thread;
      var frames := s.threads[t];
      assert frames in s.threads;
      match a {
        case Install(_) =>
          NestedGrows(frames, Installed);
          HoldersUpdate(s.threads, t, [Installed] + frames);
        case Activate(_, replay) =>
          NestedGrows(frames, Active(replay));
          HoldersUpdate(s.threads, t, [Active(replay)] + frames);
        case Leave(_) =>
          NestedShrinks(frames);
          HoldersUpdate(s.threads, t, frames[1..]);
      }
      var s' := Next(s, a);
      forall other | other in s'.threads ensures Nested(other) {
        if other != s'.threads[t] { assert other in s.threads; }
      }
    }
  }

  lemma {:induction false} IdleHolds(threads: nat)
    ensures HoldersOf(IdleThreads(threads)) == 0
  {
    if threads > 0 {
      assert IdleThreads(threads)[1..] == IdleThreads(threads - 1);
      IdleHolds(threads - 1);
    }
  }

  lemma {:induction false} RunsKeepInv(s: State, actions: seq<Action>, original: Callee)
    requires Inv(s, original)
    ensures Inv(After(s, actions), original)
    ensures |After(s, actions).threads| == |s.threads|
    decreases actions
  {
    if actions != [] {
      NextKeepsInv(s, actions[0], original);
      RunsKeepInv(Next(s, actions[0]), actions[1..], original);
    }
  }

  /**
   Over every interleaving: while anyone holds it the seam is the dispatcher over the original,
   and when the last holder leaves the original is back.
   */
  lemma SeamIsHeldOrRestored(original: Callee, threads: nat, actions: seq<Action>)
    ensures var s := After(Idle(original, threads), actions);
            && |s.threads| == threads
            && s.held.depth == HoldersOf(s.threads)
            && (s.held.depth > 0 ==> s.held.seam == TheDispatcher && s.held.fallback == Some(original))
            && (s.held.depth == 0 ==> s.held.seam == original && s.held.fallback == None)
  {
    IdleHolds(threads);
    RunsKeepInv(Idle(original, threads), actions, original);
  }

  /** Leaving is always possible: no thread can be stuck inside a frame. */
  lemma LeavingIsEnabled(original: Callee, threads: nat, actions: seq<Action>, thread: nat)
    ensures var s := After(Idle(original, threads), actions);
            |s.threads| == threads
            && (thread < threads && s.threads[thread] != [] ==> Enabled(s, Leave(thread)))
  {
    SeamIsHeldOrRestored(original, threads, actions);
    var s := After(Idle(original, threads), actions);
    if thread < threads && s.threads[thread] != [] {
      HoldersUpdate(s.threads, thread, []);
    }
  }

  lemma {:induction false} ActiveIsHeld(frames: seq<Frame>)
    requires Nested(frames) && ActiveOf(frames).Some?
    ensures Holds(frames) > 0
  {
    if frames[0].Installed? {
    } else {
      assert Holds(frames[1..]) > 0;
    }
  }

  /** The frame `i` is a replay's turn, and no frame inside it is. */
  predicate Innermost(frames: seq<Frame>, i: nat) {
    i < |frames| && frames[i].Active? && forall j | 0 <= j < i :: frames[j].Installed?
  }

  lemma {:induction false} ActiveIsInnermost(frames: seq<Frame>)
    ensures forall i | 0 <= i < |frames| && Innermost(frames, i) :: ActiveOf(frames) == Some(Completion(frames[i].replay))
    ensures ActiveOf(frames).None? <==> forall i | 0 <= i < |frames| :: frames[i].Installed?
  {
    if frames != [] && frames[0].Installed? {
      ActiveIsInnermost(frames[1..]);
      forall i | 0 <= i < |frames| && Innermost(frames, i)
        ensures ActiveOf(frames) == Some(Completion(frames[i].replay))
      {
        assert Innermost(frames[1..], i - 1);
      }
    }
  }

  lemma ActiveIsReached(original: Callee, threads: nat, actions: seq<Action>, thread: nat)
    requires thread < threads && original != TheDispatcher
    ensures var s := After(Idle(original, threads), actions);
            |s.threads| == threads && Reached(s, thread) == ActiveOf(s.threads[thread]).GetOr(original)
  {
    SeamIsHeldOrRestored(original, threads, actions);
    IdleHolds(threads);
    RunsKeepInv(Idle(original, threads), actions, original);
    var s := After(Idle(original, threads), actions);
    assert s.threads[thread] in s.threads;
    if ActiveOf(s.threads[thread]).Some? {
      ActiveIsHeld(s.threads[thread]);
      HoldersUpdate(s.threads, thread, []);
    }
  }

  /**
   A thread's call reaches its own innermost replay, whoever else is replaying; a thread with
   none reaches the original.
   */
  lemma CallsReachTheirOwnReplay(original: Callee, threads: nat, actions: seq<Action>, thread: nat)
    requires thread < threads && original != TheDispatcher
    ensures var s := After(Idle(original, threads), actions);
            && |s.threads| == threads
            && var frames := s.threads[thread];
               && (forall i | 0 <= i < |frames| && Innermost(frames, i) :: Reached(s, thread) == Completion(frames[i].replay))
               && ((forall i | 0 <= i < |frames| :: frames[i].Installed?) ==> Reached(s, thread) == original)
  {
    ActiveIsReached(original, threads, actions, thread);
    ActiveIsInnermost(After(Idle(original, threads), actions).threads[thread]);
  }

  // ---- One replay among the others' -------------------------------------------------------------

  /** A thread's own frames after one of its actions. */
  function FramesNext(frames: seq<Frame>, a: Action): seq<Frame> {
    match a
    case Install(_) => [Installed] + frames
    case Activate(_, replay) => if Holds(frames) > 0 then [Active(replay)] + frames else frames
    case Leave(_) => if frames == [] then [] else frames[1..]
  }

  function FramesAfter(frames: seq<Frame>, thread: nat, actions: seq<Action>): seq<Frame>
    decreases actions
  {
    if actions == [] then frames
    else FramesAfter(if actions[0].thread == thread then FramesNext(frames, actions[0]) else frames, thread, actions[1..])
  }

  lemma NextFrames(s: State, a: Action, original: Callee, thread: nat)
    requires Inv(s, original) && thread < |s.threads|
    ensures |Next(s, a).threads| == |s.threads|
    ensures Next(s, a).threads[thread]
            == if a.thread == thread then FramesNext(s.threads[thread], a) else s.threads[thread]
  {
    if a.thread == thread && a.Leave? && s.threads[thread] != [] { HoldersUpdate(s.threads, thread, []); }
  }

  /** What a thread is inside of depends on its own actions alone. */
  lemma {:induction false} ThreadsEvolveAlone(s: State, actions: seq<Action>, original: Callee, thread: nat)
    requires Inv(s, original) && thread < |s.threads|
    ensures |After(s, actions).threads| == |s.threads|
    ensures After(s, actions).threads[thread] == FramesAfter(s.threads[thread], thread, actions)
    decreases actions
  {
    if actions != [] {
      NextFrames(s, actions[0], original, thread);
      NextKeepsInv(s, actions[0], original);
      ThreadsEvolveAlone(Next(s, actions[0]), actions[1..], original, thread);
    }
  }

  /** Two runs that leave every thread inside the same frames end in the same state. */
  lemma FramesDecide(s: State, xs: seq<Action>, ys: seq<Action>, original: Callee)
    requires Inv(s, original)
    requires forall u: nat | u < |s.threads| :: FramesAfter(s.threads[u], u, xs) == FramesAfter(s.threads[u], u, ys)
    ensures After(s, xs) == After(s, ys)
  {
    RunsKeepInv(s, xs, original);
    RunsKeepInv(s, ys, original);
    var x, y := After(s, xs).threads, After(s, ys).threads;
    forall u: nat | u < |s.threads| ensures x[u] == y[u] {
      ThreadsEvolveAlone(s, xs, original, u);
      ThreadsEvolveAlone(s, ys, original, u);
    }
    assert x == y;
  }

  lemma {:induction false} FramesAppend(frames: seq<Frame>, thread: nat, xs: seq<Action>, ys: seq<Action>)
    ensures FramesAfter(frames, thread, xs + ys) == FramesAfter(FramesAfter(frames, thread, xs), thread, ys)
    decreases xs
  {
    if xs == [] {
      assert xs + ys == ys;
    } else {
      assert (xs + ys)[1..] == xs[1..] + ys;
      FramesAppend(if xs[0].thread == thread then FramesNext(frames, xs[0]) else frames, thread, xs[1..], ys);
    }
  }

  predicate Elsewhere(actions: seq<Action>, thread: nat) {
    forall a <- actions :: a.thread != thread
  }

  lemma {:induction false} OthersKeepFrames(frames: seq<Frame>, thread: nat, actions: seq<Action>)
    requires Elsewhere(actions, thread)
    ensures FramesAfter(frames, thread, actions) == frames
    decreases actions
  {
    if actions != [] { OthersKeepFrames(frames, thread, actions[1..]); }
  }

  lemma OneAction(frames: seq<Frame>, thread: nat, a: Action)
    ensures FramesAfter(frames, thread, [a]) == if a.thread == thread then FramesNext(frames, a) else frames
  {
    assert [a][1..] == [];
  }

  /** A thread's own action, then anything at all by the others. */
  function Then(a: Action, others: seq<Action>): seq<Action> {
    [a] + others
  }

  lemma ThenFrames(frames: seq<Frame>, thread: nat, a: Action, others: seq<Action>)
    requires a.thread == thread && Elsewhere(others, thread)
    ensures FramesAfter(frames, thread, Then(a, others)) == FramesNext(frames, a)
  {
    FramesAppend(frames, thread, [a], others);
    OneAction(frames, thread, a);
    OthersKeepFrames(FramesNext(frames, a), thread, others);
  }

  lemma ThenSkipped(frames: seq<Frame>, thread: nat, a: Action, others: seq<Action>)
    requires a.thread != thread
    ensures FramesAfter(frames, thread, Then(a, others)) == FramesAfter(frames, thread, others)
  {
    FramesAppend(frames, thread, [a], others);
    OneAction(frames, thread, a);
  }

  /** One replay driven on a thread while the others do `x`, then `y` inside its turn, then `z`. */
  function Opening(thread: nat, replay: nat, x: seq<Action>, y: seq<Action>): seq<Action> {
    Then(Install(thread), x) + Then(Activate(thread, replay), y)
  }

  function Driving(thread: nat, replay: nat, x: seq<Action>, y: seq<Action>, z: seq<Action>): seq<Action> {
    Opening(thread, replay, x, y) + Then(Leave(thread), z) + [Leave(thread)]
  }

  lemma OpeningFrames(frames: seq<Frame>, thread: nat, replay: nat, x: seq<Action>, y: seq<Action>)
    requires Elsewhere(x, thread) && Elsewhere(y, thread)
    ensures FramesAfter(frames, thread, Opening(thread, replay, x, y)) == [Active(replay)] + ([Installed] + frames)
  {
    FramesAppend(frames, thread, Then(Install(thread), x), Then(Activate(thread, replay), y));
    ThenFrames(frames, thread, Install(thread), x);
    ThenFrames([Installed] + frames, thread, Activate(thread, replay), y);
  }

  /** The driving thread ends inside exactly what it was inside before. */
  lemma DrivingThread(frames: seq<Frame>, thread: nat, replay: nat, x: seq<Action>, y: seq<Action>, z: seq<Action>)
    requires Elsewhere(x, thread) && Elsewhere(y, thread) && Elsewhere(z, thread)
    ensures FramesAfter(frames, thread, Driving(thread, replay, x, y, z)) == frames
  {
    var one := [Installed] + frames;
    FramesAppend(frames, thread, Opening(thread, replay, x, y) + Then(Leave(thread), z), [Leave(thread)]);
    FramesAppend(frames, thread, Opening(thread, replay, x, y), Then(Leave(thread), z));
    OpeningFrames(frames, thread, replay, x, y);
    ThenFrames([Active(replay)] + one, thread, Leave(thread), z);
    assert ([Active(replay)] + one)[1..] == one;
    OneAction(one, thread, Leave(thread));
    assert one[1..] == frames;
  }

  /** Every other thread ends as if the replay had not been driven at all. */
  lemma OtherThread(frames: seq<Frame>, u: nat, thread: nat, replay: nat, x: seq<Action>, y: seq<Action>, z: seq<Action>)
    requires u != thread
    ensures FramesAfter(frames, u, Driving(thread, replay, x, y, z)) == FramesAfter(frames, u, x + y + z)
  {
    var first, second, third := Then(Install(thread), x), Then(Activate(thread, replay), y), Then(Leave(thread), z);
    FramesAppend(frames, u, first + second + third, [Leave(thread)]);
    FramesAppend(frames, u, first + second, third);
    FramesAppend(frames, u, first, second);
    ThenSkipped(frames, u, Install(thread), x);
    ThenSkipped(FramesAfter(frames, u, x), u, Activate(thread, replay), y);
    ThenSkipped(FramesAfter(FramesAfter(frames, u, x), u, y), u, Leave(thread), z);
    OneAction(FramesAfter(FramesAfter(FramesAfter(frames, u, x), u, y), u, z), u, Leave(thread));
    FramesAppend(frames, u, x + y, z);
    FramesAppend(frames, u, x, y);
  }

  lemma UndisturbedThread(frames: seq<Frame>, thread: nat, x: seq<Action>, y: seq<Action>, z: seq<Action>)
    requires Elsewhere(x, thread) && Elsewhere(y, thread) && Elsewhere(z, thread)
    ensures FramesAfter(frames, thread, x + y + z) == frames
  {
    FramesAppend(frames, thread, x + y, z);
    FramesAppend(frames, thread, x, y);
    OthersKeepFrames(frames, thread, x);
    OthersKeepFrames(frames, thread, y);
    OthersKeepFrames(frames, thread, z);
  }

  /**
   Driving a replay changes nothing for anyone: whatever the other threads do between its steps,
   the end is the state they would have reached alone, the seam included.
   */
  lemma DrivingIsBracketed(s: State, thread: nat, replay: nat, x: seq<Action>, y: seq<Action>, z: seq<Action>,
                           original: Callee)
    requires Inv(s, original) && thread < |s.threads|
    requires Elsewhere(x, thread) && Elsewhere(y, thread) && Elsewhere(z, thread)
    ensures After(s, Driving(thread, replay, x, y, z)) == After(s, x + y + z)
  {
    forall u: nat | u < |s.threads|
      ensures FramesAfter(s.threads[u], u, Driving(thread, replay, x, y, z)) == FramesAfter(s.threads[u], u, x + y + z)
    {
      if u == thread {
        DrivingThread(s.threads[u], u, replay, x, y, z);
        UndisturbedThread(s.threads[u], u, x, y, z);
      } else {
        OtherThread(s.threads[u], u, thread, replay, x, y, z);
      }
    }
    FramesDecide(s, Driving(thread, replay, x, y, z), x + y + z, original);
  }

  /** Inside its turn the thread's calls reach that replay, whatever the others do. */
  lemma DrivenReplayIsReached(s: State, thread: nat, replay: nat, x: seq<Action>, y: seq<Action>, original: Callee)
    requires Inv(s, original) && thread < |s.threads| && Elsewhere(x, thread) && Elsewhere(y, thread)
    ensures var inside := After(s, Opening(thread, replay, x, y));
            |inside.threads| == |s.threads| && Reached(inside, thread) == Completion(replay)
  {
    var inside := After(s, Opening(thread, replay, x, y));
    RunsKeepInv(s, Opening(thread, replay, x, y), original);
    ThreadsEvolveAlone(s, Opening(thread, replay, x, y), original, thread);
    OpeningFrames(s.threads[thread], thread, replay, x, y);
    var frames := inside.threads[thread];
    assert frames in inside.threads;
    ActiveIsHeld(frames);
    HoldersUpdate(inside.threads, thread, []);
  }

  // ---- Where a live call goes ------------------------------------------------------------------

  /** Follows a call: each replay passes a live call on to `live`, and the router ends it. */
  function Follow(s: State, thread: nat, callee: Callee, live: Callee, hops: nat): Callee
    requires thread < |s.threads|
    decreases hops
  {
    if hops == 0 then callee
    else
      match callee
      case Router => Router
      case TheDispatcher =>
        Follow(s, thread, ActiveOf(s.threads[thread]).GetOr(s.held.fallback.GetOr(TheDispatcher)), live, hops - 1)
      case Completion(_) => Follow(s, thread, live, live, hops - 1)
  }

  lemma {:induction false} RouterEnds(s: State, thread: nat, live: Callee, hops: nat)
    requires thread < |s.threads|
    ensures Follow(s, thread, Router, live, hops) == Router
  {
  }

  lemma {:induction false} DispatcherCycles(s: State, thread: nat, hops: nat)
    requires thread < |s.threads| && ActiveOf(s.threads[thread]).Some?
    ensures Follow(s, thread, TheDispatcher, TheDispatcher, hops) != Router
    ensures Follow(s, thread, ActiveOf(s.threads[thread]).value, TheDispatcher, hops) != Router
    decreases hops
  {
    if hops > 0 { DispatcherCycles(s, thread, hops - 1); }
  }

  /**
   Inside a replay a live call ends, at the router and without meeting a replay again, exactly
   when the router itself was handed in; read off the seam it goes round for ever.
   */
  lemma LiveCallEndsIffRouterHandedIn(threads: nat, actions: seq<Action>, thread: nat, live: Callee)
    requires thread < threads && (live == Router || live == TheDispatcher)
    ensures var s := After(Idle(Router, threads), actions);
            && |s.threads| == threads
            && ((exists i | 0 <= i < |s.threads[thread]| :: s.threads[thread][i].Active?) ==>
                  ((exists hops :: Follow(s, thread, Reached(s, thread), live, hops) == Router) <==> live == Router))
  {
    var s := After(Idle(Router, threads), actions);
    ActiveIsReached(Router, threads, actions, thread);
    ActiveIsInnermost(s.threads[thread]);
    if ActiveOf(s.threads[thread]).Some? {
      if live == Router {
        RouterEnds(s, thread, live, 0);
        assert Follow(s, thread, Reached(s, thread), live, 1) == Router;
      } else {
        forall hops: nat ensures Follow(s, thread, Reached(s, thread), live, hops) != Router {
          DispatcherCycles(s, thread, hops);
        }
      }
    }
  }
}
