/**
 A collection interrupted and resumed against the same collection left alone: the walk of one run
 as a plain recursion over its candidates, and the journal any history leaves.
 */
module Resumption {
  import opened Strata
  import opened Funnel

  /** What measuring a candidate shows. */
  type Measure = (Base, nat) -> Verdict

  // ---- The uninterrupted walk ----------------------------------------------------------------------

  function Judged(cfg: Config, m: Measure, base: Base, step: nat): Verdict {
    if step in cfg.repeated(base) then Rejected(RepeatedCall) else m(base, step)
  }

  predicate Open(cfg: Config, kept: set<Bucket>, bucket: Bucket) {
    |kept| < cfg.maxKept && bucket !in kept
  }

  /** The buckets kept in by the first `n` candidates of a walk nothing interrupts. */
  function KeptBy(cfg: Config, m: Measure, base: Base, n: nat): set<Bucket>
    requires n <= |cfg.orders(base)|
  {
    if n == 0 then {}
    else KeptThen(cfg, m, base, KeptBy(cfg, m, base, n - 1), cfg.orders(base)[n - 1])
  }

  function KeptThen(cfg: Config, m: Measure, base: Base, kept: set<Bucket>, attempt: Attempt): set<Bucket> {
    if Open(cfg, kept, attempt.bucket) && Judged(cfg, m, base, attempt.step).Kept? then kept + {attempt.bucket} else kept
  }

  /** Whether that walk takes up its candidate `i`. */
  predicate Tries(cfg: Config, m: Measure, base: Base, i: nat)
    requires i < |cfg.orders(base)|
  {
    Open(cfg, KeptBy(cfg, m, base, i), cfg.orders(base)[i].bucket)
  }

  lemma {:induction false} KeptGrows(cfg: Config, m: Measure, base: Base, i: nat, n: nat)
    requires i <= n <= |cfg.orders(base)|
    ensures |KeptBy(cfg, m, base, i)| <= |KeptBy(cfg, m, base, n)|
  {
    if i < n {
      KeptGrows(cfg, m, base, i, n - 1);
      KeptThenGrows(cfg, m, base, KeptBy(cfg, m, base, n - 1), cfg.orders(base)[n - 1]);
    }
  }

  lemma KeptThenGrows(cfg: Config, m: Measure, base: Base, kept: set<Bucket>, attempt: Attempt)
    ensures |kept| <= |KeptThen(cfg, m, base, kept, attempt)|
  {
  }

  // ---- Histories with the same measurements --------------------------------------------------------

  /** A visit that measures shows what `m` says. */
  predicate Shows(cfg: Config, m: Measure, s: State, a: Action) {
    a.Visit? && a.base in s.walks && s.walks[a.base].next < |cfg.orders(a.base)| ==>
      a.found == m(a.base, cfg.orders(a.base)[s.walks[a.base].next].step)
  }

  predicate Showing(cfg: Config, m: Measure, s: State, actions: seq<Action>)
    decreases actions
  {
    actions != [] ==> Shows(cfg, m, s, actions[0]) && Showing(cfg, m, Next(cfg, s, actions[0]), actions[1..])
  }

  ghost predicate JournalJudges(cfg: Config, m: Measure, s: State) {
    forall base, step | (base, step) in s.journal :: s.journal[(base, step)] == Judged(cfg, m, base, step)
  }

  lemma StepJudges(cfg: Config, m: Measure, s: State, a: Action)
    requires OwnRepeats(cfg, s) && JournalJudges(cfg, m, s) && Shows(cfg, m, s, a)
    ensures JournalJudges(cfg, m, Next(cfg, s, a))
  {
  }

  // ---- They leave the same journal -----------------------------------------------------------------

  /** Where everything eligible is journalled, the journal keeps what the uninterrupted walk keeps. */
  lemma {:induction false} SameKept(cfg: Config, m: Measure, s: State, base: Base, n: nat)
    requires n <= |cfg.orders(base)| && JournalJudges(cfg, m, s) && Ordered(cfg, s, base) && PassedTo(cfg, s, base, n)
    ensures KeptBefore(cfg, s, base, n) == KeptBy(cfg, m, base, n)
  {
    if n > 0 {
      var i := n - 1;
      LastPassed(cfg, s, base, i);
      SameKept(cfg, m, s, base, i);
      SameNext(cfg, m, s, base, i);
    }
  }

  lemma LastPassed(cfg: Config, s: State, base: Base, i: nat)
    requires i < |cfg.orders(base)| && PassedTo(cfg, s, base, i + 1)
    ensures PassedTo(cfg, s, base, i) && (Eligible(cfg, s, base, i) ==> Journalled(cfg, s, base, i))
  {
  }

  lemma SameNext(cfg: Config, m: Measure, s: State, base: Base, i: nat)
    requires i < |cfg.orders(base)| && JournalJudges(cfg, m, s) && Ordered(cfg, s, base)
    requires Eligible(cfg, s, base, i) ==> Journalled(cfg, s, base, i)
    ensures KeptBefore(cfg, s, base, i + 1) == KeptThen(cfg, m, base, KeptBefore(cfg, s, base, i), cfg.orders(base)[i])
  {
    assert OrderedAt(cfg, s, base, i);
    KeptNext(cfg, s, base, i);
  }

  lemma JournalledIsTried(cfg: Config, m: Measure, s: State, base: Base, j: nat)
    requires j < |cfg.orders(base)| && JournalJudges(cfg, m, s) && Ordered(cfg, s, base) && Journalled(cfg, s, base, j)
    ensures Tries(cfg, m, base, j)
  {
    assert OrderedAt(cfg, s, base, j);
    SameKept(cfg, m, s, base, j);
  }

  lemma TriedIsJournalled(cfg: Config, m: Measure, s: State, base: Base, i: nat, n: nat)
    requires i < n <= |cfg.orders(base)| && JournalJudges(cfg, m, s) && Ordered(cfg, s, base) && PassedTo(cfg, s, base, n)
    requires Tries(cfg, m, base, i)
    ensures Journalled(cfg, s, base, i)
  {
    assert PassedTo(cfg, s, base, i);
    SameKept(cfg, m, s, base, i);
    assert Eligible(cfg, s, base, i);
  }

  /** The walk is through: it has passed every candidate, or kept as many as it may. */
  predicate Through(cfg: Config, s: State, base: Base) {
    base in s.walks && !s.full && (s.walks[base].next == |cfg.orders(base)| || |s.walks[base].kept| >= cfg.maxKept)
  }

  lemma ThroughIsWhole(cfg: Config, m: Measure, s: State, base: Base, i: nat)
    requires i < |cfg.orders(base)| && JournalJudges(cfg, m, s) && Ordered(cfg, s, base) && WalkSound(cfg, s, base)
    requires Through(cfg, s, base) && Tries(cfg, m, base, i)
    ensures Journalled(cfg, s, base, i)
  {
    var n := s.walks[base].next;
    SameKept(cfg, m, s, base, n);
    if i < n {
      TriedIsJournalled(cfg, m, s, base, i, n);
    } else {
      KeptGrows(cfg, m, base, n, i);
      assert false;
    }
  }

  // ---- Over every history -------------------------------------------------------------------------

  /** What histories one at a time, with these measurements, lead through. */
  ghost predicate Reachable(cfg: Config, m: Measure, s: State) {
    Inv(cfg, s) && OwnRepeats(cfg, s) && JournalJudges(cfg, m, s)
  }

  /** A history that may come next, one run at a time and with the same measurements. */
  predicate MayFollow(cfg: Config, m: Measure, s: State, actions: seq<Action>) {
    OneAtATime(cfg, s, actions) && Showing(cfg, m, s, actions)
  }

  lemma {:induction false} StaysReachable(cfg: Config, m: Measure, s: State, actions: seq<Action>)
    requires ValidConfig(cfg) && Reachable(cfg, m, s) && MayFollow(cfg, m, s, actions)
    ensures Reachable(cfg, m, After(cfg, s, actions))
    decreases actions
  {
    if actions != [] {
      NextKeepsInv(cfg, s, actions[0]);
      StepJudges(cfg, m, s, actions[0]);
      OneAtATimeOwns(cfg, s, actions[0]);
      StaysReachable(cfg, m, Next(cfg, s, actions[0]), actions[1..]);
    }
  }

  lemma {:induction false} FollowTwice(cfg: Config, m: Measure, s: State, first: seq<Action>, second: seq<Action>)
    requires MayFollow(cfg, m, s, first) && MayFollow(cfg, m, After(cfg, s, first), second)
    ensures MayFollow(cfg, m, s, first + second) && After(cfg, s, first + second) == After(cfg, After(cfg, s, first), second)
    decreases first
  {
    if first == [] {
      assert first + second == second;
    } else {
      assert (first + second)[1..] == first[1..] + second;
      FollowTwice(cfg, m, Next(cfg, s, first[0]), first[1..], second);
    }
  }

  lemma FollowOne(cfg: Config, m: Measure, s: State, a: Action)
    requires (a.Begin? ==> s.walks.Keys <= {a.base}) && Shows(cfg, m, s, a)
    ensures MayFollow(cfg, m, s, [a]) && After(cfg, s, [a]) == Next(cfg, s, a)
  {
    assert [a][1..] == [];
  }

  lemma OneVisit(cfg: Config, m: Measure, s: State, base: Base) returns (a: Action)
    requires base in s.walks && s.walks[base].next < |cfg.orders(base)| && |s.walks[base].kept| < cfg.maxKept
    ensures !a.Begin? && Shows(cfg, m, s, a)
    ensures var t := Next(cfg, s, a);
            t.walks.Keys == s.walks.Keys && t.full == s.full && t.walks[base].next == s.walks[base].next + 1
  {
    a := Visit(base, m(base, cfg.orders(base)[s.walks[base].next].step));
  }

  /** Visit after visit, a walk gets through. */
  lemma {:induction false} WalkGetsThrough(cfg: Config, m: Measure, s: State, base: Base) returns (actions: seq<Action>)
    requires ValidConfig(cfg) && Reachable(cfg, m, s) && base in s.walks && !s.full
    ensures MayFollow(cfg, m, s, actions) && Through(cfg, After(cfg, s, actions), base)
    ensures After(cfg, s, actions).walks.Keys == s.walks.Keys
    decreases |cfg.orders(base)| - s.walks[base].next
  {
    assert WalkSound(cfg, s, base);
    actions := [];
    if !Through(cfg, s, base) {
      var a := OneVisit(cfg, m, s, base);
      FollowOne(cfg, m, s, a);
      StaysReachable(cfg, m, s, [a]);
      assert WalkSound(cfg, Next(cfg, s, a), base);
      var rest := WalkGetsThrough(cfg, m, Next(cfg, s, a), base);
      FollowTwice(cfg, m, s, [a], rest);
      actions := [a] + rest;
    }
  }

  /** A run's candidates are journalled as the uninterrupted walk would have them. */
  ghost predicate Whole(cfg: Config, m: Measure, s: State, base: Base) {
    forall i | 0 <= i < |cfg.orders(base)| :: Journalled(cfg, s, base, i) <==> Tries(cfg, m, base, i)
  }

  lemma ThroughMakesWhole(cfg: Config, m: Measure, s: State, base: Base)
    requires Reachable(cfg, m, s) && Through(cfg, s, base)
    ensures Whole(cfg, m, s, base)
  {
    assert Ordered(cfg, s, base) && WalkSound(cfg, s, base);
    forall i | 0 <= i < |cfg.orders(base)| ensures Journalled(cfg, s, base, i) <==> Tries(cfg, m, base, i) {
      if Journalled(cfg, s, base, i) { JournalledIsTried(cfg, m, s, base, i); }
      if Tries(cfg, m, base, i) { ThroughIsWhole(cfg, m, s, base, i); }
    }
  }

  lemma WholeStaysWhole(cfg: Config, m: Measure, s: State, actions: seq<Action>, base: Base)
    requires Whole(cfg, m, s, base) && Reachable(cfg, m, After(cfg, s, actions))
    ensures Whole(cfg, m, After(cfg, s, actions), base)
  {
    var t := After(cfg, s, actions);
    assert Ordered(cfg, t, base);
    forall i | 0 <= i < |cfg.orders(base)| ensures Journalled(cfg, t, base, i) <==> Tries(cfg, m, base, i) {
      if Journalled(cfg, s, base, i) { VerdictsAreFinal(cfg, s, actions, (base, cfg.orders(base)[i].step)); }
      if Journalled(cfg, t, base, i) { JournalledIsTried(cfg, m, t, base, i); }
    }
  }

  /**
   Runs worked one at a time and measurements that come out alike: whatever crashed and was resumed,
   a run's journal is the beginning of the uninterrupted walk's, verdict for verdict, and all of it
   once a walk is through.
   */
  lemma CrashesChangeNothing(cfg: Config, m: Measure, actions: seq<Action>, base: Base)
    requires ValidConfig(cfg) && MayFollow(cfg, m, Empty, actions)
    ensures var s, order := After(cfg, Empty, actions), cfg.orders(base);
            && (forall j | 0 <= j < |order| && Journalled(cfg, s, base, j) ::
                  && Tries(cfg, m, base, j)
                  && s.journal[(base, order[j].step)] == Judged(cfg, m, base, order[j].step)
                  && forall i | 0 <= i < j && Tries(cfg, m, base, i) :: Journalled(cfg, s, base, i))
            && (Through(cfg, s, base) ==> Whole(cfg, m, s, base))
  {
    var s, order := After(cfg, Empty, actions), cfg.orders(base);
    EmptyIsSound(cfg);
    StaysReachable(cfg, m, Empty, actions);
    assert Ordered(cfg, s, base) && WalkSound(cfg, s, base);
    forall j | 0 <= j < |order| && Journalled(cfg, s, base, j)
      ensures Tries(cfg, m, base, j) && forall i | 0 <= i < j && Tries(cfg, m, base, i) :: Journalled(cfg, s, base, i)
    {
      JournalledIsTried(cfg, m, s, base, j);
      assert OrderedAt(cfg, s, base, j);
      forall i | 0 <= i < j && Tries(cfg, m, base, i) ensures Journalled(cfg, s, base, i) {
        TriedIsJournalled(cfg, m, s, base, i, j);
      }
    }
    if Through(cfg, s, base) { ThroughMakesWhole(cfg, m, s, base); }
  }

  predicate AtRest(s: State) { s.walks == map[] && !s.full }

  /** One run worked from its beginning to its end, wherever its journal stood. */
  lemma OneRun(cfg: Config, m: Measure, s: State, base: Base) returns (actions: seq<Action>)
    requires ValidConfig(cfg) && Reachable(cfg, m, s) && AtRest(s) && base in cfg.bases
    ensures MayFollow(cfg, m, s, actions)
    ensures AtRest(After(cfg, s, actions)) && Whole(cfg, m, After(cfg, s, actions), base)
  {
    FollowOne(cfg, m, s, Begin(base));
    StaysReachable(cfg, m, s, [Begin(base)]);
    var begun := Next(cfg, s, Begin(base));
    var visits := WalkGetsThrough(cfg, m, begun, base);
    StaysReachable(cfg, m, begun, visits);
    var through := After(cfg, begun, visits);
    ThroughMakesWhole(cfg, m, through, base);
    FollowOne(cfg, m, through, End(base));
    StaysReachable(cfg, m, through, [End(base)]);
    WholeStaysWhole(cfg, m, through, [End(base)], base);
    FollowTwice(cfg, m, begun, visits, [End(base)]);
    FollowTwice(cfg, m, s, [Begin(base)], visits + [End(base)]);
    actions := [Begin(base)] + (visits + [End(base)]);
    assert After(cfg, s, actions).walks.Keys == {};
  }

  lemma {:induction false} AllRuns(cfg: Config, m: Measure, s: State, bases: seq<Base>) returns (actions: seq<Action>)
    requires ValidConfig(cfg) && Reachable(cfg, m, s) && AtRest(s) && forall base <- bases :: base in cfg.bases
    ensures MayFollow(cfg, m, s, actions) && AtRest(After(cfg, s, actions))
    ensures forall base <- bases :: Whole(cfg, m, After(cfg, s, actions), base)
  {
    actions := [];
    if bases != [] {
      var init, last := bases[..|bases| - 1], bases[|bases| - 1];
      var before := AllRuns(cfg, m, s, init);
      var t := After(cfg, s, before);
      StaysReachable(cfg, m, s, before);
      var more := OneRun(cfg, m, t, last);
      StaysReachable(cfg, m, t, more);
      FollowTwice(cfg, m, s, before, more);
      actions := before + more;
      forall base | base in bases ensures Whole(cfg, m, After(cfg, s, actions), base) {
        if base in init { WholeStaysWhole(cfg, m, t, more, base); }
      }
    }
  }

  /**
   Whatever has happened, the collection can be resumed to its end: every run's journal then holds
   the uninterrupted walk's candidates, and what was journalled before stays as it was.
   */
  lemma CanBeFinished(cfg: Config, m: Measure, actions: seq<Action>, bases: seq<Base>) returns (more: seq<Action>)
    requires ValidConfig(cfg) && MayFollow(cfg, m, Empty, actions) && forall base <- bases :: base in cfg.bases
    ensures MayFollow(cfg, m, Empty, actions + more)
    ensures forall base <- bases :: Whole(cfg, m, After(cfg, Empty, actions + more), base)
  {
    EmptyIsSound(cfg);
    StaysReachable(cfg, m, Empty, actions);
    var s := After(cfg, Empty, actions);
    FollowOne(cfg, m, s, Crash);
    StaysReachable(cfg, m, s, [Crash]);
    var rest := AllRuns(cfg, m, Next(cfg, s, Crash), bases);
    FollowTwice(cfg, m, s, [Crash], rest);
    FollowTwice(cfg, m, Empty, actions, [Crash] + rest);
    more := [Crash] + rest;
  }
}
