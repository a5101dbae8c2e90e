/**
 The collection funnel: any number of runs worked through at once, over a journal that survives
 crashes. A candidate's verdict is journalled once and read back ever after.
 */
module Funnel {
  import opened Strata

  type Base = nat

  datatype Verdict = Kept | Rejected(reason: Reason)
  datatype Reason = RepeatedCall | Unplantable | Infrastructure | NotFlipped

  /**
   What one configuration fixes: the base runs whose candidates are worked through, the order each
   one's are tried in, which of its steps repeat an earlier call, and how many may be kept.
   */
  datatype Config = Config(bases: set<Base>, orders: Base -> seq<Attempt>, repeated: Base -> set<nat>, maxKept: nat)

  /** One base run being worked through: the next candidate, and the buckets it has kept in. */
  datatype Walk = Walk(next: nat, kept: set<Bucket>)

  /**
   The journal outlives a crash; the rest does not. `full` is the target reached, and `repeated`
   the collector's one field for the repeated steps of the run it looked at last. `measured`
   lists every verdict ever reached.
   */
  datatype State = State(journal: map<(Base, nat), Verdict>, walks: map<Base, Walk>, repeated: set<nat>, full: bool,
                         measured: seq<(Base, nat)>)

  datatype Action =
    | Begin(base: Base)
    | Visit(base: Base, found: Verdict)
    | End(base: Base)
    | Fill
    | Crash

  const Empty := State(map[], map[], {}, false, [])

  /** Whether the walk may take up its next candidate. */
  predicate TakesUp(cfg: Config, s: State, base: Base)
    requires base in s.walks
  {
    var order, walk := cfg.orders(base), s.walks[base];
    walk.next < |order| && |walk.kept| < cfg.maxKept && order[walk.next].bucket !in walk.kept && !s.full
  }

  /** The verdict of a candidate not yet in the journal: a repeated call is refused unmeasured. */
  function VerdictOf(s: State, step: nat, found: Verdict): Verdict {
    if step in s.repeated then Rejected(RepeatedCall) else found
  }

  function Advanced(s: State, base: Base, kept: set<Bucket>): State
    requires base in s.walks
  {
    s.(walks := s.walks[base := Walk(s.walks[base].next + 1, kept)])
  }

  /** One atomic step. `found` is what measuring would show; a crash before the verdict is journalled is a `Crash`. */
  function Next(cfg: Config, s: State, a: Action): State {
    match a
    case Begin(base) =>
      if base !in cfg.bases || base in s.walks then s
      else s.(walks := s.walks[base := Walk(0, {})], repeated := cfg.repeated(base))
    case Visit(base, found) =>
      if base !in s.walks || s.walks[base].next >= |cfg.orders(base)| then s
      else
        var walk, attempt := s.walks[base], cfg.orders(base)[s.walks[base].next];
        if !TakesUp(cfg, s, base) then
          if |walk.kept| >= cfg.maxKept then s else Advanced(s, base, walk.kept)
        else
          var key := (base, attempt.step);
          var known := key in s.journal;
          var verdict := if known then s.journal[key] else VerdictOf(s, attempt.step, found);
          var after := if known then s
                       else s.(journal := s.journal[key := verdict], measured := s.measured + [key]);
          Advanced(after, base, walk.kept + if verdict.Kept? then {attempt.bucket} else {})
    case End(base) => s.(walks := s.walks - {base})
    case Fill => s.(full := true)
    case Crash => s.(walks := map[], repeated := {}, full := false)
  }

  function After(cfg: Config, s: State, actions: seq<Action>): State
    decreases actions
  {
    if actions == [] then s else After(cfg, Next(cfg, s, actions[0]), actions[1..])
  }

  // ---- What the journal says about one run -----------------------------------------------------

  predicate Journalled(cfg: Config, s: State, base: Base, i: nat)
    requires i < |cfg.orders(base)|
  {
    (base, cfg.orders(base)[i].step) in s.journal
  }

  predicate KeptAt(cfg: Config, s: State, base: Base, i: nat)
    requires i < |cfg.orders(base)|
  {
    Journalled(cfg, s, base, i) && s.journal[(base, cfg.orders(base)[i].step)].Kept?
  }

  /** The buckets kept in by the first `n` candidates, going by the journal. */
  function KeptBefore(cfg: Config, s: State, base: Base, n: nat): set<Bucket>
    requires n <= |cfg.orders(base)|
  {
    if n == 0 then {}
    else KeptBefore(cfg, s, base, n - 1)
         + if KeptAt(cfg, s, base, n - 1) then {cfg.orders(base)[n - 1].bucket} else {}
  }

  /** A candidate the walk would take up, had it come this far. */
  predicate Eligible(cfg: Config, s: State, base: Base, i: nat)
    requires i < |cfg.orders(base)|
  {
    |KeptBefore(cfg, s, base, i)| < cfg.maxKept && cfg.orders(base)[i].bucket !in KeptBefore(cfg, s, base, i)
  }

  /** A journalled candidate was eligible, and nothing eligible before it was left out. */
  ghost predicate OrderedAt(cfg: Config, s: State, base: Base, j: nat)
    requires j < |cfg.orders(base)|
  {
    Journalled(cfg, s, base, j) ==> Eligible(cfg, s, base, j) && PassedTo(cfg, s, base, j)
  }

  /** Every eligible candidate before `j` is journalled. */
  ghost predicate PassedTo(cfg: Config, s: State, base: Base, j: nat)
    requires j <= |cfg.orders(base)|
  {
    forall i | 0 <= i < j :: Eligible(cfg, s, base, i) ==> Journalled(cfg, s, base, i)
  }

  ghost predicate Ordered(cfg: Config, s: State, base: Base) {
    forall j | 0 <= j < |cfg.orders(base)| :: OrderedAt(cfg, s, base, j)
  }

  /** A walk has journalled every eligible candidate it passed, and remembers what was kept. */
  ghost predicate WalkSound(cfg: Config, s: State, base: Base) {
    base in s.walks ==>
      var walk := s.walks[base];
      walk.next <= |cfg.orders(base)|
      && (!s.full ==>
            walk.kept == KeptBefore(cfg, s, base, walk.next) && PassedTo(cfg, s, base, walk.next))
  }

  ghost predicate MeasuredOnce(s: State) {
    && (forall i | 0 <= i < |s.measured| :: s.measured[i] in s.journal)
    && forall i, j | 0 <= i < j < |s.measured| :: s.measured[i] != s.measured[j]
  }

  ghost predicate Inv(cfg: Config, s: State) {
    MeasuredOnce(s) && forall base :: Ordered(cfg, s, base) && WalkSound(cfg, s, base)
  }

  ghost predicate ValidConfig(cfg: Config) {
    forall base :: NoStepTwice(cfg.orders(base))
  }

  /** The collector's own orders, flowing candidates first among the rounds over the buckets, name each step once. */
  lemma CollectorOrdersAreValid(cfg: Config, lists: Base -> Shortlists, flows: Base -> nat -> bool, attempts: nat)
    requires forall base :: DistinctSteps(lists(base))
                            && cfg.orders(base) == FlowingFirst(flows(base), Rounds(lists(base), attempts))
    ensures ValidConfig(cfg)
  {
    forall base ensures NoStepTwice(cfg.orders(base)) {
      RoundsNameEachStepOnce(lists(base), attempts);
      FlowingFirstNamesEachStepOnce(flows(base), Rounds(lists(base), attempts));
    }
  }

  /** Two journals agree on the first `n` candidates of a run. */
  ghost predicate AgreeTo(cfg: Config, s: State, s': State, base: Base, n: nat)
    requires n <= |cfg.orders(base)|
  {
    forall i | 0 <= i < n :: AgreeAt(cfg, s, s', base, i)
  }

  predicate AgreeAt(cfg: Config, s: State, s': State, base: Base, i: nat)
    requires i < |cfg.orders(base)|
  {
    Journalled(cfg, s', base, i) == Journalled(cfg, s, base, i) && KeptAt(cfg, s', base, i) == KeptAt(cfg, s, base, i)
  }

  lemma {:induction false} KeptBeforeKeeps(cfg: Config, s: State, s': State, base: Base, n: nat)
    requires n <= |cfg.orders(base)| && AgreeTo(cfg, s, s', base, n)
    ensures KeptBefore(cfg, s', base, n) == KeptBefore(cfg, s, base, n)
  {
    if n > 0 {
      KeptBeforeKeeps(cfg, s, s', base, n - 1);
      assert AgreeAt(cfg, s, s', base, n - 1);
    }
  }

  lemma PassedKeeps(cfg: Config, s: State, s': State, base: Base, n: nat)
    requires n <= |cfg.orders(base)| && AgreeTo(cfg, s, s', base, n) && PassedTo(cfg, s, base, n)
    ensures PassedTo(cfg, s', base, n)
  {
    forall i | 0 <= i < n ensures Eligible(cfg, s', base, i) ==> Journalled(cfg, s', base, i) {
      KeptBeforeKeeps(cfg, s, s', base, i);
      assert AgreeAt(cfg, s, s', base, i);
    }
  }

  lemma OrderedKeeps(cfg: Config, s: State, s': State, base: Base, j: nat)
    requires j < |cfg.orders(base)| && AgreeTo(cfg, s, s', base, j + 1) && OrderedAt(cfg, s, base, j)
    ensures OrderedAt(cfg, s', base, j)
  {
    assert AgreeAt(cfg, s, s', base, j);
    if Journalled(cfg, s, base, j) {
      KeptBeforeKeeps(cfg, s, s', base, j);
      PassedKeeps(cfg, s, s', base, j);
    }
  }

  /** A run whose journal entries and walk are the same as before is as sound as before. */
  lemma UntouchedKeeps(cfg: Config, s: State, s': State, base: Base)
    requires Ordered(cfg, s, base) && WalkSound(cfg, s, base)
    requires AgreeTo(cfg, s, s', base, |cfg.orders(base)|)
    requires base in s'.walks ==> base in s.walks && s'.walks[base] == s.walks[base] && (s.full ==> s'.full)
    ensures Ordered(cfg, s', base) && WalkSound(cfg, s', base)
  {
    forall j | 0 <= j < |cfg.orders(base)| ensures OrderedAt(cfg, s', base, j) { OrderedKeeps(cfg, s, s', base, j); }
    if base in s'.walks && !s'.full {
      KeptBeforeKeeps(cfg, s, s', base, s.walks[base].next);
      PassedKeeps(cfg, s, s', base, s.walks[base].next);
    }
  }

  // ---- Every step keeps it -----------------------------------------------------------------------

  /** The journal with a new verdict for the candidate the walk is at. */
  ghost predicate Adds(cfg: Config, s: State, s': State, base: Base, verdict: Verdict) {
    && base in s.walks && s.walks[base].next < |cfg.orders(base)|
    && TakesUp(cfg, s, base)
    && var key := (base, cfg.orders(base)[s.walks[base].next].step);
       key !in s.journal && s'.journal == s.journal[key := verdict] && s'.full == s.full
  }

  lemma AddsElsewhereAgrees(cfg: Config, s: State, s': State, base: Base, verdict: Verdict, other: Base)
    requires Adds(cfg, s, s', base, verdict) && other != base
    ensures AgreeTo(cfg, s, s', other, |cfg.orders(other)|)
  {
  }

  lemma AddsBeforeAgrees(cfg: Config, s: State, s': State, base: Base, verdict: Verdict)
    requires ValidConfig(cfg) && Adds(cfg, s, s', base, verdict)
    ensures AgreeTo(cfg, s, s', base, s.walks[base].next)
    ensures forall i | s.walks[base].next < i < |cfg.orders(base)| :: AgreeAt(cfg, s, s', base, i)
  {
    assert NoStepTwice(cfg.orders(base));
  }

  /** What is taken up is eligible, and nothing after it is journalled yet. */
  lemma TakenUpIsEligible(cfg: Config, s: State, base: Base)
    requires base in s.walks && s.walks[base].next < |cfg.orders(base)| && TakesUp(cfg, s, base)
    requires Ordered(cfg, s, base) && WalkSound(cfg, s, base)
    ensures Eligible(cfg, s, base, s.walks[base].next) && PassedTo(cfg, s, base, s.walks[base].next)
    ensures !Journalled(cfg, s, base, s.walks[base].next) ==>
              forall j | s.walks[base].next < j < |cfg.orders(base)| :: !Journalled(cfg, s, base, j)
  {
    forall j | s.walks[base].next < j < |cfg.orders(base)| && Journalled(cfg, s, base, j)
      ensures Journalled(cfg, s, base, s.walks[base].next)
    {
      assert OrderedAt(cfg, s, base, j);
    }
  }

  lemma KeptNext(cfg: Config, s: State, base: Base, p: nat)
    requires p < |cfg.orders(base)|
    ensures KeptBefore(cfg, s, base, p + 1)
            == KeptBefore(cfg, s, base, p) + if KeptAt(cfg, s, base, p) then {cfg.orders(base)[p].bucket} else {}
  {
  }

  lemma PassedNext(cfg: Config, s: State, base: Base, p: nat)
    requires p < |cfg.orders(base)| && PassedTo(cfg, s, base, p)
    requires Eligible(cfg, s, base, p) ==> Journalled(cfg, s, base, p)
    ensures PassedTo(cfg, s, base, p + 1)
  {
  }

  lemma AddingKeepsOrder(cfg: Config, s: State, s': State, base: Base, verdict: Verdict)
    requires ValidConfig(cfg) && Adds(cfg, s, s', base, verdict)
    requires Ordered(cfg, s, base) && WalkSound(cfg, s, base)
    ensures Ordered(cfg, s', base)
  {
    var p := s.walks[base].next;
    AddsBeforeAgrees(cfg, s, s', base, verdict);
    TakenUpIsEligible(cfg, s, base);
    LastAddedKeepsOrder(cfg, s, s', base, p);
  }

  /** The last journalled candidate of a run is a new one. */
  lemma LastAddedKeepsOrder(cfg: Config, s: State, s': State, base: Base, p: nat)
    requires p < |cfg.orders(base)| && Ordered(cfg, s, base)
    requires AgreeTo(cfg, s, s', base, p) && forall i | p < i < |cfg.orders(base)| :: AgreeAt(cfg, s, s', base, i)
    requires Eligible(cfg, s, base, p) && PassedTo(cfg, s, base, p)
    requires forall j | p < j < |cfg.orders(base)| :: !Journalled(cfg, s, base, j)
    ensures Ordered(cfg, s', base)
  {
    AddedIsOrdered(cfg, s, s', base, p);
    forall j | 0 <= j < |cfg.orders(base)| ensures OrderedAt(cfg, s', base, j) {
      if j < p {
        EarlierStaysOrdered(cfg, s, s', base, p, j);
      } else if j > p {
        LaterStaysOrdered(cfg, s, s', base, j);
      }
    }
  }

  lemma EarlierStaysOrdered(cfg: Config, s: State, s': State, base: Base, p: nat, j: nat)
    requires j < p <= |cfg.orders(base)| && AgreeTo(cfg, s, s', base, p) && Ordered(cfg, s, base)
    ensures OrderedAt(cfg, s', base, j)
  {
    assert AgreeTo(cfg, s, s', base, j + 1);
    assert OrderedAt(cfg, s, base, j);
    OrderedKeeps(cfg, s, s', base, j);
  }

  lemma LaterStaysOrdered(cfg: Config, s: State, s': State, base: Base, j: nat)
    requires j < |cfg.orders(base)| && AgreeAt(cfg, s, s', base, j) && !Journalled(cfg, s, base, j)
    ensures OrderedAt(cfg, s', base, j)
  {
  }

  lemma AddedIsOrdered(cfg: Config, s: State, s': State, base: Base, p: nat)
    requires p < |cfg.orders(base)| && AgreeTo(cfg, s, s', base, p)
    requires Eligible(cfg, s, base, p) && PassedTo(cfg, s, base, p)
    ensures OrderedAt(cfg, s', base, p)
  {
    KeptBeforeKeeps(cfg, s, s', base, p);
    PassedKeeps(cfg, s, s', base, p);
  }

  lemma AddingKeepsWalk(cfg: Config, s: State, s': State, base: Base, verdict: Verdict)
    requires ValidConfig(cfg) && Adds(cfg, s, s', base, verdict)
    requires Ordered(cfg, s, base) && WalkSound(cfg, s, base)
    ensures var p := s.walks[base].next;
            && PassedTo(cfg, s', base, p + 1)
            && KeptBefore(cfg, s', base, p + 1)
               == s.walks[base].kept + if verdict.Kept? then {cfg.orders(base)[p].bucket} else {}
  {
    var p := s.walks[base].next;
    AddsBeforeAgrees(cfg, s, s', base, verdict);
    KeptBeforeKeeps(cfg, s, s', base, p);
    PassedKeeps(cfg, s, s', base, p);
    PassedNext(cfg, s', base, p);
    KeptNext(cfg, s', base, p);
  }

  /** Passing a candidate that is journalled already, or not eligible, only moves on. */
  lemma PassingKeepsWalk(cfg: Config, s: State, base: Base)
    requires base in s.walks && s.walks[base].next < |cfg.orders(base)| && !s.full
    requires Ordered(cfg, s, base) && WalkSound(cfg, s, base)
    requires TakesUp(cfg, s, base) ==> Journalled(cfg, s, base, s.walks[base].next)
    requires !TakesUp(cfg, s, base) ==> |s.walks[base].kept| < cfg.maxKept
    ensures var p := s.walks[base].next;
            && PassedTo(cfg, s, base, p + 1)
            && KeptBefore(cfg, s, base, p + 1)
               == s.walks[base].kept
                  + if TakesUp(cfg, s, base) && KeptAt(cfg, s, base, p) then {cfg.orders(base)[p].bucket} else {}
  {
    var p := s.walks[base].next;
    assert OrderedAt(cfg, s, base, p);
    PassedNext(cfg, s, base, p);
    KeptNext(cfg, s, base, p);
  }

  lemma MeasuringKeepsInv(cfg: Config, s: State, base: Base, found: Verdict)
    requires ValidConfig(cfg) && Inv(cfg, s)
    requires base in s.walks && s.walks[base].next < |cfg.orders(base)| && TakesUp(cfg, s, base)
    requires (base, cfg.orders(base)[s.walks[base].next].step) !in s.journal
    ensures Inv(cfg, Next(cfg, s, Visit(base, found)))
  {
    var s' := Next(cfg, s, Visit(base, found));
    var verdict := VerdictOf(s, cfg.orders(base)[s.walks[base].next].step, found);
    assert Adds(cfg, s, s', base, verdict);
    assert Ordered(cfg, s, base) && WalkSound(cfg, s, base);
    AddingKeepsOrder(cfg, s, s', base, verdict);
    AddingKeepsWalk(cfg, s, s', base, verdict);
    forall other | other != base ensures Ordered(cfg, s', other) && WalkSound(cfg, s', other) {
      assert Ordered(cfg, s, other) && WalkSound(cfg, s, other);
      AddsElsewhereAgrees(cfg, s, s', base, verdict, other);
      UntouchedKeeps(cfg, s, s', other);
    }
    MeasuredGrows(s, s', (base, cfg.orders(base)[s.walks[base].next].step), verdict);
  }

  lemma MeasuredGrows(s: State, s': State, key: (Base, nat), verdict: Verdict)
    requires MeasuredOnce(s) && key !in s.journal
    requires s'.journal == s.journal[key := verdict] && s'.measured == s.measured + [key]
    ensures MeasuredOnce(s')
  {
  }

  lemma VisitKeepsInv(cfg: Config, s: State, base: Base, found: Verdict)
    requires ValidConfig(cfg) && Inv(cfg, s)
    ensures Inv(cfg, Next(cfg, s, Visit(base, found)))
  {
    var s' := Next(cfg, s, Visit(base, found));
    if base in s.walks && s.walks[base].next < |cfg.orders(base)| && s' != s {
      if TakesUp(cfg, s, base) && (base, cfg.orders(base)[s.walks[base].next].step) !in s.journal {
        MeasuringKeepsInv(cfg, s, base, found);
      } else {
        MovingOnKeepsInv(cfg, s, base, found);
      }
    }
  }

  /** The walk moves past a candidate without measuring it. */
  lemma MovingOnKeepsInv(cfg: Config, s: State, base: Base, found: Verdict)
    requires ValidConfig(cfg) && Inv(cfg, s) && Next(cfg, s, Visit(base, found)) != s
    requires base in s.walks && s.walks[base].next < |cfg.orders(base)|
    requires TakesUp(cfg, s, base) ==> (base, cfg.orders(base)[s.walks[base].next].step) in s.journal
    ensures Inv(cfg, Next(cfg, s, Visit(base, found)))
  {
    assert Ordered(cfg, s, base) && WalkSound(cfg, s, base);
    var kept := MovesOn(cfg, s, base, found);
    if !s.full { PassingKeepsWalk(cfg, s, base); }
    AdvancingKeepsInv(cfg, s, base, kept);
  }

  lemma AdvancingKeepsInv(cfg: Config, s: State, base: Base, kept: set<Bucket>)
    requires Inv(cfg, s) && base in s.walks && s.walks[base].next < |cfg.orders(base)|
    requires var p := s.walks[base].next + 1;
             !s.full ==> PassedTo(cfg, s, base, p) && kept == KeptBefore(cfg, s, base, p)
    ensures Inv(cfg, Advanced(s, base, kept))
  {
    OthersKept(s.walks, base, Walk(s.walks[base].next + 1, kept));
    PassingKeepsInv(cfg, s, Advanced(s, base, kept), base);
  }

  /** What such a move changes: where the walk is, and the bucket of a candidate journalled as kept. */
  lemma MovesOn(cfg: Config, s: State, base: Base, found: Verdict) returns (kept: set<Bucket>)
    requires Next(cfg, s, Visit(base, found)) != s
    requires base in s.walks && s.walks[base].next < |cfg.orders(base)|
    requires TakesUp(cfg, s, base) ==> (base, cfg.orders(base)[s.walks[base].next].step) in s.journal
    ensures Next(cfg, s, Visit(base, found)) == Advanced(s, base, kept)
    ensures kept == s.walks[base].kept
                    + if TakesUp(cfg, s, base) && KeptAt(cfg, s, base, s.walks[base].next)
                      then {cfg.orders(base)[s.walks[base].next].bucket} else {}
    ensures !TakesUp(cfg, s, base) ==> |s.walks[base].kept| < cfg.maxKept
  {
    kept := Next(cfg, s, Visit(base, found)).walks[base].kept;
  }

  lemma OthersKept(walks: map<Base, Walk>, base: Base, walk: Walk)
    ensures walks[base := walk] - {base} == walks - {base}
  {
  }

  lemma PassingKeepsInv(cfg: Config, s: State, s': State, base: Base)
    requires Inv(cfg, s) && s'.journal == s.journal && s'.measured == s.measured && s'.full == s.full
    requires base in s.walks && base in s'.walks && s'.walks - {base} == s.walks - {base}
    requires s'.walks[base].next <= |cfg.orders(base)|
    requires !s.full ==> PassedTo(cfg, s, base, s'.walks[base].next)
                         && s'.walks[base].kept == KeptBefore(cfg, s, base, s'.walks[base].next)
    ensures Inv(cfg, s')
  {
    forall other ensures Ordered(cfg, s', other) && WalkSound(cfg, s', other) {
      assert Ordered(cfg, s, other) && WalkSound(cfg, s, other);
      SameJournal(cfg, s, s', other);
      if other != base {
        assert other in s'.walks <==> other in s'.walks - {base};
        assert other in s.walks <==> other in s.walks - {base};
        if other in s.walks {
          assert s'.walks[other] == (s'.walks - {base})[other] == (s.walks - {base})[other] == s.walks[other];
        }
        UntouchedKeeps(cfg, s, s', other);
      } else {
        forall j | 0 <= j < |cfg.orders(base)| ensures OrderedAt(cfg, s', base, j) { OrderedKeeps(cfg, s, s', base, j); }
        if !s.full {
          KeptBeforeKeeps(cfg, s, s', base, s'.walks[base].next);
          PassedKeeps(cfg, s, s', base, s'.walks[base].next);
        }
      }
    }
  }

  lemma SameJournal(cfg: Config, s: State, s': State, base: Base)
    requires s'.journal == s.journal
    ensures AgreeTo(cfg, s, s', base, |cfg.orders(base)|)
  {
  }

  lemma NextKeepsInv(cfg: Config, s: State, a: Action)
    requires ValidConfig(cfg) && Inv(cfg, s)
    ensures Inv(cfg, Next(cfg, s, a))
  {
    var s' := Next(cfg, s, a);
    if a.Visit? {
      VisitKeepsInv(cfg, s, a.base, a.found);
    } else {
      forall other ensures Ordered(cfg, s', other) && WalkSound(cfg, s', other) {
        assert Ordered(cfg, s, other) && WalkSound(cfg, s, other);
        SameJournal(cfg, s, s', other);
        if a.Begin? && a.base == other && other !in s.walks {
          UntouchedKeeps(cfg, s, s'.(walks := s'.walks - {other}), other);
          SameJournal(cfg, s'.(walks := s'.walks - {other}), s', other);
          forall j | 0 <= j < |cfg.orders(other)| ensures OrderedAt(cfg, s', other, j) {
            OrderedKeeps(cfg, s, s', other, j);
          }
        } else {
          UntouchedKeeps(cfg, s, s', other);
        }
      }
    }
  }

  lemma {:induction false} RunsKeepInv(cfg: Config, s: State, actions: seq<Action>)
    requires ValidConfig(cfg) && Inv(cfg, s)
    ensures Inv(cfg, After(cfg, s, actions))
    decreases actions
  {
    if actions != [] {
      NextKeepsInv(cfg, s, actions[0]);
      RunsKeepInv(cfg, Next(cfg, s, actions[0]), actions[1..]);
    }
  }

  // ---- What that means over every history --------------------------------------------------------

  /** A verdict, once journalled, is never measured again and never changes: crashes and resumes included. */
  lemma {:induction false} VerdictsAreFinal(cfg: Config, s: State, actions: seq<Action>, key: (Base, nat))
    requires key in s.journal
    ensures key in After(cfg, s, actions).journal && After(cfg, s, actions).journal[key] == s.journal[key]
    decreases actions
  {
    if actions != [] { VerdictsAreFinal(cfg, Next(cfg, s, actions[0]), actions[1..], key); }
  }

  /** Once the target is reached nothing more is journalled, by any run, until the collection is started again. */
  lemma {:induction false} FilledMeasuresNothing(cfg: Config, s: State, actions: seq<Action>)
    requires Crash !in actions
    ensures After(cfg, s, [Fill] + actions).journal == s.journal
  {
    assert ([Fill] + actions)[1..] == actions;
    FullMeasuresNothing(cfg, Next(cfg, s, Fill), actions);
  }

  lemma {:induction false} FullMeasuresNothing(cfg: Config, s: State, actions: seq<Action>)
    requires s.full && Crash !in actions
    ensures After(cfg, s, actions).journal == s.journal
    decreases actions
  {
    if actions != [] { FullMeasuresNothing(cfg, Next(cfg, s, actions[0]), actions[1..]); }
  }

  lemma EmptyIsSound(cfg: Config)
    ensures Inv(cfg, Empty)
  {
    forall base ensures Ordered(cfg, Empty, base) && WalkSound(cfg, Empty, base) {
      forall j | 0 <= j < |cfg.orders(base)| ensures OrderedAt(cfg, Empty, base, j) {}
    }
  }

  /** No candidate is brought to a verdict twice. */
  lemma EachCandidateOnce(cfg: Config, actions: seq<Action>)
    requires ValidConfig(cfg)
    ensures MeasuredOnce(After(cfg, Empty, actions))
  {
    EmptyIsSound(cfg);
    RunsKeepInv(cfg, Empty, actions);
  }

  lemma {:induction false} KeptIn(cfg: Config, s: State, base: Base, i: nat, n: nat)
    requires i < n <= |cfg.orders(base)| && KeptAt(cfg, s, base, i)
    ensures cfg.orders(base)[i].bucket in KeptBefore(cfg, s, base, n)
  {
    if i < n - 1 { KeptIn(cfg, s, base, i, n - 1); }
  }

  /** How many of the first `n` candidates the journal keeps. */
  function KeptCount(cfg: Config, s: State, base: Base, n: nat): nat
    requires n <= |cfg.orders(base)|
  {
    if n == 0 then 0 else KeptCount(cfg, s, base, n - 1) + if KeptAt(cfg, s, base, n - 1) then 1 else 0
  }

  lemma {:induction false} KeptCounted(cfg: Config, s: State, base: Base, n: nat)
    requires Ordered(cfg, s, base) && n <= |cfg.orders(base)|
    ensures KeptCount(cfg, s, base, n) == |KeptBefore(cfg, s, base, n)| <= cfg.maxKept
  {
    if n > 0 {
      KeptCounted(cfg, s, base, n - 1);
      assert OrderedAt(cfg, s, base, n - 1);
    }
  }

  /**
   Over any crashes and resumes of one configuration, a run keeps at most one candidate in each
   position bucket, and at most `maxKept` in all.
   */
  lemma KeptPerRun(cfg: Config, actions: seq<Action>, base: Base, i: nat, j: nat)
    requires ValidConfig(cfg)
    ensures var s, order := After(cfg, Empty, actions), cfg.orders(base);
            && KeptCount(cfg, s, base, |order|) <= cfg.maxKept
            && (i < j < |order| && KeptAt(cfg, s, base, i) && KeptAt(cfg, s, base, j)
                ==> order[i].bucket != order[j].bucket)
  {
    EmptyIsSound(cfg);
    RunsKeepInv(cfg, Empty, actions);
    var s := After(cfg, Empty, actions);
    KeptCounted(cfg, s, base, |cfg.orders(base)|);
    if i < j < |cfg.orders(base)| && KeptAt(cfg, s, base, i) && KeptAt(cfg, s, base, j) {
      assert OrderedAt(cfg, s, base, j);
      KeptIn(cfg, s, base, i, j);
    }
  }

  // ---- The shared set of repeated steps ----------------------------------------------------------

  /** No repeated call was ever kept. */
  ghost predicate NoRepeatKept(cfg: Config, s: State) {
    forall base, step | (base, step) in s.journal && s.journal[(base, step)].Kept? :: step !in cfg.repeated(base)
  }

  /** Every run at work is the one the collector looked at last, or one that repeats the same steps. */
  ghost predicate OwnRepeats(cfg: Config, s: State) {
    forall base <- s.walks :: s.repeated == cfg.repeated(base)
  }

  lemma OwnRepeatsKeep(cfg: Config, s: State, a: Action)
    requires NoRepeatKept(cfg, s) && OwnRepeats(cfg, s)
    ensures NoRepeatKept(cfg, Next(cfg, s, a))
  {
  }

  /** A history in which a run begins only when no other is at work. */
  predicate OneAtATime(cfg: Config, s: State, actions: seq<Action>)
    decreases actions
  {
    actions != [] ==>
      (actions[0].Begin? ==> s.walks.Keys <= {actions[0].base})
      && OneAtATime(cfg, Next(cfg, s, actions[0]), actions[1..])
  }

  lemma {:induction false} SerialKeepsNoRepeats(cfg: Config, s: State, actions: seq<Action>)
    requires NoRepeatKept(cfg, s) && OwnRepeats(cfg, s) && OneAtATime(cfg, s, actions)
    ensures NoRepeatKept(cfg, After(cfg, s, actions))
    decreases actions
  {
    if actions != [] {
      OwnRepeatsKeep(cfg, s, actions[0]);
      OneAtATimeOwns(cfg, s, actions[0]);
      SerialKeepsNoRepeats(cfg, Next(cfg, s, actions[0]), actions[1..]);
    }
  }

  lemma OneAtATimeOwns(cfg: Config, s: State, a: Action)
    requires OwnRepeats(cfg, s) && (a.Begin? ==> s.walks.Keys <= {a.base})
    ensures OwnRepeats(cfg, Next(cfg, s, a))
  {
  }

  /** One run at a time, no repeated call is ever kept. */
  lemma OneAtATimeKeepsNoRepeats(cfg: Config, actions: seq<Action>)
    requires OneAtATime(cfg, Empty, actions)
    ensures NoRepeatKept(cfg, After(cfg, Empty, actions))
  {
    SerialKeepsNoRepeats(cfg, Empty, actions);
  }

  /** Every repeated step one of the collection's runs may try is a repeated step of all its other runs too. */
  predicate RepeatsShared(cfg: Config) {
    forall base <- cfg.bases, other <- cfg.bases, i | 0 <= i < |cfg.orders(base)| :: RepeatSharedAt(cfg, base, i, other)
  }

  predicate RepeatSharedAt(cfg: Config, base: Base, i: nat, other: Base)
    requires i < |cfg.orders(base)|
  {
    var step := cfg.orders(base)[i].step;
    step in cfg.repeated(base) ==> step in cfg.repeated(other)
  }

  /** While a run is at work the shared set is that of some run. */
  ghost predicate SomeonesRepeats(cfg: Config, s: State) {
    && s.walks.Keys <= cfg.bases
    && (s.walks.Keys != {} ==> exists other <- cfg.bases :: s.repeated == cfg.repeated(other))
  }

  /** Whatever is kept is not a repeated call. */
  ghost predicate KeptIsSound(cfg: Config, s: State) {
    SomeonesRepeats(cfg, s) && NoRepeatKept(cfg, s)
  }

  lemma SharedStepKeeps(cfg: Config, s: State, a: Action)
    requires RepeatsShared(cfg) && KeptIsSound(cfg, s)
    ensures KeptIsSound(cfg, Next(cfg, s, a))
  {
    var s' := Next(cfg, s, a);
    match a {
      case Begin(base) =>
        if base in cfg.bases && base !in s.walks { assert s'.repeated == cfg.repeated(base); }
      case Visit(base, found) =>
        if base in s.walks {
          assert base in s.walks.Keys;
          var other :| other in cfg.bases && s.repeated == cfg.repeated(other);
          if s.walks[base].next < |cfg.orders(base)| {
            assert RepeatSharedAt(cfg, base, s.walks[base].next, other);
          }
        }
      case End(base) =>
        if s'.walks.Keys != {} { assert s.walks.Keys != {}; }
      case _ =>
    }
  }

  lemma {:induction false} SharedRunsKeep(cfg: Config, s: State, actions: seq<Action>)
    requires RepeatsShared(cfg) && KeptIsSound(cfg, s)
    ensures KeptIsSound(cfg, After(cfg, s, actions))
    decreases actions
  {
    if actions != [] {
      SharedStepKeeps(cfg, s, actions[0]);
      SharedRunsKeep(cfg, Next(cfg, s, actions[0]), actions[1..]);
    }
  }

  /** Rejecting the first candidates of a run, one after another. */
  function Rejections(base: Base, n: nat): seq<Action> {
    if n == 0 then [] else Rejections(base, n - 1) + [Visit(base, Rejected(NotFlipped))]
  }

  lemma {:induction false} AfterBoth(cfg: Config, s: State, first: seq<Action>, second: seq<Action>)
    ensures After(cfg, s, first + second) == After(cfg, After(cfg, s, first), second)
    decreases first
  {
    if first == [] {
      assert first + second == second;
    } else {
      assert (first + second)[1..] == first[1..] + second;
      AfterBoth(cfg, Next(cfg, s, first[0]), first[1..], second);
    }
  }

  lemma AfterOne(cfg: Config, s: State, a: Action)
    ensures After(cfg, s, [a]) == Next(cfg, s, a)
  {
    assert [a][1..] == [];
  }

  /** Every step of the first `n` candidates, and no other, has a rejection; the walk stands at `n` with nothing kept. */
  ghost predicate AllRejected(cfg: Config, s: State, base: Base, n: nat, repeated: set<nat>)
    requires n <= |cfg.orders(base)|
  {
    && base in s.walks && s.walks[base] == Walk(n, {}) && !s.full && s.repeated == repeated
    && forall key <- s.journal :: s.journal[key].Rejected? && exists i | 0 <= i < n :: key == (base, cfg.orders(base)[i].step)
  }

  lemma {:induction false} RejectionsReject(cfg: Config, s: State, base: Base, n: nat, repeated: set<nat>)
    requires n <= |cfg.orders(base)| && cfg.maxKept > 0 && AllRejected(cfg, s, base, 0, repeated)
    ensures AllRejected(cfg, After(cfg, s, Rejections(base, n)), base, n, repeated)
  {
    if n > 0 {
      RejectionsReject(cfg, s, base, n - 1, repeated);
      var before := After(cfg, s, Rejections(base, n - 1));
      AfterBoth(cfg, s, Rejections(base, n - 1), [Visit(base, Rejected(NotFlipped))]);
      AfterOne(cfg, before, Visit(base, Rejected(NotFlipped)));
      RejectedNext(cfg, before, base, n - 1, repeated);
    }
  }

  lemma RejectedNext(cfg: Config, s: State, base: Base, n: nat, repeated: set<nat>)
    requires n < |cfg.orders(base)| && cfg.maxKept > 0 && AllRejected(cfg, s, base, n, repeated)
    ensures AllRejected(cfg, Next(cfg, s, Visit(base, Rejected(NotFlipped))), base, n + 1, repeated)
  {
    var s' := Next(cfg, s, Visit(base, Rejected(NotFlipped)));
    forall key | key in s'.journal
      ensures s'.journal[key].Rejected? && exists i | 0 <= i < n + 1 :: key == (base, cfg.orders(base)[i].step)
    {
      if key in s.journal {
        var i :| 0 <= i < n && key == (base, cfg.orders(base)[i].step);
      } else {
        assert key == (base, cfg.orders(base)[n].step);
      }
    }
  }

  /** The first candidate with this step. */
  lemma {:induction false} FirstWith(order: seq<Attempt>, step: nat, n: nat) returns (i: nat)
    requires n <= |order| && exists k :: 0 <= k < n && order[k].step == step
    ensures i < n && order[i].step == step && forall k | 0 <= k < i :: order[k].step != step
  {
    if exists k :: 0 <= k < n - 1 && order[k].step == step { i := FirstWith(order, step, n - 1); } else { i := n - 1; }
  }

  /** A run that lets another begin, and then comes to a step only it repeats, keeps it. */
  lemma OverlapKeeps(cfg: Config, base: Base, i: nat, other: Base) returns (actions: seq<Action>)
    requires cfg.maxKept > 0 && base in cfg.bases && other in cfg.bases
    requires i < |cfg.orders(base)| && !RepeatSharedAt(cfg, base, i, other)
    ensures !NoRepeatKept(cfg, After(cfg, Empty, actions))
  {
    var step := cfg.orders(base)[i].step;
    var first := FirstWith(cfg.orders(base), step, |cfg.orders(base)|);
    var begun := Next(cfg, Next(cfg, Empty, Begin(base)), Begin(other));
    var rejected := After(cfg, begun, Rejections(base, first));
    RejectionsReject(cfg, begun, base, first, cfg.repeated(other));
    var last := Next(cfg, rejected, Visit(base, Kept));
    assert (base, step) !in rejected.journal;
    assert last.journal[(base, step)] == Kept;
    actions := [Begin(base), Begin(other)] + Rejections(base, first) + [Visit(base, Kept)];
    AfterTwo(cfg, Empty, Begin(base), Begin(other));
    AfterBoth(cfg, Empty, [Begin(base), Begin(other)], Rejections(base, first));
    AfterBoth(cfg, Empty, [Begin(base), Begin(other)] + Rejections(base, first), [Visit(base, Kept)]);
    AfterOne(cfg, rejected, Visit(base, Kept));
  }

  lemma AfterTwo(cfg: Config, s: State, a: Action, b: Action)
    ensures After(cfg, s, [a, b]) == Next(cfg, Next(cfg, s, a), b)
  {
    assert [a, b][1..] == [b];
    AfterOne(cfg, Next(cfg, s, a), b);
  }

  /**
   When the code never keeps a repeated call, whatever overlaps: exactly when every repeated step
   that one of the collection's runs may try is repeated in every other of them as well.
   */
  lemma NoRepeatKeptIffShared(cfg: Config)
    requires cfg.maxKept > 0
    ensures (forall actions :: NoRepeatKept(cfg, After(cfg, Empty, actions))) <==> RepeatsShared(cfg)
  {
    if RepeatsShared(cfg) {
      forall actions ensures NoRepeatKept(cfg, After(cfg, Empty, actions)) { SharedRunsKeep(cfg, Empty, actions); }
    } else {
      var base, i, other :| base in cfg.bases && other in cfg.bases && 0 <= i < |cfg.orders(base)|
                            && !RepeatSharedAt(cfg, base, i, other);
      var actions := OverlapKeeps(cfg, base, i, other);
    }
  }

  const Two := Config({0, 1}, (base: Base) => [Attempt(Early, 7)], (base: Base) => if base == 0 then {7} else {}, 3)

  lemma OverlapKeepsARepeat()
    ensures ValidConfig(Two)
    ensures !NoRepeatKept(Two, After(Two, Empty, [Begin(0), Begin(1), Visit(0, Kept)]))
  {
    var actions := [Begin(0), Begin(1), Visit(0, Kept)];
    var one := Next(Two, Empty, actions[0]);
    var two := Next(Two, one, actions[1]);
    var three := Next(Two, two, actions[2]);
    assert actions[1..] == [Begin(1), Visit(0, Kept)];
    assert actions[1..][1..] == [Visit(0, Kept)];
    assert [Visit(0, Kept)][1..] == [];
    assert After(Two, two, [Visit(0, Kept)]) == three;
    assert two.walks[0] == Walk(0, {}) && two.repeated == {};
    assert three.journal[(0, 7)] == Kept;
  }

  // ---- Passes over the tasks ---------------------------------------------------------------------

  const MaxTaskPasses := 3

  /** The tasks still failing on infrastructure after the first `k` passes, in order. */
  function StillFailing(tasks: seq<nat>, fails: (nat, nat) -> bool, k: nat): seq<nat> {
    if k == 0 then tasks else Failing(StillFailing(tasks, fails, k - 1), fails, k)
  }

  function Failing(tasks: seq<nat>, fails: (nat, nat) -> bool, pass: nat): seq<nat> {
    if tasks == [] then []
    else Failing(tasks[..|tasks| - 1], fails, pass)
         + if fails(tasks[|tasks| - 1], pass) then [tasks[|tasks| - 1]] else []
  }

  /** How often the passes up to `k` worked a task. */
  function Tries(tasks: seq<nat>, fails: (nat, nat) -> bool, task: nat, k: nat): nat {
    if k == 0 then 0
    else Tries(tasks, fails, task, k - 1) + multiset(StillFailing(tasks, fails, k - 1))[task]
  }

  /** `worked` holds each task as often as the passes up to `k` worked it. */
  ghost predicate TriedSo(tasks: seq<nat>, fails: (nat, nat) -> bool, worked: seq<nat>, k: nat) {
    forall task :: multiset(worked)[task] == Tries(tasks, fails, task, k)
  }

  lemma OnePassMore(tasks: seq<nat>, fails: (nat, nat) -> bool, worked: seq<nat>, k: nat)
    requires TriedSo(tasks, fails, worked, k)
    ensures TriedSo(tasks, fails, worked + StillFailing(tasks, fails, k), k + 1)
  {
    var outstanding := StillFailing(tasks, fails, k);
    forall task ensures multiset(worked + outstanding)[task] == Tries(tasks, fails, task, k + 1) {
      assert multiset(worked + outstanding) == multiset(worked) + multiset(outstanding);
    }
  }

  /** One pass over what is outstanding: the tasks that failed on infrastructure, in order. */
  method OnePass(outstanding: seq<nat>, fails: (nat, nat) -> bool, attempt: nat) returns (failed: seq<nat>)
    ensures failed == Failing(outstanding, fails, attempt)
  {
    failed := [];
    for i := 0 to |outstanding|
      invariant failed == Failing(outstanding[..i], fails, attempt)
    {
      assert outstanding[..i + 1][..i] == outstanding[..i];
      if fails(outstanding[i], attempt) {
        failed := failed + [outstanding[i]];
      }
    }
    assert outstanding[..|outstanding|] == outstanding;
  }

  /** `_run_passes` without a stop: infrastructure failures go back on the queue, and are parked in the end. */
  method RunPasses(tasks: seq<nat>, fails: (nat, nat) -> bool) returns (parked: seq<nat>, worked: seq<nat>)
    ensures parked == StillFailing(tasks, fails, MaxTaskPasses)
    ensures TriedSo(tasks, fails, worked, MaxTaskPasses)
  {
    var outstanding := tasks;
    worked := [];
    for attempt := 1 to MaxTaskPasses + 1
      invariant outstanding == StillFailing(tasks, fails, attempt - 1)
      invariant TriedSo(tasks, fails, worked, attempt - 1)
    {
      OnePassMore(tasks, fails, worked, attempt - 1);
      worked := worked + outstanding;
      outstanding := OnePass(outstanding, fails, attempt);
      if outstanding == [] {
        NothingMoreTried(tasks, fails, worked, attempt, MaxTaskPasses);
        return [], worked;
      }
    }
    return outstanding, worked;
  }

  lemma {:induction false} DoneStaysDone(tasks: seq<nat>, fails: (nat, nat) -> bool, k: nat, n: nat)
    requires StillFailing(tasks, fails, k) == [] && k <= n
    ensures StillFailing(tasks, fails, n) == []
    ensures forall task :: Tries(tasks, fails, task, n) == Tries(tasks, fails, task, k)
  {
    if k < n {
      DoneStaysDone(tasks, fails, k, n - 1);
      forall task ensures Tries(tasks, fails, task, n) == Tries(tasks, fails, task, k) {
        NoneLeftToTry(tasks, fails, task, n - 1);
      }
    }
  }

  lemma NothingMoreTried(tasks: seq<nat>, fails: (nat, nat) -> bool, worked: seq<nat>, k: nat, n: nat)
    requires TriedSo(tasks, fails, worked, k) && StillFailing(tasks, fails, k) == [] && k <= n
    ensures TriedSo(tasks, fails, worked, n) && StillFailing(tasks, fails, n) == []
  {
    DoneStaysDone(tasks, fails, k, n);
  }

  lemma NoneLeftToTry(tasks: seq<nat>, fails: (nat, nat) -> bool, task: nat, n: nat)
    requires StillFailing(tasks, fails, n) == []
    ensures Tries(tasks, fails, task, n + 1) == Tries(tasks, fails, task, n)
    ensures StillFailing(tasks, fails, n + 1) == []
  {
    assert multiset(StillFailing(tasks, fails, n))[task] == 0;
  }

  lemma {:induction false} FailingIs(tasks: seq<nat>, fails: (nat, nat) -> bool, pass: nat, task: nat)
    ensures multiset(Failing(tasks, fails, pass))[task] == if fails(task, pass) then multiset(tasks)[task] else 0
  {
    if tasks != [] {
      var init, last := tasks[..|tasks| - 1], tasks[|tasks| - 1];
      FailingIs(init, fails, pass, task);
      assert tasks == init + [last];
    }
  }

  predicate FailsAll(fails: (nat, nat) -> bool, task: nat, k: nat) {
    forall pass | 1 <= pass <= k :: fails(task, pass)
  }

  lemma FailsOneMore(fails: (nat, nat) -> bool, task: nat, k: nat)
    requires k > 0
    ensures FailsAll(fails, task, k) <==> FailsAll(fails, task, k - 1) && fails(task, k)
  {
  }

  lemma {:induction false} StillFailingIs(tasks: seq<nat>, fails: (nat, nat) -> bool, task: nat, k: nat)
    ensures multiset(StillFailing(tasks, fails, k))[task]
            == if FailsAll(fails, task, k) then multiset(tasks)[task] else 0
  {
    if k > 0 {
      StillFailingIs(tasks, fails, task, k - 1);
      FailingIs(StillFailing(tasks, fails, k - 1), fails, k, task);
      FailsOneMore(fails, task, k);
    }
  }

  /**
   Every task ends finished or parked: parked exactly when it failed in all three passes, worked a
   second time exactly when the first one failed, and a third time exactly when both did.
   */
  lemma TasksEndFinishedOrParked(tasks: seq<nat>, fails: (nat, nat) -> bool, task: nat)
    requires multiset(tasks)[task] == 1
    ensures Tries(tasks, fails, task, MaxTaskPasses)
            == 1 + (if fails(task, 1) then 1 else 0) + (if fails(task, 1) && fails(task, 2) then 1 else 0)
    ensures task in StillFailing(tasks, fails, MaxTaskPasses) <==> fails(task, 1) && fails(task, 2) && fails(task, 3)
  {
    StillFailingIs(tasks, fails, task, 1);
    StillFailingIs(tasks, fails, task, 2);
    StillFailingIs(tasks, fails, task, 3);
    assert Tries(tasks, fails, task, 1) == 1;
    FailsOneMore(fails, task, 1);
    FailsOneMore(fails, task, 2);
    FailsOneMore(fails, task, 3);
    assert task in StillFailing(tasks, fails, 3) <==> task in multiset(StillFailing(tasks, fails, 3));
  }
}
