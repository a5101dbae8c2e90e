/**
 The crash-safe fork executor: every draw has a family of run ids, an attempt takes the first id
 of its own variant the tape has not seen, and a resume looks through the whole family first.
 */
module ForkExecutor {
  import opened Wrappers
  import opened Numerals

  // ---- Run ids ---------------------------------------------------------------------------------

  const InfraRetries := 3
  const MaxIdAttempts := 50
  const DigestLength := 12

  predicate EndsInDigest(id: string) {
    |id| >= DigestLength && forall i :: |id| - DigestLength <= i < |id| ==> id[i] in "0123456789abcdef"
  }

  /** The id of one draw: it ends in its digest. */
  type DrawId = id: string | EndsInDigest(id) witness "000000000000"

  /** `digest` is the hex digest of the parent, the variant, the arm, the step, the seed and the draw. */
  function RerunId(parent: string, arm: char, step: nat, digest: string): string {
    parent + "-" + [arm] + Decimal(step) + "-" + digest
  }

  lemma RerunIdIsDrawId(parent: string, arm: char, step: nat, digest: string)
    requires |digest| == DigestLength && forall c <- digest :: c in "0123456789abcdef"
    ensures EndsInDigest(RerunId(parent, arm, step, digest))
  {
    var id := RerunId(parent, arm, step, digest);
    assert id[|id| - DigestLength..] == digest;
    forall i | |id| - DigestLength <= i < |id| ensures id[i] in "0123456789abcdef" {
      assert id[i] == digest[i - (|id| - DigestLength)];
    }
  }

  predicate IsDigest(digest: string) {
    |digest| == DigestLength && forall c <- digest :: c in "0123456789abcdef"
  }

  /** An id carries its draw's digest, so draws with different digests have different ids. */
  lemma IdCarriesDigest(parent: string, arm: char, step: nat, digest: string)
    requires IsDigest(digest)
    ensures var id := RerunId(parent, arm, step, digest); EndsInDigest(id) && |digest| == 12 && id[|id| - 12..] == digest
  {
    RerunIdIsDrawId(parent, arm, step, digest);
    var id := RerunId(parent, arm, step, digest);
    assert id[|id| - DigestLength..] == digest;
  }

  /** And before it, run by run, the arm and the step. */
  lemma IdNamesArmAndStep(parent: string, arm: char, step: nat, digest: string, arm': char, step': nat, digest': string)
    requires IsDigest(digest) && IsDigest(digest')
    requires RerunId(parent, arm, step, digest) == RerunId(parent, arm', step', digest')
    ensures arm == arm' && step == step' && digest == digest'
  {
    IdCarriesDigest(parent, arm, step, digest);
    IdCarriesDigest(parent, arm', step', digest');
    var p := |parent|;
    var id, id' := RerunId(parent, arm, step, digest), RerunId(parent, arm', step', digest');
    assert id[p + 1] == arm && id'[p + 1] == arm';
    assert id[p + 2..|id| - DigestLength - 1] == Decimal(step);
    assert id'[p + 2..|id'| - DigestLength - 1] == Decimal(step');
    DecimalInjective(step, step');
  }

  function Attempt(id: string, attempt: nat): string {
    if attempt == 0 then id else id + "-a" + Decimal(attempt)
  }

  function Variant(id: string, n: nat): string {
    if n == 0 then id else id + "-r" + Decimal(n)
  }

  function Variants(id: string, from: nat, lookback: nat): seq<string>
    decreases lookback - from
  {
    if from > lookback then [] else [Variant(id, from)] + Variants(id, from + 1, lookback)
  }

  /** The ids of retries from the given attempt on, each with its own variants. */
  function RetryIds(id: string, attempt: nat, lookback: nat): seq<string>
    decreases InfraRetries - attempt
  {
    if attempt >= InfraRetries then []
    else Variants(Attempt(id, attempt), 0, lookback) + RetryIds(id, attempt + 1, lookback)
  }

  /** Where a resume looks: the id, its retries with their variants, then its own variants. */
  function CandidateIds(id: string, lookback: nat): seq<string> {
    [id] + RetryIds(id, 1, lookback) + Variants(id, 1, lookback)
  }

  /** Every id an attempt of this draw could carry, with variants up to `lookback`. */
  ghost predicate InFamily(id: string, lookback: nat, candidate: string) {
    exists attempt, n :: 0 <= attempt < InfraRetries && 0 <= n <= lookback
                         && candidate == Variant(Attempt(id, attempt), n)
  }

  lemma {:induction false} VariantsAre(id: string, from: nat, lookback: nat, candidate: string)
    ensures candidate in Variants(id, from, lookback)
            <==> exists n :: from <= n <= lookback && candidate == Variant(id, n)
    decreases lookback - from
  {
    if from <= lookback { VariantsAre(id, from + 1, lookback, candidate); }
  }

  /** The scan covers exactly the family. */
  lemma CandidatesAreFamily(id: string, lookback: nat, candidate: string)
    ensures candidate in CandidateIds(id, lookback) <==> InFamily(id, lookback, candidate)
  {
    VariantsAre(id, 1, lookback, candidate);
    VariantsAre(Attempt(id, 1), 0, lookback, candidate);
    VariantsAre(Attempt(id, 2), 0, lookback, candidate);
    assert RetryIds(id, 3, lookback) == [];
    assert RetryIds(id, 2, lookback) == Variants(Attempt(id, 2), 0, lookback);
    assert RetryIds(id, 1, lookback) == Variants(Attempt(id, 1), 0, lookback) + RetryIds(id, 2, lookback);
    assert Attempt(id, 0) == id && Variant(id, 0) == id;
    if InFamily(id, lookback, candidate) {
      var attempt, n :| 0 <= attempt < InfraRetries && 0 <= n <= lookback
                        && candidate == Variant(Attempt(id, attempt), n);
      assert attempt == 0 || attempt == 1 || attempt == 2;
    }
  }

  /** What an attempt and a variant add to an id. */
  function Suffix(attempt: nat, n: nat): string {
    (if attempt == 0 then "" else "-a" + Decimal(attempt)) + (if n == 0 then "" else "-r" + Decimal(n))
  }

  lemma SuffixShape(id: string, attempt: nat, n: nat)
    requires attempt < InfraRetries && n < 100
    ensures Variant(Attempt(id, attempt), n) == id + Suffix(attempt, n)
    ensures |Suffix(attempt, n)| <= 7
    ensures Suffix(attempt, n) != [] ==> Suffix(attempt, n)[0] == '-'
  {
    if attempt == 0 {
      assert id + Suffix(0, n) == Variant(id, n);
    } else {
      var a := "-a" + Decimal(attempt);
      assert id + "-a" + Decimal(attempt) == id + a;
      if n == 0 {
        assert Suffix(attempt, n) == a;
      } else {
        var r := "-r" + Decimal(n);
        assert Suffix(attempt, n) == a + r;
        assert (id + a) + "-r" + Decimal(n) == id + (a + r);
      }
    }
  }

  lemma DashAfter(d: string, e: string, s: string, t: string)
    requires d + s == e + t && |t| < |s| && s[0] == '-'
    ensures |d| < |e| && |e| - |d| <= |s| && e[|d|] == '-'
  {
    assert (d + s)[|d|] == s[0];
    assert (e + t)[|d|] == e[|d|];
  }

  predicate ShortSuffix(s: string) { |s| <= 7 && (s != [] ==> s[0] == '-') }

  lemma NoShorterId(d: DrawId, e: DrawId, s: string, t: string)
    requires d + s == e + t && ShortSuffix(s) && ShortSuffix(t)
    ensures |s| <= |t|
  {
    if |t| < |s| { DashAfter(d, e, s, t); }
  }

  lemma SuffixesCancel(d: DrawId, e: DrawId, s: string, t: string)
    requires d + s == e + t && ShortSuffix(s) && ShortSuffix(t)
    ensures d == e
  {
    NoShorterId(d, e, s, t);
    NoShorterId(e, d, t, s);
    assert (d + s)[..|d|] == d && (e + t)[..|e|] == e;
  }

  /**
   Families of different draws share no id: a suffix starts with a dash within reach of the
   digest, and a digest has none.
   */
  lemma FamiliesAreDisjoint(d: DrawId, e: DrawId, lookback: nat, candidate: string)
    requires lookback < 100 && InFamily(d, lookback, candidate) && InFamily(e, lookback, candidate)
    ensures d == e
  {
    var i, m :| 0 <= i < InfraRetries && 0 <= m <= lookback && candidate == Variant(Attempt(d, i), m);
    var j, n :| 0 <= j < InfraRetries && 0 <= n <= lookback && candidate == Variant(Attempt(e, j), n);
    SuffixShape(d, i, m);
    SuffixShape(e, j, n);
    SuffixesCancel(d, e, Suffix(i, m), Suffix(j, n));
  }

  /** Draws with different digests share no candidate id, whatever runs, arms and steps they are of. */
  lemma DigestsKeepApart(parent: string, arm: char, step: nat, digest: string, parent': string, arm': char, step': nat,
                         digest': string, lookback: nat, candidate: string)
    requires IsDigest(digest) && IsDigest(digest') && digest != digest' && lookback < 100
    ensures !(InFamily(RerunId(parent, arm, step, digest), lookback, candidate)
              && InFamily(RerunId(parent', arm', step', digest'), lookback, candidate))
  {
    IdCarriesDigest(parent, arm, step, digest);
    IdCarriesDigest(parent', arm', step', digest');
    var d, e := RerunId(parent, arm, step, digest), RerunId(parent', arm', step', digest');
    if InFamily(d, lookback, candidate) && InFamily(e, lookback, candidate) { FamiliesAreDisjoint(d, e, lookback, candidate); }
  }

  // ---- The tape --------------------------------------------------------------------------------

  datatype Outcome = Outcome(passed: bool, steps: nat)

  /** Started runs, and the outcome of each one that finished. */
  datatype Tape = Tape(runs: set<string>, outcomes: map<string, Outcome>)

  /** The first variant from `n` on that the tape has no manifest for. */
  function FreeFrom(runs: set<string>, id: string, n: nat): (r: Option<string>)
    decreases MaxIdAttempts - n
  {
    if n >= MaxIdAttempts then None
    else if Variant(id, n) !in runs then Some(Variant(id, n))
    else FreeFrom(runs, id, n + 1)
  }

  function FreeRunId(runs: set<string>, id: string): Option<string> {
    FreeFrom(runs, id, 0)
  }

  /** It is the first unused variant, and there is none only when all of them are used. */
  lemma {:induction false} FreeIsFirstUnused(runs: set<string>, id: string, from: nat)
    ensures match FreeFrom(runs, id, from)
            case None => forall n: nat :: from <= n < 50 ==> Variant(id, n) in runs
            case Some(free) => free !in runs && exists n: nat :: IsFirstFree(runs, id, from, n) && free == Variant(id, n)
    decreases MaxIdAttempts - from
  {
    if from < MaxIdAttempts {
      if Variant(id, from) in runs {
        FreeIsFirstUnused(runs, id, from + 1);
        if FreeFrom(runs, id, from).Some? { FirstFreeEarlier(runs, id, from, FreeFrom(runs, id, from).value); }
      } else {
        assert IsFirstFree(runs, id, from, from);
      }
    }
  }

  lemma FirstFreeEarlier(runs: set<string>, id: string, from: nat, free: string)
    requires Variant(id, from) in runs && exists n: nat :: IsFirstFree(runs, id, from + 1, n) && free == Variant(id, n)
    ensures exists n: nat :: IsFirstFree(runs, id, from, n) && free == Variant(id, n)
  {
    var n: nat :| IsFirstFree(runs, id, from + 1, n) && free == Variant(id, n);
    assert IsFirstFree(runs, id, from, n);
  }

  ghost predicate IsFirstFree(runs: set<string>, id: string, from: nat, n: nat) {
    && from <= n < 50
    && Variant(id, n) !in runs
    && forall m: nat :: from <= m < n ==> Variant(id, m) in runs
  }

  /** `_free_run_id`: tries the id, then its variants. */
  method FindFreeRunId(runs: set<string>, id: string) returns (r: Option<string>)
    ensures r == FreeRunId(runs, id)
  {
    var candidate := id;
    for attempt := 1 to MaxIdAttempts + 1
      invariant candidate == Variant(id, attempt - 1)
      invariant FreeRunId(runs, id) == FreeFrom(runs, id, attempt - 1)
    {
      if candidate !in runs {
        return Some(candidate);
      }
      candidate := id + "-r" + Decimal(attempt);
    }
    return None;
  }

  function FirstRecorded(outcomes: map<string, Outcome>, ids: seq<string>): Option<Outcome> {
    if ids == [] then None
    else if ids[0] in outcomes then Some(outcomes[ids[0]])
    else FirstRecorded(outcomes, ids[1..])
  }

  /** The outcome a resume finds for a draw, under its id or any retry of it. */
  function Recorded(tape: Tape, id: string): Option<Outcome> {
    FirstRecorded(tape.outcomes, CandidateIds(id, MaxIdAttempts))
  }

  lemma {:induction false} FirstRecordedIs(outcomes: map<string, Outcome>, ids: seq<string>)
    ensures match FirstRecorded(outcomes, ids)
            case None => forall id <- ids :: id !in outcomes
            case Some(outcome) => exists id <- ids :: id in outcomes && outcomes[id] == outcome
  {
    if ids != [] && ids[0] !in outcomes {
      FirstRecordedIs(outcomes, ids[1..]);
      assert ids == [ids[0]] + ids[1..];
    }
  }

  lemma {:induction false} UnseenChangesNothing(outcomes: map<string, Outcome>, ids: seq<string>, id: string, outcome: Outcome)
    requires id !in ids
    ensures FirstRecorded(outcomes[id := outcome], ids) == FirstRecorded(outcomes, ids)
  {
    if ids != [] { UnseenChangesNothing(outcomes, ids[1..], id, outcome); }
  }

  /** An outcome recorded for one draw, under any id of its family, is never found for another. */
  lemma OutcomesAreNotShared(tape: Tape, parent: string, arm: char, step: nat, digest: string, parent': string, arm': char,
                             step': nat, digest': string, id: string, outcome: Outcome)
    requires IsDigest(digest) && IsDigest(digest') && digest != digest'
    requires InFamily(RerunId(parent, arm, step, digest), MaxIdAttempts, id)
    ensures var other := RerunId(parent', arm', step', digest');
            Recorded(tape.(outcomes := tape.outcomes[id := outcome]), other) == Recorded(tape, other)
  {
    var other := RerunId(parent', arm', step', digest');
    DigestsKeepApart(parent, arm, step, digest, parent', arm', step', digest', MaxIdAttempts, id);
    CandidatesAreFamily(other, MaxIdAttempts, id);
    UnseenChangesNothing(tape.outcomes, CandidateIds(other, MaxIdAttempts), id, outcome);
  }

  /** An id taken by attempt `attempt` is one the scan looks at. */
  lemma PickIsScanned(runs: set<string>, id: string, attempt: nat)
    requires attempt < InfraRetries
    ensures var free := FreeRunId(runs, Attempt(id, attempt));
            free.Some? ==> free.value !in runs && free.value in CandidateIds(id, MaxIdAttempts)
  {
    var base := Attempt(id, attempt);
    FreeIsFirstUnused(runs, base, 0);
    var free := FreeRunId(runs, base);
    if free.Some? {
      var n: nat :| IsFirstFree(runs, base, 0, n) && free.value == Variant(base, n);
      assert InFamily(id, MaxIdAttempts, Variant(Attempt(id, attempt), n));
      CandidatesAreFamily(id, MaxIdAttempts, free.value);
    }
  }

  /** All ids up to, and not including, variant `n` are taken. */
  function TakenBelow(id: string, n: nat): set<string> {
    set m | 0 <= m < n :: Variant(id, m)
  }

  lemma VariantInjective(id: string, m: nat, n: nat)
    requires Variant(id, m) == Variant(id, n)
    ensures m == n
  {
    if m == 0 || n == 0 {
      assert |Variant(id, 0)| == |id|;
    } else {
      assert (id + "-r" + Decimal(m))[|id| + 2..] == Decimal(m);
      assert (id + "-r" + Decimal(n))[|id| + 2..] == Decimal(n);
      DecimalInjective(m, n);
    }
  }

  /** A scan sees everything `_free_run_id` can hand out exactly when it looks back far enough. */
  lemma ScanCoversIffDeepEnough(id: DrawId, lookback: nat)
    requires lookback < 100
    ensures (forall runs :: FreeRunId(runs, id).Some? ==> FreeRunId(runs, id).value in CandidateIds(id, lookback))
            <==> 49 <= lookback
  {
    if MaxIdAttempts - 1 <= lookback {
      forall runs | FreeRunId(runs, id).Some? ensures FreeRunId(runs, id).value in CandidateIds(id, lookback) {
        FreeIsFirstUnused(runs, id, 0);
        var n: nat :| IsFirstFree(runs, id, 0, n) && FreeRunId(runs, id).value == Variant(id, n);
        assert Attempt(id, 0) == id;
        assert InFamily(id, lookback, Variant(Attempt(id, 0), n));
        CandidatesAreFamily(id, lookback, Variant(id, n));
      }
    } else {
      var last := MaxIdAttempts - 1;
      var runs := TakenBelow(id, last);
      forall m: nat | Variant(id, m) in runs ensures m < last {
        var k :| 0 <= k < last && Variant(id, m) == Variant(id, k);
        VariantInjective(id, m, k);
      }
      FreeIsFirstUnused(runs, id, 0);
      assert Variant(id, last) !in runs;
      var n: nat :| IsFirstFree(runs, id, 0, n) && FreeRunId(runs, id).value == Variant(id, n);
      assert n == last;
      CandidatesAreFamily(id, lookback, Variant(id, last));
      if InFamily(id, lookback, Variant(id, last)) {
        DeepVariantUnseen(id, lookback, last);
      }
    }
  }

  lemma SuffixKinds(attempt: nat, n: nat)
    ensures attempt > 0 ==> |Suffix(attempt, n)| >= 2 && Suffix(attempt, n)[1] == 'a'
    ensures attempt == 0 && n > 0 ==> |Suffix(attempt, n)| >= 2 && Suffix(attempt, n)[1] == 'r'
  {
  }

  lemma DeepVariantUnseen(id: DrawId, lookback: nat, n: nat)
    requires lookback < n < 100
    ensures !InFamily(id, lookback, Variant(id, n))
  {
    if InFamily(id, lookback, Variant(id, n)) {
      var i, m :| 0 <= i < InfraRetries && 0 <= m <= lookback && Variant(id, n) == Variant(Attempt(id, i), m);
      SuffixShape(id, i, m);
      SuffixShape(id, 0, n);
      assert (id + Suffix(i, m))[|id|..] == Suffix(i, m);
      assert (id + Suffix(0, n))[|id|..] == Suffix(0, n);
      SuffixKinds(i, m);
      SuffixKinds(0, n);
      if i == 0 { VariantInjective(id, m, n); }
    }
  }
}
