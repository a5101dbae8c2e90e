/**
 Which faults can be planted in a tool result: every draw's outcome, and a draw for every one of them.
 */
module FaultValues {
  import opened Wrappers
  import opened Json
  import opened Faults

  // ---- Wrong and earlier values --------------------------------------------------------------------

  predicate IsShift(days: int) { days in {1, 2, 3, 7, 14, 30} }

  predicate ForwardOrBack(days: int) { IsShift(days) || IsShift(-days) }

  predicate IsFactor(factor: real) { factor in {0.5, 0.75, 1.25, 1.5, 2.0} }

  /** A text that starts with a date, year first. */
  predicate IsDate(lib: Library, text: string) {
    && |text| >= 10
    && lib.isDigit(text[0]) && lib.isDigit(text[1]) && lib.isDigit(text[2]) && lib.isDigit(text[3])
    && text[4] == '-' && text[7] == '-'
    && lib.parseDate(text[..10]).Some?
  }

  /** `text` with the date it starts with moved by `days`. */
  predicate MovedBy(lib: Library, text: string, days: int, moved: string) {
    && IsDate(lib, text)
    && OnCalendar(lib, lib.parseDate(text[..10]).value + days)
    && moved == lib.formatDate(lib.parseDate(text[..10]).value + days) + text[10..]
  }

  ghost predicate Moved(lib: Library, text: string, moved: string) {
    exists days: int :: ForwardOrBack(days) && MovedBy(lib, text, days, moved)
  }

  ghost predicate MovedBack(lib: Library, text: string, moved: string) {
    exists days: int :: IsShift(days) && MovedBy(lib, text, -days, moved)
  }

  /** Another character of the class `c` is in: a digit, a capital, or otherwise a small letter. */
  predicate OtherInClass(lib: Library, c: char, other: char) {
    && other != c
    && if lib.isDigit(c) then '0' <= other <= '9'
       else if lib.isUpper(c) then 'A' <= other <= 'Z'
       else 'a' <= other <= 'z'
  }

  ghost predicate OffAt(lib: Library, text: string, i: nat, wrong: string) {
    && |wrong| == |text|
    && i < |text|
    && lib.isAlnum(text[i])
    && OtherInClass(lib, text[i], wrong[i])
    && forall j | 0 <= j < |text| && j != i :: wrong[j] == text[j]
  }

  /** One letter or digit is another of its class, and nothing else has changed. */
  ghost predicate OneOff(lib: Library, text: string, wrong: string) {
    exists i: nat :: OffAt(lib, text, i, wrong)
  }

  predicate Scaled(lib: Library, number: real, factor: real, wrong: real) {
    wrong == lib.round2(number * factor) || (lib.round2(number * factor) == number && wrong == number + 1.0)
  }

  ghost predicate OtherPrice(lib: Library, number: real, wrong: real) {
    wrong != number && exists factor: real :: IsFactor(factor) && Scaled(lib, number, factor, wrong)
  }

  /** The wrong values for a scalar. */
  ghost predicate WrongFor(lib: Library, truth: Json, wrong: Json) {
    match truth
    case Bool(flag) => wrong == Bool(!flag)
    case Int(whole) => wrong.Int? && wrong.whole != whole && whole - 3 <= wrong.whole <= whole + 3
    case Float(number) => wrong.Float? && OtherPrice(lib, number, wrong.number)
    case Str(text) =>
      wrong.Str? && if IsDate(lib, text) then Moved(lib, text, wrong.text) else OneOff(lib, text, wrong.text)
    case _ => false
  }

  /** The values a scalar may have had before: one less, four fifths, the status it came from, an earlier day. */
  ghost predicate EarlierFor(lib: Library, truth: Json, earlier: Json) {
    match truth
    case Bool(flag) => flag && earlier == Bool(false)
    case Int(whole) => earlier.Int? && 0 <= earlier.whole == whole - 1
    case Float(number) => number > 0.0 && earlier == Float(lib.round2(number * 0.8))
    case Str(text) =>
      && earlier.Str?
      && if lib.fold(text) in StatusRollback then earlier.text == StatusRollback[lib.fold(text)]
         else MovedBack(lib, text, earlier.text)
    case _ => false
  }

  // ---- Draws ---------------------------------------------------------------------------------------

  lemma PickReaches<T>(xs: seq<T>, x: T) returns (draw: nat)
    requires x in xs
    ensures draw < |xs| && Pick(xs, draw) == x
  {
    draw :| draw < |xs| && xs[draw] == x;
  }

  ghost predicate Run(alphabet: string, first: char) {
    |alphabet| <= 26 && forall k | 0 <= k < |alphabet| :: alphabet[k] as int == first as int + k
  }

  lemma RunHolds(alphabet: string, first: char, x: char)
    requires Run(alphabet, first)
    ensures x in alphabet <==> 0 <= x as int - first as int < |alphabet|
  {
    if 0 <= x as int - first as int < |alphabet| { assert alphabet[x as int - first as int] == x; }
  }

  lemma OthersAreInClass(lib: Library, c: char, x: char)
    ensures x in Others(AlphabetOf(lib, c), c) <==> OtherInClass(lib, c, x)
  {
    InDigits(x);
    InCapitals(x);
    InSmallLetters(x);
  }

  lemma InDigits(x: char)
    ensures x in "0123456789" <==> '0' <= x <= '9'
  {
    RunHolds("0123456789", '0', x);
  }

  lemma InCapitals(x: char)
    ensures x in "ABCDEFGHIJKLMNOPQRSTUVWXYZ" <==> 'A' <= x <= 'Z'
  {
    RunHolds("ABCDEFGHIJKLMNOPQRSTUVWXYZ", 'A', x);
  }

  lemma InSmallLetters(x: char)
    ensures x in "abcdefghijklmnopqrstuvwxyz" <==> 'a' <= x <= 'z'
  {
    RunHolds("abcdefghijklmnopqrstuvwxyz", 'a', x);
  }

  lemma {:induction false} PositionListed(lib: Library, text: string, from: nat, i: nat)
    requires from <= i < |text| && lib.isAlnum(text[i])
    ensures i in Positions(lib, text, from)
    decreases |text| - from
  {
    if from < i { PositionListed(lib, text, from + 1, i); }
  }

  // ---- Texts ---------------------------------------------------------------------------------------

  lemma PerturbedIsOneOff(lib: Library, text: string, draws: Draws)
    ensures Perturbed(lib, text, draws).Success? ==> OneOff(lib, text, Perturbed(lib, text, draws).value)
  {
    var positions := Positions(lib, text, 0);
    if positions != [] {
      var at := Pick(positions, draws.position);
      OthersExist(lib, text[at]);
      var letter := Pick(Others(AlphabetOf(lib, text[at]), text[at]), draws.letter);
      PerturbedAt(lib, text, draws, at, letter);
      OthersAreInClass(lib, text[at], letter);
      EditIsOff(lib, text, at, letter);
    }
  }

  lemma OneOffIsDrawn(lib: Library, text: string, wrong: string) returns (draws: Draws)
    requires OneOff(lib, text, wrong)
    ensures Perturbed(lib, text, draws) == Success(wrong)
  {
    var i: nat :| OffAt(lib, text, i, wrong);
    PositionListed(lib, text, 0, i);
    var position := PickReaches(Positions(lib, text, 0), i);
    var letter := LetterIsDrawn(lib, text[i], wrong[i]);
    draws := Draws(0, 0, 0, 0, 0, position, letter);
    PerturbedAt(lib, text, draws, i, wrong[i]);
    OffIsEdit(lib, text, i, wrong);
  }

  /** What perturbing does where its draws say. */
  lemma PerturbedAt(lib: Library, text: string, draws: Draws, i: nat, letter: char)
    requires i < |text| && Positions(lib, text, 0) != [] && Pick(Positions(lib, text, 0), draws.position) == i
    requires Others(AlphabetOf(lib, text[i]), text[i]) != []
    requires Pick(Others(AlphabetOf(lib, text[i]), text[i]), draws.letter) == letter
    ensures Perturbed(lib, text, draws) == Success(text[..i] + [letter] + text[i + 1..])
  {
  }

  lemma LetterIsDrawn(lib: Library, c: char, other: char) returns (letter: nat)
    requires OtherInClass(lib, c, other)
    ensures Others(AlphabetOf(lib, c), c) != [] && Pick(Others(AlphabetOf(lib, c), c), letter) == other
  {
    OthersAreInClass(lib, c, other);
    letter := PickReaches(Others(AlphabetOf(lib, c), c), other);
  }

  lemma EditIsOff(lib: Library, text: string, i: nat, letter: char)
    requires i < |text| && lib.isAlnum(text[i]) && OtherInClass(lib, text[i], letter)
    ensures OneOff(lib, text, text[..i] + [letter] + text[i + 1..])
  {
    assert OffAt(lib, text, i, text[..i] + [letter] + text[i + 1..]);
  }

  lemma OffIsEdit(lib: Library, text: string, i: nat, wrong: string)
    requires OffAt(lib, text, i, wrong)
    ensures wrong == text[..i] + [wrong[i]] + text[i + 1..]
  {
  }

  lemma ShiftMoves(lib: Library, text: string, days: int, moved: string)
    ensures ShiftDate(lib, text, days) == Success(Some(moved)) <==> MovedBy(lib, text, days, moved)
    ensures ShiftDate(lib, text, days) == Success(None) <==> !IsDate(lib, text)
  {
  }

  lemma ShiftIsDrawn(days: int) returns (draws: Draws)
    requires ForwardOrBack(days)
    ensures DaysOf(draws) == days
    ensures IsShift(-days) ==> Pick(DateShifts, draws.shift) == -days
  {
    var size := if days > 0 then days else -days;
    assert DateShifts[0] == 1 && DateShifts[1] == 2 && DateShifts[2] == 3;
    assert DateShifts[3] == 7 && DateShifts[4] == 14 && DateShifts[5] == 30;
    var shift := PickReaches(DateShifts, size);
    draws := Draws(0, 0, 0, shift, if days > 0 then 1 else 0, 0, 0);
    assert Pick([-1, 1], draws.sign) == if days > 0 then 1 else -1;
  }

  lemma DrawnShift(draws: Draws)
    ensures IsShift(Pick(DateShifts, draws.shift))
    ensures ForwardOrBack(DaysOf(draws))
  {
  }

  // ---- Scalars -------------------------------------------------------------------------------------

  lemma WrongTextIsWrong(lib: Library, text: string, draws: Draws)
    requires Lawful(lib)
    ensures WrongText(lib, text, draws).Success? ==> WrongFor(lib, Str(text), Str(WrongText(lib, text, draws).value))
  {
    if IsDate(lib, text) {
      MovedIsWrong(lib, text, draws);
    } else {
      ShiftMoves(lib, text, DaysOf(draws), text);
      PerturbedIsOneOff(lib, text, draws);
    }
  }

  lemma MovedIsWrong(lib: Library, text: string, draws: Draws)
    requires IsDate(lib, text)
    ensures WrongText(lib, text, draws).Success? ==> Moved(lib, text, WrongText(lib, text, draws).value)
  {
    var days := DaysOf(draws);
    DrawnShift(draws);
    if WrongText(lib, text, draws).Success? {
      var wrong := WrongText(lib, text, draws).value;
      ShiftMoves(lib, text, days, wrong);
      assert MovedBy(lib, text, days, wrong);
    }
  }

  lemma WrongTextIsDrawn(lib: Library, text: string, wrong: string) returns (draws: Draws)
    requires WrongFor(lib, Str(text), Str(wrong))
    ensures WrongText(lib, text, draws) == Success(wrong)
  {
    if IsDate(lib, text) {
      var days: int :| ForwardOrBack(days) && MovedBy(lib, text, days, wrong);
      draws := ShiftIsDrawn(days);
      ShiftMoves(lib, text, days, wrong);
    } else {
      draws := OneOffIsDrawn(lib, text, wrong);
      ShiftMoves(lib, text, DaysOf(draws), wrong);
    }
  }

  lemma WrongIsWrong(lib: Library, truth: Json, draws: Draws)
    requires Lawful(lib) && IsScalar(truth)
    ensures WrongScalar(lib, truth, draws).Success? ==> WrongFor(lib, truth, WrongScalar(lib, truth, draws).value)
  {
    match truth {
      case Str(text) => WrongTextIsWrong(lib, text, draws);
      case Float(number) => RepricedIsWrong(lib, number, draws);
      case _ =>
    }
  }

  lemma DrawnFactor(draws: Draws)
    ensures IsFactor(Pick(PriceFactors, draws.factor))
  {
  }

  lemma RepricedIsWrong(lib: Library, number: real, draws: Draws)
    ensures WrongScalar(lib, Float(number), draws).Success?
    ensures WrongFor(lib, Float(number), WrongScalar(lib, Float(number), draws).value)
  {
    var factor := Pick(PriceFactors, draws.factor);
    DrawnFactor(draws);
    assert Scaled(lib, number, factor, Repriced(lib, number, factor));
  }

  lemma WrongIsDrawn(lib: Library, truth: Json, wrong: Json) returns (draws: Draws)
    requires IsScalar(truth) && WrongFor(lib, truth, wrong)
    ensures WrongScalar(lib, truth, draws) == Success(wrong)
  {
    draws := Draws(0, 0, 0, 0, 0, 0, 0);
    match truth {
      case Bool(_) =>
      case Int(whole) =>
        DeltaListed(wrong.whole - whole);
        var delta := PickReaches(IntDeltas, wrong.whole - whole);
        draws := Draws(0, delta, 0, 0, 0, 0, 0);
      case Float(number) => draws := RepricedIsDrawn(lib, number, wrong.number);
      case Str(text) => draws := WrongTextIsDrawn(lib, text, wrong.text);
    }
  }

  lemma RepricedIsDrawn(lib: Library, number: real, wrong: real) returns (draws: Draws)
    requires OtherPrice(lib, number, wrong)
    ensures WrongScalar(lib, Float(number), draws) == Success(Float(wrong))
  {
    var factor: real :| IsFactor(factor) && Scaled(lib, number, factor, wrong);
    FactorListed(factor);
    var drawn := PickReaches(PriceFactors, factor);
    draws := Draws(0, 0, drawn, 0, 0, 0, 0);
    assert Repriced(lib, number, factor) == wrong;
  }

  lemma DeltaListed(delta: int)
    requires delta != 0 && -3 <= delta <= 3
    ensures delta in IntDeltas
  {
    assert IntDeltas[0] == -3 && IntDeltas[1] == -2 && IntDeltas[2] == -1;
    assert IntDeltas[3] == 1 && IntDeltas[4] == 2 && IntDeltas[5] == 3;
  }

  lemma FactorListed(factor: real)
    requires IsFactor(factor)
    ensures factor in PriceFactors
  {
    assert PriceFactors[0] == 0.5 && PriceFactors[1] == 0.75 && PriceFactors[2] == 1.25;
    assert PriceFactors[3] == 1.5 && PriceFactors[4] == 2.0;
  }

  lemma RolledBackIsEarlier(lib: Library, truth: Json, draws: Draws)
    requires HasAPast(lib, truth)
    ensures RolledBack(lib, truth, draws).Success? ==> EarlierFor(lib, truth, RolledBack(lib, truth, draws).value)
  {
    var earlier := RolledBack(lib, truth, draws);
    if truth.Str? && earlier.Success? {
      DrawnShift(draws);
      ShiftMoves(lib, truth.text, -Pick(DateShifts, draws.shift), earlier.value.text);
    }
  }

  lemma EarlierIsDrawn(lib: Library, truth: Json, earlier: Json) returns (draws: Draws)
    requires EarlierFor(lib, truth, earlier)
    ensures HasAPast(lib, truth) && RolledBack(lib, truth, draws) == Success(earlier)
  {
    draws := Draws(0, 0, 0, 0, 0, 0, 0);
    if truth.Str? && lib.fold(truth.text) !in StatusRollback {
      var days: int :| IsShift(days) && MovedBy(lib, truth.text, -days, earlier.text);
      draws := ShiftIsDrawn(-days);
      ShiftMoves(lib, truth.text, -days, earlier.text);
    }
  }

  // ---- Mutations -----------------------------------------------------------------------------------

  ghost predicate DrawnWrong(lib: Library, body: Json, f: Faulted) {
    exists draws :: WellFormed(body) && PlantWrongValue(lib, body, draws) == Success(f)
  }

  ghost predicate DrawnStale(lib: Library, body: Json, earlier: Option<Json>, f: Faulted) {
    exists draws :: WellFormed(body) && PlantStaleRecord(lib, body, earlier, draws) == Success(f)
  }

  ghost predicate DrawnMissing(body: Json, f: Faulted) {
    exists draws :: WellFormed(body) && PlantMissingField(body, draws) == Success(f)
  }

  /** `f` replaces a scalar of `body`, the one its path leads to. */
  ghost predicate ReplacesScalar(body: Json, f: Faulted) {
    && At(body, f.mutation.path) == Some(f.mutation.truth)
    && IsScalar(f.mutation.truth)
    && f.body == ReplacedAt(body, f.mutation.path, f.mutation.planted)
  }

  lemma ScalarIsListed(body: Json, path: Path, value: Json)
    requires WellFormed(body) && At(body, path) == Some(value) && IsScalar(value)
    ensures Candidate(path, value) in Scalars(body, [])
  {
    assert path[0..] == path && path[..0] == [];
    ScalarsAreLeaves(body, [], Candidate(path, value));
  }

  /** The wrong values that can be planted: at any scalar, any of its wrong values, and nothing else. */
  lemma WrongValuesPlanted(lib: Library, body: Json, f: Faulted)
    requires Lawful(lib) && WellFormed(body)
    ensures DrawnWrong(lib, body, f)
            <==> && f.mutation.fault == WrongValue
                 && ReplacesScalar(body, f)
                 && WrongFor(lib, f.mutation.truth, f.mutation.planted)
  {
    if DrawnWrong(lib, body, f) {
      var draws :| PlantWrongValue(lib, body, draws) == Success(f);
      var chosen := Pick(Scalars(body, []), draws.candidate);
      ChosenIsThere(body, chosen);
      WrongIsWrong(lib, chosen.value, draws);
    }
    if f.mutation.fault == WrongValue && ReplacesScalar(body, f) && WrongFor(lib, f.mutation.truth, f.mutation.planted) {
      ScalarIsListed(body, f.mutation.path, f.mutation.truth);
      var at := PickReaches(Scalars(body, []), Candidate(f.mutation.path, f.mutation.truth));
      var draws := WrongIsDrawn(lib, f.mutation.truth, f.mutation.planted);
      WrongIsPlanted(lib, body, draws, at, f);
    }
  }

  lemma WrongIsPlanted(lib: Library, body: Json, draws: Draws, at: nat, f: Faulted)
    requires WellFormed(body) && f.mutation.fault == WrongValue && ReplacesScalar(body, f)
    requires Scalars(body, []) != [] && Pick(Scalars(body, []), at) == Candidate(f.mutation.path, f.mutation.truth)
    requires WrongScalar(lib, f.mutation.truth, draws) == Success(f.mutation.planted)
    ensures DrawnWrong(lib, body, f)
  {
    var drawn := draws.(candidate := at);
    SameWrong(lib, f.mutation.truth, draws, at);
    assert PlantWrongValue(lib, body, drawn) == Success(f);
  }

  /** Which leaf is drawn does not change what is drawn for it. */
  lemma SameWrong(lib: Library, truth: Json, draws: Draws, at: nat)
    requires IsScalar(truth)
    ensures WrongScalar(lib, truth, draws.(candidate := at)) == WrongScalar(lib, truth, draws)
  {
    if truth.Str? {
      var other := draws.(candidate := at);
      assert Perturbed(lib, truth.text, other) == Perturbed(lib, truth.text, draws);
      assert WrongText(lib, truth.text, other) == WrongText(lib, truth.text, draws);
    }
  }

  /** The stale records that can be planted: the whole earlier result if that differs, else any scalar's earlier value. */
  lemma StaleRecordsPlanted(lib: Library, body: Json, earlier: Option<Json>, f: Faulted)
    requires WellFormed(body)
    ensures DrawnStale(lib, body, earlier, f)
            <==> && f.mutation.fault == StaleRecord
                 && if earlier.Some? && earlier.value != body then
                      f.mutation.path == [] && f.mutation.truth == body && f.body == f.mutation.planted == earlier.value
                    else ReplacesScalar(body, f) && EarlierFor(lib, f.mutation.truth, f.mutation.planted)
  {
    if Outdated(body, earlier) {
      var any := Draws(0, 0, 0, 0, 0, 0, 0);
      assert PlantStaleRecord(lib, body, earlier, any)
             == Success(Faulted(earlier.value, Mutation(StaleRecord, [], body, earlier.value)));
    } else {
      RolledBackPlanted(lib, body, earlier, f);
    }
  }

  lemma RolledBackPlanted(lib: Library, body: Json, earlier: Option<Json>, f: Faulted)
    requires WellFormed(body) && !Outdated(body, earlier)
    ensures DrawnStale(lib, body, earlier, f)
            <==> && f.mutation.fault == StaleRecord
                 && ReplacesScalar(body, f)
                 && EarlierFor(lib, f.mutation.truth, f.mutation.planted)
  {
    if DrawnStale(lib, body, earlier, f) { RolledBackIsEarlierThere(lib, body, earlier, f); }
    if f.mutation.fault == StaleRecord && ReplacesScalar(body, f) && EarlierFor(lib, f.mutation.truth, f.mutation.planted) {
      EarlierIsPlanted(lib, body, earlier, f);
    }
  }

  lemma RolledBackIsEarlierThere(lib: Library, body: Json, earlier: Option<Json>, f: Faulted)
    requires WellFormed(body) && !Outdated(body, earlier) && DrawnStale(lib, body, earlier, f)
    ensures f.mutation.fault == StaleRecord && ReplacesScalar(body, f)
    ensures EarlierFor(lib, f.mutation.truth, f.mutation.planted)
  {
    var draws :| PlantStaleRecord(lib, body, earlier, draws) == Success(f);
    var chosen := Pick(WithAPast(lib, Scalars(body, [])), draws.candidate);
    ChosenIsThere(body, chosen);
    RolledBackIsEarlier(lib, chosen.value, draws);
  }

  lemma EarlierIsPlanted(lib: Library, body: Json, earlier: Option<Json>, f: Faulted)
    requires WellFormed(body) && !Outdated(body, earlier)
    requires f.mutation.fault == StaleRecord && ReplacesScalar(body, f)
    requires EarlierFor(lib, f.mutation.truth, f.mutation.planted)
    ensures DrawnStale(lib, body, earlier, f)
  {
    ScalarIsListed(body, f.mutation.path, f.mutation.truth);
    var draws := EarlierIsDrawn(lib, f.mutation.truth, f.mutation.planted);
    var at := PickReaches(WithAPast(lib, Scalars(body, [])), Candidate(f.mutation.path, f.mutation.truth));
    SameEarlier(lib, f.mutation.truth, draws, at);
    assert PlantStaleRecord(lib, body, earlier, draws.(candidate := at)) == Success(f);
  }

  lemma SameEarlier(lib: Library, truth: Json, draws: Draws, at: nat)
    requires HasAPast(lib, truth)
    ensures RolledBack(lib, truth, draws.(candidate := at)) == RolledBack(lib, truth, draws)
  {
  }

  /** The fields that can go missing: any entry below the root. */
  lemma MissingFieldsPlanted(body: Json, f: Faulted)
    requires WellFormed(body)
    ensures DrawnMissing(body, f)
            <==> && f.mutation.fault == MissingField && f.mutation.planted == Null
                 && f.mutation.path != []
                 && At(body, f.mutation.path) == Some(f.mutation.truth)
                 && f.body == DroppedAt(body, f.mutation.path)
  {
    var entry := Candidate(f.mutation.path, f.mutation.truth);
    if DrawnMissing(body, f) {
      var draws :| PlantMissingField(body, draws) == Success(f);
      EntryIsThere(body, Pick(Droppables(body, [], 0), draws.candidate));
    }
    if && f.mutation.fault == MissingField && f.mutation.planted == Null && f.mutation.path != []
       && At(body, f.mutation.path) == Some(f.mutation.truth) && f.body == DroppedAt(body, f.mutation.path)
    {
      assert entry.path[0..] == entry.path && entry.path[..0] == [];
      assert Position(body, entry.path[0]).Some?;
      DroppablesAreEntries(body, [], 0, entry);
      var at := PickReaches(Droppables(body, [], 0), entry);
      assert PlantMissingField(body, Draws(at, 0, 0, 0, 0, 0, 0)) == Success(f);
    }
  }
}
