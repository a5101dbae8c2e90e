/**
 The planted faults of a tool result: exactly one edit, which the oracle can undo.

 Random choices and the date library are parameters.
 */
module Faults {
  import opened Wrappers
  import opened Json

  datatype FaultType = WrongValue | MissingField | StaleRecord

  datatype Mutation = Mutation(fault: FaultType, path: Path, truth: Json, planted: Json)

  datatype Faulted = Faulted(body: Json, mutation: Mutation)

  /** The two exceptions a planter ends on: nothing here to break, and a date moved off the calendar. */
  datatype FaultError = NoFaultPossible | CalendarOverflow

  /** What the standard library contributes. Days are numbered; the calendar is a range of them. */
  datatype Library = Library(
    round2: real -> real,
    firstDay: int,
    lastDay: int,
    parseDate: string -> Option<int>,
    formatDate: int -> string,
    fold: string -> string,
    isAlnum: char -> bool,
    isDigit: char -> bool,
    isUpper: char -> bool)

  /** One draw of every random choice a planter may make. */
  datatype Draws = Draws(candidate: nat, delta: nat, factor: nat, shift: nat, sign: nat, position: nat, letter: nat)

  const IntDeltas: seq<int> := [-3, -2, -1, 1, 2, 3]
  const PriceFactors: seq<real> := [0.5, 0.75, 1.25, 1.5, 2.0]
  const DateShifts: seq<int> := [1, 2, 3, 7, 14, 30]

  const StatusRollback: map<string, string> := map[
    "cancelled" := "pending",
    "canceled" := "pending",
    "confirmed" := "pending",
    "completed" := "processing",
    "delivered" := "shipped",
    "shipped" := "processed",
    "processed" := "pending",
    "paid" := "pending",
    "returned" := "delivered",
    "exchanged" := "delivered",
    "exchange requested" := "delivered",
    "return requested" := "delivered"]

  /** Rounds to the nearest cent. */
  ghost predicate Rounds(round2: real -> real) {
    forall x: real :: IsCents(round2(x)) && -0.005 <= round2(x) - x <= 0.005
  }

  ghost predicate IsCents(r: real) {
    exists cents: int :: AreCents(r, cents)
  }

  ghost predicate AreCents(r: real, cents: int) { r * 100.0 == cents as real }

  predicate OnCalendar(lib: Library, day: int) { lib.firstDay <= day <= lib.lastDay }

  /**
   A date printed in ten characters reads back as itself (an early year may print shorter); what
   is read is on the calendar; folding leaves plain lower-case words alone; digits are alphanumeric.
   */
  ghost predicate Lawful(lib: Library) {
    && Rounds(lib.round2)
    && (forall d: int :: DateLaw(lib, d))
    && (forall text :: lib.parseDate(text).Some? ==> OnCalendar(lib, lib.parseDate(text).value))
    && (forall status <- StatusRollback :: lib.fold(StatusRollback[status]) == StatusRollback[status])
    && forall c: char :: lib.isDigit(c) ==> lib.isAlnum(c)
  }

  predicate DateLaw(lib: Library, day: int) {
    OnCalendar(lib, day) && |lib.formatDate(day)| == 10 ==> lib.parseDate(lib.formatDate(day)) == Some(day)
  }

  function Pick<T>(xs: seq<T>, draw: nat): (r: T)
    requires xs != []
    ensures r in xs
  {
    xs[draw % |xs|]
  }

  // ---- Wrong values --------------------------------------------------------------------------------

  predicate LooksLikeDate(lib: Library, text: string) {
    |text| >= 10 && text[4] == '-' && text[7] == '-' && forall i | 0 <= i < 4 :: lib.isDigit(text[i])
  }

  /** The date moved by `days`; nothing if the text is not one; an error if it leaves the calendar. */
  function ShiftDate(lib: Library, text: string, days: int): Result<Option<string>, FaultError> {
    if !LooksLikeDate(lib, text) then Success(None)
    else
      match lib.parseDate(text[..10])
      case None => Success(None)
      case Some(day) =>
        if !OnCalendar(lib, day + days) then Failure(CalendarOverflow)
        else Success(Some(lib.formatDate(day + days) + text[10..]))
  }

  function Positions(lib: Library, text: string, from: nat): (r: seq<nat>)
    requires from <= |text|
    ensures forall p <- r :: from <= p < |text| && lib.isAlnum(text[p])
    ensures r == [] <==> forall i | from <= i < |text| :: !lib.isAlnum(text[i])
    decreases |text| - from
  {
    if from == |text| then []
    else (if lib.isAlnum(text[from]) then [from] else []) + Positions(lib, text, from + 1)
  }

  /** The other letters of an alphabet. */
  function Others(alphabet: string, c: char): (r: string)
    ensures forall x :: x in r <==> x in alphabet && x != c
  {
    if alphabet == [] then []
    else (if alphabet[0] == c then [] else [alphabet[0]]) + Others(alphabet[1..], c)
  }

  function AlphabetOf(lib: Library, c: char): string {
    if lib.isDigit(c) then "0123456789"
    else if lib.isUpper(c) then "ABCDEFGHIJKLMNOPQRSTUVWXYZ"
    else "abcdefghijklmnopqrstuvwxyz"
  }

  lemma OthersExist(lib: Library, c: char)
    ensures Others(AlphabetOf(lib, c), c) != []
  {
    var alphabet := AlphabetOf(lib, c);
    assert alphabet[0] in alphabet && alphabet[1] in alphabet && alphabet[0] != alphabet[1];
    assert alphabet[0] in Others(alphabet, c) || alphabet[1] in Others(alphabet, c);
  }

  /** One alphanumeric character changed within its class; an error if there is none. */
  function Perturbed(lib: Library, text: string, draws: Draws): Result<string, FaultError> {
    var positions := Positions(lib, text, 0);
    if positions == [] then Failure(NoFaultPossible)
    else
      var at := Pick(positions, draws.position);
      OthersExist(lib, text[at]);
      Success(text[..at] + [Pick(Others(AlphabetOf(lib, text[at]), text[at]), draws.letter)] + text[at + 1..])
  }

  function DaysOf(draws: Draws): int { Pick(DateShifts, draws.shift) * Pick([-1, 1], draws.sign) }

  function WrongText(lib: Library, text: string, draws: Draws): Result<string, FaultError> {
    match ShiftDate(lib, text, DaysOf(draws))
    case Failure(error) => Failure(error)
    case Success(Some(shifted)) => Success(shifted)
    case Success(None) => Perturbed(lib, text, draws)
  }

  function Repriced(lib: Library, number: real, factor: real): (r: real)
    ensures r != number
  {
    var changed := lib.round2(number * factor);
    if changed != number then changed else number + 1.0
  }

  function WrongScalar(lib: Library, value: Json, draws: Draws): Result<Json, FaultError>
    requires IsScalar(value)
  {
    match value
    case Bool(flag) => Success(Bool(!flag))
    case Int(whole) => Success(Int(whole + Pick(IntDeltas, draws.delta)))
    case Float(number) => Success(Float(Repriced(lib, number, Pick(PriceFactors, draws.factor))))
    case Str(text) =>
      match WrongText(lib, text, draws)
      case Failure(error) => Failure(error)
      case Success(wrong) => Success(Str(wrong))
  }

  /** A moved date is a different text: another day, or another length. */
  lemma ShiftedDiffers(lib: Library, text: string, days: int)
    requires Lawful(lib) && days != 0
    ensures ShiftDate(lib, text, days) != Success(Some(text))
  {
    var shifted := ShiftDate(lib, text, days);
    if shifted.Success? && shifted.value.Some? {
      var day := lib.parseDate(text[..10]).value;
      var printed := lib.formatDate(day + days);
      assert DateLaw(lib, day + days);
      if |printed| == 10 { assert (printed + text[10..])[..10] == printed; }
    }
  }

  lemma PerturbedDiffers(lib: Library, text: string, draws: Draws)
    ensures Perturbed(lib, text, draws) != Success(text)
    ensures Perturbed(lib, text, draws).Success? ==> |Perturbed(lib, text, draws).value| == |text|
  {
    var positions := Positions(lib, text, 0);
    if positions != [] {
      var at := Pick(positions, draws.position);
      OthersExist(lib, text[at]);
      var letter := Pick(Others(AlphabetOf(lib, text[at]), text[at]), draws.letter);
      assert (text[..at] + [letter] + text[at + 1..])[at] == letter;
    }
  }

  /** A text with nothing to change: no letter and no digit. */
  predicate Unbreakable(lib: Library, value: Json) {
    value.Str? && forall i | 0 <= i < |value.text| :: !lib.isAlnum(value.text[i])
  }

  /** The draw moves this date off the calendar. */
  predicate LeavesCalendar(lib: Library, value: Json, days: int) {
    && value.Str? && LooksLikeDate(lib, value.text)
    && lib.parseDate(value.text[..10]).Some?
    && !OnCalendar(lib, lib.parseDate(value.text[..10]).value + days)
  }

  lemma ShiftsMove(draws: Draws)
    ensures DaysOf(draws) != 0 && Pick(DateShifts, draws.shift) != 0
  {
  }

  /** A wrong scalar is never the true one; there is none exactly for a text with no letter or digit, or a date at the calendar's end. */
  lemma WrongScalarDiffers(lib: Library, value: Json, draws: Draws)
    requires Lawful(lib) && IsScalar(value)
    ensures WrongScalar(lib, value, draws) != Success(value)
    ensures WrongScalar(lib, value, draws).Success? ==> IsScalar(WrongScalar(lib, value, draws).value)
    ensures WrongScalar(lib, value, draws) == Failure(NoFaultPossible) <==> Unbreakable(lib, value)
    ensures WrongScalar(lib, value, draws) == Failure(CalendarOverflow) <==> LeavesCalendar(lib, value, DaysOf(draws))
  {
    if value.Str? { WrongTextDiffers(lib, value.text, draws); }
  }

  lemma WrongTextDiffers(lib: Library, text: string, draws: Draws)
    requires Lawful(lib)
    ensures WrongText(lib, text, draws) != Success(text)
    ensures WrongText(lib, text, draws) == Failure(NoFaultPossible) <==> Unbreakable(lib, Str(text))
    ensures WrongText(lib, text, draws) == Failure(CalendarOverflow) <==> LeavesCalendar(lib, Str(text), DaysOf(draws))
  {
    ShiftsMove(draws);
    ShiftedDiffers(lib, text, DaysOf(draws));
    PerturbedDiffers(lib, text, draws);
    if LooksLikeDate(lib, text) { assert lib.isDigit(text[0]); }
  }

  /** `body` with the drawn scalar leaf made wrong. */
  function PlantWrongValue(lib: Library, body: Json, draws: Draws): Result<Faulted, FaultError>
    requires WellFormed(body)
  {
    PlantAt(lib, body, Scalars(body, []), WrongValue, draws)
  }

  function PlantAt(lib: Library, body: Json, candidates: seq<Candidate>, fault: FaultType, draws: Draws)
      : Result<Faulted, FaultError>
    requires WellFormed(body) && fault != MissingField
    requires forall c <- candidates :: c in Scalars(body, [])
    requires fault == StaleRecord ==> forall c <- candidates :: HasAPast(lib, c.value)
  {
    if candidates == [] then Failure(NoFaultPossible)
    else
      var chosen := Pick(candidates, draws.candidate);
      ChosenIsThere(body, chosen);
      var wrong := if fault == WrongValue then WrongScalar(lib, chosen.value, draws)
                   else RolledBack(lib, chosen.value, draws);
      match wrong
      case Failure(error) => Failure(error)
      case Success(planted) =>
        Success(Faulted(ReplacedAt(body, chosen.path, planted), Mutation(fault, chosen.path, chosen.value, planted)))
  }

  lemma ChosenIsThere(body: Json, c: Candidate)
    requires WellFormed(body) && c in Scalars(body, [])
    ensures At(body, c.path) == Some(c.value) && IsScalar(c.value)
  {
    ScalarsAreLeaves(body, [], c);
    assert c.path[0..] == c.path;
  }

  // ---- Stale records -------------------------------------------------------------------------------

  predicate HasAPast(lib: Library, value: Json) {
    match value
    case Bool(flag) => flag
    case Int(whole) => whole > 0
    case Float(number) => number > 0.0
    case Str(text) => lib.fold(text) in StatusRollback || LooksLikeDate(lib, text)
    case _ => false
  }

  /** `value` as it plausibly was earlier. */
  function RolledBack(lib: Library, value: Json, draws: Draws): Result<Json, FaultError>
    requires HasAPast(lib, value)
  {
    match value
    case Bool(_) => Success(Bool(false))
    case Int(whole) => Success(Int(whole - 1))
    case Float(number) => Success(Float(lib.round2(number * 0.8)))
    case Str(text) =>
      if lib.fold(text) in StatusRollback then Success(Str(StatusRollback[lib.fold(text)]))
      else
        match ShiftDate(lib, text, -Pick(DateShifts, draws.shift))
        case Failure(error) => Failure(error)
        case Success(None) => Failure(NoFaultPossible)
        case Success(Some(shifted)) => Success(Str(shifted))
  }

  /** The floats that lose nothing when four fifths of them are rounded to cents. */
  predicate RoundsToItself(value: Json) {
    value.Float? && (value.number == 0.01 || value.number == 0.02)
  }

  lemma CentsOf(round2: real -> real, x: real) returns (cents: int)
    requires Rounds(round2)
    ensures round2(x) * 100.0 == cents as real
    ensures x * 100.0 - 0.5 <= cents as real <= x * 100.0 + 0.5
  {
    assert IsCents(round2(x)) && -0.005 <= round2(x) - x <= 0.005;
    cents :| AreCents(round2(x), cents);
  }

  lemma FloatRollsBack(round2: real -> real, number: real)
    requires Rounds(round2) && number > 0.0
    ensures round2(number * 0.8) == number <==> number == 0.01 || number == 0.02
  {
    var cents := CentsOf(round2, number * 0.8);
    if round2(number * 0.8) == number {
      assert cents as real <= 2.5;
      assert 0 < cents <= 2;
    }
    if number == 0.01 { assert cents == 1; }
    if number == 0.02 { assert cents == 2; }
  }

  /** Rolling back changes the value, except exactly one and two cents. */
  lemma RolledBackDiffersIff(lib: Library, value: Json, draws: Draws)
    requires Lawful(lib) && HasAPast(lib, value)
    ensures RolledBack(lib, value, draws) == Success(value) <==> RoundsToItself(value)
  {
    match value {
      case Float(number) => FloatRollsBack(lib.round2, number);
      case Str(text) =>
        if lib.fold(text) in StatusRollback {
          RollbackHasNoFixedPoint(lib.fold(text));
        } else {
          ShiftsMove(draws);
          ShiftedDiffers(lib, text, -Pick(DateShifts, draws.shift));
        }
      case _ =>
    }
  }

  lemma RollbackHasNoFixedPoint(status: string)
    requires status in StatusRollback
    ensures StatusRollback[status] != status
  {
  }

  function WithAPast(lib: Library, candidates: seq<Candidate>): (r: seq<Candidate>)
    ensures forall c :: c in r <==> c in candidates && HasAPast(lib, c.value)
  {
    if candidates == [] then []
    else (if HasAPast(lib, candidates[0].value) then [candidates[0]] else []) + WithAPast(lib, candidates[1..])
  }

  predicate Outdated(body: Json, earlier: Option<Json>) {
    earlier.Some? && earlier.value != body
  }

  /** The whole earlier result when it differs, otherwise one value rolled back. */
  function PlantStaleRecord(lib: Library, body: Json, earlier: Option<Json>, draws: Draws): Result<Faulted, FaultError>
    requires WellFormed(body)
  {
    if Outdated(body, earlier) then
      Success(Faulted(earlier.value, Mutation(StaleRecord, [], body, earlier.value)))
    else PlantAt(lib, body, WithAPast(lib, Scalars(body, [])), StaleRecord, draws)
  }

  // ---- Missing fields ------------------------------------------------------------------------------

  function PlantMissingField(body: Json, draws: Draws): Result<Faulted, FaultError>
    requires WellFormed(body)
  {
    var candidates := Droppables(body, [], 0);
    if candidates == [] then Failure(NoFaultPossible)
    else
      var chosen := Pick(candidates, draws.candidate);
      EntryIsThere(body, chosen);
      Success(Faulted(DroppedAt(body, chosen.path), Mutation(MissingField, chosen.path, chosen.value, Null)))
  }

  lemma EntryIsThere(body: Json, c: Candidate)
    requires WellFormed(body) && c in Droppables(body, [], 0)
    ensures c.path != [] && At(body, c.path) == Some(c.value)
  {
    DroppablesAreEntries(body, [], 0, c);
    assert c.path[0..] == c.path;
  }

  // ---- What every mutation is ----------------------------------------------------------------------

  /** The edit is where the mutation says, of what it says, and putting the old value back undoes it. */
  ghost predicate EditedAt(body: Json, f: Faulted) {
    && At(body, f.mutation.path) == Some(f.mutation.truth)
    && At(f.body, f.mutation.path) == Some(f.mutation.planted)
    && ReplacedAt(f.body, f.mutation.path, f.mutation.truth) == body
    && forall other | Diverge(f.mutation.path, other) :: At(f.body, other) == At(body, other)
  }

  lemma ReplacingEdits(body: Json, path: Path, value: Json, fault: FaultType)
    requires WellFormed(body) && At(body, path).Some?
    ensures EditedAt(body, Faulted(ReplacedAt(body, path, value), Mutation(fault, path, At(body, path).value, value)))
    ensures ReplacedAt(body, path, value) == body <==> value == At(body, path).value
  {
    PutThenGet(body, path, value);
    PutTwice(body, path, value, At(body, path).value);
    GetThenPut(body, path);
    forall other | Diverge(path, other) ensures At(ReplacedAt(body, path, value), other) == At(body, other) {
      PutElsewhere(body, path, value, other);
    }
  }

  /** A wrong value is planted at one scalar, always differs from the truth, and the oracle fix undoes it. */
  lemma WrongValueIsUndone(lib: Library, body: Json, draws: Draws)
    requires Lawful(lib) && WellFormed(body)
    ensures var f := PlantWrongValue(lib, body, draws);
            f.Success? ==> EditedAt(body, f.value) && f.value.body != body && IsScalar(f.value.mutation.truth)
  {
    var candidates := Scalars(body, []);
    if candidates != [] {
      var chosen := Pick(candidates, draws.candidate);
      ChosenIsThere(body, chosen);
      WrongScalarDiffers(lib, chosen.value, draws);
      var wrong := WrongScalar(lib, chosen.value, draws);
      if wrong.Success? { ReplacingEdits(body, chosen.path, wrong.value, WrongValue); }
    }
  }

  /** Why a wrong value cannot be planted: no scalar at all, or the drawn leaf cannot be made wrong. */
  lemma WrongValuePossible(lib: Library, body: Json, draws: Draws)
    requires Lawful(lib) && WellFormed(body)
    ensures var leaves := Scalars(body, []);
            && (PlantWrongValue(lib, body, draws) == Failure(NoFaultPossible)
                <==> leaves == [] || Unbreakable(lib, Pick(leaves, draws.candidate).value))
            && (PlantWrongValue(lib, body, draws) == Failure(CalendarOverflow)
                <==> leaves != [] && LeavesCalendar(lib, Pick(leaves, draws.candidate).value, DaysOf(draws)))
  {
    if Scalars(body, []) != [] {
      var chosen := Pick(Scalars(body, []), draws.candidate);
      ChosenIsThere(body, chosen);
      WrongScalarDiffers(lib, chosen.value, draws);
    }
  }

  /** A stale record differs from the truth unless it rolled back one or two cents; the oracle fix undoes it. */
  lemma StaleRecordIsUndone(lib: Library, body: Json, earlier: Option<Json>, draws: Draws)
    requires Lawful(lib) && WellFormed(body)
    ensures var f := PlantStaleRecord(lib, body, earlier, draws);
            f.Success? ==>
              && EditedAt(body, f.value)
              && (f.value.body == body <==> !Outdated(body, earlier) && RoundsToItself(f.value.mutation.truth))
  {
    var candidates := WithAPast(lib, Scalars(body, []));
    if Outdated(body, earlier) {
      ReplacingEdits(body, [], earlier.value, StaleRecord);
    } else if candidates != [] {
      var chosen := Pick(candidates, draws.candidate);
      ChosenIsThere(body, chosen);
      RolledBackDiffersIff(lib, chosen.value, draws);
      var rolled := RolledBack(lib, chosen.value, draws);
      if rolled.Success? { ReplacingEdits(body, chosen.path, rolled.value, StaleRecord); }
    }
  }

  /** A missing field loses one entry and all below it, and differs from the truth. */
  lemma MissingFieldLosesOneEntry(body: Json, draws: Draws)
    requires WellFormed(body)
    ensures var f := PlantMissingField(body, draws);
            && (f.Failure? <==> Arity(body) == 0)
            && (f.Success? ==>
                  && At(body, f.value.mutation.path) == Some(f.value.mutation.truth)
                  && Nodes(f.value.body) + Nodes(f.value.mutation.truth) == Nodes(body)
                  && f.value.body != body)
  {
    var candidates := Droppables(body, [], 0);
    if candidates != [] {
      var chosen := Pick(candidates, draws.candidate);
      EntryIsThere(body, chosen);
      DropLosesOneSubtree(body, chosen.path);
    }
  }

  // ---- A library that keeps the laws ---------------------------------------------------------------

  function DigitOf(n: nat): char
    requires n < 10
  {
    ('0' as int + n) as char
  }

  predicate IsDigit(c: char) { '0' <= c <= '9' }

  function ValueOf(c: char): nat
    requires IsDigit(c)
  {
    c as int - '0' as int
  }

  lemma ValueOfDigit(n: nat)
    requires n < 10
    ensures IsDigit(DigitOf(n)) && ValueOf(DigitOf(n)) == n
  {
  }

  function TwoDigits(n: nat): string
    requires n < 100
  {
    [DigitOf(n / 10), DigitOf(n % 10)]
  }

  function Printed(century: nat, year: nat, month: nat, day: nat): string
    requires century < 100 && year < 100 && month < 100 && day < 100
  {
    TwoDigits(century) + TwoDigits(year) + "-" + TwoDigits(month) + "-" + TwoDigits(day)
  }

  /** A plain calendar: ten thousand years of twelve months of thirty-one days. */
  function FormatPlain(day: int): string {
    if 0 <= day < 3_720_000 then
      Printed(day / 372 / 100, day / 372 % 100, day % 372 / 31 + 1, day % 31 + 1)
    else ""
  }

  predicate PlainShape(text: string) {
    && |text| == 10 && text[4] == '-' && text[7] == '-'
    && forall i | 0 <= i < 10 && i != 4 && i != 7 :: IsDigit(text[i])
  }

  function TwoAt(text: string, i: nat): nat
    requires i + 1 < |text| && IsDigit(text[i]) && IsDigit(text[i + 1])
  {
    ValueOf(text[i]) * 10 + ValueOf(text[i + 1])
  }

  function ParsePlain(text: string): (r: Option<int>)
    ensures r.Some? ==> 0 <= r.value < 3_720_000
  {
    if !PlainShape(text) then None
    else
      var year, month, day := TwoAt(text, 0) * 100 + TwoAt(text, 2), TwoAt(text, 5), TwoAt(text, 8);
      if 1 <= month <= 12 && 1 <= day <= 31 then Some(year * 372 + (month - 1) * 31 + (day - 1)) else None
  }

  lemma TwoDigitsRead(n: nat, text: string, i: nat)
    requires n < 100 && i + 1 < |text| && text[i] == TwoDigits(n)[0] && text[i + 1] == TwoDigits(n)[1]
    ensures IsDigit(text[i]) && IsDigit(text[i + 1]) && TwoAt(text, i) == n
  {
    ValueOfDigit(n / 10);
    ValueOfDigit(n % 10);
  }

  lemma PrintedReads(century: nat, year: nat, month: nat, day: nat, total: int)
    requires century < 100 && year < 100 && 1 <= month <= 12 && 1 <= day <= 31
    requires total == (century * 100 + year) * 372 + (month - 1) * 31 + (day - 1)
    ensures |Printed(century, year, month, day)| == 10
    ensures ParsePlain(Printed(century, year, month, day)) == Some(total)
  {
    var text := Printed(century, year, month, day);
    TwoDigitsRead(century, text, 0);
    TwoDigitsRead(year, text, 2);
    TwoDigitsRead(month, text, 5);
    TwoDigitsRead(day, text, 8);
  }

  lemma PlainReadsBack(day: int)
    requires 0 <= day < 3_720_000
    ensures |FormatPlain(day)| == 10 && ParsePlain(FormatPlain(day)) == Some(day)
  {
    DayParts(day);
    PrintedReads(day / 372 / 100, day / 372 % 100, day % 372 / 31 + 1, day % 31 + 1, day);
  }

  lemma DayParts(day: nat)
    requires day < 3_720_000
    ensures day / 372 / 100 < 100 && day % 372 / 31 < 12
    ensures (day / 372 / 100 * 100 + day / 372 % 100) * 372 + day % 372 / 31 * 31 + day % 31 == day
  {
    var year, rest := day / 372, day % 372;
    assert year / 100 * 100 + year % 100 == year;
    assert rest / 31 * 31 + rest % 31 == rest;
    assert day == year * 12 * 31 + rest;
  }

  function RoundHalfUp(x: real): real {
    (x * 100.0 + 0.5).Floor as real / 100.0
  }

  predicate IsLetterOrDigit(c: char) { IsDigit(c) || 'a' <= c <= 'z' || 'A' <= c <= 'Z' }

  function PlainLibrary(): Library {
    Library(RoundHalfUp, 0, 3_719_999, ParsePlain, FormatPlain, (text: string) => text, IsLetterOrDigit, IsDigit,
            (c: char) => 'A' <= c <= 'Z')
  }

  /** The laws can be kept: this library keeps them, and moves dates. */
  lemma PlainLibraryIsLawful()
    ensures Lawful(PlainLibrary())
    ensures ShiftDate(PlainLibrary(), "2024-05-31", 1) == Success(Some("2024-06-01"))
    ensures ShiftDate(PlainLibrary(), "9999-12-31", 1) == Failure(CalendarOverflow)
  {
    var lib := PlainLibrary();
    forall x: real ensures IsCents(RoundHalfUp(x)) && -0.005 <= RoundHalfUp(x) - x <= 0.005 {
      assert AreCents(RoundHalfUp(x), (x * 100.0 + 0.5).Floor);
    }
    forall d: int ensures DateLaw(lib, d) {
      if OnCalendar(lib, d) { PlainReadsBack(d); }
    }
    LastOfMay();
    LastOfAll();
  }

  lemma Shifts(text: string, day: int, days: int)
    requires |text| == 10 && LooksLikeDate(PlainLibrary(), text) && ParsePlain(text) == Some(day)
    ensures ShiftDate(PlainLibrary(), text, days)
            == if 0 <= day + days < 3_720_000 then Success(Some(FormatPlain(day + days))) else Failure(CalendarOverflow)
  {
    assert text[..10] == text && text[10..] == [];
    assert FormatPlain(day + days) + [] == FormatPlain(day + days);
  }

  lemma LastOfMay()
    ensures ShiftDate(PlainLibrary(), "2024-05-31", 1) == Success(Some("2024-06-01"))
  {
    MayPrints();
    PrintedReads(20, 24, 5, 31, 753_082);
    Shifts("2024-05-31", 753_082, 1);
  }

  lemma MayPrints()
    ensures Printed(20, 24, 5, 31) == "2024-05-31"
    ensures FormatPlain(753_083) == "2024-06-01"
  {
    assert FormatPlain(753_083) == Printed(20, 24, 6, 1);
  }

  lemma LastOfAll()
    ensures ShiftDate(PlainLibrary(), "9999-12-31", 1) == Failure(CalendarOverflow)
  {
    PrintedReads(99, 99, 12, 31, 3_719_999);
    assert Printed(99, 99, 12, 31) == "9999-12-31";
    Shifts("9999-12-31", 3_719_999, 1);
  }
}
