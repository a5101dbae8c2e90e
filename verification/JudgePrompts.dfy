/**
 Fitting a trajectory into the judge's prompt: every step is rendered, payloads are cut in the
 middle, and one uniform budget is searched for.
 */
module JudgePrompts {
  import opened Wrappers
  import opened Numerals
  import Reals

  const MinCharsPerStep := 80

  datatype Policy = Policy(maxCharsPerStep: nat, headFraction: real, maxTotalChars: nat)
  {
    function WithStepBudget(chars: nat): Policy {
      this.(maxCharsPerStep := if chars < MinCharsPerStep then MinCharsPerStep else chars)
    }
  }

  predicate ValidPolicy(p: Policy) {
    p.maxCharsPerStep > 0 && 0.0 < p.headFraction < 1.0 && p.maxTotalChars > 0
  }

  type Redact = string -> string

  function Marker(elided: nat): string {
    "…[" + Decimal(elided) + " characters elided]…"
  }

  /** How many of `limit` characters come from the beginning. */
  function Head(limit: nat, fraction: real): (r: nat)
    requires limit > 0 && 0.0 < fraction < 1.0
    ensures r < limit
  {
    HeadFits(limit as real, fraction, limit as real * fraction);
    (limit as real * fraction).Floor
  }

  lemma HeadFits(limit: real, fraction: real, product: real)
    requires limit > 0.0 && 0.0 < fraction < 1.0 && product == limit * fraction
    ensures 0.0 < product < limit
  {
    Reals.Positive(limit, fraction, product);
    Reals.Positive(limit, 1.0 - fraction, limit - product);
  }

  function Truncate(redact: Redact, text: string, p: Policy): string
    requires ValidPolicy(p)
  {
    var safe, limit := redact(text), p.maxCharsPerStep;
    if |safe| <= limit then safe
    else
      var head := Head(limit, p.headFraction);
      var tail := limit - head;
      safe[..head] + Marker(|safe| - limit) + safe[|safe| - tail..]
  }

  /** What is kept is a beginning and an end, and with what the marker counts they are the whole text. */
  lemma TruncateKeepsBothEnds(redact: Redact, text: string, p: Policy)
    requires ValidPolicy(p)
    ensures var safe, r := redact(text), Truncate(redact, text, p);
            if |safe| <= p.maxCharsPerStep then r == safe
            else exists head, tail, elided ::
                   CutOut(safe, p.maxCharsPerStep, head, tail, elided, r) && IsHead(p.maxCharsPerStep, p.headFraction, head)
  {
    var safe, limit := redact(text), p.maxCharsPerStep;
    if |safe| > limit {
      var head := Head(limit, p.headFraction);
      assert CutOut(safe, limit, head, limit - head, |safe| - limit, Truncate(redact, text, p));
      assert IsHead(limit, p.headFraction, head);
    }
  }

  /** The beginning is the given share of the limit, in whole characters. */
  predicate IsHead(limit: nat, fraction: real, head: nat) {
    head as real <= limit as real * fraction < head as real + 1.0
  }

  /** `r` is `safe` with `elided` characters from its middle replaced by a marker that counts them. */
  predicate CutOut(safe: string, limit: nat, head: nat, tail: nat, elided: nat, r: string) {
    && 0 < tail && 0 < elided
    && head + tail == limit
    && head + elided + tail == |safe|
    && r == safe[..head] + ("…[" + Decimal(elided) + " characters elided]…") + safe[|safe| - tail..]
  }

  function MarkerLength(elided: nat): nat { 22 + |Decimal(elided)| }

  lemma TruncatedLength(redact: Redact, text: string, p: Policy)
    requires ValidPolicy(p)
    ensures |Truncate(redact, text, p)|
            == if |redact(text)| <= p.maxCharsPerStep then |redact(text)|
               else p.maxCharsPerStep + MarkerLength(|redact(text)| - p.maxCharsPerStep)
  {
    assert |"…["| == 2 && |" characters elided]…"| == 20;
  }

  /** A budget one short of a text costs more than the text itself: the length is not monotone. */
  lemma OneShortIsLonger(redact: Redact, text: string, p: Policy)
    requires ValidPolicy(p) && |redact(text)| == p.maxCharsPerStep + 1
    ensures |Truncate(redact, text, p)| > |Truncate(redact, text, p.(maxCharsPerStep := p.maxCharsPerStep + 1))|
  {
    TruncatedLength(redact, text, p);
    TruncatedLength(redact, text, p.(maxCharsPerStep := p.maxCharsPerStep + 1));
  }

  // ---- Rendering -----------------------------------------------------------------------------------

  /** A step as the judge sees it: who acted, with which tool and arguments, if any, and what came back. */
  datatype StepView = StepView(idx: nat, actor: string, tool: Option<string>, args: Option<string>, content: string)

  function Header(step: StepView): string {
    "[step " + Decimal(step.idx) + "] " + step.actor
    + if step.tool.Some? && step.tool.value != "" then " · " + step.tool.value else ""
  }

  function RenderStep(redact: Redact, step: StepView, p: Policy): string
    requires ValidPolicy(p)
  {
    Header(step)
    + (match step.args
       case None => ""
       case Some(args) => "\n  args: " + Truncate(redact, args, p.WithStepBudget(p.maxCharsPerStep / 3)))
    + "\n  " + Truncate(redact, step.content, p)
  }

  function RenderAt(redact: Redact, steps: seq<StepView>, p: Policy): string
    requires ValidPolicy(p)
  {
    if steps == [] then ""
    else if |steps| == 1 then RenderStep(redact, steps[0], p)
    else RenderStep(redact, steps[0], p) + "\n" + RenderAt(redact, steps[1..], p)
  }

  function AtBudget(redact: Redact, steps: seq<StepView>, p: Policy, budget: nat): string
    requires ValidPolicy(p)
  {
    RenderAt(redact, steps, p.WithStepBudget(budget))
  }

  /** The rendering as a function of the budget. */
  function Renderer(redact: Redact, steps: seq<StepView>, p: Policy): nat -> string
    requires ValidPolicy(p)
  {
    (budget: nat) => AtBudget(redact, steps, p, budget)
  }

  function Within(render: nat -> string, total: nat): nat -> bool {
    (budget: nat) => |render(budget)| <= total
  }

  /** Whether a budget's rendering fits the total. */
  function Fits(redact: Redact, steps: seq<StepView>, p: Policy): nat -> bool
    requires ValidPolicy(p)
  {
    Within(Renderer(redact, steps, p), p.maxTotalChars)
  }

  /** The budget the binary search settles on. */
  function Search(fits: nat -> bool, low: nat, high: nat): nat
    decreases high - low
  {
    if low >= high then low
    else
      var middle := (low + high + 1) / 2;
      if fits(middle) then Search(fits, middle, high) else Search(fits, low, middle - 1)
  }

  function Chosen(redact: Redact, steps: seq<StepView>, p: Policy): nat
    requires ValidPolicy(p)
  {
    Search(Fits(redact, steps, p), MinCharsPerStep, p.maxCharsPerStep)
  }

  function Rendered(redact: Redact, steps: seq<StepView>, p: Policy): string
    requires ValidPolicy(p)
  {
    if steps == [] then ""
    else if |RenderAt(redact, steps, p)| <= p.maxTotalChars then RenderAt(redact, steps, p)
    else AtBudget(redact, steps, p, Chosen(redact, steps, p))
  }

  // ---- Every step is there -------------------------------------------------------------------------

  /** `shown` is the text, redacted and within the limit, whole or cut in the middle. */
  ghost predicate Shows(redact: Redact, text: string, limit: nat, fraction: real, shown: string) {
    var safe := redact(text);
    if |safe| <= limit then shown == safe
    else exists head, tail, elided :: CutOut(safe, limit, head, tail, elided, shown) && IsHead(limit, fraction, head)
  }

  /** The lines of one step: who acted, the arguments when it has any, and the payload. */
  ghost predicate PieceOf(redact: Redact, step: StepView, budget: nat, fraction: real, piece: string) {
    exists args, content :: PieceWith(redact, step, budget, fraction, args, content, piece)
  }

  ghost predicate PieceWith(redact: Redact, step: StepView, budget: nat, fraction: real, args: string, content: string,
                            piece: string)
  {
    && Shows(redact, step.content, budget, fraction, content)
    && (step.args.Some? ==> Shows(redact, step.args.value, if budget / 3 < 80 then 80 else budget / 3, fraction, args))
    && piece == ("[step " + Decimal(step.idx) + "] " + step.actor
                 + if step.tool.Some? && step.tool.value != "" then " · " + step.tool.value else "")
                + (if step.args.Some? then "\n  args: " + args else "") + ("\n  " + content)
  }

  /** The pieces one after another, a line break between each two. */
  function Joined(pieces: seq<string>): string
    requires pieces != []
  {
    if |pieces| == 1 then pieces[0] else Joined(pieces[..|pieces| - 1]) + "\n" + pieces[|pieces| - 1]
  }

  /** One piece for every step, in tape order, all at one budget. */
  ghost predicate ShowsAt(redact: Redact, steps: seq<StepView>, budget: nat, fraction: real, r: string) {
    exists pieces :: AllPieces(redact, steps, budget, fraction, pieces) && pieces != [] && r == Joined(pieces)
  }

  ghost predicate AllPieces(redact: Redact, steps: seq<StepView>, budget: nat, fraction: real, pieces: seq<string>) {
    |pieces| == |steps| && forall i | 0 <= i < |steps| :: PieceOf(redact, steps[i], budget, fraction, pieces[i])
  }

  /** The rendering shows every step, at the policy's own budget or, if that is too long, at one of at least 80. */
  ghost predicate ShowsEveryStep(redact: Redact, steps: seq<StepView>, p: Policy, r: string) {
    exists budget: nat :: ShowsAt(redact, steps, budget, p.headFraction, r)
                     && (budget == p.maxCharsPerStep || (80 <= budget && (budget <= p.maxCharsPerStep || budget == 80)))
                     && (|r| > p.maxTotalChars ==> budget == 80)
  }

  lemma TruncateShows(redact: Redact, text: string, p: Policy)
    requires ValidPolicy(p)
    ensures Shows(redact, text, p.maxCharsPerStep, p.headFraction, Truncate(redact, text, p))
  {
    TruncateKeepsBothEnds(redact, text, p);
  }

  lemma StepIsPiece(redact: Redact, step: StepView, p: Policy)
    requires ValidPolicy(p)
    ensures PieceOf(redact, step, p.maxCharsPerStep, p.headFraction, RenderStep(redact, step, p))
  {
    TruncateShows(redact, step.content, p);
    var q := p.WithStepBudget(p.maxCharsPerStep / 3);
    var content, args := Truncate(redact, step.content, p), if step.args.Some? then Truncate(redact, step.args.value, q) else "";
    if step.args.Some? { TruncateShows(redact, step.args.value, q); }
    var before := Header(step) + if step.args.Some? then "\n  args: " + args else "";
    assert before + "\n  " + content == before + ("\n  " + content);
    assert PieceWith(redact, step, p.maxCharsPerStep, p.headFraction, args, content, RenderStep(redact, step, p));
  }

  lemma {:induction false} JoinedFront(piece: string, pieces: seq<string>)
    requires pieces != []
    ensures Joined([piece] + pieces) == piece + "\n" + Joined(pieces)
  {
    if |pieces| == 1 {
      assert ([piece] + pieces)[..1] == [piece];
    } else {
      assert ([piece] + pieces)[..|pieces|] == [piece] + pieces[..|pieces| - 1];
      JoinedFront(piece, pieces[..|pieces| - 1]);
    }
  }

  lemma {:induction false} RenderingShows(redact: Redact, steps: seq<StepView>, p: Policy)
    requires ValidPolicy(p) && steps != []
    ensures ShowsAt(redact, steps, p.maxCharsPerStep, p.headFraction, RenderAt(redact, steps, p))
  {
    var first := RenderStep(redact, steps[0], p);
    StepIsPiece(redact, steps[0], p);
    if |steps| == 1 {
      assert AllPieces(redact, steps, p.maxCharsPerStep, p.headFraction, [first]);
    } else {
      RenderingShows(redact, steps[1..], p);
      OneMoreShown(redact, steps, p.maxCharsPerStep, p.headFraction, first, RenderAt(redact, steps[1..], p));
    }
  }

  lemma OneMoreShown(redact: Redact, steps: seq<StepView>, budget: nat, fraction: real, first: string, shown: string)
    requires steps != [] && PieceOf(redact, steps[0], budget, fraction, first)
    requires ShowsAt(redact, steps[1..], budget, fraction, shown)
    ensures ShowsAt(redact, steps, budget, fraction, first + "\n" + shown)
  {
    var rest :| AllPieces(redact, steps[1..], budget, fraction, rest) && rest != [] && shown == Joined(rest);
    MorePieces(redact, steps, budget, fraction, first, rest);
    JoinedFront(first, rest);
    assert [first] + rest != [];
  }

  lemma MorePieces(redact: Redact, steps: seq<StepView>, budget: nat, fraction: real, first: string, rest: seq<string>)
    requires steps != [] && PieceOf(redact, steps[0], budget, fraction, first)
    requires AllPieces(redact, steps[1..], budget, fraction, rest)
    ensures AllPieces(redact, steps, budget, fraction, [first] + rest)
  {
    forall i | 0 <= i < |steps| ensures PieceOf(redact, steps[i], budget, fraction, ([first] + rest)[i]) {
      if i > 0 { assert steps[1..][i - 1] == steps[i]; }
    }
  }

  /** Every step, in tape order: none is dropped, whatever the budget. */
  lemma RenderedShowsEveryStep(redact: Redact, steps: seq<StepView>, p: Policy)
    requires ValidPolicy(p)
    ensures steps != [] ==> ShowsEveryStep(redact, steps, p, Rendered(redact, steps, p))
    ensures steps == [] ==> Rendered(redact, steps, p) == ""
  {
    if steps != [] {
      if |RenderAt(redact, steps, p)| <= p.maxTotalChars {
        RenderingShows(redact, steps, p);
      } else {
        var budget := Chosen(redact, steps, p);
        ChosenIsFloorOrFits(redact, steps, p);
        RenderingShows(redact, steps, p.WithStepBudget(budget));
      }
    }
  }

  lemma ChosenIsFloorOrFits(redact: Redact, steps: seq<StepView>, p: Policy)
    requires ValidPolicy(p) && |RenderAt(redact, steps, p)| > p.maxTotalChars
    ensures var b := Chosen(redact, steps, p);
            && 80 <= b && (b <= p.maxCharsPerStep || b == 80)
            && (|AtBudget(redact, steps, p, b)| > p.maxTotalChars ==> b == 80)
  {
    if p.maxCharsPerStep >= MinCharsPerStep { SearchSettles(Fits(redact, steps, p), MinCharsPerStep, p.maxCharsPerStep); }
  }

  /** Where a piece stands in what they are joined to. */
  function Offset(pieces: seq<string>, i: nat): nat
    requires i <= |pieces|
  {
    if i == 0 then 0 else Offset(pieces, i - 1) + |pieces[i - 1]| + 1
  }

  lemma {:induction false} JoinedLength(pieces: seq<string>)
    requires pieces != []
    ensures |Joined(pieces)| == Offset(pieces, |pieces|) - 1
  {
    if |pieces| > 1 {
      JoinedLength(pieces[..|pieces| - 1]);
      OffsetsKept(pieces, |pieces| - 1, |pieces| - 1);
    }
  }

  /** `piece` stands in `text` at `at`. */
  predicate StandsAt(text: string, at: nat, piece: string) {
    at + |piece| <= |text| && text[at..at + |piece|] == piece
  }

  lemma StillStands(text: string, at: nat, piece: string, more: string)
    requires StandsAt(text, at, piece)
    ensures StandsAt(text + more, at, piece)
  {
  }

  /** Each piece is there whole, and a line break stands after each but the last. */
  lemma {:induction false} JoinedAt(pieces: seq<string>, i: nat)
    requires i < |pieces|
    ensures StandsAt(Joined(pieces), Offset(pieces, i), pieces[i])
    ensures i + 1 < |pieces| ==> StandsAt(Joined(pieces), Offset(pieces, i) + |pieces[i]|, "\n")
    decreases |pieces|
  {
    if |pieces| > 1 {
      var init, last := pieces[..|pieces| - 1], pieces[|pieces| - 1];
      JoinedLength(init);
      OffsetsKept(pieces, |init|, |init|);
      assert Joined(pieces) == Joined(init) + ("\n" + last);
      if i < |init| {
        JoinedAt(init, i);
        OffsetsKept(pieces, |init|, i);
        StillStands(Joined(init), Offset(pieces, i), pieces[i], "\n" + last);
        if i + 1 < |init| { StillStands(Joined(init), Offset(pieces, i) + |pieces[i]|, "\n", "\n" + last); }
      }
    }
  }

  lemma {:induction false} OffsetsKept(pieces: seq<string>, n: nat, i: nat)
    requires i <= n <= |pieces|
    ensures Offset(pieces[..n], i) == Offset(pieces, i)
  {
    if i > 0 { OffsetsKept(pieces, n, i - 1); }
  }

  /** `render_trajectory`. */
  method RenderTrajectory(redact: Redact, steps: seq<StepView>, p: Policy) returns (r: string)
    requires ValidPolicy(p)
    ensures r == Rendered(redact, steps, p)
    ensures steps != [] ==> ShowsEveryStep(redact, steps, p, r)
  {
    RenderedShowsEveryStep(redact, steps, p);
    if steps == [] {
      return "";
    }
    r := RenderAt(redact, steps, p);
    if |r| <= p.maxTotalChars {
      return r;
    }
    r := SearchBudget(Renderer(redact, steps, p), p.maxTotalChars, MinCharsPerStep, p.maxCharsPerStep);
  }

  /** Its binary search: the rendering at the budget the bounds close in on. */
  method SearchBudget(render: nat -> string, total: nat, floor: nat, most: nat) returns (best: string)
    requires floor > 0
    ensures best == render(Search(Within(render, total), floor, most))
  {
    var low: int, high: int := floor, most;
    best := render(low);
    while low < high
      invariant 0 < low && 0 <= high
      invariant best == render(low)
      invariant Search(Within(render, total), low, high) == Search(Within(render, total), floor, most)
      decreases high - low
    {
      var middle := (low + high + 1) / 2;
      var candidate := render(middle);
      SearchHalves(Within(render, total), low, high);
      if |candidate| <= total {
        best, low := candidate, middle;
      } else {
        high := middle - 1;
      }
    }
  }

  lemma SearchHalves(fits: nat -> bool, low: nat, high: nat)
    requires low < high
    ensures var middle := (low + high + 1) / 2;
            Search(fits, low, high)
            == if fits(middle) then Search(fits, middle, high) else Search(fits, low, middle - 1)
  {
  }

  /** Between its bounds, the search settles on a budget that fits or is the floor, below one that does not. */
  lemma {:induction false} SearchSettles(fits: nat -> bool, low: nat, high: nat)
    requires low <= high
    ensures var b := Search(fits, low, high);
            && low <= b <= high
            && (b == low || fits(b))
            && (b == high || !fits(b + 1))
    decreases high - low
  {
    if low < high {
      var middle := (low + high + 1) / 2;
      if fits(middle) { SearchSettles(fits, middle, high); } else { SearchSettles(fits, low, middle - 1); }
    }
  }

  /** What a budget is when the policy's own does not fit. */
  ghost predicate Settled(fits: nat -> bool, floor: nat, most: nat, b: nat) {
    && floor <= b <= most
    && (b == floor || fits(b))
    && (b < most ==> !fits(b + 1))
    && (b == most ==> b == floor)
  }

  lemma SearchIsSettled(fits: nat -> bool, floor: nat, most: nat)
    requires floor <= most && !fits(most)
    ensures Settled(fits, floor, most, Search(fits, floor, most))
  {
    SearchSettles(fits, floor, most);
  }

  /**
   A trajectory too long to render whole is rendered at one uniform budget between the floor and
   the policy's own: it fits or is the floor, and one character more would not have fitted.
   */
  lemma OneBudgetForAll(redact: Redact, steps: seq<StepView>, p: Policy)
    requires ValidPolicy(p) && p.maxCharsPerStep >= MinCharsPerStep && steps != []
    requires |RenderAt(redact, steps, p)| > p.maxTotalChars
    ensures Rendered(redact, steps, p) == AtBudget(redact, steps, p, Chosen(redact, steps, p))
    ensures Settled(Fits(redact, steps, p), MinCharsPerStep, p.maxCharsPerStep, Chosen(redact, steps, p))
  {
    WholeDoesNotFit(redact, steps, p);
    SearchIsSettled(Fits(redact, steps, p), MinCharsPerStep, p.maxCharsPerStep);
  }

  lemma WholeDoesNotFit(redact: Redact, steps: seq<StepView>, p: Policy)
    requires ValidPolicy(p) && p.maxCharsPerStep >= MinCharsPerStep
    ensures Fits(redact, steps, p)(p.maxCharsPerStep) <==> |RenderAt(redact, steps, p)| <= p.maxTotalChars
  {
    assert p.WithStepBudget(p.maxCharsPerStep) == p;
  }

  /** A policy that asks for less than the floor is not searched: its steps get the floor, more than it asked for. */
  lemma BelowTheFloor(redact: Redact, steps: seq<StepView>, p: Policy)
    requires ValidPolicy(p) && p.maxCharsPerStep < MinCharsPerStep && steps != []
    requires |RenderAt(redact, steps, p)| > p.maxTotalChars
    ensures Rendered(redact, steps, p) == RenderAt(redact, steps, p.(maxCharsPerStep := MinCharsPerStep))
  {
  }

  /** Every budget below one that fits fits. */
  ghost predicate FitsDownwards(fits: nat -> bool, most: nat) {
    forall b, c | MinCharsPerStep <= b <= c <= most :: fits(c) ==> fits(b)
  }

  lemma SettledIsLargest(fits: nat -> bool, most: nat, chosen: nat, b: nat)
    requires Settled(fits, MinCharsPerStep, most, chosen) && FitsDownwards(fits, most)
    requires MinCharsPerStep <= b <= most && fits(b)
    ensures b <= chosen
  {
  }

  /** Where the fitting budgets have no gap, the chosen one is the largest that fits. */
  lemma LargestWhenDownwards(redact: Redact, steps: seq<StepView>, p: Policy, b: nat)
    requires ValidPolicy(p) && p.maxCharsPerStep >= MinCharsPerStep && steps != []
    requires |RenderAt(redact, steps, p)| > p.maxTotalChars
    requires FitsDownwards(Fits(redact, steps, p), p.maxCharsPerStep)
    requires MinCharsPerStep <= b <= p.maxCharsPerStep && Fits(redact, steps, p)(b)
    ensures b <= Chosen(redact, steps, p)
  {
    OneBudgetForAll(redact, steps, p);
    SettledIsLargest(Fits(redact, steps, p), p.maxCharsPerStep, Chosen(redact, steps, p), b);
  }

  /** The largest budget in a range that fits. */
  ghost predicate LargestIn(fits: nat -> bool, low: nat, high: nat, b: nat) {
    low <= b <= high && fits(b) && forall c | b < c <= high :: !fits(c)
  }

  /** Every budget up to `b` that the search tries on its way towards `b` fits. */
  predicate PathFits(fits: nat -> bool, low: nat, high: nat, b: nat)
    decreases high - low
  {
    low < high ==>
      var middle := (low + high + 1) / 2;
      if middle <= b then fits(middle) && PathFits(fits, middle, high, b) else PathFits(fits, low, middle - 1, b)
  }

  lemma {:induction false} SearchFindsIffPathFits(fits: nat -> bool, low: nat, high: nat, b: nat)
    requires LargestIn(fits, low, high, b)
    ensures Search(fits, low, high) == b <==> PathFits(fits, low, high, b)
    decreases high - low
  {
    if low < high {
      var middle := (low + high + 1) / 2;
      if fits(middle) {
        SearchFindsIffPathFits(fits, middle, high, b);
      } else if middle <= b {
        SearchSettles(fits, low, middle - 1);
      } else {
        SearchFindsIffPathFits(fits, low, middle - 1, b);
      }
    }
  }

  /** The chosen budget is the largest that fits exactly when every smaller one tried on the way to it fits. */
  lemma ChosenIsLargestIffPathFits(redact: Redact, steps: seq<StepView>, p: Policy, b: nat)
    requires ValidPolicy(p) && p.maxCharsPerStep >= MinCharsPerStep
    requires LargestIn(Fits(redact, steps, p), MinCharsPerStep, p.maxCharsPerStep, b)
    ensures Chosen(redact, steps, p) == b <==> PathFits(Fits(redact, steps, p), MinCharsPerStep, p.maxCharsPerStep, b)
  {
    SearchFindsIffPathFits(Fits(redact, steps, p), MinCharsPerStep, p.maxCharsPerStep, b);
  }

  // ---- The search can stop short ---------------------------------------------------------------------

  function Letters(n: nat): string { seq(n, _ => 'a') }

  /** A short payload and a long one. */
  function TwoSteps(): seq<StepView> {
    [StepView(0, "agent", None, None, Letters(92)), StepView(1, "user", None, None, Letters(1000))]
  }

  const Tight := Policy(102, 0.5, 249)

  function Same(): Redact { (text: string) => text }

  /** What the two steps cost at a budget between the floor and the policy's own. */
  function Cost(budget: nat): nat
    requires MinCharsPerStep <= budget <= 102
  {
    34 + (if 92 <= budget then 92 else budget + MarkerLength(92 - budget)) + budget + MarkerLength(1000 - budget)
  }

  lemma TwoStepsCost(p: Policy)
    requires ValidPolicy(p)
    ensures |RenderAt(Same(), TwoSteps(), p)|
            == 34 + |Truncate(Same(), Letters(92), p)| + |Truncate(Same(), Letters(1000), p)|
  {
    var steps := TwoSteps();
    assert steps[1..] == [steps[1]];
    assert |Header(steps[0])| == 14 && |Header(steps[1])| == 13;
    assert |RenderStep(Same(), steps[0], p)| == 17 + |Truncate(Same(), Letters(92), p)|;
    assert |RenderStep(Same(), steps[1], p)| == 16 + |Truncate(Same(), Letters(1000), p)|;
    assert RenderAt(Same(), [steps[1]], p) == RenderStep(Same(), steps[1], p);
    assert RenderAt(Same(), steps, p) == RenderStep(Same(), steps[0], p) + "\n" + RenderAt(Same(), [steps[1]], p);
  }

  lemma CostIs(budget: nat)
    requires MinCharsPerStep <= budget <= 102
    ensures ValidPolicy(Tight)
    ensures |AtBudget(Same(), TwoSteps(), Tight, budget)| == Cost(budget)
  {
    var p := Tight.WithStepBudget(budget);
    TwoStepsCost(p);
    LettersCost(p, 92);
    LettersCost(p, 1000);
  }

  lemma LettersCost(p: Policy, n: nat)
    requires ValidPolicy(p)
    ensures |Truncate(Same(), Letters(n), p)|
            == if n <= p.maxCharsPerStep then n else p.maxCharsPerStep + MarkerLength(n - p.maxCharsPerStep)
  {
    TruncatedLength(Same(), Letters(n), p);
    assert |Letters(n)| == n;
  }

  lemma FitsAt(budget: nat)
    requires MinCharsPerStep <= budget <= 102
    ensures ValidPolicy(Tight)
    ensures Fits(Same(), TwoSteps(), Tight)(budget) <==> budget <= 83 || 92 <= budget <= 98
  {
    CostIs(budget);
    DecimalLength(1000 - budget);
    if budget < 92 { DecimalLength(92 - budget); }
  }

  lemma SearchRuns(fits: nat -> bool)
    requires !fits(91) && !fits(85) && fits(82) && fits(83) && !fits(84)
    ensures Search(fits, 80, 102) == 83
  {
    assert Search(fits, 83, 84) == Search(fits, 83, 83) == 83;
    assert Search(fits, 80, 84) == Search(fits, 82, 84) == Search(fits, 83, 84);
    assert Search(fits, 80, 102) == Search(fits, 80, 90) == Search(fits, 80, 84);
  }

  /** The search settles on 83 although 98 fits: at 91 the short payload costs more than it does whole. */
  lemma SearchStopsShort()
    ensures ValidPolicy(Tight) && |RenderAt(Same(), TwoSteps(), Tight)| > Tight.maxTotalChars
    ensures Chosen(Same(), TwoSteps(), Tight) == 83
    ensures Fits(Same(), TwoSteps(), Tight)(98)
  {
    FitsAt(91);
    FitsAt(85);
    FitsAt(82);
    FitsAt(83);
    FitsAt(84);
    FitsAt(98);
    FitsAt(102);
    assert Tight.WithStepBudget(102) == Tight;
    SearchRuns(Fits(Same(), TwoSteps(), Tight));
  }
}
