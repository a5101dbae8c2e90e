/**
 The scanner against the printer: JSON text per RFC 8259 (sections 4 and 7), wrapped in prose,
 gives back exactly the objects that were printed.
 */
module JsonText {
  import opened Wrappers
  import opened Json
  import opened Scanner

  // ---- Printing --------------------------------------------------------------------------------

  /** Free choices of a printer: what stands around commas and colons, and how numbers look. */
  datatype Style = Style(pad: string, comma: string, colon: string, numeral: Json -> string)

  /** Text that neither opens nor closes anything. */
  predicate Plain(text: string) {
    forall c <- text :: c != '{' && c != '}' && c != '"'
  }

  ghost predicate ValidStyle(style: Style) {
    Plain(style.pad) && Plain(style.comma) && Plain(style.colon) && forall node :: Plain(style.numeral(node))
  }

  function Hex(n: nat): char
    requires n < 16
  {
    "0123456789abcdef"[n]
  }

  /** A character inside a string: quotes, backslashes and control characters are escaped. */
  function Escaped(c: char): string {
    if c == '"' then ['\\', '"']
    else if c == '\\' then ['\\', '\\']
    else if c < ' ' then ['\\', 'u', '0', '0', Hex(c as int / 16), Hex(c as int % 16)]
    else [c]
  }

  function EscapedAll(text: string): string {
    if text == [] then [] else EscapedAll(text[..|text| - 1]) + Escaped(text[|text| - 1])
  }

  function Quoted(text: string): string {
    "\"" + EscapedAll(text) + "\""
  }

  /** What a reader makes of a string: an escape is the character it stands for. */
  function Unescaped(text: string): string {
    if |text| >= 6 && text[0] == '\\' && text[1] == 'u' then
      [HexValue(text[4], text[5])] + Unescaped(text[6..])
    else if |text| >= 2 && text[0] == '\\' then [text[1]] + Unescaped(text[2..])
    else if text == [] then []
    else [text[0]] + Unescaped(text[1..])
  }

  function HexValue(high: char, low: char): char {
    (16 * DigitOf(high) + DigitOf(low)) as char
  }

  function DigitOf(c: char): (n: nat)
    ensures n < 16
  {
    if '0' <= c <= '9' then (c - '0') as nat else if 'a' <= c <= 'f' then 10 + (c - 'a') as nat else 0
  }

  lemma {:induction false} EscapedFront(c: char, rest: string)
    ensures EscapedAll([c] + rest) == Escaped(c) + EscapedAll(rest)
  {
    if rest != [] {
      assert ([c] + rest)[..|rest|] == [c] + rest[..|rest| - 1];
      EscapedFront(c, rest[..|rest| - 1]);
    }
  }

  lemma CharacterReadsBack(c: char, more: string)
    ensures Unescaped(Escaped(c) + more) == [c] + Unescaped(more)
  {
    if c == '"' || c == '\\' {
      assert (Escaped(c) + more)[2..] == more;
    } else if c < ' ' {
      assert (Escaped(c) + more)[6..] == more;
      assert DigitOf(Hex(c as int / 16)) == c as int / 16 && DigitOf(Hex(c as int % 16)) == c as int % 16;
    } else {
      assert (Escaped(c) + more)[1..] == more;
    }
  }

  /** Between its quotes a printed string reads back as the string. */
  lemma {:induction false} StringsReadBack(text: string)
    ensures Unescaped(EscapedAll(text)) == text
  {
    if text != [] {
      assert text == [text[0]] + text[1..];
      EscapedFront(text[0], text[1..]);
      CharacterReadsBack(text[0], EscapedAll(text[1..]));
      StringsReadBack(text[1..]);
    }
  }

  function Print(style: Style, node: Json): string
    decreases node, Arity(node) + 1
  {
    match node
    case Null => "null"
    case Bool(flag) => if flag then "true" else "false"
    case Int(_) => style.numeral(node)
    case Float(_) => style.numeral(node)
    case Str(text) => Quoted(text)
    case Arr(_) => "[" + Inside(style, node) + "]"
    case Obj(_) => "{" + Inside(style, node) + "}"
  }

  /** The children, padded, with commas between. */
  function Inside(style: Style, node: Json): string
    decreases node, Arity(node), 1
  {
    style.pad + Children(style, node, Arity(node)) + style.pad
  }

  /** The first `k` children, with commas between them. */
  function Children(style: Style, node: Json, k: nat): string
    requires k <= Arity(node)
    decreases node, k, 0
  {
    if k == 0 then ""
    else Children(style, node, k - 1) + (if k == 1 then "" else style.comma) + Entry(style, node, k - 1)
  }

  function Entry(style: Style, node: Json, i: nat): string
    requires i < Arity(node)
    decreases node, i, 2
  {
    (if node.Obj? then Quoted(node.fields[i].key) + style.colon else "") + Print(style, Child(node, i))
  }

  // ---- What the scan does with it ----------------------------------------------------------------

  /** Inside an object, outside any string: the scan passes over `text` unchanged. */
  ghost predicate Neutral(text: string) {
    forall s: Scan, index: nat :: Inner(s) ==> Run(s, index, text) == s
  }

  predicate Inner(s: Scan) { s.depth >= 1 && !s.inString && !s.escaped }

  lemma NeutralJoins(a: string, b: string)
    requires Neutral(a) && Neutral(b)
    ensures Neutral(a + b)
  {
    forall s: Scan, index: nat | Inner(s) ensures Run(s, index, a + b) == s {
      RunAppends(s, index, a, b);
    }
  }

  lemma TailIn(text: string)
    requires text != []
    ensures text[0] in text && forall c <- text[1..] :: c in text
  {
  }

  /** Plain text changes nothing anywhere outside a string. */
  lemma {:induction false} PlainPasses(s: Scan, index: nat, text: string)
    requires Plain(text) && !s.inString
    ensures Run(s, index, text) == s
    decreases |text|
  {
    if text != [] {
      TailIn(text);
      PlainPasses(s, index + 1, text[1..]);
    }
  }

  lemma PlainIsNeutral(text: string)
    requires Plain(text)
    ensures Neutral(text)
  {
    forall s: Scan, index: nat | Inner(s) ensures Run(s, index, text) == s { PlainPasses(s, index, text); }
  }

  predicate InText(s: Scan) { s.inString && !s.escaped }

  /** An escaped character never ends the string it is in. */
  lemma EscapedPasses(s: Scan, index: nat, c: char)
    requires InText(s)
    ensures Run(s, index, Escaped(c)) == s
  {
    var e := Escaped(c);
    if |e| == 1 {
      RunOne(s, index, c);
    } else if |e| == 2 {
      assert e == [e[0]] + [e[1]];
      RunAppends(s, index, [e[0]], [e[1]]);
      RunOne(s, index, e[0]);
      RunOne(Step(s, index, e[0]), index + 1, e[1]);
    } else {
      var head, tail := e[..2], e[2..];
      assert head == [e[0]] + [e[1]] && e == head + tail;
      RunAppends(s, index, head, tail);
      RunAppends(s, index, [e[0]], [e[1]]);
      RunOne(s, index, e[0]);
      RunOne(Step(s, index, e[0]), index + 1, e[1]);
      DigitsPass(s, index + 2, tail);
    }
  }

  lemma {:induction false} DigitsPass(s: Scan, index: nat, digits: string)
    requires InText(s) && forall c <- digits :: c in "0123456789abcdef"
    ensures Run(s, index, digits) == s
    decreases |digits|
  {
    if digits != [] {
      TailIn(digits);
      DigitsPass(s, index + 1, digits[1..]);
    }
  }

  lemma {:induction false} TextPasses(s: Scan, index: nat, text: string)
    requires InText(s)
    ensures Run(s, index, EscapedAll(text)) == s
  {
    if text != [] {
      var init, last := text[..|text| - 1], text[|text| - 1];
      TextPasses(s, index, init);
      RunAppends(s, index, EscapedAll(init), Escaped(last));
      EscapedPasses(s, index + |EscapedAll(init)|, last);
    }
  }

  lemma QuotedPasses(s: Scan, index: nat, text: string)
    requires !s.inString && !s.escaped
    ensures Run(s, index, Quoted(text)) == s
  {
    var open := s.(inString := true);
    RunAppends(s, index, "\"" + EscapedAll(text), "\"");
    RunAppends(s, index, "\"", EscapedAll(text));
    RunOne(s, index, '"');
    TextPasses(open, index + 1, text);
    RunOne(open, index + 1 + |EscapedAll(text)|, '"');
  }

  lemma QuotedIsNeutral(text: string)
    ensures Neutral(Quoted(text))
  {
    forall s: Scan, index: nat | Inner(s) ensures Run(s, index, Quoted(text)) == s { QuotedPasses(s, index, text); }
  }

  /** Braces around neutral text: neutral inside an object, and one span where the scan was quiet. */
  lemma BracedRuns(s: Scan, index: nat, text: string)
    requires Neutral(text) && !s.inString && !s.escaped && s.depth >= 0 && (s.depth == 0 ==> s.start.None?)
    ensures Run(s, index, "{" + text + "}")
            == if s.depth >= 1 then s else s.(found := s.found + [Span(index, index + |text| + 2)])
  {
    RunAppends(s, index, "{" + text, "}");
    RunAppends(s, index, "{", text);
    RunOne(s, index, '{');
    var open := Step(s, index, '{');
    assert Inner(open);
    assert Run(open, index + 1, text) == open;
    RunOne(open, index + 1 + |text|, '}');
  }

  lemma BracedIsNeutral(text: string)
    requires Neutral(text)
    ensures Neutral("{" + text + "}")
  {
    forall s: Scan, index: nat | Inner(s) ensures Run(s, index, "{" + text + "}") == s { BracedRuns(s, index, text); }
  }

  lemma {:induction false} PrintIsNeutral(style: Style, node: Json)
    requires ValidStyle(style)
    ensures Neutral(Print(style, node))
    decreases node, Arity(node) + 1
  {
    match node {
      case Str(text) => QuotedIsNeutral(text);
      case Arr(_) =>
        InsideIsNeutral(style, node);
        PlainIsNeutral("[");
        PlainIsNeutral("]");
        NeutralJoins("[", Inside(style, node));
        NeutralJoins("[" + Inside(style, node), "]");
      case Obj(_) =>
        InsideIsNeutral(style, node);
        BracedIsNeutral(Inside(style, node));
      case _ => PlainIsNeutral(Print(style, node));
    }
  }

  lemma InsideIsNeutral(style: Style, node: Json)
    requires ValidStyle(style)
    ensures Neutral(Inside(style, node))
    decreases node, Arity(node), 1
  {
    ChildrenAreNeutral(style, node, Arity(node));
    PlainIsNeutral(style.pad);
    NeutralJoins(style.pad, Children(style, node, Arity(node)));
    NeutralJoins(style.pad + Children(style, node, Arity(node)), style.pad);
  }

  lemma {:induction false} ChildrenAreNeutral(style: Style, node: Json, k: nat)
    requires ValidStyle(style) && k <= Arity(node)
    ensures Neutral(Children(style, node, k))
    decreases node, k, 0
  {
    PlainIsNeutral("");
    if k > 0 {
      var before, comma := Children(style, node, k - 1), if k == 1 then "" else style.comma;
      ChildrenAreNeutral(style, node, k - 1);
      PlainIsNeutral(comma);
      EntryIsNeutral(style, node, k - 1);
      NeutralJoins(before, comma);
      NeutralJoins(before + comma, Entry(style, node, k - 1));
    }
  }

  lemma EntryIsNeutral(style: Style, node: Json, i: nat)
    requires ValidStyle(style) && i < Arity(node)
    ensures Neutral(Entry(style, node, i))
    decreases node, i, 2
  {
    PrintIsNeutral(style, Child(node, i));
    PlainIsNeutral("");
    if node.Obj? {
      QuotedIsNeutral(node.fields[i].key);
      PlainIsNeutral(style.colon);
      NeutralJoins(Quoted(node.fields[i].key), style.colon);
      NeutralJoins(Quoted(node.fields[i].key) + style.colon, Print(style, Child(node, i)));
    } else {
      NeutralJoins("", Print(style, Child(node, i)));
    }
  }

  // ---- Objects in prose --------------------------------------------------------------------------

  /** Outside everything, with nothing open: where prose and objects alternate. */
  predicate Between(s: Scan) { Quiet(s) && s.start.None? && !s.escaped }

  /** A printed object met between objects is one span, and the scan is between objects again. */
  lemma ObjectRuns(style: Style, node: Json, s: Scan, index: nat)
    requires ValidStyle(style) && node.Obj? && Between(s)
    ensures Run(s, index, Print(style, node))
            == s.(found := s.found + [Span(index, index + |Print(style, node)|)])
  {
    InsideIsNeutral(style, node);
    BracedRuns(s, index, Inside(style, node));
  }

  lemma AddedIsFound(s: Scan, index: nat, p: string, span: Span)
    requires Run(s, index, p) == s.(found := s.found + [span])
    ensures span in Run(s, index, p).found
  {
  }

  lemma ObjectIsFound(style: Style, node: Json, s: Scan, index: nat, p: string)
    requires ValidStyle(style) && node.Obj? && Between(s) && p == Print(style, node)
    ensures Span(index, index + |p|) in Run(s, index, p).found
  {
    ObjectRuns(style, node, s, index);
    AddedIsFound(s, index, p, Span(index, index + |p|));
  }

  lemma ObjectFoundWhenQuiet(style: Style, node: Json, prefix: string, p: string, suffix: string)
    requires ValidStyle(style) && node.Obj? && Quiet(Run(Fresh, 0, prefix)) && p == Print(style, node)
    ensures Span(|prefix|, |prefix| + |p|) in Spans(prefix + p + suffix)
  {
    QuietIsBetween(prefix);
    ObjectIsFound(style, node, Run(Fresh, 0, prefix), |prefix|, p);
    FoundStays(prefix, p, suffix, Span(|prefix|, |prefix| + |p|));
  }

  /** A span found by the end of a middle part is found in the whole text. */
  lemma FoundStays(prefix: string, p: string, suffix: string, span: Span)
    requires span in Run(Run(Fresh, 0, prefix), |prefix|, p).found
    ensures span in Spans(prefix + p + suffix)
  {
    RunAppends(Fresh, 0, prefix, p);
    RunAppends(Fresh, 0, prefix + p, suffix);
    StillFound(Run(Fresh, 0, prefix + p), |prefix + p|, suffix, span);
  }

  lemma SpanBeginsQuietly(prefix: string, p: string, suffix: string)
    requires Span(|prefix|, |prefix| + |p|) in Spans(prefix + p + suffix)
    ensures Quiet(Run(Fresh, 0, prefix))
  {
    assert prefix + p + suffix == prefix + (p + suffix);
    BeginsQuietly(prefix, p + suffix, |prefix| + |p|);
  }

  /** A printed object after some prefix is found exactly when the scan of the prefix ended quiet. */
  lemma ObjectFoundIffQuiet(style: Style, node: Json, prefix: string, suffix: string)
    requires ValidStyle(style) && node.Obj?
    ensures var p := Print(style, node);
            Span(|prefix|, |prefix| + |p|) in Spans(prefix + p + suffix) <==> Quiet(Run(Fresh, 0, prefix))
  {
    if Quiet(Run(Fresh, 0, prefix)) {
      ObjectFoundWhenQuiet(style, node, prefix, Print(style, node), suffix);
    } else if Span(|prefix|, |prefix| + |Print(style, node)|) in Spans(prefix + Print(style, node) + suffix) {
      SpanBeginsQuietly(prefix, Print(style, node), suffix);
    }
  }

  lemma QuietIsBetween(prefix: string)
    requires Quiet(Run(Fresh, 0, prefix))
    ensures Between(Run(Fresh, 0, prefix))
  {
    RunKeepsInv(prefix, |prefix|);
    assert prefix[..|prefix|] == prefix;
  }

  lemma {:induction false} StillFound(s: Scan, index: nat, text: string, span: Span)
    requires span in s.found
    ensures span in Run(s, index, text).found
    decreases |text|
  {
    if text != [] { StillFound(Step(s, index, text[0]), index + 1, text[1..], span); }
  }

  /** Prose, then objects each followed by more prose. */
  function Answer(style: Style, prose: string, objects: seq<Json>, after: seq<string>): string
    requires |after| == |objects|
  {
    if objects == [] then prose
    else Answer(style, prose, objects[..|objects| - 1], after[..|after| - 1])
         + Print(style, objects[|objects| - 1]) + after[|after| - 1]
  }

  ghost predicate IsAnswer(style: Style, prose: string, objects: seq<Json>, after: seq<string>) {
    && ValidStyle(style) && Plain(prose) && |after| == |objects|
    && (forall node <- objects :: node.Obj?)
    && forall text <- after :: Plain(text)
  }

  function Prints(style: Style, objects: seq<Json>): (r: seq<string>)
    ensures |r| == |objects|
  {
    seq(|objects|, i requires 0 <= i < |objects| => Print(style, objects[i]))
  }

  lemma CutAppends(text: string, more: string, spans: seq<Span>)
    requires forall span <- spans :: span.from <= span.to <= |text|
    ensures Cuts(text + more, spans) == Cuts(text, spans)
  {
    forall i | 0 <= i < |spans| ensures Cut(text + more, spans[i]) == Cut(text, spans[i]) {
      assert spans[i] in spans;
      assert (text + more)[spans[i].from..spans[i].to] == text[spans[i].from..spans[i].to];
    }
  }

  ghost predicate AnswerScanned(style: Style, objects: seq<Json>, text: string) {
    && Between(Run(Fresh, 0, text))
    && (forall span <- Spans(text) :: span.from <= span.to <= |text|)
    && Objects(text) == Prints(style, objects)
  }

  lemma ProseKeeps(style: Style, objects: seq<Json>, text: string, prose: string)
    requires AnswerScanned(style, objects, text) && Plain(prose)
    ensures AnswerScanned(style, objects, text + prose)
  {
    RunAppends(Fresh, 0, text, prose);
    PlainPasses(Run(Fresh, 0, text), |text|, prose);
    CutAppends(text, prose, Spans(text));
  }

  lemma ObjectAdds(style: Style, objects: seq<Json>, text: string, node: Json)
    requires ValidStyle(style) && node.Obj? && AnswerScanned(style, objects, text)
    ensures AnswerScanned(style, objects + [node], text + Print(style, node))
  {
    var p := Print(style, node);
    var span := Span(|text|, |text| + |p|);
    RunAppends(Fresh, 0, text, p);
    ObjectRuns(style, node, Run(Fresh, 0, text), |text|);
    CutAppends(text, p, Spans(text));
    assert Spans(text + p) == Spans(text) + [span];
    assert (text + p)[span.from..span.to] == p;
    assert Cuts(text + p, Spans(text) + [span]) == Cuts(text + p, Spans(text)) + [p];
    assert Prints(style, objects + [node]) == Prints(style, objects) + [p];
  }

  lemma {:induction false} AnswerIsScanned(style: Style, prose: string, objects: seq<Json>, after: seq<string>)
    requires IsAnswer(style, prose, objects, after)
    ensures AnswerScanned(style, objects, Answer(style, prose, objects, after))
  {
    if objects == [] {
      assert AnswerScanned(style, [], "");
      ProseKeeps(style, [], "", prose);
      assert "" + prose == prose;
    } else {
      var init, last, rest := objects[..|objects| - 1], objects[|objects| - 1], after[..|after| - 1];
      assert objects == init + [last];
      assert after == rest + [after[|after| - 1]];
      AnswerIsScanned(style, prose, init, rest);
      ObjectAdds(style, init, Answer(style, prose, init, rest), last);
      ProseKeeps(style, objects, Answer(style, prose, init, rest) + Print(style, last), after[|after| - 1]);
    }
  }

  /** Printed objects between plain prose are found exactly, in order. */
  lemma ScannerInvertsPrinter(style: Style, prose: string, objects: seq<Json>, after: seq<string>)
    requires IsAnswer(style, prose, objects, after)
    ensures Objects(Answer(style, prose, objects, after)) == Prints(style, objects)
  {
    AnswerIsScanned(style, prose, objects, after);
  }

  // ---- What prose can spoil ----------------------------------------------------------------------

  /** A stray quote in the prose hides the object after it. */
  lemma StrayQuoteHides(style: Style, node: Json)
    requires ValidStyle(style) && node.Obj?
    ensures Span(1, 1 + |Print(style, node)|) !in Spans("\"" + Print(style, node))
  {
    ObjectFoundIffQuiet(style, node, "\"", "");
    assert "\"" + Print(style, node) + "" == "\"" + Print(style, node);
    RunOne(Fresh, 0, '"');
  }

  /** So does a stray closing brace. */
  lemma StrayBraceHides(style: Style, node: Json)
    requires ValidStyle(style) && node.Obj?
    ensures Span(1, 1 + |Print(style, node)|) !in Spans("}" + Print(style, node))
  {
    ObjectFoundIffQuiet(style, node, "}", "");
    assert "}" + Print(style, node) + "" == "}" + Print(style, node);
    RunOne(Fresh, 0, '}');
  }

  // ---- Taking the last object --------------------------------------------------------------------

  datatype ParseError = NoObject | DidNotParse

  /** `json.loads`; `None` when the text is not JSON. */
  type Loads = string -> Option<Json>

  function LastObject(loads: Loads, candidates: seq<string>): Option<Json> {
    if candidates == [] then None
    else
      match loads(candidates[|candidates| - 1])
      case Some(Obj(fields)) => Some(Obj(fields))
      case _ => LastObject(loads, candidates[..|candidates| - 1])
  }

  function Extracted(loads: Loads, text: string): Result<Json, ParseError> {
    if Objects(text) == [] then Failure(NoObject)
    else
      match LastObject(loads, Objects(text))
      case Some(node) => Success(node)
      case None => Failure(DidNotParse)
  }

  method ExtractJsonObject(loads: Loads, text: string) returns (r: Result<Json, ParseError>)
    ensures r == Extracted(loads, text)
  {
    var candidates := FindObjects(text);
    if candidates == [] {
      return Failure(NoObject);
    }
    var left := |candidates|;
    assert candidates[..left] == candidates;
    while left > 0
      invariant 0 <= left <= |candidates|
      invariant LastObject(loads, candidates) == LastObject(loads, candidates[..left])
    {
      assert candidates[..left][..left - 1] == candidates[..left - 1];
      left := left - 1;
      var parsed := loads(candidates[left]);
      if parsed.Some? && parsed.value.Obj? {
        return Success(parsed.value);
      }
    }
    return Failure(DidNotParse);
  }

  /** The result is the last candidate that loads to an object; there is none exactly when none does. */
  lemma {:induction false} LastObjectIsLast(loads: Loads, candidates: seq<string>)
    ensures match LastObject(loads, candidates)
            case None => forall i | 0 <= i < |candidates| :: !LoadsObject(loads, candidates[i])
            case Some(node) =>
              exists k :: 0 <= k < |candidates| && IsLastObject(loads, candidates, k) && loads(candidates[k]) == Some(node)
  {
    if candidates != [] {
      var last := |candidates| - 1;
      if LoadsObject(loads, candidates[last]) {
        assert IsLastObject(loads, candidates, last);
      } else {
        var init := candidates[..last];
        LastObjectIsLast(loads, init);
        if LastObject(loads, init).Some? {
          var k :| 0 <= k < |init| && IsLastObject(loads, init, k) && loads(init[k]) == LastObject(loads, init);
          assert IsLastObject(loads, candidates, k);
        }
      }
    }
  }

  predicate LoadsObject(loads: Loads, text: string) {
    loads(text).Some? && loads(text).value.Obj?
  }

  ghost predicate IsLastObject(loads: Loads, candidates: seq<string>, k: nat)
    requires k < |candidates|
  {
    LoadsObject(loads, candidates[k]) && forall i | k < i < |candidates| :: !LoadsObject(loads, candidates[i])
  }

  /** The judge's last object is what comes back, whatever plain prose and other objects came before. */
  lemma LastPrintedIsExtracted(style: Style, loads: Loads, prose: string, objects: seq<Json>, after: seq<string>)
    requires IsAnswer(style, prose, objects, after) && objects != []
    requires loads(Print(style, objects[|objects| - 1])) == Some(objects[|objects| - 1])
    ensures Extracted(loads, Answer(style, prose, objects, after)) == Success(objects[|objects| - 1])
  {
    ScannerInvertsPrinter(style, prose, objects, after);
    var candidates := Prints(style, objects);
    assert candidates[|candidates| - 1] == Print(style, objects[|objects| - 1]);
    assert objects[|objects| - 1].Obj?;
  }
}
