/**
 Finding the JSON objects in a judge's answer: one pass that counts braces outside strings.
 */
module Scanner {
  import opened Wrappers

  datatype Span = Span(from: nat, to: nat)

  /** The scan's variables; `start` is where the open top-level object began. */
  datatype Scan = Scan(depth: int, start: Option<nat>, inString: bool, escaped: bool, found: seq<Span>)

  const Fresh := Scan(0, None, false, false, [])

  function Step(s: Scan, index: nat, c: char): Scan {
    if s.inString then
      if s.escaped then s.(escaped := false)
      else if c == '\\' then s.(escaped := true)
      else if c == '"' then s.(inString := false)
      else s
    else if c == '"' then s.(inString := true)
    else if c == '{' then s.(depth := s.depth + 1, start := if s.depth == 0 then Some(index) else s.start)
    else if c == '}' then
      if s.depth - 1 == 0 && s.start.Some? then
        s.(depth := 0, start := None, found := s.found + [Span(s.start.value, index + 1)])
      else s.(depth := s.depth - 1)
    else s
  }

  /** The scan after the characters of `text`, the first of them at `index`. */
  function Run(s: Scan, index: nat, text: string): Scan
    decreases |text|
  {
    if text == [] then s else Run(Step(s, index, text[0]), index + 1, text[1..])
  }

  ghost predicate SpansIn(text: string, spans: seq<Span>) {
    forall span <- spans :: span.from < span.to <= |text|
  }

  function Spans(text: string): seq<Span> {
    Run(Fresh, 0, text).found
  }

  function Cut(text: string, span: Span): string {
    if span.from <= span.to <= |text| then text[span.from..span.to] else ""
  }

  function Cuts(text: string, spans: seq<Span>): (r: seq<string>)
    ensures |r| == |spans|
  {
    seq(|spans|, i requires 0 <= i < |spans| => Cut(text, spans[i]))
  }

  /** Every balanced top-level `{...}` run in `text`. */
  function Objects(text: string): seq<string> {
    Cuts(text, Spans(text))
  }

  lemma {:induction false} RunAppends(s: Scan, index: nat, a: string, b: string)
    ensures Run(s, index, a + b) == Run(Run(s, index, a), index + |a|, b)
    decreases |a|
  {
    if a == [] {
      assert a + b == b;
    } else {
      assert (a + b)[1..] == a[1..] + b;
      RunAppends(Step(s, index, a[0]), index + 1, a[1..], b);
    }
  }

  lemma RunOne(s: Scan, index: nat, c: char)
    ensures Run(s, index, [c]) == Step(s, index, c)
  {
    assert [c][1..] == [];
  }

  /** `_find_objects`. */
  method FindObjects(text: string) returns (found: seq<string>)
    ensures found == Objects(text)
  {
    found := [];
    var depth, start, inString, escaped := 0, -1, false, false;
    ghost var spans: seq<Span> := [];
    for index := 0 to |text|
      invariant -1 <= start < index
      invariant Run(Fresh, 0, text[..index])
                == Scan(depth, if start < 0 then None else Some(start), inString, escaped, spans)
      invariant SpansIn(text[..index], spans) && found == Cuts(text, spans)
    {
      var c := text[index];
      assert text[..index + 1] == text[..index] + [c];
      RunAppends(Fresh, 0, text[..index], [c]);
      RunOne(Run(Fresh, 0, text[..index]), index, c);
      if inString {
        if escaped {
          escaped := false;
        } else if c == '\\' {
          escaped := true;
        } else if c == '"' {
          inString := false;
        }
        continue;
      }
      if c == '"' {
        inString := true;
      } else if c == '{' {
        if depth == 0 {
          start := index;
        }
        depth := depth + 1;
      } else if c == '}' {
        depth := depth - 1;
        if depth == 0 && start >= 0 {
          found := found + [text[start..index + 1]];
          spans := spans + [Span(start, index + 1)];
          start := -1;
        }
      }
    }
    assert text[..|text|] == text;
  }

  // ---- What any text gives -----------------------------------------------------------------------

  /** A found span scans to exactly itself. */
  ghost predicate Rescans(text: string, span: Span) {
    && span.from < span.to <= |text|
    && Run(Fresh, 0, text[span.from..span.to]).found == [Span(0, span.to - span.from)]
  }

  /** The spans lie in order without overlapping, all before `end`. */
  ghost predicate InOrder(spans: seq<Span>, end: nat) {
    && (forall i | 0 <= i < |spans| :: spans[i].from < spans[i].to <= end)
    && forall i, j | 0 <= i < j < |spans| :: spans[i].to <= spans[j].from
  }

  /** The scan at `index`: what is open re-scans to the same variables, what is found to itself. */
  ghost predicate ScanInv(text: string, index: nat, s: Scan)
    requires index <= |text|
  {
    && (!s.inString ==> !s.escaped)
    && (s.start.Some? <==> s.depth >= 1)
    && (match s.start
        case None => InOrder(s.found, index)
        case Some(start) =>
          && start < index
          && InOrder(s.found, start)
          && Run(Fresh, 0, text[start..index]) == Scan(s.depth, Some(0), s.inString, s.escaped, []))
    && AllRescan(text, s.found)
  }

  ghost predicate AllRescan(text: string, spans: seq<Span>) {
    forall span <- spans :: Rescans(text, span)
  }

  /** The scan of what is open, one character on. */
  lemma OpenStep(text: string, index: nat, s: Scan)
    requires index < |text| && ScanInv(text, index, s) && s.start.Some?
    ensures s.start.value < index
    ensures Run(Fresh, 0, text[s.start.value..index + 1])
            == Step(Scan(s.depth, Some(0), s.inString, s.escaped, []), index - s.start.value, text[index])
  {
    var start := s.start.value;
    assert text[start..index + 1] == text[start..index] + [text[index]];
    RunAppends(Fresh, 0, text[start..index], [text[index]]);
    RunOne(Run(Fresh, 0, text[start..index]), index - start, text[index]);
  }

  lemma MoreInOrder(spans: seq<Span>, start: nat, end: nat)
    requires InOrder(spans, start) && start < end
    ensures InOrder(spans + [Span(start, end)], end)
  {
  }

  lemma StepKeepsInv(text: string, index: nat, s: Scan)
    requires index < |text| && ScanInv(text, index, s)
    ensures ScanInv(text, index + 1, Step(s, index, text[index]))
  {
    var s' := Step(s, index, text[index]);
    if s.start.Some? {
      OpenStep(text, index, s);
      if s'.start.None? { Closes(text, index, s); }
    } else if s'.start.Some? {
      assert text[index..index + 1] == [text[index]];
      RunOne(Fresh, 0, text[index]);
    }
  }

  lemma Closes(text: string, index: nat, s: Scan)
    requires index < |text| && ScanInv(text, index, s) && s.start.Some?
    requires Step(s, index, text[index]).start.None?
    ensures var s' := Step(s, index, text[index]); InOrder(s'.found, index + 1) && AllRescan(text, s'.found)
  {
    OpenStep(text, index, s);
    MoreInOrder(s.found, s.start.value, index + 1);
    assert Rescans(text, Span(s.start.value, index + 1));
  }

  lemma {:induction false} RunKeepsInv(text: string, index: nat)
    requires index <= |text|
    ensures ScanInv(text, index, Run(Fresh, 0, text[..index]))
  {
    if index > 0 {
      RunKeepsInv(text, index - 1);
      StepKeepsInv(text, index - 1, Run(Fresh, 0, text[..index - 1]));
      assert text[..index] == text[..index - 1] + [text[index - 1]];
      RunAppends(Fresh, 0, text[..index - 1], [text[index - 1]]);
      RunOne(Run(Fresh, 0, text[..index - 1]), index - 1, text[index - 1]);
    }
  }

  /** Whatever the text, the spans are in order, disjoint, and each one re-scans to exactly itself. */
  lemma SpansAreSelfContained(text: string)
    ensures InOrder(Spans(text), |text|)
    ensures forall span <- Spans(text) :: Objects(text[span.from..span.to]) == [text[span.from..span.to]]
  {
    RunKeepsInv(text, |text|);
    assert text[..|text|] == text;
    forall span | span in Spans(text) ensures Objects(text[span.from..span.to]) == [text[span.from..span.to]] {
      assert Rescans(text, span);
      var part := text[span.from..span.to];
      assert part[0..|part|] == part;
    }
  }

  // ---- Where a span begins -----------------------------------------------------------------------

  /** Outside any object and any string. */
  predicate Quiet(s: Scan) { s.depth == 0 && !s.inString }

  /** Nothing found begins at `at` from here on, unless it is still open. */
  ghost predicate NotFrom(s: Scan, at: nat) {
    (forall span <- s.found :: span.from != at) && s.start != Some(at)
  }

  lemma {:induction false} NeverBegins(s: Scan, index: nat, text: string, at: nat)
    requires NotFrom(s, at) && at < index
    ensures NotFrom(Run(s, index, text), at)
    decreases |text|
  {
    if text != [] { NeverBegins(Step(s, index, text[0]), index + 1, text[1..], at); }
  }

  lemma StepNotQuiet(s: Scan, index: nat, c: char)
    requires NotFrom(s, index) && !Quiet(s)
    ensures NotFrom(Step(s, index, c), index)
  {
  }

  lemma PrefixNotFrom(prefix: string)
    ensures NotFrom(Run(Fresh, 0, prefix), |prefix|)
  {
    RunKeepsInv(prefix, |prefix|);
    assert prefix[..|prefix|] == prefix;
  }

  lemma NotQuietNotFrom(s: Scan, index: nat, rest: string)
    requires NotFrom(s, index) && !Quiet(s)
    ensures NotFrom(Run(s, index, rest), index)
  {
    if rest != [] {
      StepNotQuiet(s, index, rest[0]);
      NeverBegins(Step(s, index, rest[0]), index + 1, rest[1..], index);
    }
  }

  lemma SpanBegins(s: Scan, index: nat, rest: string, to: nat)
    requires NotFrom(s, index) && Span(index, to) in Run(s, index, rest).found
    ensures Quiet(s)
  {
    if !Quiet(s) { NotQuietNotFrom(s, index, rest); }
  }

  lemma SpansOfBoth(prefix: string, rest: string)
    ensures Spans(prefix + rest) == Run(Run(Fresh, 0, prefix), |prefix|, rest).found
  {
    RunAppends(Fresh, 0, prefix, rest);
  }

  /** A span can begin only where the scan was quiet. */
  lemma BeginsQuietly(prefix: string, rest: string, to: nat)
    requires Span(|prefix|, to) in Spans(prefix + rest)
    ensures Quiet(Run(Fresh, 0, prefix))
  {
    SpansOfBoth(prefix, rest);
    PrefixNotFrom(prefix);
    SpanBegins(Run(Fresh, 0, prefix), |prefix|, rest, to);
  }
}
