/**
 A tool result's body as a tree, the places in it that can be named by a path, and the two edits
 that are made there.
 */
module Json {
  import opened Wrappers

  datatype Json =
    | Null
    | Bool(flag: bool)
    | Int(whole: int)
    | Float(number: real)
    | Str(text: string)
    | Arr(items: seq<Json>)
    | Obj(fields: seq<Field>)

  datatype Field = Field(key: string, value: Json)

  datatype Part = Key(key: string) | Index(index: nat)
  type Path = seq<Part>

  predicate IsScalar(node: Json) { node.Bool? || node.Int? || node.Float? || node.Str? }

  /** A dictionary holds each key once, at every level. */
  predicate WellFormed(node: Json)
    decreases node
  {
    match node
    case Arr(items) => forall i | 0 <= i < |items| :: WellFormed(items[i])
    case Obj(fields) =>
      && (forall i, j | 0 <= i < j < |fields| :: fields[i].key != fields[j].key)
      && forall i | 0 <= i < |fields| :: WellFormed(fields[i].value)
    case _ => true
  }

  // ---- Children and paths ------------------------------------------------------------------------

  function Arity(node: Json): nat {
    match node
    case Arr(items) => |items|
    case Obj(fields) => |fields|
    case _ => 0
  }

  function PartOf(node: Json, i: nat): Part
    requires i < Arity(node)
  {
    if node.Arr? then Index(i) else Key(node.fields[i].key)
  }

  function Child(node: Json, i: nat): (r: Json)
    requires i < Arity(node)
    ensures r < node
  {
    if node.Arr? then node.items[i] else node.fields[i].value
  }

  /** The position of a part among a node's children. */
  function Position(node: Json, part: Part): (r: Option<nat>)
    ensures r.Some? ==> r.value < Arity(node) && PartOf(node, r.value) == part
  {
    match part
    case Index(i) => if node.Arr? && i < |node.items| then Some(i) else None
    case Key(key) => if node.Obj? then FieldOf(node.fields, key, 0) else None
  }

  function FieldOf(fields: seq<Field>, key: string, from: nat): (r: Option<nat>)
    requires from <= |fields|
    ensures r.Some? ==> from <= r.value < |fields| && fields[r.value].key == key
    ensures r.None? ==> forall i | from <= i < |fields| :: fields[i].key != key
    decreases |fields| - from
  {
    if from == |fields| then None
    else if fields[from].key == key then Some(from)
    else FieldOf(fields, key, from + 1)
  }

  /** What a path leads to. */
  function At(node: Json, path: Path): Option<Json>
    decreases |path|
  {
    if path == [] then Some(node)
    else
      match Position(node, path[0])
      case None => None
      case Some(i) => At(Child(node, i), path[1..])
  }

  lemma PositionOfPart(node: Json, i: nat)
    requires WellFormed(node) && i < Arity(node)
    ensures Position(node, PartOf(node, i)) == Some(i)
  {
  }

  lemma ChildWellFormed(node: Json, i: nat)
    requires WellFormed(node) && i < Arity(node)
    ensures WellFormed(Child(node, i))
  {
  }

  // ---- The places a mutator could act ------------------------------------------------------------

  datatype Candidate = Candidate(path: Path, value: Json)

  /** Every scalar leaf below `node`, which is at `path`. */
  function Scalars(node: Json, path: Path): seq<Candidate>
    decreases node, Arity(node) + 1
  {
    if IsScalar(node) then [Candidate(path, node)] else ScalarsFrom(node, path, 0)
  }

  function ScalarsFrom(node: Json, path: Path, i: nat): seq<Candidate>
    requires i <= Arity(node)
    decreases node, Arity(node) - i
  {
    if i == Arity(node) then []
    else Scalars(Child(node, i), path + [PartOf(node, i)]) + ScalarsFrom(node, path, i + 1)
  }

  /** Every entry below `node` that could be dropped. */
  function Droppables(node: Json, path: Path, i: nat): seq<Candidate>
    requires i <= Arity(node)
    decreases node, Arity(node) - i
  {
    if i == Arity(node) then []
    else
      var here := path + [PartOf(node, i)];
      [Candidate(here, Child(node, i))] + Droppables(Child(node, i), here, 0) + Droppables(node, path, i + 1)
  }

  lemma NextScalars(found: seq<Candidate>, node: Json, path: Path, i: nat)
    requires i < Arity(node)
    ensures var below := Scalars(Child(node, i), path + [PartOf(node, i)]);
            found + ScalarsFrom(node, path, i) == found + below + ScalarsFrom(node, path, i + 1)
  {
  }

  lemma NextDroppables(found: seq<Candidate>, node: Json, path: Path, i: nat)
    requires i < Arity(node)
    ensures var here, child := path + [PartOf(node, i)], Child(node, i);
            found + Droppables(node, path, i)
            == found + [Candidate(here, child)] + Droppables(child, here, 0) + Droppables(node, path, i + 1)
  {
  }

  /** The walk as the program makes it: a shared list that each leaf is appended to. */
  class Walker {
    var found: seq<Candidate>

    constructor ()
      ensures found == []
    {
      found := [];
    }

    method WalkScalars(node: Json, path: Path)
      modifies this
      ensures found == old(found) + Scalars(node, path)
      decreases node
    {
      if IsScalar(node) {
        found := found + [Candidate(path, node)];
        return;
      }
      var i := 0;
      while i < Arity(node)
        invariant i <= Arity(node)
        invariant found + ScalarsFrom(node, path, i) == old(found) + Scalars(node, path)
      {
        NextScalars(found, node, path, i);
        WalkScalars(Child(node, i), path + [PartOf(node, i)]);
        i := i + 1;
      }
    }

    method WalkDroppable(node: Json, path: Path)
      modifies this
      ensures found == old(found) + Droppables(node, path, 0)
      decreases node
    {
      var i := 0;
      while i < Arity(node)
        invariant i <= Arity(node)
        invariant found + Droppables(node, path, i) == old(found) + Droppables(node, path, 0)
      {
        var here := path + [PartOf(node, i)];
        NextDroppables(found, node, path, i);
        found := found + [Candidate(here, Child(node, i))];
        WalkDroppable(Child(node, i), here);
        i := i + 1;
      }
    }
  }

  ghost predicate StartsWith(path: Path, prefix: Path) {
    |prefix| <= |path| && path[..|prefix|] == prefix
  }

  /** A candidate of a subtree at `path`: below it, and holding what its path leads to. */
  ghost predicate Found(node: Json, path: Path, c: Candidate) {
    StartsWith(c.path, path) && At(node, c.path[|path|..]) == Some(c.value)
  }

  /** One step down and back up again. */
  lemma FoundBelow(node: Json, path: Path, i: nat, c: Candidate)
    requires WellFormed(node) && i < Arity(node)
    ensures Found(Child(node, i), path + [PartOf(node, i)], c)
            <==> Found(node, path, c) && |c.path| > |path| && c.path[|path|] == PartOf(node, i)
  {
    var part := PartOf(node, i);
    PositionOfPart(node, i);
    if |c.path| > |path| {
      assert c.path[..|path| + 1] == c.path[..|path|] + [c.path[|path|]];
      assert c.path[|path|..][0] == c.path[|path|];
      assert c.path[|path|..][1..] == c.path[|path| + 1..];
    }
    if StartsWith(c.path, path + [part]) {
      assert c.path[..|path| + 1][..|path|] == c.path[..|path|];
      assert (path + [part])[..|path|] == path;
      assert c.path[|path|] == c.path[..|path| + 1][|path|] == part;
    }
  }

  lemma NoneBelowScalar(node: Json, path: Path, c: Candidate)
    requires Arity(node) == 0
    ensures Found(node, path, c) <==> c == Candidate(path, node)
  {
    if StartsWith(c.path, path) {
      if |c.path| == |path| {
        assert c.path == c.path[..|path|];
        assert c.path[|path|..] == [];
      } else {
        assert c.path[|path|..] != [];
      }
    }
  }

  /** The children from `i` on, seen from the parent. */
  ghost predicate FoundFrom(node: Json, path: Path, i: nat, c: Candidate)
    requires i <= Arity(node)
  {
    Found(node, path, c) && |c.path| > |path|
    && exists j :: i <= j < Arity(node) && c.path[|path|] == PartOf(node, j)
  }

  /** The scalar candidates are exactly the paths that lead to a scalar. */
  lemma {:induction false} ScalarsAreLeaves(node: Json, path: Path, c: Candidate)
    requires WellFormed(node)
    ensures c in Scalars(node, path) <==> Found(node, path, c) && IsScalar(c.value)
    decreases node, Arity(node) + 1
  {
    if IsScalar(node) {
      NoneBelowScalar(node, path, c);
    } else {
      ScalarsFromAreLeaves(node, path, 0, c);
      if Found(node, path, c) && IsScalar(c.value) { BelowSomeChild(node, path, c); }
    }
  }

  lemma BelowSomeChild(node: Json, path: Path, c: Candidate)
    requires Found(node, path, c) && c.value != node
    ensures FoundFrom(node, path, 0, c)
  {
    HereIsNode(node, path, c);
    assert c.path[|path|..][0] == c.path[|path|];
    assert Position(node, c.path[|path|]).Some?;
  }

  lemma HereIsNode(node: Json, path: Path, c: Candidate)
    requires Found(node, path, c)
    ensures |c.path| == |path| ==> c.value == node
  {
    if |c.path| == |path| { assert c.path[|path|..] == []; }
  }

  lemma {:induction false} ScalarsFromAreLeaves(node: Json, path: Path, i: nat, c: Candidate)
    requires WellFormed(node) && i <= Arity(node)
    ensures c in ScalarsFrom(node, path, i) <==> FoundFrom(node, path, i, c) && IsScalar(c.value)
    decreases node, Arity(node) - i
  {
    if i < Arity(node) {
      ChildWellFormed(node, i);
      ScalarsAreLeaves(Child(node, i), path + [PartOf(node, i)], c);
      ScalarsFromAreLeaves(node, path, i + 1, c);
      FoundBelow(node, path, i, c);
    }
  }

  /** The droppable candidates are exactly the paths below the root that lead anywhere. */
  lemma {:induction false} DroppablesAreEntries(node: Json, path: Path, i: nat, c: Candidate)
    requires WellFormed(node) && i <= Arity(node)
    ensures c in Droppables(node, path, i) <==> FoundFrom(node, path, i, c)
    decreases node, Arity(node) - i
  {
    if i < Arity(node) {
      var child, here := Child(node, i), path + [PartOf(node, i)];
      ChildWellFormed(node, i);
      DroppablesAreEntries(child, here, 0, c);
      DroppablesAreEntries(node, path, i + 1, c);
      FoundBelow(node, path, i, c);
      ChildOrBelow(child, here, c);
    }
  }

  lemma ChildOrBelow(child: Json, here: Path, c: Candidate)
    ensures Found(child, here, c) <==> c == Candidate(here, child) || FoundFrom(child, here, 0, c)
  {
    if StartsWith(c.path, here) && |c.path| == |here| {
      assert c.path == c.path[..|here|] && c.path[|here|..] == [];
    }
    if Found(child, here, c) && |c.path| > |here| {
      assert c.path[|here|..][0] == c.path[|here|];
      assert Position(child, c.path[|here|]).Some?;
    }
    assert here[..|here|] == here && here[|here|..] == [];
  }

  // ---- Each once ---------------------------------------------------------------------------------

  ghost predicate Distinct(found: seq<Candidate>) {
    forall i, j | 0 <= i < j < |found| :: found[i].path != found[j].path
  }

  ghost predicate Apart(xs: seq<Candidate>, ys: seq<Candidate>) {
    forall x, y :: x in xs && y in ys ==> x.path != y.path
  }

  lemma DistinctJoins(xs: seq<Candidate>, ys: seq<Candidate>)
    requires Distinct(xs) && Distinct(ys) && Apart(xs, ys)
    ensures Distinct(xs + ys)
  {
    forall i, j | 0 <= i < j < |xs + ys| ensures (xs + ys)[i].path != (xs + ys)[j].path {
      if i < |xs| && j >= |xs| { assert xs[i] in xs && ys[j - |xs|] in ys; }
    }
  }

  /** Candidates of one child and of later ones differ in the part that names the child. */
  lemma ChildrenApart(node: Json, path: Path, i: nat, xs: seq<Candidate>, ys: seq<Candidate>)
    requires WellFormed(node) && i < Arity(node)
    requires forall x <- xs :: Found(Child(node, i), path + [PartOf(node, i)], x)
    requires forall y <- ys :: FoundFrom(node, path, i + 1, y)
    ensures Apart(xs, ys)
  {
    forall x, y | x in xs && y in ys ensures x.path != y.path {
      FoundBelow(node, path, i, x);
      var j :| i + 1 <= j < Arity(node) && y.path[|path|] == PartOf(node, j);
      PositionOfPart(node, i);
      PositionOfPart(node, j);
    }
  }

  lemma {:induction false} ScalarsListedOnce(node: Json, path: Path)
    requires WellFormed(node)
    ensures Distinct(Scalars(node, path))
    decreases node, Arity(node) + 1
  {
    if !IsScalar(node) { ScalarsFromListedOnce(node, path, 0); }
  }

  lemma {:induction false} ScalarsFromListedOnce(node: Json, path: Path, i: nat)
    requires WellFormed(node) && i <= Arity(node)
    ensures Distinct(ScalarsFrom(node, path, i))
    decreases node, Arity(node) - i
  {
    if i < Arity(node) {
      var child, here := Child(node, i), path + [PartOf(node, i)];
      ChildWellFormed(node, i);
      ScalarsListedOnce(child, here);
      ScalarsFromListedOnce(node, path, i + 1);
      forall x | x in Scalars(child, here) ensures Found(child, here, x) { ScalarsAreLeaves(child, here, x); }
      var next := i + 1;
      forall y | y in ScalarsFrom(node, path, next) ensures FoundFrom(node, path, next, y) {
        ScalarsFromAreLeaves(node, path, next, y);
      }
      ChildrenApart(node, path, i, Scalars(child, here), ScalarsFrom(node, path, i + 1));
      DistinctJoins(Scalars(child, here), ScalarsFrom(node, path, i + 1));
    }
  }

  lemma {:induction false} DroppablesListedOnce(node: Json, path: Path, i: nat)
    requires WellFormed(node) && i <= Arity(node)
    ensures Distinct(Droppables(node, path, i))
    decreases node, Arity(node) - i
  {
    if i < Arity(node) {
      var child, here := Child(node, i), path + [PartOf(node, i)];
      var below, later := Droppables(child, here, 0), Droppables(node, path, i + 1);
      ChildWellFormed(node, i);
      DroppablesListedOnce(child, here, 0);
      DroppablesListedOnce(node, path, i + 1);
      var self := [Candidate(here, child)];
      forall x | x in below ensures FoundFrom(child, here, 0, x) { DroppablesAreEntries(child, here, 0, x); }
      DistinctJoins(self, below);
      forall x | x in self + below ensures Found(child, here, x) { ChildOrBelow(child, here, x); }
      forall y | y in later ensures FoundFrom(node, path, i + 1, y) { DroppablesAreEntries(node, path, i + 1, y); }
      ChildrenApart(node, path, i, self + below, later);
      DistinctJoins(self + below, later);
    }
  }

  // ---- In document order -------------------------------------------------------------------------

  /** A walk from the top, going down before going on, comes to `p` before `q`. */
  ghost predicate Precedes(node: Json, p: Path, q: Path)
    decreases |p|
  {
    && q != []
    && (p == [] ||
        var a, b := Position(node, p[0]), Position(node, q[0]);
        && a.Some? && b.Some?
        && (a.value < b.value || (a == b && Precedes(Child(node, a.value), p[1..], q[1..]))))
  }

  ghost predicate InOrder(node: Json, path: Path, found: seq<Candidate>) {
    forall i, j | 0 <= i < j < |found| :: Before(node, path, found[i], found[j])
  }

  ghost predicate Before(node: Json, path: Path, x: Candidate, y: Candidate) {
    |path| <= |x.path| && |path| <= |y.path| && Precedes(node, x.path[|path|..], y.path[|path|..])
  }

  lemma BeforeBelow(node: Json, path: Path, i: nat, x: Candidate, y: Candidate)
    requires WellFormed(node) && i < Arity(node)
    requires Found(Child(node, i), path + [PartOf(node, i)], x) && Found(Child(node, i), path + [PartOf(node, i)], y)
    requires Before(Child(node, i), path + [PartOf(node, i)], x, y)
    ensures Before(node, path, x, y)
  {
    FoundBelow(node, path, i, x);
    FoundBelow(node, path, i, y);
    PositionOfPart(node, i);
    assert x.path[|path|..][1..] == x.path[|path| + 1..];
    assert y.path[|path|..][1..] == y.path[|path| + 1..];
  }

  lemma BeforeAcross(node: Json, path: Path, i: nat, x: Candidate, y: Candidate)
    requires WellFormed(node) && i < Arity(node)
    requires Found(Child(node, i), path + [PartOf(node, i)], x) && FoundFrom(node, path, i + 1, y)
    ensures Before(node, path, x, y)
  {
    FoundBelow(node, path, i, x);
    PositionOfPart(node, i);
    var j :| i + 1 <= j < Arity(node) && y.path[|path|] == PartOf(node, j);
    PositionOfPart(node, j);
  }

  /** One child's candidates and then the later children's, each in order, are in order together. */
  lemma OrderJoins(node: Json, path: Path, i: nat, xs: seq<Candidate>, ys: seq<Candidate>)
    requires WellFormed(node) && i < Arity(node)
    requires forall x <- xs :: Found(Child(node, i), path + [PartOf(node, i)], x)
    requires forall y <- ys :: FoundFrom(node, path, i + 1, y)
    requires InOrder(Child(node, i), path + [PartOf(node, i)], xs) && InOrder(node, path, ys)
    ensures InOrder(node, path, xs + ys)
  {
    var both := xs + ys;
    forall a, b | 0 <= a < b < |both| ensures Before(node, path, both[a], both[b]) {
      if b < |xs| {
        assert both[a] in xs && both[b] in xs;
        BeforeBelow(node, path, i, both[a], both[b]);
      } else if a < |xs| {
        assert both[a] in xs && both[b] in ys;
        BeforeAcross(node, path, i, both[a], both[b]);
      } else {
        assert both[a] == ys[a - |xs|] && both[b] == ys[b - |xs|];
      }
    }
  }

  /** Scalars come in the order of the document. */
  lemma {:induction false} ScalarsInOrder(node: Json, path: Path)
    requires WellFormed(node)
    ensures InOrder(node, path, Scalars(node, path))
    decreases node, Arity(node) + 1
  {
    if !IsScalar(node) { ScalarsFromInOrder(node, path, 0); }
  }

  lemma {:induction false} ScalarsFromInOrder(node: Json, path: Path, i: nat)
    requires WellFormed(node) && i <= Arity(node)
    ensures InOrder(node, path, ScalarsFrom(node, path, i))
    decreases node, Arity(node) - i
  {
    if i < Arity(node) {
      var child, here, next := Child(node, i), path + [PartOf(node, i)], i + 1;
      ChildWellFormed(node, i);
      ScalarsInOrder(child, here);
      ScalarsFromInOrder(node, path, next);
      forall x | x in Scalars(child, here) ensures Found(child, here, x) { ScalarsAreLeaves(child, here, x); }
      forall y | y in ScalarsFrom(node, path, next) ensures FoundFrom(node, path, next, y) {
        ScalarsFromAreLeaves(node, path, next, y);
      }
      OrderJoins(node, path, i, Scalars(child, here), ScalarsFrom(node, path, next));
    }
  }

  /** Entries come in the order of the document, each before what is below it. */
  lemma {:induction false} DroppablesInOrder(node: Json, path: Path, i: nat)
    requires WellFormed(node) && i <= Arity(node)
    ensures InOrder(node, path, Droppables(node, path, i))
    decreases node, Arity(node) - i
  {
    if i < Arity(node) {
      var child, here, next := Child(node, i), path + [PartOf(node, i)], i + 1;
      var self, below, later := [Candidate(here, child)], Droppables(child, here, 0), Droppables(node, path, next);
      ChildWellFormed(node, i);
      DroppablesInOrder(child, here, 0);
      DroppablesInOrder(node, path, next);
      forall x | x in below ensures FoundFrom(child, here, 0, x) { DroppablesAreEntries(child, here, 0, x); }
      HereFirst(child, here, below);
      forall x | x in self + below ensures Found(child, here, x) { ChildOrBelow(child, here, x); }
      forall y | y in later ensures FoundFrom(node, path, next, y) { DroppablesAreEntries(node, path, next, y); }
      OrderJoins(node, path, i, self + below, later);
      assert self + below + later == Droppables(node, path, i);
    }
  }

  lemma HereFirst(child: Json, here: Path, below: seq<Candidate>)
    requires InOrder(child, here, below)
    requires forall x <- below :: FoundFrom(child, here, 0, x)
    ensures InOrder(child, here, [Candidate(here, child)] + below)
  {
    var self := Candidate(here, child);
    var all := [self] + below;
    forall a, b | 0 <= a < b < |all| ensures Before(child, here, all[a], all[b]) {
      assert all[b] == below[b - 1] && all[b] in below;
      if a > 0 { assert all[a] == below[a - 1]; }
    }
  }

  // ---- Replacing ---------------------------------------------------------------------------------

  function WithChild(node: Json, i: nat, child: Json): (r: Json)
    requires i < Arity(node)
    ensures Arity(r) == Arity(node) && r.Arr? == node.Arr?
    ensures forall j | 0 <= j < Arity(node) ::
              PartOf(r, j) == PartOf(node, j) && Child(r, j) == if j == i then child else Child(node, j)
  {
    if node.Arr? then Arr(node.items[i := child]) else Obj(node.fields[i := Field(node.fields[i].key, child)])
  }

  /** A copy with `path` set to `value`. */
  function ReplacedAt(body: Json, path: Path, value: Json): Json
    requires At(body, path).Some?
    decreases |path|
  {
    if path == [] then value
    else
      var i := Position(body, path[0]).value;
      WithChild(body, i, ReplacedAt(Child(body, i), path[1..], value))
  }

  /** Where a key is depends on the keys alone. */
  lemma {:induction false} FieldOfKeys(fields: seq<Field>, others: seq<Field>, key: string, from: nat)
    requires |fields| == |others| && from <= |fields|
    requires forall j | 0 <= j < |fields| :: others[j].key == fields[j].key
    ensures FieldOf(others, key, from) == FieldOf(fields, key, from)
    decreases |fields| - from
  {
    if from < |fields| && fields[from].key != key { FieldOfKeys(fields, others, key, from + 1); }
  }

  lemma PositionKept(node: Json, i: nat, child: Json, part: Part)
    requires WellFormed(node) && i < Arity(node)
    ensures Position(WithChild(node, i, child), part) == Position(node, part)
  {
    if part.Key? && node.Obj? {
      var after := WithChild(node, i, child);
      forall j | 0 <= j < |node.fields| ensures after.fields[j].key == node.fields[j].key {
        assert PartOf(after, j) == PartOf(node, j);
      }
      FieldOfKeys(node.fields, after.fields, part.key, 0);
    }
  }

  /** Reading back what was put. */
  lemma {:induction false} PutThenGet(body: Json, path: Path, value: Json)
    requires WellFormed(body) && At(body, path).Some?
    ensures At(ReplacedAt(body, path, value), path) == Some(value)
    decreases |path|
  {
    if path != [] {
      var i := Position(body, path[0]).value;
      ChildWellFormed(body, i);
      PutThenGet(Child(body, i), path[1..], value);
      PositionKept(body, i, ReplacedAt(Child(body, i), path[1..], value), path[0]);
    }
  }

  /** Putting back what was there changes nothing. */
  lemma {:induction false} GetThenPut(body: Json, path: Path)
    requires At(body, path).Some?
    ensures ReplacedAt(body, path, At(body, path).value) == body
    decreases |path|
  {
    if path != [] {
      var i := Position(body, path[0]).value;
      GetThenPut(Child(body, i), path[1..]);
      SameChild(body, i);
    }
  }

  lemma SameChild(node: Json, i: nat)
    requires i < Arity(node)
    ensures WithChild(node, i, Child(node, i)) == node
  {
    if node.Arr? {
      assert node.items[i := node.items[i]] == node.items;
    } else {
      assert node.fields[i := Field(node.fields[i].key, node.fields[i].value)] == node.fields;
    }
  }

  lemma ChildTwice(node: Json, i: nat, a: Json, b: Json)
    requires i < Arity(node)
    ensures WithChild(WithChild(node, i, a), i, b) == WithChild(node, i, b)
  {
    if node.Arr? {
      assert node.items[i := a][i := b] == node.items[i := b];
    } else {
      var key := node.fields[i].key;
      assert node.fields[i := Field(key, a)][i := Field(key, b)] == node.fields[i := Field(key, b)];
    }
  }

  /** The last of two puts at one place wins; so putting the old value back undoes the first. */
  lemma {:induction false} PutTwice(body: Json, path: Path, first: Json, second: Json)
    requires WellFormed(body) && At(body, path).Some?
    ensures At(ReplacedAt(body, path, first), path).Some?
    ensures ReplacedAt(ReplacedAt(body, path, first), path, second) == ReplacedAt(body, path, second)
    decreases |path|
  {
    PutThenGet(body, path, first);
    if path != [] {
      var i := Position(body, path[0]).value;
      var child := ReplacedAt(Child(body, i), path[1..], first);
      ChildWellFormed(body, i);
      PositionKept(body, i, child, path[0]);
      PutTwice(Child(body, i), path[1..], first, second);
      ChildTwice(body, i, child, ReplacedAt(Child(body, i), path[1..], second));
    }
  }

  /** Two paths that part ways before either ends. */
  ghost predicate Diverge(p: Path, q: Path) {
    exists k :: 0 <= k < |p| && k < |q| && p[..k] == q[..k] && p[k] != q[k]
  }

  lemma DivergeLater(p: Path, q: Path)
    requires Diverge(p, q) && p[0] == q[0]
    ensures Diverge(p[1..], q[1..])
  {
    var k :| 0 <= k < |p| && k < |q| && p[..k] == q[..k] && p[k] != q[k];
    assert p[1..][..k - 1] == p[..k][1..] && q[1..][..k - 1] == q[..k][1..];
    assert p[1..][k - 1] == p[k] && q[1..][k - 1] == q[k];
  }

  /** Nothing off the path changes. */
  lemma {:induction false} PutElsewhere(body: Json, path: Path, value: Json, other: Path)
    requires WellFormed(body) && At(body, path).Some? && Diverge(path, other)
    ensures At(ReplacedAt(body, path, value), other) == At(body, other)
    decreases |path|
  {
    var i := Position(body, path[0]).value;
    var child := ReplacedAt(Child(body, i), path[1..], value);
    ChildWellFormed(body, i);
    PositionKept(body, i, child, other[0]);
    if path[0] == other[0] {
      DivergeLater(path, other);
      PutElsewhere(Child(body, i), path[1..], value, other[1..]);
    } else if Position(body, other[0]).Some? {
      assert PartOf(body, Position(body, other[0]).value) == other[0];
    }
  }

  // ---- Dropping ----------------------------------------------------------------------------------

  function WithoutChild(node: Json, i: nat): (r: Json)
    requires i < Arity(node)
    ensures Arity(r) == Arity(node) - 1
  {
    if node.Arr? then Arr(node.items[..i] + node.items[i + 1..]) else Obj(node.fields[..i] + node.fields[i + 1..])
  }

  /** A copy without the entry at `path`; the whole result cannot be dropped. */
  function DroppedAt(body: Json, path: Path): Json
    requires path != [] && At(body, path).Some?
    decreases |path|
  {
    var i := Position(body, path[0]).value;
    if |path| == 1 then WithoutChild(body, i)
    else WithChild(body, i, DroppedAt(Child(body, i), path[1..]))
  }

  function WithNewChild(node: Json, i: nat, part: Part, child: Json): Json
    requires i <= Arity(node) && (node.Arr? || node.Obj?) && (node.Obj? ==> part.Key?)
  {
    if node.Arr? then Arr(node.items[..i] + [child] + node.items[i..])
    else Obj(node.fields[..i] + [Field(part.key, child)] + node.fields[i..])
  }

  /** Dropping one child and inserting it again where it was. */
  lemma ChildBack(node: Json, i: nat)
    requires i < Arity(node)
    ensures var without := WithoutChild(node, i);
            && (without.Obj? ==> PartOf(node, i).Key?)
            && WithNewChild(without, i, PartOf(node, i), Child(node, i)) == node
  {
    if node.Arr? {
      var rest := node.items[..i] + node.items[i + 1..];
      assert rest[..i] + [node.items[i]] + rest[i..] == node.items;
    } else {
      var rest := node.fields[..i] + node.fields[i + 1..];
      assert Field(node.fields[i].key, node.fields[i].value) == node.fields[i];
      assert rest[..i] + [node.fields[i]] + rest[i..] == node.fields;
    }
  }

  /** Dropping is one edit of the parent: it loses that child and nothing else. */
  lemma {:induction false} DropEditsParent(body: Json, path: Path)
    requires path != [] && At(body, path).Some?
    ensures At(body, path[..|path| - 1]).Some?
    ensures var parent, last := At(body, path[..|path| - 1]).value, path[|path| - 1];
            && Position(parent, last).Some?
            && Child(parent, Position(parent, last).value) == At(body, path).value
            && DroppedAt(body, path)
               == ReplacedAt(body, path[..|path| - 1], WithoutChild(parent, Position(parent, last).value))
    decreases |path|
  {
    if |path| > 1 {
      var i := Position(body, path[0]).value;
      DropEditsParent(Child(body, i), path[1..]);
      assert path[1..][..|path| - 2] == path[..|path| - 1][1..];
    }
  }

  /** Putting the dropped entry back into its parent restores the body. */
  lemma DropUndone(body: Json, path: Path)
    requires WellFormed(body) && path != [] && At(body, path).Some?
    ensures var up, last := path[..|path| - 1], path[|path| - 1];
            && At(body, up).Some? && Position(At(body, up).value, last).Some?
            && var i := Position(At(body, up).value, last).value;
               var left := At(DroppedAt(body, path), up);
               && left == Some(WithoutChild(At(body, up).value, i))
               && (left.value.Obj? ==> last.Key?)
               && ReplacedAt(DroppedAt(body, path), up, WithNewChild(left.value, i, last, At(body, path).value)) == body
  {
    DropEditsParent(body, path);
    var up, last := path[..|path| - 1], path[|path| - 1];
    var parent := At(body, up).value;
    var i := Position(parent, last).value;
    var without := WithoutChild(parent, i);
    PutThenGet(body, up, without);
    ChildBack(parent, i);
    PutTwice(body, up, without, parent);
    GetThenPut(body, up);
  }

  /** Beside the dropped entry everything stays, under its own key, or one place up in a list. */
  lemma DropKeepsSiblings(body: Json, path: Path, k: nat)
    requires WellFormed(body) && path != [] && At(body, path).Some?
    ensures var up, last := path[..|path| - 1], path[|path| - 1];
            && At(body, up).Some? && At(DroppedAt(body, path), up).Some?
            && var before, left := At(body, up).value, At(DroppedAt(body, path), up).value;
               && Position(before, last).Some?
               && var i := Position(before, last).value;
                  && left.Arr? == before.Arr? && Arity(left) == Arity(before) - 1
                  && (k < Arity(left) ==>
                        && Child(left, k) == Child(before, if k < i then k else k + 1)
                        && (left.Obj? ==> PartOf(left, k) == PartOf(before, if k < i then k else k + 1)))
  {
    DropEditsParent(body, path);
    var up := path[..|path| - 1];
    var parent := At(body, up).value;
    PutThenGet(body, up, WithoutChild(parent, Position(parent, path[|path| - 1]).value));
  }

  /** Off the parent nothing changes. */
  lemma DropElsewhere(body: Json, path: Path, other: Path)
    requires WellFormed(body) && path != [] && At(body, path).Some? && Diverge(path[..|path| - 1], other)
    ensures At(DroppedAt(body, path), other) == At(body, other)
  {
    DropEditsParent(body, path);
    var up := path[..|path| - 1];
    var parent := At(body, up).value;
    PutElsewhere(body, up, WithoutChild(parent, Position(parent, path[|path| - 1]).value), other);
  }

  function Nodes(node: Json): nat
    decreases node, Arity(node) + 1
  {
    1 + NodesFrom(node, 0)
  }

  function NodesFrom(node: Json, i: nat): nat
    requires i <= Arity(node)
    decreases node, Arity(node) - i
  {
    if i == Arity(node) then 0 else Nodes(Child(node, i)) + NodesFrom(node, i + 1)
  }

  /** The nodes are the root and every entry that could be dropped. */
  lemma NodesAreEntries(node: Json, path: Path)
    ensures Nodes(node) == 1 + |Droppables(node, path, 0)|
  {
    NodesFromAre(node, path, 0);
  }

  lemma {:induction false} NodesFromAre(node: Json, path: Path, i: nat)
    requires i <= Arity(node)
    ensures NodesFrom(node, i) == |Droppables(node, path, i)|
    decreases node, Arity(node) - i
  {
    if i < Arity(node) {
      NodesFromAre(Child(node, i), path + [PartOf(node, i)], 0);
      NodesFromAre(node, path, i + 1);
    }
  }

  ghost predicate AlikeAt(a: Json, i: nat, b: Json, j: nat, k: nat) {
    i + k < Arity(a) && j + k < Arity(b) && Child(a, i + k) == Child(b, j + k)
  }

  lemma {:induction false} NodesAlike(a: Json, b: Json, i: nat, j: nat, from: nat)
    requires i + from <= Arity(a) && j + from <= Arity(b) && Arity(a) - i == Arity(b) - j
    requires forall k: nat | k < Arity(a) - i :: k >= from ==> AlikeAt(a, i, b, j, k)
    ensures NodesFrom(a, i + from) == NodesFrom(b, j + from)
    decreases Arity(a) - from
  {
    if i + from < Arity(a) {
      assert AlikeAt(a, i, b, j, from);
      NodesAlike(a, b, i, j, from + 1);
    }
  }

  lemma {:induction false} NodesWithChild(node: Json, i: nat, child: Json, from: nat)
    requires from <= i < Arity(node)
    ensures var after := WithChild(node, i, child);
            NodesFrom(after, from) + Nodes(Child(node, i)) == NodesFrom(node, from) + Nodes(child)
    decreases i - from
  {
    var after := WithChild(node, i, child);
    if from < i {
      NodesWithChild(node, i, child, from + 1);
    } else {
      var next := i + 1;
      forall k: nat | k < Arity(after) - next ensures AlikeAt(after, next, node, next, k) {}
      NodesAlike(after, node, next, next, 0);
    }
  }

  lemma ChildrenWithout(node: Json, i: nat, k: nat)
    requires i < Arity(node) && k < Arity(node) - 1
    ensures Child(WithoutChild(node, i), k) == Child(node, if k < i then k else k + 1)
  {
  }

  lemma {:induction false} NodesWithoutChild(node: Json, i: nat, from: nat)
    requires from <= i < Arity(node)
    ensures NodesFrom(WithoutChild(node, i), from) + Nodes(Child(node, i)) == NodesFrom(node, from)
    decreases i - from
  {
    var after := WithoutChild(node, i);
    if from < i {
      ChildrenWithout(node, i, from);
      NodesWithoutChild(node, i, from + 1);
    } else {
      var next := i + 1;
      forall k: nat | k < Arity(after) - i ensures AlikeAt(after, i, node, next, k) {
        ChildrenWithout(node, i, i + k);
      }
      NodesAlike(after, node, i, next, 0);
    }
  }

  /** What is missing afterwards is exactly the dropped subtree. */
  lemma {:induction false} DropLosesOneSubtree(body: Json, path: Path)
    requires path != [] && At(body, path).Some?
    ensures Nodes(DroppedAt(body, path)) + Nodes(At(body, path).value) == Nodes(body)
    decreases |path|
  {
    var i := Position(body, path[0]).value;
    if |path| == 1 {
      NodesWithoutChild(body, i, 0);
    } else {
      DropLosesOneSubtree(Child(body, i), path[1..]);
      NodesWithChild(body, i, DroppedAt(Child(body, i), path[1..]), 0);
    }
  }
}
