/**
 Multi-level BOM explosion: the general walk and the procurement walk of
 src/modules/bom/bom-explosion.ts. The two closures there differ only in the test that decides
 whether a line is walked into, so `Mode` names that test and the rest is written once.

 The meaning of a walk is structural: the list of line-paths from the top item to its leaf
 lines (`WalkPaths`). Quantities and revision trails are functions of such a path.
 */
module BomExplosion {
  import opened Wrappers
  import opened Decimals

  type Item = string

  datatype Source = Make | Buy

  datatype Line = Line(
    itemId: Item, quantityPerUnit: real, wastagePercent: real, unitOfMeasure: string, makeBuy: Option<Source>)

  datatype Bom = Bom(itemId: Item, revisionNumber: int, lines: seq<Line>)

  /** The released BOM of each item that has one. */
  type Lookup = map<Item, Bom>

  datatype Failure = CycleError(path: seq<Item>) | DepthError(path: seq<Item>)

  datatype Leaf = Leaf(
    itemId: Item, unitOfMeasure: string, quantityPerTopUnit: real, basePerTopUnit: real, sourceTrail: seq<int>)

  datatype Mode = General | Procurement

  const MAX_EXPLOSION_DEPTH: nat := 25

  /** The item has a BOM with at least one line. */
  predicate Expandable(lookup: Lookup, item: Item) {
    item in lookup && |lookup[item].lines| > 0
  }

  /** The walk recurses into the line's item instead of reporting it as a leaf. */
  predicate Descends(mode: Mode, lookup: Lookup, line: Line) {
    if mode.Procurement? && line.makeBuy.Some? then line.makeBuy.value.Make?
    else Expandable(lookup, line.itemId)
  }

  // ---------------------------------------------------------------- structure of a walk

  /** One line taken on the way down, with the revision it was read from. */
  datatype Step = Step(revision: int, line: Line)

  type Path = seq<Step>

  /** The leaf paths below `item`, in visiting order, each extending `prefix`. */
  function WalkPaths(mode: Mode, lookup: Lookup, item: Item, ancestors: seq<Item>, prefix: Path)
      : Result<seq<Path>, Failure>
    requires |ancestors| <= MAX_EXPLOSION_DEPTH
    decreases MAX_EXPLOSION_DEPTH - |ancestors|, 0, 0
  {
    if item in ancestors then Failure(CycleError(ancestors + [item]))
    else if |ancestors| >= MAX_EXPLOSION_DEPTH then Failure(DepthError(ancestors + [item]))
    else if !Expandable(lookup, item) then Success([])
    else LinePaths(mode, lookup, lookup[item], 0, ancestors + [item], prefix)
  }

  /** The leaf paths through the lines of `bom` from the k-th on. */
  function LinePaths(mode: Mode, lookup: Lookup, bom: Bom, k: nat, ancestors: seq<Item>, prefix: Path)
      : Result<seq<Path>, Failure>
    requires k <= |bom.lines| && |ancestors| <= MAX_EXPLOSION_DEPTH
    decreases MAX_EXPLOSION_DEPTH - |ancestors|, 1, |bom.lines| - k + 1
  {
    if k == |bom.lines| then Success([])
    else
      var first := LinePath(mode, lookup, Step(bom.revisionNumber, bom.lines[k]), ancestors, prefix);
      if first.Failure? then first
      else Then(first.value, LinePaths(mode, lookup, bom, k + 1, ancestors, prefix))
  }

  /** The leaf paths through one line. */
  function LinePath(mode: Mode, lookup: Lookup, step: Step, ancestors: seq<Item>, prefix: Path)
      : Result<seq<Path>, Failure>
    requires |ancestors| <= MAX_EXPLOSION_DEPTH
    decreases MAX_EXPLOSION_DEPTH - |ancestors|, 1, 0
  {
    if Descends(mode, lookup, step.line) then
      WalkPaths(mode, lookup, step.line.itemId, ancestors, prefix + [step])
    else Success([prefix + [step]])
  }

  function Then(done: seq<Path>, rest: Result<seq<Path>, Failure>): Result<seq<Path>, Failure> {
    if rest.Failure? then rest else Success(done + rest.value)
  }

  lemma ThenAssociates(a: seq<Path>, b: seq<Path>, rest: Result<seq<Path>, Failure>)
    ensures Then([], rest) == rest
    ensures Then(a, Success([])) == Success(a)
    ensures Then(a, Then(b, rest)) == Then(a + b, rest)
  {
    if rest.Success? {
      assert [] + rest.value == rest.value;
      assert a + (b + rest.value) == (a + b) + rest.value;
    }
    assert a + [] == a;
  }

  // ---------------------------------------------------------------- quantities along a path

  function WastageFactor(line: Line): real {
    1.0 + line.wastagePercent / 100.0
  }

  function RoundedGross(gross: real, quantity: real, wastageFactor: real): real {
    Round4(gross * quantity * wastageFactor)
  }

  function RoundedBase(base: real, quantity: real): real {
    Round4(base * quantity)
  }

  /** One level down, with wastage. */
  function NextGross(gross: real, line: Line): real {
    RoundedGross(gross, line.quantityPerUnit, WastageFactor(line))
  }

  /** One level down, without wastage. */
  function NextBase(base: real, line: Line): real {
    RoundedBase(base, line.quantityPerUnit)
  }

  /** Gross quantity per top unit: every level multiplies and rounds. */
  function Gross(path: Path): real {
    if path == [] then 1.0 else NextGross(Gross(path[..|path| - 1]), path[|path| - 1].line)
  }

  function Base(path: Path): real {
    if path == [] then 1.0 else NextBase(Base(path[..|path| - 1]), path[|path| - 1].line)
  }

  function Trail(path: Path): seq<int> {
    if path == [] then [] else Trail(path[..|path| - 1]) + [path[|path| - 1].revision]
  }

  lemma FoldStep(path: Path, s: Step)
    ensures Gross(path + [s]) == NextGross(Gross(path), s.line)
    ensures Base(path + [s]) == NextBase(Base(path), s.line)
    ensures Trail(path + [s]) == Trail(path) + [s.revision]
  {
    assert (path + [s])[..|path|] == path;
  }

  function LeafOf(topRevision: int, path: Path): Leaf
    requires path != []
  {
    var last := path[|path| - 1].line;
    Leaf(last.itemId, last.unitOfMeasure, Gross(path), Base(path), [topRevision] + Trail(path))
  }

  /** Every path continues `prefix` by at least one step. */
  ghost predicate AllExtend(paths: seq<Path>, prefix: Path) {
    forall i :: 0 <= i < |paths| ==> prefix < paths[i]
  }

  function LeavesOf(topRevision: int, paths: seq<Path>): (leaves: seq<Leaf>)
    requires AllExtend(paths, [])
    ensures |leaves| == |paths|
  {
    if paths == [] then [] else [LeafOf(topRevision, paths[0])] + LeavesOf(topRevision, paths[1..])
  }

  lemma {:induction false} LeavesOfConcat(topRevision: int, a: seq<Path>, b: seq<Path>)
    requires AllExtend(a, []) && AllExtend(b, [])
    ensures AllExtend(a + b, [])
    ensures LeavesOf(topRevision, a + b) == LeavesOf(topRevision, a) + LeavesOf(topRevision, b)
  {
    hide LeafOf;
    if a == [] {
      assert a + b == b;
    } else {
      assert (a + b)[1..] == a[1..] + b;
      LeavesOfConcat(topRevision, a[1..], b);
    }
  }

  /** The revision the trail starts with: the top item's, or 0 when it has no BOM. */
  function TopRevision(lookup: Lookup, top: Item): int {
    if top in lookup then lookup[top].revisionNumber else 0
  }

  /** What an explosion of `top` returns. */
  function Explode(mode: Mode, lookup: Lookup, top: Item): Result<seq<Leaf>, Failure> {
    var walked := WalkPaths(mode, lookup, top, [], []);
    if walked.Failure? then Failure(walked.error)
    else
      WalkPathsExtend(mode, lookup, top, [], []);
      Success(LeavesOf(TopRevision(lookup, top), walked.value))
  }

  /** Every path found extends the prefix by at least one line. */
  lemma {:induction false} WalkPathsExtend(mode: Mode, lookup: Lookup, item: Item, ancestors: seq<Item>, prefix: Path)
    requires |ancestors| <= MAX_EXPLOSION_DEPTH
    ensures var walked := WalkPaths(mode, lookup, item, ancestors, prefix);
      walked.Success? ==> AllExtend(walked.value, prefix)
    decreases MAX_EXPLOSION_DEPTH - |ancestors|, 0, 0
  {
    if item !in ancestors && |ancestors| < MAX_EXPLOSION_DEPTH && Expandable(lookup, item) {
      LinePathsExtend(mode, lookup, lookup[item], 0, ancestors + [item], prefix);
    }
  }

  lemma {:induction false} LinePathsExtend(mode: Mode, lookup: Lookup, bom: Bom, k: nat, ancestors: seq<Item>,
      prefix: Path)
    requires k <= |bom.lines| && |ancestors| <= MAX_EXPLOSION_DEPTH
    ensures var walked := LinePaths(mode, lookup, bom, k, ancestors, prefix);
      walked.Success? ==> AllExtend(walked.value, prefix)
    decreases MAX_EXPLOSION_DEPTH - |ancestors|, 1, |bom.lines| - k + 1
  {
    if k < |bom.lines| {
      if Descends(mode, lookup, bom.lines[k]) {
        WalkPathsExtend(mode, lookup, bom.lines[k].itemId, ancestors,
            prefix + [Step(bom.revisionNumber, bom.lines[k])]);
      }
      LinePathsExtend(mode, lookup, bom, k + 1, ancestors, prefix);
    }
  }

  // ---------------------------------------------------------------- the walk itself

  /** A call fails as the walk does, or appends to `before` the leaves of the paths found. */
  ghost predicate Appended(before: seq<Leaf>, after: seq<Leaf>, outcome: Outcome<Failure>,
                           walked: Result<seq<Path>, Failure>, topRevision: int)
  {
    match outcome
    case Fail(e) => walked == Failure(e)
    case Pass =>
      && walked.Success?
      && AllExtend(walked.value, [])
      && after == before + LeavesOf(topRevision, walked.value)
  }

  /** One more line of a BOM visited, after those that found `done`. */
  lemma LineVisited(mode: Mode, lookup: Lookup, bom: Bom, k: nat, ancestors: seq<Item>, prefix: Path,
      done: seq<Path>, topRevision: int, start: seq<Leaf>, before: seq<Leaf>, after: seq<Leaf>,
      outcome: Outcome<Failure>)
    requires k < |bom.lines| && |ancestors| <= MAX_EXPLOSION_DEPTH
    requires AllExtend(done, []) && before == start + LeavesOf(topRevision, done)
    requires Appended(before, after, outcome,
               LinePath(mode, lookup, Step(bom.revisionNumber, bom.lines[k]), ancestors, prefix), topRevision)
    ensures var found := LinePath(mode, lookup, Step(bom.revisionNumber, bom.lines[k]), ancestors, prefix);
      var all := Then(done, LinePaths(mode, lookup, bom, k, ancestors, prefix));
      match outcome
      case Fail(e) => all == Failure(e)
      case Pass =>
        && found.Success? && AllExtend(done + found.value, [])
        && after == start + LeavesOf(topRevision, done + found.value)
        && all == Then(done + found.value, LinePaths(mode, lookup, bom, k + 1, ancestors, prefix))
  {
    var found := LinePath(mode, lookup, Step(bom.revisionNumber, bom.lines[k]), ancestors, prefix);
    hide LinePath, LeavesOf;
    if outcome.Pass? {
      LeavesOfConcat(topRevision, done, found.value);
      ThenAssociates(done, found.value, LinePaths(mode, lookup, bom, k + 1, ancestors, prefix));
    }
  }

  /** The shared `leaves` array of one explosion, and the closure that pushes onto it. */
  class Explosion {
    var leaves: seq<Leaf>

    constructor ()
      ensures leaves == []
    {
      leaves := [];
    }

    method Walk(mode: Mode, lookup: Lookup, itemId: Item, grossMultiplier: real, baseMultiplier: real,
                ancestors: seq<Item>, trail: seq<int>, ghost topRevision: int, ghost prefix: Path)
      returns (outcome: Outcome<Failure>)
      requires |ancestors| <= MAX_EXPLOSION_DEPTH
      requires grossMultiplier == Gross(prefix) && baseMultiplier == Base(prefix)
      requires trail == [topRevision] + Trail(prefix)
      modifies this
      ensures Appended(old(leaves), leaves, outcome, WalkPaths(mode, lookup, itemId, ancestors, prefix), topRevision)
      decreases MAX_EXPLOSION_DEPTH - |ancestors|, 0
    {
      hide NextGross, NextBase, Gross, Base, Trail, LeafOf, Descends, LinePath;
      if itemId in ancestors {
        return Fail(CycleError(ancestors + [itemId]));
      }
      if |ancestors| >= MAX_EXPLOSION_DEPTH {
        return Fail(DepthError(ancestors + [itemId]));
      }
      if itemId !in lookup || |lookup[itemId].lines| == 0 {
        return Pass;
      }
      var bom := lookup[itemId];
      var nextAncestors := ancestors + [itemId];
      ghost var done: seq<Path> := [];
      ThenAssociates([], [], LinePaths(mode, lookup, bom, 0, nextAncestors, prefix));
      assert LinePaths(mode, lookup, bom, |bom.lines|, nextAncestors, prefix) == Success([]);
      assert leaves == leaves + LeavesOf(topRevision, []);
      hide LinePaths, LeavesOf, Then, AllExtend;
      for k := 0 to |bom.lines|
        invariant AllExtend(done, [])
        invariant leaves == old(leaves) + LeavesOf(topRevision, done)
        invariant LinePaths(mode, lookup, bom, 0, nextAncestors, prefix) ==
                  Then(done, LinePaths(mode, lookup, bom, k, nextAncestors, prefix))
      {
        var line := bom.lines[k];
        ghost var before := leaves;
        outcome := VisitLine(mode, lookup, bom.revisionNumber, line, grossMultiplier, baseMultiplier,
                             nextAncestors, trail, topRevision, prefix);
        LineVisited(mode, lookup, bom, k, nextAncestors, prefix, done, topRevision,
                    old(leaves), before, leaves, outcome);
        if outcome.Fail? {
          return;
        }
        done := done + LinePath(mode, lookup, Step(bom.revisionNumber, line), nextAncestors, prefix).value;
      }
      ThenAssociates(done, [], Success([]));
      return Pass;
    }

    /** The body of the loop over a BOM's lines. */
    method VisitLine(mode: Mode, lookup: Lookup, revision: int, line: Line, grossMultiplier: real, baseMultiplier: real,
                     nextAncestors: seq<Item>, trail: seq<int>, ghost topRevision: int, ghost prefix: Path)
      returns (outcome: Outcome<Failure>)
      requires |nextAncestors| <= MAX_EXPLOSION_DEPTH
      requires grossMultiplier == Gross(prefix) && baseMultiplier == Base(prefix)
      requires trail == [topRevision] + Trail(prefix)
      modifies this
      ensures Appended(old(leaves), leaves, outcome,
                LinePath(mode, lookup, Step(revision, line), nextAncestors, prefix), topRevision)
      decreases MAX_EXPLOSION_DEPTH - |nextAncestors|, 1
    {
      hide RoundedGross, RoundedBase, WastageFactor;
      ghost var here := prefix + [Step(revision, line)];
      FoldStep(prefix, Step(revision, line));
      var childGross := NextGross(grossMultiplier, line);
      var childBase := NextBase(baseMultiplier, line);
      var childTrail := trail + [revision];
      assert childTrail == [topRevision] + Trail(here);
      if Descends(mode, lookup, line) {
        outcome := Walk(mode, lookup, line.itemId, childGross, childBase, nextAncestors, childTrail, topRevision, here);
      } else {
        leaves := leaves + [Leaf(line.itemId, line.unitOfMeasure, childGross, childBase, childTrail)];
        assert LeavesOf(topRevision, [here]) == [LeafOf(topRevision, here)];
        outcome := Pass;
      }
    }
  }

  method ExplodeBom(mode: Mode, lookup: Lookup, topItemId: Item) returns (result: Result<seq<Leaf>, Failure>)
    ensures result == Explode(mode, lookup, topItemId)
  {
    var e := new Explosion();
    var revision := TopRevision(lookup, topItemId);
    assert [revision] == [revision] + Trail([]);
    var outcome := e.Walk(mode, lookup, topItemId, 1.0, 1.0, [], [revision], revision, []);
    match outcome
    case Fail(error) => return Failure(error);
    case Pass =>
      assert e.leaves == LeavesOf(revision, WalkPaths(mode, lookup, topItemId, [], []).value);
      return Success(e.leaves);
  }
}
