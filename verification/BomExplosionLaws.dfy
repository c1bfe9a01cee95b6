/** What the explosions of module BomExplosion promise, for every lookup and every top item. */
module BomExplosionLaws {
  import opened Wrappers
  import opened Decimals
  import opened BomExplosion

  // ---------------------------------------------------------------- success and errors

  /** Some line of a's BOM is for b, and the walk goes into it. */
  ghost predicate Link(mode: Mode, lookup: Lookup, a: Item, b: Item) {
    && Expandable(lookup, a)
    && exists k :: 0 <= k < |lookup[a].lines| && lookup[a].lines[k].itemId == b &&
        Descends(mode, lookup, lookup[a].lines[k])
  }

  /** A parent-to-child chain of items the walk can follow. */
  ghost predicate Chain(mode: Mode, lookup: Lookup, p: seq<Item>) {
    && |p| > 0
    && forall i :: 0 <= i < |p| - 1 ==> Link(mode, lookup, p[i], p[i + 1])
  }

  ghost predicate WithinLimits(p: seq<Item>) {
    Distinct(p) && |p| <= MAX_EXPLOSION_DEPTH
  }

  /** The error carries a parent-to-child chain from `top` that justifies it. */
  ghost predicate Genuine(mode: Mode, lookup: Lookup, top: Item, error: Failure) {
    var path, n := error.path, |error.path| - 1;
    && Chain(mode, lookup, path) && path[0] == top && Distinct(path[..n])
    && match error
       case CycleError(_) => path[n] in path[..n]
       case DepthError(_) => path[n] !in path[..n] && n == MAX_EXPLOSION_DEPTH
  }

  lemma {:induction false} WalkFailureIsGenuine(mode: Mode, lookup: Lookup, item: Item, ancestors: seq<Item>,
      prefix: Path)
    requires |ancestors| <= MAX_EXPLOSION_DEPTH
    requires Chain(mode, lookup, ancestors + [item]) && Distinct(ancestors)
    ensures var walked := WalkPaths(mode, lookup, item, ancestors, prefix);
      walked.Failure? ==> Genuine(mode, lookup, (ancestors + [item])[0], walked.error)
    decreases MAX_EXPLOSION_DEPTH - |ancestors|, 0, 0
  {
    var path := ancestors + [item];
    assert path[..|path| - 1] == ancestors;
    if item !in ancestors && |ancestors| < MAX_EXPLOSION_DEPTH && Expandable(lookup, item) {
      LinesFailureIsGenuine(mode, lookup, item, 0, path, prefix);
    }
  }

  lemma {:induction false} LinesFailureIsGenuine(mode: Mode, lookup: Lookup, item: Item, k: nat, ancestors: seq<Item>,
      prefix: Path)
    requires 0 < |ancestors| <= MAX_EXPLOSION_DEPTH && Expandable(lookup, item) && k <= |lookup[item].lines|
    requires Chain(mode, lookup, ancestors) && Distinct(ancestors) && ancestors[|ancestors| - 1] == item
    ensures var walked := LinePaths(mode, lookup, lookup[item], k, ancestors, prefix);
      walked.Failure? ==> Genuine(mode, lookup, ancestors[0], walked.error)
    decreases MAX_EXPLOSION_DEPTH - |ancestors|, 1, |lookup[item].lines| - k
  {
    var bom := lookup[item];
    if k < |bom.lines| {
      var line := bom.lines[k];
      if Descends(mode, lookup, line) {
        assert Link(mode, lookup, item, line.itemId);
        WalkFailureIsGenuine(mode, lookup, line.itemId, ancestors, prefix + [Step(bom.revisionNumber, line)]);
      }
      LinesFailureIsGenuine(mode, lookup, item, k + 1, ancestors, prefix);
    }
  }

  /** A successful walk has followed every chain below its item. */
  lemma {:induction false} WalkSuccessBoundsChains(
    mode: Mode, lookup: Lookup, item: Item, ancestors: seq<Item>, prefix: Path, p: seq<Item>)
    requires |ancestors| <= MAX_EXPLOSION_DEPTH
    requires WalkPaths(mode, lookup, item, ancestors, prefix).Success?
    requires Chain(mode, lookup, p) && p[0] == item
    ensures Distinct(p) && |ancestors| + |p| <= MAX_EXPLOSION_DEPTH
    ensures forall i :: 0 <= i < |p| ==> p[i] !in ancestors
    decreases |p|
  {
    if |p| > 1 {
      assert Link(mode, lookup, p[0], p[1]);
      var bom := lookup[item];
      var k :| 0 <= k < |bom.lines| && bom.lines[k].itemId == p[1] && Descends(mode, lookup, bom.lines[k]);
      var next := ancestors + [item];
      LinesSuccessIncludesLine(mode, lookup, bom, 0, k, next, prefix);
      forall i | 0 <= i < |p[1..]| - 1
        ensures Link(mode, lookup, p[1..][i], p[1..][i + 1])
      {
        assert Link(mode, lookup, p[i + 1], p[i + 2]);
      }
      WalkSuccessBoundsChains(mode, lookup, p[1], next, prefix + [Step(bom.revisionNumber, bom.lines[k])], p[1..]);
      forall i | 0 <= i < |p|
        ensures p[i] !in ancestors && (i > 0 ==> p[i] != item)
      {
        if i > 0 {
          assert p[1..][i - 1] !in next;
        }
      }
    }
  }

  lemma {:induction false} LinesSuccessIncludesLine(
    mode: Mode, lookup: Lookup, bom: Bom, from: nat, k: nat, ancestors: seq<Item>, prefix: Path)
    requires from <= k < |bom.lines| && |ancestors| <= MAX_EXPLOSION_DEPTH
    requires LinePaths(mode, lookup, bom, from, ancestors, prefix).Success?
    ensures LinePath(mode, lookup, Step(bom.revisionNumber, bom.lines[k]), ancestors, prefix).Success?
    decreases k - from
  {
    if from < k {
      LinesSuccessIncludesLine(mode, lookup, bom, from + 1, k, ancestors, prefix);
    }
  }

  /** Every error is genuine: its chain starts at the top item and ends where the walk stopped. */
  lemma ExplosionErrorsAreGenuine(mode: Mode, lookup: Lookup, top: Item)
    ensures var r := Explode(mode, lookup, top);
      r.Failure? ==> Genuine(mode, lookup, top, r.error)
  {
    assert [] + [top] == [top];
    WalkFailureIsGenuine(mode, lookup, top, [], []);
  }

  /** An explosion succeeds exactly when every chain from the top is free of repeats and at most 25 long. */
  lemma ExplosionSucceedsIff(mode: Mode, lookup: Lookup, top: Item)
    ensures Explode(mode, lookup, top).Success? <==>
            forall p :: Chain(mode, lookup, p) && p[0] == top ==> WithinLimits(p)
  {
    if Explode(mode, lookup, top).Success? {
      forall p | Chain(mode, lookup, p) && p[0] == top
        ensures WithinLimits(p)
      {
        WalkSuccessBoundsChains(mode, lookup, top, [], [], p);
      }
    } else {
      ExplosionErrorsAreGenuine(mode, lookup, top);
      var path := Explode(mode, lookup, top).error.path;
      assert Chain(mode, lookup, path) && !WithinLimits(path);
    }
  }

  // ---------------------------------------------------------------- the general explosion in graph terms

  ghost predicate ChildOf(lookup: Lookup, parent: Item, child: Item) {
    parent in lookup && exists k :: 0 <= k < |lookup[parent].lines| && lookup[parent].lines[k].itemId == child
  }

  /** A path of the BOM graph all of whose items have non-empty BOMs. */
  ghost predicate AssemblyPath(lookup: Lookup, p: seq<Item>) {
    && |p| > 0
    && (forall i :: 0 <= i < |p| ==> Expandable(lookup, p[i]))
    && forall i :: 0 <= i < |p| - 1 ==> ChildOf(lookup, p[i], p[i + 1])
  }

  lemma AssemblyPathsAreChains(lookup: Lookup, p: seq<Item>)
    ensures AssemblyPath(lookup, p) ==> Chain(General, lookup, p)
    ensures Chain(General, lookup, p) && |p| > 1 ==> AssemblyPath(lookup, p)
  {
    if AssemblyPath(lookup, p) {
      forall i | 0 <= i < |p| - 1
        ensures Link(General, lookup, p[i], p[i + 1])
      {
        assert ChildOf(lookup, p[i], p[i + 1]) && Expandable(lookup, p[i + 1]);
      }
    }
    if Chain(General, lookup, p) && |p| > 1 {
      forall i | 0 <= i < |p|
        ensures Expandable(lookup, p[i])
      {
        if i < |p| - 1 {
          assert Link(General, lookup, p[i], p[i + 1]);
        } else {
          assert Link(General, lookup, p[i - 1], p[i]);
        }
      }
      forall i | 0 <= i < |p| - 1
        ensures ChildOf(lookup, p[i], p[i + 1])
      {
        assert Link(General, lookup, p[i], p[i + 1]);
      }
    }
  }

  /**
   `explodeBom` succeeds exactly when no item repeats along a path of assemblies from the top
   (no reachable cycle) and no such path has more than 25 items.
   */
  lemma ExplodeBomSucceedsIff(lookup: Lookup, top: Item)
    ensures Explode(General, lookup, top).Success? <==>
            forall p :: AssemblyPath(lookup, p) && p[0] == top ==> WithinLimits(p)
  {
    ExplosionSucceedsIff(General, lookup, top);
    if forall p :: AssemblyPath(lookup, p) && p[0] == top ==> WithinLimits(p) {
      forall p | Chain(General, lookup, p) && p[0] == top
        ensures WithinLimits(p)
      {
        AssemblyPathsAreChains(lookup, p);
      }
    }
    if forall p :: Chain(General, lookup, p) && p[0] == top ==> WithinLimits(p) {
      forall p | AssemblyPath(lookup, p) && p[0] == top
        ensures WithinLimits(p)
      {
        AssemblyPathsAreChains(lookup, p);
      }
    }
  }

  // ---------------------------------------------------------------- which leaves are produced

  /** q follows BOM lines from `item` down to a line the walk does not enter. */
  ghost predicate LeafPath(mode: Mode, lookup: Lookup, item: Item, q: Path)
    decreases |q|
  {
    && |q| > 0
    && Expandable(lookup, item)
    && q[0].revision == lookup[item].revisionNumber
    && q[0].line in lookup[item].lines
    && if |q| == 1 then !Descends(mode, lookup, q[0].line)
       else Descends(mode, lookup, q[0].line) && LeafPath(mode, lookup, q[0].line.itemId, q[1..])
  }

  ghost predicate Found(paths: seq<Path>, p: Path) {
    exists i :: 0 <= i < |paths| && paths[i] == p
  }

  lemma FoundConcat(a: seq<Path>, b: seq<Path>, p: Path)
    ensures Found(a + b, p) <==> Found(a, p) || Found(b, p)
  {
    if Found(a, p) {
      var i :| 0 <= i < |a| && a[i] == p;
      assert (a + b)[i] == p;
    }
    if Found(b, p) {
      var i :| 0 <= i < |b| && b[i] == p;
      assert (a + b)[|a| + i] == p;
    }
  }

  /** A successful walk finds exactly the leaf paths. */
  lemma {:induction false} WalkFindsLeafPaths(
    mode: Mode, lookup: Lookup, item: Item, ancestors: seq<Item>, prefix: Path, q: Path)
    requires |ancestors| <= MAX_EXPLOSION_DEPTH
    requires WalkPaths(mode, lookup, item, ancestors, prefix).Success?
    ensures Found(WalkPaths(mode, lookup, item, ancestors, prefix).value, prefix + q) <==>
              LeafPath(mode, lookup, item, q)
    decreases MAX_EXPLOSION_DEPTH - |ancestors|, 0, 0
  {
    if Expandable(lookup, item) {
      var bom := lookup[item];
      LinesFindLeafPaths(mode, lookup, bom, 0, ancestors + [item], prefix, q);
      if LeafPath(mode, lookup, item, q) {
        var k :| 0 <= k < |bom.lines| && bom.lines[k] == q[0].line;
        assert LeafPathVia(mode, lookup, bom, k, q);
      }
    }
  }

  ghost predicate LeafPathVia(mode: Mode, lookup: Lookup, bom: Bom, k: nat, q: Path)
    requires k < |bom.lines|
  {
    && |q| > 0
    && q[0] == Step(bom.revisionNumber, bom.lines[k])
    && if |q| == 1 then !Descends(mode, lookup, q[0].line)
       else Descends(mode, lookup, q[0].line) && LeafPath(mode, lookup, q[0].line.itemId, q[1..])
  }

  lemma {:induction false} LinesFindLeafPaths(
    mode: Mode, lookup: Lookup, bom: Bom, from: nat, ancestors: seq<Item>, prefix: Path, q: Path)
    requires from <= |bom.lines| && |ancestors| <= MAX_EXPLOSION_DEPTH
    requires LinePaths(mode, lookup, bom, from, ancestors, prefix).Success?
    ensures Found(LinePaths(mode, lookup, bom, from, ancestors, prefix).value, prefix + q) <==>
            exists k :: from <= k < |bom.lines| && LeafPathVia(mode, lookup, bom, k, q)
    decreases MAX_EXPLOSION_DEPTH - |ancestors|, 1, |bom.lines| - from + 1
  {
    if from < |bom.lines| {
      var step := Step(bom.revisionNumber, bom.lines[from]);
      var first := LinePath(mode, lookup, step, ancestors, prefix).value;
      var rest := LinePaths(mode, lookup, bom, from + 1, ancestors, prefix).value;
      LineFindsLeafPaths(mode, lookup, bom, from, ancestors, prefix, q);
      LinesFindLeafPaths(mode, lookup, bom, from + 1, ancestors, prefix, q);
      FoundConcat(first, rest, prefix + q);
    }
  }

  lemma ExtendsByStep(prefix: Path, step: Step, q: Path)
    ensures prefix + [step] < prefix + q <==> |q| > 1 && q[0] == step
  {
    if prefix + [step] < prefix + q {
      assert (prefix + q)[|prefix|] == (prefix + [step])[|prefix|];
    }
  }

  lemma {:induction false} LineFindsLeafPaths(
    mode: Mode, lookup: Lookup, bom: Bom, k: nat, ancestors: seq<Item>, prefix: Path, q: Path)
    requires k < |bom.lines| && |ancestors| <= MAX_EXPLOSION_DEPTH
    requires LinePath(mode, lookup, Step(bom.revisionNumber, bom.lines[k]), ancestors, prefix).Success?
    ensures Found(LinePath(mode, lookup, Step(bom.revisionNumber, bom.lines[k]), ancestors, prefix).value, prefix + q)
            <==> LeafPathVia(mode, lookup, bom, k, q)
    decreases MAX_EXPLOSION_DEPTH - |ancestors|, 1, 0
  {
    var step := Step(bom.revisionNumber, bom.lines[k]);
    var here := prefix + [step];
    if Descends(mode, lookup, step.line) {
      var paths := WalkPaths(mode, lookup, step.line.itemId, ancestors, here).value;
      WalkPathsExtend(mode, lookup, step.line.itemId, ancestors, here);
      ExtendsByStep(prefix, step, q);
      if |q| > 1 && q[0] == step {
        assert prefix + q == here + q[1..];
        WalkFindsLeafPaths(mode, lookup, step.line.itemId, ancestors, here, q[1..]);
      }
    } else {
      assert [here][0] == here;
      if Found([here], prefix + q) {
        assert prefix + q == here;
        assert q == here[|prefix|..] == [step];
      }
      if LeafPathVia(mode, lookup, bom, k, q) {
        assert q == [step];
      }
    }
  }

  /** The leaves of an explosion are, in order, those of its leaf paths; every leaf path occurs. */
  lemma ExplosionLeaves(mode: Mode, lookup: Lookup, top: Item) returns (paths: seq<Path>)
    requires Explode(mode, lookup, top).Success?
    ensures AllExtend(paths, [])
    ensures Explode(mode, lookup, top).value == LeavesOf(TopRevision(lookup, top), paths)
    ensures forall q :: Found(paths, q) <==> LeafPath(mode, lookup, top, q)
  {
    paths := WalkPaths(mode, lookup, top, [], []).value;
    WalkPathsExtend(mode, lookup, top, [], []);
    forall q
      ensures Found(paths, q) <==> LeafPath(mode, lookup, top, q)
    {
      assert [] + q == q;
      WalkFindsLeafPaths(mode, lookup, top, [], [], q);
    }
  }

  // ---------------------------------------------------------------- quantities

  /** The exact quantity factor of one line, wastage included. */
  function Factor(line: Line): real {
    FactorOf(line.quantityPerUnit, WastageFactor(line))
  }

  function FactorOf(quantity: real, wastageFactor: real): real {
    quantity * wastageFactor
  }

  ghost predicate NonNegative(path: Path) {
    forall i :: 0 <= i < |path| ==> path[i].line.quantityPerUnit >= 0.0 && path[i].line.wastagePercent >= 0.0
  }

  /** The unrounded gross quantity: the product of the factors along the path. */
  function Exact(path: Path): real {
    if path == [] then 1.0 else Factor(path[0].line) * Exact(path[1..])
  }

  /** The sum, over the levels of the path, of the product of the factors below that level. */
  function RemainingFactors(path: Path): real {
    if path == [] then 0.0 else Exact(path[1..]) + RemainingFactors(path[1..])
  }

  lemma {:induction false} ExactLast(path: Path, s: Step)
    ensures Exact(path + [s]) == Exact(path) * Factor(s.line)
    ensures RemainingFactors(path + [s]) == RemainingFactors(path) * Factor(s.line) + 1.0
  {
    if path == [] {
      assert (path + [s])[1..] == [];
    } else {
      assert (path + [s])[1..] == path[1..] + [s];
      ExactLast(path[1..], s);
    }
  }

  /** g is within half a unit in the last place, r times over, of x. */
  ghost predicate Close(g: real, x: real, r: real) {
    -0.00005 * r <= g - x <= 0.00005 * r
  }

  /** The rounded gross quantity is within half a unit in the last place per level, carried down. */
  lemma {:induction false} GrossErrorBound(path: Path)
    requires NonNegative(path)
    ensures Close(Gross(path), Exact(path), RemainingFactors(path))
  {
    if path != [] {
      var init, s := path[..|path| - 1], path[|path| - 1];
      GrossErrorBound(init);
      GrossErrorStep(init, s);
      assert path == init + [s];
    }
  }

  lemma GrossErrorStep(init: Path, s: Step)
    requires s.line.quantityPerUnit >= 0.0 && s.line.wastagePercent >= 0.0
    requires Close(Gross(init), Exact(init), RemainingFactors(init))
    ensures Close(Gross(init + [s]), Exact(init + [s]), RemainingFactors(init + [s]))
  {
    hide NextGross, Gross, Factor, Exact, RemainingFactors, Close, Rounds;
    FoldStep(init, s);
    ExactLast(init, s);
    FactorNonNegative(s.line);
    NextGrossNearest(Gross(init), s.line);
    CarryError(Gross(init), Exact(init), RemainingFactors(init), Factor(s.line),
               Gross(init + [s]), Exact(init + [s]), RemainingFactors(init + [s]));
  }

  /** g' is the product g * f, rounded to four places. */
  ghost predicate Rounds(g': real, g: real, f: real) {
    -0.00005 <= g' - g * f <= 0.00005
  }

  /** One more level scales the error so far by its factor and adds half a unit in the last place. */
  lemma CarryError(g: real, x: real, r: real, f: real, g': real, x': real, r': real)
    requires f >= 0.0 && Close(g, x, r)
    requires Rounds(g', g, f) && x' == x * f && r' == r * f + 1.0
    ensures Close(g', x', r')
  {
    var e := (g - x) * f;
    assert e == g * f - x';
    ProductMonotone(g - x, 0.00005 * r, f);
    ProductMonotone(-0.00005 * r, g - x, f);
    assert -0.00005 * (r' - 1.0) <= e <= 0.00005 * (r' - 1.0);
  }

  lemma FactorNonNegative(line: Line)
    requires line.quantityPerUnit >= 0.0 && line.wastagePercent >= 0.0
    ensures Factor(line) >= 0.0
  {
    ProductNonNegative(line.quantityPerUnit, WastageFactor(line));
  }

  lemma NextGrossNearest(gross: real, line: Line)
    ensures Rounds(NextGross(gross, line), gross, Factor(line))
  {
    hide RoundedGross, WastageFactor, FactorOf, Rounds;
    RoundedGrossNearest(gross, line.quantityPerUnit, WastageFactor(line));
  }

  lemma RoundedGrossNearest(g: real, q: real, w: real)
    ensures Rounds(RoundedGross(g, q, w), g, FactorOf(q, w))
  {
  }

  /** Wastage never lowers a requirement: gross is at least base. */
  lemma {:induction false} GrossAtLeastBase(path: Path)
    requires NonNegative(path)
    ensures Gross(path) >= Base(path) >= 0.0
  {
    if path != [] {
      var init, s := path[..|path| - 1], path[|path| - 1];
      GrossAtLeastBase(init);
      FoldStep(init, s);
      assert path == init + [s];
      NextGrossAtLeastBase(Gross(init), Base(init), s.line);
    }
  }

  lemma WastageRaises(b: real, g: real, q: real, w: real)
    requires g >= b >= 0.0 && q >= 0.0 && w >= 1.0
    ensures 0.0 <= RoundedBase(b, q) <= RoundedGross(g, q, w)
  {
    WastageRaisesExactly(b, g, q, w);
    hide Round4;
    Round4Monotone(b * q, g * q * w);
    Round4Nearest(b * q);
  }

  lemma WastageRaisesExactly(b: real, g: real, q: real, w: real)
    requires g >= b >= 0.0 && q >= 0.0 && w >= 1.0
    ensures 0.0 <= b * q <= g * q * w
  {
    ProductMonotone(b, g, q);
    ProductNonNegative(b, q);
    ProductMonotone(1.0, w, g * q);
  }

  lemma NextGrossAtLeastBase(g: real, b: real, line: Line)
    requires g >= b >= 0.0 && line.quantityPerUnit >= 0.0 && line.wastagePercent >= 0.0
    ensures NextGross(g, line) >= NextBase(b, line) >= 0.0
  {
    assert WastageFactor(line) >= 1.0;
    hide RoundedGross, RoundedBase, WastageFactor;
    WastageRaises(b, g, line.quantityPerUnit, WastageFactor(line));
  }

  /** The same path with no wastage anywhere. */
  function WithoutWastage(path: Path): Path {
    seq(|path|, i requires 0 <= i < |path| => path[i].(line := path[i].line.(wastagePercent := 0.0)))
  }

  /** The base quantity is what the gross quantity would be without wastage. */
  lemma {:induction false} BaseIsGrossWithoutWastage(path: Path)
    ensures Base(path) == Gross(WithoutWastage(path))
  {
    if path != [] {
      hide RoundedGross, RoundedBase, WastageFactor;
      var n := |path| - 1;
      BaseIsGrossWithoutWastage(path[..n]);
      assert WithoutWastage(path)[..n] == WithoutWastage(path[..n]);
      NoWastage(Base(path[..n]), path[n].line);
    }
  }

  lemma NoWastage(base: real, line: Line)
    ensures NextGross(base, line.(wastagePercent := 0.0)) == NextBase(base, line)
  {
    assert WastageFactor(line.(wastagePercent := 0.0)) == 1.0;
    RoundingOnce(base, line.quantityPerUnit);
    hide RoundedGross, RoundedBase, WastageFactor;
  }

  lemma RoundingOnce(base: real, quantity: real)
    ensures RoundedGross(base, quantity, 1.0) == RoundedBase(base, quantity)
  {
    SameProduct(base * quantity, 1.0);
    RoundsAlike(base * quantity * 1.0, base * quantity);
  }

  lemma SameProduct(x: real, one: real)
    requires one == 1.0
    ensures x * one == x
  {
  }

  lemma RoundsAlike(x: real, y: real)
    requires x == y
    ensures Round4(x) == Round4(y)
  {
  }

  /** Both bounds, for every leaf an explosion of non-negative lines produces. */
  lemma LeafQuantities(mode: Mode, lookup: Lookup, top: Item) returns (paths: seq<Path>)
    requires Explode(mode, lookup, top).Success?
    requires forall item, k :: item in lookup && 0 <= k < |lookup[item].lines| ==>
      lookup[item].lines[k].quantityPerUnit >= 0.0 && lookup[item].lines[k].wastagePercent >= 0.0
    ensures var leaves := Explode(mode, lookup, top).value;
      && |paths| == |leaves|
      && forall i :: 0 <= i < |leaves| ==>
        && LeafPath(mode, lookup, top, paths[i])
        && leaves[i].itemId == paths[i][|paths[i]| - 1].line.itemId
        && leaves[i].quantityPerTopUnit >= leaves[i].basePerTopUnit >= 0.0
        && Close(leaves[i].quantityPerTopUnit, Exact(paths[i]), RemainingFactors(paths[i]))
        && Close(leaves[i].basePerTopUnit, Exact(WithoutWastage(paths[i])), RemainingFactors(WithoutWastage(paths[i])))
  {
    paths := ExplosionLeaves(mode, lookup, top);
    var leaves := Explode(mode, lookup, top).value;
    forall i | 0 <= i < |leaves|
      ensures LeafPath(mode, lookup, top, paths[i]) && NonNegative(paths[i])
      ensures leaves[i] == LeafOf(TopRevision(lookup, top), paths[i])
      ensures Gross(paths[i]) >= Base(paths[i]) >= 0.0
      ensures Close(Gross(paths[i]), Exact(paths[i]), RemainingFactors(paths[i]))
      ensures Close(Base(paths[i]), Exact(WithoutWastage(paths[i])), RemainingFactors(WithoutWastage(paths[i])))
    {
      assert Found(paths, paths[i]);
      LeavesOfAt(TopRevision(lookup, top), paths, i);
      LeafPathNonNegative(mode, lookup, top, paths[i]);
      GrossErrorBound(paths[i]);
      GrossAtLeastBase(paths[i]);
      BaseIsGrossWithoutWastage(paths[i]);
      GrossErrorBound(WithoutWastage(paths[i]));
      hide Close, Gross, Base, Exact, RemainingFactors;
    }
    hide Close, Gross, Base, Exact, RemainingFactors;
  }

  lemma {:induction false} LeavesOfAt(topRevision: int, paths: seq<Path>, i: nat)
    requires AllExtend(paths, []) && i < |paths|
    ensures paths[i] != [] && LeavesOf(topRevision, paths)[i] == LeafOf(topRevision, paths[i])
  {
    if i > 0 {
      LeavesOfAt(topRevision, paths[1..], i - 1);
    }
  }

  lemma {:induction false} LeafPathNonNegative(mode: Mode, lookup: Lookup, item: Item, q: Path)
    requires LeafPath(mode, lookup, item, q)
    requires forall item, k :: item in lookup && 0 <= k < |lookup[item].lines| ==>
      lookup[item].lines[k].quantityPerUnit >= 0.0 && lookup[item].lines[k].wastagePercent >= 0.0
    ensures NonNegative(q)
    decreases |q|
  {
    if |q| > 1 {
      LeafPathNonNegative(mode, lookup, q[0].line.itemId, q[1..]);
      assert q == [q[0]] + q[1..];
    }
  }

  // ---------------------------------------------------------------- procurement

  /** With no explicit sourcing on any line the two explosions agree, errors included. */
  lemma ProcurementWithoutSourcing(lookup: Lookup, top: Item)
    requires forall item, k :: item in lookup && 0 <= k < |lookup[item].lines| ==> lookup[item].lines[k].makeBuy.None?
    ensures Explode(Procurement, lookup, top) == Explode(General, lookup, top)
  {
    WalksAgree(lookup, top, [], []);
  }

  lemma {:induction false} WalksAgree(lookup: Lookup, item: Item, ancestors: seq<Item>, prefix: Path)
    requires |ancestors| <= MAX_EXPLOSION_DEPTH
    requires forall item, k :: item in lookup && 0 <= k < |lookup[item].lines| ==> lookup[item].lines[k].makeBuy.None?
    ensures WalkPaths(Procurement, lookup, item, ancestors, prefix) ==
              WalkPaths(General, lookup, item, ancestors, prefix)
    decreases MAX_EXPLOSION_DEPTH - |ancestors|, 0, 0
  {
    if item !in ancestors && |ancestors| < MAX_EXPLOSION_DEPTH && Expandable(lookup, item) {
      LinesAgree(lookup, item, 0, ancestors + [item], prefix);
    }
  }

  lemma {:induction false} LinesAgree(lookup: Lookup, item: Item, k: nat, ancestors: seq<Item>, prefix: Path)
    requires item in lookup && k <= |lookup[item].lines| && |ancestors| <= MAX_EXPLOSION_DEPTH
    requires forall item, k :: item in lookup && 0 <= k < |lookup[item].lines| ==> lookup[item].lines[k].makeBuy.None?
    ensures LinePaths(Procurement, lookup, lookup[item], k, ancestors, prefix) ==
            LinePaths(General, lookup, lookup[item], k, ancestors, prefix)
    decreases MAX_EXPLOSION_DEPTH - |ancestors|, 1, |lookup[item].lines| - k
  {
    var bom := lookup[item];
    if k < |bom.lines| {
      WalksAgree(lookup, bom.lines[k].itemId, ancestors, prefix + [Step(bom.revisionNumber, bom.lines[k])]);
      LinesAgree(lookup, item, k + 1, ancestors, prefix);
    }
  }

  /** A MAKE line for an item without a BOM, under a chain of 25 assemblies from `top`. */
  ghost predicate UnsourcedMakeAtLimit(lookup: Lookup, top: Item, path: seq<Item>) {
    && |path| == MAX_EXPLOSION_DEPTH + 1
    && path[0] == top
    && Chain(Procurement, lookup, path)
    && AssemblyPath(lookup, path[..MAX_EXPLOSION_DEPTH])
    && !Expandable(lookup, path[MAX_EXPLOSION_DEPTH])
  }

  lemma ProcurementChains(lookup: Lookup, p: seq<Item>)
    requires Chain(Procurement, lookup, p)
    ensures |p| > 1 ==> AssemblyPath(lookup, p[..|p| - 1])
    ensures |p| > 1 && Expandable(lookup, p[|p| - 1]) ==> AssemblyPath(lookup, p)
  {
    forall i | 0 <= i < |p| - 1
      ensures Expandable(lookup, p[i]) && ChildOf(lookup, p[i], p[i + 1])
    {
      assert Link(Procurement, lookup, p[i], p[i + 1]);
    }
  }

  /**
   On a tree the general explosion accepts, the procurement explosion never reports a cycle,
   and it fails exactly when a MAKE line without a BOM hangs under 25 assemblies; the error
   then carries such a path.
   */
  lemma ProcurementOnAcceptedTree(lookup: Lookup, top: Item)
    requires Explode(General, lookup, top).Success?
    ensures var r := Explode(Procurement, lookup, top);
      && (r.Failure? ==> r.error.DepthError? && UnsourcedMakeAtLimit(lookup, top, r.error.path))
      && (r.Failure? <==> exists path :: UnsourcedMakeAtLimit(lookup, top, path))
  {
    var r := Explode(Procurement, lookup, top);
    ExplodeBomSucceedsIff(lookup, top);
    ExplosionSucceedsIff(Procurement, lookup, top);
    if r.Failure? {
      ExplosionErrorsAreGenuine(Procurement, lookup, top);
      var path, n := r.error.path, |r.error.path| - 1;
      ProcurementChains(lookup, path);
      if n > 0 {
        assert path[..n][0] == top;
      }
      assert UnsourcedMakeAtLimit(lookup, top, path);
    }
    if path :| UnsourcedMakeAtLimit(lookup, top, path) {
      assert !WithinLimits(path);
    }
  }
}
