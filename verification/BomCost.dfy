/**
 Cost roll-up over exploded leaves: the loop of src/modules/bom/bom-cost-snapshot.service.ts and
 the fold of src/modules/bom/bom-cost.ts, which are to agree.
 */
module BomCost {
  import opened Wrappers
  import opened Decimals
  import opened BomExplosion
  import opened BomExplosionLaws

  /** The current cost of each item that has one. */
  type Costs = map<Item, real>

  predicate Costed(leaves: seq<Leaf>, costs: Costs) {
    forall i :: 0 <= i < |leaves| ==> leaves[i].itemId in costs
  }

  /** Quantity times cost, over the leaves that have one. */
  function Value(leaves: seq<Leaf>, costs: Costs): real {
    if leaves == [] then 0.0
    else
      var last := leaves[|leaves| - 1];
      Value(leaves[..|leaves| - 1], costs) +
      if last.itemId in costs then Times(last.quantityPerTopUnit, costs[last.itemId]) else 0.0
  }

  /** The loop form: no amount at all once some leaf has no cost. */
  method Calculate(leaves: seq<Leaf>, costs: Costs) returns (amount: Option<real>)
    ensures amount == if Costed(leaves, costs) then Some(Round2(Value(leaves, costs))) else None
  {
    hide Round2, Times;
    var total, isComplete := 0.0, true;
    for i := 0 to |leaves|
      invariant isComplete <==> Costed(leaves[..i], costs)
      invariant total == Value(leaves[..i], costs)
    {
      assert leaves[..i + 1][..i] == leaves[..i];
      CostedNext(leaves, i, costs);
      if leaves[i].itemId !in costs {
        isComplete := false;
      } else {
        total := total + Times(leaves[i].quantityPerTopUnit, costs[leaves[i].itemId]);
      }
    }
    assert leaves[..|leaves|] == leaves;
    return if isComplete then Some(Round2(total)) else None;
  }

  lemma CostedNext(leaves: seq<Leaf>, i: nat, costs: Costs)
    requires i < |leaves|
    ensures Costed(leaves[..i + 1], costs) <==> Costed(leaves[..i], costs) && leaves[i].itemId in costs
  {
    assert leaves[..i + 1] == leaves[..i] + [leaves[i]];
  }

  /** The fold's accumulator; the first item without a cost stops it. */
  function Fold(total: real, leaves: seq<Leaf>, costs: Costs): Result<real, Item>
    decreases leaves
  {
    if leaves == [] then Success(total)
    else if leaves[0].itemId !in costs then Failure(leaves[0].itemId)
    else Fold(total + Times(leaves[0].quantityPerTopUnit, costs[leaves[0].itemId]), leaves[1..], costs)
  }

  function RollUp(leaves: seq<Leaf>, costs: Costs): Result<real, Item> {
    var r := Fold(0.0, leaves, costs);
    if r.Failure? then r else Success(Round2(r.value))
  }

  lemma {:induction false} ValueFromFront(leaves: seq<Leaf>, costs: Costs)
    requires leaves != [] && leaves[0].itemId in costs
    ensures Value(leaves, costs) == Times(leaves[0].quantityPerTopUnit, costs[leaves[0].itemId])
              + Value(leaves[1..], costs)
  {
    hide Times;
    var n := |leaves| - 1;
    if n == 0 {
      assert Value(leaves[..0], costs) == 0.0 && Value(leaves[1..], costs) == 0.0;
    } else {
      ValueFromFront(leaves[..n], costs);
      assert leaves[..n][1..] == leaves[1..][..n - 1];
    }
  }

  lemma {:induction false} FoldIs(total: real, leaves: seq<Leaf>, costs: Costs)
    ensures Fold(total, leaves, costs).Success? <==> Costed(leaves, costs)
    ensures Costed(leaves, costs) ==> Fold(total, leaves, costs).value == total + Value(leaves, costs)
    ensures Fold(total, leaves, costs).Failure? ==> Fold(total, leaves, costs).error !in costs
    decreases leaves
  {
    hide Times;
    if leaves != [] && leaves[0].itemId in costs {
      FoldIs(total + Times(leaves[0].quantityPerTopUnit, costs[leaves[0].itemId]), leaves[1..], costs);
      ValueFromFront(leaves, costs);
      assert leaves == [leaves[0]] + leaves[1..];
    }
  }

  /** Both forms give the same amount, and give none for the same leaves. */
  lemma FormsAgree(leaves: seq<Leaf>, costs: Costs)
    ensures RollUp(leaves, costs).Success? <==> Costed(leaves, costs)
    ensures Costed(leaves, costs) ==> RollUp(leaves, costs).value == Round2(Value(leaves, costs))
    ensures RollUp(leaves, costs).Failure? ==> RollUp(leaves, costs).error !in costs
  {
    FoldIs(0.0, leaves, costs);
    hide Round2, Value, Fold;
  }

  // ---------------------------------------------------------------- the exact cost of the tree

  function CostOf(costs: Costs, item: Item): real {
    if item in costs then costs[item] else 0.0
  }

  /** The exact cost of one unit of an assembly, down to the given depth of assemblies. */
  function TreeCost(mode: Mode, lookup: Lookup, item: Item, costs: Costs, depth: nat): real
    decreases depth, 0, 0
  {
    if depth == 0 || !Expandable(lookup, item) then 0.0
    else LinesCost(mode, lookup, lookup[item].lines, 0, costs, depth - 1)
  }

  function LinesCost(mode: Mode, lookup: Lookup, lines: seq<Line>, k: nat, costs: Costs, depth: nat): real
    requires k <= |lines|
    decreases depth, 1, |lines| - k + 1
  {
    if k == |lines| then 0.0
    else
      Times(Factor(lines[k]), LineCost(mode, lookup, lines[k], costs, depth)) +
      LinesCost(mode, lookup, lines, k + 1, costs, depth)
  }

  /** One unit of a line: an assembly's tree, or a part's own cost. */
  function LineCost(mode: Mode, lookup: Lookup, line: Line, costs: Costs, depth: nat): real
    decreases depth, 1, 0
  {
    if Descends(mode, lookup, line) then TreeCost(mode, lookup, line.itemId, costs, depth)
        else CostOf(costs, line.itemId)
  }

  function PathCost(path: Path, costs: Costs): real {
    if path == [] then 0.0 else CostOf(costs, path[|path| - 1].line.itemId)
  }

  /** Cost times the exact product of factors, over all paths. */
  function ExactValue(paths: seq<Path>, costs: Costs): real {
    if paths == [] then 0.0
    else
      var last := paths[|paths| - 1];
      ExactValue(paths[..|paths| - 1], costs) + Times(Exact(last), PathCost(last, costs))
  }

  lemma {:induction false} ExactValueConcat(a: seq<Path>, b: seq<Path>, costs: Costs)
    ensures ExactValue(a + b, costs) == ExactValue(a, costs) + ExactValue(b, costs)
  {
    hide Exact, Times, PathCost;
    if b == [] {
      assert a + b == a;
    } else {
      ExactValueConcat(a, b[..|b| - 1], costs);
      assert (a + b)[..|a + b| - 1] == a + b[..|b| - 1];
    }
  }

  lemma TimesTwice(x: real, y: real, z: real)
    ensures Times(Times(x, y), z) == Times(x, Times(y, z))
    ensures Times(x, y + z) == Times(x, y) + Times(x, z) && Times(x, 0.0) == 0.0
  {
  }

  lemma ExactStep(prefix: Path, step: Step)
    ensures Exact(prefix + [step]) == Times(Exact(prefix), Factor(step.line))
  {
    hide Exact, Factor;
    ExactLast(prefix, step);
  }

  /** The leaf paths below an item carry the exact cost of its tree, whatever depth from 25 on is allowed. */
  lemma {:induction false} WalkCost(
    mode: Mode, lookup: Lookup, item: Item, ancestors: seq<Item>, prefix: Path, costs: Costs, depth: nat)
    requires |ancestors| <= MAX_EXPLOSION_DEPTH <= |ancestors| + depth
    requires WalkPaths(mode, lookup, item, ancestors, prefix).Success?
    ensures ExactValue(WalkPaths(mode, lookup, item, ancestors, prefix).value, costs) ==
            Times(Exact(prefix), TreeCost(mode, lookup, item, costs, depth))
    decreases MAX_EXPLOSION_DEPTH - |ancestors|, 0, 0
  {
    TimesTwice(Exact(prefix), 0.0, 0.0);
    hide Exact, Times, PathCost;
    if Expandable(lookup, item) {
      LinesCosts(mode, lookup, lookup[item], 0, ancestors + [item], prefix, costs, depth - 1);
    }
  }

  lemma {:induction false} LinesCosts(
    mode: Mode, lookup: Lookup, bom: Bom, k: nat, ancestors: seq<Item>, prefix: Path, costs: Costs, depth: nat)
    requires k <= |bom.lines| && |ancestors| <= MAX_EXPLOSION_DEPTH <= |ancestors| + depth
    requires LinePaths(mode, lookup, bom, k, ancestors, prefix).Success?
    ensures ExactValue(LinePaths(mode, lookup, bom, k, ancestors, prefix).value, costs) ==
            Times(Exact(prefix), LinesCost(mode, lookup, bom.lines, k, costs, depth))
    decreases MAX_EXPLOSION_DEPTH - |ancestors|, 1, |bom.lines| - k + 1
  {
    TimesTwice(Exact(prefix), 0.0, 0.0);
    hide Exact, Times, PathCost, Factor;
    if k < |bom.lines| {
      var step := Step(bom.revisionNumber, bom.lines[k]);
      LineCosts(mode, lookup, step, ancestors, prefix, costs, depth);
      LinesCosts(mode, lookup, bom, k + 1, ancestors, prefix, costs, depth);
      ExactValueConcat(LinePath(mode, lookup, step, ancestors, prefix).value,
                       LinePaths(mode, lookup, bom, k + 1, ancestors, prefix).value, costs);
      TimesTwice(Exact(prefix), Times(Factor(bom.lines[k]), LineCost(mode, lookup, bom.lines[k], costs, depth)),
                 LinesCost(mode, lookup, bom.lines, k + 1, costs, depth));
      hide LinePath, ExactValue, LineCost;
    }
  }

  lemma {:induction false} LineCosts(
    mode: Mode, lookup: Lookup, step: Step, ancestors: seq<Item>, prefix: Path, costs: Costs, depth: nat)
    requires |ancestors| <= MAX_EXPLOSION_DEPTH <= |ancestors| + depth
    requires LinePath(mode, lookup, step, ancestors, prefix).Success?
    ensures ExactValue(LinePath(mode, lookup, step, ancestors, prefix).value, costs) ==
            Times(Exact(prefix), Times(Factor(step.line), LineCost(mode, lookup, step.line, costs, depth)))
    decreases MAX_EXPLOSION_DEPTH - |ancestors|, 1, 0
  {
    ExactStep(prefix, step);
    TimesTwice(Exact(prefix), Factor(step.line), LineCost(mode, lookup, step.line, costs, depth));
    hide Exact, Times, Factor;
    if Descends(mode, lookup, step.line) {
      WalkCost(mode, lookup, step.line.itemId, ancestors, prefix + [step], costs, depth);
    } else {
      var here := prefix + [step];
      assert [here][..0] == [] && ExactValue([], costs) == 0.0;
      assert PathCost(here, costs) == CostOf(costs, step.line.itemId);
    }
  }

  // ---------------------------------------------------------------- against the rounded quantities

  /** Each path's quantity error, at its leaf's cost. */
  function ValueError(paths: seq<Path>, costs: Costs): real {
    if paths == [] then 0.0
    else
      var last := paths[|paths| - 1];
      ValueError(paths[..|paths| - 1], costs) + Times(0.00005 * RemainingFactors(last), PathCost(last, costs))
  }

  lemma CloseTimes(g: real, x: real, r: real, cost: real)
    requires Close(g, x, r) && cost >= 0.0
    ensures -Times(0.00005 * r, cost) <= Times(g, cost) - Times(x, cost) <= Times(0.00005 * r, cost)
  {
    ProductMonotone(g - x, 0.00005 * r, cost);
    ProductMonotone(-(0.00005 * r), g - x, cost);
  }

  ghost predicate LeavesMatch(leaves: seq<Leaf>, paths: seq<Path>) {
    |leaves| == |paths| && forall i :: 0 <= i < |leaves| ==>
      && paths[i] != [] && leaves[i].itemId == paths[i][|paths[i]| - 1].line.itemId
      && Close(leaves[i].quantityPerTopUnit, Exact(paths[i]), RemainingFactors(paths[i]))
  }

  lemma {:induction false} ValueNearExact(leaves: seq<Leaf>, paths: seq<Path>, costs: Costs)
    requires LeavesMatch(leaves, paths) && Costed(leaves, costs)
    requires forall item :: item in costs ==> costs[item] >= 0.0
    ensures Near(Value(leaves, costs), ExactValue(paths, costs), ValueError(paths, costs))
  {
    hide Times, Exact, RemainingFactors, Close;
    if leaves != [] {
      var n := |leaves| - 1;
      ValueNearExact(leaves[..n], paths[..n], costs);
      CloseTimes(leaves[n].quantityPerTopUnit, Exact(paths[n]), RemainingFactors(paths[n]), costs[leaves[n].itemId]);
    }
  }

  /** The paths that `LeafQuantities` compares are those of the walk. */
  lemma WalkMatchesLeaves(mode: Mode, lookup: Lookup, top: Item)
    requires Explode(mode, lookup, top).Success?
    requires forall item, k :: item in lookup && 0 <= k < |lookup[item].lines| ==>
               lookup[item].lines[k].quantityPerUnit >= 0.0 && lookup[item].lines[k].wastagePercent >= 0.0
    ensures LeavesMatch(Explode(mode, lookup, top).value, WalkPaths(mode, lookup, top, [], []).value)
  {
    var paths, leaves := WalkPaths(mode, lookup, top, [], []).value, Explode(mode, lookup, top).value;
    WalkPathsExtend(mode, lookup, top, [], []);
    hide Close, Exact, RemainingFactors, Gross, Base;
    forall i | 0 <= i < |paths|
      ensures paths[i] != [] && leaves[i] == LeafOf(TopRevision(lookup, top), paths[i])
      ensures Close(Gross(paths[i]), Exact(paths[i]), RemainingFactors(paths[i]))
    {
      LeavesOfAt(TopRevision(lookup, top), paths, i);
      assert [] + paths[i] == paths[i] && Found(paths, paths[i]);
      WalkFindsLeafPaths(mode, lookup, top, [], [], paths[i]);
      LeafPathNonNegative(mode, lookup, top, paths[i]);
      GrossErrorBound(paths[i]);
    }
    hide WalkPaths;
  }

  /**
   The rolled-up cost of an explosion is the exact cost of the top item's tree, to within half a
   cent plus, for each leaf, the rounding of its quantity at its cost. Any depth from 25 on will do.
   */
  lemma RollUpNearExact(mode: Mode, lookup: Lookup, top: Item, costs: Costs, depth: nat)
    requires Explode(mode, lookup, top).Success? && Costed(Explode(mode, lookup, top).value, costs)
    requires forall item, k :: item in lookup && 0 <= k < |lookup[item].lines| ==>
               lookup[item].lines[k].quantityPerUnit >= 0.0 && lookup[item].lines[k].wastagePercent >= 0.0
    requires forall item :: item in costs ==> costs[item] >= 0.0
    requires depth >= MAX_EXPLOSION_DEPTH
    ensures RollUp(Explode(mode, lookup, top).value, costs).Success?
    ensures Near(RollUp(Explode(mode, lookup, top).value, costs).value, TreeCost(mode, lookup, top, costs, depth),
                 0.005 + ValueError(WalkPaths(mode, lookup, top, [], []).value, costs))
  {
    var leaves, paths := Explode(mode, lookup, top).value, WalkPaths(mode, lookup, top, [], []).value;
    WalkMatchesLeaves(mode, lookup, top);
    WalkCost(mode, lookup, top, [], [], costs, depth);
    OneTimes(TreeCost(mode, lookup, top, costs, depth));
    hide Explode, LeavesMatch, Round2, Value, RollUp, ValueError, ExactValue, TreeCost, Times, WalkPaths;
    ValueNearExact(leaves, paths, costs);
    FormsAgree(leaves, costs);
    Round2Nearest(Value(leaves, costs));
  }

  lemma OneTimes(x: real)
    ensures Times(Exact([]), x) == x
  {
  }
}
