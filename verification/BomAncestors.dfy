/**
 What releasing a BOM does to the explosions of the items above it, which the release gate does
 not explode.
 */
module BomAncestors {
  import opened Wrappers
  import opened BomExplosion
  import opened BomExplosionLaws
  import opened BomRelease
  import opened BomReleaseLaws

  ghost predicate Explodable(mode: Mode, index: Lookup) {
    forall item :: Explode(mode, index, item).Success?
  }

  ghost predicate Above(mode: Mode, index: Lookup, up: seq<Item>, item: Item) {
    Chain(mode, index, up) && up[|up| - 1] == item
  }

  ghost predicate Below(mode: Mode, index: Lookup, item: Item, down: seq<Item>) {
    Chain(mode, index, down) && down[0] == item
  }

  /** No chain down to the item and on below it has more than 25 items. */
  ghost predicate Shallow(mode: Mode, index: Lookup, item: Item) {
    forall up, down :: Above(mode, index, up, item) && Below(mode, index, item, down) ==>
      |up| + |down| - 1 <= MAX_EXPLOSION_DEPTH
  }

  lemma ChainsAreAcyclic(mode: Mode, index: Lookup, p: seq<Item>)
    requires Acyclic(index) && Chain(mode, index, p)
    ensures Distinct(p)
  {
    if i, j :| 0 <= i < j < |p| && p[i] == p[j] {
      var c := p[i..j + 1];
      forall k | 0 <= k < |c| - 1
        ensures ChildOf(index, c[k], c[k + 1])
      {
        assert Link(mode, index, p[i + k], p[i + k + 1]);
      }
      assert Cycle(index, c);
    }
  }

  /** A chain that avoids the item whose BOM changes was there before. */
  lemma ChainElsewhereIsOld(mode: Mode, index: Lookup, top: Item, bom: Bom, p: seq<Item>)
    requires Chain(mode, index[top := bom], p) && top !in p
    ensures Chain(mode, index, p)
  {
    forall i | 0 <= i < |p| - 1
      ensures Link(mode, index, p[i], p[i + 1])
    {
      assert Link(mode, index[top := bom], p[i], p[i + 1]);
    }
  }

  lemma ChainParts(mode: Mode, index: Lookup, p: seq<Item>, j: nat)
    requires Chain(mode, index, p) && j < |p|
    ensures Above(mode, index, p[..j + 1], p[j]) && Below(mode, index, p[j], p[j..])
  {
  }

  lemma ChainJoined(mode: Mode, index: Lookup, up: seq<Item>, item: Item, down: seq<Item>)
    requires Above(mode, index, up, item) && Below(mode, index, item, down)
    ensures Chain(mode, index, up + down[1..]) && (up + down[1..])[0] == up[0]
  {
  }

  /**
   After a BOM that passed the gate is released every explosion succeeds, of items above it too,
   exactly when no chain through the released item is longer than 25.
   */
  lemma ReleaseKeepsExplodableIff(mode: Mode, index: Lookup, top: Item, bom: Bom)
    requires Acyclic(index) && Explodable(mode, index) && Explode(General, index[top := bom], top).Success?
    ensures Explodable(mode, index[top := bom]) <==> Shallow(mode, index[top := bom], top)
  {
    var next := index[top := bom];
    GateKeepsAcyclic(index, top, bom);
    hide Explode;
    if Explodable(mode, next) {
      forall up, down | Above(mode, next, up, top) && Below(mode, next, top, down)
        ensures |up| + |down| - 1 <= MAX_EXPLOSION_DEPTH
      {
        ChainJoined(mode, next, up, top, down);
        ExplosionSucceedsIff(mode, next, up[0]);
        assert WithinLimits(up + down[1..]);
      }
    }
    if Shallow(mode, next, top) {
      forall item
        ensures Explode(mode, next, item).Success?
      {
        forall p | Chain(mode, next, p) && p[0] == item
          ensures WithinLimits(p)
        {
          ChainsAreAcyclic(mode, next, p);
          if top in p {
            var j: nat :| j < |p| && p[j] == top;
            ChainParts(mode, next, p, j);
            assert |p[..j + 1]| + |p[j..]| - 1 <= MAX_EXPLOSION_DEPTH;
          } else {
            ChainElsewhereIsOld(mode, index, top, bom, p);
            ExplosionSucceedsIff(mode, index, item);
          }
        }
        ExplosionSucceedsIff(mode, next, item);
      }
    }
  }

  // ---------------------------------------------------------------- runs

  /** The call releases nothing, or nothing through which a chain becomes too long. */
  ghost predicate KeepsShallow(mode: Mode, s: Store, op: Op)
    requires UniqueReleased(s.boms)
  {
    op.ApproveOp? && Approve(s, op.id, op.user).Success? ==>
      Shallow(mode, GateIndex(s.boms, op.id), s.boms[op.id].itemId)
  }

  /** Only an approval changes the released index. */
  lemma OthersKeepIndex(s: Store, op: Op)
    requires Inv(s) && Apply(s, op).Success? && !op.ApproveOp?
    ensures UniqueReleased(Apply(s, op).value.boms)
    ensures ReleasedIndex(Apply(s, op).value.boms) == ReleasedIndex(s.boms)
  {
    hide ReleasedIndex, Acyclic, Explode;
    SameReleased(s.boms, Apply(s, op).value.boms);
  }

  lemma StepExplodableIff(mode: Mode, s: Store, op: Op)
    requires Inv(s) && Explodable(mode, ReleasedIndex(s.boms))
    ensures Inv(BomReleaseLaws.Step(s, op))
    ensures Explodable(mode, ReleasedIndex(BomReleaseLaws.Step(s, op).boms)) <==> KeepsShallow(mode, s, op)
  {
    StepKeepsInv(s, op);
    hide ReleasedIndex, Acyclic, Explode, Explodable, Shallow, UniqueReleased;
    if Apply(s, op).Success? {
      if op.ApproveOp? {
        ReleaseTakesGateIndex(s.boms, op.id, op.user);
        ReleaseKeepsExplodableIff(mode, ReleasedIndex(s.boms), s.boms[op.id].itemId, BomOf(s.boms[op.id]));
      } else {
        OthersKeepIndex(s, op);
      }
    }
  }

  ghost predicate AlwaysExplodable(mode: Mode, s: Store, ops: seq<Op>)
    requires Inv(s)
    decreases |ops|
  {
    && Explodable(mode, ReleasedIndex(s.boms))
    && if ops == [] then true
       else
         StepKeepsInv(s, ops[0]);
         AlwaysExplodable(mode, BomReleaseLaws.Step(s, ops[0]), ops[1..])
  }

  ghost predicate AlwaysShallow(mode: Mode, s: Store, ops: seq<Op>)
    requires Inv(s)
    decreases |ops|
  {
    if ops == [] then true
    else
      StepKeepsInv(s, ops[0]);
      KeepsShallow(mode, s, ops[0]) && AlwaysShallow(mode, BomReleaseLaws.Step(s, ops[0]), ops[1..])
  }

  lemma {:induction false} RunExplodableIff(mode: Mode, s: Store, ops: seq<Op>)
    requires Inv(s) && Explodable(mode, ReleasedIndex(s.boms))
    ensures AlwaysExplodable(mode, s, ops) <==> AlwaysShallow(mode, s, ops)
    decreases |ops|
  {
    hide Explodable, KeepsShallow, BomReleaseLaws.Step, ReleasedIndex;
    if ops != [] {
      StepExplodableIff(mode, s, ops[0]);
      if Explodable(mode, ReleasedIndex(BomReleaseLaws.Step(s, ops[0]).boms)) {
        RunExplodableIff(mode, BomReleaseLaws.Step(s, ops[0]), ops[1..]);
      }
    }
  }

  lemma NothingToExplode(mode: Mode)
    ensures Explodable(mode, ReleasedIndex([]))
  {
    forall item
      ensures Explode(mode, ReleasedIndex([]), item).Success?
    {
      forall p | Chain(mode, ReleasedIndex([]), p) && p[0] == item
        ensures WithinLimits(p)
      {
        FirstLink(mode, ReleasedIndex([]), p);
      }
      ExplosionSucceedsIff(mode, ReleasedIndex([]), item);
    }
  }

  /**
   Throughout a run every released BOM can be exploded exactly when no approval in it makes a
   chain through the approved item longer than 25.
   */
  lemma EveryRunExplodableIff(mode: Mode, items: map<Item, bool>, ops: seq<Op>)
    ensures Inv(Store(items, [], []))
    ensures AlwaysExplodable(mode, Store(items, [], []), ops) <==> AlwaysShallow(mode, Store(items, [], []), ops)
  {
    EmptyStoreOk(items);
    NothingToExplode(mode);
    hide Inv, Explodable;
    RunExplodableIff(mode, Store(items, [], []), ops);
  }

  // ---------------------------------------------------------------- a run that makes an ancestor unexplodable

  /** The k-th part from the bottom. */
  function Part(k: nat): Item {
    seq(k, _ => 'p')
  }

  lemma PartsDiffer(j: nat, k: nat)
    ensures Part(j) == Part(k) <==> j == k
  {
    assert |Part(j)| == j && |Part(k)| == k;
  }

  function MadeFrom(k: nat): seq<LineInput> {
    [LineInput(Part(k), 1.0, "pc", None, Some(Buy))]
  }

  /** Entered and submitted by one user and approved by another: a BOM for the part above the k-th. */
  function Level(k: nat, id: nat): seq<Op> {
    [CreateOp(Part(k + 1), MadeFrom(k), "ann"), SubmitOp(id, "ann"), ApproveOp(id, "bob")]
  }

  /** BOMs for the n uppermost parts of `height`, from the top down. */
  function Levels(height: nat, n: nat): seq<Op>
    requires n <= height
  {
    if n == 0 then [] else Levels(height, n - 1) + Level(height - n, n - 1)
  }

  ghost predicate IsLevel(row: BomRow, k: nat) {
    row.itemId == Part(k + 1) && row.lines == LinesOf(MadeFrom(k)) && row.createdBy == "ann"
  }

  /** The n uppermost parts have released BOMs, each made from the next part down. */
  ghost predicate Built(s: Store, height: nat, n: nat) {
    && n <= height && |s.boms| == n
    && forall i :: 0 <= i < n ==> IsLevel(s.boms[i], height - 1 - i) && s.boms[i].status.Released?
  }

  ghost predicate Usable(items: map<Item, bool>, height: nat) {
    forall k: nat :: k <= height ==> Part(k) in items && items[Part(k)]
  }

  /** A part whose only line is bought and not made of anything explodes. */
  lemma OneLevelExplodes(mode: Mode, index: Lookup, item: Item, line: Line)
    requires item in index && index[item].lines == [line]
    requires line.makeBuy == Some(Buy) && !Expandable(index, line.itemId)
    ensures Explode(mode, index, item).Success?
  {
    assert !Descends(mode, index, line);
    forall p | Chain(mode, index, p) && p[0] == item
      ensures WithinLimits(p)
    {
      FirstLink(mode, index, p);
    }
    ExplosionSucceedsIff(mode, index, item);
  }

  lemma FirstLink(mode: Mode, index: Lookup, p: seq<Item>)
    requires Chain(mode, index, p)
    ensures |p| > 1 ==> Link(mode, index, p[0], p[1])
  {
  }

  lemma LevelEntered(s: Store, height: nat, n: nat)
    requires Built(s, height, n) && n < height && Usable(s.items, height)
    ensures var k := height - 1 - n;
      var r := Create(s, Part(k + 1), MadeFrom(k), "ann");
      && r.Success? && r.value.items == s.items
      && |r.value.boms| == n + 1 && r.value.boms[..n] == s.boms
      && IsLevel(r.value.boms[n], k) && r.value.boms[n].status.Draft?
  {
    var k := height - 1 - n;
    PartsDiffer(k, k + 1);
    hide LatestRevision, Part;
  }

  /** The new BOM's only line is a part without a BOM, so the gate lets it pass. */
  lemma LevelPassesGate(mode: Mode, s: Store, height: nat, n: nat)
    requires n < height && |s.boms| == n + 1 && UniqueReleased(s.boms)
    requires forall i :: 0 <= i < n ==> IsLevel(s.boms[i], height - 1 - i) && s.boms[i].status.Released?
    requires IsLevel(s.boms[n], height - 1 - n) && s.boms[n].status.PendingApproval?
    ensures Explode(mode, GateIndex(s.boms, n), s.boms[n].itemId).Success?
  {
    var k := height - 1 - n;
    var index := GateIndex(s.boms, n);
    ReleasedIndexEntry(s.boms);
    PartsDiffer(k, k + 1);
    hide ReleasedIndex, Explode;
    forall i: nat
      ensures !ReleasedFor(s.boms, i, Part(k))
    {
      if i < n {
        PartsDiffer(height - i, k);
      }
    }
    hide Part;
    assert s.boms[n].lines == [LineOf(MadeFrom(k)[0])];
    OneLevelExplodes(mode, index, Part(k + 1), LineOf(MadeFrom(k)[0]));
  }

  lemma NothingSuperseded(boms: seq<BomRow>, height: nat, n: nat, user: User)
    requires n < height && |boms| == n + 1
    requires forall i :: 0 <= i <= n ==> IsLevel(boms[i], height - 1 - i)
    ensures ReleaseRows(boms, n, user) == boms[n := boms[n].(status := Released, approvedBy := Some(user))]
  {
    forall i | 0 <= i < n
      ensures !SupersededBy(boms, n, i)
    {
      PartsDiffer(height - i, height - n);
    }
    hide Part;
  }

  lemma LevelApproved(s: Store, height: nat, n: nat)
    requires n < height && |s.boms| == n + 1 && UniqueReleased(s.boms)
    requires forall i :: 0 <= i < n ==> IsLevel(s.boms[i], height - 1 - i) && s.boms[i].status.Released?
    requires IsLevel(s.boms[n], height - 1 - n) && s.boms[n].status.PendingApproval?
    ensures Approve(s, n, "bob").Success?
    ensures Built(Approve(s, n, "bob").value, height, n + 1) && Approve(s, n, "bob").value.items == s.items
  {
    LevelPassesGate(General, s, height, n);
    LevelPassesGate(Procurement, s, height, n);
    NothingSuperseded(s.boms, height, n, "bob");
    hide Explode, GateIndex, ReleaseRows, Part, UniqueReleased, SupersededIds;
  }

  /** The store after the three calls that release the next level. */
  lemma LevelReleased(s: Store, height: nat, n: nat)
    requires Inv(s) && Built(s, height, n) && n < height && Usable(s.items, height)
    ensures Built(Run(s, Level(height - 1 - n, n)), height, n + 1)
    ensures Run(s, Level(height - 1 - n, n)).items == s.items
  {
    var k := height - 1 - n;
    var ops := Level(k, n);
    LevelEntered(s, height, n);
    var entered := Create(s, Part(k + 1), MadeFrom(k), "ann").value;
    StepKeepsInv(s, ops[0]);
    assert BomReleaseLaws.Step(s, ops[0]) == entered;
    var submitted := Submit(entered, n, "ann").value;
    StepKeepsInv(entered, ops[1]);
    assert BomReleaseLaws.Step(entered, ops[1]) == submitted;
    LevelApproved(submitted, height, n);
    StepKeepsInv(submitted, ops[2]);
    RunThree(s, ops[0], ops[1], ops[2]);
  }

  lemma RunThree(s: Store, a: Op, b: Op, c: Op)
    requires Inv(s) && Inv(BomReleaseLaws.Step(s, a))
    requires Inv(BomReleaseLaws.Step(BomReleaseLaws.Step(s, a), b))
    ensures Run(s, [a, b, c]) == BomReleaseLaws.Step(BomReleaseLaws.Step(BomReleaseLaws.Step(s, a), b), c)
  {
    hide BomReleaseLaws.Step, RowOk, UniqueRevisions, UniqueReleased, Acyclic, ReleasedIndex;
    assert [a, b, c][1..] == [b, c] && [b, c][1..] == [c] && [c][1..] == [];
    var t := BomReleaseLaws.Step(s, a);
    var u := BomReleaseLaws.Step(t, b);
    StepKeepsInv(u, c);
    assert Run(u, [c]) == Run(BomReleaseLaws.Step(u, c), []);
    assert Run(t, [b, c]) == Run(u, [c]);
  }

  lemma {:induction false} RunConcat(s: Store, a: seq<Op>, b: seq<Op>)
    requires Inv(s)
    ensures Run(s, a + b) == Run(Run(s, a), b)
    decreases |a|
  {
    if a == [] {
      assert a + b == b;
    } else {
      assert (a + b)[0] == a[0] && (a + b)[1..] == a[1..] + b;
      StepKeepsInv(s, a[0]);
      hide BomReleaseLaws.Step, Inv;
      RunConcat(BomReleaseLaws.Step(s, a[0]), a[1..], b);
    }
  }

  lemma {:induction false} LevelsReleased(items: map<Item, bool>, height: nat, n: nat)
    requires n <= height && Usable(items, height)
    ensures Inv(Store(items, [], []))
    ensures var s := Run(Store(items, [], []), Levels(height, n));
      Built(s, height, n) && s.items == items
  {
    EmptyStoreOk(items);
    hide Inv;
    if n > 0 {
      var s := Run(Store(items, [], []), Levels(height, n - 1));
      LevelsReleased(items, height, n - 1);
      RunConcat(Store(items, [], []), Levels(height, n - 1), Level(height - n, n - 1));
      hide Run, Level, Usable, Built;
      LevelReleased(s, height, n - 1);
    }
  }

  /** The parts from the top down, each made from the next. */
  function Tower(height: nat, n: nat): seq<Item>
    requires n <= height
  {
    seq(n, i requires 0 <= i < n => Part(height - i))
  }

  lemma TowerStands(s: Store, height: nat, n: nat)
    requires Built(s, height, n) && n > 0 && UniqueReleased(s.boms)
    ensures AssemblyPath(ReleasedIndex(s.boms), Tower(height, n)) && Tower(height, n)[0] == Part(height)
  {
    ReleasedIndexEntry(s.boms);
    hide ReleasedIndex;
    var index, p := ReleasedIndex(s.boms), Tower(height, n);
    forall i | 0 <= i < n
      ensures Expandable(index, p[i]) && (i < n - 1 ==> ChildOf(index, p[i], p[i + 1]))
    {
      assert IsLevel(s.boms[i], height - 1 - i);
      assert index[p[i]].lines[0].itemId == Part(height - 1 - i);
    }
  }

  lemma OnlyLevels(s: Store, height: nat, n: nat, item: Item) returns (i: nat)
    requires Built(s, height, n) && UniqueReleased(s.boms) && item in ReleasedIndex(s.boms)
    ensures i < n && item == Part(height - i)
  {
    ReleasedIndexEntry(s.boms);
    hide ReleasedIndex, Part;
    i :| ReleasedFor(s.boms, i, item);
    assert IsLevel(s.boms[i], height - 1 - i);
  }

  lemma OnlyChild(s: Store, height: nat, n: nat, i: nat, child: Item)
    requires Built(s, height, n) && UniqueReleased(s.boms) && i < n
    requires ChildOf(ReleasedIndex(s.boms), Part(height - i), child)
    ensures child == Part(height - 1 - i)
  {
    ReleasedIndexEntry(s.boms);
    assert IsLevel(s.boms[i], height - 1 - i);
    hide ReleasedIndex, Part;
  }

  /** The i-th item of a path from the top is the i-th part down. */
  lemma {:induction false} PathGoesDown(s: Store, height: nat, n: nat, p: seq<Item>, i: nat)
    requires Built(s, height, n) && UniqueReleased(s.boms)
    requires AssemblyPath(ReleasedIndex(s.boms), p) && p[0] == Part(height) && i < |p|
    ensures i < n && p[i] == Part(height - i)
  {
    PathStep(s, p, i);
    var j := OnlyLevels(s, height, n, p[i]);
    hide Built, ReleasedIndex, AssemblyPath, Part, ChildOf, UniqueReleased;
    if i == 0 {
      PartsDiffer(height - j, height);
    } else {
      PathGoesDown(s, height, n, p, i - 1);
      OnlyChild(s, height, n, i - 1, p[i]);
      PartsDiffer(height - j, height - i);
    }
  }

  lemma PathStep(s: Store, p: seq<Item>, i: nat)
    requires UniqueReleased(s.boms) && AssemblyPath(ReleasedIndex(s.boms), p) && i < |p|
    ensures p[i] in ReleasedIndex(s.boms) && (i > 0 ==> ChildOf(ReleasedIndex(s.boms), p[i - 1], p[i]))
  {
    hide ReleasedIndex, ChildOf;
    assert Expandable(ReleasedIndex(s.boms), p[i]);
    assert i > 0 ==> ChildOf(ReleasedIndex(s.boms), p[i - 1], p[i - 1 + 1]);
  }

  lemma TowerExplodesIff(s: Store, height: nat, n: nat)
    requires Inv(s) && Built(s, height, n) && n > 0
    ensures Explode(General, ReleasedIndex(s.boms), Part(height)).Success? <==> n <= MAX_EXPLOSION_DEPTH
  {
    var index := ReleasedIndex(s.boms);
    TowerStands(s, height, n);
    ExplodeBomSucceedsIff(index, Part(height));
    hide Explode, Part, Built, ReleasedIndex;
    forall p | AssemblyPath(index, p) && p[0] == Part(height)
      ensures |p| <= n && Distinct(p)
    {
      PathGoesDown(s, height, n, p, |p| - 1);
      AssemblyPathsAreChains(index, p);
      ChainsAreAcyclic(General, index, p);
    }
  }

  /**
   Released one by one from the top down, 25 levels of BOMs can be exploded from the top. The BOM of
   the 26th passes its gate and is released, and the top item cannot be exploded any more.
   */
  lemma AncestorUnexplodable(items: map<Item, bool>)
    requires Usable(items, 26)
    ensures Inv(Store(items, [], []))
    ensures var s := Run(Store(items, [], []), Levels(26, 25));
      var t := Run(s, Level(0, 25));
      && Explode(General, ReleasedIndex(s.boms), Part(26)).Success?
      && |t.boms| == 26 && t.boms[25].itemId == Part(1) && t.boms[25].status.Released?
      && Explode(General, ReleasedIndex(t.boms), Part(26)).Failure?
  {
    LevelsReleased(items, 26, 25);
    var s := Run(Store(items, [], []), Levels(26, 25));
    LevelReleased(s, 26, 25);
    hide Explode, Part, Level, Levels, Usable, ReleasedIndex;
    TowerExplodesIff(s, 26, 25);
    TowerExplodesIff(Run(s, Level(0, 25)), 26, 26);
  }
}
