/** The leaves of an explosion, identified by the positions of the lines that lead to them. */
module BomPositions {
  import opened Wrappers
  import opened BomExplosion
  import opened BomExplosionLaws

  /** The index of the line taken at each level, from the top item down. */
  type Position = seq<nat>

  /** The position leads from `item` down to a line the walk does not enter. */
  predicate LeafPosition(mode: Mode, lookup: Lookup, item: Item, at: Position)
    decreases |at|
  {
    && |at| > 0 && Expandable(lookup, item) && at[0] < |lookup[item].lines|
    && var line := lookup[item].lines[at[0]];
    if |at| == 1 then !Descends(mode, lookup, line)
    else Descends(mode, lookup, line) && LeafPosition(mode, lookup, line.itemId, at[1..])
  }

  /** The lines at the position, as far as it leads anywhere. */
  function PathAt(lookup: Lookup, item: Item, at: Position): Path
    decreases |at|
  {
    if at == [] || !Expandable(lookup, item) || at[0] >= |lookup[item].lines| then []
    else
      var line := lookup[item].lines[at[0]];
      [Step(lookup[item].revisionNumber, line)] + PathAt(lookup, line.itemId, at[1..])
  }

  /** The first different line decides. */
  predicate Precedes(a: Position, b: Position)
    decreases |a|
  {
    a != [] && b != [] && (a[0] < b[0] || (a[0] == b[0] && Precedes(a[1..], b[1..])))
  }

  ghost predicate Ordered(ps: seq<Position>) {
    forall i, j :: 0 <= i < j < |ps| ==> Precedes(ps[i], ps[j])
  }

  lemma {:induction false} NothingPrecedesItself(a: Position)
    ensures !Precedes(a, a)
    decreases |a|
  {
    if a != [] {
      NothingPrecedesItself(a[1..]);
    }
  }

  // ---------------------------------------------------------------- the positions of a walk

  /** The positions below `item`, in visiting order. */
  function Positions(mode: Mode, lookup: Lookup, item: Item, ancestors: seq<Item>): seq<Position>
    requires |ancestors| <= MAX_EXPLOSION_DEPTH
    decreases MAX_EXPLOSION_DEPTH - |ancestors|, 0, 0
  {
    if item in ancestors || |ancestors| >= MAX_EXPLOSION_DEPTH || !Expandable(lookup, item) then []
    else LinePositions(mode, lookup, lookup[item], 0, ancestors + [item])
  }

  function LinePositions(mode: Mode, lookup: Lookup, bom: Bom, k: nat, ancestors: seq<Item>): seq<Position>
    requires k <= |bom.lines| && |ancestors| <= MAX_EXPLOSION_DEPTH
    decreases MAX_EXPLOSION_DEPTH - |ancestors|, 1, |bom.lines| - k + 1
  {
    if k == |bom.lines| then []
    else Under(k, BelowLine(mode, lookup, bom.lines[k], ancestors)) + LinePositions(mode, lookup, bom, k + 1, ancestors)
  }

  function BelowLine(mode: Mode, lookup: Lookup, line: Line, ancestors: seq<Item>): seq<Position>
    requires |ancestors| <= MAX_EXPLOSION_DEPTH
    decreases MAX_EXPLOSION_DEPTH - |ancestors|, 1, 0
  {
    if Descends(mode, lookup, line) then Positions(mode, lookup, line.itemId, ancestors) else [[]]
  }

  /** The positions one level further down, below line k. */
  function Under(k: nat, ps: seq<Position>): seq<Position> {
    seq(|ps|, i requires 0 <= i < |ps| => [k] + ps[i])
  }

  // ---------------------------------------------------------------- they lead to the paths found

  ghost predicate LeadTo(lookup: Lookup, item: Item, ps: seq<Position>, prefix: Path, paths: seq<Path>) {
    |paths| == |ps| && forall i :: 0 <= i < |ps| ==> paths[i] == prefix + PathAt(lookup, item, ps[i])
  }

  lemma {:induction false} WalkLeadsTo(mode: Mode, lookup: Lookup, item: Item, ancestors: seq<Item>, prefix: Path)
    requires |ancestors| <= MAX_EXPLOSION_DEPTH
    requires WalkPaths(mode, lookup, item, ancestors, prefix).Success?
    ensures LeadTo(lookup, item, Positions(mode, lookup, item, ancestors), prefix,
                   WalkPaths(mode, lookup, item, ancestors, prefix).value)
    decreases MAX_EXPLOSION_DEPTH - |ancestors|, 0, 0
  {
    if Expandable(lookup, item) {
      LinesLeadTo(mode, lookup, item, 0, ancestors + [item], prefix);
    }
  }

  lemma {:induction false} LinesLeadTo(mode: Mode, lookup: Lookup, item: Item, k: nat, ancestors: seq<Item>,
      prefix: Path)
    requires Expandable(lookup, item) && k <= |lookup[item].lines| && |ancestors| <= MAX_EXPLOSION_DEPTH
    requires LinePaths(mode, lookup, lookup[item], k, ancestors, prefix).Success?
    ensures LeadTo(lookup, item, LinePositions(mode, lookup, lookup[item], k, ancestors), prefix,
                   LinePaths(mode, lookup, lookup[item], k, ancestors, prefix).value)
    decreases MAX_EXPLOSION_DEPTH - |ancestors|, 1, |lookup[item].lines| - k + 1
  {
    var bom := lookup[item];
    if k < |bom.lines| {
      LinesLeadTo(mode, lookup, item, k + 1, ancestors, prefix);
      LineLeadsTo(mode, lookup, item, k, ancestors, prefix);
      LeadToConcat(lookup, item, Under(k, BelowLine(mode, lookup, bom.lines[k], ancestors)),
                   LinePositions(mode, lookup, bom, k + 1, ancestors), prefix,
                   LinePath(mode, lookup, Step(bom.revisionNumber, bom.lines[k]), ancestors, prefix).value,
                   LinePaths(mode, lookup, bom, k + 1, ancestors, prefix).value);
    }
  }

  lemma LeadToConcat(lookup: Lookup, item: Item, ps: seq<Position>, qs: seq<Position>, prefix: Path, a: seq<Path>,
      b: seq<Path>)
    requires LeadTo(lookup, item, ps, prefix, a) && LeadTo(lookup, item, qs, prefix, b)
    ensures LeadTo(lookup, item, ps + qs, prefix, a + b)
  {
    hide PathAt;
  }

  lemma {:induction false} LineLeadsTo(mode: Mode, lookup: Lookup, item: Item, k: nat, ancestors: seq<Item>,
      prefix: Path)
    requires Expandable(lookup, item) && k < |lookup[item].lines| && |ancestors| <= MAX_EXPLOSION_DEPTH
    requires LinePath(mode, lookup, Step(lookup[item].revisionNumber, lookup[item].lines[k]), ancestors,
              prefix).Success?
    ensures LeadTo(lookup, item, Under(k, BelowLine(mode, lookup, lookup[item].lines[k], ancestors)), prefix,
                   LinePath(mode, lookup, Step(lookup[item].revisionNumber, lookup[item].lines[k]), ancestors,
                       prefix).value)
    decreases MAX_EXPLOSION_DEPTH - |ancestors|, 1, 0
  {
    var line := lookup[item].lines[k];
    var step := Step(lookup[item].revisionNumber, line);
    var below := BelowLine(mode, lookup, line, ancestors);
    forall at: Position
      ensures prefix + PathAt(lookup, item, [k] + at) == prefix + [step] + PathAt(lookup, line.itemId, at)
    {
      assert ([k] + at)[1..] == at;
    }
    if Descends(mode, lookup, line) {
      WalkLeadsTo(mode, lookup, line.itemId, ancestors, prefix + [step]);
      hide PathAt;
    } else {
      assert PathAt(lookup, line.itemId, []) == [];
      assert prefix + [step] + [] == prefix + [step];
    }
  }

  // ---------------------------------------------------------------- each leaf position once, in order

  lemma {:induction false} WalkPositions(mode: Mode, lookup: Lookup, item: Item, ancestors: seq<Item>, prefix: Path)
    requires |ancestors| <= MAX_EXPLOSION_DEPTH
    requires WalkPaths(mode, lookup, item, ancestors, prefix).Success?
    ensures Ordered(Positions(mode, lookup, item, ancestors))
    ensures forall at :: at in Positions(mode, lookup, item, ancestors) <==> LeafPosition(mode, lookup, item, at)
    decreases MAX_EXPLOSION_DEPTH - |ancestors|, 0, 0
  {
    if Expandable(lookup, item) {
      LinesPositions(mode, lookup, item, 0, ancestors + [item], prefix);
    }
  }

  lemma {:induction false} LinesPositions(mode: Mode, lookup: Lookup, item: Item, k: nat, ancestors: seq<Item>,
      prefix: Path)
    requires Expandable(lookup, item) && k <= |lookup[item].lines| && |ancestors| <= MAX_EXPLOSION_DEPTH
    requires LinePaths(mode, lookup, lookup[item], k, ancestors, prefix).Success?
    ensures Ordered(LinePositions(mode, lookup, lookup[item], k, ancestors))
    ensures forall at :: at in LinePositions(mode, lookup, lookup[item], k, ancestors) <==>
                         LeafPosition(mode, lookup, item, at) && at[0] >= k
    decreases MAX_EXPLOSION_DEPTH - |ancestors|, 1, |lookup[item].lines| - k + 1
  {
    var bom := lookup[item];
    if k < |bom.lines| {
      var line := bom.lines[k];
      var below, rest := BelowLine(mode, lookup, line, ancestors), LinePositions(mode, lookup, bom, k + 1, ancestors);
      LinesPositions(mode, lookup, item, k + 1, ancestors, prefix);
      if Descends(mode, lookup, line) {
        WalkPositions(mode, lookup, line.itemId, ancestors, prefix + [Step(bom.revisionNumber, line)]);
      }
      hide Positions, LinePositions;
      UnderIs(k, below);
      forall at
        ensures at in Under(k, below) <==> LeafPosition(mode, lookup, item, at) && at[0] == k
      {
        if at != [] {
          assert at[1..] == [] <==> |at| == 1;
          NoEmptyLeaf(mode, lookup, line.itemId);
        }
      }
      OrderedConcat(Under(k, below), rest);
    }
  }

  lemma NoEmptyLeaf(mode: Mode, lookup: Lookup, item: Item)
    ensures !LeafPosition(mode, lookup, item, [])
  {
  }

  lemma UnderIs(k: nat, ps: seq<Position>)
    requires Ordered(ps)
    ensures Ordered(Under(k, ps))
    ensures forall at :: at in Under(k, ps) <==> at != [] && at[0] == k && at[1..] in ps
  {
    var under := Under(k, ps);
    forall i, j | 0 <= i < j < |ps|
      ensures Precedes(under[i], under[j])
    {
      assert under[i][1..] == ps[i] && under[j][1..] == ps[j];
    }
    forall at
      ensures at in under <==> at != [] && at[0] == k && at[1..] in ps
    {
      if at in under {
        var i :| 0 <= i < |ps| && under[i] == at;
        assert at[1..] == ps[i];
      }
      if at != [] && at[0] == k && at[1..] in ps {
        var i :| 0 <= i < |ps| && ps[i] == at[1..];
        assert under[i] == at;
      }
    }
  }

  lemma OrderedConcat(a: seq<Position>, b: seq<Position>)
    requires Ordered(a) && Ordered(b) && forall p, q :: p in a && q in b ==> Precedes(p, q)
    ensures Ordered(a + b)
  {
    hide Precedes;
    forall i, j | 0 <= i < j < |a + b|
      ensures Precedes((a + b)[i], (a + b)[j])
    {
      if i < |a| <= j {
        assert a[i] in a && b[j - |a|] in b;
      }
    }
  }

  /**
   An explosion has exactly one leaf for each position that leads from the top down to a line
   that is not walked into, in lexicographic order of positions.
   */
  lemma LeavesInOrder(mode: Mode, lookup: Lookup, top: Item)
    requires Explode(mode, lookup, top).Success?
    ensures var leaves, ps := Explode(mode, lookup, top).value, Positions(mode, lookup, top, []);
      && Ordered(ps) && Distinct(ps)
      && (forall at :: at in ps <==> LeafPosition(mode, lookup, top, at))
      && |leaves| == |ps|
      && forall i :: 0 <= i < |ps| ==>
           PathAt(lookup, top, ps[i]) != [] && leaves[i] == LeafOf(TopRevision(lookup, top), PathAt(lookup, top, ps[i]))
  {
    var ps, paths := Positions(mode, lookup, top, []), WalkPaths(mode, lookup, top, [], []).value;
    WalkLeadsTo(mode, lookup, top, [], []);
    WalkPositions(mode, lookup, top, [], []);
    WalkPathsExtend(mode, lookup, top, [], []);
    hide WalkPaths, Positions, LeafOf, PathAt, LeafPosition, Precedes;
    forall i, j | 0 <= i < j < |ps|
      ensures ps[i] != ps[j]
    {
      NothingPrecedesItself(ps[i]);
    }
    forall i | 0 <= i < |ps|
      ensures paths[i] == PathAt(lookup, top, ps[i]) && paths[i] != []
      ensures LeavesOf(TopRevision(lookup, top), paths)[i] == LeafOf(TopRevision(lookup, top), paths[i])
    {
      assert [] + PathAt(lookup, top, ps[i]) == PathAt(lookup, top, ps[i]);
      LeavesOfAt(TopRevision(lookup, top), paths, i);
    }
  }

  lemma {:induction false} TrailIs(path: Path)
    ensures |Trail(path)| == |path| && forall i :: 0 <= i < |path| ==> Trail(path)[i] == path[i].revision
  {
    if path != [] {
      TrailIs(path[..|path| - 1]);
    }
  }

  /** A leaf is the last line's part in the last line's unit, with the revisions read on the way down to it. */
  lemma LeafIs(topRevision: int, path: Path)
    requires path != []
    ensures var leaf := LeafOf(topRevision, path);
      && leaf.itemId == path[|path| - 1].line.itemId && leaf.unitOfMeasure == path[|path| - 1].line.unitOfMeasure
      && |leaf.sourceTrail| == |path| + 1 && leaf.sourceTrail[0] == topRevision
      && forall i :: 0 <= i < |path| ==> leaf.sourceTrail[i + 1] == path[i].revision
  {
    TrailIs(path);
    hide Gross, Base, Trail;
  }

  /** Which lines are walked into: parts with a BOM of some lines; for procurement what is made, if the line says. */
  lemma WalkedInto(mode: Mode, lookup: Lookup, line: Line)
    ensures Descends(mode, lookup, line) <==>
            || (mode.Procurement? && line.makeBuy == Some(Make))
            || ((mode.General? || line.makeBuy.None?) && line.itemId in lookup && lookup[line.itemId].lines != [])
  {
  }
}
