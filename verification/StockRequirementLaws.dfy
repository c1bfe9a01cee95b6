/** What the stock report's requirements are worth against the exploded quantities. */
module StockRequirementLaws {
  import opened Wrappers
  import opened Decimals
  import opened BomExplosion
  import opened BomExplosionLaws
  import opened StockRequirement

  /** An ordered product with the leaves its released BOM explodes to. */
  datatype Product = Product(orderedQuantity: real, leaves: seq<Leaf>)

  function SnapshotLines(leaves: seq<Leaf>): seq<SnapshotLine> {
    seq(|leaves|, i requires 0 <= i < |leaves| => Snapshot(leaves[i]))
  }

  /** The selections `generate` stores. */
  function Snapshots(products: seq<Product>): seq<Selection> {
    seq(|products|, i requires 0 <= i < |products| =>
      Selection(products[i].orderedQuantity, SnapshotLines(products[i].leaves)))
  }

  /** What the leaves of one product with this item really need. */
  function LeavesNeed(leaves: seq<Leaf>, q: real, item: Item): real {
    if leaves == [] then 0.0
    else
      var last := leaves[|leaves| - 1];
      LeavesNeed(leaves[..|leaves| - 1], q, item)
          + if last.itemId == item then Times(last.quantityPerTopUnit, q) else 0.0
  }

  /** What the whole order really needs of the item. */
  function OrderNeeds(products: seq<Product>, item: Item): real {
    if products == [] then 0.0
    else
      var last := products[|products| - 1];
      OrderNeeds(products[..|products| - 1], item) + LeavesNeed(last.leaves, last.orderedQuantity, item)
  }

  /** The error one leaf can add; a leaf whose base quantity rounds to zero is lost whole. */
  function LeafError(leaf: Leaf, q: real): real {
    if leaf.basePerTopUnit > 0.0 then ErrorBound(leaf.basePerTopUnit, q, StoredWastage(leaf), 0.00505)
    else Times(leaf.quantityPerTopUnit, q)
  }

  function LeavesError(leaves: seq<Leaf>, q: real, item: Item): real {
    if leaves == [] then 0.0
    else
      var last := leaves[|leaves| - 1];
      LeavesError(leaves[..|leaves| - 1], q, item) + if last.itemId == item then LeafError(last, q) else 0.0
  }

  function OrderError(products: seq<Product>, item: Item): real {
    if products == [] then 0.0
    else
      var last := products[|products| - 1];
      OrderError(products[..|products| - 1], item) + LeavesError(last.leaves, last.orderedQuantity, item)
  }

  /** As every explosion of non-negative lines yields them. */
  predicate LeafOk(leaf: Leaf) {
    leaf.quantityPerTopUnit >= leaf.basePerTopUnit >= 0.0
  }

  lemma ExplodedLeavesOk(mode: Mode, lookup: Lookup, top: Item)
    requires Explode(mode, lookup, top).Success?
    requires forall item, k :: item in lookup && 0 <= k < |lookup[item].lines| ==>
               lookup[item].lines[k].quantityPerUnit >= 0.0 && lookup[item].lines[k].wastagePercent >= 0.0
    ensures forall leaf :: leaf in Explode(mode, lookup, top).value ==> LeafOk(leaf)
  {
    var paths := LeafQuantities(mode, lookup, top);
    hide Explode, NonNegative, LeafOf, Gross, Base, Close;
  }

  // ---------------------------------------------------------------- a base quantity of zero

  /** A leaf whose base rounds to zero is required in no quantity at all. */
  lemma ZeroBaseIsLost(leaf: Leaf, q: real)
    requires leaf.basePerTopUnit == 0.0
    ensures NeedOf(Snapshot(leaf), q).gross == 0.0
  {
  }

  lemma RoundedToNothing()
    ensures RoundedGross(1.0, 0.0070, 1.0) == 0.0070 && RoundedGross(0.0070, 0.0070, 1.05) == 0.0001
    ensures RoundedBase(1.0, 0.0070) == 0.0070 && RoundedBase(0.0070, 0.0070) == 0.0
  {
    assert Round4(0.0070) == 0.0070 && Round4(0.00005145) == 0.0001 && Round4(0.000049) == 0.0;
    hide Round4;
  }

  /** Such leaves exist: 0.0070 of 0.0070 is 0.000049, but with 5 % wastage it is 0.0001. */
  lemma SmallPartsAreLost(q: real)
    ensures var part := BomExplosion.Line("part", 0.0070, 0.0, "kg", Some(Make));
      var coat := BomExplosion.Line("coat", 0.0070, 5.0, "kg", Some(Buy));
      var leaf := LeafOf(1, [Step(1, part), Step(2, coat)]);
      && leaf.quantityPerTopUnit == 0.0001
      && leaf.basePerTopUnit == 0.0
      && NeedOf(Snapshot(leaf), q).gross == 0.0
  {
    hide Gross, Base, RoundedGross, RoundedBase, NeedOf, Snapshot;
    var part := BomExplosion.Line("part", 0.0070, 0.0, "kg", Some(Make));
    var coat := BomExplosion.Line("coat", 0.0070, 5.0, "kg", Some(Buy));
    assert WastageFactor(part) == 1.0 && WastageFactor(coat) == 1.05;
    RoundedToNothing();
    TwoLevels(Step(1, part), Step(2, coat));
    assert NextGross(1.0, part) == 0.0070;
    assert NextGross(0.0070, coat) == 0.0001;
    assert NextBase(1.0, part) == 0.0070;
    assert NextBase(0.0070, coat) == 0.0;
    ZeroBaseIsLost(LeafOf(1, [Step(1, part), Step(2, coat)]), q);
  }

  function Bolts(): Leaf {
    LeafOf(1, [Step(1, BomExplosion.Line("frame", 1000.0, 1.5, "pc", Some(Make))),
               Step(2, BomExplosion.Line("bolt", 1.0, 1.5, "pc", Some(Buy)))])
  }

  lemma RoundedProducts()
    ensures RoundedGross(1.0, 1000.0, 1.015) == 1015.0 && RoundedGross(1015.0, 1.0, 1.015) == 1030.225
    ensures RoundedBase(1.0, 1000.0) == 1000.0 && RoundedBase(1000.0, 1.0) == 1000.0
  {
    assert Round4(1015.0) == 1015.0 && Round4(1030.225) == 1030.225 && Round4(1000.0) == 1000.0;
    hide Round4;
  }

  lemma TwoLevels(a: Step, b: Step)
    ensures Gross([a, b]) == NextGross(NextGross(1.0, a.line), b.line)
    ensures Base([a, b]) == NextBase(NextBase(1.0, a.line), b.line)
  {
    hide NextGross, NextBase;
    assert [a, b] == [] + [a] + [b];
    FoldStep([], a);
    FoldStep([] + [a], b);
    assert Gross([]) == 1.0 && Base([]) == 1.0;
  }

  lemma BoltsExploded()
    ensures Bolts().basePerTopUnit == 1000.0 && Bolts().quantityPerTopUnit == 1030.225
  {
    hide Gross, Base, RoundedGross, RoundedBase;
    var frame := BomExplosion.Line("frame", 1000.0, 1.5, "pc", Some(Make));
    var bolt := BomExplosion.Line("bolt", 1.0, 1.5, "pc", Some(Buy));
    assert WastageFactor(frame) == 1.015 && WastageFactor(bolt) == 1.015;
    RoundedProducts();
    TwoLevels(Step(1, frame), Step(2, bolt));
    assert NextGross(1.0, frame) == 1015.0;
    assert NextGross(1015.0, bolt) == 1030.225;
    assert NextBase(1.0, frame) == 1000.0;
    assert NextBase(1000.0, bolt) == 1000.0;
    assert Bolts() == LeafOf(1, [Step(1, frame), Step(2, bolt)]);
  }

  lemma BoltsStored()
    ensures StoredWastage(Bolts()) == 3.02
  {
    BoltsExploded();
    hide Bolts;
    assert ExcessPercent(1000.0, 1030.225) == 3.0225;
    assert Round4(3.0225) == 3.0225;
    assert Round2(3.0225) == 3.02;
  }

  lemma BoltsRequired()
    ensures NeedOf(SnapshotLine("bolt", 1000.0, 3.02), 10000.0).gross == 10302000.0
  {
  }

  /**
   Stored to two places, the percentage no longer meets the error of the percentage as
   computed: two levels of 1.5 % wastage make 3.0225 %, stored as 3.02 %, and 10 000 units of
   1000 bolts come out 250 bolts short, where the finer percentage is right to within six.
   */
  lemma StoredPercentIsCoarser()
    ensures Bolts().quantityPerTopUnit * 10000.0 - NeedOf(Snapshot(Bolts()), 10000.0).gross == 250.0
    ensures ErrorBound(Bolts().basePerTopUnit, 10000.0, StoredWastage(Bolts()), 0.00005) < 6.0
    ensures !Rederives(NeedOf(Snapshot(Bolts()), 10000.0).gross, Bolts().basePerTopUnit, Bolts().quantityPerTopUnit,
                       10000.0, StoredWastage(Bolts()), 0.00005)
  {
    BoltsExploded();
    BoltsStored();
    BoltsRequired();
    assert Bolts().itemId == "bolt";
    hide Bolts, NeedOf, StoredWastage;
  }

  // ---------------------------------------------------------------- when the stored percentage will do

  /** How far the percentage moves the product of base and ordered quantity. */
  lemma Deviation(b: real, g: real, w: real, exact: real, q: real)
    requires b * Raised(exact) == g
    ensures b * q * Raised(w) - g * q == Times(q, b * ((w - exact) / 100.0))
  {
    assert b * Raised(w) - g == b * ((w - exact) / 100.0);
    assert b * q * Raised(w) - g * q == q * (b * Raised(w) - g);
  }

  lemma ExcessIsExact(b: real, g: real)
    requires b > 0.0
    ensures b * Raised(ExcessPercent(b, g)) == g
  {
    PercentGivesGross(b, g, ExcessPercent(b, g), 0.0);
  }

  /** A quantity for which a deviation beyond the allowed one outgrows the constant terms. */
  lemma Outgrows(deviation: real, allowed: real, c: real) returns (q: real)
    requires (deviation > allowed || deviation < -allowed) && allowed >= 0.0 && c >= 0.0
    ensures q >= 0.0
    ensures deviation > allowed ==> Times(q, deviation) > Times(q, allowed) + c
    ensures deviation < -allowed ==> Times(q, deviation) < -Times(q, allowed) - c
  {
    var excess := if deviation > allowed then deviation - allowed else -deviation - allowed;
    q := c / excess + 1.0;
    assert q * excess == c + excess;
  }

  /** A percentage off by more than eps misses the bound for eps at some ordered quantity. */
  lemma PercentTooFar(leaf: Leaf, w: real, eps: real) returns (q: real)
    requires leaf.basePerTopUnit > 0.0 && w >= 0.0 && eps >= 0.0
    requires !Near(w, ExcessPercent(leaf.basePerTopUnit, leaf.quantityPerTopUnit), eps)
    ensures q >= 0.0 && !Rederives(NeedOf(SnapshotLine(leaf.itemId, leaf.basePerTopUnit, w), q).gross,
                                   leaf.basePerTopUnit, leaf.quantityPerTopUnit, q, w, eps)
  {
    var b, g := leaf.basePerTopUnit, leaf.quantityPerTopUnit;
    var exact := ExcessPercent(b, g);
    ExcessIsExact(b, g);
    hide ExcessPercent, NeedOf;
    DeviationBeyond(b, w, exact, eps);
    q := Outgrows(b * ((w - exact) / 100.0), b * Share(eps), 0.0001 * (1.0 + Raised(w)));
    Deviation(b, g, w, exact, q);
    NeedNearProduct(SnapshotLine(leaf.itemId, b, w), q);
    MissesBound(NeedOf(SnapshotLine(leaf.itemId, b, w), q).gross, b, g, q, w, exact, eps);
  }

  lemma DeviationBeyond(b: real, w: real, exact: real, eps: real)
    requires b > 0.0 && eps >= 0.0 && !Near(w, exact, eps)
    ensures b * Share(eps) >= 0.0
    ensures b * ((w - exact) / 100.0) > b * Share(eps) || b * ((w - exact) / 100.0) < -(b * Share(eps))
  {
    if w - exact > eps {
      assert b * ((w - exact) / 100.0 - Share(eps)) > 0.0;
    } else {
      assert b * (-(w - exact) / 100.0 - Share(eps)) > 0.0;
    }
  }

  lemma MissesBound(gross: real, b: real, g: real, q: real, w: real, exact: real, eps: real)
    requires NearProduct(gross, b, q, w)
    requires b * q * Raised(w) - g * q == Times(q, b * ((w - exact) / 100.0))
    requires var d := b * ((w - exact) / 100.0);
      || Times(q, d) > Times(q, b * Share(eps)) + 0.0001 * (1.0 + Raised(w))
      || Times(q, d) < -Times(q, b * Share(eps)) - 0.0001 * (1.0 + Raised(w))
    ensures !Rederives(gross, b, g, q, w, eps)
  {
    assert b * q * Share(eps) == Times(q, b * Share(eps));
    hide Raised, Share, Times;
  }

  /**
   With the percentage as stored, the requirement meets the bound of the percentage as computed
   at every ordered quantity exactly when storing it moved it by no more than computing it may.
   */
  lemma StoredPercentMeetsIff(leaf: Leaf)
    requires leaf.quantityPerTopUnit >= leaf.basePerTopUnit > 0.0
    ensures (forall q :: q >= 0.0 ==>
              Rederives(NeedOf(Snapshot(leaf), q).gross, leaf.basePerTopUnit, leaf.quantityPerTopUnit, q,
                        StoredWastage(leaf), 0.00005))
            <==> Near(StoredWastage(leaf), ExcessPercent(leaf.basePerTopUnit, leaf.quantityPerTopUnit), 0.00005)
  {
    WastageNonNegative(leaf);
    hide NeedOf, StoredWastage, ExcessPercent, Rederives, Near;
    if Near(StoredWastage(leaf), ExcessPercent(leaf.basePerTopUnit, leaf.quantityPerTopUnit), 0.00005) {
      forall q | q >= 0.0
        ensures Rederives(NeedOf(Snapshot(leaf), q).gross, leaf.basePerTopUnit, leaf.quantityPerTopUnit, q,
                  StoredWastage(leaf), 0.00005)
      {
        RederivedGross(leaf, q, StoredWastage(leaf), 0.00005);
      }
    } else {
      var q := PercentTooFar(leaf, StoredWastage(leaf), 0.00005);
      assert SnapshotLine(leaf.itemId, leaf.basePerTopUnit, StoredWastage(leaf)) == Snapshot(leaf);
    }
  }

  // ---------------------------------------------------------------- the examples are explosions

  /** Two released BOMs of one line each, a part made from a part bought, explode to a single leaf two levels down. */
  lemma TwoLevelExplosion(mode: Mode, lookup: Lookup, top: Item, r: int, s: int, a: Line, b: Line)
    requires a.makeBuy == Some(Make) && b.makeBuy == Some(Buy) && top != a.itemId && b.itemId !in lookup
    requires top in lookup && lookup[top] == Bom(top, r, [a])
    requires a.itemId in lookup && lookup[a.itemId] == Bom(a.itemId, s, [b])
    ensures Explode(mode, lookup, top) == Success([LeafOf(r, [Step(r, a), Step(s, b)])])
  {
    hide LeafOf;
    var below := [top, a.itemId];
    assert [] + [top] == [top] && [top] + [a.itemId] == below;
    assert [] + [Step(r, a)] == [Step(r, a)] && [Step(r, a)] + [Step(s, b)] == [Step(r, a), Step(s, b)];
    ThenAssociates([[Step(r, a), Step(s, b)]], [], Success([]));
    assert LinePath(mode, lookup, Step(s, b), below, [Step(r, a)]) == Success([[Step(r, a), Step(s, b)]]);
    assert LinePaths(mode, lookup, lookup[a.itemId], 1, below, [Step(r, a)]) == Success([]);
    assert LinePaths(mode, lookup, lookup[a.itemId], 0, below, [Step(r, a)]) == Success([[Step(r, a), Step(s, b)]]);
    assert WalkPaths(mode, lookup, a.itemId, [top], [Step(r, a)]) == Success([[Step(r, a), Step(s, b)]]);
    assert LinePath(mode, lookup, Step(r, a), [top], []) == Success([[Step(r, a), Step(s, b)]]);
    assert LinePaths(mode, lookup, lookup[top], 1, [top], []) == Success([]);
    assert LinePaths(mode, lookup, lookup[top], 0, [top], []) == Success([[Step(r, a), Step(s, b)]]);
    assert WalkPaths(mode, lookup, top, [], []) == Success([[Step(r, a), Step(s, b)]]);
    assert [[Step(r, a), Step(s, b)]][1..] == [] && LeavesOf(r, []) == [];
    assert LeavesOf(r, [[Step(r, a), Step(s, b)]]) == [LeafOf(r, [Step(r, a), Step(s, b)])];
  }

  function TwoBoms(a: Line, b: Line): Lookup {
    map["unit" := Bom("unit", 1, [a]), a.itemId := Bom(a.itemId, 2, [b])]
  }

  /** The bolts, and the lost parts, are what the procurement explosion of released BOMs yields. */
  lemma ExamplesAreExplosions()
    ensures var frame := BomExplosion.Line("frame", 1000.0, 1.5, "pc", Some(Make));
      var bolt := BomExplosion.Line("bolt", 1.0, 1.5, "pc", Some(Buy));
      Explode(Procurement, TwoBoms(frame, bolt), "unit") == Success([Bolts()])
    ensures var part := BomExplosion.Line("part", 0.0070, 0.0, "kg", Some(Make));
      var coat := BomExplosion.Line("coat", 0.0070, 5.0, "kg", Some(Buy));
      Explode(Procurement, TwoBoms(part, coat), "unit") == Success([LeafOf(1, [Step(1, part), Step(2, coat)])])
  {
    hide Explode, LeafOf;
    var frame := BomExplosion.Line("frame", 1000.0, 1.5, "pc", Some(Make));
    var bolt := BomExplosion.Line("bolt", 1.0, 1.5, "pc", Some(Buy));
    TwoLevelExplosion(Procurement, TwoBoms(frame, bolt), "unit", 1, 2, frame, bolt);
    var part := BomExplosion.Line("part", 0.0070, 0.0, "kg", Some(Make));
    var coat := BomExplosion.Line("coat", 0.0070, 5.0, "kg", Some(Buy));
    TwoLevelExplosion(Procurement, TwoBoms(part, coat), "unit", 1, 2, part, coat);
  }

  // ---------------------------------------------------------------- the whole report

  lemma {:induction false} TotalConcat(a: seq<Need>, b: seq<Need>, item: Item)
    ensures Total(a + b, item).gross == Total(a, item).gross + Total(b, item).gross
  {
    if b == [] {
      assert a + b == a;
    } else {
      TotalConcat(a, b[..|b| - 1], item);
      assert (a + b)[..|a + b| - 1] == a + b[..|b| - 1];
    }
  }

  lemma PositiveLeafNear(leaf: Leaf, q: real)
    requires LeafOk(leaf) && leaf.basePerTopUnit > 0.0 && q >= 0.0
    ensures Near(NeedOf(Snapshot(leaf), q).gross, Times(leaf.quantityPerTopUnit, q), LeafError(leaf, q))
  {
    hide NeedOf, Snapshot, ErrorBound, StoredWastage, Near;
    StoredPercentError(leaf, q);
  }

  lemma LeafNear(leaf: Leaf, q: real)
    requires LeafOk(leaf) && q >= 0.0
    ensures Near(NeedOf(Snapshot(leaf), q).gross, Times(leaf.quantityPerTopUnit, q), LeafError(leaf, q))
  {
    hide NeedOf, Snapshot, ErrorBound, StoredWastage;
    if leaf.basePerTopUnit > 0.0 {
      PositiveLeafNear(leaf, q);
    } else {
      ZeroBaseIsLost(leaf, q);
      ProductNonNegative(leaf.quantityPerTopUnit, q);
    }
  }

  lemma {:induction false} LeavesNear(leaves: seq<Leaf>, q: real, item: Item)
    requires q >= 0.0 && forall i :: 0 <= i < |leaves| ==> LeafOk(leaves[i])
    ensures Near(Total(NeedsOfLines(SnapshotLines(leaves), q), item).gross, LeavesNeed(leaves, q, item),
                   LeavesError(leaves, q, item))
  {
    if leaves != [] {
      var init, last := leaves[..|leaves| - 1], leaves[|leaves| - 1];
      var lines := SnapshotLines(leaves);
      LeavesNear(init, q, item);
      LeafNear(last, q);
      assert lines[..|lines| - 1] == SnapshotLines(init);
      var needs := NeedsOfLines(lines, q);
      assert needs[..|needs| - 1] == NeedsOfLines(SnapshotLines(init), q);
      assert needs[|needs| - 1] == NeedOf(Snapshot(last), q);
    }
    hide NeedOf, Times, LeafError;
  }

  /**
   For every order, each item's reported requirement is within the sum of its leaves' error
   bounds of what the order really needs: gross quantity per unit times ordered quantity,
   added up over all products.
   */
  lemma {:induction false} ReportNearOrder(products: seq<Product>, item: Item)
    requires forall i :: 0 <= i < |products| ==>
               products[i].orderedQuantity >= 0.0 && forall leaf :: leaf in products[i].leaves ==> LeafOk(leaf)
    ensures Near(Total(Needs(Snapshots(products)), item).gross, OrderNeeds(products, item), OrderError(products, item))
  {
    if products != [] {
      var init, last := products[..|products| - 1], products[|products| - 1];
      var selections := Snapshots(products);
      ReportNearOrder(init, item);
      LeavesNear(last.leaves, last.orderedQuantity, item);
      assert selections[..|selections| - 1] == Snapshots(init);
      TotalConcat(Needs(Snapshots(init)), NeedsOfLines(SnapshotLines(last.leaves), last.orderedQuantity), item);
    }
  }

  /** There is one row per item of the snapshot, in order of first appearance, and its parts add up. */
  lemma RowsAreTotals(selections: seq<Selection>)
    ensures var needs := Needs(selections);
      var rows := Rows(needs);
      && (forall i, j :: 0 <= i < j < |rows| ==> rows[i].itemId != rows[j].itemId)
      && (forall i :: 0 <= i < |rows| ==>
            rows[i] == Total(needs, rows[i].itemId) && rows[i].gross == rows[i].base + rows[i].wastage)
      && (forall n :: n in needs ==> exists i :: 0 <= i < |rows| && rows[i].itemId == n.itemId)
  {
    var needs := Needs(selections);
    var rows := Rows(needs);
    ItemsDistinct(needs);
    NeedsRounded(selections);
    NeedsAddUp(selections);
    forall i | 0 <= i < |rows|
      ensures rows[i] == Total(needs, rows[i].itemId) && rows[i].itemId == Items(needs)[i]
      ensures rows[i].gross == rows[i].base + rows[i].wastage
    {
      TotalIsRounded(needs, Items(needs)[i]);
      TotalAddsUp(needs, Items(needs)[i]);
    }
    hide Total, Needs, Rounded;
    forall n | n in needs
      ensures exists i :: 0 <= i < |rows| && rows[i].itemId == n.itemId
    {
      assert n.itemId in Items(needs);
      var i :| 0 <= i < |rows| && Items(needs)[i] == n.itemId;
      assert rows[i].itemId == n.itemId;
    }
  }

  lemma {:induction false} LinesAddUp(lines: seq<SnapshotLine>, q: real)
    ensures forall n :: n in NeedsOfLines(lines, q) ==> n.gross == n.base + n.wastage
  {
    if lines != [] {
      LinesAddUp(lines[..|lines| - 1], q);
      NeedAddsUp(lines[|lines| - 1], q);
    }
    hide NeedOf;
  }

  lemma {:induction false} NeedsAddUp(selections: seq<Selection>)
    ensures forall n :: n in Needs(selections) ==> n.gross == n.base + n.wastage
  {
    if selections != [] {
      var last := selections[|selections| - 1];
      NeedsAddUp(selections[..|selections| - 1]);
      LinesAddUp(last.lines, last.orderedQuantity);
    }
  }
}
