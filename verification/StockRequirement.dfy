/**
 Stock requirements of a kickoff: the snapshot taken by `generate` and the report aggregated by
 `computeReport` in src/modules/bom/stock-report.service.ts, with src/modules/bom/stock-calc.ts.

 A snapshot keeps, per exploded leaf, the base quantity per top unit and one effective wastage
 percentage; the report multiplies them back by the ordered quantity. The percentage is
 rounded to four places when it is computed and to two by the column that stores it.
 */
module StockRequirement {
  import opened Wrappers
  import opened Decimals
  import opened BomExplosion

  datatype SnapshotLine = SnapshotLine(itemId: Item, quantityPerUnit: real, wastagePercent: real)

  /** A product line of the order with the lines snapshot for it. */
  datatype Selection = Selection(orderedQuantity: real, lines: seq<SnapshotLine>)

  /** The requirement of one item: of one snapshot line, or added up. */
  datatype Need = Need(itemId: Item, ordered: real, base: real, wastage: real, gross: real)

  datatype Availability = Available | ExpectedBeforeRequiredDate | Shortage | Unknown

  // ---------------------------------------------------------------- the arithmetic

  function BaseRequirement(quantityPerUnit: real, orderedQuantity: real): real {
    Round4(quantityPerUnit * orderedQuantity)
  }

  function WastageQuantity(base: real, wastagePercent: real): real {
    Round4(base * wastagePercent / 100.0)
  }

  function GrossRequirement(base: real, wastage: real): real {
    Round4(base + wastage)
  }

  /** The percentage by which a leaf's gross quantity exceeds its base quantity, not rounded. */
  function ExcessPercent(base: real, gross: real): real
    requires base > 0.0
  {
    (gross / base - 1.0) * 100.0
  }

  /** The percentage `generate` computes. */
  function EffectiveWastage(leaf: Leaf): real {
    if leaf.basePerTopUnit > 0.0 then Round4(ExcessPercent(leaf.basePerTopUnit, leaf.quantityPerTopUnit)) else 0.0
  }

  /** The percentage the two-place column holds. */
  function StoredWastage(leaf: Leaf): real {
    Round2(EffectiveWastage(leaf))
  }

  /** The snapshot line of a leaf as it is read back. */
  function Snapshot(leaf: Leaf): SnapshotLine {
    SnapshotLine(leaf.itemId, leaf.basePerTopUnit, StoredWastage(leaf))
  }

  /** What one snapshot line requires. */
  function NeedOf(line: SnapshotLine, orderedQuantity: real): Need {
    var base := BaseRequirement(line.quantityPerUnit, orderedQuantity);
    var wastage := WastageQuantity(base, line.wastagePercent);
    Need(line.itemId, orderedQuantity, base, wastage, GrossRequirement(base, wastage))
  }

  // ---------------------------------------------------------------- aggregation

  /** The needs of all lines, in the order they are visited. */
  function NeedsOfLines(lines: seq<SnapshotLine>, orderedQuantity: real): seq<Need> {
    if lines == [] then []
    else NeedsOfLines(lines[..|lines| - 1], orderedQuantity) + [NeedOf(lines[|lines| - 1], orderedQuantity)]
  }

  function Needs(selections: seq<Selection>): seq<Need> {
    if selections == [] then []
    else
      var last := selections[|selections| - 1];
      Needs(selections[..|selections| - 1]) + NeedsOfLines(last.lines, last.orderedQuantity)
  }

  function Zero(item: Item): Need {
    Need(item, 0.0, 0.0, 0.0, 0.0)
  }

  function Plus(a: Need, b: Need): Need {
    Need(a.itemId, a.ordered + b.ordered, a.base + b.base, a.wastage + b.wastage, a.gross + b.gross)
  }

  /** The plain sums over the needs of one item. */
  function Total(needs: seq<Need>, item: Item): Need {
    if needs == [] then Zero(item)
    else
      var last := needs[|needs| - 1];
      var before := Total(needs[..|needs| - 1], item);
      if last.itemId == item then Plus(before, last) else before
  }

  /** The items of the needs, each at its first appearance. */
  function Items(needs: seq<Need>): seq<Item> {
    if needs == [] then []
    else
      var before, item := Items(needs[..|needs| - 1]), needs[|needs| - 1].itemId;
      if item in before then before else before + [item]
  }

  /** One row per item, in order of first appearance, holding that item's totals. */
  function Rows(needs: seq<Need>): seq<Need> {
    var items := Items(needs);
    seq(|items|, i requires 0 <= i < |items| => Total(needs, items[i]))
  }

  /** The accumulated row, each quantity rounded again. */
  function Accumulate(existing: Need, n: Need): Need {
    Need(existing.itemId, existing.ordered + n.ordered, Round4(existing.base + n.base),
         Round4(existing.wastage + n.wastage), Round4(existing.gross + n.gross))
  }

  /** The quantities of a need fit their columns. */
  ghost predicate Rounded(n: Need) {
    IsQuantity(n.base) && IsQuantity(n.wastage) && IsQuantity(n.gross)
  }

  lemma NeedIsRounded(line: SnapshotLine, orderedQuantity: real)
    ensures Rounded(NeedOf(line, orderedQuantity))
  {
  }

  /** Rounding the accumulated quantities again changes nothing. */
  lemma AccumulateIsPlus(a: Need, b: Need)
    requires Rounded(a) && Rounded(b)
    ensures Accumulate(a, b) == Plus(a, b) && Rounded(Plus(a, b))
  {
    QuantitiesClosed(a.base, b.base);
    QuantitiesClosed(a.wastage, b.wastage);
    QuantitiesClosed(a.gross, b.gross);
    hide IsQuantity;
    Round4OfQuantity(a.base + b.base);
    Round4OfQuantity(a.wastage + b.wastage);
    Round4OfQuantity(a.gross + b.gross);
    hide Round4;
  }

  lemma {:induction false} TotalIsRounded(needs: seq<Need>, item: Item)
    requires forall i :: 0 <= i < |needs| ==> Rounded(needs[i])
    ensures Rounded(Total(needs, item)) && Total(needs, item).itemId == item
  {
    if needs == [] {
      assert 0.0 == TenThousandths(0);
    } else {
      TotalIsRounded(needs[..|needs| - 1], item);
      if needs[|needs| - 1].itemId == item {
        AccumulateIsPlus(Total(needs[..|needs| - 1], item), needs[|needs| - 1]);
      }
    }
    hide IsQuantity;
  }

  lemma {:induction false} TotalOfNone(needs: seq<Need>, item: Item)
    requires item !in Items(needs)
    ensures Total(needs, item) == Zero(item)
  {
    if needs != [] {
      TotalOfNone(needs[..|needs| - 1], item);
    }
  }

  lemma {:induction false} ItemsDistinct(needs: seq<Need>)
    ensures Distinct(Items(needs))
    ensures forall item :: item in Items(needs) <==> exists i :: 0 <= i < |needs| && needs[i].itemId == item
  {
    if needs != [] {
      var init, last := needs[..|needs| - 1], needs[|needs| - 1];
      ItemsDistinct(init);
      assert needs == init + [last];
      assert forall i :: 0 <= i < |init| ==> needs[i] == init[i];
      forall item | item in Items(needs)
        ensures exists i :: 0 <= i < |needs| && needs[i].itemId == item
      {
        if item != last.itemId {
          var i :| 0 <= i < |init| && init[i].itemId == item;
          assert needs[i].itemId == item;
        } else {
          assert needs[|needs| - 1].itemId == item;
        }
      }
    }
  }

  /** Where the map holds the item, or the number of rows when it does not. */
  method Find(rows: seq<Need>, item: Item) returns (k: nat)
    ensures k <= |rows|
    ensures k < |rows| ==> rows[k].itemId == item
    ensures forall i :: 0 <= i < k ==> rows[i].itemId != item
  {
    k := 0;
    while k < |rows| && rows[k].itemId != item
      invariant k <= |rows| && forall i :: 0 <= i < k ==> rows[i].itemId != item
    {
      k := k + 1;
    }
  }

  /** One more line: added to its item's row, or starting a new one. */
  method AddNeed(rows: seq<Need>, n: Need, ghost needs: seq<Need>) returns (next: seq<Need>)
    requires rows == Rows(needs) && Rounded(n)
    requires forall i :: 0 <= i < |needs| ==> Rounded(needs[i])
    ensures next == Rows(needs + [n])
  {
    ghost var more := needs + [n];
    assert more[..|more| - 1] == needs;
    forall item
      ensures Total(needs, item).itemId == item && Rounded(Total(needs, item))
      ensures Total(more, item) == if n.itemId == item then Plus(Total(needs, item), n) else Total(needs, item)
    {
      TotalIsRounded(needs, item);
    }
    ItemsDistinct(needs);
    hide Total, Rounded;
    var k := Find(rows, n.itemId);
    if k < |rows| {
      AccumulateIsPlus(rows[k], n);
      next := rows[k := Accumulate(rows[k], n)];
    } else {
      assert forall i :: 0 <= i < |rows| ==> rows[i].itemId == Items(needs)[i];
      TotalOfNone(needs, n.itemId);
      next := rows + [n];
    }
  }

  /** The loops of `computeReport` that group the snapshot lines by item. */
  method AggregateNeeds(selections: seq<Selection>) returns (rows: seq<Need>)
    ensures rows == Rows(Needs(selections))
  {
    rows := [];
    for i := 0 to |selections|
      invariant rows == Rows(Needs(selections[..i]))
    {
      var sel := selections[i];
      assert selections[..i + 1][..i] == selections[..i];
      ghost var before := Needs(selections[..i]);
      assert before + NeedsOfLines(sel.lines[..0], sel.orderedQuantity) == before;
      for j := 0 to |sel.lines|
        invariant rows == Rows(before + NeedsOfLines(sel.lines[..j], sel.orderedQuantity))
      {
        assert sel.lines[..j + 1][..j] == sel.lines[..j];
        ghost var needs := before + NeedsOfLines(sel.lines[..j], sel.orderedQuantity);
        NeedsRounded(selections[..i]);
        NeedsOfLinesRounded(sel.lines[..j], sel.orderedQuantity);
        NeedIsRounded(sel.lines[j], sel.orderedQuantity);
        rows := AddNeed(rows, NeedOf(sel.lines[j], sel.orderedQuantity), needs);
        assert needs + [NeedOf(sel.lines[j], sel.orderedQuantity)] ==
               before + NeedsOfLines(sel.lines[..j + 1], sel.orderedQuantity);
      }
      assert sel.lines[..|sel.lines|] == sel.lines;
    }
    assert selections[..|selections|] == selections;
  }

  lemma {:induction false} NeedsOfLinesRounded(lines: seq<SnapshotLine>, orderedQuantity: real)
    ensures forall n :: n in NeedsOfLines(lines, orderedQuantity) ==> Rounded(n)
  {
    if lines != [] {
      NeedsOfLinesRounded(lines[..|lines| - 1], orderedQuantity);
      NeedIsRounded(lines[|lines| - 1], orderedQuantity);
    }
    hide Rounded, NeedOf;
  }

  lemma {:induction false} NeedsRounded(selections: seq<Selection>)
    ensures forall n :: n in Needs(selections) ==> Rounded(n)
  {
    if selections != [] {
      var last := selections[|selections| - 1];
      NeedsRounded(selections[..|selections| - 1]);
      NeedsOfLinesRounded(last.lines, last.orderedQuantity);
    }
    hide Rounded;
  }

  // ---------------------------------------------------------------- what a row says

  /** Base and wastage of every row add up to its gross requirement. */
  lemma {:induction false} TotalAddsUp(needs: seq<Need>, item: Item)
    requires forall i :: 0 <= i < |needs| ==> needs[i].gross == needs[i].base + needs[i].wastage
    ensures Total(needs, item).gross == Total(needs, item).base + Total(needs, item).wastage
  {
    if needs != [] {
      TotalAddsUp(needs[..|needs| - 1], item);
    }
  }

  lemma NeedAddsUp(line: SnapshotLine, orderedQuantity: real)
    ensures var n := NeedOf(line, orderedQuantity); n.gross == n.base + n.wastage
  {
    var n := NeedOf(line, orderedQuantity);
    NeedIsRounded(line, orderedQuantity);
    QuantitiesClosed(n.base, n.wastage);
    Round4OfQuantity(n.base + n.wastage);
    hide Round4, IsQuantity;
  }

  /** Compares one row with the stock; the shortage or surplus is what is missing or left. */
  function Classify(hasStockRecord: bool, gross: real, effectiveAvailable: real, expected: real, inTime: bool)
    : (r: (Availability, real, real))
  {
    if !hasStockRecord then (Unknown, gross, 0.0)
    else if effectiveAvailable >= gross then (Available, 0.0, Round4(effectiveAvailable - gross))
    else
      var deficit := Round4(gross - effectiveAvailable);
      (if expected >= deficit && inTime then ExpectedBeforeRequiredDate else Shortage, deficit, 0.0)
  }

  /**
   Stock, shortage and surplus balance the requirement, and nothing is both short and left over; an
   item without a stock record is short of everything.
   */
  lemma ClassificationBalances(stocked: bool, gross: real, effectiveAvailable: real, expected: real, inTime: bool)
    requires IsQuantity(gross) && IsQuantity(effectiveAvailable)
    ensures var (status, shortage, surplus) := Classify(stocked, gross, effectiveAvailable, expected, inTime);
      && (if stocked then effectiveAvailable else 0.0) + shortage - surplus == gross
      && (stocked ==> shortage >= 0.0 && surplus >= 0.0 && (shortage == 0.0 || surplus == 0.0))
      && (!stocked ==> surplus == 0.0)
      && (status.Unknown? <==> !stocked)
      && (status.Available? <==> stocked && shortage == 0.0)
      && (status.ExpectedBeforeRequiredDate? <==> stocked && 0.0 < shortage <= expected && inTime)
  {
    QuantitiesClosed(gross, effectiveAvailable);
    QuantitiesClosed(effectiveAvailable, gross);
    Round4OfQuantity(gross - effectiveAvailable);
    Round4OfQuantity(effectiveAvailable - gross);
    hide Round4, IsQuantity;
  }

  // ---------------------------------------------------------------- the error of one line

  lemma Scaled(x: real, y: real, d: real, k: real)
    requires Near(x, y, d) && k >= 0.0
    ensures Near(x * k, y * k, d * k)
  {
    ProductMonotone(x - y, d, k);
    ProductMonotone(-d, x - y, k);
  }

  /** The factor by which a percentage raises a quantity. */
  function Raised(w: real): real {
    1.0 + w / 100.0
  }

  function Share(eps: real): real {
    eps / 100.0
  }

  /** The error of re-deriving a leaf's gross quantity when its percentage is off by at most `eps`. */
  function ErrorBound(base: real, q: real, w: real, eps: real): real {
    base * q * Share(eps) + 0.00005 * (1.0 + Raised(w))
  }

  /** Applying the percentage to the base gives the leaf's gross quantity back, nearly. */
  ghost predicate PercentFits(b: real, g: real, w: real, eps: real) {
    Near(b * Raised(w), g, b * Share(eps))
  }

  /** The exact product of base, quantity and wastage factor, but for two roundings. */
  ghost predicate NearProduct(gross: real, b: real, q: real, w: real) {
    Near(gross, b * q * Raised(w), 0.00005 * (1.0 + Raised(w)))
  }

  /** The requirement misses `g` times `q` by at most the error bound. */
  ghost predicate Rederives(gross: real, b: real, g: real, q: real, w: real, eps: real) {
    Near(gross, g * q, ErrorBound(b, q, w, eps))
  }

  lemma PercentGivesGross(b: real, g: real, w: real, eps: real)
    requires b > 0.0 && Near(w, ExcessPercent(b, g), eps)
    ensures PercentFits(b, g, w, eps)
  {
    var d := w - ExcessPercent(b, g);
    RatioTimes(g, b);
    PartsTimes(b, g / b, d / 100.0);
    ProductMonotone(d / 100.0, Share(eps), b);
    ProductMonotone(-Share(eps), d / 100.0, b);
    assert Raised(w) == g / b + d / 100.0;
  }

  lemma RatioTimes(x: real, y: real)
    requires y != 0.0
    ensures y * (x / y) == x
  {
  }

  lemma PartsTimes(x: real, y: real, z: real)
    ensures x * (y + z) == x * y + x * z
  {
  }

  /** Two roundings, of a product and of its share `k`, add up. */
  lemma RoundedTwice(product: real, base: real, wastage: real, k: real)
    requires k >= 0.0
    requires Near(base, product, 0.00005) && Near(wastage, base * k, 0.00005)
    ensures Near(base + wastage, product * (1.0 + k), 0.00005 * (2.0 + k))
  {
    var factor := 1.0 + k;
    Scaled(base, product, 0.00005, factor);
    PartsTimes(base, 1.0, k);
    ErrorsAdd(base * factor, product * factor, 0.00005 * factor, wastage, base * k, base);
  }

  lemma ErrorsAdd(x: real, y: real, d: real, w: real, v: real, z: real)
    requires Near(x, y, d) && Near(w, v, 0.00005) && x == z + v
    ensures Near(z + w, y, d + 0.00005)
  {
  }

  lemma BaseNearest(quantityPerUnit: real, q: real)
    ensures Near(BaseRequirement(quantityPerUnit, q), quantityPerUnit * q, 0.00005)
  {
    Round4Nearest(quantityPerUnit * q);
    hide Round4;
  }

  lemma WastageNearest(base: real, w: real)
    ensures Near(WastageQuantity(base, w), base * (w / 100.0), 0.00005)
  {
    Round4Nearest(base * w / 100.0);
    assert base * w / 100.0 == base * (w / 100.0);
    hide Round4;
  }

  /** Requirement of a line against the exact product of base, quantity and wastage factor. */
  lemma NeedNearProduct(line: SnapshotLine, q: real)
    requires line.wastagePercent >= 0.0
    ensures NearProduct(NeedOf(line, q).gross, line.quantityPerUnit, q, line.wastagePercent)
  {
    NeedAddsUp(line, q);
    hide BaseRequirement, WastageQuantity, GrossRequirement;
    BaseNearest(line.quantityPerUnit, q);
    WastageNearest(NeedOf(line, q).base, line.wastagePercent);
    var need, share := NeedOf(line, q), line.wastagePercent / 100.0;
    assert need.base * share == need.base * (line.wastagePercent / 100.0);
    RoundedTwice(line.quantityPerUnit * q, need.base, need.wastage, share);
  }

  lemma ScaledByQuantity(b: real, g: real, w: real, eps: real, q: real, gross: real)
    requires q >= 0.0 && PercentFits(b, g, w, eps) && NearProduct(gross, b, q, w)
    ensures Rederives(gross, b, g, q, w, eps)
  {
    Scaled(b * Raised(w), g, b * Share(eps), q);
    Reordered(b, q, Raised(w));
    Reordered(b, q, Share(eps));
    hide Raised, Share;
  }

  lemma Reordered(x: real, y: real, z: real)
    ensures x * y * z == x * z * y
  {
  }

  /**
   Re-deriving a gross quantity from base, ordered quantity and a percentage `w` that is off by
   at most `eps` misses the exploded gross times the ordered quantity by at most `ErrorBound`.
   */
  lemma RederivedGross(leaf: Leaf, q: real, w: real, eps: real)
    requires leaf.basePerTopUnit > 0.0 && q >= 0.0 && w >= 0.0
    requires Near(w, ExcessPercent(leaf.basePerTopUnit, leaf.quantityPerTopUnit), eps)
    ensures Rederives(NeedOf(SnapshotLine(leaf.itemId, leaf.basePerTopUnit, w), q).gross,
                      leaf.basePerTopUnit, leaf.quantityPerTopUnit, q, w, eps)
  {
    hide NeedOf, ExcessPercent, Near, Rederives, PercentFits, NearProduct;
    PercentGivesGross(leaf.basePerTopUnit, leaf.quantityPerTopUnit, w, eps);
    NeedNearProduct(SnapshotLine(leaf.itemId, leaf.basePerTopUnit, w), q);
    ScaledByQuantity(leaf.basePerTopUnit, leaf.quantityPerTopUnit, w, eps, q,
                     NeedOf(SnapshotLine(leaf.itemId, leaf.basePerTopUnit, w), q).gross);
  }

  lemma ExcessNonNegative(b: real, g: real)
    requires g >= b > 0.0
    ensures ExcessPercent(b, g) >= 0.0
  {
    assert g / b >= 1.0;
  }

  lemma WastageNonNegative(leaf: Leaf)
    requires leaf.quantityPerTopUnit >= leaf.basePerTopUnit >= 0.0
    ensures EffectiveWastage(leaf) >= 0.0 && StoredWastage(leaf) >= 0.0
    ensures leaf.basePerTopUnit > 0.0 ==>
              Near(EffectiveWastage(leaf), ExcessPercent(leaf.basePerTopUnit, leaf.quantityPerTopUnit), 0.00005)
    ensures Near(StoredWastage(leaf), EffectiveWastage(leaf), 0.005)
  {
    if leaf.basePerTopUnit > 0.0 {
      ExcessNonNegative(leaf.basePerTopUnit, leaf.quantityPerTopUnit);
      Round4Nearest(ExcessPercent(leaf.basePerTopUnit, leaf.quantityPerTopUnit));
    }
    Round2Nearest(EffectiveWastage(leaf));
    hide Round4, Round2, ExcessPercent;
  }

  /** With the percentage as it is computed. */
  lemma ComputedPercentError(leaf: Leaf, q: real)
    requires leaf.quantityPerTopUnit >= leaf.basePerTopUnit > 0.0 && q >= 0.0
    ensures Rederives(NeedOf(SnapshotLine(leaf.itemId, leaf.basePerTopUnit, EffectiveWastage(leaf)), q).gross,
                      leaf.basePerTopUnit, leaf.quantityPerTopUnit, q, EffectiveWastage(leaf), 0.00005)
  {
    WastageNonNegative(leaf);
    hide NeedOf, EffectiveWastage, ExcessPercent, Rederives;
    RederivedGross(leaf, q, EffectiveWastage(leaf), 0.00005);
  }

  /** With the percentage as it is stored, the first term grows a hundredfold. */
  lemma StoredPercentError(leaf: Leaf, q: real)
    requires leaf.quantityPerTopUnit >= leaf.basePerTopUnit > 0.0 && q >= 0.0
    ensures Rederives(NeedOf(Snapshot(leaf), q).gross,
                      leaf.basePerTopUnit, leaf.quantityPerTopUnit, q, StoredWastage(leaf), 0.00505)
  {
    WastageNonNegative(leaf);
    hide NeedOf, EffectiveWastage, StoredWastage, ExcessPercent, Rederives;
    RederivedGross(leaf, q, StoredWastage(leaf), 0.00505);
  }
}
