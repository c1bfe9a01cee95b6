/** What the stock report says of each item, summed directly over the snapshot lines. */
module RequirementMeaning {
  import opened Wrappers
  import opened Decimals
  import opened BomExplosion
  import opened StockRequirement

  /** The base requirement of a line, and the wastage on it, each to four places. */
  function BaseOf(line: SnapshotLine, ordered: real): real {
    Round4(Times(line.quantityPerUnit, ordered))
  }

  function WastageOf(line: SnapshotLine, ordered: real): real {
    Round4(Times(BaseOf(line, ordered), line.wastagePercent) / 100.0)
  }

  lemma NeedIs(line: SnapshotLine, ordered: real)
    ensures NeedOf(line, ordered) ==
            Need(line.itemId, ordered, BaseOf(line, ordered), WastageOf(line, ordered),
                 BaseOf(line, ordered) + WastageOf(line, ordered))
  {
    BaseIs(line.quantityPerUnit, ordered);
    WastageIs(BaseOf(line, ordered), line.wastagePercent);
    Round4Nearest(Times(line.quantityPerUnit, ordered));
    Round4Nearest(Times(BaseOf(line, ordered), line.wastagePercent) / 100.0);
    hide Round4, IsQuantity, Times, BaseRequirement, WastageQuantity;
    QuantitiesClosed(BaseOf(line, ordered), WastageOf(line, ordered));
    Round4OfQuantity(BaseOf(line, ordered) + WastageOf(line, ordered));
  }

  lemma BaseIs(quantity: real, ordered: real)
    ensures BaseRequirement(quantity, ordered) == Round4(Times(quantity, ordered))
  {
    hide Round4;
  }

  lemma WastageIs(base: real, percent: real)
    ensures WastageQuantity(base, percent) == Round4(Times(base, percent) / 100.0)
  {
    hide Round4;
  }

  /** The lines of one selection that name the item. */
  function LinesFor(lines: seq<SnapshotLine>, ordered: real, item: Item): Need {
    if lines == [] then Need(item, 0.0, 0.0, 0.0, 0.0)
    else
      var rest := LinesFor(lines[1..], ordered, item);
      if lines[0].itemId != item then rest
      else Need(item, ordered + rest.ordered, BaseOf(lines[0], ordered) + rest.base,
                WastageOf(lines[0], ordered) + rest.wastage,
                BaseOf(lines[0], ordered) + WastageOf(lines[0], ordered) + rest.gross)
  }

  lemma {:induction false} LinesForItem(lines: seq<SnapshotLine>, ordered: real, item: Item)
    ensures LinesFor(lines, ordered, item).itemId == item
  {
    if lines != [] {
      LinesForItem(lines[1..], ordered, item);
    }
  }

  function ReportFor(selections: seq<Selection>, item: Item): Need {
    if selections == [] then Need(item, 0.0, 0.0, 0.0, 0.0)
    else
      var first := LinesFor(selections[0].lines, selections[0].orderedQuantity, item);
      var rest := ReportFor(selections[1..], item);
      Need(item, first.ordered + rest.ordered, first.base + rest.base, first.wastage + rest.wastage,
           first.gross + rest.gross)
  }

  lemma {:induction false} TotalConcat(a: seq<Need>, b: seq<Need>, item: Item)
    ensures Total(a + b, item) == Plus(Total(a, item), Total(b, item))
  {
    if b == [] {
      assert a + b == a;
    } else {
      TotalConcat(a, b[..|b| - 1], item);
      assert (a + b)[..|a + b| - 1] == a + b[..|b| - 1];
    }
  }

  lemma {:induction false} LinesCons(lines: seq<SnapshotLine>, ordered: real)
    requires lines != []
    ensures NeedsOfLines(lines, ordered) == [NeedOf(lines[0], ordered)] + NeedsOfLines(lines[1..], ordered)
  {
    hide NeedOf;
    if |lines| > 1 {
      LinesCons(lines[..|lines| - 1], ordered);
      assert lines[..|lines| - 1][1..] == lines[1..][..|lines| - 2];
    }
  }

  /** One more line, in front of the others. */
  lemma LineAdds(n: Need, rest: seq<Need>, item: Item)
    ensures Total([n] + rest, item) == if n.itemId == item then Plus(n, Total(rest, item)) else Total(rest, item)
  {
    OneNeed(n, item);
    TotalConcat([n], rest, item);
    TotalItem(rest, item);
    hide Total;
  }

  lemma {:induction false} TotalItem(needs: seq<Need>, item: Item)
    ensures Total(needs, item).itemId == item
  {
    if needs != [] {
      TotalItem(needs[..|needs| - 1], item);
    }
  }

  lemma {:induction false} LinesTotal(lines: seq<SnapshotLine>, ordered: real, item: Item)
    ensures Total(NeedsOfLines(lines, ordered), item) == LinesFor(lines, ordered, item)
  {
    if lines == [] {
      assert Total([], item) == Zero(item);
    } else {
      LinesTotal(lines[1..], ordered, item);
      LinesCons(lines, ordered);
      NeedIs(lines[0], ordered);
      LineAdds(NeedOf(lines[0], ordered), NeedsOfLines(lines[1..], ordered), item);
      hide NeedOf, NeedsOfLines, Total, BaseOf, WastageOf;
    }
  }

  lemma OneNeed(n: Need, item: Item)
    ensures Total([n], item) == if n.itemId == item then n else Zero(item)
  {
    assert [n][..0] == [];
    assert Total([], item) == Zero(item);
  }

  lemma {:induction false} NeedsCons(selections: seq<Selection>)
    requires selections != []
    ensures Needs(selections) ==
            NeedsOfLines(selections[0].lines, selections[0].orderedQuantity) + Needs(selections[1..])
  {
    hide NeedsOfLines;
    if |selections| > 1 {
      NeedsCons(selections[..|selections| - 1]);
      assert selections[..|selections| - 1][1..] == selections[1..][..|selections| - 2];
    }
  }

  /** An item's row holds the sums over all lines that name it: ordered, base, wastage, and both together. */
  lemma {:induction false} RowIs(selections: seq<Selection>, item: Item)
    ensures Total(Needs(selections), item) == ReportFor(selections, item)
  {
    if selections != [] {
      hide Needs, NeedsOfLines, Total, LinesFor;
      RowIs(selections[1..], item);
      NeedsCons(selections);
      LinesTotal(selections[0].lines, selections[0].orderedQuantity, item);
      LinesForItem(selections[0].lines, selections[0].orderedQuantity, item);
      TotalConcat(NeedsOfLines(selections[0].lines, selections[0].orderedQuantity), Needs(selections[1..]), item);
    } else {
      assert Needs(selections) == [];
      assert Total([], item) == Zero(item);
    }
  }

  /**
   What a snapshot keeps of a leaf: its base quantity, and the percentage by which gross exceeds it,
   rounded to four places and then to the two of its column; no percentage without a base.
   */
  lemma SnapshotIs(leaf: Leaf)
    ensures var line, percent := Snapshot(leaf), EffectiveWastage(leaf);
      && line.itemId == leaf.itemId && line.quantityPerUnit == leaf.basePerTopUnit
      && IsQuantity(percent) && IsMoney(line.wastagePercent) && Near(line.wastagePercent, percent, 0.005)
      && (leaf.basePerTopUnit > 0.0 ==>
            Near(percent, 100.0 * (leaf.quantityPerTopUnit / leaf.basePerTopUnit) - 100.0, 0.00005))
      && (leaf.basePerTopUnit <= 0.0 ==> percent == 0.0)
  {
    var percent := EffectiveWastage(leaf);
    if leaf.basePerTopUnit > 0.0 {
      Round4Nearest(ExcessPercent(leaf.basePerTopUnit, leaf.quantityPerTopUnit));
    } else {
      ZeroIsQuantity();
    }
    Round2Nearest(percent);
    hide Round4, Round2, IsQuantity, IsMoney;
  }

  lemma ZeroIsQuantity()
    ensures IsQuantity(0.0)
  {
    assert 0.0 == TenThousandths(0);
  }
}
