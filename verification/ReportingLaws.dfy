/** Each report adds up to plain sums over the journal lines it was made from. */
module ReportingLaws {
  import opened Wrappers
  import opened Reporting

  function All(): Id -> bool {
    (a: Id) => true
  }

  function OfKinds(chart: Chart, kinds: set<Kind>): Id -> bool {
    (a: Id) => chart(a).kind in kinds
  }

  const SHEET: set<Kind> := {Asset, Liability, Equity}
  const EARNING: set<Kind> := {Revenue, CostOfGoodsSold, Expense, OtherIncome, OtherExpense}

  // ---------------------------------------------------------------- sums of lines

  lemma {:induction false} NetConcat(a: seq<Line>, b: seq<Line>, keep: Id -> bool)
    ensures Net(a + b, keep) == Net(a, keep) + Net(b, keep)
  {
    if b == [] {
      assert a + b == a;
    } else {
      NetConcat(a, b[..|b| - 1], keep);
      assert (a + b)[..|a + b| - 1] == a + b[..|b| - 1];
    }
  }

  /** Consecutive ranges add up. */
  lemma {:induction false} NetOfRanges(journals: seq<Journal>, from: int, middle: int, to: int, keep: Id -> bool)
    requires from <= middle <= to + 1
    ensures Net(LinesIn(journals, from, to), keep) ==
            Net(LinesIn(journals, from, middle - 1), keep) + Net(LinesIn(journals, middle, to), keep)
  {
    if journals != [] {
      var init, last := journals[..|journals| - 1], journals[|journals| - 1];
      NetOfRanges(init, from, middle, to, keep);
      NetConcat(LinesIn(init, from, to), if InRange(last, from, to) then last.lines else [], keep);
      NetConcat(LinesIn(init, from, middle - 1), if InRange(last, from, middle - 1) then last.lines else [], keep);
      NetConcat(LinesIn(init, middle, to), if InRange(last, middle, to) then last.lines else [], keep);
      assert Net([], keep) == 0;
    }
  }

  lemma OnOneSide(kind: Kind)
    ensures kind in SHEET <==> kind !in EARNING
  {
    assert kind.Asset? || kind.Liability? || kind.Equity? || kind.Revenue? || kind.CostOfGoodsSold? || kind.Expense?
      || kind.OtherIncome? || kind.OtherExpense?;
  }

  /** Every account is on the sheet or earns. */
  lemma {:induction false} NetOfAllKinds(lines: seq<Line>, chart: Chart)
    ensures Net(lines, All()) == Net(lines, OfKinds(chart, SHEET)) + Net(lines, OfKinds(chart, EARNING))
  {
    if lines != [] {
      NetOfAllKinds(lines[..|lines| - 1], chart);
      OnOneSide(chart(lines[|lines| - 1].account).kind);
    }
  }

  // ---------------------------------------------------------------- grouping

  function NetAt(lines: seq<Line>, account: Id): int {
    Debits(lines, account) - Credits(lines, account)
  }

  function SumAt(accounts: seq<Id>, lines: seq<Line>, keep: Id -> bool): int {
    if accounts == [] then 0
    else
      var last := accounts[|accounts| - 1];
      SumAt(accounts[..|accounts| - 1], lines, keep) + if keep(last) then NetAt(lines, last) else 0
  }

  lemma {:induction false} SumAtNextLine(accounts: seq<Id>, before: seq<Line>, l: Line, keep: Id -> bool)
    requires Distinct(accounts)
    ensures SumAt(accounts, before + [l], keep) ==
            SumAt(accounts, before, keep) + if l.account in accounts && keep(l.account) then l.debit - l.credit else 0
  {
    if accounts != [] {
      var init, last := accounts[..|accounts| - 1], accounts[|accounts| - 1];
      SumAtNextLine(init, before, l, keep);
      assert (before + [l])[..|before|] == before;
      assert accounts == init + [last];
      assert last !in init;
    }
  }

  /** Grouping by account loses nothing, whichever accounts are asked for. */
  lemma {:induction false} GroupingKeepsSums(lines: seq<Line>, keep: Id -> bool)
    ensures SumAt(Accounts(lines), lines, keep) == Net(lines, keep)
  {
    if lines != [] {
      var before, l := lines[..|lines| - 1], lines[|lines| - 1];
      assert lines == before + [l];
      GroupingKeepsSums(before, keep);
      AccountsDistinct(before);
      SumAtNextLine(Accounts(before), before, l, keep);
      if l.account !in Accounts(before) {
        NoLines(before, l.account);
        var accounts := Accounts(lines);
        assert accounts[..|accounts| - 1] == Accounts(before);
        assert Debits(lines, l.account) == l.debit && Credits(lines, l.account) == l.credit;
      }
    }
  }

  lemma {:induction false} SumOfIsSumAt(rows: seq<Row>, lines: seq<Line>, chart: Chart, kinds: set<Kind>)
    requires forall i :: 0 <= i < |rows| ==> rows[i].debit - rows[i].credit == NetAt(lines, rows[i].account)
    ensures SumOf(rows, chart, kinds) == SumAt(AccountsOf(rows), lines, OfKinds(chart, kinds))
  {
    hide NetAt;
    if rows != [] {
      var init := rows[..|rows| - 1];
      SumOfIsSumAt(init, lines, chart, kinds);
      assert AccountsOf(rows)[..|rows| - 1] == AccountsOf(init);
    }
  }

  function AccountsOf(rows: seq<Row>): seq<Id> {
    seq(|rows|, i requires 0 <= i < |rows| => rows[i].account)
  }

  /** A sum over trial-balance rows is the sum over the lines. */
  lemma TrialKeepsSums(lines: seq<Line>, chart: Chart, kinds: set<Kind>)
    ensures SumOf(TrialOf(lines), chart, kinds) == Net(lines, OfKinds(chart, kinds))
  {
    SumOfIsSumAt(TrialOf(lines), lines, chart, kinds);
    assert AccountsOf(TrialOf(lines)) == Accounts(lines);
    GroupingKeepsSums(lines, OfKinds(chart, kinds));
  }

  // ---------------------------------------------------------------- balance sheet

  lemma {:induction false} SheetParts(rows: seq<Row>, chart: Chart)
    ensures SumOf(rows, chart, {Asset}) + SumOf(rows, chart, {Liability}) + SumOf(rows, chart, {Equity}) ==
              SumOf(rows, chart, SHEET)
    ensures Earnings(rows, chart) == -SumOf(rows, chart, EARNING)
    ensures Profit(rows, chart) == -SumOf(rows, chart, EARNING)
  {
    if rows != [] {
      SheetParts(rows[..|rows| - 1], chart);
    }
  }

  /** What the balance sheet is out by is total debits minus total credits. */
  lemma BalanceSheetDifference(journals: seq<Journal>, chart: Chart, asOf: int)
    ensures var lines := LinesIn(journals, EPOCH, asOf);
      BalanceSheet(TrialOf(lines), chart).difference == Net(lines, All())
  {
    var lines := LinesIn(journals, EPOCH, asOf);
    SheetParts(TrialOf(lines), chart);
    TrialKeepsSums(lines, chart, SHEET);
    TrialKeepsSums(lines, chart, EARNING);
    NetOfAllKinds(lines, chart);
    hide TrialOf, SumOf, Earnings, Net;
  }

  // ---------------------------------------------------------------- cash flow

  function Cash(bank: Id): Id -> bool {
    (a: Id) => a == bank
  }

  lemma {:induction false} NetOfSame(lines: seq<Line>, a: Id -> bool, b: Id -> bool)
    requires forall x :: a(x) == b(x)
    ensures Net(lines, a) == Net(lines, b)
  {
    if lines != [] {
      NetOfSame(lines[..|lines| - 1], a, b);
    }
  }

  /** The four totals are all the cash moved in the range. */
  lemma {:induction false} ClassesCoverCash(journals: seq<Journal>, chart: Chart, bank: Id, from: int, to: int)
    ensures CashIn(journals, chart, bank, from, to, Some(Operating))
              + CashIn(journals, chart, bank, from, to, Some(Investing))
            + CashIn(journals, chart, bank, from, to, Some(Financing)) + CashIn(journals, chart, bank, from, to, None)
            == Net(LinesIn(journals, from, to), Cash(bank))
  {
    if journals != [] {
      var init, last := journals[..|journals| - 1], journals[|journals| - 1];
      ClassesCoverCash(init, chart, bank, from, to);
      NetConcat(LinesIn(init, from, to), if InRange(last, from, to) then last.lines else [], Cash(bank));
      NetOfSame(last.lines, (a: Id) => a == bank, Cash(bank));
      assert Net([], Cash(bank)) == 0;
      ClassIsNotNonCash(last, chart, bank);
      hide Class;
    }
  }

  /**
   However the journals are classified, opening cash plus the four totals is the cash account's
   balance at the end of the range, or before it when the range is empty.
   */
  lemma CashFlowCloses(journals: seq<Journal>, chart: Chart, bank: Id, from: int, to: int)
    requires from >= EPOCH
    ensures CashBalance(journals, bank, EPOCH, from - 1)
            + CashIn(journals, chart, bank, from, to, Some(Operating))
                + CashIn(journals, chart, bank, from, to, Some(Investing))
            + CashIn(journals, chart, bank, from, to, Some(Financing)) + CashIn(journals, chart, bank, from, to, None)
            == CashBalance(journals, bank, EPOCH, if to >= from - 1 then to else from - 1)
  {
    ClassesCoverCash(journals, chart, bank, from, to);
    var end := if to >= from - 1 then to else from - 1;
    forall a, b
      ensures Net(LinesIn(journals, a, b), (x: Id) => x == bank) == Net(LinesIn(journals, a, b), Cash(bank))
    {
      NetOfSame(LinesIn(journals, a, b), (x: Id) => x == bank, Cash(bank));
    }
    if to >= from - 1 {
      NetOfRanges(journals, EPOCH, from, to, Cash(bank));
    } else {
      NothingInEmptyRange(journals, from, to);
    }
    hide CashIn, LinesIn;
  }

  lemma {:induction false} NothingInEmptyRange(journals: seq<Journal>, from: int, to: int)
    requires to < from
    ensures LinesIn(journals, from, to) == []
  {
    if journals != [] {
      NothingInEmptyRange(journals[..|journals| - 1], from, to);
    }
  }

  // ---------------------------------------------------------------- rollover

  function SumBalances(balances: seq<Balance>): int {
    if balances == [] then 0 else balances[0].amount + SumBalances(balances[1..])
  }

  lemma {:induction false} SumBalancesAppend(balances: seq<Balance>, b: Balance)
    ensures SumBalances(balances + [b]) == SumBalances(balances) + b.amount
  {
    if balances == [] {
      assert [b][1..] == [];
    } else {
      assert (balances + [b])[1..] == balances[1..] + [b];
      SumBalancesAppend(balances[1..], b);
    }
  }

  lemma {:induction false} SheetBalancesSum(rows: seq<Row>, chart: Chart)
    ensures SumBalances(SheetBalances(rows, chart)) == SumOf(rows, chart, SHEET)
  {
    if rows != [] {
      var init, last := rows[..|rows| - 1], rows[|rows| - 1];
      SheetBalancesSum(init, chart);
      SumBalancesAppend(SheetBalances(init, chart), Balance(last.account, last.debit - last.credit));
      assert SheetBalances(init, chart) + [] == SheetBalances(init, chart);
    }
  }

  lemma {:induction false} RetainSum(balances: seq<Balance>, retained: Id, profit: int)
    ensures SumBalances(Retain(balances, retained, profit)) == SumBalances(balances) - profit
  {
    if balances == [] {
      assert [Balance(retained, -profit)][1..] == [];
    } else if balances[0].account == retained {
      assert ([Balance(retained, balances[0].amount - profit)] + balances[1..])[1..] == balances[1..];
    } else {
      RetainSum(balances[1..], retained, profit);
      assert ([balances[0]] + Retain(balances[1..], retained, profit))[1..] == Retain(balances[1..], retained, profit);
    }
  }

  function OpeningNet(openings: seq<Opening>): int {
    if openings == [] then 0
    else
      var last := openings[|openings| - 1];
      OpeningNet(openings[..|openings| - 1]) + last.debit - last.credit
  }

  lemma {:induction false} OpeningsSum(year: Id, balances: seq<Balance>)
    ensures OpeningNet(OpeningsOf(year, balances)) == SumBalances(balances)
  {
    if balances != [] {
      var init, last := balances[..|balances| - 1], balances[|balances| - 1];
      OpeningsSum(year, init);
      assert balances == init + [last];
      SumBalancesAppend(init, last);
      var openings := OpeningsOf(year, balances);
      assert openings[..|openings| - 1] == OpeningsOf(year, init);
    }
  }

  /**
   Opening debits exceed opening credits by what the books were out by at the end of the source
   year, less what was earned or spent before that year and never rolled over.
   */
  lemma RolloverOpenings(journals: seq<Journal>, chart: Chart, year: FiscalYear, target: Id, retained: Id)
    requires EPOCH <= year.startsOn <= year.endsOn + 1
    ensures OpeningNet(OpeningsOf(target, Snapshot(journals, chart, year, retained))) ==
            Net(LinesIn(journals, EPOCH, year.endsOn), All())
            - Net(LinesIn(journals, EPOCH, year.startsOn - 1), OfKinds(chart, EARNING))
  {
    var all, ofYear := LinesIn(journals, EPOCH, year.endsOn), LinesIn(journals, year.startsOn, year.endsOn);
    var profit := Profit(TrialOf(ofYear), chart);
    OpeningsSum(target, Snapshot(journals, chart, year, retained));
    RetainSum(SheetBalances(TrialOf(all), chart), retained, profit);
    SheetBalancesSum(TrialOf(all), chart);
    SheetParts(TrialOf(ofYear), chart);
    TrialKeepsSums(all, chart, SHEET);
    TrialKeepsSums(ofYear, chart, EARNING);
    NetOfAllKinds(all, chart);
    NetOfRanges(journals, EPOCH, year.startsOn, year.endsOn, OfKinds(chart, EARNING));
    hide TrialOf, SumOf, Net, LinesIn, Retain, SheetBalances, Profit, OpeningNet, OpeningsOf, SumBalances;
  }

  ghost predicate Balances(j: Journal) {
    Net(j.lines, All()) == 0
  }

  lemma {:induction false} BalancedJournals(journals: seq<Journal>, from: int, to: int)
    requires forall i :: 0 <= i < |journals| ==> Balances(journals[i])
    ensures Net(LinesIn(journals, from, to), All()) == 0
  {
    if journals != [] {
      var init, last := journals[..|journals| - 1], journals[|journals| - 1];
      BalancedJournals(init, from, to);
      assert Balances(last);
      NetConcat(LinesIn(init, from, to), if InRange(last, from, to) then last.lines else [], All());
      assert Net([], All()) == 0;
    }
  }

  /** With balanced journals the openings balance exactly when earlier years' postings to profit and loss cancel out. */
  lemma RolloverBalancesIff(journals: seq<Journal>, chart: Chart, year: FiscalYear, target: Id, retained: Id)
    requires EPOCH <= year.startsOn <= year.endsOn + 1
    requires forall i :: 0 <= i < |journals| ==> Balances(journals[i])
    ensures OpeningNet(OpeningsOf(target, Snapshot(journals, chart, year, retained))) == 0 <==>
            Net(LinesIn(journals, EPOCH, year.startsOn - 1), OfKinds(chart, EARNING)) == 0
  {
    RolloverOpenings(journals, chart, year, target, retained);
    BalancedJournals(journals, EPOCH, year.endsOn);
    hide Net, LinesIn, OpeningNet, OpeningsOf, Snapshot;
  }
}
