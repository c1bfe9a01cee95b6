/**
 Financial reports: `trial`, `pnl`, `balanceSheet`, `cashFlow` and the year-end rollover of
 src/modules/finance-reporting/reporting.service.ts. Amounts are in paise, since every column
 they come from holds two decimals; moments are counted in milliseconds.
 */
module Reporting {
  import opened Wrappers

  type Id = string
  type User = string

  datatype Kind = Asset | Liability | Equity | Revenue | CostOfGoodsSold | Expense | OtherIncome | OtherExpense

  datatype Category = Operating | Investing | Financing | NonCash

  datatype Account = Account(kind: Kind, category: Option<Category>)

  /** The account each line refers to, which the tables guarantee is there. */
  type Chart = Id -> Account

  datatype Line = Line(account: Id, debit: int, credit: int)

  datatype Journal = Journal(posted: bool, entryDate: int, lines: seq<Line>)

  datatype Row = Row(account: Id, debit: int, credit: int)

  /** The first of January 2000, from which every balance is counted. */
  const EPOCH: int := 946684800000

  // ---------------------------------------------------------------- lines

  predicate InRange(j: Journal, from: int, to: int) {
    j.posted && from <= j.entryDate <= to
  }

  /** The posted lines dated in the range. */
  function LinesIn(journals: seq<Journal>, from: int, to: int): seq<Line> {
    if journals == [] then []
    else
      var last := journals[|journals| - 1];
      LinesIn(journals[..|journals| - 1], from, to) + if InRange(last, from, to) then last.lines else []
  }

  /** Debits minus credits of the lines whose account is in question. */
  function Net(lines: seq<Line>, keep: Id -> bool): int {
    if lines == [] then 0
    else
      var last := lines[|lines| - 1];
      Net(lines[..|lines| - 1], keep) + if keep(last.account) then last.debit - last.credit else 0
  }

  function Debits(lines: seq<Line>, account: Id): int {
    if lines == [] then 0
    else
      var last := lines[|lines| - 1];
      Debits(lines[..|lines| - 1], account) + if last.account == account then last.debit else 0
  }

  function Credits(lines: seq<Line>, account: Id): int {
    if lines == [] then 0
    else
      var last := lines[|lines| - 1];
      Credits(lines[..|lines| - 1], account) + if last.account == account then last.credit else 0
  }

  // ---------------------------------------------------------------- the trial balance

  /** The accounts of the lines, each at its first appearance. */
  function Accounts(lines: seq<Line>): seq<Id> {
    if lines == [] then []
    else
      var before, account := Accounts(lines[..|lines| - 1]), lines[|lines| - 1].account;
      if account in before then before else before + [account]
  }

  /** One row per account, in order of first appearance, with its debits and credits. */
  function TrialOf(lines: seq<Line>): seq<Row> {
    var accounts := Accounts(lines);
    seq(|accounts|, i requires 0 <= i < |accounts| =>
      Row(accounts[i], Debits(lines, accounts[i]), Credits(lines, accounts[i])))
  }

  lemma {:induction false} NoLines(lines: seq<Line>, account: Id)
    requires account !in Accounts(lines)
    ensures Debits(lines, account) == 0 && Credits(lines, account) == 0
  {
    if lines != [] {
      NoLines(lines[..|lines| - 1], account);
    }
  }

  lemma {:induction false} AccountsDistinct(lines: seq<Line>)
    ensures Distinct(Accounts(lines))
  {
    if lines != [] {
      AccountsDistinct(lines[..|lines| - 1]);
    }
  }

  method FindRow(rows: seq<Row>, account: Id) returns (k: nat)
    ensures k <= |rows|
    ensures k < |rows| ==> rows[k].account == account
    ensures forall i :: 0 <= i < k ==> rows[i].account != account
  {
    k := 0;
    while k < |rows| && rows[k].account != account
      invariant k <= |rows| && forall i :: 0 <= i < k ==> rows[i].account != account
    {
      k := k + 1;
    }
  }

  lemma SumsNext(before: seq<Line>, l: Line, a: Id)
    ensures Debits(before + [l], a) == Debits(before, a) + if l.account == a then l.debit else 0
    ensures Credits(before + [l], a) == Credits(before, a) + if l.account == a then l.credit else 0
    ensures Accounts(before + [l]) == if l.account in Accounts(before) then Accounts(before)
              else Accounts(before) + [l.account]
  {
    assert (before + [l])[..|before|] == before;
  }

  /** One more line for a known account changes its row. */
  lemma TrialNextKnown(before: seq<Line>, l: Line, k: nat)
    requires k < |Accounts(before)| && Accounts(before)[k] == l.account
    ensures var rows := TrialOf(before);
      TrialOf(before + [l]) == rows[k := Row(l.account, rows[k].debit + l.debit, rows[k].credit + l.credit)]
  {
    AccountsDistinct(before);
    hide Debits, Credits, Accounts;
    forall i | 0 <= i < |Accounts(before)|
      ensures Debits(before + [l], Accounts(before)[i]) == Debits(before, Accounts(before)[i])
                + if i == k then l.debit else 0
      ensures Credits(before + [l], Accounts(before)[i]) == Credits(before, Accounts(before)[i])
                + if i == k then l.credit else 0
    {
      SumsNext(before, l, Accounts(before)[i]);
    }
    SumsNext(before, l, l.account);
  }

  /** For a new one it adds a row. */
  lemma TrialNextNew(before: seq<Line>, l: Line)
    requires l.account !in Accounts(before)
    ensures TrialOf(before + [l]) == TrialOf(before) + [Row(l.account, l.debit, l.credit)]
  {
    NoLines(before, l.account);
    hide Debits, Credits, Accounts;
    forall i | 0 <= i < |Accounts(before)|
      ensures Debits(before + [l], Accounts(before)[i]) == Debits(before, Accounts(before)[i])
      ensures Credits(before + [l], Accounts(before)[i]) == Credits(before, Accounts(before)[i])
    {
      SumsNext(before, l, Accounts(before)[i]);
    }
    SumsNext(before, l, l.account);
  }

  method AddLine(rows: seq<Row>, l: Line, ghost before: seq<Line>) returns (next: seq<Row>)
    requires rows == TrialOf(before)
    ensures next == TrialOf(before + [l])
  {
    hide Debits, Credits, Accounts;
    var k := FindRow(rows, l.account);
    assert forall i :: 0 <= i < |rows| ==> rows[i].account == Accounts(before)[i];
    if k < |rows| {
      TrialNextKnown(before, l, k);
      next := rows[k := Row(l.account, rows[k].debit + l.debit, rows[k].credit + l.credit)];
    } else {
      TrialNextNew(before, l);
      next := rows + [Row(l.account, l.debit, l.credit)];
    }
  }

  /** The loop over the posted lines of the range. */
  method Trial(journals: seq<Journal>, from: int, to: int) returns (rows: seq<Row>)
    ensures rows == TrialOf(LinesIn(journals, from, to))
  {
    var lines := LinesIn(journals, from, to);
    rows := [];
    for i := 0 to |lines|
      invariant rows == TrialOf(lines[..i])
    {
      assert lines[..i + 1] == lines[..i] + [lines[i]];
      rows := AddLine(rows, lines[i], lines[..i]);
    }
    assert lines[..|lines|] == lines;
  }

  /** Debits minus credits of the rows of the kinds. */
  function SumOf(rows: seq<Row>, chart: Chart, kinds: set<Kind>): int {
    if rows == [] then 0
    else
      var last := rows[|rows| - 1];
      SumOf(rows[..|rows| - 1], chart, kinds)
          + if chart(last.account).kind in kinds then last.debit - last.credit else 0
  }

  // ---------------------------------------------------------------- profit and loss, balance sheet

  function Profit(rows: seq<Row>, chart: Chart): int {
    var revenue, cogs, expenses := -SumOf(rows, chart, {Revenue}), SumOf(rows, chart, {CostOfGoodsSold}),
        SumOf(rows, chart, {Expense});
    var otherIncome, otherExpenses := -SumOf(rows, chart, {OtherIncome}), SumOf(rows, chart, {OtherExpense});
    revenue - cogs - expenses + otherIncome - otherExpenses
  }

  datatype Sheet = Sheet(assets: int, liabilities: int, equity: int, difference: int)

  /** What the rows say has been earned, over all years. */
  function Earnings(rows: seq<Row>, chart: Chart): int {
    if rows == [] then 0
    else
      var last := rows[|rows| - 1];
      var kind := chart(last.account).kind;
      Earnings(rows[..|rows| - 1], chart) +
      if kind.Revenue? || kind.OtherIncome? then last.credit - last.debit
      else if kind.CostOfGoodsSold? || kind.Expense? || kind.OtherExpense? then -(last.debit - last.credit)
      else 0
  }

  function BalanceSheet(rows: seq<Row>, chart: Chart): Sheet {
    var assets, liabilities := SumOf(rows, chart, {Asset}), -SumOf(rows, chart, {Liability});
    var equity := -SumOf(rows, chart, {Equity}) + Earnings(rows, chart);
    Sheet(assets, liabilities, equity, assets - liabilities - equity)
  }

  // ---------------------------------------------------------------- cash flow

  datatype Totals = Totals(operating: int, investing: int, financing: int, unclassified: int)

  /** The categories of the journal's other lines, cash aside. */
  function Categories(j: Journal, chart: Chart, bank: Id): set<Category> {
    set l | l in j.lines && l.account != bank && chart(l.account).category.Some?
            && !chart(l.account).category.value.NonCash? :: chart(l.account).category.value
  }

  /** The one category the journal has, if it has just one. */
  function Class(j: Journal, chart: Chart, bank: Id): Option<Category> {
    var categories := Categories(j, chart, bank);
    if categories == {Operating} then Some(Operating)
    else if categories == {Investing} then Some(Investing)
    else if categories == {Financing} then Some(Financing)
    else None
  }

  function CashOf(j: Journal, bank: Id): int {
    Net(j.lines, (a: Id) => a == bank)
  }

  /** The cash moved in the range by journals of this class. */
  function CashIn(journals: seq<Journal>, chart: Chart, bank: Id, from: int, to: int, cat: Option<Category>): int {
    if journals == [] then 0
    else
      var last := journals[|journals| - 1];
      CashIn(journals[..|journals| - 1], chart, bank, from, to, cat) +
      if InRange(last, from, to) && Class(last, chart, bank) == cat then CashOf(last, bank) else 0
  }

  function CashBalance(journals: seq<Journal>, bank: Id, from: int, to: int): int {
    Net(LinesIn(journals, from, to), (a: Id) => a == bank)
  }

  datatype CashFlow = CashFlow(opening: int, totals: Totals, netChange: int, closing: int)

  /** The loop over the range's journals, skipping those that move no cash. */
  method CashFlowReport(journals: seq<Journal>, chart: Chart, bank: Id, from: int, to: int) returns (report: CashFlow)
    ensures report.totals == Totals(
      CashIn(journals, chart, bank, from, to, Some(Operating)),
          CashIn(journals, chart, bank, from, to, Some(Investing)),
      CashIn(journals, chart, bank, from, to, Some(Financing)), CashIn(journals, chart, bank, from, to, None))
    ensures report.netChange ==
      report.totals.operating + report.totals.investing + report.totals.financing + report.totals.unclassified
    ensures report.opening == CashBalance(journals, bank, EPOCH, from - 1)
    ensures report.closing == report.opening + report.netChange
  {
    var totals := Totals(0, 0, 0, 0);
    for i := 0 to |journals|
      invariant totals.operating == CashIn(journals[..i], chart, bank, from, to, Some(Operating))
      invariant totals.investing == CashIn(journals[..i], chart, bank, from, to, Some(Investing))
      invariant totals.financing == CashIn(journals[..i], chart, bank, from, to, Some(Financing))
      invariant totals.unclassified == CashIn(journals[..i], chart, bank, from, to, None)
    {
      assert journals[..i + 1][..i] == journals[..i];
      var j := journals[i];
      ClassIsNotNonCash(j, chart, bank);
      hide Class, CashOf;
      if InRange(j, from, to) {
        var cash := CashOf(j, bank);
        if cash != 0 {
          match Class(j, chart, bank)
          case Some(Operating) => totals := totals.(operating := totals.operating + cash);
          case Some(Investing) => totals := totals.(investing := totals.investing + cash);
          case Some(Financing) => totals := totals.(financing := totals.financing + cash);
          case _ => totals := totals.(unclassified := totals.unclassified + cash);
        }
      }
    }
    assert journals[..|journals|] == journals;
    var opening := CashBalance(journals, bank, EPOCH, from - 1);
    var net := totals.operating + totals.investing + totals.financing + totals.unclassified;
    return CashFlow(opening, totals, net, opening + net);
  }

  lemma ClassIsNotNonCash(j: Journal, chart: Chart, bank: Id)
    ensures Class(j, chart, bank) != Some(NonCash)
  {
  }

  /** The class is a category exactly when it is the only one. */
  lemma ClassIsTheOnlyCategory(j: Journal, chart: Chart, bank: Id, cat: Category)
    ensures Class(j, chart, bank) == Some(cat) <==> Categories(j, chart, bank) == {cat}
  {
  }

  // ---------------------------------------------------------------- year-end rollover

  datatype FiscalYear = FiscalYear(startsOn: int, endsOn: int, periodsClosed: seq<bool>, closed: bool)

  datatype Balance = Balance(account: Id, amount: int)

  datatype Status = Draft | PendingApproval | Completed

  datatype Rollover = Rollover(source: Id, target: Id, snapshot: seq<Balance>, createdBy: User, status: Status)

  datatype Opening = Opening(year: Id, account: Id, debit: int, credit: int)

  datatype Store = Store(years: map<Id, FiscalYear>, rollovers: seq<Rollover>, openings: seq<Opening>)

  datatype Error = NotFound | BadRequest | Conflict

  predicate OnSheet(kind: Kind) {
    kind.Asset? || kind.Liability? || kind.Equity?
  }

  /** The balances of the balance-sheet rows. */
  function SheetBalances(rows: seq<Row>, chart: Chart): seq<Balance> {
    if rows == [] then []
    else
      var last := rows[|rows| - 1];
      SheetBalances(rows[..|rows| - 1], chart) +
      if OnSheet(chart(last.account).kind) then [Balance(last.account, last.debit - last.credit)] else []
  }

  /** The year's profit goes to retained earnings, into its row when it has one. */
  function Retain(balances: seq<Balance>, retained: Id, profit: int): seq<Balance> {
    if balances == [] then [Balance(retained, -profit)]
    else if balances[0].account == retained then [Balance(retained, balances[0].amount - profit)] + balances[1..]
    else [balances[0]] + Retain(balances[1..], retained, profit)
  }

  function Snapshot(journals: seq<Journal>, chart: Chart, year: FiscalYear, retained: Id): seq<Balance> {
    var profit := Profit(TrialOf(LinesIn(journals, year.startsOn, year.endsOn)), chart);
    Retain(SheetBalances(TrialOf(LinesIn(journals, EPOCH, year.endsOn)), chart), retained, profit)
  }

  function OpeningOf(year: Id, b: Balance): Opening {
    Opening(year, b.account, if b.amount > 0 then b.amount else 0, if b.amount < 0 then -b.amount else 0)
  }

  function OpeningsOf(year: Id, balances: seq<Balance>): seq<Opening> {
    if balances == [] then []
    else OpeningsOf(year, balances[..|balances| - 1]) + [OpeningOf(year, balances[|balances| - 1])]
  }

  predicate ReadyToClose(y: FiscalYear) {
    |y.periodsClosed| == 12 && forall i :: 0 <= i < 12 ==> y.periodsClosed[i]
  }

  /** A source year is rolled over once: its id is unique in the table. */
  function Create(s: Store, journals: seq<Journal>, chart: Chart, source: Id, target: Id, retained: Option<Id>,
      user: User)
    : Result<Store, Error>
  {
    if source !in s.years || target !in s.years || retained.None? then Failure(NotFound)
    else if !ReadyToClose(s.years[source]) ||
        s.years[target].startsOn <= s.years[source].endsOn then Failure(BadRequest)
    else if exists i :: 0 <= i < |s.rollovers| && s.rollovers[i].source == source then Failure(Conflict)
    else
      var snapshot := Snapshot(journals, chart, s.years[source], retained.value);
      Success(s.(rollovers := s.rollovers + [Rollover(source, target, snapshot, user, Draft)]))
  }

  function Submit(s: Store, id: nat): Result<Store, Error> {
    if id >= |s.rollovers| then Failure(NotFound)
    else if !s.rollovers[id].status.Draft? then Failure(BadRequest)
    else Success(s.(rollovers := s.rollovers[id := s.rollovers[id].(status := PendingApproval)]))
  }

  /** Some account would get a second opening balance for the year. */
  predicate AlreadyOpened(openings: seq<Opening>, more: seq<Opening>) {
    exists i, j :: 0 <= i < |openings| && 0 <= j < |more| && openings[i].year == more[j].year &&
        openings[i].account == more[j].account
  }

  function Approve(s: Store, id: nat, user: User): Result<Store, Error> {
    if id >= |s.rollovers| then Failure(NotFound)
    else
      var x := s.rollovers[id];
      if !x.status.PendingApproval? || x.createdBy == user then Failure(BadRequest)
      else if AlreadyOpened(s.openings, OpeningsOf(x.target, x.snapshot)) then Failure(Conflict)
      else Success(Store(
        if x.source in s.years then s.years[x.source := s.years[x.source].(closed := true)] else s.years,
        s.rollovers[id := x.(status := Completed)],
        s.openings + OpeningsOf(x.target, x.snapshot)))
  }

  class ReportingService {
    var years: map<Id, FiscalYear>
    var rollovers: seq<Rollover>
    var openings: seq<Opening>

    constructor (years: map<Id, FiscalYear>)
      ensures State() == Store(years, [], [])
    {
      this.years, rollovers, openings := years, [], [];
    }

    function State(): Store
      reads this
    {
      Store(years, rollovers, openings)
    }

    method CreateRollover(journals: seq<Journal>, chart: Chart, source: Id, target: Id, retained: Option<Id>,
        user: User)
      returns (outcome: Outcome<Error>)
      modifies this
      ensures Follows(old(State()), State(), outcome,
                Create(old(State()), journals, chart, source, target, retained, user))
    {
      if source !in years || target !in years || retained.None? {
        return Fail(NotFound);
      }
      if !ReadyToClose(years[source]) {
        return Fail(BadRequest);
      }
      if years[target].startsOn <= years[source].endsOn {
        return Fail(BadRequest);
      }
      var trial := Trial(journals, EPOCH, years[source].endsOn);
      var ofYear := Trial(journals, years[source].startsOn, years[source].endsOn);
      if exists i :: 0 <= i < |rollovers| && rollovers[i].source == source {
        return Fail(Conflict);
      }
      var snapshot := Retain(SheetBalances(trial, chart), retained.value, Profit(ofYear, chart));
      rollovers := rollovers + [Rollover(source, target, snapshot, user, Draft)];
      return Pass;
    }

    method SubmitRollover(id: nat) returns (outcome: Outcome<Error>)
      modifies this
      ensures Follows(old(State()), State(), outcome, Submit(old(State()), id))
    {
      if id >= |rollovers| {
        return Fail(NotFound);
      }
      if !rollovers[id].status.Draft? {
        return Fail(BadRequest);
      }
      rollovers := rollovers[id := rollovers[id].(status := PendingApproval)];
      return Pass;
    }

    method ApproveRollover(id: nat, user: User) returns (outcome: Outcome<Error>)
      modifies this
      ensures Follows(old(State()), State(), outcome, Approve(old(State()), id, user))
    {
      if id >= |rollovers| {
        return Fail(NotFound);
      }
      var x := rollovers[id];
      if !x.status.PendingApproval? || x.createdBy == user {
        return Fail(BadRequest);
      }
      var data := OpeningsOf(x.target, x.snapshot);
      if AlreadyOpened(openings, data) {
        return Fail(Conflict);
      }
      openings := openings + data;
      if x.source in years {
        years := years[x.source := years[x.source].(closed := true)];
      }
      rollovers := rollovers[id := x.(status := Completed)];
      return Pass;
    }
  }
}
