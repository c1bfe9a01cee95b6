/** What each report says, summed directly over the posted journals. */
module ReportMeaning {
  import opened Wrappers
  import opened Reporting
  import opened ReportingLaws

  // ---------------------------------------------------------------- sums over journals

  function DebitsOf(lines: seq<Line>, keep: Id -> bool): int {
    if lines == [] then 0 else (if keep(lines[0].account) then lines[0].debit else 0) + DebitsOf(lines[1..], keep)
  }

  function CreditsOf(lines: seq<Line>, keep: Id -> bool): int {
    if lines == [] then 0 else (if keep(lines[0].account) then lines[0].credit else 0) + CreditsOf(lines[1..], keep)
  }

  predicate Counts(j: Journal, from: int, to: int) {
    j.posted && from <= j.entryDate && j.entryDate <= to
  }

  /** Debits of the posted journals dated in the range, on the accounts in question. */
  function Debited(journals: seq<Journal>, from: int, to: int, keep: Id -> bool): int {
    if journals == [] then 0
    else (if Counts(journals[0], from, to) then DebitsOf(journals[0].lines, keep) else 0)
         + Debited(journals[1..], from, to, keep)
  }

  function Credited(journals: seq<Journal>, from: int, to: int, keep: Id -> bool): int {
    if journals == [] then 0
    else (if Counts(journals[0], from, to) then CreditsOf(journals[0].lines, keep) else 0)
         + Credited(journals[1..], from, to, keep)
  }

  /** Debits less credits. */
  function Moved(journals: seq<Journal>, from: int, to: int, keep: Id -> bool): int {
    Debited(journals, from, to, keep) - Credited(journals, from, to, keep)
  }

  lemma {:induction false} SidesAppend(lines: seq<Line>, l: Line, keep: Id -> bool)
    ensures DebitsOf(lines + [l], keep) == DebitsOf(lines, keep) + if keep(l.account) then l.debit else 0
    ensures CreditsOf(lines + [l], keep) == CreditsOf(lines, keep) + if keep(l.account) then l.credit else 0
  {
    if lines == [] {
      assert [l][1..] == [];
    } else {
      assert (lines + [l])[1..] == lines[1..] + [l];
      SidesAppend(lines[1..], l, keep);
    }
  }

  lemma {:induction false} NetIs(lines: seq<Line>, keep: Id -> bool)
    ensures Net(lines, keep) == DebitsOf(lines, keep) - CreditsOf(lines, keep)
  {
    if lines != [] {
      var init, last := lines[..|lines| - 1], lines[|lines| - 1];
      NetIs(init, keep);
      SidesAppend(init, last, keep);
      assert lines == init + [last];
    }
  }

  lemma {:induction false} SidesConcat(a: seq<Line>, b: seq<Line>, keep: Id -> bool)
    ensures DebitsOf(a + b, keep) == DebitsOf(a, keep) + DebitsOf(b, keep)
    ensures CreditsOf(a + b, keep) == CreditsOf(a, keep) + CreditsOf(b, keep)
  {
    if a == [] {
      assert a + b == b;
    } else {
      assert (a + b)[1..] == a[1..] + b;
      SidesConcat(a[1..], b, keep);
    }
  }

  lemma {:induction false} JournalsAppend(journals: seq<Journal>, j: Journal, from: int, to: int, keep: Id -> bool)
    ensures Debited(journals + [j], from, to, keep) ==
            Debited(journals, from, to, keep) + if Counts(j, from, to) then DebitsOf(j.lines, keep) else 0
    ensures Credited(journals + [j], from, to, keep) ==
            Credited(journals, from, to, keep) + if Counts(j, from, to) then CreditsOf(j.lines, keep) else 0
  {
    if journals == [] {
      assert [j][1..] == [];
    } else {
      assert (journals + [j])[1..] == journals[1..] + [j];
      JournalsAppend(journals[1..], j, from, to, keep);
    }
  }

  lemma {:induction false} LinesInAre(journals: seq<Journal>, from: int, to: int, keep: Id -> bool)
    ensures DebitsOf(LinesIn(journals, from, to), keep) == Debited(journals, from, to, keep)
    ensures CreditsOf(LinesIn(journals, from, to), keep) == Credited(journals, from, to, keep)
  {
    if journals != [] {
      var init, last := journals[..|journals| - 1], journals[|journals| - 1];
      LinesInAre(init, from, to, keep);
      JournalsAppend(init, last, from, to, keep);
      assert journals == init + [last];
      SidesConcat(LinesIn(init, from, to), if InRange(last, from, to) then last.lines else [], keep);
    }
  }

  lemma NetIsMoved(journals: seq<Journal>, from: int, to: int, keep: Id -> bool)
    ensures Net(LinesIn(journals, from, to), keep) == Moved(journals, from, to, keep)
  {
    NetIs(LinesIn(journals, from, to), keep);
    LinesInAre(journals, from, to, keep);
  }

  // ---------------------------------------------------------------- the trial balance

  function Only(account: Id): Id -> bool {
    (a: Id) => a == account
  }

  lemma {:induction false} SidesOfOne(lines: seq<Line>, account: Id)
    ensures Reporting.Debits(lines, account) == DebitsOf(lines, Only(account))
    ensures Reporting.Credits(lines, account) == CreditsOf(lines, Only(account))
  {
    if lines != [] {
      var init, last := lines[..|lines| - 1], lines[|lines| - 1];
      SidesOfOne(init, account);
      SidesAppend(init, last, Only(account));
      assert lines == init + [last];
    }
  }

  ghost predicate HasLine(lines: seq<Line>, account: Id) {
    exists k :: 0 <= k < |lines| && lines[k].account == account
  }

  /** A posted line of the range is on the account. */
  ghost predicate Touched(journals: seq<Journal>, from: int, to: int, account: Id) {
    exists i :: 0 <= i < |journals| && Counts(journals[i], from, to) && HasLine(journals[i].lines, account)
  }

  lemma HasLineConcat(a: seq<Line>, b: seq<Line>, account: Id)
    ensures HasLine(a + b, account) <==> HasLine(a, account) || HasLine(b, account)
  {
    assert forall k :: 0 <= k < |a| ==> (a + b)[k] == a[k];
    assert forall k :: 0 <= k < |b| ==> (a + b)[|a| + k] == b[k];
  }

  lemma {:induction false} AccountsAre(lines: seq<Line>, account: Id)
    ensures account in Accounts(lines) <==> HasLine(lines, account)
  {
    if lines != [] {
      var init, last := lines[..|lines| - 1], lines[|lines| - 1];
      AccountsAre(init, account);
      HasLineConcat(init, [last], account);
      assert lines == init + [last] && [last][0] == last;
    }
  }

  lemma TouchedNext(journals: seq<Journal>, j: Journal, from: int, to: int, account: Id)
    ensures Touched(journals + [j], from, to, account) <==>
            Touched(journals, from, to, account) || (Counts(j, from, to) && HasLine(j.lines, account))
  {
    hide HasLine;
    assert forall i :: 0 <= i < |journals| ==> (journals + [j])[i] == journals[i];
    assert (journals + [j])[|journals|] == j;
  }

  lemma {:induction false} LinesTouch(journals: seq<Journal>, from: int, to: int, account: Id)
    ensures HasLine(LinesIn(journals, from, to), account) <==> Touched(journals, from, to, account)
  {
    if journals != [] {
      var init, last := journals[..|journals| - 1], journals[|journals| - 1];
      LinesTouch(init, from, to, account);
      TouchedNext(init, last, from, to, account);
      assert journals == init + [last];
      HasLineConcat(LinesIn(init, from, to), if InRange(last, from, to) then last.lines else [], account);
    }
  }

  /** One row for each account with a posted line in the range, with all its debits and all its credits. */
  lemma TrialRows(journals: seq<Journal>, from: int, to: int, account: Id)
    ensures var rows := TrialOf(LinesIn(journals, from, to));
      && (forall i, j :: 0 <= i < j < |rows| ==> rows[i].account != rows[j].account)
      && ((exists i :: 0 <= i < |rows| && rows[i].account == account) <==> Touched(journals, from, to, account))
      && forall i :: 0 <= i < |rows| && rows[i].account == account ==>
           && rows[i].debit == Debited(journals, from, to, Only(account))
           && rows[i].credit == Credited(journals, from, to, Only(account))
  {
    var lines := LinesIn(journals, from, to);
    AccountsDistinct(lines);
    AccountsAre(lines, account);
    LinesTouch(journals, from, to, account);
    SidesOfOne(lines, account);
    LinesInAre(journals, from, to, Only(account));
    hide Touched, HasLine, Reporting.Debits, Reporting.Credits, Debited, Credited, LinesIn, DebitsOf, CreditsOf;
    if account in Accounts(lines) {
      var i :| 0 <= i < |Accounts(lines)| && Accounts(lines)[i] == account;
      assert TrialOf(lines)[i].account == account;
    }
    hide Accounts;
  }

  // ---------------------------------------------------------------- profit and loss, balance sheet

  function OfKind(chart: Chart, kind: Kind): Id -> bool {
    (a: Id) => chart(a).kind == kind
  }

  /** Neither an asset nor a liability nor equity. */
  function Earning(chart: Chart): Id -> bool {
    (a: Id) => !chart(a).kind.Asset? && !chart(a).kind.Liability? && !chart(a).kind.Equity?
  }

  lemma SumOfKind(journals: seq<Journal>, chart: Chart, from: int, to: int, kind: Kind)
    ensures SumOf(TrialOf(LinesIn(journals, from, to)), chart, {kind}) ==
            Moved(journals, from, to, OfKind(chart, kind))
  {
    var lines := LinesIn(journals, from, to);
    TrialKeepsSums(lines, chart, {kind});
    NetOfSame(lines, OfKinds(chart, {kind}), OfKind(chart, kind));
    NetIsMoved(journals, from, to, OfKind(chart, kind));
  }

  lemma SumOfEarning(journals: seq<Journal>, chart: Chart, from: int, to: int)
    ensures SumOf(TrialOf(LinesIn(journals, from, to)), chart, EARNING) ==
            Moved(journals, from, to, Earning(chart))
  {
    var lines := LinesIn(journals, from, to);
    TrialKeepsSums(lines, chart, EARNING);
    forall a
      ensures OfKinds(chart, EARNING)(a) == Earning(chart)(a)
    {
      OnOneSide(chart(a).kind);
    }
    NetOfSame(lines, OfKinds(chart, EARNING), Earning(chart));
    NetIsMoved(journals, from, to, Earning(chart));
  }

  /** Profit is credits less debits on the accounts that earn. */
  lemma ProfitIs(journals: seq<Journal>, chart: Chart, from: int, to: int)
    ensures Profit(TrialOf(LinesIn(journals, from, to)), chart) == -Moved(journals, from, to, Earning(chart))
  {
    SheetParts(TrialOf(LinesIn(journals, from, to)), chart);
    SumOfEarning(journals, chart, from, to);
  }

  /** The sheet, kind by kind, with everything earned up to the day in equity. */
  lemma SheetIs(journals: seq<Journal>, chart: Chart, asOf: int)
    ensures var sheet := BalanceSheet(TrialOf(LinesIn(journals, EPOCH, asOf)), chart);
      && sheet.assets == Moved(journals, EPOCH, asOf, OfKind(chart, Asset))
      && sheet.liabilities == -Moved(journals, EPOCH, asOf, OfKind(chart, Liability))
      && sheet.equity ==
           -Moved(journals, EPOCH, asOf, OfKind(chart, Equity)) - Moved(journals, EPOCH, asOf, Earning(chart))
      && sheet.difference == sheet.assets - sheet.liabilities - sheet.equity
  {
    var rows := TrialOf(LinesIn(journals, EPOCH, asOf));
    SheetParts(rows, chart);
    SumOfKind(journals, chart, EPOCH, asOf, Asset);
    SumOfKind(journals, chart, EPOCH, asOf, Liability);
    SumOfKind(journals, chart, EPOCH, asOf, Equity);
    SumOfEarning(journals, chart, EPOCH, asOf);
    hide TrialOf, SumOf, Moved, Earnings, LinesIn;
  }

  // ---------------------------------------------------------------- cash flow

  /** A line that is not cash is in the category, which is a cash category. */
  predicate InCategory(l: Line, chart: Chart, bank: Id, cat: Category) {
    l.account != bank && chart(l.account).category == Some(cat) && cat != NonCash
  }

  /** Some line is in the category, and none in another. */
  predicate IsOf(j: Journal, chart: Chart, bank: Id, cat: Category) {
    && (exists k :: 0 <= k < |j.lines| && InCategory(j.lines[k], chart, bank, cat))
    && forall other, k :: 0 <= k < |j.lines| && InCategory(j.lines[k], chart, bank, other) ==> other == cat
  }

  lemma ClassIs(j: Journal, chart: Chart, bank: Id, cat: Category)
    ensures Class(j, chart, bank) == Some(cat) <==> IsOf(j, chart, bank, cat)
  {
    ClassIsTheOnlyCategory(j, chart, bank, cat);
    var categories := Categories(j, chart, bank);
    forall c
      ensures c in categories <==> exists k :: 0 <= k < |j.lines| && InCategory(j.lines[k], chart, bank, c)
    {
    }
    hide Categories, InCategory, Class;
    if IsOf(j, chart, bank, cat) {
      assert cat in categories && forall c :: c in categories ==> c == cat;
      assert categories == {cat};
    }
    if categories == {cat} {
      assert cat in categories;
      forall other, k | 0 <= k < |j.lines| && InCategory(j.lines[k], chart, bank, other)
        ensures other == cat
      {
        assert other in categories;
      }
    }
  }

  /** The journal has no one cash category. */
  predicate IsMixed(j: Journal, chart: Chart, bank: Id) {
    forall cat :: !IsOf(j, chart, bank, cat)
  }

  /** Cash moved in the range by journals of one category, or by those of none or several. */
  function CashMoved(journals: seq<Journal>, chart: Chart, bank: Id, from: int, to: int, cat: Option<Category>): int {
    if journals == [] then 0
    else
      var j := journals[|journals| - 1];
      var of := if cat.Some? then IsOf(j, chart, bank, cat.value) else IsMixed(j, chart, bank);
      CashMoved(journals[..|journals| - 1], chart, bank, from, to, cat)
      + if of && Counts(j, from, to) then DebitsOf(j.lines, Only(bank)) - CreditsOf(j.lines, Only(bank)) else 0
  }

  lemma {:induction false} CashInIs(
    journals: seq<Journal>, chart: Chart, bank: Id, from: int, to: int, cat: Option<Category>)
    ensures CashIn(journals, chart, bank, from, to, cat) == CashMoved(journals, chart, bank, from, to, cat)
  {
    if journals != [] {
      var j := journals[|journals| - 1];
      CashInIs(journals[..|journals| - 1], chart, bank, from, to, cat);
      forall c
        ensures Class(j, chart, bank) == Some(c) <==> IsOf(j, chart, bank, c)
      {
        ClassIs(j, chart, bank, c);
      }
      NetOfSame(j.lines, (a: Id) => a == bank, Only(bank));
      NetIs(j.lines, Only(bank));
      hide Class, IsOf, Net, DebitsOf, CreditsOf;
    }
  }

  // ---------------------------------------------------------------- opening balances

  /** What the openings say of one account. */
  function OpeningFor(openings: seq<Opening>, account: Id): int {
    if openings == [] then 0
    else
      var last := openings[|openings| - 1];
      OpeningFor(openings[..|openings| - 1], account) + if last.account == account then last.debit - last.credit else 0
  }

  function BalanceFor(balances: seq<Balance>, account: Id): int {
    if balances == [] then 0
    else (if balances[0].account == account then balances[0].amount else 0) + BalanceFor(balances[1..], account)
  }

  lemma {:induction false} BalanceForAppend(balances: seq<Balance>, b: Balance, account: Id)
    ensures BalanceFor(balances + [b], account) ==
            BalanceFor(balances, account) + if b.account == account then b.amount else 0
  {
    if balances == [] {
      assert [b][1..] == [];
    } else {
      assert (balances + [b])[1..] == balances[1..] + [b];
      BalanceForAppend(balances[1..], b, account);
    }
  }

  lemma {:induction false} OpeningsFor(year: Id, balances: seq<Balance>, account: Id)
    ensures OpeningFor(OpeningsOf(year, balances), account) == BalanceFor(balances, account)
  {
    if balances != [] {
      var init, last := balances[..|balances| - 1], balances[|balances| - 1];
      OpeningsFor(year, init, account);
      assert balances == init + [last];
      BalanceForAppend(init, last, account);
      var openings := OpeningsOf(year, balances);
      assert openings[..|openings| - 1] == OpeningsOf(year, init);
    }
  }

  predicate OneSidedIn(o: Opening, year: Id) {
    o.year == year && o.debit >= 0 && o.credit >= 0 && (o.debit == 0 || o.credit == 0)
  }

  lemma {:induction false} OpeningsOneSided(year: Id, balances: seq<Balance>)
    ensures forall o :: o in OpeningsOf(year, balances) ==> OneSidedIn(o, year)
  {
    if balances != [] {
      OpeningsOneSided(year, balances[..|balances| - 1]);
    }
  }

  lemma {:induction false} RetainFor(balances: seq<Balance>, retained: Id, profit: int, account: Id)
    ensures BalanceFor(Retain(balances, retained, profit), account) ==
            BalanceFor(balances, account) - if account == retained then profit else 0
  {
    if balances == [] {
      assert [Balance(retained, -profit)][1..] == [];
    } else if balances[0].account == retained {
      assert ([Balance(retained, balances[0].amount - profit)] + balances[1..])[1..] == balances[1..];
    } else {
      RetainFor(balances[1..], retained, profit, account);
      assert ([balances[0]] + Retain(balances[1..], retained, profit))[1..] == Retain(balances[1..], retained, profit);
    }
  }

  function RowNet(rows: seq<Row>, account: Id): int {
    if rows == [] then 0
    else
      var last := rows[|rows| - 1];
      RowNet(rows[..|rows| - 1], account) + if last.account == account then last.debit - last.credit else 0
  }

  predicate OnBalanceSheet(chart: Chart, account: Id) {
    chart(account).kind.Asset? || chart(account).kind.Liability? || chart(account).kind.Equity?
  }

  lemma {:induction false} SheetFor(rows: seq<Row>, chart: Chart, account: Id)
    ensures BalanceFor(SheetBalances(rows, chart), account) ==
            if OnBalanceSheet(chart, account) then RowNet(rows, account) else 0
  {
    if rows != [] {
      var init, last := rows[..|rows| - 1], rows[|rows| - 1];
      SheetFor(init, chart, account);
      BalanceForAppend(SheetBalances(init, chart), Balance(last.account, last.debit - last.credit), account);
      assert SheetBalances(init, chart) + [] == SheetBalances(init, chart);
    }
  }

  lemma {:induction false} RowNetIs(rows: seq<Row>, lines: seq<Line>, account: Id)
    requires forall i :: 0 <= i < |rows| ==> rows[i].debit - rows[i].credit == NetAt(lines, rows[i].account)
    ensures RowNet(rows, account) == SumAt(AccountsOf(rows), lines, Only(account))
  {
    hide NetAt;
    if rows != [] {
      var init := rows[..|rows| - 1];
      RowNetIs(init, lines, account);
      assert AccountsOf(rows)[..|rows| - 1] == AccountsOf(init);
    }
  }

  lemma TrialRowNet(journals: seq<Journal>, from: int, to: int, account: Id)
    ensures RowNet(TrialOf(LinesIn(journals, from, to)), account) == Moved(journals, from, to, Only(account))
  {
    var lines := LinesIn(journals, from, to);
    RowNetIs(TrialOf(lines), lines, account);
    assert AccountsOf(TrialOf(lines)) == Accounts(lines);
    GroupingKeepsSums(lines, Only(account));
    NetIsMoved(journals, from, to, Only(account));
  }

  /**
   The openings of a rollover, account by account: what the books hold on it at the end of the source
   year if it is on the balance sheet, and on retained earnings the source year's profit as well.
   */
  lemma OpeningsAre(journals: seq<Journal>, chart: Chart, year: FiscalYear, target: Id, retained: Id, account: Id)
    ensures var openings := OpeningsOf(target, Snapshot(journals, chart, year, retained));
      && (forall o :: o in openings ==> OneSidedIn(o, target))
      && OpeningFor(openings, account) ==
           (if OnBalanceSheet(chart, account) then Moved(journals, EPOCH, year.endsOn, Only(account)) else 0)
           + (if account == retained then Moved(journals, year.startsOn, year.endsOn, Earning(chart)) else 0)
  {
    var rows := TrialOf(LinesIn(journals, EPOCH, year.endsOn));
    var profit := Profit(TrialOf(LinesIn(journals, year.startsOn, year.endsOn)), chart);
    OpeningsFor(target, Snapshot(journals, chart, year, retained), account);
    OpeningsOneSided(target, Snapshot(journals, chart, year, retained));
    RetainFor(SheetBalances(rows, chart), retained, profit, account);
    SheetFor(rows, chart, account);
    TrialRowNet(journals, EPOCH, year.endsOn, account);
    ProfitIs(journals, chart, year.startsOn, year.endsOn);
    hide TrialOf, LinesIn, Moved, Profit, Retain, SheetBalances, OpeningsOf, OpeningFor, BalanceFor, RowNet,
      OneSidedIn;
  }

  // ---------------------------------------------------------------- the rollover's steps

  /** A rollover is entered exactly for a closed-out year, not rolled over yet, and a later one. */
  lemma RolloverEnters(s: Store, journals: seq<Journal>, chart: Chart, source: Id, target: Id, retained: Option<Id>,
      user: User)
    ensures var r := Create(s, journals, chart, source, target, retained, user);
      && (r.Success? <==>
            && source in s.years && target in s.years && retained.Some?
            && |s.years[source].periodsClosed| == 12
            && (forall i :: 0 <= i < 12 ==> s.years[source].periodsClosed[i])
            && s.years[source].endsOn < s.years[target].startsOn
            && forall i :: 0 <= i < |s.rollovers| ==> s.rollovers[i].source != source)
      && (r.Success? ==> r.value == s.(rollovers := s.rollovers + [Rollover(
            source, target, Snapshot(journals, chart, s.years[source], retained.value), user, Draft)]))
  {
    hide Snapshot;
  }

  predicate ClashFree(openings: seq<Opening>, year: Id, account: Id) {
    forall i :: 0 <= i < |openings| ==> openings[i].year != year || openings[i].account != account
  }

  /** Only a draft is submitted; only someone else completes a submitted one, if no account is opened already. */
  lemma RolloverMoves(s: Store, id: nat, user: User)
    ensures var r := Submit(s, id);
      && (r.Success? <==> id < |s.rollovers| && s.rollovers[id].status.Draft?)
      && (r.Success? ==> r.value == s.(rollovers := s.rollovers[id := s.rollovers[id].(status := PendingApproval)]))
    ensures var r := Approve(s, id, user);
      && (r.Success? <==>
            && id < |s.rollovers| && s.rollovers[id].status.PendingApproval? && s.rollovers[id].createdBy != user
            && var more := OpeningsOf(s.rollovers[id].target, s.rollovers[id].snapshot);
               forall j :: 0 <= j < |more| ==> ClashFree(s.openings, more[j].year, more[j].account))
      && (r.Success? ==>
            var x := s.rollovers[id];
            && r.value.openings == s.openings + OpeningsOf(x.target, x.snapshot)
            && r.value.rollovers == s.rollovers[id := x.(status := Completed)]
            && r.value.years.Keys == s.years.Keys
            && forall y :: y in s.years ==>
                 r.value.years[y] == if y == x.source then s.years[y].(closed := true) else s.years[y])
  {
  }

  /** Both years are there, the source is closed out and the target starts later. */
  predicate InOrder(s: Store, source: Id, target: Id) {
    && source in s.years && target in s.years
    && |s.years[source].periodsClosed| == 12 && (forall j :: 0 <= j < 12 ==> s.years[source].periodsClosed[j])
    && s.years[source].endsOn < s.years[target].startsOn
  }

  /** A refused rollover: nothing to find, years out of order, or a source rolled over already. */
  lemma CreateRefusedWith(s: Store, journals: seq<Journal>, chart: Chart, source: Id, target: Id,
      retained: Option<Id>, user: User)
    requires Create(s, journals, chart, source, target, retained, user).Failure?
    ensures Create(s, journals, chart, source, target, retained, user).error ==
            if source !in s.years || target !in s.years || retained.None? then NotFound
            else if InOrder(s, source, target) then Conflict
            else BadRequest
  {
    hide Snapshot;
  }

  lemma RolloverRefusedWith(s: Store, id: nat, user: User)
    ensures Submit(s, id).Failure? ==> Submit(s, id).error == if id >= |s.rollovers| then NotFound else BadRequest
    ensures Approve(s, id, user).Failure? ==>
              Approve(s, id, user).error ==
              if id >= |s.rollovers| then NotFound
              else if s.rollovers[id].status.PendingApproval? && s.rollovers[id].createdBy != user then Conflict
              else BadRequest
  {
    hide OpeningsOf;
  }
}
