/** How far holds and applied advances take the control accounts from what is outstanding. */
module TreasuryLaws {
  import opened Wrappers
  import opened Decimals
  import opened FinancePosting
  import opened FinancePostingLaws
  import opened PostingGate
  import opened PostingBounds
  import opened ControlAccounts
  import opened PlainBills
  import opened Treasury

  datatype Call =
    | Plain(op: Op)
    | HoldCall(id: nat, hold: bool, reasoned: bool)
    | ApplyCall(side: Side, source: nat, target: nat, amount: real)

  function Answer(b: Books, call: Call): Result<Books, Error> {
    match call
    case Plain(op) =>
      var r := Apply(b.store, op);
      if r.Failure? then Failure(r.error) else Success(b.(store := r.value))
    case HoldCall(id, hold, reasoned) =>
      var r := SetHold(b.store, id, hold, reasoned);
      if r.Failure? then Failure(r.error) else Success(b.(store := r.value))
    case ApplyCall(side, source, target, amount) => ApplyAdvance(b, side, source, target, amount)
  }

  /** The books after one call, which changes nothing when it fails. */
  function After(b: Books, call: Call): Books {
    var r := Answer(b, call);
    if r.Success? then r.value else b
  }

  function RunCalls(b: Books, calls: seq<Call>): Books
    decreases |calls|
  {
    if calls == [] then b else RunCalls(After(b, calls[0]), calls[1..])
  }

  // ---------------------------------------------------------------- what a call adds to the difference

  /** What an invoice brings to the subledger when it is opened without a journal. */
  function Opens(x: Invoice): real {
    if x.status.Unposted? then InRupees(x.outstanding, x.rate) else 0.0
  }

  /** What an application takes off an invoice whose column holds two decimals. */
  function Taken(x: Invoice, amount: real): real {
    x.outstanding - Round2(x.outstanding - amount)
  }

  /** What a call takes the control account from the subledger, before rounding to paise. */
  function Detour(b: Books, call: Call, side: Side): real {
    if Answer(b, call).Failure? then 0.0
    else
      match call
      case Plain(_) => 0.0
      case HoldCall(id, _, _) => if side.Payable? then -Opens(b.store.bills[id]) else 0.0
      case ApplyCall(on, source, target, amount) =>
        if on != side then 0.0
        else
          var x := Invoices(b.store, side)[target];
          InRupees(Taken(x, amount), x.rate) - InRupees(amount, SourceRate(b.store, side, source)) - Opens(x)
  }

  function Detours(b: Books, calls: seq<Call>, side: Side): real
    decreases |calls|
  {
    if calls == [] then 0.0 else Detour(b, calls[0], side) + Detours(After(b, calls[0]), calls[1..], side)
  }

  function Applied(applications: seq<Application>, side: Side): nat {
    if applications == [] then 0
    else Applied(applications[..|applications| - 1], side)
         + if applications[|applications| - 1].side == side then 1 else 0
  }

  function Rounded(b: Books, side: Side): nat {
    Roundings(b.store, side) + Applied(b.applications, side)
  }

  /** The difference is `d`, to half a paisa for each rounding; exactly at par, when nothing has been applied. */
  ghost predicate Off(b: Books, side: Side, d: real) {
    && Near(Drift(b.store, side), d, HalfCents(Rounded(b, side)))
    && (AllAtPar(Invoices(b.store, side)) && Applied(b.applications, side) == 0 ==> Drift(b.store, side) == d)
  }

  // ---------------------------------------------------------------- single calls

  lemma StepMovesBy(s: Store, op: Op, side: Side) returns (n: nat)
    requires RowsOk(s)
    ensures RowsOk(Step(s, op)) && DriftsBy(s, Step(s, op), side, n)
  {
    hide RowsOk, Step, DriftsBy, Roundings;
    StepMoves(s, op);
    n := Roundings(Step(s, op), side) - Roundings(s, side);
  }

  /** The difference moves by `move`, with `n` more roundings. */
  lemma OffMoves(b: Books, c: Books, side: Side, d: real, move: real, n: nat)
    requires Off(b, side, d) && Rounded(c, side) >= Rounded(b, side) + n
    requires Near(Drift(c.store, side) - Drift(b.store, side), move, HalfCents(n))
    requires AllAtPar(Invoices(c.store, side)) && Applied(c.applications, side) == 0 ==>
               && AllAtPar(Invoices(b.store, side)) && Applied(b.applications, side) == 0
               && Drift(c.store, side) == Drift(b.store, side) + move
    ensures Off(c, side, d + move)
  {
    hide Drift, AllAtPar, Applied, Rounded;
    HalfCentsAdd(Rounded(b, side), n);
    HalfCentsAdd(Rounded(b, side) + n, Rounded(c, side) - Rounded(b, side) - n);
  }

  lemma PlainOff(b: Books, op: Op, side: Side, d: real)
    requires RowsOk(b.store) && Off(b, side, d)
    ensures RowsOk(Step(b.store, op)) && Off(b.(store := Step(b.store, op)), side, d)
  {
    hide RowsOk, Step, Drift, Roundings, AllAtPar, Applied, Off, HalfCents;
    var n := StepMovesBy(b.store, op, side);
    OffMoves(b, b.(store := Step(b.store, op)), side, d, 0.0, n);
  }

  /** A row is rewritten without a journal; the difference moves by what it brings to the subledger. */
  lemma RowRewritten(s: Store, side: Side, i: nat, x: Invoice)
    requires RowsOk(s) && i < |Invoices(s, side)| && InvoiceOk(x) && x.rate == Invoices(s, side)[i].rate
    requires !x.status.Unposted?
    ensures var t := PutInvoices(s, side, Invoices(s, side)[i := x]);
      && RowsOk(t)
      && Subledger(Invoices(t, side)) ==
           Subledger(Invoices(s, side)) - Standing(Invoices(s, side)[i]) + InRupees(x.outstanding, x.rate)
      && Roundings(t, side) >= Roundings(s, side)
      && (AllAtPar(Invoices(t, side)) <==> AllAtPar(Invoices(s, side)))
  {
    var t := PutInvoices(s, side, Invoices(s, side)[i := x]);
    hide InvoiceOk, AllocationsOk, IsMoney, PendingOk;
    OneInvoice(Invoices(s, side), i, x);
    if side.Payable? {
      OnePosted(s.bills, i, x);
    }
    SubledgerUpdate(Invoices(s, side), i, x);
    hide InvoicesOk, AllAtPar, Extends, Subledger, PostedInvoices, PostedNotes;
    RowsKept(s, t);
  }

  lemma RowAt(s: Store, side: Side, i: nat)
    requires RowsOk(s) && i < |Invoices(s, side)|
    ensures InvoiceOk(Invoices(s, side)[i])
  {
    hide InvoiceOk, IsMoney, AllocationsOk, PendingOk;
  }

  lemma HoldOff(b: Books, id: nat, hold: bool, reasoned: bool, side: Side, d: real)
    requires RowsOk(b.store) && Off(b, side, d) && SetHold(b.store, id, hold, reasoned).Success?
    ensures var c := b.(store := SetHold(b.store, id, hold, reasoned).value);
      RowsOk(c.store) && Off(c, side, d + if side.Payable? then -Opens(b.store.bills[id]) else 0.0)
  {
    var s, x := b.store, b.store.bills[id];
    var t := SetHold(s, id, hold, reasoned).value;
    RowAt(s, Payable, id);
    hide RowsOk, IsMoney;
    RowRewritten(s, Payable, id, t.bills[id]);
    hide InvoiceOk, Off, Subledger, LedgerNet, AllAtPar, Applied, PostedInvoices, PostedNotes, InRupees;
    HalfCentsAdd(0, 0);
    hide HalfCents;
    OffMoves(b, b.(store := t), side, d, if side.Payable? then -Opens(x) else 0.0, 0);
  }

  lemma SourcePositive(s: Store, side: Side, source: nat)
    requires RowsOk(s) && HasAdvance(s, side, source)
    ensures SourceRate(s, side, source) > 0.0
  {
    hide AllocationsOk, InvoicesOk, PendingOk;
    if side.Receivable? {
      assert ReceiptOk(s.sales, s.receipts[source]);
    } else {
      assert PaymentOk(s.bills, s.payments[source]);
    }
  }

  /** An application moves its own control account by the amount at the source's rate. */
  lemma AdvanceControl(side: Side, amount: real, rate: real, other: Side)
    requires amount >= 0.01 && rate > 0.0 && Posting(AdvanceLines(side, amount, rate)).Success?
    ensures Net(Posting(AdvanceLines(side, amount, rate)).value, Some(Control(other))) ==
            if other != side then 0.0 else if side.Receivable? then -Booked(amount, rate) else Booked(amount, rate)
  {
    var value := Booked(amount, rate);
    var lines, account := AdvanceLines(side, amount, rate), Some(Control(other));
    BookedNear(amount, rate);
    hide Booked, Posting, Net;
    PostedNet(lines, Control(other));
    assert lines == [lines[0]] + [lines[1]];
    NetConcat([lines[0]], [lines[1]], account);
    NetOfOne(lines[0], account);
    NetOfOne(lines[1], account);
  }

  lemma JournalsAside(s: Store, journals: seq<Journal>)
    requires RowsOk(s)
    ensures RowsOk(s.(journals := journals))
  {
    hide InvoicesOk, AllocationsOk, PendingOk, IsMoney;
  }

  lemma AppliedOne(applications: seq<Application>, a: Application, side: Side)
    ensures Applied(applications + [a], side) == Applied(applications, side) + if a.side == side then 1 else 0
  {
    assert (applications + [a])[..|applications|] == applications;
  }

  lemma ReducedOk(x: Invoice, amount: real)
    requires InvoiceOk(x)
    ensures var y := Reduced(x, amount);
      InvoiceOk(y) && y.rate == x.rate && !y.status.Unposted? && y.outstanding == x.outstanding - Taken(x, amount)
  {
    Round2Nearest(x.outstanding - amount);
    hide Round2, IsMoney;
  }

  /** The parts of an application: the row it rewrites and the journal it records. */
  ghost predicate AppliesTo(b: Books, c: Books, side: Side, source: nat, target: nat, amount: real, posted: Journal) {
    && HasAdvance(b.store, side, source) && target < |Invoices(b.store, side)| && amount >= 0.01
    && Posting(AdvanceLines(side, amount, SourceRate(b.store, side, source))) == Success(posted)
    && c.applications == b.applications + [Application(side, source, target, Round2(amount))]
    && var x := Reduced(Invoices(b.store, side)[target], amount);
    && c.store == PutInvoices(b.store, side, Invoices(b.store, side)[target := x])
                  .(journals := b.store.journals + [posted])
  }

  lemma ApplicationIs(b: Books, side: Side, source: nat, target: nat, amount: real) returns (posted: Journal)
    requires ApplyAdvance(b, side, source, target, amount).Success?
    ensures AppliesTo(b, ApplyAdvance(b, side, source, target, amount).value, side, source, target, amount, posted)
  {
    hide Posting, Reduced, Round2, Used, Allocated;
    posted := Posting(AdvanceLines(side, amount, SourceRate(b.store, side, source))).value;
  }

  /** The subledger loses what is taken, and gains what was outstanding on an invoice not yet posted. */
  lemma AppliedSubledger(s: Store, side: Side, target: nat, amount: real)
    requires RowsOk(s) && target < |Invoices(s, side)|
    ensures var x := Invoices(s, side)[target];
      var t := PutInvoices(s, side, Invoices(s, side)[target := Reduced(x, amount)]);
      && RowsOk(t)
      && Subledger(Invoices(t, side)) ==
           Subledger(Invoices(s, side)) + Opens(x) - InRupees(Taken(x, amount), x.rate)
      && Roundings(t, side) >= Roundings(s, side)
      && (AllAtPar(Invoices(t, side)) <==> AllAtPar(Invoices(s, side)))
  {
    var x := Invoices(s, side)[target];
    RowAt(s, side, target);
    ReducedOk(x, amount);
    hide RowsOk, InvoiceOk, Reduced, Subledger, Roundings, AllAtPar, Taken;
    RowRewritten(s, side, target, Reduced(x, amount));
    ConvertsSum(x.outstanding, Taken(x, amount), x.rate);
    hide InRupees;
  }

  /** The control account moves by the rounded amount, the other one not at all. */
  lemma AppliedBalance(b: Books, c: Books, side: Side, source: nat, target: nat, amount: real, posted: Journal,
      other: Side)
    requires RowsOk(b.store) && AppliesTo(b, c, side, source, target, amount, posted)
    ensures Balance(c.store, other) ==
            Balance(b.store, other) - if other == side then Booked(amount, SourceRate(b.store, side, source)) else 0.0
  {
    SourcePositive(b.store, side, source);
    hide RowsOk, Posting, AdvanceLines, Reduced, Booked, Net, LedgerNet, SourceRate, HasAdvance;
    AdvanceControl(side, amount, SourceRate(b.store, side, source), other);
    LedgerAppend(b.store.journals, posted, Receivables);
    LedgerAppend(b.store.journals, posted, Payables);
  }

  lemma ApplicationRows(b: Books, c: Books, side: Side, source: nat, target: nat, amount: real, posted: Journal)
    requires RowsOk(b.store) && AppliesTo(b, c, side, source, target, amount, posted)
    ensures var x := Invoices(b.store, side)[target];
      && RowsOk(c.store)
      && Subledger(Invoices(c.store, side)) ==
           Subledger(Invoices(b.store, side)) + Opens(x) - InRupees(Taken(x, amount), x.rate)
      && Rounded(c, side) >= Rounded(b, side) + 1 && Applied(c.applications, side) > 0
      && Invoices(c.store, Other(side)) == Invoices(b.store, Other(side))
      && Rounded(c, Other(side)) == Rounded(b, Other(side))
      && Applied(c.applications, Other(side)) == Applied(b.applications, Other(side))
  {
    var x := Invoices(b.store, side)[target];
    var t := PutInvoices(b.store, side, Invoices(b.store, side)[target := Reduced(x, amount)]);
    AppliedSubledger(b.store, side, target, amount);
    JournalsAside(t, c.store.journals);
    AppliedOne(b.applications, Application(side, source, target, Round2(amount)), side);
    AppliedOne(b.applications, Application(side, source, target, Round2(amount)), Other(side));
    hide RowsOk, Posting, Reduced, Booked, Applied, Subledger, PostedInvoices, PostedNotes, AllAtPar, Opens, Taken,
      InRupees, Round2, SourceRate;
  }

  lemma ApplyOff(b: Books, on: Side, source: nat, target: nat, amount: real, side: Side, d: real)
    requires RowsOk(b.store) && Off(b, side, d) && ApplyAdvance(b, on, source, target, amount).Success?
    ensures var c := ApplyAdvance(b, on, source, target, amount).value;
      RowsOk(c.store) && Off(c, side, d + Detour(b, ApplyCall(on, source, target, amount), side))
  {
    var c := ApplyAdvance(b, on, source, target, amount).value;
    var posted := ApplicationIs(b, on, source, target, amount);
    assert HasAdvance(b.store, on, source) && target < |Invoices(b.store, on)|;
    var x, rate := Invoices(b.store, on)[target], SourceRate(b.store, on, source);
    ApplicationRows(b, c, on, source, target, amount, posted);
    AppliedBalance(b, c, on, source, target, amount, posted, side);
    BookedNear(amount, rate);
    HalfCentsAdd(0, 1);
    assert Detour(b, ApplyCall(on, source, target, amount), side) ==
           if on != side then 0.0 else InRupees(Taken(x, amount), x.rate) - InRupees(amount, rate) - Opens(x);
    hide RowsOk, ApplyAdvance, AppliesTo, Off, Subledger, Balance, Rounded, AllAtPar, Applied, Opens, Taken, InRupees,
      Booked, HalfCents, SourceRate, HasAdvance, Detour;
    if on == side {
      OffMoves(b, c, side, d, InRupees(Taken(x, amount), x.rate) - InRupees(amount, rate) - Opens(x), 1);
    } else {
      OffMoves(b, c, side, d, 0.0, 0);
    }
  }

  lemma CallOff(b: Books, call: Call, side: Side, d: real)
    requires RowsOk(b.store) && Off(b, side, d)
    ensures RowsOk(After(b, call).store) && Off(After(b, call), side, d + Detour(b, call, side))
  {
    hide RowsOk, Off, Apply, SetHold, ApplyAdvance, Opens;
    if Answer(b, call).Success? {
      match call
      case Plain(op) => PlainOff(b, op, side, d);
      case HoldCall(id, hold, reasoned) => HoldOff(b, id, hold, reasoned, side, d);
      case ApplyCall(on, source, target, amount) => ApplyOff(b, on, source, target, amount, side, d);
    }
  }

  // ---------------------------------------------------------------- runs

  lemma {:induction false} RunOff(b: Books, calls: seq<Call>, side: Side, d: real)
    requires RowsOk(b.store) && Off(b, side, d)
    ensures Off(RunCalls(b, calls), side, d + Detours(b, calls, side))
    decreases |calls|
  {
    hide RowsOk, Off, After, Detour;
    if calls != [] {
      CallOff(b, calls[0], side, d);
      RunOff(After(b, calls[0]), calls[1..], side, d + Detour(b, calls[0], side));
      assert d + Detour(b, calls[0], side) + Detours(After(b, calls[0]), calls[1..], side) ==
             d + Detours(b, calls, side);
    }
  }

  function NoBooks(fxConfigured: bool): Books {
    Books(Empty(fxConfigured), [])
  }

  lemma NothingOff(fxConfigured: bool, side: Side)
    ensures RowsOk(NoBooks(fxConfigured).store) && Off(NoBooks(fxConfigured), side, 0.0)
  {
  }

  /**
   In every run with holds and applied advances, each control account differs from what the opened
   invoices have outstanding at booking rates by: what applied advances were worth more or less at
   the rates of their invoices than at their own, less all that was outstanding on invoices opened
   without a journal; to within half a paisa for each posted invoice, posted note and application.
   */
  lemma EveryRunDetours(fxConfigured: bool, calls: seq<Call>, side: Side)
    ensures var b := RunCalls(NoBooks(fxConfigured), calls);
      var n := PostedInvoices(Invoices(b.store, side)) + PostedNotes(b.store.notes, side)
               + Applied(b.applications, side);
      Near(Balance(b.store, side) - Subledger(Invoices(b.store, side)), Detours(NoBooks(fxConfigured), calls, side),
           n as real * 0.005)
  {
    NothingOff(fxConfigured, side);
    hide RowsOk, RunCalls, Detours, Balance, Subledger, PostedInvoices, PostedNotes, Applied, AllAtPar, NoBooks;
    RunOff(NoBooks(fxConfigured), calls, side, 0.0);
  }

  // ---------------------------------------------------------------- holds at par

  /** The call does not hold or release a waiting bill on which something is outstanding. */
  predicate Harmless(b: Books, call: Call) {
    call.HoldCall? && SetHold(b.store, call.id, call.hold, call.reasoned).Success? ==>
      !b.store.bills[call.id].status.Unposted? || b.store.bills[call.id].outstanding == 0.0
  }

  predicate AllHarmless(b: Books, calls: seq<Call>)
    decreases |calls|
  {
    calls != [] ==> Harmless(b, calls[0]) && AllHarmless(After(b, calls[0]), calls[1..])
  }

  lemma AppliedGrows(b: Books, call: Call, side: Side)
    ensures Applied(After(b, call).applications, side) >= Applied(b.applications, side)
    ensures Answer(b, call).Success? && call.ApplyCall? && call.side == side ==>
              Applied(After(b, call).applications, side) > 0
  {
    hide Apply, SetHold, Posting, Reduced, Round2, Used, Allocated;
    if call.ApplyCall? {
      AppliedOne(b.applications, Application(call.side, call.source, call.target, Round2(call.amount)), side);
    }
  }

  lemma {:induction false} AppliedLater(b: Books, calls: seq<Call>, side: Side)
    ensures Applied(RunCalls(b, calls).applications, side) >= Applied(b.applications, side)
    decreases |calls|
  {
    hide After, Applied;
    if calls != [] {
      AppliedGrows(b, calls[0], side);
      AppliedLater(After(b, calls[0]), calls[1..], side);
    }
  }

  lemma WaitingPositive(s: Store, id: nat)
    requires RowsOk(s) && id < |s.bills| && s.bills[id].status.Unposted?
    ensures s.bills[id].rate > 0.0 && s.bills[id].outstanding >= 0.0
  {
    hide InvoicesOk, AllocationsOk, IsMoney, Tax;
  }

  /** Without applications only holds of waiting bills count, each for what is outstanding. */
  lemma HarmlessIff(b: Books, call: Call)
    requires RowsOk(b.store) && Applied(After(b, call).applications, Payable) == 0
    ensures Detour(b, call, Payable) <= 0.0 && (Detour(b, call, Payable) == 0.0 <==> Harmless(b, call))
  {
    AppliedGrows(b, call, Payable);
    hide RowsOk, Apply, ApplyAdvance, InRupees, After, Applied, Taken;
    if call.HoldCall? && SetHold(b.store, call.id, call.hold, call.reasoned).Success? {
      var x := b.store.bills[call.id];
      if x.status.Unposted? {
        WaitingPositive(b.store, call.id);
        ConvertsSign(x.outstanding, x.rate);
        if x.outstanding > 0.0 {
          ConvertsPositive(x.outstanding, x.rate);
        }
      }
    }
  }

  lemma {:induction false} AllHarmlessIff(b: Books, calls: seq<Call>)
    requires RowsOk(b.store) && Applied(RunCalls(b, calls).applications, Payable) == 0
    ensures Detours(b, calls, Payable) <= 0.0 && (Detours(b, calls, Payable) == 0.0 <==> AllHarmless(b, calls))
    decreases |calls|
  {
    if calls != [] {
      hide RowsOk, Off, After, Detour, Harmless, Applied, Drift;
      var c := After(b, calls[0]);
      OwnDrift(b);
      CallOff(b, calls[0], Payable, Drift(b.store, Payable));
      AppliedLater(c, calls[1..], Payable);
      HarmlessIff(b, calls[0]);
      AllHarmlessIff(c, calls[1..]);
    }
  }

  lemma OwnDrift(b: Books)
    ensures Off(b, Payable, Drift(b.store, Payable))
  {
    hide Drift, Roundings, Applied;
  }

  /**
   With every bill at rate 1 and no advance applied to one, the payables account is what is
   outstanding on the opened bills exactly when no waiting bill with something outstanding was put
   on hold or released: a hold opens it without a journal.
   */
  lemma EveryRunReconcilesIff(fxConfigured: bool, calls: seq<Call>)
    requires var b := RunCalls(NoBooks(fxConfigured), calls);
      Applied(b.applications, Payable) == 0 && forall i :: 0 <= i < |b.store.bills| ==> b.store.bills[i].rate == 1.0
    ensures var s := RunCalls(NoBooks(fxConfigured), calls).store;
      Balance(s, Payable) == Subledger(s.bills) <==> AllHarmless(NoBooks(fxConfigured), calls)
  {
    var e := NoBooks(fxConfigured);
    NothingOff(fxConfigured, Payable);
    hide RowsOk, RunCalls, Detours, Balance, Subledger, PostedInvoices, PostedNotes, Applied, NoBooks, AllHarmless;
    RunOff(e, calls, Payable, 0.0);
    AllHarmlessIff(e, calls);
  }

  // ---------------------------------------------------------------- a bill opened without a journal

  /** The only bill is open for payment, for the whole price, and nothing has been recorded. */
  ghost predicate OpenUnrecorded(s: Store, price: real, rate: real) {
    && |s.bills| == 1 && IsOpen(s.bills[0]) && s.bills[0].outstanding == price && s.bills[0].rate == rate
    && s.journals == []
  }

  lemma HoldAndRelease(b: Books, party: Party, price: real, rate: real)
    requires Entered(b.store, party, price, rate) && price > 0.0
    ensures OpenUnrecorded(After(After(b, HoldCall(0, true, true)), HoldCall(0, false, false)).store, price, rate)
  {
    hide Tax;
  }

  lemma UnrecordedDiffers(s: Store, price: real, rate: real)
    requires OpenUnrecorded(s, price, rate)
    ensures Balance(s, Payable) == 0.0 && Subledger(s.bills) == InRupees(price, rate)
  {
    assert s.bills[..0] == [];
    assert Subledger(s.bills[..0]) == 0.0;
    hide InRupees;
  }

  lemma RunThreeCalls(b: Books, first: Call, second: Call, third: Call)
    ensures RunCalls(b, [first, second, third]) == After(After(After(b, first), second), third)
  {
    hide After;
    assert [first, second, third][1..] == [second, third] && [second, third][1..] == [third] && [third][1..] == [];
    var c, d := After(b, first), After(After(b, first), second);
    assert RunCalls(d, [third]) == RunCalls(After(d, third), []);
    assert RunCalls(c, [second, third]) == RunCalls(d, [third]);
  }

  /** Held and released before its approval, a bill is open for payment, and its whole amount is in no journal. */
  lemma HoldOpensBill(fxConfigured: bool, q: BillRequest, party: Party, price: real, rate: real)
    requires AsksPlain(q, party, price, rate) && IsMoney(price) && price > 0.0 && rate > 0.0
    ensures var s := RunCalls(NoBooks(fxConfigured),
                              [Plain(CreateBillOp(q)), HoldCall(0, true, true), HoldCall(0, false, false)]).store;
      && OpenUnrecorded(s, price, rate)
      && Balance(s, Payable) == 0.0 && Subledger(s.bills) == InRupees(price, rate)
  {
    hide Step, AsksPlain, IsMoney, RunCalls, After, InRupees, NoBooks, Empty, Balance, Subledger, Entered,
      OpenUnrecorded;
    var b := After(NoBooks(fxConfigured), Plain(CreateBillOp(q)));
    RunThreeCalls(NoBooks(fxConfigured), Plain(CreateBillOp(q)), HoldCall(0, true, true), HoldCall(0, false, false));
    StepIsAfter(fxConfigured, CreateBillOp(q));
    PlainEntered(fxConfigured, q, party, price, rate);
    HoldAndRelease(b, party, price, rate);
    UnrecordedDiffers(After(After(b, HoldCall(0, true, true)), HoldCall(0, false, false)).store, price, rate);
  }

  lemma StepIsAfter(fxConfigured: bool, op: Op)
    ensures After(NoBooks(fxConfigured), Plain(op)) == Books(Step(Empty(fxConfigured), op), [])
  {
    hide Apply;
  }
}