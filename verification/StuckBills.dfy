/** Which refused bills can still be posted, and which wait for ever. */
module StuckBills {
  import opened Wrappers
  import opened Decimals
  import opened FinancePosting
  import opened FinancePostingLaws
  import opened PostingGate
  import opened PostingBounds
  import opened ControlAccounts
  import opened JournalBalance

  // ---------------------------------------------------------------- TDS set after entry

  function Charged(x: Invoice): real {
    Booked(x.taxable + x.other, x.rate) + Booked(Tax(x.taxes), x.rate)
  }

  /** What the TDS has to convert to, so that the bill's lines balance. */
  function Missing(x: Invoice): real {
    Charged(x) - Booked(x.outstanding, x.rate)
  }

  /** A bill that comes to something is posted exactly when its TDS converts to what is missing. */
  lemma MissingIff(x: Invoice)
    requires BillAmounts(x)
    ensures Posting(BillLines(x)).Success? <==> Charged(x) > 0.0 && Booked(x.tds, x.rate) == Missing(x)
  {
    hide Booked, Tax, BillLines, Posting;
    BillPostsIff(x);
  }

  lemma TdsChange(x: Invoice, tds: real)
    requires BillAmounts(x) && tds >= 0.0 && Posting(BillLines(x)).Success?
    ensures Posting(BillLines(x.(tds := tds))).Success? <==> Booked(tds, x.rate) == Booked(x.tds, x.rate)
  {
    hide Booked, Tax, BillLines, Posting;
    MissingIff(x);
    MissingIff(x.(tds := tds));
  }

  /**
   A bill that could be posted can still be posted after its TDS is set exactly when the new TDS
   converts to the same amount as the old one: what is outstanding is not computed again.
   */
  lemma SetTdsPostsIff(s: Store, id: nat, base: real, percent: real)
    requires Inv(s) && PostBill(s, id).Success? && SetTds(s, id, base, percent).Success?
    ensures PostBill(SetTds(s, id, base, percent).value, id).Success? <==>
            Booked(TdsOn(base, percent), s.bills[id].rate) == Booked(s.bills[id].tds, s.bills[id].rate)
  {
    WaitingBills(s);
    TdsOnIsMoney(base, percent);
    hide Inv, Booked, BillLines, BillAmounts, Posting, TdsOn, IsMoney;
    TdsChange(s.bills[id], TdsOn(base, percent));
  }

  // ---------------------------------------------------------------- bills no call can post

  /** The bill comes to something, and some TDS in whole cents converts to what is missing. */
  ghost predicate Mendable(x: Invoice) {
    Charged(x) > 0.0 && exists cents: nat :: Booked(Hundredths(cents), x.rate) == Missing(x)
  }

  lemma MendableWithoutTds(x: Invoice, tds: real)
    ensures Mendable(x.(tds := tds)) <==> Mendable(x)
  {
    hide Booked, Tax, Hundredths;
    assert Missing(x.(tds := tds)) == Missing(x) && Charged(x.(tds := tds)) == Charged(x);
  }

  lemma PostableIsMendable(x: Invoice)
    requires BillAmounts(x) && IsMoney(x.tds) && Posting(BillLines(x)).Success?
    ensures Mendable(x)
  {
    MissingIff(x);
    var n :| x.tds == Hundredths(n);
    hide Booked, Missing, Charged, BillLines, Posting;
    assert n >= 0;
  }

  lemma PostedIsMendable(s: Store, id: nat)
    requires Inv(s) && PostBill(s, id).Success?
    ensures Mendable(s.bills[id])
  {
    hide Mendable, BillAmounts, BillLines, Posting, IsMoney, Reconciled, AllocationsOk, InvoicesOk;
    PostableIsMendable(s.bills[id]);
  }

  /** A call leaves an unmendable bill waiting, with at most another TDS. */
  lemma StepLeavesStuck(s: Store, op: Op, id: nat)
    requires Inv(s) && id < |s.bills| && s.bills[id].status.Unposted? && !Mendable(s.bills[id])
    ensures id < |Step(s, op).bills| && Step(s, op).bills[id] == s.bills[id].(tds := Step(s, op).bills[id].tds)
  {
    hide Mendable, Inv, Apply;
    if Apply(s, op).Success? {
      if op.SetTdsOp? && op.id == id {
        TdsAlone(s, op);
      } else if op.PostBillOp? && op.id == id {
        BillPosted(s, op);
        PostedIsMendable(s, id);
      } else {
        StepKeepsWaiting(s, op, id);
      }
    }
  }

  lemma TdsAlone(s: Store, op: Op)
    requires op.SetTdsOp? && Apply(s, op).Success?
    ensures op.id < |s.bills| && |Apply(s, op).value.bills| == |s.bills|
    ensures Apply(s, op).value.bills[op.id] == s.bills[op.id].(tds := Apply(s, op).value.bills[op.id].tds)
  {
    hide TdsOn;
  }

  lemma BillPosted(s: Store, op: Op)
    requires op.PostBillOp? && Apply(s, op).Success?
    ensures PostBill(s, op.id).Success?
  {
  }

  lemma {:induction false} RunLeavesStuck(s: Store, ops: seq<Op>, id: nat)
    requires Inv(s) && id < |s.bills| && s.bills[id].status.Unposted? && !Mendable(s.bills[id])
    ensures id < |Run(s, ops).bills| && Run(s, ops).bills[id] == s.bills[id].(tds := Run(s, ops).bills[id].tds)
    ensures Inv(Run(s, ops)) && !Mendable(Run(s, ops).bills[id])
    decreases |ops|
  {
    hide Inv, Step, Mendable;
    if ops != [] {
      var t := Step(s, ops[0]);
      StepLeavesStuck(s, ops[0], id);
      StepKeeps(s, ops[0]);
      MendableWithoutTds(s.bills[id], t.bills[id].tds);
      RunLeavesStuck(t, ops[1..], id);
    }
  }

  /** The k-th call of the run records the bill's journal. */
  ghost predicate RecordedAt(s: Store, ops: seq<Op>, k: nat, id: nat) {
    k < |ops| && ops[k] == PostBillOp(id) && PostBill(Run(s, ops[..k]), id).Success?
  }

  ghost predicate PostedBy(s: Store, ops: seq<Op>, id: nat) {
    exists k: nat :: RecordedAt(s, ops, k, id)
  }

  /** Setting the TDS that is missing, at 100 % of itself, and posting. */
  lemma MendedByTds(s: Store, id: nat, cents: nat)
    requires Inv(s) && id < |s.bills| && s.bills[id].status.Unposted?
    requires Charged(s.bills[id]) > 0.0 && Booked(Hundredths(cents), s.bills[id].rate) == Missing(s.bills[id])
    ensures PostedBy(s, [SetTdsOp(id, Hundredths(cents), 100.0), PostBillOp(id)], id)
  {
    var change, post := SetTdsOp(id, Hundredths(cents), 100.0), PostBillOp(id);
    WholeTds(cents);
    hide Booked, Hundredths, Tax, BillLines, Posting, TdsOn, Reconciled, AllocationsOk, InvoicesOk;
    SetTdsKeeps(s, id, Hundredths(cents), 100.0);
    var t := SetTds(s, id, Hundredths(cents), 100.0).value;
    MissingIff(t.bills[id]);
    OneCall(s, change);
    assert [change, post][..1] == [change];
    hide Run;
    assert RecordedAt(s, [change, post], 1, id);
  }

  lemma WholeTds(cents: nat)
    ensures Hundredths(cents) >= 0.0 && TdsOn(Hundredths(cents), 100.0) == Hundredths(cents)
  {
    assert Hundredths(cents) * 100.0 / 100.0 == Hundredths(cents);
    Round2OfMoney(Hundredths(cents));
    hide Round2;
  }

  lemma OneCall(s: Store, op: Op)
    ensures Run(s, [op]) == Step(s, op)
  {
    hide Step;
    assert [op][1..] == [];
    assert Run(Step(s, op), []) == Step(s, op);
  }

  /**
   A waiting bill can be posted by some run of calls exactly when it comes to something and some
   TDS in whole cents converts, at the bill's rate, to what its other amounts leave open.
   */
  lemma EverPostedIff(s: Store, id: nat)
    requires Inv(s) && id < |s.bills| && s.bills[id].status.Unposted?
    ensures (exists ops :: PostedBy(s, ops, id)) <==> Mendable(s.bills[id])
  {
    hide Inv, Run, Charged, Missing, Booked, Hundredths, PostBill;
    if Mendable(s.bills[id]) {
      var cents: nat :| Booked(Hundredths(cents), s.bills[id].rate) == Missing(s.bills[id]);
      MendedByTds(s, id, cents);
    } else {
      hide Mendable;
      forall ops
        ensures !PostedBy(s, ops, id)
      {
        forall k: nat | k < |ops| && ops[k] == PostBillOp(id)
          ensures PostBill(Run(s, ops[..k]), id).Failure?
        {
          RunLeavesStuck(s, ops[..k], id);
          UnmendableRefused(Run(s, ops[..k]), id);
        }
      }
    }
  }

  // ---------------------------------------------------------------- a two-decimal bill that waits for ever

  /** One paisa of goods and one of tax at a rate of 1.5. */
  ghost predicate IsSmallBill(q: BillRequest) {
    && q.rate == 1.5 && q.other == 0.0 && q.tds == 0.0
    && q.taxes.central == 0.0 && q.taxes.state == 0.0 && q.taxes.integrated == 0.01
    && |q.lines| == 1 && q.lines[0].quantity == 1.0 && q.lines[0].unitPrice == 0.01 && q.lines[0].tax == 0.01
  }

  ghost predicate IsSmallStored(x: Invoice) {
    && x.rate == 1.5 && x.taxable == 0.01 && x.other == 0.0 && x.tds == 0.0 && x.outstanding == 0.02
    && Tax(x.taxes) == 0.01 && x.status.Unposted?
  }

  lemma SmallBillAmounts(q: BillRequest)
    requires IsSmallBill(q)
    ensures ValidBillLines(q.lines) && Tax(q.taxes) == BillTax(q.lines) && ValidTaxes(q.taxes)
    ensures Bill(q).taxable == 0.01 && Bill(q).outstanding == 0.02
  {
    hide BillTaxable, BillTax, LineTaxable, ValidBillLine;
    OneLineBill(q.lines);
    assert 0.01 == Hundredths(1);
    OneUnit(q.lines[0], 0.01);
  }

  lemma SmallBillStored(x: Invoice)
    requires x.rate == 1.5 && x.taxable == 0.01 && x.other == 0.0 && x.tds == 0.0 && x.outstanding == 0.02
    requires x.taxes.central == 0.0 && x.taxes.state == 0.0 && x.taxes.integrated == 0.01 && x.status.Unposted?
    ensures IsSmallStored(Stored(x))
  {
    Round2Is(x.taxable, 1);
    Round2Is(x.other, 0);
    Round2Is(x.tds, 0);
    Round2Is(x.outstanding, 2);
    Round2Is(x.taxes.central, 0);
    Round2Is(x.taxes.state, 0);
    Round2Is(x.taxes.integrated, 1);
    hide Round2;
  }

  lemma SmallBillAccepted(s: Store, q: BillRequest)
    requires IsSmallBill(q)
    ensures CreateBill(s, q) == Success(s.(bills := s.bills + [Stored(Bill(q))])) && IsSmallStored(Stored(Bill(q)))
  {
    hide Stored, Tax, BillTaxable, BillTax, ValidBillLines, ValidTaxes, IsSmallStored;
    SmallBillAmounts(q);
    SmallBillStored(Bill(q));
  }

  /** A half is rounded up. */
  lemma RoundsUp(x: real, rate: real, n: nat)
    requires n > 0 && x * rate == Hundredths(n) - 0.005
    ensures Booked(x, rate) == Hundredths(n)
  {
  }

  /** 0.015 and 0.015 round to 0.04 in all, but 0.03 stays 0.03. */
  lemma SmallBillMisses(x: Invoice)
    requires IsSmallStored(x)
    ensures Missing(x) == 0.01 && x.rate == 1.5
  {
    hide Booked, Tax;
    RoundsUp(x.taxable + x.other, x.rate, 2);
    RoundsUp(Tax(x.taxes), x.rate, 2);
    BookedIs(x.outstanding, x.rate, 3);
  }

  /** No TDS converts to 0.01: none at all is 0.00, and a paisa is 0.02 already. */
  lemma SmallBillStuck(x: Invoice)
    requires IsSmallStored(x)
    ensures !Mendable(x)
  {
    SmallBillMisses(x);
    hide IsSmallStored, Missing, Charged;
    forall cents: nat
      ensures Booked(Hundredths(cents), x.rate) != 0.01
    {
      NotOneCent(Hundredths(cents), x.rate, cents);
    }
  }

  lemma NotOneCent(tds: real, rate: real, cents: nat)
    requires tds == Hundredths(cents) && rate == 1.5
    ensures Booked(tds, rate) != 0.01
  {
    if cents == 0 {
      BookedIs(tds, rate, 0);
    } else {
      assert tds * rate >= 0.01 * rate;
      RoundsUp(0.01, rate, 2);
      Round2Monotone(0.01 * rate, tds * rate);
      hide Round2;
    }
  }

  /**
   So an ordinary two-decimal bill in a foreign currency can be accepted and then never be
   posted, whatever calls follow.
   */
  lemma TwoDecimalBillNeverPosted(fxConfigured: bool, q: BillRequest, ops: seq<Op>)
    requires IsSmallBill(q)
    ensures CreateBill(Empty(fxConfigured), q).Success?
    ensures var s := Run(CreateBill(Empty(fxConfigured), q).value, ops);
      && |s.bills| > 0
      && s.bills[0] == Stored(Bill(q)).(tds := s.bills[0].tds)
      && PostBill(s, 0) == Failure(BadRequest)
  {
    hide Bill, Stored, Inv, Run, Mendable, Tax, BillTax, IsSmallBill, ValidBillLines, ValidTaxes, IsSmallStored;
    InvEmpty(fxConfigured);
    SmallBillAccepted(Empty(fxConfigured), q);
    StepKeeps(Empty(fxConfigured), CreateBillOp(q));
    var s := CreateBill(Empty(fxConfigured), q).value;
    SmallBillStuck(s.bills[0]);
    SmallBillWaits(s.bills[0]);
    RunLeavesStuck(s, ops, 0);
    UnmendableRefused(Run(s, ops), 0);
  }

  lemma SmallBillWaits(x: Invoice)
    ensures IsSmallStored(x) ==> x.status.Unposted?
  {
  }

  lemma UnmendableRefused(s: Store, id: nat)
    requires Inv(s) && id < |s.bills| && !Mendable(s.bills[id])
    ensures PostBill(s, id) == Failure(BadRequest)
  {
    hide Inv, Mendable, BillLines;
    if PostBill(s, id).Success? {
      PostedIsMendable(s, id);
    }
  }

  // ---------------------------------------------------------------- an ordinary bill blocked by its TDS

  /** A rupee bill that could be posted without TDS is refused once a TDS of a paisa or more is set on it. */
  lemma TdsBlocksPosting(s: Store, id: nat, base: real, percent: real)
    requires Inv(s) && PostBill(s, id).Success? && s.bills[id].rate == 1.0 && s.bills[id].tds == 0.0
    requires base >= 0.0 && percent >= 0.0 && TdsOn(base, percent) >= 0.01
    ensures SetTds(s, id, base, percent).Success?
    ensures PostBill(SetTds(s, id, base, percent).value, id).Failure?
  {
    SetTdsPostsIff(s, id, base, percent);
    TdsOnIsMoney(base, percent);
    BookedAtPar(TdsOn(base, percent));
    ZeroIsMoney();
    BookedAtPar(0.0);
    hide Inv, Booked, TdsOn, Posting, BillLines;
  }
}
