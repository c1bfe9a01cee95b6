# ERP core: model and proofs

A Dafny model of the algorithms and multi-step state of an ERP backend, with proofs of what they
keep. Everything is checked by `dafny verify dfyconfig.toml`.

Each component has a module that models it and, where the statements are many, a second one
(`…Laws`) that proves them. A third kind (`…Meaning`, `…Movements`, `…Changes` and the like) says what
the functions of the model compute in terms that do not use them.

| modules | what they model |
|---|---|
| `BomExplosion`, `BomExplosionLaws`, `BomPositions` | the recursive BOM walk: cycles, the depth cap of 25, per-level rounding, procurement sourcing, the order of the leaves |
| `BomRelease`, `BomReleaseLaws`, `BomAncestors`, `BomRevisions` | the revision workflow, the release gate that explodes from one item, and what a release does to the items above it |
| `BomCost` | the cost roll-up in its loop form and its fold form, against the exact cost of the tree |
| `StockRequirement`, `StockRequirementLaws`, `RequirementMeaning` | the snapshot of an explosion and the report that re-derives quantities from it |
| `Inventory`, `InventoryLaws`, `StockMovements` | stock balances, reservations, the movement ledger and first-in-first-out issue |
| `Csv`, `CsvLaws`, `CsvBlank` | the character state machine that reads CSV and the printer that quotes it |
| `BankReconciliation`, `BankReconciliationLaws`, `BankMatching` | statement import, suggestions, matching, approval |
| `FinancePosting`, `FinanceServices`, `FinancePostingLaws` | bills, sales invoices, payments, receipts and notes, and the lines they hand to the posting helper |
| `AsEntered`, `AccountMovements`, `PaidAmounts` | what a document charges and keeps of its request, what posting it moves on each account, and what is outstanding and paid in every run |
| `PostingGate`, `PostingBounds` | when the helper accepts the lines of each kind of document, and how far off refused lines can be |
| `JournalBalance`, `StuckBills`, `StuckSettlements` | over whole runs: the balance of every journal as accepted, which documents are posted, and which no call can ever post |
| `StoredBalance`, `PaisaAstray` | the balance of every journal as its two-place columns store it |
| `ControlAccounts`, `StoredLedger`, `Outstanding` | control accounts against subledgers over whole runs, as posted and as the table rounds the lines; when outstanding amounts fall below zero |
| `Treasury`, `TreasuryService`, `TreasuryLaws`, `TreasuryMovements` | payment holds and applied advances, and how far they take the control accounts from the subledgers |
| `Calendar`, `Schedules`, `SchedulesLaws` | recurring schedules |
| `Depreciation` | straight-line depreciation |
| `OpenPeriods` | that both post in open periods only, and what they post |
| `Reporting`, `ReportingLaws`, `ReportMeaning` | trial balance, balance sheet, cash flow, year-end rollover |
| `Hierarchy`, `HierarchyLaws`, `RosterChanges` | the reporting hierarchy, its upward check and its downward closure |
| `ExpenseClaims`, `ExpenseClaimsLaws`, `ClaimChanges` | expense claims and account 2500 |
| `PlainBills`, `Decimals`, `Wrappers` | the bills and payments used in runs that are shown; half-up rounding; result types |

How the model is built:

- An operation that changes stored rows is a function from one `Store` to the next, or to an
  error. A class holds the rows as fields, and each of its methods updates them step by step and is
  proved to do what the function says (`Follows`): same rows, same error, nothing changed on error.
  The laws are proved about the functions, over single steps and over `Run`s of any length.
- Each public call is one atomic step. Rows are kept in order of creation and identified by position.
- Quantities and money are exact between the roundings the code performs. Rounding is half up, to
  four places for quantities and two for money; `Decimals.Round4` and `Decimals.Round2` model it.
  Amounts that are only ever added and come from two-place columns are integers (paise).
- A JavaScript `Map` filled in a loop is a list in order of first insertion.

Where the proofs disagree with what the code's comments or names suggest, the model follows the code:

- The comment in `stock-report.service.ts` says that the stored wastage percentage reproduces the
  exploded gross quantity. It is computed to four places but stored in a two-place column. The
  bound for the computed percentage holds of the stored one exactly when the stored one is still
  within half of the fourth place (`StockRequirementLaws.StoredPercentMeetsIff`).
  `StoredPercentIsCoarser` gives an order that comes out 250 bolts short, `StoredPercentError` the
  bound that always holds, and `ZeroBaseIsLost` the leaves that vanish from the report.
- The posting helper refuses lines that do not balance to the paisa, and every document converts
  and rounds its amounts one by one. So ordinary two-decimal documents in a foreign currency can
  be accepted and then refused when they are to be posted. The exact conditions are in
  `JournalBalance`; a bill that no sequence of calls can post is in
  `StuckBills.TwoDecimalBillNeverPosted`.
- The helper checks the lines before their columns round them. A payment or receipt that converts at
  rates other than 1 can be accepted in balance and stored a paisa out of it, a payment only when it
  leaves an advance (`StoredBalance.StoredPaymentBalance`, `StoredReceiptBalance`;
  `PaisaAstray.StoredPaisaOver`). Bills, sales invoices and notes are stored as they are accepted.
- Setting the TDS of a bill leaves its outstanding amount as it was. The bill can then be posted
  exactly when the new TDS converts to the same amount as the old one
  (`StuckBills.SetTdsPostsIff`), so setting a TDS on a rupee bill entered without one blocks it
  (`TdsBlocksPosting`).
- A bill whose taxes are entered with more than two decimals is stored with a gap between its total
  and its parts (`PostingBounds.BillEnteredIff`, `SubCentTaxesUnbalance`), and a receipt charged more
  than it brings in hands over lines that are out by the excess
  (`PostingBounds.OverchargedReceiptRefused`). Both are accepted, and refused when they are to be
  posted.
- A bank statement's balances are rounded to two places one by one after the sum was checked. The
  stored ones still add up, unless the opening balance ends in half a paisa and the lines carry it
  over zero (`BankReconciliationLaws.RoundedApart`, `OverdrawnHalfCentUnbalanced`).
- With overrides in force an issue can release more of a reservation than it issues, exactly when
  available stock is negative (`InventoryLaws.FromReservationIff`, `OverrideReleasesTooMuch`).
- Granting access sets a manager without the cycle check, so it can close a cycle
  (`HierarchyLaws.GrantAccessCanCloseCycle`); it is safe exactly when the check would have passed
  (`GrantAccessAcyclicIff`), in single steps and in whole runs (`AlwaysAcyclicIff`).
- The settlement loop computes what is left from the invoice as loaded, so an invoice named twice
  is reduced only once. Control account and subledger then part: exactly then
  (`ControlAccounts.SettlementConservesIff`). The payment service refuses such a list; for receipts
  only the table's unique key does.
- Putting a bill on hold and releasing it looks at no status: done before the approval, it opens the
  bill for payment without any journal (`TreasuryLaws.HoldOpensBill`). Applying an advance does not
  look at the invoice's status either, and values the advance at its own rate. The difference either
  makes between control account and subledger is exact up to rounding
  (`TreasuryLaws.EveryRunDetours`, `EveryRunReconcilesIff`).
- What a settlement allocates is compared with what is outstanding when it is entered and not again
  when it is posted, so a bill can be paid twice (`Outstanding.PaidBeyondPrice`);
  `EveryRunCoveredIff` gives the exact condition.
- The release gate explodes from the released item only. Items above it can then be more than 25
  levels deep and no longer explode (`BomAncestors.AncestorUnexplodable`); `ReleaseKeepsExplodableIff`
  gives the exact condition.
- A rollover is balanced exactly when nothing was left in profit and loss by years before the
  source year (`ReportingLaws.RolloverBalancesIff`).

## Model

| member | source | states |
|---|---|---|
| BomExplosion.ExplodeBom | src/modules/bom/bom-explosion.ts:154-218 | the recursive walk returns the leaves of the line paths below the top item, in visiting order, or the error met first |
| BomExplosion.Explosion.Walk | src/modules/bom/bom-explosion.ts:163-208 | one call of `walk` appends exactly the leaves of the paths below the item to the shared array, carrying rounded gross and base multipliers and the revision trail down |
| BomExplosion.Explosion.VisitLine | src/modules/bom/bom-explosion.ts:180-207 | one line either recurses with the rounded multipliers or becomes one leaf |
| BomExplosionLaws.ExplosionErrorsAreGenuine | src/modules/bom/bom-explosion.ts:21-37 | an error carries a real parent-to-child path from the top: a cycle error one whose last item occurs earlier on it, a depth error one of 25 different items and one more |
| BomExplosionLaws.ExplosionSucceedsIff | src/modules/bom/bom-explosion.ts:154-218 | an explosion, in either mode, succeeds if and only if every chain of walked items from the top has distinct items and at most 25 of them |
| BomExplosionLaws.ExplodeBomSucceedsIff | src/modules/bom/bom-explosion.ts:154-218 | the general explosion succeeds if and only if no path of items with non-empty BOMs from the top repeats an item or is longer than 25 |
| BomExplosionLaws.ExplosionLeaves | src/modules/bom/bom-explosion.ts:180-207 | a path is among the leaves if and only if it is a line path from the top to a line that is not walked into |
| BomPositions.LeavesInOrder | src/modules/bom/bom-explosion.ts:163-208 | the leaves are those at the positions, line by line from the top, of lines that are not walked into: each position exactly once, in lexicographic order |
| BomPositions.LeafIs | src/modules/bom/bom-explosion.ts:180-207 | a leaf is a requirement for the last line's item in that line's unit, with the revisions read on the way down to it, from the top |
| BomPositions.WalkedInto | src/modules/bom/bom-explosion.ts:54-117 | a line is walked into if and only if its item has a BOM with lines, which for procurement counts only when the line says neither make nor buy: what is made always is, what is bought never |
| BomExplosionLaws.GrossErrorBound | src/modules/bom/bom-explosion.ts:180-206 | with non-negative lines the rounded gross quantity is within 0.00005 times the sum of remaining factor products of the exact product |
| BomExplosionLaws.GrossAtLeastBase | src/modules/bom/bom-explosion.ts:180-206 | gross is never below base, and base never negative |
| BomExplosionLaws.BaseIsGrossWithoutWastage | src/modules/bom/bom-explosion.ts:187-200 | the base quantity is the gross quantity of the same path with all wastage removed, roundings included |
| BomExplosionLaws.LeafQuantities | src/modules/bom/bom-explosion.ts:180-206 | both error bounds and gross at least base hold for every leaf of every successful explosion |
| BomExplosionLaws.ProcurementWithoutSourcing | src/modules/bom/bom-explosion.ts:54-117 | when no line says make or buy, the procurement explosion equals the general one: same leaves in order, same error |
| BomExplosionLaws.ProcurementOnAcceptedTree | src/modules/bom/bom-explosion.ts:54-117 | on a tree the general explosion accepts, the procurement one never reports a cycle, and reports depth only for a MAKE line without a non-empty BOM under a path of 25 assemblies |
| BomRelease.LatestRevision | src/modules/bom/bom.service.ts:485-493 | no revision of the item has a higher number, so the next one is new |
| BomRelease.BomService.NextRevisionNumber | src/modules/bom/bom.service.ts:485-493 | the number of a new revision is one above the highest so far |
| BomRelease.BomService.CreateBom | src/modules/bom/bom.service.ts:154-191 | a draft is added with the next revision number, or the call fails for an unknown item, an item among its own lines, or an unusable line item |
| BomRelease.BomService.UpdateBom | src/modules/bom/bom.service.ts:192-240 | only a draft or rejected revision changes; it becomes a draft with the new lines |
| BomRelease.BomService.SubmitBom | src/modules/bom/bom.service.ts:241-295 | only a draft or rejected revision with lines becomes pending |
| BomRelease.BomService.LoadIndex | src/modules/bom/bom.service.ts:537-580 | the loop over released and pending rows fills the map with the released BOMs, the pending one in its item's place |
| BomRelease.BomService.ApproveBom | src/modules/bom/bom.service.ts:296-382 | a pending revision is released by someone other than its creator if both explosions from its item succeed, else nothing changes |
| BomRelease.BomService.Release | src/modules/bom/bom.service.ts:326-382 | the released revision replaces its item's released one, which becomes obsolete; an event is recorded for each |
| BomRelease.BomService.RejectBom | src/modules/bom/bom.service.ts:383-439 | a pending revision is rejected, with a comment, by someone other than its creator |
| BomRelease.BomService.CreateRevision | src/modules/bom/bom.service.ts:440-482 | a new draft copies the lines of any revision under the next number; stated row by row in `BomRevisions.NewRevisionAdds` |
| BomReleaseLaws.GateKeepsAcyclic | src/modules/bom/bom.service.ts:537-580 | if the index is acyclic and exploding from the one item whose BOM changes succeeds, the whole changed index is acyclic |
| BomReleaseLaws.ReleaseTakesGateIndex | src/modules/bom/bom.service.ts:326-382 | after the release the released BOMs are exactly the index the gate exploded, at most one per item |
| BomReleaseLaws.CycleErrorHasCycle | src/modules/bom/bom.service.ts:537-580 | a cycle error from any explosion means the index really has a cycle |
| BomReleaseLaws.AcyclicNeverReportsCycle | src/modules/bom/bom.service.ts:537-580 | over an acyclic index no explosion, of either kind and from any item, reports a cycle |
| BomReleaseLaws.StepKeepsInv | src/modules/bom/bom.service.ts:154-482 | every operation keeps: one released revision per item, distinct revision numbers, approver other than creator, released graph acyclic |
| BomReleaseLaws.RunFreezes | src/modules/bom/bom.service.ts:154-482 | through any run a revision that has been released keeps its item, number, lines, creator and approver |
| BomReleaseLaws.EveryRunIsSafe | src/modules/bom/bom.service.ts:154-580 | in every state any run reaches, each item has at most one released BOM, its approver is not its creator and the graph of all released BOMs has no cycle |
| BomRevisions.CreateAdds | src/modules/bom/bom.service.ts:154-191 | a BOM is created exactly for a known item with usable lines; it is a draft with those lines in order, without wastage and bought unless a line says otherwise, and its number is one above the highest of the item, or 1 |
| BomRevisions.NewRevisionAdds | src/modules/bom/bom.service.ts:440-482 | a new revision of an existing row is a draft of the same item with the same lines, no approver, and a number one above the highest that a row of the item has; every other row stays |
| BomRevisions.RowMoves | src/modules/bom/bom.service.ts:192-482 | a row changes if and only if its status and the caller allow the call, and then exactly as stated: edited lines as entered and in order, the next status, the approver; all other rows and fields stay |
| BomRevisions.RevisionReleased | src/modules/bom/bom.service.ts:241-482 | a new revision submitted and approved unedited is released if and only if its source has lines, someone else approves it and both explosions succeed, and then the item is made of the source's lines |
| BomRevisions.EventsLogged | src/modules/bom/bom.service.ts:154-482 | an accepted call appends the events of what it did, one for each revision it touched and the obsolete ones in order of creation; a refused call none |
| BomRevisions.RefusedWith | src/modules/bom/bom.service.ts:154-482 | which error each refused call gives; an explosion error is that of an explosion of the changed item |
| BomAncestors.ReleaseKeepsExplodableIff | src/modules/bom/bom.service.ts:537-580 | after a release that passed the gate every explosion, of either kind, succeeds if and only if no chain through the released item has more than 25 items |
| BomAncestors.EveryRunExplodableIff | src/modules/bom/bom.service.ts:154-580 | throughout a run every explosion of the released BOMs succeeds if and only if no approval in it makes a chain through the approved item longer than 25 |
| BomAncestors.AncestorUnexplodable | src/modules/bom/bom.service.ts:296-382 | a run that releases 26 levels from the top down: each passes its gate, and the last makes the top item unexplodable |
| BomCost.Calculate | src/modules/bom/bom-cost-snapshot.service.ts:51-68 | the loop gives the rounded sum of quantity times cost if and only if every leaf has a cost, and no amount otherwise |
| BomCost.FormsAgree | src/modules/bom/bom-cost.ts:5-16 | the fold succeeds exactly when every leaf has a cost, with the loop's amount, and otherwise names an item that has none |
| BomCost.WalkCost | src/modules/bom/bom-explosion.ts:163-208 | the exact products along the paths the walk finds, at the costs of their parts, add up to the exact cost of the tree: no line is left out or counted twice |
| BomCost.RollUpNearExact | src/modules/bom/bom-cost.ts:5-16 | the rolled-up cost is within half a cent, plus each leaf's quantity error at its cost, of the exact cost of the tree, defined by recursion on the BOMs |
| StockRequirement.AggregateNeeds | src/modules/bom/stock-report.service.ts:303-343 | the two nested loops give one row per item, in order of first appearance, holding that item's sums over all selections |
| StockRequirementLaws.RowsAreTotals | src/modules/bom/stock-report.service.ts:303-343 | rows have distinct items, cover every snapshot line, hold plain sums although each addition is rounded again, and base plus wastage is gross in each |
| StockRequirement.ClassificationBalances | src/modules/bom/stock-calc.ts:49-83 | stock plus shortage minus surplus is the requirement, never both positive; AVAILABLE exactly when nothing is short; expected exactly when the receipt covers the shortage in time; without a stock record everything is short, and the status UNKNOWN |
| RequirementMeaning.NeedIs | src/modules/bom/stock-calc.ts:11-39 | base is quantity times order, wastage its percentage of that, each to four places, and gross their sum |
| RequirementMeaning.SnapshotIs | src/modules/bom/stock-report.service.ts:126-153 | a snapshot line keeps the base quantity and the percentage by which gross exceeds it, to four places and then to the two of its column; none without a base |
| RequirementMeaning.RowIs | src/modules/bom/stock-report.service.ts:303-343 | an item's row holds the sums of ordered quantity, base, wastage and gross over every line of every selection that names it |
| StockRequirement.NeedAddsUp | src/modules/bom/stock-calc.ts:18-39 | a line's gross requirement is its base plus its wastage: the last rounding changes nothing |
| StockRequirement.RederivedGross | src/modules/bom/stock-report.service.ts:303-314 | re-deriving gross with a percentage off by at most eps misses exploded gross times ordered quantity by at most b*q*eps/100 + 0.00005*(2 + w/100) |
| StockRequirement.ComputedPercentError | src/modules/bom/stock-report.service.ts:126-153 | with the four-place percentage as computed the bound is b*q*0.0000005 + 0.00005*(2 + w/100) |
| StockRequirement.StoredPercentError | prisma/schema.prisma:4227-4242 | with the percentage as its two-place column stores it the first term is b*q*0.0000505 |
| StockRequirementLaws.StoredPercentMeetsIff | src/modules/bom/stock-report.service.ts:126-153 | the four-place bound holds of the stored percentage, for every ordered quantity, if and only if the stored percentage is within 0.00005 of the exact one |
| StockRequirementLaws.StoredPercentIsCoarser | src/modules/bom/stock-report.service.ts:147-151 | the four-place bound fails for the stored percentage: a two-level leaf for which 10 000 units come out 250 bolts short |
| StockRequirementLaws.ZeroBaseIsLost | src/modules/bom/stock-report.service.ts:126-153 | a leaf whose base quantity rounds to zero is required in no quantity, whatever its gross |
| StockRequirementLaws.SmallPartsAreLost | src/modules/bom/stock-report.service.ts:126-153 | such a leaf with a positive gross quantity exists |
| StockRequirementLaws.ExamplesAreExplosions | src/modules/bom/stock-report.service.ts:105-112 | the bolts and the lost parts are what the procurement explosion of two released BOMs yields, one making a part that the other buys for |
| StockRequirementLaws.ExplodedLeavesOk | src/modules/bom/stock-report.service.ts:105-112 | every leaf of a successful explosion of non-negative lines meets the assumptions of the bounds |
| StockRequirementLaws.ReportNearOrder | src/modules/bom/stock-report.service.ts:303-343 | for every order each item's reported requirement is within the sum of its leaves' bounds of gross quantity times ordered quantity over all products |
| Inventory.InventoryService.AdjustStock | src/modules/bom/inventory.service.ts:152-257 | the bucket moves and the change is recorded, unless on-hand, blocked or available would go negative |
| Inventory.InventoryService.ReceiveGoods | src/modules/scm-purchasing/goods-receipt-note.service.ts:378-408 | an accepted receipt raises on-hand and records the change |
| Inventory.InventoryService.CreateReservation | src/modules/bom/stock-report.service.ts:499-563 | a positive quantity within what is available, or any with the override, becomes an active reservation and raises reserved |
| Inventory.InventoryService.CancelReservation | src/modules/bom/stock-report.service.ts:581-627 | an active reservation of the kickoff becomes inactive and reserved drops by its quantity, clamped at zero |
| Inventory.InventoryService.ReservedFor | src/modules/bom/inventory.service.ts:318-328 | the sum over the kickoff's active reservations at the place |
| Inventory.InventoryService.ConsumeReservations | src/modules/bom/inventory.service.ts:350-376 | the first-in-first-out loop does what the recursive `Consume` does |
| Inventory.InventoryService.IssueStockOut | src/modules/bom/inventory.service.ts:286-388 | an issue passes exactly when it is positive and within available plus the kickoff's own reserve, and then moves stock |
| Inventory.InventoryService.MoveStock | src/modules/bom/inventory.service.ts:336-388 | on-hand, reserved, the kickoff's reservations and the ledger all move by the issue |
| Inventory.ValuationQuantities | src/modules/finance-management/management.service.ts:585-632 | the grouped quantities are, per place, the sums of the ON_HAND changes |
| InventoryLaws.ConsumeOldestFirst | src/modules/bom/inventory.service.ts:350-376 | drawing uses up the kickoff's reservations strictly oldest first, leaves at most one partly used, and touches no other |
| InventoryLaws.ConsumeTotal | src/modules/bom/inventory.service.ts:350-376 | drawing removes exactly the drawn amount from the kickoff's total at that place and nothing elsewhere |
| InventoryLaws.CancelNeverClamps | src/modules/bom/stock-report.service.ts:600-620 | in every reachable state the balance covers the cancelled reservation, so the clamp at zero never fires |
| InventoryLaws.IssueDrawsOldestFirst | src/modules/bom/inventory.service.ts:310-388 | an issue for a kickoff draws only its own reservations, oldest first, by what unreserved stock did not cover, and leaves on-hand at least blocked plus what others reserved, overrides or not |
| InventoryLaws.IssueWithoutKickoff | src/modules/bom/inventory.service.ts:310-388 | an issue for no kickoff touches no reservation and leaves available non-negative |
| InventoryLaws.FromReservationIff | src/modules/bom/inventory.service.ts:331-344 | an issue takes no more out of the reservations than it issues if and only if available stock was not negative |
| InventoryLaws.OverrideReleasesTooMuch | src/modules/bom/inventory.service.ts:331-388 | a run of three calls in which issuing three releases eight of a reservation of fifteen |
| InventoryLaws.StepKeeps | src/modules/bom/inventory.service.ts:152-388 | every operation keeps balances equal to the sums of reservations and movements |
| InventoryLaws.EveryRunBalances | src/modules/bom/inventory.service.ts:152-388 | in every run reserved is the sum of active reservations, on-hand and blocked are the sums of their changes and never negative, and without overrides on-hand covers blocked plus reserved |
| StockMovements.AdjustMoves | src/modules/bom/inventory.service.ts:152-257 | an adjustment goes through if and only if it leaves on-hand, blocked and available at least zero; it moves its bucket at its place by the delta and records it, and nothing else changes |
| StockMovements.ReceiveMoves | src/modules/scm-purchasing/goods-receipt-note.service.ts:378-408 | the accepted quantity comes onto on-hand at its place and is recorded; nothing else changes |
| StockMovements.ReserveMoves | src/modules/bom/stock-report.service.ts:499-563 | a reservation needs that much available, or the override; reserved rises by it and it is kept as active |
| StockMovements.CancelMoves | src/modules/bom/stock-report.service.ts:581-627 | in every reachable state cancelling an active reservation gives back exactly what it still reserves |
| StockMovements.IssueMoves | src/modules/bom/inventory.service.ts:286-388 | an issue goes through if and only if available plus the kickoff's own active reserve covers it; on-hand falls by it and reserved by what is drawn from that reserve |
| StockMovements.RefusedWith | src/modules/bom/inventory.service.ts:152-388 | which error each refused call gives |
| Csv.CsvRows | src/modules/finance-operations/operations.service.ts:633-661 | the character loop computes the reader's meaning on every text, or the unclosed-quote error; which rows it keeps is stated in characters by `CsvBlank.QuoteFreeRowsThatShow` and `PrintedRowsThatShow` |
| CsvLaws.ParseUndoesPrint | src/modules/finance-operations/operations.service.ts:633-661 | reading rows quoted by `csv`, joined by commas and by LF, CR or CRLF gives back the rows with a field that is not blank, for arbitrary strings; `CsvBlank.BlankRowIff` says which rows these are |
| CsvLaws.ParseUndoesPack | src/modules/finance-operations/operations.service.ts:140-155 | an exported pack, with its bare header line, reads back as the header and every metric that is not blank |
| CsvLaws.ParseHeadedTable | src/modules/finance-operations/operations.service.ts:140-155 | any table printed below a bare header reads back as header and table |
| CsvLaws.UnclosedIffOddQuotes | src/modules/finance-operations/operations.service.ts:656-660 | the unclosed-quote error is raised if and only if the number of quote characters is odd |
| CsvLaws.QuoteFreeTextSplits | src/modules/finance-operations/operations.service.ts:633-661 | without quotes reading is splitting at CRLF, CR or LF, then at commas, and dropping all-blank rows |
| CsvBlank.BlankRowIff | src/modules/finance-operations/operations.service.ts:651-657 | a row is dropped if and only if none of its fields has a character outside the 25 characters of white space, which are listed |
| CsvBlank.PrintedTableReadsBack | src/modules/finance-operations/operations.service.ts:633-661 | rows that each have some character that is not white space read back as printed, empty fields included, at any of the three line breaks |
| CsvBlank.PrintedBlanksVanish | src/modules/finance-operations/operations.service.ts:651-657 | rows of nothing but white space read back as no rows |
| CsvBlank.PrintedRowsThatShow | src/modules/finance-operations/operations.service.ts:633-661 | of any printed table exactly the rows with a character that is not white space read back, in order and unchanged |
| CsvBlank.QuoteFreeRowsThatShow | src/modules/finance-operations/operations.service.ts:633-661 | the same of any text without quotes, cut at its line breaks and commas |
| CsvBlank.PrintableShows | src/modules/finance-operations/operations.service.ts:651-657 | no letter, digit or punctuation is white space |
| BankReconciliation.OperationsService.ImportStatement | src/modules/finance-operations/operations.service.ts:185-247 | a file that is non-empty, in period, one-sided per row, balanced after rounding and not seen before becomes a draft statement, both balances rounded to two places, with suggestions |
| BankReconciliation.OperationsService.SuggestMatches | src/modules/finance-operations/operations.service.ts:662-709 | the loop over the new lines suggests as the recursive specification does; `BankMatching.MatchedIff` says what that is in terms of the books |
| BankReconciliation.OperationsService.MatchLine | src/modules/finance-operations/operations.service.ts:325-373 | a line of an open statement is matched, confirmed, to a posted transaction of its amount that no line has |
| BankReconciliation.OperationsService.ConfirmSuggestion | src/modules/finance-operations/operations.service.ts:374-390 | an existing suggestion becomes confirmed and the line matched |
| BankReconciliation.OperationsService.AcceptUnmatched | src/modules/finance-operations/operations.service.ts:391-415 | with a reason, the match is dropped and the line accepted without one |
| BankReconciliation.OperationsService.SubmitStatement | src/modules/finance-operations/operations.service.ts:416-433 | only an open statement without pending lines is submitted |
| BankReconciliation.OperationsService.ApproveStatement | src/modules/finance-operations/operations.service.ts:434-451 | only a submitted statement is approved, not by its importer |
| BankReconciliation.OperationsService.RejectStatement | src/modules/finance-operations/operations.service.ts:452-462 | only a submitted statement is rejected, and reopens |
| BankReconciliationLaws.SuggestsTheOnlyCandidate | src/modules/finance-operations/operations.service.ts:662-709 | a new line gets a suggestion if and only if it has a reference and one candidate that is free of earlier lines, and gets that one; `BankMatching.MatchedIff` says what the candidates are |
| BankMatching.MatchedIff | src/modules/finance-operations/operations.service.ts:662-709 | line k ends matched with t, unconfirmed, if and only if its reference has more than white space, t is a posted receipt of its credit or, without a credit, an executed payment of its debit, with its reference letter by letter in either case, no earlier line has t, and no other transaction does all this |
| BankMatching.ImportIff | src/modules/finance-operations/operations.service.ts:185-247 | a file is accepted if and only if it has rows, each in the period and after rounding either paid out or paid in, its opening balance with the rounded rows rounds to its closing one, and no statement has its hash |
| BankMatching.ImportAdds | src/modules/finance-operations/operations.service.ts:185-247 | an import adds one draft statement with both balances and its rows in order, pending, each side rounded; nothing else changes |
| BankMatching.LineAfter | src/modules/finance-operations/operations.service.ts:325-415 | a line changes if and only if its statement is in work and it is matched to a free transaction of what the bank moved, confirmed with a match, or accepted with a reason; and then exactly so |
| BankMatching.StatementAfter | src/modules/finance-operations/operations.service.ts:416-462 | a statement changes if and only if it is submitted without pending lines, approved by someone other than its importer, or rejected; and then only in status and approver |
| BankMatching.RefusedWith | src/modules/finance-operations/operations.service.ts:185-462 | which error each refused call gives |
| BankReconciliationLaws.StepKeeps | src/modules/finance-operations/operations.service.ts:185-461 | every call and every new posting keeps the one-to-one relation, the amounts and the resolutions, and leaves approved statements alone |
| BankReconciliationLaws.RunKeeps | src/modules/finance-operations/operations.service.ts:185-461 | through any run the invariant holds and an approved statement and its lines never change |
| BankReconciliationLaws.EveryRunMatchesOneToOne | src/modules/finance-operations/operations.service.ts:325-461 | in every run no transaction is matched to two lines, a matched receipt or payment has the line's amount, and each line of an approved statement is confirmed as matched or accepted without a match, by someone other than the importer |
| BankReconciliationLaws.EveryRunBalances | src/modules/finance-operations/operations.service.ts:207-216 | in every run stored opening plus credits minus debits is stored closing within 0.01, and exactly unless the opening balance as entered ends in half a paisa and the lines carry it over zero |
| BankReconciliationLaws.RoundedApart | src/modules/finance-operations/operations.service.ts:207-216 | rounding the opening balance and adding whole paise gives the rounded sum if and only if the opening is not half way between two paise with the sum on the other side of zero |
| BankReconciliationLaws.MoneyIsNoTie | prisma/schema.prisma:6556-6584 | an opening balance of two decimals never is such a case |
| BankReconciliationLaws.OverdrawnHalfCentUnbalanced | src/modules/finance-operations/operations.service.ts:185-247 | an accepted import whose stored balances differ by a paisa: opening -0.005, one rupee received |
| FinanceServices.FinanceService.PostJournal | src/modules/finance/finance.service.ts:528-597 | the helper drops lines without an amount and takes the rest exactly when each is one-sided and debits equal credits and are positive |
| FinanceServices.FinanceService.SetInvoiceTds | src/modules/finance-compliance/filings.service.ts:45-51 | the TDS of a bill not yet posted is replaced; nothing else on it changes |
| FinanceServices.FinanceService.CreateApInvoice | src/modules/finance-ap/ap.service.ts:79-250 | a bill is stored with its amounts rounded, if taxes equal the lines' taxes and TDS does not exceed the total |
| FinanceServices.FinanceService.PostApInvoice | src/modules/finance-ap/ap.service.ts:673-740 | an unposted bill is opened and its lines are recorded, unless the helper refuses them: then nothing changes |
| FinanceServices.FinanceService.CreateApPayment | src/modules/finance-ap/ap.service.ts:341-414 | a payment is stored if it names open bills of the party once each, within their outstanding amounts and its own |
| FinanceServices.FinanceService.ExecuteApPayment | src/modules/finance-ap/ap.service.ts:741-820 | a payment records its lines once and settles its bills, unless a needed exchange account is missing or the helper refuses the lines |
| FinanceServices.FinanceService.BuildPaymentLines | src/modules/finance-ap/ap.service.ts:741-785 | the lines pushed step by step, or none when an exchange difference has no account |
| FinanceServices.FinanceService.SettleInvoices | src/modules/finance-ap/ap.service.ts:798-810 | the loop over allocations, each reading its invoice as loaded |
| FinanceServices.FinanceService.CreateSalesInvoice | src/modules/finance-ar/ar.service.ts:139-260 | an invoice is stored with the totals of its calculated lines, unless a line's tax rates clash; `AsEntered.SaleEnters` says what it charges and taxes |
| AsEntered.SaleEnters | src/modules/finance-ar/ar.service.ts:139-260 | an invoice is accepted by its request alone; it charges for each line quantity times price less the discount, rounded, each tax at its own rate on that, rounded, and is outstanding by their sum with other charges and round-off |
| AsEntered.ChargedNear | src/modules/finance-ar/ar.service.ts:890-928 | what is charged, and each of the three taxes, is within 0.005 per line of the exact sums |
| AsEntered.DiscountEnds | src/modules/finance-ar/ar.service.ts:890-928 | a line at 100 percent discount adds nothing, one without discount its rounded price |
| AsEntered.EveryRunChargesNear | src/modules/finance-ar/ar.service.ts:139-260 | in every run each invoice still charges, and is taxed, within 0.005 per line of the prices and rates it was entered with |
| AsEntered.BillEnters | src/modules/finance-ap/ap.service.ts:79-250 | a bill is accepted by its request alone and waits with its rounded lines, charges and taxes as entered, outstanding by their sum less TDS |
| AsEntered.BillChargedNear | src/modules/finance-ap/ap.service.ts:79-250 | a bill's taxable amount is within 0.005 per line of quantity times unit price |
| AsEntered.EveryRunBillsNear | src/modules/finance-ap/ap.service.ts:79-250 | in every run each bill still charges within 0.005 per line of the prices it was entered with |
| AsEntered.TdsIsSet | src/modules/finance-compliance/filings.service.ts:45-51 | only a bill that waits to be posted gets another TDS, the rounded percentage of the base |
| AsEntered.PaymentEnters | src/modules/finance-ap/ap.service.ts:341-414 | a payment is accepted if and only if it names different open bills of its party, none beyond what is outstanding, and at most its amount in all; it is kept as entered, rounded |
| AsEntered.ReceiptEnters | src/modules/finance-ar/ar.service.ts:673-744 | the same of a receipt and its TDS, with what is left over |
| AsEntered.NoteEnters | src/modules/finance-compliance/compliance.service.ts:82-132 | a note is accepted if and only if it is for something, on an open invoice and, unless it is a debit note, within what is outstanding |
| AsEntered.EveryRunAsEntered | src/modules/finance-ap/ap.service.ts:79-820 | in every run the documents of each kind are those entered, in order, and hold to the last what their requests said |
| FinanceServices.FinanceService.IssueAndPost | src/modules/finance-ar/ar.service.ts:929-973 | an unposted invoice is issued and its lines recorded, unless the helper refuses them |
| FinanceServices.FinanceService.CreateCustomerReceipt | src/modules/finance-ar/ar.service.ts:673-744 | a receipt is stored with what it leaves unapplied, or refused as the code and the unique key of its allocations refuse it |
| FinanceServices.FinanceService.PostCustomerReceipt | src/modules/finance-ar/ar.service.ts:974-1075 | a receipt records its lines once and settles its invoices, unless a needed exchange account is missing or the helper refuses the lines |
| FinanceServices.FinanceService.BuildReceiptLines | src/modules/finance-ar/ar.service.ts:985-1036 | the lines pushed step by step, or none when an exchange difference has no account |
| FinanceServices.FinanceService.CreateAdjustmentNote | src/modules/finance-compliance/compliance.service.ts:82-132 | a note on an open invoice is stored with a positive total, a credit note within what is outstanding |
| FinanceServices.FinanceService.PostAdjustmentNote | src/modules/finance-compliance/compliance.service.ts:575-662 | a note records its lines once and moves what is outstanding, a credit note only within it, unless the helper refuses the lines |
| AccountMovements.BillPosted | src/modules/finance-ap/ap.service.ts:673-740 | a posted bill is open and moves expense or stock, input tax, payables and TDS by its converted amounts, and no other account |
| AccountMovements.SalePosted | src/modules/finance-ar/ar.service.ts:929-973 | a posted sales invoice is open and moves receivables, revenue and output tax, and no other account |
| AccountMovements.PaymentPosted | src/modules/finance-ap/ap.service.ts:741-820 | an executed payment moves payables, vendor advance and bank, a gain credits the gain account and a loss debits the loss account, and no other account moves |
| AccountMovements.ReceiptPosted | src/modules/finance-ar/ar.service.ts:974-1075 | a posted receipt moves bank, charges, TDS receivable, receivables, customer advance, and the gain or the loss account, and no other |
| AccountMovements.NotePosted | src/modules/finance-compliance/compliance.service.ts:575-662 | a posted note moves its invoice's outstanding amount, its control account, base account and tax, with the sign its kind says, and nothing else |
| PaidAmounts.SettledRow | src/modules/finance-ap/ap.service.ts:798-810 | a settlement of different invoices leaves each with what was outstanding less its allocation, paid plus it, and paid in full exactly when nothing is left |
| PaidAmounts.EveryRunOwes | src/modules/finance-ap/ap.service.ts:79-820 | in every run what is paid on an invoice is what posted settlements allocated to it, and what is outstanding is what it first came to less that, plus posted debit notes and less credit notes |
| PaidAmounts.ReceiptRefusedWith | src/modules/finance-ar/ar.service.ts:673-744 | which error a refused receipt gives |
| PaidAmounts.RefusedWith | src/modules/finance-ap/ap.service.ts:79-820 | which error every other refused call on finance documents gives |
| FinancePostingLaws.BillImbalance | src/modules/finance-ap/ap.service.ts:673-723 | debits minus credits of a bill's lines are within 0.02 of the converted gap between its stored total and parts, at any rate |
| FinancePostingLaws.BillStoredExactly | src/modules/finance-ap/ap.service.ts:164-189 | a bill entered with two-decimal amounts is stored without a gap |
| FinancePostingLaws.SalesBalance | src/modules/finance-ar/ar.service.ts:929-955 | the three lines a sales invoice hands over sum to zero, at any rate |
| FinancePostingLaws.SaleStoredExactly | src/modules/finance-ar/ar.service.ts:890-928 | with charges and round-off of two decimals an accepted invoice's stored total is its taxable amount, taxes, charges and round-off, and its central and state taxes are equal |
| FinancePostingLaws.PaymentImbalance | src/modules/finance-ap/ap.service.ts:741-785 | a payment's lines balance within 0.005, for any rates and allocations, unless the allocations exceed the amount, and then within 0.005 of the converted excess |
| FinancePostingLaws.ReceiptImbalance | src/modules/finance-ar/ar.service.ts:974-1036 | a receipt's lines are within 0.01 of the converted sum of its stored gap and of bank charges beyond the amount |
| FinancePostingLaws.ReceiptStoredExactly | src/modules/finance-ar/ar.service.ts:706-732 | a receipt entered with two-decimal amounts has no gap, and overcharges exactly when its charges exceed its amount |
| FinancePostingLaws.NoteImbalance | src/modules/finance-compliance/compliance.service.ts:575-630 | a note's lines are within 0.015 of its converted gap, on the side its kind says |
| FinancePostingLaws.NoteStoredExactly | src/modules/finance-compliance/compliance.service.ts:82-95 | a note entered with two-decimal amounts has no gap |
| PostingGate.PostingIff | src/modules/finance/finance.service.ts:528-597 | lines that are debits and credits of non-negative amounts are accepted if and only if they balance exactly and are not all zero |
| PostingGate.GateIs | src/modules/finance/finance.service.ts:493-597 | the helper takes any lines if and only if each with a positive amount is a debit or a credit and not both, and these debits and credits add up to the same positive sum; it records the lines with a positive amount |
| PostingGate.PostedNet | src/modules/finance/finance.service.ts:528-597 | the lines recorded move every account as the lines handed over do |
| PostingGate.BillPostsIff | src/modules/finance-ap/ap.service.ts:673-723 | a bill is accepted if and only if its taxable amount with charges and its tax, each converted and rounded, add up to its converted outstanding amount and TDS, and not to zero |
| PostingGate.SalePostsIff | src/modules/finance-ar/ar.service.ts:929-955 | a sales invoice is accepted if and only if its converted total is positive and at least its converted, non-negative tax |
| PostingGate.PaymentPostsIff | src/modules/finance-ap/ap.service.ts:741-785 | a payment is accepted if and only if rounding its exchange difference makes up for what the allocations exceed it by; within its amount, if and only if the difference has two decimals |
| PostingGate.ReceiptPostsIff | src/modules/finance-ar/ar.service.ts:974-1036 | a receipt is accepted if and only if its converted gap and overcharge equal the difference of its two roundings, of the bank line and of the exchange difference |
| PostingGate.NotePostsIff | src/modules/finance-compliance/compliance.service.ts:575-630 | a note is accepted if and only if its converted total is positive and the sum of its converted parts |
| PostingBounds.BillWithinIff | src/modules/finance-ap/ap.service.ts:673-723 | a bill's lines are within 0.02 at every rate if and only if its stored amounts have no gap |
| PostingBounds.BillEnteredIff | src/modules/finance-ap/ap.service.ts:164-240 | so are a bill as entered if and only if its amounts, rounded one by one, add up to its rounded total |
| PostingBounds.BillPostsAtPar | src/modules/finance-ap/ap.service.ts:673-723 | a bill without a gap, in whole paise and at rate 1, is accepted unless it is for nothing |
| PostingBounds.SubCentTaxesUnbalance | src/modules/finance-ap/ap.service.ts:164-240 | with sub-cent taxes a gap arises: a bill accepted at rate 1000 whose lines are out by ten rupees and refused |
| PostingBounds.PaymentWithinIff | src/modules/finance-ap/ap.service.ts:741-785 | a payment's lines are within 0.005 at every rate if and only if its allocations stay within its amount |
| PostingBounds.PaymentEnteredIff | src/modules/finance-ap/ap.service.ts:341-414 | as entered: if and only if the allocations, rounded one by one, stay within the rounded amount |
| PostingBounds.ReceiptWithinIff | src/modules/finance-ar/ar.service.ts:974-1036 | a receipt's lines are within 0.01 at every rate if and only if its gap and its overcharge cancel out |
| PostingBounds.ReceiptEnteredIff | src/modules/finance-ar/ar.service.ts:673-744 | the same condition in terms of the amounts entered, rounded one by one |
| PostingBounds.OverchargedIsRefused | src/modules/finance-ar/ar.service.ts:974-1036 | a receipt without a gap is refused when its overcharge is more than half a paisa in rupees |
| PostingBounds.OverchargedReceiptRefused | src/modules/finance-ar/ar.service.ts:673-744 | ten received and thirty charged: the receipt is accepted, its lines are out by twenty, and it is refused |
| PostingBounds.NoteWithinIff | src/modules/finance-compliance/compliance.service.ts:575-630 | a note's lines are within 0.015 at every rate if and only if it has no gap |
| PostingBounds.NoteEnteredIff | src/modules/finance-compliance/compliance.service.ts:82-95 | as entered: if and only if its parts, rounded one by one, add up to its rounded total |
| JournalBalance.EveryJournalBalances | src/modules/finance/finance.service.ts:528-597 | in every run, whatever was entered, the lines of each journal, as the helper accepts them, are one-sided with equal, positive debits and credits; what their two-place columns then hold is in StoredBalance |
| JournalBalance.EveryRunDecidesPosting | src/modules/finance-ap/ap.service.ts:673-820 | the state every run reaches meets what the five conditions below assume |
| JournalBalance.BillPosts | src/modules/finance-ap/ap.service.ts:673-740 | in a reachable state a waiting bill is posted if and only if its converted amounts add up and are not zero |
| JournalBalance.SalePosts | src/modules/finance-ar/ar.service.ts:929-973 | a waiting sales invoice: if and only if its converted total is positive and covers its tax |
| JournalBalance.PaymentPosts | src/modules/finance-ap/ap.service.ts:741-820 | a waiting payment: if and only if its exchange difference, rounded, makes up for any excess and, when not zero, has its account; within its amount, if and only if the difference has two decimals and, when not zero, its account |
| JournalBalance.ReceiptPosts | src/modules/finance-ar/ar.service.ts:974-1075 | a waiting receipt: if and only if its exchange difference has its account when there is one and its roundings differ by what it is out |
| JournalBalance.NotePosts | src/modules/finance-compliance/compliance.service.ts:575-662 | a waiting note: if and only if a credit is still covered and its converted total is the sum of its converted parts and positive |
| JournalBalance.EveryRunHandsOverNearly | src/modules/finance-ap/ap.service.ts:673-796 | in every run with two-decimal amounts and no overcharged receipt the lines of a waiting document are out by at most 0.02 for a bill whose TDS is not set again, 0.005 for a payment, 0.01 for a receipt and 0.015 for a note, at any rates |
| StoredBalance.StoredPaymentNet | prisma/schema.prisma:4614-4632 | the stored lines of a payment are out by its carrying amount and its advance, each rounded, less the rounded amount paid and the exchange difference |
| StoredBalance.StoredPaymentBalance | src/modules/finance-ap/ap.service.ts:741-785 | an accepted payment is stored in balance if and only if what rounding leaves of its carrying amount and of its advance comes to less than half a paisa either way; otherwise it is one paisa out, and on which side is stated |
| StoredBalance.NoAdvanceBalances | src/modules/finance-ap/ap.service.ts:741-785 | an accepted payment that leaves no advance, or whose carrying amount has two decimals, is stored in balance |
| StoredBalance.StoredReceiptNet | prisma/schema.prisma:4614-4632 | the stored lines of a receipt are out by the bank line and the rounded charges and TDS less the rounded carrying amount, advance and exchange difference |
| StoredBalance.StoredReceiptBalance | src/modules/finance-ar/ar.service.ts:974-1036 | an accepted receipt is out, as stored, by what rounding leaves of its carrying amount and advance less what it leaves of its charges and TDS: nothing or one paisa |
| StoredBalance.BillStoredBalanced | src/modules/finance-ap/ap.service.ts:673-723 | an accepted bill is stored in balance |
| StoredBalance.SaleStoredBalanced | src/modules/finance-ar/ar.service.ts:929-955 | so is an accepted sales invoice |
| StoredBalance.NoteStoredBalanced | src/modules/finance-compliance/compliance.service.ts:575-630 | so is an accepted note |
| StoredBalance.EveryRunStoredNearly | src/modules/finance/finance.service.ts:528-597 | in every run each stored journal is within a paisa of balance, no more of them are out than payments and receipts have been posted, and the stored books in all are out by at most a paisa for each of those |
| StoredBalance.EveryRunStoredExactlyIff | src/modules/finance/finance.service.ts:528-597 | in a run every stored journal balances if and only if no settlement is posted in it of which rounding leaves something |
| StoredBalance.EveryRunStoredAtPar | src/modules/finance/finance.service.ts:528-597 | when bills, sales invoices and receipts are all at rate 1 every stored journal balances, and so do the stored books |
| PaisaAstray.HalfInAdvance | src/modules/finance-ap/ap.service.ts:741-820 | a run of four calls that pays a bill twice over at its own rate: the stored payment is out by twice the rounded price less the rounded amount |
| PaisaAstray.StoredPaisaOver | src/modules/finance-ap/ap.service.ts:741-820 | such a run at 0.01 and 1.5: the payment is accepted, and its stored debits exceed its credits by a paisa |
| PaisaAstray.StoredPaisaUnder | src/modules/finance-ap/ap.service.ts:741-820 | such a run at 50.01 and 83.45: its stored credits exceed its debits by a paisa |
| StuckBills.EverPostedIff | src/modules/finance-ap/ap.service.ts:673-740 | some run of calls records the journal of a waiting bill if and only if the bill comes to something and some TDS in whole paise converts, at its rate, to what its other amounts leave open |
| StuckBills.SetTdsPostsIff | src/modules/finance-compliance/filings.service.ts:45-51 | a bill that could be posted still can after its TDS is set if and only if the new TDS converts to the amount the old one did |
| StuckBills.TdsBlocksPosting | src/modules/finance-compliance/filings.service.ts:45-51 | a rupee bill that could be posted without TDS is refused once a TDS of a paisa or more is set on it |
| StuckBills.TwoDecimalBillNeverPosted | src/modules/finance-ap/ap.service.ts:164-240 | one paisa of goods and one of tax at rate 1.5: accepted, and refused after any run of calls |
| StuckSettlements.EverExecutedIff | src/modules/finance-ap/ap.service.ts:741-820 | a waiting payment is executed by some run of calls if and only if its exchange difference, rounded, makes up for any excess and has its accounts: otherwise it waits for ever |
| StuckSettlements.EverReceivedIff | src/modules/finance-ar/ar.service.ts:974-1075 | a waiting receipt is posted by some run if and only if its exchange difference has its account and its roundings differ by what it is out |
| StuckSettlements.EverNotedIff | src/modules/finance-compliance/compliance.service.ts:575-662 | a waiting debit note, or a waiting note on an open invoice, is posted by some run if and only if its converted total is the sum of its converted parts and positive |
| StuckSettlements.RunLeavesNote | src/modules/finance-compliance/compliance.service.ts:575-662 | any note whose converted parts do not add up is still waiting after every run |
| StuckSettlements.PaymentPostsAtPar | src/modules/finance-ap/ap.service.ts:741-785 | when all rates are 1 a payment is accepted if and only if its allocations do not exceed it |
| StuckSettlements.ReceiptPostsAtPar | src/modules/finance-ar/ar.service.ts:974-1036 | when all rates are 1 a receipt of whole paise is accepted if and only if its gap and overcharge come to nothing |
| StuckSettlements.NotePostsAtPar | src/modules/finance-compliance/compliance.service.ts:575-630 | at rate 1 a note of whole paise is accepted if and only if it has no gap |
| ControlAccounts.SettleAt | src/modules/finance-ap/ap.service.ts:798-810 | each invoice named is left with its outstanding amount less the last amount allocated to it; the others are unchanged |
| ControlAccounts.SettleMoves | src/modules/finance-ap/ap.service.ts:798-810 | a settlement takes its carrying amount off the subledger, except for what a second allocation to one invoice overwrites |
| ControlAccounts.SettlementConservesIff | src/modules/finance-ar/ar.service.ts:1050-1062 | with positive amounts, subledger and control account move together if and only if no invoice is named twice |
| ControlAccounts.PaymentControl | src/modules/finance-ap/ap.service.ts:741-768 | a payment debits 2000 by exactly the allocations at their bills' rates and leaves 1100 alone |
| ControlAccounts.ReceiptControl | src/modules/finance-ar/ar.service.ts:1003-1024 | a receipt credits 1100 by exactly the allocations at their invoices' rates and leaves 2000 alone |
| ControlAccounts.NoteControl | src/modules/finance-compliance/compliance.service.ts:590-612 | a note moves its own side's control account by its converted total, up for a debit note and down for a credit note, and leaves the other alone |
| ControlAccounts.PostBillKeeps | src/modules/finance-ap/ap.service.ts:673-740 | posting a bill keeps both control accounts reconciled, with one more rounding |
| ControlAccounts.PaymentKeeps | src/modules/finance-ap/ap.service.ts:741-820 | executing a payment keeps them reconciled without any rounding |
| ControlAccounts.ReceiptKeeps | src/modules/finance-ar/ar.service.ts:974-1075 | so does posting a receipt |
| ControlAccounts.NoteKeeps | src/modules/finance-compliance/compliance.service.ts:575-662 | posting a note keeps them reconciled, with one more rounding |
| ControlAccounts.EveryRunReconciles | src/modules/finance-ap/ap.service.ts:673-820 | in every run each control account, 1100 and 2000, summed over journal lines as recorded by the helper, equals the sum over posted invoices of outstanding times booking rate, within 0.005 per posted invoice and note, and exactly when all rates are 1 |
| StoredLedger.BillStoredAsPosted | prisma/schema.prisma:4614-4632 | the two-place columns change nothing in a bill's lines |
| StoredLedger.SaleStoredAsPosted | prisma/schema.prisma:4614-4632 | nor in a sales invoice's lines |
| StoredLedger.NoteStoredAsPosted | prisma/schema.prisma:4614-4632 | nor in a note's lines |
| StoredLedger.StoredPaymentControl | prisma/schema.prisma:4614-4632 | as stored, a payment moves 2000 by its carrying amount rounded to two places, and 1100 not at all |
| StoredLedger.StoredReceiptControl | prisma/schema.prisma:4614-4632 | as stored, a receipt moves 1100 by its carrying amount rounded to two places, and 2000 not at all |
| StoredLedger.EveryRunReconcilesStored | src/modules/finance-ap/ap.service.ts:673-820 | in every run each control account, summed over journal lines as stored, is the sum over posted invoices of outstanding times booking rate within 0.005 per posted invoice, note and settlement, and exactly when all rates are 1 |
| Outstanding.SettleWithinIff | src/modules/finance-ap/ap.service.ts:798-810 | a settlement of distinct invoices takes none of them below zero if and only if each allocation is within what is outstanding |
| Outstanding.StepCoveredIff | src/modules/finance-ap/ap.service.ts:673-820 | while nothing posted is overpaid, a call overpays something if and only if it posts an allocation beyond what is outstanding |
| Outstanding.EveryRunCoveredIff | src/modules/finance-ap/ap.service.ts:673-820 | no posted invoice is ever overpaid in a run if and only if every allocation in it is within what is outstanding when it is posted |
| Outstanding.PaidBeyondPrice | src/modules/finance-ap/ap.service.ts:341-414 | a run in which two payments of one bill are entered and both executed, leaving minus its price outstanding |
| TreasuryService.TreasuryService.SetPaymentHold | src/modules/finance-compliance/compliance.service.ts:228-258 | a hold with a reason disputes any bill, a release opens it by its amounts, whatever status it had |
| TreasuryService.TreasuryService.UsedAdvance | src/modules/finance-treasury/treasury.service.ts:646-652 | the sum of the applications of the source |
| TreasuryService.TreasuryService.ApplyAdvance | src/modules/finance-treasury/treasury.service.ts:377-527 | an advance of a posted source, within what is left of it and what is outstanding on an invoice of the same party, is recorded at the source's rate and taken off the invoice |
| TreasuryMovements.HoldIs | src/modules/finance-compliance/compliance.service.ts:228-258 | a hold needs a reason and disputes the bill; a release gives it the status its two amounts say; nothing else changes |
| TreasuryMovements.AppliesIff | src/modules/finance-treasury/treasury.service.ts:377-527 | an advance is applied if and only if it is worth something at its rate and is within what is left of a posted source of the same party and what is outstanding on the invoice |
| TreasuryMovements.AdvanceMoves | src/modules/finance-treasury/treasury.service.ts:377-527 | it then moves the advance account against the control account at the source's rate and the invoice by the amount, and is kept; nothing else changes |
| TreasuryMovements.RefusedWith | src/modules/finance-treasury/treasury.service.ts:377-527 | which error a refused hold or application gives |
| TreasuryLaws.EveryRunDetours | src/modules/finance-treasury/treasury.service.ts:458-527 | in every run with holds and advances each control account differs from its subledger by what the advances were worth more at the rates of their invoices than at their own, less what was outstanding on invoices opened without a journal, within 0.005 per posted invoice, note and application |
| TreasuryLaws.EveryRunReconcilesIff | src/modules/finance-compliance/compliance.service.ts:228-258 | with bills at rate 1 and no advance applied to one, account 2000 equals its subledger in a run if and only if no waiting bill with something outstanding was held or released |
| TreasuryLaws.HoldOpensBill | src/modules/finance-compliance/compliance.service.ts:228-258 | a run of three calls after which a bill is open for payment and nothing has been recorded |
| Schedules.DueDates | src/modules/finance-management/management.service.ts:865-884 | the loop gives the due dates the specification gives |
| Schedules.ManagementService.CreateSchedule | src/modules/finance-management/management.service.ts:401-439 | a schedule starts as a draft at its start date, unless it ends before that |
| Schedules.ManagementService.ActivateSchedule | src/modules/finance-management/management.service.ts:466-484 | only a schedule that is not yet active becomes so |
| Schedules.ManagementService.CheckedPlans | src/modules/finance-management/management.service.ts:498-522 | every date of every plan is checked for an open period before anything is posted; `OpenPeriods.IsOpenIff` says what an open period is, `RunsIff` what is checked |
| Schedules.ManagementService.Run | src/modules/finance-management/management.service.ts:495-584 | either nothing changes, or every due schedule has posted its dates in order and moved to its next date; `OpenPeriods.RunsIff` says which, `RunExecutes` and `RunMoves` what is posted |
| SchedulesLaws.NthMonth | src/modules/finance-management/management.service.ts:856-864 | dates fall in consecutive months, on the same day or the 28th when it is later |
| SchedulesLaws.DatesAreFirst | src/modules/finance-management/management.service.ts:865-884 | the due dates are the first monthly dates, all of them due, and the next one is not |
| SchedulesLaws.DatesSplit | src/modules/finance-management/management.service.ts:865-884 | dates due up to A, then those due from there up to B, are the dates due up to B |
| SchedulesLaws.ScheduleSplit | src/modules/finance-management/management.service.ts:495-584 | one schedule run up to A and then up to B ends as one run up to B, status and remaining runs included |
| SchedulesLaws.RunInSteps | src/modules/finance-management/management.service.ts:495-584 | running up to A and later up to B succeeds exactly when running up to B does, leaves all schedules the same and executes the same dates for each in the same order |
| SchedulesLaws.HistoryAdvances | src/modules/finance-management/management.service.ts:495-584 | in any history a schedule runs its next monthly dates one after the other, never more than its remaining runs nor past its end date |
| SchedulesLaws.EveryHistoryConsecutive | src/modules/finance-management/management.service.ts:495-584 | in every history the dates executed for a schedule fall in consecutive months, so none is executed twice |
| OpenPeriods.IsOpenIff | src/modules/finance-management/management.service.ts:514-522 | a day is open if and only if the first period it falls in, both ends included, is open |
| OpenPeriods.RunsIff | src/modules/finance-management/management.service.ts:495-522 | a run goes through if and only if for every date that has come on an active schedule the first period it falls in is open |
| OpenPeriods.RunExecutes | src/modules/finance-management/management.service.ts:523-584 | a run executes exactly the dates that have come, from the next date on, within end date and remaining runs, each in an open period |
| OpenPeriods.RunMoves | src/modules/finance-management/management.service.ts:523-584 | a schedule moves on by its n executed dates, with n fewer runs, and completes exactly when its next date is past its end or no run is left |
| OpenPeriods.EntersAndStarts | src/modules/finance-management/management.service.ts:401-484 | a schedule is entered and activated exactly when the stated conditions hold |
| OpenPeriods.EveryHistoryRunsOpen | src/modules/finance-management/management.service.ts:495-584 | in any history every date executed had come in some run, and the first of that run's periods it falls in is open |
| OpenPeriods.RefusedWith | src/modules/finance-management/management.service.ts:401-522 | which error each refused call gives |
| Depreciation.ManagementService.CreateAsset | src/modules/finance-management/management.service.ts:213-250 | an asset is stored with nothing depreciated, if its residual value is below its cost and it has a life |
| Depreciation.ManagementService.ActivateAsset | src/modules/finance-management/management.service.ts:277-318 | only an asset that is not yet in use becomes so |
| Depreciation.ManagementService.RunDepreciation | src/modules/finance-management/management.service.ts:329-400 | in an open period every asset takes its turn once, else nothing changes; `OpenPeriods.DepreciatesIff` says what an open period is and what a turn books |
| Depreciation.AccumulatedExactly | src/modules/finance-management/management.service.ts:346-385 | for one asset run through any periods in any order and with repeats, accumulated is exactly the smaller of monthly share times number of different periods in use and the depreciable amount; book value never falls below residual |
| Depreciation.ShortfallAfterLife | src/modules/finance-management/management.service.ts:348-352 | after as many different periods as the life has months, what is left is between zero and half a cent per month |
| Depreciation.EveryRunDepreciates | src/modules/finance-management/management.service.ts:213-400 | in every run of creating, activating and depreciating, each asset's accumulated amount is the smaller of its monthly share times the number of different periods run while it was in use and its depreciable amount, and book value is at least residual |
| OpenPeriods.DepreciatesIff | src/modules/finance-management/management.service.ts:329-400 | depreciation is booked if and only if the first period the day falls in is open: to each asset in use, capitalized by the period's end and without an entry for it, the rounded monthly share or what is left |
| OpenPeriods.EveryRunBooksOpen | src/modules/finance-management/management.service.ts:329-400 | in every run each entry was booked by a call whose day first falls in that very period, which was open in that call |
| OpenPeriods.AssetEntersAndStarts | src/modules/finance-management/management.service.ts:213-318 | an asset is entered with nothing written off if its residual is below its cost and it has a life, and is put to use once |
| OpenPeriods.AssetRefusedWith | src/modules/finance-management/management.service.ts:213-400 | which error each refused call gives |
| Reporting.Trial | src/modules/finance-reporting/reporting.service.ts:383-413 | the loop gives one row per account in order of first appearance with its total debits and credits |
| Reporting.CashFlowReport | src/modules/finance-reporting/reporting.service.ts:71-130 | the loop gives for each class the cash moved by the journals of that class; closing is opening plus net |
| Reporting.ClassIsTheOnlyCategory | src/modules/finance-reporting/reporting.service.ts:92-106 | a journal is classified if and only if its non-cash lines have exactly one category that is not NON_CASH |
| Reporting.ReportingService.CreateRollover | src/modules/finance-reporting/reporting.service.ts:267-330 | a closed year followed by the target is snapshot once, with the year's profit taken into retained earnings |
| Reporting.ReportingService.SubmitRollover | src/modules/finance-reporting/reporting.service.ts:331-344 | only a draft is submitted |
| Reporting.ReportingService.ApproveRollover | src/modules/finance-reporting/reporting.service.ts:345-382 | someone else completes it: opening balances are written, unless an account has one, and the source year closes |
| ReportMeaning.TrialRows | src/modules/finance-reporting/reporting.service.ts:383-413 | one row for each account with a posted line in the range, with all its debits and all its credits there |
| ReportMeaning.ProfitIs | src/modules/finance-reporting/reporting.service.ts:414-447 | profit is credits less debits on the accounts that are neither asset, liability nor equity |
| ReportMeaning.SheetIs | src/modules/finance-reporting/reporting.service.ts:448-483 | assets, liabilities and equity are the balances of their accounts by their kinds, with all earnings to date in equity, and the difference what is left |
| ReportMeaning.ClassIs | src/modules/finance-reporting/reporting.service.ts:92-106 | a journal is of a cash category if and only if some of its lines off the bank account is in it and none in another |
| ReportMeaning.CashInIs | src/modules/finance-reporting/reporting.service.ts:86-110 | each section holds the cash moved by the journals of its category, and the mixed one that of all others |
| ReportMeaning.OpeningsAre | src/modules/finance-reporting/reporting.service.ts:297-322 | the openings are, account by account, the books' balance at the year's end on balance-sheet accounts and the year's profit on retained earnings, each on one side |
| ReportMeaning.RolloverEnters | src/modules/finance-reporting/reporting.service.ts:267-330 | a rollover is entered if and only if both years exist, all twelve periods of the source are closed, it ends before the target begins, retained earnings are mapped and it was not rolled over yet |
| ReportMeaning.RolloverMoves | src/modules/finance-reporting/reporting.service.ts:331-382 | only a draft is submitted; only someone other than its creator completes a submitted one, if no account is opened already, which writes its openings and closes the source year |
| ReportMeaning.CreateRefusedWith | src/modules/finance-reporting/reporting.service.ts:267-330 | which error a refused rollover gives |
| ReportMeaning.RolloverRefusedWith | src/modules/finance-reporting/reporting.service.ts:331-382 | which error a refused submission or approval gives |
| ReportingLaws.GroupingKeepsSums | src/modules/finance-reporting/reporting.service.ts:394-407 | grouping by account keeps debits minus credits for any choice of accounts |
| ReportingLaws.TrialKeepsSums | src/modules/finance-reporting/reporting.service.ts:383-447 | a sum over trial-balance rows of any kinds is the sum over the lines of those kinds |
| ReportingLaws.SheetParts | src/modules/finance-reporting/reporting.service.ts:414-473 | profit, and earnings to date, are minus the net of all profit-and-loss rows, and the three sheet totals together are the net of all sheet rows |
| ReportingLaws.BalanceSheetDifference | src/modules/finance-reporting/reporting.service.ts:448-483 | the balance-sheet difference is total debits minus total credits of the lines |
| ReportingLaws.ClassesCoverCash | src/modules/finance-reporting/reporting.service.ts:86-110 | the four totals together are all the cash moved in the range |
| ReportingLaws.CashFlowCloses | src/modules/finance-reporting/reporting.service.ts:71-130 | closing cash is the cash account's balance at the end of the range however journals are classified, for an empty range the balance before it |
| ReportingLaws.RolloverOpenings | src/modules/finance-reporting/reporting.service.ts:297-322 | opening debits minus credits are what the books were out by, less earlier years' unrolled profit and loss |
| ReportingLaws.RolloverBalancesIff | src/modules/finance-reporting/reporting.service.ts:297-382 | with journals that balance as stored (for finance documents StoredBalance says which do) the openings balance if and only if earlier years' postings to profit and loss cancel out |
| Hierarchy.AssertNoCycle | src/modules/employees/employees.service.ts:1643-1668 | the walk ends on every roster, cyclic or not, and refuses if and only if the employee is on the new manager's chain |
| Hierarchy.GetTeamIds | src/modules/employees/employees.service.ts:501-512 | for a manager on no cycle the recursive query ends and lists, once each, exactly the employees with the manager among their superiors |
| Hierarchy.JoinWorking | src/modules/employees/employees.service.ts:503-508 | one round of the query is the join of the working table with the employees |
| Hierarchy.RoundIsDepth | src/modules/employees/employees.service.ts:501-512 | on any roster, cyclic or not, the working table of the n-th round holds exactly the employees n steps below the manager, each once |
| Hierarchy.CycleNeverEnds | src/modules/employees/employees.service.ts:501-512 | for a manager on a cycle the working table of no round of the query is empty, so it would not end |
| Hierarchy.EmployeesService.CreateEmployee | src/modules/employees/employees.service.ts:126-171 | an employee is added under an active manager and a known vertical, required for every role but the highest |
| Hierarchy.EmployeesService.UpdateEmployee | src/modules/employees/employees.service.ts:221-270 | given fields replace the old ones if the result is valid and closes no cycle |
| Hierarchy.EmployeesService.DeleteEmployee | src/modules/employees/employees.service.ts:420-493 | an employee without reports or other references, other than the caller, is removed |
| HierarchyLaws.AssignmentAcyclicIff | src/modules/employees/employees.service.ts:243-248 | in an acyclic roster giving someone a manager keeps it acyclic if and only if the employee is not on the manager's chain |
| HierarchyLaws.RemovalAcyclic | src/modules/employees/employees.service.ts:420-493 | losing a manager or a leaf employee closes no cycle |
| HierarchyLaws.EveryRunAcyclic | src/modules/employees/employees.service.ts:126-493 | in every run of create, onboard, update, delete and grants whose manager would have passed the upward check, nobody is their own superior and every manager exists |
| HierarchyLaws.WithoutGrants | src/modules/employees/employees.service.ts:126-493 | a run without grants meets that proviso |
| HierarchyLaws.AlwaysAcyclicIff | src/modules/employees/employees.service.ts:893-935 | the relation stays acyclic throughout a run if and only if every grant in it would have passed the skipped check |
| HierarchyLaws.GrantAccessAcyclicIff | src/modules/employees/employees.service.ts:893-935 | granting access keeps the relation acyclic if and only if the skipped check would have passed |
| HierarchyLaws.GrantAccessCanCloseCycle | src/modules/employees/employees.service.ts:893-935 | a run of three calls after which two employees manage each other |
| RosterChanges.RosterAfter | src/modules/employees/employees.service.ts:126-493 | every id becomes what its call says when the stated conditions hold, and else stays as it was |
| RosterChanges.RefusedWith | src/modules/employees/employees.service.ts:126-493 | which error each refused call gives |
| ExpenseClaims.ExpenseClaimsService.AddClaimLine | src/modules/expense-claims/expense-claims.service.ts:267-309 | a line with a confirmed receipt of the claimant that no line has is added to their own draft and the total recomputed |
| ExpenseClaims.ExpenseClaimsService.RemoveClaimLine | src/modules/expense-claims/expense-claims.service.ts:311-327 | a line of the claimant's draft is removed and the total recomputed |
| ExpenseClaims.ExpenseClaimsService.RecomputeTotal | src/modules/expense-claims/expense-claims.service.ts:583-595 | the stored total is the sum of the claim's lines |
| ExpenseClaims.ExpenseClaimsService.SubmitClaim | src/modules/expense-claims/expense-claims.service.ts:336-358 | only a non-empty draft of the claimant is submitted |
| ExpenseClaims.ExpenseClaimsService.GroupDebits | src/modules/expense-claims/expense-claims.service.ts:379-386 | the loop groups the lines' amounts by ledger |
| ExpenseClaims.ExpenseClaimsService.ApproveClaim | src/modules/expense-claims/expense-claims.service.ts:365-431 | a submitted claim is approved by an allowed approver and its journal posted |
| ExpenseClaims.ExpenseClaimsService.RejectClaim | src/modules/expense-claims/expense-claims.service.ts:434-456 | a submitted claim is rejected with a comment by an allowed approver |
| ExpenseClaims.ExpenseClaimsService.PayClaim | src/modules/expense-claims/expense-claims.service.ts:462-512 | an approved claim is paid once and its payment posted |
| ExpenseClaimsLaws.GroupingKeepsTotal | src/modules/expense-claims/expense-claims.service.ts:379-390 | the grouped debits add up to the lines |
| ExpenseClaimsLaws.OneDebitPerLedger | src/modules/expense-claims/expense-claims.service.ts:379-386 | there is one debit per distinct ledger |
| ExpenseClaimsLaws.JournalsBalance | src/modules/expense-claims/expense-claims.service.ts:391-405 | approval and payment journals balance; the first owes the lines, the second pays the total |
| ExpenseClaimsLaws.JournalsAccepted | src/modules/finance/finance.service.ts:528-597 | the posting helper accepts a claim's approval and payment journals |
| ExpenseClaimsLaws.EveryRunOwesApproved | src/modules/expense-claims/expense-claims.service.ts:365-512 | in every run account 2500 owes exactly the totals of approved unpaid claims, every journal is one the posting helper accepts, totals are sums of lines and no receipt is on two lines |
| ClaimChanges.ClaimAfter | src/modules/expense-claims/expense-claims.service.ts:267-512 | a claim changes if and only if its status, its owner and the caller's role allow the call, and then exactly as stated: lines, total, status and approver |
| ClaimChanges.ApprovalIs | src/modules/expense-claims/expense-claims.service.ts:379-405 | an approval debits each ledger with exactly the lines of its categories and credits account 2500 with all of them |
| ClaimChanges.PaymentIs | src/modules/expense-claims/expense-claims.service.ts:462-512 | a payment debits account 2500 and credits cash with the total |
| ClaimChanges.RowsAdded | src/modules/expense-claims/expense-claims.service.ts:267-512 | which claims, receipts and journals a call adds |
| ClaimChanges.RefusedWith | src/modules/expense-claims/expense-claims.service.ts:267-512 | which error each refused call gives: not found, then forbidden, then a bad request |

## Left out

- HTTP, authentication, access checks, request validation beyond the amounts used here, lookups that only check that a bank, customer, account or period exists and is active, notifications, file storage, the GST gateway, document numbers.
- Concurrency between calls: several services read before they open the transaction; each call is modelled as one atomic step.
- The significant-digit limit of decimal division and multiplication.
- Accounting periods and journal numbers, which `postJournalTx` also checks and draws.
- Column rounding, except where a property depends on it: finance documents, bank statements, journal lines and the snapshot's wastage percentage.
- `ItemService.merge`, which rewrites released lines without the gate; the copy of a BOM from a customer's intake, which only adds drafts.
- BOM revision attachments, effective dates and signatures; a BOM lookup is a finite map, as both callers build it.
- `parseCsv`'s mapping of headers and dates, and the walk over a management pack's JSON: the reader and the printer work on rows.
- Case-insensitive comparison of bank references covers ASCII letters.
- BankReconciliation.OperationsService.MatchLine: does not require a receipt to be matched to money received or a payment to money paid, because the code compares amounts only.
- Approval ladders that move no amount (submission, rejection) for bills, invoices, payments, receipts, notes, assets and schedules; the steps that post are modelled.
- Three-way matching of bills against purchase orders and receipts of goods, which only sets a match status.
- Foreign-exchange revaluation and its reversal; invoices waiting for the GST gateway, which post later by the same code.
- Manual journals on the control accounts, and account mappings that send two control codes to one account.
- ControlAccounts.EveryRunReconciles: is about runs without payment holds and applied advances, which record no journal or one at another rate; `TreasuryLaws` states what they add.
- StuckBills.EverPostedIff: is about runs without payment holds and applied advances; neither can record a bill's journal.
- StuckSettlements.EverNotedIff: says nothing of a credit note on a paid invoice beyond what is outstanding, which other waiting notes may or may not cover; `RunLeavesNote` covers it one way.
- Exchange rates have six places in their columns; they are kept as entered, and the statements hold for any rates. The overflow of the five-digit wastage column of a snapshot.
- JournalBalance.EveryRunHandsOverNearly: assumes two-decimal amounts, no overcharged receipt and, for a bill, no later change of its TDS, because `PostingBounds` proves that lines are within the bounds only without a gap.
- FinanceServices.FinanceService.SetInvoiceTds: allows a bill that is pending approval, because the approval ladder is not modelled; such a bill can be rejected and set then.
- HierarchyLaws.EveryRunAcyclic: assumes that grants name managers who would have passed the check, because granting access skips it; `AlwaysAcyclicIff` proves that this is exact.
- ReportingLaws.CashFlowCloses: is about ranges that start in 2000 or later, because opening cash is counted from then.
- BomReleaseLaws.EveryRunIsSafe: does not claim that items above a released one stay within 25 levels, because the gate only explodes from the item being released; `BomAncestors` states exactly when they do.
- Deactivation of employees, single-holder designations, payroll and vault data.
- Inventory values and average costs in `inventoryValuation`; its quantities are modelled.
- The stock report's dates: whether an expected receipt is in time is a parameter.
- Refreshing cost snapshots of released BOMs, which repeats the roll-up per item.
- Budgets, GST filings, aging, audit packs and dashboards: sums and filters that would add only easy members.
- Titles, categories' upkeep and file handling of expense claims; who may approve is modelled, how roles are granted is not.
