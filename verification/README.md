# Verified model of the restaurant POS backend

A Dafny model of the stateful cores of a Django point-of-sale backend: how a paid order becomes fiscal receipts and how
failed registrations are retried, how kitchen tickets follow an order, how payments, refunds and cash shifts add up, how
subscriptions renew, and several smaller protocols around them. Database rows become datatypes, tables become sequences or
maps held in class fields, and each service call is one atomic step (the local-agent protocol is the exception: there every
database write is a step of its own). Devices, payment providers, printers, clocks and agents are parameters: each theorem
holds for whatever they answer, unless it names an assumption about them.

Automatic induction is switched off on the lemmas it would apply to, so every inductive step is written out.

Every service that changes rows in place is a class whose methods are proved equal to a specification function of the old
state; the theorems about runs are lemmas about those functions. What each such function means is stated once more without
its name, field by field or as what is conserved (the `Effect` lemmas and their like).

| file | what it covers |
|---|---|
| `Arithmetic.dfy` | rounding half up and half to even, sums and filters shared by the other files |
| `CashSale.dfy` | the recursive search for the flag that forbids selling an item for cash |
| `FiscalReceipts.dfy` | splitting an order into receipt parts, fee shares, receipt lines, VAT |
| `ReceiptLines.dfy` | what stands on each receipt line, and where the marking codes go |
| `FiscalDevice.dfy` | one conversation with the fiscal device, and the receipt clock |
| `FiscalRetry.dfy` | fiscal receipt rows, first issue and retries: exactly-once registration and exact money |
| `FiscalLosses.dfy` | what the device itself holds when answers get lost on their way back |
| `FiscalCompletion.dfy` | retries against the order as it is by then: what they keep, and when they can complete a registration |
| `FiscalChanges.dfy` | the items on acknowledged receipts when the order or the catalogue changes between retries |
| `OrderItems.dfy` | order lines, marking codes, scans |
| `Kitchen.dfy` | a kitchen ticket sync, as a function and part by part |
| `Orders.dfy` | the life of one order: scan, submit, cook, pay |
| `OrderEffects.dfy` | what each call does to an order, told by what it leaves |
| `OrderSale.dfy` | from an order's invariant to the money on its fiscal receipts |
| `CashShift.dfy` | payments in one and two phases, refunds, the shift-close gate, drawer and reports |
| `Drawer.dfy` | where the money of a shift comes from and goes to, call by call |
| `Calendar.dfy` | civil dates, ordinals, month and year addition |
| `Subscriptions.dfy` | subscription sweep and balance ledger |
| `HallLayout.dfy` | the hall constructor |
| `MarkingCodes.dfy` | marking codes (GS1 General Specifications, sections 3.3.2 and 3.5.2), GTIN matching, catalogue lookup |
| `LocalAgent.dfy` | the local-agent command protocol, interleaved |
| `RevenueSeries.dfy` | report periods and the revenue histogram |
| `RevenuePoints.dfy` | which entries stand at which point of the histogram |
| `TableMerge.dfy` | table sessions and the forest of merges |

## What the code does where one might expect otherwise

Each of these is a theorem of the project; the model follows the code.

- A ticket sync can move a CANCELLED order to READY: exactly when it still has active items and all of them are done
  (`Kitchen.SyncRevivesIff`).
- Removing a product by a code that was never scanned leaves more codes than pieces exactly when the line it picks was
  fully scanned and keeps a piece (`MarkingScan.RemoveUnscannedIff`).
- The receipts of an order add up to its total exactly when the label drift of its items cancels out, which fails when a
  marked item carries a number of labels other than its quantity (`FiscalReceipts.MoneyConservedIff`).
- A charged order's receipts add up to its total exactly when no marked line with a price has more than 300 pieces
  (`OrderSale.ChargedOrderExactIff`); surplus codes charge a piece twice (`OrderSale.SurplusOvercharges`).
- A retry reads the order as it is by then. After a partly successful registration it can register something exactly when
  a part with a pending reason is left (`FiscalRetry.RetryProgressIff`). Over all payments of an order and any retries an
  item ends up on two acknowledged receipts exactly when one of them gets a part acknowledged that holds an item
  acknowledged before
  (`FiscalChanges.RunRepeatsIff`, `FiscalChanges.ReflaggedItemIsRepeated`).
- An attempt that the device registers and whose answer is lost is stored as failed and sent again, and one attempt can
  post more than once. Over the first issue and any retries the device holds each part at most once exactly when no
  attempt registers a part again (`FiscalLosses.HeldAtMostOnceIff`, `FiscalLosses.LostAnswerRegistersTwice`).
- As its orders are now, an open shift can be closed after some retries exactly when the order of every payment in it
  that has to be registered fits that payment's rows (`CashShift.ClosableIff`): with nothing sent it has parts, and no
  fewer than there are rows; after a partial success it has a part for every pending reason. An active item alone is not
  enough (`FiscalCompletion.CancelledItemCannotComplete`), and a payment without one only waits for an item to come back
  (`CashShift.NothingToRegisterBlocksShift`, `FiscalCompletion.EmptyOrderCompletesIff`).
- Whatever its orders may become, retries can close a shift exactly when none of its payments is stuck, with a sent row
  beside a pending one that has lost its split reason (`CashShift.EverClosableIff`). With a changing order a run gets
  there, and every further retry is then blocked (`FiscalCompletion.StrandingRun`).
- A pending card payment can complete after its shift was closed (`CashShift.LateAnswerLeavesOneBehind`). A payment is
  never left to register in a closed shift exactly when its shift was still open by then, or its late submission goes
  through and the device accepts every part at once, or there is nothing to register (`CashShift.RunGatedIff`); a later
  retry makes up for it exactly when the order fits the rows (`CashShift.RestoredIff`). Drawers, reports and the closing
  of other shifts do not depend on it (`CashShift.EveryRun`, `CashShift.EveryRunCloses`). The stored snapshot is stale
  exactly when the payment succeeded (`CashShift.TerminalMovesSnapshotIff`).
- Two payments of one order are registered independently of each other, so a late success on an order that another
  payment has closed registers the whole order again (`FiscalChanges.SecondPaymentRepeats`).
- Refunds count in the shift of the payment, not in the shift they are made in (`CashShift.RefundMovesDrawerIff`).
- A paid order stays covered by its payment exactly as long as no kitchen update leaves its lines, with the fee as it is by
  then, above what was paid (`Orders.CoverKeptIff`). With the same fee that takes a cancelled line brought back
  (`Orders.SameFeeOutgrowsIff`, `Orders.PaidOrderCanGrow`); after the fee was raised, any update will do
  (`Orders.RaisedFeeUncovers`).
- The receipt times of a batch increase exactly when, between any two successive receipts, the clock has passed the earlier
  one's second or the device's answer has reached it (`FiscalDevice.BatchClockIff`); without a readable DateTime two receipts
  can carry the same time (`FiscalDevice.MissingDateTimeRepeatsTime`).
- A saved hall holds exactly the payload's tables if and only if no known table id occurs twice in it
  (`HallLayout.SaveStoresIff`).
- A command redelivered after its result was stored can hide the result (`LocalAgent.RedeliveryHidesResult`); a late result
  replaces TIMED_OUT (`LocalAgent.TimeoutIsOverwritten`).
- The previous period's histogram is drawn on the current blueprint and can lose the last days of a longer month
  (`RevenueSeries.PreviousSeriesConservesIff`, `RevenueSeries.ShortMonthDropsDays`).
- The session serializer leaves `status` and `table` writable, so a merged session can be reopened by hand and merges can then form a
  cycle (`TableMerge.PatchKeepsSoundIff`, `TableMerge.ReopenedMergeMakesCycle`). Paying one of two orders brought together
  by a merge closes the session of the other (`TableMerge.PaymentLeavesLiveOrderIff`).
- All-zero GTINs are told apart by their length, except that 13 and 14 zeros match (`MarkingCodes.MatchesIff`).

## Model

| member | source | states |
|---|---|---|
| Arithmetic.HalfUpNearest | apps/integrations/services/unikassa.py:468 | ROUND_HALF_UP gives a nearest integer, ties going up |
| Arithmetic.HalfEvenNearest | apps/sales/models/order.py:104 | Python's round gives a nearest integer, the even one on a tie |
| CashSale.FindFirstReadsFirstNonBlank | apps/catalog/utils/cash_sale.py:4-17 | the depth-first search returns the first non-blank value among all readable ones, and something blank iff there is none |
| CashSale.ItemPayloadDecides | apps/catalog/utils/cash_sale.py:20-39 | the item's own payload decides whether cash is forbidden if it says anything; only otherwise does the category's; a number or a decimal text of value zero forbids |
| CashSale.ZeroLiteralIff | apps/catalog/utils/cash_sale.py:24-27 | a text counts as zero iff, stripped and without underscores, it is a sign, zeros with at most one point, and an exponent, sign and exponent being optional |
| FiscalReceipts.PartsAreToldApart | apps/integrations/services/unikassa.py:419-446 | the parts of one order carry different, non-empty split reasons; there are none iff no item is active |
| FiscalReceipts.PartsPartitionItems | apps/integrations/services/unikassa.py:419-446 | every active item is in exactly one part and no part is empty |
| FiscalReceipts.CashPartsAreAllowed | apps/integrations/services/unikassa.py:428-446 | a cash part exists only for a cash payment and holds no cash-forbidden item; the card part of a cash payment holds only such items |
| FiscalReceipts.PartsAreNamed | apps/integrations/services/unikassa.py:419-453 | which split reason a part carries, and that its money goes to the cash column iff it is paid in cash and holds no cash-forbidden item |
| FiscalReceipts.FeeIsApportioned | apps/integrations/services/unikassa.py:455-469 | fee shares add up to what the total has on top of the subtotal, or to nothing; a split share is the proportional one, rounded half up, and all goes to the first part when the items cost nothing |
| FiscalReceipts.LabelsAreCodes | apps/integrations/services/unikassa.py:714-727 | labels are the stripped codes of the item without blanks and repetitions, at most 300 of them, and all of them below that |
| FiscalReceipts.LabelsInOrder | apps/integrations/services/unikassa.py:714-727 | labels come in the order in which their codes are first seen |
| FiscalReceipts.LabelsUpToCap | apps/integrations/services/unikassa.py:714-727 | there is a label for each different code, in that order, or for the first 300 of them |
| FiscalReceipts.AddItemLines | apps/integrations/services/unikassa.py:494-532 | appends one line per label at the rounded unit price, or one line for an unlabelled item |
| FiscalReceipts.BuildSaleItems | apps/integrations/services/unikassa.py:491-554 | the loops build exactly the specified lines of the part, fee line last |
| ReceiptLines.PartDescribed | apps/integrations/services/unikassa.py:491-554 | a receipt has, item by item in order, one line of 1000 a label with that label and the rounded price of a piece, or one unlabelled line of 1000 times the quantity at the line total, each with the VAT of its price; then one unlabelled line for the fee share, if there is one |
| ReceiptLines.PartCarriesLabels | apps/integrations/services/unikassa.py:497-532 | the labels on a receipt are, with multiplicity, those of its items, no two on one line |
| ReceiptLines.OrderCarriesLabels | apps/integrations/services/unikassa.py:419-554 | over all receipts of an order a code stands as often as there are active items that carry it |
| FiscalReceipts.PartTotal | apps/integrations/services/unikassa.py:471-489 | the lines of a receipt add up to 100 times its items' charges plus its fee share |
| FiscalReceipts.PartsTotal | apps/integrations/services/unikassa.py:419-554 | all receipts of an order add up to 100 times the charges of all active items plus the whole service fee |
| FiscalReceipts.ChargedDrift | apps/integrations/services/unikassa.py:494-515 | what an item is charged on a receipt differs from its line total by (labels - quantity) times the unit price; zero iff one of the listed conditions holds |
| FiscalReceipts.MoneyConservedIff | apps/integrations/services/unikassa.py:419-554 | the receipts add up to 100 x order total plus the label drift, hence to exactly 100 x total iff the drift cancels |
| FiscalReceipts.MoneyConserved | apps/integrations/services/unikassa.py:419-554 | with one label per piece of every labelled item, the receipts add up to exactly 100 x total |
| FiscalReceipts.VatWithinAmount | apps/integrations/services/unikassa.py:667-672 | a line's VAT lies between 0 and its amount and is monotone in it |
| FiscalReceipts.VatNearest | apps/integrations/services/unikassa.py:667-672 | a line's VAT is the nearest unit to the exact one, the upper one on a tie |
| FiscalReceipts.VatRoundingBound | apps/integrations/services/unikassa.py:667-672 | the VAT of n lines is within n/2 of the exact VAT of their sum |
| FiscalReceipts.ReportVatMatchesReceipts | apps/billing/services/cash_shift.py:374-384 | one VAT estimate on a whole amount, in hundredths, agrees with the VAT on the n lines of all receipts behind it up to 50 + n/2 |
| FiscalReceipts.EstimateNearest | apps/billing/services/cash_shift.py:374-384 | so is the estimate of a report |
| FiscalDevice.IssueReceipts | apps/integrations/services/unikassa.py:44-81 | the loop attempts every part in turn, carrying the device's last operation time along; one failure does not stop the rest |
| FiscalDevice.AttemptPart | apps/integrations/services/unikassa.py:55-78 | one attempt: an acknowledged receipt with the part's lines in the right column, or a rejection that keeps the split reason; posts lost on the way back leave no trace here |
| FiscalDevice.AttemptMeans | apps/integrations/services/unikassa.py:471-489 | an accepted attempt carries the part's lines, their sum in the one column of the payment type, and the device's DateTime; any other only the split reason |
| FiscalDevice.TimeIsNextFree | apps/integrations/services/unikassa.py:616-621 | a receipt's time is a whole second after the last operation: the present one, or the next free one |
| FiscalDevice.ReceiptsAfterLast | apps/integrations/services/unikassa.py:616-621 | if the device answers with times not before the sent ones, every receipt of a batch is later than its initial last operation |
| FiscalDevice.ReceiptClock | apps/integrations/services/unikassa.py:52-81 | under the same assumption the receipt times of a batch strictly increase, however failures interleave |
| FiscalDevice.SuccessiveTimesIff | apps/integrations/services/unikassa.py:616-621 | of two successive acknowledged receipts the later has the later time iff the later clock's second has passed the earlier time or the earlier answer's second plus one has |
| FiscalDevice.BatchClockIff | apps/integrations/services/unikassa.py:52-81 | all times of a batch strictly increase iff that holds between all successive receipts |
| FiscalDevice.MissingDateTimeRepeatsTime | apps/integrations/services/unikassa.py:79-80 | a case: two answers without a DateTime in the same second |
| FiscalRetry.PendingIds | apps/billing/services/order_payment.py:386-390 | the pending rows are exactly the rows not sent, in row order |
| FiscalRetry.Pick | apps/billing/services/order_payment.py:441-451 | a pending row is picked whenever there is one, and none only when none is left |
| FiscalRetry.PaymentReceipts.constructor | apps/billing/services/order_payment.py:268 | a new payment has no receipt rows |
| FiscalRetry.PaymentReceipts.Send | apps/billing/services/order_payment.py:288-314 | outside failures give one failure per requested reason, or one without a reason; otherwise the chosen parts are attempted; the log grows by the acknowledgements |
| FiscalRetry.PaymentReceipts.CreateRows | apps/billing/services/order_payment.py:268-271 | the loop adds one row per result |
| FiscalRetry.PaymentReceipts.Register | apps/billing/services/order_payment.py:268-271 | first issue: the rows and acknowledgements of one full attempt |
| FiscalRetry.PaymentReceipts.PickExisting | apps/billing/services/order_payment.py:441-451 | the search loop returns the row that the specification picks: by reason, else by position, else the oldest |
| FiscalRetry.PaymentReceipts.StoreResults | apps/billing/services/order_payment.py:408-414 | the loop writes each result into the row picked for it, or into a new row |
| FiscalRetry.PaymentReceipts.Retry | apps/billing/services/order_payment.py:376-439 | the whole retry, including the already-sent answer and the blocked error |
| FiscalRetry.PersistKeepsOthers | apps/billing/services/order_payment.py:408-488 | rows that were not pending are never written and the table never shrinks |
| FiscalRetry.PersistAddsUp | apps/billing/services/order_payment.py:408-488 | whatever is counted over sent rows grows by exactly what the new acknowledgements add |
| FiscalRetry.FirstIssueValid | apps/billing/services/order_payment.py:268-314 | the first issue establishes the invariant, whatever the device does |
| FiscalRetry.RetryUnsentIssue | apps/billing/services/order_payment.py:424-451 | while nothing is registered, a retry that reaches the device rebuilds the table in part order |
| FiscalRetry.RetryChoosesPending | apps/billing/services/order_payment.py:424-433 | after a partial success the retry asks for exactly the parts whose rows are pending |
| FiscalRetry.RetryPartialRows | apps/billing/services/order_payment.py:408-451 | each answer of such a retry lands in its own part's row; every other row stays |
| FiscalRetry.RetryKeepsSent | apps/billing/services/order_payment.py:376-488 | a sent row is never overwritten or downgraded, even if the order's items have changed since |
| FiscalRetry.RetryValid | apps/billing/services/order_payment.py:376-439 | with the order as sold a retry keeps the invariant, and the missing-metadata error is unreachable |
| FiscalRetry.RunValid | apps/billing/services/order_payment.py:376-488 | with the order as sold the invariant holds after any number of retries with any outcomes |
| FiscalRetry.RunKeepsSent | apps/billing/services/order_payment.py:376-488 | over any retries every sent row stays as it is |
| FiscalRetry.RegisteredAtMostOnce | apps/billing/services/order_payment.py:376-488 | the device acknowledged each part at most once, exactly once iff its row is sent, and every part once when all rows are sent |
| FiscalRetry.RegisteredMoney | apps/billing/services/order_payment.py:376-488 | the device never acknowledges more money than the parts are worth, and exactly that once all rows are sent |
| FiscalRetry.ExactlyOnce | apps/billing/services/order_payment.py:260-488 | over the first issue and any retries: at most one acknowledgement a part, no more rows than parts (one row if there are none), acknowledged money at most 100 x total and exactly that when all rows are sent |
| FiscalRetry.RetryCompletes | apps/billing/services/order_payment.py:376-422 | after any history, one retry that the device accepts in full leaves every part registered |
| FiscalRetry.RetryProgressIff | apps/billing/services/order_payment.py:424-439 | with changed items, some outcome of a retry registers something iff a part with a pending reason is left |
| FiscalLosses.RetryLogs | apps/billing/services/order_payment.py:400-414 | a retry's log grows by exactly the acknowledgements of the parts it sends |
| FiscalLosses.AttemptedUnacknowledged | apps/billing/services/order_payment.py:424-433 | a retry never sends a part that was acknowledged |
| FiscalLosses.FirstIssueHeldOnceIff | apps/integrations/services/unikassa.py:220-268 | after a first issue the device holds each part at most once iff no attempt made it register the part twice, lost posts counted |
| FiscalLosses.RetryHeldOnceIff | apps/integrations/services/unikassa.py:220-268 | for every outcome, posts after rediscovery or a clock sync included: a retry leaves each part held at most once iff, for each part it sends, what lost answers registered plus what this attempt registers is at most one |
| FiscalLosses.RunHeldOnceIff | apps/billing/services/order_payment.py:376-488 | a run of retries leaves each part held at most once iff each of its retries does |
| FiscalLosses.RetrySafeIff | apps/billing/services/order_payment.py:376-433 | before the call, and if no attempt posts twice: whatever a retry meets, the device then holds each part at most once iff the retry sends no part that a lost answer has registered |
| FiscalLosses.HeldAtMostOnceIff | apps/billing/services/order_payment.py:260-488 | over the first issue and any retries the device holds each part at most once iff no first attempt posts twice and every retry is safe for what it meets; it then holds no more money than the parts are worth |
| FiscalLosses.HeldMoney | apps/billing/services/order_payment.py:376-488 | while each part is held at most once, the money at the device does not exceed the parts' worth |
| FiscalLosses.LostMoneyIsExcess | apps/billing/services/order_payment.py:376-488 | once all rows are sent the device holds exactly the parts' worth plus what lies behind lost answers |
| FiscalLosses.LostAnswerRegistersTwice | apps/billing/services/order_payment.py:376-439 | a case: the first answer lost, the retry answered, the receipt held twice and acknowledged once |
| FiscalCompletion.RetryKept | apps/billing/services/order_payment.py:376-488 | whatever the order has become, a retry keeps different split reasons on different rows and one acknowledgement for each sent row |
| FiscalCompletion.ReasonAcknowledgedOnce | apps/billing/services/order_payment.py:424-451 | so no split reason is ever acknowledged twice, and it is once iff its row is sent |
| FiscalCompletion.CompletableIff | apps/billing/services/order_payment.py:400-451 | against the order as it is now some retries leave every row sent iff, with nothing sent, it has parts and no fewer than rows, or, after a partial success, a part for each pending reason |
| FiscalCompletion.AcceptedRetryCompletes | apps/billing/services/order_payment.py:400-451 | one retry that the device accepts in full is then enough |
| FiscalCompletion.RetryReplies | apps/billing/services/order_payment.py:376-439 | "already sent" is said iff there are rows and all are sent; the retry is blocked iff some rows are sent, others are not, and none of those has a reason; neither changes anything |
| FiscalCompletion.StrandedIff | apps/billing/services/order_payment.py:424-439 | whatever the order may become, some retries leave every row sent iff no pending row has lost its reason beside a sent one |
| FiscalCompletion.FirstIssueSendsAllIff | apps/billing/services/order_payment.py:268-271 | a first issue leaves every row sent iff the device can be reached, there is a part, and it accepts each of them |
| FiscalCompletion.EmptyOrderCompletesIff | apps/integrations/services/unikassa.py:419-427 | a payment that found nothing to register can be completed iff the order has an active item |
| FiscalCompletion.CancelledItemCannotComplete | apps/billing/services/order_payment.py:424-433 | a case: one part is registered, the item of the other is cancelled, and no retry completes the registration though an active item is left |
| FiscalCompletion.StrandingRun | apps/billing/services/order_payment.py:424-451 | a case: both parts refused, a retry without a fiscal shift, an item cancelled, the other registered; every further retry is blocked, whatever the order becomes |
| FiscalChanges.TaleKept | apps/billing/services/order_payment.py:376-488 | over any retries, with any changes of the order between them, acknowledgement k is the receipt of the k-th acknowledged part, as that stood then |
| FiscalChanges.MoveRepeatsIff | apps/billing/services/order_payment.py:268-433 | for every outcome: a first issue or a retry of one of an order's payments repeats no item iff no part that is accepted holds an item acknowledged before, for whichever payment |
| FiscalChanges.RunRepeatsIff | apps/billing/services/order_payment.py:260-488 | over any payments of one order and any retries, with any changes of the order between them, no item is on two acknowledged receipts iff no move of the run repeats one |
| FiscalChanges.MoveCanRepeatIff | apps/billing/services/order_payment.py:268-433 | before the call: some outcome puts an item on a second acknowledged receipt iff a part that is sent, as the order is by then, holds an item acknowledged before |
| FiscalChanges.UnchangedNeverRepeats | apps/billing/services/order_payment.py:376-433 | with the order as sold no retries repeat an item |
| FiscalChanges.ReflaggedItemIsRepeated | apps/integrations/services/unikassa.py:431-446 | a case: an item registered for cash is flagged cash-forbidden and registered again by the retry |
| FiscalChanges.SecondPaymentRepeats | apps/billing/services/order_payment.py:123-172 | a case: an order paid and registered in cash while a card payment waits; the late success registers its item again |
| OrderItems.MissingTotal | apps/sales/services/marking.py:74-105 | the accumulation loop computes the sum of missing codes over all lines, cancelled ones included |
| OrderItems.NothingMissingIff | apps/sales/services/marking.py:74-105 | nothing is missing iff every marked line has at least as many codes as pieces |
| MarkingScan.FindMissing | apps/sales/services/marking.py:177-183 | finds the oldest line of the product with fewer codes than pieces, and fails only if there is none |
| MarkingScan.ScanInCodes | apps/sales/services/marking.py:138-170 | an accepted scan adds the code once if the product is marked, and no other code |
| MarkingScan.ScanOutCodes | apps/sales/services/marking.py:185-213 | scanning a stored code out removes that code, once, and no other |
| MarkingScan.ScanKeepsWithinQuantity | apps/sales/services/marking.py:117-213 | no line gets more codes than pieces by adding, attaching, or removing by a stored code |
| MarkingScan.RemoveUnscannedIff | apps/sales/services/marking.py:195-213 | removing by an unscanned code breaks that iff the line picked was fully scanned and keeps a piece |
| MarkingScan.ScanKeepsPriced | apps/sales/services/marking.py:149-211 | every scan keeps line total = quantity x unit price |
| MarkingScan.ScanInMissing | apps/sales/services/marking.py:138-170 | a scan in lowers the missing count by one if it completes a line and never raises it |
| OrderEffects.ScanRefusedIff | apps/sales/services/marking.py:129-147 | a scan in is refused iff its code is known in the restaurant or it has no line to attach to, a scan out iff no line of the product is active or has the code |
| OrderEffects.ScanInEffect | apps/sales/services/marking.py:141-169 | a scan in gives its code to the oldest line that lacks one, or adds one piece at the product's price at the product's station |
| OrderEffects.ScanInMoney | apps/sales/services/marking.py:141-170 | it raises the subtotal by the product's price iff it adds a line, and by nothing otherwise |
| OrderEffects.ScanOutEffect | apps/sales/services/marking.py:185-213 | a scan out takes one piece, and the code if it is there, from the oldest line with the code, or else from the youngest active one, and the line away with its only piece |
| OrderEffects.ScanOutMoney | apps/sales/services/marking.py:185-213 | it lowers the subtotal by one unit price of that line, unless the line is cancelled or empty |
| MarkingScan.RunUnique | apps/sales/services/marking.py:117-213 | over any run of scans on any orders of a restaurant, removals by unscanned codes included, codes stay unique in the restaurant |
| MarkingScan.RunWithinIff | apps/sales/services/marking.py:117-213 | over any such run no line ever holds surplus codes iff no step removes by an unscanned code from a fully scanned line that keeps a piece |
| Kitchen.SyncMatches | apps/kitchen/services/order_ticket_sync.py:26-112 | after a sync an OPEN order has no tickets; any other has exactly one ticket per station with active items, with the COOKING/DONE/NEW status of those items, completed iff DONE, and SUBMITTED/READY agrees with the items |
| Kitchen.SyncMeets | apps/kitchen/services/order_ticket_sync.py:26-112 | after a sync out of OPEN each active item that had no station has its category's, else its own, else the only one of the restaurant, or none if all fail; stored stations and all else about items stay; routes, first completion times, print marks and one print at exactly the printer stations that gained a ticket; the status follows the items |
| Kitchen.SyncedFromUnique | apps/kitchen/services/order_ticket_sync.py:26-112 | there is only one such board |
| Kitchen.TicketsWhereItemsAre | apps/kitchen/services/order_ticket_sync.py:43-53 | there is a ticket at a station iff an active item has it |
| Kitchen.TicketStatusMeans | apps/kitchen/services/order_ticket_sync.py:57-62 | a ticket is COOKING iff an item of its station is, DONE iff all of them are done or cancelled |
| Kitchen.SyncTwice | apps/kitchen/services/order_ticket_sync.py:26-112 | a second sync, at any later time and with any printers, changes nothing and prints nothing |
| Kitchen.SyncRevivesIff | apps/kitchen/services/order_ticket_sync.py:103-108 | a cancelled order becomes READY iff it has active items and all of them are done; nothing else can become of it |
| Orders.OrderDesk.Recalculate | apps/sales/models/order.py:95-108 | subtotal is the sum over lines that are not cancelled, total adds the rounded fee |
| Orders.OrderDesk.AssignMissingStations | apps/kitchen/services/order_ticket_sync.py:33-42 | the loop assigns category, own or sole station to active items that have none |
| Orders.OrderDesk.SyncStation | apps/kitchen/services/order_ticket_sync.py:53-97 | one round of the station loop creates or corrects that station's ticket and prints only a new one |
| Orders.OrderDesk.SyncStations | apps/kitchen/services/order_ticket_sync.py:53-97 | the loop over stations gives the specified tickets and prints, in whatever order the stations come |
| Orders.OrderDesk.SyncTickets | apps/kitchen/services/order_ticket_sync.py:26-112 | the in-place sync computes the specified board |
| Orders.OrderDesk.SubmitOrder | apps/sales/services/state.py:83-93 | submission with its refusals, ending in a sync |
| Orders.OrderDesk.ScanCode | apps/sales/services/marking.py:117-175 | a scan, then recalculation and sync; refusals change nothing |
| Orders.OrderDesk.ChangeItems | apps/sales/services/state.py:95-102 | edited lines, recalculation, and a sync unless OPEN |
| Orders.OrderDesk.UpdateTicketStatus | apps/kitchen/services/kitchen_status.py:35-65 | bulk item status, ticket fields, then sync, without recalculating |
| Orders.OrderDesk.UpdateItemStatus | apps/kitchen/services/kitchen_status.py:67-99 | item status, recalculation, sync; SERVED is refused |
| Orders.OrderDesk.Process | apps/billing/services/order_payment.py:174-241 | payment with early submission, every refusal in turn (shift, method, amount, fiscal skip, markings, cash desk, remaining amount), a failed charge, and completion |
| Orders.OrderDesk.Complete | apps/billing/services/order_payment.py:260-266 | takeaway is submitted late, and the order closes when it is paid in full |
| Orders.SyncKeepsMoney | apps/kitchen/services/order_ticket_sync.py:26-112 | a sync changes no line total and no item count |
| Orders.TicketUpdatedValid | apps/kitchen/services/kitchen_status.py:35-65 | a ticket update keeps the order invariant and, without recalculating, the totals |
| Orders.TicketEndsAsRequested | apps/kitchen/services/kitchen_status.py:47-60 | after the sync at its end the ticket still has the status that was asked for, if the order is up to date with the present stations |
| Orders.ChargeSettles | apps/billing/services/order_payment.py:174-266 | a successful charge happens only to an order without one, leaves it CLOSED and paid at least its total; anything else adds no success |
| Orders.StepValid | apps/sales/services/state.py:51-123 | every operation keeps: totals match the lines and a fee taken on them, OPEN has no tickets, otherwise tickets match the items, at most one successful payment and only if CLOSED |
| Orders.ClosedAbsorbs | apps/sales/services/state.py:51-65 | a closed order stays closed and takes no payment |
| Orders.RunValid | apps/sales/services/state.py:51-123 | the same invariant over every run from a fresh order, also if fee, stations or printers change between the calls; no order is paid twice |
| Orders.RunCurrent | apps/kitchen/services/order_ticket_sync.py:26-112 | over every run under one configuration, totals carry its fee, and no active item of an order in the kitchen lacks a station it could have |
| Orders.FreshOrderValid | apps/sales/models/order.py:95-108 | a new order satisfies the invariant |
| Orders.CoverKeptIff | apps/kitchen/services/kitchen_status.py:67-99 | a step keeps a closed order covered by its payments iff it is not an item update after which the lines, with the fee as it is by then, exceed them |
| Orders.SameFeeOutgrowsIff | apps/kitchen/services/kitchen_status.py:67-99 | with the fee as it was taken, an update does that iff it brings back a cancelled line that, with the rest and the fee on both, exceeds the payments |
| Orders.RunCoveredIff | apps/kitchen/services/kitchen_status.py:35-99 | the same over whole runs, with the fee changing or not: covered throughout iff no step outgrows the payments |
| Orders.PaidOrderCanGrow | apps/kitchen/services/kitchen_status.py:67-99 | a run from a new order that ends closed, paid once with 1, and worth at least 500 |
| Orders.RaisedFeeUncovers | apps/sales/models/order.py:95-108 | a run from a new order of 500, paid with 500 without a fee; with the fee at 10% the kitchen marks its line done, and the closed order costs 550 |
| OrderEffects.FeeNearest | apps/sales/models/order.py:102-104 | the service fee is the nearest whole amount to the percentage of the subtotal, the even one on a tie |
| OrderEffects.SubmitEffect | apps/sales/services/order_submission.py:12-14 | a submission is refused, changing nothing, iff a code is missing, the order is closed or cancelled, or delivery details are missing; else an OPEN order is SUBMITTED, the kitchen synced, and no money moves |
| OrderEffects.ProcessedVerdict | apps/billing/services/order_payment.py:174-241 | a charge is refused iff the order, its codes and details, the shift, the method, the amount, the fiscal permission or the remaining total is not in order; else it succeeds iff the provider says so |
| OrderEffects.RefusedCharge | apps/billing/services/order_payment.py:174-213 | a refusal leaves at most the early submission behind, and no payment |
| OrderEffects.FailedCharge | apps/billing/services/order_payment.py:215-239 | a declined charge adds one failed payment of the asked amount to the order as it met it, and changes nothing else |
| OrderEffects.DeclinedCanPay | apps/billing/services/order_payment.py:174-241 | the same charge, accepted on a second try, pays the order |
| OrderEffects.PaidCharge | apps/billing/services/order_payment.py:215-266 | a successful charge adds one payment and closes the order, submitted before or, for a takeaway, after it; nothing else changes |
| OrderEffects.ScannedEffect | apps/sales/services/marking.py:117-175 | a scan is refused on a closed or cancelled order or for an unknown product; else its lines are recounted with the present fee and the kitchen is synced |
| OrderEffects.ItemsChangedEffect | apps/sales/services/state.py:95-102 | edited lines are priced and recounted; the kitchen is synced unless the order is OPEN |
| OrderEffects.TicketUpdatedEffect | apps/kitchen/services/kitchen_status.py:47-59 | a ticket update sets exactly the active lines of its station and the ticket, notes the time iff done, moves no money, and syncs |
| OrderEffects.ItemUpdatedEffect | apps/kitchen/services/kitchen_status.py:67-99 | an item update sets that line, recounts and syncs; SERVED is refused |
| OrderEffects.RunMoves | apps/sales/services/state.py:51-123 | over every run no call cancels an order, opens it again or takes a payment away, and an order that is closed in it was paid in it |
| OrderSale.OrderTotalsConsistent | apps/sales/models/order.py:95-108 | an order that satisfies its invariant gives the fiscal service consistent totals and distinct items |
| OrderSale.LabelsOfLine | apps/integrations/services/unikassa.py:714-727 | the labels of a cleanly scanned line are its codes, in order, or the first 300 of them |
| OrderSale.LineForbidden | apps/catalog/utils/cash_sale.py:34-39 | an order line is cash-forbidden iff its product's payload says zero, or says nothing and its category's does |
| OrderSale.ChargedMissesNothing | apps/billing/services/order_payment.py:174-241 | a successful charge leaves no marked product unscanned |
| OrderSale.ChargedOrderExactIff | apps/integrations/services/unikassa.py:419-554 | without surplus codes, the receipts of an order just charged add up to exactly its total iff no marked line with a price has more than 300 pieces |
| OrderSale.SurplusOvercharges | apps/sales/services/marking.py:195-210 | a case: removing by an unscanned code leaves two labels for one piece, charged twice |
| CashShift.GateIff | apps/billing/services/cash_shift.py:170-201 | the three-Exists filter means "not (a receipt exists and all are sent)" iff no row is left merely created beside sent ones |
| CashShift.GateExact | apps/billing/services/cash_shift.py:170-201 | on every payment the services can make, the filter is exact |
| CashShift.CashOffice.Open | apps/billing/services/cash_shift.py:511-547 | opening with its refusals: inactive desk, invalid or busy cashier, missing cashier, busy desk |
| CashShift.CashOffice.Sell | apps/billing/services/order_payment.py:174-286 | a payment row in an open shift, with its fiscal rows when it succeeded and asked for them |
| CashShift.CashOffice.InitiateCard | apps/billing/services/order_payment.py:30-121 | a pending card payment, refused for an order that cannot be paid, without an open shift, without the right to skip registration, with codes missing, without amount, method or terminal, or below the remaining amount |
| CashShift.CashOffice.CompleteCard | apps/billing/services/order_payment.py:123-172 | the terminal's answer settles a pending payment whatever its shift has become; its fiscal rows follow if it succeeded, asked for them, and the order's late submission goes through |
| CashShift.CashOffice.RetryFiscal | apps/billing/services/order_payment.py:376-422 | a retry, against the order as it is by then, changes only the fiscal rows of that payment, and only if it succeeded and asked for registration |
| CashShift.CashOffice.MakeRefund | apps/billing/services/payment_refund.py:16-37 | a refund of the full amount, refused for unsuccessful, unclosed, already refunded, or without an open shift |
| CashShift.CashOffice.BuildSection | apps/billing/services/cash_shift.py:305-366 | the totals loops: rows, sales and refunds per method, numbers of refunds and of sent receipts, over the payments kept |
| CashShift.CashOffice.BuildReport | apps/billing/services/cash_shift.py:215-303 | both reports: over every succeeded payment of the shift, and over those with a sent receipt |
| CashShift.CashOffice.Close | apps/billing/services/cash_shift.py:589-635 | closes iff the shift is open and nothing in it is unresolved, storing the snapshot |
| CashShift.RetriedSound | apps/billing/services/order_payment.py:376-488 | retries, also after the shift was closed and whatever the order has become, keep the invariant of the till |
| CashShift.RefundedSound | apps/billing/services/payment_refund.py:16-37 | refunds keep it: at most one success a payment, for its amount |
| CashShift.ClosedSound | apps/billing/services/cash_shift.py:589-615 | closing keeps it |
| CashShift.ClosedGated | apps/billing/services/cash_shift.py:589-615 | and leaves no payment of the shift to register |
| CashShift.AnswerGatedIff | apps/billing/services/order_payment.py:123-172 | completing a pending card payment leaves none to register in a closed shift iff its shift is still open, or the payment failed, or it skips registration, or its submission goes through, the order has parts and the device accepts each of them |
| CashShift.TerminalMovesSnapshotIff | apps/billing/services/cash_shift.py:564-587 | it changes what a shift's snapshot would say iff it succeeded in that shift, closed or not |
| CashShift.RunSound | apps/billing/services/cash_shift.py:511-635 | over every run of openings, sales, retries against changing orders, refunds, closings and two-phase card payments the till stays sound, late answers included; at most one open shift a desk and a cashier |
| CashShift.StepGatedIff | apps/billing/services/cash_shift.py:589-615 | a step that finds a payment registered or its shift open leaves it so iff it is no untimely answer for that very payment |
| CashShift.RunGatedIff | apps/billing/services/cash_shift.py:589-615 | over every run a payment is never left to register in a closed shift iff its own completion is timely |
| CashShift.RestoredIff | apps/billing/services/order_payment.py:376-451 | a payment left behind in a closed shift can be registered by a retry iff the order as it is by then fits its rows |
| CashShift.RunShiftGated | apps/billing/services/cash_shift.py:589-615 | a closed shift whose own payments were completed in time holds none left to register, whatever happens in other shifts |
| CashShift.LateAnswerLeavesOneBehind | apps/billing/services/order_payment.py:123-172 | a case from an empty till: open, initiate, close, and a late success that the fiscal device does not take |
| CashShift.EveryRun | apps/billing/services/cash_shift.py:511-635 | over every run from an empty till: one open shift a desk and a cashier, covered drawers, single and whole refunds, reports that agree with their snapshots, and nothing left to register in closed shifts without late answers |
| CashShift.EveryRunCloses | apps/billing/services/cash_shift.py:589-594 | after every run from an empty till, both conditions below for closing an open shift |
| CashShift.RunAsSold | apps/billing/services/order_payment.py:376-488 | over every run, a payment each of whose retries finds the parts of its order as sold keeps its rows to those parts |
| CashShift.ClosedShiftIsRegistered | apps/billing/services/cash_shift.py:589-615 | in a closed shift every succeeded payment that asked for it, was not left behind, and whose retries found the order as sold, has each part acknowledged exactly once, for exactly the money |
| CashShift.ClosedShiftIsAcknowledged | apps/billing/services/cash_shift.py:589-615 | whatever became of its order, such a payment has all its rows sent, as many acknowledgements as rows, one or two, and no split reason acknowledged twice |
| CashShift.NothingToRegisterBlocksShift | apps/billing/services/cash_shift.py:203-213 | as long as the order of an unregistered payment has no active item, no retries make closing its shift succeed |
| CashShift.ClosableIff | apps/billing/services/cash_shift.py:589-594 | as the orders are now, some run of retries makes closing an open shift succeed iff the order of every payment in it that has to be registered fits the rows of that payment |
| CashShift.EverClosableIff | apps/billing/services/cash_shift.py:589-594 | whatever the orders may become, some run of retries does iff no payment in it has a pending row without a reason beside a sent one |
| CashShift.DrawerCovered | apps/billing/services/cash_shift.py:564-587 | expected closing cash is at least the opening cash; each payment is refunded at most once, in full |
| CashShift.RefundMovesDrawerIff | apps/billing/services/cash_shift.py:566-586 | a refund moves a shift's expected cash iff the refunded cash payment was taken in that shift |
| Drawer.OpenedEffect | apps/billing/services/cash_shift.py:511-547 | an opening is refused iff one of its conditions fails, changing nothing; else it adds one open shift with the given cash, or 0 if that is negative |
| Drawer.FreshDrawer | apps/billing/services/cash_shift.py:539-547 | a shift starts with that as its expected cash |
| Drawer.StepMovesMoney | apps/billing/services/cash_shift.py:564-587 | a call changes the sales and refunds of a shift by a method by exactly what it takes and gives back |
| Drawer.StepMovesDrawer | apps/billing/services/cash_shift.py:584-586 | a call moves the expected cash of a shift by the cash taken in it less the cash given back on its payments; card and QR sales, failed charges and terminal answers leave it |
| Drawer.RunMovesDrawer | apps/billing/services/cash_shift.py:584-586 | after every run the expected cash is the opening cash with all that the calls took less all they gave back |
| Drawer.RunSnapshot | apps/billing/services/cash_shift.py:564-587 | and each figure of the snapshot is what the calls of the run took or gave back by that method |
| Drawer.RunKeepsShifts | apps/billing/services/cash_shift.py:511-635 | over every run a shift keeps its desk, cashier and opening cash, and a closed one its whole row |
| Drawer.ClosedEffect | apps/billing/services/cash_shift.py:589-635 | a shift is closed iff it is open and each succeeded payment of it that asked for registration has receipts, all sent; the stored closing has the report's own sales, refunds, and opening cash plus cash sales less cash refunds; nothing else changes |
| Drawer.SoldEffect | apps/billing/services/order_payment.py:174-286 | a checkout on an open shift, by a real method and of a positive amount, adds exactly the payment asked for |
| Drawer.InitiatedEffect | apps/billing/services/order_payment.py:30-121 | a card payment is started iff all its conditions hold, as one waiting row of what was asked for |
| Drawer.AnsweredEffect | apps/billing/services/order_payment.py:123-172 | an answer settles the waiting payment, once, and no other row |
| Drawer.StartedAndConfirmed | apps/billing/services/order_payment.py:30-172 | a started and confirmed card payment raises the card sales of its shift by the amount asked for, at the confirmation, and changes no other figure |
| Drawer.RefundedEffect | apps/billing/services/payment_refund.py:16-37 | a refund is refused iff one of its conditions fails; else it adds one row for the whole amount |
| CashShift.FiscalRowsAreFiscalPayments | apps/billing/services/cash_shift.py:238-258 | in a closed shift with none left behind the fiscal rows are exactly the payments that asked for registration |
| CashShift.FiscalReportIsComplete | apps/billing/services/cash_shift.py:266-296 | so are all sums and counts of the fiscal report |
| Drawer.ReportCountsReceipts | apps/billing/services/cash_shift.py:305-366 | a report lists each succeeded payment of its shift once and in order, and counts as many receipts as the device acknowledged for the payments listed, and as many refunds as there are refunded ones among them |
| CashShift.ReportVatMatchesShift | apps/billing/services/cash_shift.py:342-384 | the VAT that report states for its sales agrees, up to 50 + n/2 hundredths, with the VAT on the n lines of all receipts acknowledged for the shift, if payments cover their orders exactly and these were registered as sold |
| CashShift.ReportAgreesWithSnapshot | apps/billing/services/cash_shift.py:305-366 | per-method totals equal the snapshot, cash + card + QR is the total sale amount, the net total is not negative, and the VAT on refunds does not exceed that on sales |
| Calendar.PeriodsAdvance | apps/platform/services/restaurant_subscriptions.py:25-30 | adding a month or a year gives a valid, strictly later date, a month no later than a year |
| Calendar.PeriodsAreMonths | apps/platform/services/restaurant_subscriptions.py:25-30 | the later date is 1 or 12 months on, on the same day or the last of a shorter month, and no other date is |
| Calendar.OrdinalOrder | apps/dashboard/services/owner_dashboard_overview.py:67-68 | day numbers follow the order of dates, and different dates have different ones |
| Subscriptions.Platform.PostEntry | apps/platform/services/restaurant_balances.py:70-94 | appends one entry whose balance_after is the ledger's sum with it |
| Subscriptions.Platform.Extend | apps/platform/services/restaurant_subscriptions.py:46-69 | extends a running period from its end and restarts a lapsed one today; refused without a billing period |
| Subscriptions.Platform.TryRenew | apps/platform/services/restaurant_subscriptions.py:72-90 | renews iff a price is set and the balance covers it, charging the new period |
| Subscriptions.Platform.Sweep | apps/platform/services/restaurant_subscriptions.py:93-111 | the loop renews or deactivates every due account, touches no other, and counts the due ones |
| Subscriptions.NothingDueAfterSweep | apps/platform/services/restaurant_subscriptions.py:93-111 | after a sweep no active entitlement of an active restaurant has expired |
| Subscriptions.SweepTwice | apps/platform/services/restaurant_subscriptions.py:93-111 | a second sweep the same day changes nothing and returns 0 |
| Subscriptions.ExtendedProlongs | apps/platform/services/restaurant_subscriptions.py:46-69 | an extension adds a month or a year, as billed, to the end of a running period, or to today, and changes nothing else but making both active |
| Subscriptions.RenewalCharges | apps/platform/services/restaurant_subscriptions.py:72-90 | a renewal needs and takes exactly the price of the account's own billing period, as one entry with the period paid for, and prolongs the period |
| Subscriptions.SweepSettles | apps/platform/services/restaurant_subscriptions.py:93-111 | a sweep renews an account that has run out and can pay, takes the access of one that cannot, and leaves all others |
| Subscriptions.TopUpAdds | apps/platform/services/restaurant_balances.py:62-105 | a top-up raises the balance by its amount, if that is positive |
| Subscriptions.RenewedSound | apps/platform/services/restaurant_subscriptions.py:72-90 | a renewal keeps the ledger's prefix sums, a non-negative balance and disjoint charged periods |
| Subscriptions.RunSound | apps/platform/services/restaurant_subscriptions.py:46-111 | over any run with non-decreasing days: every balance_after is the prefix sum and not negative, and charged periods of a restaurant never overlap |
| HallLayout.OverlapsIff | apps/floor/services/hall_constructor.py:127-133 | two placements overlap iff they share a grid cell |
| HallLayout.Validate | apps/floor/services/hall_constructor.py:29-76 | accepts iff the snapshot is complete and the layout fits: known variants, unique numbers, within the columns, pairwise not overlapping; which snapshot error is reported when, and after those the error of the first table that does not fit |
| HallLayout.PlaceAll | apps/floor/services/hall_constructor.py:45-76 | the loop with its inner loop over placements accepts exactly the layouts that fit; a rejection gives the first reason that applies to the first table that does not fit beside those before it |
| HallLayout.AreaBound | apps/floor/services/hall_constructor.py:45-76 | the areas of an accepted layout add up to at most columns x lowest edge |
| HallLayout.Hall.WriteTables | apps/floor/services/hall_constructor.py:93-120 | the loop updates known tables under their id and creates the others under new ones |
| HallLayout.Hall.Save | apps/floor/services/hall_constructor.py:78-125 | a rejection changes nothing; an accepted payload is stored as exactly that snapshot iff no known id occurs twice |
| HallLayout.SaveStoresIff | apps/floor/services/hall_constructor.py:88-120 | the stored tables are the payload's, field by field, one row each and no others, known ones under their own keys and the others under new ones, iff no known id occurs twice in it |
| MarkingCodes.ParseEncode | apps/sales/services/marking.py:26-36 | parsing an AI 01 + AI 21 element string gives its GTIN back, and its serial up to trailing whitespace; exactly iff it does not end in whitespace |
| MarkingCodes.ParseCases | apps/sales/services/marking.py:26-36 | after AI 01 and 14 digits comes the serial, with or without AI 21; 8 digits or more without AI 01 are a GTIN, cut to 14; nothing else gives a GTIN or a serial |
| MarkingCodes.StripCuts | apps/sales/services/marking.py:27 | stripping cuts whitespace at both ends, and all of it |
| MarkingCodes.NormalizedCandidates | apps/catalog/utils/marking.py:21-34 | the set grown step by step is the specified candidate set |
| MarkingCodes.CandidatesAre | apps/catalog/utils/marking.py:21-34 | a candidate is the code, its significant digits, or either with a zero in front if that makes 14 digits |
| MarkingCodes.SignificantCuts | apps/catalog/utils/marking.py:27 | the significant digits are what follows the leading zeros |
| MarkingCodes.DigitsSnoc | apps/catalog/utils/marking.py:22 | character by character digits are kept, in order, and nothing else is |
| MarkingCodes.MatchesIff | apps/catalog/utils/marking.py:21-34 | two GTINs share a candidate iff they are canonically equal, all-zero ones included |
| MarkingCodes.MatchingIgnoresLeadingZeros | apps/catalog/utils/marking.py:21-34 | GTINs that are not all zeros match iff they are equal up to leading zeros |
| MarkingCodes.MatchingIsEquivalence | apps/catalog/utils/marking.py:21-34 | matching is reflexive, symmetric and transitive on all non-empty GTINs |
| MarkingCodes.IndexHitMatches | apps/sales/services/marking.py:46-48 | an item found through the stored GTIN index has the scanned GTIN |
| MarkingCodes.ItemGtinMeans | apps/catalog/utils/marking.py:10-18 | an item's GTIN is its own one, or else that of the first payload value with digits, cut to 32 |
| MarkingCodes.FindCatalogItem | apps/sales/services/marking.py:39-59 | returns an active item with the code's GTIN, one found by index if there is such a one, and fails iff no active item has it; the two earlier errors exactly when the code is empty or has no GTIN |
| LocalAgent.CommandTable.MarkCommandSent | apps/local_agents/consumers.py:110-118 | a delivery sets SENT, whatever the status was, on the command of that agent and on nothing else |
| LocalAgent.CommandTable.StoreCommandResult | apps/local_agents/consumers.py:120-134 | a report sets status, result and error on the command of that agent and on nothing else |
| LocalAgent.CommandTable.Interleave | apps/local_agents/consumers.py:110-134 | any sequence of writes by others, one after the other |
| LocalAgent.CommandTable.Execute | apps/local_agents/services.py:29-79 | the polling loop ends with the first poll that finds a verdict, the table then as it was at a poll, else with the status at the final refresh, over every interleaving; a timeout is then saved over whatever was written meanwhile |
| LocalAgent.RowsAreIndependent | apps/local_agents/consumers.py:110-134 | writes to other commands and by other agents do not affect a command |
| LocalAgent.StatusIsLastWrite | apps/local_agents/consumers.py:110-134 | a command's status is that of the last write that reached it |
| LocalAgent.ResultIsLastReport | apps/local_agents/consumers.py:120-134 | a stored result survives redeliveries and timeouts until the next report |
| LocalAgent.ErrorIsLastVerdict | apps/local_agents/consumers.py:110-134 | a command's error is that of the last report or timeout |
| LocalAgent.OutcomeWasReported | apps/local_agents/services.py:51-63 | a returned result or a raised failure was stored earlier for this command by its own agent |
| LocalAgent.UndeliveredIff | apps/local_agents/services.py:65-105 | "timed out before it was delivered" is said iff no delivery and no report had reached the command by the final refresh |
| LocalAgent.GivesUpIff | apps/local_agents/services.py:51-79 | the execution times out iff no poll falls on a report that is the last write |
| LocalAgent.ReportNotLost | apps/local_agents/services.py:51-79 | if no delivery follows the report, a report stored before the last poll is never lost |
| LocalAgent.RedeliveryHidesResult | apps/local_agents/consumers.py:110-118 | with a delivery after the report, an execution can time out although a result was stored |
| LocalAgent.TimeoutIsOverwritten | apps/local_agents/consumers.py:120-134 | after a timeout the row says TIMED_OUT until the next write that reaches it, which replaces it |
| RevenueSeries.ResolveRange | apps/reporting/selectors/reporting.py:240-259 | an ordered range of the given ends, of one day if only one is given, and today if none is |
| RevenueSeries.RangeResolved | apps/reporting/selectors/reporting.py:49-61 | the resolved range is a non-empty period of whole days |
| RevenueSeries.PreviousIsAdjacent | apps/dashboard/services/owner_dashboard_overview.py:97-155 | the previous period is of the same kind and ends exactly where the current one starts; ranges keep their day span |
| RevenueSeries.KeyInBlueprint | apps/dashboard/services/owner_dashboard_overview.py:353-497 | every time in a period falls on an index of the period's own blueprint |
| RevenueSeries.KeyInjective | apps/dashboard/services/owner_dashboard_overview.py:353-449 | different buckets of a period have different keys, so no total overwrites another |
| RevenueSeries.RowsAddUp | apps/dashboard/services/owner_dashboard_overview.py:353-449 | the grouped totals add up to the total over all entries |
| RevenueSeries.BuildRevenueSeries | apps/dashboard/services/owner_dashboard_overview.py:499-522 | one point per blueprint index with both totals, zero where there is no bucket, and the average check rounded to a nearest unit |
| RevenueSeries.HistogramConserves | apps/dashboard/services/owner_dashboard_overview.py:353-522 | on its own blueprint the histogram keeps every sum and count, whatever order the rows come in |
| RevenueSeries.SeriesMatchesSummary | apps/reporting/selectors/reporting.py:102-117 | the series' sales and orders add up to the summary's sales_total and orders_count, for every period |
| RevenuePoints.PointsShowTheirEntries | apps/dashboard/services/owner_dashboard_overview.py:353-522 | on any blueprint, the current or another period's, the point with index k has the sales and the orders of exactly the period's entries of month k (year), day k (month), hour k (one day) or the k-th day after the start (range) |
| RevenuePoints.BlueprintIsExact | apps/dashboard/services/owner_dashboard_overview.py:451-497 | a blueprint has, in order, exactly the indices that times of its period fall on |
| RevenueSeries.PreviousSeriesConservesIff | apps/dashboard/services/owner_dashboard_overview.py:622-632 | the previous series, on the current blueprint, never exceeds the previous total and equals it iff nothing lies beyond the current indices |
| RevenueSeries.PreviousFits | apps/dashboard/services/owner_dashboard_overview.py:451-497 | the current blueprint covers the previous period's iff it is not a month after a longer month |
| RevenueSeries.PreviousSeriesComplete | apps/dashboard/services/owner_dashboard_overview.py:622-632 | in all those cases the previous series is complete |
| RevenueSeries.ShortMonthDropsDays | apps/dashboard/services/owner_dashboard_overview.py:622-632 | a sale of 31 January is missing from the series drawn beside February |
| TableMerge.FloorDesk.OpenSession | apps/floor/api/admin/serializers/table_session.py:40-63 | a session is created with the requested status iff the table has no active one and the guests fit |
| TableMerge.FloorDesk.PlaceOrder | apps/sales/services/state.py:33-49 | an order is accepted iff it has no session, or an active one without a live order |
| TableMerge.FloorDesk.MergeSessions | apps/floor/api/pos/views/table_session_merge.py:21-46 | merges iff both sessions are active and different, moving the orders and marking the source |
| TableMerge.FloorDesk.CloseOrderAfterPayment | apps/sales/services/state.py:104-118 | paying a live order closes it and its session |
| TableMerge.FloorDesk.MoveSession | apps/floor/api/pos/views/table_session_move.py:13-39 | an active session moves iff the target table has no active one |
| TableMerge.FloorDesk.PatchSession | apps/floor/api/admin/serializers/table_session.py:38-63 | an update of table, status and guests is stored iff no other session is active at the table it ends up at and the guests fit there |
| TableMerge.Acyclic | apps/floor/api/pos/views/table_session_merge.py:39-42 | a chain of merges never visits a session twice |
| TableMerge.ChainEnds | apps/floor/api/pos/views/table_session_merge.py:39-42 | every session's chain ends, at a session that is not MERGED |
| TableMerge.NoOrderOnMerged | apps/floor/api/pos/views/table_session_merge.py:38-42 | no order is attached to a MERGED session |
| TableMerge.MergeMovesRoots | apps/floor/api/pos/views/table_session_merge.py:38-42 | a merge redirects exactly the chains that ended at the source, to the target |
| TableMerge.MergeKeepsOrders | apps/floor/api/pos/views/table_session_merge.py:38 | a merge adds the source's orders to the target's, empties the source, and touches no other session's orders |
| TableMerge.MergeMarksSource | apps/floor/api/pos/views/table_session_merge.py:21-46 | a merge marks the source with its target and no other session, and is refused iff one of the two is not active or they are the same |
| TableMerge.MovesOnlyTable | apps/floor/api/pos/views/table_session_move.py:15-33 | a moved session is at the new table, and nothing else changes |
| TableMerge.OpensOneSession | apps/floor/api/admin/serializers/table_session.py:40-63 | a new session has the table, status and guests asked for, or one guest, and nothing else changes |
| TableMerge.PlacesOneOrder | apps/sales/services/state.py:33-49 | an order is placed on no session, or on one that is open, not merged and without a live order |
| TableMerge.PaymentClosesSession | apps/sales/services/state.py:104-118 | a payment closes that order and its session, and no other |
| TableMerge.PatchWritesGiven | apps/floor/api/admin/serializers/table_session.py:38-63 | an update writes the given fields and keeps the rest, iff no other session is active at the table and the guests fit |
| TableMerge.SharedOnlyByMerge | apps/sales/services/state.py:44-49 | two live orders share a session only if another session was merged into it |
| TableMerge.PatchKeepsSoundIff | apps/floor/api/admin/serializers/table_session.py:38 | an accepted update keeps the invariant iff it neither makes nor unmakes MERGED, whatever else it changes |
| TableMerge.OpenKeepsSoundIff | apps/floor/api/admin/serializers/table_session.py:38 | creating a session keeps it iff the status written is not MERGED |
| TableMerge.RunSound | apps/floor/api/pos/views/table_session_merge.py:21-46 | over every run without such writes: merges form a forest, every order sits at the end of the chain of the session it was placed on, no session took two live orders, no table has two active sessions |
| TableMerge.RunOneActiveEach | apps/floor/api/admin/serializers/table_session.py:38-63 | over every run, whatever is written by hand, no table has two active sessions |
| TableMerge.EmptyFloorSound | apps/floor/models/table_session.py:39-45 | an empty floor satisfies it |
| TableMerge.ReopenedMergeMakesCycle | apps/floor/api/admin/serializers/table_session.py:38 | reopening a merged session by hand and merging back makes a cycle |
| TableMerge.PaymentLeavesLiveOrderIff | apps/sales/services/state.py:111-115 | paying an order leaves a live order on its closed session iff another one shared it, which takes a merge |

## Left out

- Device, printer and network input and output, endpoint discovery, tokens and hashing: replaced by outcome parameters.
- The older fiscal drive service and the MARTA client.
- Orders.RunValid: two-phase card payments are steps of the till (`CashShift.RunSound`), not of the order; a pending card
  payment may complete after another payment closed the order.
- Fiscal shift sessions: failing to open one is one of the unreachable outcomes of a registration.
- Refund receipts, reprints and pre-bills; the actual closing cash and its difference; the receipt and reprint
  counters kept on a shift and on receipts.
- FiscalRetry.ExactlyOnce: counts acknowledgements, with the order's items and catalogue fixed; what the device holds behind
  lost answers is `FiscalLosses`, what changed items do is `FiscalChanges`.
- FiscalLosses.RetrySafeIff: a corollary for attempts that post once; attempts that post again are in
  `FiscalLosses.RetryHeldOnceIff` and `FiscalLosses.HeldAtMostOnceIff`, which count every post.
- FiscalRetry.RunValid: the order and the catalogue stay as sold; with changes, `FiscalCompletion.RetryKept` holds instead.
- FiscalLosses.HeldAtMostOnceIff: the order stays as sold, so that a part is known by its split reason.
- CashShift.ClosedShiftIsRegistered: for payments registered as sold; without that, `CashShift.ClosedShiftIsAcknowledged`.
- CashShift.EverClosableIff: any order is taken as possible, also one that the kitchen's updates alone would not reach.
- Orders.RunValid: fee, stations and printers may change between calls; what a line says of its product does not.
- CashSale.ItemPayloadDecides: number texts use ASCII digits, and an exponent too large for Python's Decimal is not modelled.
- FiscalReceipts.FeeIsApportioned: the division is exact; Python's Decimal carries 28 digits.
- An order's status can also be written through its serializer; the model covers the service calls, and a CANCELLED order
  appears only as an input of the kitchen theorems.
- CashShift.CashOffice.BuildReport: opening and closing times, the terminal id and the number of distinct orders are not modelled.
- Refunds change neither the order nor the payment's status, so they are no step of `Orders.RunValid`; they are steps of `CashShift.RunSound`.
- MarkingScan.RunUnique: the catalogue is fixed during a run, and a code leads to one product.
- Kitchen.SyncTwice: between the two syncs the order and the restaurant's stations and printers stay as they are.
- MarkingCodes.ParseEncode: digits and whitespace are the ASCII ones, with the two Latin-1 spaces.
- Subscriptions.RunSound: `expires_on` is not edited by hand, and each restaurant has one entitlement.
- HallLayout.Save: table names, rotation and activity flags are not stored, and the unique table number is checked on the final state, not row by row.
- LocalAgent.CommandTable.Execute: the time a poll takes is not modelled; any number of polls, also none, may fit before the deadline. Heartbeats and the online check are one parameter.
- RevenueSeries.PreviousIsAdjacent: years before 1 and after 9999 are errors in Python's dates; the first is excluded, the second not modelled. Tashkent is a fixed offset.
- RevenueSeries.ResolveRange: parsing of query strings is outside; a date that does not parse counts as missing, and the fallbacks for an unreadable month or year are not modelled.
- RevenueSeries.SeriesMatchesSummary: entries are the succeeded payments, or the closed orders that are not cancelled, of one restaurant; both sides read the same rows.
- TableMerge.RunSound: orders are placed, paid and merged through the services; an order's session or status written through its serializer is not modelled, nor are table status flags and reservations.
- Serializers, views, permissions, admin, translations, Excel export, settings, migrations and seeders.
- Database locking and constraint checks inside a transaction.
