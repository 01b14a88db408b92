/** Cash shifts, payments, refunds and reports of one restaurant
    (apps/billing/services/cash_shift.py, apps/billing/services/payment_refund.py). */
module CashShift {
  import opened Options
  import opened Arithmetic
  import opened FiscalReceipts
  import opened FiscalDevice
  import opened FiscalRetry
  import opened FiscalCompletion

  datatype Refund = Refund(amount: nat, succeeded: bool)

  /** A payment row with its order as sold, its fiscal receipts and its refunds. A pending one waits for
      its terminal. */
  datatype Payment = Payment(
    paidBy: Method, amount: nat, succeeded: bool, registerFiscal: bool, shift: nat,
    sale: Sale, fiscal: Ledger, refunds: seq<Refund>, pending: bool)
  {
    function Parts(): seq<Part> { BuildParts(sale, paidBy) }

    predicate Fiscal() { succeeded && registerFiscal }

    /** At least one fiscal receipt, and every one of them sent. */
    predicate Resolved() { fiscal.rows != [] && forall i | 0 <= i < |fiscal.rows| :: fiscal.rows[i].IsSent() }
  }

  datatype Snapshot = Snapshot(cash: int, card: int, qr: int, refunds: int, expected: int)

  datatype Shift = Shift(desk: nat, cashier: Option<nat>, open: bool, opening: nat, closing: Option<Snapshot>)

  datatype Till = Till(shifts: seq<Shift>, payments: seq<Payment>)

  // ----- The gate -----

  predicate HasStatus(rows: seq<Row>, status: RowStatus) {
    exists i | 0 <= i < |rows| :: rows[i].status == status
  }

  /** get_unresolved_fiscal_payments_queryset: three Exists subqueries. */
  predicate Unresolved(payment: Payment) {
    payment.Fiscal()
    && (payment.fiscal.rows == [] || !HasStatus(payment.fiscal.rows, Sent) || HasStatus(payment.fiscal.rows, Failed))
  }

  /** The filter means "not resolved" except for a row that was created but neither sent nor failed. */
  lemma GateIff(payment: Payment)
    requires payment.Fiscal()
    ensures var rows := payment.fiscal.rows;
            (Unresolved(payment) <==> !payment.Resolved()) <==>
              !(HasStatus(rows, Sent) && !HasStatus(rows, Failed) && HasStatus(rows, Created))
  {
    var rows := payment.fiscal.rows;
    if HasStatus(rows, Created) {
      var i :| 0 <= i < |rows| && rows[i].status == Created;
      assert !rows[i].IsSent();
    }
    if HasStatus(rows, Failed) {
      var i :| 0 <= i < |rows| && rows[i].status == Failed;
      assert !rows[i].IsSent();
    }
    if rows != [] && payment.Resolved() {
      assert rows[0].IsSent() && SentValue(One)(rows[0]) == One(rows[0].payload);
    }
  }

  /** On rows made by the services the filter is exact. */
  lemma GateExact(payment: Payment)
    requires payment.Fiscal() && Written(payment.fiscal.rows)
    ensures Unresolved(payment) <==> !payment.Resolved()
  {
    GateIff(payment);
    var rows := payment.fiscal.rows;
    if i :| 0 <= i < |rows| && rows[i].status == Created {
      assert rows[i] == RowOf(rows[i].payload);
    }
  }

  // ----- Drawer arithmetic -----

  function RefundOf(refund: Refund): int { if refund.succeeded then refund.amount else 0 }

  function RefundCount(refund: Refund): int { if refund.succeeded then 1 else 0 }

  function Refunded(payment: Payment): int { SumBy(payment.refunds, RefundOf) }

  predicate InShift(payment: Payment, shift: nat) {
    payment.succeeded && payment.shift == shift
  }

  function Sales(shift: nat, paidBy: Method): Payment -> int {
    (p: Payment) => if InShift(p, shift) && p.paidBy == paidBy then p.amount else 0
  }

  function AllSales(shift: nat): Payment -> int {
    (p: Payment) => if InShift(p, shift) then p.amount else 0
  }

  function Refunds(shift: nat, paidBy: Method): Payment -> int {
    (p: Payment) => if p.shift == shift && p.paidBy == paidBy then Refunded(p) else 0
  }

  function AllRefunds(shift: nat): Payment -> int {
    (p: Payment) => if p.shift == shift then Refunded(p) else 0
  }

  function Expected(till: Till, shift: nat): int
    requires shift < |till.shifts|
  {
    till.shifts[shift].opening + SumBy(till.payments, Sales(shift, Cash)) - SumBy(till.payments, Refunds(shift, Cash))
  }

  /** build_shift_snapshot; a refund counts in the shift of its payment. */
  function SnapshotOf(till: Till, shift: nat): Snapshot
    requires shift < |till.shifts|
  {
    Snapshot(
      SumBy(till.payments, Sales(shift, Cash)), SumBy(till.payments, Sales(shift, Card)),
      SumBy(till.payments, Sales(shift, Qr)), SumBy(till.payments, AllRefunds(shift)), Expected(till, shift))
  }

  // ----- What each operation does -----

  datatype Opening = Opening(
    desk: nat, deskActive: bool, cashier: Option<nat>, cashierValid: bool, activeDesks: nat, amount: int)

  datatype Checkout = Checkout(
    shift: nat, paidBy: Method, amount: nat, registerFiscal: bool, sale: Sale, chargeOk: bool, outcome: Outcome)

  predicate DeskBusy(shifts: seq<Shift>, desk: nat) {
    exists s | 0 <= s < |shifts| :: shifts[s].open && shifts[s].desk == desk
  }

  predicate CashierBusy(shifts: seq<Shift>, cashier: nat) {
    exists s | 0 <= s < |shifts| :: shifts[s].open && shifts[s].cashier == Some(cashier)
  }

  predicate CanOpen(till: Till, o: Opening) {
    && o.deskActive
    && (if o.cashier.Some? then o.cashierValid && !CashierBusy(till.shifts, o.cashier.value) else o.activeDesks <= 1)
    && !DeskBusy(till.shifts, o.desk)
  }

  function Opened(till: Till, o: Opening): Till {
    if CanOpen(till, o) then
      till.(shifts := till.shifts + [Shift(o.desk, o.cashier, true, Max(0, o.amount), None)])
    else till
  }

  predicate OpenShift(till: Till, shift: nat) {
    shift < |till.shifts| && till.shifts[shift].open
  }

  /** The fiscal rows of a payment that has just been charged, if it asks for any. */
  function IssuedIf(asked: bool, sale: Sale, paidBy: Method, outcome: Outcome): Ledger {
    if asked then FirstIssue(BuildParts(sale, paidBy), sale.vat, outcome) else Ledger([], [])
  }

  function NewPayment(s: Checkout): Payment {
    Payment(s.paidBy, s.amount, s.chargeOk, s.registerFiscal, s.shift, s.sale,
      IssuedIf(s.chargeOk && s.registerFiscal, s.sale, s.paidBy, s.outcome), [], false)
  }

  function Sold(till: Till, s: Checkout): Till {
    if OpenShift(till, s.shift) && s.paidBy != Mixed && s.amount > 0 then
      till.(payments := till.payments + [NewPayment(s)])
    else till
  }

  /** A card payment to be started on a terminal: payable says that the order can be paid and its details and early
      submission are in order, missing counts its unscanned codes, maySkip is the permission to skip fiscal
      registration, enabled and terminal are the cash desk's card method and its directly reachable terminal. */
  datatype CardRequest = CardRequest(
    shift: nat, amount: nat, registerFiscal: bool, order: Sale, payable: bool, maySkip: bool, missing: nat,
    enabled: bool, terminal: bool, remaining: nat)

  predicate CanInitiate(till: Till, c: CardRequest) {
    && c.payable && OpenShift(till, c.shift) && (c.registerFiscal || c.maySkip) && c.missing == 0
    && c.amount > 0 && c.enabled && c.terminal && (c.remaining == 0 || c.amount >= c.remaining)
  }

  function Waiting(c: CardRequest): Payment {
    Payment(Card, c.amount, false, c.registerFiscal, c.shift, c.order, Ledger([], []), [], true)
  }

  /** initiate_marta_card_payment: a card payment that waits for its terminal. */
  function Initiated(till: Till, c: CardRequest): Till {
    if CanInitiate(till, c) then till.(payments := till.payments + [Waiting(c)]) else till
  }

  /** A terminal's answer, and what it meets: the order as it is by then, whether the late submission of a takeaway
      order goes through (true if none is due), and what the fiscal device does. */
  datatype Answer = Answer(ok: bool, order: Sale, submitted: bool, outcome: Outcome)

  /** complete_marta_terminal_payment; the shift is not looked at. A refused late submission comes after the success was
      saved and leaves no fiscal rows. */
  function AfterTerminal(payment: Payment, a: Answer): Payment {
    payment.(pending := false, succeeded := a.ok, sale := a.order,
      fiscal := IssuedIf(a.ok && a.submitted && payment.registerFiscal, a.order, payment.paidBy, a.outcome))
  }

  function TerminalDone(till: Till, p: nat, a: Answer): Till
    requires p < |till.payments|
  {
    if till.payments[p].pending then till.(payments := till.payments[p := AfterTerminal(till.payments[p], a)]) else till
  }

  /** PaymentFiscalRetryService.retry, with the order as it is by then. */
  function AfterRetry(payment: Payment, order: Sale, outcome: Outcome): Payment {
    if payment.Fiscal() then
      payment.(fiscal := RetryOnce(payment.fiscal, BuildParts(order, payment.paidBy), order.vat, outcome).0)
    else payment
  }

  function RetriedPayment(till: Till, p: nat, order: Sale, outcome: Outcome): Till
    requires p < |till.payments|
  {
    till.(payments := till.payments[p := AfterRetry(till.payments[p], order, outcome)])
  }

  predicate AlreadyRefunded(payment: Payment) {
    exists i | 0 <= i < |payment.refunds| :: payment.refunds[i].succeeded
  }

  function RefundedPayment(till: Till, p: nat, shift: nat, orderClosed: bool, ok: bool): Till
    requires p < |till.payments|
  {
    var payment := till.payments[p];
    if payment.succeeded && orderClosed && !AlreadyRefunded(payment) && OpenShift(till, shift) then
      till.(payments := till.payments[p := payment.(refunds := payment.refunds + [Refund(payment.amount, ok)])])
    else till
  }

  predicate GateShut(till: Till, shift: nat) {
    exists i | 0 <= i < |till.payments| :: till.payments[i].shift == shift && Unresolved(till.payments[i])
  }

  function ClosedShift(till: Till, shift: nat): Till {
    if !OpenShift(till, shift) || GateShut(till, shift) then till
    else
      var closed := till.shifts[shift].(open := false, closing := Some(SnapshotOf(till, shift)));
      till.(shifts := till.shifts[shift := closed])
  }

  // ----- The invariant -----

  ghost predicate PaymentSafe(payment: Payment, shifts: seq<Shift>) {
    && payment.shift < |shifts|
    && payment.paidBy != Mixed
    && (payment.pending ==> payment.paidBy == Card && !payment.succeeded)
    && (if payment.Fiscal() then WellKept(payment.fiscal) && Possible(payment.fiscal.rows, payment.paidBy)
        else payment.fiscal == Ledger([], []))
    && (forall i | 0 <= i < |payment.refunds| :: payment.refunds[i].amount == payment.amount)
    && 0 <= SumBy(payment.refunds, RefundCount) <= 1
    && 0 <= Refunded(payment) <= (if payment.succeeded then payment.amount else 0)
  }

  ghost predicate OneOpenEach(shifts: seq<Shift>) {
    forall s, t | 0 <= s < t < |shifts| && shifts[s].open && shifts[t].open ::
      shifts[s].desk != shifts[t].desk && (shifts[s].cashier.Some? ==> shifts[s].cashier != shifts[t].cashier)
  }

  /** Kept by every run. */
  ghost predicate Sound(till: Till) {
    && (forall i | 0 <= i < |till.payments| :: PaymentSafe(till.payments[i], till.shifts))
    && OneOpenEach(till.shifts)
  }

  lemma OpenedSound(till: Till, o: Opening)
    requires Sound(till)
    ensures Sound(Opened(till, o))
  {
  }

  lemma IssuedKept(sale: Sale, paidBy: Method, outcome: Outcome)
    ensures WellKept(IssuedIf(true, sale, paidBy, outcome))
    ensures Possible(IssuedIf(true, sale, paidBy, outcome).rows, paidBy)
  {
    PartsAreToldApart(sale, paidBy);
    FirstIssueKept(BuildParts(sale, paidBy), sale.vat, outcome);
    FirstIssuePossible(sale, paidBy, outcome);
  }

  lemma SoldSound(till: Till, s: Checkout)
    requires Sound(till)
    ensures Sound(Sold(till, s))
  {
    if OpenShift(till, s.shift) && s.paidBy != Mixed && s.amount > 0 {
      IssuedKept(s.sale, s.paidBy, s.outcome);
      assert PaymentSafe(NewPayment(s), till.shifts);
    }
  }

  /** A retry keeps the till sound, whatever has become of the order. */
  lemma RetriedSound(till: Till, p: nat, order: Sale, outcome: Outcome)
    requires Sound(till) && p < |till.payments|
    ensures Sound(RetriedPayment(till, p, order, outcome))
  {
    RetriedPaymentSafe(till.payments[p], till.shifts, order, outcome);
  }

  lemma RetriedPaymentSafe(payment: Payment, shifts: seq<Shift>, order: Sale, outcome: Outcome)
    requires PaymentSafe(payment, shifts)
    ensures PaymentSafe(AfterRetry(payment, order, outcome), shifts)
  {
    if payment.Fiscal() {
      PartsAreToldApart(order, payment.paidBy);
      RetryKept(payment.fiscal, BuildParts(order, payment.paidBy), order.vat, outcome);
      RetryPossible(payment.fiscal, order, payment.paidBy, outcome);
    }
  }

  lemma {:induction false} NoRefundYet(refunds: seq<Refund>)
    requires forall i | 0 <= i < |refunds| :: !refunds[i].succeeded
    ensures SumBy(refunds, RefundCount) == 0 && SumBy(refunds, RefundOf) == 0
  {
    if refunds != [] {
      NoRefundYet(refunds[1..]);
    }
  }

  lemma RefundedSound(till: Till, p: nat, shift: nat, orderClosed: bool, ok: bool)
    requires Sound(till) && p < |till.payments|
    ensures Sound(RefundedPayment(till, p, shift, orderClosed, ok))
  {
    var payment := till.payments[p];
    assert PaymentSafe(payment, till.shifts);
    if payment.succeeded && orderClosed && !AlreadyRefunded(payment) && OpenShift(till, shift) {
      NoRefundYet(payment.refunds);
      SumBySnoc(payment.refunds, Refund(payment.amount, ok), RefundCount);
      SumBySnoc(payment.refunds, Refund(payment.amount, ok), RefundOf);
      var after := payment.(refunds := payment.refunds + [Refund(payment.amount, ok)]);
      assert PaymentSafe(after, till.shifts);
    }
  }

  lemma ClosedSound(till: Till, shift: nat)
    requires Sound(till)
    ensures Sound(ClosedShift(till, shift))
  {
  }

  // ----- Card payments in two phases -----

  lemma InitiatedSound(till: Till, c: CardRequest)
    requires Sound(till)
    ensures Sound(Initiated(till, c))
  {
    if CanInitiate(till, c) {
      assert PaymentSafe(Waiting(c), till.shifts);
    }
  }

  /** Completing a pending card payment keeps the till sound, even if its shift was closed meanwhile. */
  lemma TerminalSound(till: Till, p: nat, a: Answer)
    requires Sound(till) && p < |till.payments|
    ensures Sound(TerminalDone(till, p, a))
  {
    assert PaymentSafe(till.payments[p], till.shifts);
    if till.payments[p].pending {
      if a.ok && a.submitted && till.payments[p].registerFiscal {
        IssuedKept(a.order, till.payments[p].paidBy, a.outcome);
      }
      assert PaymentSafe(AfterTerminal(till.payments[p], a), till.shifts);
    }
  }

  /** A completed card payment changes what a shift's snapshot would say exactly when it succeeded in that very shift,
      closed or not; a snapshot stored before is then stale. */
  lemma TerminalMovesSnapshotIff(till: Till, p: nat, a: Answer, shift: nat)
    requires Sound(till) && p < |till.payments| && till.payments[p].pending && till.payments[p].amount > 0
    requires shift < |till.shifts|
    ensures SnapshotOf(TerminalDone(till, p, a), shift) != SnapshotOf(till, shift)
            <==> a.ok && till.payments[p].shift == shift
  {
    var payment := till.payments[p];
    var after := AfterTerminal(payment, a);
    assert PaymentSafe(payment, till.shifts);
    SumByUpdate(till.payments, p, after, Sales(shift, Cash));
    SumByUpdate(till.payments, p, after, Sales(shift, Card));
    SumByUpdate(till.payments, p, after, Sales(shift, Qr));
    SumByUpdate(till.payments, p, after, AllRefunds(shift));
    SumByUpdate(till.payments, p, after, Refunds(shift, Cash));
  }

  // ----- Every run -----

  datatype Action =
    | DoOpen(opening: Opening)
    | DoSell(sale: Checkout)
    | DoRetry(p: nat, order: Sale, outcome: Outcome)
    | DoRefund(p: nat, shift: nat, orderClosed: bool, ok: bool)
    | DoClose(shift: nat)
    | DoInitiate(card: CardRequest)
    | DoTerminal(p: nat, answer: Answer)

  function Step(till: Till, action: Action): Till {
    match action
    case DoOpen(opening) => Opened(till, opening)
    case DoSell(sale) => Sold(till, sale)
    case DoRetry(p, order, outcome) => if p < |till.payments| then RetriedPayment(till, p, order, outcome) else till
    case DoRefund(p, shift, orderClosed, ok) =>
      if p < |till.payments| then RefundedPayment(till, p, shift, orderClosed, ok) else till
    case DoClose(shift) => ClosedShift(till, shift)
    case DoInitiate(card) => Initiated(till, card)
    case DoTerminal(p, answer) => if p < |till.payments| then TerminalDone(till, p, answer) else till
  }

  lemma StepSound(till: Till, action: Action)
    requires Sound(till)
    ensures Sound(Step(till, action))
  {
    match action
    case DoOpen(opening) => OpenedSound(till, opening);
    case DoSell(sale) => SoldSound(till, sale);
    case DoRetry(p, order, outcome) => if p < |till.payments| { RetriedSound(till, p, order, outcome); }
    case DoRefund(p, shift, orderClosed, ok) =>
      if p < |till.payments| { RefundedSound(till, p, shift, orderClosed, ok); }
    case DoClose(shift) => ClosedSound(till, shift);
    case DoInitiate(card) => InitiatedSound(till, card);
    case DoTerminal(p, answer) => if p < |till.payments| { TerminalSound(till, p, answer); }
  }

  function Run(till: Till, actions: seq<Action>): Till
    decreases |actions|
  {
    if actions == [] then till else Run(Step(till, actions[0]), actions[1..])
  }

  /** Over every run the till stays sound; no desk and no cashier ever has two open shifts. */
  lemma {:induction false} RunSound(till: Till, actions: seq<Action>)
    requires Sound(till)
    ensures Sound(Run(till, actions)) && OneOpenEach(Run(till, actions).shifts)
    decreases |actions|
  {
    if actions != [] {
      StepSound(till, actions[0]);
      RunSound(Step(till, actions[0]), actions[1..]);
    }
  }

  // ----- Nothing unregistered in a closed shift -----

  /** If the payment's shift is closed and it has to be registered, it is. */
  ghost predicate Gated(payment: Payment, shifts: seq<Shift>) {
    payment.shift < |shifts| && !shifts[payment.shift].open && payment.Fiscal() ==> payment.Resolved()
  }

  ghost predicate GateClause(till: Till, p: nat) {
    p < |till.payments| ==> Gated(till.payments[p], till.shifts)
  }

  /** The terminal's answer leaves nothing to register: the payment failed, asks for no registration, or its order is
      submitted and the device accepts every part of it. */
  predicate Harmless(payment: Payment, a: Answer) {
    !a.ok || !payment.registerFiscal || (a.submitted && RegistersAll(BuildParts(a.order, payment.paidBy), a.outcome))
  }

  /** The action is not an answer for payment p after its shift was closed, or a harmless one. */
  predicate Timely(till: Till, action: Action, p: nat) {
    action.DoTerminal? && action.p == p && p < |till.payments| && till.payments[p].pending
    && till.payments[p].shift < |till.shifts| ==>
      || till.shifts[till.payments[p].shift].open
      || Harmless(till.payments[p], action.answer)
  }

  /** A fully registered payment is not sent again. */
  lemma ResolvedStays(ledger: Ledger, parts: seq<Part>, percent: nat, outcome: Outcome)
    requires ledger.rows != [] && AllSent(ledger.rows)
    ensures RetryOnce(ledger, parts, percent, outcome) == (ledger, AlreadySent)
  {
  }

  lemma AnswerGatedIff(payment: Payment, shifts: seq<Shift>, a: Answer)
    requires PaymentSafe(payment, shifts) && payment.pending
    ensures Gated(AfterTerminal(payment, a), shifts) <==> shifts[payment.shift].open || Harmless(payment, a)
  {
    if a.ok && a.submitted && payment.registerFiscal {
      FirstIssueSendsAllIff(BuildParts(a.order, payment.paidBy), a.order.vat, a.outcome);
    }
  }

  lemma ClosedGated(till: Till, shift: nat, p: nat)
    requires Sound(till) && p < |till.payments| && Gated(till.payments[p], till.shifts)
    ensures Gated(till.payments[p], ClosedShift(till, shift).shifts)
  {
    assert PaymentSafe(till.payments[p], till.shifts);
    if till.payments[p].Fiscal() {
      GateExact(till.payments[p]);
    }
  }

  /** A step leaves a payment registered or its shift open, as it found it, exactly when it is timely for that
      payment. */
  lemma StepGatedIff(till: Till, action: Action, p: nat)
    requires Sound(till) && GateClause(till, p)
    ensures GateClause(Step(till, action), p) <==> Timely(till, action, p)
  {
    if p < |till.payments| {
      var payment := till.payments[p];
      assert PaymentSafe(payment, till.shifts);
      match action
      case DoClose(shift) => ClosedGated(till, shift, p);
      case DoTerminal(q, answer) => if q == p && payment.pending { AnswerGatedIff(payment, till.shifts, answer); }
      case DoRetry(q, order, outcome) =>
        if q == p && payment.Fiscal() && payment.Resolved() {
          ResolvedStays(payment.fiscal, BuildParts(order, payment.paidBy), order.vat, outcome);
        }
      case _ =>
    }
  }

  ghost predicate GatedThroughout(till: Till, actions: seq<Action>, p: nat)
    decreases |actions|
  {
    GateClause(till, p) && (actions == [] || GatedThroughout(Step(till, actions[0]), actions[1..], p))
  }

  ghost predicate TimelyRun(till: Till, actions: seq<Action>, p: nat)
    decreases |actions|
  {
    actions == [] || (Timely(till, actions[0], p) && TimelyRun(Step(till, actions[0]), actions[1..], p))
  }

  /** Over a run a payment is never unregistered in a closed shift exactly when its own completion is timely. */
  lemma {:induction false} RunGatedIff(till: Till, actions: seq<Action>, p: nat)
    requires Sound(till) && GateClause(till, p)
    ensures GatedThroughout(till, actions, p) <==> TimelyRun(till, actions, p)
    decreases |actions|
  {
    if actions != [] {
      var next := Step(till, actions[0]);
      StepGatedIff(till, actions[0], p);
      StepSound(till, actions[0]);
      if GateClause(next, p) {
        RunGatedIff(next, actions[1..], p);
      } else {
        assert !GatedThroughout(next, actions[1..], p);
      }
    }
  }

  lemma RetriedGatedIff(till: Till, p: nat, order: Sale, outcome: Outcome)
    requires p < |till.payments| && till.payments[p].Fiscal()
    requires till.payments[p].shift < |till.shifts| && !till.shifts[till.payments[p].shift].open
    ensures var payment := till.payments[p];
            var after := RetryOnce(payment.fiscal, BuildParts(order, payment.paidBy), order.vat, outcome).0;
            GateClause(RetriedPayment(till, p, order, outcome), p) <==> Complete(after.rows)
  {
    var after := RetriedPayment(till, p, order, outcome);
    assert after.payments[p] == AfterRetry(till.payments[p], order, outcome);
  }

  /** A retry can register a payment left behind in a closed shift exactly when the order as it is by then fits its
      rows. */
  lemma RestoredIff(till: Till, p: nat, order: Sale)
    requires Sound(till) && p < |till.payments| && till.payments[p].Fiscal()
    requires till.payments[p].shift < |till.shifts| && !till.shifts[till.payments[p].shift].open
    ensures (exists outcome :: GateClause(RetriedPayment(till, p, order, outcome), p))
            <==> Completable(till.payments[p].fiscal.rows, BuildParts(order, till.payments[p].paidBy))
  {
    var payment := till.payments[p];
    var now := BuildParts(order, payment.paidBy);
    assert PaymentSafe(payment, till.shifts);
    PartsAreToldApart(order, payment.paidBy);
    PartsPossible(order, payment.paidBy);
    if Completable(payment.fiscal.rows, now) {
      AcceptedRetryCompletes(payment.fiscal, now, order.vat, AllAccepted(2));
      RetriedGatedIff(till, p, order, AllAccepted(2));
    } else {
      forall outcome
        ensures !GateClause(RetriedPayment(till, p, order, outcome), p)
      {
        IncompletableStays(payment.fiscal, now, order.vat, outcome);
        IncompletableIsOpen(RetryOnce(payment.fiscal, now, order.vat, outcome).0.rows, now);
        RetriedGatedIff(till, p, order, outcome);
      }
    }
  }

  /** All payments of a shift, if it is closed, are registered as far as they have to be. */
  ghost predicate ShiftGated(till: Till, shift: nat) {
    forall i: nat | i < |till.payments| && till.payments[i].shift == shift :: Gated(till.payments[i], till.shifts)
  }

  /** No payment of the shift is completed too late by the action. */
  predicate TimelyFor(till: Till, action: Action, shift: nat) {
    action.DoTerminal? && action.p < |till.payments| && till.payments[action.p].shift == shift ==>
      Timely(till, action, action.p)
  }

  predicate TimelyForShift(till: Till, actions: seq<Action>, shift: nat)
    decreases |actions|
  {
    actions == [] || (TimelyFor(till, actions[0], shift) && TimelyForShift(Step(till, actions[0]), actions[1..], shift))
  }

  lemma StepShiftGated(till: Till, action: Action, shift: nat)
    requires Sound(till) && ShiftGated(till, shift) && TimelyFor(till, action, shift)
    ensures ShiftGated(Step(till, action), shift)
  {
    var after := Step(till, action);
    forall i: nat | i < |after.payments| && after.payments[i].shift == shift
      ensures Gated(after.payments[i], after.shifts)
    {
      if i < |till.payments| {
        assert till.payments[i].shift == shift;
      }
      StepGatedIff(till, action, i);
    }
  }

  /** A closed shift whose own payments were completed in time holds none that is left to register. */
  lemma {:induction false} RunShiftGated(till: Till, actions: seq<Action>, shift: nat)
    requires Sound(till) && ShiftGated(till, shift) && TimelyForShift(till, actions, shift)
    ensures ShiftGated(Run(till, actions), shift)
    decreases |actions|
  {
    if actions != [] {
      StepSound(till, actions[0]);
      StepShiftGated(till, actions[0], shift);
      RunShiftGated(Step(till, actions[0]), actions[1..], shift);
    }
  }

  lemma {:induction false} RunCons(till: Till, action: Action, rest: seq<Action>)
    ensures Run(till, [action] + rest) == Run(Step(till, action), rest)
  {
    assert ([action] + rest)[1..] == rest;
  }

  lemma ClosedWhileWaiting(opening: Opening, card: CardRequest)
    requires opening == Opening(0, true, None, true, 1, 0)
    requires card == CardRequest(0, 100, true, card.order, true, true, 0, true, true, 0)
    ensures var till := Step(Step(Step(Till([], []), DoOpen(opening)), DoInitiate(card)), DoClose(0));
            till.payments == [Waiting(card)] && |till.shifts| == 1 && !till.shifts[0].open
  {
    var waiting := Step(Step(Till([], []), DoOpen(opening)), DoInitiate(card));
    assert waiting == Till([Shift(0, None, true, 0, None)], [Waiting(card)]);
  }

  /** A shift is opened and closed while a card payment waits for its terminal; the terminal then succeeds, and the
      fiscal device cannot be reached: the closed shift holds a payment left to register. */
  lemma {:induction false} LateAnswerLeavesOneBehind(order: Sale)
    ensures var opening := Opening(0, true, None, true, 1, 0);
            var card := CardRequest(0, 100, true, order, true, true, 0, true, true, 0);
            var till := Run(Till([], []), [DoOpen(opening), DoInitiate(card), DoClose(0),
                                           DoTerminal(0, Answer(true, order, true, Unreachable))]);
            && |till.shifts| == |till.payments| == 1 && !till.shifts[0].open
            && till.payments[0].shift == 0 && Unresolved(till.payments[0]) && !GateClause(till, 0)
  {
    var opening := Opening(0, true, None, true, 1, 0);
    var card := CardRequest(0, 100, true, order, true, true, 0, true, true, 0);
    var a, b, c := DoOpen(opening), DoInitiate(card), DoClose(0);
    var d := DoTerminal(0, Answer(true, order, true, Unreachable));
    var empty := Till([], []);
    RunCons(empty, a, [b, c, d]);
    RunCons(Step(empty, a), b, [c, d]);
    RunCons(Step(Step(empty, a), b), c, [d]);
    RunCons(Step(Step(Step(empty, a), b), c), d, []);
    ClosedWhileWaiting(opening, card);
    assert IssuedIf(true, order, Card, Unreachable).rows == [RowOf(Rejected(Absent))];
  }

  // ----- What a sound till promises -----

  /** Every attempt to register the payment has found the parts of the order as sold. */
  ghost predicate AsSold(payment: Payment) {
    payment.Fiscal() ==> Valid(payment.fiscal, payment.Parts(), payment.sale.vat)
  }

  /** A retry of payment p finds the parts of its order as sold. */
  predicate SeesAsSold(till: Till, action: Action, p: nat) {
    action.DoRetry? && action.p == p && p < |till.payments| ==>
      var payment := till.payments[p];
      BuildParts(action.order, payment.paidBy) == payment.Parts() && action.order.vat == payment.sale.vat
  }

  predicate Undisturbed(till: Till, actions: seq<Action>, p: nat)
    decreases |actions|
  {
    actions == [] || (SeesAsSold(till, actions[0], p) && Undisturbed(Step(till, actions[0]), actions[1..], p))
  }

  lemma IssuedAsSold(payment: Payment, asked: bool, outcome: Outcome)
    requires payment.fiscal == IssuedIf(asked, payment.sale, payment.paidBy, outcome)
    ensures AsSold(payment)
  {
    PartsAreToldApart(payment.sale, payment.paidBy);
    FirstIssueValid(payment.Parts(), payment.sale.vat, outcome);
  }

  lemma StepAsSold(till: Till, action: Action, p: nat)
    requires SeesAsSold(till, action, p) && (p < |till.payments| ==> AsSold(till.payments[p]))
    ensures p < |Step(till, action).payments| ==> AsSold(Step(till, action).payments[p])
  {
    match action
    case DoSell(sale) =>
      IssuedAsSold(NewPayment(sale), sale.chargeOk && sale.registerFiscal, sale.outcome);
    case DoRetry(q, order, outcome) =>
      if q == p && p < |till.payments| && till.payments[p].Fiscal() {
        RetryValid(till.payments[p].fiscal, till.payments[p].Parts(), till.payments[p].sale.vat, outcome);
      }
    case DoTerminal(q, a) =>
      if q == p && p < |till.payments| && till.payments[p].pending {
        var asked := a.ok && a.submitted && till.payments[p].registerFiscal;
        IssuedAsSold(AfterTerminal(till.payments[p], a), asked, a.outcome);
      }
    case _ =>
  }

  /** A payment whose order is as it was sold whenever it is retried keeps to that order's parts over any run. */
  lemma {:induction false} RunAsSold(till: Till, actions: seq<Action>, p: nat)
    requires Undisturbed(till, actions, p) && (p < |till.payments| ==> AsSold(till.payments[p]))
    ensures p < |Run(till, actions).payments| ==> AsSold(Run(till, actions).payments[p])
    decreases |actions|
  {
    if actions != [] {
      StepAsSold(till, actions[0], p);
      RunAsSold(Step(till, actions[0]), actions[1..], p);
    }
  }

  /** A closed shift: every succeeded payment that asked for fiscal registration, and whose order was as sold at each
      retry, has each part registered exactly once, for exactly the order's money. */
  lemma ClosedShiftIsRegistered(till: Till, p: nat, reason: Reason)
    requires Sound(till) && p < |till.payments| && AsSold(till.payments[p])
    requires till.payments[p].Fiscal() && !till.shifts[till.payments[p].shift].open && GateClause(till, p)
    ensures var payment := till.payments[p];
            && (forall i | 0 <= i < |payment.Parts()| ::
                  Registrations(payment.fiscal.log, payment.Parts()[i].reason) == 1)
            && Registrations(payment.fiscal.log, reason) <= 1
            && payment.Parts() != []
            && SumBy(payment.fiscal.log, Price) == SumBy(payment.Parts(), PartPrice(payment.sale.vat))
            && (TotalsConsistent(payment.sale)
                && (forall i | i in Active(payment.sale) :: Labels(i) == [] || |Labels(i)| == i.quantity) ==>
                  SumBy(payment.fiscal.log, Price) == 100 * payment.sale.total)
  {
    var payment := till.payments[p];
    assert PaymentSafe(payment, till.shifts);
    var parts := payment.Parts();
    assert payment.fiscal.rows[0].IsSent() && SomeSent(payment.fiscal.rows);
    assert RowsMatchParts(payment.fiscal.rows, parts, payment.sale.vat);
    RegisteredAtMostOnce(payment.fiscal, parts, payment.sale.vat, reason);
    RegisteredMoney(payment.fiscal, parts, payment.sale.vat);
    PartsAreToldApart(payment.sale, payment.paidBy);
    if TotalsConsistent(payment.sale)
       && (forall i | i in Active(payment.sale) :: Labels(i) == [] || |Labels(i)| == i.quantity) {
      MoneyConserved(payment.sale, payment.paidBy);
    }
  }

  function One(result: Result): int { 1 }

  lemma {:induction false} CountsResults(log: seq<Result>)
    ensures SumBy(log, One) == |log|
  {
    if log != [] {
      CountsResults(log[1..]);
    }
  }

  lemma {:induction false} CountsSent(rows: seq<Row>)
    requires AllSent(rows)
    ensures SumBy(rows, SentValue(One)) == |rows|
  {
    if rows != [] {
      assert rows[0].IsSent() && SentValue(One)(rows[0]) == One(rows[0].payload);
      assert forall i | 0 <= i < |rows[1..]| :: rows[1..][i] == rows[i + 1];
      CountsSent(rows[1..]);
    }
  }

  /** Whatever has become of its order meanwhile: in a closed shift such a payment has at least one row and no more than
      its method allows, all sent, with one acknowledgement for each and no other, and no split reason twice. */
  lemma ClosedShiftIsAcknowledged(till: Till, p: nat, reason: Reason)
    requires Sound(till) && p < |till.payments|
    requires till.payments[p].Fiscal() && !till.shifts[till.payments[p].shift].open && GateClause(till, p)
    ensures var payment := till.payments[p];
            && AllSent(payment.fiscal.rows) && 1 <= |payment.fiscal.rows| <= MostParts(payment.paidBy)
            && |payment.fiscal.log| == |payment.fiscal.rows|
            && Registrations(payment.fiscal.log, reason)
               == if exists i | 0 <= i < |payment.fiscal.rows| :: payment.fiscal.rows[i].payload.reason == reason
                  then 1 else 0
  {
    var payment := till.payments[p];
    assert PaymentSafe(payment, till.shifts);
    ReasonAcknowledgedOnce(payment.fiscal, reason);
    CountsResults(payment.fiscal.log);
    CountsSent(payment.fiscal.rows);
    assert SumBy(payment.fiscal.log, One) == SumBy(payment.fiscal.rows, SentValue(One));
  }

  // ----- When a shift can be closed -----

  /** A gate-shutting payment is one that is not completed. */
  lemma ResolvedIffSent(payment: Payment, shifts: seq<Shift>)
    requires PaymentSafe(payment, shifts) && payment.Fiscal()
    ensures Unresolved(payment) <==> !Complete(payment.fiscal.rows)
  {
    GateExact(payment);
  }

  /** Each retry finds the order of its payment as it is now. */
  predicate OnlyRetries(actions: seq<Action>, orders: seq<Sale>) {
    forall k | 0 <= k < |actions| ::
      actions[k].DoRetry? && (actions[k].p < |orders| ==> actions[k].order == orders[actions[k].p])
  }

  predicate OnlyRetriesAtAll(actions: seq<Action>) {
    forall k | 0 <= k < |actions| :: actions[k].DoRetry?
  }

  /** Retries change nothing about a payment but its fiscal rows. */
  ghost predicate SameButRows(before: Till, after: Till) {
    && after.shifts == before.shifts && |after.payments| == |before.payments|
    && forall i | 0 <= i < |before.payments| ::
         after.payments[i].(fiscal := before.payments[i].fiscal) == before.payments[i]
  }

  lemma {:induction false} RetriesKeep(till: Till, actions: seq<Action>)
    requires Sound(till) && OnlyRetriesAtAll(actions)
    ensures Sound(Run(till, actions)) && SameButRows(till, Run(till, actions))
    decreases |actions|
  {
    if actions != [] {
      StepSound(till, actions[0]);
      var after := Step(till, actions[0]);
      assert SameButRows(till, after);
      assert forall k | 0 <= k < |actions[1..]| :: actions[1..][k] == actions[k + 1];
      RetriesKeep(after, actions[1..]);
    }
  }

  /** One retry for each of the first n payments, all accepted by the device. */
  function RetryEach(orders: seq<Sale>, n: nat): seq<Action>
    requires n <= |orders|
  {
    if n == 0 then [] else RetryEach(orders, n - 1) + [DoRetry(n - 1, orders[n - 1], AllAccepted(2))]
  }

  lemma {:induction false} RunSnoc(till: Till, actions: seq<Action>, last: Action)
    ensures Run(till, actions + [last]) == Step(Run(till, actions), last)
    decreases |actions|
  {
    if actions == [] {
      assert [last][1..] == [];
    } else {
      assert (actions + [last])[1..] == actions[1..] + [last];
      RunSnoc(Step(till, actions[0]), actions[1..], last);
    }
  }

  lemma {:induction false} RetryEachRetries(orders: seq<Sale>, n: nat)
    requires n <= |orders|
    ensures OnlyRetries(RetryEach(orders, n), orders) && OnlyRetriesAtAll(RetryEach(orders, n))
  {
    if n > 0 {
      RetryEachRetries(orders, n - 1);
    }
  }

  /** The payment needs no registration, or the order as it is now can complete it. */
  predicate Registrable(payment: Payment, order: Sale) {
    payment.Fiscal() ==> Completable(payment.fiscal.rows, BuildParts(order, payment.paidBy))
  }

  lemma AcceptedRetryResolves(payment: Payment, shifts: seq<Shift>, order: Sale)
    requires PaymentSafe(payment, shifts) && Registrable(payment, order)
    ensures !Unresolved(AfterRetry(payment, order, AllAccepted(2)))
  {
    if payment.Fiscal() {
      PartsAreToldApart(order, payment.paidBy);
      PartsPossible(order, payment.paidBy);
      AcceptedRetryCompletes(payment.fiscal, BuildParts(order, payment.paidBy), order.vat, AllAccepted(2));
      RetriedPaymentSafe(payment, shifts, order, AllAccepted(2));
      ResolvedIffSent(AfterRetry(payment, order, AllAccepted(2)), shifts);
    }
  }

  /** The first n payments of the shift are registered, and the others are as they were. */
  ghost predicate FirstResolved(before: Till, after: Till, shift: nat, n: nat) {
    && n <= |before.payments| == |after.payments|
    && (forall i | 0 <= i < n && after.payments[i].shift == shift :: !Unresolved(after.payments[i]))
    && (forall i | n <= i < |before.payments| :: after.payments[i] == before.payments[i])
  }

  lemma OneMoreResolved(before: Till, till: Till, shift: nat, n: nat, order: Sale)
    requires Sound(before) && n < |before.payments| && FirstResolved(before, till, shift, n)
    requires before.payments[n].shift == shift ==> Registrable(before.payments[n], order)
    ensures FirstResolved(before, RetriedPayment(till, n, order, AllAccepted(2)), shift, n + 1)
  {
    assert PaymentSafe(before.payments[n], before.shifts);
    if before.payments[n].shift == shift {
      AcceptedRetryResolves(before.payments[n], before.shifts, order);
    }
  }

  ghost predicate AllRegistrable(till: Till, shift: nat, orders: seq<Sale>)
    requires |orders| == |till.payments|
  {
    forall i | 0 <= i < |till.payments| && till.payments[i].shift == shift :: Registrable(till.payments[i], orders[i])
  }

  lemma {:induction false} RetryEachStep(till: Till, orders: seq<Sale>, n: nat)
    requires n < |orders| && n < |Run(till, RetryEach(orders, n)).payments|
    ensures Run(till, RetryEach(orders, n + 1))
         == RetriedPayment(Run(till, RetryEach(orders, n)), n, orders[n], AllAccepted(2))
  {
    RunSnoc(till, RetryEach(orders, n), DoRetry(n, orders[n], AllAccepted(2)));
  }

  lemma {:induction false} RetryOneMore(till: Till, shift: nat, orders: seq<Sale>, n: nat)
    requires Sound(till) && n < |orders| == |till.payments|
    requires till.payments[n].shift == shift ==> Registrable(till.payments[n], orders[n])
    requires FirstResolved(till, Run(till, RetryEach(orders, n)), shift, n)
    ensures FirstResolved(till, Run(till, RetryEach(orders, n + 1)), shift, n + 1)
  {
    RetryEachStep(till, orders, n);
    OneMoreResolved(till, Run(till, RetryEach(orders, n)), shift, n, orders[n]);
  }

  lemma {:induction false} RetryEachResolves(till: Till, shift: nat, orders: seq<Sale>, n: nat)
    requires Sound(till) && |orders| == |till.payments| && n <= |orders| && AllRegistrable(till, shift, orders)
    ensures FirstResolved(till, Run(till, RetryEach(orders, n)), shift, n)
  {
    if n > 0 {
      RetryEachResolves(till, shift, orders, n - 1);
      RetryOneMore(till, shift, orders, n - 1);
    }
  }

  predicate Closes(till: Till, actions: seq<Action>, shift: nat) {
    !OpenShift(ClosedShift(Run(till, actions), shift), shift)
  }

  lemma {:induction false} RegistrableCloses(till: Till, shift: nat, orders: seq<Sale>)
    requires Sound(till) && OpenShift(till, shift) && |orders| == |till.payments| && AllRegistrable(till, shift, orders)
    ensures Closes(till, RetryEach(orders, |orders|), shift)
  {
    RetryEachRetries(orders, |orders|);
    RetriesKeep(till, RetryEach(orders, |orders|));
    RetryEachResolves(till, shift, orders, |orders|);
  }

  lemma {:induction false} UnregistrableStays(till: Till, shift: nat, orders: seq<Sale>, actions: seq<Action>, i: nat)
    requires Sound(till) && |orders| == |till.payments| && OnlyRetries(actions, orders)
    requires i < |till.payments| && !Registrable(till.payments[i], orders[i])
    ensures i < |Run(till, actions).payments| && !Registrable(Run(till, actions).payments[i], orders[i])
    decreases |actions|
  {
    if actions != [] {
      var payment, order := till.payments[i], orders[i];
      assert PaymentSafe(payment, till.shifts);
      assert actions[0].DoRetry?;
      if actions[0].p == i {
        PartsAreToldApart(order, payment.paidBy);
        IncompletableStays(payment.fiscal, BuildParts(order, payment.paidBy), order.vat, actions[0].outcome);
      }
      StepSound(till, actions[0]);
      assert forall k | 0 <= k < |actions[1..]| :: actions[1..][k] == actions[k + 1];
      UnregistrableStays(Step(till, actions[0]), shift, orders, actions[1..], i);
    }
  }

  lemma UnsentShutsGate(till: Till, shift: nat, i: nat)
    requires Sound(till) && OpenShift(till, shift) && i < |till.payments|
    requires till.payments[i].shift == shift && till.payments[i].Fiscal() && !Complete(till.payments[i].fiscal.rows)
    ensures OpenShift(ClosedShift(till, shift), shift)
  {
    assert PaymentSafe(till.payments[i], till.shifts);
    ResolvedIffSent(till.payments[i], till.shifts);
  }

  /** As its orders are now, an open shift can be closed after some retries exactly when the order of every payment in
      it that has to be registered can complete that payment's rows; one accepted retry for each is then enough. */
  lemma {:induction false} ClosableIff(till: Till, shift: nat, orders: seq<Sale>)
    requires Sound(till) && OpenShift(till, shift) && |orders| == |till.payments|
    ensures (exists actions :: OnlyRetries(actions, orders) && Closes(till, actions, shift))
            <==> AllRegistrable(till, shift, orders)
  {
    if AllRegistrable(till, shift, orders) {
      RetryEachRetries(orders, |orders|);
      RegistrableCloses(till, shift, orders);
    } else {
      var i :| 0 <= i < |till.payments| && till.payments[i].shift == shift && !Registrable(till.payments[i], orders[i]);
      forall actions | OnlyRetries(actions, orders)
        ensures !Closes(till, actions, shift)
      {
        RetriesKeep(till, actions);
        UnregistrableStays(till, shift, orders, actions, i);
        var after := Run(till, actions);
        assert after.payments[i].(fiscal := till.payments[i].fiscal) == till.payments[i];
        assert PaymentSafe(after.payments[i], after.shifts);
        IncompletableIsOpen(after.payments[i].fiscal.rows, BuildParts(orders[i], after.payments[i].paidBy));
        UnsentShutsGate(after, shift, i);
      }
    }
  }

  /** As long as the order of an unregistered payment has no active item, no retries close its shift. */
  lemma {:induction false} NothingToRegisterBlocksShift(till: Till, p: nat, orders: seq<Sale>, actions: seq<Action>)
    requires Sound(till) && p < |till.payments| == |orders| && OnlyRetries(actions, orders)
    requires till.payments[p].Fiscal() && Unresolved(till.payments[p]) && Active(orders[p]) == []
    ensures till.shifts[till.payments[p].shift].open ==> !Closes(till, actions, till.payments[p].shift)
  {
    var payment := till.payments[p];
    assert PaymentSafe(payment, till.shifts);
    GateExact(payment);
    PartsAreToldApart(orders[p], payment.paidBy);
    assert !Registrable(payment, orders[p]);
    if till.shifts[payment.shift].open {
      ClosableIff(till, payment.shift, orders);
    }
  }

  // ----- When it can never be closed -----

  /** A payment whose rows are stranded. */
  predicate Stuck(payment: Payment) {
    payment.Fiscal() && Stranded(payment.fiscal.rows)
  }

  lemma StuckStep(till: Till, action: Action, i: nat)
    requires Sound(till) && action.DoRetry? && i < |till.payments| && Stuck(till.payments[i])
    ensures i < |Step(till, action).payments| && Stuck(Step(till, action).payments[i])
  {
    var payment := till.payments[i];
    assert PaymentSafe(payment, till.shifts);
    if action.p == i {
      PartsAreToldApart(action.order, payment.paidBy);
      StrandedStays(payment.fiscal, BuildParts(action.order, payment.paidBy), action.order.vat, action.outcome);
    }
  }

  lemma {:induction false} StuckStays(till: Till, actions: seq<Action>, i: nat)
    requires Sound(till) && OnlyRetriesAtAll(actions) && i < |till.payments| && Stuck(till.payments[i])
    ensures i < |Run(till, actions).payments| && Stuck(Run(till, actions).payments[i])
    decreases |actions|
  {
    if actions != [] {
      assert actions[0].DoRetry?;
      StuckStep(till, actions[0], i);
      StepSound(till, actions[0]);
      assert forall k | 0 <= k < |actions[1..]| :: actions[1..][k] == actions[k + 1];
      StuckStays(Step(till, actions[0]), actions[1..], i);
    }
  }

  lemma FittingFor(payment: Payment, shifts: seq<Shift>) returns (order: Sale)
    requires PaymentSafe(payment, shifts)
    ensures !Stuck(payment) ==> Registrable(payment, order)
  {
    order := payment.sale;
    if payment.Fiscal() && !Stuck(payment) {
      order := FittingOrder(payment.fiscal.rows, payment.paidBy);
    }
  }

  /** Orders under which the payments that are not stuck can be registered. */
  lemma {:induction false} FittingOrders(payments: seq<Payment>, shifts: seq<Shift>) returns (orders: seq<Sale>)
    requires forall i | 0 <= i < |payments| :: PaymentSafe(payments[i], shifts)
    ensures |orders| == |payments|
    ensures forall i | 0 <= i < |payments| && !Stuck(payments[i]) :: Registrable(payments[i], orders[i])
  {
    if payments == [] {
      orders := [];
    } else {
      assert forall i | 0 <= i < |payments[1..]| :: payments[1..][i] == payments[i + 1];
      var rest := FittingOrders(payments[1..], shifts);
      assert PaymentSafe(payments[0], shifts);
      var order := FittingFor(payments[0], shifts);
      orders := [order] + rest;
    }
  }

  /** Whatever the orders may become, some retries close an open shift exactly when none of its payments is stuck. */
  lemma {:induction false} EverClosableIff(till: Till, shift: nat)
    requires Sound(till) && OpenShift(till, shift)
    ensures (exists actions :: OnlyRetriesAtAll(actions) && Closes(till, actions, shift))
            <==> forall i | 0 <= i < |till.payments| && till.payments[i].shift == shift :: !Stuck(till.payments[i])
  {
    if i :| 0 <= i < |till.payments| && till.payments[i].shift == shift && Stuck(till.payments[i]) {
      forall actions | OnlyRetriesAtAll(actions)
        ensures !Closes(till, actions, shift)
      {
        RetriesKeep(till, actions);
        StuckStays(till, actions, i);
        var after := Run(till, actions);
        assert after.payments[i].(fiscal := till.payments[i].fiscal) == till.payments[i];
        UnsentShutsGate(after, shift, i);
      }
    } else {
      var orders := FittingOrders(till.payments, till.shifts);
      RetryEachRetries(orders, |orders|);
      RegistrableCloses(till, shift, orders);
    }
  }

  lemma {:induction false} RefundsWithinSales(payments: seq<Payment>, shifts: seq<Shift>, shift: nat, paidBy: Method)
    requires forall i | 0 <= i < |payments| :: PaymentSafe(payments[i], shifts)
    ensures 0 <= SumBy(payments, Refunds(shift, paidBy)) <= SumBy(payments, Sales(shift, paidBy))
    ensures 0 <= SumBy(payments, AllRefunds(shift)) <= SumBy(payments, AllSales(shift))
  {
    if payments != [] {
      assert PaymentSafe(payments[0], shifts);
      assert forall i | 0 <= i < |payments[1..]| :: payments[1..][i] == payments[i + 1];
      RefundsWithinSales(payments[1..], shifts, shift, paidBy);
    }
  }

  predicate RefundedOnce(payment: Payment) {
    SumBy(payment.refunds, RefundCount) <= 1 && Refunded(payment) in {0, payment.amount}
  }

  lemma RefundsAreWhole(till: Till)
    requires Sound(till)
    ensures forall i | 0 <= i < |till.payments| :: RefundedOnce(till.payments[i])
  {
    forall i | 0 <= i < |till.payments|
      ensures RefundedOnce(till.payments[i])
    {
      assert PaymentSafe(till.payments[i], till.shifts);
      RefundedWhole(till.payments[i].refunds, till.payments[i].amount);
    }
  }

  /** A payment is refunded at most once and for its amount, so the drawer never owes more than it took. */
  lemma DrawerCovered(till: Till, shift: nat)
    requires Sound(till) && shift < |till.shifts|
    ensures Expected(till, shift) >= till.shifts[shift].opening >= 0
    ensures forall i | 0 <= i < |till.payments| :: RefundedOnce(till.payments[i])
  {
    RefundsWithinSales(till.payments, till.shifts, shift, Cash);
    RefundsAreWhole(till);
  }

  lemma {:induction false} RefundedWhole(refunds: seq<Refund>, amount: nat)
    requires forall i | 0 <= i < |refunds| :: refunds[i].amount == amount
    ensures SumBy(refunds, RefundOf) == SumBy(refunds, RefundCount) * amount
    ensures SumBy(refunds, RefundCount) >= 0
  {
    if refunds != [] {
      RefundedWhole(refunds[1..], amount);
    }
  }

  /** Refunding moves the expected cash of a shift exactly when the cash payment was taken in that very shift,
      whichever shift the refund is made in. */
  lemma RefundMovesDrawerIff(till: Till, p: nat, at: nat, shift: nat)
    requires Sound(till) && p < |till.payments| && shift < |till.shifts| && till.payments[p].amount > 0
    requires till.payments[p].succeeded && !AlreadyRefunded(till.payments[p]) && OpenShift(till, at)
    ensures Expected(RefundedPayment(till, p, at, true, true), shift) != Expected(till, shift) <==>
              till.payments[p].shift == shift && till.payments[p].paidBy == Cash
  {
    var payment := till.payments[p];
    var after := payment.(refunds := payment.refunds + [Refund(payment.amount, true)]);
    SumBySnoc(payment.refunds, Refund(payment.amount, true), RefundOf);
    SumByUpdate(till.payments, p, after, Sales(shift, Cash));
    SumByUpdate(till.payments, p, after, Refunds(shift, Cash));
  }

  // ----- The shift report -----

  function Count(totals: map<Method, nat>, paidBy: Method): nat {
    if paidBy in totals then totals[paidBy] else 0
  }

  /** sum(totals.values()) */
  function Total(totals: map<Method, nat>): nat {
    Count(totals, Cash) + Count(totals, Card) + Count(totals, Qr) + Count(totals, Mixed)
  }

  predicate HasSent(payment: Payment) {
    HasStatus(payment.fiscal.rows, Sent)
  }

  /** Positions of the payments satisfying p, in order. */
  function Ids(payments: seq<Payment>, p: Payment -> bool): seq<nat> {
    if payments == [] then []
    else
      var last := |payments| - 1;
      Ids(payments[..last], p) + if p(payments[last]) then [last] else []
  }

  function Scope(shift: nat): Payment -> bool { (p: Payment) => InShift(p, shift) }

  function SentScope(shift: nat): Payment -> bool { (p: Payment) => InShift(p, shift) && HasSent(p) }

  function FiscalScope(shift: nat): Payment -> bool { (p: Payment) => InShift(p, shift) && p.registerFiscal }

  /** One of the two reports of _build_unikassa_like_report: the rows, and what is summed and counted over them. */
  datatype Section = Section(
    ids: seq<nat>, sales: map<Method, nat>, refunds: map<Method, nat>, refundCount: nat, receiptCount: nat)
  {
    function SaleAmount(): nat { Total(sales) }

    function RefundAmount(): nat { Total(refunds) }

    function NetTotal(): int { SaleAmount() - RefundAmount() }

    function SaleVat(percent: nat): nat { EstimatedVat(SaleAmount(), percent) }

    function RefundVat(percent: nat): nat { EstimatedVat(RefundAmount(), percent) }
  }

  datatype Report = Report(pos: Section, fiscalSent: Section)

  function SalesIn(keep: Payment -> bool, paidBy: Method): Payment -> int {
    (p: Payment) => if keep(p) && p.paidBy == paidBy then p.amount else 0
  }

  function AmountIn(keep: Payment -> bool): Payment -> int {
    (p: Payment) => if keep(p) then p.amount else 0
  }

  function RefundsIn(keep: Payment -> bool, paidBy: Method): Payment -> int {
    (p: Payment) => if keep(p) && p.paidBy == paidBy then Refunded(p) else 0
  }

  function RefundCountIn(keep: Payment -> bool): Payment -> int {
    (p: Payment) => if keep(p) then SumBy(p.refunds, RefundCount) else 0
  }

  function SentCount(row: Row): int { if row.IsSent() then 1 else 0 }

  function ReceiptsIn(keep: Payment -> bool): Payment -> int {
    (p: Payment) => if keep(p) then SumBy(p.fiscal.rows, SentCount) else 0
  }

  lemma {:induction false} IdsAgree(payments: seq<Payment>, p: Payment -> bool, q: Payment -> bool)
    requires forall i | 0 <= i < |payments| :: p(payments[i]) == q(payments[i])
    ensures Ids(payments, p) == Ids(payments, q)
  {
    if payments != [] {
      IdsAgree(payments[..|payments| - 1], p, q);
    }
  }

  lemma SentIsFiscal(till: Till, shift: nat)
    requires Sound(till) && shift < |till.shifts| && !till.shifts[shift].open && ShiftGated(till, shift)
    ensures forall i | 0 <= i < |till.payments| ::
        SentScope(shift)(till.payments[i]) == FiscalScope(shift)(till.payments[i])
  {
    forall i | 0 <= i < |till.payments|
      ensures SentScope(shift)(till.payments[i]) == FiscalScope(shift)(till.payments[i])
    {
      var payment := till.payments[i];
      assert PaymentSafe(payment, till.shifts);
      if payment.Fiscal() && payment.shift == shift {
        assert payment.fiscal.rows[0].IsSent();
      }
    }
  }

  /** The fiscal part of a closed shift's report lists exactly the payments that asked for registration. */
  lemma FiscalRowsAreFiscalPayments(till: Till, shift: nat)
    requires Sound(till) && shift < |till.shifts| && !till.shifts[shift].open && ShiftGated(till, shift)
    ensures Ids(till.payments, SentScope(shift)) == Ids(till.payments, FiscalScope(shift))
  {
    SentIsFiscal(till, shift);
    IdsAgree(till.payments, SentScope(shift), FiscalScope(shift));
  }

  lemma {:induction false} SalesByMethod(payments: seq<Payment>, shift: nat)
    ensures SumBy(payments, AllRefunds(shift))
            == SumBy(payments, Refunds(shift, Cash)) + SumBy(payments, Refunds(shift, Card))
               + SumBy(payments, Refunds(shift, Qr)) + SumBy(payments, Refunds(shift, Mixed))
  {
    if payments != [] {
      SalesByMethod(payments[1..], shift);
    }
  }

  lemma {:induction false} AmountByMethod(payments: seq<Payment>, keep: Payment -> bool)
    ensures SumBy(payments, AmountIn(keep))
            == SumBy(payments, SalesIn(keep, Cash)) + SumBy(payments, SalesIn(keep, Card))
               + SumBy(payments, SalesIn(keep, Qr)) + SumBy(payments, SalesIn(keep, Mixed))
  {
    if payments != [] {
      AmountByMethod(payments[1..], keep);
    }
  }

  lemma {:induction false} NothingMixed(payments: seq<Payment>, shifts: seq<Shift>, shift: nat)
    requires forall i | 0 <= i < |payments| :: PaymentSafe(payments[i], shifts)
    ensures SumBy(payments, Sales(shift, Mixed)) == 0
  {
    if payments != [] {
      assert PaymentSafe(payments[0], shifts);
      assert forall i | 0 <= i < |payments[1..]| :: payments[1..][i] == payments[i + 1];
      NothingMixed(payments[1..], shifts, shift);
    }
  }

  /** What the report loops have to produce over the payments that satisfy keep. */
  ghost predicate SectionOf(section: Section, payments: seq<Payment>, keep: Payment -> bool) {
    && section.ids == Ids(payments, keep)
    && (forall m: Method :: Count(section.sales, m) == SumBy(payments, SalesIn(keep, m)))
    && (forall m: Method :: Count(section.refunds, m) == SumBy(payments, RefundsIn(keep, m)))
    && section.refundCount == SumBy(payments, RefundCountIn(keep))
    && section.receiptCount == SumBy(payments, ReceiptsIn(keep))
  }

  /** All succeeded payments of the shift, and those of them with a sent fiscal receipt. */
  ghost predicate ReportsShift(report: Report, payments: seq<Payment>, shift: nat) {
    SectionOf(report.pos, payments, Scope(shift)) && SectionOf(report.fiscalSent, payments, SentScope(shift))
  }

  lemma SectionAgrees(section: Section, payments: seq<Payment>, p: Payment -> bool, q: Payment -> bool)
    requires SectionOf(section, payments, p) && forall i | 0 <= i < |payments| :: p(payments[i]) == q(payments[i])
    ensures SectionOf(section, payments, q)
  {
    IdsAgree(payments, p, q);
    forall m: Method
      ensures SumBy(payments, SalesIn(p, m)) == SumBy(payments, SalesIn(q, m))
      ensures SumBy(payments, RefundsIn(p, m)) == SumBy(payments, RefundsIn(q, m))
    {
      PairedSums(payments, payments, SalesIn(p, m), SalesIn(q, m));
      PairedSums(payments, payments, RefundsIn(p, m), RefundsIn(q, m));
    }
    PairedSums(payments, payments, RefundCountIn(p), RefundCountIn(q));
    PairedSums(payments, payments, ReceiptsIn(p), ReceiptsIn(q));
  }

  /** The fiscal report of a closed shift, in rows, sums and counts, is the report of exactly the payments that asked
      for registration. */
  lemma FiscalReportIsComplete(till: Till, shift: nat, report: Report)
    requires Sound(till) && shift < |till.shifts| && !till.shifts[shift].open && ShiftGated(till, shift)
    requires ReportsShift(report, till.payments, shift)
    ensures SectionOf(report.fiscalSent, till.payments, FiscalScope(shift))
  {
    SentIsFiscal(till, shift);
    SectionAgrees(report.fiscalSent, till.payments, SentScope(shift), FiscalScope(shift));
  }

  lemma {:induction false} ScopeSums(payments: seq<Payment>, shifts: seq<Shift>, shift: nat, m: Method)
    requires forall i | 0 <= i < |payments| :: PaymentSafe(payments[i], shifts)
    ensures SumBy(payments, SalesIn(Scope(shift), m)) == SumBy(payments, Sales(shift, m))
    ensures SumBy(payments, RefundsIn(Scope(shift), m)) == SumBy(payments, Refunds(shift, m))
  {
    PairedSums(payments, payments, SalesIn(Scope(shift), m), Sales(shift, m));
    forall i | 0 <= i < |payments|
      ensures RefundsIn(Scope(shift), m)(payments[i]) == Refunds(shift, m)(payments[i])
    {
      assert PaymentSafe(payments[i], shifts);
    }
    PairedSums(payments, payments, RefundsIn(Scope(shift), m), Refunds(shift, m));
  }

  /** Sales by method and refunds are those of the snapshot, no sale has another method, and refunds and the VAT on them
      do not exceed sales and the VAT on those. */
  ghost predicate Agrees(pos: Section, snapshot: Snapshot) {
    && Count(pos.sales, Cash) == snapshot.cash
    && Count(pos.sales, Card) == snapshot.card
    && Count(pos.sales, Qr) == snapshot.qr
    && snapshot.cash + snapshot.card + snapshot.qr == pos.SaleAmount()
    && pos.RefundAmount() == snapshot.refunds
    && pos.NetTotal() >= 0
    && forall percent: nat :: pos.RefundVat(percent) <= pos.SaleVat(percent)
  }

  /** The report agrees with the snapshot of the same shift. */
  lemma ReportAgreesWithSnapshot(till: Till, shift: nat, report: Report)
    requires Sound(till) && shift < |till.shifts| && ReportsShift(report, till.payments, shift)
    ensures Agrees(report.pos, SnapshotOf(till, shift))
  {
    forall m: Method
      ensures Count(report.pos.sales, m) == SumBy(till.payments, Sales(shift, m))
      ensures Count(report.pos.refunds, m) == SumBy(till.payments, Refunds(shift, m))
    {
      ScopeSums(till.payments, till.shifts, shift, m);
    }
    SalesByMethod(till.payments, shift);
    NothingMixed(till.payments, till.shifts, shift);
    forall m: Method
      ensures SumBy(till.payments, Refunds(shift, m)) <= SumBy(till.payments, Sales(shift, m))
    {
      RefundsWithinSales(till.payments, till.shifts, shift, m);
    }
    forall percent: nat
      ensures report.pos.RefundVat(percent) <= report.pos.SaleVat(percent)
    {
      VatWithinAmount(report.pos.RefundAmount(), report.pos.SaleAmount(), percent);
    }
  }

  // ----- Every run from the empty till -----

  /** Whatever terminals, devices and orders do: one open shift a desk and a cashier, covered drawers, single and whole
      refunds, reports that agree with their snapshots, and nothing left to register in a closed shift whose own
      payments were completed in time. */
  lemma {:induction false} EveryRun(actions: seq<Action>)
    ensures var till := Run(Till([], []), actions);
            && OneOpenEach(till.shifts)
            && (forall s: nat | s < |till.shifts| :: Expected(till, s) >= till.shifts[s].opening)
            && (forall i | 0 <= i < |till.payments| :: RefundedOnce(till.payments[i]))
            && (forall s: nat, report | s < |till.shifts| && ReportsShift(report, till.payments, s) ::
                  Agrees(report.pos, SnapshotOf(till, s)))
            && (forall s: nat | TimelyForShift(Till([], []), actions, s) :: ShiftGated(till, s))
  {
    var till := Run(Till([], []), actions);
    RunSound(Till([], []), actions);
    RefundsAreWhole(till);
    forall s: nat | s < |till.shifts|
      ensures Expected(till, s) >= till.shifts[s].opening
    {
      DrawerCovered(till, s);
    }
    forall s: nat, report | s < |till.shifts| && ReportsShift(report, till.payments, s)
      ensures Agrees(report.pos, SnapshotOf(till, s))
    {
      ReportAgreesWithSnapshot(till, s, report);
    }
    forall s: nat | TimelyForShift(Till([], []), actions, s)
      ensures ShiftGated(till, s)
    {
      RunShiftGated(Till([], []), actions, s);
    }
  }

  /** After any run an open shift can be closed under the same two conditions. */
  lemma {:induction false} EveryRunCloses(actions: seq<Action>, shift: nat, orders: seq<Sale>)
    requires OpenShift(Run(Till([], []), actions), shift) && |orders| == |Run(Till([], []), actions).payments|
    ensures var till := Run(Till([], []), actions);
            && ((exists more :: OnlyRetries(more, orders) && Closes(till, more, shift))
                <==> AllRegistrable(till, shift, orders))
            && ((exists more :: OnlyRetriesAtAll(more) && Closes(till, more, shift))
                <==> forall i | 0 <= i < |till.payments| && till.payments[i].shift == shift :: !Stuck(till.payments[i]))
  {
    var till := Run(Till([], []), actions);
    RunSound(Till([], []), actions);
    ClosableIff(till, shift, orders);
    EverClosableIff(till, shift);
  }

  // ----- VAT of the report and of the receipts -----

  /** The receipts of the payments that satisfy keep. */
  function PartsIn(payments: seq<Payment>, keep: Payment -> bool): seq<Part> {
    if payments == [] then []
    else (if keep(payments[0]) then payments[0].Parts() else []) + PartsIn(payments[1..], keep)
  }

  /** The payment covers its order exactly, the order's receipts add up to its total, and they were registered as
      sold. */
  ghost predicate Exact(payment: Payment, percent: nat) {
    && payment.sale.vat == percent && payment.amount == payment.sale.total && Active(payment.sale) != []
    && TotalsConsistent(payment.sale) && AsSold(payment)
    && forall i | i in Active(payment.sale) :: Labels(i) == [] || |Labels(i)| == i.quantity
  }

  lemma {:induction false} PartsInAddUp(payments: seq<Payment>, keep: Payment -> bool, percent: nat)
    requires forall i | 0 <= i < |payments| && keep(payments[i]) :: Exact(payments[i], percent)
    ensures SumBy(PartsIn(payments, keep), PartPrice(percent)) == 100 * SumBy(payments, AmountIn(keep))
  {
    if payments != [] {
      assert forall i | 0 <= i < |payments[1..]| :: payments[1..][i] == payments[i + 1];
      PartsInAddUp(payments[1..], keep, percent);
      if keep(payments[0]) {
        assert Exact(payments[0], percent);
        MoneyConserved(payments[0].sale, payments[0].paidBy);
        SumByConcat(payments[0].Parts(), PartsIn(payments[1..], keep), PartPrice(percent));
      } else {
        assert [] + PartsIn(payments[1..], keep) == PartsIn(payments[1..], keep);
      }
    }
  }

  /** The receipts acknowledged for the payments that satisfy keep. */
  function AckedFor(payments: seq<Payment>, keep: Payment -> bool): seq<Result> {
    if payments == [] then []
    else (if keep(payments[0]) then payments[0].fiscal.log else []) + AckedFor(payments[1..], keep)
  }

  function ReceiptVat(result: Result): int { if result.Registered? then Vats(result.receipt.lines) else 0 }

  function ReceiptLines(result: Result): int { if result.Registered? then |result.receipt.lines| else 0 }

  function PartVat(percent: nat): Part -> int { (part: Part) => Vats(PartLines(part, percent)) }

  function PartLineCount(percent: nat): Part -> int { (part: Part) => |PartLines(part, percent)| }

  lemma {:induction false} AllLinesCounted(parts: seq<Part>, percent: nat)
    ensures Vats(AllLines(parts, percent)) == SumBy(parts, PartVat(percent))
    ensures |AllLines(parts, percent)| == SumBy(parts, PartLineCount(percent))
  {
    if parts != [] {
      AllLinesCounted(parts[1..], percent);
      SumByConcat(PartLines(parts[0], percent), AllLines(parts[1..], percent), VatOf);
    }
  }

  /** f of a part's receipt is g of the part. */
  ghost predicate SameOnReceipts(f: Result -> int, g: Part -> int, parts: seq<Part>, percent: nat) {
    forall result: Result, i: nat | i < |parts| :: result.Registered? && Carries(result, parts[i], percent) ==>
      f(result) == g(parts[i])
  }

  /** A registered payment's acknowledged receipts are its parts' receipts. */
  lemma LogIsParts(payment: Payment, f: Result -> int, g: Part -> int)
    requires payment.Fiscal() && AsSold(payment) && payment.Resolved()
    requires SameOnReceipts(f, g, payment.Parts(), payment.sale.vat)
    ensures SumBy(payment.fiscal.log, f) == SumBy(payment.Parts(), g)
  {
    var rows, parts, percent := payment.fiscal.rows, payment.Parts(), payment.sale.vat;
    assert rows[0].IsSent();
    assert RowsMatchParts(rows, parts, percent);
    forall i | 0 <= i < |rows|
      ensures SentValue(f)(rows[i]) == g(parts[i])
    {
      assert rows[i].IsSent() && rows[i] == RowOf(rows[i].payload) && Carries(rows[i].payload, parts[i], percent);
    }
    PairedSums(rows, parts, SentValue(f), g);
  }

  lemma {:induction false} LogsAreParts(
      payments: seq<Payment>, keep: Payment -> bool, percent: nat, f: Result -> int, g: Part -> int)
    requires forall i | 0 <= i < |payments| && keep(payments[i]) ::
               && AsSold(payments[i]) && payments[i].Fiscal() && payments[i].Resolved()
               && SameOnReceipts(f, g, payments[i].Parts(), payments[i].sale.vat)
    ensures SumBy(AckedFor(payments, keep), f) == SumBy(PartsIn(payments, keep), g)
  {
    if payments != [] {
      assert forall i | 0 <= i < |payments[1..]| :: payments[1..][i] == payments[i + 1];
      LogsAreParts(payments[1..], keep, percent, f, g);
      if keep(payments[0]) {
        LogIsParts(payments[0], f, g);
        SumByConcat(payments[0].fiscal.log, AckedFor(payments[1..], keep), f);
        SumByConcat(payments[0].Parts(), PartsIn(payments[1..], keep), g);
      } else {
        assert [] + PartsIn(payments[1..], keep) == PartsIn(payments[1..], keep);
        assert [] + AckedFor(payments[1..], keep) == AckedFor(payments[1..], keep);
      }
    }
  }

  /** Lines and VAT of all receipts acknowledged for a closed shift are those of the parts as sold. */
  lemma {:induction false} ShiftLinesAreParts(till: Till, shift: nat, percent: nat)
    requires Sound(till) && shift < |till.shifts| && !till.shifts[shift].open && ShiftGated(till, shift)
    requires forall i | 0 <= i < |till.payments| && FiscalScope(shift)(till.payments[i]) ::
        Exact(till.payments[i], percent)
    ensures var parts, acked := PartsIn(till.payments, FiscalScope(shift)), AckedFor(till.payments, FiscalScope(shift));
            && SumBy(acked, ReceiptVat) == Vats(AllLines(parts, percent))
            && SumBy(acked, ReceiptLines) == |AllLines(parts, percent)|
  {
    forall i | 0 <= i < |till.payments| && FiscalScope(shift)(till.payments[i])
      ensures till.payments[i].Fiscal() && till.payments[i].Resolved() && AsSold(till.payments[i])
      ensures till.payments[i].sale.vat == percent
    {
      assert PaymentSafe(till.payments[i], till.shifts) && Exact(till.payments[i], percent);
    }
    AllLinesCounted(PartsIn(till.payments, FiscalScope(shift)), percent);
    LogsAreParts(till.payments, FiscalScope(shift), percent, ReceiptVat, PartVat(percent));
    LogsAreParts(till.payments, FiscalScope(shift), percent, ReceiptLines, PartLineCount(percent));
  }

  /** The VAT that the fiscal report of a closed shift states for its sales agrees, up to rounding, with the VAT on the
      lines of all the receipts acknowledged for the shift. */
  lemma {:induction false} ReportVatMatchesShift(till: Till, shift: nat, report: Report, percent: nat)
    requires Sound(till) && shift < |till.shifts| && !till.shifts[shift].open && ShiftGated(till, shift)
    requires ReportsShift(report, till.payments, shift)
    requires forall i | 0 <= i < |till.payments| && FiscalScope(shift)(till.payments[i]) ::
        Exact(till.payments[i], percent)
    ensures var acked := AckedFor(till.payments, FiscalScope(shift));
            var lines := SumBy(acked, ReceiptLines);
            -(100 + lines) <= 200 * report.fiscalSent.SaleVat(percent) - 2 * SumBy(acked, ReceiptVat) <= 100 + lines
  {
    FiscalReportIsComplete(till, shift, report);
    AmountByMethod(till.payments, FiscalScope(shift));
    PartsInAddUp(till.payments, FiscalScope(shift), percent);
    ReportVatMatchesReceipts(PartsIn(till.payments, FiscalScope(shift)), report.fiscalSent.SaleAmount(), percent);
    ShiftLinesAreParts(till, shift, percent);
  }

  // ----- The services, changing the rows in place -----

  class CashOffice {
    var shifts: seq<Shift>
    var payments: seq<Payment>

    ghost function State(): Till
      reads this
    {
      Till(shifts, payments)
    }

    constructor ()
      ensures State() == Till([], [])
    {
      shifts, payments := [], [];
    }

    method Open(o: Opening) returns (accepted: bool)
      modifies this`shifts
      ensures State() == Opened(old(State()), o) && accepted == CanOpen(old(State()), o)
    {
      if !o.deskActive {
        return false;
      }
      if o.cashier.Some? {
        if !o.cashierValid || CashierBusy(shifts, o.cashier.value) {
          return false;
        }
      } else if o.activeDesks > 1 {
        return false;
      }
      if DeskBusy(shifts, o.desk) {
        return false;
      }
      shifts := shifts + [Shift(o.desk, o.cashier, true, Max(0, o.amount), None)];
      accepted := true;
    }

    method Sell(s: Checkout)
      modifies this`payments
      ensures State() == Sold(old(State()), s)
    {
      if s.shift >= |shifts| || !shifts[s.shift].open || s.paidBy == Mixed || s.amount == 0 {
        return;
      }
      var fiscal := IssueIf(s.chargeOk && s.registerFiscal, s.sale, s.paidBy, s.outcome);
      payments := payments
        + [Payment(s.paidBy, s.amount, s.chargeOk, s.registerFiscal, s.shift, s.sale, fiscal, [], false)];
    }

    method IssueIf(asked: bool, sale: Sale, paidBy: Method, outcome: Outcome) returns (fiscal: Ledger)
      ensures fiscal == IssuedIf(asked, sale, paidBy, outcome)
    {
      if !asked {
        return Ledger([], []);
      }
      var receipts := new PaymentReceipts(BuildParts(sale, paidBy), sale.vat);
      receipts.Register(outcome);
      fiscal := Ledger(receipts.rows, receipts.log);
    }

    method InitiateCard(c: CardRequest) returns (accepted: bool)
      modifies this`payments
      ensures State() == Initiated(old(State()), c) && accepted == CanInitiate(old(State()), c)
    {
      if !c.payable {
        return false;
      }
      if c.shift >= |shifts| || !shifts[c.shift].open {
        return false;
      }
      if !c.registerFiscal && !c.maySkip {
        return false;
      }
      if c.missing > 0 {
        return false;
      }
      if c.amount == 0 {
        return false;
      }
      if !c.enabled || !c.terminal {
        return false;
      }
      if c.remaining > 0 && c.amount < c.remaining {
        return false;
      }
      payments := payments + [Waiting(c)];
      accepted := true;
    }

    method CompleteCard(p: nat, a: Answer)
      requires p < |payments|
      modifies this`payments
      ensures State() == TerminalDone(old(State()), p, a)
    {
      var payment := payments[p];
      if !payment.pending {
        return;
      }
      payment := payment.(pending := false, succeeded := a.ok, sale := a.order, fiscal := Ledger([], []));
      payments := payments[p := payment];
      if !a.ok || !a.submitted {
        return;
      }
      var fiscal := IssueIf(payment.registerFiscal, a.order, payment.paidBy, a.outcome);
      payments := payments[p := payment.(fiscal := fiscal)];
    }

    method RetryFiscal(p: nat, order: Sale, outcome: Outcome)
      requires p < |payments|
      modifies this`payments
      ensures State() == RetriedPayment(old(State()), p, order, outcome)
    {
      var payment := payments[p];
      if payment.Fiscal() {
        var receipts := new PaymentReceipts.Load(BuildParts(order, payment.paidBy), order.vat, payment.fiscal);
        var _ := receipts.Retry(outcome);
        payments := payments[p := payment.(fiscal := Ledger(receipts.rows, receipts.log))];
      } else {
        assert payments[p := payment] == payments;
      }
    }

    method MakeRefund(p: nat, shift: nat, orderClosed: bool, ok: bool)
      requires p < |payments|
      modifies this`payments
      ensures State() == RefundedPayment(old(State()), p, shift, orderClosed, ok)
    {
      var payment := payments[p];
      if !payment.succeeded || !orderClosed || AlreadyRefunded(payment) {
        return;
      }
      if shift >= |shifts| || !shifts[shift].open {
        return;
      }
      payments := payments[p := payment.(refunds := payment.refunds + [Refund(payment.amount, ok)])];
    }

    method RefundedOf(payment: Payment) returns (amount: nat, count: nat)
      ensures amount == Refunded(payment) && count == SumBy(payment.refunds, RefundCount)
    {
      amount, count := 0, 0;
      for i := 0 to |payment.refunds|
        invariant amount == SumBy(payment.refunds[..i], RefundOf)
        invariant count == SumBy(payment.refunds[..i], RefundCount)
      {
        SumByTake(payment.refunds, i, RefundOf);
        SumByTake(payment.refunds, i, RefundCount);
        if payment.refunds[i].succeeded {
          amount, count := amount + payment.refunds[i].amount, count + 1;
        }
      }
      assert payment.refunds[..|payment.refunds|] == payment.refunds;
    }

    method SentReceipts(payment: Payment) returns (count: nat)
      ensures count == SumBy(payment.fiscal.rows, SentCount)
    {
      var rows := payment.fiscal.rows;
      count := 0;
      for i := 0 to |rows|
        invariant count == SumBy(rows[..i], SentCount)
      {
        SumByTake(rows, i, SentCount);
        if rows[i].IsSent() {
          count := count + 1;
        }
      }
      assert rows[..|rows|] == rows;
    }

    /** The loop body of the report: one payment's row, sums and counts. */
    method AddToSection(section: Section, i: nat) returns (more: Section)
      requires i < |payments|
      ensures Extends(section, more, payments[i], i)
    {
      var payment := payments[i];
      var refunded, refunds := RefundedOf(payment);
      var receipts := SentReceipts(payment);
      more := Section(section.ids + [i], Bump(section.sales, payment.paidBy, payment.amount),
        Bump(section.refunds, payment.paidBy, refunded), section.refundCount + refunds,
        section.receiptCount + receipts);
    }

    method BuildSection(keep: Payment -> bool) returns (section: Section)
      ensures SectionOf(section, payments, keep)
    {
      section := Section([], map[], map[], 0, 0);
      for i := 0 to |payments|
        invariant SectionOf(section, payments[..i], keep)
      {
        if keep(payments[i]) {
          var more := AddToSection(section, i);
          SectionStep(section, more, payments, i, keep);
          section := more;
        } else {
          SectionSkips(section, payments, i, keep);
        }
      }
      assert payments[..|payments|] == payments;
    }

    /** build_fiscal_shift_report */
    method BuildReport(shift: nat) returns (report: Report)
      ensures ReportsShift(report, payments, shift)
    {
      var pos := BuildSection(Scope(shift));
      var fiscalSent := BuildSection(SentScope(shift));
      report := Report(pos, fiscalSent);
    }

    method Close(shift: nat) returns (closed: bool)
      modifies this`shifts
      ensures State() == ClosedShift(old(State()), shift)
      ensures closed == (OpenShift(old(State()), shift) && !GateShut(old(State()), shift))
    {
      if shift >= |shifts| || !shifts[shift].open {
        return false;
      }
      for i := 0 to |payments|
        invariant forall k | 0 <= k < i :: !(payments[k].shift == shift && Unresolved(payments[k]))
      {
        if payments[i].shift == shift && Unresolved(payments[i]) {
          return false;
        }
      }
      var snapshot := SnapshotOf(Till(shifts, payments), shift);
      shifts := shifts[shift := shifts[shift].(open := false, closing := Some(snapshot))];
      closed := true;
    }
  }

  function Bump(totals: map<Method, nat>, paidBy: Method, amount: nat): (r: map<Method, nat>)
    ensures forall m: Method :: Count(r, m) == Count(totals, m) + if m == paidBy then amount else 0
  {
    totals[paidBy := Count(totals, paidBy) + amount]
  }

  /** more is section with payment i added to it. */
  ghost predicate Extends(section: Section, more: Section, payment: Payment, i: nat) {
    && more.ids == section.ids + [i]
    && (forall m: Method ::
         Count(more.sales, m) == Count(section.sales, m) + if m == payment.paidBy then payment.amount else 0)
    && (forall m: Method ::
         Count(more.refunds, m) == Count(section.refunds, m) + if m == payment.paidBy then Refunded(payment) else 0)
    && more.refundCount == section.refundCount + SumBy(payment.refunds, RefundCount)
    && more.receiptCount == section.receiptCount + SumBy(payment.fiscal.rows, SentCount)
  }

  /** What payment i adds to each sum and count. */
  lemma SectionTerms(payments: seq<Payment>, i: nat, keep: Payment -> bool, m: Method)
    requires i < |payments|
    ensures SumBy(payments[..i + 1], SalesIn(keep, m))
         == SumBy(payments[..i], SalesIn(keep, m)) + SalesIn(keep, m)(payments[i])
    ensures SumBy(payments[..i + 1], RefundsIn(keep, m))
         == SumBy(payments[..i], RefundsIn(keep, m)) + RefundsIn(keep, m)(payments[i])
  {
    SumByTake(payments, i, SalesIn(keep, m));
    SumByTake(payments, i, RefundsIn(keep, m));
  }

  lemma SectionCounts(payments: seq<Payment>, i: nat, keep: Payment -> bool)
    requires i < |payments|
    ensures SumBy(payments[..i + 1], RefundCountIn(keep))
         == SumBy(payments[..i], RefundCountIn(keep)) + RefundCountIn(keep)(payments[i])
    ensures SumBy(payments[..i + 1], ReceiptsIn(keep))
         == SumBy(payments[..i], ReceiptsIn(keep)) + ReceiptsIn(keep)(payments[i])
    ensures Ids(payments[..i + 1], keep) == Ids(payments[..i], keep) + if keep(payments[i]) then [i] else []
  {
    SumByTake(payments, i, RefundCountIn(keep));
    SumByTake(payments, i, ReceiptsIn(keep));
    assert payments[..i + 1][..i] == payments[..i];
  }

  lemma SectionStep(was: Section, now: Section, payments: seq<Payment>, i: nat, keep: Payment -> bool)
    requires i < |payments| && keep(payments[i]) && SectionOf(was, payments[..i], keep)
        && Extends(was, now, payments[i], i)
    ensures SectionOf(now, payments[..i + 1], keep)
  {
    SectionCounts(payments, i, keep);
    forall m: Method
      ensures Count(now.sales, m) == SumBy(payments[..i + 1], SalesIn(keep, m))
      ensures Count(now.refunds, m) == SumBy(payments[..i + 1], RefundsIn(keep, m))
    {
      SectionTerms(payments, i, keep, m);
    }
  }

  lemma SectionSkips(section: Section, payments: seq<Payment>, i: nat, keep: Payment -> bool)
    requires i < |payments| && !keep(payments[i]) && SectionOf(section, payments[..i], keep)
    ensures SectionOf(section, payments[..i + 1], keep)
  {
    SectionCounts(payments, i, keep);
    forall m: Method
      ensures Count(section.sales, m) == SumBy(payments[..i + 1], SalesIn(keep, m))
      ensures Count(section.refunds, m) == SumBy(payments[..i + 1], RefundsIn(keep, m))
    {
      SectionTerms(payments, i, keep, m);
    }
  }
}
