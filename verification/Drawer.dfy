/** Where the money of a cash shift comes from and goes to, call by call
    (apps/billing/services/cash_shift.py, apps/billing/services/payment_refund.py). */
module Drawer {
  import opened Options
  import opened Arithmetic
  import opened FiscalReceipts
  import opened FiscalDevice
  import opened FiscalRetry
  import opened CashShift

  // ----- What a call takes and gives back -----

  /** Money that a call brings into a shift by a method: a sale charged there, or a card payment of the shift that its
      terminal confirms. */
  function Taken(till: Till, action: Action, shift: nat, paidBy: Method): nat {
    match action
    case DoSell(s) =>
      if s.shift == shift && s.shift < |till.shifts| && till.shifts[s.shift].open && s.paidBy == paidBy
         && s.paidBy != Mixed && s.chargeOk then s.amount else 0
    case DoTerminal(p, a) =>
      if p < |till.payments| && till.payments[p].pending && a.ok && till.payments[p].shift == shift
         && till.payments[p].paidBy == paidBy then till.payments[p].amount else 0
    case _ => 0
  }

  /** Money that a call gives back on payments of a shift, made by a method: a first refund that succeeds. */
  function GivenBack(till: Till, action: Action, shift: nat, paidBy: Method): nat {
    match action
    case DoRefund(p, at, orderClosed, ok) =>
      if p < |till.payments| && at < |till.shifts| && till.shifts[at].open && orderClosed && ok
         && till.payments[p].succeeded && Refunded(till.payments[p]) == 0
         && till.payments[p].shift == shift && till.payments[p].paidBy == paidBy then till.payments[p].amount else 0
    case _ => 0
  }

  function TakenOver(till: Till, actions: seq<Action>, shift: nat, paidBy: Method): nat
    decreases |actions|
  {
    if actions == [] then 0
    else Taken(till, actions[0], shift, paidBy) + TakenOver(Step(till, actions[0]), actions[1..], shift, paidBy)
  }

  function GivenBackOver(till: Till, actions: seq<Action>, shift: nat, paidBy: Method): nat
    decreases |actions|
  {
    if actions == [] then 0
    else GivenBack(till, actions[0], shift, paidBy) + GivenBackOver(Step(till, actions[0]), actions[1..], shift, paidBy)
  }

  lemma SellTakes(till: Till, s: Checkout, shift: nat, paidBy: Method)
    ensures SumBy(Sold(till, s).payments, Sales(shift, paidBy))
         == SumBy(till.payments, Sales(shift, paidBy)) + Taken(till, DoSell(s), shift, paidBy)
    ensures SumBy(Sold(till, s).payments, Refunds(shift, paidBy)) == SumBy(till.payments, Refunds(shift, paidBy))
  {
    SumBySnoc(till.payments, NewPayment(s), Sales(shift, paidBy));
    SumBySnoc(till.payments, NewPayment(s), Refunds(shift, paidBy));
  }

  lemma InitiateTakesNothing(till: Till, c: CardRequest, shift: nat, paidBy: Method)
    ensures SumBy(Initiated(till, c).payments, Sales(shift, paidBy)) == SumBy(till.payments, Sales(shift, paidBy))
    ensures SumBy(Initiated(till, c).payments, Refunds(shift, paidBy)) == SumBy(till.payments, Refunds(shift, paidBy))
  {
    SumBySnoc(till.payments, Waiting(c), Sales(shift, paidBy));
    SumBySnoc(till.payments, Waiting(c), Refunds(shift, paidBy));
  }

  lemma AnswerTakes(till: Till, p: nat, a: Answer, shift: nat, paidBy: Method)
    requires Sound(till) && p < |till.payments|
    ensures SumBy(TerminalDone(till, p, a).payments, Sales(shift, paidBy))
         == SumBy(till.payments, Sales(shift, paidBy)) + Taken(till, DoTerminal(p, a), shift, paidBy)
    ensures SumBy(TerminalDone(till, p, a).payments, Refunds(shift, paidBy))
         == SumBy(till.payments, Refunds(shift, paidBy))
  {
    var after := AfterTerminal(till.payments[p], a);
    assert PaymentSafe(till.payments[p], till.shifts);
    SumByUpdate(till.payments, p, after, Sales(shift, paidBy));
    SumByUpdate(till.payments, p, after, Refunds(shift, paidBy));
  }

  lemma RetryTakesNothing(till: Till, p: nat, order: Sale, outcome: Outcome, shift: nat, paidBy: Method)
    requires p < |till.payments|
    ensures var after := RetriedPayment(till, p, order, outcome);
            && SumBy(after.payments, Sales(shift, paidBy)) == SumBy(till.payments, Sales(shift, paidBy))
            && SumBy(after.payments, Refunds(shift, paidBy)) == SumBy(till.payments, Refunds(shift, paidBy))
  {
    var after := AfterRetry(till.payments[p], order, outcome);
    SumByUpdate(till.payments, p, after, Sales(shift, paidBy));
    SumByUpdate(till.payments, p, after, Refunds(shift, paidBy));
  }

  lemma {:induction false} RefundedNothing(refunds: seq<Refund>)
    requires exists i :: 0 <= i < |refunds| && refunds[i].succeeded && refunds[i].amount > 0
    ensures SumBy(refunds, RefundOf) > 0
  {
    SumByNonNegative(refunds[1..], RefundOf);
    if !(refunds[0].succeeded && refunds[0].amount > 0) {
      var i :| 0 <= i < |refunds| && refunds[i].succeeded && refunds[i].amount > 0;
      assert refunds[1..][i - 1] == refunds[i];
      RefundedNothing(refunds[1..]);
    }
  }

  /** Payments of a positive amount were refunded once money has gone back on them. */
  lemma RefundedIff(payment: Payment, shifts: seq<Shift>)
    requires PaymentSafe(payment, shifts) && payment.amount > 0
    ensures AlreadyRefunded(payment) <==> Refunded(payment) != 0
  {
    if AlreadyRefunded(payment) {
      RefundedNothing(payment.refunds);
    } else {
      NoRefundYet(payment.refunds);
    }
  }

  lemma RefundGives(till: Till, p: nat, at: nat, orderClosed: bool, ok: bool, shift: nat, paidBy: Method)
    requires Sound(till) && p < |till.payments|
    ensures var after := RefundedPayment(till, p, at, orderClosed, ok);
            && SumBy(after.payments, Sales(shift, paidBy)) == SumBy(till.payments, Sales(shift, paidBy))
            && SumBy(after.payments, Refunds(shift, paidBy)) == SumBy(till.payments, Refunds(shift, paidBy))
                 + GivenBack(till, DoRefund(p, at, orderClosed, ok), shift, paidBy)
  {
    var payment := till.payments[p];
    assert PaymentSafe(payment, till.shifts);
    if payment.amount > 0 {
      RefundedIff(payment, till.shifts);
    }
    var after := payment.(refunds := payment.refunds + [Refund(payment.amount, ok)]);
    SumBySnoc(payment.refunds, Refund(payment.amount, ok), RefundOf);
    SumByUpdate(till.payments, p, after, Sales(shift, paidBy));
    SumByUpdate(till.payments, p, after, Refunds(shift, paidBy));
  }

  /** A call changes the sales and the refunds of a shift by what it takes and gives back, and by nothing else. */
  lemma StepMovesMoney(till: Till, action: Action, shift: nat, paidBy: Method)
    requires Sound(till)
    ensures SumBy(Step(till, action).payments, Sales(shift, paidBy))
         == SumBy(till.payments, Sales(shift, paidBy)) + Taken(till, action, shift, paidBy)
    ensures SumBy(Step(till, action).payments, Refunds(shift, paidBy))
         == SumBy(till.payments, Refunds(shift, paidBy)) + GivenBack(till, action, shift, paidBy)
  {
    match action
    case DoSell(s) => SellTakes(till, s, shift, paidBy);
    case DoInitiate(c) => InitiateTakesNothing(till, c, shift, paidBy);
    case DoTerminal(p, a) => if p < |till.payments| { AnswerTakes(till, p, a, shift, paidBy); }
    case DoRetry(p, order, outcome) =>
      if p < |till.payments| { RetryTakesNothing(till, p, order, outcome, shift, paidBy); }
    case DoRefund(p, at, orderClosed, ok) =>
      if p < |till.payments| { RefundGives(till, p, at, orderClosed, ok, shift, paidBy); }
    case _ =>
  }

  lemma {:induction false} RunMovesMoney(till: Till, actions: seq<Action>, shift: nat, paidBy: Method)
    requires Sound(till)
    ensures SumBy(CashShift.Run(till, actions).payments, Sales(shift, paidBy))
         == SumBy(till.payments, Sales(shift, paidBy)) + TakenOver(till, actions, shift, paidBy)
    ensures SumBy(CashShift.Run(till, actions).payments, Refunds(shift, paidBy))
         == SumBy(till.payments, Refunds(shift, paidBy)) + GivenBackOver(till, actions, shift, paidBy)
    decreases |actions|
  {
    if actions != [] {
      StepMovesMoney(till, actions[0], shift, paidBy);
      StepSound(till, actions[0]);
      RunMovesMoney(Step(till, actions[0]), actions[1..], shift, paidBy);
    }
  }

  // ----- The shifts -----

  /** An accepted opening adds an open shift with the given cash, if it is not negative; a refused one changes
      nothing. */
  lemma OpenedEffect(till: Till, o: Opening)
    ensures var after := Opened(till, o);
            if o.deskActive
               && (forall s | 0 <= s < |till.shifts| && till.shifts[s].open :: till.shifts[s].desk != o.desk)
               && (o.cashier.None? ==> o.activeDesks < 2)
               && (o.cashier.Some? ==> o.cashierValid)
               && (o.cashier.Some? ==>
                     forall s | 0 <= s < |till.shifts| && till.shifts[s].open ::
                       till.shifts[s].cashier != o.cashier) then
              && after.payments == till.payments && |after.shifts| == |till.shifts| + 1
              && after.shifts[..|till.shifts|] == till.shifts
              && var shift := after.shifts[|till.shifts|];
                 && shift.desk == o.desk && shift.cashier == o.cashier && shift.open && shift.closing == None
                 && shift.opening == if o.amount < 0 then 0 else o.amount
            else after == till
  {
  }

  /** What no call changes about a shift: its desk, its cashier, its opening cash, and, once it is closed, anything. */
  ghost predicate SameShift(was: Shift, now: Shift) {
    && now.desk == was.desk && now.cashier == was.cashier && now.opening == was.opening
    && (!was.open ==> now == was)
    && (now.open ==> now == was)
  }

  ghost predicate ShiftsStay(was: seq<Shift>, now: seq<Shift>) {
    && |was| <= |now|
    && forall s | 0 <= s < |was| :: SameShift(was[s], now[s])
  }

  lemma StepKeepsShifts(till: Till, action: Action)
    ensures ShiftsStay(till.shifts, Step(till, action).shifts)
    ensures forall s: nat | s < |till.shifts| && Step(till, action).shifts[s] != till.shifts[s] :: action == DoClose(s)
  {
  }

  /** Over every run the row of a closed shift, its snapshot included, stays as it is. */
  lemma {:induction false} RunKeepsShifts(till: Till, actions: seq<Action>)
    ensures ShiftsStay(till.shifts, CashShift.Run(till, actions).shifts)
    decreases |actions|
  {
    if actions != [] {
      var next := Step(till, actions[0]);
      StepKeepsShifts(till, actions[0]);
      RunKeepsShifts(next, actions[1..]);
      forall s | 0 <= s < |till.shifts|
        ensures SameShift(till.shifts[s], CashShift.Run(next, actions[1..]).shifts[s])
      {
        assert SameShift(till.shifts[s], next.shifts[s]);
      }
    }
  }

  // ----- The expected cash -----

  lemma {:induction false} NoneOfShift(payments: seq<Payment>, shift: nat, paidBy: Method)
    requires forall i | 0 <= i < |payments| :: payments[i].shift != shift
    ensures SumBy(payments, Sales(shift, paidBy)) == 0 && SumBy(payments, Refunds(shift, paidBy)) == 0
  {
    if payments != [] {
      NoneOfShift(payments[1..], shift, paidBy);
    }
  }

  /** A shift starts with its opening cash. */
  lemma FreshDrawer(till: Till, o: Opening)
    requires Sound(till) && CanOpen(till, o)
    ensures Expected(Opened(till, o), |till.shifts|) == if o.amount < 0 then 0 else o.amount
  {
    forall i | 0 <= i < |till.payments|
      ensures till.payments[i].shift != |till.shifts|
    {
      assert PaymentSafe(till.payments[i], till.shifts);
    }
    NoneOfShift(till.payments, |till.shifts|, Cash);
  }

  /** Every call moves it by the cash it takes into the shift less the cash it gives back on payments of the shift. */
  lemma StepMovesDrawer(till: Till, action: Action, shift: nat)
    requires Sound(till) && shift < |till.shifts|
    ensures Expected(Step(till, action), shift)
         == Expected(till, shift) + Taken(till, action, shift, Cash) - GivenBack(till, action, shift, Cash)
  {
    StepMovesMoney(till, action, shift, Cash);
    StepKeepsShifts(till, action);
    assert SameShift(till.shifts[shift], Step(till, action).shifts[shift]);
  }

  /** After every run from the empty till the expected cash of a shift is its opening cash, with the cash that the calls
      of the run took into it, less the cash they gave back on its payments. */
  lemma {:induction false} RunMovesDrawer(actions: seq<Action>, shift: nat)
    ensures var empty := Till([], []); var till := CashShift.Run(empty, actions);
            shift < |till.shifts| ==>
              Expected(till, shift) == till.shifts[shift].opening + TakenOver(empty, actions, shift, Cash)
                                       - GivenBackOver(empty, actions, shift, Cash)
  {
    RunMovesMoney(Till([], []), actions, shift, Cash);
  }

  lemma NothingPaidMixed(till: Till, shift: nat)
    requires Sound(till)
    ensures SumBy(till.payments, Refunds(shift, Mixed)) == 0
  {
    NothingMixed(till.payments, till.shifts, shift);
    RefundsWithinSales(till.payments, till.shifts, shift, Mixed);
  }

  /** And so is all of the shift's snapshot. */
  lemma {:induction false} RunSnapshot(actions: seq<Action>, shift: nat)
    ensures var empty := Till([], []); var till := CashShift.Run(empty, actions);
            shift < |till.shifts| ==>
              var taken := (m: Method) => TakenOver(empty, actions, shift, m);
              var back := (m: Method) => GivenBackOver(empty, actions, shift, m);
              SnapshotOf(till, shift)
                == Snapshot(taken(Cash), taken(Card), taken(Qr), back(Cash) + back(Card) + back(Qr),
                            till.shifts[shift].opening + taken(Cash) - back(Cash))
  {
    var empty := Till([], []);
    RunSound(empty, actions);
    RunMovesMoney(empty, actions, shift, Cash);
    RunMovesMoney(empty, actions, shift, Card);
    RunMovesMoney(empty, actions, shift, Qr);
    SalesByMethod(CashShift.Run(empty, actions).payments, shift);
    NothingPaidMixed(CashShift.Run(empty, actions), shift);
  }

  // ----- Closing -----

  /** Every payment of the shift that succeeded and asked for registration has receipts, all of them sent. */
  ghost predicate AllRegistered(till: Till, shift: nat) {
    forall i | 0 <= i < |till.payments| && till.payments[i].shift == shift ::
      till.payments[i].succeeded && till.payments[i].registerFiscal ==>
        && till.payments[i].fiscal.rows != []
        && forall k | 0 <= k < |till.payments[i].fiscal.rows| :: till.payments[i].fiscal.rows[k].status == Sent
  }

  lemma GateShutIff(till: Till, shift: nat)
    requires Sound(till)
    ensures GateShut(till, shift) <==> !AllRegistered(till, shift)
  {
    forall i | 0 <= i < |till.payments| && till.payments[i].Fiscal()
      ensures Unresolved(till.payments[i]) <==> !till.payments[i].Resolved()
    {
      assert PaymentSafe(till.payments[i], till.shifts);
      GateExact(till.payments[i]);
    }
  }

  /** What the closing snapshot says beside the report of the same payments: its sales by method, its refunds, and the
      opening cash with the cash sales less the cash refunds. */
  ghost predicate StoredAs(closing: Option<Snapshot>, opening: int, pos: Section) {
    && closing.Some?
    && closing.value.cash == Count(pos.sales, Cash) && closing.value.card == Count(pos.sales, Card)
    && closing.value.qr == Count(pos.sales, Qr)
    && closing.value.refunds == Count(pos.refunds, Cash) + Count(pos.refunds, Card) + Count(pos.refunds, Qr)
    && closing.value.expected == opening + Count(pos.sales, Cash) - Count(pos.refunds, Cash)
  }

  /** A shift is closed exactly when it is open and all of its payments are registered as far as they have to be; the
      snapshot stored with it is that of the report, and nothing else changes. */
  lemma ClosedEffect(till: Till, shift: nat, report: Report)
    requires Sound(till) && ReportsShift(report, till.payments, shift)
    ensures var after := ClosedShift(till, shift);
            if shift < |till.shifts| && till.shifts[shift].open && AllRegistered(till, shift) then
              && after.payments == till.payments && |after.shifts| == |till.shifts|
              && (forall s | 0 <= s < |till.shifts| && s != shift :: after.shifts[s] == till.shifts[s])
              && after.shifts[shift].(open := true, closing := till.shifts[shift].closing) == till.shifts[shift]
              && !after.shifts[shift].open
              && StoredAs(after.shifts[shift].closing, till.shifts[shift].opening, report.pos)
            else after == till
  {
    GateShutIff(till, shift);
    if shift < |till.shifts| {
      ReportCounts(till, shift, report);
    }
  }

  lemma ReportCounts(till: Till, shift: nat, report: Report)
    requires Sound(till) && shift < |till.shifts| && ReportsShift(report, till.payments, shift)
    ensures StoredAs(Some(SnapshotOf(till, shift)), till.shifts[shift].opening, report.pos)
  {
    forall m: Method
      ensures Count(report.pos.sales, m) == SumBy(till.payments, Sales(shift, m))
      ensures Count(report.pos.refunds, m) == SumBy(till.payments, Refunds(shift, m))
    {
      ScopeSums(till.payments, till.shifts, shift, m);
    }
    SalesByMethod(till.payments, shift);
    NothingPaidMixed(till, shift);
  }

  // ----- The payment rows -----

  /** A payment row as it comes into being. */
  ghost predicate NewRow(p: Payment, paidBy: Method, amount: nat, registerFiscal: bool, shift: nat, order: Sale) {
    && p.paidBy == paidBy && p.amount == amount && p.registerFiscal == registerFiscal
    && p.shift == shift && p.sale == order && p.refunds == []
  }

  /** No fiscal rows, or, if the payment asks for them, those of a first attempt on its parts. */
  ghost predicate Issued(fiscal: Ledger, asked: bool, sale: Sale, paidBy: Method, outcome: Outcome) {
    fiscal == if asked then FirstIssue(BuildParts(sale, paidBy), sale.vat, outcome) else Ledger([], [])
  }

  /** A checkout on an open shift, by a real method and of a positive amount, adds one row, succeeded as the provider
      says; any other one changes nothing. */
  lemma SoldEffect(till: Till, s: Checkout)
    ensures var after := Sold(till, s);
            if s.shift < |till.shifts| && till.shifts[s.shift].open && s.paidBy != Mixed && s.amount > 0 then
              && after.shifts == till.shifts && |after.payments| == |till.payments| + 1
              && after.payments[..|till.payments|] == till.payments
              && var p := after.payments[|till.payments|];
                 && NewRow(p, s.paidBy, s.amount, s.registerFiscal, s.shift, s.sale)
                 && p.succeeded == s.chargeOk && !p.pending
                 && Issued(p.fiscal, s.chargeOk && s.registerFiscal, s.sale, s.paidBy, s.outcome)
            else after == till
  {
  }

  /** A card payment that may start adds one row that waits and has succeeded in nothing yet. */
  lemma InitiatedEffect(till: Till, c: CardRequest)
    ensures var after := Initiated(till, c);
            if && c.payable && c.shift < |till.shifts| && till.shifts[c.shift].open
               && (!c.registerFiscal ==> c.maySkip) && c.missing == 0 && c.amount > 0 && c.amount >= c.remaining
               && c.enabled && c.terminal then
              && after.shifts == till.shifts && |after.payments| == |till.payments| + 1
              && after.payments[..|till.payments|] == till.payments
              && var p := after.payments[|till.payments|];
                 && NewRow(p, Card, c.amount, c.registerFiscal, c.shift, c.order)
                 && p.pending && !p.succeeded && p.fiscal == Ledger([], [])
            else after == till
  {
  }

  /** The terminal's answer settles a waiting payment, once, and no other. */
  lemma AnsweredEffect(till: Till, p: nat, a: Answer)
    requires p < |till.payments|
    ensures var after := TerminalDone(till, p, a);
            && after.shifts == till.shifts && |after.payments| == |till.payments|
            && (forall i | 0 <= i < |till.payments| && i != p :: after.payments[i] == till.payments[i])
            && var was, now := till.payments[p], after.payments[p];
               if was.pending then
                 && NewRow(now.(refunds := []), was.paidBy, was.amount, was.registerFiscal, was.shift, a.order)
                 && now.refunds == was.refunds && !now.pending && now.succeeded == a.ok
                 && Issued(now.fiscal, a.ok && a.submitted && was.registerFiscal, a.order, was.paidBy, a.outcome)
               else now == was
  {
  }

  /** A refund is refused, and changes nothing, if the payment did not succeed or was refunded before, its order is not
      closed or there is no open shift; else it adds one row for the whole payment. */
  lemma RefundedEffect(till: Till, p: nat, shift: nat, orderClosed: bool, ok: bool)
    requires p < |till.payments|
    ensures var after := RefundedPayment(till, p, shift, orderClosed, ok);
            && after.shifts == till.shifts && |after.payments| == |till.payments|
            && (forall i | 0 <= i < |till.payments| && i != p :: after.payments[i] == till.payments[i])
            && var was, now := till.payments[p], after.payments[p];
               if was.succeeded && orderClosed && shift < |till.shifts| && till.shifts[shift].open
                  && forall k | 0 <= k < |was.refunds| :: !was.refunds[k].succeeded then
                 && now.(refunds := was.refunds) == was
                 && |now.refunds| == |was.refunds| + 1 && now.refunds[..|was.refunds|] == was.refunds
                 && now.refunds[|was.refunds|].amount == was.amount && now.refunds[|was.refunds|].succeeded == ok
               else now == was
  {
  }

  /** A card payment that is started and then confirmed raises the card sales of its shift by what was asked for, at the
      confirmation, and the expected cash at no time. */
  lemma StartedAndConfirmed(till: Till, c: CardRequest, a: Answer)
    requires Sound(till) && CanInitiate(till, c) && a.ok
    ensures var started := Initiated(till, c);
            var confirmed := TerminalDone(started, |till.payments|, a);
            && SnapshotOf(started, c.shift) == SnapshotOf(till, c.shift)
            && SnapshotOf(confirmed, c.shift)
               == SnapshotOf(till, c.shift).(card := SnapshotOf(till, c.shift).card + c.amount)
  {
    var started := Initiated(till, c);
    var n := |till.payments|;
    InitiatedSound(till, c);
    InitiatedEffect(till, c);
    assert started.payments[n].pending && started.payments[n].amount == c.amount;
    StartedChangesNothing(till, c);
    forall m: Method
      ensures SumBy(TerminalDone(started, n, a).payments, Sales(c.shift, m))
           == SumBy(started.payments, Sales(c.shift, m)) + if m == Card then c.amount else 0
      ensures SumBy(TerminalDone(started, n, a).payments, Refunds(c.shift, m))
           == SumBy(started.payments, Refunds(c.shift, m))
    {
      AnswerTakes(started, n, a, c.shift, m);
    }
    SalesByMethod(started.payments, c.shift);
    SalesByMethod(TerminalDone(started, n, a).payments, c.shift);
  }

  lemma StartedChangesNothing(till: Till, c: CardRequest)
    requires CanInitiate(till, c)
    ensures SnapshotOf(Initiated(till, c), c.shift) == SnapshotOf(till, c.shift)
  {
    forall m: Method
      ensures SumBy(Initiated(till, c).payments, Sales(c.shift, m)) == SumBy(till.payments, Sales(c.shift, m))
      ensures SumBy(Initiated(till, c).payments, Refunds(c.shift, m)) == SumBy(till.payments, Refunds(c.shift, m))
    {
      InitiateTakesNothing(till, c, c.shift, m);
    }
    SalesByMethod(till.payments, c.shift);
    SalesByMethod(Initiated(till, c).payments, c.shift);
  }

  // ----- The rows of the report -----

  /** Exactly the payments that keep lets through, each once and in order. */
  ghost predicate Lists(ids: seq<nat>, payments: seq<Payment>, keep: Payment -> bool) {
    && (forall k | 0 <= k < |ids| :: ids[k] < |payments|)
    && (forall j, k | 0 <= j < k < |ids| :: ids[j] < ids[k])
    && (forall i: nat | i < |payments| :: i in ids <==> keep(payments[i]))
  }

  lemma ListsOneMore(ids: seq<nat>, payments: seq<Payment>, keep: Payment -> bool)
    requires payments != [] && Lists(ids, payments[..|payments| - 1], keep)
    ensures Lists(ids + if keep(payments[|payments| - 1]) then [|payments| - 1] else [], payments, keep)
  {
    var n := |payments| - 1;
    var more := ids + if keep(payments[n]) then [n] else [];
    assert n !in ids;
    forall i: nat | i < |payments|
      ensures i in more <==> keep(payments[i])
    {
      assert i in more <==> i in ids || (i == n && keep(payments[n]));
      if i < n {
        assert payments[..n][i] == payments[i];
      }
    }
  }

  lemma {:induction false} SectionLists(payments: seq<Payment>, keep: Payment -> bool)
    ensures Lists(Ids(payments, keep), payments, keep)
  {
    if payments != [] {
      SectionLists(payments[..|payments| - 1], keep);
      ListsOneMore(Ids(payments[..|payments| - 1], keep), payments, keep);
    }
  }

  lemma {:induction false} SentRowsCounted(rows: seq<Row>)
    ensures SumBy(rows, SentCount) == SumBy(rows, SentValue(One))
  {
    PairedSums(rows, rows, SentCount, SentValue(One));
  }

  lemma ReceiptsOfPayment(payment: Payment, shifts: seq<Shift>)
    requires PaymentSafe(payment, shifts)
    ensures SumBy(payment.fiscal.rows, SentCount) == |payment.fiscal.log|
  {
    SentRowsCounted(payment.fiscal.rows);
    CountsResults(payment.fiscal.log);
    if payment.Fiscal() {
      assert SumBy(payment.fiscal.log, One) == SumBy(payment.fiscal.rows, SentValue(One));
    }
  }

  /** Its receipt count is the number of receipts that the device acknowledged for them. */
  lemma {:induction false} ReceiptsAreAcknowledged(payments: seq<Payment>, shifts: seq<Shift>, keep: Payment -> bool)
    requires forall i | 0 <= i < |payments| :: PaymentSafe(payments[i], shifts)
    ensures SumBy(payments, ReceiptsIn(keep)) == |AckedFor(payments, keep)|
  {
    if payments != [] {
      assert forall i | 0 <= i < |payments[1..]| :: payments[1..][i] == payments[i + 1];
      ReceiptsAreAcknowledged(payments[1..], shifts, keep);
      ReceiptsOfPayment(payments[0], shifts);
    }
  }

  /** A payment that keep lets through and that was refunded. */
  function RefundedIn(keep: Payment -> bool): Payment -> bool {
    (p: Payment) => keep(p) && exists i | 0 <= i < |p.refunds| :: p.refunds[i].succeeded
  }

  lemma {:induction false} SomeRefund(refunds: seq<Refund>)
    ensures SumBy(refunds, RefundCount) >= 0
    ensures SumBy(refunds, RefundCount) > 0 <==> exists i | 0 <= i < |refunds| :: refunds[i].succeeded
  {
    if refunds != [] {
      SomeRefund(refunds[1..]);
      assert forall i | 1 <= i < |refunds| :: refunds[i] == refunds[1..][i - 1];
      assert forall i | 0 <= i < |refunds[1..]| :: refunds[1..][i] == refunds[i + 1];
    }
  }

  /** As no payment is refunded twice, the refund count is the number of refunded payments. */
  lemma {:induction false} RefundsAreCounted(payments: seq<Payment>, shifts: seq<Shift>, keep: Payment -> bool)
    requires forall i | 0 <= i < |payments| :: PaymentSafe(payments[i], shifts)
    ensures SumBy(payments, RefundCountIn(keep)) == |Filter(payments, RefundedIn(keep))|
  {
    if payments != [] {
      assert forall i | 0 <= i < |payments[1..]| :: payments[1..][i] == payments[i + 1];
      RefundsAreCounted(payments[1..], shifts, keep);
      SomeRefund(payments[0].refunds);
      assert PaymentSafe(payments[0], shifts);
    }
  }

  /** What a report says of a till: each payment it keeps once, as many receipts as were acknowledged for
      those, and as many refunds as there are refunded ones. */
  lemma ReportCountsReceipts(till: Till, shift: nat, report: Report)
    requires Sound(till) && ReportsShift(report, till.payments, shift)
    ensures forall i: nat | i < |till.payments| ::
              i in report.pos.ids <==> till.payments[i].succeeded && till.payments[i].shift == shift
    ensures forall j, k | 0 <= j < k < |report.pos.ids| :: report.pos.ids[j] < report.pos.ids[k] < |till.payments|
    ensures report.pos.receiptCount == |AckedFor(till.payments, Scope(shift))|
    ensures report.fiscalSent.receiptCount == |AckedFor(till.payments, SentScope(shift))|
    ensures report.pos.refundCount == |Filter(till.payments, RefundedIn(Scope(shift)))|
    ensures report.fiscalSent.refundCount == |Filter(till.payments, RefundedIn(SentScope(shift)))|
  {
    SectionLists(till.payments, Scope(shift));
    assert report.pos.ids == Ids(till.payments, Scope(shift));
    forall i: nat | i < |till.payments|
      ensures i in report.pos.ids <==> till.payments[i].succeeded && till.payments[i].shift == shift
    {
      assert Scope(shift)(till.payments[i]) == (till.payments[i].succeeded && till.payments[i].shift == shift);
    }
    ReceiptsAreAcknowledged(till.payments, till.shifts, Scope(shift));
    ReceiptsAreAcknowledged(till.payments, till.shifts, SentScope(shift));
    RefundsAreCounted(till.payments, till.shifts, Scope(shift));
    RefundsAreCounted(till.payments, till.shifts, SentScope(shift));
  }
}
