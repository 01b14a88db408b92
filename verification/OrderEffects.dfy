/** What each call does to an order, told by what a reader of the order sees before and after it. */
module OrderEffects {
  import opened Options
  import opened Arithmetic
  import opened OrderItems
  import opened Kitchen
  import opened Orders
  import MarkingScan

  // ----- Money -----

  /** The fee is the nearest whole amount to the percentage of the subtotal, the even one on a tie. */
  lemma FeeNearest(subtotal: nat, percent: nat)
    ensures var fee, exact := 10000 * Fee(subtotal, percent), subtotal * percent;
            && 2 * exact <= 2 * fee + 10000 && 2 * fee <= 2 * exact + 10000
            && (2 * exact == 2 * fee + 10000 || 2 * fee == 2 * exact + 10000 ==> Fee(subtotal, percent) % 2 == 0)
  {
    NonNegativeProduct(subtotal, percent);
    HalfEvenNearest(subtotal * percent, 10000);
  }

  /** Every field that a sync, a submission or a refusal leaves alone. */
  ghost predicate MoneyKept(was: OrderState, now: OrderState) {
    && now.subtotal == was.subtotal && now.total == was.total
    && now.payments == was.payments && now.takeaway == was.takeaway
  }

  /** The subtotal is that of the lines, the total has the present fee on it, and no payment comes or goes. */
  ghost predicate Recounted(was: OrderState, now: OrderState, restaurant: Restaurant) {
    && now.subtotal == Subtotal(now.board.items)
    && now.total == now.subtotal + Fee(now.subtotal, restaurant.feePercent)
    && now.payments == was.payments && now.takeaway == was.takeaway
  }

  /** The board after a sync of an order that just became board. */
  ghost predicate SyncedOrCleared(was: Board, now: Board, restaurant: Restaurant, env: Env) {
    if was.status == Open then now == was.(tickets := map[])
    else SyncedFrom(was, now, restaurant, env.now, env.paper)
  }

  lemma SyncEither(board: Board, restaurant: Restaurant, env: Env)
    ensures SyncedOrCleared(board, Sync(board, restaurant, env.now, env.paper), restaurant, env)
  {
    if board.status != Open {
      SyncMeets(board, restaurant, env.now, env.paper);
    }
  }

  // ----- Submission -----

  predicate Changeable(status: OrderStatus) {
    status != Closed && status != Cancelled
  }

  /** An order OPEN before is submitted now, and the kitchen is synced. */
  ghost predicate SubmittedFrom(st: OrderState, after: OrderState, restaurant: Restaurant, env: Env) {
    && MoneyKept(st, after)
    && SyncedFrom(st.board.(status := if st.board.status == Open then Submitted else st.board.status), after.board,
         restaurant, env.now, env.paper)
  }

  /** A submission is refused, and changes nothing, exactly when a marking code is missing, the order is closed or
      cancelled, or the delivery details are; otherwise the order leaves OPEN and its kitchen is synced. */
  lemma SubmitEffect(st: OrderState, restaurant: Restaurant, env: Env)
    ensures var (after, verdict) := Submit(st, restaurant, env);
            && (verdict == Refused <==>
                  MissingCount(st.board.items) > 0 || !Changeable(st.board.status) || !env.details)
            && (verdict == Refused ==> after == st)
            && (verdict != Refused ==> verdict == Done && SubmittedFrom(st, after, restaurant, env))
  {
    var status := if st.board.status == Open then Submitted else st.board.status;
    SyncMeets(st.board.(status := status), restaurant, env.now, env.paper);
  }

  lemma SubmitKeepsCodes(st: OrderState, restaurant: Restaurant, env: Env)
    ensures MissingCount(Submit(st, restaurant, env).0.board.items) == MissingCount(st.board.items)
  {
    PairedSums(AssignStations(st.board.items, restaurant), st.board.items, MissingOf, MissingOf);
  }

  // ----- Payment -----

  /** What a charge needs of the order, the shift, the desk and the payer. */
  ghost predicate Payable(st: OrderState, charge: Charge, env: Env) {
    && Changeable(st.board.status) && env.details
    && MissingCount(st.board.items) == 0
    && charge.shift == OpenShift && charge.supported && charge.enabled
    && (charge.registerFiscal || charge.maySkip)
    && charge.amount > 0 && Paid(st.payments) + charge.amount >= if st.total > Paid(st.payments) then st.total else 0
  }

  /** The order a charge meets: a dine-in order still OPEN is submitted first, if it can be. */
  ghost predicate SubmittedFirst(st: OrderState, met: OrderState, restaurant: Restaurant, env: Env) {
    if st.board.status == Open && !st.takeaway && env.details && MissingCount(st.board.items) == 0 then
      SubmittedFrom(st, met, restaurant, env)
    else met == st
  }

  /** The order that a charge meets. */
  function Met(st: OrderState, restaurant: Restaurant, env: Env): OrderState {
    if st.board.status == Open && !st.takeaway then Submit(st, restaurant, env).0 else st
  }

  lemma MetEffect(st: OrderState, restaurant: Restaurant, env: Env)
    ensures SubmittedFirst(st, Met(st, restaurant, env), restaurant, env)
    ensures Met(st, restaurant, env).payments == st.payments && Met(st, restaurant, env).total == st.total
    ensures MissingCount(Met(st, restaurant, env).board.items) == MissingCount(st.board.items)
  {
    SubmitEffect(st, restaurant, env);
    SubmitKeepsCodes(st, restaurant, env);
  }

  lemma PaidIsNatural(payments: seq<Payment>)
    ensures Paid(payments) >= 0
  {
    SumByNonNegative(payments, PaidOf);
  }

  /** When a charge is refused, fails or succeeds. */
  lemma ProcessedVerdict(st: OrderState, charge: Charge, restaurant: Restaurant, env: Env)
    ensures var verdict := Processed(st, charge, restaurant, env).1;
            && (verdict == Refused <==> !Payable(st, charge, env))
            && (verdict == Done <==> Payable(st, charge, env) && charge.ok)
            && (verdict == ChargeFailed <==> Payable(st, charge, env) && !charge.ok)
  {
    SubmitEffect(st, restaurant, env);
    MetEffect(st, restaurant, env);
    PaidIsNatural(st.payments);
  }

  /** A refusal leaves the order as the charge met it: at most submitted, and with no new payment. */
  lemma RefusedCharge(st: OrderState, charge: Charge, restaurant: Restaurant, env: Env)
    requires Processed(st, charge, restaurant, env).1 == Refused
    ensures SubmittedFirst(st, Processed(st, charge, restaurant, env).0, restaurant, env)
  {
    SubmitEffect(st, restaurant, env);
    MetEffect(st, restaurant, env);
  }

  /** A declined charge adds one failed payment of the asked amount to the order as the charge met it, and nothing
      else. */
  lemma FailedCharge(st: OrderState, charge: Charge, restaurant: Restaurant, env: Env) returns (met: OrderState)
    requires Processed(st, charge, restaurant, env).1 == ChargeFailed
    ensures charge.amount >= 0 && SubmittedFirst(st, met, restaurant, env)
    ensures Processed(st, charge, restaurant, env).0
         == met.(payments := st.payments + [Payment(charge.amount, false)])
  {
    met := Met(st, restaurant, env);
    MetEffect(st, restaurant, env);
  }

  /** The same charge, accepted on a second try, pays the order. */
  lemma DeclinedCanPay(
      st: OrderState, charge: Charge, restaurant: Restaurant, env: Env, later: Env, restaurant': Restaurant)
    requires Processed(st, charge, restaurant, env).1 == ChargeFailed && later.details
    ensures Processed(Processed(st, charge, restaurant, env).0, charge.(ok := true), restaurant', later).1 == Done
  {
    var met := FailedCharge(st, charge, restaurant, env);
    var after := met.(payments := st.payments + [Payment(charge.amount, false)]);
    ProcessedVerdict(st, charge, restaurant, env);
    MetEffect(st, restaurant, env);
    SumBySnoc(st.payments, Payment(charge.amount, false), PaidOf);
    ProcessedVerdict(after, charge.(ok := true), restaurant', later);
  }

  /** A successful charge adds one payment of the asked amount and closes the order, submitted by then at the latest:
      an OPEN dine-in order before the charge, an OPEN takeaway order after it. */
  lemma PaidCharge(st: OrderState, charge: Charge, restaurant: Restaurant, env: Env) returns (served: OrderState)
    requires Processed(st, charge, restaurant, env).1 == Done
    ensures charge.amount >= 0
    ensures if st.board.status == Open then SubmittedFrom(st, served, restaurant, env) else served == st
    ensures Processed(st, charge, restaurant, env).0
         == served.(board := served.board.(status := Closed),
                    payments := st.payments + [Payment(charge.amount, true)])
  {
    ProcessedVerdict(st, charge, restaurant, env);
    SubmitEffect(st, restaurant, env);
    MetEffect(st, restaurant, env);
    PaidIsNatural(st.payments);
    SumBySnoc(st.payments, Payment(charge.amount, true), PaidOf);
    served := if st.board.status == Open then Submit(st, restaurant, env).0 else st;
    var paid := Met(st, restaurant, env).(payments := st.payments + [Payment(charge.amount, true)]);
    LateSubmit(Met(st, restaurant, env), paid.payments, restaurant, env);
  }

  /** A submission does not read the payments. */
  lemma LateSubmit(st: OrderState, payments: seq<Payment>, restaurant: Restaurant, env: Env)
    ensures Submit(st.(payments := payments), restaurant, env).0
         == Submit(st, restaurant, env).0.(payments := payments)
  {
  }

  // ----- Scans -----

  /** A line of the product still lacks a code. */
  ghost predicate Lacking(items: seq<Item>, product: nat) {
    exists i | 0 <= i < |items| :: items[i].product.id == product && |items[i].markings| < items[i].quantity
  }

  /** A scan is refused exactly when its code is known already, or there is no line to attach it to, or none to take
      from. */
  lemma {:induction false} ScanRefusedIff(
      items: seq<Item>, product: Product, code: string, mode: MarkingScan.Mode, restaurant: Restaurant,
      taken: multiset<string>)
    ensures MarkingScan.Scan(items, product, code, mode, restaurant, taken).None? <==>
              match mode
              case Remove => forall i | 0 <= i < |items| && items[i].product.id == product.id ::
                               !items[i].IsActive() && code !in items[i].markings
              case Attach => code in taken || code in MarkingScan.Codes(items) || !Lacking(items, product.id)
              case _ => code in taken || code in MarkingScan.Codes(items)
  {
  }

  /** One new piece at the product's price, in the kitchen the product belongs to, with the code if it is marked. */
  ghost predicate AddedFor(line: Item, product: Product, code: string, restaurant: Restaurant) {
    && line.product == product && line.quantity == 1 && line.unitPrice == product.price
    && line.lineTotal == product.price && line.status == ItemNew
    && line.markings == (if product.marked then [code] else [])
    && StationFound(product, restaurant, line.station)
  }

  /** A scan in gives its code to the oldest line of the product that lacks one, or else adds a line. */
  lemma ScanInEffect(
      items: seq<Item>, product: Product, code: string, mode: MarkingScan.Mode, restaurant: Restaurant)
    requires mode != MarkingScan.Remove && MarkingScan.ScanIn(items, product, code, mode, restaurant).Some?
    ensures var after := MarkingScan.ScanIn(items, product, code, mode, restaurant).value;
            if mode != MarkingScan.OtherMode && Lacking(items, product.id) then
              exists i | 0 <= i < |items| ::
                && items[i].product.id == product.id && |items[i].markings| < items[i].quantity
                && (forall k | 0 <= k < i && items[k].product.id == product.id ::
                      |items[k].markings| >= items[k].quantity)
                && after == items[i := items[i].(markings := items[i].markings + if product.marked then [code] else [])]
            else
              |after| == |items| + 1 && after[..|items|] == items && AddedFor(after[|items|], product, code, restaurant)
  {
    if mode != MarkingScan.OtherMode && Lacking(items, product.id) {
      var i := MarkingScan.FindMissing(items, product.id).value;
      assert items[i].markings + [] == items[i].markings;
      assert items[i := items[i]] == items;
    }
  }

  /** So it raises the subtotal by the price of the product when it adds a line, and by nothing otherwise. */
  lemma ScanInMoney(items: seq<Item>, product: Product, code: string, mode: MarkingScan.Mode, restaurant: Restaurant)
    requires mode != MarkingScan.Remove && MarkingScan.ScanIn(items, product, code, mode, restaurant).Some?
    ensures Subtotal(MarkingScan.ScanIn(items, product, code, mode, restaurant).value) == Subtotal(items)
              + if mode != MarkingScan.OtherMode && Lacking(items, product.id) then 0 else product.price
  {
    var after := MarkingScan.ScanIn(items, product, code, mode, restaurant).value;
    ScanInEffect(items, product, code, mode, restaurant);
    if mode != MarkingScan.OtherMode && Lacking(items, product.id) {
      SubtotalAgrees(after, items);
    } else {
      SumBySnoc(items, after[|items|], LiveTotal);
      assert after == items + [after[|items|]];
    }
  }

  /** The line that a removal takes a piece from: the oldest of the product with this code, or else the youngest of the
      product that is not cancelled. */
  ghost predicate TakenFrom(items: seq<Item>, product: nat, code: string, i: int) {
    && 0 <= i < |items| && items[i].product.id == product
    && if code in items[i].markings then
         forall k | 0 <= k < i && items[k].product.id == product :: code !in items[k].markings
       else
         && items[i].IsActive()
         && (forall k | 0 <= k < |items| && items[k].product.id == product :: code !in items[k].markings)
         && (forall k | i < k < |items| && items[k].product.id == product :: !items[k].IsActive())
  }

  /** One piece less: without the code, if the line had it, at the price of the pieces left. */
  ghost predicate PieceTaken(was: Item, now: Item, code: string) {
    && now == was.(quantity := now.quantity, lineTotal := now.lineTotal, markings := now.markings)
    && now.quantity == was.quantity - 1 && now.lineTotal == now.quantity * was.unitPrice
    && if code in was.markings then
         exists k | 0 <= k < |was.markings| && was.markings[k] == code ::
           now.markings == was.markings[..k] + was.markings[k + 1..]
       else now.markings == was.markings
  }

  /** Line i loses a piece, or goes with its only one. */
  ghost predicate TookPiece(items: seq<Item>, after: seq<Item>, code: string, i: int)
    requires 0 <= i < |items|
  {
    if items[i].quantity > 1 then
      |after| == |items| && PieceTaken(items[i], after[i], code) && after == items[i := after[i]]
    else after == items[..i] + items[i + 1..]
  }

  lemma {:induction false} PieceWithCode(items: seq<Item>, i: nat, code: string)
    requires i < |items| && code in items[i].markings
    ensures var less := items[i].(markings := MarkingScan.WithoutCode(items[i].markings, code));
            TookPiece(items, MarkingScan.TakePiece(items[i := less], i), code, i)
  {
    var k := MarkingScan.WithoutCodeAt(items[i].markings, code);
    var less := items[i].(markings := MarkingScan.WithoutCode(items[i].markings, code));
    if items[i].quantity > 1 {
      assert PieceTaken(items[i], MarkingScan.OnePieceLess(less), code);
    } else {
      assert items[i := less][..i] == items[..i] && items[i := less][i + 1..] == items[i + 1..];
    }
  }

  lemma PieceWithoutCode(items: seq<Item>, i: nat, code: string)
    requires i < |items| && code !in items[i].markings
    ensures TookPiece(items, MarkingScan.TakePiece(items, i), code, i)
  {
  }

  /** A removal takes one piece from that line, and the line away with its only piece. */
  lemma ScanOutEffect(items: seq<Item>, product: Product, code: string) returns (i: nat)
    requires MarkingScan.ScanOut(items, product, code).Some?
    ensures TakenFrom(items, product.id, code, i)
    ensures TookPiece(items, MarkingScan.ScanOut(items, product, code).value, code, i)
  {
    var found := MarkingScan.FindCode(items, product.id, code);
    i := if found.Some? then found.value else MarkingScan.FindYoungest(items, product.id).value;
    if found.Some? {
      PieceWithCode(items, i, code);
    } else {
      PieceWithoutCode(items, i, code);
    }
  }

  lemma {:induction false} LiveWithout(items: seq<Item>, i: nat)
    requires i < |items|
    ensures SumBy(items[..i] + items[i + 1..], LiveTotal) == SumBy(items, LiveTotal) - LiveTotal(items[i])
  {
    SumByConcat(items[..i], items[i + 1..], LiveTotal);
    SumByConcat(items[..i], [items[i]] + items[i + 1..], LiveTotal);
    MarkingScan.SplitAround(items, i);
    assert ([items[i]] + items[i + 1..])[1..] == items[i + 1..];
  }

  /** So it lowers the subtotal by the price of one piece of that line, unless the line is cancelled or empty. */
  lemma ScanOutMoney(items: seq<Item>, product: Product, code: string) returns (i: nat)
    requires AllPriced(items) && MarkingScan.ScanOut(items, product, code).Some?
    ensures TakenFrom(items, product.id, code, i)
    ensures Subtotal(MarkingScan.ScanOut(items, product, code).value) == Subtotal(items)
              - if items[i].IsActive() && items[i].quantity > 0 then items[i].unitPrice else 0
  {
    i := ScanOutEffect(items, product, code);
    var after := MarkingScan.ScanOut(items, product, code).value;
    OnePiece(items[i]);
    if items[i].quantity > 1 {
      SumByUpdate(items, i, after[i], LiveTotal);
    } else {
      LiveWithout(items, i);
    }
  }

  lemma OnePiece(item: Item)
    requires item.Priced()
    ensures item.quantity > 0 ==> (item.quantity - 1) * item.unitPrice == item.lineTotal - item.unitPrice
    ensures item.quantity == 1 ==> item.lineTotal == item.unitPrice
    ensures item.quantity == 0 ==> item.lineTotal == 0
  {
  }

  /** The scan service: refused on a closed or cancelled order, an unknown product or a refused scan; else the lines are
      scanned, recounted, and the kitchen synced. */
  lemma ScannedEffect(
      st: OrderState, product: Option<Product>, code: string, mode: MarkingScan.Mode, taken: multiset<string>,
      restaurant: Restaurant, env: Env)
    ensures var (after, verdict) := Scanned(st, product, code, mode, taken, restaurant, env);
            if !Changeable(st.board.status) || product.None?
               || MarkingScan.Scan(st.board.items, product.value, code, mode, restaurant, taken).None? then
              verdict == Refused && after == st
            else
              verdict == Done && Recounted(st, after, restaurant)
              && var items := MarkingScan.Scan(st.board.items, product.value, code, mode, restaurant, taken).value;
                 SyncedOrCleared(st.board.(items := items), after.board, restaurant, env)
  {
    if Changeable(st.board.status) && product.Some? {
      var scanned := MarkingScan.Scan(st.board.items, product.value, code, mode, restaurant, taken);
      if scanned.Some? {
        RecountThenSync(st, scanned.value, restaurant, env);
      }
    }
  }

  /** Recounting the lines and syncing the kitchen. */
  lemma RecountThenSync(st: OrderState, items: seq<Item>, restaurant: Restaurant, env: Env)
    ensures var after := Synced(Recalculated(WithItems(st, items), restaurant), restaurant, env);
            Recounted(st, after, restaurant) && SyncedOrCleared(st.board.(items := items), after.board, restaurant, env)
  {
    var counted := Recalculated(WithItems(st, items), restaurant);
    SyncKeepsMoney(counted, restaurant, env);
    SyncEither(counted.board, restaurant, env);
  }

  // ----- Changes of lines and of statuses -----

  /** The given lines, each at its quantity times its unit price. */
  ghost predicate PricedAs(given: seq<Item>, stored: seq<Item>) {
    && |stored| == |given|
    && forall i | 0 <= i < |given| ::
         && stored[i].lineTotal == given[i].quantity * given[i].unitPrice
         && stored[i].(lineTotal := given[i].lineTotal) == given[i]
  }

  /** Edited lines are stored, priced and recounted; the kitchen of an OPEN order hears nothing of them. */
  lemma ItemsChangedEffect(st: OrderState, items: seq<Item>, restaurant: Restaurant, env: Env)
    returns (stored: seq<Item>)
    ensures PricedAs(items, stored)
    ensures var (after, verdict) := ItemsChanged(st, items, restaurant, env);
            if Changeable(st.board.status) then
              && verdict == Done && Recounted(st, after, restaurant)
              && if st.board.status == Open then after.board == st.board.(items := stored)
                 else SyncedFrom(st.board.(items := stored), after.board, restaurant, env.now, env.paper)
            else verdict == Refused && after == st
  {
    stored := Saved(items);
    RecountThenSync(st, stored, restaurant, env);
  }

  /** The lines with status now at the station, if they are not cancelled. */
  ghost predicate StatusSetAt(was: seq<Item>, now: seq<Item>, station: nat, status: ItemStatus) {
    && |now| == |was|
    && forall i | 0 <= i < |was| ::
         now[i] == if was[i].status != ItemCancelled && was[i].station == Some(station)
                   then was[i].(status := status) else was[i]
  }

  /** A ticket taken to a status takes all active lines of its station there, without a recount, and notes the time when
      it is done; then the kitchen is synced. */
  lemma TicketUpdatedEffect(
      st: OrderState, station: nat, status: TicketStatus, restaurant: Restaurant, env: Env) returns (items: seq<Item>)
    requires station in st.board.tickets
    ensures StatusSetAt(st.board.items, items, station,
              match status case TicketNew => ItemNew case TicketCooking => ItemCooking case TicketDone => ItemDone)
    ensures var after := TicketUpdated(st, station, status, restaurant, env);
            var ticket := st.board.tickets[station].(
              status := status, completedAt := if status == TicketDone then Some(env.now) else None);
            && MoneyKept(st, after)
            && SyncedOrCleared(st.board.(items := items, tickets := st.board.tickets[station := ticket]), after.board,
                 restaurant, env)
  {
    items := SetAt(st.board.items, station, ItemStatusFor(status));
    var ticket := st.board.tickets[station].(
      status := status, completedAt := if status == TicketDone then Some(env.now) else None);
    SyncEither(st.board.(items := items, tickets := st.board.tickets[station := ticket]), restaurant, env);
  }

  /** A single line is taken to a status; SERVED is refused. */
  lemma ItemUpdatedEffect(st: OrderState, i: nat, status: ItemStatus, restaurant: Restaurant, env: Env)
    requires i < |st.board.items|
    ensures var (after, verdict) := ItemUpdated(st, i, status, restaurant, env);
            if status == ItemServed then verdict == Refused && after == st
            else
              && verdict == Done && Recounted(st, after, restaurant)
              && SyncedOrCleared(st.board.(items := st.board.items[i := st.board.items[i].(status := status)]),
                   after.board, restaurant, env)
  {
    RecountThenSync(st, st.board.items[i := st.board.items[i].(status := status)], restaurant, env);
  }

  // ----- The status of an order over its life -----

  /** A successful payment has come since. */
  ghost predicate PaidSince(was: seq<Payment>, now: seq<Payment>) {
    exists k | |was| <= k < |now| :: now[k].succeeded
  }

  /** No call cancels an order or opens it again or takes a payment away, a closed one stays closed, and only a
      successful charge closes one. */
  ghost predicate StatusMoves(was: OrderState, now: OrderState) {
    && (now.board.status == Cancelled ==> was.board.status == Cancelled)
    && (now.board.status == Open ==> was.board.status == Open)
    && (was.board.status == Closed ==> now.board.status == Closed)
    && was.payments <= now.payments
    && (now.board.status == Closed && was.board.status != Closed ==> PaidSince(was.payments, now.payments))
  }

  lemma ProcessedMoves(st: OrderState, charge: Charge, restaurant: Restaurant, env: Env)
    ensures StatusMoves(st, Processed(st, charge, restaurant, env).0)
  {
    var (after, verdict) := Processed(st, charge, restaurant, env);
    ProcessedVerdict(st, charge, restaurant, env);
    match verdict
    case Refused => RefusedCharge(st, charge, restaurant, env);
    case ChargeFailed => var met := FailedCharge(st, charge, restaurant, env);
    case Done =>
      var served := PaidCharge(st, charge, restaurant, env);
      assert after.payments[|st.payments|].succeeded;
  }

  lemma SubmitMoves(st: OrderState, restaurant: Restaurant, env: Env)
    ensures StatusMoves(st, Submit(st, restaurant, env).0)
  {
    SubmitEffect(st, restaurant, env);
  }

  lemma ScannedMoves(
      st: OrderState, product: Option<Product>, code: string, mode: MarkingScan.Mode, taken: multiset<string>,
      restaurant: Restaurant, env: Env)
    ensures StatusMoves(st, Scanned(st, product, code, mode, taken, restaurant, env).0)
  {
    ScannedEffect(st, product, code, mode, taken, restaurant, env);
  }

  lemma ItemsChangedMoves(st: OrderState, items: seq<Item>, restaurant: Restaurant, env: Env)
    ensures StatusMoves(st, ItemsChanged(st, items, restaurant, env).0)
  {
    var stored := ItemsChangedEffect(st, items, restaurant, env);
  }

  lemma TicketUpdatedMoves(st: OrderState, station: nat, status: TicketStatus, restaurant: Restaurant, env: Env)
    requires station in st.board.tickets
    ensures StatusMoves(st, TicketUpdated(st, station, status, restaurant, env))
  {
    var items := TicketUpdatedEffect(st, station, status, restaurant, env);
  }

  lemma ItemUpdatedMoves(st: OrderState, i: nat, status: ItemStatus, restaurant: Restaurant, env: Env)
    requires i < |st.board.items|
    ensures StatusMoves(st, ItemUpdated(st, i, status, restaurant, env).0)
  {
    ItemUpdatedEffect(st, i, status, restaurant, env);
  }

  lemma StepMoves(st: OrderState, action: Action, restaurant: Restaurant)
    ensures StatusMoves(st, Step(st, action, restaurant))
  {
    match action
    case DoSubmit(env) => SubmitMoves(st, restaurant, env);
    case DoScan(product, code, mode, taken, env) => ScannedMoves(st, product, code, mode, taken, restaurant, env);
    case DoChangeItems(items, env) => ItemsChangedMoves(st, items, restaurant, env);
    case DoTicket(station, status, env) =>
      if station in st.board.tickets { TicketUpdatedMoves(st, station, status, restaurant, env); }
    case DoItem(i, status, env) =>
      if i < |st.board.items| { ItemUpdatedMoves(st, i, status, restaurant, env); }
    case DoPay(charge, env) => ProcessedMoves(st, charge, restaurant, env);
  }

  lemma MovesOn(was: OrderState, next: OrderState, now: OrderState)
    requires StatusMoves(was, next) && StatusMoves(next, now)
    ensures StatusMoves(was, now)
  {
    if PaidSince(was.payments, next.payments) {
      var k :| |was.payments| <= k < |next.payments| && next.payments[k].succeeded;
      assert now.payments[k].succeeded;
    }
  }

  /** The same over every run: in particular, an order that it closes was paid in it. */
  lemma {:induction false} RunMoves(st: OrderState, calls: seq<Call>)
    ensures StatusMoves(st, Run(st, calls))
    decreases |calls|
  {
    if calls != [] {
      var next := Step(st, calls[0].action, calls[0].restaurant);
      StepMoves(st, calls[0].action, calls[0].restaurant);
      RunMoves(next, calls[1..]);
      MovesOn(st, next, Run(next, calls[1..]));
    }
  }
}
