/** The life of one order: scanning, submitting, cooking, paying
    (apps/sales/services/state.py, apps/kitchen/services, apps/billing/services/order_payment.py). */
module Orders {
  import opened Options
  import opened Arithmetic
  import opened OrderItems
  import opened Kitchen
  import MarkingScan

  datatype Payment = Payment(amount: nat, succeeded: bool)

  datatype OrderState = OrderState(
    board: Board, takeaway: bool, subtotal: nat, total: nat, payments: seq<Payment>)

  /** What one call meets outside: the clock, working printers, valid delivery details. */
  datatype Env = Env(now: int, paper: set<nat>, details: bool)

  /** The cash shift that a payment comes with. */
  datatype ShiftSeen = NoShift | ClosedShift | ShiftElsewhere | OpenShift

  /** A payment request: supported is a cash, card or QR method, enabled one that the cash desk takes, maySkip the
      permission to skip fiscal registration; ok is the provider's answer. */
  datatype Charge = Charge(
    amount: int, shift: ShiftSeen, supported: bool, enabled: bool, registerFiscal: bool, maySkip: bool, ok: bool)
  {
    predicate Acceptable() {
      shift == OpenShift && supported && amount > 0 && (registerFiscal || maySkip) && enabled
    }
  }

  datatype Verdict = Done | Refused | ChargeFailed

  function LiveTotal(item: Item): int { if item.IsActive() then item.lineTotal else 0 }

  function Subtotal(items: seq<Item>): nat {
    SumByNonNegative(items, LiveTotal);
    SumBy(items, LiveTotal)
  }

  /** Service fee, rounded as Python's round does; percent is in hundredths. */
  function Fee(subtotal: nat, percent: nat): nat {
    NonNegativeProduct(subtotal, percent);
    HalfEven(subtotal * percent, 10000)
  }

  function PaidOf(payment: Payment): int { if payment.succeeded then payment.amount else 0 }

  function SuccessOf(payment: Payment): int { if payment.succeeded then 1 else 0 }

  function Paid(payments: seq<Payment>): int { SumBy(payments, PaidOf) }

  function Successes(payments: seq<Payment>): int { SumBy(payments, SuccessOf) }

  predicate Mutable(status: OrderStatus) {
    status == Open || status == Submitted || status == Ready
  }

  // ----- What each operation does -----

  function Recalculated(st: OrderState, restaurant: Restaurant): OrderState {
    var subtotal := Subtotal(st.board.items);
    st.(subtotal := subtotal, total := subtotal + Fee(subtotal, restaurant.feePercent))
  }

  function Synced(st: OrderState, restaurant: Restaurant, env: Env): OrderState {
    st.(board := Sync(st.board, restaurant, env.now, env.paper))
  }

  function WithItems(st: OrderState, items: seq<Item>): OrderState {
    st.(board := st.board.(items := items))
  }

  /** OrderSubmissionService.submit followed by OrderStateService.submit_order */
  function Submit(st: OrderState, restaurant: Restaurant, env: Env): (OrderState, Verdict) {
    if MissingCount(st.board.items) > 0 || !Mutable(st.board.status) || !env.details then (st, Refused)
    else
      var status := if st.board.status == Open then Submitted else st.board.status;
      (Synced(st.(board := st.board.(status := status)), restaurant, env), Done)
  }

  function Scanned(
      st: OrderState, product: Option<Product>, code: string, mode: MarkingScan.Mode, taken: multiset<string>,
      restaurant: Restaurant, env: Env): (OrderState, Verdict)
  {
    if !Mutable(st.board.status) || product.None? then (st, Refused)
    else match MarkingScan.Scan(st.board.items, product.value, code, mode, restaurant, taken)
      case None => (st, Refused)
      case Some(items) => (Synced(Recalculated(WithItems(st, items), restaurant), restaurant, env), Done)
  }

  function Saved(items: seq<Item>): (r: seq<Item>)
    ensures AllPriced(r)
  {
    seq(|items|, i requires 0 <= i < |items| => items[i].(lineTotal := items[i].quantity * items[i].unitPrice))
  }

  /** Lines edited through the API, then sync_after_items_changed. */
  function ItemsChanged(st: OrderState, items: seq<Item>, restaurant: Restaurant, env: Env): (OrderState, Verdict) {
    if !Mutable(st.board.status) then (st, Refused)
    else
      var changed := Recalculated(WithItems(st, Saved(items)), restaurant);
      (if changed.board.status != Open then Synced(changed, restaurant, env) else changed, Done)
  }

  function ItemStatusFor(status: TicketStatus): ItemStatus {
    match status
    case TicketNew => ItemNew
    case TicketCooking => ItemCooking
    case TicketDone => ItemDone
  }

  function SetAt(items: seq<Item>, station: nat, status: ItemStatus): (r: seq<Item>)
    ensures |r| == |items|
    ensures forall i | 0 <= i < |items| ::
              r[i] == if ActiveAt(items[i], station) then items[i].(status := status) else items[i]
  {
    seq(|items|, i requires 0 <= i < |items| =>
      if ActiveAt(items[i], station) then items[i].(status := status) else items[i])
  }

  /** KitchenStatusService.update_ticket_status: no recalculation of totals. */
  function TicketUpdated(
      st: OrderState, station: nat, status: TicketStatus, restaurant: Restaurant, env: Env): OrderState
    requires station in st.board.tickets
  {
    var ticket := st.board.tickets[station].(
      status := status, completedAt := if status == TicketDone then Some(env.now) else None);
    var board := st.board.(
      items := SetAt(st.board.items, station, ItemStatusFor(status)), tickets := st.board.tickets[station := ticket]);
    Synced(st.(board := board), restaurant, env)
  }

  /** KitchenStatusService.update_item_status */
  function ItemUpdated(
      st: OrderState, i: nat, status: ItemStatus, restaurant: Restaurant, env: Env): (OrderState, Verdict)
    requires i < |st.board.items|
  {
    if status == ItemServed then (st, Refused)
    else
      var items := st.board.items[i := st.board.items[i].(status := status)];
      (Synced(Recalculated(WithItems(st, items), restaurant), restaurant, env), Done)
  }

  /** _complete_successful_payment, up to the fiscal receipts. */
  function Completed(st: OrderState, restaurant: Restaurant, env: Env): OrderState {
    var st' := if st.takeaway && st.board.status == Open then Submit(st, restaurant, env).0 else st;
    if Paid(st'.payments) >= st'.total then st'.(board := st'.board.(status := Closed)) else st'
  }

  /** OrderPaymentService.process; a refusal after the early submit keeps the submit. */
  function Processed(st: OrderState, charge: Charge, restaurant: Restaurant, env: Env): (OrderState, Verdict) {
    if !Mutable(st.board.status) || !env.details then (st, Refused)
    else
      var early := st.board.status == Open && !st.takeaway;
      var (st', verdict) := if early then Submit(st, restaurant, env) else (st, Done);
      if verdict != Done || !charge.Acceptable() || MissingCount(st'.board.items) > 0 then (st', Refused)
      else
        var remaining := Max(0, st'.total - Paid(st'.payments));
        if remaining > 0 && charge.amount < remaining then (st', Refused)
        else if !charge.ok then (st'.(payments := st'.payments + [Payment(charge.amount, false)]), ChargeFailed)
        else (Completed(st'.(payments := st'.payments + [Payment(charge.amount, true)]), restaurant, env), Done)
  }

  // ----- The services, changing the order in place -----

  class OrderDesk {
    const restaurant: Restaurant
    const takeaway: bool
    var status: OrderStatus
    var items: seq<Item>
    var tickets: map<nat, Ticket>
    var prints: multiset<nat>
    var subtotal: nat
    var total: nat
    var payments: seq<Payment>

    ghost function Seen(): Board
      reads this
    {
      Board(status, items, tickets, prints)
    }

    ghost function State(): OrderState
      reads this
    {
      OrderState(Seen(), takeaway, subtotal, total, payments)
    }

    constructor (restaurant: Restaurant, takeaway: bool)
      ensures this.restaurant == restaurant && this.takeaway == takeaway
      ensures State() == OrderState(Board(Open, [], map[], multiset{}), takeaway, 0, 0, [])
    {
      this.restaurant, this.takeaway := restaurant, takeaway;
      status, items, tickets, prints := Open, [], map[], multiset{};
      subtotal, total, payments := 0, 0, [];
    }

    /** A stored order, served under the restaurant's configuration as it is by now. */
    constructor Load(restaurant: Restaurant, stored: OrderState)
      ensures this.restaurant == restaurant && this.takeaway == stored.takeaway && State() == stored
    {
      this.restaurant, takeaway := restaurant, stored.takeaway;
      status, items, tickets, prints :=
        stored.board.status, stored.board.items, stored.board.tickets, stored.board.prints;
      subtotal, total, payments := stored.subtotal, stored.total, stored.payments;
    }

    method Recalculate()
      modifies this`subtotal, this`total
      ensures State() == Recalculated(old(State()), restaurant)
    {
      subtotal := 0;
      for i := 0 to |items|
        invariant subtotal == SumBy(items[..i], LiveTotal)
      {
        SumByTake(items, i, LiveTotal);
        if items[i].IsActive() {
          subtotal := subtotal + items[i].lineTotal;
        }
      }
      assert items[..|items|] == items;
      total := subtotal + Fee(subtotal, restaurant.feePercent);
    }

    method AssignMissingStations()
      modifies this`items
      ensures items == AssignStations(old(items), restaurant)
    {
      for i := 0 to |items|
        invariant |items| == |old(items)|
        invariant forall k | 0 <= k < |items| ::
                    items[k] == if k < i then Assigned(old(items)[k], restaurant) else old(items)[k]
      {
        if items[i].IsActive() && items[i].station.None? {
          var station := ResolveStation(items[i].product, restaurant);
          if station.Some? {
            items := items[i := items[i].(station := station)];
          }
        }
      }
    }

    /** The body of the station loop of OrderTicketSyncService.sync. */
    method SyncStation(station: nat, now: int, paper: set<nat>)
      modifies this`tickets, this`prints
      ensures tickets == old(tickets)[station := SyncedTicket(old(tickets), items, station, restaurant, now, paper)]
      ensures prints == MorePaper(old(prints), old(tickets), station, restaurant)
    {
      var route := RouteOf(station, restaurant);
      var wanted := TicketStatusOf(items, station);
      var created := station !in tickets;
      var ticket := if created then Ticket(wanted, route, None, false) else tickets[station];
      if !created && ticket.status != wanted {
        ticket := ticket.(status := wanted);
      }
      if ticket.route != route {
        ticket := ticket.(route := route);
      }
      if wanted == TicketDone && ticket.completedAt.None? {
        ticket := ticket.(completedAt := Some(now));
      }
      if wanted != TicketDone && ticket.completedAt.Some? {
        ticket := ticket.(completedAt := None);
      }
      if created && (route == Printer || route == Both) {
        prints := prints + multiset{station};
        ticket := ticket.(printed := station in paper);
      }
      tickets := tickets[station := ticket];
    }

    /** The station loop; the stations come in no particular order. */
    method SyncStations(stations: set<nat>, now: int, paper: set<nat>)
      modifies this`tickets, this`prints
      ensures tickets == PartlySynced(old(tickets), stations, items, restaurant, now, paper)
      ensures prints == PaperAfter(old(prints), old(tickets), stations, restaurant)
    {
      ghost var before := tickets;
      var todo := stations;
      PartlySyncedStart(before, items, restaurant, now, paper);
      PaperStart(prints, before, restaurant);
      assert stations - todo == {};
      while todo != {}
        invariant todo <= stations
        invariant tickets == PartlySynced(before, stations - todo, items, restaurant, now, paper)
        invariant prints == PaperAfter(old(prints), before, stations - todo, restaurant)
        decreases todo
      {
        var station :| station in todo;
        PartlySyncedStep(before, stations - todo, station, items, restaurant, now, paper);
        PaperStep(old(prints), before, stations - todo, station, restaurant);
        SamePaper(prints, before, tickets, station, restaurant);
        assert stations - (todo - {station}) == stations - todo + {station};
        SyncStation(station, now, paper);
        todo := todo - {station};
      }
      assert stations - {} == stations;
    }

    /** OrderTicketSyncService.sync */
    method SyncTickets(now: int, paper: set<nat>)
      modifies this`status, this`items, this`tickets, this`prints
      ensures Seen() == Sync(old(Seen()), restaurant, now, paper)
    {
      if status == Open {
        tickets := map[];
        return;
      }
      AssignMissingStations();
      var stations := Stations(items);
      tickets := map s | s in tickets && s in stations :: tickets[s];
      KeptTicketsSuffice(old(tickets), stations, items, restaurant, now, paper);
      SyncStations(stations, now, paper);
      status := StatusAfter(status, items);
    }

    method SubmitOrder(env: Env) returns (verdict: Verdict)
      modifies this
      ensures (State(), verdict) == Submit(old(State()), restaurant, env)
    {
      var missing := MissingTotal(items);
      if missing > 0 || !Mutable(status) || !env.details {
        return Refused;
      }
      if status == Open {
        status := Submitted;
      }
      SyncTickets(env.now, env.paper);
      verdict := Done;
    }

    /** OrderMarkingScanService.scan, given the product that the code leads to. */
    method ScanCode(product: Option<Product>, code: string, mode: MarkingScan.Mode, taken: multiset<string>, env: Env)
      returns (verdict: Verdict)
      modifies this
      ensures (State(), verdict) == Scanned(old(State()), product, code, mode, taken, restaurant, env)
    {
      if !Mutable(status) || product.None? {
        return Refused;
      }
      var scanned := MarkingScan.Scan(items, product.value, code, mode, restaurant, taken);
      if scanned.None? {
        return Refused;
      }
      items := scanned.value;
      Recalculate();
      SyncTickets(env.now, env.paper);
      verdict := Done;
    }

    method ChangeItems(changed: seq<Item>, env: Env) returns (verdict: Verdict)
      modifies this
      ensures (State(), verdict) == ItemsChanged(old(State()), changed, restaurant, env)
    {
      if !Mutable(status) {
        return Refused;
      }
      items := Saved(changed);
      Recalculate();
      if status != Open {
        SyncTickets(env.now, env.paper);
      }
      verdict := Done;
    }

    method UpdateTicketStatus(station: nat, wanted: TicketStatus, env: Env)
      requires station in tickets
      modifies this
      ensures State() == TicketUpdated(old(State()), station, wanted, restaurant, env)
    {
      for i := 0 to |items|
        invariant |items| == |old(items)|
        invariant forall k | 0 <= k < |items| ::
                    items[k] == if k < i then SetAt(old(items), station, ItemStatusFor(wanted))[k] else old(items)[k]
        invariant tickets == old(tickets) && status == old(status) && prints == old(prints)
        invariant subtotal == old(subtotal) && total == old(total) && payments == old(payments)
      {
        if ActiveAt(items[i], station) {
          items := items[i := items[i].(status := ItemStatusFor(wanted))];
        }
      }
      tickets := tickets[station :=
        tickets[station].(status := wanted, completedAt := if wanted == TicketDone then Some(env.now) else None)];
      assert items == SetAt(old(items), station, ItemStatusFor(wanted));
      SyncTickets(env.now, env.paper);
    }

    method UpdateItemStatus(i: nat, wanted: ItemStatus, env: Env) returns (verdict: Verdict)
      requires i < |items|
      modifies this
      ensures (State(), verdict) == ItemUpdated(old(State()), i, wanted, restaurant, env)
    {
      if wanted == ItemServed {
        return Refused;
      }
      items := items[i := items[i].(status := wanted)];
      Recalculate();
      SyncTickets(env.now, env.paper);
      verdict := Done;
    }

    method PaidTotal() returns (sum: nat)
      ensures sum == Paid(payments)
    {
      sum := 0;
      for i := 0 to |payments|
        invariant sum == Paid(payments[..i])
      {
        SumByTake(payments, i, PaidOf);
        if payments[i].succeeded {
          sum := sum + payments[i].amount;
        }
      }
      assert payments[..|payments|] == payments;
    }

    method Process(charge: Charge, env: Env) returns (verdict: Verdict)
      modifies this
      ensures (State(), verdict) == Processed(old(State()), charge, restaurant, env)
    {
      if !Mutable(status) || !env.details {
        return Refused;
      }
      if status == Open && !takeaway {
        var submitted := SubmitOrder(env);
        if submitted != Done {
          return Refused;
        }
      }
      if charge.shift == NoShift || charge.shift == ClosedShift || charge.shift == ShiftElsewhere {
        return Refused;
      }
      if !charge.supported || charge.amount <= 0 {
        return Refused;
      }
      if !charge.registerFiscal && !charge.maySkip {
        return Refused;
      }
      var missing := MissingTotal(items);
      if missing > 0 {
        return Refused;
      }
      if !charge.enabled {
        return Refused;
      }
      var paid := PaidTotal();
      var remaining := Max(0, total - paid);
      if remaining > 0 && charge.amount < remaining {
        return Refused;
      }
      payments := payments + [Payment(charge.amount, charge.ok)];
      if !charge.ok {
        return ChargeFailed;
      }
      Complete(env);
      verdict := Done;
    }

    /** _complete_successful_payment, up to the fiscal receipts. */
    method Complete(env: Env)
      modifies this
      ensures State() == Completed(old(State()), restaurant, env)
    {
      if takeaway && status == Open {
        var _ := SubmitOrder(env);
      }
      var paid := PaidTotal();
      if paid >= total {
        status := Closed;
      }
    }
  }

  /** Dropping the tickets of other stations first and then looping over the stations is a whole sync. */
  lemma KeptTicketsSuffice(
      tickets: map<nat, Ticket>, stations: set<nat>, items: seq<Item>, restaurant: Restaurant, now: int,
      paper: set<nat>)
    ensures var kept := map s | s in tickets && s in stations :: tickets[s];
            && FreshlyPrinted(kept, stations, restaurant) == FreshlyPrinted(tickets, stations, restaurant)
            && PartlySynced(kept, stations, items, restaurant, now, paper)
               == (map s | s in stations :: SyncedTicket(tickets, items, s, restaurant, now, paper))
  {
  }

  /** The tickets half way through the station loop. */
  ghost function PartlySynced(
      before: map<nat, Ticket>, done: set<nat>, items: seq<Item>, restaurant: Restaurant, now: int, paper: set<nat>)
    : map<nat, Ticket>
  {
    map s | s in before.Keys + done ::
        if s in done then SyncedTicket(before, items, s, restaurant, now, paper) else before[s]
  }

  lemma PartlySyncedStart(before: map<nat, Ticket>, items: seq<Item>, restaurant: Restaurant, now: int, paper: set<nat>)
    ensures PartlySynced(before, {}, items, restaurant, now, paper) == before
  {
  }

  lemma PartlySyncedStep(
      before: map<nat, Ticket>, done: set<nat>, station: nat, items: seq<Item>, restaurant: Restaurant, now: int,
      paper: set<nat>)
    requires station !in done
    ensures var tickets := PartlySynced(before, done, items, restaurant, now, paper);
            && tickets[station := SyncedTicket(tickets, items, station, restaurant, now, paper)]
               == PartlySynced(before, done + {station}, items, restaurant, now, paper)
            && (station in tickets <==> station in before)
  {
  }

  function MorePaper(
      prints: multiset<nat>, tickets: map<nat, Ticket>, station: nat, restaurant: Restaurant): multiset<nat>
  {
    if station !in tickets && station in restaurant.printers then prints + multiset{station} else prints
  }

  ghost function PaperAfter(
      prints: multiset<nat>, tickets: map<nat, Ticket>, done: set<nat>, restaurant: Restaurant): multiset<nat>
  {
    prints + OneEach(FreshlyPrinted(tickets, done, restaurant))
  }

  lemma PaperStart(prints: multiset<nat>, tickets: map<nat, Ticket>, restaurant: Restaurant)
    ensures PaperAfter(prints, tickets, {}, restaurant) == prints
  {
  }

  lemma PaperStep(
      prints: multiset<nat>, tickets: map<nat, Ticket>, done: set<nat>, station: nat, restaurant: Restaurant)
    requires station !in done
    ensures PaperAfter(prints, tickets, done + {station}, restaurant)
            == MorePaper(PaperAfter(prints, tickets, done, restaurant), tickets, station, restaurant)
  {
  }

  lemma SamePaper(
      prints: multiset<nat>, before: map<nat, Ticket>, tickets: map<nat, Ticket>, station: nat, restaurant: Restaurant)
    requires station in tickets <==> station in before
    ensures MorePaper(prints, before, station, restaurant) == MorePaper(prints, tickets, station, restaurant)
  {
  }

  // ----- What every operation keeps -----

  /** The subtotal is that of the lines, and the fee on it was taken at some percentage: the one of the time. */
  ghost predicate TotalsMatch(st: OrderState) {
    && st.subtotal == Subtotal(st.board.items)
    && exists percent: nat :: st.total == st.subtotal + Fee(st.subtotal, percent)
  }

  ghost predicate PaymentsSafe(st: OrderState) {
    && 0 <= Successes(st.payments) <= 1
    && (Successes(st.payments) > 0 ==> st.board.status == Closed)
  }

  /** Cancelled orders come from outside these services, so nothing is asked of their tickets. */
  ghost predicate Valid(st: OrderState) {
    && AllPriced(st.board.items)
    && TotalsMatch(st)
    && PaymentsSafe(st)
    && (st.board.status == Open ==> st.board.tickets == map[])
    && (st.board.status != Open && st.board.status != Cancelled ==> TicketsMatch(st.board))
    && ReadyMatches(st.board)
  }

  /** The order is up to date with the restaurant's configuration: its fee and its stations. */
  ghost predicate Current(st: OrderState, restaurant: Restaurant) {
    && st.total == st.subtotal + Fee(st.subtotal, restaurant.feePercent)
    && (st.board.status != Open && st.board.status != Cancelled ==> Settled(st.board, restaurant))
  }

  lemma SubtotalAgrees(a: seq<Item>, b: seq<Item>)
    requires |a| == |b|
    requires forall i | 0 <= i < |a| :: a[i].IsActive() == b[i].IsActive() && a[i].lineTotal == b[i].lineTotal
    ensures Subtotal(a) == Subtotal(b)
  {
    PairedSums(a, b, LiveTotal, LiveTotal);
  }

  /** A sync moves no money and leaves the payments alone. */
  lemma SyncKeepsMoney(st: OrderState, restaurant: Restaurant, env: Env)
    ensures var after := Synced(st, restaurant, env);
            && Subtotal(after.board.items) == Subtotal(st.board.items)
            && (AllPriced(st.board.items) ==> AllPriced(after.board.items))
            && |after.board.items| == |st.board.items|
  {
    if st.board.status != Open {
      SubtotalAgrees(AssignStations(st.board.items, restaurant), st.board.items);
    }
  }

  /** Recalculate-then-sync and sync alone both end in a valid state. */
  lemma SyncedValid(st: OrderState, restaurant: Restaurant, env: Env)
    requires AllPriced(st.board.items) && TotalsMatch(st) && PaymentsSafe(st)
    ensures Valid(Synced(st, restaurant, env))
  {
    SyncKeepsMoney(st, restaurant, env);
    SyncMatches(st.board, restaurant, env.now, env.paper);
  }

  lemma RecalculatedMatch(st: OrderState, restaurant: Restaurant)
    ensures TotalsMatch(Recalculated(st, restaurant))
  {
    var after := Recalculated(st, restaurant);
    assert after.total == after.subtotal + Fee(after.subtotal, restaurant.feePercent);
  }

  lemma SubmitValid(st: OrderState, restaurant: Restaurant, env: Env)
    requires Valid(st)
    ensures Valid(Submit(st, restaurant, env).0)
    ensures Submit(st, restaurant, env).0.total == st.total && Submit(st, restaurant, env).0.payments == st.payments
    ensures Submit(st, restaurant, env).1 == Done ==> Submit(st, restaurant, env).0.board.status in {Submitted, Ready}
  {
    var (after, verdict) := Submit(st, restaurant, env);
    if verdict == Done {
      var status := if st.board.status == Open then Submitted else st.board.status;
      SyncedValid(st.(board := st.board.(status := status)), restaurant, env);
    }
  }

  lemma ScannedValid(
      st: OrderState, product: Option<Product>, code: string, mode: MarkingScan.Mode, taken: multiset<string>,
      restaurant: Restaurant, env: Env)
    requires Valid(st)
    ensures Valid(Scanned(st, product, code, mode, taken, restaurant, env).0)
  {
    if Mutable(st.board.status) && product.Some? {
      var scanned := MarkingScan.Scan(st.board.items, product.value, code, mode, restaurant, taken);
      if scanned.Some? {
        MarkingScan.ScanKeepsPriced(st.board.items, product.value, code, mode, restaurant, taken);
        RecalculatedMatch(WithItems(st, scanned.value), restaurant);
        SyncedValid(Recalculated(WithItems(st, scanned.value), restaurant), restaurant, env);
      }
    }
  }

  lemma ItemsChangedValid(st: OrderState, items: seq<Item>, restaurant: Restaurant, env: Env)
    requires Valid(st)
    ensures Valid(ItemsChanged(st, items, restaurant, env).0)
  {
    RecalculatedMatch(WithItems(st, Saved(items)), restaurant);
    if Mutable(st.board.status) && st.board.status != Open {
      SyncedValid(Recalculated(WithItems(st, Saved(items)), restaurant), restaurant, env);
    }
  }

  /** A ticket update keeps the totals without recalculating them, and the ticket ends up as requested. */
  lemma TicketUpdatedValid(st: OrderState, station: nat, status: TicketStatus, restaurant: Restaurant, env: Env)
    requires Valid(st) && station in st.board.tickets
    ensures var after := TicketUpdated(st, station, status, restaurant, env);
            && Valid(after)
            && after.subtotal == st.subtotal && after.total == st.total
  {
    var items := SetAt(st.board.items, station, ItemStatusFor(status));
    SubtotalAgrees(items, st.board.items);
    var ticket := st.board.tickets[station].(
      status := status, completedAt := if status == TicketDone then Some(env.now) else None);
    SyncedValid(st.(board := st.board.(items := items, tickets := st.board.tickets[station := ticket])), restaurant,
        env);
  }

  /** Setting the status of a station's items leaves every line where it was assigned. */
  lemma SetAtSettled(items: seq<Item>, station: nat, status: ItemStatus, restaurant: Restaurant)
    requires AssignStations(items, restaurant) == items && status != ItemCancelled
    ensures AssignStations(SetAt(items, station, status), restaurant) == SetAt(items, station, status)
  {
  }

  lemma SetAtStatus(items: seq<Item>, station: nat, status: TicketStatus)
    requires station in Stations(items)
    ensures TicketStatusOf(SetAt(items, station, ItemStatusFor(status)), station) == status
    ensures station in Stations(SetAt(items, station, ItemStatusFor(status)))
  {
  }

  lemma TicketEndsAsRequested(st: OrderState, station: nat, status: TicketStatus, restaurant: Restaurant, env: Env)
    requires Valid(st) && Current(st, restaurant) && st.board.status != Cancelled && station in st.board.tickets
    ensures var after := TicketUpdated(st, station, status, restaurant, env).board;
            station in after.tickets && after.tickets[station].status == status
  {
    SetAtSettled(st.board.items, station, ItemStatusFor(status), restaurant);
    SetAtStatus(st.board.items, station, status);
  }

  lemma ItemUpdatedValid(st: OrderState, i: nat, status: ItemStatus, restaurant: Restaurant, env: Env)
    requires Valid(st) && i < |st.board.items|
    ensures Valid(ItemUpdated(st, i, status, restaurant, env).0)
  {
    if status != ItemServed {
      var items := st.board.items[i := st.board.items[i].(status := status)];
      RecalculatedMatch(WithItems(st, items), restaurant);
      SyncedValid(Recalculated(WithItems(st, items), restaurant), restaurant, env);
    }
  }

  lemma {:induction false} NoSuccessNoMoney(payments: seq<Payment>)
    ensures Successes(payments) >= 0 && Paid(payments) >= 0
    ensures Successes(payments) == 0 ==> Paid(payments) == 0
  {
    if payments != [] {
      NoSuccessNoMoney(payments[1..]);
    }
  }

  /** A successful charge settles the order: it was unpaid before, and is closed and paid in full after. */
  lemma ChargeSettles(st: OrderState, charge: Charge, restaurant: Restaurant, env: Env)
    requires Valid(st)
    ensures var (after, verdict) := Processed(st, charge, restaurant, env);
            && Valid(after)
            && (verdict == Done ==>
                  && Successes(st.payments) == 0 && Successes(after.payments) == 1
                  && after.board.status == Closed && Paid(after.payments) >= after.total)
            && (verdict != Done ==> Successes(after.payments) == Successes(st.payments))
  {
    var (after, verdict) := Processed(st, charge, restaurant, env);
    if Mutable(st.board.status) && env.details {
      SubmitValid(st, restaurant, env);
      NoSuccessNoMoney(st.payments);
      var early := st.board.status == Open && !st.takeaway;
      var st' := if early then Submit(st, restaurant, env).0 else st;
      if charge.amount >= 0 {
        SumBySnoc(st'.payments, Payment(charge.amount, charge.ok), PaidOf);
        SumBySnoc(st'.payments, Payment(charge.amount, charge.ok), SuccessOf);
      }
      if verdict == Done {
        CompletedValid(st', charge, restaurant, env);
      }
    }
  }

  lemma CompletedValid(st: OrderState, charge: Charge, restaurant: Restaurant, env: Env)
    requires Valid(st) && Successes(st.payments) == 0 && Mutable(st.board.status)
    requires st.board.status == Open ==> st.takeaway
    requires charge.amount >= 0 && charge.amount >= st.total && Paid(st.payments) == 0
    requires MissingCount(st.board.items) == 0 && env.details
    ensures var after := Completed(st.(payments := st.payments + [Payment(charge.amount, true)]), restaurant, env);
            && Valid(after) && after.board.status == Closed
            && after.payments == st.payments + [Payment(charge.amount, true)] && after.total == st.total
  {
    SumBySnoc(st.payments, Payment(charge.amount, true), PaidOf);
    SumBySnoc(st.payments, Payment(charge.amount, true), SuccessOf);
    if st.board.status == Open {
      SubmitValid(st, restaurant, env);
    }
  }

  // ----- Every run -----

  datatype Action =
    | DoSubmit(env: Env)
    | DoScan(product: Option<Product>, code: string, mode: MarkingScan.Mode, taken: multiset<string>, env: Env)
    | DoChangeItems(items: seq<Item>, env: Env)
    | DoTicket(station: nat, ticketStatus: TicketStatus, env: Env)
    | DoItem(i: nat, itemStatus: ItemStatus, env: Env)
    | DoPay(charge: Charge, env: Env)

  function Step(st: OrderState, action: Action, restaurant: Restaurant): OrderState {
    match action
    case DoSubmit(env) => Submit(st, restaurant, env).0
    case DoScan(product, code, mode, taken, env) => Scanned(st, product, code, mode, taken, restaurant, env).0
    case DoChangeItems(items, env) => ItemsChanged(st, items, restaurant, env).0
    case DoTicket(station, status, env) =>
      if station in st.board.tickets then TicketUpdated(st, station, status, restaurant, env) else st
    case DoItem(i, status, env) =>
      if i < |st.board.items| then ItemUpdated(st, i, status, restaurant, env).0 else st
    case DoPay(charge, env) => Processed(st, charge, restaurant, env).0
  }

  lemma StepValid(st: OrderState, action: Action, restaurant: Restaurant)
    requires Valid(st)
    ensures Valid(Step(st, action, restaurant))
  {
    match action
    case DoSubmit(env) => SubmitValid(st, restaurant, env);
    case DoScan(product, code, mode, taken, env) => ScannedValid(st, product, code, mode, taken, restaurant, env);
    case DoChangeItems(items, env) => ItemsChangedValid(st, items, restaurant, env);
    case DoTicket(station, status, env) =>
      if station in st.board.tickets { TicketUpdatedValid(st, station, status, restaurant, env); }
    case DoItem(i, status, env) =>
      if i < |st.board.items| { ItemUpdatedValid(st, i, status, restaurant, env); }
    case DoPay(charge, env) => ChargeSettles(st, charge, restaurant, env);
  }

  /** A closed order stays closed and takes no further payment. */
  lemma ClosedAbsorbs(st: OrderState, action: Action, restaurant: Restaurant)
    requires st.board.status == Closed
    ensures var after := Step(st, action, restaurant);
            after.board.status == Closed && after.payments == st.payments
  {
  }

  /** A call of a service, and the restaurant's configuration as it is by then. */
  datatype Call = Call(action: Action, restaurant: Restaurant)

  function Run(st: OrderState, calls: seq<Call>): OrderState
    decreases |calls|
  {
    if calls == [] then st else Run(Step(st, calls[0].action, calls[0].restaurant), calls[1..])
  }

  /** Over every run, also if the fee, the stations or the printers change between the calls: totals match the lines,
      tickets match the items, and no order is paid twice. */
  lemma {:induction false} RunValid(st: OrderState, calls: seq<Call>)
    requires Valid(st)
    ensures Valid(Run(st, calls))
    ensures st.board.status == Closed ==>
              Run(st, calls).board.status == Closed && Run(st, calls).payments == st.payments
    decreases |calls|
  {
    if calls != [] {
      StepValid(st, calls[0].action, calls[0].restaurant);
      if st.board.status == Closed {
        ClosedAbsorbs(st, calls[0].action, calls[0].restaurant);
      }
      RunValid(Step(st, calls[0].action, calls[0].restaurant), calls[1..]);
    }
  }

  lemma FreshOrderValid(takeaway: bool, restaurant: Restaurant)
    ensures Valid(OrderState(Board(Open, [], map[], multiset{}), takeaway, 0, 0, []))
    ensures Current(OrderState(Board(Open, [], map[], multiset{}), takeaway, 0, 0, []), restaurant)
  {
    assert 0 == 0 + Fee(0, restaurant.feePercent);
  }

  // ----- As long as the configuration stays -----

  lemma SyncedCurrent(st: OrderState, restaurant: Restaurant, env: Env)
    requires st.total == st.subtotal + Fee(st.subtotal, restaurant.feePercent)
    ensures Current(Synced(st, restaurant, env), restaurant)
  {
    if st.board.status != Open {
      SyncSettles(st.board, restaurant, env.now, env.paper);
    }
  }

  lemma SubmitCurrent(st: OrderState, restaurant: Restaurant, env: Env)
    requires Current(st, restaurant)
    ensures Current(Submit(st, restaurant, env).0, restaurant)
  {
    var status := if st.board.status == Open then Submitted else st.board.status;
    SyncedCurrent(st.(board := st.board.(status := status)), restaurant, env);
  }

  lemma ProcessedCurrent(st: OrderState, charge: Charge, restaurant: Restaurant, env: Env)
    requires Valid(st) && Current(st, restaurant)
    ensures Current(Processed(st, charge, restaurant, env).0, restaurant)
  {
    SubmitCurrent(st, restaurant, env);
    SubmitValid(st, restaurant, env);
    var (after, verdict) := Processed(st, charge, restaurant, env);
    if verdict == Done {
      var early := st.board.status == Open && !st.takeaway;
      var st' := if early then Submit(st, restaurant, env).0 else st;
      var paid := st'.(payments := st'.payments + [Payment(charge.amount, true)]);
      SubmitCurrent(paid, restaurant, env);
      CompletedCurrent(st, charge, restaurant, env);
    }
  }

  /** A charge that completes an order closes it, whether it was submitted early, late or before. */
  lemma CompletedCurrent(st: OrderState, charge: Charge, restaurant: Restaurant, env: Env)
    requires Valid(st) && Processed(st, charge, restaurant, env).1 == Done
    ensures Processed(st, charge, restaurant, env).0.board.status == Closed
  {
    ChargeSettles(st, charge, restaurant, env);
  }

  lemma StepCurrent(st: OrderState, action: Action, restaurant: Restaurant)
    requires Valid(st) && Current(st, restaurant)
    ensures Current(Step(st, action, restaurant), restaurant)
  {
    match action
    case DoSubmit(env) => SubmitCurrent(st, restaurant, env);
    case DoScan(product, code, mode, taken, env) =>
      if Mutable(st.board.status) && product.Some? {
        var scanned := MarkingScan.Scan(st.board.items, product.value, code, mode, restaurant, taken);
        if scanned.Some? {
          SyncedCurrent(Recalculated(WithItems(st, scanned.value), restaurant), restaurant, env);
        }
      }
    case DoChangeItems(items, env) =>
      SyncedCurrent(Recalculated(WithItems(st, Saved(items)), restaurant), restaurant, env);
    case DoTicket(station, status, env) =>
      if station in st.board.tickets {
        var ticket := st.board.tickets[station].(
          status := status, completedAt := if status == TicketDone then Some(env.now) else None);
        SyncedCurrent(st.(board := st.board.(items := SetAt(st.board.items, station, ItemStatusFor(status)),
          tickets := st.board.tickets[station := ticket])), restaurant, env);
      }
    case DoItem(i, status, env) =>
      if i < |st.board.items| && status != ItemServed {
        var items := st.board.items[i := st.board.items[i].(status := status)];
        SyncedCurrent(Recalculated(WithItems(st, items), restaurant), restaurant, env);
      }
    case DoPay(charge, env) => ProcessedCurrent(st, charge, restaurant, env);
  }

  /** As long as the configuration stays as it is, totals carry its fee and every active item has the station it could
      have. */
  lemma {:induction false} RunCurrent(st: OrderState, calls: seq<Call>, restaurant: Restaurant)
    requires Valid(st) && Current(st, restaurant) && forall k | 0 <= k < |calls| :: calls[k].restaurant == restaurant
    ensures Current(Run(st, calls), restaurant)
    decreases |calls|
  {
    if calls != [] {
      assert calls[0].restaurant == restaurant;
      assert forall k | 0 <= k < |calls[1..]| :: calls[1..][k] == calls[k + 1];
      StepValid(st, calls[0].action, restaurant);
      StepCurrent(st, calls[0].action, restaurant);
      RunCurrent(Step(st, calls[0].action, restaurant), calls[1..], restaurant);
    }
  }

  // ----- Whether a payment still covers its order -----

  lemma FeeMonotone(less: nat, more: nat, percent: nat)
    requires less <= more
    ensures Fee(less, percent) <= Fee(more, percent)
  {
    NonNegativeProduct(less, percent);
    NonNegativeProduct(more - less, percent);
    assert more * percent == less * percent + (more - less) * percent;
    HalfEvenMonotone(less * percent, more * percent, 10000);
  }

  predicate Covered(st: OrderState) {
    st.board.status == Closed && Paid(st.payments) >= st.total
  }

  /** The subtotal once line i has this status. */
  function SubtotalWith(st: OrderState, i: nat, status: ItemStatus): int
    requires i < |st.board.items|
  {
    st.subtotal - LiveTotal(st.board.items[i]) + LiveTotal(st.board.items[i].(status := status))
  }

  /** An item update after which the lines, with the fee as it is now, cost more than was paid. */
  predicate Outgrows(st: OrderState, action: Action, restaurant: Restaurant) {
    && action.DoItem? && action.i < |st.board.items| && action.itemStatus != ItemServed
    && var subtotal := Max(0, SubtotalWith(st, action.i, action.itemStatus));
       subtotal + Fee(subtotal, restaurant.feePercent) > Paid(st.payments)
  }

  lemma ItemUpdateTotals(st: OrderState, i: nat, status: ItemStatus, restaurant: Restaurant, env: Env)
    requires Valid(st) && i < |st.board.items| && status != ItemServed
    ensures var after := ItemUpdated(st, i, status, restaurant, env).0;
            && after.payments == st.payments
            && after.subtotal == SubtotalWith(st, i, status)
            && after.total == after.subtotal + Fee(after.subtotal, restaurant.feePercent)
  {
    SumByUpdate(st.board.items, i, st.board.items[i].(status := status), LiveTotal);
  }

  /** A paid order stays covered by its payment, step by step, exactly as long as no step outgrows it. */
  lemma CoverKeptIff(st: OrderState, action: Action, restaurant: Restaurant)
    requires Valid(st) && Covered(st)
    ensures Covered(Step(st, action, restaurant)) <==> !Outgrows(st, action, restaurant)
  {
    ClosedAbsorbs(st, action, restaurant);
    if action.DoItem? && action.i < |st.board.items| && action.itemStatus != ItemServed {
      ItemUpdateTotals(st, action.i, action.itemStatus, restaurant, action.env);
    } else if action.DoTicket? && action.station in st.board.tickets {
      TicketUpdatedValid(st, action.station, action.ticketStatus, restaurant, action.env);
    }
  }

  /** As long as the fee stays as it was taken, an update outgrows the payment exactly when it brings a cancelled line
      back whose price the payment does not cover on top of the rest. */
  lemma {:induction false} SameFeeOutgrowsIff(
      st: OrderState, i: nat, status: ItemStatus, restaurant: Restaurant, env: Env)
    requires Valid(st) && Current(st, restaurant) && Covered(st) && i < |st.board.items| && status != ItemServed
    ensures var item := st.board.items[i];
            Outgrows(st, DoItem(i, status, env), restaurant) <==>
              && item.status == ItemCancelled && status != ItemCancelled
              && var subtotal := st.subtotal + item.lineTotal;
                 subtotal + Fee(subtotal, restaurant.feePercent) > Paid(st.payments)
  {
    var item := st.board.items[i];
    ItemUpdateTotals(st, i, status, restaurant, env);
    if item.status != ItemCancelled || status == ItemCancelled {
      FeeMonotone(SubtotalWith(st, i, status), st.subtotal, restaurant.feePercent);
    }
  }

  ghost predicate NeverOutgrown(st: OrderState, calls: seq<Call>)
    decreases |calls|
  {
    calls == []
    || (!Outgrows(st, calls[0].action, calls[0].restaurant)
        && NeverOutgrown(Step(st, calls[0].action, calls[0].restaurant), calls[1..]))
  }

  /** The order is covered after each of the calls. */
  ghost predicate AlwaysCovered(st: OrderState, calls: seq<Call>)
    decreases |calls|
  {
    Covered(st) && (calls == [] || AlwaysCovered(Step(st, calls[0].action, calls[0].restaurant), calls[1..]))
  }

  /** Over a whole run, also if the fee changes in it, the payment covers the order throughout exactly when no step of
      the run outgrows it. */
  lemma {:induction false} RunCoveredIff(st: OrderState, calls: seq<Call>)
    requires Valid(st) && Covered(st)
    ensures AlwaysCovered(st, calls) <==> NeverOutgrown(st, calls)
    decreases |calls|
  {
    if calls != [] {
      var after := Step(st, calls[0].action, calls[0].restaurant);
      CoverKeptIff(st, calls[0].action, calls[0].restaurant);
      StepValid(st, calls[0].action, calls[0].restaurant);
      if Covered(after) {
        RunCoveredIff(after, calls[1..]);
      } else {
        assert !AlwaysCovered(after, calls[1..]);
      }
    }
  }

  // ----- A run that outgrows its payment -----

  /** An order of a single line that needs no marking code and costs 500. */
  ghost predicate OneLine(st: OrderState, status: OrderStatus, itemStatus: ItemStatus) {
    && st.board.status == status && !st.takeaway && |st.board.items| == 1
    && var line := st.board.items[0];
       line.status == itemStatus && line.lineTotal == 500 && !line.product.marked
  }

  lemma OneLineMissesNothing(st: OrderState, status: OrderStatus, itemStatus: ItemStatus)
    requires OneLine(st, status, itemStatus)
    ensures MissingCount(st.board.items) == 0
  {
    assert st.board.items == [st.board.items[0]];
    SumByOne(st.board.items[0], MissingOf);
  }

  lemma OneLineSubtotal(items: seq<Item>)
    requires |items| == 1 && items[0].lineTotal == 500
    ensures Subtotal(items) == if items[0].IsActive() then 500 else 0
  {
    assert items == [items[0]];
    SumByOne(items[0], LiveTotal);
  }

  lemma SubmitOneLine(st: OrderState, restaurant: Restaurant, env: Env)
    requires OneLine(st, Open, ItemNew) && env.details
    ensures OneLine(Submit(st, restaurant, env).0, Submitted, ItemNew)
    ensures Submit(st, restaurant, env).0.payments == st.payments
  {
    OneLineMissesNothing(st, Open, ItemNew);
    var items := AssignStations(st.board.items, restaurant);
    assert items[0].IsActive() && items[0].status != ItemDone;
  }

  lemma UpdateOneLine(
      st: OrderState, status: OrderStatus, was: ItemStatus, now: ItemStatus, restaurant: Restaurant, env: Env)
    requires OneLine(st, status, was) && status in {Submitted, Closed} && now in {ItemNew, ItemCancelled, ItemDone}
    requires now == ItemDone ==> status == Closed
    ensures var after := ItemUpdated(st, 0, now, restaurant, env).0;
            && OneLine(after, status, now) && after.payments == st.payments
            && after.total == if now == ItemCancelled then 0 else 500 + Fee(500, restaurant.feePercent)
  {
    var items := st.board.items[0 := st.board.items[0].(status := now)];
    OneLineSubtotal(items);
    HalfEvenNearest(0, 10000);
    var settled := AssignStations(items, restaurant);
    assert settled[0].status == now;
    assert AnyActive(settled) <==> now != ItemCancelled;
  }

  lemma PayNothingDue(st: OrderState, restaurant: Restaurant, env: Env, charge: Charge)
    requires OneLine(st, Submitted, ItemCancelled) && st.payments == [] && st.total == 0 && env.details
    requires charge.Acceptable() && charge.ok
    ensures var after := Processed(st, charge, restaurant, env).0;
            OneLine(after, Closed, ItemCancelled) && after.payments == [Payment(charge.amount, true)]
  {
    OneLineMissesNothing(st, Submitted, ItemCancelled);
    assert st.payments + [Payment(charge.amount, true)] == [Payment(charge.amount, true)];
    SumByOne(Payment(charge.amount, true), PaidOf);
  }

  lemma {:induction false} RunCons(st: OrderState, action: Action, restaurant: Restaurant, rest: seq<Call>)
    ensures Run(st, [Call(action, restaurant)] + rest) == Run(Step(st, action, restaurant), rest)
  {
    assert ([Call(action, restaurant)] + rest)[1..] == rest;
  }

  /** Two calls under one configuration, then whatever comes. */
  lemma {:induction false} RunTwo(st: OrderState, a: Action, b: Action, restaurant: Restaurant, rest: seq<Call>)
    ensures Run(st, [Call(a, restaurant), Call(b, restaurant)] + rest)
         == Run(Step(Step(st, a, restaurant), b, restaurant), rest)
  {
    RunCons(st, a, restaurant, [Call(b, restaurant)] + rest);
    RunCons(Step(st, a, restaurant), b, restaurant, rest);
    assert [Call(a, restaurant), Call(b, restaurant)] + rest == [Call(a, restaurant)] + ([Call(b, restaurant)] + rest);
  }

  lemma AddOneLine(line: Item, restaurant: Restaurant, env: Env)
    requires line.quantity == 1 && line.unitPrice == 500 && line.status == ItemNew && !line.product.marked
    ensures var empty := OrderState(Board(Open, [], map[], multiset{}), false, 0, 0, []);
            var after := ItemsChanged(empty, [line], restaurant, env).0;
            OneLine(after, Open, ItemNew) && after.payments == []
  {
    assert Saved([line])[0].lineTotal == 500;
  }

  lemma PaidOnce(amount: nat)
    ensures Paid([Payment(amount, true)]) == amount && Successes([Payment(amount, true)]) == 1
  {
    SumByOne(Payment(amount, true), PaidOf);
    SumByOne(Payment(amount, true), SuccessOf);
  }

  /** From a new order: add a line of 500, submit, cancel the line, pay 1, and bring the line back. The order is closed
      and paid, and its payment does not cover it. */
  lemma {:induction false} PaidOrderCanGrow(product: Product, restaurant: Restaurant, env: Env)
    requires !product.marked && env.details
    ensures var line := Item(product, None, 1, 500, 500, ItemNew, []);
            var charge := Charge(1, OpenShift, true, true, true, false, true);
            var empty := OrderState(Board(Open, [], map[], multiset{}), false, 0, 0, []);
            var after := Run(empty, [
              Call(DoChangeItems([line], env), restaurant), Call(DoSubmit(env), restaurant),
              Call(DoItem(0, ItemCancelled, env), restaurant), Call(DoPay(charge, env), restaurant),
              Call(DoItem(0, ItemNew, env), restaurant)]);
            && after.board.status == Closed && Successes(after.payments) == 1
            && Paid(after.payments) == 1 && after.total >= 500
  {
    var line := Item(product, None, 1, 500, 500, ItemNew, []);
    var charge := Charge(1, OpenShift, true, true, true, false, true);
    var empty := OrderState(Board(Open, [], map[], multiset{}), false, 0, 0, []);
    var add, submit, cancel := DoChangeItems([line], env), DoSubmit(env), DoItem(0, ItemCancelled, env);
    var pay, revive := DoPay(charge, env), DoItem(0, ItemNew, env);
    RunFive(empty, add, submit, cancel, pay, revive, restaurant);
    var more := Step(empty, add, restaurant);
    AddOneLine(line, restaurant, env);
    SubmitAndCancel(more, restaurant, env);
    PayAndRevive(Step(Step(more, submit, restaurant), cancel, restaurant), charge, restaurant, env);
  }

  lemma {:induction false} RunFive(
      st: OrderState, a: Action, b: Action, c: Action, d: Action, e: Action, restaurant: Restaurant)
    ensures Run(st, [Call(a, restaurant), Call(b, restaurant), Call(c, restaurant), Call(d, restaurant),
                     Call(e, restaurant)])
         == Step(Step(Step(Step(Step(st, a, restaurant), b, restaurant), c, restaurant), d, restaurant), e, restaurant)
  {
    var last := [Call(e, restaurant)];
    var middle := [Call(c, restaurant), Call(d, restaurant)] + last;
    var second := Step(Step(st, a, restaurant), b, restaurant);
    RunTwo(st, a, b, restaurant, middle);
    RunTwo(second, c, d, restaurant, last);
    RunCons(Step(Step(second, c, restaurant), d, restaurant), e, restaurant, []);
    assert last == last + [];
    assert [Call(a, restaurant), Call(b, restaurant), Call(c, restaurant), Call(d, restaurant), Call(e, restaurant)]
        == [Call(a, restaurant), Call(b, restaurant)] + middle;
  }

  lemma SubmitAndCancel(st: OrderState, restaurant: Restaurant, env: Env)
    requires OneLine(st, Open, ItemNew) && st.payments == [] && env.details
    ensures var after := Step(Step(st, DoSubmit(env), restaurant), DoItem(0, ItemCancelled, env), restaurant);
            OneLine(after, Submitted, ItemCancelled) && after.payments == [] && after.total == 0
  {
    SubmitOneLine(st, restaurant, env);
    UpdateOneLine(Step(st, DoSubmit(env), restaurant), Submitted, ItemNew, ItemCancelled, restaurant, env);
  }

  lemma PayAndRevive(st: OrderState, charge: Charge, restaurant: Restaurant, env: Env)
    requires OneLine(st, Submitted, ItemCancelled) && st.payments == [] && st.total == 0 && env.details
    requires charge.Acceptable() && charge.ok
    ensures var after := Step(Step(st, DoPay(charge, env), restaurant), DoItem(0, ItemNew, env), restaurant);
            && after.board.status == Closed && Successes(after.payments) == 1
            && Paid(after.payments) == charge.amount && after.total >= 500
  {
    PayNothingDue(st, restaurant, env, charge);
    UpdateOneLine(Step(st, DoPay(charge, env), restaurant), Closed, ItemCancelled, ItemNew, restaurant, env);
    PaidOnce(charge.amount);
  }

  // ----- A run in which the fee changes -----

  lemma FeeOf500(percent: nat)
    ensures percent == 0 ==> Fee(500, percent) == 0
    ensures percent == 1000 ==> Fee(500, percent) == 50
  {
    HalfEvenNearest(500 * percent, 10000);
  }

  lemma AddAndSubmit(line: Item, restaurant: Restaurant, env: Env)
    requires line.quantity == 1 && line.unitPrice == 500 && line.status == ItemNew && !line.product.marked
    requires restaurant.feePercent == 0 && env.details
    ensures var empty := OrderState(Board(Open, [], map[], multiset{}), false, 0, 0, []);
            var after := Step(Step(empty, DoChangeItems([line], env), restaurant), DoSubmit(env), restaurant);
            OneLine(after, Submitted, ItemNew) && after.payments == [] && after.total == 500
  {
    var empty := OrderState(Board(Open, [], map[], multiset{}), false, 0, 0, []);
    var added := Step(empty, DoChangeItems([line], env), restaurant);
    AddOneLine(line, restaurant, env);
    OneLineSubtotal(Saved([line]));
    FeeOf500(0);
    SubmitOneLine(added, restaurant, env);
  }

  lemma PayInFull(st: OrderState, restaurant: Restaurant, env: Env, charge: Charge)
    requires OneLine(st, Submitted, ItemNew) && st.payments == [] && st.total == 500 && env.details
    requires charge.Acceptable() && charge.ok && charge.amount == 500
    ensures var after := Processed(st, charge, restaurant, env).0;
            OneLine(after, Closed, ItemNew) && after.payments == [Payment(500, true)]
  {
    OneLineMissesNothing(st, Submitted, ItemNew);
    assert st.payments + [Payment(500, true)] == [Payment(500, true)];
    SumByOne(Payment(500, true), PaidOf);
  }

  /** An order of 500 is paid with 500 while there is no service fee; the fee is then set to 10%, and the kitchen marks
      the line done. The order is closed and paid with 500, and costs 550. */
  lemma {:induction false} RaisedFeeUncovers(product: Product, before: Restaurant, now: Restaurant, env: Env)
    requires !product.marked && env.details && before.feePercent == 0 && now.feePercent == 1000
    ensures var line := Item(product, None, 1, 500, 500, ItemNew, []);
            var charge := Charge(500, OpenShift, true, true, true, false, true);
            var empty := OrderState(Board(Open, [], map[], multiset{}), false, 0, 0, []);
            var after := Run(empty, [
              Call(DoChangeItems([line], env), before), Call(DoSubmit(env), before), Call(DoPay(charge, env), before),
              Call(DoItem(0, ItemDone, env), now)]);
            && after.board.status == Closed && Successes(after.payments) == 1
            && Paid(after.payments) == 500 && after.total == 550
  {
    var line := Item(product, None, 1, 500, 500, ItemNew, []);
    var charge := Charge(500, OpenShift, true, true, true, false, true);
    var empty := OrderState(Board(Open, [], map[], multiset{}), false, 0, 0, []);
    var add, submit, pay, cook := DoChangeItems([line], env), DoSubmit(env), DoPay(charge, env),
        DoItem(0, ItemDone, env);
    RunFour(empty, add, submit, pay, before, cook, now);
    AddAndSubmit(line, before, env);
    var sent := Step(Step(empty, add, before), submit, before);
    PayAndCook(sent, before, now, env, charge);
  }

  lemma PayAndCook(st: OrderState, before: Restaurant, now: Restaurant, env: Env, charge: Charge)
    requires OneLine(st, Submitted, ItemNew) && st.payments == [] && st.total == 500 && env.details
    requires charge.Acceptable() && charge.ok && charge.amount == 500 && now.feePercent == 1000
    ensures var after := Step(Step(st, DoPay(charge, env), before), DoItem(0, ItemDone, env), now);
            && after.board.status == Closed && Successes(after.payments) == 1
            && Paid(after.payments) == 500 && after.total == 550
  {
    PayInFull(st, before, env, charge);
    UpdateOneLine(Step(st, DoPay(charge, env), before), Closed, ItemNew, ItemDone, now, env);
    FeeOf500(1000);
    PaidOnce(500);
  }

  lemma {:induction false} RunFour(
      st: OrderState, a: Action, b: Action, c: Action, restaurant: Restaurant, d: Action, later: Restaurant)
    ensures Run(st, [Call(a, restaurant), Call(b, restaurant), Call(c, restaurant), Call(d, later)])
         == Step(Step(Step(Step(st, a, restaurant), b, restaurant), c, restaurant), d, later)
  {
    var last := [Call(d, later)];
    var middle := [Call(c, restaurant)] + last;
    var second := Step(Step(st, a, restaurant), b, restaurant);
    RunTwo(st, a, b, restaurant, middle);
    RunCons(second, c, restaurant, last);
    RunCons(Step(second, c, restaurant), d, later, []);
    assert last == last + [];
    assert [Call(a, restaurant), Call(b, restaurant), Call(c, restaurant), Call(d, later)]
        == [Call(a, restaurant), Call(b, restaurant)] + middle;
  }
}
