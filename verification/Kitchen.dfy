/** What a kitchen sync must leave behind (apps/kitchen/services/order_ticket_sync.py). */
module Kitchen {
  import opened Options
  import opened OrderItems

  datatype OrderStatus = Open | Submitted | Ready | Closed | Cancelled
  datatype TicketStatus = TicketNew | TicketCooking | TicketDone
  datatype Route = Display | Printer | Both

  datatype Ticket = Ticket(status: TicketStatus, route: Route, completedAt: Option<int>, printed: bool)

  /** An order as the kitchen sees it. Tickets are unique by station; prints counts paper tickets by station. */
  datatype Board = Board(
    status: OrderStatus, items: seq<Item>, tickets: map<nat, Ticket>, prints: multiset<nat>)

  function Assigned(item: Item, restaurant: Restaurant): Item {
    if item.IsActive() && item.station.None? then item.(station := ResolveStation(item.product, restaurant)) else item
  }

  function AssignStations(items: seq<Item>, restaurant: Restaurant): (r: seq<Item>)
    ensures |r| == |items| && forall i | 0 <= i < |items| :: r[i] == Assigned(items[i], restaurant)
  {
    seq(|items|, i requires 0 <= i < |items| => Assigned(items[i], restaurant))
  }

  predicate ActiveAt(item: Item, station: nat) {
    item.IsActive() && item.station == Some(station)
  }

  function Stations(items: seq<Item>): set<nat> {
    set i | 0 <= i < |items| && items[i].IsActive() && items[i].station.Some? :: items[i].station.value
  }

  predicate AnyCookingAt(items: seq<Item>, station: nat) {
    exists i | 0 <= i < |items| :: ActiveAt(items[i], station) && items[i].status == ItemCooking
  }

  predicate AllDoneAt(items: seq<Item>, station: nat) {
    forall i | 0 <= i < |items| :: ActiveAt(items[i], station) ==> items[i].status == ItemDone
  }

  /** Cooking if anything cooks, done if everything is done, else new; a served item is not a done one. */
  function TicketStatusOf(items: seq<Item>, station: nat): TicketStatus {
    if AnyCookingAt(items, station) then TicketCooking
    else if AllDoneAt(items, station) then TicketDone
    else TicketNew
  }

  predicate AnyActive(items: seq<Item>) {
    exists i | 0 <= i < |items| :: items[i].IsActive()
  }

  predicate AllActiveDone(items: seq<Item>) {
    forall i | 0 <= i < |items| :: items[i].IsActive() ==> items[i].status == ItemDone
  }

  function RouteOf(station: nat, restaurant: Restaurant): Route {
    if station in restaurant.printers then Both else Display
  }

  /** The ticket of a station with active items; paper is the set of stations whose printer works now. */
  function SyncedTicket(
      tickets: map<nat, Ticket>, items: seq<Item>, station: nat, restaurant: Restaurant, now: int,
      paper: set<nat>): Ticket
  {
    var status := TicketStatusOf(items, station);
    var existing := if station in tickets then Some(tickets[station]) else None;
    Ticket(status, RouteOf(station, restaurant),
      if status != TicketDone then None
      else if existing.Some? && existing.value.completedAt.Some? then existing.value.completedAt
      else Some(now),
      if existing.Some? then existing.value.printed else station in restaurant.printers && station in paper)
  }

  function StatusAfter(status: OrderStatus, items: seq<Item>): OrderStatus {
    if !AnyActive(items) then status
    else if AllActiveDone(items) then if status == Closed then Closed else Ready
    else if status == Ready then Submitted
    else status
  }

  function FreshlyPrinted(tickets: map<nat, Ticket>, stations: set<nat>, restaurant: Restaurant): set<nat> {
    set s | s in stations && s !in tickets && s in restaurant.printers
  }

  function OneEach(stations: set<nat>): multiset<nat> {
    multiset(stations)
  }

  function Sync(board: Board, restaurant: Restaurant, now: int, paper: set<nat>): Board {
    if board.status == Open then board.(tickets := map[])
    else
      var items := AssignStations(board.items, restaurant);
      var stations := Stations(items);
      Board(
        StatusAfter(board.status, items), items,
        map s | s in stations :: SyncedTicket(board.tickets, items, s, restaurant, now, paper),
        board.prints + OneEach(FreshlyPrinted(board.tickets, stations, restaurant)))
  }

  /** Exactly one ticket for each station with active items, with the status of those items; completed iff done. */
  ghost predicate TicketsMatch(board: Board) {
    && board.tickets.Keys == Stations(board.items)
    && forall s | s in board.tickets ::
         && board.tickets[s].status == TicketStatusOf(board.items, s)
         && (board.tickets[s].completedAt.Some? <==> board.tickets[s].status == TicketDone)
  }

  /** A live order with active items is ready iff all of them are done. */
  ghost predicate ReadyMatches(board: Board) {
    (board.status == Submitted || board.status == Ready) && AnyActive(board.items) ==>
      (board.status == Ready <==> AllActiveDone(board.items))
  }

  /** No active item is left without a station it could have. */
  ghost predicate Settled(board: Board, restaurant: Restaurant) {
    AssignStations(board.items, restaurant) == board.items
  }

  lemma SyncSettles(board: Board, restaurant: Restaurant, now: int, paper: set<nat>)
    requires board.status != Open
    ensures Settled(Sync(board, restaurant, now, paper), restaurant)
  {
  }

  lemma SyncMatches(board: Board, restaurant: Restaurant, now: int, paper: set<nat>)
    ensures var after := Sync(board, restaurant, now, paper);
            && (board.status == Open ==> after.status == Open && after.tickets == map[] && after.items == board.items)
            && (board.status != Open ==> TicketsMatch(after) && ReadyMatches(after) && after.status != Open)
            && (board.status == Closed ==> after.status == Closed)
  {
  }

  /** The category's station comes first, then the product's own, then the only station of the restaurant. */
  ghost predicate StationFound(product: Product, restaurant: Restaurant, station: Option<nat>) {
    && (product.categoryStation.Some? ==> station == product.categoryStation)
    && (product.categoryStation.None? && product.ownStation.Some? ==> station == product.ownStation)
    && (product.categoryStation.None? && product.ownStation.None? ==>
          (station.Some? <==> |restaurant.stations| == 1) && (station.Some? ==> station.value in restaurant.stations))
  }

  /** Active items without a station get the one they should have; nothing else about the items changes. */
  ghost predicate StationsFound(was: seq<Item>, now: seq<Item>, restaurant: Restaurant) {
    && |now| == |was|
    && forall i | 0 <= i < |was| ::
         && now[i].(station := was[i].station) == was[i]
         && (!was[i].IsActive() || was[i].station.Some? ==> now[i].station == was[i].station)
         && (was[i].IsActive() && was[i].station.None? ==> StationFound(was[i].product, restaurant, now[i].station))
  }

  /** The route follows the printers, a finished ticket keeps its first time, and only a ticket's first print counts. */
  ghost predicate TicketServed(
      was: map<nat, Ticket>, station: nat, ticket: Ticket, restaurant: Restaurant, time: int, paper: set<nat>)
  {
    && (ticket.route == if station in restaurant.printers then Both else Display)
    && ticket.printed == (if station in was then was[station].printed
                          else station in restaurant.printers && station in paper)
    && (ticket.status == TicketDone ==>
          ticket.completedAt == if station in was && was[station].completedAt.Some? then was[station].completedAt
                                else Some(time))
  }

  /** One paper ticket at exactly the printer stations that gain a ticket. */
  ghost predicate PrintsNew(was: Board, now: Board, restaurant: Restaurant) {
    forall s: nat :: now.prints[s] == was.prints[s]
        + if s in now.tickets && s !in was.tickets && s in restaurant.printers then 1 else 0
  }

  /** Ready once everything is done, unless closed; back to submitted once it is not; else as before. */
  ghost predicate StatusFollows(was: OrderStatus, now: OrderStatus, items: seq<Item>) {
    && (AnyActive(items) && AllActiveDone(items) && was != Closed ==> now == Ready)
    && (AnyActive(items) && !AllActiveDone(items) && was == Ready ==> now == Submitted)
    && (now == was || now == Ready || (was == Ready && now == Submitted))
    && (now == Ready && was != Ready ==> AnyActive(items) && AllActiveDone(items) && was != Closed)
    && (now == Submitted && was == Ready ==> AnyActive(items) && !AllActiveDone(items))
  }

  /** What an order out of OPEN looks like after a sync, part by part. */
  ghost predicate SyncedFrom(was: Board, now: Board, restaurant: Restaurant, time: int, paper: set<nat>) {
    && StationsFound(was.items, now.items, restaurant)
    && TicketsMatch(now)
    && (forall s | s in now.tickets :: TicketServed(was.tickets, s, now.tickets[s], restaurant, time, paper))
    && PrintsNew(was, now, restaurant)
    && StatusFollows(was.status, now.status, now.items)
  }

  lemma AssignFinds(items: seq<Item>, restaurant: Restaurant)
    ensures StationsFound(items, AssignStations(items, restaurant), restaurant)
  {
  }

  lemma SyncServes(board: Board, restaurant: Restaurant, now: int, paper: set<nat>)
    requires board.status != Open
    ensures var after := Sync(board, restaurant, now, paper);
            forall s | s in after.tickets :: TicketServed(board.tickets, s, after.tickets[s], restaurant, now, paper)
  {
  }

  lemma SyncPrints(board: Board, restaurant: Restaurant, now: int, paper: set<nat>)
    requires board.status != Open
    ensures PrintsNew(board, Sync(board, restaurant, now, paper), restaurant)
  {
  }

  lemma SyncMeets(board: Board, restaurant: Restaurant, now: int, paper: set<nat>)
    requires board.status != Open
    ensures SyncedFrom(board, Sync(board, restaurant, now, paper), restaurant, now, paper)
  {
    AssignFinds(board.items, restaurant);
    SyncServes(board, restaurant, now, paper);
    SyncPrints(board, restaurant, now, paper);
    SyncMatches(board, restaurant, now, paper);
    var after := Sync(board, restaurant, now, paper);
    assert StatusFollows(board.status, after.status, after.items);
  }

  /** Every active item with a station has a ticket there, and there are no other tickets. */
  lemma TicketsWhereItemsAre(board: Board, station: nat)
    requires TicketsMatch(board)
    ensures station in board.tickets <==>
              exists i | 0 <= i < |board.items| :: board.items[i].IsActive() && board.items[i].station == Some(station)
  {
    if i :| 0 <= i < |board.items| && board.items[i].IsActive() && board.items[i].station == Some(station) {
      assert board.items[i].station.value in Stations(board.items);
    }
  }

  /** These parts leave no choice: there is one such board. */
  lemma SyncedFromUnique(was: Board, a: Board, b: Board, restaurant: Restaurant, time: int, paper: set<nat>)
    requires SyncedFrom(was, a, restaurant, time, paper) && SyncedFrom(was, b, restaurant, time, paper)
    ensures a == b
  {
    SameStations(was.items, a.items, b.items, restaurant);
    SameTickets(was.tickets, a, b, restaurant, time, paper);
    SamePrints(was, a, b, restaurant);
  }

  lemma SameStations(was: seq<Item>, a: seq<Item>, b: seq<Item>, restaurant: Restaurant)
    requires StationsFound(was, a, restaurant) && StationsFound(was, b, restaurant)
    ensures a == b
  {
    forall i | 0 <= i < |was|
      ensures a[i] == b[i]
    {
      assert a[i].(station := b[i].station) == b[i];
    }
  }

  lemma SameTickets(
      was: map<nat, Ticket>, a: Board, b: Board, restaurant: Restaurant, time: int, paper: set<nat>)
    requires a.items == b.items && TicketsMatch(a) && TicketsMatch(b)
    requires forall s | s in a.tickets :: TicketServed(was, s, a.tickets[s], restaurant, time, paper)
    requires forall s | s in b.tickets :: TicketServed(was, s, b.tickets[s], restaurant, time, paper)
    ensures a.tickets == b.tickets
  {
    forall s | s in a.tickets
      ensures a.tickets[s] == b.tickets[s]
    {
      assert a.tickets[s].status == b.tickets[s].status;
    }
  }

  lemma SamePrints(was: Board, a: Board, b: Board, restaurant: Restaurant)
    requires a.tickets == b.tickets && PrintsNew(was, a, restaurant) && PrintsNew(was, b, restaurant)
    ensures a.prints == b.prints
  {
    forall s: nat
      ensures a.prints[s] == b.prints[s]
    {
    }
  }

  /** What a ticket's status says of the station's active items. */
  lemma TicketStatusMeans(items: seq<Item>, station: nat)
    ensures TicketStatusOf(items, station) == TicketCooking <==>
              exists i | 0 <= i < |items| :: items[i].status == ItemCooking && items[i].station == Some(station)
    ensures TicketStatusOf(items, station) == TicketDone <==>
              forall i | 0 <= i < |items| && items[i].station == Some(station) ::
                items[i].status == ItemDone || items[i].status == ItemCancelled
  {
    if i :| 0 <= i < |items| && items[i].status == ItemCooking && items[i].station == Some(station) {
      assert ActiveAt(items[i], station);
    }
    if TicketStatusOf(items, station) == TicketDone {
      forall i | 0 <= i < |items| && items[i].station == Some(station)
        ensures items[i].status == ItemDone || items[i].status == ItemCancelled
      {
        assert ActiveAt(items[i], station) <==> items[i].status != ItemCancelled;
      }
    }
  }

  /** Work already assigned stays assigned: assigning twice changes nothing. */
  lemma AssignTwice(items: seq<Item>, restaurant: Restaurant)
    ensures AssignStations(AssignStations(items, restaurant), restaurant) == AssignStations(items, restaurant)
  {
  }

  /** A second sync changes nothing and prints nothing, whenever it comes. */
  lemma SyncTwice(board: Board, restaurant: Restaurant, now: int, paper: set<nat>, later: int, paper': set<nat>)
    ensures var once := Sync(board, restaurant, now, paper);
            Sync(once, restaurant, later, paper') == once
  {
    if board.status != Open {
      AssignTwice(board.items, restaurant);
      var once := Sync(board, restaurant, now, paper);
      StatusTwice(board.status, once.items);
      NothingPrinted(once.tickets, Stations(once.items), restaurant);
      TicketsTwice(board.tickets, once.tickets, once.items, restaurant, now, paper, later, paper');
    }
  }

  lemma StatusTwice(status: OrderStatus, items: seq<Item>)
    ensures StatusAfter(StatusAfter(status, items), items) == StatusAfter(status, items)
  {
  }

  lemma NothingPrinted(tickets: map<nat, Ticket>, stations: set<nat>, restaurant: Restaurant)
    requires stations <= tickets.Keys
    ensures OneEach(FreshlyPrinted(tickets, stations, restaurant)) == multiset{}
  {
  }

  lemma TicketsTwice(
      tickets: map<nat, Ticket>, once: map<nat, Ticket>, items: seq<Item>, restaurant: Restaurant,
      now: int, paper: set<nat>, later: int, paper': set<nat>)
    requires once == map s | s in Stations(items) :: SyncedTicket(tickets, items, s, restaurant, now, paper)
    ensures (map s | s in Stations(items) :: SyncedTicket(once, items, s, restaurant, later, paper')) == once
  {
  }

  /** A cancelled order is revived by a sync exactly when it still has active items and all of them are done. */
  lemma SyncRevivesIff(board: Board, restaurant: Restaurant, now: int, paper: set<nat>)
    requires board.status == Cancelled
    ensures Sync(board, restaurant, now, paper).status != Cancelled <==>
              AnyActive(board.items) && AllActiveDone(board.items)
    ensures Sync(board, restaurant, now, paper).status in {Cancelled, Ready}
  {
  }
}
