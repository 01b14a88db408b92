/** Table sessions: opening, ordering, merging, moving and closing
    (apps/floor/api/pos/views, apps/sales/services/state.py). */
module TableMerge {
  import opened Options

  datatype Status = Open | PendingPayment | Closed | Merged

  /** A session row; into is merged_into. */
  datatype Session = Session(table: nat, status: Status, into: Option<nat>, guests: nat) {
    predicate Active() { status == Open || status == PendingPayment }
  }

  /** An order row: its session now, whether it is neither closed nor cancelled, and (history) the session it was
      placed on. */
  datatype Order = Order(session: Option<nat>, live: bool, placed: Option<nat>)

  /** Rows by id; merges lists the merged sessions in the order of their merges (history). */
  datatype Floor = Floor(sessions: seq<Session>, orders: seq<Order>, merges: seq<nat>)

  // ----- Operations -----

  predicate TableFree(f: Floor, table: nat) {
    forall i | 0 <= i < |f.sessions| :: f.sessions[i].table == table ==> !f.sessions[i].Active()
  }

  predicate OthersInactive(f: Floor, s: nat, table: nat) {
    forall i | 0 <= i < |f.sessions| && i != s :: f.sessions[i].table == table ==> !f.sessions[i].Active()
  }

  /** get_supported_seat_count */
  function SupportedSeats(seats: nat): nat {
    if seats <= 2 then 2 else if seats == 3 then 3 else 4
  }

  function Or<T>(given: Option<T>, default: T): T {
    if given.Some? then given.value else default
  }

  predicate NoLiveOrder(f: Floor, s: nat) {
    forall i | 0 <= i < |f.orders| :: f.orders[i].session == Some(s) ==> !f.orders[i].live
  }

  predicate CanOpen(f: Floor, table: nat, guests: Option<nat>, seats: nat) {
    TableFree(f, table) && (guests.Some? ==> guests.value <= SupportedSeats(seats))
  }

  /** Create a session through the serializer, which accepts any status; seats is the table's seat count. */
  function Opened(f: Floor, table: nat, status: Status, guests: Option<nat>, seats: nat): Floor {
    if CanOpen(f, table, guests, seats) then f.(sessions := f.sessions + [Session(table, status, None, Or(guests, 1))])
    else f
  }

  predicate AcceptsOrder(f: Floor, s: nat) {
    s < |f.sessions| && f.sessions[s].status != Closed && f.sessions[s].status != Merged && NoLiveOrder(f, s)
  }

  /** Create an order, on a session or without one (takeaway). */
  function Placed(f: Floor, session: Option<nat>): Floor {
    if session.None? || AcceptsOrder(f, session.value) then f.(orders := f.orders + [Order(session, true, session)])
    else f
  }

  function MovedOrder(o: Order, source: nat, target: nat): Order {
    if o.session == Some(source) then o.(session := Some(target)) else o
  }

  function Moved(orders: seq<Order>, source: nat, target: nat): (r: seq<Order>)
    ensures |r| == |orders| && forall i | 0 <= i < |r| :: r[i] == MovedOrder(orders[i], source, target)
  {
    seq(|orders|, i requires 0 <= i < |orders| => MovedOrder(orders[i], source, target))
  }

  predicate CanMerge(f: Floor, target: nat, source: nat) {
    target < |f.sessions| && source < |f.sessions| && f.sessions[target].Active() && f.sessions[source].Active()
    && source != target
  }

  function MergedInto(f: Floor, target: nat, source: nat): Floor {
    if CanMerge(f, target, source) then
      Floor(f.sessions[source := f.sessions[source].(status := Merged, into := Some(target))],
            Moved(f.orders, source, target), f.merges + [source])
    else f
  }

  /** close_order_after_payment, behind ensure_order_can_be_paid */
  function Settled(f: Floor, o: nat): Floor {
    if o < |f.orders| && f.orders[o].live then
      var s := f.orders[o].session;
      f.(orders := f.orders[o := f.orders[o].(live := false)],
         sessions := if s.Some? && s.value < |f.sessions|
                     then f.sessions[s.value := f.sessions[s.value].(status := Closed)]
                     else f.sessions)
    else f
  }

  function MovedTo(f: Floor, s: nat, table: nat): Floor {
    if s < |f.sessions| && f.sessions[s].Active() && TableFree(f, table) then
      f.(sessions := f.sessions[s := f.sessions[s].(table := table)])
    else f
  }

  /** What an update through the serializer may write; seats is the seat count of the table that the session ends up
      at. */
  datatype Change = Change(table: Option<nat>, status: Option<Status>, guests: Option<nat>, seats: nat)

  function Changed(session: Session, change: Change): Session {
    session.(table := Or(change.table, session.table), status := Or(change.status, session.status),
      guests := Or(change.guests, session.guests))
  }

  predicate CanPatch(f: Floor, s: nat, change: Change) {
    && s < |f.sessions|
    && OthersInactive(f, s, Changed(f.sessions[s], change).table)
    && Changed(f.sessions[s], change).guests <= SupportedSeats(change.seats)
  }

  function Patched(f: Floor, s: nat, change: Change): Floor {
    if CanPatch(f, s, change) then f.(sessions := f.sessions[s := Changed(f.sessions[s], change)]) else f
  }

  class FloorDesk {
    var sessions: seq<Session>
    var orders: seq<Order>
    ghost var merges: seq<nat>

    ghost function State(): Floor
      reads this
    {
      Floor(sessions, orders, merges)
    }

    constructor ()
      ensures State() == Floor([], [], [])
    {
      sessions, orders, merges := [], [], [];
    }

    method OpenSession(table: nat, status: Status, guests: Option<nat>, seats: nat) returns (ok: bool)
      modifies this
      ensures ok == old(CanOpen(State(), table, guests, seats))
      ensures State() == Opened(old(State()), table, status, guests, seats)
    {
      for i := 0 to |sessions|
        invariant forall k | 0 <= k < i :: sessions[k].table == table ==> !sessions[k].Active()
        invariant State() == old(State())
      {
        if sessions[i].table == table && sessions[i].Active() {
          return false;
        }
      }
      if guests.Some? && guests.value > SupportedSeats(seats) {
        return false;
      }
      sessions := sessions + [Session(table, status, None, Or(guests, 1))];
      ok := true;
    }

    method PlaceOrder(session: Option<nat>) returns (ok: bool)
      modifies this
      ensures ok == (session.None? || old(AcceptsOrder(State(), session.value)))
      ensures State() == Placed(old(State()), session)
    {
      if session.Some? {
        var s := session.value;
        if s >= |sessions| || sessions[s].status == Closed || sessions[s].status == Merged {
          return false;
        }
        for i := 0 to |orders|
          invariant forall k | 0 <= k < i :: orders[k].session == session ==> !orders[k].live
          invariant State() == old(State())
        {
          if orders[i].session == session && orders[i].live {
            return false;
          }
        }
      }
      orders := orders + [Order(session, true, session)];
      ok := true;
    }

    method MoveOrders(source: nat, target: nat)
      modifies this`orders
      ensures orders == Moved(old(orders), source, target)
    {
      for i := 0 to |orders|
        invariant |orders| == |old(orders)|
        invariant forall k | 0 <= k < i :: orders[k] == MovedOrder(old(orders)[k], source, target)
        invariant forall k | i <= k < |orders| :: orders[k] == old(orders)[k]
      {
        if orders[i].session == Some(source) {
          orders := orders[i := orders[i].(session := Some(target))];
        }
      }
    }

    method MergeSessions(target: nat, source: nat) returns (ok: bool)
      modifies this
      ensures ok == old(CanMerge(State(), target, source))
      ensures State() == MergedInto(old(State()), target, source)
    {
      if target >= |sessions| || !sessions[target].Active() || source >= |sessions| || !sessions[source].Active() {
        return false;
      }
      if source == target {
        return false;
      }
      MoveOrders(source, target);
      sessions := sessions[source := sessions[source].(status := Merged, into := Some(target))];
      merges := merges + [source];
      ok := true;
    }

    method CloseOrderAfterPayment(o: nat) returns (ok: bool)
      modifies this
      ensures ok == old(o < |orders| && orders[o].live)
      ensures State() == Settled(old(State()), o)
    {
      if o >= |orders| || !orders[o].live {
        return false;
      }
      orders := orders[o := orders[o].(live := false)];
      var s := orders[o].session;
      if s.Some? && s.value < |sessions| {
        sessions := sessions[s.value := sessions[s.value].(status := Closed)];
      }
      ok := true;
    }

    method MoveSession(s: nat, table: nat) returns (ok: bool)
      modifies this
      ensures ok == old(s < |sessions| && sessions[s].Active() && TableFree(State(), table))
      ensures State() == MovedTo(old(State()), s, table)
    {
      if s >= |sessions| || !sessions[s].Active() {
        return false;
      }
      for i := 0 to |sessions|
        invariant forall k | 0 <= k < i :: sessions[k].table == table ==> !sessions[k].Active()
        invariant State() == old(State())
      {
        if sessions[i].table == table && sessions[i].Active() {
          return false;
        }
      }
      sessions := sessions[s := sessions[s].(table := table)];
      ok := true;
    }

    method PatchSession(s: nat, change: Change) returns (ok: bool)
      modifies this
      ensures ok == old(CanPatch(State(), s, change))
      ensures State() == Patched(old(State()), s, change)
    {
      if s >= |sessions| {
        return false;
      }
      var session := Changed(sessions[s], change);
      for i := 0 to |sessions|
        invariant forall k | 0 <= k < i && k != s :: sessions[k].table == session.table ==> !sessions[k].Active()
        invariant State() == old(State())
      {
        if i != s && sessions[i].table == session.table && sessions[i].Active() {
          return false;
        }
      }
      if session.guests > SupportedSeats(change.seats) {
        return false;
      }
      sessions := sessions[s := session];
      ok := true;
    }
  }

  // ----- The merge forest -----

  /** Place of s in the merge history; sessions never merged come after all others. */
  function Position(merges: seq<nat>, s: nat): (r: nat)
    ensures r <= |merges| && (s in merges <==> r < |merges|)
  {
    if merges == [] then 0 else if merges[0] == s then 0 else 1 + Position(merges[1..], s)
  }

  lemma {:induction false} PositionGrows(merges: seq<nat>, x: nat, s: nat)
    requires x !in merges
    ensures Position(merges + [x], s)
         == if s in merges then Position(merges, s) else if s == x then |merges| else |merges| + 1
  {
    if merges != [] {
      assert (merges + [x])[1..] == merges[1..] + [x];
      PositionGrows(merges[1..], x, s);
    }
  }

  /** MERGED exactly when merged into something, and every merge goes into a session that was merged later or never. */
  ghost predicate Forest(sessions: seq<Session>, merges: seq<nat>) {
    && (forall s | 0 <= s < |sessions| :: sessions[s].status == Merged <==> sessions[s].into.Some?)
    && (forall s: nat | s < |sessions| && sessions[s].into.Some? ::
          sessions[s].into.value < |sessions| && Position(merges, s) < Position(merges, sessions[s].into.value))
    && (forall s: nat | s in merges :: s < |sessions| && sessions[s].into.Some?)
  }

  /** The end of the chain of merges that starts at s. */
  ghost function Root(sessions: seq<Session>, merges: seq<nat>, s: nat): (r: nat)
    requires Forest(sessions, merges) && s < |sessions|
    ensures r < |sessions| && sessions[r].status != Merged
    decreases |merges| - Position(merges, s)
  {
    if sessions[s].into.None? then s else Root(sessions, merges, sessions[s].into.value)
  }

  /** path follows merged_into at every step. */
  ghost predicate Chain(sessions: seq<Session>, path: seq<nat>) {
    && path != [] && (forall i | 0 <= i < |path| :: path[i] < |sessions|)
    && (forall i | 0 <= i < |path| - 1 :: sessions[path[i]].into == Some(path[i + 1]))
  }

  lemma {:induction false} ChainClimbs(sessions: seq<Session>, merges: seq<nat>, path: seq<nat>, i: nat, j: nat)
    requires Forest(sessions, merges) && Chain(sessions, path) && i < j < |path|
    ensures Position(merges, path[i]) < Position(merges, path[j])
  {
    if i + 1 < j {
      ChainClimbs(sessions, merges, path, i, j - 1);
    }
    assert sessions[path[j - 1]].into == Some(path[j]);
  }

  /** merged_into is acyclic: no chain visits a session twice. */
  lemma Acyclic(sessions: seq<Session>, merges: seq<nat>, path: seq<nat>, i: nat, j: nat)
    requires Forest(sessions, merges) && Chain(sessions, path) && i < j < |path|
    ensures path[i] != path[j]
  {
    ChainClimbs(sessions, merges, path, i, j);
  }

  /** Every session's chain ends, at a session that is not MERGED. */
  lemma {:induction false} ChainEnds(sessions: seq<Session>, merges: seq<nat>, s: nat) returns (path: seq<nat>)
    requires Forest(sessions, merges) && s < |sessions|
    ensures Chain(sessions, path) && path[0] == s && path[|path| - 1] == Root(sessions, merges, s)
    ensures sessions[path[|path| - 1]].status != Merged
    decreases |merges| - Position(merges, s)
  {
    if sessions[s].into.None? {
      path := [s];
    } else {
      var rest := ChainEnds(sessions, merges, sessions[s].into.value);
      path := [s] + rest;
      assert forall i | 0 < i < |path| :: path[i] == rest[i - 1];
    }
  }

  // ----- Invariant -----

  ghost predicate OrdersFollow(f: Floor)
    requires Forest(f.sessions, f.merges)
  {
    forall i | 0 <= i < |f.orders| && f.orders[i].placed.Some? ::
      f.orders[i].placed.value < |f.sessions|
      && f.orders[i].session == Some(Root(f.sessions, f.merges, f.orders[i].placed.value))
  }

  ghost predicate PlacedTogether(orders: seq<Order>) {
    forall i | 0 <= i < |orders| :: orders[i].placed.Some? <==> orders[i].session.Some?
  }

  /** No two live orders were placed on one session. */
  ghost predicate OnePlacedEach(orders: seq<Order>) {
    forall i, j | 0 <= i < j < |orders| ::
      orders[i].live && orders[j].live && orders[i].placed.Some? ==> orders[i].placed != orders[j].placed
  }

  ghost predicate OneActiveEach(sessions: seq<Session>) {
    forall i, j | 0 <= i < j < |sessions| ::
      sessions[i].Active() && sessions[j].Active() ==> sessions[i].table != sessions[j].table
  }

  ghost predicate Sound(f: Floor) {
    && Forest(f.sessions, f.merges) && OrdersFollow(f) && PlacedTogether(f.orders)
    && OnePlacedEach(f.orders) && OneActiveEach(f.sessions)
  }

  /** An order is never attached to a MERGED session. */
  lemma NoOrderOnMerged(f: Floor, o: nat)
    requires Sound(f) && o < |f.orders| && f.orders[o].session.Some?
    ensures f.orders[o].session.value < |f.sessions| && f.sessions[f.orders[o].session.value].status != Merged
  {
  }

  /** Two live orders share a session only if it was merged into: both were placed on sessions whose chains end
      there. */
  lemma SharedOnlyByMerge(f: Floor, i: nat, j: nat)
    requires Sound(f) && i < j < |f.orders| && f.orders[i].live && f.orders[j].live
    requires f.orders[i].session.Some? && f.orders[i].session == f.orders[j].session
    ensures exists s :: 0 <= s < |f.sessions| && f.sessions[s].into == f.orders[i].session
  {
    var root := f.orders[i].session.value;
    assert f.orders[i].placed.Some? && f.orders[j].placed.Some?;
    var a, b := f.orders[i].placed.value, f.orders[j].placed.value;
    var s := if a != root then a else b;
    var path := ChainEnds(f.sessions, f.merges, s);
    assert f.sessions[path[|path| - 2]].into == Some(root);
  }

  // ----- Each operation keeps it -----

  /** Roots depend on merged_into alone. */
  lemma {:induction false} RootSame(a: seq<Session>, b: seq<Session>, merges: seq<nat>, s: nat)
    requires Forest(a, merges) && Forest(b, merges) && s < |a| <= |b|
    requires forall i | 0 <= i < |a| :: a[i].into == b[i].into
    ensures Root(a, merges, s) == Root(b, merges, s)
    decreases |merges| - Position(merges, s)
  {
    if a[s].into.Some? {
      RootSame(a, b, merges, a[s].into.value);
    }
  }

  /** Orders stay where they are when no merged_into changes. */
  lemma FollowSame(f: Floor, sessions: seq<Session>)
    requires Forest(f.sessions, f.merges) && OrdersFollow(f)
    requires Forest(sessions, f.merges) && |f.sessions| <= |sessions|
    requires forall i | 0 <= i < |f.sessions| :: f.sessions[i].into == sessions[i].into
    ensures OrdersFollow(f.(sessions := sessions))
  {
    forall i | 0 <= i < |f.orders| && f.orders[i].placed.Some?
      ensures f.orders[i].session == Some(Root(sessions, f.merges, f.orders[i].placed.value))
    {
      RootSame(f.sessions, sessions, f.merges, f.orders[i].placed.value);
    }
  }

  lemma OpenedSound(f: Floor, table: nat, status: Status, guests: Option<nat>, seats: nat)
    requires Sound(f) && status != Merged
    ensures Sound(Opened(f, table, status, guests, seats))
  {
    if CanOpen(f, table, guests, seats) {
      FollowSame(f, f.sessions + [Session(table, status, None, Or(guests, 1))]);
    }
  }

  lemma PlacedSound(f: Floor, session: Option<nat>)
    requires Sound(f)
    ensures Sound(Placed(f, session))
  {
  }

  lemma SettledSound(f: Floor, o: nat)
    requires Sound(f)
    ensures Sound(Settled(f, o))
  {
    var g := Settled(f, o);
    if o < |f.orders| && f.orders[o].live {
      if f.orders[o].session.Some? {
        NoOrderOnMerged(f, o);
      }
      assert Forest(g.sessions, f.merges);
      FollowSame(f, g.sessions);
    }
  }

  lemma MovedToSound(f: Floor, s: nat, table: nat)
    requires Sound(f)
    ensures Sound(MovedTo(f, s, table))
  {
    if s < |f.sessions| && f.sessions[s].Active() && TableFree(f, table) {
      FollowSame(f, MovedTo(f, s, table).sessions);
    }
  }

  lemma MergeForest(f: Floor, target: nat, source: nat)
    requires Forest(f.sessions, f.merges) && CanMerge(f, target, source)
    ensures var g := MergedInto(f, target, source); Forest(g.sessions, g.merges)
  {
    var g := MergedInto(f, target, source);
    assert source !in f.merges && target !in f.merges;
    forall s: nat | s < |g.sessions| && g.sessions[s].into.Some?
      ensures Position(g.merges, s) < Position(g.merges, g.sessions[s].into.value)
    {
      PositionGrows(f.merges, source, s);
      PositionGrows(f.merges, source, g.sessions[s].into.value);
    }
  }

  /** Merging redirects exactly the chains that ended at the source: they now end at the target. */
  lemma {:induction false} MergeMovesRoots(f: Floor, target: nat, source: nat, s: nat)
    requires Forest(f.sessions, f.merges) && CanMerge(f, target, source) && s < |f.sessions|
    ensures var g := MergedInto(f, target, source);
            Forest(g.sessions, g.merges)
            && Root(g.sessions, g.merges, s)
               == if Root(f.sessions, f.merges, s) == source then target else Root(f.sessions, f.merges, s)
    decreases |f.merges| - Position(f.merges, s)
  {
    MergeForest(f, target, source);
    var g := MergedInto(f, target, source);
    if f.sessions[s].into.Some? {
      MergeMovesRoots(f, target, source, f.sessions[s].into.value);
      assert g.sessions[s].into == f.sessions[s].into;
    } else if s == source {
      assert g.sessions[target].into.None?;
    }
  }

  lemma MergedSound(f: Floor, target: nat, source: nat)
    requires Sound(f)
    ensures Sound(MergedInto(f, target, source))
  {
    if CanMerge(f, target, source) {
      var g := MergedInto(f, target, source);
      MergeForest(f, target, source);
      forall i | 0 <= i < |g.orders| && g.orders[i].placed.Some?
        ensures g.orders[i].placed.value < |g.sessions|
             && g.orders[i].session == Some(Root(g.sessions, g.merges, g.orders[i].placed.value))
      {
        MergeMovesRoots(f, target, source, f.orders[i].placed.value);
      }
    }
  }

  // ----- What a merge does to orders -----

  ghost function OrdersAt(f: Floor, s: nat): set<nat> {
    set o: nat | o < |f.orders| && f.orders[o].session == Some(s)
  }

  /** A merge moves the source's orders to the target and touches nothing else about any order. */
  lemma MergeKeepsOrders(f: Floor, target: nat, source: nat)
    requires CanMerge(f, target, source)
    ensures var g := MergedInto(f, target, source);
            && |g.orders| == |f.orders|
            && OrdersAt(g, target) == OrdersAt(f, target) + OrdersAt(f, source) && OrdersAt(g, source) == {}
            && (forall s | s != target && s != source :: OrdersAt(g, s) == OrdersAt(f, s))
            && forall o | 0 <= o < |f.orders| :: g.orders[o].live == f.orders[o].live
                 && g.orders[o].placed == f.orders[o].placed
  {
  }

  // ----- What each call changes -----

  /** Only session s may differ. */
  ghost predicate OnlySession(f: Floor, g: Floor, s: nat) {
    && g.orders == f.orders && g.merges == f.merges && |g.sessions| == |f.sessions|
    && forall i | 0 <= i < |f.sessions| && i != s :: g.sessions[i] == f.sessions[i]
  }

  /** An active session moves to a table without an active one, and nothing else about it or the floor changes. */
  lemma MovesOnlyTable(f: Floor, s: nat, table: nat)
    ensures var g := MovedTo(f, s, table);
            if && s < |f.sessions| && (f.sessions[s].status == Open || f.sessions[s].status == PendingPayment)
               && (forall i | 0 <= i < |f.sessions| && f.sessions[i].table == table ::
                     f.sessions[i].status == Closed || f.sessions[i].status == Merged) then
              OnlySession(f, g, s) && g.sessions[s].table == table
              && g.sessions[s].(table := f.sessions[s].table) == f.sessions[s]
            else g == f
  {
  }

  /** A new session takes the table if no active one has it, with the guests it is given, or one, if the table seats
      them; nothing else changes. */
  lemma OpensOneSession(f: Floor, table: nat, status: Status, guests: Option<nat>, seats: nat)
    ensures var g := Opened(f, table, status, guests, seats);
            if && (forall i | 0 <= i < |f.sessions| && f.sessions[i].table == table ::
                     f.sessions[i].status == Closed || f.sessions[i].status == Merged)
               && (guests.Some? ==> guests.value <= if seats < 2 then 2 else if seats > 4 then 4 else seats) then
              && g.orders == f.orders && g.merges == f.merges
              && |g.sessions| == |f.sessions| + 1 && g.sessions[..|f.sessions|] == f.sessions
              && var new' := g.sessions[|f.sessions|];
                 && new'.table == table && new'.status == status && new'.into == None
                 && (guests.Some? ==> new'.guests == guests.value) && (guests.None? ==> new'.guests == 1)
            else g == f
  {
  }

  /** An order is placed on no session, or on one that is not closed, not merged and has no live order. */
  lemma PlacesOneOrder(f: Floor, session: Option<nat>)
    ensures var g := Placed(f, session);
            if session.Some? ==>
                 && session.value < |f.sessions|
                 && (f.sessions[session.value].status == Open || f.sessions[session.value].status == PendingPayment)
                 && (forall i | 0 <= i < |f.orders| && f.orders[i].session == session :: !f.orders[i].live) then
              && g.sessions == f.sessions && g.merges == f.merges
              && |g.orders| == |f.orders| + 1 && g.orders[..|f.orders|] == f.orders
              && g.orders[|f.orders|].session == session && g.orders[|f.orders|].live
              && g.orders[|f.orders|].placed == session
            else g == f
  {
  }

  /** Merging marks the source, with its target, and no other session. */
  lemma MergeMarksSource(f: Floor, target: nat, source: nat)
    ensures var g := MergedInto(f, target, source);
            if && target < |f.sessions| && source < |f.sessions| && source != target
               && (f.sessions[target].status == Open || f.sessions[target].status == PendingPayment)
               && (f.sessions[source].status == Open || f.sessions[source].status == PendingPayment) then
              && OnlySession(f, g.(orders := f.orders, merges := f.merges), source)
              && g.sessions[source].status == Merged && g.sessions[source].into == Some(target)
              && g.sessions[source].table == f.sessions[source].table
              && g.sessions[source].guests == f.sessions[source].guests && g.merges == f.merges + [source]
            else g == f
  {
  }

  /** Paying a live order closes it and the session it is on, and nothing else. */
  lemma PaymentClosesSession(f: Floor, o: nat)
    ensures var g := Settled(f, o);
            if o < |f.orders| && f.orders[o].live then
              && !g.orders[o].live && g.orders[o].(live := true) == f.orders[o]
              && |g.orders| == |f.orders| && g.merges == f.merges && |g.sessions| == |f.sessions|
              && (forall i | 0 <= i < |f.orders| && i != o :: g.orders[i] == f.orders[i])
              && (forall i | 0 <= i < |f.sessions| ::
                    g.sessions[i] == if f.orders[o].session == Some(i) then f.sessions[i].(status := Closed)
                                     else f.sessions[i])
            else g == f
  {
  }

  /** An update writes what it is given and keeps the rest, if no other session is active at the table that the session
      ends up at, and that table seats its guests. */
  lemma PatchWritesGiven(f: Floor, s: nat, change: Change)
    requires s < |f.sessions|
    ensures var g := Patched(f, s, change);
            var table := if change.table.Some? then change.table.value else f.sessions[s].table;
            var status := if change.status.Some? then change.status.value else f.sessions[s].status;
            var guests := if change.guests.Some? then change.guests.value else f.sessions[s].guests;
            if && (forall i | 0 <= i < |f.sessions| && i != s && f.sessions[i].table == table ::
                     f.sessions[i].status == Closed || f.sessions[i].status == Merged)
               && guests <= (if change.seats < 2 then 2 else if change.seats > 4 then 4 else change.seats) then
              OnlySession(f, g, s) && g.sessions[s] == Session(table, status, f.sessions[s].into, guests)
            else g == f
  {
  }

  // ----- The serializer's writable status -----

  /** An update through the serializer keeps the invariant exactly when it neither makes nor unmakes MERGED. */
  lemma PatchKeepsSoundIff(f: Floor, s: nat, change: Change)
    requires Sound(f) && CanPatch(f, s, change)
    ensures Sound(Patched(f, s, change))
            <==> (Changed(f.sessions[s], change).status == Merged <==> f.sessions[s].status == Merged)
  {
    var g := Patched(f, s, change);
    if Changed(f.sessions[s], change).status == Merged <==> f.sessions[s].status == Merged {
      assert Forest(g.sessions, f.merges);
      FollowSame(f, g.sessions);
    } else {
      assert g.sessions[s].into == f.sessions[s].into;
    }
  }

  lemma OpenKeepsSoundIff(f: Floor, table: nat, status: Status, guests: Option<nat>, seats: nat)
    requires Sound(f) && CanOpen(f, table, guests, seats)
    ensures Sound(Opened(f, table, status, guests, seats)) <==> status != Merged
  {
    var g := Opened(f, table, status, guests, seats);
    if status != Merged {
      OpenedSound(f, table, status, guests, seats);
    } else {
      assert g.sessions[|f.sessions|].status == Merged && g.sessions[|f.sessions|].into == None;
    }
  }

  // ----- Runs -----

  datatype Action =
    | OpenAt(table: nat, status: Status, guests: Option<nat>, seats: nat)
    | Place(session: Option<nat>)
    | Merge(target: nat, source: nat)
    | Settle(o: nat)
    | Move(s: nat, table: nat)
    | Patch(s: nat, change: Change)

  function Apply(f: Floor, a: Action): Floor {
    match a
    case OpenAt(table, status, guests, seats) => Opened(f, table, status, guests, seats)
    case Place(session) => Placed(f, session)
    case Merge(target, source) => MergedInto(f, target, source)
    case Settle(o) => Settled(f, o)
    case Move(s, table) => MovedTo(f, s, table)
    case Patch(s, change) => Patched(f, s, change)
  }

  /** The action does not write MERGED, or over MERGED, by hand. */
  predicate Tame(f: Floor, a: Action) {
    match a
    case OpenAt(_, status, _, _) => status != Merged
    case Patch(s, change) =>
      s < |f.sessions| ==> (Changed(f.sessions[s], change).status == Merged <==> f.sessions[s].status == Merged)
    case _ => true
  }

  function Run(f: Floor, actions: seq<Action>): Floor
    decreases |actions|
  {
    if actions == [] then f else Run(Apply(f, actions[0]), actions[1..])
  }

  predicate TameRun(f: Floor, actions: seq<Action>)
    decreases |actions|
  {
    actions == [] || (Tame(f, actions[0]) && TameRun(Apply(f, actions[0]), actions[1..]))
  }

  lemma StepSound(f: Floor, a: Action)
    requires Sound(f) && Tame(f, a)
    ensures Sound(Apply(f, a))
  {
    match a
    case OpenAt(table, status, guests, seats) => OpenedSound(f, table, status, guests, seats);
    case Place(session) => PlacedSound(f, session);
    case Merge(target, source) => MergedSound(f, target, source);
    case Settle(o) => SettledSound(f, o);
    case Move(s, table) => MovedToSound(f, s, table);
    case Patch(s, change) => if CanPatch(f, s, change) { PatchKeepsSoundIff(f, s, change); }
  }

  /** Over every run that does not write MERGED by hand: the merges form a forest, every order sits at the end of the
      chain of the session it was placed on, and no table has two active sessions. */
  lemma {:induction false} RunSound(f: Floor, actions: seq<Action>)
    requires Sound(f) && TameRun(f, actions)
    ensures Sound(Run(f, actions))
    decreases |actions|
  {
    if actions != [] {
      StepSound(f, actions[0]);
      RunSound(Apply(f, actions[0]), actions[1..]);
    }
  }

  lemma StepOneActiveEach(f: Floor, a: Action)
    requires OneActiveEach(f.sessions)
    ensures OneActiveEach(Apply(f, a).sessions)
  {
  }

  /** Over every run, whatever is written by hand, no table has two active sessions. */
  lemma {:induction false} RunOneActiveEach(f: Floor, actions: seq<Action>)
    requires OneActiveEach(f.sessions)
    ensures OneActiveEach(Run(f, actions).sessions)
    decreases |actions|
  {
    if actions != [] {
      StepOneActiveEach(f, actions[0]);
      RunOneActiveEach(Apply(f, actions[0]), actions[1..]);
    }
  }

  lemma EmptyFloorSound()
    ensures Sound(Floor([], [], []))
  {
  }

  /** Reopening a merged session by hand and merging back makes a cycle. */
  lemma ReopenedMergeMakesCycle()
    ensures var reopen := Change(None, Some(Open), None, 2);
            var f := Run(Floor([], [], []), [OpenAt(1, Open, None, 2), OpenAt(2, Open, None, 2), Merge(1, 0),
                                             Patch(0, reopen), Merge(0, 1)]);
            Chain(f.sessions, [0, 1, 0])
  {
    var reopen := Change(None, Some(Open), None, 2);
    RunFive(Floor([], [], []), OpenAt(1, Open, None, 2), OpenAt(2, Open, None, 2), Merge(1, 0), Patch(0, reopen),
        Merge(0, 1));
    TwoSessions();
    ReopenedSession();
  }

  lemma TwoSessions()
    ensures Opened(Opened(Floor([], [], []), 1, Open, None, 2), 2, Open, None, 2)
         == Floor([Session(1, Open, None, 1), Session(2, Open, None, 1)], [], [])
  {
  }

  lemma ReopenedSession()
    ensures var f := Floor([Session(1, Open, None, 1), Session(2, Open, None, 1)], [], []);
            var g := Patched(MergedInto(f, 1, 0), 0, Change(None, Some(Open), None, 2));
            && g == Floor([Session(1, Open, Some(1), 1), Session(2, Open, None, 1)], [], [0])
            && Chain(MergedInto(g, 0, 1).sessions, [0, 1, 0])
  {
  }

  lemma {:induction false} RunFive(f: Floor, a: Action, b: Action, c: Action, d: Action, e: Action)
    ensures Run(f, [a, b, c, d, e]) == Apply(Apply(Apply(Apply(Apply(f, a), b), c), d), e)
  {
    RunCons(f, a, [b, c, d, e]);
    RunCons(Apply(f, a), b, [c, d, e]);
    RunCons(Apply(Apply(f, a), b), c, [d, e]);
    RunCons(Apply(Apply(Apply(f, a), b), c), d, [e]);
    RunCons(Apply(Apply(Apply(Apply(f, a), b), c), d), e, []);
  }

  lemma {:induction false} RunCons(f: Floor, a: Action, rest: seq<Action>)
    ensures Run(f, [a] + rest) == Run(Apply(f, a), rest)
  {
    assert ([a] + rest)[1..] == rest;
  }

  /** Paying one of two orders brought together by a merge closes their session while the other is still live;
      paying the only live order of a session leaves none. */
  lemma PaymentLeavesLiveOrderIff(f: Floor, o: nat)
    requires Sound(f) && o < |f.orders| && f.orders[o].live && f.orders[o].session.Some?
    ensures var s := f.orders[o].session.value; var g := Settled(f, o);
            && s < |g.sessions| && g.sessions[s].status == Closed
            && (!NoLiveOrder(g, s) <==>
                  exists i :: 0 <= i < |f.orders| && i != o && f.orders[i].live && f.orders[i].session == Some(s))
            && (!NoLiveOrder(g, s) ==> exists i :: 0 <= i < |f.sessions| && f.sessions[i].into == Some(s))
  {
    var s := f.orders[o].session.value;
    var g := Settled(f, o);
    NoOrderOnMerged(f, o);
    assert forall i | 0 <= i < |f.orders| && i != o :: g.orders[i] == f.orders[i];
    if i :| 0 <= i < |f.orders| && i != o && f.orders[i].live && f.orders[i].session == Some(s) {
      assert g.orders[i].live && g.orders[i].session == Some(s);
      SharedOnlyByMerge(f, if i < o then i else o, if i < o then o else i);
    }
  }
}
