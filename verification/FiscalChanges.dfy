/** Registering a payment while its order changes: which items end up on two acknowledged receipts
    (apps/billing/services/order_payment.py, apps/integrations/services/unikassa.py). */
module FiscalChanges {
  import opened Options
  import opened Arithmetic
  import CashSale
  import opened FiscalReceipts
  import opened FiscalDevice
  import opened FiscalRetry
  import opened FiscalLosses
  import opened FiscalCompletion

  function IsItem(id: nat): Item -> int {
    (item: Item) => if item.id == id then 1 else 0
  }

  function Holding(id: nat): Part -> int {
    (p: Part) => SumBy(p.items, IsItem(id))
  }

  /** How often the parts hold an item. */
  function Times(parts: seq<Part>, id: nat): int {
    SumBy(parts, Holding(id))
  }

  /** The parts of a batch that the device acknowledged. */
  function AckedParts(parts: seq<Part>, results: seq<Result>): seq<Part>
    requires |results| == |parts|
  {
    if parts == [] then []
    else if results[0].Registered? then [parts[0]] + AckedParts(parts[1..], results[1..])
    else AckedParts(parts[1..], results[1..])
  }

  function TakenIn(parts: seq<Part>, percent: nat, outcome: Outcome): seq<Part> {
    if outcome.Unreachable? then []
    else AckedParts(parts, IssueAll(parts, percent, outcome.lastOperation, outcome.replies))
  }

  /** The receipts of a payment, and the parts that were acknowledged so far, each as the order stood then. */
  datatype Story = Story(ledger: Ledger, acked: seq<Part>)

  function Began(sold: Sale, paidBy: Method, first: Outcome): Story {
    var parts := BuildParts(sold, paidBy);
    Story(FirstIssue(parts, sold.vat, first), TakenIn(parts, sold.vat, first))
  }

  function Told(s: Story, paidBy: Method, round: Round): Story {
    var now, percent := BuildParts(round.order, paidBy), round.order.vat;
    Story(RetryOnce(s.ledger, now, percent, round.outcome).0,
      s.acked + TakenIn(Attempted(s.ledger, now), percent, round.outcome))
  }

  function Tale(s: Story, paidBy: Method, rounds: seq<Round>): Story
    decreases |rounds|
  {
    if rounds == [] then s else Tale(Told(s, paidBy, rounds[0]), paidBy, rounds[1..])
  }

  // ----- The history agrees with the log -----

  ghost predicate Stands(result: Result, part: Part) {
    result.Registered? && result.reason == part.reason && exists percent: nat :: Carries(result, part, percent)
  }

  /** Acknowledgement k is the receipt of acknowledged part k. */
  ghost predicate Recorded(log: seq<Result>, acked: seq<Part>) {
    |log| == |acked| && forall k | 0 <= k < |log| :: Stands(log[k], acked[k])
  }

  lemma RecordedConcat(log: seq<Result>, acked: seq<Part>, log': seq<Result>, acked': seq<Part>)
    requires Recorded(log, acked) && Recorded(log', acked')
    ensures Recorded(log + log', acked + acked')
  {
    forall k | 0 <= k < |log + log'|
      ensures Stands((log + log')[k], (acked + acked')[k])
    {
      if k < |log| {
        assert Stands(log[k], acked[k]);
      } else {
        assert Stands(log'[k - |log|], acked'[k - |log|]);
      }
    }
  }

  lemma {:induction false} BatchRecorded(parts: seq<Part>, percent: nat, results: seq<Result>)
    requires |results| == |parts|
    requires forall k | 0 <= k < |parts| ::
               results[k].reason == parts[k].reason && Carries(results[k], parts[k], percent)
    ensures Recorded(Filter(results, IsAck), AckedParts(parts, results))
  {
    if parts != [] {
      BatchRecorded(parts[1..], percent, results[1..]);
      if results[0].Registered? {
        assert Carries(results[0], parts[0], percent) && Stands(results[0], parts[0]);
        RecordedConcat([results[0]], [parts[0]], Filter(results[1..], IsAck), AckedParts(parts[1..], results[1..]));
      }
    }
  }

  lemma {:induction false} TakenRecorded(parts: seq<Part>, percent: nat, outcome: Outcome)
    ensures Recorded(AcksIn(parts, percent, outcome), TakenIn(parts, percent, outcome))
  {
    if outcome.Online? {
      IssueAllCarries(parts, percent, outcome.lastOperation, outcome.replies);
      BatchRecorded(parts, percent, IssueAll(parts, percent, outcome.lastOperation, outcome.replies));
    }
  }

  lemma BeganRecorded(sold: Sale, paidBy: Method, first: Outcome)
    ensures Recorded(Began(sold, paidBy, first).ledger.log, Began(sold, paidBy, first).acked)
  {
    ServiceAcks(BuildParts(sold, paidBy), sold.vat, [], first);
    TakenRecorded(BuildParts(sold, paidBy), sold.vat, first);
  }

  /** Whatever becomes of the order, the acknowledgements are the receipts of the acknowledged parts, the books balance,
      and no split reason is acknowledged twice. */
  lemma {:induction false} TaleKept(s: Story, paidBy: Method, rounds: seq<Round>)
    requires WellKept(s.ledger) && Recorded(s.ledger.log, s.acked)
    ensures WellKept(Tale(s, paidBy, rounds).ledger)
    ensures Recorded(Tale(s, paidBy, rounds).ledger.log, Tale(s, paidBy, rounds).acked)
    decreases |rounds|
  {
    if rounds != [] {
      var order, outcome := rounds[0].order, rounds[0].outcome;
      var now := BuildParts(order, paidBy);
      PartsAreToldApart(order, paidBy);
      RetryKept(s.ledger, now, order.vat, outcome);
      RetryLogs(s.ledger, now, order.vat, outcome);
      TakenRecorded(Attempted(s.ledger, now), order.vat, outcome);
      RecordedConcat(s.ledger.log, s.acked, AcksIn(Attempted(s.ledger, now), order.vat, outcome),
        TakenIn(Attempted(s.ledger, now), order.vat, outcome));
      TaleKept(Told(s, paidBy, rounds[0]), paidBy, rounds[1..]);
    }
  }

  // ----- An order holds each item once -----

  ghost predicate DistinctIds(sale: Sale) {
    forall i, j | 0 <= i < j < |sale.items| :: sale.items[i].id != sale.items[j].id
  }

  lemma {:induction false} HoldingNonNegative(items: seq<Item>, id: nat)
    ensures SumBy(items, IsItem(id)) >= 0
  {
    SumByNonNegative(items, IsItem(id));
  }

  lemma TimesNonNegative(parts: seq<Part>, id: nat)
    ensures Times(parts, id) >= 0
  {
    forall p | p in parts
      ensures Holding(id)(p) >= 0
    {
      HoldingNonNegative(p.items, id);
    }
    SumByNonNegative(parts, Holding(id));
  }

  lemma {:induction false} OncePerItem(items: seq<Item>, id: nat)
    requires forall i, j | 0 <= i < j < |items| :: items[i].id != items[j].id
    ensures 0 <= SumBy(items, IsItem(id)) <= 1
  {
    if at: nat :| at < |items| && items[at].id == id {
      SingleTerm(items, IsItem(id), at);
    } else {
      SingleTerm(items, IsItem(id), |items|);
    }
  }

  /** Selecting some elements only lowers a sum of non-negative terms. */
  lemma {:induction false} FilterSum<T>(s: seq<T>, p: T -> bool, f: T -> int)
    requires forall i | 0 <= i < |s| :: f(s[i]) >= 0
    ensures 0 <= SumBy(Filter(s, p), f) <= SumBy(s, f)
  {
    if s != [] {
      FilterSum(s[1..], p, f);
      assert p(s[0]) ==> Filter(s, p)[1..] == Filter(s[1..], p);
    }
  }

  /** The parts of an order hold each of its items at most once between them. */
  lemma PartsHoldOnce(sale: Sale, paidBy: Method, id: nat)
    requires DistinctIds(sale)
    ensures 0 <= Times(BuildParts(sale, paidBy), id) <= 1
  {
    var parts := BuildParts(sale, paidBy);
    OncePerItem(sale.items, id);
    FilterSum(sale.items, IsActive, IsItem(id));
    SplitActive(sale, IsItem(id));
    if |parts| == 1 {
      OnePartTakesAll(sale, paidBy);
      SumByOne(parts[0], Holding(id));
      assert parts == [parts[0]];
    } else if |parts| == 2 {
      SumByTwo(parts[0], parts[1], Holding(id));
      assert parts == [parts[0], parts[1]];
    }
  }

  lemma TimesCons(part: Part, rest: seq<Part>, id: nat)
    ensures Times([part] + rest, id) == Holding(id)(part) + Times(rest, id)
    ensures Holding(id)(part) >= 0
  {
    HoldingNonNegative(part.items, id);
    assert ([part] + rest)[1..] == rest;
  }

  lemma {:induction false} AckedPartsAtMost(parts: seq<Part>, results: seq<Result>, id: nat)
    requires |results| == |parts|
    ensures 0 <= Times(AckedParts(parts, results), id) <= Times(parts, id)
  {
    if parts != [] {
      AckedPartsAtMost(parts[1..], results[1..], id);
      TimesCons(parts[0], parts[1..], id);
      TimesCons(parts[0], AckedParts(parts[1..], results[1..]), id);
      assert [parts[0]] + parts[1..] == parts;
    }
  }

  lemma {:induction false} AllAcked(parts: seq<Part>, results: seq<Result>)
    requires |results| == |parts| && forall k | 0 <= k < |results| :: results[k].Registered?
    ensures AckedParts(parts, results) == parts
  {
    if parts != [] {
      AllAcked(parts[1..], results[1..]);
    }
  }

  lemma AttemptedAtMost(ledger: Ledger, parts: seq<Part>, id: nat)
    ensures 0 <= Times(Attempted(ledger, parts), id) <= Times(parts, id)
  {
    TimesNonNegative(parts, id);
    if RetryReasons(ledger.rows).Some? {
      forall i | 0 <= i < |parts|
        ensures Holding(id)(parts[i]) >= 0
      {
        HoldingNonNegative(parts[i].items, id);
      }
      FilterSum(parts, WantedBy(RetryReasons(ledger.rows).value), Holding(id));
    }
  }

  // ----- When an item is repeated -----

  /** No item stands on two acknowledged receipts. */
  ghost predicate NoneRepeated(acked: seq<Part>) {
    forall id: nat :: Times(acked, id) <= 1
  }

  lemma {:induction false} AckedHold(parts: seq<Part>, results: seq<Result>, id: nat)
    requires |results| == |parts|
    ensures Times(AckedParts(parts, results), id) > 0
            <==> exists i | 0 <= i < |parts| :: results[i].Registered? && Holding(id)(parts[i]) > 0
  {
    if parts != [] {
      AckedHold(parts[1..], results[1..], id);
      TimesCons(parts[0], AckedParts(parts[1..], results[1..]), id);
      TimesNonNegative(AckedParts(parts[1..], results[1..]), id);
      assert forall i | 0 < i < |parts| :: results[i] == results[1..][i - 1] && parts[i] == parts[1..][i - 1];
    }
  }

  lemma TakenHold(parts: seq<Part>, percent: nat, outcome: Outcome, id: nat)
    requires outcome.Online?
    ensures Times(TakenIn(parts, percent, outcome), id) > 0
            <==> exists i: nat | i < |parts| :: ReplyAt(outcome.replies, i).Accepts? && Holding(id)(parts[i]) > 0
  {
    var results := IssueAll(parts, percent, outcome.lastOperation, outcome.replies);
    AckedHold(parts, results, id);
    forall i: nat | i < |parts|
      ensures results[i].Registered? <==> ReplyAt(outcome.replies, i).Accepts?
    {
      IssuedAt(parts, percent, outcome.lastOperation, outcome.replies, i);
    }
  }

  lemma TakenAtMost(sent: seq<Part>, percent: nat, outcome: Outcome, id: nat)
    ensures 0 <= Times(TakenIn(sent, percent, outcome), id) <= Times(sent, id)
  {
    TimesNonNegative(sent, id);
    if outcome.Online? {
      AckedPartsAtMost(sent, IssueAll(sent, percent, outcome.lastOperation, outcome.replies), id);
    }
  }

  /** No part that the device accepts holds an item of a part acknowledged before. */
  ghost predicate NothingAgain(acked: seq<Part>, sent: seq<Part>, outcome: Outcome) {
    outcome.Online? ==>
      forall i: nat, id: nat | i < |sent| && ReplyAt(outcome.replies, i).Accepts? ::
        Times(acked, id) == 0 || Holding(id)(sent[i]) == 0
  }

  lemma BatchRepeats(acked: seq<Part>, sent: seq<Part>, percent: nat, outcome: Outcome, id: nat)
    requires Times(acked, id) <= 1 && Times(sent, id) <= 1
    ensures Times(acked + TakenIn(sent, percent, outcome), id) > 1 <==>
              && Times(acked, id) > 0 && outcome.Online?
              && exists i: nat | i < |sent| :: ReplyAt(outcome.replies, i).Accepts? && Holding(id)(sent[i]) > 0
  {
    TakenAtMost(sent, percent, outcome, id);
    TimesNonNegative(acked, id);
    SumByConcat(acked, TakenIn(sent, percent, outcome), Holding(id));
    if outcome.Online? {
      TakenHold(sent, percent, outcome, id);
    }
  }

  lemma BatchRepeatsIff(acked: seq<Part>, sent: seq<Part>, percent: nat, outcome: Outcome)
    requires NoneRepeated(acked) && NoneRepeated(sent)
    ensures NoneRepeated(acked + TakenIn(sent, percent, outcome)) <==> NothingAgain(acked, sent, outcome)
  {
    forall id: nat
      ensures Times(acked + TakenIn(sent, percent, outcome), id) > 1 <==>
                && Times(acked, id) > 0 && outcome.Online?
                && exists i: nat | i < |sent| :: ReplyAt(outcome.replies, i).Accepts? && Holding(id)(sent[i]) > 0
    {
      BatchRepeats(acked, sent, percent, outcome, id);
    }
    forall i: nat, id: nat | i < |sent|
      ensures Holding(id)(sent[i]) >= 0 && Times(acked, id) >= 0
    {
      HoldingNonNegative(sent[i].items, id);
      TimesNonNegative(acked, id);
    }
  }

  // ----- All the payments of one order -----

  datatype Slot = Slot(paidBy: Method, ledger: Ledger)

  /** The payments of an order with their receipts, and every part that was acknowledged for any of them. */
  datatype Book = Book(slots: seq<Slot>, acked: seq<Part>)

  /** A new payment is registered (unless its late submission is refused), or one there is retried. */
  datatype Move = First(paidBy: Method, submitted: bool, round: Round) | Again(k: nat, round: Round)

  /** The parts that a move sends, as the order is by then. */
  function Sends(b: Book, m: Move): seq<Part> {
    match m
    case First(paidBy, submitted, round) => if submitted then BuildParts(round.order, paidBy) else []
    case Again(k, round) =>
      if k < |b.slots| then Attempted(b.slots[k].ledger, BuildParts(round.order, b.slots[k].paidBy)) else []
  }

  function SlotsAfter(b: Book, m: Move): seq<Slot> {
    var order, outcome := m.round.order, m.round.outcome;
    match m
    case First(paidBy, submitted, _) =>
      b.slots + [Slot(paidBy,
        if submitted then FirstIssue(BuildParts(order, paidBy), order.vat, outcome) else Ledger([], []))]
    case Again(k, _) =>
      if k < |b.slots| then
        var paidBy := b.slots[k].paidBy;
        b.slots[k := Slot(paidBy, RetryOnce(b.slots[k].ledger, BuildParts(order, paidBy), order.vat, outcome).0)]
      else b.slots
  }

  function Moved(b: Book, m: Move): Book {
    Book(SlotsAfter(b, m), b.acked + TakenIn(Sends(b, m), m.round.order.vat, m.round.outcome))
  }

  function History(b: Book, moves: seq<Move>): Book
    decreases |moves|
  {
    if moves == [] then b else History(Moved(b, moves[0]), moves[1..])
  }

  lemma SendsOnce(b: Book, m: Move)
    requires DistinctIds(m.round.order)
    ensures NoneRepeated(Sends(b, m))
  {
    forall id: nat
      ensures Times(Sends(b, m), id) <= 1
    {
      match m
      case First(paidBy, _, round) => PartsHoldOnce(round.order, paidBy, id);
      case Again(k, round) =>
        if k < |b.slots| {
          PartsHoldOnce(round.order, b.slots[k].paidBy, id);
          AttemptedAtMost(b.slots[k].ledger, BuildParts(round.order, b.slots[k].paidBy), id);
        }
    }
  }

  /** A move repeats no item exactly when nothing it gets acknowledged holds an item acknowledged before, for whichever
      payment. */
  lemma MoveRepeatsIff(b: Book, m: Move)
    requires DistinctIds(m.round.order) && NoneRepeated(b.acked)
    ensures NoneRepeated(Moved(b, m).acked) <==> NothingAgain(b.acked, Sends(b, m), m.round.outcome)
  {
    SendsOnce(b, m);
    BatchRepeatsIff(b.acked, Sends(b, m), m.round.order.vat, m.round.outcome);
  }

  ghost predicate NeverAgain(b: Book, moves: seq<Move>)
    decreases |moves|
  {
    moves == []
    || (NothingAgain(b.acked, Sends(b, moves[0]), moves[0].round.outcome) && NeverAgain(Moved(b, moves[0]), moves[1..]))
  }

  lemma {:induction false} TimesGrow(b: Book, moves: seq<Move>, id: nat)
    ensures Times(History(b, moves).acked, id) >= Times(b.acked, id)
    decreases |moves|
  {
    if moves != [] {
      var taken := TakenIn(Sends(b, moves[0]), moves[0].round.order.vat, moves[0].round.outcome);
      SumByConcat(b.acked, taken, Holding(id));
      TimesNonNegative(taken, id);
      TimesGrow(Moved(b, moves[0]), moves[1..], id);
    }
  }

  /** Over any payments of an order and any retries, with any changes of the order between them, no item stands on two
      acknowledged receipts exactly when no move gets a part acknowledged that holds an item acknowledged before. */
  lemma {:induction false} RunRepeatsIff(b: Book, moves: seq<Move>)
    requires NoneRepeated(b.acked) && forall k | 0 <= k < |moves| :: DistinctIds(moves[k].round.order)
    ensures NoneRepeated(History(b, moves).acked) <==> NeverAgain(b, moves)
    decreases |moves|
  {
    if moves != [] {
      var next := Moved(b, moves[0]);
      MoveRepeatsIff(b, moves[0]);
      assert forall k | 0 <= k < |moves[1..]| :: moves[1..][k] == moves[k + 1];
      if NoneRepeated(next.acked) {
        RunRepeatsIff(next, moves[1..]);
      } else {
        var id: nat :| Times(next.acked, id) > 1;
        TimesGrow(next, moves[1..], id);
      }
    }
  }

  function Meeting(m: Move, outcome: Outcome): Move {
    m.(round := m.round.(outcome := outcome))
  }

  lemma MeetingMoved(b: Book, m: Move, outcome: Outcome)
    ensures Moved(b, Meeting(m, outcome)).acked == b.acked + TakenIn(Sends(b, m), m.round.order.vat, outcome)
  {
    assert Sends(b, Meeting(m, outcome)) == Sends(b, m);
  }

  lemma SomeBatchRepeats(acked: seq<Part>, sent: seq<Part>, percent: nat, id: nat)
    requires Times(acked, id) > 0 && Times(sent, id) > 0
    ensures !NoneRepeated(acked + TakenIn(sent, percent, AllAccepted(|sent|)))
  {
    AcceptingTakesAll(sent, percent);
    SumByConcat(acked, sent, Holding(id));
    assert Times(acked + sent, id) > 1;
  }

  lemma RepeatedWasAcked(acked: seq<Part>, sent: seq<Part>, percent: nat, outcome: Outcome) returns (id: nat)
    requires NoneRepeated(acked) && NoneRepeated(sent) && !NoneRepeated(acked + TakenIn(sent, percent, outcome))
    ensures Times(acked, id) > 0 && Times(sent, id) > 0
  {
    id :| Times(acked + TakenIn(sent, percent, outcome), id) > 1;
    TakenAtMost(sent, percent, outcome, id);
    SumByConcat(acked, TakenIn(sent, percent, outcome), Holding(id));
    assert Times(acked, id) <= 1 && Times(sent, id) <= 1;
  }

  /** Before the call: some outcome of a move puts an item on a second acknowledged receipt exactly when a part that the
      move sends holds an item acknowledged before. */
  lemma MoveCanRepeatIff(b: Book, m: Move)
    requires DistinctIds(m.round.order) && NoneRepeated(b.acked)
    ensures (exists outcome :: !NoneRepeated(Moved(b, Meeting(m, outcome)).acked))
            <==> (exists id: nat :: Times(b.acked, id) > 0 && Times(Sends(b, m), id) > 0)
  {
    var sent, percent := Sends(b, m), m.round.order.vat;
    if outcome :| !NoneRepeated(Moved(b, Meeting(m, outcome)).acked) {
      MeetingMoved(b, m, outcome);
      SendsOnce(b, m);
      var id := RepeatedWasAcked(b.acked, sent, percent, outcome);
    }
    if id: nat :| Times(b.acked, id) > 0 && Times(sent, id) > 0 {
      MeetingMoved(b, m, AllAccepted(|sent|));
      SomeBatchRepeats(b.acked, sent, percent, id);
    }
  }

  lemma {:induction false} HistoryTwo(b: Book, m: Move, n: Move)
    ensures History(b, [m, n]) == Moved(Moved(b, m), n)
  {
    assert [m, n][1..] == [n] && [n][1..] == [];
    assert History(Moved(b, m), [n]) == Moved(Moved(b, m), n);
  }

  /** An order paid and registered in cash while a card payment waits for its terminal: the late success registers the
      whole order again. */
  lemma {:induction false} SecondPaymentRepeats()
    ensures var round := Round(Sale([FREE], 100, 100, 0), AllAccepted(1));
            Times(History(Book([], []), [First(Cash, true, round), First(Card, true, round)]).acked, FREE.id) == 2
  {
    var round := Round(Sale([FREE], 100, 100, 0), AllAccepted(1));
    PlainOrder();
    HistoryTwo(Book([], []), First(Cash, true, round), First(Card, true, round));
    BothAcked(Part([FREE], 0, PayCash, WHOLE), Part([FREE], 0, PayCard, WHOLE));
  }

  lemma BothAcked(a: Part, b: Part)
    requires a.items == b.items == [FREE]
    ensures Times([] + TakenIn([a], 0, AllAccepted(1)) + TakenIn([b], 0, AllAccepted(1)), FREE.id) == 2
  {
    AcceptingTakesAll([a], 0);
    AcceptingTakesAll([b], 0);
    assert [] + [a] == [a];
    SumByConcat([a], [b], Holding(FREE.id));
    SumByOne(a, Holding(FREE.id));
    SumByOne(b, Holding(FREE.id));
    SumByOne(FREE, IsItem(FREE.id));
  }

  lemma AcceptingTakesAll(parts: seq<Part>, percent: nat)
    ensures TakenIn(parts, percent, AllAccepted(|parts|)) == parts
  {
    var replies := AllAccepted(|parts|).replies;
    AcceptedAreRegistered(parts, percent, None, replies);
    var results := IssueAll(parts, percent, None, replies);
    assert forall k | 0 <= k < |results| :: results[k] in results;
    AllAcked(parts, results);
  }

  // ----- As long as the order stays as it was sold -----

  lemma {:induction false} SubsetSum(some: seq<Part>, all: seq<Part>, f: Part -> int)
    requires WellSplit(some) && forall i | 0 <= i < |some| :: some[i] in all
    requires forall i | 0 <= i < |all| :: f(all[i]) >= 0
    ensures SumBy(some, f) <= SumBy(all, f)
  {
    if some == [] {
      SumByNonNegative(all, f);
    } else {
      var at :| 0 <= at < |all| && all[at] == some[0];
      var rest := all[..at] + all[at + 1..];
      WithoutSum(all, at, f);
      forall i | 0 <= i < |some[1..]|
        ensures some[1..][i] in rest
      {
        var k :| 0 <= k < |all| && all[k] == some[i + 1];
        assert rest[if k < at then k else k - 1] == all[k];
      }
      SubsetSum(some[1..], rest, f);
    }
  }

  lemma {:induction false} WithoutSum(all: seq<Part>, at: nat, f: Part -> int)
    requires at < |all|
    ensures SumBy(all[..at] + all[at + 1..], f) == SumBy(all, f) - f(all[at])
  {
    assert all == all[..at] + ([all[at]] + all[at + 1..]);
    SumByConcat(all[..at], [all[at]] + all[at + 1..], f);
    SumByConcat([all[at]], all[at + 1..], f);
    SumByOne(all[at], f);
    SumByConcat(all[..at], all[at + 1..], f);
  }

  lemma {:induction false} AckedIn(parts: seq<Part>, results: seq<Result>)
    requires |results| == |parts|
    ensures forall part | part in AckedParts(parts, results) :: part in parts
  {
    if parts != [] {
      AckedIn(parts[1..], results[1..]);
    }
  }

  lemma TakenAreParts(s: Story, parts: seq<Part>, percent: nat, outcome: Outcome)
    requires WellSplit(parts)
    ensures forall part | part in TakenIn(Attempted(s.ledger, parts), percent, outcome) :: part in parts
  {
    var sent := Attempted(s.ledger, parts);
    AttemptedAreParts(s.ledger, parts);
    if outcome.Online? {
      AckedIn(sent, IssueAll(sent, percent, outcome.lastOperation, outcome.replies));
    }
  }

  lemma {:induction false} TaleOfSale(s: Story, sale: Sale, paidBy: Method, rounds: seq<Round>)
    requires forall part | part in s.acked :: part in BuildParts(sale, paidBy)
    requires forall k | 0 <= k < |rounds| :: rounds[k].order == sale
    ensures forall part | part in Tale(s, paidBy, rounds).acked :: part in BuildParts(sale, paidBy)
    decreases |rounds|
  {
    if rounds != [] {
      PartsAreToldApart(sale, paidBy);
      TakenAreParts(s, BuildParts(sale, paidBy), sale.vat, rounds[0].outcome);
      assert rounds[0].order == sale;
      assert forall k | 0 <= k < |rounds[1..]| :: rounds[1..][k] == rounds[k + 1];
      TaleOfSale(Told(s, paidBy, rounds[0]), sale, paidBy, rounds[1..]);
    }
  }

  lemma {:induction false} LoggedOnce(log: seq<Result>, j: nat, k: nat)
    requires j < k < |log| && Registrations(log, log[j].reason) <= 1
    ensures log[j].reason != log[k].reason
  {
    var f := Concerns(log[j].reason);
    assert log == log[..k] + ([log[k]] + log[k + 1..]);
    SumByConcat(log[..k], [log[k]] + log[k + 1..], f);
    SumByConcat([log[k]], log[k + 1..], f);
    SumByOne(log[k], f);
    RegistrationsNonNegative(log[k + 1..], log[j].reason);
    CountsOne(log[..k], j, log[j].reason);
  }

  lemma {:induction false} CountsOne(log: seq<Result>, j: nat, reason: Reason)
    requires j < |log| && log[j].reason == reason
    ensures Registrations(log, reason) >= 1
  {
    RegistrationsNonNegative(log[1..], reason);
    if j > 0 {
      CountsOne(log[1..], j - 1, reason);
    }
  }

  lemma {:induction false} AckedToldApart(s: Story)
    requires WellKept(s.ledger) && Recorded(s.ledger.log, s.acked)
    requires forall k | 0 <= k < |s.acked| :: s.acked[k].reason != Absent
    ensures WellSplit(s.acked)
  {
    var log := s.ledger.log;
    forall j: nat, k: nat | j < k < |s.acked|
      ensures s.acked[j].reason != s.acked[k].reason
    {
      ReasonAcknowledgedOnce(s.ledger, log[j].reason);
      LoggedOnce(log, j, k);
      assert Stands(log[j], s.acked[j]) && Stands(log[k], s.acked[k]);
    }
  }

  /** As long as the order and the catalogue stay as they were sold, no item is repeated over any retries. */
  lemma {:induction false} UnchangedNeverRepeats(sale: Sale, paidBy: Method, first: Outcome, rounds: seq<Round>)
    requires DistinctIds(sale) && forall k | 0 <= k < |rounds| :: rounds[k].order == sale
    ensures NoneRepeated(Tale(Began(sale, paidBy, first), paidBy, rounds).acked)
  {
    var parts, began := BuildParts(sale, paidBy), Began(sale, paidBy, first);
    var s := Tale(began, paidBy, rounds);
    PartsAreToldApart(sale, paidBy);
    FirstIssueKept(parts, sale.vat, first);
    BeganRecorded(sale, paidBy, first);
    TaleKept(began, paidBy, rounds);
    if first.Online? {
      AckedIn(parts, IssueAll(parts, sale.vat, first.lastOperation, first.replies));
    }
    TaleOfSale(began, sale, paidBy, rounds);
    assert forall k | 0 <= k < |s.acked| :: s.acked[k] in parts;
    AckedToldApart(s);
    forall id: nat
      ensures Times(s.acked, id) <= 1
    {
      PartsHoldOnce(sale, paidBy, id);
      forall i | 0 <= i < |parts|
        ensures Holding(id)(parts[i]) >= 0
      {
        HoldingNonNegative(parts[i].items, id);
      }
      SubsetSum(s.acked, parts, Holding(id));
    }
  }

  // ----- A case in point -----

  /** Two items are sold for cash, one of them cash-forbidden; only the other's receipt is registered. Then that one is
      flagged as well: the retry registers it a second time. */
  lemma ReflaggedItemIsRepeated()
    ensures var flagged := FREE.(itemPayload := FORBIDDEN);
            var sold, changed := Sale([FREE, BOUND], 200, 200, 0), Sale([flagged, BOUND], 200, 200, 0);
            var began := Began(sold, Cash, Online(None, [Accepts(0, None, 0), Refuses(0, 0)]));
            Times(Tale(began, Cash, [Round(changed, AllAccepted(1))]).acked, FREE.id) == 2
  {
    var flagged := FREE.(itemPayload := FORBIDDEN);
    var sold, changed := Sale([FREE, BOUND], 200, 200, 0), Sale([flagged, BOUND], 200, 200, 0);
    var first := Online(None, [Accepts(0, None, 0), Refuses(0, 0)]);
    var began, round := Began(sold, Cash, first), Round(changed, AllAccepted(1));
    SplitOrder();
    ReflaggedOrder();
    var parts, now := BuildParts(sold, Cash), BuildParts(changed, Cash);
    assert parts == [parts[0], parts[1]] && now == [now[0]];
    RetakenParts(parts[0], parts[1], now[0]);
    TaleOne(began, Cash, round);
    HeldTwice(parts[0], now[0]);
  }

  lemma {:induction false} TaleOne(s: Story, paidBy: Method, round: Round)
    ensures Tale(s, paidBy, [round]) == Told(s, paidBy, round)
  {
    assert [round][1..] == [];
  }

  lemma RetakenParts(a: Part, b: Part, c: Part)
    requires a.reason != Absent && b.reason != Absent && a.reason != b.reason && c.reason == b.reason
    ensures var first := Online(None, [Accepts(0, None, 0), Refuses(0, 0)]);
            && TakenIn([a, b], 0, first) == [a]
            && TakenIn(Attempted(FirstIssue([a, b], 0, first), [c]), 0, AllAccepted(1)) == [c]
  {
    FirstTaken(a, b);
    SecondPending(a, b, c);
    AcceptingTakesAll([c], 0);
  }

  lemma HeldTwice(a: Part, b: Part)
    requires a.items == [FREE] && b.items == [FREE.(itemPayload := FORBIDDEN), BOUND]
    ensures Times([a] + [b], FREE.id) == 2
  {
    SumByConcat([a], [b], Holding(FREE.id));
    SumByOne(a, Holding(FREE.id));
    SumByOne(b, Holding(FREE.id));
    SumByOne(FREE, IsItem(FREE.id));
    SumByTwo(FREE.(itemPayload := FORBIDDEN), BOUND, IsItem(FREE.id));
  }

  lemma ReflaggedOrder()
    ensures var flagged := FREE.(itemPayload := FORBIDDEN);
            BuildParts(Sale([flagged, BOUND], 200, 200, 0), Cash)
                == [Part([flagged, BOUND], 0, PayCard, CASH_FORBIDDEN)]
  {
    ForbiddenForbids(FREE);
    ForbiddenForbids(BOUND);
    TwoItems(FREE.(itemPayload := FORBIDDEN), BOUND);
  }

  lemma FirstTaken(a: Part, b: Part)
    ensures TakenIn([a, b], 0, Online(None, [Accepts(0, None, 0), Refuses(0, 0)])) == [a]
  {
    IssueTwo(a, b, Accepts(0, None, 0), Refuses(0, 0));
    var first, second := Attempt(a, 0, None, Accepts(0, None, 0)), Rejected(b.reason);
    assert [a, b][1..] == [b] && [first, second][1..] == [second] && [second][1..] == [] && [b][1..] == [];
    assert AckedParts([b], [second]) == [];
  }

  /** After the first of two parts was acknowledged, a retry sends what now carries the second part's reason. */
  lemma SecondPending(a: Part, b: Part, c: Part)
    requires a.reason != Absent && b.reason != Absent && a.reason != b.reason && c.reason == b.reason
    ensures var ledger := FirstIssue([a, b], 0, Online(None, [Accepts(0, None, 0), Refuses(0, 0)]));
            Attempted(ledger, [c]) == [c]
  {
    var ledger := FirstIssue([a, b], 0, Online(None, [Accepts(0, None, 0), Refuses(0, 0)]));
    var first, second := RowOf(Attempt(a, 0, None, Accepts(0, None, 0))), RowOf(Rejected(b.reason));
    FirstRows(a, b);
    SecondRowPending(first, second);
    assert ledger.rows[0].IsSent();
    AttemptsSecond(ledger, b.reason, c);
  }

  lemma AttemptsSecond(ledger: Ledger, reason: Reason, c: Part)
    requires SomeSent(ledger.rows) && PendingIds(ledger.rows) == [1] && |ledger.rows| == 2 && c.reason == reason
    requires PendingReasons(ledger.rows, [1]) == [reason]
    ensures Attempted(ledger, [c]) == [c]
  {
    FilterOne(c, WantedBy([reason]));
  }

  lemma SecondRowPending(first: Row, second: Row)
    requires first.IsSent() && !second.IsSent() && second.payload.reason != Absent
    ensures PendingIds([first, second]) == [1]
    ensures PendingReasons([first, second], [1]) == [second.payload.reason]
  {
    assert [first, second][..1] == [first] && [first][..0] == [];
    assert PendingIds([first]) == [];
    var one: seq<nat> := [1];
    assert one[..0] == [];
    assert PendingReasons([first, second], one[..0]) == [];
  }
}
