/** What the fiscal device holds when answers get lost on their way back
    (apps/integrations/services/unikassa.py, apps/billing/services/order_payment.py). */
module FiscalLosses {
  import opened Options
  import opened Arithmetic
  import opened FiscalReceipts
  import opened FiscalDevice
  import opened FiscalRetry

  function Copies(result: Result, n: nat): seq<Result> {
    seq(n, _ => result)
  }

  /** What one attempt registers at the device without an answer ever arriving. */
  function LostBy(part: Part, percent: nat, last: Option<int>, reply: Reply): seq<Result> {
    Copies(Registered(part.reason, ReceiptFor(part, percent, last, reply.now), None), reply.lost)
  }

  function LostAll(parts: seq<Part>, percent: nat, last: Option<int>, replies: seq<Reply>): seq<Result> {
    if parts == [] then []
    else
      var result := Attempt(parts[0], percent, last, HeadReply(replies));
      LostBy(parts[0], percent, last, HeadReply(replies))
      + LostAll(parts[1..], percent, MemoryAfter(result, last), Rest(replies))
  }

  /** The registrations of a batch whose answers were lost, and those that were acknowledged. */
  function LostIn(parts: seq<Part>, percent: nat, outcome: Outcome): seq<Result> {
    if outcome.Unreachable? then [] else LostAll(parts, percent, outcome.lastOperation, outcome.replies)
  }

  function AcksIn(parts: seq<Part>, percent: nat, outcome: Outcome): seq<Result> {
    if outcome.Unreachable? then []
    else Filter(IssueAll(parts, percent, outcome.lastOperation, outcome.replies), IsAck)
  }

  /** The parts that a retry sends. */
  function Attempted(ledger: Ledger, parts: seq<Part>): seq<Part> {
    if SomeSent(ledger.rows) && PendingIds(ledger.rows) == [] then []
    else
      match RetryReasons(ledger.rows)
      case None => []
      case Some(reasons) => if reasons == [] then parts else Filter(parts, WantedBy(reasons))
  }

  /** The log of a retry grows by the acknowledgements of the parts it sends. */
  lemma RetryLogs(ledger: Ledger, parts: seq<Part>, percent: nat, outcome: Outcome)
    ensures RetryOnce(ledger, parts, percent, outcome).0.log
         == ledger.log + AcksIn(Attempted(ledger, parts), percent, outcome)
  {
    if !(SomeSent(ledger.rows) && PendingIds(ledger.rows) == []) && RetryReasons(ledger.rows).Some? {
      ServiceAcks(parts, percent, RetryReasons(ledger.rows).value, outcome);
    } else {
      assert IssueAll([], percent, None, []) == [];
    }
  }

  lemma {:induction false} ServiceAcks(parts: seq<Part>, percent: nat, reasons: seq<Reason>, outcome: Outcome)
    ensures Filter(ServiceResults(parts, percent, reasons, outcome), IsAck)
         == AcksIn(if reasons == [] then parts else Filter(parts, WantedBy(reasons)), percent, outcome)
  {
    var chosen := if reasons == [] then parts else Filter(parts, WantedBy(reasons));
    if outcome.Unreachable? || chosen == [] {
      NoAcks(if reasons == [] then [Rejected(Absent)] else Failures(reasons));
    }
  }

  // ----- The device's own account -----

  /** The rows and acknowledgements of a payment, and what the device registered beside them. */
  datatype Account = Account(ledger: Ledger, lost: seq<Result>)

  function Held(a: Account): seq<Result> {
    a.ledger.log + a.lost
  }

  function FirstAccount(parts: seq<Part>, percent: nat, outcome: Outcome): Account {
    Account(FirstIssue(parts, percent, outcome), LostIn(parts, percent, outcome))
  }

  function AfterRetry(a: Account, parts: seq<Part>, percent: nat, outcome: Outcome): Account {
    Account(RetryOnce(a.ledger, parts, percent, outcome).0,
      a.lost + LostIn(Attempted(a.ledger, parts), percent, outcome))
  }

  ghost predicate AtMostOnce(held: seq<Result>) {
    forall reason :: Registrations(held, reason) <= 1
  }

  /** Within one attempt the receipt is not posted again after the device registered it. */
  predicate PostedOnce(reply: Reply) {
    Posts(reply) <= 1
  }

  ghost predicate OnePostEach(outcome: Outcome) {
    outcome.Online? ==> forall r | r in outcome.replies :: PostedOnce(r)
  }

  lemma {:induction false} RegistrationsNonNegative(held: seq<Result>, reason: Reason)
    ensures Registrations(held, reason) >= 0
  {
    SumByNonNegative(held, Concerns(reason));
  }

  lemma {:induction false} CopiesCount(result: Result, n: nat, reason: Reason)
    ensures Registrations(Copies(result, n), reason) == if result.reason == reason then n else 0
  {
    if n > 0 {
      assert Copies(result, n)[1..] == Copies(result, n - 1);
      CopiesCount(result, n - 1, reason);
    }
  }

  /** How often a batch registers a part: what was acknowledged and what was lost. */
  function BatchCount(parts: seq<Part>, percent: nat, last: Option<int>, replies: seq<Reply>, reason: Reason): int {
    Registrations(Filter(IssueAll(parts, percent, last, replies), IsAck), reason)
    + Registrations(LostAll(parts, percent, last, replies), reason)
  }

  lemma BatchCountStep(parts: seq<Part>, percent: nat, last: Option<int>, replies: seq<Reply>, reason: Reason)
    requires parts != []
    ensures var reply := HeadReply(replies);
            var memory := MemoryAfter(Attempt(parts[0], percent, last, reply), last);
            BatchCount(parts, percent, last, replies, reason)
            == BatchCount(parts[1..], percent, memory, Rest(replies), reason)
               + if parts[0].reason == reason then reply.lost + (if reply.Accepts? then 1 else 0) else 0
  {
    var reply := HeadReply(replies);
    var result := Attempt(parts[0], percent, last, reply);
    var memory := MemoryAfter(result, last);
    var rest := IssueAll(parts[1..], percent, memory, Rest(replies));
    assert IssueAll(parts, percent, last, replies) == [result] + rest;
    assert ([result] + rest)[1..] == rest;
    var lost := LostBy(parts[0], percent, last, reply);
    SumByConcat(lost, LostAll(parts[1..], percent, memory, Rest(replies)), Concerns(reason));
    CopiesCount(Registered(parts[0].reason, ReceiptFor(parts[0], percent, last, reply.now), None), reply.lost, reason);
    if result.Registered? {
      SumByConcat([result], Filter(rest, IsAck), Concerns(reason));
      SumByOne(result, Concerns(reason));
    }
  }

  /** How often the device registers one receipt during an attempt. */
  function Posts(reply: Reply): nat {
    reply.lost + if reply.Accepts? then 1 else 0
  }

  function PostsOf(parts: seq<Part>, replies: seq<Reply>, reason: Reason): nat {
    if parts == [] then 0
    else
      (if parts[0].reason == reason then Posts(HeadReply(replies)) else 0) + PostsOf(parts[1..], Rest(replies), reason)
  }

  lemma {:induction false} BatchCountIsPosts(
      parts: seq<Part>, percent: nat, last: Option<int>, replies: seq<Reply>, reason: Reason)
    ensures BatchCount(parts, percent, last, replies, reason) == PostsOf(parts, replies, reason)
  {
    if parts != [] {
      BatchCountStep(parts, percent, last, replies, reason);
      var memory := MemoryAfter(Attempt(parts[0], percent, last, HeadReply(replies)), last);
      BatchCountIsPosts(parts[1..], percent, memory, Rest(replies), reason);
    }
  }

  lemma {:induction false} NoPosts(parts: seq<Part>, replies: seq<Reply>, reason: Reason)
    requires forall i | 0 <= i < |parts| :: parts[i].reason != reason
    ensures PostsOf(parts, replies, reason) == 0
  {
    if parts != [] {
      NoPosts(parts[1..], Rest(replies), reason);
    }
  }

  lemma {:induction false} PostsAt(parts: seq<Part>, replies: seq<Reply>, i: nat)
    requires WellSplit(parts) && i < |parts|
    ensures PostsOf(parts, replies, parts[i].reason) == Posts(ReplyAt(replies, i))
  {
    if i == 0 {
      NoPosts(parts[1..], Rest(replies), parts[0].reason);
    } else {
      assert parts[0].reason != parts[i].reason;
      PostsAt(parts[1..], Rest(replies), i - 1);
    }
  }

  /** A batch registers none but its own parts ... */
  lemma BatchCountNone(parts: seq<Part>, percent: nat, last: Option<int>, replies: seq<Reply>, reason: Reason)
    requires forall i | 0 <= i < |parts| :: parts[i].reason != reason
    ensures BatchCount(parts, percent, last, replies, reason) == 0
  {
    BatchCountIsPosts(parts, percent, last, replies, reason);
    NoPosts(parts, replies, reason);
  }

  /** ... and each of them as often as its own attempt did. */
  lemma BatchCountAt(parts: seq<Part>, percent: nat, last: Option<int>, replies: seq<Reply>, i: nat)
    requires WellSplit(parts) && i < |parts|
    ensures BatchCount(parts, percent, last, replies, parts[i].reason) == Posts(ReplyAt(replies, i))
  {
    BatchCountIsPosts(parts, percent, last, replies, parts[i].reason);
    PostsAt(parts, replies, i);
  }

  lemma HeldAfter(a: Account, parts: seq<Part>, percent: nat, outcome: Outcome, reason: Reason)
    ensures var sent := Attempted(a.ledger, parts);
            Registrations(Held(AfterRetry(a, parts, percent, outcome)), reason)
            == Registrations(Held(a), reason)
               + if outcome.Unreachable? then 0
                 else BatchCount(sent, percent, outcome.lastOperation, outcome.replies, reason)
  {
    var sent := Attempted(a.ledger, parts);
    var acks, lost := AcksIn(sent, percent, outcome), LostIn(sent, percent, outcome);
    RetryLogs(a.ledger, parts, percent, outcome);
    SumByConcat(a.ledger.log + acks, a.lost + lost, Concerns(reason));
    SumByConcat(a.ledger.log, acks, Concerns(reason));
    SumByConcat(a.lost, lost, Concerns(reason));
    SumByConcat(a.ledger.log, a.lost, Concerns(reason));
  }

  // ----- When retries are safe -----

  lemma {:induction false} FilterIn(parts: seq<Part>, p: Part -> bool, i: nat) returns (k: nat)
    requires i < |Filter(parts, p)|
    ensures k < |parts| && parts[k] == Filter(parts, p)[i]
  {
    assert Filter(parts, p)[i] in Filter(parts, p);
    k :| k < |parts| && parts[k] == Filter(parts, p)[i];
  }

  lemma {:induction false} FilterDistinct(parts: seq<Part>, p: Part -> bool)
    requires WellSplit(parts)
    ensures WellSplit(Filter(parts, p))
    ensures forall i | 0 <= i < |Filter(parts, p)| :: Filter(parts, p)[i] in parts
  {
    if parts != [] {
      FilterDistinct(parts[1..], p);
      forall i: nat | i < |Filter(parts[1..], p)|
        ensures Filter(parts[1..], p)[i].reason != parts[0].reason
        ensures Filter(parts[1..], p)[i] in parts
      {
        var k := FilterIn(parts[1..], p, i);
        assert parts[k + 1] == parts[1..][k];
      }
    }
  }

  lemma AttemptedWellSplit(ledger: Ledger, parts: seq<Part>)
    requires WellSplit(parts)
    ensures WellSplit(Attempted(ledger, parts))
  {
    if RetryReasons(ledger.rows).Some? {
      FilterDistinct(parts, WantedBy(RetryReasons(ledger.rows).value));
    }
  }

  /** A retry never sends a part that was acknowledged. */
  lemma AttemptedUnacknowledged(ledger: Ledger, parts: seq<Part>, percent: nat, i: nat)
    requires Valid(ledger, parts, percent) && i < |Attempted(ledger, parts)|
    ensures Registrations(ledger.log, Attempted(ledger, parts)[i].reason) == 0
  {
    var rows, part := ledger.rows, Attempted(ledger, parts)[i];
    RegisteredAtMostOnce(ledger, parts, percent, part.reason);
    if SomeSent(rows) {
      AttemptedWanted(ledger, parts, i);
      assert RowsMatchParts(rows, parts, percent);
      WantedNotSent(rows, parts, part.reason);
    }
  }

  lemma {:induction false} AttemptedWanted(ledger: Ledger, parts: seq<Part>, i: nat)
    requires SomeSent(ledger.rows) && i < |Attempted(ledger, parts)|
    ensures Attempted(ledger, parts)[i].reason in PendingReasons(ledger.rows, PendingIds(ledger.rows))
  {
    var reasons := PendingReasons(ledger.rows, PendingIds(ledger.rows));
    assert Attempted(ledger, parts) == Filter(parts, WantedBy(reasons));
    assert Attempted(ledger, parts)[i] in Filter(parts, WantedBy(reasons));
  }

  lemma {:induction false} WantedNotSent(rows: seq<Row>, parts: seq<Part>, reason: Reason)
    requires WellSplit(parts) && |rows| == |parts| && reason in PendingReasons(rows, PendingIds(rows))
    requires forall i | 0 <= i < |rows| :: rows[i].payload.reason == parts[i].reason
    ensures forall i | 0 <= i < |rows| && rows[i].IsSent() :: rows[i].payload.reason != reason
  {
    PendingReasonsInOrder(rows, PendingIds(rows), parts);
    WantedIsPending(rows, parts, PendingIds(rows), PendingReasons(rows, PendingIds(rows)), reason);
  }

  lemma WantedIsPending(
      rows: seq<Row>, parts: seq<Part>, pending: seq<nat>, reasons: seq<Reason>, reason: Reason)
    requires WellSplit(parts) && |rows| == |parts| && |reasons| == |pending| && reason in reasons
    requires forall i | 0 <= i < |rows| :: rows[i].payload.reason == parts[i].reason
    requires forall j | 0 <= j < |pending| :: pending[j] < |rows| && !rows[pending[j]].IsSent()
    requires forall j | 0 <= j < |pending| :: reasons[j] == parts[pending[j]].reason
    ensures forall i | 0 <= i < |rows| && rows[i].IsSent() :: rows[i].payload.reason != reason
  {
    var j :| 0 <= j < |reasons| && reasons[j] == reason;
    ReasonOfPending(rows, parts, pending[j]);
  }

  lemma {:induction false} ReasonOfPending(rows: seq<Row>, parts: seq<Part>, j: nat)
    requires WellSplit(parts) && |rows| == |parts| && j < |rows| && !rows[j].IsSent()
    requires forall i | 0 <= i < |rows| :: rows[i].payload.reason == parts[i].reason
    ensures forall i | 0 <= i < |rows| && rows[i].IsSent() :: rows[i].payload.reason != parts[j].reason
  {
    forall i | 0 <= i < |rows| && rows[i].IsSent()
      ensures rows[i].payload.reason != parts[j].reason
    {
      assert parts[i].reason != parts[j].reason;
    }
  }

  /** No part that the next retry sends has already been registered behind a lost answer. */
  ghost predicate NothingLostIsSent(a: Account, parts: seq<Part>) {
    forall i | 0 <= i < |Attempted(a.ledger, parts)| ::
      Registrations(a.lost, Attempted(a.ledger, parts)[i].reason) == 0
  }

  ghost predicate Sound(a: Account, parts: seq<Part>, percent: nat) {
    Valid(a.ledger, parts, percent) && LostFit(a.lost, parts, percent)
  }

  /** For every part that the retry sends: what a lost answer registered before, and what this attempt registers, is no
      more than one receipt. */
  predicate SafeFor(a: Account, parts: seq<Part>, outcome: Outcome) {
    var sent := Attempted(a.ledger, parts);
    outcome.Online? ==>
      forall i | 0 <= i < |sent| :: Registrations(a.lost, sent[i].reason) + Posts(ReplyAt(outcome.replies, i)) <= 1
  }

  lemma HeldOfSent(a: Account, parts: seq<Part>, percent: nat, outcome: Outcome, i: nat)
    requires Valid(a.ledger, parts, percent) && outcome.Online? && i < |Attempted(a.ledger, parts)|
    ensures var reason := Attempted(a.ledger, parts)[i].reason;
            Registrations(Held(AfterRetry(a, parts, percent, outcome)), reason)
            == Registrations(a.lost, reason) + Posts(ReplyAt(outcome.replies, i))
  {
    var sent := Attempted(a.ledger, parts);
    AttemptedWellSplit(a.ledger, parts);
    HeldAfter(a, parts, percent, outcome, sent[i].reason);
    BatchCountAt(sent, percent, outcome.lastOperation, outcome.replies, i);
    AttemptedUnacknowledged(a.ledger, parts, percent, i);
    SumByConcat(a.ledger.log, a.lost, Concerns(sent[i].reason));
  }

  lemma HeldOfOthers(a: Account, parts: seq<Part>, percent: nat, outcome: Outcome, reason: Reason)
    requires outcome.Online? ==>
               forall i | 0 <= i < |Attempted(a.ledger, parts)| :: Attempted(a.ledger, parts)[i].reason != reason
    ensures Registrations(Held(AfterRetry(a, parts, percent, outcome)), reason) == Registrations(Held(a), reason)
  {
    HeldAfter(a, parts, percent, outcome, reason);
    if outcome.Online? {
      BatchCountNone(Attempted(a.ledger, parts), percent, outcome.lastOperation, outcome.replies, reason);
    }
  }

  /** Whatever the device does, a retry leaves it holding every part at most once exactly when, for each part sent, what
      it registers now and what it registered behind lost answers is at most one receipt. */
  lemma RetryHeldOnceIff(a: Account, parts: seq<Part>, percent: nat, outcome: Outcome)
    requires Valid(a.ledger, parts, percent) && AtMostOnce(Held(a))
    ensures AtMostOnce(Held(AfterRetry(a, parts, percent, outcome))) <==> SafeFor(a, parts, outcome)
  {
    var sent, after := Attempted(a.ledger, parts), Held(AfterRetry(a, parts, percent, outcome));
    if outcome.Online? {
      forall i | 0 <= i < |sent|
        ensures Registrations(after, sent[i].reason)
             == Registrations(a.lost, sent[i].reason) + Posts(ReplyAt(outcome.replies, i))
      {
        HeldOfSent(a, parts, percent, outcome, i);
      }
    }
    forall reason | outcome.Unreachable? || forall i | 0 <= i < |sent| :: sent[i].reason != reason
      ensures Registrations(after, reason) <= 1
    {
      HeldOfOthers(a, parts, percent, outcome, reason);
    }
  }

  /** Before the call, and if no attempt posts twice: the device ends up holding every part at most once, whatever else
      it does, exactly when the retry sends no part that a lost answer has already registered. */
  lemma RetrySafeIff(a: Account, parts: seq<Part>, percent: nat)
    requires Valid(a.ledger, parts, percent) && AtMostOnce(Held(a))
    ensures (forall outcome | OnePostEach(outcome) :: AtMostOnce(Held(AfterRetry(a, parts, percent, outcome))))
            <==> NothingLostIsSent(a, parts)
  {
    var sent := Attempted(a.ledger, parts);
    if NothingLostIsSent(a, parts) {
      forall outcome | OnePostEach(outcome)
        ensures AtMostOnce(Held(AfterRetry(a, parts, percent, outcome)))
      {
        assert forall i: nat | outcome.Online? && i < |outcome.replies| :: outcome.replies[i] in outcome.replies;
        RetryHeldOnceIff(a, parts, percent, outcome);
      }
    } else {
      var i :| 0 <= i < |sent| && Registrations(a.lost, sent[i].reason) != 0;
      var outcome := AllAccepted(|sent|);
      RegistrationsNonNegative(a.lost, sent[i].reason);
      RetryHeldOnceIff(a, parts, percent, outcome);
      assert Posts(ReplyAt(outcome.replies, i)) == 1;
      assert !SafeFor(a, parts, outcome);
    }
  }

  // ----- Money at the device -----

  /** The registration is of one of the parts, for the part's price. */
  ghost predicate Fits(result: Result, parts: seq<Part>, percent: nat) {
    exists i | 0 <= i < |parts| :: result.reason == parts[i].reason && Price(result) == PartPrice(percent)(parts[i])
  }

  ghost predicate LostFit(lost: seq<Result>, parts: seq<Part>, percent: nat) {
    forall k | 0 <= k < |lost| :: lost[k].Registered? && Fits(lost[k], parts, percent)
  }

  /** What the device holds of a part, in money. */
  function Worth(held: seq<Result>, percent: nat): Part -> int {
    (p: Part) => Registrations(held, p.reason) * PartPrice(percent)(p)
  }

  function OneWorth(result: Result, percent: nat): Part -> int {
    (p: Part) => if result.reason == p.reason then PartPrice(percent)(p) else 0
  }

  lemma OneMore(n: int, price: int)
    ensures (1 + n) * price == n * price + price
  {
  }

  lemma WorthStep(p: Part, held: seq<Result>, percent: nat)
    requires held != []
    ensures Worth(held, percent)(p) == Worth(held[1..], percent)(p) + OneWorth(held[0], percent)(p)
  {
    OneMore(Registrations(held[1..], p.reason), PartPrice(percent)(p));
  }

  /** The money the device holds is accounted for part by part. */
  lemma {:induction false} MoneyByPart(held: seq<Result>, parts: seq<Part>, percent: nat)
    requires WellSplit(parts) && forall k | 0 <= k < |held| :: Fits(held[k], parts, percent)
    ensures SumBy(held, Price) == SumBy(parts, Worth(held, percent))
  {
    if held == [] {
      forall i | 0 <= i < |parts|
        ensures Worth(held, percent)(parts[i]) == 0
      {
        assert Registrations(held, parts[i].reason) == 0;
      }
      SingleTerm(parts, Worth(held, percent), |parts|);
    } else {
      assert forall k | 0 <= k < |held[1..]| :: held[1..][k] == held[k + 1];
      MoneyByPart(held[1..], parts, percent);
      forall i | 0 <= i < |parts|
        ensures Worth(held, percent)(parts[i])
             == Worth(held[1..], percent)(parts[i]) + OneWorth(held[0], percent)(parts[i])
      {
        WorthStep(parts[i], held, percent);
      }
      SumByPlus(parts, Worth(held, percent), Worth(held[1..], percent), OneWorth(held[0], percent));
      var i :| 0 <= i < |parts| && held[0].reason == parts[i].reason && Price(held[0]) == PartPrice(percent)(parts[i]);
      SingleTerm(parts, OneWorth(held[0], percent), i);
    }
  }

  ghost function Misfit(parts: seq<Part>, percent: nat): Result -> int {
    (result: Result) => if Fits(result, parts, percent) then 0 else 1
  }

  lemma {:induction false} NoMisfits(held: seq<Result>, parts: seq<Part>, percent: nat)
    requires SumBy(held, Misfit(parts, percent)) == 0
    ensures forall k | 0 <= k < |held| :: Fits(held[k], parts, percent)
  {
    if held != [] {
      SumByNonNegative(held[1..], Misfit(parts, percent));
      NoMisfits(held[1..], parts, percent);
    }
  }

  /** Every acknowledgement is of one of the parts, for its price. */
  lemma LogFits(ledger: Ledger, parts: seq<Part>, percent: nat)
    requires Valid(ledger, parts, percent)
    ensures forall k | 0 <= k < |ledger.log| :: Fits(ledger.log[k], parts, percent)
  {
    var f := Misfit(parts, percent);
    forall i | 0 <= i < |ledger.rows|
      ensures SentValue(f)(ledger.rows[i]) == 0
    {
      if ledger.rows[i].IsSent() {
        assert RowsMatchParts(ledger.rows, parts, percent);
        SentRowsCarryPrices(ledger.rows, parts, percent);
        assert Fits(ledger.rows[i].payload, parts, percent);
      }
    }
    SingleTerm(ledger.rows, SentValue(f), |ledger.rows|);
    assert SumBy(ledger.log, f) == SumBy(ledger.rows, SentValue(f));
    NoMisfits(ledger.log, parts, percent);
  }

  /** While every part is held at most once, the device holds no more money than the parts are worth. */
  lemma {:induction false} HeldMoney(a: Account, parts: seq<Part>, percent: nat)
    requires Sound(a, parts, percent) && AtMostOnce(Held(a))
    ensures SumBy(Held(a), Price) <= SumBy(parts, PartPrice(percent))
  {
    var held := Held(a);
    LogFits(a.ledger, parts, percent);
    assert forall k | 0 <= k < |held| ::
        held[k] == if k < |a.ledger.log| then a.ledger.log[k] else a.lost[k - |a.ledger.log|];
    MoneyByPart(held, parts, percent);
    WorthAtMostPrice(held, parts, percent);
  }

  /** Once every row is sent, the device holds exactly what the parts are worth, and on top of it whatever lies behind
      lost answers. */
  lemma {:induction false} LostMoneyIsExcess(a: Account, parts: seq<Part>, percent: nat)
    requires Valid(a.ledger, parts, percent) && a.ledger.rows != [] && AllSent(a.ledger.rows)
    ensures SumBy(Held(a), Price) == SumBy(parts, PartPrice(percent)) + SumBy(a.lost, Price)
  {
    SumByConcat(a.ledger.log, a.lost, Price);
    RegisteredMoney(a.ledger, parts, percent);
  }

  lemma {:induction false} WorthAtMostPrice(held: seq<Result>, parts: seq<Part>, percent: nat)
    requires AtMostOnce(held)
    ensures SumBy(parts, Worth(held, percent)) <= SumBy(parts, PartPrice(percent))
  {
    PartPricesNonNegative(parts, percent);
    forall i | 0 <= i < |parts|
      ensures Worth(held, percent)(parts[i]) <= PartPrice(percent)(parts[i])
    {
      assert parts[i] in parts;
      RegistrationsNonNegative(held, parts[i].reason);
      var n := Registrations(held, parts[i].reason);
      assert n == 0 || n == 1;
    }
    PairedSums(parts, parts, Worth(held, percent), PartPrice(percent));
  }

  lemma {:induction false} LostAllFit(
      sent: seq<Part>, parts: seq<Part>, percent: nat, last: Option<int>, replies: seq<Reply>)
    requires forall i | 0 <= i < |sent| :: sent[i] in parts
    ensures LostFit(LostAll(sent, percent, last, replies), parts, percent)
  {
    if sent != [] {
      var reply := HeadReply(replies);
      var memory := MemoryAfter(Attempt(sent[0], percent, last, reply), last);
      assert forall i | 0 <= i < |sent[1..]| :: sent[1..][i] == sent[i + 1];
      LostAllFit(sent[1..], parts, percent, memory, Rest(replies));
      ReceiptFits(sent[0], parts, percent, last, reply.now);
    }
  }

  lemma ReceiptFits(part: Part, parts: seq<Part>, percent: nat, last: Option<int>, now: int)
    requires part in parts
    ensures Fits(Registered(part.reason, ReceiptFor(part, percent, last, now), None), parts, percent)
  {
    var result := Registered(part.reason, ReceiptFor(part, percent, last, now), None);
    assert Price(result) == PartPrice(percent)(part);
    var i :| 0 <= i < |parts| && parts[i] == part;
  }

  // ----- Every run -----

  function Run(a: Account, parts: seq<Part>, percent: nat, retries: seq<Outcome>): Account
    decreases |retries|
  {
    if retries == [] then a else Run(AfterRetry(a, parts, percent, retries[0]), parts, percent, retries[1..])
  }

  /** Each retry of the run is safe for what the device does in it. */
  predicate SafeRun(a: Account, parts: seq<Part>, percent: nat, retries: seq<Outcome>)
    decreases |retries|
  {
    retries == []
    || (SafeFor(a, parts, retries[0])
         && SafeRun(AfterRetry(a, parts, percent, retries[0]), parts, percent, retries[1..]))
  }

  /** What the device holds never shrinks. */
  lemma HoldsMore(a: Account, parts: seq<Part>, percent: nat, outcome: Outcome, reason: Reason)
    ensures Registrations(Held(AfterRetry(a, parts, percent, outcome)), reason) >= Registrations(Held(a), reason)
  {
    var sent := Attempted(a.ledger, parts);
    HeldAfter(a, parts, percent, outcome, reason);
    if outcome.Online? {
      BatchCountIsPosts(sent, percent, outcome.lastOperation, outcome.replies, reason);
    }
  }

  lemma {:induction false} RunHoldsMore(
      a: Account, parts: seq<Part>, percent: nat, retries: seq<Outcome>, reason: Reason)
    ensures Registrations(Held(Run(a, parts, percent, retries)), reason) >= Registrations(Held(a), reason)
    decreases |retries|
  {
    if retries != [] {
      HoldsMore(a, parts, percent, retries[0], reason);
      RunHoldsMore(AfterRetry(a, parts, percent, retries[0]), parts, percent, retries[1..], reason);
    }
  }

  /** A whole run leaves every part held at most once exactly when each of its retries does. */
  lemma {:induction false} RunHeldOnceIff(a: Account, parts: seq<Part>, percent: nat, retries: seq<Outcome>)
    requires Valid(a.ledger, parts, percent) && AtMostOnce(Held(a))
    ensures AtMostOnce(Held(Run(a, parts, percent, retries))) <==> SafeRun(a, parts, percent, retries)
    decreases |retries|
  {
    if retries != [] {
      var next := AfterRetry(a, parts, percent, retries[0]);
      RetryHeldOnceIff(a, parts, percent, retries[0]);
      RetryValid(a.ledger, parts, percent, retries[0]);
      if SafeFor(a, parts, retries[0]) {
        RunHeldOnceIff(next, parts, percent, retries[1..]);
      } else {
        var reason :| Registrations(Held(next), reason) > 1;
        RunHoldsMore(next, parts, percent, retries[1..], reason);
      }
    }
  }

  lemma FirstCount(parts: seq<Part>, percent: nat, outcome: Outcome, reason: Reason)
    requires outcome.Online?
    ensures Registrations(Held(FirstAccount(parts, percent, outcome)), reason)
         == BatchCount(parts, percent, outcome.lastOperation, outcome.replies, reason)
  {
    ServiceAcks(parts, percent, [], outcome);
    SumByConcat(AcksIn(parts, percent, outcome), LostIn(parts, percent, outcome), Concerns(reason));
  }

  /** A first issue leaves every part held at most once exactly when no attempt made the device register it twice. */
  lemma FirstIssueHeldOnceIff(parts: seq<Part>, percent: nat, outcome: Outcome)
    requires WellSplit(parts) && outcome.Online?
    ensures AtMostOnce(Held(FirstAccount(parts, percent, outcome)))
            <==> forall i: nat | i < |parts| :: PostedOnce(ReplyAt(outcome.replies, i))
  {
    var held := Held(FirstAccount(parts, percent, outcome));
    forall i: nat | i < |parts|
      ensures Registrations(held, parts[i].reason) == Posts(ReplyAt(outcome.replies, i))
    {
      FirstCount(parts, percent, outcome, parts[i].reason);
      BatchCountAt(parts, percent, outcome.lastOperation, outcome.replies, i);
    }
    forall reason | forall i | 0 <= i < |parts| :: parts[i].reason != reason
      ensures Registrations(held, reason) == 0
    {
      FirstCount(parts, percent, outcome, reason);
      BatchCountNone(parts, percent, outcome.lastOperation, outcome.replies, reason);
    }
  }

  lemma FirstAccountSound(parts: seq<Part>, percent: nat, outcome: Outcome)
    requires WellSplit(parts)
    ensures Sound(FirstAccount(parts, percent, outcome), parts, percent)
  {
    FirstIssueValid(parts, percent, outcome);
    if outcome.Online? {
      LostAllFit(parts, parts, percent, outcome.lastOperation, outcome.replies);
    }
  }

  /** No attempt of the first issue makes the device register its part twice. */
  predicate FirstPostsOnce(parts: seq<Part>, outcome: Outcome) {
    outcome.Online? ==> forall i: nat | i < |parts| :: PostedOnce(ReplyAt(outcome.replies, i))
  }

  lemma FirstAccountOnceIff(parts: seq<Part>, percent: nat, outcome: Outcome)
    requires WellSplit(parts)
    ensures AtMostOnce(Held(FirstAccount(parts, percent, outcome))) <==> FirstPostsOnce(parts, outcome)
  {
    if outcome.Online? {
      FirstIssueHeldOnceIff(parts, percent, outcome);
    } else {
      assert Held(FirstAccount(parts, percent, outcome)) == [];
    }
  }

  lemma AttemptedAreParts(ledger: Ledger, parts: seq<Part>)
    requires WellSplit(parts)
    ensures forall i | 0 <= i < |Attempted(ledger, parts)| :: Attempted(ledger, parts)[i] in parts
  {
    if RetryReasons(ledger.rows).Some? {
      FilterDistinct(parts, WantedBy(RetryReasons(ledger.rows).value));
    }
  }

  lemma {:induction false} RunSound(a: Account, parts: seq<Part>, percent: nat, retries: seq<Outcome>)
    requires Sound(a, parts, percent)
    ensures Sound(Run(a, parts, percent, retries), parts, percent)
    decreases |retries|
  {
    if retries != [] {
      RetryValid(a.ledger, parts, percent, retries[0]);
      AttemptedAreParts(a.ledger, parts);
      if retries[0].Online? {
        LostAllFit(Attempted(a.ledger, parts), parts, percent, retries[0].lastOperation, retries[0].replies);
      }
      RunSound(AfterRetry(a, parts, percent, retries[0]), parts, percent, retries[1..]);
    }
  }

  /** Over the first issue and any retries the device itself holds each part of an order at most once if and only if no
      attempt ever registers a part again; it then holds no more money than the parts are worth. */
  lemma {:induction false} HeldAtMostOnceIff(sale: Sale, paidBy: Method, first: Outcome, retries: seq<Outcome>)
    ensures var parts := BuildParts(sale, paidBy);
            var start := FirstAccount(parts, sale.vat, first);
            var held := Held(Run(start, parts, sale.vat, retries));
            && (AtMostOnce(held) <==> FirstPostsOnce(parts, first) && SafeRun(start, parts, sale.vat, retries))
            && (AtMostOnce(held) ==> SumBy(held, Price) <= SumBy(parts, PartPrice(sale.vat)))
  {
    var parts := BuildParts(sale, paidBy);
    var start := FirstAccount(parts, sale.vat, first);
    var end := Run(start, parts, sale.vat, retries);
    PartsAreToldApart(sale, paidBy);
    FirstAccountSound(parts, sale.vat, first);
    FirstAccountOnceIff(parts, sale.vat, first);
    RunSound(start, parts, sale.vat, retries);
    if FirstPostsOnce(parts, first) {
      RunHeldOnceIff(start, parts, sale.vat, retries);
    } else {
      var reason :| Registrations(Held(start), reason) > 1;
      RunHoldsMore(start, parts, sale.vat, retries, reason);
    }
    if AtMostOnce(Held(end)) {
      HeldMoney(end, parts, sale.vat);
    }
  }

  /** A first answer lost, a retry answered: the device holds the receipt twice, though it acknowledged it once. */
  lemma LostAnswerRegistersTwice(part: Part, percent: nat)
    requires part.reason != Absent
    ensures var a := FirstAccount([part], percent, Online(None, [Refuses(0, 1)]));
            var after := AfterRetry(a, [part], percent, AllAccepted(1));
            && Registrations(Held(after), part.reason) == 2 && Registrations(after.ledger.log, part.reason) == 1
  {
    var lost := Online(None, [Refuses(0, 1)]);
    var a := FirstAccount([part], percent, lost);
    FirstAccountSound([part], percent, lost);
    RefusedIsAttempted(part, percent);
    HeldAfter(a, [part], percent, AllAccepted(1), part.reason);
    BatchCountAt([part], percent, None, AllAccepted(1).replies, 0);
    FirstCount([part], percent, lost, part.reason);
    BatchCountAt([part], percent, None, lost.replies, 0);
    AcceptedOnce(a.ledger, part, percent);
  }

  lemma AcceptedOnce(ledger: Ledger, part: Part, percent: nat)
    requires Valid(ledger, [part], percent)
    ensures Registrations(RetryOnce(ledger, [part], percent, AllAccepted(1)).0.log, part.reason) == 1
  {
    var after := RetryOnce(ledger, [part], percent, AllAccepted(1)).0;
    RetryValid(ledger, [part], percent, AllAccepted(1));
    RetryCompletes(ledger, [part], percent, AllAccepted(1));
    RegisteredAtMostOnce(after, [part], percent, part.reason);
    assert [part][0] == part;
  }

  lemma {:induction false} RefusedIsAttempted(part: Part, percent: nat)
    ensures Attempted(FirstAccount([part], percent, Online(None, [Refuses(0, 1)])).ledger, [part]) == [part]
  {
    assert IssueAll([part], percent, None, [Refuses(0, 1)]) == [Rejected(part.reason)];
    assert FirstIssue([part], percent, Online(None, [Refuses(0, 1)])).rows == [RowOf(Rejected(part.reason))];
  }
}
