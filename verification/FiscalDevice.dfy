/** One conversation with the fiscal device: a loop over the parts of an order
    (apps/integrations/services/unikassa.py, apps/integrations/services/__init__.py). */
module FiscalDevice {
  import opened Options
  import opened Arithmetic
  import opened FiscalReceipts

  /** Instants are microseconds; receipt times are cut to whole seconds. */
  const SECOND: int := 1_000_000

  function WholeSecond(t: int): int {
    t - t % SECOND
  }

  datatype Receipt = Receipt(time: int, cash: nat, card: nat, lines: seq<Line>)

  /** What one attempt leaves behind; registeredAt is the device's own DateTime if it can be read. */
  datatype Result =
    | Registered(reason: Reason, receipt: Receipt, registeredAt: Option<int>)
    | Rejected(reason: Reason)

  /** One attempt as an oracle: the clock, and an answer or an error. lost counts the posts of this receipt that the
      device registered although their answer never arrived; the last of them may be what the error is about. */
  datatype Reply = Accepts(now: int, dateTime: Option<int>, lost: nat) | Refuses(now: int, lost: nat)

  /** Unreachable: no fiscal shift, no configuration, no client. A missing reply is a refusal. */
  datatype Outcome = Unreachable | Online(lastOperation: Option<int>, replies: seq<Reply>)

  /** _next_operation_datetime */
  function NextOperationTime(last: Option<int>, now: int): int {
    match last
    case None => WholeSecond(now)
    case Some(t) => Max(WholeSecond(now), WholeSecond(t) + SECOND)
  }

  function ReceiptFor(part: Part, percent: nat, last: Option<int>, now: int): Receipt {
    var lines := PartLines(part, percent);
    var total := Prices(lines);
    SumByNonNegative(lines, PriceOf);
    Receipt(NextOperationTime(last, now),
            if part.payType == PayCash then total else 0, if part.payType == PayCash then 0 else total, lines)
  }

  function Attempt(part: Part, percent: nat, last: Option<int>, reply: Reply): Result {
    match reply
    case Refuses(_, _) => Rejected(part.reason)
    case Accepts(now, dateTime, _) => Registered(part.reason, ReceiptFor(part, percent, last, now), dateTime)
  }

  /** A receipt's time is a whole second after the last operation's: the one it is sent in, or else the next free one.
      */
  lemma TimeIsNextFree(last: Option<int>, now: int)
    ensures var time := NextOperationTime(last, now);
            && time % SECOND == 0
            && (last.Some? ==> time > last.value)
            && (if last.None? || now - now % SECOND > last.value then time <= now < time + SECOND
                else time - SECOND <= last.value < time)
  {
  }

  /** An accepted attempt carries the lines, all the money in the column of the part's payment type, and the device's
      own time; a refused one the reason only. */
  lemma AttemptMeans(part: Part, percent: nat, last: Option<int>, reply: Reply)
    ensures var result := Attempt(part, percent, last, reply);
            && result.reason == part.reason
            && (result.Registered? <==> reply.Accepts?)
            && (result.Registered? ==>
                  && result.registeredAt == reply.dateTime && result.receipt.lines == PartLines(part, percent)
                  && result.receipt.time == NextOperationTime(last, reply.now)
                  && (part.payType == PayCash ==>
                        result.receipt.cash == Prices(PartLines(part, percent)) && result.receipt.card == 0)
                  && (part.payType == PayCard ==>
                        result.receipt.card == Prices(PartLines(part, percent)) && result.receipt.cash == 0))
  {
  }

  function HeadReply(replies: seq<Reply>): Reply {
    if replies == [] then Refuses(0, 0) else replies[0]
  }

  function ReplyAt(replies: seq<Reply>, i: nat): Reply {
    if i < |replies| then replies[i] else Refuses(0, 0)
  }

  /** A device that accepts the first n receipts. */
  function AllAccepted(n: nat): Outcome {
    Online(None, seq(n, _ => Accepts(0, None, 0)))
  }

  function Rest<T>(s: seq<T>): seq<T> {
    if s == [] then [] else s[1..]
  }

  function MemoryAfter(result: Result, last: Option<int>): Option<int> {
    if result.Registered? then result.registeredAt else last
  }

  /** The results of attempting every part in turn. */
  function IssueAll(parts: seq<Part>, percent: nat, last: Option<int>, replies: seq<Reply>): (results: seq<Result>)
    ensures |results| == |parts|
    ensures forall k | 0 <= k < |parts| :: results[k].reason == parts[k].reason
  {
    if parts == [] then []
    else
      var result := Attempt(parts[0], percent, last, HeadReply(replies));
      [result] + IssueAll(parts[1..], percent, MemoryAfter(result, last), Rest(replies))
  }

  /** A part is registered exactly when its own attempt is accepted. */
  lemma {:induction false} IssuedAt(parts: seq<Part>, percent: nat, last: Option<int>, replies: seq<Reply>, i: nat)
    requires i < |parts|
    ensures IssueAll(parts, percent, last, replies)[i].Registered? <==> ReplyAt(replies, i).Accepts?
  {
    if i > 0 {
      var memory := MemoryAfter(Attempt(parts[0], percent, last, HeadReply(replies)), last);
      IssuedAt(parts[1..], percent, memory, Rest(replies), i - 1);
    }
  }

  /** Building and sending the receipt of one part. */
  method AttemptPart(part: Part, percent: nat, last: Option<int>, reply: Reply) returns (response: Result)
    ensures response == Attempt(part, percent, last, reply)
  {
    match reply {
      case Refuses(_, _) =>
        response := Rejected(part.reason);
      case Accepts(now, dateTime, _) =>
        var lines := BuildSaleItems(part, percent);
        var total := SumPrices(lines);
        var cash := if part.payType == PayCash then total else 0;
        var card := if part.payType == PayCash then 0 else total;
        response := Registered(part.reason, Receipt(NextOperationTime(last, now), cash, card, lines), dateTime);
    }
  }

  /** issue_receipts: the loop that appends responses and carries the device's last operation time along. */
  method IssueReceipts(parts: seq<Part>, percent: nat, last: Option<int>, replies: seq<Reply>)
    returns (responses: seq<Result>)
    ensures responses == IssueAll(parts, percent, last, replies)
  {
    responses := [];
    var memory, pending := last, replies;
    for k := 0 to |parts|
      invariant responses + IssueAll(parts[k..], percent, memory, pending) == IssueAll(parts, percent, last, replies)
    {
      IssueAllUnfold(parts[k..], percent, memory, pending);
      assert parts[k..][0] == parts[k] && parts[k..][1..] == parts[k + 1..];
      var response := AttemptPart(parts[k], percent, memory, HeadReply(pending));
      responses := responses + [response];
      memory := MemoryAfter(response, memory);
      pending := Rest(pending);
    }
    assert parts[|parts|..] == [];
  }

  lemma {:induction false} IssueAllUnfold(parts: seq<Part>, percent: nat, last: Option<int>, replies: seq<Reply>)
    requires parts != []
    ensures var result := Attempt(parts[0], percent, last, HeadReply(replies));
            forall before: seq<Result> ::
              before + IssueAll(parts, percent, last, replies)
              == (before + [result]) + IssueAll(parts[1..], percent, MemoryAfter(result, last), Rest(replies))
  {
  }

  method SumPrices(lines: seq<Line>) returns (total: nat)
    ensures total == Prices(lines)
  {
    total := 0;
    for k := 0 to |lines|
      invariant total == Prices(lines[..k])
    {
      SumByTake(lines, k, PriceOf);
      total := total + lines[k].price;
    }
    assert lines[..|lines|] == lines;
  }

  /** The device never reports a time before the one it was sent. */
  ghost predicate AnswersForward(results: seq<Result>) {
    forall r | r in results :: r.Registered? ==> r.registeredAt.Some? && r.registeredAt.value >= r.receipt.time
  }

  lemma {:induction false} IssueTail(parts: seq<Part>, percent: nat, last: Option<int>, replies: seq<Reply>)
    requires parts != [] && AnswersForward(IssueAll(parts, percent, last, replies))
    ensures var result := Attempt(parts[0], percent, last, HeadReply(replies));
            var rest := IssueAll(parts[1..], percent, MemoryAfter(result, last), Rest(replies));
            && IssueAll(parts, percent, last, replies) == [result] + rest
            && AnswersForward(rest) && AnswersForward([result])
  {
  }

  /** Every receipt of a batch is later than the device's last operation. */
  lemma {:induction false} ReceiptsAfterLast(parts: seq<Part>, percent: nat, last: Option<int>, replies: seq<Reply>)
    requires AnswersForward(IssueAll(parts, percent, last, replies)) && last.Some?
    ensures forall r | r in IssueAll(parts, percent, last, replies) && r.Registered? :: r.receipt.time > last.value
  {
    if parts != [] {
      IssueTail(parts, percent, last, replies);
      var result := Attempt(parts[0], percent, last, HeadReply(replies));
      assert result in [result];
      ReceiptsAfterLast(parts[1..], percent, MemoryAfter(result, last), Rest(replies));
    }
  }

  /** Receipts registered in one batch carry strictly increasing times, all after the device's last operation. */
  lemma {:induction false} ReceiptClock(parts: seq<Part>, percent: nat, last: Option<int>, replies: seq<Reply>)
    requires AnswersForward(IssueAll(parts, percent, last, replies))
    ensures var results := IssueAll(parts, percent, last, replies);
            && (forall i | 0 <= i < |results| :: results[i].Registered? && last.Some? ==>
                 results[i].receipt.time > last.value)
            && (forall i, j | 0 <= i < j < |results| :: results[i].Registered? && results[j].Registered? ==>
                  results[i].receipt.time < results[j].receipt.time)
  {
    if last.Some? {
      ReceiptsAfterLast(parts, percent, last, replies);
    }
    if parts != [] {
      IssueTail(parts, percent, last, replies);
      var result := Attempt(parts[0], percent, last, HeadReply(replies));
      var memory := MemoryAfter(result, last);
      ReceiptClock(parts[1..], percent, memory, Rest(replies));
      if result.Registered? {
        assert result in [result];
        ReceiptsAfterLast(parts[1..], percent, memory, Rest(replies));
      }
    }
  }

  // ----- When exactly the clock moves -----

  /** Parts i and j are registered, and none between them. */
  ghost predicate Successive(results: seq<Result>, i: nat, j: nat) {
    && i < j < |results| && results[i].Registered? && results[j].Registered?
    && forall k | i < k < j :: !results[k].Registered?
  }

  /** The clock at the later attempt has passed the earlier receipt's second, or the earlier answer's time has reached
      it. */
  ghost predicate ClockMoves(earlier: Result, now: int)
    requires earlier.Registered?
  {
    || WholeSecond(now) > earlier.receipt.time
    || (earlier.registeredAt.Some? && WholeSecond(earlier.registeredAt.value) + SECOND > earlier.receipt.time)
  }

  /** The first registered receipt of a batch is timed by the last operation known before it. */
  lemma {:induction false} FirstTime(parts: seq<Part>, percent: nat, last: Option<int>, replies: seq<Reply>, j: nat)
    requires j < |parts| && IssueAll(parts, percent, last, replies)[j].Registered?
    requires forall k | 0 <= k < j :: !IssueAll(parts, percent, last, replies)[k].Registered?
    ensures j < |replies|
    ensures IssueAll(parts, percent, last, replies)[j].receipt.time == NextOperationTime(last, replies[j].now)
  {
    var results := IssueAll(parts, percent, last, replies);
    if j > 0 {
      assert !results[0].Registered?;
      var rest := IssueAll(parts[1..], percent, last, Rest(replies));
      assert forall k | 0 <= k < |rest| :: results[k + 1] == rest[k];
      FirstTime(parts[1..], percent, last, Rest(replies), j - 1);
    }
  }

  function Dropped(replies: seq<Reply>, i: nat): seq<Reply> {
    if i <= |replies| then replies[i..] else []
  }

  /** From part i on, a batch goes on as a batch of its own. */
  lemma {:induction false} IssueFrom(parts: seq<Part>, percent: nat, last: Option<int>, replies: seq<Reply>, i: nat)
    returns (memory: Option<int>)
    requires i <= |parts|
    ensures IssueAll(parts, percent, last, replies)[i..] == IssueAll(parts[i..], percent, memory, Dropped(replies, i))
  {
    if i == 0 {
      memory := last;
      assert parts[0..] == parts && Dropped(replies, 0) == replies;
    } else {
      var next := MemoryAfter(Attempt(parts[0], percent, last, HeadReply(replies)), last);
      memory := IssueFrom(parts[1..], percent, next, Rest(replies), i - 1);
      assert parts[1..][i - 1..] == parts[i..] && Dropped(Rest(replies), i - 1) == Dropped(replies, i);
      assert IssueAll(parts, percent, last, replies)[1..] == IssueAll(parts[1..], percent, next, Rest(replies));
    }
  }

  /** Of two successive registered receipts the later one carries the later time exactly when the clock moves. */
  lemma {:induction false} SuccessiveTimesIff(
      parts: seq<Part>, percent: nat, last: Option<int>, replies: seq<Reply>, i: nat, j: nat)
    requires Successive(IssueAll(parts, percent, last, replies), i, j)
    ensures var results := IssueAll(parts, percent, last, replies);
            j < |replies|
            && (results[i].receipt.time < results[j].receipt.time <==> ClockMoves(results[i], replies[j].now))
  {
    var memory := IssueFrom(parts, percent, last, replies, i);
    TimesInTail(IssueAll(parts, percent, last, replies), parts[i..], percent, memory, replies, i, j);
  }

  /** Two successive receipts, looked at in the batch that starts with the first of them. */
  lemma {:induction false} TimesInTail(
      results: seq<Result>, parts: seq<Part>, percent: nat, last: Option<int>, replies: seq<Reply>, i: nat, j: nat)
    requires Successive(results, i, j) && results[i..] == IssueAll(parts, percent, last, Dropped(replies, i))
    ensures j < |replies|
    ensures results[i].receipt.time < results[j].receipt.time <==> ClockMoves(results[i], replies[j].now)
  {
    SuccessiveInTail(results, i, j);
    NextTime(parts, percent, last, Dropped(replies, i), j - i);
    DroppedAt(replies, i, j - i);
    TimesCompare(results[i], results[j], replies[j].now);
  }

  lemma DroppedAt(replies: seq<Reply>, i: nat, k: nat)
    requires k < |Dropped(replies, i)|
    ensures i + k < |replies| && Dropped(replies, i)[k] == replies[i + k]
  {
  }

  lemma TimesCompare(earlier: Result, later: Result, now: int)
    requires earlier.Registered? && later.Registered?
    requires later.receipt.time == NextOperationTime(earlier.registeredAt, now)
    ensures earlier.receipt.time < later.receipt.time <==> ClockMoves(earlier, now)
  {
  }

  lemma {:induction false} SuccessiveInTail(results: seq<Result>, i: nat, j: nat)
    requires Successive(results, i, j)
    ensures Successive(results[i..], 0, j - i)
    ensures results[i..][0] == results[i] && results[i..][j - i] == results[j]
  {
    assert forall k | 0 <= k < |results[i..]| :: results[i..][k] == results[i + k];
  }

  lemma {:induction false} NextTime(parts: seq<Part>, percent: nat, last: Option<int>, replies: seq<Reply>, j: nat)
    requires Successive(IssueAll(parts, percent, last, replies), 0, j)
    ensures var results := IssueAll(parts, percent, last, replies);
            && j < |replies|
            && results[j].receipt.time == NextOperationTime(results[0].registeredAt, replies[j].now)
  {
    var results := IssueAll(parts, percent, last, replies);
    assert forall k | 0 < k < |results| :: results[k] == results[1..][k - 1];
    FirstTime(parts[1..], percent, results[0].registeredAt, Rest(replies), j - 1);
  }

  ghost predicate Increasing(results: seq<Result>) {
    forall i, j | 0 <= i < j < |results| :: results[i].Registered? && results[j].Registered? ==>
      results[i].receipt.time < results[j].receipt.time
  }

  /** The receipt times of a whole batch strictly increase exactly when the clock moves between all successive ones. */
  lemma {:induction false} BatchClockIff(parts: seq<Part>, percent: nat, last: Option<int>, replies: seq<Reply>)
    ensures var results := IssueAll(parts, percent, last, replies);
            Increasing(results) <==>
              forall i: nat, j: nat | Successive(results, i, j) :: j < |replies|
                  && ClockMoves(results[i], replies[j].now)
  {
    var results := IssueAll(parts, percent, last, replies);
    forall i: nat, j: nat | Successive(results, i, j)
      ensures j < |replies|
      ensures results[i].receipt.time < results[j].receipt.time <==> ClockMoves(results[i], replies[j].now)
    {
      SuccessiveTimesIff(parts, percent, last, replies, i, j);
    }
    if forall i: nat, j: nat | Successive(results, i, j) :: j < |replies| && ClockMoves(results[i], replies[j].now) {
      forall i: nat, j: nat | i < j < |results| && results[i].Registered? && results[j].Registered?
        ensures results[i].receipt.time < results[j].receipt.time
      {
        StepsAddUp(results, i, j);
      }
    }
  }

  lemma {:induction false} StepsAddUp(results: seq<Result>, i: nat, j: nat)
    requires i < j < |results| && results[i].Registered? && results[j].Registered?
    requires forall a: nat, b: nat | Successive(results, a, b) :: results[a].receipt.time < results[b].receipt.time
    ensures results[i].receipt.time < results[j].receipt.time
  {
    var k: nat := j - 1;
    while k > i && !results[k].Registered?
      invariant i <= k < j
      invariant forall m | k < m < j :: !results[m].Registered?
    {
      k := k - 1;
    }
    assert Successive(results, k, j);
    if i < k {
      StepsAddUp(results, i, k);
    }
  }

  /** Without a readable DateTime in the answer, two receipts of one batch can carry the same time. */
  lemma MissingDateTimeRepeatsTime(a: Part, b: Part, now: int)
    ensures var results := IssueAll([a, b], 0, None, [Accepts(now, None, 0), Accepts(now, None, 0)]);
            results[0].Registered? && results[1].Registered? && results[0].receipt.time == results[1].receipt.time
  {
  }

  function WantedBy(reasons: seq<Reason>): Part -> bool {
    (p: Part) => p.reason in reasons
  }

  function Failures(reasons: seq<Reason>): (results: seq<Result>)
    ensures |results| == |reasons| && forall k | 0 <= k < |reasons| :: results[k] == Rejected(reasons[k])
  {
    seq(|reasons|, k requires 0 <= k < |reasons| => Rejected(reasons[k]))
  }

  /** _issue_fiscal_receipts: no reasons means every part; a failure outside the loop keeps the reasons it was given. */
  function ServiceResults(parts: seq<Part>, percent: nat, reasons: seq<Reason>, outcome: Outcome): seq<Result> {
    var chosen := if reasons == [] then parts else Filter(parts, WantedBy(reasons));
    if outcome.Unreachable? || chosen == [] then
      if reasons == [] then [Rejected(Absent)] else Failures(reasons)
    else IssueAll(chosen, percent, outcome.lastOperation, outcome.replies)
  }
}
