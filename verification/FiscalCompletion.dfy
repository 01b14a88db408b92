/** Retries against the order as it is by then: what they keep, and when they can complete a payment's registration
    (apps/billing/services/order_payment.py, apps/integrations/services/unikassa.py). */
module FiscalCompletion {
  import opened Options
  import opened Arithmetic
  import CashSale
  import opened FiscalReceipts
  import opened FiscalDevice
  import FiscalLosses
  import opened FiscalRetry

  // ----- What survives any change of the order -----

  ghost predicate Distinct(rows: seq<Row>) {
    forall i, j | 0 <= i < j < |rows| :: rows[i].payload.reason != rows[j].payload.reason
  }

  ghost predicate Written(rows: seq<Row>) {
    forall i | 0 <= i < |rows| :: rows[i] == RowOf(rows[i].payload)
  }

  /** Rows say what they were written from, no two carry the same split reason, and acknowledgements are sent rows. */
  ghost predicate WellKept(ledger: Ledger) {
    Written(ledger.rows) && Distinct(ledger.rows) && Balanced(ledger)
  }

  /** The registration is complete: there are rows, and all of them are sent. */
  ghost predicate Complete(rows: seq<Row>) {
    rows != [] && AllSent(rows)
  }

  ghost predicate DistinctFrom(results: seq<Result>, k: nat) {
    forall m, n | k <= m < n < |results| :: results[m].reason != results[n].reason
  }

  /** No row that stays as it is carries the reason of a result still to be stored. */
  ghost predicate Apart(rows: seq<Row>, pending: seq<nat>, results: seq<Result>, k: nat) {
    forall i, m | 0 <= i < |rows| && i !in pending && k <= m < |results| :: rows[i].payload.reason != results[m].reason
  }

  lemma {:induction false} PersistWritten(rows: seq<Row>, pending: seq<nat>, results: seq<Result>, k: nat)
    requires k <= |results| && Written(rows) && forall j | 0 <= j < |pending| :: pending[j] < |rows|
    ensures Written(Persist(rows, pending, results, k))
    decreases |results| - k
  {
    if k < |results| {
      match Pick(rows, pending, results[k].reason, k)
      case None => PersistWritten(rows + [RowOf(results[k])], pending, results, k + 1);
      case Some(j) => PersistWritten(rows[pending[j] := RowOf(results[k])], Without(pending, j), results, k + 1);
    }
  }

  lemma WithoutMembers(pending: seq<nat>, j: nat, i: nat)
    requires j < |pending|
    requires forall a, b | 0 <= a < b < |pending| :: pending[a] < pending[b]
    ensures i in Without(pending, j) <==> i in pending && i != pending[j]
  {
    var rest := Without(pending, j);
    assert forall a | 0 <= a < |rest| :: rest[a] == if a < j then pending[a] else pending[a + 1];
    if i in pending && i != pending[j] {
      var a :| 0 <= a < |pending| && pending[a] == i;
      assert rest[if a < j then a else a - 1] == i;
    }
  }

  /** A result goes to the pending row with its reason; if there is none, no pending row carries that reason. */
  lemma PickedRow(rows: seq<Row>, pending: seq<nat>, result: Result, k: nat)
    requires Distinct(rows) && Overwritable(rows, pending) && pending != []
    ensures var j := Pick(rows, pending, result.reason, k);
            && j.Some?
            && forall i | i in pending && rows[i].payload.reason == result.reason :: i == pending[j.value]
  {
  }

  lemma StepDistinct(rows: seq<Row>, pending: seq<nat>, results: seq<Result>, k: nat, j: nat)
    requires k < |results| && Overwritable(rows, pending) && Distinct(rows) && DistinctFrom(results, k)
    requires Apart(rows, pending, results, k)
    requires Pick(rows, pending, results[k].reason, k) == Some(j)
    ensures Distinct(rows[pending[j] := RowOf(results[k])])
    ensures Apart(rows[pending[j] := RowOf(results[k])], Without(pending, j), results, k + 1)
    ensures Overwritable(rows[pending[j] := RowOf(results[k])], Without(pending, j))
  {
    PickedRow(rows, pending, results[k], k);
    forall i | 0 <= i < |rows|
      ensures i in Without(pending, j) <==> i in pending && i != pending[j]
    {
      WithoutMembers(pending, j, i);
    }
  }

  /** Storing results with different reasons keeps the rows' reasons different. */
  lemma {:induction false} PersistDistinct(rows: seq<Row>, pending: seq<nat>, results: seq<Result>, k: nat)
    requires k <= |results| && Overwritable(rows, pending) && Distinct(rows) && DistinctFrom(results, k)
    requires Apart(rows, pending, results, k)
    ensures Distinct(Persist(rows, pending, results, k))
    decreases |results| - k
  {
    if k < |results| {
      match Pick(rows, pending, results[k].reason, k)
      case None =>
        PersistDistinct(rows + [RowOf(results[k])], pending, results, k + 1);
      case Some(j) =>
        StepDistinct(rows, pending, results, k, j);
        PersistDistinct(rows[pending[j] := RowOf(results[k])], Without(pending, j), results, k + 1);
    }
  }

  ghost predicate HasRow(rows: seq<Row>, pending: seq<nat>, reason: Reason) {
    exists i: nat :: i in pending && i < |rows| && rows[i].payload.reason == reason
  }

  /** Every result still to be stored has a pending row of its reason. */
  ghost predicate Matched(rows: seq<Row>, pending: seq<nat>, results: seq<Result>, k: nat) {
    forall m | k <= m < |results| :: HasRow(rows, pending, results[m].reason)
  }

  lemma StillHasRow(rows: seq<Row>, pending: seq<nat>, j: nat, row: Row, reason: Reason)
    requires Overwritable(rows, pending) && j < |pending| && HasRow(rows, pending, reason)
    requires rows[pending[j]].payload.reason != reason
    ensures HasRow(rows[pending[j] := row], Without(pending, j), reason)
  {
    var i: nat :| i in pending && i < |rows| && rows[i].payload.reason == reason;
    WithoutMembers(pending, j, i);
    assert rows[pending[j] := row][i] == rows[i];
  }

  lemma StepMatched(rows: seq<Row>, pending: seq<nat>, results: seq<Result>, k: nat, j: nat)
    requires k < |results| && Overwritable(rows, pending) && DistinctFrom(results, k)
    requires Matched(rows, pending, results, k) && j < |pending|
    requires rows[pending[j]].payload.reason == results[k].reason
    ensures Matched(rows[pending[j] := RowOf(results[k])], Without(pending, j), results, k + 1)
  {
    forall m | k + 1 <= m < |results|
      ensures HasRow(rows[pending[j] := RowOf(results[k])], Without(pending, j), results[m].reason)
    {
      StillHasRow(rows, pending, j, RowOf(results[k]), results[m].reason);
    }
  }

  lemma StepSameReason(rows: seq<Row>, pending: seq<nat>, j: nat, result: Result)
    requires Overwritable(rows, pending) && Distinct(rows) && j < |pending|
    requires rows[pending[j]].payload.reason == result.reason
    ensures var rows' := rows[pending[j] := RowOf(result)];
            Overwritable(rows', Without(pending, j)) && Distinct(rows')
  {
  }

  lemma MatchedPick(rows: seq<Row>, pending: seq<nat>, result: Result, k: nat) returns (j: nat)
    requires Overwritable(rows, pending) && HasRow(rows, pending, result.reason)
    ensures Pick(rows, pending, result.reason, k) == Some(j)
    ensures j < |pending| && rows[pending[j]].payload.reason == result.reason
  {
    var i: nat :| i in pending && i < |rows| && rows[i].payload.reason == result.reason;
    var a :| 0 <= a < |pending| && pending[a] == i;
    j := FirstMatch(rows, pending, result.reason);
  }

  /** How row i ends up when results[k..] are stored by their reasons. */
  ghost predicate Landed(before: seq<Row>, pending: seq<nat>, results: seq<Result>, k: nat, after: seq<Row>, i: nat)
    requires i < |before|
  {
    && |after| == |before|
    && after[i].payload.reason == before[i].payload.reason
    && ((forall m | k <= m < |results| :: results[m].reason != before[i].payload.reason) ==> after[i] == before[i])
    && (forall m | k <= m < |results| ::
          results[m].reason == before[i].payload.reason && i in pending ==> after[i] == RowOf(results[m]))
  }

  lemma LandedStep(
      rows: seq<Row>, pending: seq<nat>, results: seq<Result>, k: nat, j: nat, after: seq<Row>, i: nat)
    requires k < |results| && Overwritable(rows, pending) && Distinct(rows) && DistinctFrom(results, k)
    requires i < |rows| && j < |pending| && rows[pending[j]].payload.reason == results[k].reason
    requires var rows' := rows[pending[j] := RowOf(results[k])];
             && Landed(rows', Without(pending, j), results, k + 1, after, i)
             && (i == pending[j] ==> after[i] == rows'[i])
             && (i in Without(pending, j) <==> i in pending && i != pending[j])
    ensures Landed(rows, pending, results, k, after, i)
  {
    if i != pending[j] {
      assert rows[i].payload.reason != results[k].reason;
    }
  }

  /** If every result finds its reason among the pending rows, each lands there, and all other rows stay as they are. */
  lemma {:induction false} PersistByReason(rows: seq<Row>, pending: seq<nat>, results: seq<Result>, k: nat, i: nat)
    requires k <= |results| && Overwritable(rows, pending) && Distinct(rows) && DistinctFrom(results, k)
    requires Matched(rows, pending, results, k) && i < |rows|
    ensures Landed(rows, pending, results, k, Persist(rows, pending, results, k), i)
    decreases |results| - k
  {
    if k < |results| {
      var j := MatchedPick(rows, pending, results[k], k);
      var rows', rest := rows[pending[j] := RowOf(results[k])], Without(pending, j);
      StepMatched(rows, pending, results, k, j);
      StepSameReason(rows, pending, j, results[k]);
      PersistByReason(rows', rest, results, k + 1, i);
      WithoutMembers(pending, j, i);
      if i == pending[j] {
        PersistKeepsRow(rows', rest, results, k + 1, i);
      }
      LandedStep(rows, pending, results, k, j, Persist(rows', rest, results, k + 1), i);
    }
  }

  ghost predicate OthersSent(rows: seq<Row>, pending: seq<nat>) {
    forall i | 0 <= i < |rows| && i !in pending :: rows[i].IsSent()
  }

  lemma SendStep(rows: seq<Row>, pending: seq<nat>, j: nat, row: Row)
    requires Overwritable(rows, pending) && OthersSent(rows, pending) && j < |pending| && row.IsSent()
    ensures Overwritable(rows[pending[j] := row], Without(pending, j))
    ensures OthersSent(rows[pending[j] := row], Without(pending, j))
  {
    forall i | 0 <= i < |rows|
      ensures i in Without(pending, j) <==> i in pending && i != pending[j]
    {
      WithoutMembers(pending, j, i);
    }
  }

  /** As many results as pending rows, all registered: no row is left unsent. */
  lemma {:induction false} PersistSendsAll(rows: seq<Row>, pending: seq<nat>, results: seq<Result>, k: nat)
    requires k <= |results| && Overwritable(rows, pending) && |pending| <= |results| - k
    requires OthersSent(rows, pending)
    requires forall m | k <= m < |results| :: results[m].Registered?
    ensures AllSent(Persist(rows, pending, results, k))
    decreases |results| - k
  {
    if k < |results| {
      match Pick(rows, pending, results[k].reason, k)
      case None =>
        PersistSendsAll(rows + [RowOf(results[k])], pending, results, k + 1);
      case Some(j) =>
        SendStep(rows, pending, j, RowOf(results[k]));
        PersistSendsAll(rows[pending[j] := RowOf(results[k])], Without(pending, j), results, k + 1);
    }
  }

  /** Row i stays as it is when results[k..] are stored, and none of them carries its reason. */
  ghost predicate LeftOut(
    before: seq<Row>, pending: seq<nat>, results: seq<Result>, k: nat, after: seq<Row>, i: nat)
  {
    && i < |before| == |after| && i in pending && after[i] == before[i]
    && forall m | k <= m < |results| :: results[m].reason != before[i].payload.reason
  }

  lemma LeftOutStep(
      rows: seq<Row>, pending: seq<nat>, results: seq<Result>, k: nat, j: nat, after: seq<Row>, i: nat)
    requires k < |results| && Overwritable(rows, pending) && j < |pending|
    requires forall a | a in pending && rows[a].payload.reason == results[k].reason :: a == pending[j]
    requires LeftOut(rows[pending[j] := RowOf(results[k])], Without(pending, j), results, k + 1, after, i)
    ensures LeftOut(rows, pending, results, k, after, i)
  {
    WithoutMembers(pending, j, i);
  }

  /** A state in which results[k..] are fewer than the pending rows, and all reasons are told apart. */
  ghost predicate TooFew(rows: seq<Row>, pending: seq<nat>, results: seq<Result>, k: nat) {
    && k <= |results| && Overwritable(rows, pending) && Distinct(rows) && |results| - k < |pending|
    && DistinctFrom(results, k) && Apart(rows, pending, results, k)
  }

  lemma TooFewStep(rows: seq<Row>, pending: seq<nat>, results: seq<Result>, k: nat) returns (j: nat)
    requires TooFew(rows, pending, results, k) && k < |results|
    ensures j < |pending| && Pick(rows, pending, results[k].reason, k) == Some(j)
    ensures TooFew(rows[pending[j] := RowOf(results[k])], Without(pending, j), results, k + 1)
    ensures forall a | a in pending && rows[a].payload.reason == results[k].reason :: a == pending[j]
  {
    PickedRow(rows, pending, results[k], k);
    j := Pick(rows, pending, results[k].reason, k).value;
    StepDistinct(rows, pending, results, k, j);
  }

  lemma PersistStep(rows: seq<Row>, pending: seq<nat>, results: seq<Result>, k: nat, j: nat)
    requires k < |results| && forall a | 0 <= a < |pending| :: pending[a] < |rows|
    requires Pick(rows, pending, results[k].reason, k) == Some(j)
    ensures Persist(rows, pending, results, k)
         == Persist(rows[pending[j] := RowOf(results[k])], Without(pending, j), results, k + 1)
  {
  }

  lemma LeavesOneMore(
      rows: seq<Row>, pending: seq<nat>, results: seq<Result>, k: nat, j: nat, after: seq<Row>, i: nat)
    requires TooFew(rows, pending, results, k) && k < |results| && j < |pending|
    requires Pick(rows, pending, results[k].reason, k) == Some(j)
    requires forall a | a in pending && rows[a].payload.reason == results[k].reason :: a == pending[j]
    requires LeftOut(rows[pending[j] := RowOf(results[k])], Without(pending, j), results, k + 1, after, i)
    requires after == Persist(rows[pending[j] := RowOf(results[k])], Without(pending, j), results, k + 1)
    ensures LeftOut(rows, pending, results, k, Persist(rows, pending, results, k), i)
  {
    PersistStep(rows, pending, results, k, j);
    LeftOutStep(rows, pending, results, k, j, after, i);
  }

  /** Fewer results than pending rows: some row is left out. */
  lemma {:induction false} PersistLeavesOne(rows: seq<Row>, pending: seq<nat>, results: seq<Result>, k: nat)
    returns (i: nat)
    requires TooFew(rows, pending, results, k)
    ensures LeftOut(rows, pending, results, k, Persist(rows, pending, results, k), i)
    decreases |results| - k
  {
    if k == |results| {
      i := pending[0];
    } else {
      var j := TooFewStep(rows, pending, results, k);
      var rows', rest := rows[pending[j] := RowOf(results[k])], Without(pending, j);
      i := PersistLeavesOne(rows', rest, results, k + 1);
      LeavesOneMore(rows, pending, results, k, j, Persist(rows', rest, results, k + 1), i);
    }
  }

  // ----- One retry -----

  /** The reasons a retry asks for: those of the pending rows, each once, without the missing ones. */
  lemma {:induction false} PendingReasonsAre(rows: seq<Row>, pending: seq<nat>)
    requires forall j | 0 <= j < |pending| :: pending[j] < |rows|
    ensures forall reason ::
              reason in PendingReasons(rows, pending) <==> reason != Absent && HasRow(rows, pending, reason)
  {
    if pending != [] {
      var last := |pending| - 1;
      var before := pending[..last];
      PendingReasonsAre(rows, before);
      assert pending == before + [pending[last]];
      forall reason
        ensures HasRow(rows, pending, reason) <==>
                  HasRow(rows, before, reason) || rows[pending[last]].payload.reason == reason
      {
        HasRowSnoc(rows, before, pending[last], reason);
      }
    }
  }

  lemma {:induction false} NothingPendingIff(rows: seq<Row>)
    ensures PendingIds(rows) == [] <==> forall i | 0 <= i < |rows| :: rows[i].status == Sent
    ensures SomeSent(rows) <==> exists i | 0 <= i < |rows| :: rows[i].status == Sent
  {
    if i :| 0 <= i < |rows| && rows[i].status == Sent {
      assert rows[i].IsSent();
    }
    if i :| 0 <= i < |rows| && rows[i].status != Sent {
      assert !rows[i].IsSent() && i in PendingIds(rows);
    }
    if PendingIds(rows) != [] {
      assert !rows[PendingIds(rows)[0]].IsSent();
    }
  }

  lemma {:induction false} NoReasonIff(rows: seq<Row>)
    ensures PendingReasons(rows, PendingIds(rows)) == [] <==>
              forall i | 0 <= i < |rows| && rows[i].status != Sent :: rows[i].payload.reason == Absent
  {
    var pending := PendingIds(rows);
    PendingReasonsAre(rows, pending);
    if PendingReasons(rows, pending) == [] {
      forall i | 0 <= i < |rows| && rows[i].status != Sent
        ensures rows[i].payload.reason == Absent
      {
        assert i in pending && rows[i].payload.reason !in PendingReasons(rows, pending);
      }
    } else {
      assert PendingReasons(rows, pending)[0] in PendingReasons(rows, pending);
    }
  }

  lemma RetryBranches(ledger: Ledger, parts: seq<Part>, percent: nat, outcome: Outcome)
    ensures var (after, reply) := RetryOnce(ledger, parts, percent, outcome);
            var pending := PendingIds(ledger.rows);
            && (reply == AlreadySent <==> SomeSent(ledger.rows) && pending == [])
            && (reply == Blocked <==>
                  SomeSent(ledger.rows) && pending != [] && PendingReasons(ledger.rows, pending) == [])
            && (reply == AlreadySent || reply == Blocked ==> after == ledger)
  {
  }

  /** A retry answers that all is sent exactly when there are rows and all of them are; it is blocked exactly when some
      rows are sent, others are not, and none of those has a reason; either way nothing changes. */
  lemma RetryReplies(ledger: Ledger, parts: seq<Part>, percent: nat, outcome: Outcome)
    ensures var (after, reply) := RetryOnce(ledger, parts, percent, outcome);
            var rows := ledger.rows;
            && (reply == AlreadySent <==> rows != [] && forall i | 0 <= i < |rows| :: rows[i].status == Sent)
            && (reply == Blocked <==>
                  && (exists i | 0 <= i < |rows| :: rows[i].status == Sent)
                  && (exists i | 0 <= i < |rows| :: rows[i].status != Sent)
                  && (forall i | 0 <= i < |rows| && rows[i].status != Sent :: rows[i].payload.reason == Absent))
            && (reply == AlreadySent || reply == Blocked ==> after == ledger)
  {
    RetryBranches(ledger, parts, percent, outcome);
    NothingPendingIff(ledger.rows);
    NoReasonIff(ledger.rows);
    assert ledger.rows != [] ==> ledger.rows[0].status == Sent || PendingIds(ledger.rows) != [];
  }

  ghost predicate NoneTwice(reasons: seq<Reason>) {
    forall m, n | 0 <= m < n < |reasons| :: reasons[m] != reasons[n]
  }

  lemma {:induction false} PendingReasonsDistinct(rows: seq<Row>, pending: seq<nat>)
    requires forall j | 0 <= j < |pending| :: pending[j] < |rows|
    ensures NoneTwice(PendingReasons(rows, pending))
  {
    if pending != [] {
      PendingReasonsDistinct(rows, pending[..|pending| - 1]);
    }
  }

  lemma HasRowSnoc(rows: seq<Row>, pending: seq<nat>, last: nat, reason: Reason)
    requires last < |rows|
    ensures HasRow(rows, pending + [last], reason) <==>
              HasRow(rows, pending, reason) || rows[last].payload.reason == reason
  {
    if HasRow(rows, pending, reason) {
      var i: nat :| i in pending && i < |rows| && rows[i].payload.reason == reason;
      assert i in pending + [last];
    }
    if rows[last].payload.reason == reason {
      assert last in pending + [last];
    }
  }

  /** Whatever was asked for is answered, each part at most once. */
  lemma AnswersAsked(now: seq<Part>, percent: nat, reasons: seq<Reason>, outcome: Outcome)
    requires WellSplit(now) && reasons != [] && NoneTwice(reasons)
    ensures var results := ServiceResults(now, percent, reasons, outcome);
            DistinctFrom(results, 0) && forall m | 0 <= m < |results| :: results[m].reason in reasons
  {
    var results, chosen := ServiceResults(now, percent, reasons, outcome), Filter(now, WantedBy(reasons));
    FiscalLosses.FilterDistinct(now, WantedBy(reasons));
    forall m | 0 <= m < |results|
      ensures results[m].reason in reasons
    {
      if outcome.Online? && chosen != [] {
        assert chosen[m] in chosen;
      }
    }
  }

  lemma {:induction false} ReasonsMatched(rows: seq<Row>, results: seq<Result>)
    requires forall m | 0 <= m < |results| :: results[m].reason in PendingReasons(rows, PendingIds(rows))
    ensures Matched(rows, PendingIds(rows), results, 0)
  {
    PendingReasonsAre(rows, PendingIds(rows));
  }

  /** What a retry after a partial success sends and gets back concerns pending rows only, each at most once. */
  lemma {:induction false} PartialFits(rows: seq<Row>, now: seq<Part>, percent: nat, outcome: Outcome)
    requires WellSplit(now) && SomeSent(rows) && PendingReasons(rows, PendingIds(rows)) != []
    ensures var results := PartialResults(rows, now, percent, outcome);
            DistinctFrom(results, 0) && Matched(rows, PendingIds(rows), results, 0)
  {
    PendingReasonsDistinct(rows, PendingIds(rows));
    AnswersAsked(now, percent, PendingReasons(rows, PendingIds(rows)), outcome);
    ReasonsMatched(rows, PartialResults(rows, now, percent, outcome));
  }

  lemma FullFits(now: seq<Part>, percent: nat, outcome: Outcome)
    requires WellSplit(now)
    ensures var results := ServiceResults(now, percent, [], outcome); results != [] && DistinctFrom(results, 0)
  {
  }

  lemma {:induction false} PendingApart(rows: seq<Row>, results: seq<Result>)
    requires Distinct(rows) && Matched(rows, PendingIds(rows), results, 0)
    ensures Apart(rows, PendingIds(rows), results, 0)
  {
    forall i, m | 0 <= i < |rows| && i !in PendingIds(rows) && 0 <= m < |results|
      ensures rows[i].payload.reason != results[m].reason
    {
      assert HasRow(rows, PendingIds(rows), results[m].reason);
    }
  }

  lemma {:induction false} FirstIssueKept(parts: seq<Part>, percent: nat, outcome: Outcome)
    requires WellSplit(parts)
    ensures WellKept(FirstIssue(parts, percent, outcome))
  {
    FullFits(parts, percent, outcome);
    FirstIssueValid(parts, percent, outcome);
  }

  /** Whatever has become of the order, a retry keeps the rows' split reasons apart and the books balanced. */
  lemma RetryKept(ledger: Ledger, now: seq<Part>, percent: nat, outcome: Outcome)
    requires WellKept(ledger) && WellSplit(now)
    ensures WellKept(RetryOnce(ledger, now, percent, outcome).0)
  {
    var rows, pending := ledger.rows, PendingIds(ledger.rows);
    RetryBalanced(ledger, now, percent, outcome);
    RetryKeepsSent(ledger, now, percent, outcome);
    var (after, reply) := RetryOnce(ledger, now, percent, outcome);
    if reply.Retried? {
      if SomeSent(rows) {
        PartialFits(rows, now, percent, outcome);
        PendingApart(rows, reply.results);
      } else {
        FullFits(now, percent, outcome);
      }
      PersistWritten(rows, pending, reply.results, 0);
      PersistDistinct(rows, pending, reply.results, 0);
    }
  }

  /** Whatever has become of the order, no split reason is ever acknowledged twice. */
  lemma ReasonAcknowledgedOnce(ledger: Ledger, reason: Reason)
    requires WellKept(ledger)
    ensures Registrations(ledger.log, reason)
         == if exists i | 0 <= i < |ledger.rows| :: ledger.rows[i].IsSent() && ledger.rows[i].payload.reason == reason
            then 1 else 0
  {
    var rows, f := ledger.rows, Concerns(reason);
    assert SumBy(ledger.log, f) == SumBy(rows, SentValue(f));
    if at :| 0 <= at < |rows| && rows[at].IsSent() && rows[at].payload.reason == reason {
      SingleTerm(rows, SentValue(f), at);
    } else {
      SingleTerm(rows, SentValue(f), |rows|);
    }
  }

  // ----- When the order as it is now can complete the registration -----

  predicate HasPart(parts: seq<Part>, reason: Reason) {
    exists k | 0 <= k < |parts| :: parts[k].reason == reason
  }

  /** With nothing sent, the order has parts, and no fewer than there are rows; after a partial success, every pending
      row's reason is the reason of a part. */
  predicate Completable(rows: seq<Row>, now: seq<Part>) {
    if SomeSent(rows) then forall i | 0 <= i < |rows| && !rows[i].IsSent() :: HasPart(now, rows[i].payload.reason)
    else now != [] && |rows| <= |now|
  }

  lemma {:induction false} RowAsksAgain(rows: seq<Row>, i: nat)
    requires i < |rows| && !rows[i].IsSent() && rows[i].payload.reason != Absent
    ensures rows[i].payload.reason in PendingReasons(rows, PendingIds(rows))
  {
    PendingReasonsAre(rows, PendingIds(rows));
    assert HasRow(rows, PendingIds(rows), rows[i].payload.reason);
  }

  lemma {:induction false} AnswerFor(rows: seq<Row>, now: seq<Part>, percent: nat, outcome: Outcome, i: nat)
    returns (m: nat)
    requires AcceptsAll(outcome, |now|)
    requires i < |rows| && rows[i].payload.reason != Absent && !rows[i].IsSent()
    requires HasPart(now, rows[i].payload.reason)
    ensures PendingReasons(rows, PendingIds(rows)) != []
    ensures var results := PartialResults(rows, now, percent, outcome);
            m < |results| && results[m].reason == rows[i].payload.reason && results[m].Registered?
  {
    RowAsksAgain(rows, i);
    m := AnswerAmong(now, PendingReasons(rows, PendingIds(rows)), percent, outcome, rows[i].payload.reason);
  }

  lemma AnswerAmong(
      now: seq<Part>, reasons: seq<Reason>, percent: nat, outcome: Outcome, reason: Reason)
    returns (m: nat)
    requires AcceptsAll(outcome, |now|) && HasPart(now, reason) && reason in reasons
    ensures var results := ServiceResults(now, percent, reasons, outcome);
            m < |results| && results[m].reason == reason && results[m].Registered?
  {
    m := ChosenFor(now, reasons, reason);
    var chosen := Filter(now, WantedBy(reasons));
    IssuedAt(chosen, percent, outcome.lastOperation, outcome.replies, m);
    assert outcome.replies[m] in outcome.replies;
  }

  lemma ChosenFor(now: seq<Part>, reasons: seq<Reason>, reason: Reason) returns (m: nat)
    requires HasPart(now, reason) && reason in reasons
    ensures m < |Filter(now, WantedBy(reasons))| && Filter(now, WantedBy(reasons))[m].reason == reason
  {
    var k :| 0 <= k < |now| && now[k].reason == reason;
    assert now[k] in Filter(now, WantedBy(reasons));
    m :| m < |Filter(now, WantedBy(reasons))| && Filter(now, WantedBy(reasons))[m] == now[k];
  }

  lemma {:induction false} AcceptedPartial(rows: seq<Row>, now: seq<Part>, percent: nat, outcome: Outcome, i: nat)
    requires WellSplit(now) && SomeSent(rows) && Distinct(rows) && AcceptsAll(outcome, |now|)
    requires i < |rows| && !rows[i].IsSent() && HasPart(now, rows[i].payload.reason)
    ensures PendingReasons(rows, PendingIds(rows)) != []
    ensures var after := Persist(rows, PendingIds(rows), PartialResults(rows, now, percent, outcome), 0);
            |after| == |rows| && after[i].IsSent()
  {
    var m := AnswerFor(rows, now, percent, outcome, i);
    PartialFits(rows, now, percent, outcome);
    LandsSent(rows, PartialResults(rows, now, percent, outcome), i, m);
  }

  lemma {:induction false} LandsSent(rows: seq<Row>, results: seq<Result>, i: nat, m: nat)
    requires Distinct(rows) && DistinctFrom(results, 0) && Matched(rows, PendingIds(rows), results, 0)
    requires i < |rows| && !rows[i].IsSent() && m < |results|
    requires results[m].reason == rows[i].payload.reason && results[m].Registered?
    ensures var after := Persist(rows, PendingIds(rows), results, 0); |after| == |rows| && after[i].IsSent()
  {
    PersistByReason(rows, PendingIds(rows), results, 0, i);
    assert i in PendingIds(rows);
  }

  lemma {:induction false} AcceptedFull(rows: seq<Row>, now: seq<Part>, percent: nat, outcome: Outcome)
    requires !SomeSent(rows) && now != [] && |rows| <= |now| && AcceptsAll(outcome, |now|)
    ensures Complete(Persist(rows, PendingIds(rows), ServiceResults(now, percent, [], outcome), 0))
  {
    var results := IssueAll(now, percent, outcome.lastOperation, outcome.replies);
    AllPending(rows);
    AcceptedAreRegistered(now, percent, outcome.lastOperation, outcome.replies);
    assert forall m | 0 <= m < |results| :: results[m] in results;
    PersistSendsAll(rows, PendingIds(rows), results, 0);
    PersistFillsUp(rows, results);
  }

  lemma {:induction false} PersistFillsUp(rows: seq<Row>, results: seq<Result>)
    requires results != []
    ensures Persist(rows, PendingIds(rows), results, 0) != []
  {
    if rows == [] {
      PersistAppends(rows, results, 0);
    } else {
      PersistGrows(rows, PendingIds(rows), results, 0);
    }
  }

  /** One accepted retry then leaves every row sent. */
  lemma AcceptedRetryCompletes(ledger: Ledger, now: seq<Part>, percent: nat, outcome: Outcome)
    requires WellKept(ledger) && WellSplit(now) && Completable(ledger.rows, now) && AcceptsAll(outcome, |now|)
    ensures Complete(RetryOnce(ledger, now, percent, outcome).0.rows)
  {
    var rows := ledger.rows;
    var after := RetryOnce(ledger, now, percent, outcome).0.rows;
    if !SomeSent(rows) {
      AcceptedFull(rows, now, percent, outcome);
    } else if PendingIds(rows) != [] {
      RetryKeepsSent(ledger, now, percent, outcome);
      assert !rows[PendingIds(rows)[0]].IsSent();
      AcceptedPartial(rows, now, percent, outcome, PendingIds(rows)[0]);
      forall i | 0 <= i < |rows|
        ensures after[i].IsSent()
      {
        if !rows[i].IsSent() {
          AcceptedPartial(rows, now, percent, outcome, i);
        }
      }
    }
  }

  /** A pending row whose reason no part carries stays pending, and keeps its reason. */
  lemma {:induction false} UnmatchedStays(ledger: Ledger, now: seq<Part>, percent: nat, outcome: Outcome, i: nat)
    requires WellKept(ledger) && WellSplit(now) && SomeSent(ledger.rows)
    requires i < |ledger.rows| && !ledger.rows[i].IsSent() && !HasPart(now, ledger.rows[i].payload.reason)
    ensures var after := RetryOnce(ledger, now, percent, outcome).0.rows;
            && SomeSent(after) && i < |after| && !after[i].IsSent()
            && after[i].payload.reason == ledger.rows[i].payload.reason
  {
    var rows := ledger.rows;
    var pending := PendingIds(rows);
    RetryKeepsSent(ledger, now, percent, outcome);
    var s :| 0 <= s < |rows| && rows[s].IsSent();
    var after := RetryOnce(ledger, now, percent, outcome).0.rows;
    assert after[s].IsSent();
    if PendingReasons(rows, pending) != [] {
      UnmatchedAnswer(rows, now, percent, outcome, i);
    }
  }

  lemma {:induction false} UnmatchedRejected(
      rows: seq<Row>, now: seq<Part>, percent: nat, outcome: Outcome, reason: Reason)
    requires !HasPart(now, reason)
    ensures var results := PartialResults(rows, now, percent, outcome);
            forall m | 0 <= m < |results| && results[m].reason == reason :: results[m].Rejected?
  {
    var reasons := PendingReasons(rows, PendingIds(rows));
    var results := PartialResults(rows, now, percent, outcome);
    var chosen := if reasons == [] then now else Filter(now, WantedBy(reasons));
    forall m | 0 <= m < |chosen|
      ensures chosen[m].reason != reason
    {
      assert chosen[m] in chosen;
    }
  }

  lemma {:induction false} UnmatchedAnswer(rows: seq<Row>, now: seq<Part>, percent: nat, outcome: Outcome, i: nat)
    requires WellSplit(now) && SomeSent(rows) && Distinct(rows) && PendingReasons(rows, PendingIds(rows)) != []
    requires i < |rows| && !rows[i].IsSent() && !HasPart(now, rows[i].payload.reason)
    ensures var after := Persist(rows, PendingIds(rows), PartialResults(rows, now, percent, outcome), 0);
            |after| == |rows| && !after[i].IsSent() && after[i].payload.reason == rows[i].payload.reason
  {
    PartialFits(rows, now, percent, outcome);
    UnmatchedRejected(rows, now, percent, outcome, rows[i].payload.reason);
    LandsUnsent(rows, PartialResults(rows, now, percent, outcome), i);
  }

  lemma {:induction false} LandsUnsent(rows: seq<Row>, results: seq<Result>, i: nat)
    requires Distinct(rows) && DistinctFrom(results, 0) && Matched(rows, PendingIds(rows), results, 0)
    requires i < |rows| && !rows[i].IsSent()
    requires forall m | 0 <= m < |results| && results[m].reason == rows[i].payload.reason :: results[m].Rejected?
    ensures var after := Persist(rows, PendingIds(rows), results, 0);
            |after| == |rows| && !after[i].IsSent() && after[i].payload.reason == rows[i].payload.reason
  {
    PersistByReason(rows, PendingIds(rows), results, 0, i);
    assert i in PendingIds(rows);
    if m :| 0 <= m < |results| && results[m].reason == rows[i].payload.reason {
      assert RowOf(results[m]).status == Failed;
    }
  }

  lemma {:induction false} TooFewParts(rows: seq<Row>, now: seq<Part>, percent: nat, outcome: Outcome)
    requires Distinct(rows) && WellSplit(now) && !SomeSent(rows)
    requires now == [] || |now| < |rows|
    ensures !Completable(Persist(rows, PendingIds(rows), ServiceResults(now, percent, [], outcome), 0), now)
  {
    var results := ServiceResults(now, percent, [], outcome);
    if outcome.Unreachable? || now == [] {
      assert results == [Rejected(Absent)];
      NothingNewSent(rows, now);
    } else {
      FullFits(now, percent, outcome);
      TooFewResults(rows, now, results);
    }
  }

  lemma {:induction false} NothingNewSent(rows: seq<Row>, now: seq<Part>)
    requires !SomeSent(rows) && (now == [] || |now| < |rows|)
    ensures !Completable(Persist(rows, PendingIds(rows), [Rejected(Absent)], 0), now)
  {
    PersistGrows(rows, PendingIds(rows), [Rejected(Absent)], 0);
    NothingSent(rows, PendingIds(rows), [Rejected(Absent)], 0);
  }

  lemma PartialRetry(ledger: Ledger, now: seq<Part>, percent: nat, outcome: Outcome)
    requires SomeSent(ledger.rows) && PendingReasons(ledger.rows, PendingIds(ledger.rows)) != []
    ensures RetryOnce(ledger, now, percent, outcome).0.rows
         == Persist(ledger.rows, PendingIds(ledger.rows), PartialResults(ledger.rows, now, percent, outcome), 0)
  {
    NothingPending(ledger.rows);
    assert RetryReasons(ledger.rows) == Some(PendingReasons(ledger.rows, PendingIds(ledger.rows)));
  }

  lemma {:induction false} NothingPending(rows: seq<Row>)
    ensures PendingReasons(rows, []) == []
  {
  }

  lemma UnsentRetry(ledger: Ledger, now: seq<Part>, percent: nat, outcome: Outcome)
    requires !SomeSent(ledger.rows)
    ensures RetryOnce(ledger, now, percent, outcome).0.rows
         == Persist(ledger.rows, PendingIds(ledger.rows), ServiceResults(now, percent, [], outcome), 0)
  {
  }

  lemma {:induction false} TooFewResults(rows: seq<Row>, now: seq<Part>, results: seq<Result>)
    requires Distinct(rows) && DistinctFrom(results, 0) && !SomeSent(rows) && |results| == |now| < |rows|
    requires forall k | 0 <= k < |now| :: now[k].reason == results[k].reason
    ensures !Completable(Persist(rows, PendingIds(rows), results, 0), now)
  {
    AllPending(rows);
    assert forall i | 0 <= i < |rows| :: i in PendingIds(rows);
    var i := PersistLeavesOne(rows, PendingIds(rows), results, 0);
    assert !HasPart(now, rows[i].payload.reason);
  }

  lemma {:induction false} NothingSent(rows: seq<Row>, pending: seq<nat>, results: seq<Result>, k: nat)
    requires k <= |results| && !SomeSent(rows) && forall j | 0 <= j < |pending| :: pending[j] < |rows|
    requires forall m | k <= m < |results| :: results[m].Rejected?
    ensures !SomeSent(Persist(rows, pending, results, k))
    decreases |results| - k
  {
    if k < |results| {
      match Pick(rows, pending, results[k].reason, k)
      case None => NothingSent(rows + [RowOf(results[k])], pending, results, k + 1);
      case Some(j) => NothingSent(rows[pending[j] := RowOf(results[k])], Without(pending, j), results, k + 1);
    }
  }

  lemma IncompletableStays(ledger: Ledger, now: seq<Part>, percent: nat, outcome: Outcome)
    requires WellKept(ledger) && WellSplit(now) && !Completable(ledger.rows, now)
    ensures !Completable(RetryOnce(ledger, now, percent, outcome).0.rows, now)
  {
    var rows := ledger.rows;
    if SomeSent(rows) {
      var i :| 0 <= i < |rows| && !rows[i].IsSent() && !HasPart(now, rows[i].payload.reason);
      UnmatchedStays(ledger, now, percent, outcome, i);
    } else {
      UnsentRetry(ledger, now, percent, outcome);
      TooFewParts(rows, now, percent, outcome);
    }
  }

  lemma IncompletableIsOpen(rows: seq<Row>, now: seq<Part>)
    requires !Completable(rows, now)
    ensures !Complete(rows)
  {
    assert rows == [] || SomeSent(rows) || !rows[0].IsSent();
  }

  lemma {:induction false} IncompletableRun(ledger: Ledger, now: seq<Part>, percent: nat, retries: seq<Outcome>)
    requires WellKept(ledger) && WellSplit(now) && !Completable(ledger.rows, now)
    ensures !Complete(Run(ledger, now, percent, retries).rows)
    decreases |retries|
  {
    if retries == [] {
      IncompletableIsOpen(ledger.rows, now);
    } else {
      RetryKept(ledger, now, percent, retries[0]);
      IncompletableStays(ledger, now, percent, retries[0]);
      IncompletableRun(RetryOnce(ledger, now, percent, retries[0]).0, now, percent, retries[1..]);
    }
  }

  lemma {:induction false} RunOnce(ledger: Ledger, now: seq<Part>, percent: nat, outcome: Outcome)
    ensures Run(ledger, now, percent, [outcome]) == RetryOnce(ledger, now, percent, outcome).0
  {
    assert [outcome][1..] == [];
  }

  /** Against the order as it is now, some retries leave every row sent exactly when its parts fit the rows. */
  lemma CompletableIff(ledger: Ledger, now: seq<Part>, percent: nat)
    requires WellKept(ledger) && WellSplit(now)
    ensures (exists retries :: Complete(Run(ledger, now, percent, retries).rows)) <==> Completable(ledger.rows, now)
  {
    if Completable(ledger.rows, now) {
      AcceptedRetryCompletes(ledger, now, percent, AllAccepted(|now|));
      RunOnce(ledger, now, percent, AllAccepted(|now|));
    } else {
      forall retries
        ensures !Complete(Run(ledger, now, percent, retries).rows)
      {
        IncompletableRun(ledger, now, percent, retries);
      }
    }
  }

  // ----- The first issue -----

  /** The device accepts each part of an order that has some. */
  predicate RegistersAll(parts: seq<Part>, outcome: Outcome) {
    outcome.Online? && parts != [] && forall i: nat | i < |parts| :: ReplyAt(outcome.replies, i).Accepts?
  }

  lemma {:induction false} FirstIssueSendsAllIff(parts: seq<Part>, percent: nat, outcome: Outcome)
    ensures Complete(FirstIssue(parts, percent, outcome).rows) <==> RegistersAll(parts, outcome)
  {
    var rows := FirstIssue(parts, percent, outcome).rows;
    if outcome.Online? && parts != [] {
      forall i: nat | i < |parts|
        ensures rows[i].IsSent() <==> ReplyAt(outcome.replies, i).Accepts?
      {
        IssuedAt(parts, percent, outcome.lastOperation, outcome.replies, i);
      }
    } else {
      assert !rows[0].IsSent();
    }
  }

  // ----- When no change of the order can help -----

  /** One more try at registration: the order as it is by then, and what the device does. */
  datatype Round = Round(order: Sale, outcome: Outcome)

  /** Retries one after the other, each against the order as it is by then. */
  function Follow(ledger: Ledger, paidBy: Method, rounds: seq<Round>): Ledger
    decreases |rounds|
  {
    if rounds == [] then ledger
    else
      var (order, outcome) := (rounds[0].order, rounds[0].outcome);
      Follow(RetryOnce(ledger, BuildParts(order, paidBy), order.vat, outcome).0, paidBy, rounds[1..])
  }

  /** Some row is sent and a pending one has lost its split reason. */
  predicate Stranded(rows: seq<Row>) {
    SomeSent(rows) && exists i | 0 <= i < |rows| :: !rows[i].IsSent() && rows[i].payload.reason == Absent
  }

  lemma StrandedStays(ledger: Ledger, now: seq<Part>, percent: nat, outcome: Outcome)
    requires WellKept(ledger) && WellSplit(now) && Stranded(ledger.rows)
    ensures Stranded(RetryOnce(ledger, now, percent, outcome).0.rows)
  {
    var i :| 0 <= i < |ledger.rows| && !ledger.rows[i].IsSent() && ledger.rows[i].payload.reason == Absent;
    UnmatchedStays(ledger, now, percent, outcome, i);
  }

  lemma {:induction false} StrandedForGood(ledger: Ledger, paidBy: Method, rounds: seq<Round>)
    requires WellKept(ledger) && Stranded(ledger.rows)
    ensures !Complete(Follow(ledger, paidBy, rounds).rows)
    decreases |rounds|
  {
    if rounds != [] {
      var order, outcome := rounds[0].order, rounds[0].outcome;
      PartsAreToldApart(order, paidBy);
      RetryKept(ledger, BuildParts(order, paidBy), order.vat, outcome);
      StrandedStays(ledger, BuildParts(order, paidBy), order.vat, outcome);
      StrandedForGood(RetryOnce(ledger, BuildParts(order, paidBy), order.vat, outcome).0, paidBy, rounds[1..]);
    }
  }

  function MostParts(paidBy: Method): nat {
    if paidBy == Cash then 2 else 1
  }

  function ReasonsFor(paidBy: Method): set<Reason> {
    if paidBy == Cash then {Absent, WHOLE, CASH_ALLOWED, CASH_FORBIDDEN} else {Absent, WHOLE}
  }

  /** Rows of a payment by this method carry its split reasons, or none, and are no more than its parts can be. */
  ghost predicate Possible(rows: seq<Row>, paidBy: Method) {
    |rows| <= MostParts(paidBy) && forall i | 0 <= i < |rows| :: rows[i].payload.reason in ReasonsFor(paidBy)
  }

  lemma PartsPossible(sale: Sale, paidBy: Method)
    ensures |BuildParts(sale, paidBy)| <= MostParts(paidBy)
    ensures forall i | 0 <= i < |BuildParts(sale, paidBy)| :: BuildParts(sale, paidBy)[i].reason in ReasonsFor(paidBy)
  {
  }

  lemma FirstIssuePossible(sale: Sale, paidBy: Method, outcome: Outcome)
    ensures Possible(FirstIssue(BuildParts(sale, paidBy), sale.vat, outcome).rows, paidBy)
  {
    PartsPossible(sale, paidBy);
  }

  lemma {:induction false} PersistBounds(
      rows: seq<Row>, pending: seq<nat>, results: seq<Result>, k: nat, reasons: set<Reason>)
    requires k <= |results| && forall j | 0 <= j < |pending| :: pending[j] < |rows|
    requires forall i | 0 <= i < |rows| :: rows[i].payload.reason in reasons
    requires forall m | k <= m < |results| :: results[m].reason in reasons
    ensures var after := Persist(rows, pending, results, k);
            && |after| <= Max(|rows|, |rows| - |pending| + |results| - k)
            && forall i | 0 <= i < |after| :: after[i].payload.reason in reasons
    decreases |results| - k
  {
    if k < |results| {
      match Pick(rows, pending, results[k].reason, k)
      case None => PersistBounds(rows + [RowOf(results[k])], pending, results, k + 1, reasons);
      case Some(j) =>
        PersistBounds(rows[pending[j] := RowOf(results[k])], Without(pending, j), results, k + 1, reasons);
    }
  }

  lemma RetryPossible(ledger: Ledger, order: Sale, paidBy: Method, outcome: Outcome)
    requires WellKept(ledger) && Possible(ledger.rows, paidBy)
    ensures Possible(RetryOnce(ledger, BuildParts(order, paidBy), order.vat, outcome).0.rows, paidBy)
  {
    var rows, parts := ledger.rows, BuildParts(order, paidBy);
    PartsAreToldApart(order, paidBy);
    if !SomeSent(rows) {
      UnsentRetry(ledger, parts, order.vat, outcome);
      UnsentPossible(rows, order, paidBy, outcome);
    } else if PendingReasons(rows, PendingIds(rows)) != [] {
      PartialRetry(ledger, parts, order.vat, outcome);
      PartialPossible(rows, parts, order.vat, paidBy, outcome);
    }
  }

  lemma {:induction false} PartialPossible(
      rows: seq<Row>, parts: seq<Part>, percent: nat, paidBy: Method, outcome: Outcome)
    requires SomeSent(rows) && PendingReasons(rows, PendingIds(rows)) != [] && WellSplit(parts)
    requires Distinct(rows) && Possible(rows, paidBy)
    ensures Possible(Persist(rows, PendingIds(rows), PartialResults(rows, parts, percent, outcome), 0), paidBy)
  {
    PartialFits(rows, parts, percent, outcome);
    MatchedPossible(rows, PartialResults(rows, parts, percent, outcome), paidBy);
  }

  lemma {:induction false} UnsentPossible(rows: seq<Row>, order: Sale, paidBy: Method, outcome: Outcome)
    requires !SomeSent(rows) && Possible(rows, paidBy)
    ensures var results := ServiceResults(BuildParts(order, paidBy), order.vat, [], outcome);
            Possible(Persist(rows, PendingIds(rows), results, 0), paidBy)
  {
    AllPending(rows);
    PartsPossible(order, paidBy);
    var results := ServiceResults(BuildParts(order, paidBy), order.vat, [], outcome);
    PersistBounds(rows, PendingIds(rows), results, 0, ReasonsFor(paidBy));
  }

  lemma {:induction false} MatchedPossible(rows: seq<Row>, results: seq<Result>, paidBy: Method)
    requires rows != [] && Distinct(rows) && DistinctFrom(results, 0) && Matched(rows, PendingIds(rows), results, 0)
    requires Possible(rows, paidBy)
    ensures Possible(Persist(rows, PendingIds(rows), results, 0), paidBy)
  {
    var after := Persist(rows, PendingIds(rows), results, 0);
    forall i: nat | i < |rows|
      ensures |after| == |rows| && after[i].payload.reason == rows[i].payload.reason
    {
      PersistByReason(rows, PendingIds(rows), results, 0, i);
    }
    assert |after| == |rows|;
  }

  const FORBIDDEN: CashSale.Json := CashSale.Object([CashSale.Entry("cashSale", CashSale.Number(0.0))])

  /** An item that may be sold for cash, and one that may not. */
  const FREE: Item := Item(1, false, 1, 100, 100, [], CashSale.Null, CashSale.Null)
  const BOUND: Item := Item(2, false, 1, 100, 100, [], FORBIDDEN, CashSale.Null)

  lemma ForbiddenForbids(item: Item)
    ensures item.(itemPayload := FORBIDDEN).Forbidden()
    ensures !item.(itemPayload := CashSale.Null, categoryPayload := CashSale.Null).Forbidden()
  {
    CashSale.ItemPayloadDecides(FORBIDDEN, item.categoryPayload);
    CashSale.ItemPayloadDecides(CashSale.Null, CashSale.Null);
    assert CashSale.Candidates(FORBIDDEN) == [CashSale.Number(0.0)];
  }

  lemma TwoItems(a: Item, b: Item)
    requires !a.cancelled && !b.cancelled && b.Forbidden()
    ensures Filter([a, b], IsActive) == [a, b]
    ensures Filter([a, b], IsForbidden) == if a.Forbidden() then [a, b] else [b]
    ensures Filter([a, b], IsAllowed) == if a.Forbidden() then [] else [a]
  {
    assert [a, b][1..] == [b] && [b][1..] == [];
  }

  lemma OneItem(a: Item)
    requires !a.cancelled
    ensures Filter([a], IsActive) == [a]
    ensures Filter([a], IsForbidden) == if a.Forbidden() then [a] else []
    ensures Filter([a], IsAllowed) == if a.Forbidden() then [] else [a]
  {
    assert [a][1..] == [];
  }

  lemma PlainOrder()
    ensures BuildParts(Sale([FREE], 100, 100, 0), Cash) == [Part([FREE], 0, PayCash, WHOLE)]
    ensures forall paidBy: Method | paidBy != Cash ::
              BuildParts(Sale([FREE], 100, 100, 0), paidBy) == [Part([FREE], 0, PayCard, WHOLE)]
  {
    ForbiddenForbids(FREE);
    OneItem(FREE);
  }

  lemma SplitOrder()
    ensures BuildParts(Sale([FREE, BOUND], 200, 200, 0), Cash)
         == [Part([FREE], 0, PayCash, CASH_ALLOWED), Part([BOUND], 0, PayCard, CASH_FORBIDDEN)]
  {
    ForbiddenForbids(FREE);
    ForbiddenForbids(BOUND);
    TwoItems(FREE, BOUND);
  }

  lemma CancelledOrders()
    ensures BuildParts(Sale([FREE, BOUND.(cancelled := true)], 100, 100, 0), Cash)
         == [Part([FREE], 0, PayCash, WHOLE)]
    ensures BuildParts(Sale([FREE.(cancelled := true), BOUND], 100, 100, 0), Cash)
         == [Part([BOUND], 0, PayCard, CASH_FORBIDDEN)]
  {
    ForbiddenForbids(FREE);
    ForbiddenForbids(BOUND);
    var gone, lost := BOUND.(cancelled := true), FREE.(cancelled := true);
    assert [FREE, gone][1..] == [gone] && [lost, BOUND][1..] == [BOUND];
    OneItem(FREE);
    OneItem(BOUND);
    assert Filter([gone], IsActive) == [];
  }

  /** Unless its rows are stranded, a payment can be completed against some order. */
  lemma FittingOrder(rows: seq<Row>, paidBy: Method) returns (order: Sale)
    requires Possible(rows, paidBy) && !Stranded(rows)
    ensures Completable(rows, BuildParts(order, paidBy))
  {
    PlainOrder();
    SplitOrder();
    var plain := paidBy != Cash
      || (SomeSent(rows) && exists i | 0 <= i < |rows| :: !rows[i].IsSent() && rows[i].payload.reason == WHOLE);
    order := if plain then Sale([FREE], 100, 100, 0) else Sale([FREE, BOUND], 200, 200, 0);
    var parts := BuildParts(order, paidBy);
    assert parts[0].reason == if plain then WHOLE else CASH_ALLOWED;
    assert plain || parts[1].reason == CASH_FORBIDDEN;
  }

  /** Some retries complete a payment's registration, whatever its order may become, unless its rows are stranded. */
  lemma {:induction false} StrandedIff(ledger: Ledger, paidBy: Method)
    requires WellKept(ledger) && Possible(ledger.rows, paidBy)
    ensures (exists rounds :: Complete(Follow(ledger, paidBy, rounds).rows)) <==> !Stranded(ledger.rows)
  {
    if Stranded(ledger.rows) {
      forall rounds
        ensures !Complete(Follow(ledger, paidBy, rounds).rows)
      {
        StrandedForGood(ledger, paidBy, rounds);
      }
    } else {
      var order := FittingOrder(ledger.rows, paidBy);
      var outcome := AllAccepted(2);
      PartsAreToldApart(order, paidBy);
      PartsPossible(order, paidBy);
      AcceptedRetryCompletes(ledger, BuildParts(order, paidBy), order.vat, outcome);
      FollowOne(ledger, paidBy, Round(order, outcome));
    }
  }

  lemma {:induction false} FollowOne(ledger: Ledger, paidBy: Method, a: Round)
    ensures Follow(ledger, paidBy, [a]) == RetryOnce(ledger, BuildParts(a.order, paidBy), a.order.vat, a.outcome).0
  {
    assert [a][1..] == [];
  }

  // ----- Cases in point -----

  /** A payment that found nothing to register can be completed exactly when the order has an active item again. */
  lemma EmptyOrderCompletesIff(sold: Sale, order: Sale, paidBy: Method, outcome: Outcome)
    requires Active(sold) == []
    ensures Completable(FirstIssue(BuildParts(sold, paidBy), sold.vat, outcome).rows, BuildParts(order, paidBy))
            <==> Active(order) != []
  {
    PartsAreToldApart(order, paidBy);
    assert FirstIssue(BuildParts(sold, paidBy), sold.vat, outcome).rows == [RowOf(Rejected(Absent))];
  }

  lemma IssueTwo(a: Part, b: Part, first: Reply, second: Reply)
    ensures var result := Attempt(a, 0, None, first);
            IssueAll([a, b], 0, None, [first, second]) == [result, Attempt(b, 0, MemoryAfter(result, None), second)]
  {
    var memory := MemoryAfter(Attempt(a, 0, None, first), None);
    assert [a, b][1..] == [b] && [first, second][1..] == [second];
    assert IssueAll([b], 0, memory, [second]) == [Attempt(b, 0, memory, second)] by {
      assert [b][1..] == [];
    }
  }

  lemma FirstRows(a: Part, b: Part)
    ensures FirstIssue([a, b], 0, Online(None, [Accepts(0, None, 0), Refuses(0, 0)])).rows
         == [RowOf(Attempt(a, 0, None, Accepts(0, None, 0))), RowOf(Rejected(b.reason))]
  {
    IssueTwo(a, b, Accepts(0, None, 0), Refuses(0, 0));
  }

  /** Two items are sold for cash, one of them cash-forbidden; the other's receipt is registered, and then the forbidden
      item is cancelled: no retry can complete the registration, though an active item is left. */
  lemma CancelledItemCannotComplete()
    ensures var sold := Sale([FREE, BOUND], 200, 200, 0);
            var order := Sale([FREE, BOUND.(cancelled := true)], 100, 100, 0);
            var ledger := FirstIssue(BuildParts(sold, Cash), 0, Online(None, [Accepts(0, None, 0), Refuses(0, 0)]));
            Active(order) != [] && !Completable(ledger.rows, BuildParts(order, Cash))
  {
    SplitOrder();
    CancelledOrders();
    var parts := BuildParts(Sale([FREE, BOUND], 200, 200, 0), Cash);
    assert parts == [parts[0], parts[1]];
    PartlySentRows(parts[0], parts[1], Part([FREE], 0, PayCash, WHOLE));
    assert FREE in Filter(Sale([FREE, BOUND.(cancelled := true)], 100, 100, 0).items, IsActive);
  }

  lemma PartlySentRows(a: Part, b: Part, c: Part)
    requires b.reason != c.reason
    ensures !Completable(FirstIssue([a, b], 0, Online(None, [Accepts(0, None, 0), Refuses(0, 0)])).rows, [c])
  {
    FirstRows(a, b);
    var rows := FirstIssue([a, b], 0, Online(None, [Accepts(0, None, 0), Refuses(0, 0)])).rows;
    assert rows[0].IsSent() && !rows[1].IsSent() && rows[1].payload.reason == b.reason;
  }

  /** A retry of nothing-sent rows in which only the second row finds its part. */
  lemma SecondRowOnly(b: Part, log: seq<Result>)
    requires b.reason != Absent
    ensures var ledger := Ledger([RowOf(Rejected(Absent)), RowOf(Rejected(b.reason))], log);
            RetryOnce(ledger, [b], 0, AllAccepted(1)).0.rows
            == [RowOf(Rejected(Absent)), RowOf(Attempt(b, 0, None, Accepts(0, None, 0)))]
  {
    var ledger := Ledger([RowOf(Rejected(Absent)), RowOf(Rejected(b.reason))], log);
    var result := Attempt(b, 0, None, Accepts(0, None, 0));
    UnsentRetry(ledger, [b], 0, AllAccepted(1));
    assert IssueAll([b], 0, None, AllAccepted(1).replies) == [result] by {
      assert [b][1..] == [];
    }
    AllPending(ledger.rows);
    assert PendingIds(ledger.rows) == [0, 1];
    SecondPicked(ledger.rows[0], ledger.rows[1], result);
  }

  lemma SecondPicked(first: Row, second: Row, result: Result)
    requires first.payload.reason != result.reason && second.payload.reason == result.reason
    ensures Persist([first, second], [0, 1], [result], 0) == [first, RowOf(result)]
  {
    var rows, pending: seq<nat> := [first, second], [0, 1];
    assert pending[1..] == [1];
    assert FirstMatch(rows, [1], result.reason) == 0;
    assert Pick(rows, pending, result.reason, 0) == Some(1);
    PersistStep(rows, pending, [result], 0, 1);
  }

  lemma {:induction false} FirstRowPending(first: Row, second: Row)
    requires !first.IsSent() && second.IsSent()
    ensures PendingIds([first, second]) == [0]
  {
    assert [first, second][..1] == [first] && [first][..0] == [];
    assert PendingIds([first]) == [0];
  }

  lemma {:induction false} NoReasonLeft(first: Row, second: Row)
    requires !first.IsSent() && second.IsSent() && first.payload.reason == Absent
    ensures RetryReasons([first, second]) == None && PendingIds([first, second]) == [0]
  {
    FirstRowPending(first, second);
    var one: seq<nat> := [0];
    assert one[..0] == [];
    assert PendingReasons([first, second], one) == [];
    assert [first, second][1].IsSent();
  }

  /** Both parts are refused, a retry cannot open the fiscal shift, and after the first item was cancelled the second is
      registered: the rows are stranded, and every further retry is blocked, whatever the order becomes. */
  lemma StrandingRun(later: Round)
    ensures var sold, order := Sale([FREE, BOUND], 200, 200, 0), Sale([FREE.(cancelled := true), BOUND], 100, 100, 0);
            var first := FirstIssue(BuildParts(sold, Cash), 0, Online(None, [Refuses(0, 0), Refuses(0, 0)]));
            var after := Follow(first, Cash, [Round(sold, Unreachable), Round(order, AllAccepted(1))]);
            && Stranded(after.rows)
            && RetryOnce(after, BuildParts(later.order, Cash), later.order.vat, later.outcome) == (after, Blocked)
  {
    var sold, order := Sale([FREE, BOUND], 200, 200, 0), Sale([FREE.(cancelled := true), BOUND], 100, 100, 0);
    SplitOrder();
    CancelledOrders();
    var parts, b := BuildParts(sold, Cash), BuildParts(order, Cash)[0];
    var first := FirstIssue(parts, 0, Online(None, [Refuses(0, 0), Refuses(0, 0)]));
    assert parts == [parts[0], parts[1]];
    StrandingSteps(parts[0], b);
    FollowTwo(first, Cash, Round(sold, Unreachable), Round(order, AllAccepted(1)));
    var after := RetryOnce(RetryOnce(first, parts, 0, Unreachable).0, [b], 0, AllAccepted(1)).0;
    BlockedWhenStranded(after, BuildParts(later.order, Cash), later.order.vat, later.outcome);
  }

  lemma BlockedWhenStranded(ledger: Ledger, now: seq<Part>, percent: nat, outcome: Outcome)
    requires |ledger.rows| == 2 && ledger.rows[0] == RowOf(Rejected(Absent)) && ledger.rows[1].IsSent()
    ensures Stranded(ledger.rows) && RetryOnce(ledger, now, percent, outcome) == (ledger, Blocked)
  {
    NoReasonLeft(ledger.rows[0], ledger.rows[1]);
    assert ledger.rows == [ledger.rows[0], ledger.rows[1]];
  }

  lemma StrandingSteps(a: Part, b: Part)
    requires WellSplit([a, b])
    ensures var first := FirstIssue([a, b], 0, Online(None, [Refuses(0, 0), Refuses(0, 0)]));
            var after := RetryOnce(RetryOnce(first, [a, b], 0, Unreachable).0, [b], 0, AllAccepted(1)).0;
            |after.rows| == 2 && after.rows[0] == RowOf(Rejected(Absent)) && after.rows[1].IsSent()
  {
    BothRefused(a, b);
    var first := FirstIssue([a, b], 0, Online(None, [Refuses(0, 0), Refuses(0, 0)]));
    SecondRowOnly(b, RetryOnce(first, [a, b], 0, Unreachable).0.log);
  }

  lemma BothRefused(a: Part, b: Part)
    requires WellSplit([a, b])
    ensures var first := FirstIssue([a, b], 0, Online(None, [Refuses(0, 0), Refuses(0, 0)]));
            RetryOnce(first, [a, b], 0, Unreachable).0.rows == [RowOf(Rejected(Absent)), RowOf(Rejected(b.reason))]
  {
    var first := FirstIssue([a, b], 0, Online(None, [Refuses(0, 0), Refuses(0, 0)]));
    IssueTwo(a, b, Refuses(0, 0), Refuses(0, 0));
    assert first.rows == [RowOf(Rejected(a.reason)), RowOf(Rejected(b.reason))];
    FirstIssueValid([a, b], 0, Online(None, [Refuses(0, 0), Refuses(0, 0)]));
    UnsentRetry(first, [a, b], 0, Unreachable);
    RetryUnsentFailure(first.rows, [a, b], 0);
  }

  lemma {:induction false} FollowTwo(ledger: Ledger, paidBy: Method, a: Round, b: Round)
    ensures var after := RetryOnce(ledger, BuildParts(a.order, paidBy), a.order.vat, a.outcome).0;
            Follow(ledger, paidBy, [a, b]) == RetryOnce(after, BuildParts(b.order, paidBy), b.order.vat, b.outcome).0
  {
    assert [a, b][1..] == [b];
    FollowOne(RetryOnce(ledger, BuildParts(a.order, paidBy), a.order.vat, a.outcome).0, paidBy, b);
  }
}
