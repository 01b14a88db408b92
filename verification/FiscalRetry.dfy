/** Fiscal receipt rows of one payment: first issue and retries (apps/billing/services/order_payment.py). */
module FiscalRetry {
  import opened Options
  import opened Arithmetic
  import opened FiscalReceipts
  import opened FiscalDevice

  datatype RowStatus = Created | Sent | Failed

  /** A Receipt row of kind FISCAL; the payload is the result it was last written from. */
  datatype Row = Row(status: RowStatus, payload: Result) {
    predicate IsSent() { status == Sent }
  }

  function RowOf(result: Result): Row {
    Row(if result.Registered? then Sent else Failed, result)
  }

  function RowsOf(results: seq<Result>): (rows: seq<Row>)
    ensures |rows| == |results| && forall k | 0 <= k < |results| :: rows[k] == RowOf(results[k])
  {
    seq(|results|, k requires 0 <= k < |results| => RowOf(results[k]))
  }

  predicate IsAck(result: Result) { result.Registered? }

  /** The rows, and every registration the device has acknowledged, in order. */
  datatype Ledger = Ledger(rows: seq<Row>, log: seq<Result>)

  datatype RetryReply = AlreadySent | Blocked | Retried(results: seq<Result>)

  function PendingIds(rows: seq<Row>): (ids: seq<nat>)
    ensures forall j | 0 <= j < |ids| :: ids[j] < |rows| && !rows[ids[j]].IsSent()
    ensures forall i | 0 <= i < |rows| && !rows[i].IsSent() :: i in ids
    ensures forall j, k | 0 <= j < k < |ids| :: ids[j] < ids[k]
  {
    if rows == [] then []
    else
      var last := |rows| - 1;
      var before := PendingIds(rows[..last]);
      if rows[last].IsSent() then before else before + [last]
  }

  predicate SomeSent(rows: seq<Row>) {
    exists i | 0 <= i < |rows| :: rows[i].IsSent()
  }

  /** Distinct non-absent reasons of the pending rows, in row order. */
  function PendingReasons(rows: seq<Row>, pending: seq<nat>): (reasons: seq<Reason>)
    requires forall j | 0 <= j < |pending| :: pending[j] < |rows|
    ensures Absent !in reasons
  {
    if pending == [] then []
    else
      var last := |pending| - 1;
      var before := PendingReasons(rows, pending[..last]);
      var reason := rows[pending[last]].payload.reason;
      if reason == Absent || reason in before then before else before + [reason]
  }

  /** _retry_split_reasons; Some([]) asks for every part, None is the blocked retry. */
  function RetryReasons(rows: seq<Row>): Option<seq<Reason>> {
    if !SomeSent(rows) then Some([])
    else
      var reasons := PendingReasons(rows, PendingIds(rows));
      if reasons != [] then Some(reasons) else None
  }

  /** Position in pending of the first row with this reason, |pending| if there is none. */
  function FirstMatch(rows: seq<Row>, pending: seq<nat>, reason: Reason): (j: nat)
    requires forall j | 0 <= j < |pending| :: pending[j] < |rows|
    ensures j <= |pending|
    ensures j < |pending| ==> rows[pending[j]].payload.reason == reason
    ensures forall i | 0 <= i < j :: rows[pending[i]].payload.reason != reason
  {
    if pending == [] || rows[pending[0]].payload.reason == reason then 0
    else 1 + FirstMatch(rows, pending[1..], reason)
  }

  /** _pick_existing_receipt: by reason, else by position, else the oldest, else none. */
  function Pick(rows: seq<Row>, pending: seq<nat>, reason: Reason, fallback: nat): (j: Option<nat>)
    requires forall j | 0 <= j < |pending| :: pending[j] < |rows|
    ensures j.Some? ==> j.value < |pending|
    ensures j.None? <==> pending == []
  {
    var found := FirstMatch(rows, pending, reason);
    if found < |pending| then Some(found)
    else if fallback < |pending| then Some(fallback)
    else if pending != [] then Some(0)
    else None
  }

  function Without<T>(s: seq<T>, j: nat): seq<T>
    requires j < |s|
  {
    s[..j] + s[j + 1..]
  }

  /** Rows that can be overwritten: distinct, existing, not sent. */
  ghost predicate Overwritable(rows: seq<Row>, pending: seq<nat>) {
    && (forall j | 0 <= j < |pending| :: pending[j] < |rows| && !rows[pending[j]].IsSent())
    && (forall j, k | 0 <= j < k < |pending| :: pending[j] < pending[k])
  }

  /** Writing results[k..] one by one into the rows still pending. */
  function Persist(rows: seq<Row>, pending: seq<nat>, results: seq<Result>, k: nat): seq<Row>
    requires k <= |results|
    requires forall j | 0 <= j < |pending| :: pending[j] < |rows|
    decreases |results| - k
  {
    if k == |results| then rows
    else
      match Pick(rows, pending, results[k].reason, k)
      case None => Persist(rows + [RowOf(results[k])], pending, results, k + 1)
      case Some(j) => Persist(rows[pending[j] := RowOf(results[k])], Without(pending, j), results, k + 1)
  }

  /** The first issue after a successful charge. */
  function FirstIssue(parts: seq<Part>, percent: nat, outcome: Outcome): Ledger {
    var results := ServiceResults(parts, percent, [], outcome);
    Ledger(RowsOf(results), Filter(results, IsAck))
  }

  function RetryOnce(ledger: Ledger, parts: seq<Part>, percent: nat, outcome: Outcome): (Ledger, RetryReply) {
    var pending := PendingIds(ledger.rows);
    if SomeSent(ledger.rows) && pending == [] then (ledger, AlreadySent)
    else
      match RetryReasons(ledger.rows)
      case None => (ledger, Blocked)
      case Some(reasons) =>
        var results := ServiceResults(parts, percent, reasons, outcome);
        (Ledger(Persist(ledger.rows, pending, results, 0), ledger.log + Filter(results, IsAck)), Retried(results))
  }

  /** The receipts of one payment, changed in place. */
  class PaymentReceipts {
    const parts: seq<Part>
    const percent: nat
    var rows: seq<Row>
    var log: seq<Result>

    ghost function State(): Ledger
      reads this
    {
      Ledger(rows, log)
    }

    constructor (parts: seq<Part>, percent: nat)
      ensures this.parts == parts && this.percent == percent && State() == Ledger([], [])
    {
      this.parts, this.percent := parts, percent;
      rows, log := [], [];
    }

    /** The receipts of a payment as stored. */
    constructor Load(parts: seq<Part>, percent: nat, stored: Ledger)
      ensures this.parts == parts && this.percent == percent && State() == stored
    {
      this.parts, this.percent := parts, percent;
      rows, log := stored.rows, stored.log;
    }

    method Send(reasons: seq<Reason>, outcome: Outcome) returns (results: seq<Result>)
      modifies this`log
      ensures results == ServiceResults(parts, percent, reasons, outcome)
      ensures log == old(log) + Filter(results, IsAck)
    {
      var chosen := if reasons == [] then parts else Filter(parts, WantedBy(reasons));
      if outcome.Unreachable? || chosen == [] {
        results := if reasons == [] then [Rejected(Absent)] else Failures(reasons);
      } else {
        results := IssueReceipts(chosen, percent, outcome.lastOperation, outcome.replies);
      }
      log := log + Filter(results, IsAck);
    }

    /** The loop of _complete_successful_payment that stores a row for each result. */
    method CreateRows(results: seq<Result>)
      modifies this`rows
      ensures rows == old(rows) + RowsOf(results)
    {
      for k := 0 to |results|
        invariant rows == old(rows) + RowsOf(results)[..k]
      {
        rows := rows + [RowOf(results[k])];
      }
      assert RowsOf(results)[..|results|] == RowsOf(results);
    }

    /** The fiscal side of _complete_successful_payment. */
    method Register(outcome: Outcome)
      requires State() == Ledger([], [])
      modifies this
      ensures State() == FirstIssue(parts, percent, outcome)
    {
      var results := Send([], outcome);
      CreateRows(results);
    }

    method PickExisting(pending: seq<nat>, reason: Reason, fallback: nat) returns (j: Option<nat>)
      requires forall j | 0 <= j < |pending| :: pending[j] < |rows|
      ensures j == Pick(rows, pending, reason, fallback)
    {
      for i := 0 to |pending|
        invariant FirstMatch(rows, pending, reason) >= i
      {
        if rows[pending[i]].payload.reason == reason {
          return Some(i);
        }
      }
      if fallback < |pending| {
        return Some(fallback);
      }
      return if pending != [] then Some(0) else None;
    }

    /** The loop of the retry that writes each result into a pending row, or into a new one. */
    method StoreResults(pendingIds: seq<nat>, results: seq<Result>)
      requires forall j | 0 <= j < |pendingIds| :: pendingIds[j] < |rows|
      modifies this`rows
      ensures rows == Persist(old(rows), pendingIds, results, 0)
    {
      var pending: seq<nat> := pendingIds;
      for k := 0 to |results|
        invariant forall j | 0 <= j < |pending| :: pending[j] < |rows|
        invariant Persist(rows, pending, results, k) == Persist(old(rows), pendingIds, results, 0)
      {
        var picked := PickExisting(pending, results[k].reason, k);
        match picked {
          case None =>
            rows := rows + [RowOf(results[k])];
          case Some(j) =>
            rows := rows[pending[j] := RowOf(results[k])];
            pending := Without(pending, j);
        }
      }
    }

    method Retry(outcome: Outcome) returns (reply: RetryReply)
      modifies this
      ensures (State(), reply) == RetryOnce(old(State()), parts, percent, outcome)
    {
      var pending: seq<nat> := PendingIds(rows);
      if SomeSent(rows) && pending == [] {
        return AlreadySent;
      }
      var reasons := RetryReasons(rows);
      if reasons.None? {
        return Blocked;
      }
      var results := Send(reasons.value, outcome);
      StoreResults(pending, results);
      reply := Retried(results);
    }
  }

  // ----- What a retry does to the rows -----

  lemma {:induction false} PersistKeepsRow(rows: seq<Row>, pending: seq<nat>, results: seq<Result>, k: nat, i: nat)
    requires k <= |results| && i < |rows| && i !in pending
    requires forall j | 0 <= j < |pending| :: pending[j] < |rows|
    ensures i < |Persist(rows, pending, results, k)| && Persist(rows, pending, results, k)[i] == rows[i]
    decreases |results| - k
  {
    if k < |results| {
      match Pick(rows, pending, results[k].reason, k)
      case None => PersistKeepsRow(rows + [RowOf(results[k])], pending, results, k + 1, i);
      case Some(j) => PersistKeepsRow(rows[pending[j] := RowOf(results[k])], Without(pending, j), results, k + 1, i);
    }
  }

  lemma {:induction false} PersistGrows(rows: seq<Row>, pending: seq<nat>, results: seq<Result>, k: nat)
    requires k <= |results| && forall j | 0 <= j < |pending| :: pending[j] < |rows|
    ensures |Persist(rows, pending, results, k)| >= |rows|
    decreases |results| - k
  {
    if k < |results| {
      match Pick(rows, pending, results[k].reason, k)
      case None => PersistGrows(rows + [RowOf(results[k])], pending, results, k + 1);
      case Some(j) => PersistGrows(rows[pending[j] := RowOf(results[k])], Without(pending, j), results, k + 1);
    }
  }

  /** Rows that are not pending are never written, and the table never shrinks. */
  lemma {:induction false} PersistKeepsOthers(rows: seq<Row>, pending: seq<nat>, results: seq<Result>)
    requires forall j | 0 <= j < |pending| :: pending[j] < |rows|
    ensures |Persist(rows, pending, results, 0)| >= |rows|
    ensures forall i | 0 <= i < |rows| && i !in pending :: Persist(rows, pending, results, 0)[i] == rows[i]
  {
    PersistGrows(rows, pending, results, 0);
    forall i | 0 <= i < |rows| && i !in pending
      ensures Persist(rows, pending, results, 0)[i] == rows[i]
    {
      PersistKeepsRow(rows, pending, results, 0, i);
    }
  }

  function SentValue(f: Result -> int): Row -> int {
    (row: Row) => if row.IsSent() then f(row.payload) else 0
  }

  /** Whatever is counted over sent rows grows by exactly what the new acknowledgements add. */
  lemma {:induction false} PersistAddsUp(
      rows: seq<Row>, pending: seq<nat>, results: seq<Result>, k: nat, f: Result -> int)
    requires k <= |results| && Overwritable(rows, pending)
    ensures SumBy(Persist(rows, pending, results, k), SentValue(f))
            == SumBy(rows, SentValue(f)) + SumBy(Filter(results[k..], IsAck), f)
    decreases |results| - k
  {
    if k < |results| {
      assert results[k..] == [results[k]] + results[k + 1..];
      var row := RowOf(results[k]);
      match Pick(rows, pending, results[k].reason, k)
      case None =>
        SumBySnoc(rows, row, SentValue(f));
        PersistAddsUp(rows + [row], pending, results, k + 1, f);
      case Some(j) =>
        SumByUpdate(rows, pending[j], row, SentValue(f));
        PersistAddsUp(rows[pending[j] := row], Without(pending, j), results, k + 1, f);
    }
  }

  /** The pending rows carry the reasons of results[k..], in order. */
  ghost predicate Aligned(rows: seq<Row>, pending: seq<nat>, results: seq<Result>, k: nat)
    requires forall j | 0 <= j < |pending| :: pending[j] < |rows|
  {
    && k + |pending| == |results|
    && forall j | 0 <= j < |pending| :: rows[pending[j]].payload.reason == results[k + j].reason
  }

  lemma PersistFirst(rows: seq<Row>, pending: seq<nat>, results: seq<Result>, k: nat)
    requires k < |results| && pending != []
    requires forall j | 0 <= j < |pending| :: pending[j] < |rows|
    requires Pick(rows, pending, results[k].reason, k) == Some(0)
    ensures Persist(rows, pending, results, k)
            == Persist(rows[pending[0] := RowOf(results[k])], pending[1..], results, k + 1)
  {
    assert Without(pending, 0) == pending[1..];
  }

  /** The plain way to write: result k + j into row pending[j]. */
  function Overwrite(rows: seq<Row>, pending: seq<nat>, results: seq<Result>, k: nat): (after: seq<Row>)
    requires k + |pending| == |results|
    requires forall j | 0 <= j < |pending| :: pending[j] < |rows|
    ensures |after| == |rows|
    decreases |pending|
  {
    if pending == [] then rows
    else Overwrite(rows[pending[0] := RowOf(results[k])], pending[1..], results, k + 1)
  }

  lemma {:induction false} OverwriteAt(rows: seq<Row>, pending: seq<nat>, results: seq<Result>, k: nat)
    requires k + |pending| == |results| && Overwritable(rows, pending)
    ensures forall j | 0 <= j < |pending| :: Overwrite(rows, pending, results, k)[pending[j]] == RowOf(results[k + j])
    ensures forall i | 0 <= i < |rows| && i !in pending :: Overwrite(rows, pending, results, k)[i] == rows[i]
    decreases |pending|
  {
    if pending != [] {
      var rows', rest := rows[pending[0] := RowOf(results[k])], pending[1..];
      OverwriteAt(rows', rest, results, k + 1);
      forall j | 0 <= j < |pending|
        ensures Overwrite(rows', rest, results, k + 1)[pending[j]] == RowOf(results[k + j])
      {
        if j > 0 {
          assert pending[j] == rest[j - 1];
        }
      }
    }
  }

  /** If the pending rows carry the reasons of the results in order, each result lands in its own row. */
  lemma {:induction false} PersistInOrder(rows: seq<Row>, pending: seq<nat>, results: seq<Result>, k: nat)
    requires Overwritable(rows, pending) && Aligned(rows, pending, results, k)
    ensures Persist(rows, pending, results, k) == Overwrite(rows, pending, results, k)
    decreases |pending|
  {
    if pending != [] {
      AlignedStep(rows, pending, results, k);
      PersistFirst(rows, pending, results, k);
      PersistInOrder(rows[pending[0] := RowOf(results[k])], pending[1..], results, k + 1);
    }
  }

  lemma AlignedStep(rows: seq<Row>, pending: seq<nat>, results: seq<Result>, k: nat)
    requires Overwritable(rows, pending) && Aligned(rows, pending, results, k) && pending != []
    ensures Pick(rows, pending, results[k].reason, k) == Some(0)
    ensures var rows', rest := rows[pending[0] := RowOf(results[k])], pending[1..];
            Overwritable(rows', rest) && Aligned(rows', rest, results, k + 1)
  {
  }

  lemma {:induction false} PersistAppends(rows: seq<Row>, results: seq<Result>, k: nat)
    requires k <= |results|
    ensures Persist(rows, [], results, k) == rows + RowsOf(results)[k..]
    decreases |results| - k
  {
    if k < |results| {
      PersistAppends(rows + [RowOf(results[k])], results, k + 1);
      assert RowsOf(results)[k..] == [RowOf(results[k])] + RowsOf(results)[k + 1..];
    }
  }

  // ----- The invariant -----

  function Price(result: Result): int {
    if result.Registered? then result.receipt.cash + result.receipt.card else 0
  }

  /** The registered receipt of a part carries the part's lines, its whole price, in the right column. */
  ghost predicate Carries(result: Result, part: Part, percent: nat) {
    result.Registered? ==>
      && result.reason == part.reason
      && result.receipt.lines == PartLines(part, percent)
      && result.receipt.cash + result.receipt.card == Prices(PartLines(part, percent))
      && (if part.payType == PayCash then result.receipt.card == 0 else result.receipt.cash == 0)
  }

  /** Row i belongs to part i, except that row 0 may have lost its reason while nothing is registered yet. */
  ghost predicate RowsMatchParts(rows: seq<Row>, parts: seq<Part>, percent: nat) {
    && |rows| == |parts|
    && forall i | 0 <= i < |rows| ::
         && Carries(rows[i].payload, parts[i], percent)
         && (rows[i].payload.reason == parts[i].reason
             || (i == 0 && rows[i].payload.reason == Absent && !SomeSent(rows)))
  }

  ghost predicate Tabled(rows: seq<Row>, parts: seq<Part>, percent: nat) {
    && (forall i | 0 <= i < |rows| :: rows[i] == RowOf(rows[i].payload))
    && (|| rows == []
        || rows == [RowOf(Rejected(Absent))]
        || RowsMatchParts(rows, parts, percent))
  }

  ghost predicate Balanced(ledger: Ledger) {
    forall f: Result -> int :: SumBy(ledger.log, f) == SumBy(ledger.rows, SentValue(f))
  }

  ghost predicate Valid(ledger: Ledger, parts: seq<Part>, percent: nat) {
    WellSplit(parts) && Tabled(ledger.rows, parts, percent) && Balanced(ledger)
  }

  lemma {:induction false} IssueAllCarries(parts: seq<Part>, percent: nat, last: Option<int>, replies: seq<Reply>)
    ensures forall k | 0 <= k < |parts| :: Carries(IssueAll(parts, percent, last, replies)[k], parts[k], percent)
  {
    if parts != [] {
      var result := Attempt(parts[0], percent, last, HeadReply(replies));
      IssueAllCarries(parts[1..], percent, MemoryAfter(result, last), Rest(replies));
      forall k | 0 <= k < |parts|
        ensures Carries(IssueAll(parts, percent, last, replies)[k], parts[k], percent)
      {
        if k > 0 {
          assert parts[k] == parts[1..][k - 1];
        }
      }
    }
  }

  /** Fresh rows of a full issue match the parts. */
  lemma {:induction false} FullIssueMatches(parts: seq<Part>, percent: nat, outcome: Outcome)
    requires outcome.Online?
    ensures RowsMatchParts(RowsOf(IssueAll(parts, percent, outcome.lastOperation, outcome.replies)), parts, percent)
  {
    IssueAllCarries(parts, percent, outcome.lastOperation, outcome.replies);
  }

  lemma {:induction false} FreshRowsBalance(results: seq<Result>, f: Result -> int)
    ensures SumBy(RowsOf(results), SentValue(f)) == SumBy(Filter(results, IsAck), f)
  {
    PersistAppends([], results, 0);
    PersistAddsUp([], [], results, 0, f);
    assert results[0..] == results && [] + RowsOf(results)[0..] == RowsOf(results);
  }

  lemma FirstIssueValid(parts: seq<Part>, percent: nat, outcome: Outcome)
    requires WellSplit(parts)
    ensures Valid(FirstIssue(parts, percent, outcome), parts, percent)
  {
    var ledger := FirstIssue(parts, percent, outcome);
    var results := ServiceResults(parts, percent, [], outcome);
    forall f: Result -> int
      ensures SumBy(ledger.log, f) == SumBy(ledger.rows, SentValue(f))
    {
      FreshRowsBalance(results, f);
    }
    if outcome.Online? {
      FullIssueMatches(parts, percent, outcome);
    }
  }

  /** Nothing registered yet: the first result always goes to row 0. */
  lemma {:induction false} FirstResultTakesRowZero(rows: seq<Row>, parts: seq<Part>, percent: nat, first: Result)
    requires WellSplit(parts) && Tabled(rows, parts, percent) && !SomeSent(rows) && rows != []
    requires first.reason == Absent || (parts != [] && first.reason == parts[0].reason)
    ensures Pick(rows, PendingIds(rows), first.reason, 0) == Some(0)
  {
  }

  /** Nothing registered yet: a retry that reaches the device rebuilds the table from the results, in part order. */
  lemma {:induction false} RetryUnsentIssue(rows: seq<Row>, parts: seq<Part>, percent: nat, results: seq<Result>)
    requires WellSplit(parts) && Tabled(rows, parts, percent) && !SomeSent(rows)
    requires results != [] && |results| == |parts| && forall k | 0 <= k < |parts| ::
        results[k].reason == parts[k].reason
    ensures Persist(rows, PendingIds(rows), results, 0) == RowsOf(results)
  {
    if rows == [] {
      PersistAppends(rows, results, 0);
    } else {
      FirstResultTakesRowZero(rows, parts, percent, results[0]);
      AllPending(rows);
      assert forall i | 0 <= i < |rows| :: !rows[i].IsSent();
      RefillRows(rows, PendingIds(rows), results);
    }
  }

  /** Nothing registered yet: a retry that does not reach the device only touches row 0. */
  lemma {:induction false} RetryUnsentFailure(rows: seq<Row>, parts: seq<Part>, percent: nat)
    requires WellSplit(parts) && Tabled(rows, parts, percent) && !SomeSent(rows)
    ensures Persist(rows, PendingIds(rows), [Rejected(Absent)], 0) == RowZeroLost(rows)
  {
    var results := [Rejected(Absent)];
    if rows == [] {
      PersistAppends(rows, results, 0);
      assert RowsOf(results)[0..] == [RowOf(results[0])];
    } else {
      FirstResultTakesRowZero(rows, parts, percent, results[0]);
      AllPending(rows);
      var pending := PendingIds(rows);
      assert pending[0] == 0;
      PersistFirst(rows, pending, results, 0);
    }
  }

  function RowZeroLost(rows: seq<Row>): seq<Row> {
    if rows == [] then [RowOf(Rejected(Absent))] else rows[0 := RowOf(Rejected(Absent))]
  }

  lemma RowZeroLostTabled(rows: seq<Row>, parts: seq<Part>, percent: nat)
    requires Tabled(rows, parts, percent) && !SomeSent(rows)
    ensures Tabled(RowZeroLost(rows), parts, percent) && !SomeSent(RowZeroLost(rows))
  {
  }

  lemma {:induction false} AllPending(rows: seq<Row>)
    requires !SomeSent(rows)
    ensures |PendingIds(rows)| == |rows|
    ensures forall i | 0 <= i < |rows| :: PendingIds(rows)[i] == i
  {
    if rows != [] {
      var init := rows[..|rows| - 1];
      assert forall i | 0 <= i < |init| :: init[i] == rows[i];
      AllPending(init);
    }
  }

  /** A full refill: either one row grows into the whole table, or every row gets its own result. */
  lemma {:induction false} RefillRows(rows: seq<Row>, pending: seq<nat>, results: seq<Result>)
    requires 0 < |rows| == |pending| && (forall i | 0 <= i < |rows| :: pending[i] == i && !rows[i].IsSent())
    requires results != [] && Pick(rows, pending, results[0].reason, 0) == Some(0)
    requires |rows| == 1 || |rows| == |results|
    requires forall i | 1 <= i < |rows| :: rows[i].payload.reason == results[i].reason
    ensures Persist(rows, pending, results, 0) == RowsOf(results)
  {
    assert pending[0] == 0;
    PersistFirst(rows, pending, results, 0);
    if |rows| == 1 {
      assert pending[1..] == [] && rows[0 := RowOf(results[0])] == [RowOf(results[0])];
      GrowsToAll(results);
    } else {
      RefillAfterFirst(rows, pending, results);
    }
  }

  lemma {:induction false} RefillAfterFirst(rows: seq<Row>, pending: seq<nat>, results: seq<Result>)
    requires 1 < |rows| == |pending| == |results|
    requires forall i | 0 <= i < |rows| :: pending[i] == i && !rows[i].IsSent()
    requires forall i | 1 <= i < |rows| :: rows[i].payload.reason == results[i].reason
    ensures Persist(rows[0 := RowOf(results[0])], pending[1..], results, 1) == RowsOf(results)
  {
    assert forall j | 0 <= j < |pending[1..]| :: pending[1..][j] == pending[j + 1] == j + 1;
    RefillRest(rows[0 := RowOf(results[0])], pending[1..], results);
  }

  lemma {:induction false} GrowsToAll(results: seq<Result>)
    requires results != []
    ensures Persist([RowOf(results[0])], [], results, 1) == RowsOf(results)
  {
    PersistAppends([RowOf(results[0])], results, 1);
    assert RowsOf(results) == [RowOf(results[0])] + RowsOf(results)[1..];
  }

  lemma {:induction false} RefillRest(rows: seq<Row>, rest: seq<nat>, results: seq<Result>)
    requires 1 < |rows| == |results| && |rest| == |rows| - 1 && rows[0] == RowOf(results[0])
    requires forall j | 0 <= j < |rest| :: rest[j] == j + 1
    requires forall i | 1 <= i < |rows| :: !rows[i].IsSent() && rows[i].payload.reason == results[i].reason
    ensures Persist(rows, rest, results, 1) == RowsOf(results)
  {
    RefillReady(rows, rest, results);
    PersistInOrder(rows, rest, results, 1);
    OverwriteAt(rows, rest, results, 1);
    var after := Overwrite(rows, rest, results, 1);
    forall i | 0 <= i < |rows|
      ensures after[i] == RowOf(results[i])
    {
      if i > 0 {
        assert rest[i - 1] == i && after[rest[i - 1]] == RowOf(results[1 + (i - 1)]);
      }
    }
    assert after == RowsOf(results);
  }

  lemma RefillReady(rows: seq<Row>, rest: seq<nat>, results: seq<Result>)
    requires 1 < |rows| == |results| && |rest| == |rows| - 1
    requires forall j | 0 <= j < |rest| :: rest[j] == j + 1
    requires forall i | 1 <= i < |rows| :: !rows[i].IsSent() && rows[i].payload.reason == results[i].reason
    ensures Overwritable(rows, rest) && Aligned(rows, rest, results, 1)
  {
  }

  // ----- Retrying after a partial success -----

  function Sub<T>(s: seq<T>, ids: seq<nat>): (r: seq<T>)
    requires forall j | 0 <= j < |ids| :: ids[j] < |s|
    ensures |r| == |ids| && forall j | 0 <= j < |ids| :: r[j] == s[ids[j]]
  {
    seq(|ids|, j requires 0 <= j < |ids| => s[ids[j]])
  }

  /** Filtering the parts by "its row is not sent" is selecting them at the pending positions. */
  lemma {:induction false} FilterPending(parts: seq<Part>, rows: seq<Row>, p: Part -> bool)
    requires |parts| == |rows| && forall i | 0 <= i < |rows| :: p(parts[i]) <==> !rows[i].IsSent()
    ensures Filter(parts, p) == Sub(parts, PendingIds(rows))
  {
    if rows != [] {
      var n := |rows| - 1;
      var parts', rows' := parts[..n], rows[..n];
      FilterPending(parts', rows', p);
      FilterSnoc(parts, p, n);
      SubPrefix(parts, PendingIds(rows'), n);
    }
  }

  lemma {:induction false} FilterSnoc<T>(s: seq<T>, p: T -> bool, n: nat)
    requires |s| == n + 1
    ensures Filter(s, p) == if p(s[n]) then Filter(s[..n], p) + [s[n]] else Filter(s[..n], p)
  {
    var init, last := s[..n], s[n];
    FilterAppend(init, last, p);
    assert init + [last] == s;
  }

  lemma {:induction false} FilterAppend<T>(init: seq<T>, last: T, p: T -> bool)
    ensures Filter(init + [last], p) == if p(last) then Filter(init, p) + [last] else Filter(init, p)
  {
    FilterConcat(init, [last], p);
    FilterOne(last, p);
    assert Filter(init, p) + [] == Filter(init, p);
  }

  lemma FilterOne<T>(x: T, p: T -> bool)
    ensures Filter([x], p) == if p(x) then [x] else []
  {
  }

  lemma SubPrefix<T>(s: seq<T>, ids: seq<nat>, n: nat)
    requires n < |s| && forall j | 0 <= j < |ids| :: ids[j] < n
    ensures Sub(s[..n], ids) == Sub(s, ids)
    ensures Sub(s, ids + [n]) == Sub(s, ids) + [s[n]]
  {
  }

  /** Rows that carry their parts' reasons ask for exactly those reasons, in order. */
  lemma {:induction false} PendingReasonsInOrder(rows: seq<Row>, pending: seq<nat>, parts: seq<Part>)
    requires WellSplit(parts) && Overwritable(rows, pending) && |rows| == |parts|
    requires forall j | 0 <= j < |pending| :: rows[pending[j]].payload.reason == parts[pending[j]].reason
    ensures |PendingReasons(rows, pending)| == |pending|
    ensures forall j | 0 <= j < |pending| :: PendingReasons(rows, pending)[j] == parts[pending[j]].reason
  {
    if pending != [] {
      var last := |pending| - 1;
      PendingReasonsInOrder(rows, pending[..last], parts);
      LastReasonIsNew(PendingReasons(rows, pending[..last]), pending, parts);
    }
  }

  lemma LastReasonIsNew(before: seq<Reason>, pending: seq<nat>, parts: seq<Part>)
    requires WellSplit(parts) && pending != [] && |before| == |pending| - 1
    requires forall j | 0 <= j < |pending| :: pending[j] < |parts|
    requires forall j, k | 0 <= j < k < |pending| :: pending[j] < pending[k]
    requires forall j | 0 <= j < |before| :: before[j] == parts[pending[..|pending| - 1][j]].reason
    ensures parts[pending[|pending| - 1]].reason !in before && parts[pending[|pending| - 1]].reason != Absent
  {
  }

  /** Some parts are registered: the retry asks for exactly the parts whose rows are pending. */
  lemma {:induction false} RetryChoosesPending(rows: seq<Row>, parts: seq<Part>)
    requires WellSplit(parts) && |rows| == |parts|
    requires forall i | 0 <= i < |rows| :: rows[i].payload.reason == parts[i].reason
    ensures var pending := PendingIds(rows);
            var reasons := PendingReasons(rows, pending);
            && |reasons| == |pending|
            && (forall j | 0 <= j < |pending| :: reasons[j] == parts[pending[j]].reason)
            && Filter(parts, WantedBy(reasons)) == Sub(parts, pending)
  {
    var pending := PendingIds(rows);
    PendingReasonsInOrder(rows, pending, parts);
    var reasons := PendingReasons(rows, pending);
    forall i | 0 <= i < |rows|
      ensures WantedBy(reasons)(parts[i]) <==> !rows[i].IsSent()
    {
      if parts[i].reason in reasons {
        var j :| 0 <= j < |reasons| && reasons[j] == parts[i].reason;
        assert pending[j] == i;
      }
      if !rows[i].IsSent() {
        var j :| 0 <= j < |pending| && pending[j] == i;
        assert reasons[j] == parts[i].reason;
      }
    }
    FilterPending(parts, rows, WantedBy(reasons));
  }

  /** The results of a retry after a partial success: one for each pending row, in order. */
  function PartialResults(rows: seq<Row>, parts: seq<Part>, percent: nat, outcome: Outcome): seq<Result> {
    ServiceResults(parts, percent, PendingReasons(rows, PendingIds(rows)), outcome)
  }

  lemma {:induction false} PartialResultsFit(rows: seq<Row>, parts: seq<Part>, percent: nat, outcome: Outcome)
    requires WellSplit(parts) && |rows| == |parts| && PendingIds(rows) != []
    requires forall i | 0 <= i < |rows| :: rows[i].payload.reason == parts[i].reason
    ensures var pending, results := PendingIds(rows), PartialResults(rows, parts, percent, outcome);
            && PendingReasons(rows, pending) != []
            && |results| == |pending|
            && (forall j | 0 <= j < |pending| :: results[j].reason == parts[pending[j]].reason)
            && results == if outcome.Unreachable? then Failures(PendingReasons(rows, pending))
                          else IssueAll(Sub(parts, pending), percent, outcome.lastOperation, outcome.replies)
  {
    RetryChoosesPending(rows, parts);
  }

  lemma {:induction false} PartialResultsCarry(rows: seq<Row>, parts: seq<Part>, percent: nat, outcome: Outcome)
    requires WellSplit(parts) && |rows| == |parts| && PendingIds(rows) != []
    requires forall i | 0 <= i < |rows| :: rows[i].payload.reason == parts[i].reason
    ensures var pending, results := PendingIds(rows), PartialResults(rows, parts, percent, outcome);
            && |results| == |pending|
            && forall j | 0 <= j < |pending| :: Carries(results[j], parts[pending[j]], percent)
  {
    PartialResultsFit(rows, parts, percent, outcome);
    if outcome.Online? {
      IssueAllCarries(Sub(parts, PendingIds(rows)), percent, outcome.lastOperation, outcome.replies);
    }
  }

  /** ... and each answer lands in its own part's row; every other row stays as it was. */
  lemma {:induction false} RetryPartialRows(rows: seq<Row>, parts: seq<Part>, percent: nat, outcome: Outcome)
    requires WellSplit(parts) && |rows| == |parts| && PendingIds(rows) != []
    requires forall i | 0 <= i < |rows| :: rows[i].payload.reason == parts[i].reason
    ensures var pending, results := PendingIds(rows), PartialResults(rows, parts, percent, outcome);
            var after := Persist(rows, pending, results, 0);
            && |after| == |rows| && |results| == |pending|
            && (forall j | 0 <= j < |pending| :: after[pending[j]] == RowOf(results[j]))
            && (forall i | 0 <= i < |rows| && i !in pending :: after[i] == rows[i])
  {
    PartialReasons(rows, parts, percent, outcome);
    StoredInOrder(rows, PendingIds(rows), PartialResults(rows, parts, percent, outcome));
  }

  lemma {:induction false} PartialReasons(rows: seq<Row>, parts: seq<Part>, percent: nat, outcome: Outcome)
    requires WellSplit(parts) && |rows| == |parts| && PendingIds(rows) != []
    requires forall i | 0 <= i < |rows| :: rows[i].payload.reason == parts[i].reason
    ensures var pending, results := PendingIds(rows), PartialResults(rows, parts, percent, outcome);
            && |results| == |pending| && Overwritable(rows, pending)
            && forall j | 0 <= j < |pending| :: rows[pending[j]].payload.reason == results[j].reason
  {
    PartialResultsFit(rows, parts, percent, outcome);
  }

  /** Results that carry the reasons of the pending rows, in order, are stored there. */
  lemma {:induction false} StoredInOrder(rows: seq<Row>, pending: seq<nat>, results: seq<Result>)
    requires Overwritable(rows, pending) && |results| == |pending|
    requires forall j | 0 <= j < |pending| :: rows[pending[j]].payload.reason == results[j].reason
    ensures var after := Persist(rows, pending, results, 0);
            && |after| == |rows|
            && (forall j | 0 <= j < |pending| :: after[pending[j]] == RowOf(results[j]))
            && (forall i | 0 <= i < |rows| && i !in pending :: after[i] == rows[i])
  {
    PersistInOrder(rows, pending, results, 0);
    OverwriteAt(rows, pending, results, 0);
    assert forall j | 0 <= j < |pending| :: results[0 + j] == results[j];
  }

  lemma {:induction false} RetryPartialTabled(rows: seq<Row>, parts: seq<Part>, percent: nat, outcome: Outcome)
    requires WellSplit(parts) && Tabled(rows, parts, percent) && SomeSent(rows) && PendingIds(rows) != []
    ensures Tabled(Persist(rows, PendingIds(rows), PartialResults(rows, parts, percent, outcome), 0), parts, percent)
  {
    assert RowsMatchParts(rows, parts, percent);
    RetryPartialRows(rows, parts, percent, outcome);
    PartialResultsFit(rows, parts, percent, outcome);
    PartialResultsCarry(rows, parts, percent, outcome);
    var pending, results := PendingIds(rows), PartialResults(rows, parts, percent, outcome);
    var after := Persist(rows, pending, results, 0);
    forall i | 0 <= i < |after|
      ensures RowFits(after[i], parts[i], percent)
    {
      if i in pending {
        var j :| 0 <= j < |pending| && pending[j] == i;
        assert after[pending[j]] == RowOf(results[j]);
      } else {
        assert RowFits(rows[i], parts[i], percent);
      }
    }
    FittingRowsTabled(after, parts, percent);
  }

  ghost predicate RowFits(row: Row, part: Part, percent: nat) {
    row == RowOf(row.payload) && row.payload.reason == part.reason && Carries(row.payload, part, percent)
  }

  lemma FittingRowsTabled(rows: seq<Row>, parts: seq<Part>, percent: nat)
    requires |rows| == |parts| && forall i | 0 <= i < |rows| :: RowFits(rows[i], parts[i], percent)
    ensures Tabled(rows, parts, percent)
  {
  }

  // ----- Every run -----

  /** Sent rows are never overwritten or downgraded, whatever the parts have become since. */
  lemma RetryKeepsSent(ledger: Ledger, parts: seq<Part>, percent: nat, outcome: Outcome)
    ensures var after := RetryOnce(ledger, parts, percent, outcome).0;
            && |after.rows| >= |ledger.rows|
            && (forall i | 0 <= i < |ledger.rows| && ledger.rows[i].IsSent() :: after.rows[i] == ledger.rows[i])
  {
    var (after, reply) := RetryOnce(ledger, parts, percent, outcome);
    if reply.Retried? {
      PersistKeepsOthers(ledger.rows, PendingIds(ledger.rows), reply.results);
    }
  }

  lemma RetryBalanced(ledger: Ledger, parts: seq<Part>, percent: nat, outcome: Outcome)
    requires Balanced(ledger)
    ensures Balanced(RetryOnce(ledger, parts, percent, outcome).0)
  {
    var (after, reply) := RetryOnce(ledger, parts, percent, outcome);
    if reply.Retried? {
      forall f: Result -> int
        ensures SumBy(after.log, f) == SumBy(after.rows, SentValue(f))
      {
        PersistAddsUp(ledger.rows, PendingIds(ledger.rows), reply.results, 0, f);
        assert reply.results[0..] == reply.results;
        SumByConcat(ledger.log, Filter(reply.results, IsAck), f);
      }
    }
  }

  lemma RetryTabled(ledger: Ledger, parts: seq<Part>, percent: nat, outcome: Outcome)
    requires WellSplit(parts) && Tabled(ledger.rows, parts, percent)
    ensures Tabled(RetryOnce(ledger, parts, percent, outcome).0.rows, parts, percent)
    ensures !RetryOnce(ledger, parts, percent, outcome).1.Blocked?
  {
    if !SomeSent(ledger.rows) {
      RetryUnsentTabled(ledger.rows, parts, percent, outcome);
    } else if PendingIds(ledger.rows) != [] {
      TabledReasons(ledger.rows, parts, percent, outcome);
      RetryPartialTabled(ledger.rows, parts, percent, outcome);
    }
  }

  /** After a partial success the pending rows know their reasons. */
  lemma {:induction false} TabledReasons(rows: seq<Row>, parts: seq<Part>, percent: nat, outcome: Outcome)
    requires WellSplit(parts) && Tabled(rows, parts, percent) && SomeSent(rows) && PendingIds(rows) != []
    ensures RetryReasons(rows) == Some(PendingReasons(rows, PendingIds(rows)))
  {
    assert RowsMatchParts(rows, parts, percent);
    PartialResultsFit(rows, parts, percent, outcome);
  }

  lemma {:induction false} RetryUnsentTabled(rows: seq<Row>, parts: seq<Part>, percent: nat, outcome: Outcome)
    requires WellSplit(parts) && Tabled(rows, parts, percent) && !SomeSent(rows)
    ensures Tabled(Persist(rows, PendingIds(rows), ServiceResults(parts, percent, [], outcome), 0), parts, percent)
  {
    if outcome.Online? && parts != [] {
      RetryUnsentIssue(rows, parts, percent, IssueAll(parts, percent, outcome.lastOperation, outcome.replies));
      FullIssueMatches(parts, percent, outcome);
    } else {
      RetryUnsentFailure(rows, parts, percent);
      RowZeroLostTabled(rows, parts, percent);
    }
  }

  /** One retry keeps the invariant and is never blocked for missing split metadata. */
  lemma RetryValid(ledger: Ledger, parts: seq<Part>, percent: nat, outcome: Outcome)
    requires Valid(ledger, parts, percent)
    ensures Valid(RetryOnce(ledger, parts, percent, outcome).0, parts, percent)
    ensures !RetryOnce(ledger, parts, percent, outcome).1.Blocked?
  {
    RetryBalanced(ledger, parts, percent, outcome);
    RetryTabled(ledger, parts, percent, outcome);
  }

  function Run(ledger: Ledger, parts: seq<Part>, percent: nat, retries: seq<Outcome>): Ledger
    decreases |retries|
  {
    if retries == [] then ledger
    else Run(RetryOnce(ledger, parts, percent, retries[0]).0, parts, percent, retries[1..])
  }

  lemma {:induction false} RunValid(ledger: Ledger, parts: seq<Part>, percent: nat, retries: seq<Outcome>)
    requires Valid(ledger, parts, percent)
    ensures Valid(Run(ledger, parts, percent, retries), parts, percent)
    decreases |retries|
  {
    if retries != [] {
      RetryValid(ledger, parts, percent, retries[0]);
      RunValid(RetryOnce(ledger, parts, percent, retries[0]).0, parts, percent, retries[1..]);
    }
  }

  function Concerns(reason: Reason): Result -> int {
    (result: Result) => if result.reason == reason then 1 else 0
  }

  /** How often the device has acknowledged a receipt of this part. */
  function Registrations(log: seq<Result>, reason: Reason): int {
    SumBy(log, Concerns(reason))
  }

  lemma {:induction false} SingleTerm<T>(s: seq<T>, g: T -> int, at: nat)
    requires forall i | 0 <= i < |s| && i != at :: g(s[i]) == 0
    ensures SumBy(s, g) == if at < |s| then g(s[at]) else 0
  {
    if s != [] {
      if at == 0 {
        SingleTerm(s[1..], g, |s|);
      } else {
        SingleTerm(s[1..], g, at - 1);
      }
    }
  }

  ghost predicate AllSent(rows: seq<Row>) {
    forall i | 0 <= i < |rows| :: rows[i].IsSent()
  }

  /** At most one acknowledgement a part, none of anything else; exactly one if the part's row is sent. */
  lemma RegisteredAtMostOnce(ledger: Ledger, parts: seq<Part>, percent: nat, reason: Reason)
    requires Valid(ledger, parts, percent)
    ensures 0 <= Registrations(ledger.log, reason) <= 1
    ensures Registrations(ledger.log, reason) == 1 <==>
              exists i | 0 <= i < |ledger.rows| :: ledger.rows[i].IsSent() && ledger.rows[i].payload.reason == reason
    ensures ledger.rows != [] && AllSent(ledger.rows) ==>
              forall i | 0 <= i < |parts| :: Registrations(ledger.log, parts[i].reason) == 1
  {
    OneSentRow(ledger, parts, percent, reason);
    if ledger.rows != [] && AllSent(ledger.rows) {
      forall i | 0 <= i < |parts|
        ensures Registrations(ledger.log, parts[i].reason) == 1
      {
        assert ledger.rows[0].IsSent();
        OneSentRow(ledger, parts, percent, parts[i].reason);
        assert ledger.rows[i].payload.reason == parts[i].reason;
      }
    }
  }

  lemma OneSentRow(ledger: Ledger, parts: seq<Part>, percent: nat, reason: Reason)
    requires Valid(ledger, parts, percent)
    ensures Registrations(ledger.log, reason)
            == if exists i | 0 <= i < |ledger.rows| ::
                    ledger.rows[i].IsSent() && ledger.rows[i].payload.reason == reason
               then 1 else 0
  {
    var rows, f := ledger.rows, Concerns(reason);
    assert SumBy(ledger.log, f) == SumBy(rows, SentValue(f));
    if at :| 0 <= at < |rows| && rows[at].IsSent() && rows[at].payload.reason == reason {
      assert RowsMatchParts(rows, parts, percent);
      forall i | 0 <= i < |rows| && i != at
        ensures SentValue(f)(rows[i]) == 0
      {
        if rows[i].IsSent() {
          assert parts[i].reason != parts[at].reason;
        }
      }
      SingleTerm(rows, SentValue(f), at);
    } else {
      SingleTerm(rows, SentValue(f), |rows|);
    }
  }

  /** The device never acknowledges more money than the parts are worth, and exactly that once all rows are sent. */
  lemma {:induction false} RegisteredMoney(ledger: Ledger, parts: seq<Part>, percent: nat)
    requires Valid(ledger, parts, percent)
    ensures 0 <= SumBy(ledger.log, Price) <= SumBy(parts, PartPrice(percent))
    ensures ledger.rows != [] && AllSent(ledger.rows) ==> SumBy(ledger.log, Price) == SumBy(parts, PartPrice(percent))
  {
    var rows := ledger.rows;
    assert SumBy(ledger.log, Price) == SumBy(rows, SentValue(Price));
    PartPricesNonNegative(parts, percent);
    SumByNonNegative(parts, PartPrice(percent));
    SentPricesNonNegative(rows);
    if !SomeSent(rows) {
      SingleTerm(rows, SentValue(Price), |rows|);
    } else {
      SentRowsCarryPrices(rows, parts, percent);
      PairedSums(rows, parts, SentValue(Price), PartPrice(percent));
    }
  }

  lemma {:induction false} SentPricesNonNegative(rows: seq<Row>)
    ensures SumBy(rows, SentValue(Price)) >= 0
  {
    forall row | row in rows
      ensures SentValue(Price)(row) >= 0
    {
      assert SentValue(Price)(row) == if row.IsSent() then Price(row.payload) else 0;
    }
    SumByNonNegative(rows, SentValue(Price));
  }

  lemma PartPricesNonNegative(parts: seq<Part>, percent: nat)
    ensures forall part | part in parts :: PartPrice(percent)(part) >= 0
  {
    forall part | part in parts
      ensures PartPrice(percent)(part) >= 0
    {
      SumByNonNegative(PartLines(part, percent), PriceOf);
    }
  }

  lemma SentRowsCarryPrices(rows: seq<Row>, parts: seq<Part>, percent: nat)
    requires RowsMatchParts(rows, parts, percent)
    requires forall i | 0 <= i < |rows| :: rows[i] == RowOf(rows[i].payload)
    ensures forall i | 0 <= i < |rows| :: SentValue(Price)(rows[i]) <= PartPrice(percent)(parts[i])
    ensures forall i | 0 <= i < |rows| && rows[i].IsSent() :: SentValue(Price)(rows[i]) == PartPrice(percent)(parts[i])
  {
    PartPricesNonNegative(parts, percent);
    forall i | 0 <= i < |rows|
      ensures SentValue(Price)(rows[i]) <= PartPrice(percent)(parts[i])
      ensures rows[i].IsSent() ==> SentValue(Price)(rows[i]) == PartPrice(percent)(parts[i])
    {
      var part, row := parts[i], rows[i];
      assert part in parts && Carries(row.payload, part, percent);
      assert PartPrice(percent)(part) == Prices(PartLines(part, percent));
      assert SentValue(Price)(row) == if row.IsSent() then Price(row.payload) else 0;
    }
  }

  /** Exactly-once acknowledgement and exact money over the first issue and any retries. */
  lemma {:induction false} ExactlyOnce(
      sale: Sale, paidBy: Method, first: Outcome, retries: seq<Outcome>, reason: Reason)
    ensures var parts := BuildParts(sale, paidBy);
            var ledger := Run(FirstIssue(parts, sale.vat, first), parts, sale.vat, retries);
            && Registrations(ledger.log, reason) <= 1
            && |ledger.rows| <= Max(1, |parts|)
            && (TotalsConsistent(sale)
                 && (forall i | i in Active(sale) :: Labels(i) == [] || |Labels(i)| == i.quantity) ==>
                  && SumBy(ledger.log, Price) <= 100 * sale.total
                  && (ledger.rows != [] && AllSent(ledger.rows) ==> SumBy(ledger.log, Price) == 100 * sale.total))
  {
    var parts := BuildParts(sale, paidBy);
    var ledger := Run(FirstIssue(parts, sale.vat, first), parts, sale.vat, retries);
    PartsAreToldApart(sale, paidBy);
    FirstIssueValid(parts, sale.vat, first);
    RunValid(FirstIssue(parts, sale.vat, first), parts, sale.vat, retries);
    RegisteredAtMostOnce(ledger, parts, sale.vat, reason);
    RegisteredMoney(ledger, parts, sale.vat);
    if TotalsConsistent(sale) && (forall i | i in Active(sale) :: Labels(i) == [] || |Labels(i)| == i.quantity) {
      if parts != [] {
        MoneyConserved(sale, paidBy);
      }
    }
  }

  lemma {:induction false} RunKeepsSent(ledger: Ledger, parts: seq<Part>, percent: nat, retries: seq<Outcome>)
    ensures var after := Run(ledger, parts, percent, retries);
            && |after.rows| >= |ledger.rows|
            && (forall i | 0 <= i < |ledger.rows| && ledger.rows[i].IsSent() :: after.rows[i] == ledger.rows[i])
    decreases |retries|
  {
    if retries != [] {
      RetryKeepsSent(ledger, parts, percent, retries[0]);
      RunKeepsSent(RetryOnce(ledger, parts, percent, retries[0]).0, parts, percent, retries[1..]);
    }
  }

  ghost predicate AcceptsAll(outcome: Outcome, n: nat) {
    outcome.Online? && |outcome.replies| >= n && forall r | r in outcome.replies :: r.Accepts?
  }

  lemma {:induction false} AcceptedAreRegistered(parts: seq<Part>, percent: nat, last: Option<int>, replies: seq<Reply>)
    requires |replies| >= |parts| && forall r | r in replies :: r.Accepts?
    ensures forall r | r in IssueAll(parts, percent, last, replies) :: r.Registered?
  {
    if parts != [] {
      assert replies[0] in replies;
      var result := Attempt(parts[0], percent, last, replies[0]);
      AcceptedAreRegistered(parts[1..], percent, MemoryAfter(result, last), replies[1..]);
    }
  }

  lemma {:induction false} PartialResultsAccepted(rows: seq<Row>, parts: seq<Part>, percent: nat, outcome: Outcome)
    requires WellSplit(parts) && |rows| == |parts| && PendingIds(rows) != [] && AcceptsAll(outcome, |parts|)
    requires forall i | 0 <= i < |rows| :: rows[i].payload.reason == parts[i].reason
    ensures var results := PartialResults(rows, parts, percent, outcome);
            forall j | 0 <= j < |results| :: results[j].Registered?
  {
    PartialResultsFit(rows, parts, percent, outcome);
    SubAccepted(rows, parts, percent, outcome);
  }

  lemma {:induction false} SubAccepted(rows: seq<Row>, parts: seq<Part>, percent: nat, outcome: Outcome)
    requires |rows| == |parts| && AcceptsAll(outcome, |parts|)
    ensures forall r | r in IssueAll(Sub(parts, PendingIds(rows)), percent, outcome.lastOperation, outcome.replies) ::
              r.Registered?
  {
    PendingFit(rows);
    AcceptedAreRegistered(Sub(parts, PendingIds(rows)), percent, outcome.lastOperation, outcome.replies);
  }

  lemma {:induction false} WrittenOrSent(rows: seq<Row>, after: seq<Row>, results: seq<Result>)
    requires |after| == |rows| && |results| == |PendingIds(rows)|
    requires forall j | 0 <= j < |results| :: after[PendingIds(rows)[j]] == RowOf(results[j])
    requires forall i | 0 <= i < |rows| && i !in PendingIds(rows) :: after[i] == rows[i]
    requires forall j | 0 <= j < |results| :: results[j].Registered?
    ensures AllSent(after)
  {
  }

  lemma {:induction false} PartialRetryCompletes(rows: seq<Row>, parts: seq<Part>, percent: nat, outcome: Outcome)
    requires WellSplit(parts) && |rows| == |parts| && PendingIds(rows) != [] && AcceptsAll(outcome, |parts|)
    requires forall i | 0 <= i < |rows| :: rows[i].payload.reason == parts[i].reason
    ensures var after := Persist(rows, PendingIds(rows), PartialResults(rows, parts, percent, outcome), 0);
            |after| == |parts| && AllSent(after)
  {
    PartialResultsAccepted(rows, parts, percent, outcome);
    RetryPartialRows(rows, parts, percent, outcome);
    var results := PartialResults(rows, parts, percent, outcome);
    WrittenOrSent(rows, Persist(rows, PendingIds(rows), results, 0), results);
  }

  lemma {:induction false} UnsentRetryCompletes(rows: seq<Row>, parts: seq<Part>, percent: nat, outcome: Outcome)
    requires WellSplit(parts) && Tabled(rows, parts, percent) && !SomeSent(rows)
    requires parts != [] && AcceptsAll(outcome, |parts|)
    ensures var after := Persist(rows, PendingIds(rows), ServiceResults(parts, percent, [], outcome), 0);
            |after| == |parts| && AllSent(after)
  {
    var results := IssueAll(parts, percent, outcome.lastOperation, outcome.replies);
    assert ServiceResults(parts, percent, [], outcome) == results;
    RetryUnsentIssue(rows, parts, percent, results);
    AcceptedAreRegistered(parts, percent, outcome.lastOperation, outcome.replies);
    RegisteredRowsAreSent(results);
  }

  lemma RegisteredRowsAreSent(results: seq<Result>)
    requires forall r | r in results :: r.Registered?
    ensures AllSent(RowsOf(results))
  {
    assert forall j | 0 <= j < |results| :: results[j] in results;
  }

  /** After any history, one retry that the device accepts in full leaves every part registered. */
  lemma RetryCompletes(ledger: Ledger, parts: seq<Part>, percent: nat, outcome: Outcome)
    requires Valid(ledger, parts, percent) && parts != [] && AcceptsAll(outcome, |parts|)
    ensures var after := RetryOnce(ledger, parts, percent, outcome).0.rows;
            |after| == |parts| && AllSent(after)
  {
    var rows := ledger.rows;
    if !SomeSent(rows) {
      UnsentRetryCompletes(rows, parts, percent, outcome);
    } else {
      assert RowsMatchParts(rows, parts, percent);
      if PendingIds(rows) != [] {
        PendingReasonsAsked(rows, parts, percent, outcome);
        PartialRetryCompletes(rows, parts, percent, outcome);
      }
    }
  }

  lemma {:induction false} PendingReasonsAsked(rows: seq<Row>, parts: seq<Part>, percent: nat, outcome: Outcome)
    requires WellSplit(parts) && RowsMatchParts(rows, parts, percent) && SomeSent(rows) && PendingIds(rows) != []
    ensures forall i | 0 <= i < |rows| :: rows[i].payload.reason == parts[i].reason
    ensures RetryReasons(rows) == Some(PendingReasons(rows, PendingIds(rows)))
  {
    PartialResultsFit(rows, parts, percent, outcome);
  }

  lemma {:induction false} PendingFit(rows: seq<Row>)
    ensures |PendingIds(rows)| <= |rows|
  {
    if rows != [] {
      PendingFit(rows[..|rows| - 1]);
    }
  }

  ghost predicate AsksFor(rows: seq<Row>, part: Part) {
    part.reason in PendingReasons(rows, PendingIds(rows))
  }

  lemma RetryLog(ledger: Ledger, parts: seq<Part>, percent: nat, outcome: Outcome)
    requires SomeSent(ledger.rows) && PendingReasons(ledger.rows, PendingIds(ledger.rows)) != []
    ensures RetryOnce(ledger, parts, percent, outcome).0.log
            == ledger.log + Filter(PartialResults(ledger.rows, parts, percent, outcome), IsAck)
  {
  }

  lemma NoPartLeft(ledger: Ledger, changedParts: seq<Part>, percent: nat, outcome: Outcome)
    requires SomeSent(ledger.rows) && PendingReasons(ledger.rows, PendingIds(ledger.rows)) != []
    requires forall part | part in changedParts :: !AsksFor(ledger.rows, part)
    ensures RetryOnce(ledger, changedParts, percent, outcome).0.log == ledger.log
  {
    var reasons := PendingReasons(ledger.rows, PendingIds(ledger.rows));
    RetryLog(ledger, changedParts, percent, outcome);
    FilterNone(changedParts, WantedBy(reasons));
    assert PartialResults(ledger.rows, changedParts, percent, outcome) == Failures(reasons);
    NoAcks(Failures(reasons));
  }

  lemma SomePartLeft(ledger: Ledger, changedParts: seq<Part>, percent: nat, part: Part) returns (outcome: Outcome)
    requires SomeSent(ledger.rows) && part in changedParts && AsksFor(ledger.rows, part)
    ensures RetryOnce(ledger, changedParts, percent, outcome).0.log != ledger.log
  {
    outcome := Online(None, [Accepts(0, None, 0)]);
    var reasons := PendingReasons(ledger.rows, PendingIds(ledger.rows));
    RetryLog(ledger, changedParts, percent, outcome);
    var chosen := Filter(changedParts, WantedBy(reasons));
    assert part in chosen;
    var results := IssueAll(chosen, percent, None, outcome.replies);
    assert results[0].Registered? && results[0] in Filter(results, IsAck);
    assert |ledger.log + Filter(results, IsAck)| > |ledger.log|;
  }

  /** If items were cancelled after a partial success, a retry can still register something exactly when a part
      with a pending reason is left; otherwise every retry fails, whatever the device does. */
  lemma RetryProgressIff(ledger: Ledger, changedParts: seq<Part>, percent: nat)
    requires SomeSent(ledger.rows) && PendingReasons(ledger.rows, PendingIds(ledger.rows)) != []
    ensures (exists part :: part in changedParts && AsksFor(ledger.rows, part))
            <==> (exists outcome :: RetryOnce(ledger, changedParts, percent, outcome).0.log != ledger.log)
  {
    if part :| part in changedParts && AsksFor(ledger.rows, part) {
      var outcome := SomePartLeft(ledger, changedParts, percent, part);
    } else {
      forall outcome
        ensures RetryOnce(ledger, changedParts, percent, outcome).0.log == ledger.log
      {
        NoPartLeft(ledger, changedParts, percent, outcome);
      }
    }
  }

  lemma {:induction false} NoAcks(results: seq<Result>)
    requires forall r | r in results :: r.Rejected?
    ensures Filter(results, IsAck) == []
  {
    if results != [] {
      NoAcks(results[1..]);
    }
  }
}
