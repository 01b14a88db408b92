/** Report periods and the owner dashboard's revenue histogram
    (apps/reporting/selectors/reporting.py, apps/dashboard/services/owner_dashboard_overview.py,
    common/utils/date.py). */
module RevenueSeries {
  import opened Arithmetic
  import opened Calendar
  import opened Options

  // ----- Days -----

  function NextDay(date: Date): (r: Date)
    requires date.Valid()
    ensures r.Valid() && Ordinal(r) == Ordinal(date) + 1
  {
    if date.day < DaysIn(date.year, date.month) then date.(day := date.day + 1)
    else if date.month < 12 then Date(date.year, date.month + 1, 1)
    else
      YearStep(date.year);
      MonthsFillYear(date.year);
      Date(date.year + 1, 1, 1)
  }

  /** yesterday(); the first day of year 1 has none. */
  function PreviousDay(date: Date): (r: Date)
    requires date.Valid() && date != Date(1, 1, 1)
    ensures r.Valid() && NextDay(r) == date
  {
    if date.day > 1 then date.(day := date.day - 1)
    else if date.month > 1 then Date(date.year, date.month - 1, DaysIn(date.year, date.month - 1))
    else Date(date.year - 1, 12, 31)
  }

  /** date - timedelta(days=n) */
  function DaysBack(date: Date, n: nat): (r: Date)
    requires date.Valid() && n < Ordinal(date)
    ensures r.Valid() && Ordinal(r) == Ordinal(date) - n
    decreases n
  {
    if n == 0 then date else
      FirstOrdinal(date);
      DaysBack(PreviousDay(date), n - 1)
  }

  lemma FirstOrdinal(date: Date)
    requires date.Valid()
    ensures Ordinal(date) >= 1 && (Ordinal(date) == 1 <==> date == Date(1, 1, 1))
  {
  }

  // ----- Periods -----

  datatype Kind = Day | Range | Month | Year

  /** A period runs from midnight of start up to, and excluding, midnight of end. */
  datatype Period = Period(kind: Kind, start: Date, end: Date)

  function DayPeriod(date: Date): Period
    requires date.Valid()
  {
    Period(Day, date, NextDay(date))
  }

  function MonthPeriod(year: nat, month: nat): Period {
    Period(Month, Date(year, month, 1), if month == 12 then Date(year + 1, 1, 1) else Date(year, month + 1, 1))
  }

  function YearPeriod(year: nat): Period {
    Period(Year, Date(year, 1, 1), Date(year + 1, 1, 1))
  }

  function RangePeriod(first: Date, last: Date): Period
    requires first.Valid() && last.Valid()
  {
    Period(Range, first, NextDay(last))
  }

  predicate ValidIfGiven(date: Option<Date>) {
    date.Some? ==> date.value.Valid()
  }

  /** _resolve_range_dates: a missing end of the range is the other end or today, and swapped ends are put in order. */
  function ResolveRange(first: Option<Date>, last: Option<Date>, today: Date): (r: (Date, Date))
    requires today.Valid() && ValidIfGiven(first) && ValidIfGiven(last)
    ensures r.0.Valid() && r.1.Valid() && r.0.UpTo(r.1)
    ensures first.Some? && last.Some? ==> r == (first.value, last.value) || r == (last.value, first.value)
    ensures first.Some? && last.None? ==> r == (first.value, first.value)
    ensures first.None? && last.Some? ==> r == (last.value, last.value)
    ensures first.None? && last.None? ==> r == (today, today)
  {
    var a := if first.Some? then first.value else if last.Some? then last.value else today;
    var b := if last.Some? then last.value else a;
    if b.Before(a) then (b, a) else (a, b)
  }

  /** The periods that get_report_period makes. */
  ghost predicate Resolved(p: Period) {
    match p.kind
    case Day => p.start.Valid() && p == DayPeriod(p.start)
    case Month => p.start.Valid() && p == MonthPeriod(p.start.year, p.start.month)
    case Year => p.start.Valid() && p == YearPeriod(p.start.year)
    case Range => p.start.Valid() && p.end.Valid() && p.start.Before(p.end)
  }

  lemma RangeResolved(first: Option<Date>, last: Option<Date>, today: Date)
    requires today.Valid() && ValidIfGiven(first) && ValidIfGiven(last)
    ensures var r := ResolveRange(first, last, today); Resolved(RangePeriod(r.0, r.1))
  {
  }

  /** get_period_day_span */
  function Span(p: Period): (r: nat)
    requires Resolved(p)
    ensures r >= 1
  {
    Bounded(p);
    Ordinal(p.end) - Ordinal(p.start)
  }

  lemma Bounded(p: Period)
    requires Resolved(p)
    ensures p.start.Valid() && p.end.Valid() && Ordinal(p.start) < Ordinal(p.end)
  {
    OrdinalOrder(p.start, p.end);
  }

  predicate SingleDay(p: Period)
    requires Resolved(p)
  {
    Span(p) == 1
  }

  // ----- The previous period -----

  /** get_previous_period */
  function Previous(p: Period): Period
    requires Resolved(p) && p.start.year > 1
    requires p.kind == Range ==> Span(p) < Ordinal(p.start)
  {
    match p.kind
    case Range =>
      var last := PreviousDay(p.start);
      RangePeriod(DaysBack(last, Span(p) - 1), last)
    case Month =>
      if p.start.month == 1 then MonthPeriod(p.start.year - 1, 12) else MonthPeriod(p.start.year, p.start.month - 1)
    case Year => YearPeriod(p.start.year - 1)
    case Day => DayPeriod(PreviousDay(p.start))
  }

  /** The previous period ends exactly where the current one starts; ranges keep their length, months and years
      are whole. */
  lemma PreviousIsAdjacent(p: Period)
    requires Resolved(p) && p.start.year > 1
    requires p.kind == Range ==> Span(p) < Ordinal(p.start)
    ensures Resolved(Previous(p)) && Previous(p).kind == p.kind
    ensures Previous(p).end == p.start
    ensures p.kind == Range || p.kind == Day ==> Span(Previous(p)) == Span(p)
  {
    if p.kind == Range {
      PreviousRange(p);
    } else if p.kind == Day {
      Bounded(p);
    }
  }

  lemma PreviousRange(p: Period)
    requires Resolved(p) && p.kind == Range && p.start.year > 1 && Span(p) < Ordinal(p.start)
    ensures var q := Previous(p);
            Resolved(q) && q.kind == Range && q.end == p.start && Span(q) == Span(p)
  {
    var last := PreviousDay(p.start);
    var first := DaysBack(last, Span(p) - 1);
    OrdinalOrder(first, NextDay(last));
    assert Previous(p) == Period(Range, first, p.start);
  }

  // ----- Buckets -----

  /** A local time: a date and an hour; finer parts are never read. */
  datatype Moment = Moment(date: Date, hour: nat) {
    predicate Valid() { date.Valid() && hour < 24 }
  }

  /** A payment or closed order as the histogram sees it. */
  datatype Entry = Entry(at: Moment, amount: nat)

  predicate Within(p: Period, m: Moment) {
    m.Valid() && p.start.UpTo(m.date) && m.date.Before(p.end)
  }

  predicate ByHour(p: Period)
    requires Resolved(p)
  {
    p.kind == Day || (p.kind == Range && SingleDay(p))
  }

  /** TruncMonth, TruncDate or TruncHour */
  function Truncated(p: Period, m: Moment): Moment
    requires Resolved(p)
  {
    if p.kind == Year then Moment(Date(m.date.year, m.date.month, 1), 0)
    else if ByHour(p) then m
    else Moment(m.date, 0)
  }

  /** The dictionary key of a truncated time. */
  function Key(p: Period, bucket: Moment): int
    requires Resolved(p) && bucket.Valid()
  {
    if p.kind == Year then bucket.date.month
    else if ByHour(p) then bucket.hour
    else if p.kind == Month then bucket.date.day
    else Bounded(p); Ordinal(bucket.date) - Ordinal(p.start)
  }

  function FirstIndex(p: Period): nat {
    if p.kind == Year || p.kind == Month then 1 else 0
  }

  function IndexCount(p: Period): nat
    requires Resolved(p)
  {
    if p.kind == Year then 12
    else if ByHour(p) then 24
    else if p.kind == Month then DaysIn(p.start.year, p.start.month)
    else Span(p)
  }

  /** get_series_blueprint */
  function Blueprint(p: Period): seq<nat>
    requires Resolved(p)
  {
    Indices(FirstIndex(p), IndexCount(p))
  }

  function Indices(first: nat, count: nat): (r: seq<nat>)
    ensures |r| == count && forall i | 0 <= i < count :: r[i] == first + i
  {
    seq(count, i requires 0 <= i => first + i)
  }

  /** Every time in the period falls on an index of the period's own blueprint. */
  lemma KeyInBlueprint(p: Period, m: Moment)
    requires Resolved(p) && Within(p, m)
    ensures Truncated(p, m).Valid()
    ensures FirstIndex(p) <= Key(p, Truncated(p, m)) < FirstIndex(p) + IndexCount(p)
  {
    Bounded(p);
    OrdinalOrder(p.start, m.date);
    OrdinalOrder(m.date, p.end);
  }

  /** Different buckets of one period have different keys, so no bucket's total overwrites another's. */
  lemma KeyInjective(p: Period, m: Moment, n: Moment)
    requires Resolved(p) && Within(p, m) && Within(p, n)
    requires Key(p, Truncated(p, m)) == Key(p, Truncated(p, n))
    ensures Truncated(p, m) == Truncated(p, n)
  {
    Bounded(p);
    if p.kind == Range && SingleDay(p) {
      SingleDate(p, m);
      SingleDate(p, n);
    } else {
      OrdinalOrder(m.date, n.date);
    }
  }

  lemma SingleDate(p: Period, m: Moment)
    requires Resolved(p) && SingleDay(p) && Within(p, m)
    ensures m.date == p.start
  {
    OrdinalOrder(p.start, m.date);
    OrdinalOrder(m.date, p.end);
  }

  // ----- Rows and series -----

  datatype Row = Row(bucket: Moment, total: int)

  function AmountOf(): Entry -> int { (e: Entry) => e.amount }

  function OneOf(): Entry -> int { (e: Entry) => 1 }

  function TotalOf(): Row -> int { (r: Row) => r.total }

  function InBucket(p: Period, bucket: Moment): Entry -> bool
    requires Resolved(p)
  {
    (e: Entry) => Truncated(p, e.at) == bucket
  }

  function Elsewhere(p: Period, bucket: Moment): Entry -> bool
    requires Resolved(p)
  {
    (e: Entry) => Truncated(p, e.at) != bucket
  }

  /** GROUP BY bucket, in whatever order the database answers: distinct buckets, none missing, each with its sum. */
  ghost predicate Grouped(p: Period, entries: seq<Entry>, f: Entry -> int, rows: seq<Row>)
    requires Resolved(p)
  {
    && (forall i, j | 0 <= i < j < |rows| :: rows[i].bucket != rows[j].bucket)
    && (forall e | e in entries :: exists i :: 0 <= i < |rows| && rows[i].bucket == Truncated(p, e.at))
    && (forall i | 0 <= i < |rows| :: rows[i].total == SumBy(Filter(entries, InBucket(p, rows[i].bucket)), f))
  }

  /** Every row has entries; a group without rows does not exist. */
  ghost predicate Inhabited(p: Period, entries: seq<Entry>, rows: seq<Row>)
    requires Resolved(p)
  {
    forall i | 0 <= i < |rows| :: exists e :: e in entries && Truncated(p, e.at) == rows[i].bucket
  }

  lemma {:induction false} FilterTwice(p: Period, entries: seq<Entry>, out: Moment, bucket: Moment)
    requires Resolved(p) && out != bucket
    ensures Filter(Filter(entries, Elsewhere(p, out)), InBucket(p, bucket)) == Filter(entries, InBucket(p, bucket))
  {
    if entries != [] {
      FilterTwice(p, entries[1..], out, bucket);
      var rest := Filter(entries[1..], Elsewhere(p, out));
      if Elsewhere(p, out)(entries[0]) {
        assert ([entries[0]] + rest)[1..] == rest;
      }
    }
  }

  /** The row totals add up to the total over all entries. */
  lemma {:induction false} RowsAddUp(p: Period, entries: seq<Entry>, f: Entry -> int, rows: seq<Row>)
    requires Resolved(p) && Grouped(p, entries, f, rows)
    ensures SumBy(rows, TotalOf()) == SumBy(entries, f)
    decreases |rows|
  {
    if rows == [] {
      assert |entries| > 0 ==> entries[0] in entries;
    } else {
      var out := rows[0].bucket;
      var rest := Filter(entries, Elsewhere(p, out));
      FilterPartition(entries, InBucket(p, out), Elsewhere(p, out), f);
      assert Grouped(p, rest, f, rows[1..]) by {
        RestGrouped(p, entries, f, rows);
      }
      RowsAddUp(p, rest, f, rows[1..]);
    }
  }

  lemma {:induction false} RestGrouped(p: Period, entries: seq<Entry>, f: Entry -> int, rows: seq<Row>)
    requires Resolved(p) && Grouped(p, entries, f, rows) && rows != []
    ensures Grouped(p, Filter(entries, Elsewhere(p, rows[0].bucket)), f, rows[1..])
  {
    var out, tail := rows[0].bucket, rows[1..];
    var rest := Filter(entries, Elsewhere(p, out));
    forall e | e in rest
      ensures exists i :: 0 <= i < |tail| && tail[i].bucket == Truncated(p, e.at)
    {
      var i :| 0 <= i < |rows| && rows[i].bucket == Truncated(p, e.at);
      assert i > 0 && tail[i - 1] == rows[i];
    }
    forall i | 0 <= i < |tail|
      ensures tail[i].total == SumBy(Filter(rest, InBucket(p, tail[i].bucket)), f)
    {
      assert tail[i] == rows[i + 1];
      FilterTwice(p, entries, out, tail[i].bucket);
    }
  }

  /** What a row contributes to the dictionary. */
  datatype Cell = Cell(key: int, total: int)

  function CellTotal(): Cell -> int { (c: Cell) => c.total }

  function CellWithin(limit: int): Cell -> int {
    (c: Cell) => if c.key < limit then c.total else 0
  }

  ghost predicate ValidBuckets(rows: seq<Row>) {
    forall i | 0 <= i < |rows| :: rows[i].bucket.Valid()
  }

  function Cells(p: Period, rows: seq<Row>): (r: seq<Cell>)
    requires Resolved(p) && ValidBuckets(rows)
    ensures |r| == |rows| && forall i | 0 <= i < |r| :: r[i] == Cell(Key(p, rows[i].bucket), rows[i].total)
  {
    seq(|rows|, i requires 0 <= i < |rows| => Cell(Key(p, rows[i].bucket), rows[i].total))
  }

  /** The dictionary comprehension: on equal keys the later row wins. */
  function CellMap(cells: seq<Cell>): map<int, int> {
    if cells == [] then map[]
    else CellMap(cells[..|cells| - 1])[cells[|cells| - 1].key := cells[|cells| - 1].total]
  }

  function KeyMap(p: Period, rows: seq<Row>): map<int, int>
    requires Resolved(p) && ValidBuckets(rows)
  {
    CellMap(Cells(p, rows))
  }

  function Get(m: map<int, int>, k: int): int {
    if k in m then m[k] else 0
  }

  function MapValue(m: map<int, int>): nat -> int {
    k => Get(m, k)
  }

  datatype Point = Point(index: nat, sales: int, orders: int, average: int)

  function SalesAt(): Point -> int { (q: Point) => q.sales }

  function OrdersAt(): Point -> int { (q: Point) => q.orders }

  /** One point of the series: both totals, and the average check rounded to a nearest integer. */
  ghost predicate PointOf(sales: map<int, int>, orders: map<int, int>, index: nat, q: Point) {
    && q.index == index && q.sales == Get(sales, index) && q.orders == Get(orders, index)
    && (q.orders == 0 ==> q.average == 0)
    && (q.orders > 0 ==>
          2 * q.sales - q.orders <= 2 * (q.orders * q.average) && 2 * (q.orders * q.average) <= 2 * q.sales + q.orders)
  }

  ghost predicate SeriesOf(p: Period, salesRows: seq<Row>, ordersRows: seq<Row>, points: seq<nat>, series: seq<Point>)
    requires Resolved(p)
    requires ValidBuckets(salesRows)
    requires ValidBuckets(ordersRows)
  {
    |series| == |points|
    && forall i | 0 <= i < |points| :: PointOf(KeyMap(p, salesRows), KeyMap(p, ordersRows), points[i], series[i])
  }

  /** build_revenue_series over the rows that the two grouping queries answer */
  method BuildRevenueSeries(
      p: Period, salesRows: seq<Row>, ordersRows: seq<Row>, blueprint: seq<nat>)
    returns (series: seq<Point>)
    requires Resolved(p)
    requires ValidBuckets(salesRows) && forall i | 0 <= i < |salesRows| :: salesRows[i].total >= 0
    requires ValidBuckets(ordersRows) && forall i | 0 <= i < |ordersRows| :: ordersRows[i].total >= 0
    ensures SeriesOf(p, salesRows, ordersRows, if blueprint != [] then blueprint else Blueprint(p), series)
  {
    var salesMap, ordersMap := KeyMap(p, salesRows), KeyMap(p, ordersRows);
    MapNonNegative(Cells(p, salesRows));
    MapNonNegative(Cells(p, ordersRows));
    var points := if blueprint != [] then blueprint else Blueprint(p);
    series := [];
    for n := 0 to |points|
      invariant |series| == n
      invariant forall i | 0 <= i < n :: PointOf(salesMap, ordersMap, points[i], series[i])
    {
      var salesTotal, ordersCount := Get(salesMap, points[n]), Get(ordersMap, points[n]);
      var average := 0;
      if ordersCount != 0 {
        average := HalfEven(salesTotal, ordersCount);
        HalfEvenNearest(salesTotal, ordersCount);
      }
      series := series + [Point(points[n], salesTotal, ordersCount, average)];
    }
  }

  lemma {:induction false} MapNonNegative(cells: seq<Cell>)
    requires forall i | 0 <= i < |cells| :: cells[i].total >= 0
    ensures forall k | k in CellMap(cells) :: CellMap(cells)[k] >= 0
  {
    if cells != [] {
      MapNonNegative(cells[..|cells| - 1]);
    }
  }

  // ----- Conservation -----

  /** Setting a new key inside the index range adds its value to the sum over the range; outside it adds nothing. */
  lemma {:induction false} SumOverIndices(first: nat, count: nat, m: map<int, int>, k: int, v: int)
    requires k !in m
    ensures SumBy(Indices(first, count), MapValue(m[k := v]))
         == SumBy(Indices(first, count), MapValue(m)) + if first <= k < first + count then v else 0
    decreases count
  {
    if count > 0 {
      SumOverIndices(first + 1, count - 1, m, k, v);
      assert Indices(first, count)[1..] == Indices(first + 1, count - 1);
    }
  }

  ghost predicate DistinctCells(cells: seq<Cell>) {
    forall i, j | 0 <= i < j < |cells| :: cells[i].key != cells[j].key
  }

  ghost predicate KeysWithin(cells: seq<Cell>, low: int, high: int) {
    forall i | 0 <= i < |cells| :: low <= cells[i].key < high
  }

  ghost predicate NothingBeyond(cells: seq<Cell>, limit: int) {
    forall i | 0 <= i < |cells| && cells[i].key >= limit :: cells[i].total == 0
  }

  lemma {:induction false} CellMapDomain(cells: seq<Cell>, k: int)
    requires forall i | 0 <= i < |cells| :: cells[i].key != k
    ensures k !in CellMap(cells)
  {
    if cells != [] {
      CellMapDomain(cells[..|cells| - 1], k);
    }
  }

  /** Summed over the indices first, first + 1, ..., the dictionary gives the cells whose key is below their end. */
  lemma {:induction false} CellsSum(cells: seq<Cell>, first: nat, count: nat)
    requires DistinctCells(cells) && forall i | 0 <= i < |cells| :: first <= cells[i].key
    ensures SumBy(Indices(first, count), MapValue(CellMap(cells))) == SumBy(cells, CellWithin(first + count))
  {
    if cells == [] {
      EmptyMapSum(Indices(first, count));
    } else {
      var n := |cells| - 1;
      var init, last := cells[..n], cells[n];
      CellsSum(init, first, count);
      CellMapDomain(init, last.key);
      SumOverIndices(first, count, CellMap(init), last.key, last.total);
      assert cells == init + [last];
      SumBySnoc(init, last, CellWithin(first + count));
    }
  }

  lemma {:induction false} EmptyMapSum(indices: seq<nat>)
    ensures SumBy(indices, MapValue(map[])) == 0
  {
    if indices != [] {
      EmptyMapSum(indices[1..]);
    }
  }

  ghost predicate AllWithin(p: Period, entries: seq<Entry>) {
    forall e | e in entries :: Within(p, e.at)
  }

  /** The rows of a period have distinct keys inside its blueprint. */
  lemma RowsFillCells(p: Period, entries: seq<Entry>, f: Entry -> int, rows: seq<Row>)
    requires Resolved(p) && AllWithin(p, entries) && Grouped(p, entries, f, rows) && Inhabited(p, entries, rows)
    ensures ValidBuckets(rows) && DistinctCells(Cells(p, rows))
    ensures KeysWithin(Cells(p, rows), FirstIndex(p), FirstIndex(p) + IndexCount(p))
  {
    forall i | 0 <= i < |rows|
      ensures rows[i].bucket.Valid() && FirstIndex(p) <= Key(p, rows[i].bucket) < FirstIndex(p) + IndexCount(p)
    {
      BucketInBlueprint(p, entries, rows[i].bucket);
    }
    DistinctBuckets(p, entries, rows);
  }

  lemma DistinctBuckets(p: Period, entries: seq<Entry>, rows: seq<Row>)
    requires Resolved(p) && AllWithin(p, entries) && Inhabited(p, entries, rows) && ValidBuckets(rows)
    requires forall i, j | 0 <= i < j < |rows| :: rows[i].bucket != rows[j].bucket
    ensures DistinctCells(Cells(p, rows))
  {
    forall i, j | 0 <= i < j < |rows|
      ensures Cells(p, rows)[i].key != Cells(p, rows)[j].key
    {
      BucketsHaveDistinctKeys(p, entries, rows[i].bucket, rows[j].bucket);
    }
  }

  lemma {:induction false} CellTotals(p: Period, rows: seq<Row>)
    requires Resolved(p) && ValidBuckets(rows)
    ensures SumBy(Cells(p, rows), CellTotal()) == SumBy(rows, TotalOf())
  {
    PairedSums(Cells(p, rows), rows, CellTotal(), TotalOf());
  }

  lemma BucketInBlueprint(p: Period, entries: seq<Entry>, bucket: Moment)
    requires Resolved(p) && AllWithin(p, entries)
    requires exists e :: e in entries && Truncated(p, e.at) == bucket
    ensures bucket.Valid() && FirstIndex(p) <= Key(p, bucket) < FirstIndex(p) + IndexCount(p)
  {
    var e :| e in entries && Truncated(p, e.at) == bucket;
    KeyInBlueprint(p, e.at);
  }

  lemma BucketsHaveDistinctKeys(p: Period, entries: seq<Entry>, a: Moment, b: Moment)
    requires Resolved(p) && AllWithin(p, entries) && a != b && a.Valid() && b.Valid()
    requires exists d :: d in entries && Truncated(p, d.at) == a
    requires exists e :: e in entries && Truncated(p, e.at) == b
    ensures Key(p, a) != Key(p, b)
  {
    var d :| d in entries && Truncated(p, d.at) == a;
    var e :| e in entries && Truncated(p, e.at) == b;
    if Key(p, a) == Key(p, b) {
      KeyInjective(p, d.at, e.at);
    }
  }

  /** One column of the histogram over a blueprint with count indices. */
  function Column(p: Period, rows: seq<Row>, count: nat): int
    requires Resolved(p) && ValidBuckets(rows)
  {
    SumBy(Indices(FirstIndex(p), count), MapValue(KeyMap(p, rows)))
  }

  /** On its own blueprint the histogram keeps every sum and every count, whatever order the rows come in. */
  lemma {:induction false} HistogramConserves(p: Period, entries: seq<Entry>, f: Entry -> int, rows: seq<Row>)
    requires Resolved(p) && AllWithin(p, entries) && Grouped(p, entries, f, rows) && Inhabited(p, entries, rows)
    ensures ValidBuckets(rows) && Column(p, rows, IndexCount(p)) == SumBy(entries, f)
  {
    RowsFillCells(p, entries, f, rows);
    var cells := Cells(p, rows);
    CellsSum(cells, FirstIndex(p), IndexCount(p));
    SumByAgree(cells, CellWithin(FirstIndex(p) + IndexCount(p)), CellTotal());
    CellTotals(p, rows);
    RowsAddUp(p, entries, f, rows);
  }

  // ----- Series against summary -----

  function InPeriod(p: Period): Entry -> bool {
    (e: Entry) => Within(p, e.at)
  }

  /** build_summary_payload: the sums that the histogram is compared with. */
  function SalesTotal(p: Period, payments: seq<Entry>): int {
    SumBy(Filter(payments, InPeriod(p)), AmountOf())
  }

  function OrdersCount(p: Period, orders: seq<Entry>): nat {
    |Filter(orders, InPeriod(p))|
  }

  lemma {:induction false} CountIsSum(entries: seq<Entry>)
    ensures SumBy(entries, OneOf()) == |entries|
  {
    if entries != [] {
      CountIsSum(entries[1..]);
    }
  }

  /** rows answer the grouping query of f over the entries of the period */
  ghost predicate Answers(p: Period, entries: seq<Entry>, f: Entry -> int, rows: seq<Row>)
    requires Resolved(p)
  {
    && ValidBuckets(rows)
    && Grouped(p, Filter(entries, InPeriod(p)), f, rows)
    && Inhabited(p, Filter(entries, InPeriod(p)), rows)
  }

  /** The histogram of a period on its own blueprint adds up to the summary of that period, in sales and in orders. */
  lemma {:induction false} SeriesMatchesSummary(
      p: Period, payments: seq<Entry>, orders: seq<Entry>, salesRows: seq<Row>, ordersRows: seq<Row>,
      series: seq<Point>)
    requires Resolved(p)
    requires Answers(p, payments, AmountOf(), salesRows) && Answers(p, orders, OneOf(), ordersRows)
    requires SeriesOf(p, salesRows, ordersRows, Blueprint(p), series)
    ensures SumBy(series, SalesAt()) == SalesTotal(p, payments)
    ensures SumBy(series, OrdersAt()) == OrdersCount(p, orders)
  {
    SeriesColumns(p, salesRows, ordersRows, Blueprint(p), series);
    HistogramConserves(p, Filter(payments, InPeriod(p)), AmountOf(), salesRows);
    HistogramConserves(p, Filter(orders, InPeriod(p)), OneOf(), ordersRows);
    CountIsSum(Filter(orders, InPeriod(p)));
  }

  lemma {:induction false} SeriesColumns(
      p: Period, salesRows: seq<Row>, ordersRows: seq<Row>, points: seq<nat>, series: seq<Point>)
    requires Resolved(p)
    requires ValidBuckets(salesRows)
    requires ValidBuckets(ordersRows)
    requires SeriesOf(p, salesRows, ordersRows, points, series)
    ensures SumBy(series, SalesAt()) == SumBy(points, MapValue(KeyMap(p, salesRows)))
    ensures SumBy(series, OrdersAt()) == SumBy(points, MapValue(KeyMap(p, ordersRows)))
  {
    var sales, orders := KeyMap(p, salesRows), KeyMap(p, ordersRows);
    assert forall i | 0 <= i < |points| :: PointOf(sales, orders, points[i], series[i]);
    PairedSums(series, points, SalesAt(), MapValue(sales));
    PairedSums(series, points, OrdersAt(), MapValue(orders));
  }

  // ----- The previous period on the current blueprint -----

  lemma {:induction false} WithinIff(cells: seq<Cell>, limit: int)
    requires forall i | 0 <= i < |cells| :: cells[i].total >= 0
    ensures SumBy(cells, CellWithin(limit)) <= SumBy(cells, CellTotal())
    ensures SumBy(cells, CellWithin(limit)) == SumBy(cells, CellTotal())
       <==> NothingBeyond(cells, limit)
  {
    if cells != [] {
      var tail := cells[1..];
      WithinIff(tail, limit);
      assert forall i | 0 <= i < |tail| :: tail[i] == cells[i + 1];
      assert forall i | 0 < i < |cells| :: cells[i] == tail[i - 1];
    }
  }

  lemma {:induction false} CellsConserveIff(cells: seq<Cell>, first: nat, high: int, count: nat)
    requires DistinctCells(cells) && KeysWithin(cells, first, high)
    requires forall i | 0 <= i < |cells| :: cells[i].total >= 0
    ensures SumBy(Indices(first, count), MapValue(CellMap(cells))) <= SumBy(cells, CellTotal())
    ensures SumBy(Indices(first, count), MapValue(CellMap(cells))) == SumBy(cells, CellTotal())
       <==> NothingBeyond(cells, first + count)
  {
    CellsSum(cells, first, count);
    WithinIff(cells, first + count);
  }

  /** Drawn on a blueprint with count indices, the histogram keeps the total exactly when nothing lies beyond them. */
  lemma {:induction false} ColumnConservesIff(
      p: Period, entries: seq<Entry>, f: Entry -> int, rows: seq<Row>, count: nat)
    requires Resolved(p) && Answers(p, entries, f, rows)
    requires forall i | 0 <= i < |rows| :: rows[i].total >= 0
    ensures Column(p, rows, count) <= SumBy(Filter(entries, InPeriod(p)), f)
    ensures Column(p, rows, count) == SumBy(Filter(entries, InPeriod(p)), f)
       <==> NothingBeyond(Cells(p, rows), FirstIndex(p) + count)
  {
    RowsFillCells(p, Filter(entries, InPeriod(p)), f, rows);
    CellsConserveIff(Cells(p, rows), FirstIndex(p), FirstIndex(p) + IndexCount(p), count);
    CellTotals(p, rows);
    RowsAddUp(p, Filter(entries, InPeriod(p)), f, rows);
  }

  /** One column of the previous period's series, which is drawn on the current blueprint. */
  function PreviousColumn(p: Period, rows: seq<Row>): int
    requires Resolved(p) && p.start.year > 1 && (p.kind == Range ==> Span(p) < Ordinal(p.start))
    requires Resolved(Previous(p)) && ValidBuckets(rows)
  {
    SumBy(Blueprint(p), MapValue(KeyMap(Previous(p), rows)))
  }

  /** The previous period's series is drawn on the current blueprint. It keeps the previous total exactly when
      nothing falls on an index that the current period does not have. */
  lemma {:induction false} PreviousSeriesConservesIff(p: Period, entries: seq<Entry>, f: Entry -> int, rows: seq<Row>)
    requires Resolved(p) && p.start.year > 1 && (p.kind == Range ==> Span(p) < Ordinal(p.start))
    requires Resolved(Previous(p)) && Answers(Previous(p), entries, f, rows)
    requires forall i | 0 <= i < |rows| :: rows[i].total >= 0
    ensures PreviousColumn(p, rows) <= SumBy(Filter(entries, InPeriod(Previous(p))), f)
    ensures PreviousColumn(p, rows) == SumBy(Filter(entries, InPeriod(Previous(p))), f)
       <==> NothingBeyond(Cells(Previous(p), rows), FirstIndex(p) + IndexCount(p))
  {
    PreviousKind(p);
    ColumnConservesIff(Previous(p), entries, f, rows, IndexCount(p));
  }

  lemma PreviousKind(p: Period)
    requires Resolved(p) && p.start.year > 1 && (p.kind == Range ==> Span(p) < Ordinal(p.start))
    ensures FirstIndex(Previous(p)) == FirstIndex(p)
  {
  }

  /** A blueprint is long enough for the previous period, except a month's after a longer month. */
  lemma PreviousFits(p: Period)
    requires Resolved(p) && p.start.year > 1 && (p.kind == Range ==> Span(p) < Ordinal(p.start))
    requires Resolved(Previous(p))
    ensures FirstIndex(Previous(p)) + IndexCount(Previous(p)) <= FirstIndex(p) + IndexCount(p)
       <==> (p.kind == Month ==>
               DaysIn(Previous(p).start.year, Previous(p).start.month) <= DaysIn(p.start.year, p.start.month))
  {
  }

  /** Only a month that follows a longer month lacks an index: every other previous series is complete. */
  lemma {:induction false} PreviousSeriesComplete(p: Period, entries: seq<Entry>, f: Entry -> int, rows: seq<Row>)
    requires Resolved(p) && p.start.year > 1 && (p.kind == Range ==> Span(p) < Ordinal(p.start))
    requires Resolved(Previous(p)) && Answers(Previous(p), entries, f, rows)
    requires forall i | 0 <= i < |rows| :: rows[i].total >= 0
    requires p.kind == Month ==>
        DaysIn(Previous(p).start.year, Previous(p).start.month) <= DaysIn(p.start.year, p.start.month)
    ensures PreviousColumn(p, rows) == SumBy(Filter(entries, InPeriod(Previous(p))), f)
  {
    RowsFillCells(Previous(p), Filter(entries, InPeriod(Previous(p))), f, rows);
    PreviousFits(p);
    PreviousSeriesConservesIff(p, entries, f, rows);
  }

  /** January's sale of the 31st is missing from the series drawn beside February. */
  lemma ShortMonthDropsDays(amount: nat)
    requires amount > 0
    ensures var p := MonthPeriod(2025, 2);
            var entries := [Entry(Moment(Date(2025, 1, 31), 12), amount)];
            var rows := [Row(Moment(Date(2025, 1, 31), 0), amount)];
            && Answers(Previous(p), entries, AmountOf(), rows)
            && PreviousColumn(p, rows) < SalesTotal(Previous(p), entries)
  {
    var p := MonthPeriod(2025, 2);
    var q := Previous(p);
    var e := Entry(Moment(Date(2025, 1, 31), 12), amount);
    var rows := [Row(Moment(Date(2025, 1, 31), 0), amount)];
    assert Filter([e], InPeriod(q)) == [e];
    assert Filter([e], InBucket(q, rows[0].bucket)) == [e];
    SumByOne(e, AmountOf());
    assert e in [e] && Truncated(q, e.at) == rows[0].bucket;
    assert Answers(q, [e], AmountOf(), rows);
    assert Key(q, rows[0].bucket) == 31;
    PreviousSeriesConservesIff(p, [e], AmountOf(), rows);
  }
}
