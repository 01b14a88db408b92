/** Which entries stand at which point of the revenue histogram
    (apps/dashboard/services/owner_dashboard_overview.py). */
module RevenuePoints {
  import opened Arithmetic
  import opened Calendar
  import opened RevenueSeries

  /** A time of the period belongs to index k: month k of a year, day k of a month, hour k of a single day, and
      otherwise the k-th day after the start. */
  predicate FallsOn(p: Period, m: Moment, k: int)
    requires Resolved(p)
  {
    && m.Valid() && p.start.UpTo(m.date) && m.date.Before(p.end)
    && match p.kind
       case Year => m.date.month == k
       case Month => m.date.day == k
       case Day => m.hour == k
       case Range =>
         if NextDay(p.start) == p.end then m.hour == k else Bounded(p); Ordinal(m.date) == Ordinal(p.start) + k
  }

  /** The entries of the period that belong to index k. */
  function On(p: Period, k: int): Entry -> bool
    requires Resolved(p)
  {
    (e: Entry) => FallsOn(p, e.at, k)
  }

  lemma SingleDayIff(p: Period)
    requires Resolved(p)
    ensures SingleDay(p) <==> NextDay(p.start) == p.end
  {
    Bounded(p);
    OrdinalOrder(NextDay(p.start), p.end);
  }

  lemma KeyMeans(p: Period, m: Moment, k: int)
    requires Resolved(p) && Within(p, m)
    ensures Truncated(p, m).Valid()
    ensures FallsOn(p, m, k) <==> Key(p, Truncated(p, m)) == k
  {
    SingleDayIff(p);
  }

  // ----- What the dictionary holds -----

  lemma {:induction false} CellMapAt(cells: seq<Cell>, i: nat)
    requires DistinctCells(cells) && i < |cells|
    ensures Get(CellMap(cells), cells[i].key) == cells[i].total
  {
    var n := |cells| - 1;
    if i < n {
      CellMapAt(cells[..n], i);
    }
  }

  /** The entries of a row are those of its index. */
  lemma {:induction false} RowOnIndex(p: Period, entries: seq<Entry>, bucket: Moment, k: int)
    requires Resolved(p) && AllWithin(p, entries) && bucket.Valid() && Key(p, bucket) == k
    requires exists d :: d in entries && Truncated(p, d.at) == bucket
    ensures Filter(entries, InBucket(p, bucket)) == Filter(entries, On(p, k))
  {
    var d :| d in entries && Truncated(p, d.at) == bucket;
    forall e | e in entries
      ensures InBucket(p, bucket)(e) == On(p, k)(e)
    {
      KeyMeans(p, e.at, k);
      if On(p, k)(e) {
        KeyInjective(p, d.at, e.at);
      }
    }
    FilterAgrees(entries, InBucket(p, bucket), On(p, k));
  }

  lemma {:induction false} NothingOnIndex(p: Period, entries: seq<Entry>, f: Entry -> int, rows: seq<Row>, k: int)
    requires Resolved(p) && AllWithin(p, entries) && ValidBuckets(rows) && Grouped(p, entries, f, rows)
    requires forall i | 0 <= i < |rows| :: Key(p, rows[i].bucket) != k
    ensures Filter(entries, On(p, k)) == []
  {
    forall e | e in entries
      ensures !On(p, k)(e)
    {
      KeyMeans(p, e.at, k);
      var i :| 0 <= i < |rows| && rows[i].bucket == Truncated(p, e.at);
    }
    FilterNone(entries, On(p, k));
  }

  lemma {:induction false} DictionaryAt(p: Period, entries: seq<Entry>, f: Entry -> int, rows: seq<Row>, k: int)
    requires Resolved(p) && AllWithin(p, entries)
    requires ValidBuckets(rows) && Grouped(p, entries, f, rows) && Inhabited(p, entries, rows)
    ensures Get(KeyMap(p, rows), k) == SumBy(Filter(entries, On(p, k)), f)
  {
    if i :| 0 <= i < |rows| && Key(p, rows[i].bucket) == k {
      RowAt(p, entries, f, rows, i);
      RowOnIndex(p, entries, rows[i].bucket, k);
    } else {
      NoRowAt(p, rows, k);
      NothingOnIndex(p, entries, f, rows, k);
    }
  }

  lemma RowAt(p: Period, entries: seq<Entry>, f: Entry -> int, rows: seq<Row>, i: nat)
    requires Resolved(p) && AllWithin(p, entries) && i < |rows|
    requires ValidBuckets(rows) && Grouped(p, entries, f, rows) && Inhabited(p, entries, rows)
    ensures Get(KeyMap(p, rows), Key(p, rows[i].bucket)) == rows[i].total
  {
    RowsFillCells(p, entries, f, rows);
    CellMapAt(Cells(p, rows), i);
  }

  lemma NoRowAt(p: Period, rows: seq<Row>, k: int)
    requires Resolved(p) && ValidBuckets(rows)
    requires forall i | 0 <= i < |rows| :: Key(p, rows[i].bucket) != k
    ensures Get(KeyMap(p, rows), k) == 0
  {
    CellMapDomain(Cells(p, rows), k);
  }

  /** At index k the dictionary of a period has the sum over exactly the period's entries that belong to k. */
  lemma {:induction false} AnsweredAt(p: Period, entries: seq<Entry>, f: Entry -> int, rows: seq<Row>, k: int)
    requires Resolved(p) && Answers(p, entries, f, rows)
    ensures Get(KeyMap(p, rows), k) == SumBy(Filter(entries, On(p, k)), f)
  {
    DictionaryAt(p, Filter(entries, InPeriod(p)), f, rows, k);
    FilterWithin(entries, InPeriod(p), On(p, k));
  }

  /** Every point of a series, on whatever blueprint it is drawn, shows the sales and counts the orders that belong to
      its index. */
  lemma {:induction false} PointsShowTheirEntries(
      p: Period, payments: seq<Entry>, orders: seq<Entry>, salesRows: seq<Row>, ordersRows: seq<Row>,
      points: seq<nat>, series: seq<Point>, n: nat)
    requires Resolved(p)
    requires Answers(p, payments, AmountOf(), salesRows) && Answers(p, orders, OneOf(), ordersRows)
    requires SeriesOf(p, salesRows, ordersRows, points, series) && n < |points|
    ensures |series| == |points| && series[n].index == points[n]
    ensures series[n].sales == SumBy(Filter(payments, On(p, points[n])), AmountOf())
    ensures series[n].orders == |Filter(orders, On(p, points[n]))|
  {
    assert PointOf(KeyMap(p, salesRows), KeyMap(p, ordersRows), points[n], series[n]);
    AnsweredAt(p, payments, AmountOf(), salesRows, points[n]);
    AnsweredAt(p, orders, OneOf(), ordersRows, points[n]);
    CountIsSum(Filter(orders, On(p, points[n])));
  }

  // ----- The blueprint -----

  lemma DayOfRange(p: Period, k: nat) returns (date: Date)
    requires Resolved(p) && p.start.Valid() && k < Span(p)
    ensures date.Valid() && Ordinal(date) == Ordinal(p.start) + k && p.start.UpTo(date) && date.Before(p.end)
  {
    Bounded(p);
    FirstOrdinal(p.start);
    date := DaysBack(p.end, Span(p) - k);
    OrdinalOrder(p.start, date);
    OrdinalOrder(date, p.end);
  }

  /** A time that belongs to an index of the blueprint. */
  lemma TimeOn(p: Period, k: nat) returns (m: Moment)
    requires Resolved(p) && FirstIndex(p) <= k < FirstIndex(p) + IndexCount(p)
    ensures FallsOn(p, m, k)
  {
    SingleDayIff(p);
    if p.kind == Year {
      m := Moment(Date(p.start.year, k, 1), 0);
    } else if ByHour(p) {
      m := Moment(p.start, k);
    } else if p.kind == Month {
      m := Moment(Date(p.start.year, p.start.month, k), 0);
    } else {
      var date := DayOfRange(p, k);
      m := Moment(date, 0);
    }
  }

  /** A period's blueprint has, in order, exactly the indices that times of the period belong to. */
  lemma BlueprintIsExact(p: Period, k: int)
    requires Resolved(p)
    ensures k in Blueprint(p) <==> exists m :: FallsOn(p, m, k)
    ensures forall i, j | 0 <= i < j < |Blueprint(p)| :: Blueprint(p)[i] < Blueprint(p)[j]
  {
    if k in Blueprint(p) {
      var m := TimeOn(p, k);
    }
    if m :| FallsOn(p, m, k) {
      KeyMeans(p, m, k);
      KeyInBlueprint(p, m);
      assert Blueprint(p)[k - FirstIndex(p)] == k;
    }
  }
}
