/** Civil dates: order, ordinals, and month and year addition with end-of-month clamping. */
module Calendar {

  datatype Date = Date(year: nat, month: nat, day: nat) {
    predicate Valid() { 1 <= month <= 12 && 1 <= day <= DaysIn(year, month) && year >= 1 }

    predicate Before(other: Date) {
      year < other.year
      || (year == other.year && (month < other.month || (month == other.month && day < other.day)))
    }

    predicate UpTo(other: Date) { this == other || Before(other) }
  }

  predicate Leap(year: nat) {
    year % 4 == 0 && (year % 100 != 0 || year % 400 == 0)
  }

  function DaysIn(year: nat, month: nat): nat {
    if month == 2 then if Leap(year) then 29 else 28
    else if month == 4 || month == 6 || month == 9 || month == 11 then 30
    else 31
  }

  function Clamp(year: nat, month: nat, day: nat): Date {
    Date(year, month, if day <= DaysIn(year, month) then day else DaysIn(year, month))
  }

  /** value + relativedelta(months=1) */
  function AddMonth(date: Date): Date {
    if date.month == 12 then Clamp(date.year + 1, 1, date.day) else Clamp(date.year, date.month + 1, date.day)
  }

  /** value + relativedelta(years=1) */
  function AddYear(date: Date): Date {
    Clamp(date.year + 1, date.month, date.day)
  }

  lemma PeriodsAdvance(date: Date)
    requires date.Valid()
    ensures AddMonth(date).Valid() && date.Before(AddMonth(date))
    ensures AddYear(date).Valid() && date.Before(AddYear(date))
    ensures AddMonth(date).UpTo(AddYear(date))
  {
  }

  /** b is n months after a, on the same day of the month, or on the last one if that month is too short. */
  ghost predicate MonthsLater(a: Date, b: Date, n: nat) {
    && b.Valid() && 12 * b.year + b.month == 12 * a.year + a.month + n
    && (b.day == a.day || (b.day < a.day && b.day == DaysIn(b.year, b.month)))
  }

  /** A period is a month or twelve of them, and there is one such day. */
  lemma PeriodsAreMonths(date: Date, later: Date)
    requires date.Valid()
    ensures MonthsLater(date, later, 1) <==> later == AddMonth(date)
    ensures MonthsLater(date, later, 12) <==> later == AddYear(date)
  {
  }

  /** Days before 1 January of the year, counted from year 1. */
  function DaysBeforeYear(year: nat): int
    requires year >= 1
  {
    var y := year - 1;
    y * 365 + y / 4 - y / 100 + y / 400
  }

  function DaysBeforeMonth(year: nat, month: nat): nat
    requires 1 <= month <= 13
  {
    if month == 1 then 0 else DaysBeforeMonth(year, month - 1) + DaysIn(year, month - 1)
  }

  /** date.toordinal() */
  function Ordinal(date: Date): int
    requires date.Valid()
  {
    DaysBeforeYear(date.year) + DaysBeforeMonth(date.year, date.month) + date.day
  }

  function YearLength(year: nat): nat {
    if Leap(year) then 366 else 365
  }

  lemma YearStep(year: nat)
    requires year >= 1
    ensures DaysBeforeYear(year + 1) == DaysBeforeYear(year) + YearLength(year)
  {
    Fourths(year);
    Hundredths(year);
    FourHundredths(year);
  }

  lemma Fourths(year: nat)
    requires year >= 1
    ensures year / 4 == (year - 1) / 4 + if year % 4 == 0 then 1 else 0
  {
  }

  lemma Hundredths(year: nat)
    requires year >= 1
    ensures year / 100 == (year - 1) / 100 + if year % 100 == 0 then 1 else 0
    ensures year % 100 == 0 ==> year % 4 == 0
  {
  }

  lemma FourHundredths(year: nat)
    requires year >= 1
    ensures year / 400 == (year - 1) / 400 + if year % 400 == 0 then 1 else 0
    ensures year % 400 == 0 ==> year % 100 == 0
  {
  }

  lemma {:induction false} MonthsFillYear(year: nat)
    ensures DaysBeforeMonth(year, 13) == YearLength(year)
  {
    assert DaysBeforeMonth(year, 2) == 31;
    assert DaysBeforeMonth(year, 4) == 31 + DaysIn(year, 2) + 31;
    assert DaysBeforeMonth(year, 6) == 31 + DaysIn(year, 2) + 31 + 30 + 31;
    assert DaysBeforeMonth(year, 8) == 31 + DaysIn(year, 2) + 31 + 30 + 31 + 30 + 31;
    assert DaysBeforeMonth(year, 10) == 31 + DaysIn(year, 2) + 31 + 30 + 31 + 30 + 31 + 31 + 30;
    assert DaysBeforeMonth(year, 12) == 31 + DaysIn(year, 2) + 31 + 30 + 31 + 30 + 31 + 31 + 30 + 31 + 30;
  }

  lemma {:induction false} MonthsMonotone(year: nat, m: nat, n: nat)
    requires 1 <= m <= n <= 13
    ensures DaysBeforeMonth(year, m) <= DaysBeforeMonth(year, n)
    ensures m < n ==> DaysBeforeMonth(year, m) + DaysIn(year, m) <= DaysBeforeMonth(year, n)
  {
    if m < n - 1 {
      MonthsMonotone(year, m, n - 1);
    }
  }

  lemma {:induction false} YearsMonotone(a: nat, b: nat)
    requires 1 <= a < b
    ensures DaysBeforeYear(a) + YearLength(a) <= DaysBeforeYear(b)
  {
    YearStep(b - 1);
    if a < b - 1 {
      YearsMonotone(a, b - 1);
    }
  }

  /** Ordinals follow the civil order, so different dates have different ordinals. */
  lemma OrdinalOrder(a: Date, b: Date)
    requires a.Valid() && b.Valid()
    ensures a.Before(b) <==> Ordinal(a) < Ordinal(b)
    ensures a == b <==> Ordinal(a) == Ordinal(b)
  {
    if a.Before(b) {
      OrdinalGrows(a, b);
    } else if b.Before(a) {
      OrdinalGrows(b, a);
    }
  }

  lemma OrdinalGrows(a: Date, b: Date)
    requires a.Valid() && b.Valid() && a.Before(b)
    ensures Ordinal(a) < Ordinal(b)
  {
    if a.year < b.year {
      YearsMonotone(a.year, b.year);
      MonthsMonotone(a.year, a.month, 13);
      if a.month < 13 { MonthsFillYear(a.year); }
      MonthsMonotone(b.year, 1, b.month);
    } else if a.month < b.month {
      MonthsMonotone(a.year, a.month, b.month);
    }
  }
}
