/** Proleptic Gregorian dates, as Python's `datetime.date` and `relativedelta` use them.

    A month is one integer, `12 * year + (month number - 1)`; a date is a month and a day
    of that month, so replacing the day or adding months needs no search. */
module Calendar {
  type Month = int

  datatype Date = Date(month: Month, day: int) {
    predicate Valid() {
      1 <= day <= DaysIn(month)
    }

    /** Chronological order. */
    predicate Before(other: Date) {
      month < other.month || (month == other.month && day < other.day)
    }

    predicate NotAfter(other: Date) {
      month < other.month || (month == other.month && day <= other.day)
    }
  }

  predicate Leap(year: int) {
    year % 4 == 0 && (year % 100 != 0 || year % 400 == 0)
  }

  function DaysIn(m: Month): (days: int)
    ensures 28 <= days <= 31
  {
    var number := m % 12 + 1;
    if number == 2 then (if Leap(m / 12) then 29 else 28)
    else if number == 4 || number == 6 || number == 9 || number == 11 then 30
    else 31
  }

  function First(m: Month): Date { Date(m, 1) }

  function Last(m: Month): Date { Date(m, DaysIn(m)) }

  /** Days before the first of January of a year. */
  function DaysBeforeYear(year: int): int {
    365 * (year - 1) + (year - 1) / 4 - (year - 1) / 100 + (year - 1) / 400
  }

  /** Days between the first of January and the first of the given month of the same year. */
  function DaysBefore(m: Month): int {
    var common := [0, 31, 59, 90, 120, 151, 181, 212, 243, 273, 304, 334][m % 12];
    if m % 12 >= 2 && Leap(m / 12) then common + 1 else common
  }

  /** `date.toordinal` of the first of a month. */
  function MonthStart(m: Month): int {
    DaysBeforeYear(m / 12) + DaysBefore(m) + 1
  }

  function Ordinal(d: Date): int {
    MonthStart(d.month) + d.day - 1
  }

  lemma Fourth(y: int)
    ensures y / 4 - (y - 1) / 4 == if y % 4 == 0 then 1 else 0
  {
  }

  lemma Hundredth(y: int)
    ensures y / 100 - (y - 1) / 100 == if y % 100 == 0 then 1 else 0
  {
  }

  lemma FourHundredth(y: int)
    ensures y / 400 - (y - 1) / 400 == if y % 400 == 0 then 1 else 0
  {
  }

  lemma MultipleOf100(y: int)
    ensures y % 100 == 0 ==> y % 4 == 0
  {
    assert y == 100 * (y / 100) + y % 100;
  }

  lemma MultipleOf400(y: int)
    ensures y % 400 == 0 ==> y % 100 == 0
  {
    assert y == 400 * (y / 400) + y % 400;
  }

  lemma YearsAdjacent(y: int)
    ensures DaysBeforeYear(y + 1) == DaysBeforeYear(y) + if Leap(y) then 366 else 365
  {
    Fourth(y);
    Hundredth(y);
    FourHundredth(y);
    assert y % 400 == 0 ==> y % 100 == 0 by { MultipleOf400(y); }
    assert y % 100 == 0 ==> y % 4 == 0 by { MultipleOf100(y); }
  }

  /** Consecutive months are adjacent intervals of days. */
  lemma MonthsAdjacent(m: Month)
    ensures MonthStart(m + 1) == MonthStart(m) + DaysIn(m)
  {
    var y, k := m / 12, m % 12;
    assert m == 12 * y + k;
    if k == 11 {
      YearsAdjacent(y);
      assert (m + 1) / 12 == y + 1 && (m + 1) % 12 == 0;
    } else {
      assert (m + 1) / 12 == y && (m + 1) % 12 == k + 1;
    }
  }

  lemma {:induction false} MonthsOrdered(a: Month, b: Month)
    requires a <= b
    ensures MonthStart(a) + 28 * (b - a) <= MonthStart(b)
    decreases b - a
  {
    hide MonthStart, DaysIn;
    if a < b {
      MonthsAdjacent(b - 1);
      MonthsOrdered(a, b - 1);
    }
  }

  lemma EarlierMonthEnds(a: Month, b: Month)
    requires a < b
    ensures MonthStart(a) + DaysIn(a) <= MonthStart(b)
  {
    MonthsAdjacent(a);
    MonthsOrdered(a + 1, b);
  }

  /** The calendar order is the order of the day numbers. */
  lemma OrdinalOrder(a: Date, b: Date)
    requires a.Valid() && b.Valid()
    ensures a.Before(b) <==> Ordinal(a) < Ordinal(b)
  {
    var x, y := MonthStart(a.month), MonthStart(b.month);
    if a.month < b.month {
      EarlierMonthEnds(a.month, b.month);
    } else if b.month < a.month {
      EarlierMonthEnds(b.month, a.month);
    }
    assert Ordinal(a) == x + a.day - 1 && Ordinal(b) == y + b.day - 1;
  }

  /** `date + timedelta(days=n)`. */
  function PlusDays(d: Date, n: int): Date
    requires d.Valid()
    decreases if n < 0 then -n else n
  {
    if 1 <= d.day + n <= DaysIn(d.month) then Date(d.month, d.day + n)
    else if n > 0 then PlusDays(First(d.month + 1), n - (DaysIn(d.month) - d.day + 1))
    else PlusDays(Last(d.month - 1), n + d.day)
  }

  /** `date + relativedelta(months=n)`: the day is cut to the length of the new month. */
  function PlusMonths(d: Date, n: int): Date {
    Date(d.month + n, if d.day <= DaysIn(d.month + n) then d.day else DaysIn(d.month + n))
  }

  lemma {:induction false} PlusDaysOrdinal(d: Date, n: int)
    requires d.Valid()
    ensures PlusDays(d, n).Valid()
    ensures Ordinal(PlusDays(d, n)) == Ordinal(d) + n
    decreases if n < 0 then -n else n
  {
    hide MonthStart;
    if 1 <= d.day + n <= DaysIn(d.month) {
    } else if n > 0 {
      MonthsAdjacent(d.month);
      PlusDaysOrdinal(First(d.month + 1), n - (DaysIn(d.month) - d.day + 1));
    } else {
      MonthsAdjacent(d.month - 1);
      PlusDaysOrdinal(Last(d.month - 1), n + d.day);
    }
  }
}
