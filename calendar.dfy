/** Proleptic Gregorian calendar dates, for the local-date arithmetic that
    `getDateRangeFilter` performs with `Date.setDate` and the `YYYY-MM-DD`
    rendering of `formatDate` (src/lib/lsa.ts). */
module Calendar {
  import Text

  datatype Date = Date(year: int, month: int, day: int) {
    predicate Valid() {
      1 <= month <= 12 && 1 <= day <= DaysInMonth(year, month)
    }
  }

  predicate IsLeapYear(y: int) {
    (y % 4 == 0 && y % 100 != 0) || y % 400 == 0
  }

  function DaysInMonth(y: int, m: int): (n: int)
    requires 1 <= m <= 12
    ensures 28 <= n <= 31
  {
    if m == 2 then (if IsLeapYear(y) then 29 else 28)
    else if m == 4 || m == 6 || m == 9 || m == 11 then 30
    else 31
  }

  /** Calendar order: `a` is the same day as `b` or an earlier one. */
  predicate NotAfter(a: Date, b: Date) {
    a.year < b.year
    || (a.year == b.year && a.month < b.month)
    || (a.year == b.year && a.month == b.month && a.day <= b.day)
  }

  function YearLength(y: int): (n: int)
    ensures n == 365 || n == 366
  {
    if IsLeapYear(y) then 366 else 365
  }

  /** Days from 1 January of year 0 to 1 January of year `y` (negative
      for earlier years). */
  function DaysBeforeYear(y: int): int
    decreases if y >= 0 then y else -y
  {
    if y == 0 then 0
    else if y > 0 then DaysBeforeYear(y - 1) + YearLength(y - 1)
    else DaysBeforeYear(y + 1) - YearLength(y)
  }

  /** Days of year `y` before the first of month `m`. */
  function DaysBeforeMonth(y: int, m: int): (n: int)
    requires 1 <= m <= 12
    ensures n >= 0
  {
    if m == 1 then 0 else DaysBeforeMonth(y, m - 1) + DaysInMonth(y, m - 1)
  }

  /** The position of a date on the line of days: consecutive days have
      consecutive numbers. */
  function DayNumber(d: Date): int
    requires d.Valid()
  {
    DaysBeforeYear(d.year) + DaysBeforeMonth(d.year, d.month) + d.day - 1
  }

  lemma YearEnd(y: int)
    ensures DaysBeforeMonth(y, 12) + 31 == YearLength(y)
  {
    var feb := DaysInMonth(y, 2);
    assert DaysBeforeMonth(y, 1) == 0;
    assert DaysBeforeMonth(y, 2) == 31;
    assert DaysBeforeMonth(y, 3) == 31 + feb;
    assert DaysBeforeMonth(y, 4) == 31 + feb + 31;
    assert DaysBeforeMonth(y, 5) == 31 + feb + 31 + 30;
    assert DaysBeforeMonth(y, 6) == 31 + feb + 31 + 30 + 31;
    assert DaysBeforeMonth(y, 7) == 31 + feb + 31 + 30 + 31 + 30;
    assert DaysBeforeMonth(y, 8) == 31 + feb + 31 + 30 + 31 + 30 + 31;
    assert DaysBeforeMonth(y, 9) == 31 + feb + 31 + 30 + 31 + 30 + 31 + 31;
    assert DaysBeforeMonth(y, 10) == 31 + feb + 31 + 30 + 31 + 30 + 31 + 31 + 30;
    assert DaysBeforeMonth(y, 11) == 31 + feb + 31 + 30 + 31 + 30 + 31 + 31 + 30 + 31;
    assert DaysBeforeMonth(y, 12) == 31 + feb + 31 + 30 + 31 + 30 + 31 + 31 + 30 + 31 + 30;
  }

  lemma YearStep(y: int)
    ensures DaysBeforeYear(y) == DaysBeforeYear(y - 1) + YearLength(y - 1)
  {
  }

  /** A later month of the same year starts after the whole earlier one. */
  lemma {:induction false} MonthsApart(y: int, m1: int, m2: int)
    requires 1 <= m1 < m2 <= 12
    ensures DaysBeforeMonth(y, m1) + DaysInMonth(y, m1) <= DaysBeforeMonth(y, m2)
  {
    if m1 < m2 - 1 {
      MonthsApart(y, m1, m2 - 1);
    }
  }

  /** A later year starts after the whole earlier one. */
  lemma {:induction false} YearsApart(y1: int, y2: int)
    requires y1 < y2
    ensures DaysBeforeYear(y1) + YearLength(y1) <= DaysBeforeYear(y2)
    decreases y2 - y1
  {
    YearStep(y2);
    if y1 < y2 - 1 {
      YearsApart(y1, y2 - 1);
    }
  }

  /** A valid date lies within its own year. */
  lemma WithinYear(d: Date)
    requires d.Valid()
    ensures DaysBeforeYear(d.year) <= DayNumber(d) < DaysBeforeYear(d.year) + YearLength(d.year)
  {
    if d.month < 12 {
      MonthsApart(d.year, d.month, 12);
    }
    YearEnd(d.year);
  }

  /** Day numbers follow calendar order, so each valid date has its own
      number. */
  lemma DayNumberOrder(a: Date, b: Date)
    requires a.Valid() && b.Valid()
    ensures NotAfter(a, b) <==> DayNumber(a) <= DayNumber(b)
    ensures DayNumber(a) == DayNumber(b) <==> a == b
  {
    if a != b {
      if NotAfter(a, b) {
        StrictlyBefore(a, b);
      } else {
        StrictlyBefore(b, a);
      }
    }
  }

  lemma StrictlyBefore(a: Date, b: Date)
    requires a.Valid() && b.Valid() && NotAfter(a, b) && a != b
    ensures DayNumber(a) < DayNumber(b)
  {
    if a.year < b.year {
      WithinYear(a);
      WithinYear(b);
      YearsApart(a.year, b.year);
    } else if a.month < b.month {
      MonthsApart(a.year, a.month, b.month);
    }
  }

  /** The day before `d` (`d.setDate(d.getDate() - 1)`). */
  function PrevDay(d: Date): (r: Date)
    requires d.Valid()
    ensures r.Valid() && NotAfter(r, d) && r != d
    ensures DayNumber(r) == DayNumber(d) - 1
  {
    YearEnd(d.year - 1);
    YearStep(d.year);
    if d.day > 1 then Date(d.year, d.month, d.day - 1)
    else if d.month > 1 then Date(d.year, d.month - 1, DaysInMonth(d.year, d.month - 1))
    else Date(d.year - 1, 12, 31)
  }

  /** `n` days before `d`: `setDate(getDate() - n)`, which rolls back over
      month and year ends. */
  function SubtractDays(d: Date, n: nat): (r: Date)
    requires d.Valid()
    ensures r.Valid()
    ensures DayNumber(r) == DayNumber(d) - n
  {
    if n == 0 then d else PrevDay(SubtractDays(d, n - 1))
  }

  lemma {:induction false} SubtractDaysNotAfter(d: Date, n: nat)
    requires d.Valid()
    ensures NotAfter(SubtractDays(d, n), d)
    ensures n > 0 ==> SubtractDays(d, n) != d
  {
    if n > 0 {
      SubtractDaysNotAfter(d, n - 1);
      var e := SubtractDays(d, n - 1);
      var r := PrevDay(e);
      assert NotAfter(r, e) && r != e;
    }
  }

  /** `setDate(1)`: the first day of `d`'s month. */
  function FirstOfMonth(d: Date): (r: Date)
    requires d.Valid()
    ensures r.Valid() && NotAfter(r, d) && r.year == d.year && r.month == d.month && r.day == 1
  {
    Date(d.year, d.month, 1)
  }

  /** `formatDate`: the year as `String(year)`, then the month and day
      zero-padded to two digits, separated by `-`. */
  function FormatDate(d: Date): (r: string)
    requires d.Valid()
    ensures |r| == |Text.IntToDecimal(d.year)| + 6
  {
    Text.IntToDecimal(d.year) + "-" + Text.PadTwo(d.month) + "-" + Text.PadTwo(d.day)
  }

  /** The rendering is fixed-width after the year and the month and day can
      be read back from it. */
  lemma FormatDateFields(d: Date)
    requires d.Valid()
    ensures var r := FormatDate(d); var y := Text.IntToDecimal(d.year);
      && r[..|y|] == y && r[|y|] == '-' && r[|y| + 3] == '-'
      && (forall i :: |y| < i < |r| && i != |y| + 3 ==> '0' <= r[i] <= '9')
      && Text.DecimalValue(r[|y| + 1..|y| + 3]) == d.month
      && Text.DecimalValue(r[|y| + 4..]) == d.day
  {
    var r := FormatDate(d);
    var y := Text.IntToDecimal(d.year);
    var mm := Text.PadTwo(d.month);
    var dd := Text.PadTwo(d.day);
    assert r == y + "-" + mm + "-" + dd;
    assert r[|y| + 1..|y| + 3] == mm;
    assert r[|y| + 4..] == dd;
  }
}
