/**
 * A proleptic Gregorian calendar with the semantics of Python's `datetime.date`:
 * ordinals counted from 0001-01-01 (ordinal 1, a Monday), `weekday()` with
 * Monday = 0, comparison field by field, `+ timedelta(days=n)` and
 * `+ relativedelta(months=1)`.  Dates with a year above 9999 are well formed
 * here, but Python cannot represent them: the generators report `DateOverflow`
 * where Python raises.
 */
module Dates {

  datatype Date = Date(year: int, month: int, day: int)

  /** What the generators return: a value, or the error Python raises when a
      date would leave the representable range. */
  datatype Result<T> = Ok(value: T) | DateOverflow

  const MinYear := 1
  const MaxYear := 9999

  /** The last date Python can represent, 9999-12-31. */
  const MaxDate := Date(MaxYear, 12, 31)

  predicate IsLeap(y: int) {
    y % 4 == 0 && (y % 100 != 0 || y % 400 == 0)
  }

  function DaysInMonth(y: int, m: int): (n: int)
    requires 1 <= m <= 12
    ensures 28 <= n <= 31
    ensures m == 2 ==> n == (if IsLeap(y) then 29 else 28)
  {
    if m == 2 then (if IsLeap(y) then 29 else 28)
    else if m == 4 || m == 6 || m == 9 || m == 11 then 30
    else 31
  }

  function DaysInYear(y: int): int {
    if IsLeap(y) then 366 else 365
  }

  /** A calendar date (any year from 1 on). */
  predicate Valid(d: Date) {
    MinYear <= d.year && 1 <= d.month <= 12 && 1 <= d.day <= DaysInMonth(d.year, d.month)
  }

  /** A date Python's `date` type can hold. */
  predicate Representable(d: Date) {
    Valid(d) && d.year <= MaxYear
  }

  /** Days in the year before the first of month `m`. */
  function DaysBeforeMonth(y: int, m: int): int
    requires 1 <= m <= 12
  {
    var leap := if m > 2 && IsLeap(y) then 1 else 0;
    leap + (
      if m <= 6 then
        (if m == 1 then 0 else if m == 2 then 31 else if m == 3 then 59
         else if m == 4 then 90 else if m == 5 then 120 else 151)
      else
        (if m == 7 then 181 else if m == 8 then 212 else if m == 9 then 243
         else if m == 10 then 273 else if m == 11 then 304 else 334))
  }

  /** Days in all years before year `y`. */
  function DaysBeforeYear(y: int): (n: int)
    requires y >= 1
    ensures n >= 0
  {
    if y == 1 then 0 else DaysBeforeYear(y - 1) + DaysInYear(y - 1)
  }

  /** Python's `date.toordinal()`: 0001-01-01 is day 1. */
  function Ordinal(d: Date): (o: int)
    requires Valid(d)
    ensures 1 <= o
    ensures DaysBeforeYear(d.year) < o <= DaysBeforeYear(d.year + 1)
  {
    DaysBeforeYear(d.year) + DaysBeforeMonth(d.year, d.month) + d.day
  }

  /** Python's `date.weekday()`: Monday is 0, Saturday 5, Sunday 6. */
  function Weekday(d: Date): (w: int)
    requires Valid(d)
    ensures 0 <= w < 7
  {
    (Ordinal(d) + 6) % 7
  }

  /** Date comparison as Python does it: year, then month, then day. */
  predicate LessEq(a: Date, b: Date) {
    a.year < b.year
    || (a.year == b.year && (a.month < b.month || (a.month == b.month && a.day <= b.day)))
  }

  predicate Less(a: Date, b: Date) {
    LessEq(a, b) && a != b
  }

  /** A rank that grows with the calendar order (see `RankOrder`); cheaper to reason
      with than the ordinal. It is the termination measure of the day-by-day walks. */
  function Rank(d: Date): int {
    372 * d.year + 31 * d.month + d.day
  }

  lemma RankOrder(a: Date, b: Date)
    requires Valid(a) && Valid(b)
    ensures LessEq(a, b) <==> Rank(a) <= Rank(b)
  {
  }

  /** `d + timedelta(days=1)`. */
  function Succ(d: Date): (e: Date)
    requires Valid(d)
    ensures Valid(e) && Rank(e) > Rank(d)
  {
    if d.day < DaysInMonth(d.year, d.month) then Date(d.year, d.month, d.day + 1)
    else if d.month < 12 then Date(d.year, d.month + 1, 1)
    else Date(d.year + 1, 1, 1)
  }

  /** `d + timedelta(days=n)` for n >= 0. */
  function AddDays(d: Date, n: nat): (e: Date)
    requires Valid(d)
    ensures Valid(e) && LessEq(d, e)
    decreases n
  {
    if n == 0 then d
    else
      RankOrder(d, Succ(d));
      AddDays(Succ(d), n - 1)
  }

  /** The month a date falls in, counted from year 0. */
  function MonthIndex(d: Date): int {
    d.year * 12 + d.month - 1
  }

  /** `date(d.year, d.month, 1)`. */
  function FirstOfMonth(d: Date): (f: Date)
    ensures f.day == 1 && MonthIndex(f) == MonthIndex(d)
    ensures Valid(d) ==> Valid(f) && LessEq(f, d)
  {
    Date(d.year, d.month, 1)
  }

  /** `d + relativedelta(months=1)`: the same day of the next month, clamped to
      that month's length. */
  function AddMonth(d: Date): (e: Date)
    requires Valid(d)
    ensures Valid(e)
    ensures MonthIndex(e) == MonthIndex(d) + 1
    ensures e.day <= d.day && (d.day <= 28 ==> e.day == d.day)
    ensures e.day == d.day || (d.day > DaysInMonth(e.year, e.month) && e.day == DaysInMonth(e.year, e.month))
  {
    var y := if d.month == 12 then d.year + 1 else d.year;
    var m := if d.month == 12 then 1 else d.month + 1;
    var n := DaysInMonth(y, m);
    Date(y, m, if d.day <= n then d.day else n)
  }

  // ---------------------------------------------------------------------------
  // Ordinals

  lemma MonthStep(y: int, m: int)
    requires 1 <= m < 12
    ensures DaysBeforeMonth(y, m + 1) == DaysBeforeMonth(y, m) + DaysInMonth(y, m)
  {
  }

  lemma YearEnd(y: int)
    ensures DaysBeforeMonth(y, 12) + DaysInMonth(y, 12) == DaysInYear(y)
  {
  }

  /** From year y to year y + 1, the number of multiples of k passed grows by one
      exactly when k divides y. */
  lemma DivStep4(y: int)
    requires y >= 1
    ensures y / 4 - (y - 1) / 4 == (if y % 4 == 0 then 1 else 0)
  {
  }

  lemma DivStep100(y: int)
    requires y >= 1
    ensures y / 100 - (y - 1) / 100 == (if y % 100 == 0 then 1 else 0)
  {
  }

  lemma DivStep400(y: int)
    requires y >= 1
    ensures y / 400 - (y - 1) / 400 == (if y % 400 == 0 then 1 else 0)
  {
  }

  lemma YearStep(y: int)
    requires y >= 1
    ensures DaysBeforeYear(y + 1) == DaysBeforeYear(y) + DaysInYear(y)
  {
  }

  /** The closed form Python's `toordinal` uses for the days before a year. */
  lemma {:induction false} DaysBeforeYearClosedForm(y: int)
    requires y >= 1
    ensures DaysBeforeYear(y) == 365 * (y - 1) + (y - 1) / 4 - (y - 1) / 100 + (y - 1) / 400
    decreases y
  {
    if y > 1 {
      var p := y - 1;
      DaysBeforeYearClosedForm(p);
      DivStep4(p);
      DivStep100(p);
      DivStep400(p);
      Divisibility(p);
      var a, b, c := p / 4 - (p - 1) / 4, p / 100 - (p - 1) / 100, p / 400 - (p - 1) / 400;
      assert a - b + c == (if IsLeap(p) then 1 else 0);
    }
  }

  lemma Divisibility(y: int)
    ensures y % 400 == 0 ==> y % 100 == 0
    ensures y % 100 == 0 ==> y % 4 == 0
  {
    if y % 400 == 0 {
      Multiple400(y);
    }
    if y % 100 == 0 {
      Multiple100(y);
    }
  }

  lemma Multiple400(y: int)
    requires y % 400 == 0
    ensures y % 100 == 0
  {
    var q := y / 400;
    assert y == 400 * q;
    assert y == 100 * (4 * q) + 0;
  }

  lemma Multiple100(y: int)
    requires y % 100 == 0
    ensures y % 4 == 0
  {
    var q := y / 100;
    assert y == 100 * q;
    assert y == 4 * (25 * q) + 0;
  }

  /** The successor day has the next ordinal. */
  lemma SuccOrdinal(d: Date)
    requires Valid(d)
    ensures Ordinal(Succ(d)) == Ordinal(d) + 1
  {
    if d.day < DaysInMonth(d.year, d.month) {
    } else if d.month < 12 {
      MonthStep(d.year, d.month);
    } else {
      YearEnd(d.year);
      YearStep(d.year);
    }
  }

  /** Adding n days adds n to the ordinal. */
  lemma {:induction false} AddDaysOrdinal(d: Date, n: nat)
    requires Valid(d)
    ensures Ordinal(AddDays(d, n)) == Ordinal(d) + n
    decreases n
  {
    if n > 0 {
      SuccOrdinal(d);
      AddDaysOrdinal(Succ(d), n - 1);
    }
  }

  /** Adding n days moves the weekday n steps round the week. */
  lemma AddDaysWeekday(d: Date, n: nat)
    requires Valid(d)
    ensures Weekday(AddDays(d, n)) == (Weekday(d) + n) % 7
  {
    AddDaysOrdinal(d, n);
    WeekdayShift(d, AddDays(d, n), n);
  }

  /** A date n days later in the ordinal count is n steps further round the week. */
  lemma WeekdayShift(a: Date, b: Date, n: nat)
    requires Valid(a) && Valid(b) && Ordinal(b) == Ordinal(a) + n
    ensures Weekday(b) == (Weekday(a) + n) % 7
  {
    ModShift(Ordinal(a) + 6, n);
  }

  lemma ModShift(o: int, n: nat)
    ensures (o + n) % 7 == (o % 7 + n) % 7
  {
  }

  lemma {:induction false} DaysBeforeMonthMonotone(y: int, m1: int, m2: int)
    requires 1 <= m1 < m2 <= 12
    ensures DaysBeforeMonth(y, m1) + DaysInMonth(y, m1) <= DaysBeforeMonth(y, m2)
    decreases m2 - m1
  {
    MonthStep(y, m1);
    if m1 + 1 < m2 {
      DaysBeforeMonthMonotone(y, m1 + 1, m2);
    }
  }

  lemma {:induction false} DaysBeforeYearMonotone(y1: int, y2: int)
    requires 1 <= y1 < y2
    ensures DaysBeforeYear(y1) + DaysInYear(y1) <= DaysBeforeYear(y2)
    decreases y2 - y1
  {
    YearStep(y1);
    if y1 + 1 < y2 {
      DaysBeforeYearMonotone(y1 + 1, y2);
    }
  }

  lemma WithinYear(d: Date)
    requires Valid(d)
    ensures DaysBeforeMonth(d.year, d.month) + d.day <= DaysInYear(d.year)
  {
    YearEnd(d.year);
    if d.month < 12 {
      DaysBeforeMonthMonotone(d.year, d.month, 12);
    }
  }

  /** Python's field-by-field comparison agrees with comparing ordinals. */
  lemma OrdinalOrder(a: Date, b: Date)
    requires Valid(a) && Valid(b)
    ensures LessEq(a, b) <==> Ordinal(a) <= Ordinal(b)
    ensures a == b <==> Ordinal(a) == Ordinal(b)
  {
    if Less(a, b) {
      StrictlyEarlier(a, b);
    } else if Less(b, a) {
      StrictlyEarlier(b, a);
    }
  }

  lemma StrictlyEarlier(a: Date, b: Date)
    requires Valid(a) && Valid(b)
    requires Less(a, b)
    ensures Ordinal(a) < Ordinal(b)
  {
    if a.year < b.year {
      WithinYear(a);
      DaysBeforeYearMonotone(a.year, b.year);
    } else if a.month < b.month {
      DaysBeforeMonthMonotone(a.year, a.month, b.month);
    }
  }

  /** Comparison is a total order. */
  lemma LessEqTotal(a: Date, b: Date)
    ensures LessEq(a, b) || LessEq(b, a)
    ensures LessEq(a, b) && LessEq(b, a) ==> a == b
  {
  }

  lemma LessEqTrans(a: Date, b: Date, c: Date)
    requires LessEq(a, b) && LessEq(b, c)
    ensures LessEq(a, c)
  {
  }

  /** No date lies strictly between a date and its successor. */
  lemma {:induction false} SuccIsNext(d: Date, e: Date)
    requires Valid(d) && Valid(e)
    ensures Less(d, Succ(d))
    ensures Less(d, e) <==> LessEq(Succ(d), e)
  {
    SuccOrdinal(d);
    OrdinalOrder(d, Succ(d));
    OrdinalOrder(d, e);
    OrdinalOrder(Succ(d), e);
  }

  /** Only 9999-12-31 has no representable successor. */
  lemma SuccRepresentable(d: Date)
    requires Representable(d) && d != MaxDate
    ensures Representable(Succ(d))
  {
  }

  /** Every representable date is at most 9999-12-31. */
  lemma MaxDateIsLast(d: Date)
    requires Representable(d)
    ensures LessEq(d, MaxDate)
  {
  }
}
