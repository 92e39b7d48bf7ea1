/**
 * The working-day calendar shared by the daily and the monthly generator:
 * `is_holiday_or_weekend` and `generate_working_days`.
 */
module Calendar {
  import opened Dates

  /** The fixed Russian holidays as (day, month) pairs, in the source's order.
      7 January is listed twice (once among the New Year days, once as Christmas). */
  const Holidays: seq<(int, int)> := [
    (1, 1), (2, 1), (3, 1), (4, 1), (5, 1), (6, 1), (7, 1), (8, 1),
    (7, 1),
    (23, 2),
    (8, 3),
    (1, 5),
    (9, 5),
    (12, 6),
    (4, 11)
  ]

  /** `dt.date(year, month, day)` for the k-th listed holiday. */
  function HolidayDate(year: int, k: int): (h: Date)
    requires year >= MinYear && 0 <= k < |Holidays|
    ensures Valid(h) && h.year == year
  {
    Date(year, Holidays[k].1, Holidays[k].0)
  }

  predicate OnWeekend(d: Date): (b: bool)
    requires Valid(d)
    ensures b <==> Weekday(d) == 5 || Weekday(d) == 6
  {
    Weekday(d) >= 5
  }

  /** The "next workday" of a holiday on a weekend, computed as
      `holiday + timedelta(days=7 - weekday + 1)`. */
  function ShiftedDate(h: Date): (r: Date)
    requires Valid(h) && OnWeekend(h)
    ensures Valid(r) && Ordinal(r) == Ordinal(h) + 8 - Weekday(h)
  {
    AddDaysOrdinal(h, 7 - Weekday(h) + 1);
    AddDays(h, 7 - Weekday(h) + 1)
  }

  /** The (day, month) of d is on the holiday list. */
  predicate Listed(d: Date): (b: bool)
    ensures b <==> (d.month == 1 && 1 <= d.day <= 8)
                   || (d.month == 2 && d.day == 23) || (d.month == 3 && d.day == 8)
                   || (d.month == 5 && (d.day == 1 || d.day == 9))
                   || (d.month == 6 && d.day == 12) || (d.month == 11 && d.day == 4)
  {
    (d.day, d.month) in Holidays
  }

  /** d is the shifted date of the k-th listed holiday of d's year, and that holiday fell on a weekend. */
  predicate ShiftHits(d: Date, k: int)
    requires Valid(d) && 0 <= k < |Holidays|
  {
    var h := HolidayDate(d.year, k);
    OnWeekend(h) && d == ShiftedDate(h)
  }

  /** Reference definition: d is the shifted date of some listed holiday of its year. */
  ghost predicate IsShiftedHoliday(d: Date)
    requires Valid(d)
  {
    exists k :: 0 <= k < |Holidays| && ShiftHits(d, k)
  }

  /** The scan over the holiday list, from position k on. */
  function ShiftMatchFrom(d: Date, k: nat): (r: bool)
    requires Valid(d) && k <= |Holidays|
    ensures r <==> exists j :: k <= j < |Holidays| && ShiftHits(d, j)
    decreases |Holidays| - k
  {
    if k == |Holidays| then false
    else ShiftHits(d, k) || ShiftMatchFrom(d, k + 1)
  }

  /** `is_holiday_or_weekend`: a weekend day, a listed holiday, or the shifted date
      of a listed holiday of the same year that fell on a weekend. */
  function IsHolidayOrWeekend(d: Date): (r: bool)
    requires Valid(d)
    ensures r <==> OnWeekend(d) || Listed(d) || IsShiftedHoliday(d)
  {
    if Weekday(d) >= 5 then true
    else if (d.day, d.month) in Holidays then true
    else ShiftMatchFrom(d, 0)
  }

  // ---------------------------------------------------------------------------
  // The shift rule

  /** A holiday on a Saturday is shifted by three days, one on a Sunday by two,
      and either way the shifted date is a Tuesday. */
  lemma ShiftedIsTuesday(h: Date)
    requires Valid(h) && OnWeekend(h)
    ensures ShiftedDate(h) == AddDays(h, if Weekday(h) == 5 then 3 else 2)
    ensures Weekday(ShiftedDate(h)) == 1
  {
    AddDaysWeekday(h, 7 - Weekday(h) + 1);
  }

  /** Every date marked by the shift rule is a Tuesday. */
  lemma ShiftedHolidaysAreTuesdays(d: Date)
    requires Valid(d) && IsShiftedHoliday(d)
    ensures Weekday(d) == 1
  {
    var k :| 0 <= k < |Holidays| && ShiftHits(d, k);
    ShiftedIsTuesday(HolidayDate(d.year, k));
  }

  /** On a Monday, Wednesday, Thursday or Friday the only reason to be
      non-working is being on the list. */
  lemma NonTuesdayWeekdays(d: Date)
    requires Valid(d) && Weekday(d) < 5 && Weekday(d) != 1
    ensures IsHolidayOrWeekend(d) <==> Listed(d)
  {
    if IsShiftedHoliday(d) {
      ShiftedHolidaysAreTuesdays(d);
    }
  }

  /** Within a month, adding days only advances the day of the month. */
  lemma {:induction false} AddDaysWithinMonth(d: Date, n: nat)
    requires Valid(d) && d.day + n <= DaysInMonth(d.year, d.month)
    ensures AddDays(d, n) == Date(d.year, d.month, d.day + n)
    decreases n
  {
    if n > 0 {
      AddDaysWithinMonth(Succ(d), n - 1);
    }
  }

  /** The shifted date of a listed holiday that falls on a weekend stays in the
      holiday's month (no listed holiday is later than the 23rd), so it is in the
      same year and the rule marks it: it is a non-working Tuesday. */
  lemma ShiftedDateIsNonWorking(year: int, k: int)
    requires year >= MinYear && 0 <= k < |Holidays|
    requires OnWeekend(HolidayDate(year, k))
    ensures var h := HolidayDate(year, k);
            var s := ShiftedDate(h);
            && s.year == year && s.month == h.month
            && Weekday(s) == 1
            && IsShiftedHoliday(s) && IsHolidayOrWeekend(s)
  {
    var h := HolidayDate(year, k);
    assert h.day <= 23;
    ShiftedIsTuesday(h);
    AddDaysWithinMonth(h, 7 - Weekday(h) + 1);
    var s := ShiftedDate(h);
    assert HolidayDate(s.year, k) == h;
    assert ShiftHits(s, k);
  }

  /** The Monday right after a listed holiday that fell on a weekend is not marked
      by the shift rule: the shifted date is the following day, a Tuesday. */
  lemma MondayAfterWeekendHoliday(year: int, k: int)
    requires year >= MinYear && 0 <= k < |Holidays|
    requires OnWeekend(HolidayDate(year, k))
    ensures var h := HolidayDate(year, k);
            var monday := AddDays(h, 7 - Weekday(h));
            && Weekday(monday) == 0
            && Succ(monday) == ShiftedDate(h)
            && (IsHolidayOrWeekend(monday) <==> Listed(monday))
  {
    var h := HolidayDate(year, k);
    var monday := AddDays(h, 7 - Weekday(h));
    AddDaysWeekday(h, 7 - Weekday(h));
    assert Weekday(monday) == 0;
    AddDaysSucc(h, 7 - Weekday(h));
    NonTuesdayWeekdays(monday);
  }

  lemma {:induction false} AddDaysSucc(d: Date, n: nat)
    requires Valid(d)
    ensures Succ(AddDays(d, n)) == AddDays(d, n + 1)
    decreases n
  {
    if n > 0 {
      AddDaysSucc(Succ(d), n - 1);
    }
  }

  /** 9 May 2024 (Victory Day, a Thursday) is non-working; Friday 10 May 2024 is a
      working day. */
  lemma VictoryDay2024()
    ensures IsHolidayOrWeekend(Date(2024, 5, 9))
    ensures !IsHolidayOrWeekend(Date(2024, 5, 10))
  {
    assert Listed(Date(2024, 5, 9));
    var fri := Date(2024, 5, 10);
    DaysBeforeYearClosedForm(2024);
    assert DaysBeforeYear(2024) == 738885;
    assert Ordinal(fri) == 739016;
    assert Weekday(fri) == 4;
    assert !Listed(fri);
    NonTuesdayWeekdays(fri);
  }

  /** 9 May 2021 (Victory Day) was a Sunday. */
  lemma VictoryDay2021IsSunday()
    ensures Weekday(Date(2021, 5, 9)) == 6
  {
    DaysBeforeYearClosedForm(2021);
    assert DaysBeforeYear(2021) == 737790;
    assert Ordinal(Date(2021, 5, 9)) == 737919;
  }

  /** The Monday after 9 May 2021, 10 May, stays a working day. */
  lemma MondayAfterVictoryDay2021()
    ensures !IsHolidayOrWeekend(Date(2021, 5, 10))
  {
    var mon := Date(2021, 5, 10);
    DaysBeforeYearClosedForm(2021);
    assert DaysBeforeYear(2021) == 737790;
    assert Ordinal(mon) == 737920;
    assert Weekday(mon) == 0;
    assert !Listed(mon);
    NonTuesdayWeekdays(mon);
  }

  /** ... and Tuesday 11 May 2021 is the non-working shifted date of 9 May. */
  lemma ShiftedVictoryDay2021()
    ensures IsHolidayOrWeekend(Date(2021, 5, 11))
  {
    var h := HolidayDate(2021, 12);
    DaysBeforeYearClosedForm(2021);
    assert DaysBeforeYear(2021) == 737790;
    assert h == Date(2021, 5, 9) && Ordinal(h) == 737919;
    assert Weekday(h) == 6;
    ShiftedIsTuesday(h);
    var s := Date(2021, 5, 11);
    assert AddDays(h, 2) == s by {
      assert Succ(h) == Date(2021, 5, 10);
      assert Succ(Succ(h)) == s;
      assert AddDays(h, 2) == AddDays(Succ(h), 1) == AddDays(Succ(Succ(h)), 0);
    }
    assert ShiftHits(s, 12);
  }

  // ---------------------------------------------------------------------------
  // Working days

  /** Specification of `generate_working_days`: the working days from `start` to
      `end` inclusive, in calendar order. */
  function WorkingDays(start: Date, end: Date): (r: seq<Date>)
    requires Valid(start) && Valid(end)
    ensures forall k :: 0 <= k < |r| ==> Valid(r[k]) && !IsHolidayOrWeekend(r[k])
    decreases Rank(end) - Rank(start)
  {
    if !LessEq(start, end) then []
    else
      (if IsHolidayOrWeekend(start) then [] else [start]) + WorkingDays(Succ(start), end)
  }

  /** Soundness and completeness: exactly the working days of [start, end] are listed. */
  lemma {:induction false} WorkingDaysMembers(start: Date, end: Date, d: Date)
    requires Valid(start) && Valid(end)
    ensures d in WorkingDays(start, end) <==>
              Valid(d) && LessEq(start, d) && LessEq(d, end) && !IsHolidayOrWeekend(d)
    decreases Rank(end) - Rank(start)
  {
    if LessEq(start, end) {
      RankOrder(start, end);
      WorkingDaysMembers(Succ(start), end, d);
      if Valid(d) {
        SuccIsNext(start, d);
      }
    }
  }

  /** The working days come out strictly ascending and inside [start, end]. */
  lemma WorkingDaysAscending(start: Date, end: Date)
    requires Valid(start) && Valid(end)
    ensures var r := WorkingDays(start, end);
            && (forall i :: 0 <= i < |r| ==> Valid(r[i]) && LessEq(start, r[i]) && LessEq(r[i], end))
            && (forall i, j :: 0 <= i < j < |r| ==> Less(r[i], r[j]))
  {
    WorkingDaysInRange(start, end);
    WorkingDaysSorted(start, end);
  }

  lemma WorkingDaysInRange(start: Date, end: Date)
    requires Valid(start) && Valid(end)
    ensures var r := WorkingDays(start, end);
            forall i :: 0 <= i < |r| ==> Valid(r[i]) && LessEq(start, r[i]) && LessEq(r[i], end)
  {
    var r := WorkingDays(start, end);
    forall i | 0 <= i < |r|
      ensures Valid(r[i]) && LessEq(start, r[i]) && LessEq(r[i], end)
    {
      WorkingDaysMembers(start, end, r[i]);
    }
  }

  lemma {:induction false} WorkingDaysSorted(start: Date, end: Date)
    requires Valid(start) && Valid(end)
    ensures var r := WorkingDays(start, end);
            forall i, j :: 0 <= i < j < |r| ==> Less(r[i], r[j])
    decreases Rank(end) - Rank(start)
  {
    if LessEq(start, end) {
      var next := Succ(start);
      WorkingDaysStep(start, end);
      var tail := WorkingDays(next, end);
      WorkingDaysSorted(next, end);
      WorkingDaysInRange(next, end);
      forall j | 0 <= j < |tail|
        ensures Less(start, tail[j])
      {
        SuccIsNext(start, tail[j]);
      }
    }
  }

  /** One step of the walk. */
  lemma WorkingDaysStep(start: Date, end: Date)
    requires Valid(start) && Valid(end) && LessEq(start, end)
    ensures Rank(start) <= Rank(end)
    ensures WorkingDays(start, end)
            == (if IsHolidayOrWeekend(start) then [] else [start]) + WorkingDays(Succ(start), end)
  {
    RankOrder(start, end);
  }

  /** A one-day range yields that day if it is a working day and nothing otherwise. */
  lemma SingleDay(d: Date)
    requires Valid(d)
    ensures WorkingDays(d, d) == if IsHolidayOrWeekend(d) then [] else [d]
  {
    RankOrder(Succ(d), d);
    WalkDone(Succ(d), d);
  }

  /** One step of the day-by-day walk stays representable and ordered. */
  lemma WalkStep(start: Date, current: Date, end: Date)
    requires Representable(current) && LessEq(start, current) && current != MaxDate
    ensures Representable(Succ(current)) && LessEq(start, Succ(current))
  {
    SuccRepresentable(current);
    SuccIsNext(current, current);
    LessEqTrans(start, current, Succ(current));
  }

  /** The walk reaches 9999-12-31 only when the range ends there. */
  lemma WalkAtMaxDate(start: Date, current: Date, end: Date)
    requires Representable(end) && LessEq(start, current) && LessEq(current, end) && current == MaxDate
    ensures LessEq(start, end) && end == MaxDate
  {
    MaxDateIsLast(end);
    LessEqTotal(end, MaxDate);
    LessEqTrans(start, current, end);
  }

  /** A walk that stops without overflowing did not have 9999-12-31 in range. */
  lemma WalkExit(start: Date, current: Date, end: Date)
    requires Representable(current) && !LessEq(current, end)
    ensures !(end == MaxDate)
  {
    MaxDateIsLast(current);
  }

  /** `generate_working_days`: walks day by day from `start` to `end` and keeps the
      working days.  Python raises when the walk steps past 9999-12-31, which it
      does exactly when the range is non-empty and ends on that date. */
  method GenerateWorkingDays(start: Date, end: Date) returns (r: Result<seq<Date>>)
    requires Representable(start) && Representable(end)
    ensures r.DateOverflow? <==> LessEq(start, end) && end == MaxDate
    ensures r.Ok? ==> r.value == WorkingDays(start, end)
  {
    var workingDays: seq<Date> := [];
    var current := start;
    while LessEq(current, end)
      invariant Representable(current) && LessEq(start, current)
      invariant workingDays + WorkingDays(current, end) == WorkingDays(start, end)
      decreases Rank(end) - Rank(current)
    {
      var off := IsHolidayOrWeekend(current);
      WalkDays(workingDays, current, end, off);
      if !off {
        workingDays := workingDays + [current];
      }
      if current == MaxDate {
        WalkAtMaxDate(start, current, end);
        return DateOverflow;
      }
      WalkStep(start, current, end);
      current := Succ(current);
    }
    WalkExit(start, current, end);
    WalkDone(current, end);
    return Ok(workingDays);
  }

  lemma WalkDays(days: seq<Date>, current: Date, end: Date, off: bool)
    requires Valid(current) && Valid(end) && LessEq(current, end)
    requires off == IsHolidayOrWeekend(current)
    ensures Rank(current) <= Rank(end)
    ensures days + WorkingDays(current, end)
            == (if off then days else days + [current]) + WorkingDays(Succ(current), end)
  {
    WorkingDaysStep(current, end);
    var head: seq<Date> := if off then [] else [current];
    AppendAssoc(days, head, WorkingDays(Succ(current), end));
  }

  /** Concatenation of date lists is associative. */
  lemma AppendAssoc(a: seq<Date>, b: seq<Date>, c: seq<Date>)
    ensures a + (b + c) == (a + b) + c
  {
  }

  lemma WalkDone(current: Date, end: Date)
    requires Valid(current) && Valid(end) && !LessEq(current, end)
    ensures WorkingDays(current, end) == []
  {
  }
}
