/**
 * `generate_months` of the monthly generator: the first day of every month from
 * the start date's month on, while that day is not after the end date.
 */
module Months {
  import opened Dates

  /** Specification of the walk from `current` (a first of month) on. */
  function MonthStarts(current: Date, end: Date): (r: seq<Date>)
    requires Valid(current) && current.day == 1 && Valid(end)
    ensures forall k :: 0 <= k < |r| ==> Valid(r[k]) && r[k].day == 1
    decreases MonthIndex(end) - MonthIndex(current)
  {
    if !LessEq(current, end) then []
    else
      FirstOfMonthOrder(current, end);
      [current] + MonthStarts(AddMonth(current), end)
  }

  /** Specification of `generate_months(start, end)`. */
  function Months(start: Date, end: Date): (r: seq<Date>)
    requires Valid(start) && Valid(end)
    ensures forall k :: 0 <= k < |r| ==> Valid(r[k]) && r[k].day == 1
  {
    MonthStarts(FirstOfMonth(start), end)
  }

  /** For a first of month, being at most `end` depends on the month alone. */
  lemma FirstOfMonthOrder(c: Date, end: Date)
    requires Valid(c) && c.day == 1 && Valid(end)
    ensures LessEq(c, end) <==> MonthIndex(c) <= MonthIndex(end)
  {
  }

  /** The walk lists consecutive months, every one a first of month and at most `end`,
      as many as there are months from `current`'s to `end`'s. */
  lemma {:induction false} MonthStartsShape(current: Date, end: Date)
    requires Valid(current) && current.day == 1 && Valid(end)
    ensures var r := MonthStarts(current, end);
            && |r| == (if LessEq(current, end) then MonthIndex(end) - MonthIndex(current) + 1 else 0)
            && forall i :: 0 <= i < |r| ==>
                 Valid(r[i]) && r[i].day == 1 && LessEq(r[i], end)
                 && MonthIndex(r[i]) == MonthIndex(current) + i
    decreases MonthIndex(end) - MonthIndex(current)
  {
    FirstOfMonthOrder(current, end);
    if LessEq(current, end) {
      var next := AddMonth(current);
      MonthStartsShape(next, end);
      FirstOfMonthOrder(next, end);
      var r := MonthStarts(current, end);
      var tail := MonthStarts(next, end);
      assert r == [current] + tail;
      forall i | 0 <= i < |r|
        ensures Valid(r[i]) && r[i].day == 1 && LessEq(r[i], end)
                && MonthIndex(r[i]) == MonthIndex(current) + i
      {
        if i > 0 {
          assert r[i] == tail[i - 1];
        }
      }
    }
  }

  /** Length of `generate_months`: one entry per month from start's to end's, or
      none when the first of start's month is already after `end`. */
  lemma MonthsLength(start: Date, end: Date)
    requires Valid(start) && Valid(end)
    ensures |Months(start, end)|
            == if LessEq(FirstOfMonth(start), end)
               then 12 * (end.year - start.year) + (end.month - start.month) + 1
               else 0
  {
    MonthStartsShape(FirstOfMonth(start), end);
  }

  /** Every entry is a first of month not after `end`, the first entry is the first of
      start's month, consecutive entries are one month apart and strictly ascending,
      and the i-th entry lies i months after the first one, which is the month
      offset the monthly series synthesizer computes. */
  lemma MonthsElements(start: Date, end: Date)
    requires Valid(start) && Valid(end)
    ensures var r := Months(start, end);
            && (|r| > 0 ==> r[0] == FirstOfMonth(start))
            && (forall i :: 0 <= i < |r| ==>
                  Valid(r[i]) && r[i].day == 1 && LessEq(r[i], end)
                  && (r[i].year - r[0].year) * 12 + r[i].month - r[0].month == i)
            && (forall i :: 0 <= i < |r| - 1 ==> r[i + 1] == AddMonth(r[i]) && Less(r[i], r[i + 1]))
  {
    var first := FirstOfMonth(start);
    MonthStartsShape(first, end);
    var r := Months(start, end);
    forall i | 0 <= i < |r| - 1
      ensures r[i + 1] == AddMonth(r[i]) && Less(r[i], r[i + 1])
    {
      SameMonthSameFirst(r[i + 1], AddMonth(r[i]));
    }
  }

  /** Two firsts of month with the same month index are the same date. */
  lemma SameMonthSameFirst(a: Date, b: Date)
    requires Valid(a) && Valid(b) && a.day == 1 && b.day == 1 && MonthIndex(a) == MonthIndex(b)
    ensures a == b
  {
  }

  /** January to March 2024 gives exactly the three firsts of month. */
  lemma FirstQuarter2024()
    ensures Months(Date(2024, 1, 1), Date(2024, 3, 31))
            == [Date(2024, 1, 1), Date(2024, 2, 1), Date(2024, 3, 1)]
  {
    var end := Date(2024, 3, 31);
    assert MonthStarts(Date(2024, 4, 1), end) == [];
    assert MonthStarts(Date(2024, 3, 1), end) == [Date(2024, 3, 1)];
    assert MonthStarts(Date(2024, 2, 1), end) == [Date(2024, 2, 1), Date(2024, 3, 1)];
  }

  /** The monthly data set's window, 2015-01-01 to 2024-12-31, has 120 months. */
  lemma TenYearsOfMonths()
    ensures |Months(Date(2015, 1, 1), Date(2024, 12, 31))| == 120
  {
    MonthsLength(Date(2015, 1, 1), Date(2024, 12, 31));
  }

  /** `generate_months`.  `relativedelta(months=1)` from 9999-12-01 would need year
      10000, which Python's `date` refuses; that happens exactly when 9999-12-01 is
      in range. */
  method GenerateMonths(start: Date, end: Date) returns (r: Result<seq<Date>>)
    requires Representable(start) && Representable(end)
    ensures r.DateOverflow? <==> LessEq(Date(MaxYear, 12, 1), end)
    ensures r.Ok? ==> r.value == Months(start, end)
  {
    var months: seq<Date> := [];
    var current := Date(start.year, start.month, 1);
    while LessEq(current, end)
      invariant Valid(current) && current.day == 1 && current.year <= MaxYear
      invariant months + MonthStarts(current, end) == Months(start, end)
      decreases MonthIndex(end) - MonthIndex(current)
    {
      months := months + [current];
      if current.year == MaxYear && current.month == 12 {
        return DateOverflow;
      }
      current := AddMonth(current);
    }
    return Ok(months);
  }
}
