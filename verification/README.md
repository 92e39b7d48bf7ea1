# Working-capital data set generators — verified model

`dataset.py` and `dataset2.py` build a synthetic working-capital ("ЧОК") data set.
- `dataset.py` makes a daily table over the Russian working days of 2014–2023.
- `dataset2.py` makes a monthly table over the firsts of month of 2015–2024.
- Each table has columns for materials, finished goods, ten debtors (`ДЗ: <name>`) and ten creditors (`КЗ: <name>`), plus two ИТОГО totals.
- The monthly table also has `Запасы` (inventory) and `ЧОК`.
- The monthly export adds a second sheet, a long (Дата, Статья, Контрагент, Сумма) table sorted by date.

This project models the deterministic part of both scripts and proves its properties:

- **`Dates`** (`dates.dfy`) — the slice of Python's `datetime.date` the scripts use:
  - ordinals and `weekday()`;
  - field-by-field comparison;
  - `+ timedelta(days=n)` and `+ relativedelta(months=1)`;
  - the 1..9999 year range. Leaving it is the `DateOverflow` result, where Python raises (`OverflowError` from `date + timedelta`, `ValueError` from `relativedelta`'s `date.replace(year=10000)`).
- **`Calendar`** (`calendar.dfy`) — `is_holiday_or_weekend` and `generate_working_days`. They are identical in both scripts and modelled once.
  - The holiday-shift rule is kept exactly as written: `holiday + (7 − weekday + 1)` days, which lands on a Tuesday.
  - `WorkingDays` is the reference definition. The loop `GenerateWorkingDays` is proved against it.
- **`Months`** (`months.dfy`) — `generate_months`. The loop `GenerateMonths` is proved against the reference `Months`.
- **`WideTable`** (`wide.dfy`) — the pandas frame as a `Frame` class that holds the dates and the amount columns:
  - `df[name] = v` is `Assign` / `Frame.Set`: replace the column in place, or append it;
  - `df[name]` is `Lookup` / `Frame.Get`;
  - the prefix-selected row sums behind the ИТОГО columns;
  - the column-width rule of `export_to_excel`.
- **`Dataset`** (`dataset.dfy`) — `generate_dataset` of both scripts, assembling the frame column by column. The generated series are an input `Series`.
- **`Reshape`** (`reshape.dfy`) — the second sheet of the monthly export:
  - Python's `str.strip()`;
  - the column classification;
  - the per-column unpivot;
  - `sort_values('Дата')`.

Amounts are integers (think kopecks). The pandas columns hold floats.

To verify the whole project, run this from the project directory:

    dafny verify --resource-limit 2000000 --verification-time-limit 0 --warn-contradictory-assumptions calendar.dfy dataset.dfy dates.dfy months.dfy reshape.dfy wide.dfy

## Model

| member | source | states |
|---|---|---|
| Dates.Ordinal | dataset.py:13 | `toordinal()` counts the days from 0001-01-01 = 1, so it is at least 1, and a date's ordinal lies after all days of earlier years and within its own year |
| Dates.LessEq | dataset.py:55 | `date <= date` compares the year, then the month, then the day (no contract; its properties are `OrdinalOrder`, `LessEqTotal` and `LessEqTrans`) |
| Dates.Weekday | dataset.py:13 | `weekday()` is in 0..6, computed from the ordinal with Monday = 0 |
| Dates.DaysBeforeYearClosedForm | dataset.py:43-44 | the day count before a year equals the closed form 365(y−1) + ⌊(y−1)/4⌋ − ⌊(y−1)/100⌋ + ⌊(y−1)/400⌋ that `toordinal` uses |
| Dates.Succ | dataset.py:58 | `+ timedelta(days=1)` yields a valid date, later in the calendar order |
| Dates.SuccOrdinal | dataset.py:58 | the next day has the next ordinal |
| Dates.SuccIsNext | dataset.py:55-58 | a date is strictly before its successor, and no date lies strictly between them |
| Dates.SuccRepresentable | dataset.py:58 | only 9999-12-31 has no representable successor |
| Dates.AddDays | dataset.py:45 | `d + timedelta(days=n)` for n ≥ 0 is a valid date not before d (its ordinal is `AddDaysOrdinal`) |
| Dates.MaxDateIsLast | dataset.py:55 | every representable date is at most 9999-12-31 |
| Dates.AddDaysOrdinal | dataset.py:45 | `+ timedelta(days=n)` adds n to the ordinal |
| Dates.AddDaysWeekday | dataset.py:44-45 | adding n days moves the weekday n steps round the week |
| Dates.FirstOfMonth | dataset2.py:64 | `dt.date(d.year, d.month, 1)` is day 1 of d's month, valid and not after d |
| Dates.AddMonth | dataset2.py:69 | `+ relativedelta(months=1)` gives a valid date in the next month; the day is kept when the next month has it, otherwise clamped down to the month's length (so a day up to 28 is always kept) |
| Dates.OrdinalOrder | dataset.py:55 | Python's field-by-field date comparison agrees with comparing ordinals, and equality agrees with equal ordinals |
| Dates.StrictlyEarlier | dataset.py:55 | a strictly earlier date has a smaller ordinal |
| Dates.LessEqTotal | dataset2.py:259 | date comparison is total and antisymmetric |
| Dates.LessEqTrans | dataset2.py:259 | date comparison is transitive |
| Calendar.Listed | dataset.py:17-38 | `(date.day, date.month) in holidays` holds exactly on 1–8 January, 23 February, 8 March, 1 and 9 May, 12 June and 4 November |
| Calendar.OnWeekend | dataset.py:13 | `weekday() >= 5` holds exactly on Saturday and Sunday |
| Calendar.ShiftedDate | dataset.py:45 | the next workday of a weekend holiday is `8 − weekday` days later, as an ordinal |
| Calendar.HolidayDate | dataset.py:43 | `dt.date(year, month, day)` of every listed holiday is a valid date of that year |
| Calendar.ShiftMatchFrom | dataset.py:42-47 | the scan over the holiday list from position k answers true exactly when some later entry's shifted date is the date |
| Calendar.IsHolidayOrWeekend | dataset.py:10-49 | non-working exactly when the date is a Saturday or Sunday, or its (day, month) is listed, or it is the shifted date of a listed holiday of its year that fell on a weekend |
| Calendar.ShiftedIsTuesday | dataset.py:45 | the shift adds 3 days to a Saturday and 2 to a Sunday, and always lands on a Tuesday |
| Calendar.ShiftedHolidaysAreTuesdays | dataset.py:42-47 | every date the shift rule marks is a Tuesday |
| Calendar.AddDaysWithinMonth | dataset.py:45 | adding days that stay inside the month only advances the day of the month |
| Calendar.ShiftedDateIsNonWorking | dataset.py:42-47 | a listed holiday on a weekend has its shifted date in the same month and year, and that date is a non-working Tuesday |
| Calendar.NonTuesdayWeekdays | dataset.py:13-49 | on Monday, Wednesday, Thursday and Friday a date is non-working exactly when it is listed |
| Calendar.MondayAfterWeekendHoliday | dataset.py:42-47 | the Monday after a weekend holiday is not marked by the shift rule: the shifted date is the day after it |
| Calendar.VictoryDay2024 | dataset.py:29 | 9 May 2024 (a Thursday) is non-working and Friday 10 May 2024 is working |
| Calendar.VictoryDay2021IsSunday | dataset.py:44 | 9 May 2021 was a Sunday (`weekday()` 6), so the shift rule applies to it |
| Calendar.MondayAfterVictoryDay2021 | dataset.py:42-47 | Monday 10 May 2021, the day after Sunday 9 May, stays working |
| Calendar.ShiftedVictoryDay2021 | dataset.py:45 | Tuesday 11 May 2021 is non-working as the shifted date of 9 May 2021 |
| Calendar.WorkingDays | dataset.py:51-59 | every date `generate_working_days` lists is a valid working day (range and order are the lemmas below) |
| Calendar.WorkingDaysMembers | dataset.py:51-59 | a date is in the working days of [start, end] exactly when it lies in the range and is not non-working |
| Calendar.WorkingDaysAscending | dataset.py:53-59 | the working days come out strictly ascending, each inside [start, end] |
| Calendar.WorkingDaysInRange | dataset.py:55 | every listed working day lies in [start, end] |
| Calendar.WorkingDaysSorted | dataset.py:55-58 | the listed working days are strictly ascending |
| Calendar.WorkingDaysStep | dataset.py:55-58 | one loop step: keep `current` when it is working, continue from the next day |
| Calendar.SingleDay | dataset.py:55-58 | a one-day range yields [d] for a working day and [] otherwise |
| Calendar.WalkDone | dataset.py:55 | a range whose start is after its end yields [] |
| Calendar.WalkStep | dataset.py:58 | stepping the walk from a date other than 9999-12-31 stays representable and in order |
| Calendar.WalkAtMaxDate | dataset.py:58 | the walk reaches 9999-12-31 only when the range ends there |
| Calendar.WalkExit | dataset.py:55 | a walk that leaves the loop did not have 9999-12-31 in range |
| Calendar.WalkDays | dataset.py:56-57 | the list built so far plus the rest of the walk is the whole answer |
| Calendar.GenerateWorkingDays | dataset.py:51-59 | the loop returns exactly `WorkingDays(start, end)`; it overflows (Python raises) exactly when the range is non-empty and ends on 9999-12-31 |
| Months.MonthStarts | dataset2.py:66-69 | the walk from a first of month lists only valid firsts of month |
| Months.Months | dataset2.py:61-71 | `generate_months` lists only valid firsts of month (length and order are `MonthsLength` and `MonthsElements`) |
| Months.FirstOfMonthOrder | dataset2.py:66 | for a first of month, `<= end` depends on the month alone |
| Months.MonthStartsShape | dataset2.py:64-69 | the walk lists consecutive months, each a first of month at most `end`, one per month up to `end`'s |
| Months.MonthsLength | dataset2.py:64-69 | the length is 12·(end.year − start.year) + (end.month − start.month) + 1 when the first of start's month is at most end, and 0 otherwise |
| Months.MonthsElements | dataset2.py:64-69 | every element is a first of month at most end; the first is the first of start's month; consecutive elements are one `relativedelta(months=1)` apart and strictly ascending; the i-th element's month offset from the first, the `(year − y0)*12 + month − m0` of dataset2.py:87, is i |
| Months.SameMonthSameFirst | dataset2.py:64 | two firsts of month in the same month are the same date |
| Months.FirstQuarter2024 | dataset2.py:61-71 | January to March 2024 gives the three firsts of month |
| Months.TenYearsOfMonths | dataset2.py:105-109 | the monthly window 2015-01-01..2024-12-31 has 120 months |
| Months.GenerateMonths | dataset2.py:61-71 | the loop returns exactly `Months(start, end)`; it overflows (Python raises) exactly when 9999-12-01 is at most end |
| WideTable.StartsWith | dataset.py:158 | `col.startswith(prefix)`: the prefix is the first characters of the name (no contract; a definition) |
| WideTable.DetailName | dataset.py:139 | `f"{prefix} {name}"` starts with the prefix, then one space, then the name itself |
| WideTable.Lookup | dataset2.py:174-175 | `df[name]`: the values of the first column with that name, or none (no contract; its properties are `LookupFound`, `LookupInFront` and `LookupBehind`) |
| WideTable.RowSum | dataset.py:158-159 | `df[[col for col in df.columns if col.startswith(prefix)]].sum(axis=1)` at one row (no contract; its properties are `RowSumAppend`, `RowSumIgnoresUnprefixed` and `DetailRowSum`) |
| WideTable.Names | dataset.py:158 | the amount columns' names, one per column, in order (`df.columns` without `Дата`, which `Frame.Headers` puts in front) |
| WideTable.LookupFound | dataset.py:158-159 | `df[name]` finds a column exactly when the name is among the columns |
| WideTable.LookupRectangular | dataset2.py:174-175 | a column found by name has one value per row |
| WideTable.Assign | dataset.py:119 | after `df[name] = values`, `df[name]` is `values` |
| WideTable.AssignNames | dataset.py:119 | an assignment keeps the column names when the name is taken, and appends the name otherwise |
| WideTable.AssignRectangular | dataset.py:119 | assigning a full-length column keeps every column full-length |
| WideTable.AssignKeepsOthers | dataset.py:119 | assigning one column leaves every other name's column unchanged |
| WideTable.AssignNewAppends | dataset.py:138-140 | assigning a fresh name appends exactly that column |
| WideTable.LookupBehind | dataset2.py:175 | a name absent from the front columns is looked up behind them |
| WideTable.LookupInFront | dataset2.py:174 | a name present in the front columns is found there |
| WideTable.PrefixTotal | dataset.py:158 | the prefix total has one value per row |
| WideTable.RowSumAppend | dataset.py:158 | the prefix row sum of two column lists is the sum of their row sums |
| WideTable.RowSumIgnoresUnprefixed | dataset.py:158-159 | assigning a column without the prefix leaves that prefix's row sums unchanged |
| WideTable.RowTotals | dataset.py:158 | the per-row sum of the counterparty series has one value per row |
| WideTable.DetailColumns | dataset.py:138-140 | the k-th counterparty column is named `f"{prefix} {names[k]}"` and holds `series[k]` |
| WideTable.DetailRowSum | dataset.py:158-159 | the prefix row sum over a category's columns is the sum of its series, and the other category's columns add 0 |
| WideTable.NamedColumnsUnprefixed | dataset2.py:170-171 | none of the named columns, including both ИТОГО columns, `Запасы` and `ЧОК`, starts with `ДЗ:` or `КЗ:` |
| WideTable.Frame.constructor | dataset.py:100 | `pd.DataFrame({'Дата': dates})` has the dates and no amount column |
| WideTable.Frame.Headers | dataset.py:189 | `df.columns`: `Дата` first, then the amount columns' names in order |
| WideTable.Frame.Get | dataset2.py:174-175 | `df[name]` of a present column is the looked-up values, one per row |
| WideTable.Frame.Set | dataset.py:119 | `df[name] = values` replaces or appends the column and keeps the frame well formed |
| WideTable.Frame.AddTotals | dataset.py:158-159 | adds the two ИТОГО columns; the payables total is the `КЗ:` sum of the columns as they were before the receivables total was added |
| WideTable.Plus | dataset2.py:174 | the pointwise sum has the operands' length |
| WideTable.Minus | dataset2.py:175 | the pointwise difference has the operands' length |
| WideTable.Layout | dataset.py:119-155 | the columns `generate_dataset` assigns before the totals: `Материалы`, `Готовая продукция`, the `ДЗ:` columns, then the `КЗ:` columns (no contract; its properties are `LayoutAt`, `LayoutTotals` and `Dataset.GenerateDataset`) |
| WideTable.LayoutAt | dataset.py:138-154 | debtor k's column sits at position 2 + k and creditor k's at position 2 + \|debtors\| + k |
| WideTable.LayoutTotals | dataset.py:158-159 | over the assembled columns, the `ДЗ:` total is the per-row sum of the debtor series and the `КЗ:` total that of the creditor series |
| WideTable.LayoutRowSum | dataset2.py:170-171 | one row of the totals: the `ДЗ:` and `КЗ:` sums are the sums of the debtor and creditor series |
| WideTable.FrontRowSum | dataset.py:158-159 | the materials and finished-goods columns add nothing to either prefix total |
| WideTable.NamedRowSum | dataset.py:158-159 | `Материалы` and `Готовая продукция` add 0 to either prefix sum |
| WideTable.DetailNameInjective | dataset.py:139 | two counterparty columns of one category share a name only for the same counterparty |
| WideTable.FreshDetail | dataset.py:138-140 | every counterparty column name is new when it is assigned |
| WideTable.DistinctCounterparties | dataset.py:103-115 | the ten debtor names are distinct, and so are the ten creditor names |
| WideTable.DetailNameIsNotNamed | dataset.py:139 | a counterparty column name is never `Дата` or one of the named columns |
| WideTable.ColumnWidth | dataset.py:190 | the width is at least 15 and at least the header's length, and equals one of them, so it is `max(len(header), 15)` |
| WideTable.ColumnWidths | dataset.py:189-191 | one width per header, in column order, each being `max(len(header), 15)` |
| Dataset.LayoutExcludes | dataset2.py:170-175 | `Дата`, the ИТОГО names, `Запасы` and `ЧОК` are not among the assigned series columns |
| Dataset.FrontLacksPayablePrefix | dataset.py:152-154 | no column in front of the `КЗ:` columns carries the `КЗ:` prefix |
| Dataset.DetailColumnsSnoc | dataset.py:138-140 | one more iteration of the counterparty loop appends one more column |
| Dataset.AddCounterparties | dataset.py:138-140 | the counterparty loop appends the category's columns `f"{prefix} {name}"` with their series, in order |
| Dataset.TotalsAppended | dataset.py:158-159 | adding the two totals to the assembled columns appends them, with the per-row sums of the debtor and of the creditor series as values |
| Dataset.GenerateDataset | dataset.py:91-164 | the frame has the given dates and the columns `Материалы`, `Готовая продукция`, ten `ДЗ:`, ten `КЗ:`, then the two ИТОГО columns holding the per-row sums of the debtor and of the creditor series (dataset2.py:103-171 builds the same frame) |
| Dataset.Inventory | dataset2.py:174 | per row, `Запасы` = `Материалы` + `Готовая продукция` |
| Dataset.WorkingCapital | dataset2.py:175 | per row, `ЧОК` = materials + finished goods + the debtor sum − the creditor sum |
| Dataset.FrameLookups | dataset2.py:174-175 | the columns read by name at lines 174-175 are the materials, goods and totals series |
| Dataset.MonthlyNamesFresh | dataset2.py:174-175 | `Запасы` and `ЧОК` are new names when they are assigned |
| Dataset.MonthlyColumns | dataset2.py:131-175 | the monthly frame's amount columns: the layout, both ИТОГО totals, `Запасы`, `ЧОК` (no contract; its properties are `GenerateMonthlyDataset`, `Reshape.MonthlyColumnsShape` and `Reshape.MonthlyColumnLabel`) |
| Dataset.GenerateMonthlyDataset | dataset2.py:103-180 | the monthly frame (`MonthlyColumns`) is the daily layout with its two totals, followed by `Запасы` = materials + goods and `ЧОК` = `Запасы` + ДЗ ИТОГО − КЗ ИТОГО |
| Dataset.AddInventoryAndCapital | dataset2.py:174-175 | reading the frame's own columns, appends `Запасы` (materials + goods per row) and then `ЧОК` (`Запасы` + ДЗ ИТОГО − КЗ ИТОГО per row), keeping the frame well formed |
| Reshape.IsSpace | dataset2.py:233 | the characters `str.strip()` removes: those `str.isspace` accepts (no contract; a definition) |
| Reshape.Strip | dataset2.py:233 | `str.strip()` is `rstrip` after `lstrip` (no contract; its properties are the `Strip…` lemmas below) |
| Reshape.StripLeading | dataset2.py:233 | `lstrip` removes a whitespace-only prefix and leaves a suffix not starting with whitespace |
| Reshape.StripTrailing | dataset2.py:233 | `rstrip` removes a whitespace-only suffix and leaves a prefix not ending in whitespace |
| Reshape.StripTrimmed | dataset2.py:233 | what `strip()` leaves has no whitespace at either end |
| Reshape.StripInfix | dataset2.py:233 | what `strip()` leaves is a contiguous part of the input |
| Reshape.StripRemovesOnlySpace | dataset2.py:233 | everything `strip()` removes, in front and behind, is whitespace |
| Reshape.StripLeadingPadded | dataset2.py:233 | `lstrip` of whitespace followed by a non-whitespace start gives the latter |
| Reshape.StripTrailingPadded | dataset2.py:233 | `rstrip` of a non-whitespace end followed by whitespace gives the former |
| Reshape.StripPadded | dataset2.py:233 | `strip()` of a trimmed string padded with whitespace on both sides gives the string back |
| Reshape.StripOfTrimmed | dataset2.py:233 | `strip()` leaves a string without whitespace at either end unchanged |
| Reshape.StripIdempotent | dataset2.py:233 | stripping twice is stripping once |
| Reshape.Classify | dataset2.py:226-245 | a column is skipped exactly when it is `Дата` |
| Reshape.ClassifyCounterparty | dataset2.py:231-236 | `ДЗ: <name>` and `КЗ: <name>` map to their category with the counterparty name recovered, for a name without surrounding whitespace |
| Reshape.ClassifyTotals | dataset2.py:237-242 | the ИТОГО columns map to (category, 'ИТОГО') |
| Reshape.ClassifyNamed | dataset2.py:243-245 | `Материалы`, `Готовая продукция`, `Запасы` and `ЧОК` map to (their own name, 'Н/Д') |
| Reshape.CounterpartiesTrimmed | dataset.py:103-115 | no counterparty name has surrounding whitespace |
| Reshape.ColumnBlock | dataset2.py:248-253 | the block of a column has one row per date, and none for `Дата` |
| Reshape.Unpivot | dataset2.py:226-256 | the loop's `pd.concat` of one block per column, in column order (no contract; its properties are the `Unpivot…` lemmas below) |
| Reshape.UnpivotLength | dataset2.py:226-256 | the unpivoted sheet has rows × amount-columns rows |
| Reshape.UnpivotAt | dataset2.py:248-256 | row `rows·k + i` is the i-th value of column k, with the i-th date and column k's labels |
| Reshape.UnpivotHas | dataset2.py:248-256 | every value of every amount column appears in the sheet with its date and its column's labels |
| Reshape.UnpivotDates | dataset2.py:249 | every row carries one of the frame's dates |
| Reshape.CounterpartyRow | dataset2.py:231-256 | the rows of counterparty column `f"ДЗ: {name}"` carry the category's article and `name` itself, at the column's block position |
| Reshape.CounterpartyRowIn | dataset2.py:231-256 | every value of a counterparty column appears in the sheet under the counterparty's name |
| Reshape.MonthlyColumnsShape | dataset2.py:103-180 | the monthly frame's amount columns have one value per date and none is `Дата` |
| Reshape.ColumnOfSheet | dataset2.py:170-175 | the monthly columns start with the assembled layout |
| Reshape.LayoutCounterpartyRows | dataset2.py:150-166 | the long sheet of the monthly frame holds every counterparty's amount on every date under its article and its own name |
| Reshape.LayoutDebtorRow | dataset2.py:150-166 | debtor k's amount on date i is in the long sheet under `Дебиторская задолженность` and the debtor's name |
| Reshape.LayoutCreditorRow | dataset2.py:150-166 | creditor k's amount on date i is in the long sheet under `Кредиторская задолженность` and the creditor's name |
| Reshape.MonthlyCounterpartyRows | dataset2.py:115-127 | for the ten debtors and ten creditors, the long sheet recovers exactly the names the frame was built with |
| Reshape.SortedByDate | dataset2.py:259 | what `sort_values('Дата')` promises: the dates never decrease along the sheet (no contract; a definition) |
| Reshape.Insert | dataset2.py:259 | inserting into a date-sorted sheet keeps it sorted and adds exactly that row |
| Reshape.InsertFront | dataset2.py:259 | a row not later than the first of a sorted sheet can go in front |
| Reshape.InsertBehind | dataset2.py:259 | the first row can stay first when a later row is inserted behind it |
| Reshape.SortByDate | dataset2.py:259 | `sort_values('Дата')` yields dates that never decrease and the same multiset of rows |
| Reshape.LongFormat | dataset2.py:223-259 | the second sheet is sorted by date, holds exactly the unpivoted rows, and has rows × (columns − 1) rows |
| Reshape.UnpivotFrom | dataset2.py:248-256 | every row of the unpivoted sheet is value i of some amount column k, with date i and column k's labels (nothing else gets in) |
| Reshape.PivotBack | dataset2.py:226-259 | for distinct dates and pairwise distinct column labels, the rows of any reordering of the sheet with date i and column k's labels all carry exactly column k's value i |
| Reshape.NoRepeatsCount | dataset2.py:256 | a sheet that repeats no row holds each row at most once |
| Reshape.UnpivotNoRepeats | dataset2.py:226-256 | with distinct dates and distinct column labels, the unpivoted sheet repeats no row |
| Reshape.PivotBackUnique | dataset2.py:226-259 | any reordering of the sheet holds column k's value on date i exactly once, and every row with that date and column k's labels is that row |
| Reshape.MonthlyLabel | dataset2.py:230-245 | the (article, counterparty) of monthly column j in layout order (no contract; a reference table) |
| Reshape.NamedColumnLabel | dataset2.py:243-245 | `Материалы` and `Готовая продукция` are labelled (own name, `Н/Д`) |
| Reshape.DebtorColumnLabel | dataset2.py:231-233 | the column of debtor j − 2 is labelled (`Дебиторская задолженность`, that debtor's name) |
| Reshape.CreditorColumnLabel | dataset2.py:234-236 | the column of creditor j − 2 − \|debtors\| is labelled (`Кредиторская задолженность`, that creditor's name) |
| Reshape.LayoutColumnLabel | dataset2.py:230-245 | every assembled layout column carries the label `MonthlyLabel` gives its position |
| Reshape.TailColumnLabel | dataset2.py:237-245 | the two ИТОГО columns, `Запасы` and `ЧОК` carry the labels `MonthlyLabel` gives their positions |
| Reshape.MonthlyColumnLabel | dataset2.py:226-245 | the monthly frame has \|debtors\| + \|creditors\| + 6 amount columns and column j carries label `MonthlyLabel(j)` |
| Reshape.MonthlyLabelsDistinct | dataset2.py:230-245 | with distinct debtor names, distinct creditor names, and none of them `ИТОГО`, two different positions get different labels |
| Reshape.MonthsDistinct | dataset2.py:61-71 | the firsts of month `generate_months` lists are pairwise distinct |
| Reshape.NoCounterpartyIsTotal | dataset.py:103-115 | no generated counterparty is named `ИТОГО` |
| Reshape.MonthlyDistinctLabels | dataset2.py:226-245 | under those conditions the monthly columns' labels are pairwise distinct |
| Reshape.MonthlyPivotsBack | dataset2.py:223-259 | under those conditions and for distinct dates, the rows of the sorted sheet with date i and column j's labels all carry exactly column j's value i |
| Reshape.MonthlySheetPivotsBack | dataset2.py:103-259 | for the generator's own counterparties and distinct dates, the long sheet pivots back: date i and column j's labels determine column j's value i |

## Left out

- The series synthesizer `generate_time_series_with_trend_and_seasonality` (dataset.py:61-89, dataset2.py:73-101). It uses floating-point powers, `np.sin`, Gaussian noise and `round`. The generated series are an input (`Series`) of one value per date. Only its month-offset formula (dataset2.py:87) is modelled, in `Months.MonthsElements`.
- The counterparty weights and per-counterparty ripple (dataset.py:131-136, 140-150, 154-155; dataset2.py:143-148, 152-162, 166-167). They use `random.uniform`, float normalisation, `np.sin` and `round`. Each counterparty's series is an input.
- Float amounts. Amounts are `int`, so pandas' float rounding in sums and differences is not modelled.
- All openpyxl / `pd.ExcelWriter` work in `export_to_excel`: fonts, alignment, number formats, writing sheets, the file path. Only the width rule and the reshape are modelled.
- check_excel.py is not part of this model. It is file I/O and printing.
- The `__main__` blocks, `os.makedirs`, the console prints, and `pd.to_datetime` on the `Дата` column (dataset.py:162, dataset2.py:178). That conversion changes only the column's type.
- The fixed period constants of each `generate_dataset` (dataset.py:93-97, dataset2.py:105-109) are not wired into `GenerateDataset`. The methods take the dates as a parameter. `Months.TenYearsOfMonths` covers the monthly window.
- Reshape.SortByDate: pandas' default sort is not stable, so the order of rows with the same date is not promised. Only "sorted by date" and "same multiset of rows" are stated.
- Reshape.LongFormat: the frame keeps `Дата` apart from its amount columns, so the `continue` at dataset2.py:227-228 becomes `Classify` mapping `Дата` to `Skip`. The loop tests for it, and for a well-formed frame it never fires.
- WideTable.Frame.Set: `df['Дата'] = …` is outside the model. The only such assignment is the `pd.to_datetime` conversion left out above.
- Reshape.IsSpace: covers the characters Python's `str.isspace` accepts. Unicode data beyond that set is not modelled.
- The `date` range: a `Date` with a year above 9999 is well formed in the model. Python refuses it, and the generators return `DateOverflow` where Python raises: `OverflowError` in the day walk (dataset.py:58, `date + timedelta`), `ValueError` in the month walk (dataset2.py:69, where `relativedelta` calls `date.replace(year=10000)`).
