/**
 * The second sheet of `export_to_excel` in the monthly generator: every amount column
 * of the wide frame becomes a block of (Дата, Статья, Контрагент, Сумма) rows, the
 * blocks are concatenated in column order, and the result is sorted by date.
 */
module Reshape {
  import opened Dates
  import opened WideTable
  import opened Dataset
  import Months

  const ReceivablesArticle: string := "Дебиторская задолженность"
  const PayablesArticle: string := "Кредиторская задолженность"
  const TotalCounterparty: string := "ИТОГО"
  const NoCounterparty: string := "Н/Д"

  /** One row of the long sheet. */
  datatype LongRow = LongRow(date: Date, article: string, counterparty: string, amount: int)

  /** What the reshape makes of a column: skip it, or an (article, counterparty) pair. */
  datatype Label = Skip | Label(article: string, counterparty: string)

  // ---------------------------------------------------------------------------
  // Python's str.strip()

  /** Python's `str.isspace` for one character: the characters of bidirectional class
      WS, B or S and the space separators. */
  predicate IsSpace(c: char) {
    || ('\t' <= c <= '\r')
    || ('\U{1C}' <= c <= ' ')
    || c == '\U{85}' || c == '\U{A0}' || c == '\U{1680}'
    || ('\U{2000}' <= c <= '\U{200A}')
    || c == '\U{2028}' || c == '\U{2029}' || c == '\U{202F}' || c == '\U{205F}' || c == '\U{3000}'
  }

  predicate AllSpace(s: string) {
    forall i :: 0 <= i < |s| ==> IsSpace(s[i])
  }

  /** Neither end of `s` is whitespace. */
  predicate Trimmed(s: string) {
    s == [] || (!IsSpace(s[0]) && !IsSpace(s[|s| - 1]))
  }

  /** `s.lstrip()`: the longest suffix of `s` not starting with whitespace. */
  function StripLeading(s: string): (r: string)
    ensures |r| <= |s| && r == s[|s| - |r|..]
    ensures r == [] || !IsSpace(r[0])
    ensures AllSpace(s[..|s| - |r|])
  {
    if s != [] && IsSpace(s[0]) then
      var r := StripLeading(s[1..]);
      LeadingStep(s, r);
      r
    else s
  }

  /** One step of `lstrip`: what it leaves of `s[1..]` is what it leaves of `s`, when
      `s[0]` is whitespace. */
  lemma LeadingStep(s: string, r: string)
    requires s != [] && IsSpace(s[0])
    requires |r| <= |s| - 1 && r == s[1..][|s| - 1 - |r|..]
    requires AllSpace(s[1..][..|s| - 1 - |r|])
    ensures r == s[|s| - |r|..] && AllSpace(s[..|s| - |r|])
  {
    var n := |s| - |r|;
    forall i | 1 <= i < n
      ensures IsSpace(s[..n][i])
    {
      assert s[..n][i] == s[1..][..n - 1][i - 1];
    }
  }

  /** `s.rstrip()`: the longest prefix of `s` not ending in whitespace. */
  function StripTrailing(s: string): (r: string)
    ensures |r| <= |s| && r == s[..|r|]
    ensures r == [] || !IsSpace(r[|r| - 1])
    ensures AllSpace(s[|r|..])
  {
    if s != [] && IsSpace(s[|s| - 1]) then
      var r := StripTrailing(s[..|s| - 1]);
      TrailingStep(s, r);
      r
    else s
  }

  /** One step of `rstrip`: what it leaves of `s[..|s| - 1]` is what it leaves of `s`,
      when the last character of `s` is whitespace. */
  lemma TrailingStep(s: string, r: string)
    requires s != [] && IsSpace(s[|s| - 1])
    requires |r| <= |s| - 1 && r == s[..|s| - 1][..|r|]
    requires AllSpace(s[..|s| - 1][|r|..])
    ensures r == s[..|r|] && AllSpace(s[|r|..])
  {
    assert s[|r|..] == s[..|s| - 1][|r|..] + [s[|s| - 1]];
  }

  /** `s.strip()`. */
  function Strip(s: string): (r: string)
  {
    StripTrailing(StripLeading(s))
  }

  /** How many whitespace characters `lstrip` removes. */
  function Lead(s: string): nat
  {
    |s| - |StripLeading(s)|
  }

  /** What `strip` leaves has no whitespace at either end. */
  lemma StripTrimmed(s: string)
    ensures Trimmed(Strip(s))
  {
    var l := StripLeading(s);
    var r := StripTrailing(l);
    if r != [] {
      assert r[0] == l[0];
    }
  }

  /** What `strip` leaves is a contiguous part of the input... */
  lemma StripInfix(s: string)
    ensures Lead(s) + |Strip(s)| <= |s|
    ensures s[Lead(s)..Lead(s) + |Strip(s)|] == Strip(s)
  {
    var l := StripLeading(s);
    var r := StripTrailing(l);
    assert Strip(s) == r && Lead(s) == |s| - |l|;
    PrefixOfSuffix(s, l, r);
  }

  /** A prefix of a suffix of `s` is a slice of `s`. */
  lemma PrefixOfSuffix(s: string, l: string, r: string)
    requires |l| <= |s| && l == s[|s| - |l|..]
    requires |r| <= |l| && r == l[..|r|]
    ensures s[|s| - |l|..|s| - |l| + |r|] == r
  {
    assert s[|s| - |l|..|s| - |l| + |r|] == s[|s| - |l|..][..|r|];
  }

  /** ...and everything it removes, in front and behind, is whitespace. */
  lemma StripRemovesOnlySpace(s: string)
    ensures Lead(s) + |Strip(s)| <= |s|
    ensures AllSpace(s[..Lead(s)]) && AllSpace(s[Lead(s) + |Strip(s)|..])
  {
    var l := StripLeading(s);
    var r := StripTrailing(l);
    var lead := |s| - |l|;
    assert s[lead + |r|..] == l[|r|..];
  }

  /** Leading whitespace in front of a string that does not start with whitespace is
      exactly what `lstrip` removes. */
  lemma {:induction false} StripLeadingPadded(p: string, m: string)
    requires AllSpace(p) && (m == [] || !IsSpace(m[0]))
    ensures StripLeading(p + m) == m
  {
    if p == [] {
      assert p + m == m;
    } else {
      assert (p + m)[0] == p[0];
      assert (p + m)[1..] == p[1..] + m;
      StripLeadingPadded(p[1..], m);
    }
  }

  /** Trailing whitespace behind a string that does not end in whitespace is exactly
      what `rstrip` removes. */
  lemma {:induction false} StripTrailingPadded(m: string, q: string)
    requires AllSpace(q) && (m == [] || !IsSpace(m[|m| - 1]))
    ensures StripTrailing(m + q) == m
  {
    if q == [] {
      assert m + q == m;
    } else {
      assert (m + q)[|m + q| - 1] == q[|q| - 1];
      assert (m + q)[..|m + q| - 1] == m + q[..|q| - 1];
      StripTrailingPadded(m, q[..|q| - 1]);
    }
  }

  /** `strip` of a trimmed string padded with whitespace on both sides gives that
      string back; with the three lemmas above this pins `Strip` down completely. */
  lemma StripPadded(p: string, m: string, q: string)
    requires AllSpace(p) && AllSpace(q) && Trimmed(m)
    ensures Strip(p + m + q) == m
  {
    if m == [] {
      assert p + m + q == (p + q) + m;
      StripLeadingPadded(p + q, m);
    } else {
      assert p + m + q == p + (m + q);
      StripLeadingPadded(p, m + q);
      StripTrailingPadded(m, q);
    }
  }

  /** A trimmed string is left as it is. */
  lemma StripOfTrimmed(m: string)
    requires Trimmed(m)
    ensures Strip(m) == m
  {
    assert StripLeading(m) == m;
    assert StripTrailing(m) == m;
  }

  /** Stripping twice is stripping once. */
  lemma StripIdempotent(s: string)
    ensures Strip(Strip(s)) == Strip(s)
  {
    StripTrimmed(s);
    StripOfTrimmed(Strip(s));
  }

  // ---------------------------------------------------------------------------
  // Classification of a column name

  /** The (Статья, Контрагент) pair the reshape gives a column, or `Skip` for `Дата`. */
  function Classify(column: string): (l: Label)
    ensures l.Skip? <==> column == DateHeader
  {
    if column == DateHeader then Skip
    else if StartsWith(column, ReceivablePrefix) then Label(ReceivablesArticle, Strip(column[3..]))
    else if StartsWith(column, PayablePrefix) then Label(PayablesArticle, Strip(column[3..]))
    else if column == ReceivablesTotalName then Label(ReceivablesArticle, TotalCounterparty)
    else if column == PayablesTotalName then Label(PayablesArticle, TotalCounterparty)
    else Label(column, NoCounterparty)
  }

  /** A counterparty column `f"ДЗ: {name}"` or `f"КЗ: {name}"` is classified under its
      category with the counterparty's name recovered, whenever that name has no
      surrounding whitespace. */
  lemma ClassifyCounterparty(prefix: string, name: string)
    requires prefix == ReceivablePrefix || prefix == PayablePrefix
    requires Trimmed(name)
    ensures Classify(DetailName(prefix, name))
            == Label(if prefix == ReceivablePrefix then ReceivablesArticle else PayablesArticle, name)
  {
    var column := DetailName(prefix, name);
    DetailNameTail(prefix, name);
    DetailNameIsNotDate(prefix, name);
    if prefix == PayablePrefix {
      DiffersAt(column, ReceivablePrefix, 0);
    }
  }

  /** Stripping what follows the three-letter prefix gives back a trimmed name. */
  lemma DetailNameTail(prefix: string, name: string)
    requires |prefix| == 3 && Trimmed(name)
    ensures Strip(DetailName(prefix, name)[3..]) == name
  {
    assert DetailName(prefix, name)[3..] == " " + name + [];
    StripPadded(" ", name, []);
  }

  /** No counterparty column is `Дата`. */
  lemma DetailNameIsNotDate(prefix: string, name: string)
    requires prefix == ReceivablePrefix || prefix == PayablePrefix
    ensures DetailName(prefix, name) != DateHeader
  {
    assert DetailName(prefix, name)[1] == 'З';
  }

  /** The two ИТОГО columns are classified as their category's total. */
  lemma ClassifyTotals()
    ensures Classify(ReceivablesTotalName) == Label(ReceivablesArticle, TotalCounterparty)
    ensures Classify(PayablesTotalName) == Label(PayablesArticle, TotalCounterparty)
  {
    NamedColumnsUnprefixed(ReceivablesTotalName);
    NamedColumnsUnprefixed(PayablesTotalName);
  }

  /** Every other named column keeps its own name as the article, with no counterparty. */
  lemma ClassifyNamed(column: string)
    requires column in {MaterialsName, FinishedGoodsName, InventoryName, WorkingCapitalName}
    ensures Classify(column) == Label(column, NoCounterparty)
  {
    NamedColumnsUnprefixed(column);
  }

  /** The counterparty names have no surrounding whitespace, so the reshape recovers
      them exactly. */
  lemma CounterpartiesTrimmed()
    ensures forall k :: 0 <= k < |DebtorNames| ==> Trimmed(DebtorNames[k])
    ensures forall k :: 0 <= k < |CreditorNames| ==> Trimmed(CreditorNames[k])
  {
    DebtorsTrimmed();
    CreditorsTrimmed();
  }

  lemma DebtorsTrimmed()
    ensures forall k :: 0 <= k < |DebtorNames| ==> Trimmed(DebtorNames[k])
  {
  }

  lemma CreditorsTrimmed()
    ensures forall k :: 0 <= k < |CreditorNames| ==> Trimmed(CreditorNames[k])
  {
  }

  // ---------------------------------------------------------------------------
  // Unpivot

  /** The block `temp_df` of one column: one row per date, in row order, labelled by
      the column's classification; nothing for `Дата`. */
  function ColumnBlock(dates: seq<Date>, col: Column): (b: seq<LongRow>)
    requires |col.values| == |dates|
    ensures |b| == if col.name == DateHeader then 0 else |dates|
  {
    match Classify(col.name)
    case Skip => []
    case Label(article, counterparty) =>
      seq(|dates|, i requires 0 <= i < |dates| => LongRow(dates[i], article, counterparty, col.values[i]))
  }

  /** The long sheet before sorting: the blocks of the columns, concatenated in column
      order. */
  function Unpivot(dates: seq<Date>, cols: seq<Column>): seq<LongRow>
    requires Rectangular(cols, |dates|)
  {
    if cols == [] then []
    else Unpivot(dates, cols[..|cols| - 1]) + ColumnBlock(dates, cols[|cols| - 1])
  }

  /** No amount column is named `Дата` (the frame keeps the dates apart). */
  predicate NoDateColumn(cols: seq<Column>) {
    forall k :: 0 <= k < |cols| ==> cols[k].name != DateHeader
  }

  /** The unpivoted sheet has one row per date and amount column. */
  lemma {:induction false} UnpivotLength(dates: seq<Date>, cols: seq<Column>)
    requires Rectangular(cols, |dates|) && NoDateColumn(cols)
    ensures |Unpivot(dates, cols)| == |dates| * |cols|
  {
    if cols != [] {
      var init := cols[..|cols| - 1];
      UnpivotLength(dates, init);
      assert |ColumnBlock(dates, cols[|cols| - 1])| == |dates|;
      MulSucc(|dates|, |init|);
    }
  }

  /** Where value i of amount column k lands in the unpivoted sheet: each column
      contributes one block of `rows` rows. */
  function Position(rows: nat, k: nat, i: nat): nat
  {
    rows * k + i
  }

  /** Row `|dates| * k + i` of the unpivoted sheet is the i-th value of the k-th column,
      dated with the i-th date and labelled by the column's classification. */
  lemma {:induction false} UnpivotAt(dates: seq<Date>, cols: seq<Column>, k: nat, i: nat)
    requires Rectangular(cols, |dates|) && NoDateColumn(cols)
    requires k < |cols| && i < |dates|
    ensures Position(|dates|, k, i) < |Unpivot(dates, cols)|
            && Unpivot(dates, cols)[Position(|dates|, k, i)]
               == LongRow(dates[i], Classify(cols[k].name).article, Classify(cols[k].name).counterparty,
                          cols[k].values[i])
  {
    var init := cols[..|cols| - 1];
    UnpivotLength(dates, cols);
    UnpivotLength(dates, init);
    MulStep(|dates|, k, |cols|, i);
    if k < |cols| - 1 {
      MulStep(|dates|, k, |init|, i);
      UnpivotAt(dates, init, k, i);
    } else {
      assert |dates| * k == |Unpivot(dates, init)|;
    }
  }

  /** Every value of every amount column is in the unpivoted sheet, with its date and
      its column's labels. */
  lemma {:induction false} UnpivotHas(dates: seq<Date>, cols: seq<Column>, k: nat, i: nat)
    requires Rectangular(cols, |dates|) && NoDateColumn(cols)
    requires k < |cols| && i < |dates|
    ensures LongRow(dates[i], Classify(cols[k].name).article, Classify(cols[k].name).counterparty,
                    cols[k].values[i]) in Unpivot(dates, cols)
  {
    var init := cols[..|cols| - 1];
    if k < |cols| - 1 {
      UnpivotHas(dates, init, k, i);
    } else {
      assert ColumnBlock(dates, cols[k])[i]
             == LongRow(dates[i], Classify(cols[k].name).article, Classify(cols[k].name).counterparty, cols[k].values[i]);
    }
  }

  lemma MulSucc(n: nat, m: nat)
    ensures n * (m + 1) == n * m + n
  {
  }

  /** `n * k + i < n * m` for `i < n` and `k < m`. */
  lemma MulStep(n: nat, k: nat, m: nat, i: nat)
    requires i < n && k < m
    ensures n * k + i < n * m
  {
    assert n * k + n <= n * m by {
      assert n * (k + 1) <= n * m;
    }
  }

  /** Every row of the unpivoted sheet carries one of the frame's dates. */
  lemma {:induction false} UnpivotDates(dates: seq<Date>, cols: seq<Column>, j: nat)
    requires Rectangular(cols, |dates|) && j < |Unpivot(dates, cols)|
    ensures Unpivot(dates, cols)[j].date in dates
  {
    var init := cols[..|cols| - 1];
    if j < |Unpivot(dates, init)| {
      UnpivotDates(dates, init, j);
    }
  }

  /** Round trip of a counterparty column: the rows the reshape makes of the column
      `f"ДЗ: {name}"` (or `КЗ:`) carry the category's article and `name` itself. */
  lemma CounterpartyRow(dates: seq<Date>, cols: seq<Column>, prefix: string, name: string, k: nat, i: nat)
    requires Rectangular(cols, |dates|) && NoDateColumn(cols)
    requires prefix == ReceivablePrefix || prefix == PayablePrefix
    requires Trimmed(name) && k < |cols| && i < |dates| && cols[k].name == DetailName(prefix, name)
    ensures && Position(|dates|, k, i) < |Unpivot(dates, cols)|
            && Unpivot(dates, cols)[Position(|dates|, k, i)]
               == LongRow(dates[i], if prefix == ReceivablePrefix then ReceivablesArticle else PayablesArticle,
                          name, cols[k].values[i])
  {
    UnpivotAt(dates, cols, k, i);
    ClassifyCounterparty(prefix, name);
  }

  /** Hence every value of a counterparty column appears in the long sheet under the
      counterparty's name. */
  lemma CounterpartyRowIn(dates: seq<Date>, cols: seq<Column>, prefix: string, name: string, k: nat, i: nat)
    requires Rectangular(cols, |dates|) && NoDateColumn(cols)
    requires prefix == ReceivablePrefix || prefix == PayablePrefix
    requires Trimmed(name) && k < |cols| && i < |dates| && cols[k].name == DetailName(prefix, name)
    ensures LongRow(dates[i], if prefix == ReceivablePrefix then ReceivablesArticle else PayablesArticle,
                    name, cols[k].values[i]) in Unpivot(dates, cols)
  {
    UnpivotHas(dates, cols, k, i);
    ClassifyCounterparty(prefix, name);
  }

  /** The amount columns of the monthly frame have one value per date and none of them
      is named `Дата`. */
  lemma MonthlyColumnsShape(s: Series, rows: nat, debtors: seq<string>, creditors: seq<string>)
    requires WellShaped(s, rows, debtors, creditors)
    ensures var cols := MonthlyColumns(s, rows, debtors, creditors);
            Rectangular(cols, rows) && NoDateColumn(cols)
  {
    var layout := Layout(s, debtors, creditors);
    var cols := MonthlyColumns(s, rows, debtors, creditors);
    LayoutTotals(s, rows, debtors, creditors);
    LayoutExcludes(s, debtors, creditors, DateHeader);
    forall j | 0 <= j < |cols|
      ensures |cols[j].values| == rows && cols[j].name != DateHeader
    {
      if j < |layout| {
        assert cols[j] == layout[j];
        assert Names(layout)[j] == layout[j].name;
      }
    }
  }

  /** The long sheet of the monthly frame, before sorting. */
  function MonthlySheet(dates: seq<Date>, s: Series, debtors: seq<string>, creditors: seq<string>): seq<LongRow>
    requires WellShaped(s, |dates|, debtors, creditors)
  {
    MonthlyColumnsShape(s, |dates|, debtors, creditors);
    Unpivot(dates, MonthlyColumns(s, |dates|, debtors, creditors))
  }

  /** The long sheet of the monthly frame holds, for every date and counterparty, that
      counterparty's amount on that date under its category's article and its own
      name. */
  lemma LayoutCounterpartyRows(dates: seq<Date>, s: Series, debtors: seq<string>, creditors: seq<string>, k: nat, i: nat)
    requires WellShaped(s, |dates|, debtors, creditors) && i < |dates|
    requires forall j :: 0 <= j < |debtors| ==> Trimmed(debtors[j])
    requires forall j :: 0 <= j < |creditors| ==> Trimmed(creditors[j])
    ensures k < |debtors| ==>
              LongRow(dates[i], ReceivablesArticle, debtors[k], s.debts[k][i]) in MonthlySheet(dates, s, debtors, creditors)
    ensures k < |creditors| ==>
              LongRow(dates[i], PayablesArticle, creditors[k], s.credits[k][i]) in MonthlySheet(dates, s, debtors, creditors)
  {
    if k < |debtors| {
      LayoutDebtorRow(dates, s, debtors, creditors, k, i);
    }
    if k < |creditors| {
      LayoutCreditorRow(dates, s, debtors, creditors, k, i);
    }
  }

  /** Debtor k's amount on date i is in the monthly long sheet. */
  lemma LayoutDebtorRow(dates: seq<Date>, s: Series, debtors: seq<string>, creditors: seq<string>, k: nat, i: nat)
    requires WellShaped(s, |dates|, debtors, creditors) && i < |dates| && k < |debtors|
    requires forall j :: 0 <= j < |debtors| ==> Trimmed(debtors[j])
    ensures LongRow(dates[i], ReceivablesArticle, debtors[k], s.debts[k][i]) in MonthlySheet(dates, s, debtors, creditors)
  {
    var cols := MonthlyColumns(s, |dates|, debtors, creditors);
    MonthlyColumnsShape(s, |dates|, debtors, creditors);
    assert MonthlySheet(dates, s, debtors, creditors) == Unpivot(dates, cols);
    LayoutAt(s, debtors, creditors, k);
    ColumnOfSheet(s, |dates|, debtors, creditors, 2 + k);
    CounterpartyRowIn(dates, cols, ReceivablePrefix, debtors[k], 2 + k, i);
  }

  /** Creditor k's amount on date i is in the monthly long sheet. */
  lemma LayoutCreditorRow(dates: seq<Date>, s: Series, debtors: seq<string>, creditors: seq<string>, k: nat, i: nat)
    requires WellShaped(s, |dates|, debtors, creditors) && i < |dates| && k < |creditors|
    requires forall j :: 0 <= j < |creditors| ==> Trimmed(creditors[j])
    ensures LongRow(dates[i], PayablesArticle, creditors[k], s.credits[k][i]) in MonthlySheet(dates, s, debtors, creditors)
  {
    var cols := MonthlyColumns(s, |dates|, debtors, creditors);
    MonthlyColumnsShape(s, |dates|, debtors, creditors);
    assert MonthlySheet(dates, s, debtors, creditors) == Unpivot(dates, cols);
    LayoutAt(s, debtors, creditors, k);
    ColumnOfSheet(s, |dates|, debtors, creditors, 2 + |debtors| + k);
    CounterpartyRowIn(dates, cols, PayablePrefix, creditors[k], 2 + |debtors| + k, i);
  }

  /** The monthly columns start with the layout. */
  lemma ColumnOfSheet(s: Series, rows: nat, debtors: seq<string>, creditors: seq<string>, j: nat)
    requires WellShaped(s, rows, debtors, creditors) && j < |Layout(s, debtors, creditors)|
    ensures j < |MonthlyColumns(s, rows, debtors, creditors)|
    ensures MonthlyColumns(s, rows, debtors, creditors)[j] == Layout(s, debtors, creditors)[j]
  {
  }

  /** For the generator's own counterparties: the long sheet lists every debtor's and
      every creditor's amounts under exactly the name the wide frame was built with. */
  lemma MonthlyCounterpartyRows(dates: seq<Date>, s: Series, k: nat, i: nat)
    requires WellShaped(s, |dates|, DebtorNames, CreditorNames) && i < |dates| && k < 10
    ensures LongRow(dates[i], ReceivablesArticle, DebtorNames[k], s.debts[k][i])
            in MonthlySheet(dates, s, DebtorNames, CreditorNames)
    ensures LongRow(dates[i], PayablesArticle, CreditorNames[k], s.credits[k][i])
            in MonthlySheet(dates, s, DebtorNames, CreditorNames)
  {
    CounterpartiesTrimmed();
    LayoutCounterpartyRows(dates, s, DebtorNames, CreditorNames, k, i);
  }

  // ---------------------------------------------------------------------------
  // Sorting by date

  /** Dates never decrease along the sheet. */
  predicate SortedByDate(rows: seq<LongRow>) {
    forall j, k :: 0 <= j < k < |rows| ==> LessEq(rows[j].date, rows[k].date)
  }

  /** Insert a row in front of the first row dated after it. */
  function Insert(x: LongRow, rows: seq<LongRow>): (r: seq<LongRow>)
    requires SortedByDate(rows)
    ensures SortedByDate(r) && multiset(r) == multiset(rows) + multiset{x}
  {
    if rows == [] then [x]
    else if LessEq(x.date, rows[0].date) then
      InsertFront(x, rows);
      [x] + rows
    else
      var rest := Insert(x, rows[1..]);
      assert rows == [rows[0]] + rows[1..];
      InsertBehind(x, rows, rest);
      [rows[0]] + rest
  }

  /** A row not later than the first of a sorted sheet can go in front. */
  lemma InsertFront(x: LongRow, rows: seq<LongRow>)
    requires SortedByDate(rows) && rows != [] && LessEq(x.date, rows[0].date)
    ensures SortedByDate([x] + rows)
  {
    forall j | 0 <= j < |rows| ensures LessEq(x.date, rows[j].date) {
      if j > 0 { LessEqTrans(x.date, rows[0].date, rows[j].date); }
    }
  }

  /** The first row of a sorted sheet can stay in front of the others with a later row
      inserted among them. */
  lemma InsertBehind(x: LongRow, rows: seq<LongRow>, rest: seq<LongRow>)
    requires SortedByDate(rows) && rows != [] && !LessEq(x.date, rows[0].date)
    requires SortedByDate(rest) && multiset(rest) == multiset(rows[1..]) + multiset{x}
    ensures SortedByDate([rows[0]] + rest)
  {
    LessEqTotal(x.date, rows[0].date);
    forall j | 0 <= j < |rest| ensures LessEq(rows[0].date, rest[j].date) {
      assert rest[j] in multiset(rest);
      if rest[j] != x {
        assert rest[j] in multiset(rows[1..]);
        assert rest[j] in rows[1..];
      }
    }
  }

  /** `sort_values('Дата')`: an ordering by date of the same rows. */
  function SortByDate(rows: seq<LongRow>): (r: seq<LongRow>)
    ensures SortedByDate(r) && multiset(r) == multiset(rows)
  {
    if rows == [] then []
    else
      assert rows == [rows[0]] + rows[1..];
      Insert(rows[0], SortByDate(rows[1..]))
  }

  // ---------------------------------------------------------------------------
  // The reshape

  /** The second sheet of `export_to_excel`: the unpivoted frame, sorted by date.  It
      holds exactly the rows of `Unpivot`, |dates| of them per amount column, in an
      order where dates never decrease. */
  method LongFormat(df: Frame) returns (long: seq<LongRow>)
    requires df.Valid()
    ensures SortedByDate(long)
    ensures multiset(long) == multiset(Unpivot(df.dates, df.columns))
    ensures |long| == |df.dates| * (|df.Headers()| - 1)
  {
    var dates := df.dates;
    var cols := df.columns;
    var acc: seq<LongRow> := [];
    for k := 0 to |cols|
      invariant acc == Unpivot(dates, cols[..k])
    {
      assert cols[..k + 1][..k] == cols[..k];
      var tag := Classify(cols[k].name);
      if tag.Label? {
        acc := acc + seq(|dates|, i requires 0 <= i < |dates| => LongRow(dates[i], tag.article, tag.counterparty, cols[k].values[i]));
      }
    }
    assert cols[..|cols|] == cols;
    long := SortByDate(acc);
    assert NoDateColumn(cols) by {
      forall k | 0 <= k < |cols| ensures cols[k].name != DateHeader {
        assert Names(cols)[k] == cols[k].name;
      }
    }
    UnpivotLength(dates, cols);
    assert |long| == |multiset(long)| == |multiset(acc)| == |acc|;
  }

  // ---------------------------------------------------------------------------
  // Pivoting back

  /** No two dates of the frame are the same. */
  predicate DistinctDates(dates: seq<Date>) {
    forall a, b :: 0 <= a < b < |dates| ==> dates[a] != dates[b]
  }

  /** No two amount columns get the same (Статья, Контрагент) pair. */
  predicate DistinctLabels(cols: seq<Column>) {
    forall j, k :: 0 <= j < k < |cols| ==> Classify(cols[j].name) != Classify(cols[k].name)
  }

  /** Every row of the unpivoted sheet is one value of one amount column, with that
      value's date and the column's labels. */
  lemma {:induction false} UnpivotFrom(dates: seq<Date>, cols: seq<Column>, r: LongRow)
    requires Rectangular(cols, |dates|) && NoDateColumn(cols)
    requires r in Unpivot(dates, cols)
    ensures exists k, i :: 0 <= k < |cols| && 0 <= i < |dates|
              && r == LongRow(dates[i], Classify(cols[k].name).article, Classify(cols[k].name).counterparty,
                              cols[k].values[i])
  {
    var init := cols[..|cols| - 1];
    var last := |cols| - 1;
    var block := ColumnBlock(dates, cols[last]);
    if r in Unpivot(dates, init) {
      UnpivotFrom(dates, init, r);
      var k, i :| 0 <= k < |init| && 0 <= i < |dates|
                  && r == LongRow(dates[i], Classify(init[k].name).article, Classify(init[k].name).counterparty,
                                  init[k].values[i]);
      assert init[k] == cols[k];
    } else {
      assert r in block;
      var i :| 0 <= i < |block| && block[i] == r;
      assert r == LongRow(dates[i], Classify(cols[last].name).article, Classify(cols[last].name).counterparty,
                          cols[last].values[i]);
    }
  }

  /** Pivoting the long sheet back: when the dates are distinct and no two columns share
      a label, the rows with a given date and a given column's (Статья, Контрагент)
      carry exactly one amount, the column's value on that date.  `long` is any
      reordering of the unpivoted sheet, such as the sorted one `LongFormat` writes. */
  lemma PivotBack(dates: seq<Date>, cols: seq<Column>, long: seq<LongRow>, k: nat, i: nat)
    requires Rectangular(cols, |dates|) && NoDateColumn(cols)
    requires DistinctDates(dates) && DistinctLabels(cols)
    requires multiset(long) == multiset(Unpivot(dates, cols))
    requires k < |cols| && i < |dates|
    ensures (set r | r in long && r.date == dates[i] && Label(r.article, r.counterparty) == Classify(cols[k].name)
               :: r.amount)
            == {cols[k].values[i]}
  {
    var amounts := set r | r in long && r.date == dates[i] && Label(r.article, r.counterparty) == Classify(cols[k].name)
                     :: r.amount;
    UnpivotHas(dates, cols, k, i);
    var own := LongRow(dates[i], Classify(cols[k].name).article, Classify(cols[k].name).counterparty, cols[k].values[i]);
    assert own in multiset(long);
    assert own in long;
    assert cols[k].values[i] in amounts;
    forall x | x in amounts
      ensures x == cols[k].values[i]
    {
      var r :| r in long && r.date == dates[i] && Label(r.article, r.counterparty) == Classify(cols[k].name)
               && r.amount == x;
      assert r in multiset(Unpivot(dates, cols));
      UnpivotFrom(dates, cols, r);
      var k', i' :| 0 <= k' < |cols| && 0 <= i' < |dates|
                    && r == LongRow(dates[i'], Classify(cols[k'].name).article, Classify(cols[k'].name).counterparty,
                                    cols[k'].values[i']);
      assert Classify(cols[k'].name) == Classify(cols[k].name);
      assert k' == k;
      assert i' == i;
    }
  }

  /** No row of a sheet occurs twice. */
  predicate NoRepeats(rows: seq<LongRow>) {
    forall p, q :: 0 <= p < q < |rows| ==> rows[p] != rows[q]
  }

  /** A sheet that repeats no row holds each row at most once. */
  lemma {:induction false} NoRepeatsCount(rows: seq<LongRow>, x: LongRow)
    requires NoRepeats(rows)
    ensures multiset(rows)[x] <= 1
  {
    if rows != [] {
      var init := rows[..|rows| - 1];
      assert rows == init + [rows[|rows| - 1]];
      NoRepeatsCount(init, x);
      if x == rows[|rows| - 1] {
        assert x !in init;
      }
    }
  }

  /** Two sheets that repeat no row and share no row make one that repeats none. */
  lemma NoRepeatsAppend(a: seq<LongRow>, b: seq<LongRow>)
    requires NoRepeats(a) && NoRepeats(b)
    requires forall x :: x in a ==> x !in b
    ensures NoRepeats(a + b)
  {
    var c := a + b;
    forall p, q | 0 <= p < q < |c|
      ensures c[p] != c[q]
    {
      if p < |a| && |a| <= q {
        assert c[p] == a[p] && c[p] in a;
        assert c[q] == b[q - |a|] && c[q] in b;
      } else if |a| <= p {
        assert c[p] == b[p - |a|] && c[q] == b[q - |a|];
      } else {
        assert c[p] == a[p] && c[q] == a[q];
      }
    }
  }

  /** The block of one column repeats no row when the dates are distinct. */
  lemma BlockNoRepeats(dates: seq<Date>, col: Column)
    requires |col.values| == |dates| && col.name != DateHeader && DistinctDates(dates)
    ensures NoRepeats(ColumnBlock(dates, col))
  {
    var block := ColumnBlock(dates, col);
    forall p, q | 0 <= p < q < |block|
      ensures block[p] != block[q]
    {
      assert block[p].date == dates[p] && block[q].date == dates[q];
    }
  }

  /** A row of the unpivoted front columns is not in the block of a column whose label
      none of them shares. */
  lemma FrontNotInBlock(dates: seq<Date>, init: seq<Column>, col: Column, x: LongRow)
    requires Rectangular(init, |dates|) && NoDateColumn(init)
    requires |col.values| == |dates| && col.name != DateHeader
    requires forall j :: 0 <= j < |init| ==> Classify(init[j].name) != Classify(col.name)
    requires x in Unpivot(dates, init)
    ensures x !in ColumnBlock(dates, col)
  {
    UnpivotFrom(dates, init, x);
    var k, i :| 0 <= k < |init| && 0 <= i < |dates|
                && x == LongRow(dates[i], Classify(init[k].name).article, Classify(init[k].name).counterparty,
                                init[k].values[i]);
    var block := ColumnBlock(dates, col);
    assert Label(x.article, x.counterparty) == Classify(init[k].name) != Classify(col.name);
    forall t | 0 <= t < |block|
      ensures block[t] != x
    {
      assert Label(block[t].article, block[t].counterparty) == Classify(col.name);
    }
  }

  /** With distinct dates and distinct labels, the unpivoted sheet repeats no row:
      rows of one block differ in their date, rows of different blocks in their
      labels. */
  lemma {:induction false} UnpivotNoRepeats(dates: seq<Date>, cols: seq<Column>)
    requires Rectangular(cols, |dates|) && NoDateColumn(cols)
    requires DistinctDates(dates) && DistinctLabels(cols)
    ensures NoRepeats(Unpivot(dates, cols))
  {
    if cols != [] {
      var last := |cols| - 1;
      var init := cols[..last];
      var front := Unpivot(dates, init);
      var block := ColumnBlock(dates, cols[last]);
      forall j, k | 0 <= j < k < |init|
        ensures Classify(init[j].name) != Classify(init[k].name)
      {
        assert init[j] == cols[j] && init[k] == cols[k];
      }
      UnpivotNoRepeats(dates, init);
      BlockNoRepeats(dates, cols[last]);
      forall j | 0 <= j < |init|
        ensures Classify(init[j].name) != Classify(cols[last].name)
      {
        assert init[j] == cols[j];
      }
      forall x | x in front
        ensures x !in block
      {
        FrontNotInBlock(dates, init, cols[last], x);
      }
      NoRepeatsAppend(front, block);
    }
  }

  /** The uniqueness half of pivoting back: any reordering of the unpivoted sheet holds
      column k's value on date i exactly once, and every row with that date and that
      column's (Статья, Контрагент) is that row. */
  lemma PivotBackUnique(dates: seq<Date>, cols: seq<Column>, long: seq<LongRow>, k: nat, i: nat)
    requires Rectangular(cols, |dates|) && NoDateColumn(cols)
    requires DistinctDates(dates) && DistinctLabels(cols)
    requires multiset(long) == multiset(Unpivot(dates, cols))
    requires k < |cols| && i < |dates|
    ensures multiset(long)[LongRow(dates[i], Classify(cols[k].name).article, Classify(cols[k].name).counterparty,
                                   cols[k].values[i])] == 1
    ensures forall r :: r in long && r.date == dates[i] && Label(r.article, r.counterparty) == Classify(cols[k].name)
                        ==> r == LongRow(dates[i], Classify(cols[k].name).article, Classify(cols[k].name).counterparty,
                                         cols[k].values[i])
  {
    var own := LongRow(dates[i], Classify(cols[k].name).article, Classify(cols[k].name).counterparty, cols[k].values[i]);
    UnpivotHas(dates, cols, k, i);
    UnpivotNoRepeats(dates, cols);
    NoRepeatsCount(Unpivot(dates, cols), own);
    assert own in multiset(Unpivot(dates, cols));
    forall r | r in long && r.date == dates[i] && Label(r.article, r.counterparty) == Classify(cols[k].name)
      ensures r == own
    {
      assert r in multiset(Unpivot(dates, cols));
      UnpivotFrom(dates, cols, r);
      var k', i' :| 0 <= k' < |cols| && 0 <= i' < |dates|
                    && r == LongRow(dates[i'], Classify(cols[k'].name).article, Classify(cols[k'].name).counterparty,
                                    cols[k'].values[i']);
      assert Classify(cols[k'].name) == Classify(cols[k].name);
      assert k' == k;
      assert i' == i;
    }
  }

  /** The label the reshape gives the j-th amount column of the monthly frame. */
  function MonthlyLabel(debtors: seq<string>, creditors: seq<string>, j: nat): Label
    requires j < |debtors| + |creditors| + 6
  {
    var n := |debtors| + |creditors|;
    if j == 0 then Label(MaterialsName, NoCounterparty)
    else if j == 1 then Label(FinishedGoodsName, NoCounterparty)
    else if j < 2 + |debtors| then Label(ReceivablesArticle, debtors[j - 2])
    else if j < 2 + n then Label(PayablesArticle, creditors[j - 2 - |debtors|])
    else if j == 2 + n then Label(ReceivablesArticle, TotalCounterparty)
    else if j == 3 + n then Label(PayablesArticle, TotalCounterparty)
    else if j == 4 + n then Label(InventoryName, NoCounterparty)
    else Label(WorkingCapitalName, NoCounterparty)
  }

  /** The layout part of the monthly frame is labelled as `MonthlyLabel` says. */
  lemma LayoutColumnLabel(s: Series, debtors: seq<string>, creditors: seq<string>, j: nat)
    requires |s.debts| == |debtors| && |s.credits| == |creditors|
    requires forall t :: 0 <= t < |debtors| ==> Trimmed(debtors[t])
    requires forall t :: 0 <= t < |creditors| ==> Trimmed(creditors[t])
    requires j < 2 + |debtors| + |creditors|
    ensures |Layout(s, debtors, creditors)| == 2 + |debtors| + |creditors|
    ensures Classify(Layout(s, debtors, creditors)[j].name) == MonthlyLabel(debtors, creditors, j)
  {
    LayoutAt(s, debtors, creditors, 0);
    if j < 2 {
      NamedColumnLabel(s, debtors, creditors, j);
    } else if j < 2 + |debtors| {
      DebtorColumnLabel(s, debtors, creditors, j);
    } else {
      CreditorColumnLabel(s, debtors, creditors, j);
    }
  }

  lemma NamedColumnLabel(s: Series, debtors: seq<string>, creditors: seq<string>, j: nat)
    requires |s.debts| == |debtors| && |s.credits| == |creditors| && j < 2
    ensures j < |Layout(s, debtors, creditors)|
    ensures Classify(Layout(s, debtors, creditors)[j].name) == MonthlyLabel(debtors, creditors, j)
  {
    var layout := Layout(s, debtors, creditors);
    assert layout[j] == NamedColumns(s)[j];
    ClassifyNamed(layout[j].name);
  }

  lemma DebtorColumnLabel(s: Series, debtors: seq<string>, creditors: seq<string>, j: nat)
    requires |s.debts| == |debtors| && |s.credits| == |creditors| && 2 <= j < 2 + |debtors|
    requires Trimmed(debtors[j - 2])
    ensures j < |Layout(s, debtors, creditors)|
    ensures Classify(Layout(s, debtors, creditors)[j].name) == MonthlyLabel(debtors, creditors, j)
  {
    var t := j - 2;
    LayoutAt(s, debtors, creditors, t);
    assert Layout(s, debtors, creditors)[j] == Layout(s, debtors, creditors)[2 + t];
    ClassifyCounterparty(ReceivablePrefix, debtors[t]);
  }

  lemma CreditorColumnLabel(s: Series, debtors: seq<string>, creditors: seq<string>, j: nat)
    requires |s.debts| == |debtors| && |s.credits| == |creditors|
    requires 2 + |debtors| <= j < 2 + |debtors| + |creditors|
    requires Trimmed(creditors[j - 2 - |debtors|])
    ensures j < |Layout(s, debtors, creditors)|
    ensures Classify(Layout(s, debtors, creditors)[j].name) == MonthlyLabel(debtors, creditors, j)
  {
    var t := j - 2 - |debtors|;
    LayoutAt(s, debtors, creditors, t);
    assert Layout(s, debtors, creditors)[j] == Layout(s, debtors, creditors)[2 + |debtors| + t];
    ClassifyCounterparty(PayablePrefix, creditors[t]);
  }

  /** Every amount column of the monthly frame is labelled as `MonthlyLabel` says. */
  lemma MonthlyColumnLabel(s: Series, rows: nat, debtors: seq<string>, creditors: seq<string>, j: nat)
    requires WellShaped(s, rows, debtors, creditors)
    requires forall t :: 0 <= t < |debtors| ==> Trimmed(debtors[t])
    requires forall t :: 0 <= t < |creditors| ==> Trimmed(creditors[t])
    requires j < |debtors| + |creditors| + 6
    ensures |MonthlyColumns(s, rows, debtors, creditors)| == |debtors| + |creditors| + 6
    ensures Classify(MonthlyColumns(s, rows, debtors, creditors)[j].name) == MonthlyLabel(debtors, creditors, j)
  {
    LayoutAt(s, debtors, creditors, 0);
    if j < 2 + |debtors| + |creditors| {
      ColumnOfSheet(s, rows, debtors, creditors, j);
      LayoutColumnLabel(s, debtors, creditors, j);
    } else {
      TailColumnLabel(s, rows, debtors, creditors, j);
    }
  }

  /** The four columns added after the layout: the two totals, `Запасы` and `ЧОК`. */
  lemma TailColumnLabel(s: Series, rows: nat, debtors: seq<string>, creditors: seq<string>, j: nat)
    requires WellShaped(s, rows, debtors, creditors)
    requires 2 + |debtors| + |creditors| <= j < |debtors| + |creditors| + 6
    ensures j < |MonthlyColumns(s, rows, debtors, creditors)|
    ensures Classify(MonthlyColumns(s, rows, debtors, creditors)[j].name) == MonthlyLabel(debtors, creditors, j)
  {
    var layout := Layout(s, debtors, creditors);
    var cols := MonthlyColumns(s, rows, debtors, creditors);
    var t := j - (2 + |debtors| + |creditors|);
    LayoutAt(s, debtors, creditors, 0);
    var names := [ReceivablesTotalName, PayablesTotalName, InventoryName, WorkingCapitalName];
    assert cols[j].name == names[t];
    ClassifyTotals();
    ClassifyNamed(InventoryName);
    ClassifyNamed(WorkingCapitalName);
  }

  /** With distinct counterparty names of which none is 'ИТОГО', the monthly labels are
      pairwise distinct.  (A debtor named 'ИТОГО' would share its label with the
      receivables total.) */
  lemma MonthlyLabelsDistinct(debtors: seq<string>, creditors: seq<string>, j: nat, k: nat)
    requires Distinct(debtors) && Distinct(creditors)
    requires TotalCounterparty !in debtors && TotalCounterparty !in creditors
    requires j < k < |debtors| + |creditors| + 6
    ensures MonthlyLabel(debtors, creditors, j) != MonthlyLabel(debtors, creditors, k)
  {
  }

  /** The monthly frame's amount columns carry pairwise distinct labels. */
  lemma MonthlyDistinctLabels(s: Series, rows: nat, debtors: seq<string>, creditors: seq<string>)
    requires WellShaped(s, rows, debtors, creditors)
    requires forall t :: 0 <= t < |debtors| ==> Trimmed(debtors[t])
    requires forall t :: 0 <= t < |creditors| ==> Trimmed(creditors[t])
    requires Distinct(debtors) && Distinct(creditors)
    requires TotalCounterparty !in debtors && TotalCounterparty !in creditors
    ensures DistinctLabels(MonthlyColumns(s, rows, debtors, creditors))
  {
    var cols := MonthlyColumns(s, rows, debtors, creditors);
    MonthlyColumnLabel(s, rows, debtors, creditors, 0);
    forall j, k | 0 <= j < k < |cols|
      ensures Classify(cols[j].name) != Classify(cols[k].name)
    {
      MonthlyColumnLabel(s, rows, debtors, creditors, j);
      MonthlyColumnLabel(s, rows, debtors, creditors, k);
      MonthlyLabelsDistinct(debtors, creditors, j, k);
    }
  }

  /** The dates of the monthly frame, the firsts of month of `generate_months`, are
      distinct: the i-th lies i months after the first. */
  lemma MonthsDistinct(start: Date, end: Date)
    requires Valid(start) && Valid(end)
    ensures DistinctDates(Months.Months(start, end))
  {
    Months.MonthStartsShape(FirstOfMonth(start), end);
  }

  /** The generator's counterparty names are never 'ИТОГО'. */
  lemma NoCounterpartyIsTotal()
    ensures TotalCounterparty !in DebtorNames && TotalCounterparty !in CreditorNames
  {
  }

  /** Pivoting the monthly long sheet back recovers the wide frame: for distinct dates
      (the firsts of month are, by `MonthsDistinct`), the rows with date `dates[i]` and the j-th column's
      label carry exactly that column's value on that date, in the unsorted sheet and
      in any reordering of it. */
  lemma MonthlySheetPivotsBack(dates: seq<Date>, s: Series, long: seq<LongRow>, j: nat, i: nat)
    requires WellShaped(s, |dates|, DebtorNames, CreditorNames) && DistinctDates(dates)
    requires multiset(long) == multiset(MonthlySheet(dates, s, DebtorNames, CreditorNames))
    requires j < |DebtorNames| + |CreditorNames| + 6 && i < |dates|
    ensures j < |MonthlyColumns(s, |dates|, DebtorNames, CreditorNames)|
            && i < |MonthlyColumns(s, |dates|, DebtorNames, CreditorNames)[j].values|
    ensures (set r | r in long && r.date == dates[i]
                     && Label(r.article, r.counterparty) == MonthlyLabel(DebtorNames, CreditorNames, j) :: r.amount)
            == {MonthlyColumns(s, |dates|, DebtorNames, CreditorNames)[j].values[i]}
  {
    CounterpartiesTrimmed();
    DistinctCounterparties();
    NoCounterpartyIsTotal();
    MonthlyPivotsBack(dates, s, DebtorNames, CreditorNames, long, j, i);
  }

  /** `MonthlySheetPivotsBack` for any counterparty lists meeting its conditions. */
  lemma MonthlyPivotsBack(dates: seq<Date>, s: Series, debtors: seq<string>, creditors: seq<string>,
                          long: seq<LongRow>, j: nat, i: nat)
    requires WellShaped(s, |dates|, debtors, creditors) && DistinctDates(dates)
    requires forall t :: 0 <= t < |debtors| ==> Trimmed(debtors[t])
    requires forall t :: 0 <= t < |creditors| ==> Trimmed(creditors[t])
    requires Distinct(debtors) && Distinct(creditors)
    requires TotalCounterparty !in debtors && TotalCounterparty !in creditors
    requires multiset(long) == multiset(MonthlySheet(dates, s, debtors, creditors))
    requires j < |debtors| + |creditors| + 6 && i < |dates|
    ensures j < |MonthlyColumns(s, |dates|, debtors, creditors)|
            && i < |MonthlyColumns(s, |dates|, debtors, creditors)[j].values|
    ensures (set r | r in long && r.date == dates[i]
                     && Label(r.article, r.counterparty) == MonthlyLabel(debtors, creditors, j) :: r.amount)
            == {MonthlyColumns(s, |dates|, debtors, creditors)[j].values[i]}
  {
    var cols := MonthlyColumns(s, |dates|, debtors, creditors);
    MonthlyColumnsShape(s, |dates|, debtors, creditors);
    MonthlyColumnLabel(s, |dates|, debtors, creditors, j);
    MonthlyDistinctLabels(s, |dates|, debtors, creditors);
    assert MonthlySheet(dates, s, debtors, creditors) == Unpivot(dates, cols);
    PivotBack(dates, cols, long, j, i);
  }
}
