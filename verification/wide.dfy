/**
 * The wide table both generators build: a `Дата` column followed by amount
 * columns that `generate_dataset` assigns one by one, the per-row ИТОГО totals of
 * the `ДЗ:` and `КЗ:` columns, the monthly `Запасы` and `ЧОК` columns, and the
 * column-width rule of `export_to_excel`.  Amounts are integers (kopecks).
 */
module WideTable {
  import opened Dates

  datatype Option<T> = None | Some(value: T)

  /** One amount column of the table. */
  datatype Column = Column(name: string, values: seq<int>)

  const DateHeader: string := "Дата"
  const MaterialsName: string := "Материалы"
  const FinishedGoodsName: string := "Готовая продукция"
  const ReceivablePrefix: string := "ДЗ:"
  const PayablePrefix: string := "КЗ:"
  const ReceivablesTotalName: string := "Дебиторская задолженность ИТОГО"
  const PayablesTotalName: string := "Кредиторская задолженность ИТОГО"
  const InventoryName: string := "Запасы"
  const WorkingCapitalName: string := "ЧОК"

  const DebtorNames: seq<string> := [
    "ООО 'ТехноПром'", "АО 'Меркурий'", "ООО 'СтройИнвест'",
    "ЗАО 'ЭнергоСбыт'", "ООО 'АгроХолдинг'", "ИП Иванов А.А.",
    "ООО 'МеталлГрупп'", "АО 'ТрансЛогистика'", "ООО 'МедТех'",
    "ЗАО 'ИТ-Решения'"
  ]

  const CreditorNames: seq<string> := [
    "ООО 'ПоставкаПлюс'", "АО 'ТехноСервис'", "ООО 'СырьеТорг'",
    "ПАО 'ЭнергоСеть'", "ООО 'ЛогистикаПро'", "АО 'СтальИмпорт'",
    "ООО 'ХимПром'", "ЗАО 'СтройМатериалы'", "ООО 'ФинансГрупп'",
    "АО 'ТехИмпорт'"
  ]

  /** Python's `str.startswith`. */
  predicate StartsWith(s: string, prefix: string) {
    |prefix| <= |s| && s[..|prefix|] == prefix
  }

  /** The name of a counterparty column, `f"{prefix} {name}"`. */
  function DetailName(prefix: string, name: string): (r: string)
    ensures |r| == |prefix| + 1 + |name| && StartsWith(r, prefix)
    ensures r[|prefix|] == ' ' && r[|prefix| + 1..] == name
  {
    prefix + " " + name
  }

  function Names(cols: seq<Column>): (names: seq<string>)
    ensures |names| == |cols|
    ensures forall k :: 0 <= k < |cols| ==> names[k] == cols[k].name
  {
    if cols == [] then [] else [cols[0].name] + Names(cols[1..])
  }

  predicate Distinct(names: seq<string>) {
    forall j, k :: 0 <= j < k < |names| ==> names[j] != names[k]
  }

  /** Every column holds one value per row. */
  predicate Rectangular(cols: seq<Column>, rows: nat) {
    forall k :: 0 <= k < |cols| ==> |cols[k].values| == rows
  }

  /** `df[name]`: the values of the first column with that name, if any. */
  function Lookup(cols: seq<Column>, name: string): Option<seq<int>>
  {
    if cols == [] then None
    else if cols[0].name == name then Some(cols[0].values)
    else Lookup(cols[1..], name)
  }

  /** A name is found exactly when some column carries it. */
  lemma {:induction false} LookupFound(cols: seq<Column>, name: string)
    ensures Lookup(cols, name).Some? <==> name in Names(cols)
  {
    if cols != [] {
      assert Names(cols) == [cols[0].name] + Names(cols[1..]);
      LookupFound(cols[1..], name);
    }
  }

  /** A column found by name has the row count of the whole table. */
  lemma {:induction false} LookupRectangular(cols: seq<Column>, name: string, rows: nat)
    requires Rectangular(cols, rows) && Lookup(cols, name).Some?
    ensures |Lookup(cols, name).value| == rows
  {
    if cols[0].name != name {
      LookupRectangular(cols[1..], name, rows);
    }
  }

  /** `df[name] = values`: replaces the column in place when the name is taken,
      appends a new column otherwise. */
  function Assign(cols: seq<Column>, name: string, values: seq<int>): (r: seq<Column>)
    ensures Lookup(r, name) == Some(values)
  {
    if cols == [] then [Column(name, values)]
    else if cols[0].name == name then [Column(name, values)] + cols[1..]
    else [cols[0]] + Assign(cols[1..], name, values)
  }

  /** The names after an assignment: unchanged when the name was taken, the new name
      appended otherwise. */
  lemma {:induction false} AssignNames(cols: seq<Column>, name: string, values: seq<int>)
    ensures Names(Assign(cols, name, values))
            == if name in Names(cols) then Names(cols) else Names(cols) + [name]
  {
    if cols != [] {
      assert Names(cols) == [cols[0].name] + Names(cols[1..]);
      if cols[0].name != name {
        AssignNames(cols[1..], name, values);
        var rest := Assign(cols[1..], name, values);
        assert Names([cols[0]] + rest) == [cols[0].name] + Names(rest);
      } else {
        assert Names([Column(name, values)] + cols[1..]) == [name] + Names(cols[1..]);
      }
    }
  }

  /** Assigning a full-length column keeps every column full-length. */
  lemma {:induction false} AssignRectangular(cols: seq<Column>, name: string, values: seq<int>, rows: nat)
    requires Rectangular(cols, rows) && |values| == rows
    ensures Rectangular(Assign(cols, name, values), rows)
  {
    if cols != [] && cols[0].name != name {
      AssignRectangular(cols[1..], name, values, rows);
    }
  }

  /** Assigning one column leaves every other name's column as it was. */
  lemma {:induction false} AssignKeepsOthers(cols: seq<Column>, name: string, values: seq<int>, other: string)
    requires other != name
    ensures Lookup(Assign(cols, name, values), other) == Lookup(cols, other)
  {
    if cols != [] && cols[0].name != name {
      AssignKeepsOthers(cols[1..], name, values, other);
    }
  }

  /** Assigning a name that is not yet taken appends exactly that column. */
  lemma AssignNewAppends(cols: seq<Column>, name: string, values: seq<int>)
    requires name !in Names(cols)
    ensures Assign(cols, name, values) == cols + [Column(name, values)]
  {
    if cols != [] {
      assert Names(cols) == [cols[0].name] + Names(cols[1..]);
      AssignNewAppends(cols[1..], name, values);
      assert cols == [cols[0]] + cols[1..];
    }
  }

  /** A name absent from the front is looked up behind it. */
  lemma {:induction false} LookupBehind(a: seq<Column>, b: seq<Column>, name: string)
    requires name !in Names(a)
    ensures Lookup(a + b, name) == Lookup(b, name)
  {
    if a == [] {
      assert a + b == b;
    } else {
      assert Names(a) == [a[0].name] + Names(a[1..]);
      assert (a + b)[0] == a[0] && (a + b)[1..] == a[1..] + b;
      LookupBehind(a[1..], b, name);
    }
  }

  /** A name present in the front is found there. */
  lemma {:induction false} LookupInFront(a: seq<Column>, b: seq<Column>, name: string)
    requires name in Names(a)
    ensures Lookup(a + b, name) == Lookup(a, name)
  {
    assert Names(a) == [a[0].name] + Names(a[1..]);
    if a[0].name != name {
      assert (a + b)[0] == a[0] && (a + b)[1..] == a[1..] + b;
      LookupInFront(a[1..], b, name);
    }
  }

  // ---------------------------------------------------------------------------
  // Totals

  /** The row-i sum of the columns whose name starts with `prefix`. */
  function RowSum(cols: seq<Column>, prefix: string, i: nat): int
    requires forall k :: 0 <= k < |cols| ==> i < |cols[k].values|
  {
    if cols == [] then 0
    else (if StartsWith(cols[0].name, prefix) then cols[0].values[i] else 0)
         + RowSum(cols[1..], prefix, i)
  }

  /** `df[[col for col in df.columns if col.startswith(prefix)]].sum(axis=1)`. */
  function PrefixTotal(cols: seq<Column>, prefix: string, rows: nat): (t: seq<int>)
    requires Rectangular(cols, rows)
    ensures |t| == rows
  {
    seq(rows, i requires 0 <= i < rows => RowSum(cols, prefix, i))
  }

  /** Summing the selected columns of two column lists adds up. */
  lemma {:induction false} RowSumAppend(a: seq<Column>, b: seq<Column>, prefix: string, i: nat)
    requires forall k :: 0 <= k < |a| ==> i < |a[k].values|
    requires forall k :: 0 <= k < |b| ==> i < |b[k].values|
    ensures RowSum(a + b, prefix, i) == RowSum(a, prefix, i) + RowSum(b, prefix, i)
  {
    if a == [] {
      assert a + b == b;
    } else {
      assert (a + b)[1..] == a[1..] + b;
      RowSumAppend(a[1..], b, prefix, i);
    }
  }

  /** Assigning a column whose name lacks the prefix leaves that prefix's sums alone. */
  lemma {:induction false} RowSumIgnoresUnprefixed(cols: seq<Column>, name: string, values: seq<int>, prefix: string, i: nat)
    requires forall k :: 0 <= k < |cols| ==> i < |cols[k].values|
    requires i < |values| && !StartsWith(name, prefix)
    ensures var r := Assign(cols, name, values);
            (forall k :: 0 <= k < |r| ==> i < |r[k].values|) && RowSum(r, prefix, i) == RowSum(cols, prefix, i)
  {
    if cols != [] && cols[0].name != name {
      RowSumIgnoresUnprefixed(cols[1..], name, values, prefix, i);
    }
  }

  /** Per-row sum of a list of series (the counterparty series a category is split into). */
  function SumAt(series: seq<seq<int>>, i: nat): int
    requires forall k :: 0 <= k < |series| ==> i < |series[k]|
  {
    if series == [] then 0 else series[0][i] + SumAt(series[1..], i)
  }

  function RowTotals(series: seq<seq<int>>, rows: nat): (t: seq<int>)
    requires forall k :: 0 <= k < |series| ==> |series[k]| == rows
    ensures |t| == rows
  {
    seq(rows, i requires 0 <= i < rows => SumAt(series, i))
  }

  /** The counterparty columns of one category, `f"{prefix} {name}"`, in order. */
  function DetailColumns(prefix: string, names: seq<string>, series: seq<seq<int>>): (cols: seq<Column>)
    requires |names| == |series|
    ensures |cols| == |names|
    ensures forall k :: 0 <= k < |cols| ==> cols[k] == Column(DetailName(prefix, names[k]), series[k])
  {
    seq(|names|, k requires 0 <= k < |names| => Column(DetailName(prefix, names[k]), series[k]))
  }

  /** Selecting a category's counterparty columns by prefix sums exactly that category's
      series; another category's columns contribute nothing. */
  lemma {:induction false} DetailRowSum(prefix: string, other: string, names: seq<string>, series: seq<seq<int>>, i: nat)
    requires |names| == |series|
    requires forall k :: 0 <= k < |series| ==> i < |series[k]|
    requires !StartsWith(DetailName(other, ""), prefix) && |other| == |prefix|
    ensures RowSum(DetailColumns(prefix, names, series), prefix, i) == SumAt(series, i)
    ensures RowSum(DetailColumns(other, names, series), prefix, i) == 0
  {
    if names != [] {
      var cols := DetailColumns(prefix, names, series);
      var others := DetailColumns(other, names, series);
      assert cols[1..] == DetailColumns(prefix, names[1..], series[1..]);
      assert others[1..] == DetailColumns(other, names[1..], series[1..]);
      DetailRowSum(prefix, other, names[1..], series[1..], i);
      assert StartsWith(cols[0].name, prefix) by {
        assert cols[0].name[..|prefix|] == prefix;
      }
      assert !StartsWith(others[0].name, prefix) by {
        assert others[0].name[..|prefix|] == DetailName(other, "")[..|prefix|];
      }
    }
  }

  /** A string that differs from the prefix at some position of the prefix does not
      start with it. */
  lemma DiffersAt(s: string, prefix: string, j: nat)
    requires j < |s| && j < |prefix| && s[j] != prefix[j]
    ensures !StartsWith(s, prefix)
  {
    if |prefix| <= |s| {
      assert s[..|prefix|][j] != prefix[j];
    }
  }

  /** No named column carries the `ДЗ:` or `КЗ:` prefix, so adding one never changes
      a prefix total. */
  lemma NamedColumnsUnprefixed(name: string)
    requires name in {MaterialsName, FinishedGoodsName, ReceivablesTotalName,
                      PayablesTotalName, InventoryName, WorkingCapitalName}
    ensures !StartsWith(name, ReceivablePrefix) && !StartsWith(name, PayablePrefix)
  {
    assert |name| > 1 && name[1] != 'З';
    DiffersAt(name, ReceivablePrefix, 1);
    DiffersAt(name, PayablePrefix, 1);
  }

  // ---------------------------------------------------------------------------
  // The data frame

  /** The pandas data frame `df`: the `Дата` column and the amount columns after it. */
  class Frame {
    var dates: seq<Date>
    var columns: seq<Column>

    ghost predicate Valid()
      reads this
    {
      Rectangular(columns, |dates|) && Distinct(Names(columns)) && DateHeader !in Names(columns)
    }

    /** `df.columns`. */
    function Headers(): (h: seq<string>)
      reads this
      ensures |h| == |columns| + 1 && h[0] == DateHeader
      ensures forall k :: 0 < k < |h| ==> h[k] == columns[k - 1].name
    {
      [DateHeader] + Names(columns)
    }

    /** `pd.DataFrame({'Дата': dates})`. */
    constructor (dates: seq<Date>)
      ensures Valid() && this.dates == dates && columns == []
    {
      this.dates := dates;
      columns := [];
    }

    /** `df[name]` for a column that is present (pandas raises `KeyError` otherwise). */
    function Get(name: string): (values: seq<int>)
      reads this
      requires Valid() && Lookup(columns, name).Some?
      ensures Lookup(columns, name) == Some(values) && |values| == |dates|
    {
      LookupRectangular(columns, name, |dates|);
      Lookup(columns, name).value
    }

    /** `df[name] = values`. */
    method Set(name: string, values: seq<int>)
      requires Valid() && |values| == |dates| && name != DateHeader
      modifies this
      ensures Valid() && dates == old(dates)
      ensures columns == Assign(old(columns), name, values)
    {
      AssignNames(columns, name, values);
      AssignRectangular(columns, name, values, |dates|);
      columns := Assign(columns, name, values);
    }

    /** The two ИТОГО columns: per row, the sum of the `ДЗ:` columns and the sum of
        the `КЗ:` columns.  The payables sum is taken after the receivables total was
        added, which does not change it because that name lacks the `КЗ:` prefix. */
    method AddTotals()
      requires Valid()
      modifies this
      ensures Valid() && dates == old(dates)
      ensures columns
              == Assign(Assign(old(columns), ReceivablesTotalName, PrefixTotal(old(columns), ReceivablePrefix, |dates|)),
                        PayablesTotalName, PrefixTotal(old(columns), PayablePrefix, |dates|))
    {
      ghost var before := columns;
      Set(ReceivablesTotalName, PrefixTotal(columns, ReceivablePrefix, |dates|));
      assert PrefixTotal(columns, PayablePrefix, |dates|) == PrefixTotal(before, PayablePrefix, |dates|) by {
        NamedColumnsUnprefixed(ReceivablesTotalName);
        forall i | 0 <= i < |dates|
          ensures RowSum(columns, PayablePrefix, i) == RowSum(before, PayablePrefix, i)
        {
          RowSumIgnoresUnprefixed(before, ReceivablesTotalName, PrefixTotal(before, ReceivablePrefix, |dates|), PayablePrefix, i);
        }
      }
      Set(PayablesTotalName, PrefixTotal(columns, PayablePrefix, |dates|));
    }
  }

  // ---------------------------------------------------------------------------
  // Assembling the data set

  /** Pointwise sum of two equally long series (pandas `+` on columns). */
  function Plus(a: seq<int>, b: seq<int>): (r: seq<int>)
    requires |a| == |b|
    ensures |r| == |a|
  {
    seq(|a|, i requires 0 <= i < |a| => a[i] + b[i])
  }

  /** Pointwise difference of two equally long series (pandas `-` on columns). */
  function Minus(a: seq<int>, b: seq<int>): (r: seq<int>)
    requires |a| == |b|
    ensures |r| == |a|
  {
    seq(|a|, i requires 0 <= i < |a| => a[i] - b[i])
  }

  /** The generated series `generate_dataset` assigns: materials, finished goods, and
      one series per debtor and per creditor. */
  datatype Series = Series(materials: seq<int>, goods: seq<int>, debts: seq<seq<int>>, credits: seq<seq<int>>)

  /** Every series has one value per date, and there is one series per counterparty. */
  predicate WellShaped(s: Series, rows: nat, debtors: seq<string>, creditors: seq<string>) {
    && |s.materials| == rows && |s.goods| == rows
    && |s.debts| == |debtors| && |s.credits| == |creditors|
    && (forall k :: 0 <= k < |s.debts| ==> |s.debts[k]| == rows)
    && (forall k :: 0 <= k < |s.credits| ==> |s.credits[k]| == rows)
  }

  /** The two named columns `generate_dataset` assigns first. */
  function NamedColumns(s: Series): seq<Column> {
    [Column(MaterialsName, s.materials), Column(FinishedGoodsName, s.goods)]
  }

  /** The columns before the totals: `Материалы`, `Готовая продукция`, then
      `ДЗ: <debtor>` for every debtor and `КЗ: <creditor>` for every creditor. */
  function Layout(s: Series, debtors: seq<string>, creditors: seq<string>): seq<Column>
    requires |s.debts| == |debtors| && |s.credits| == |creditors|
  {
    NamedColumns(s)
    + DetailColumns(ReceivablePrefix, debtors, s.debts)
    + DetailColumns(PayablePrefix, creditors, s.credits)
  }

  /** Where each counterparty's column sits in the layout: debtor k at position 2 + k,
      creditor k at position 2 + |debtors| + k. */
  lemma LayoutAt(s: Series, debtors: seq<string>, creditors: seq<string>, k: nat)
    requires |s.debts| == |debtors| && |s.credits| == |creditors|
    ensures |Layout(s, debtors, creditors)| == 2 + |debtors| + |creditors|
    ensures k < |debtors| ==>
              Layout(s, debtors, creditors)[2 + k] == Column(DetailName(ReceivablePrefix, debtors[k]), s.debts[k])
    ensures k < |creditors| ==>
              Layout(s, debtors, creditors)[2 + |debtors| + k]
              == Column(DetailName(PayablePrefix, creditors[k]), s.credits[k])
  {
    var dz := DetailColumns(ReceivablePrefix, debtors, s.debts);
    var kz := DetailColumns(PayablePrefix, creditors, s.credits);
    assert Layout(s, debtors, creditors) == NamedColumns(s) + dz + kz;
    if k < |debtors| {
      assert Layout(s, debtors, creditors)[2 + k] == dz[k];
    }
    if k < |creditors| {
      assert Layout(s, debtors, creditors)[2 + |debtors| + k] == kz[k];
    }
  }

  /** The prefix totals over the layout are the row sums of the debtor series and of the
      creditor series: the named columns and the other category add nothing. */
  lemma LayoutTotals(s: Series, rows: nat, debtors: seq<string>, creditors: seq<string>)
    requires WellShaped(s, rows, debtors, creditors)
    ensures var cols := Layout(s, debtors, creditors);
            && Rectangular(cols, rows)
            && PrefixTotal(cols, ReceivablePrefix, rows) == RowTotals(s.debts, rows)
            && PrefixTotal(cols, PayablePrefix, rows) == RowTotals(s.credits, rows)
  {
    forall i | 0 <= i < rows
      ensures RowSum(Layout(s, debtors, creditors), ReceivablePrefix, i) == SumAt(s.debts, i)
      ensures RowSum(Layout(s, debtors, creditors), PayablePrefix, i) == SumAt(s.credits, i)
    {
      LayoutRowSum(s, rows, debtors, creditors, i);
    }
  }

  /** One row of `LayoutTotals`. */
  lemma LayoutRowSum(s: Series, rows: nat, debtors: seq<string>, creditors: seq<string>, i: nat)
    requires WellShaped(s, rows, debtors, creditors) && i < rows
    ensures var cols := Layout(s, debtors, creditors);
            && (forall k :: 0 <= k < |cols| ==> i < |cols[k].values|)
            && RowSum(cols, ReceivablePrefix, i) == SumAt(s.debts, i)
            && RowSum(cols, PayablePrefix, i) == SumAt(s.credits, i)
  {
    ReceivableRowSum(s, rows, debtors, creditors, i);
    PayableRowSum(s, rows, debtors, creditors, i);
  }

  /** The receivable half of `LayoutRowSum`. */
  lemma ReceivableRowSum(s: Series, rows: nat, debtors: seq<string>, creditors: seq<string>, i: nat)
    requires WellShaped(s, rows, debtors, creditors) && i < rows
    ensures var cols := Layout(s, debtors, creditors);
            && (forall k :: 0 <= k < |cols| ==> i < |cols[k].values|)
            && RowSum(cols, ReceivablePrefix, i) == SumAt(s.debts, i)
  {
    var dz := DetailColumns(ReceivablePrefix, debtors, s.debts);
    var kz := DetailColumns(PayablePrefix, creditors, s.credits);
    var front := NamedColumns(s) + dz;
    assert Layout(s, debtors, creditors) == front + kz;
    DiffersAt(DetailName(PayablePrefix, ""), ReceivablePrefix, 0);
    DetailRowSum(ReceivablePrefix, PayablePrefix, debtors, s.debts, i);
    DetailRowSum(ReceivablePrefix, PayablePrefix, creditors, s.credits, i);
    FrontRowSum(s, dz, ReceivablePrefix, i);
    RowSumAppend(front, kz, ReceivablePrefix, i);
  }

  /** The payable half of `LayoutRowSum`. */
  lemma PayableRowSum(s: Series, rows: nat, debtors: seq<string>, creditors: seq<string>, i: nat)
    requires WellShaped(s, rows, debtors, creditors) && i < rows
    ensures var cols := Layout(s, debtors, creditors);
            && (forall k :: 0 <= k < |cols| ==> i < |cols[k].values|)
            && RowSum(cols, PayablePrefix, i) == SumAt(s.credits, i)
  {
    var dz := DetailColumns(ReceivablePrefix, debtors, s.debts);
    var kz := DetailColumns(PayablePrefix, creditors, s.credits);
    var front := NamedColumns(s) + dz;
    assert Layout(s, debtors, creditors) == front + kz;
    DiffersAt(DetailName(ReceivablePrefix, ""), PayablePrefix, 0);
    DetailRowSum(PayablePrefix, ReceivablePrefix, creditors, s.credits, i);
    DetailRowSum(PayablePrefix, ReceivablePrefix, debtors, s.debts, i);
    FrontRowSum(s, dz, PayablePrefix, i);
    RowSumAppend(front, kz, PayablePrefix, i);
  }

  /** The named columns add nothing in front of the counterparty columns. */
  lemma FrontRowSum(s: Series, dz: seq<Column>, prefix: string, i: nat)
    requires prefix == ReceivablePrefix || prefix == PayablePrefix
    requires i < |s.materials| && i < |s.goods|
    requires forall k :: 0 <= k < |dz| ==> i < |dz[k].values|
    ensures var front := NamedColumns(s) + dz;
            && (forall k :: 0 <= k < |front| ==> i < |front[k].values|)
            && RowSum(front, prefix, i) == RowSum(dz, prefix, i)
  {
    NamedRowSum(s, prefix, i);
    RowSumAppend(NamedColumns(s), dz, prefix, i);
  }

  /** `Материалы` and `Готовая продукция` contribute nothing to either prefix total. */
  lemma NamedRowSum(s: Series, prefix: string, i: nat)
    requires prefix == ReceivablePrefix || prefix == PayablePrefix
    requires i < |s.materials| && i < |s.goods|
    ensures RowSum(NamedColumns(s), prefix, i) == 0
  {
    var named := NamedColumns(s);
    NamedColumnsUnprefixed(MaterialsName);
    NamedColumnsUnprefixed(FinishedGoodsName);
    assert RowSum(named[1..][1..], prefix, i) == 0;
    assert RowSum(named[1..], prefix, i) == 0;
  }

  lemma NamesAppend(a: seq<Column>, b: seq<Column>)
    ensures Names(a + b) == Names(a) + Names(b)
  {
  }

  /** Indexing into a concatenation. */
  lemma AppendIndex<T>(a: seq<T>, b: seq<T>, j: int)
    requires 0 <= j < |a| + |b|
    ensures (a + b)[j] == if j < |a| then a[j] else b[j - |a|]
  {
  }

  /** Two counterparty columns of one category share a name only for the same
      counterparty. */
  lemma DetailNameInjective(prefix: string, a: string, b: string)
    requires DetailName(prefix, a) == DetailName(prefix, b)
    ensures a == b
  {
    assert a == DetailName(prefix, a)[|prefix| + 1..];
    assert b == DetailName(prefix, b)[|prefix| + 1..];
  }

  /** A counterparty column's name is new when the columns before it lack its prefix and
      the counterparty names are distinct. */
  lemma FreshDetail(front: seq<Column>, prefix: string, names: seq<string>, series: seq<seq<int>>, k: nat)
    requires Distinct(names) && |names| == |series| && k < |names|
    requires forall j :: 0 <= j < |front| ==> !StartsWith(front[j].name, prefix)
    ensures DetailName(prefix, names[k]) !in Names(front + DetailColumns(prefix, names[..k], series[..k]))
  {
    var n := DetailName(prefix, names[k]);
    var details := DetailColumns(prefix, names[..k], series[..k]);
    var cols := front + details;
    assert StartsWith(n, prefix) by { assert n[..|prefix|] == prefix; }
    forall j | 0 <= j < |cols|
      ensures cols[j].name != n
    {
      if j < |front| {
        AppendIndex(front, details, j);
      } else {
        var m := j - |front|;
        AppendIndex(front, details, j);
        assert names[..k][m] == names[m];
        assert names[m] != names[k];
        assert DetailName(prefix, names[m])[|prefix| + 1..] != n[|prefix| + 1..];
      }
    }
  }

  /** The counterparty names are distinct. */
  lemma DistinctCounterparties()
    ensures Distinct(DebtorNames) && Distinct(CreditorNames)
  {
  }

  /** A counterparty column name is never `Дата` and never one of the named columns. */
  lemma DetailNameIsNotNamed(prefix: string, name: string)
    requires prefix == ReceivablePrefix || prefix == PayablePrefix
    ensures DetailName(prefix, name) !in {DateHeader, MaterialsName, FinishedGoodsName, ReceivablesTotalName,
                                          PayablesTotalName, InventoryName, WorkingCapitalName}
  {
    assert DetailName(prefix, name)[1] == 'З';
  }

  // ---------------------------------------------------------------------------
  // Column widths

  /** `max(len(str(column)), 15)`. */
  function ColumnWidth(header: string): (w: int)
    ensures w >= 15 && w >= |header|
    ensures w == 15 || w == |header|
  {
    if |header| > 15 then |header| else 15
  }

  /** The width loop of `export_to_excel`: one width per header, in column order. */
  method ColumnWidths(headers: seq<string>) returns (widths: seq<int>)
    ensures |widths| == |headers|
    ensures forall k :: 0 <= k < |headers| ==>
              widths[k] >= 15 && widths[k] >= |headers[k]| && (widths[k] == 15 || widths[k] == |headers[k]|)
  {
    widths := [];
    for k := 0 to |headers|
      invariant |widths| == k
      invariant forall j :: 0 <= j < k ==> widths[j] == ColumnWidth(headers[j])
    {
      widths := widths + [ColumnWidth(headers[k])];
    }
  }
}
