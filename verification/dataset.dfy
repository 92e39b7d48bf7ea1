/**
 * `generate_dataset` of both generators, with the series synthesis taken as input:
 * the column-by-column assembly of the wide frame, the two ИТОГО totals, and in the
 * monthly generator the `Запасы` and `ЧОК` columns.
 */
module Dataset {
  import opened Dates
  import opened WideTable

  /** `Дата` and the ИТОГО, `Запасы` and `ЧОК` names are not among the assigned columns. */
  lemma LayoutExcludes(s: Series, debtors: seq<string>, creditors: seq<string>, name: string)
    requires |s.debts| == |debtors| && |s.credits| == |creditors|
    requires name in {DateHeader, ReceivablesTotalName, PayablesTotalName, InventoryName, WorkingCapitalName}
    ensures name !in Names(Layout(s, debtors, creditors))
  {
    var cols := Layout(s, debtors, creditors);
    var dz := DetailColumns(ReceivablePrefix, debtors, s.debts);
    var kz := DetailColumns(PayablePrefix, creditors, s.credits);
    assert cols == NamedColumns(s) + dz + kz;
    forall j | 0 <= j < |cols|
      ensures cols[j].name != name
    {
      if j < 2 {
      } else if j < 2 + |dz| {
        assert cols[j] == dz[j - 2];
        DetailNameIsNotNamed(ReceivablePrefix, debtors[j - 2]);
      } else {
        assert cols[j] == kz[j - 2 - |dz|];
        DetailNameIsNotNamed(PayablePrefix, creditors[j - 2 - |dz|]);
      }
    }
  }

  /** None of the columns in front of the `КЗ:` columns carries that prefix. */
  lemma FrontLacksPayablePrefix(s: Series, debtors: seq<string>)
    requires |s.debts| == |debtors|
    ensures var front := NamedColumns(s) + DetailColumns(ReceivablePrefix, debtors, s.debts);
            forall j :: 0 <= j < |front| ==> !StartsWith(front[j].name, PayablePrefix)
  {
    var dz := DetailColumns(ReceivablePrefix, debtors, s.debts);
    var front := NamedColumns(s) + dz;
    NamedColumnsUnprefixed(MaterialsName);
    NamedColumnsUnprefixed(FinishedGoodsName);
    forall j | 0 <= j < |front|
      ensures !StartsWith(front[j].name, PayablePrefix)
    {
      if j >= 2 {
        assert front[j] == dz[j - 2];
        DiffersAt(front[j].name, PayablePrefix, 0);
      }
    }
  }

  /** Appending one more counterparty column extends the category's columns. */
  lemma DetailColumnsSnoc(prefix: string, names: seq<string>, series: seq<seq<int>>, k: nat)
    requires |names| == |series| && k < |names|
    ensures DetailColumns(prefix, names[..k + 1], series[..k + 1])
            == DetailColumns(prefix, names[..k], series[..k]) + [Column(DetailName(prefix, names[k]), series[k])]
  {
    assert names[..k + 1][k] == names[k];
    assert series[..k + 1][k] == series[k];
  }

  /** The loop `for i, name in enumerate(names): df[f"{prefix} {name}"] = series[i]`:
      it appends one column per counterparty, in order. */
  method AddCounterparties(df: Frame, prefix: string, names: seq<string>, series: seq<seq<int>>)
    requires df.Valid() && Distinct(names) && |names| == |series|
    requires forall k :: 0 <= k < |series| ==> |series[k]| == |df.dates|
    requires prefix == ReceivablePrefix || prefix == PayablePrefix
    requires forall j :: 0 <= j < |df.columns| ==> !StartsWith(df.columns[j].name, prefix)
    modifies df
    ensures df.Valid() && df.dates == old(df.dates)
    ensures df.columns == old(df.columns) + DetailColumns(prefix, names, series)
  {
    ghost var front := df.columns;
    for k := 0 to |names|
      invariant df.Valid() && df.dates == old(df.dates)
      invariant df.columns == front + DetailColumns(prefix, names[..k], series[..k])
    {
      var name := DetailName(prefix, names[k]);
      FreshDetail(front, prefix, names, series, k);
      DetailNameIsNotNamed(prefix, names[k]);
      AssignNewAppends(df.columns, name, series[k]);
      DetailColumnsSnoc(prefix, names, series, k);
      df.Set(name, series[k]);
    }
    assert names[..|names|] == names;
    assert series[..|series|] == series;
  }

  /** Adding the two totals to the layout appends them, with the row sums of the debtor
      and the creditor series as values. */
  lemma TotalsAppended(s: Series, rows: nat, debtors: seq<string>, creditors: seq<string>)
    requires WellShaped(s, rows, debtors, creditors)
    ensures var layout := Layout(s, debtors, creditors);
            && Rectangular(layout, rows)
            && Assign(Assign(layout, ReceivablesTotalName, PrefixTotal(layout, ReceivablePrefix, rows)),
                      PayablesTotalName, PrefixTotal(layout, PayablePrefix, rows))
               == layout + [Column(ReceivablesTotalName, RowTotals(s.debts, rows)),
                            Column(PayablesTotalName, RowTotals(s.credits, rows))]
  {
    var layout := Layout(s, debtors, creditors);
    var withReceivables := layout + [Column(ReceivablesTotalName, RowTotals(s.debts, rows))];
    LayoutTotals(s, rows, debtors, creditors);
    LayoutExcludes(s, debtors, creditors, ReceivablesTotalName);
    LayoutExcludes(s, debtors, creditors, PayablesTotalName);
    AssignNewAppends(layout, ReceivablesTotalName, RowTotals(s.debts, rows));
    NamesAppend(layout, [Column(ReceivablesTotalName, RowTotals(s.debts, rows))]);
    AssignNewAppends(withReceivables, PayablesTotalName, RowTotals(s.credits, rows));
  }

  /** The frame `generate_dataset` builds, for the given dates and generated series:
      `Материалы`, `Готовая продукция`, the ten `ДЗ:` columns, the ten `КЗ:` columns,
      and the two ИТОГО columns, whose values are the per-row sums of the debtor
      series and of the creditor series. */
  method GenerateDataset(dates: seq<Date>, s: Series) returns (df: Frame)
    requires WellShaped(s, |dates|, DebtorNames, CreditorNames)
    ensures fresh(df) && df.Valid() && df.dates == dates
    ensures df.columns
            == Layout(s, DebtorNames, CreditorNames)
               + [Column(ReceivablesTotalName, RowTotals(s.debts, |dates|)),
                  Column(PayablesTotalName, RowTotals(s.credits, |dates|))]
  {
    df := new Frame(dates);
    df.Set(MaterialsName, s.materials);
    df.Set(FinishedGoodsName, s.goods);
    assert df.columns == NamedColumns(s);
    DistinctCounterparties();
    NamedColumnsUnprefixed(MaterialsName);
    NamedColumnsUnprefixed(FinishedGoodsName);
    AddCounterparties(df, ReceivablePrefix, DebtorNames, s.debts);
    FrontLacksPayablePrefix(s, DebtorNames);
    AddCounterparties(df, PayablePrefix, CreditorNames, s.credits);
    df.AddTotals();
    TotalsAppended(s, |dates|, DebtorNames, CreditorNames);
  }

  /** Per row, `Запасы` = `Материалы` + `Готовая продукция`. */
  function Inventory(s: Series): (r: seq<int>)
    requires |s.materials| == |s.goods|
    ensures |r| == |s.materials|
    ensures forall i :: 0 <= i < |r| ==> r[i] == s.materials[i] + s.goods[i]
  {
    Plus(s.materials, s.goods)
  }

  /** Per row, `ЧОК` = `Запасы` + receivables total − payables total. */
  function WorkingCapital(s: Series, rows: nat, debtors: seq<string>, creditors: seq<string>): (r: seq<int>)
    requires WellShaped(s, rows, debtors, creditors)
    ensures |r| == rows
    ensures forall i :: 0 <= i < rows ==>
              r[i] == s.materials[i] + s.goods[i] + SumAt(s.debts, i) - SumAt(s.credits, i)
  {
    Minus(Plus(Inventory(s), RowTotals(s.debts, rows)), RowTotals(s.credits, rows))
  }

  /** The daily frame's columns, looked up by name: the named series and the totals. */
  lemma FrameLookups(s: Series, rows: nat, debtors: seq<string>, creditors: seq<string>, inventory: seq<int>)
    requires WellShaped(s, rows, debtors, creditors)
    ensures var cols := Layout(s, debtors, creditors)
                        + [Column(ReceivablesTotalName, RowTotals(s.debts, rows)),
                           Column(PayablesTotalName, RowTotals(s.credits, rows))];
            && Lookup(cols, MaterialsName) == Some(s.materials)
            && Lookup(cols, FinishedGoodsName) == Some(s.goods)
            && Lookup(cols + [Column(InventoryName, inventory)], ReceivablesTotalName) == Some(RowTotals(s.debts, rows))
            && Lookup(cols + [Column(InventoryName, inventory)], PayablesTotalName) == Some(RowTotals(s.credits, rows))
  {
    var layout := Layout(s, debtors, creditors);
    var totals := [Column(ReceivablesTotalName, RowTotals(s.debts, rows)),
                   Column(PayablesTotalName, RowTotals(s.credits, rows))];
    var rest := DetailColumns(ReceivablePrefix, debtors, s.debts) + DetailColumns(PayablePrefix, creditors, s.credits);
    assert layout + totals == NamedColumns(s) + (rest + totals);
    assert Names(NamedColumns(s)) == [MaterialsName, FinishedGoodsName];
    LookupInFront(NamedColumns(s), rest + totals, MaterialsName);
    LookupInFront(NamedColumns(s), rest + totals, FinishedGoodsName);
    LayoutExcludes(s, debtors, creditors, ReceivablesTotalName);
    LayoutExcludes(s, debtors, creditors, PayablesTotalName);
    assert layout + totals + [Column(InventoryName, inventory)] == layout + (totals + [Column(InventoryName, inventory)]);
    LookupBehind(layout, totals + [Column(InventoryName, inventory)], ReceivablesTotalName);
    LookupBehind(layout, totals + [Column(InventoryName, inventory)], PayablesTotalName);
  }

  /** `Запасы` and `ЧОК` are new names when they are assigned. */
  lemma MonthlyNamesFresh(s: Series, rows: nat, debtors: seq<string>, creditors: seq<string>, inventory: seq<int>)
    requires WellShaped(s, rows, debtors, creditors)
    ensures var cols := Layout(s, debtors, creditors)
                        + [Column(ReceivablesTotalName, RowTotals(s.debts, rows)),
                           Column(PayablesTotalName, RowTotals(s.credits, rows))];
            && InventoryName !in Names(cols)
            && WorkingCapitalName !in Names(cols + [Column(InventoryName, inventory)])
  {
    var layout := Layout(s, debtors, creditors);
    var totals := [Column(ReceivablesTotalName, RowTotals(s.debts, rows)),
                   Column(PayablesTotalName, RowTotals(s.credits, rows))];
    var added := [Column(InventoryName, inventory)];
    LayoutExcludes(s, debtors, creditors, InventoryName);
    LayoutExcludes(s, debtors, creditors, WorkingCapitalName);
    NamesAppend(layout, totals);
    NamesAppend(layout + totals, added);
    assert InventoryName !in Names(totals) && WorkingCapitalName !in Names(totals) by {
      assert Names(totals) == [ReceivablesTotalName, PayablesTotalName];
    }
    assert WorkingCapitalName !in Names(added) by {
      assert Names(added) == [InventoryName];
    }
  }

  /** The amount columns of the monthly frame, in order: the daily layout with its two
      totals, then `Запасы` and `ЧОК`. */
  function MonthlyColumns(s: Series, rows: nat, debtors: seq<string>, creditors: seq<string>): seq<Column>
    requires WellShaped(s, rows, debtors, creditors)
  {
    Layout(s, debtors, creditors)
    + [Column(ReceivablesTotalName, RowTotals(s.debts, rows)),
       Column(PayablesTotalName, RowTotals(s.credits, rows)),
       Column(InventoryName, Inventory(s)),
       Column(WorkingCapitalName, WorkingCapital(s, rows, debtors, creditors))]
  }

  /** Lines 174-175 of the monthly `generate_dataset`: `Запасы` and `ЧОК` are computed
      from the frame's own columns and appended to it. */
  method AddInventoryAndCapital(df: Frame, s: Series, debtors: seq<string>, creditors: seq<string>)
    requires WellShaped(s, |df.dates|, debtors, creditors) && df.Valid()
    requires df.columns == Layout(s, debtors, creditors)
                           + [Column(ReceivablesTotalName, RowTotals(s.debts, |df.dates|)),
                              Column(PayablesTotalName, RowTotals(s.credits, |df.dates|))]
    modifies df
    ensures df.Valid() && df.dates == old(df.dates)
    ensures df.columns == MonthlyColumns(s, |df.dates|, debtors, creditors)
  {
    FrameLookups(s, |df.dates|, debtors, creditors, Inventory(s));
    MonthlyNamesFresh(s, |df.dates|, debtors, creditors, Inventory(s));
    ghost var front := df.columns;
    var inventory := Plus(df.Get(MaterialsName), df.Get(FinishedGoodsName));
    assert inventory == Inventory(s);
    AssignNewAppends(df.columns, InventoryName, inventory);
    df.Set(InventoryName, inventory);
    assert df.columns == front + [Column(InventoryName, Inventory(s))];

    var capital := Minus(Plus(df.Get(InventoryName), df.Get(ReceivablesTotalName)), df.Get(PayablesTotalName));
    assert capital == WorkingCapital(s, |df.dates|, debtors, creditors);
    AssignNewAppends(df.columns, WorkingCapitalName, capital);
    df.Set(WorkingCapitalName, capital);
    assert df.columns == front + [Column(InventoryName, Inventory(s))] + [Column(WorkingCapitalName, capital)];
  }

  /** The monthly `generate_dataset`: the same frame followed by `Запасы` and `ЧОК`,
      both computed from the frame's own columns. */
  method GenerateMonthlyDataset(dates: seq<Date>, s: Series) returns (df: Frame)
    requires WellShaped(s, |dates|, DebtorNames, CreditorNames)
    ensures fresh(df) && df.Valid() && df.dates == dates
    ensures df.columns == MonthlyColumns(s, |dates|, DebtorNames, CreditorNames)
  {
    df := GenerateDataset(dates, s);
    AddInventoryAndCapital(df, s, DebtorNames, CreditorNames);
  }
}
