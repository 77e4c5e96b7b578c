/** The dataset built from the JSON export of the cafe database: one row per
    calendar day from the first to the last order, the database columns
    joined onto it and zero-filled, the sales taken from the orders, the
    guarded ratios, the engineered features and the size band of the data
    quality report. */
module PipelineJson {
  import opened Wrappers
  import opened Stats
  import opened Calendar
  import opened DailyFrame

  /** Every day from the first to the last order date. */
  function MasterIndex(os: seq<Order>): seq<int>
    requires |os| > 0
  {
    DayRange(MinDay(RowDays(os, OrderDay)), MaxDay(RowDays(os, OrderDay)))
  }

  /** The index is contiguous, starts on the day of an order no other order
      precedes, ends on the day of one no other order follows, and holds
      every order's day. */
  lemma MasterIndexSpec(os: seq<Order>)
    requires |os| > 0
    ensures var days := MasterIndex(os);
            |days| > 0 && Consecutive(days) &&
            (exists i :: 0 <= i < |os| && os[i].day == days[0]) &&
            (exists i :: 0 <= i < |os| && os[i].day == days[|days| - 1]) &&
            (forall i :: 0 <= i < |os| ==> days[0] <= os[i].day <= days[|days| - 1] && os[i].day in days)
  {
    var ds := RowDays(os, OrderDay);
    var lo := MinDay(ds);
    var hi := MaxDay(ds);
    DayRangeConsecutive(lo, hi);
    var il :| 0 <= il < |ds| && ds[il] == lo;
    var ih :| 0 <= ih < |ds| && ds[ih] == hi;
    forall i | 0 <= i < |os| ensures os[i].day in MasterIndex(os) {
      DayRangeCovers(lo, hi, os[i].day);
    }
  }

  /** The columns the script makes sure exist after the zero fill. */
  const Required: seq<Column> := [TotalSales, ReceiptExpenses, CashSales, OrdersCount, Discounts,
                                  MorningShiftSales, EveningShiftSales, ItemsSold, TotalExpenses,
                                  InventoryWasteQty, InventoryUsageQty, OrderSales]

  /** The required columns are exactly those read from the database. */
  lemma RequiredColumns()
    ensures forall c :: c in Required <==> !IsMetric(c)
  {
  }

  /** The backfill loop: every required column that is missing is added as
      zeros; the columns already there keep their values. */
  method Backfill(t: Table, required: seq<Column>, n: nat) returns (r: Table)
    ensures forall c :: c in r <==> c in t || c in required
    ensures forall c :: c in t ==> r[c] == t[c]
    ensures forall c :: c in r && c !in t ==> r[c] == Zeros(n)
  {
    r := t;
    for i := 0 to |required|
      invariant forall c :: c in r <==> c in t || c in required[..i]
      invariant forall c :: c in t ==> r[c] == t[c]
      invariant forall c :: c in r && c !in t ==> r[c] == Zeros(n)
    {
      assert required[..i + 1] == required[..i] + [required[i]];
      if required[i] !in r {
        r := r[required[i] := Zeros(n)];
      }
    }
    assert required[..|required|] == required;
  }

  /** The joins of the per-day tables onto the index: a table is joined
      when it has rows, and all columns of one table have rows exactly when
      the table has. */
  method JoinTables(src: Sources, days: seq<int>) returns (frame: Frame)
    ensures forall c :: c in frame <==> c in Required && |Grouped(src, c)| > 0
    ensures forall c :: c in frame ==> frame[c] == Joined(src, days, c)
  {
    frame := map[];
    for k := 0 to |Required|
      invariant forall c :: c in frame <==> c in Required[..k] && |Grouped(src, c)| > 0
      invariant forall c :: c in frame ==> frame[c] == Joined(src, days, c)
    {
      assert Required[..k + 1] == Required[..k] + [Required[k]];
      var c := Required[k];
      if |Grouped(src, c)| > 0 {
        frame := frame[c := Joined(src, days, c)];
      }
    }
    assert Required[..|Required|] == Required;
  }

  /** After the zero fill and the backfill every required column holds each
      day's value over the index. */
  lemma FilledColumns(src: Sources, days: seq<int>, frame: Frame, table: Table)
    requires forall c :: c in frame <==> c in Required && |Grouped(src, c)| > 0
    requires forall c :: c in frame ==> frame[c] == Joined(src, days, c)
    requires forall c :: c in table <==> c in frame || c in Required
    requires forall c :: c in frame ==> table[c] == Fill(frame[c])
    requires forall c :: c in table && c !in frame ==> table[c] == Zeros(|days|)
    ensures forall c :: c in table <==> c in Required
    ensures forall c :: c in table ==> table[c] == DayColumn(src, days, c)
  {
    forall c | c in table
      ensures table[c] == DayColumn(src, days, c)
    {
      if c in frame {
        JoinFilled(src, days, c);
      } else {
        NoRowsColumn(src, days, c);
      }
    }
  }

  /** Once `total_sales` is replaced by the order sales, adding the computed
      columns completes the table. */
  lemma SalesFromOrders(src: Sources, days: seq<int>, table: Table)
    requires forall c :: c in table <==> c in Required
    requires forall c :: c in table ==> table[c] == DayColumn(src, days, c)
    ensures var t := table[TotalSales := table[OrderSales]];
            ReadyForMetrics(src, OrderSales, days, t) &&
            Assembled(src, OrderSales, Dataset(days, AddMetrics(t, |days|)), AllColumns)
  {
    RequiredColumns();
    EveryColumn();
    var t := table[TotalSales := table[OrderSales]];
    AddMetricsAssembled(src, OrderSales, days, t, AllColumns);
  }

  /** `extract_dataset`: None when there are no orders (the script returns
      an empty frame); otherwise the master index from the first to the last
      order day with every column of the table, the database columns holding
      each day's sums and `total_sales` replaced by the order sales. */
  method ExtractDataset(src: Sources) returns (r: Option<Dataset>)
    ensures r.None? <==> |src.orders| == 0
    ensures r.Some? ==> r.value.days == MasterIndex(src.orders)
    ensures r.Some? ==> Assembled(src, OrderSales, r.value, AllColumns)
  {
    if |src.orders| == 0 {
      return None;
    }
    var days := MasterIndex(src.orders);
    var frame := JoinTables(src, days);
    var table := FillNa(frame);
    table := Backfill(table, Required, |days|);
    FilledColumns(src, days, frame, table);
    SalesFromOrders(src, days, table);
    table := table[TotalSales := table[OrderSales]];
    table := AddMetrics(table, |days|);
    r := Some(Dataset(days, table));
  }

  /** In the dataset the morning and evening shift columns split each day's
      sales. */
  lemma SalesSplit(src: Sources, ds: Dataset, i: nat)
    requires Assembled(src, OrderSales, ds, AllColumns) && i < |ds.days|
    ensures ds.table[TotalSales][i] == ds.table[MorningShiftSales][i] + ds.table[EveningShiftSales][i]
  {
    var d := ds.days[i];
    assert ds.table[TotalSales][i] == DayValue(src, OrderSales, d);
    assert ds.table[MorningShiftSales][i] == DayValue(src, MorningShiftSales, d);
    assert ds.table[EveningShiftSales][i] == DayValue(src, EveningShiftSales, d);
    ShiftColumnsSplit(src, d);
  }

  // --------------------------------------------------------------- features

  /** The columns `engineer_features` adds. */
  datatype Features = Features(rolling7: seq<real>, rolling30: seq<real>, burnRate: seq<real>,
                               salesGrowth: seq<Ext>, expenseGrowth: seq<Ext>,
                               lag1: seq<real>, lag7: seq<real>,
                               dayOfWeek: seq<int>, isWeekend: seq<real>)

  /** The columns the features are computed from, one value per day. */
  predicate HasFeatureInputs(ds: Dataset)
  {
    TotalSales in ds.table && TotalExpenses in ds.table && InventoryUsageQty in ds.table &&
    |ds.table[TotalSales]| == |ds.days| && |ds.table[TotalExpenses]| == |ds.days| &&
    |ds.table[InventoryUsageQty]| == |ds.days|
  }

  /** `engineer_features`: 7- and 30-day rolling sales means, the 7-day
      rolling usage as burn rate, day-over-day growth of sales and expenses,
      sales lagged by 1 and 7 days, the weekday and the Friday-Saturday
      weekend flag. */
  function EngineerFeatures(ds: Dataset): (f: Features)
    requires HasFeatureInputs(ds)
  {
    var sales := ds.table[TotalSales];
    Features(Rolling(sales, 7), Rolling(sales, 30), Rolling(ds.table[InventoryUsageQty], 7),
             PctChange(sales, 1), PctChange(ds.table[TotalExpenses], 1),
             ShiftOrZero(sales, 1), ShiftOrZero(sales, 7),
             seq(|ds.days|, i requires 0 <= i < |ds.days| => Weekday(ds.days[i])),
             seq(|ds.days|, i requires 0 <= i < |ds.days| => WeekendFlag(FridaySaturday, ds.days[i])))
  }

  /** The rolling means average the last min(i + 1, 7) or min(i + 1, 30)
      values up to day i. */
  lemma FeatureWindows(ds: Dataset, i: nat)
    requires HasFeatureInputs(ds) && i < |ds.days|
    ensures var f := EngineerFeatures(ds);
            var s := ds.table[TotalSales];
            var u := ds.table[InventoryUsageQty];
            var m7 := if i + 1 < 7 then i + 1 else 7;
            var m30 := if i + 1 < 30 then i + 1 else 30;
            f.rolling7[i] == Sum(s[i + 1 - m7..i + 1]) / (m7 as real) &&
            f.rolling30[i] == Sum(s[i + 1 - m30..i + 1]) / (m30 as real) &&
            f.burnRate[i] == Sum(u[i + 1 - m7..i + 1]) / (m7 as real)
  {
    RollingWindow(ds.table[TotalSales], 7, i);
    RollingWindow(ds.table[TotalSales], 30, i);
    RollingWindow(ds.table[InventoryUsageQty], 7, i);
  }

  /** The lags are the sales 1 and 7 days earlier, 0 before the data starts;
      the growth of sales and of expenses is 0 on the first day, undoes to
      the day's value over a nonzero base and is infinite exactly over a zero
      base with a nonzero value; the weekend flag is 1 exactly on Fridays and
      Saturdays. */
  lemma FeatureShifts(ds: Dataset, i: nat)
    requires HasFeatureInputs(ds) && i < |ds.days|
    ensures var f := EngineerFeatures(ds);
            var s := ds.table[TotalSales];
            var e := ds.table[TotalExpenses];
            f.lag1[i] == (if i < 1 then 0.0 else s[i - 1]) &&
            f.lag7[i] == (if i < 7 then 0.0 else s[i - 7]) &&
            (i == 0 ==> f.salesGrowth[i] == Fin(0.0) && f.expenseGrowth[i] == Fin(0.0)) &&
            (i >= 1 && s[i - 1] != 0.0 ==> f.salesGrowth[i].Fin? && s[i - 1] * (1.0 + f.salesGrowth[i].value) == s[i]) &&
            (i >= 1 ==> (!f.salesGrowth[i].Fin? <==> s[i - 1] == 0.0 && s[i] != 0.0)) &&
            (i >= 1 && e[i - 1] != 0.0 ==> f.expenseGrowth[i].Fin? && e[i - 1] * (1.0 + f.expenseGrowth[i].value) == e[i]) &&
            (i >= 1 ==> (!f.expenseGrowth[i].Fin? <==> e[i - 1] == 0.0 && e[i] != 0.0)) &&
            (f.isWeekend[i] == 1.0 <==> f.dayOfWeek[i] == 4 || f.dayOfWeek[i] == 5) &&
            (f.isWeekend[i] == 0.0 <==> f.dayOfWeek[i] != 4 && f.dayOfWeek[i] != 5)
  {
    if i >= 1 {
      PctChangeInverse(ds.table[TotalSales], 1, i);
      PctChangeInverse(ds.table[TotalExpenses], 1, i);
    }
  }

  /** Over the contiguous index the weekday advances by one each row. */
  lemma FeatureWeekdays(ds: Dataset, i: nat)
    requires HasFeatureInputs(ds) && Consecutive(ds.days) && i + 1 < |ds.days|
    ensures var f := EngineerFeatures(ds);
            f.dayOfWeek[i + 1] == (f.dayOfWeek[i] + 1) % 7
  {
    WeekdayNext(ds.days[i]);
  }

  /** The assembled dataset carries every input of the features. */
  lemma AssembledHasFeatureInputs(src: Sources, ds: Dataset)
    requires Assembled(src, OrderSales, ds, AllColumns)
    ensures HasFeatureInputs(ds)
  {
  }

  // ---------------------------------------------------------- data quality

  datatype SizeBand = SmallDataset | ModerateDataset | AdequateDataset

  /** The readiness line of `analyze_data_quality`: under 30 days small,
      under 90 moderate, otherwise adequate. */
  function SizeBandOf(days: nat): (b: SizeBand)
    ensures b == SmallDataset <==> days < 30
    ensures b == ModerateDataset <==> 30 <= days < 90
    ensures b == AdequateDataset <==> days >= 90
  {
    if days < 30 then SmallDataset else if days < 90 then ModerateDataset else AdequateDataset
  }
}
