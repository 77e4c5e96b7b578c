/** The dataset built from the SQL dump of the cafe database: one row per
    calendar day from the first order (or, without orders, the first
    receipt) to the latest order or receipt, the database columns joined
    onto it and zero-filled with the sales taken from the receipts, the
    guarded ratios and the engineered features. */
module Pipeline {
  import opened Wrappers
  import opened Stats
  import opened Calendar
  import opened DailyFrame

  /** The start is the first order day, or the first receipt day when there
      are no orders; the end is the latest order or receipt day. With
      neither there is no date to start from and pandas raises. */
  function MasterIndex(src: Sources): (r: Result<seq<int>, string>)
    ensures r.Failure? <==> |src.orders| == 0 && |src.receipts| == 0
  {
    if |src.orders| == 0 && |src.receipts| == 0 then Failure("no order or receipt dates")
    else
      var start := if |src.orders| > 0 then MinDay(RowDays(src.orders, OrderDay)) else MinDay(RowDays(src.receipts, ReceiptDay));
      Success(DayRange(start, MaxDay(RowDays(src.orders, OrderDay) + RowDays(src.receipts, ReceiptDay))))
  }

  /** The index is contiguous and ends on a day of an order or a receipt
      that nothing recorded follows; it holds every order's day. */
  lemma MasterIndexEnd(src: Sources)
    requires MasterIndex(src).Success?
    ensures var days := MasterIndex(src).value;
            |days| > 0 && Consecutive(days) &&
            ((exists i :: 0 <= i < |src.orders| && src.orders[i].day == days[|days| - 1]) ||
             (exists i :: 0 <= i < |src.receipts| && src.receipts[i].day == days[|days| - 1])) &&
            (forall i :: 0 <= i < |src.orders| ==> src.orders[i].day in days) &&
            (forall i :: 0 <= i < |src.receipts| ==> src.receipts[i].day <= days[|days| - 1])
  {
    var od := RowDays(src.orders, OrderDay);
    var rd := RowDays(src.receipts, ReceiptDay);
    var all := od + rd;
    var start := if |src.orders| > 0 then MinDay(od) else MinDay(rd);
    var end := MaxDay(all);
    DayRangeConsecutive(start, end);
    var k :| 0 <= k < |all| && all[k] == end;
    if k < |od| {
      assert src.orders[k].day == end;
    } else {
      assert src.receipts[k - |od|].day == end;
    }
    forall i | 0 <= i < |src.receipts| ensures src.receipts[i].day <= end {
      assert all[|od| + i] == rd[i];
    }
    forall i | 0 <= i < |src.orders| ensures src.orders[i].day in MasterIndex(src).value {
      assert all[i] == od[i];
      DayRangeCovers(start, end, src.orders[i].day);
    }
    assert start <= end by {
      if |src.orders| > 0 {
        assert all[0] == od[0];
      } else {
        assert all[0] == rd[0];
      }
    }
  }

  /** The index starts on the first order day when there are orders, and
      receipts before it fall outside the index; without orders it starts on
      the first receipt day. Every receipt from the start on is inside. */
  lemma MasterIndexStart(src: Sources)
    requires MasterIndex(src).Success?
    ensures var days := MasterIndex(src).value;
            |days| > 0 &&
            (|src.orders| > 0 ==> (exists i :: 0 <= i < |src.orders| && src.orders[i].day == days[0]) &&
                                  forall i :: 0 <= i < |src.orders| ==> days[0] <= src.orders[i].day) &&
            (|src.orders| == 0 ==> exists i :: 0 <= i < |src.receipts| && src.receipts[i].day == days[0]) &&
            (forall i :: 0 <= i < |src.receipts| ==> (src.receipts[i].day in days <==> days[0] <= src.receipts[i].day))
  {
    MasterIndexEnd(src);
    var od := RowDays(src.orders, OrderDay);
    var rd := RowDays(src.receipts, ReceiptDay);
    var all := od + rd;
    var start := if |src.orders| > 0 then MinDay(od) else MinDay(rd);
    var end := MaxDay(all);
    forall i | 0 <= i < |src.receipts|
      ensures src.receipts[i].day in MasterIndex(src).value <==> start <= src.receipts[i].day
    {
      assert all[|od| + i] == rd[i];
      DayRangeCovers(start, end, src.receipts[i].day);
    }
    if |src.orders| > 0 {
      var k :| 0 <= k < |od| && od[k] == start;
    } else {
      var k :| 0 <= k < |rd| && rd[k] == start;
    }
  }

  /** The columns the joins bring in: each join adds its columns even when
      its table has no rows, except that `unstack` makes a shift column only
      for a shift that some order falls in. */
  const JoinOrder: seq<Column> := [TotalSales, ReceiptExpenses, CashSales, OrdersCount, Discounts,
                                   MorningShiftSales, EveningShiftSales, ItemsSold, TotalExpenses,
                                   InventoryWasteQty, InventoryUsageQty]

  /** The columns the joins bring in. */
  predicate Joins(src: Sources, c: Column)
  {
    !IsMetric(c) && c != OrderSales &&
    (c == MorningShiftSales ==> |ShiftRows(src.orders, Morning)| > 0) &&
    (c == EveningShiftSales ==> |ShiftRows(src.orders, Evening)| > 0)
  }

  lemma JoinOrderColumns()
    ensures forall c :: c in JoinOrder <==> !IsMetric(c) && c != OrderSales
  {
    EveryColumn();
  }

  /** The columns of the finished table: no `order_sales`, and a shift
      column only for a shift with orders. */
  function PipelineColumns(src: Sources): set<Column>
  {
    set c | c in AllColumns && (Joins(src, c) || IsMetric(c))
  }

  method JoinTables(src: Sources, days: seq<int>) returns (frame: Frame)
    ensures forall c :: c in frame <==> Joins(src, c)
    ensures forall c :: c in frame ==> frame[c] == Joined(src, days, c)
  {
    frame := map[];
    for k := 0 to |JoinOrder|
      invariant forall c :: c in frame <==> c in JoinOrder[..k] && Joins(src, c)
      invariant forall c :: c in frame ==> frame[c] == Joined(src, days, c)
    {
      assert JoinOrder[..k + 1] == JoinOrder[..k] + [JoinOrder[k]];
      var c := JoinOrder[k];
      if Joins(src, c) {
        frame := frame[c := Joined(src, days, c)];
      }
    }
    assert JoinOrder[..|JoinOrder|] == JoinOrder;
    JoinOrderColumns();
  }

  /** The joined columns are the table's columns other than the computed
      ones. */
  lemma JoinedColumns(src: Sources)
    ensures Metrics <= PipelineColumns(src)
    ensures forall c :: Joins(src, c) <==> c in PipelineColumns(src) && !IsMetric(c)
  {
    EveryColumn();
  }

  /** After the zero fill the joined columns hold each day's values, ready
      for the computed columns. */
  lemma FilledTable(src: Sources, days: seq<int>, frame: Frame)
    requires forall c :: c in frame <==> Joins(src, c)
    requires forall c :: c in frame ==> frame[c] == Joined(src, days, c)
    ensures ReadyForMetrics(src, TotalSales, days, FillNa(frame))
  {
    var t := FillNa(frame);
    forall c | c in t
      ensures t[c] == DayColumn(src, days, c)
    {
      JoinFilled(src, days, c);
    }
    assert Joins(src, TotalSales) && Joins(src, OrdersCount) && Joins(src, TotalExpenses) && Joins(src, CashSales);
  }

  /** `extract_dataset`: a failure when there is neither an order nor a
      receipt; otherwise the index from the start to the end day with the
      joined columns, each holding the day's sums, `total_sales` from the
      receipts, and the computed columns. */
  method ExtractDataset(src: Sources) returns (r: Result<Dataset, string>)
    ensures r.Failure? <==> |src.orders| == 0 && |src.receipts| == 0
    ensures r.Success? ==> MasterIndex(src) == Success(r.value.days)
    ensures r.Success? ==> Assembled(src, TotalSales, r.value, PipelineColumns(src))
  {
    var index := MasterIndex(src);
    if index.Failure? {
      return Failure(index.error);
    }
    var days := index.value;
    var frame := JoinTables(src, days);
    var table := FillNa(frame);
    FilledTable(src, days, frame);
    JoinedColumns(src);
    AddMetricsAssembled(src, TotalSales, days, table, PipelineColumns(src));
    table := AddMetrics(table, |days|);
    r := Success(Dataset(days, table));
  }

  /** A shift column is in the table exactly when some order falls in that
      shift; `order_sales` never is. */
  lemma ShiftColumnsPresent(src: Sources)
    ensures MorningShiftSales in PipelineColumns(src) <==>
              exists i :: 0 <= i < |src.orders| && src.orders[i].hour < 15
    ensures EveningShiftSales in PipelineColumns(src) <==>
              exists i :: 0 <= i < |src.orders| && src.orders[i].hour >= 15
    ensures OrderSales !in PipelineColumns(src)
  {
    EveryColumn();
    ShiftRowsNonempty(src.orders, Morning);
    ShiftRowsNonempty(src.orders, Evening);
  }

  // --------------------------------------------------------------- features

  /** The columns `engineer_features` adds. */
  datatype Features = Features(rolling7: seq<real>, rolling30: seq<real>, burnRate: seq<real>,
                               salesGrowth: seq<Ext>, expenseGrowth: seq<Ext>, lag1: seq<real>)

  /** The columns the features are computed from, one value per day; the
      usage column may be missing. */
  predicate HasFeatureInputs(ds: Dataset)
  {
    TotalSales in ds.table && TotalExpenses in ds.table &&
    |ds.table[TotalSales]| == |ds.days| && |ds.table[TotalExpenses]| == |ds.days| &&
    (InventoryUsageQty in ds.table ==> |ds.table[InventoryUsageQty]| == |ds.days|)
  }

  /** `engineer_features`: 7- and 30-day rolling sales means, the burn rate
      as the 7-day rolling usage or 0 without a usage column, day-over-day
      growth of sales and expenses, and yesterday's sales. */
  function EngineerFeatures(ds: Dataset): (f: Features)
    requires HasFeatureInputs(ds)
  {
    var sales := ds.table[TotalSales];
    var burn := if InventoryUsageQty in ds.table then Rolling(ds.table[InventoryUsageQty], 7) else Zeros(|ds.days|);
    Features(Rolling(sales, 7), Rolling(sales, 30), burn,
             PctChange(sales, 1), PctChange(ds.table[TotalExpenses], 1), ShiftOrZero(sales, 1))
  }

  /** The rolling means average the last min(i + 1, 7) or min(i + 1, 30)
      values up to day i; the burn rate is 0 without a usage column. */
  lemma FeatureWindows(ds: Dataset, i: nat)
    requires HasFeatureInputs(ds) && i < |ds.days|
    ensures var f := EngineerFeatures(ds);
            var s := ds.table[TotalSales];
            var m7 := if i + 1 < 7 then i + 1 else 7;
            var m30 := if i + 1 < 30 then i + 1 else 30;
            |f.burnRate| == |ds.days| &&
            f.rolling7[i] == Sum(s[i + 1 - m7..i + 1]) / (m7 as real) &&
            f.rolling30[i] == Sum(s[i + 1 - m30..i + 1]) / (m30 as real) &&
            (InventoryUsageQty in ds.table ==>
               f.burnRate[i] == Sum(ds.table[InventoryUsageQty][i + 1 - m7..i + 1]) / (m7 as real)) &&
            (InventoryUsageQty !in ds.table ==> f.burnRate[i] == 0.0)
  {
    RollingWindow(ds.table[TotalSales], 7, i);
    RollingWindow(ds.table[TotalSales], 30, i);
    if InventoryUsageQty in ds.table {
      RollingWindow(ds.table[InventoryUsageQty], 7, i);
    }
  }

  /** Yesterday's sales are 0 on the first day; the growth is 0 on the first
      day, undoes to the day's value over a nonzero base and is infinite
      exactly over a zero base with a nonzero value, for sales and expenses. */
  lemma FeatureShifts(ds: Dataset, i: nat)
    requires HasFeatureInputs(ds) && i < |ds.days|
    ensures var f := EngineerFeatures(ds);
            var s := ds.table[TotalSales];
            var e := ds.table[TotalExpenses];
            f.lag1[i] == (if i < 1 then 0.0 else s[i - 1]) &&
            (i == 0 ==> f.salesGrowth[i] == Fin(0.0) && f.expenseGrowth[i] == Fin(0.0)) &&
            (i >= 1 && s[i - 1] != 0.0 ==> f.salesGrowth[i].Fin? && s[i - 1] * (1.0 + f.salesGrowth[i].value) == s[i]) &&
            (i >= 1 ==> (!f.salesGrowth[i].Fin? <==> s[i - 1] == 0.0 && s[i] != 0.0)) &&
            (i >= 1 && e[i - 1] != 0.0 ==> f.expenseGrowth[i].Fin? && e[i - 1] * (1.0 + f.expenseGrowth[i].value) == e[i]) &&
            (i >= 1 ==> (!f.expenseGrowth[i].Fin? <==> e[i - 1] == 0.0 && e[i] != 0.0))
  {
    if i >= 1 {
      PctChangeInverse(ds.table[TotalSales], 1, i);
      PctChangeInverse(ds.table[TotalExpenses], 1, i);
    }
  }

  /** The assembled dataset carries every input of the features, the usage
      column included. */
  lemma AssembledHasFeatureInputs(src: Sources, ds: Dataset)
    requires Assembled(src, TotalSales, ds, PipelineColumns(src))
    ensures HasFeatureInputs(ds) && InventoryUsageQty in ds.table
  {
    EveryColumn();
  }
}
