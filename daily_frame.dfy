/** The day-by-day table both dataset pipelines assemble from the cafe
    database: the rows the queries return, the columns of the master table,
    the left join of a per-day sum onto the calendar index, the zero fill and
    the ratios guarded against a zero denominator. */
module DailyFrame {
  import opened Wrappers
  import opened Stats
  import opened Calendar

  /** A daily receipt: the sales, expenses and closing cash of one shift. */
  datatype Receipt = Receipt(day: int, totalSales: real, totalExpenses: real, closingCash: real)

  /** An order that was not cancelled: its day, the hour of its timestamp,
      its amount and its discount. */
  datatype Order = Order(day: int, hour: int, totalAmount: real, discount: real)

  datatype MovementKind = Waste | Usage | OtherMovement

  /** An inventory transaction. */
  datatype Movement = Movement(day: int, kind: MovementKind, quantity: real)

  /** The rows of the five queries: receipts, detailed expenses, orders,
      order items (day and quantity) and inventory transactions. */
  datatype Sources = Sources(receipts: seq<Receipt>, expenses: seq<Dated>, orders: seq<Order>,
                             items: seq<Dated>, movements: seq<Movement>)

  /** The day of every row, in row order. */
  function RowDays<R>(rows: seq<R>, day: R -> int): (ds: seq<int>)
    ensures |ds| == |rows| && forall i :: 0 <= i < |rows| ==> ds[i] == day(rows[i])
  {
    seq(|rows|, i requires 0 <= i < |rows| => day(rows[i]))
  }

  /** The day of an order and of a receipt. */
  const OrderDay := (o: Order) => o.day
  const ReceiptDay := (r: Receipt) => r.day

  // ------------------------------------------------------------------ shifts

  datatype ShiftName = Morning | Evening

  /** An order belongs to the morning shift before 15:00, else to the evening. */
  function ShiftOf(hour: int): (s: ShiftName)
    ensures s == Morning <==> hour < 15
    ensures s == Evening <==> hour >= 15
  {
    if hour < 15 then Morning else Evening
  }

  // ---------------------------------------------------------- grouped rows

  datatype ReceiptField = SalesField | ExpensesField | CashField

  function ReceiptValue(r: Receipt, f: ReceiptField): real
  {
    match f
    case SalesField => r.totalSales
    case ExpensesField => r.totalExpenses
    case CashField => r.closingCash
  }

  /** One receipt column as (day, value) rows. */
  function ReceiptRows(rs: seq<Receipt>, f: ReceiptField): (r: seq<Dated>)
    ensures |r| == |rs|
  {
    seq(|rs|, i requires 0 <= i < |rs| => Dated(rs[i].day, ReceiptValue(rs[i], f)))
  }

  /** What an order contributes to a column: 1 to the count of `idOrder`,
      its amount or its discount. */
  datatype OrderField = CountField | AmountField | DiscountField

  function OrderValue(o: Order, f: OrderField): real
  {
    match f
    case CountField => 1.0
    case AmountField => o.totalAmount
    case DiscountField => o.discount
  }

  function OrderRows(os: seq<Order>, f: OrderField): (r: seq<Dated>)
    ensures |r| == |os|
  {
    seq(|os|, i requires 0 <= i < |os| => Dated(os[i].day, OrderValue(os[i], f)))
  }

  /** The amounts of the orders of one shift, in order. */
  function ShiftRows(os: seq<Order>, s: ShiftName): (r: seq<Dated>)
    ensures |r| <= |os|
  {
    if |os| == 0 then []
    else
      var o := os[|os| - 1];
      ShiftRows(os[..|os| - 1], s) + (if ShiftOf(o.hour) == s then [Dated(o.day, o.totalAmount)] else [])
  }

  /** The quantities of the inventory transactions of one kind, in order. */
  function MovementRows(ms: seq<Movement>, k: MovementKind): (r: seq<Dated>)
    ensures |r| <= |ms|
  {
    if |ms| == 0 then []
    else
      var m := ms[|ms| - 1];
      MovementRows(ms[..|ms| - 1], k) + (if m.kind == k then [Dated(m.day, m.quantity)] else [])
  }

  lemma SumOnDaySnoc(t: seq<Dated>, x: Dated, d: int)
    ensures SumOnDay(t + [x], d) == SumOnDay(t, d) + (if x.day == d then x.value else 0.0)
  {
    assert (t + [x])[..|t|] == t;
  }

  /** A day without rows sums to 0, as the zero fill of the join makes it. */
  lemma {:induction false} SumOnDayAbsent(rows: seq<Dated>, d: int)
    requires d !in DaysOf(rows)
    ensures SumOnDay(rows, d) == 0.0
  {
    if |rows| > 0 {
      var init := rows[..|rows| - 1];
      assert rows == init + [rows[|rows| - 1]];
      DaysSnoc(init, rows[|rows| - 1]);
      SumOnDayAbsent(init, d);
    }
  }

  /** Every order is in exactly one shift, so on each day the two shift
      columns add up to the sales of the orders. */
  lemma {:induction false} ShiftSplit(os: seq<Order>, d: int)
    ensures SumOnDay(ShiftRows(os, Morning), d) + SumOnDay(ShiftRows(os, Evening), d)
            == SumOnDay(OrderRows(os, AmountField), d)
  {
    if |os| > 0 {
      ShiftSplit(os[..|os| - 1], d);
      ShiftSumLast(os, Morning, d);
      ShiftSumLast(os, Evening, d);
      OrderSumLast(os, d);
    }
  }

  /** The last order adds its amount to the day's sum of its own shift. */
  lemma ShiftSumLast(os: seq<Order>, s: ShiftName, d: int)
    requires |os| > 0
    ensures var o := os[|os| - 1];
            SumOnDay(ShiftRows(os, s), d) == SumOnDay(ShiftRows(os[..|os| - 1], s), d) +
              (if ShiftOf(o.hour) == s && o.day == d then o.totalAmount else 0.0)
  {
    var init := os[..|os| - 1];
    var o := os[|os| - 1];
    if ShiftOf(o.hour) == s {
      var x := Dated(o.day, o.totalAmount);
      assert ShiftRows(os, s) == ShiftRows(init, s) + [x];
      SumOnDaySnoc(ShiftRows(init, s), x, d);
    } else {
      assert ShiftRows(os, s) == ShiftRows(init, s);
    }
  }

  /** The last order adds its amount to its day's sum of the order sales. */
  lemma OrderSumLast(os: seq<Order>, d: int)
    requires |os| > 0
    ensures var o := os[|os| - 1];
            SumOnDay(OrderRows(os, AmountField), d) == SumOnDay(OrderRows(os[..|os| - 1], AmountField), d) +
              (if o.day == d then o.totalAmount else 0.0)
  {
    var o := os[|os| - 1];
    var x := Dated(o.day, o.totalAmount);
    assert OrderRows(os, AmountField) == OrderRows(os[..|os| - 1], AmountField) + [x];
    SumOnDaySnoc(OrderRows(os[..|os| - 1], AmountField), x, d);
  }

  /** The same for the shift columns of a table. */
  lemma ShiftColumnsSplit(src: Sources, d: int)
    ensures DayValue(src, MorningShiftSales, d) + DayValue(src, EveningShiftSales, d) == DayValue(src, OrderSales, d)
  {
    ShiftSplit(src.orders, d);
  }

  /** A shift has rows, so that pandas' `unstack` makes a column for it,
      exactly when some order falls in it. */
  lemma {:induction false} ShiftRowsNonempty(os: seq<Order>, s: ShiftName)
    ensures |ShiftRows(os, s)| > 0 <==> exists i :: 0 <= i < |os| && ShiftOf(os[i].hour) == s
  {
    if |os| > 0 {
      var init := os[..|os| - 1];
      ShiftRowsNonempty(init, s);
      if exists i :: 0 <= i < |init| && ShiftOf(init[i].hour) == s {
        var i :| 0 <= i < |init| && ShiftOf(init[i].hour) == s;
        assert os[i] == init[i];
      }
      if exists i :: 0 <= i < |os| && ShiftOf(os[i].hour) == s {
        var i :| 0 <= i < |os| && ShiftOf(os[i].hour) == s;
        if i < |init| {
          assert init[i] == os[i];
        }
      }
    }
  }

  // ------------------------------------------------------------ the table

  /** The columns of the master table. */
  datatype Column =
    | TotalSales | ReceiptExpenses | CashSales
    | OrdersCount | OrderSales | Discounts | MorningShiftSales | EveningShiftSales
    | ItemsSold | TotalExpenses | InventoryWasteQty | InventoryUsageQty
    | AverageOrderValue | GrossProfit | ProfitMargin | CashRatio

  /** Every column of the table. */
  const AllColumns: set<Column> := {TotalSales, ReceiptExpenses, CashSales, OrdersCount, OrderSales, Discounts,
                                    MorningShiftSales, EveningShiftSales, ItemsSold, TotalExpenses,
                                    InventoryWasteQty, InventoryUsageQty,
                                    AverageOrderValue, GrossProfit, ProfitMargin, CashRatio}

  lemma EveryColumn()
    ensures forall c :: c in AllColumns
  {
    forall c ensures c in AllColumns {
      match c
      case TotalSales =>
      case ReceiptExpenses =>
      case CashSales =>
      case OrdersCount =>
      case OrderSales =>
      case Discounts =>
      case MorningShiftSales =>
      case EveningShiftSales =>
      case ItemsSold =>
      case TotalExpenses =>
      case InventoryWasteQty =>
      case InventoryUsageQty =>
      case AverageOrderValue =>
      case GrossProfit =>
      case ProfitMargin =>
      case CashRatio =>
    }
  }

  /** A frame during assembly: None is a NaN left by a join. */
  type Frame = map<Column, seq<Option<real>>>

  /** A frame after the zero fill. */
  type Table = map<Column, seq<real>>

  /** The assembled dataset: the calendar index and the columns over it. */
  datatype Dataset = Dataset(days: seq<int>, table: Table)

  /** The two inventory columns hold the absolute value of the day's sum. */
  predicate IsInventory(c: Column)
  {
    c == InventoryWasteQty || c == InventoryUsageQty
  }

  /** The rows whose per-day sum makes up a column read from the database;
      none for the computed columns. */
  function Grouped(src: Sources, c: Column): seq<Dated>
  {
    match c
    case TotalSales => ReceiptRows(src.receipts, SalesField)
    case ReceiptExpenses => ReceiptRows(src.receipts, ExpensesField)
    case CashSales => ReceiptRows(src.receipts, CashField)
    case OrdersCount => OrderRows(src.orders, CountField)
    case OrderSales => OrderRows(src.orders, AmountField)
    case Discounts => OrderRows(src.orders, DiscountField)
    case MorningShiftSales => ShiftRows(src.orders, Morning)
    case EveningShiftSales => ShiftRows(src.orders, Evening)
    case ItemsSold => src.items
    case TotalExpenses => src.expenses
    case InventoryWasteQty => MovementRows(src.movements, Waste)
    case InventoryUsageQty => MovementRows(src.movements, Usage)
    case AverageOrderValue => []
    case GrossProfit => []
    case ProfitMargin => []
    case CashRatio => []
  }

  /** The value of a database column on day d: the day's sum, its absolute
      value for the inventory columns. */
  function DayValue(src: Sources, c: Column, d: int): real
  {
    var s := SumOnDay(Grouped(src, c), d);
    if IsInventory(c) then Abs(s) else s
  }

  /** The left join of a per-day sum onto the index: the day's value where
      the day has rows, NaN where it has none. */
  function Joined(src: Sources, days: seq<int>, c: Column): (col: seq<Option<real>>)
    ensures |col| == |days|
    ensures forall i :: 0 <= i < |days| ==> (col[i].Some? <==> days[i] in DaysOf(Grouped(src, c)))
  {
    seq(|days|, i requires 0 <= i < |days| =>
      if days[i] in DaysOf(Grouped(src, c)) then Some(DayValue(src, c, days[i])) else None)
  }

  /** `fillna(0)` on one column. */
  function Fill(col: seq<Option<real>>): (r: seq<real>)
    ensures |r| == |col|
  {
    seq(|col|, i requires 0 <= i < |col| => if col[i].Some? then col[i].value else 0.0)
  }

  /** `fillna(0)` on the whole frame. */
  function FillNa(f: Frame): (t: Table)
    ensures t.Keys == f.Keys
  {
    map c | c in f :: Fill(f[c])
  }

  /** The column of a database column over the index, day by day. */
  function DayColumn(src: Sources, days: seq<int>, c: Column): (r: seq<real>)
    ensures |r| == |days|
  {
    seq(|days|, i requires 0 <= i < |days| => DayValue(src, c, days[i]))
  }

  /** After the zero fill a joined column holds the day's value on every day
      of the index, 0 on a day without rows. */
  lemma JoinFilled(src: Sources, days: seq<int>, c: Column)
    ensures Fill(Joined(src, days, c)) == DayColumn(src, days, c)
  {
    forall i | 0 <= i < |days|
      ensures Fill(Joined(src, days, c))[i] == DayColumn(src, days, c)[i]
    {
      if days[i] !in DaysOf(Grouped(src, c)) {
        SumOnDayAbsent(Grouped(src, c), days[i]);
      }
    }
  }

  function Zeros(n: nat): (z: seq<real>)
    ensures |z| == n && forall i :: 0 <= i < n ==> z[i] == 0.0
  {
    seq(n, i => 0.0)
  }

  /** A column whose rows are missing altogether is 0 on every day. */
  lemma NoRowsColumn(src: Sources, days: seq<int>, c: Column)
    requires |Grouped(src, c)| == 0
    ensures DayColumn(src, days, c) == Zeros(|days|)
  {
  }

  // ----------------------------------------------------- computed metrics

  /** Sales per order, 0 on a day without orders. */
  function OrderAverage(sales: real, count: real): real
  {
    if count > 0.0 then sales / count else 0.0
  }

  /** Gross profit as a percentage of sales, 0 on a day without sales. */
  function MarginPercent(gross: real, sales: real): real
  {
    if sales > 0.0 then gross / sales * 100.0 else 0.0
  }

  /** The share of sales taken in cash, 0 on a day without sales. */
  function CashShare(cash: real, sales: real): real
  {
    if sales > 0.0 then cash / sales else 0.0
  }

  /** Over a positive count the average times the count gives the sales back;
      without orders it is 0; it is never negative for sales that are not. */
  lemma OrderAverageSpec(sales: real, count: real)
    ensures count > 0.0 ==> OrderAverage(sales, count) * count == sales
    ensures count <= 0.0 ==> OrderAverage(sales, count) == 0.0
    ensures sales >= 0.0 ==> OrderAverage(sales, count) >= 0.0
  {
    if count > 0.0 && sales >= 0.0 {
      DivNonnegative(sales, count);
    }
  }

  lemma DivNonnegative(a: real, b: real)
    requires a >= 0.0 && b > 0.0
    ensures a / b >= 0.0
  {
  }

  /** On a day with sales the margin scaled by the sales is 100 times the
      gross profit; it is at most 100 exactly when the expenses are not
      negative, and below 0 exactly when they exceed the sales. Without sales
      it is 0. */
  lemma MarginPercentSpec(sales: real, expenses: real)
    ensures var m := MarginPercent(sales - expenses, sales);
            (sales > 0.0 ==> m * sales == (sales - expenses) * 100.0) &&
            (sales > 0.0 ==> (m <= 100.0 <==> expenses >= 0.0)) &&
            (sales > 0.0 ==> (m < 0.0 <==> expenses > sales)) &&
            (sales <= 0.0 ==> m == 0.0)
  {
    if sales > 0.0 {
      var q := (sales - expenses) / sales;
      assert q * sales == sales - expenses;
      QuotientOrder(sales - expenses, sales, sales);
      QuotientOrder(sales - expenses, sales, 0.0);
    }
  }

  /** For a positive divisor the quotient is at most c exactly when the dividend
      is at most c times the divisor. */
  lemma QuotientOrder(a: real, b: real, c: real)
    requires b > 0.0
    ensures a / b <= c / b <==> a <= c
    ensures a / b < c / b <==> a < c
  {
    var q := a / b;
    var r := c / b;
    assert q * b == a && r * b == c;
    if q <= r {
      assert (r - q) * b >= 0.0 by { MulNonnegative(r - q, b); }
    } else {
      assert (q - r) * b > 0.0 by { MulPositive(q - r, b); }
    }
    if q < r {
      assert (r - q) * b > 0.0 by { MulPositive(r - q, b); }
    } else {
      assert (q - r) * b >= 0.0 by { MulNonnegative(q - r, b); }
    }
  }

  /** On a day with sales the ratio times the sales is the cash, and cash
      between 0 and the sales gives a ratio between 0 and 1. Without sales it
      is 0. */
  lemma CashShareSpec(cash: real, sales: real)
    ensures sales > 0.0 ==> CashShare(cash, sales) * sales == cash
    ensures 0.0 <= cash <= sales ==> 0.0 <= CashShare(cash, sales) <= 1.0
    ensures sales <= 0.0 ==> CashShare(cash, sales) == 0.0
  {
    if 0.0 <= cash <= sales && sales > 0.0 {
      QuotientOrder(cash, sales, sales);
      QuotientOrder(0.0, sales, cash);
    }
  }

  /** The value in column c on day d of the finished table, given the column
      the table takes its sales from: database columns hold the day's value,
      the computed ones follow from those. */
  function RowValue(src: Sources, salesColumn: Column, c: Column, d: int): real
  {
    Derived(c, DayValue(src, salesColumn, d), DayValue(src, OrdersCount, d),
            DayValue(src, TotalExpenses, d), DayValue(src, CashSales, d), DayValue(src, c, d))
  }

  /** Column c of one row, from the day's sales, orders, expenses and cash
      and the column's own database value. */
  function Derived(c: Column, sales: real, orders: real, expenses: real, cash: real, own: real): real
  {
    match c
    case TotalSales => sales
    case AverageOrderValue => OrderAverage(sales, orders)
    case GrossProfit => sales - expenses
    case ProfitMargin => MarginPercent(sales - expenses, sales)
    case CashRatio => CashShare(cash, sales)
    case _ => own
  }

  /** A finished table over the index: it has exactly the columns `cols`,
      each with one value per day, and the value of column c on day d is
      RowValue. */
  predicate Assembled(src: Sources, salesColumn: Column, ds: Dataset, cols: set<Column>)
  {
    ds.table.Keys == cols &&
    forall c :: c in cols ==>
      |ds.table[c]| == |ds.days| &&
      forall i :: 0 <= i < |ds.days| ==> ds.table[c][i] == RowValue(src, salesColumn, c, ds.days[i])
  }

  predicate IsMetric(c: Column)
  {
    c == AverageOrderValue || c == GrossProfit || c == ProfitMargin || c == CashRatio
  }

  const Metrics: set<Column> := {AverageOrderValue, GrossProfit, ProfitMargin, CashRatio}

  /** The four computed columns, added row by row in the order the scripts
      add them: average order value, gross profit, profit margin, cash ratio. */
  function AddMetrics(t: Table, n: nat): (r: Table)
    requires TotalSales in t && OrdersCount in t && TotalExpenses in t && CashSales in t
    requires |t[TotalSales]| == n && |t[OrdersCount]| == n && |t[TotalExpenses]| == n && |t[CashSales]| == n
    ensures r.Keys == t.Keys + Metrics
    ensures |r[AverageOrderValue]| == n && |r[GrossProfit]| == n && |r[ProfitMargin]| == n && |r[CashRatio]| == n
  {
    var aov := AverageOrderValueColumn(t[TotalSales], t[OrdersCount]);
    var gross := DifferenceColumn(t[TotalSales], t[TotalExpenses]);
    var margin := ProfitMarginColumn(gross, t[TotalSales]);
    var cash := CashRatioColumn(t[CashSales], t[TotalSales]);
    t[AverageOrderValue := aov][GrossProfit := gross][ProfitMargin := margin][CashRatio := cash]
  }

  /** The requirements on a table before the computed columns are added: the
      database columns hold each day's values, `total_sales` those of
      `salesColumn`, and no computed column is there yet. */
  predicate ReadyForMetrics(src: Sources, salesColumn: Column, days: seq<int>, t: Table)
  {
    !IsMetric(salesColumn) &&
    TotalSales in t && OrdersCount in t && TotalExpenses in t && CashSales in t &&
    t[TotalSales] == DayColumn(src, days, salesColumn) &&
    forall c :: c in t ==> !IsMetric(c) && (c != TotalSales ==> t[c] == DayColumn(src, days, c))
  }

  /** The database columns a computed column reads hold day i's values. */
  predicate DayReady(src: Sources, salesColumn: Column, days: seq<int>, t: Table, i: int)
  {
    0 <= i < |days| &&
    TotalSales in t && OrdersCount in t && TotalExpenses in t && CashSales in t &&
    |t[TotalSales]| == |days| && |t[OrdersCount]| == |days| &&
    |t[TotalExpenses]| == |days| && |t[CashSales]| == |days| &&
    t[TotalSales][i] == DayValue(src, salesColumn, days[i]) &&
    t[OrdersCount][i] == DayValue(src, OrdersCount, days[i]) &&
    t[TotalExpenses][i] == DayValue(src, TotalExpenses, days[i]) &&
    t[CashSales][i] == DayValue(src, CashSales, days[i])
  }

  /** On each day the computed values, and the sales, follow from that
      day's sales, orders, expenses and cash. */
  lemma MetricAt(t: Table, n: nat, c: Column, i: nat)
    requires TotalSales in t && OrdersCount in t && TotalExpenses in t && CashSales in t
    requires |t[TotalSales]| == n && |t[OrdersCount]| == n && |t[TotalExpenses]| == n && |t[CashSales]| == n
    requires i < n && (IsMetric(c) || c == TotalSales)
    ensures var r := AddMetrics(t, n);
            c in r && |r[c]| == n &&
            r[c][i] == Derived(c, t[TotalSales][i], t[OrdersCount][i], t[TotalExpenses][i], t[CashSales][i], 0.0)
  {
    AddMetricsAt(t, n, i);
    if c == TotalSales {
    } else if c == AverageOrderValue {
    } else if c == GrossProfit {
    } else if c == ProfitMargin {
    } else {
      assert c == CashRatio;
    }
  }

  /** A computed column, and the sales, do not depend on the column's own
      database value. */
  lemma DerivedIgnoresOwn(c: Column, sales: real, orders: real, expenses: real, cash: real, own: real)
    requires IsMetric(c) || c == TotalSales
    ensures Derived(c, sales, orders, expenses, cash, own) == Derived(c, sales, orders, expenses, cash, 0.0)
  {
  }

  /** Day i of each computed column, from day i of the columns it reads. */
  lemma AddMetricsAt(t: Table, n: nat, i: nat)
    requires TotalSales in t && OrdersCount in t && TotalExpenses in t && CashSales in t
    requires |t[TotalSales]| == n && |t[OrdersCount]| == n && |t[TotalExpenses]| == n && |t[CashSales]| == n
    requires i < n
    ensures var r := AddMetrics(t, n);
            var sales := t[TotalSales][i];
            r[AverageOrderValue][i] == OrderAverage(sales, t[OrdersCount][i]) &&
            r[GrossProfit][i] == sales - t[TotalExpenses][i] &&
            r[ProfitMargin][i] == MarginPercent(sales - t[TotalExpenses][i], sales) &&
            r[CashRatio][i] == CashShare(t[CashSales][i], sales) &&
            r[TotalSales][i] == sales
  {
    AddMetricsColumns(t, n);
  }

  /** A table ready for the computed columns is ready on each of its days. */
  lemma ReadyDay(src: Sources, salesColumn: Column, days: seq<int>, t: Table, i: int)
    requires ReadyForMetrics(src, salesColumn, days, t) && 0 <= i < |days|
    ensures DayReady(src, salesColumn, days, t, i)
  {
    assert t[OrdersCount] == DayColumn(src, days, OrdersCount);
    assert t[TotalExpenses] == DayColumn(src, days, TotalExpenses);
    assert t[CashSales] == DayColumn(src, days, CashSales);
  }

  /** The columns AddMetrics adds, and the sales column it keeps. */
  lemma AddMetricsColumns(t: Table, n: nat)
    requires TotalSales in t && OrdersCount in t && TotalExpenses in t && CashSales in t
    requires |t[TotalSales]| == n && |t[OrdersCount]| == n && |t[TotalExpenses]| == n && |t[CashSales]| == n
    ensures var r := AddMetrics(t, n);
            var gross := DifferenceColumn(t[TotalSales], t[TotalExpenses]);
            r[AverageOrderValue] == AverageOrderValueColumn(t[TotalSales], t[OrdersCount]) &&
            r[GrossProfit] == gross &&
            r[ProfitMargin] == ProfitMarginColumn(gross, t[TotalSales]) &&
            r[CashRatio] == CashRatioColumn(t[CashSales], t[TotalSales]) &&
            r[TotalSales] == t[TotalSales]
  {
  }

  /** A table ready for the computed columns is assembled once they are
      added. */
  lemma AddMetricsAssembled(src: Sources, salesColumn: Column, days: seq<int>, t: Table, cols: set<Column>)
    requires ReadyForMetrics(src, salesColumn, days, t)
    requires Metrics <= cols
    requires forall c :: c in t <==> c in cols && !IsMetric(c)
    ensures Assembled(src, salesColumn, Dataset(days, AddMetrics(t, |days|)), cols)
  {
    forall c | c in cols
      ensures var r := AddMetrics(t, |days|);
              c in r && |r[c]| == |days| &&
              forall i :: 0 <= i < |days| ==> r[c][i] == RowValue(src, salesColumn, c, days[i])
    {
      ColumnValues(src, salesColumn, days, t, c);
    }
  }

  lemma ColumnValues(src: Sources, salesColumn: Column, days: seq<int>, t: Table, c: Column)
    requires ReadyForMetrics(src, salesColumn, days, t)
    requires c in t || IsMetric(c)
    ensures var r := AddMetrics(t, |days|);
            c in r && |r[c]| == |days| &&
            forall i :: 0 <= i < |days| ==> r[c][i] == RowValue(src, salesColumn, c, days[i])
  {
    if IsMetric(c) || c == TotalSales {
      MetricLength(t, |days|, c);
      forall i | 0 <= i < |days|
        ensures var r := AddMetrics(t, |days|);
                c in r && |r[c]| == |days| && r[c][i] == RowValue(src, salesColumn, c, days[i])
      {
        MetricDay(src, salesColumn, days, t, c, i);
      }
    } else {
      KeptColumn(t, |days|, c);
      DatabaseValues(src, salesColumn, days, t, c);
    }
  }

  /** A computed column, and the sales, have one value per day. */
  lemma MetricLength(t: Table, n: nat, c: Column)
    requires TotalSales in t && OrdersCount in t && TotalExpenses in t && CashSales in t
    requires |t[TotalSales]| == n && |t[OrdersCount]| == n && |t[TotalExpenses]| == n && |t[CashSales]| == n
    requires IsMetric(c) || c == TotalSales
    ensures c in AddMetrics(t, n) && |AddMetrics(t, n)[c]| == n
  {
    AddMetricsColumns(t, n);
  }

  /** Day i of a computed column, and of the sales, is its RowValue. */
  lemma MetricDay(src: Sources, salesColumn: Column, days: seq<int>, t: Table, c: Column, i: int)
    requires ReadyForMetrics(src, salesColumn, days, t) && (IsMetric(c) || c == TotalSales) && 0 <= i < |days|
    ensures var r := AddMetrics(t, |days|);
            c in r && |r[c]| == |days| && r[c][i] == RowValue(src, salesColumn, c, days[i])
  {
    ReadyDay(src, salesColumn, days, t, i);
    MetricAt(t, |days|, c, i);
    DerivedIgnoresOwn(c, t[TotalSales][i], t[OrdersCount][i], t[TotalExpenses][i], t[CashSales][i],
                      DayValue(src, c, days[i]));
  }

  /** A database column other than the sales keeps each day's value. */
  lemma DatabaseValues(src: Sources, salesColumn: Column, days: seq<int>, t: Table, c: Column)
    requires ReadyForMetrics(src, salesColumn, days, t)
    requires c in t && c != TotalSales
    ensures |t[c]| == |days| && forall i :: 0 <= i < |days| ==> t[c][i] == RowValue(src, salesColumn, c, days[i])
  {
    assert t[c] == DayColumn(src, days, c);
    forall i | 0 <= i < |days| ensures t[c][i] == RowValue(src, salesColumn, c, days[i]) {
      RowValueOwn(src, salesColumn, c, days[i]);
    }
  }

  /** A column that is neither computed nor the sales holds its own value. */
  lemma RowValueOwn(src: Sources, salesColumn: Column, c: Column, d: int)
    requires !IsMetric(c) && c != TotalSales
    ensures RowValue(src, salesColumn, c, d) == DayValue(src, c, d)
  {
  }

  /** Adding the computed columns leaves the others as they were. */
  lemma KeptColumn(t: Table, n: nat, c: Column)
    requires TotalSales in t && OrdersCount in t && TotalExpenses in t && CashSales in t
    requires |t[TotalSales]| == n && |t[OrdersCount]| == n && |t[TotalExpenses]| == n && |t[CashSales]| == n
    requires c in t && !IsMetric(c)
    ensures AddMetrics(t, n)[c] == t[c]
  {
  }

  function AverageOrderValueColumn(sales: seq<real>, count: seq<real>): (r: seq<real>)
    requires |sales| == |count|
    ensures |r| == |sales| && forall i :: 0 <= i < |r| ==> r[i] == OrderAverage(sales[i], count[i])
  {
    seq(|sales|, i requires 0 <= i < |sales| => OrderAverage(sales[i], count[i]))
  }

  function DifferenceColumn(a: seq<real>, b: seq<real>): (r: seq<real>)
    requires |a| == |b|
    ensures |r| == |a| && forall i :: 0 <= i < |r| ==> r[i] == a[i] - b[i]
  {
    seq(|a|, i requires 0 <= i < |a| => a[i] - b[i])
  }

  function ProfitMarginColumn(gross: seq<real>, sales: seq<real>): (r: seq<real>)
    requires |gross| == |sales|
    ensures |r| == |sales| && forall i :: 0 <= i < |r| ==> r[i] == MarginPercent(gross[i], sales[i])
  {
    seq(|sales|, i requires 0 <= i < |sales| => MarginPercent(gross[i], sales[i]))
  }

  function CashRatioColumn(cash: seq<real>, sales: seq<real>): (r: seq<real>)
    requires |cash| == |sales|
    ensures |r| == |sales| && forall i :: 0 <= i < |r| ==> r[i] == CashShare(cash[i], sales[i])
  {
    seq(|sales|, i requires 0 <= i < |sales| => CashShare(cash[i], sales[i]))
  }
}
