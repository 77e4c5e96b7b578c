/** The LightGBM feature table built from the daily dataset, the feature
    columns chosen for training, the averaging of cross-validation scores and
    the forecaster that copies the last row's features to every future day.
    The table is a pandas frame: the parsed `day` column plus named cells,
    where a cell may be NaN (a shift's leading rows) or an infinity (a
    percent change over a zero base). */
module TrainLightgbm {
  import opened Wrappers
  import opened Stats
  import opened Calendar
  import opened Ranking
  import opened Metrics

  datatype Value = Num(x: real) | NaN | Inf(positive: bool)

  function FromOption(o: Option<real>): (v: Value)
    ensures v == NaN <==> o.None?
  {
    if o.Some? then Num(o.value) else NaN
  }

  function FromExt(e: Ext): (v: Value)
    ensures v != NaN
  {
    match e
    case Fin(r) => Num(r)
    case PosInf => Inf(true)
    case NegInf => Inf(false)
  }

  predicate Distinct(names: seq<string>)
  {
    forall i, j :: 0 <= i < j < |names| ==> names[i] != names[j]
  }

  /** A table: the day of every row and the other columns by name, in
      column order. */
  datatype Frame = Frame(days: seq<int>, names: seq<string>, cols: map<string, seq<Value>>)

  predicate WellFormed(f: Frame)
  {
    (forall n :: n in f.names ==> n in f.cols) &&
    (forall n :: n in f.cols ==> n in f.names && |f.cols[n]| == |f.days|)
  }

  /** `df[name] = col`: an existing column is replaced where it stands, a new
      one is appended. */
  function SetColumn(f: Frame, name: string, col: seq<Value>): (g: Frame)
    requires WellFormed(f) && |col| == |f.days|
    ensures WellFormed(g) && g.days == f.days
    ensures g.names == if name in f.names then f.names else f.names + [name]
    ensures g.cols == f.cols[name := col]
  {
    Frame(f.days, if name in f.names then f.names else f.names + [name], f.cols[name := col])
  }

  function PairNames(pairs: seq<(string, seq<Value>)>): (ns: seq<string>)
    ensures |ns| == |pairs| && forall k :: 0 <= k < |pairs| ==> ns[k] == pairs[k].0
  {
    seq(|pairs|, k requires 0 <= k < |pairs| => pairs[k].0)
  }

  lemma PairNamesConcat(a: seq<(string, seq<Value>)>, b: seq<(string, seq<Value>)>)
    ensures PairNames(a + b) == PairNames(a) + PairNames(b)
  {
  }

  /** The column assignments in turn. Columns already present keep their
      position; the others follow in order of assignment. */
  function SetColumns(f: Frame, pairs: seq<(string, seq<Value>)>): (g: Frame)
    requires WellFormed(f)
    requires forall k :: 0 <= k < |pairs| ==> |pairs[k].1| == |f.days|
    ensures WellFormed(g) && g.days == f.days
    ensures |f.names| <= |g.names| && g.names[..|f.names|] == f.names
    ensures forall n :: n in g.cols <==> n in f.cols || n in PairNames(pairs)
  {
    if |pairs| == 0 then f
    else
      var m := |pairs| - 1;
      var h := SetColumns(f, pairs[..m]);
      assert PairNames(pairs) == PairNames(pairs[..m]) + [pairs[m].0];
      SetColumn(h, pairs[m].0, pairs[m].1)
  }

  /** After the assignments each assigned column holds what was assigned to
      it, the names assigned being distinct ... */
  lemma {:induction false} SetColumnsAssigned(f: Frame, pairs: seq<(string, seq<Value>)>, k: nat)
    requires WellFormed(f)
    requires forall k :: 0 <= k < |pairs| ==> |pairs[k].1| == |f.days|
    requires Distinct(PairNames(pairs)) && k < |pairs|
    ensures SetColumns(f, pairs).cols[pairs[k].0] == pairs[k].1
  {
    var m := |pairs| - 1;
    if k < m {
      var init := pairs[..m];
      assert PairNames(pairs)[k] != PairNames(pairs)[m];
      assert PairNames(init) == PairNames(pairs)[..m];
      SetColumnsAssigned(f, init, k);
    }
  }

  /** ... and every column not assigned is as it was. */
  lemma {:induction false} SetColumnsUntouched(f: Frame, pairs: seq<(string, seq<Value>)>, n: string)
    requires WellFormed(f)
    requires forall k :: 0 <= k < |pairs| ==> |pairs[k].1| == |f.days|
    requires n in f.cols && n !in PairNames(pairs)
    ensures SetColumns(f, pairs).cols[n] == f.cols[n]
  {
    if |pairs| > 0 {
      var m := |pairs| - 1;
      var init := pairs[..m];
      assert PairNames(pairs) == PairNames(init) + [pairs[m].0];
      SetColumnsUntouched(f, init, n);
    }
  }

  /** `df.iloc[idx]` with a fresh index: the rows idx[0], idx[1], ... */
  function Select(f: Frame, idx: seq<nat>): (g: Frame)
    requires WellFormed(f)
    requires forall j :: 0 <= j < |idx| ==> idx[j] < |f.days|
    ensures WellFormed(g) && g.names == f.names && g.cols.Keys == f.cols.Keys
    ensures |g.days| == |idx| && forall j :: 0 <= j < |idx| ==> g.days[j] == f.days[idx[j]]
    ensures forall n, j :: n in f.cols && 0 <= j < |idx| ==> g.cols[n][j] == f.cols[n][idx[j]]
  {
    Frame(seq(|idx|, j requires 0 <= j < |idx| => f.days[idx[j]]),
          f.names,
          map n | n in f.cols :: seq(|idx|, j requires 0 <= j < |idx| => f.cols[n][idx[j]]))
  }

  // ------------------------------------------------------------- sorting

  /** Entries whose ranking (largest first) lists the rows by ascending day,
      earlier rows first among equal days. */
  function DayKeys(f: Frame): (e: seq<Entry<nat>>)
    ensures |e| == |f.days|
    ensures forall i :: 0 <= i < |e| ==> e[i] == Entry(i, -(f.days[i] as real))
  {
    seq(|f.days|, i requires 0 <= i < |f.days| => Entry(i, -(f.days[i] as real)))
  }

  lemma RankedDayKeys(f: Frame, j: nat)
    requires j < |f.days|
    ensures Rank(DayKeys(f))[j].key < |f.days|
    ensures Rank(DayKeys(f))[j].value == -(f.days[Rank(DayKeys(f))[j].key] as real)
  {
    var e := DayKeys(f);
    RankPermutation(e);
    assert Rank(e)[j] in multiset(Rank(e));
    assert Rank(e)[j] in e;
  }

  /** Row order of `sort_values('day')`. */
  function SortOrder(f: Frame): (idx: seq<nat>)
    ensures |idx| == |f.days|
    ensures forall j :: 0 <= j < |idx| ==> idx[j] < |f.days|
  {
    var r := Rank(DayKeys(f));
    forall j | 0 <= j < |r| ensures r[j].key < |f.days| {
      RankedDayKeys(f, j);
    }
    Keys(r)
  }

  function SortByDay(f: Frame): (g: Frame)
    requires WellFormed(f)
    ensures WellFormed(g) && g.names == f.names && |g.days| == |f.days|
  {
    Select(f, SortOrder(f))
  }

  /** Sorting lists the days in ascending order and keeps every row. */
  lemma SortByDaySorted(f: Frame)
    requires WellFormed(f)
    ensures forall i, j :: 0 <= i < j < |f.days| ==> SortByDay(f).days[i] <= SortByDay(f).days[j]
    ensures forall i :: 0 <= i < |f.days| ==> i in SortOrder(f)
  {
    var e := DayKeys(f);
    var r := Rank(e);
    RankOrdered(e);
    RankPermutation(e);
    forall i, j | 0 <= i < j < |f.days|
      ensures SortByDay(f).days[i] <= SortByDay(f).days[j]
    {
      RankedDayKeys(f, i);
      RankedDayKeys(f, j);
    }
    forall i | 0 <= i < |f.days| ensures i in SortOrder(f) {
      assert e[i] in multiset(e);
      assert e[i] in r;
      var j :| 0 <= j < |r| && r[j] == e[i];
      assert SortOrder(f)[j] == i;
    }
  }

  // ------------------------------------------------------ feature builder

  predicate Numeric(col: seq<Value>)
  {
    forall i :: 0 <= i < |col| ==> col[i].Num?
  }

  function Numbers(col: seq<Value>): (s: seq<real>)
    requires Numeric(col)
    ensures |s| == |col| && forall i :: 0 <= i < |col| ==> col[i] == Num(s[i])
  {
    seq(|col|, i requires 0 <= i < |col| => col[i].x)
  }

  /** The three metrics the features are built from, read as numbers. */
  predicate HasMetrics(f: Frame)
  {
    "total_sales" in f.cols && "orders_count" in f.cols && "items_sold" in f.cols &&
    Numeric(f.cols["total_sales"]) && Numeric(f.cols["orders_count"]) && Numeric(f.cols["items_sold"])
  }

  /** `s.shift(k)`. */
  function Lag(s: seq<real>, k: nat): (c: seq<Value>)
    ensures |c| == |s|
    ensures forall i :: 0 <= i < |s| ==> c[i] == if i < k then NaN else Num(s[i - k])
  {
    seq(|s|, i requires 0 <= i < |s| => FromOption(Shift(s, k)[i]))
  }

  /** `s.rolling(w, min_periods=1).mean()`. */
  function Smooth(s: seq<real>, w: nat): (c: seq<Value>)
    requires w >= 1
    ensures |c| == |s| && Numeric(c)
  {
    seq(|s|, i requires 0 <= i < |s| => Num(Rolling(s, w)[i]))
  }

  /** `s.pct_change(periods=3).fillna(0)`. */
  function Trend(s: seq<real>): (c: seq<Value>)
    ensures |c| == |s| && forall i :: 0 <= i < |s| ==> c[i] != NaN
  {
    seq(|s|, i requires 0 <= i < |s| => FromExt(PctChange(s, 3)[i]))
  }

  /** The names of the engineered columns in order of assignment. */
  const NewNames: seq<string> :=
    ["day_of_week", "day_of_month", "month", "is_weekend",
     "sales_lag_1", "orders_lag_1", "items_lag_1",
     "sales_lag_2", "orders_lag_2", "items_lag_2",
     "sales_lag_3", "orders_lag_3", "items_lag_3",
     "sales_rolling_3", "orders_rolling_3", "items_rolling_3",
     "sales_rolling_7", "orders_rolling_7", "items_rolling_7",
     "sales_trend"]

  const MetricColumns: seq<string> := ["total_sales", "orders_count", "items_sold"]

  lemma NewNamesDistinct()
    ensures Distinct(NewNames)
  {
  }

  /** The names of the columns read by the properties below. */
  lemma NewNamesAt()
    ensures NewNames[3] == "is_weekend"
    ensures NewNames[13] == "sales_rolling_3" && NewNames[16] == "sales_rolling_7"
    ensures NewNames[19] == "sales_trend"
  {
  }

  lemma MetricsNotEngineered()
    ensures forall m :: 0 <= m < 3 ==> MetricColumns[m] !in NewNames
  {
  }

  /** Metric m (sales, orders, items) as numbers. */
  function Metric(f: Frame, m: nat): (s: seq<real>)
    requires WellFormed(f) && HasMetrics(f) && m < 3
    ensures |s| == |f.days|
  {
    Numbers(f.cols[MetricColumns[m]])
  }

  /** Calendar feature k of a day: weekday, day of month, month and the
      Saturday-or-Sunday flag. */
  function CalendarNumber(k: nat, civil: int -> CivilDate, d: int): real
    requires k < 4
  {
    if k == 0 then Weekday(d) as real
    else if k == 1 then civil(d).dayOfMonth as real
    else if k == 2 then civil(d).month as real
    else WeekendFlag(SaturdaySunday, d)
  }

  /** The engineered column NewNames[k]: the calendar columns, the lags 1, 2
      and 3 of sales, orders and items, their rolling means over 3 and over 7
      days, and the sales trend. */
  function NewColumn(f: Frame, civil: int -> CivilDate, k: nat): (c: seq<Value>)
    requires WellFormed(f) && HasMetrics(f) && k < 20
    ensures |c| == |f.days|
  {
    if k < 4 then seq(|f.days|, i requires 0 <= i < |f.days| => Num(CalendarNumber(k, civil, f.days[i])))
    else if k < 13 then Lag(Metric(f, (k - 4) % 3), (k - 4) / 3 + 1)
    else if k < 19 then Smooth(Metric(f, (k - 13) % 3), if k < 16 then 3 else 7)
    else Trend(Metric(f, 0))
  }

  /** The engineered columns in order of assignment. */
  function NewColumns(f: Frame, civil: int -> CivilDate): (pairs: seq<(string, seq<Value>)>)
    requires WellFormed(f) && HasMetrics(f)
    ensures |pairs| == 20 && PairNames(pairs) == NewNames
    ensures forall k :: 0 <= k < 20 ==> pairs[k] == (NewNames[k], NewColumn(f, civil, k))
  {
    seq(20, k requires 0 <= k < 20 => (NewNames[k], NewColumn(f, civil, k)))
  }

  /** Which engineered cells are NaN: exactly the first k rows of a lag k. */
  lemma NewColumnNaN(f: Frame, civil: int -> CivilDate, k: nat, i: nat)
    requires WellFormed(f) && HasMetrics(f) && k < 20 && i < |f.days|
    ensures NewColumn(f, civil, k)[i] == NaN <==> 4 <= k < 13 && i < (k - 4) / 3 + 1
  {
  }

  /** The sales trend column holds, on row i, the change of sales against
      three rows earlier (0 on the first three rows). */
  lemma TrendColumn(f: Frame, civil: int -> CivilDate, i: nat)
    requires WellFormed(f) && HasMetrics(f) && i < |f.days|
    ensures NewColumn(f, civil, 19)[i] == FromExt(PctAt(Metric(f, 0), i, 3))
  {
    assert NewColumn(f, civil, 19) == Trend(Metric(f, 0));
  }

  /** A row without NaN in any column. */
  predicate Complete(f: Frame, i: nat)
    requires WellFormed(f) && i < |f.days|
  {
    forall n :: n in f.cols ==> f.cols[n][i] != NaN
  }

  /** The complete rows among the first m, in order. */
  function KeptRows(f: Frame, m: nat): (idx: seq<nat>)
    requires WellFormed(f) && m <= |f.days|
    ensures forall j :: 0 <= j < |idx| ==> idx[j] < m
  {
    if m == 0 then []
    else KeptRows(f, m - 1) + (if Complete(f, m - 1) then [m - 1] else [])
  }

  /** `df.dropna()`. */
  function DropNA(f: Frame): (g: Frame)
    requires WellFormed(f)
    ensures WellFormed(g) && g.names == f.names
  {
    Select(f, KeptRows(f, |f.days|))
  }

  /** When exactly the rows from c on are complete, dropna keeps rows c, c+1, ... */
  lemma {:induction false} KeptRowsFrom(f: Frame, m: nat, c: nat)
    requires WellFormed(f) && m <= |f.days|
    requires forall i :: 0 <= i < |f.days| ==> (Complete(f, i) <==> i >= c)
    ensures |KeptRows(f, m)| == (if m < c then 0 else m - c)
    ensures forall j :: 0 <= j < |KeptRows(f, m)| ==> KeptRows(f, m)[j] == c + j
  {
    if m > 0 {
      KeptRowsFrom(f, m - 1, c);
    }
  }

  /** When exactly the rows from c on are complete, row j of the result of
      dropna is row c + j. */
  lemma DropNAFrom(f: Frame, c: nat)
    requires WellFormed(f)
    requires forall i :: 0 <= i < |f.days| ==> (Complete(f, i) <==> i >= c)
    ensures var g := DropNA(f);
            |g.days| == (if |f.days| < c then 0 else |f.days| - c) && g.cols.Keys == f.cols.Keys &&
            (forall j :: 0 <= j < |g.days| ==> g.days[j] == f.days[j + c]) &&
            (forall n, j :: n in f.cols && 0 <= j < |g.days| ==> g.cols[n][j] == f.cols[n][j + c])
  {
    KeptRowsFrom(f, |f.days|, c);
  }

  /** No cell of the input is NaN. */
  predicate NoMissing(f: Frame)
  {
    forall n, i :: n in f.cols && 0 <= i < |f.cols[n]| ==> f.cols[n][i] != NaN
  }

  /** The table before `dropna`. */
  function Engineer(f: Frame, civil: int -> CivilDate): (g: Frame)
    requires WellFormed(f) && HasMetrics(f)
    ensures WellFormed(g) && g.days == f.days
  {
    SetColumns(f, NewColumns(f, civil))
  }

  /** `load_and_prepare_data` after reading the CSV (and, identically,
      `load_latest_data`): sort by day, engineer, drop incomplete rows. */
  function Prepare(raw: Frame, civil: int -> CivilDate): (g: Frame)
    requires WellFormed(raw) && HasMetrics(raw)
    ensures WellFormed(g)
  {
    SortedKeepsMetrics(raw);
    DropNA(Engineer(SortByDay(raw), civil))
  }

  lemma SortedKeepsMetrics(raw: Frame)
    requires WellFormed(raw) && HasMetrics(raw)
    ensures HasMetrics(SortByDay(raw))
    ensures NoMissing(raw) ==> NoMissing(SortByDay(raw))
  {
    var s := SortByDay(raw);
    var idx := SortOrder(raw);
    forall n | n in raw.cols && Numeric(raw.cols[n]) ensures Numeric(s.cols[n]) {
      forall j | 0 <= j < |s.cols[n]| ensures s.cols[n][j].Num? {
        assert s.cols[n][j] == raw.cols[n][idx[j]];
      }
    }
    if NoMissing(raw) {
      forall n, j | n in s.cols && 0 <= j < |s.cols[n]| ensures s.cols[n][j] != NaN {
        assert s.cols[n][j] == raw.cols[n][idx[j]];
      }
    }
  }

  /** The engineered column called NewNames[k]. */
  lemma EngineeredColumn(f: Frame, civil: int -> CivilDate, k: nat)
    requires WellFormed(f) && HasMetrics(f) && k < 20
    ensures NewNames[k] in Engineer(f, civil).cols
    ensures Engineer(f, civil).cols[NewNames[k]] == NewColumn(f, civil, k)
  {
    NewNamesDistinct();
    SetColumnsAssigned(f, NewColumns(f, civil), k);
  }

  /** Every other column keeps its values. */
  lemma InputColumn(f: Frame, civil: int -> CivilDate, n: string)
    requires WellFormed(f) && HasMetrics(f) && n in f.cols && n !in NewNames
    ensures n in Engineer(f, civil).cols && Engineer(f, civil).cols[n] == f.cols[n]
  {
    SetColumnsUntouched(f, NewColumns(f, civil), n);
  }

  /** What the feature builder makes of f: the same days, every engineered
      column as NewColumn defines it, every input column unchanged, and no
      other column. */
  predicate IsEngineered(f: Frame, civil: int -> CivilDate, e: Frame)
    requires WellFormed(f) && HasMetrics(f)
  {
    WellFormed(e) && e.days == f.days &&
    (forall k :: 0 <= k < 20 ==> NewNames[k] in e.cols && e.cols[NewNames[k]] == NewColumn(f, civil, k)) &&
    (forall n :: n in f.cols && n !in NewNames ==> n in e.cols && e.cols[n] == f.cols[n]) &&
    (forall n :: n in e.cols ==> n in f.cols || n in NewNames)
  }

  lemma EngineerIsEngineered(f: Frame, civil: int -> CivilDate)
    requires WellFormed(f) && HasMetrics(f)
    ensures IsEngineered(f, civil, Engineer(f, civil))
  {
    var e := Engineer(f, civil);
    forall k | 0 <= k < 20 ensures NewNames[k] in e.cols && e.cols[NewNames[k]] == NewColumn(f, civil, k) {
      EngineeredColumn(f, civil, k);
    }
    forall n | n in f.cols && n !in NewNames ensures n in e.cols && e.cols[n] == f.cols[n] {
      InputColumn(f, civil, n);
    }
  }

  /** In the engineered table only the lags have NaN, in their first k rows,
      so with no NaN in the input exactly the rows from the fourth on are
      complete. */
  lemma EngineeredComplete(f: Frame, civil: int -> CivilDate, e: Frame, i: nat)
    requires WellFormed(f) && HasMetrics(f) && NoMissing(f) && IsEngineered(f, civil, e)
    requires i < |f.days|
    ensures Complete(e, i) <==> i >= 3
  {
    if i >= 3 {
      forall n | n in e.cols ensures e.cols[n][i] != NaN {
        if n in NewNames {
          var k :| 0 <= k < 20 && NewNames[k] == n;
          NewColumnNaN(f, civil, k, i);
        }
      }
    } else {
      NewColumnNaN(f, civil, 10, i);
      assert e.cols[NewNames[10]][i] == NaN;
    }
  }

  /** With no NaN in the input, dropna removes exactly the first three rows:
      row j of the result is row j + 3 of the engineered table. */
  lemma CleanRows(f: Frame, civil: int -> CivilDate, e: Frame)
    requires WellFormed(f) && HasMetrics(f) && NoMissing(f) && IsEngineered(f, civil, e)
    ensures var p := DropNA(e);
            |p.days| == (if |f.days| < 3 then 0 else |f.days| - 3) &&
            p.cols.Keys == e.cols.Keys &&
            (forall j :: 0 <= j < |p.days| ==> p.days[j] == f.days[j + 3]) &&
            (forall n, j :: n in e.cols && 0 <= j < |p.days| ==> p.cols[n][j] == e.cols[n][j + 3])
  {
    forall i | 0 <= i < |e.days| ensures Complete(e, i) <==> i >= 3 {
      EngineeredComplete(f, civil, e, i);
    }
    DropNAFrom(e, 3);
  }

  /** Row j of the prepared table holds row j + 3 of each engineered column ... */
  lemma CleanColumn(f: Frame, civil: int -> CivilDate, e: Frame, k: nat, j: nat)
    requires WellFormed(f) && HasMetrics(f) && NoMissing(f) && IsEngineered(f, civil, e)
    requires k < 20 && j < |DropNA(e).days|
    ensures var p := DropNA(e);
            |p.days| == |f.days| - 3 && NewNames[k] in p.cols &&
            p.cols[NewNames[k]][j] == NewColumn(f, civil, k)[j + 3] && p.days[j] == f.days[j + 3]
  {
    CleanRows(f, civil, e);
  }

  /** ... and row j + 3 of every input column. */
  lemma CleanInput(f: Frame, civil: int -> CivilDate, e: Frame, n: string, j: nat)
    requires WellFormed(f) && HasMetrics(f) && NoMissing(f) && IsEngineered(f, civil, e)
    requires n in f.cols && n !in NewNames && j < |DropNA(e).days|
    ensures var p := DropNA(e);
            |p.days| == |f.days| - 3 && n in p.cols && p.cols[n][j] == f.cols[n][j + 3]
  {
    CleanRows(f, civil, e);
  }

  /** The lag k of metric m is the engineered column NewNames[4 + 3(k - 1) + m]. */
  lemma LagColumn(f: Frame, civil: int -> CivilDate, m: nat, k: nat)
    requires WellFormed(f) && HasMetrics(f) && m < 3 && 1 <= k <= 3
    ensures NewColumn(f, civil, 4 + 3 * (k - 1) + m) == Lag(Metric(f, m), k)
  {
    var idx := 4 + 3 * (k - 1) + m;
    assert (idx - 4) % 3 == m && (idx - 4) / 3 + 1 == k by {
      if k == 1 {} else if k == 2 {} else {}
    }
  }

  /** Every retained row's lag k of a metric is that metric k rows earlier,
      and its own value is the metric on that row. The metrics are sales,
      orders and items (m = 0, 1, 2); their lag k is NewNames[4 + 3(k - 1) + m]. */
  lemma CleanLags(f: Frame, civil: int -> CivilDate, e: Frame, m: nat, k: nat, j: nat)
    requires WellFormed(f) && HasMetrics(f) && NoMissing(f) && IsEngineered(f, civil, e)
    requires m < 3 && 1 <= k <= 3 && j < |DropNA(e).days|
    ensures var metric := Metric(f, m);
            var p := DropNA(e);
            var lag := NewNames[4 + 3 * (k - 1) + m];
            |p.days| == |f.days| - 3 && lag in p.cols && MetricColumns[m] in p.cols &&
            p.cols[lag][j] == Num(metric[j + 3 - k]) &&
            p.cols[MetricColumns[m]][j] == Num(metric[j + 3])
  {
    CleanColumn(f, civil, e, 4 + 3 * (k - 1) + m, j);
    LagColumn(f, civil, m, k);
    MetricsNotEngineered();
    CleanInput(f, civil, e, MetricColumns[m], j);
  }

  /** The rolling mean over w days of metric m is the engineered column
      NewNames[13 + m] for w = 3 and NewNames[16 + m] for w = 7. */
  lemma SmoothColumn(f: Frame, civil: int -> CivilDate, m: nat, w: nat)
    requires WellFormed(f) && HasMetrics(f) && m < 3 && (w == 3 || w == 7)
    ensures NewColumn(f, civil, (if w == 3 then 13 else 16) + m) == Smooth(Metric(f, m), w)
  {
    var idx := (if w == 3 then 13 else 16) + m;
    assert (idx - 13) % 3 == m by {
      if m == 0 {} else if m == 1 {} else {}
    }
  }

  /** Every retained row's rolling mean over w days (3 or 7) of a metric is
      the mean of that metric over the last w rows up to it, counting the
      three rows that were dropped. */
  lemma CleanSmooth(f: Frame, civil: int -> CivilDate, e: Frame, m: nat, w: nat, j: nat)
    requires WellFormed(f) && HasMetrics(f) && NoMissing(f) && IsEngineered(f, civil, e)
    requires m < 3 && (w == 3 || w == 7) && j < |DropNA(e).days|
    ensures var metric := Metric(f, m);
            var p := DropNA(e);
            var mean := NewNames[(if w == 3 then 13 else 16) + m];
            |p.days| == |f.days| - 3 && mean in p.cols &&
            p.cols[mean][j] == Num(Mean(Tail(metric[..j + 4], w)))
  {
    var k := (if w == 3 then 13 else 16) + m;
    CleanColumn(f, civil, e, k, j);
    SmoothColumn(f, civil, m, w);
    var metric := Metric(f, m);
    assert Smooth(metric, w)[j + 3] == Num(Rolling(metric, w)[j + 3]);
    assert Rolling(metric, w)[j + 3] == WindowMean(metric, j + 3, w);
  }

  /** Every retained row's calendar columns describe its own day: weekday,
      day of month, month, and the Saturday-or-Sunday weekend flag. */
  lemma CleanCalendar(f: Frame, civil: int -> CivilDate, e: Frame, k: nat, j: nat)
    requires WellFormed(f) && HasMetrics(f) && NoMissing(f) && IsEngineered(f, civil, e)
    requires k < 4 && j < |DropNA(e).days|
    ensures var p := DropNA(e);
            |p.days| == |f.days| - 3 && NewNames[k] in p.cols &&
            p.cols[NewNames[k]][j] == Num(CalendarNumber(k, civil, p.days[j]))
  {
    CleanColumn(f, civil, e, k, j);
  }

  /** Preparation works on the input sorted by day: the sorted table still has
      its numeric metrics and no NaN, its days ascend, and it holds every input
      row once. */
  lemma PrepareSorted(raw: Frame, civil: int -> CivilDate)
    requires WellFormed(raw) && HasMetrics(raw) && NoMissing(raw)
    ensures var s := SortByDay(raw);
            HasMetrics(s) && NoMissing(s) &&
            Prepare(raw, civil) == DropNA(Engineer(s, civil)) && IsEngineered(s, civil, Engineer(s, civil)) &&
            (forall i, j :: 0 <= i < j < |s.days| ==> s.days[i] <= s.days[j])
  {
    SortedKeepsMetrics(raw);
    SortByDaySorted(raw);
    EngineerIsEngineered(SortByDay(raw), civil);
  }

  // -------------------------------------------------------------- training

  /** Columns never used as features: the day, the target and the other
      same-day business figures. */
  const Excluded: seq<string> :=
    ["day", "total_sales", "orders_count", "items_sold", "total_expenses", "receipt_expenses",
     "cash_sales", "order_sales", "discounts", "evening_shift_sales", "morning_shift_sales",
     "inventory_waste_qty", "inventory_usage_qty", "average_order_value", "gross_profit",
     "profit_margin", "cash_ratio"]

  /** `[col for col in df.columns if col not in Excluded]`. */
  function FeatureColumns(names: seq<string>): (fc: seq<string>)
    ensures forall c :: c in fc <==> c in names && c !in Excluded
  {
    if |names| == 0 then []
    else FeatureColumns(names[..|names| - 1]) +
         (if names[|names| - 1] in Excluded then [] else [names[|names| - 1]])
  }

  /** The selection keeps the columns' order: it distributes over concatenation. */
  lemma {:induction false} FeatureColumnsConcat(a: seq<string>, b: seq<string>)
    ensures FeatureColumns(a + b) == FeatureColumns(a) + FeatureColumns(b)
  {
    if |b| > 0 {
      var b' := b[..|b| - 1];
      assert (a + b)[..|a + b| - 1] == a + b';
      FeatureColumnsConcat(a, b');
    } else {
      assert a + b == a;
    }
  }

  /** The actual and predicted target of one cross-validation fold. */
  datatype Fold = Fold(actual: seq<real>, predicted: seq<real>)

  predicate ValidFold(f: Fold)
  {
    |f.actual| == |f.predicted| && |f.actual| > 0
  }

  /** A fold's mean absolute error, never negative. */
  function FoldMae(f: Fold): (r: real)
    requires ValidFold(f)
    ensures r >= 0.0
    ensures r == 0.0 <==> f.actual == f.predicted
  {
    MeanAbsoluteErrorZeroIff(f.actual, f.predicted);
    MeanAbsoluteError(f.actual, f.predicted)
  }

  /** A fold's percentage error (scikit-learn's fraction times 100). */
  function FoldMape(f: Fold): (r: real)
    requires ValidFold(f)
    ensures r >= 0.0
    ensures r == 0.0 <==> f.actual == f.predicted
  {
    MapeSklearnZeroIff(f.actual, f.predicted);
    MapeSklearn(f.actual, f.predicted) * 100.0
  }

  /** The fold loop of `train_lightgbm_model`: per-fold MAE and MAPE, in fold
      order, then their means. */
  method CrossValidate(folds: seq<Fold>) returns (maeScores: seq<real>, mapeScores: seq<real>, mae: real, mape: real)
    requires |folds| > 0 && forall i :: 0 <= i < |folds| ==> ValidFold(folds[i])
    ensures |maeScores| == |folds| && |mapeScores| == |folds|
    ensures forall i :: 0 <= i < |folds| ==> maeScores[i] == FoldMae(folds[i]) && mapeScores[i] == FoldMape(folds[i])
    ensures mae == Mean(maeScores) && mape == Mean(mapeScores)
    ensures mae >= 0.0 && mape >= 0.0
  {
    maeScores := [];
    mapeScores := [];
    for i := 0 to |folds|
      invariant |maeScores| == i && |mapeScores| == i
      invariant forall k :: 0 <= k < i ==> maeScores[k] == FoldMae(folds[k]) && mapeScores[k] == FoldMape(folds[k])
    {
      maeScores := maeScores + [FoldMae(folds[i])];
      mapeScores := mapeScores + [FoldMape(folds[i])];
    }
    MeanNonnegative(maeScores);
    MeanNonnegative(mapeScores);
    mae := Mean(maeScores);
    mape := Mean(mapeScores);
  }

  // ------------------------------------------------------------ forecasting

  const CalendarFeatures: seq<string> := ["day_of_week", "day_of_month", "month", "is_weekend"]

  /** The calendar features of a future day; the weekend is Saturday and Sunday. */
  function CalendarValue(name: string, day: int, civil: int -> CivilDate): Value
    requires name in CalendarFeatures
  {
    if name == "day_of_week" then Num(Weekday(day) as real)
    else if name == "day_of_month" then Num(civil(day).dayOfMonth as real)
    else if name == "month" then Num(civil(day).month as real)
    else Num(WeekendFlag(SaturdaySunday, day))
  }

  /** `last_row[col] if col in last_row else 0`. */
  function LastValue(f: Frame, name: string): Value
    requires WellFormed(f) && |f.days| > 0
  {
    if name in f.cols then f.cols[name][|f.days| - 1] else Num(0.0)
  }

  /** The feature vector for a future day: calendar features from the day,
      everything else copied from the last row. */
  function InferenceRow(f: Frame, featureCols: seq<string>, civil: int -> CivilDate, day: int): (x: seq<Value>)
    requires WellFormed(f) && |f.days| > 0
    ensures |x| == |featureCols|
  {
    seq(|featureCols|, i requires 0 <= i < |featureCols| =>
          if featureCols[i] in CalendarFeatures then CalendarValue(featureCols[i], day, civil)
          else LastValue(f, featureCols[i]))
  }

  /** Forecasts are not fed back: every feature other than the calendar ones
      is the same for every future day, the last row's value or 0, and two
      days with the same calendar features get the same vector. */
  lemma InferenceRowFixed(f: Frame, featureCols: seq<string>, civil: int -> CivilDate, d1: int, d2: int)
    requires WellFormed(f) && |f.days| > 0
    ensures forall i :: 0 <= i < |featureCols| && featureCols[i] !in CalendarFeatures ==>
              InferenceRow(f, featureCols, civil, d1)[i] == InferenceRow(f, featureCols, civil, d2)[i] &&
              InferenceRow(f, featureCols, civil, d1)[i] ==
                (if featureCols[i] in f.names then f.cols[featureCols[i]][|f.days| - 1] else Num(0.0))
    ensures Weekday(d1) == Weekday(d2) && civil(d1) == civil(d2) ==>
              InferenceRow(f, featureCols, civil, d1) == InferenceRow(f, featureCols, civil, d2)
  {
  }

  datatype DayForecast = DayForecast(day: int, sales: real, dayName: string)

  /** `forecast_next_days`: entry i is dated the last row's day + i. */
  method ForecastNextDays(model: seq<Value> -> real, f: Frame, featureCols: seq<string>,
                          civil: int -> CivilDate, n: nat)
    returns (forecasts: seq<DayForecast>)
    requires WellFormed(f) && |f.days| > 0
    ensures |forecasts| == n
    ensures forall i :: 0 <= i < n ==>
              var day := f.days[|f.days| - 1] + i + 1;
              forecasts[i] == DayForecast(day, model(InferenceRow(f, featureCols, civil, day)), DayName(Weekday(day)))
  {
    var last := f.days[|f.days| - 1];
    forecasts := [];
    for i := 1 to n + 1
      invariant |forecasts| == i - 1
      invariant forall k :: 0 <= k < i - 1 ==>
                  forecasts[k] == DayForecast(last + k + 1, model(InferenceRow(f, featureCols, civil, last + k + 1)),
                                              DayName(Weekday(last + k + 1)))
    {
      var next := last + i;
      var x := InferenceRow(f, featureCols, civil, next);
      forecasts := forecasts + [DayForecast(next, model(x), DayName(Weekday(next)))];
    }
  }
}
