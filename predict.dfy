/** The older analytics report: a trend label from the least-squares slope of
    the receipts, spikes in the daily totals, the item and hour tallies with
    the twelve-hour clock, the clamped network forecast and the closing
    strategy. The network with its scaler and the clock are parameters. */
module Predict {
  import opened Wrappers
  import opened Stats
  import opened Calendar
  import opened Ranking
  import opened Text

  // ------------------------------------------------------------------ trend

  /** `np.arange(n)` as reals. */
  function Positions(n: nat): (x: seq<real>)
    ensures |x| == n && forall i :: 0 <= i < n ==> x[i] == i as real
  {
    seq(n, i => i as real)
  }

  /** The deviations of s from m. */
  function Dev(s: seq<real>, m: real): (d: seq<real>)
    ensures |d| == |s| && forall i :: 0 <= i < |s| ==> d[i] == s[i] - m
  {
    seq(|s|, i requires 0 <= i < |s| => s[i] - m)
  }

  /** The dot product of two series of the same length. */
  function Dot(u: seq<real>, v: seq<real>): real
    requires |u| == |v|
  {
    if |u| == 0 then 0.0 else Dot(u[..|u| - 1], v[..|v| - 1]) + u[|u| - 1] * v[|v| - 1]
  }

  /** Two or more positions are spread out, so the slope's denominator is positive. */
  lemma PositionsSpread(n: nat)
    requires n >= 2
    ensures SqDev(Positions(n), Mean(Positions(n))) > 0.0
  {
    var x := Positions(n);
    SqDevNonnegative(x, Mean(x));
    if x[0] == Mean(x) {
      SqDevNonzero(x, Mean(x), 1);
    } else {
      SqDevNonzero(x, Mean(x), 0);
    }
  }

  /** The slope of `np.polyfit(np.arange(n), y, 1)`: the least-squares line
      through the points (i, y[i]). */
  function Slope(y: seq<real>): real
    requires |y| >= 2
  {
    var x := Positions(|y|);
    PositionsSpread(|y|);
    Dot(Dev(x, Mean(x)), Dev(y, Mean(y))) / SqDev(x, Mean(x))
  }

  lemma {:induction false} SumAffine(x: seq<real>, y: seq<real>, a: real, b: real)
    requires |x| == |y|
    requires forall i :: 0 <= i < |x| ==> y[i] == a + b * x[i]
    ensures Sum(y) == (|x| as real) * a + b * Sum(x)
  {
    if |x| > 0 {
      var n := |x|;
      SumAffine(x[..n - 1], y[..n - 1], a, b);
      assert b * Sum(x) == b * Sum(x[..n - 1]) + b * x[n - 1];
    }
  }

  lemma MeanAffine(x: seq<real>, y: seq<real>, a: real, b: real)
    requires |x| == |y| && |x| > 0
    requires forall i :: 0 <= i < |x| ==> y[i] == a + b * x[i]
    ensures Mean(y) == a + b * Mean(x)
  {
    SumAffine(x, y, a, b);
    var n := |x| as real;
    assert Mean(y) * n == Sum(y);
    assert Mean(x) * n == Sum(x);
    assert (a + b * Mean(x)) * n == n * a + b * (Mean(x) * n);
  }

  lemma {:induction false} DotScaled(u: seq<real>, v: seq<real>, b: real)
    requires |u| == |v|
    requires forall i :: 0 <= i < |u| ==> v[i] == b * u[i]
    ensures Dot(u, v) == b * Dot(u, u)
  {
    if |u| > 0 {
      var n := |u|;
      DotScaled(u[..n - 1], v[..n - 1], b);
      ScaledProduct(u[n - 1], v[n - 1], b);
      Distribute(b, Dot(u[..n - 1], u[..n - 1]), u[n - 1] * u[n - 1]);
    }
  }

  lemma {:induction false} DotDev(s: seq<real>, m: real)
    ensures Dot(Dev(s, m), Dev(s, m)) == SqDev(s, m)
  {
    if |s| > 0 {
      var n := |s|;
      DotDev(s[..n - 1], m);
      assert Dev(s, m)[..n - 1] == Dev(s[..n - 1], m);
    }
  }

  lemma ScaledProduct(d: real, e: real, b: real)
    requires e == b * d
    ensures d * e == b * (d * d)
  {
  }

  lemma Distribute(b: real, p: real, q: real)
    ensures b * (p + q) == b * p + b * q
  {
  }

  /** The fitted slope of points on a line is the line's slope. */
  lemma LineSlope(y: seq<real>, a: real, b: real)
    requires |y| >= 2
    requires forall i :: 0 <= i < |y| ==> y[i] == a + b * (i as real)
    ensures Slope(y) == b
  {
    var x := Positions(|y|);
    var u, v := Dev(x, Mean(x)), Dev(y, Mean(y));
    MeanAffine(x, y, a, b);
    forall i | 0 <= i < |y| ensures v[i] == b * u[i] {
      Distribute(b, x[i], -Mean(x));
    }
    DotScaled(u, v, b);
    DotDev(x, Mean(x));
    PositionsSpread(|y|);
  }

  /** The label of `analyze_trends`. */
  datatype Trend = NotEnoughData | StrongGrowth | SlightGrowth | Decline | SlightDecline | Stable

  /** The labels whose text holds the growth word. */
  predicate IsGrowth(t: Trend)
  {
    t == StrongGrowth || t == SlightGrowth
  }

  predicate IsDecline(t: Trend)
  {
    t == Decline || t == SlightDecline
  }

  /** The thresholds, tried in order: 5% of the average above or below zero. */
  function TrendOf(slope: real, avg: real): Trend
  {
    if slope > avg * 0.05 then StrongGrowth
    else if slope > 0.0 then SlightGrowth
    else if slope < -avg * 0.05 then Decline
    else if slope < 0.0 then SlightDecline
    else Stable
  }

  /** `analyze_trends` over the receipts' sales in date order. */
  function AnalyzeTrends(sales: seq<real>): (t: Trend)
    ensures t == NotEnoughData <==> |sales| < 2
  {
    if |sales| < 2 then NotEnoughData else TrendOf(Slope(sales), Mean(sales))
  }

  /** With a nonnegative average the label follows the slope's sign, and the
      strong labels take a slope beyond 5% of the average. */
  lemma TrendSigns(slope: real, avg: real)
    requires avg >= 0.0
    ensures IsGrowth(TrendOf(slope, avg)) <==> slope > 0.0
    ensures IsDecline(TrendOf(slope, avg)) <==> slope < 0.0
    ensures TrendOf(slope, avg) == Stable <==> slope == 0.0
    ensures TrendOf(slope, avg) == StrongGrowth <==> slope > avg * 0.05
    ensures TrendOf(slope, avg) == Decline <==> slope < -avg * 0.05
  {
  }

  /** Receipts on a line with a nonnegative average: growth exactly when the
      line rises, decline exactly when it falls, stable when it is flat. */
  lemma LineTrend(sales: seq<real>, a: real, b: real)
    requires |sales| >= 2 && Mean(sales) >= 0.0
    requires forall i :: 0 <= i < |sales| ==> sales[i] == a + b * (i as real)
    ensures IsGrowth(AnalyzeTrends(sales)) <==> b > 0.0
    ensures IsDecline(AnalyzeTrends(sales)) <==> b < 0.0
    ensures AnalyzeTrends(sales) == Stable <==> b == 0.0
  {
    LineSlope(sales, a, b);
    TrendSigns(b, Mean(sales));
  }

  /** Flat receipts of two or more rows are stable unless their value is
      negative, where zero exceeds 5% of the average and reads as strong growth. */
  lemma FlatTrend(sales: seq<real>)
    requires |sales| >= 2 && Constant(sales)
    ensures AnalyzeTrends(sales) == (if sales[0] < 0.0 then StrongGrowth else Stable)
  {
    LineSlope(sales, sales[0], 0.0);
    MeanConstant(sales, sales[0]);
  }

  // ---------------------------------------------------------------- spikes

  /** Past the first row of increasing rows every day is later than its day. */
  lemma IncreasingTail(t: seq<Dated>)
    requires |t| > 0 && Increasing(t)
    ensures Increasing(t[1..])
    ensures forall d :: d in DaysOf(t[1..]) ==> t[0].day < d
  {
    forall d | d in DaysOf(t[1..]) ensures t[0].day < d {
      var i :| 0 <= i < |t[1..]| && t[1..][i].day == d;
      assert t[i + 1].day == d;
    }
  }

  lemma IncreasingCons(x: Dated, t: seq<Dated>)
    requires Increasing(t)
    requires forall d :: d in DaysOf(t) ==> x.day < d
    ensures Increasing([x] + t)
  {
    var s := [x] + t;
    forall i, j | 0 <= i < j < |s| ensures s[i].day < s[j].day {
      assert s[j] == t[j - 1];
      assert t[j - 1].day in DaysOf(t);
      if i > 0 {
        assert s[i] == t[i - 1];
      }
    }
  }

  /** The daily totals after one more receipt: the total of its day grows,
      or its day is added in date order. */
  function AddToDay(t: seq<Dated>, r: Dated): seq<Dated>
  {
    if |t| == 0 then [r]
    else if t[0].day == r.day then [Dated(r.day, t[0].value + r.value)] + t[1..]
    else if r.day < t[0].day then [r] + t
    else [t[0]] + AddToDay(t[1..], r)
  }

  lemma {:induction false} AddToDayDays(t: seq<Dated>, r: Dated)
    ensures DaysOf(AddToDay(t, r)) == DaysOf(t) + {r.day}
  {
    if |t| > 0 {
      DaysCons(t[0], t[1..]);
      assert t == [t[0]] + t[1..];
      if t[0].day == r.day {
        DaysCons(Dated(r.day, t[0].value + r.value), t[1..]);
      } else if r.day < t[0].day {
        DaysCons(r, t);
      } else {
        AddToDayDays(t[1..], r);
        DaysCons(t[0], AddToDay(t[1..], r));
      }
    } else {
      assert [r][0].day == r.day;
    }
  }

  lemma {:induction false} AddToDayIncreasing(t: seq<Dated>, r: Dated)
    requires Increasing(t)
    ensures Increasing(AddToDay(t, r))
  {
    if |t| > 0 {
      IncreasingTail(t);
      if t[0].day == r.day {
        IncreasingCons(Dated(r.day, t[0].value + r.value), t[1..]);
      } else if r.day < t[0].day {
        DaysCons(t[0], t[1..]);
        assert t == [t[0]] + t[1..];
        IncreasingCons(r, t);
      } else {
        AddToDayIncreasing(t[1..], r);
        AddToDayDays(t[1..], r);
        IncreasingCons(t[0], AddToDay(t[1..], r));
      }
    }
  }

  /** The total of day d in the daily rows, 0 when the day is absent. */
  function DayTotal(t: seq<Dated>, d: int): real
  {
    if |t| == 0 then 0.0 else if t[0].day == d then t[0].value else DayTotal(t[1..], d)
  }

  lemma {:induction false} DayTotalAbsent(t: seq<Dated>, d: int)
    requires d !in DaysOf(t)
    ensures DayTotal(t, d) == 0.0
  {
    if |t| > 0 {
      DaysCons(t[0], t[1..]);
      assert t == [t[0]] + t[1..];
      DayTotalAbsent(t[1..], d);
    }
  }

  lemma {:induction false} DayTotalAt(t: seq<Dated>, j: nat)
    requires Increasing(t) && j < |t|
    ensures DayTotal(t, t[j].day) == t[j].value
  {
    if j > 0 {
      IncreasingTail(t);
      DayTotalAt(t[1..], j - 1);
    }
  }

  lemma {:induction false} AddToDayTotal(t: seq<Dated>, r: Dated, d: int)
    requires Increasing(t)
    ensures DayTotal(AddToDay(t, r), d) == DayTotal(t, d) + (if d == r.day then r.value else 0.0)
  {
    if |t| == 0 {
    } else if t[0].day == r.day {
      assert ([Dated(r.day, t[0].value + r.value)] + t[1..])[1..] == t[1..];
    } else if r.day < t[0].day {
      if d == r.day {
        IncreasingTail(t);
        DaysCons(t[0], t[1..]);
        assert t == [t[0]] + t[1..];
        DayTotalAbsent(t, d);
      } else {
        assert ([r] + t)[1..] == t;
      }
    } else {
      IncreasingTail(t);
      AddToDayTotal(t[1..], r, d);
      assert ([t[0]] + AddToDay(t[1..], r))[1..] == AddToDay(t[1..], r);
    }
  }

  /** `df.groupby(df['receiptDate'].dt.date)['totalSales'].sum()`: the
      receipts folded into one row per date. */
  function DailyTotals(rows: seq<Dated>): seq<Dated>
  {
    if |rows| == 0 then [] else AddToDay(DailyTotals(rows[..|rows| - 1]), rows[|rows| - 1])
  }


  /** The daily totals list the days of the receipts once each, in date order. */
  lemma {:induction false} DailyTotalsDays(rows: seq<Dated>)
    ensures Increasing(DailyTotals(rows))
    ensures DaysOf(DailyTotals(rows)) == DaysOf(rows)
  {
    if |rows| > 0 {
      var init := rows[..|rows| - 1];
      DailyTotalsDays(init);
      AddToDayIncreasing(DailyTotals(init), rows[|rows| - 1]);
      AddToDayDays(DailyTotals(init), rows[|rows| - 1]);
      assert rows == init + [rows[|rows| - 1]];
      DaysSnoc(init, rows[|rows| - 1]);
    }
  }

  /** Each day's total is the sum of that day's receipts. */
  lemma {:induction false} DailyTotalsSum(rows: seq<Dated>, d: int)
    ensures DayTotal(DailyTotals(rows), d) == SumOnDay(rows, d)
  {
    if |rows| > 0 {
      var init := rows[..|rows| - 1];
      DailyTotalsSum(init, d);
      DailyTotalsDays(init);
      AddToDayTotal(DailyTotals(init), rows[|rows| - 1], d);
    }
  }

  /** Row j of the daily totals is a day of the receipts with their sum. */
  lemma DailyTotalAt(rows: seq<Dated>, j: nat)
    requires j < |DailyTotals(rows)|
    ensures DailyTotals(rows)[j].day in DaysOf(rows)
    ensures DailyTotals(rows)[j].value == SumOnDay(rows, DailyTotals(rows)[j].day)
  {
    var t := DailyTotals(rows);
    DailyTotalsDays(rows);
    DailyTotalsSum(rows, t[j].day);
    DayTotalAt(t, j);
    assert t[j].day in DaysOf(t);
  }

  /** A flagged day: its date, whether it lies above the mean, and its total. */
  datatype Spike = Spike(day: int, rise: bool, total: real)

  /** The spike a daily row gives against the mean. */
  function SpikeOf(x: Dated, mean: real): Spike
  {
    Spike(x.day, x.value - mean > 0.0, x.value)
  }

  /** The daily rows further than 1.5 standard deviations from the mean, in
      order; `variance` is the square of the standard deviation. */
  function Flagged(daily: seq<Dated>, mean: real, variance: real): seq<Spike>
  {
    if |daily| == 0 then []
    else
      var x := daily[|daily| - 1];
      Flagged(daily[..|daily| - 1], mean, variance) +
        (if ExceedsSigmas(x.value - mean, variance, 1.5) then [SpikeOf(x, mean)] else [])
  }

  /** What `detect_anomalies` reports: nothing under five receipts; otherwise
      the last three flagged days against the mean and sample variance of the
      daily totals. A single day has no sample deviation (pandas gives NaN,
      which no difference exceeds), so it flags nothing. */
  function Spikes(rows: seq<Dated>): seq<Spike>
  {
    if |rows| < 5 then []
    else
      var daily := DailyTotals(rows);
      var s := DatedValues(daily);
      if |s| < 2 then [] else Tail(Flagged(daily, Mean(s), SampleVariance(s)), 3)
  }

  /** `detect_anomalies`: the daily rows are scanned in order. */
  method DetectAnomalies(rows: seq<Dated>) returns (r: seq<Spike>)
    ensures r == Spikes(rows)
  {
    if |rows| < 5 {
      return [];
    }
    var daily := DailyTotals(rows);
    var s := DatedValues(daily);
    if |s| < 2 {
      return [];
    }
    var mean := Mean(s);
    var variance := SampleVariance(s);
    var found := [];
    for i := 0 to |daily|
      invariant found == Flagged(daily[..i], mean, variance)
    {
      assert daily[..i + 1][..i] == daily[..i];
      var diff := daily[i].value - mean;
      if ExceedsSigmas(diff, variance, 1.5) {
        found := found + [Spike(daily[i].day, diff > 0.0, daily[i].value)];
      }
    }
    assert daily[..|daily|] == daily;
    r := Tail(found, 3);
  }

  /** A spike is flagged exactly for a daily row beyond the threshold. */
  lemma {:induction false} FlaggedMembers(daily: seq<Dated>, mean: real, variance: real)
    ensures forall a :: a in Flagged(daily, mean, variance) <==>
              exists j :: 0 <= j < |daily| && ExceedsSigmas(daily[j].value - mean, variance, 1.5) &&
                          a == SpikeOf(daily[j], mean)
  {
    if |daily| > 0 {
      var init := daily[..|daily| - 1];
      FlaggedMembers(init, mean, variance);
      assert forall j :: 0 <= j < |init| ==> init[j] == daily[j];
    }
  }

  predicate InDateOrder(s: seq<Spike>)
  {
    forall a, b :: 0 <= a < b < |s| ==> s[a].day < s[b].day
  }

  /** Increasing daily rows give spikes in date order. */
  lemma {:induction false} FlaggedOrdered(daily: seq<Dated>, mean: real, variance: real)
    requires Increasing(daily)
    ensures InDateOrder(Flagged(daily, mean, variance))
  {
    if |daily| > 0 {
      var init := daily[..|daily| - 1];
      FlaggedOrdered(init, mean, variance);
      FlaggedMembers(init, mean, variance);
      var f := Flagged(daily, mean, variance);
      var f' := Flagged(init, mean, variance);
      forall a, b | 0 <= a < b < |f| ensures f[a].day < f[b].day {
        if b == |f'| {
          assert f[a] == f'[a] && f'[a] in f';
        } else {
          assert f[a] == f'[a] && f[b] == f'[b];
        }
      }
    }
  }

  /** At most three spikes, none under five receipts, in date order. */
  lemma SpikesOrdered(rows: seq<Dated>)
    ensures |Spikes(rows)| <= 3
    ensures |rows| < 5 ==> Spikes(rows) == []
    ensures InDateOrder(Spikes(rows))
  {
    var daily := DailyTotals(rows);
    var s := DatedValues(daily);
    if |rows| >= 5 && |s| >= 2 {
      var f := Flagged(daily, Mean(s), SampleVariance(s));
      DailyTotalsDays(rows);
      FlaggedOrdered(daily, Mean(s), SampleVariance(s));
      var r := Tail(f, 3);
      forall a, b | 0 <= a < b < |r| ensures r[a].day < r[b].day {
        assert r[a] == f[|f| - |r| + a] && r[b] == f[|f| - |r| + b];
      }
    }
  }

  /** Each spike is a day of the receipts with their sum as total. */
  lemma SpikeFacts(rows: seq<Dated>, a: Spike)
    requires a in Spikes(rows)
    ensures a.day in DaysOf(rows) && a.total == SumOnDay(rows, a.day)
  {
    var daily := DailyTotals(rows);
    var s := DatedValues(daily);
    var m, v := Mean(s), SampleVariance(s);
    FlaggedMembers(daily, m, v);
    assert a in Flagged(daily, m, v);
    var j :| 0 <= j < |daily| && ExceedsSigmas(daily[j].value - m, v, 1.5) && a == SpikeOf(daily[j], m);
    DailyTotalAt(rows, j);
  }

  /** Each spike lies beyond 1.5 sample standard deviations of the daily
      totals from their mean, and is a rise exactly when above the mean. */
  lemma SpikeBeyond(rows: seq<Dated>, a: Spike)
    requires a in Spikes(rows)
    ensures var s := DatedValues(DailyTotals(rows));
            |s| >= 2 && ExceedsSigmas(a.total - Mean(s), SampleVariance(s), 1.5) &&
            (a.rise <==> a.total > Mean(s))
  {
    var daily := DailyTotals(rows);
    var s := DatedValues(daily);
    var m, v := Mean(s), SampleVariance(s);
    FlaggedBeyond(daily, m, v);
    assert a in Flagged(daily, m, v);
  }

  lemma {:induction false} FlaggedBeyond(daily: seq<Dated>, mean: real, variance: real)
    ensures forall a :: a in Flagged(daily, mean, variance) ==>
              ExceedsSigmas(a.total - mean, variance, 1.5) && (a.rise <==> a.total > mean)
  {
    if |daily| > 0 {
      FlaggedBeyond(daily[..|daily| - 1], mean, variance);
    }
  }

  /** A receipt day whose total is beyond the threshold is flagged. */
  lemma FlaggedComplete(rows: seq<Dated>, d: int)
    requires |DatedValues(DailyTotals(rows))| >= 2 && d in DaysOf(rows)
    requires var s := DatedValues(DailyTotals(rows));
             ExceedsSigmas(SumOnDay(rows, d) - Mean(s), SampleVariance(s), 1.5)
    ensures var s := DatedValues(DailyTotals(rows));
            Spike(d, SumOnDay(rows, d) > Mean(s), SumOnDay(rows, d)) in Flagged(DailyTotals(rows), Mean(s), SampleVariance(s))
  {
    var daily := DailyTotals(rows);
    var s := DatedValues(daily);
    DailyTotalsDays(rows);
    var j :| 0 <= j < |daily| && daily[j].day == d;
    DailyTotalAt(rows, j);
    FlaggedMembers(daily, Mean(s), SampleVariance(s));
    assert SpikeOf(daily[j], Mean(s)) == Spike(d, SumOnDay(rows, d) > Mean(s), SumOnDay(rows, d));
  }

  /** The spikes are the latest flagged days: a flagged day left out is
      earlier than every reported one, and three are reported whenever three
      or more are flagged. */
  lemma SpikesLatest(rows: seq<Dated>, x: Spike)
    requires |rows| >= 5 && |DatedValues(DailyTotals(rows))| >= 2
    requires var s := DatedValues(DailyTotals(rows));
             x in Flagged(DailyTotals(rows), Mean(s), SampleVariance(s))
    ensures var s := DatedValues(DailyTotals(rows));
            |Spikes(rows)| == MinNat(3, |Flagged(DailyTotals(rows), Mean(s), SampleVariance(s))|)
    ensures x !in Spikes(rows) ==> forall k :: 0 <= k < |Spikes(rows)| ==> x.day < Spikes(rows)[k].day
  {
    var daily := DailyTotals(rows);
    var s := DatedValues(daily);
    var f := Flagged(daily, Mean(s), SampleVariance(s));
    var r := Tail(f, 3);
    DailyTotalsDays(rows);
    FlaggedOrdered(daily, Mean(s), SampleVariance(s));
    var i :| 0 <= i < |f| && f[i] == x;
    if x !in r {
      assert i < |f| - |r| by {
        assert forall q :: |f| - |r| <= q < |f| ==> r[q - (|f| - |r|)] == f[q];
      }
      forall k | 0 <= k < |r| ensures x.day < r[k].day {
        assert r[k] == f[|f| - |r| + k];
      }
    }
  }

  // --------------------------------------------------------------- forecast

  /** The network's inputs for a day: weekday, month and day of the month. */
  function FutureFeatures(day: int, civil: int -> CivilDate): seq<real>
  {
    [Weekday(day) as real, civil(day).month as real, civil(day).dayOfMonth as real]
  }

  /** `predict_future`: one row for each of the n days after `today`, holding
      the network's output on that day's features with negative outputs
      raised to zero. `network` is the scaler followed by the fitted network,
      applied row by row. */
  method PredictFuture(network: seq<real> -> real, civil: int -> CivilDate, today: int, n: nat)
    returns (r: seq<Dated>)
    ensures |r| == n
    ensures forall i :: 0 <= i < n ==>
              var out := network(FutureFeatures(today + 1 + i, civil));
              r[i].day == today + 1 + i && r[i].value >= 0.0 && r[i].value >= out &&
              (r[i].value == out || r[i].value == 0.0)
  {
    r := [];
    for i := 0 to n
      invariant |r| == i
      invariant forall k :: 0 <= k < i ==>
                  var out := network(FutureFeatures(today + 1 + k, civil));
                  r[k].day == today + 1 + k && r[k].value >= 0.0 && r[k].value >= out &&
                  (r[k].value == out || r[k].value == 0.0)
    {
      var day := today + 1 + i;
      var pred := network(FutureFeatures(day, civil));
      r := r + [Dated(day, Max(0.0, pred))];
    }
  }

  // --------------------------------------------------------------- products

  /** An order row as the product and hour analyses read it: the menu item id,
      the quantity (None when the field is empty or zero) and the hour of
      `createdAt` (None when that does not parse as a date). */
  datatype Order = Order(menuItemId: int, quantity: Option<real>, hour: Option<int>)

  /** Python's `int(float(q))`: the fraction dropped toward zero. */
  function Truncate(q: real): (r: int)
    ensures q >= 0.0 ==> 0 <= r && r as real <= q < r as real + 1.0
    ensures q < 0.0 ==> r <= 0 && r as real - 1.0 < q <= r as real
  {
    if q >= 0.0 then q.Floor else -((-q).Floor)
  }

  /** The quantity an order row counts for, 0 when the field is empty. */
  function Qty(o: Order): int
  {
    if o.quantity.Some? then Truncate(o.quantity.value) else 0
  }

  function Ids(orders: seq<Order>): (ids: seq<int>)
    ensures |ids| == |orders| && forall i :: 0 <= i < |orders| ==> ids[i] == orders[i].menuItemId
  {
    seq(|orders|, i requires 0 <= i < |orders| => orders[i].menuItemId)
  }

  function Qtys(orders: seq<Order>): (q: seq<real>)
    ensures |q| == |orders| && forall i :: 0 <= i < |orders| ==> q[i] == Qty(orders[i]) as real
  {
    seq(|orders|, i requires 0 <= i < |orders| => Qty(orders[i]) as real)
  }

  /** `menu[m['idMenuItem']] = m['itemName']` over the menu rows in order. */
  function MenuNames(menu: seq<(int, string)>): map<int, string>
  {
    if |menu| == 0 then map[] else MenuNames(menu[..|menu| - 1])[menu[|menu| - 1].0 := menu[|menu| - 1].1]
  }

  /** An id has a name exactly when a menu row carries it, and the name is
      that of the last such row. */
  lemma MenuNamesLast(menu: seq<(int, string)>, k: int)
    ensures k in MenuNames(menu) <==> exists i :: 0 <= i < |menu| && menu[i].0 == k
    ensures k in MenuNames(menu) ==>
              exists i :: 0 <= i < |menu| && menu[i] == (k, MenuNames(menu)[k]) &&
                forall j :: i < j < |menu| ==> menu[j].0 != k
  {
    MenuNamesKeys(menu, k);
    MenuNamesFinal(menu, k);
  }

  lemma {:induction false} MenuNamesKeys(menu: seq<(int, string)>, k: int)
    ensures k in MenuNames(menu) <==> exists i :: 0 <= i < |menu| && menu[i].0 == k
  {
    if |menu| > 0 {
      var init := menu[..|menu| - 1];
      MenuNamesKeys(init, k);
      assert forall i :: 0 <= i < |init| ==> init[i] == menu[i];
    }
  }

  lemma {:induction false} MenuNamesFinal(menu: seq<(int, string)>, k: int)
    ensures k in MenuNames(menu) ==>
              exists i :: 0 <= i < |menu| && menu[i] == (k, MenuNames(menu)[k]) &&
                forall j :: i < j < |menu| ==> menu[j].0 != k
  {
    if |menu| > 0 {
      var init := menu[..|menu| - 1];
      MenuNamesFinal(init, k);
      if menu[|menu| - 1].0 == k {
        assert menu[|menu| - 1] == (k, MenuNames(menu)[k]);
      } else if k in MenuNames(menu) {
        assert k in MenuNames(init);
        var i :| 0 <= i < |init| && init[i] == (k, MenuNames(init)[k]) &&
                 forall j :: i < j < |init| ==> init[j].0 != k;
        assert menu[i] == init[i];
        assert forall j :: i < j < |menu| ==> menu[j].0 != k by {
          forall j | i < j < |menu| ensures menu[j].0 != k {
            if j < |init| {
              assert menu[j] == init[j];
            }
          }
        }
      }
    }
  }

  /** `menu.get(mid, f"Unknown ({mid})")`. */
  function ItemName(names: map<int, string>, mid: int): string
  {
    if mid in names then names[mid] else "Unknown (" + IntToString(mid) + ")"
  }

  /** One line of the product table: the item's name and its count. */
  datatype ItemLine = ItemLine(name: string, count: real)

  /** The five ids with the largest summed quantities, largest first. */
  function TopItems(orders: seq<Order>): seq<Entry<int>>
  {
    TopK(Tally(Ids(orders), Qtys(orders)), 5)
  }

  function ItemLines(names: map<int, string>, top: seq<Entry<int>>): (lines: seq<ItemLine>)
    ensures |lines| == |top| &&
            forall i :: 0 <= i < |top| ==> lines[i] == ItemLine(ItemName(names, top[i].key), top[i].value)
  {
    seq(|top|, i requires 0 <= i < |top| => ItemLine(ItemName(names, top[i].key), top[i].value))
  }

  /** What `analyze_products` reports: nothing without order rows, else the
      table of the top five items. */
  function ItemReport(menu: seq<(int, string)>, orders: seq<Order>): Option<seq<ItemLine>>
  {
    if |orders| == 0 then None else Some(ItemLines(MenuNames(menu), TopItems(orders)))
  }

  /** `analyze_products`: the name map and the per-id counts are built row by
      row, then the top five are written out. */
  method AnalyzeProducts(menu: seq<(int, string)>, orders: seq<Order>) returns (r: Option<seq<ItemLine>>)
    ensures r == ItemReport(menu, orders)
  {
    var names: map<int, string> := map[];
    for i := 0 to |menu|
      invariant names == MenuNames(menu[..i])
    {
      assert menu[..i + 1][..i] == menu[..i];
      names := names[menu[i].0 := menu[i].1];
    }
    assert menu[..|menu|] == menu;
    if |orders| == 0 {
      return None;
    }
    ghost var ids, qtys := Ids(orders), Qtys(orders);
    var counts: seq<Entry<int>> := [];
    for i := 0 to |orders|
      invariant counts == Tally(ids[..i], qtys[..i])
    {
      TallyStep(ids, qtys, i);
      var qty := if orders[i].quantity.Some? then Truncate(orders[i].quantity.value) else 0;
      counts := Add(counts, orders[i].menuItemId, qty as real);
    }
    assert ids[..|orders|] == ids && qtys[..|orders|] == qtys;
    var top := TopK(counts, 5);
    var lines: seq<ItemLine> := [];
    for i := 0 to |top|
      invariant lines == ItemLines(names, top[..i])
    {
      ItemLinesStep(names, top, i);
      lines := lines + [ItemLine(ItemName(names, top[i].key), top[i].value)];
    }
    assert top[..|top|] == top;
    r := Some(lines);
  }

  lemma ItemLinesStep(names: map<int, string>, top: seq<Entry<int>>, i: nat)
    requires i < |top|
    ensures ItemLines(names, top[..i + 1]) ==
            ItemLines(names, top[..i]) + [ItemLine(ItemName(names, top[i].key), top[i].value)]
  {
    assert ItemLines(names, top[..i + 1])[..i] == ItemLines(names, top[..i]);
  }

  /** The table is empty exactly without order rows; otherwise it lists
      min(5, distinct ids) items by descending count, each with its menu name
      (or the fallback) and the sum of its quantities. */
  lemma ItemReportSpec(menu: seq<(int, string)>, orders: seq<Order>)
    ensures ItemReport(menu, orders).None? <==> |orders| == 0
    ensures ItemReport(menu, orders).Some? ==>
              var lines := ItemReport(menu, orders).value;
              |lines| == MinNat(5, |KeySet(Ids(orders))|) &&
              (forall i, j :: 0 <= i < j < |lines| ==> lines[i].count >= lines[j].count) &&
              forall i :: 0 <= i < |lines| ==>
                exists mid :: mid in Ids(orders) &&
                  lines[i] == ItemLine(ItemName(MenuNames(menu), mid), SumWhere(Ids(orders), Qtys(orders), mid))
  {
    if |orders| > 0 {
      var top := TopItems(orders);
      var lines := ItemLines(MenuNames(menu), top);
      TallySize(Ids(orders), Qtys(orders));
      TallyTop(Ids(orders), Qtys(orders), 5);
      forall i, j | 0 <= i < j < |lines| ensures lines[i].count >= lines[j].count {
        assert lines[i].count == top[i].value && lines[j].count == top[j].value;
      }
      forall i | 0 <= i < |lines|
        ensures exists mid :: mid in Ids(orders) &&
                  lines[i] == ItemLine(ItemName(MenuNames(menu), mid), SumWhere(Ids(orders), Qtys(orders), mid))
      {
        assert top[i] in top;
        var mid := top[i].key;
        assert lines[i] == ItemLine(ItemName(MenuNames(menu), mid), SumWhere(Ids(orders), Qtys(orders), mid));
      }
    }
  }

  /** No id left out of the table sold more than the last item listed. */
  lemma ItemsLeftOut(orders: seq<Order>, mid: int)
    requires mid in Ids(orders) && mid !in Keys(TopItems(orders))
    ensures SumWhere(Ids(orders), Qtys(orders), mid) <= TopItems(orders)[|TopItems(orders)| - 1].value
  {
    TallyLeftOut(Ids(orders), Qtys(orders), 5, mid);
  }

  // ------------------------------------------------------------ peak hours

  /** The hours of the order rows whose `createdAt` parses, in order. */
  function ParsedHours(orders: seq<Order>): seq<int>
  {
    if |orders| == 0 then []
    else
      var o := orders[|orders| - 1];
      ParsedHours(orders[..|orders| - 1]) + (if o.hour.Some? then [o.hour.value] else [])
  }

  /** One per parsed order: each counts once. */
  function Ones(n: nat): (s: seq<real>)
    ensures |s| == n && forall i :: 0 <= i < n ==> s[i] == 1.0
  {
    seq(n, _ => 1.0)
  }

  /** `hours[h] = hours.get(h, 0) + 1` for every order whose time parses. */
  function HourTally(orders: seq<Order>): seq<Entry<int>>
  {
    Tally(ParsedHours(orders), Ones(|ParsedHours(orders)|))
  }

  lemma HourTallyStep(orders: seq<Order>, i: nat)
    requires i < |orders|
    ensures HourTally(orders[..i + 1]) ==
            if orders[i].hour.Some? then Add(HourTally(orders[..i]), orders[i].hour.value, 1.0)
            else HourTally(orders[..i])
  {
    assert orders[..i + 1][..i] == orders[..i];
    var hs := ParsedHours(orders[..i]);
    if orders[i].hour.Some? {
      var hs' := hs + [orders[i].hour.value];
      assert ParsedHours(orders[..i + 1]) == hs';
      assert hs'[..|hs|] == hs;
      assert Ones(|hs'|)[..|hs|] == Ones(|hs|);
      assert Tally(hs', Ones(|hs'|)) == Add(Tally(hs, Ones(|hs|)), orders[i].hour.value, 1.0);
    } else {
      assert ParsedHours(orders[..i + 1]) == hs;
    }
  }

  /** The number of orders placed in hour h. */
  function HourCount(orders: seq<Order>, h: int): nat
  {
    if |orders| == 0 then 0
    else HourCount(orders[..|orders| - 1], h) + (if orders[|orders| - 1].hour == Some(h) then 1 else 0)
  }

  /** The tally counts each hour's orders. */
  lemma {:induction false} HourCounted(orders: seq<Order>, h: int)
    ensures SumWhere(ParsedHours(orders), Ones(|ParsedHours(orders)|), h) == HourCount(orders, h) as real
  {
    if |orders| > 0 {
      var init := orders[..|orders| - 1];
      HourCounted(init, h);
      var hs := ParsedHours(init);
      var o := orders[|orders| - 1];
      if o.hour.Some? {
        var hs' := hs + [o.hour.value];
        assert ParsedHours(orders) == hs';
        assert hs'[..|hs|] == hs;
        assert Ones(|hs'|)[..|hs|] == Ones(|hs|);
        assert SumWhere(hs', Ones(|hs'|), h) ==
               SumWhere(hs, Ones(|hs|), h) + (if o.hour.value == h then 1.0 else 0.0);
      } else {
        assert ParsedHours(orders) == hs;
      }
    }
  }

  lemma {:induction false} ParsedHoursFrom(orders: seq<Order>)
    ensures forall h :: h in ParsedHours(orders) <==> exists i :: 0 <= i < |orders| && orders[i].hour == Some(h)
  {
    if |orders| > 0 {
      var init := orders[..|orders| - 1];
      ParsedHoursFrom(init);
      assert forall i :: 0 <= i < |init| ==> init[i] == orders[i];
    }
  }

  /** The clock reading of hour h: 1 to 12 and whether it is before noon. */
  function Clock12(h: int): (int, bool)
  {
    var h12 := if h <= 12 then h else h - 12;
    (if h12 == 0 then 12 else h12, h < 12)
  }

  /** The hour of the day a twelve-hour reading stands for. */
  function Clock24(h12: int, morning: bool): int
  {
    if morning then (if h12 == 12 then 0 else h12) else (if h12 == 12 then 12 else h12 + 12)
  }

  /** Every hour of the day reads as 1 to 12, before noon exactly for 0 to 11,
      and the reading gives the hour back, so no two hours read alike. */
  lemma ClockRoundTrip(h: int)
    requires 0 <= h < 24
    ensures 1 <= Clock12(h).0 <= 12
    ensures Clock12(h).1 <==> h < 12
    ensures Clock24(Clock12(h).0, Clock12(h).1) == h
  {
  }

  /** One line of the busiest-hours list: the clock reading and the count. */
  datatype PeakLine = PeakLine(hour12: int, morning: bool, count: real)

  function PeakLines(top: seq<Entry<int>>): (lines: seq<PeakLine>)
    ensures |lines| == |top| &&
            forall i :: 0 <= i < |top| ==>
              lines[i] == PeakLine(Clock12(top[i].key).0, Clock12(top[i].key).1, top[i].value)
  {
    seq(|top|, i requires 0 <= i < |top| => PeakLine(Clock12(top[i].key).0, Clock12(top[i].key).1, top[i].value))
  }

  /** What `analyze_peak_hours` reports: nothing without order rows, else the
      three busiest hours. */
  function PeakReport(orders: seq<Order>): Option<seq<PeakLine>>
  {
    if |orders| == 0 then None else Some(PeakLines(TopK(HourTally(orders), 3)))
  }

  /** `analyze_peak_hours`: an order whose time does not parse is skipped. */
  method AnalyzePeakHours(orders: seq<Order>) returns (r: Option<seq<PeakLine>>)
    ensures r == PeakReport(orders)
  {
    if |orders| == 0 {
      return None;
    }
    var hours: seq<Entry<int>> := [];
    for i := 0 to |orders|
      invariant hours == HourTally(orders[..i])
    {
      HourTallyStep(orders, i);
      if orders[i].hour.Some? {
        hours := Add(hours, orders[i].hour.value, 1.0);
      }
    }
    assert orders[..|orders|] == orders;
    r := Some(PeakLines(TopK(hours, 3)));
  }

  /** A line reads an hour some order was placed in, with that hour's count. */
  ghost predicate ReadsHour(orders: seq<Order>, line: PeakLine)
  {
    exists h :: (exists k :: 0 <= k < |orders| && orders[k].hour == Some(h)) &&
                Clock12(h) == (line.hour12, line.morning) && line.count == HourCount(orders, h) as real
  }

  /** The list is empty exactly without order rows; otherwise it holds the
      min(3, distinct hours) busiest hours by descending count, each line the
      reading of an hour some order was placed in, with that hour's count. */
  lemma PeakReportSpec(orders: seq<Order>)
    ensures PeakReport(orders).None? <==> |orders| == 0
    ensures PeakReport(orders).Some? ==>
              var lines := PeakReport(orders).value;
              |lines| == MinNat(3, |KeySet(ParsedHours(orders))|) &&
              (forall i, j :: 0 <= i < j < |lines| ==> lines[i].count >= lines[j].count) &&
              forall i :: 0 <= i < |lines| ==> ReadsHour(orders, lines[i])
  {
    if |orders| > 0 {
      var hs := ParsedHours(orders);
      var top := TopK(HourTally(orders), 3);
      var lines := PeakLines(top);
      assert PeakReport(orders).value == lines;
      TallySize(hs, Ones(|hs|));
      TallyTop(hs, Ones(|hs|), 3);
      forall i, j | 0 <= i < j < |lines| ensures lines[i].count >= lines[j].count {
        assert lines[i].count == top[i].value && lines[j].count == top[j].value;
      }
      forall i | 0 <= i < |lines| ensures ReadsHour(orders, lines[i]) {
        PeakLineRead(orders, top, i);
      }
    }
  }

  lemma PeakLineRead(orders: seq<Order>, top: seq<Entry<int>>, i: nat)
    requires top == TopK(HourTally(orders), 3) && i < |top|
    ensures ReadsHour(orders, PeakLines(top)[i])
  {
    var hs := ParsedHours(orders);
    var lines := PeakLines(top);
    TallyTop(hs, Ones(|hs|), 3);
    ParsedHoursFrom(orders);
    assert top[i] in top;
    var h := top[i].key;
    assert h in hs && top[i].value == SumWhere(hs, Ones(|hs|), h);
    HourCounted(orders, h);
    assert Clock12(h) == (lines[i].hour12, lines[i].morning);
    assert lines[i].count == HourCount(orders, h) as real;
  }

  // -------------------------------------------------------------- strategy

  /** The closing advice of the report. */
  datatype Strategy = PromoteBestSellers | StockUp | OfferDeals

  /** The average daily sales line: the mean, 0 for no receipts. */
  function AverageSales(sales: seq<real>): real
  {
    if |sales| == 0 then 0.0 else Mean(sales)
  }

  /** Growth in the label first, then a forecast total above 3.5 times the
      average, else the low-sales advice. */
  function ChooseStrategy(trend: Trend, forecastTotal: real, avg: real): Strategy
  {
    if IsGrowth(trend) then PromoteBestSellers
    else if forecastTotal > avg * 3.5 then StockUp
    else OfferDeals
  }

  /** The strategy of `generate_report` from the receipts and the forecast. */
  function ReportStrategy(sales: seq<real>, forecast: seq<Dated>): Strategy
  {
    ChooseStrategy(AnalyzeTrends(sales), Sum(DatedValues(forecast)), AverageSales(sales))
  }

  /** The three strategies split the cases: growth advice exactly for a
      growth label, stocking up exactly without growth and with a forecast
      total above 3.5 times the average. */
  lemma StrategyCases(sales: seq<real>, forecast: seq<Dated>)
    ensures ReportStrategy(sales, forecast) == PromoteBestSellers <==> IsGrowth(AnalyzeTrends(sales))
    ensures ReportStrategy(sales, forecast) == StockUp <==>
              !IsGrowth(AnalyzeTrends(sales)) && Sum(DatedValues(forecast)) > AverageSales(sales) * 3.5
    ensures ReportStrategy(sales, forecast) == OfferDeals <==>
              !IsGrowth(AnalyzeTrends(sales)) && Sum(DatedValues(forecast)) <= AverageSales(sales) * 3.5
  {
  }

  /** Under two receipts there is no growth advice; with none the average is
      0, so a forecast with any positive day means stocking up. */
  lemma ShortHistoryStrategy(sales: seq<real>, forecast: seq<Dated>)
    requires |sales| < 2
    ensures ReportStrategy(sales, forecast) != PromoteBestSellers
    ensures |sales| == 0 ==> (ReportStrategy(sales, forecast) == StockUp <==> Sum(DatedValues(forecast)) > 0.0)
  {
  }

  /** Receipts on a rising line with a nonnegative average get the growth
      advice, on a falling or flat one they never do. */
  lemma LineStrategy(sales: seq<real>, a: real, b: real, forecast: seq<Dated>)
    requires |sales| >= 2 && Mean(sales) >= 0.0
    requires forall i :: 0 <= i < |sales| ==> sales[i] == a + b * (i as real)
    ensures ReportStrategy(sales, forecast) == PromoteBestSellers <==> b > 0.0
  {
    LineTrend(sales, a, b);
  }
}
