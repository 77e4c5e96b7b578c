/** The analytics engine behind the custom report: confidence intervals,
    z-score anomalies, the weekday profile, product tallies, the rule-based
    recommendations and the LightGBM forecast loop. Tables arrive as
    sequences (the daily series is `Dated` rows sorted by day); the fitted
    model is a parameter that may fail. */
module PredictCustom {
  import opened Wrappers
  import opened Stats
  import opened Calendar
  import opened Ranking
  import opened Text

  // ---------------------------------------------------- confidence interval

  /** `1.96 if confidence == 0.95 else 1.645`. */
  function ZScore(confidence: real): (z: real)
    ensures z == 1.96 <==> confidence == 0.95
    ensures z == 1.645 <==> confidence != 0.95
  {
    if confidence == 0.95 then 1.96 else 1.645
  }

  /** The spread used: the historical std when given, else for more than one
      prediction their population std (supplied as `popStd`, whose square is
      numpy's variance), else 0.15 times their mean. */
  function IntervalStd(preds: seq<real>, historicalStd: Option<real>, popStd: real): (s: real)
    requires |preds| > 0
    ensures historicalStd.Some? ==> s == historicalStd.value
    ensures historicalStd.None? && |preds| > 1 ==> s == popStd
    ensures historicalStd.None? && |preds| == 1 ==> s == preds[0] * 0.15
  {
    if historicalStd.Some? then historicalStd.value
    else if |preds| > 1 then popStd
    else
      assert preds[..0] == [] && Sum(preds) == preds[0];
      Mean(preds) * 0.15
  }

  /** `calculate_confidence_interval`: the bounds `max(p - z std, 0)` and
      `p + z std`. With no predictions both bounds are empty. */
  function ConfidenceInterval(preds: seq<real>, historicalStd: Option<real>, confidence: real, popStd: real)
    : (bounds: (seq<real>, seq<real>))
    requires popStd >= 0.0 && (|preds| > 1 ==> popStd * popStd == PopulationVariance(preds))
    ensures |bounds.0| == |preds| && |bounds.1| == |preds|
    ensures forall i :: 0 <= i < |preds| ==> bounds.0[i] >= 0.0
  {
    if |preds| == 0 then ([], [])
    else
      var margin := ZScore(confidence) * IntervalStd(preds, historicalStd, popStd);
      (seq(|preds|, i requires 0 <= i < |preds| => Max(preds[i] - margin, 0.0)),
       seq(|preds|, i requires 0 <= i < |preds| => preds[i] + margin))
  }

  /** The interval is symmetric about each prediction up to the clamp at 0:
      the upper bound is the prediction plus the margin and the lower bound
      the prediction minus the same margin, unless that is negative. With a
      nonnegative std it contains every nonnegative prediction, and with a
      zero std it collapses to the prediction (clamped at 0). */
  lemma ConfidenceIntervalShape(preds: seq<real>, historicalStd: Option<real>, confidence: real, popStd: real)
    requires popStd >= 0.0 && (|preds| > 1 ==> popStd * popStd == PopulationVariance(preds))
    requires |preds| > 0
    ensures var b := ConfidenceInterval(preds, historicalStd, confidence, popStd);
            var m := ZScore(confidence) * IntervalStd(preds, historicalStd, popStd);
            forall i :: 0 <= i < |preds| ==>
              b.1[i] - preds[i] == m &&
              b.0[i] == (if preds[i] - m > 0.0 then preds[i] - m else 0.0) &&
              (IntervalStd(preds, historicalStd, popStd) >= 0.0 && preds[i] >= 0.0 ==> b.0[i] <= preds[i] <= b.1[i]) &&
              (IntervalStd(preds, historicalStd, popStd) == 0.0 ==> b.1[i] == preds[i] && b.0[i] == Max(preds[i], 0.0))
  {
  }

  /** Without a historical std, the computed spread is never negative when
      there are several predictions, and for a single nonnegative one. */
  lemma IntervalStdNonnegative(preds: seq<real>, popStd: real)
    requires |preds| > 0 && popStd >= 0.0
    requires forall i :: 0 <= i < |preds| ==> preds[i] >= 0.0
    ensures IntervalStd(preds, None, popStd) >= 0.0
  {
    if |preds| == 1 {
      assert preds[0] >= 0.0;
    }
  }

  // -------------------------------------------------------------- anomalies

  /** `detect_anomalies` on the (day, value) rows of one column: the rows
      whose z-score |value - mean| / std exceeds t, std being the sample std.
      Nothing for an empty frame or a missing column, nothing for a single
      row (its sample std is NaN and no comparison with NaN holds), and
      nothing when the std is 0. The test compares squares. */
  function DetectAnomalies(rows: seq<Dated>, hasColumn: bool, t: real): (r: seq<Dated>)
    ensures |r| <= |rows|
  {
    if !hasColumn || |rows| < 2 then []
    else
      var v := DatedValues(rows);
      var variance := SampleVariance(v);
      if variance == 0.0 then []
      else Select(rows, (x: Dated) => ExceedsSigmas(x.value - Mean(v), variance, t))
  }

  /** A row is reported exactly when the frame has the column, at least two
      rows and a nonzero std, and the row's deviation exceeds t sigmas; the
      reported rows keep the frame's order. */
  lemma AnomaliesExact(rows: seq<Dated>, hasColumn: bool, t: real)
    ensures forall x :: x in DetectAnomalies(rows, hasColumn, t) <==>
              hasColumn && |rows| >= 2 && SampleVariance(DatedValues(rows)) != 0.0 && x in rows &&
              ExceedsSigmas(x.value - Mean(DatedValues(rows)), SampleVariance(DatedValues(rows)), t)
    ensures Increasing(rows) ==> Increasing(DetectAnomalies(rows, hasColumn, t))
  {
    if hasColumn && |rows| >= 2 {
      var v := DatedValues(rows);
      var variance := SampleVariance(v);
      if variance != 0.0 {
        var keep := (x: Dated) => ExceedsSigmas(x.value - Mean(v), variance, t);
        SelectMembers(rows, keep);
        if Increasing(rows) {
          SelectIncreasing(rows, keep);
        }
      }
    }
  }

  /** With sigma the sample std, a row of a frame with the column is reported
      exactly when |value - mean| / sigma > t. */
  lemma AnomaliesAreZScores(rows: seq<Dated>, t: real, sigma: real, x: Dated)
    requires |rows| >= 2 && sigma > 0.0 && sigma * sigma == SampleVariance(DatedValues(rows))
    ensures x in DetectAnomalies(rows, true, t) <==>
              x in rows && Abs(x.value - Mean(DatedValues(rows))) / sigma > t
  {
    var v := DatedValues(rows);
    var variance := SampleVariance(v);
    ProductPositive(variance, sigma, sigma);
    var keep := (y: Dated) => ExceedsSigmas(y.value - Mean(v), variance, t);
    SelectMembers(rows, keep);
    assert DetectAnomalies(rows, true, t) == Select(rows, keep);
    ExceedsSigmasIsZTest(x.value - Mean(v), variance, t, sigma);
  }

  lemma ProductPositive(p: real, a: real, b: real)
    requires a > 0.0 && b > 0.0 && p == a * b
    ensures p > 0.0
  {
  }

  /** A constant column has a zero std, so nothing is reported. */
  lemma ConstantHasNoAnomalies(rows: seq<Dated>, hasColumn: bool, t: real)
    requires Constant(DatedValues(rows))
    ensures DetectAnomalies(rows, hasColumn, t) == []
  {
    if |rows| >= 2 {
      VarianceZeroIffConstant(DatedValues(rows));
    }
  }

  // ------------------------------------------------------- seasonal pattern

  /** Where a weekday stands in the alphabetical order of day names. */
  function AlphaPos(w: int): (p: nat)
    requires 0 <= w < 7
    ensures p < 7 && AlphaOrder[p] == w
  {
    [1, 5, 6, 4, 0, 2, 3][w]
  }

  /** The values of the rows falling on weekday w. */
  function OnWeekday(rows: seq<Dated>, w: int): seq<real>
  {
    ValuesWhere(rows, d => Weekday(d) == w)
  }

  /** `groupby('day_name').mean()` over the first k day names in alphabetical
      order: one entry per weekday that has rows, holding their mean. */
  function WeeklyUpTo(rows: seq<Dated>, k: nat): seq<Entry<int>>
    requires k <= 7
  {
    if k == 0 then []
    else
      var w := AlphaOrder[k - 1];
      var s := OnWeekday(rows, w);
      WeeklyUpTo(rows, k - 1) + (if |s| > 0 then [Entry(w, Mean(s))] else [])
  }

  function Weekly(rows: seq<Dated>): seq<Entry<int>>
  {
    WeeklyUpTo(rows, 7)
  }

  /** Each weekday sits at its own alphabetical place. */
  lemma AlphaPlace(k: nat)
    requires k < 7
    ensures 0 <= AlphaOrder[k] < 7 && AlphaPos(AlphaOrder[k]) == k
  {
    if k == 0 {} else if k == 1 {} else if k == 2 {} else if k == 3 {}
    else if k == 4 {} else if k == 5 {} else {}
  }

  /** Every grouped mean belongs to a weekday that has rows, among the first
      k names, and is the mean of its values. */
  lemma {:induction false} WeeklyEntries(rows: seq<Dated>, k: nat)
    requires k <= 7
    ensures forall i :: 0 <= i < |WeeklyUpTo(rows, k)| ==>
              var x := WeeklyUpTo(rows, k)[i];
              0 <= x.key < 7 && AlphaPos(x.key) < k && |OnWeekday(rows, x.key)| > 0 &&
              x.value == Mean(OnWeekday(rows, x.key))
  {
    if k > 0 {
      WeeklyEntries(rows, k - 1);
      AlphaPlace(k - 1);
      var e' := WeeklyUpTo(rows, k - 1);
      var e := WeeklyUpTo(rows, k);
      var w := AlphaOrder[k - 1];
      var s := OnWeekday(rows, w);
      if |s| > 0 {
        assert e == e' + [Entry(w, Mean(s))];
        forall i | 0 <= i < |e|
          ensures 0 <= e[i].key < 7 && AlphaPos(e[i].key) < k
          ensures |OnWeekday(rows, e[i].key)| > 0 && e[i].value == Mean(OnWeekday(rows, e[i].key))
        {
          if i < |e'| {
            assert e[i] == e'[i];
          } else {
            assert e[i] == Entry(w, Mean(s));
          }
        }
      } else {
        assert e == e';
      }
    }
  }

  /** Entries keyed by weekdays in strictly increasing alphabetical order. */
  predicate AlphaSorted(e: seq<Entry<int>>)
  {
    forall i, j :: 0 <= i < j < |e| ==>
      0 <= e[i].key < 7 && 0 <= e[j].key < 7 && AlphaPos(e[i].key) < AlphaPos(e[j].key)
  }

  /** The grouped means follow the alphabetical order of the day names. */
  lemma {:induction false} WeeklyOrdered(rows: seq<Dated>, k: nat)
    requires k <= 7
    ensures AlphaSorted(WeeklyUpTo(rows, k))
  {
    if k > 0 {
      WeeklyOrdered(rows, k - 1);
      WeeklyEntries(rows, k - 1);
      AlphaPlace(k - 1);
      var e' := WeeklyUpTo(rows, k - 1);
      var e := WeeklyUpTo(rows, k);
      var w := AlphaOrder[k - 1];
      var s := OnWeekday(rows, w);
      if |s| > 0 {
        assert e == e' + [Entry(w, Mean(s))];
        forall i, j | 0 <= i < j < |e|
          ensures 0 <= e[i].key < 7 && 0 <= e[j].key < 7 && AlphaPos(e[i].key) < AlphaPos(e[j].key)
        {
          assert e[i] == e'[i];
          if j < |e'| {
            assert e[j] == e'[j];
          } else {
            assert e[j] == Entry(w, Mean(s));
          }
        }
      } else {
        assert e == e';
      }
    }
  }

  /** Every weekday among the first k names that has rows has a grouped mean. */
  lemma {:induction false} WeeklyComplete(rows: seq<Dated>, k: nat, w: int)
    requires k <= 7 && 0 <= w < 7 && AlphaPos(w) < k && |OnWeekday(rows, w)| > 0
    ensures exists i :: 0 <= i < |WeeklyUpTo(rows, k)| && WeeklyUpTo(rows, k)[i].key == w
  {
    var e' := WeeklyUpTo(rows, k - 1);
    var e := WeeklyUpTo(rows, k);
    AlphaPlace(k - 1);
    if AlphaPos(w) == k - 1 {
      assert AlphaOrder[k - 1] == w;
      assert e == e' + [Entry(w, Mean(OnWeekday(rows, w)))];
      assert e[|e'|].key == w;
    } else {
      WeeklyComplete(rows, k - 1, w);
      var i :| 0 <= i < |e'| && e'[i].key == w;
      assert e[i].key == w;
    }
  }

  /** A weekday has a group exactly when some row falls on it. */
  lemma OnWeekdayNonempty(rows: seq<Dated>, w: int)
    ensures |OnWeekday(rows, w)| > 0 <==> exists i :: 0 <= i < |rows| && Weekday(rows[i].day) == w
  {
    ValuesWhereNonempty(rows, d => Weekday(d) == w);
  }

  /** Every group of a nonempty frame is listed, so the list is not empty. */
  lemma WeeklyNonempty(rows: seq<Dated>)
    requires |rows| > 0
    ensures |Weekly(rows)| > 0
  {
    var w := Weekday(rows[0].day);
    OnWeekdayNonempty(rows, w);
    WeeklyComplete(rows, 7, w);
  }

  function WeekendValues(rows: seq<Dated>): seq<real>
  {
    ValuesWhere(rows, d => IsWeekend(FridaySaturday, d))
  }

  function WorkdayValues(rows: seq<Dated>): seq<real>
  {
    ValuesWhere(rows, d => !IsWeekend(FridaySaturday, d))
  }

  /** The mean of a group, 0 for an empty one. */
  function GroupAverage(s: seq<real>): real
  {
    if |s| == 0 then 0.0 else Mean(s)
  }

  /** The result of `analyze_seasonal_patterns`, with weekdays for day names. */
  datatype Patterns = Patterns(weekly: seq<Entry<int>>, best: Entry<int>, worst: Entry<int>,
                               weekendAvg: real, weekdayAvg: real, weekendBoost: real)

  /** `analyze_seasonal_patterns`: nothing for an empty frame; otherwise the
      weekday means, the first largest and first smallest of them, the
      Friday-Saturday and other-day averages and the weekend boost in percent. */
  function SeasonalPatterns(rows: seq<Dated>): (p: Option<Patterns>)
    ensures p.None? <==> |rows| == 0
  {
    if |rows| == 0 then None
    else
      var e := Weekly(rows);
      WeeklyNonempty(rows);
      var weekend := GroupAverage(WeekendValues(rows));
      var weekday := GroupAverage(WorkdayValues(rows));
      Some(Patterns(e, e[BestIndex(e, true)], e[BestIndex(e, false)], weekend, weekday, WeekendBoost(weekend, weekday)))
  }

  /** How far in percent the weekend average lies above the other days'
      average, 0 when the other days average at most 0. */
  function WeekendBoost(weekend: real, weekday: real): real
  {
    if weekday > 0.0 then (weekend - weekday) / weekday * 100.0 else 0.0
  }

  /** The best day's mean is at least every weekday's mean and the worst
      day's at most; both are weekdays with rows, reported with their own
      mean; among equal means the alphabetically first name wins. */
  lemma SeasonalExtremes(rows: seq<Dated>, w: int)
    requires |rows| > 0 && 0 <= w < 7 && |OnWeekday(rows, w)| > 0
    ensures var p := SeasonalPatterns(rows).value;
            var m := Mean(OnWeekday(rows, w));
            0 <= p.best.key < 7 && 0 <= p.worst.key < 7 &&
            |OnWeekday(rows, p.best.key)| > 0 && p.best.value == Mean(OnWeekday(rows, p.best.key)) &&
            |OnWeekday(rows, p.worst.key)| > 0 && p.worst.value == Mean(OnWeekday(rows, p.worst.key)) &&
            p.worst.value <= m <= p.best.value &&
            (m == p.best.value ==> AlphaPos(p.best.key) <= AlphaPos(w)) &&
            (m == p.worst.value ==> AlphaPos(p.worst.key) <= AlphaPos(w))
  {
    WeeklyComplete(rows, 7, w);
    WeeklyEntries(rows, 7);
    WeeklyOrdered(rows, 7);
    var e := Weekly(rows);
    var i :| 0 <= i < |e| && e[i].key == w;
    var b := BestIndex(e, true);
    var c := BestIndex(e, false);
    if i < b {
      assert Beats(e[b].value, e[i].value, true);
    }
    if i < c {
      assert Beats(e[c].value, e[i].value, false);
    }
  }

  /** The weekend averages: 0 for a group without rows, else its mean (a
      group has rows exactly when some row's day is in it); the boost is
      positive exactly when the other days average above 0 and the weekend
      above them. */
  lemma SeasonalAverages(rows: seq<Dated>)
    requires |rows| > 0
    ensures var p := SeasonalPatterns(rows).value;
            (|WeekendValues(rows)| > 0 <==> exists i :: 0 <= i < |rows| && IsWeekend(FridaySaturday, rows[i].day)) &&
            (|WorkdayValues(rows)| > 0 <==> exists i :: 0 <= i < |rows| && !IsWeekend(FridaySaturday, rows[i].day)) &&
            p.weekendAvg == GroupAverage(WeekendValues(rows)) &&
            p.weekdayAvg == GroupAverage(WorkdayValues(rows))
  {
    ValuesWhereNonempty(rows, d => IsWeekend(FridaySaturday, d));
    ValuesWhereNonempty(rows, d => !IsWeekend(FridaySaturday, d));
  }

  /** The boost is positive exactly when the other days average above 0 and
      the weekend above them, and 0 when the other days average at most 0. */
  lemma WeekendBoostSign(rows: seq<Dated>)
    requires |rows| > 0
    ensures var p := SeasonalPatterns(rows).value;
            (p.weekendBoost > 0.0 <==> p.weekdayAvg > 0.0 && p.weekendAvg > p.weekdayAvg) &&
            (p.weekdayAvg <= 0.0 ==> p.weekendBoost == 0.0)
  {
    var p := SeasonalPatterns(rows).value;
    assert p.weekendBoost == WeekendBoost(p.weekendAvg, p.weekdayAvg);
    BoostSign(p.weekendAvg, p.weekdayAvg);
  }

  lemma BoostSign(we: real, wd: real)
    ensures WeekendBoost(we, wd) > 0.0 <==> wd > 0.0 && we > wd
  {
    if wd > 0.0 {
      var q := (we - wd) / wd;
      assert q * wd == we - wd;
      if q > 0.0 {
        MulPositive(q, wd);
      } else {
        MulNonnegative(-q, wd);
      }
    }
  }

  // --------------------------------------------------------------- products

  /** A menu row: `idMenuItem` or `id`, `itemName` or `name`, each possibly missing. */
  datatype MenuItem = MenuItem(idMenuItem: Option<int>, id: Option<int>, itemName: Option<string>, name: Option<string>)

  /** An order row: `menuItemId`, `quantity` and `price`, each possibly missing. */
  datatype OrderItem = OrderItem(menuItemId: Option<int>, quantity: Option<int>, price: Option<real>)

  /** Python's `a or b`: a missing or zero first value falls through to b. */
  function OrInt(a: Option<int>, b: Option<int>): Option<int>
  {
    if a.Some? && a.value != 0 then a else b
  }

  function OrString(a: Option<string>, b: Option<string>): Option<string>
  {
    if a.Some? && a.value != "" then a else b
  }

  /** The lookup entry a menu row contributes: only with a nonzero id and a
      nonempty name. */
  function MenuEntry(m: MenuItem): (e: Option<(int, string)>)
    ensures e.Some? ==> e.value.0 != 0 && e.value.1 != ""
  {
    var id := OrInt(m.idMenuItem, m.id);
    var name := OrString(m.itemName, m.name);
    if id.Some? && id.value != 0 && name.Some? && name.value != "" then Some((id.value, name.value)) else None
  }

  /** The id-to-name lookup built from the menu rows in order. */
  function MenuLookup(menu: seq<MenuItem>): map<int, string>
  {
    if |menu| == 0 then map[]
    else
      var lookup := MenuLookup(menu[..|menu| - 1]);
      var e := MenuEntry(menu[|menu| - 1]);
      if e.Some? then lookup[e.value.0 := e.value.1] else lookup
  }

  /** An id is looked up exactly when some menu row contributes it, and it
      maps to the name of the last such row. */
  lemma MenuLookupLast(menu: seq<MenuItem>, k: int)
    ensures k in MenuLookup(menu) <==>
              exists i :: 0 <= i < |menu| && MenuEntry(menu[i]).Some? && MenuEntry(menu[i]).value.0 == k
    ensures k in MenuLookup(menu) ==>
              exists i :: 0 <= i < |menu| && MenuEntry(menu[i]) == Some((k, MenuLookup(menu)[k])) &&
                forall j :: i < j < |menu| ==> MenuEntry(menu[j]).None? || MenuEntry(menu[j]).value.0 != k
  {
    MenuLookupKeys(menu, k);
    MenuLookupFinal(menu, k);
  }

  lemma {:induction false} MenuLookupKeys(menu: seq<MenuItem>, k: int)
    ensures k in MenuLookup(menu) <==>
              exists i :: 0 <= i < |menu| && MenuEntry(menu[i]).Some? && MenuEntry(menu[i]).value.0 == k
  {
    if |menu| > 0 {
      var init := menu[..|menu| - 1];
      MenuLookupKeys(init, k);
      assert forall i :: 0 <= i < |init| ==> init[i] == menu[i];
    }
  }

  lemma {:induction false} MenuLookupFinal(menu: seq<MenuItem>, k: int)
    ensures k in MenuLookup(menu) ==>
              exists i :: 0 <= i < |menu| && MenuEntry(menu[i]) == Some((k, MenuLookup(menu)[k])) &&
                forall j :: i < j < |menu| ==> MenuEntry(menu[j]).None? || MenuEntry(menu[j]).value.0 != k
  {
    if |menu| > 0 {
      var init := menu[..|menu| - 1];
      MenuLookupFinal(init, k);
      var e := MenuEntry(menu[|menu| - 1]);
      if e.Some? && e.value.0 == k {
        assert MenuEntry(menu[|menu| - 1]) == Some((k, MenuLookup(menu)[k]));
      } else if k in MenuLookup(menu) {
        assert k in MenuLookup(init);
        var i :| 0 <= i < |init| && MenuEntry(init[i]) == Some((k, MenuLookup(init)[k])) &&
                 forall j :: i < j < |init| ==> MenuEntry(init[j]).None? || MenuEntry(init[j]).value.0 != k;
        assert menu[i] == init[i];
        forall j | i < j < |menu| ensures MenuEntry(menu[j]).None? || MenuEntry(menu[j]).value.0 != k {
          if j < |init| {
            assert menu[j] == init[j];
          }
        }
      }
    }
  }

  /** `menu_lookup.get(menu_id, "منتج <id>")`, the id of a missing
      `menuItemId` being 0. */
  function ProductName(lookup: map<int, string>, o: OrderItem): string
  {
    var id := if o.menuItemId.Some? then o.menuItemId.value else 0;
    if id in lookup then lookup[id] else "\U{0645}\U{0646}\U{062A}\U{062C} " + IntToString(id)
  }

  function ProductNames(lookup: map<int, string>, orders: seq<OrderItem>): (names: seq<string>)
    ensures |names| == |orders| && forall i :: 0 <= i < |orders| ==> names[i] == ProductName(lookup, orders[i])
  {
    seq(|orders|, i requires 0 <= i < |orders| => ProductName(lookup, orders[i]))
  }

  /** The quantity of an order row, 1 when missing. */
  function Quantity(o: OrderItem): int
  {
    if o.quantity.Some? then o.quantity.value else 1
  }

  function Quantities(orders: seq<OrderItem>): (q: seq<real>)
    ensures |q| == |orders| && forall i :: 0 <= i < |orders| ==> q[i] == Quantity(orders[i]) as real
  {
    seq(|orders|, i requires 0 <= i < |orders| => Quantity(orders[i]) as real)
  }

  /** price times quantity, the price 0 when missing. */
  function Revenue(o: OrderItem): real
  {
    (if o.price.Some? then o.price.value else 0.0) * Quantity(o) as real
  }

  function Revenues(orders: seq<OrderItem>): (r: seq<real>)
    ensures |r| == |orders| && forall i :: 0 <= i < |orders| ==> r[i] == Revenue(orders[i])
  {
    seq(|orders|, i requires 0 <= i < |orders| => Revenue(orders[i]))
  }

  /** The result of `analyze_products`. */
  datatype Products = Products(topByQuantity: seq<Entry<string>>, topByRevenue: seq<Entry<string>>,
                               totalSold: real, unique: nat)

  /** What `analyze_products` reports: nothing without order rows or menu
      rows; otherwise the five best-selling names by quantity and by revenue
      from the per-name tallies, the total of the quantity tally and the
      number of names. */
  function ProductReport(menu: seq<MenuItem>, orders: seq<OrderItem>): Option<Products>
  {
    if |orders| == 0 || |menu| == 0 then None
    else
      var names := ProductNames(MenuLookup(menu), orders);
      var counts := Tally(names, Quantities(orders));
      var revenue := Tally(names, Revenues(orders));
      Some(Products(TopK(counts, 5), TopK(revenue, 5), Sum(Values(counts)), |counts|))
  }

  /** `analyze_products`: the lookup and both tallies are built row by row. */
  method AnalyzeProducts(menu: seq<MenuItem>, orders: seq<OrderItem>) returns (r: Option<Products>)
    ensures r == ProductReport(menu, orders)
  {
    if |orders| == 0 || |menu| == 0 {
      return None;
    }
    var lookup: map<int, string> := map[];
    for i := 0 to |menu|
      invariant lookup == MenuLookup(menu[..i])
    {
      assert menu[..i + 1][..i] == menu[..i];
      var id := OrInt(menu[i].idMenuItem, menu[i].id);
      var name := OrString(menu[i].itemName, menu[i].name);
      if id.Some? && id.value != 0 && name.Some? && name.value != "" {
        lookup := lookup[id.value := name.value];
      }
    }
    assert menu[..|menu|] == menu;
    ghost var names := ProductNames(lookup, orders);
    ghost var qtys := Quantities(orders);
    ghost var revs := Revenues(orders);
    var counts: seq<Entry<string>> := [];
    var revenue: seq<Entry<string>> := [];
    for i := 0 to |orders|
      invariant counts == Tally(names[..i], qtys[..i])
      invariant revenue == Tally(names[..i], revs[..i])
    {
      TallyStep(names, qtys, i);
      TallyStep(names, revs, i);
      var id := if orders[i].menuItemId.Some? then orders[i].menuItemId.value else 0;
      var qty := Quantity(orders[i]);
      var name := if id in lookup then lookup[id] else "\U{0645}\U{0646}\U{062A}\U{062C} " + IntToString(id);
      counts := Add(counts, name, qty as real);
      revenue := Add(revenue, name, Revenue(orders[i]));
    }
    assert names[..|orders|] == names && qtys[..|orders|] == qtys && revs[..|orders|] == revs;
    r := Some(Products(TopK(counts, 5), TopK(revenue, 5), Sum(Values(counts)), |counts|));
  }

  /** The report counts every unit ordered and every distinct name once;
      each top list holds min(5, names) entries, largest first, each naming a
      product with its own total, and no product left out beats the last kept. */
  lemma ProductReportSpec(menu: seq<MenuItem>, orders: seq<OrderItem>)
    ensures ProductReport(menu, orders).None? <==> |orders| == 0 || |menu| == 0
    ensures var r := ProductReport(menu, orders);
            r.Some? ==>
              var names := ProductNames(MenuLookup(menu), orders);
              r.value.totalSold == Sum(Quantities(orders)) &&
              r.value.unique == |KeySet(names)| &&
              |r.value.topByQuantity| == MinNat(5, r.value.unique) &&
              |r.value.topByRevenue| == MinNat(5, r.value.unique) &&
              NonIncreasing(r.value.topByQuantity) && NonIncreasing(r.value.topByRevenue) &&
              (forall x :: x in r.value.topByQuantity ==>
                 x.key in names && x.value == SumWhere(names, Quantities(orders), x.key)) &&
              (forall x :: x in r.value.topByRevenue ==>
                 x.key in names && x.value == SumWhere(names, Revenues(orders), x.key))
  {
    if |orders| > 0 && |menu| > 0 {
      var names := ProductNames(MenuLookup(menu), orders);
      var counts := Tally(names, Quantities(orders));
      var revenue := Tally(names, Revenues(orders));
      TallyTotal(names, Quantities(orders));
      TallySize(names, Quantities(orders));
      TallySize(names, Revenues(orders));
      TallyTop(names, Quantities(orders), 5);
      TallyTop(names, Revenues(orders), 5);
    }
  }

  // -------------------------------------------------------- recommendations

  /** One recommendation of `generate_recommendations`, by the rule that
      produced it and the figures it quotes. */
  datatype Advice =
    | WeekendStrong(boost: real)
    | WeekendWeak
    | BestDay(day: int, average: real)
    | TopProduct(name: string)
    | Growing(trend: real)
    | Declining(trend: real)
    | LowMargin(margin: real)
    | HighMargin(margin: real)
    | KeepCollecting

  /** The rule an advice comes from, in the order the rules run. */
  function RuleOf(a: Advice): nat
  {
    match a
    case WeekendStrong(_) => 0
    case WeekendWeak => 0
    case BestDay(_, _) => 1
    case TopProduct(_) => 2
    case Growing(_) => 3
    case Declining(_) => 3
    case LowMargin(_) => 4
    case HighMargin(_) => 4
    case KeepCollecting => 5
  }

  /** Each advice comes from a strictly later rule than the one before it. */
  predicate InRuleOrder(r: seq<Advice>)
  {
    forall i, j :: 0 <= i < j < |r| ==> RuleOf(r[i]) < RuleOf(r[j])
  }

  /** Rule 1a: the weekend boost above 20 or below -10. */
  function WeekendAdvice(patterns: Option<Patterns>): (r: seq<Advice>)
    ensures |r| <= 1 && (|r| == 1 ==> RuleOf(r[0]) == 0)
  {
    if patterns.None? then []
    else if patterns.value.weekendBoost > 20.0 then [WeekendStrong(patterns.value.weekendBoost)]
    else if patterns.value.weekendBoost < -10.0 then [WeekendWeak]
    else []
  }

  /** Rule 1b: the best day, whenever there are patterns. */
  function BestDayAdvice(patterns: Option<Patterns>): (r: seq<Advice>)
    ensures |r| <= 1 && (|r| == 1 ==> RuleOf(r[0]) == 1)
  {
    if patterns.None? then [] else [BestDay(patterns.value.best.key, patterns.value.best.value)]
  }

  /** Rule 2: the product sold most. */
  function ProductAdvice(products: Option<Products>): (r: seq<Advice>)
    ensures |r| <= 1 && (|r| == 1 ==> RuleOf(r[0]) == 2)
  {
    if products.Some? && |products.value.topByQuantity| > 0 then [TopProduct(products.value.topByQuantity[0].key)]
    else []
  }

  /** The percent change from the first seven days' mean to the last seven's,
      when there are at least 14 days and the first mean is positive. */
  function SalesTrend(sales: seq<real>): Option<real>
  {
    if |sales| < 14 then None
    else
      var recent := Mean(Tail(sales, 7));
      var older := Mean(sales[..7]);
      if older > 0.0 then Some((recent - older) / older * 100.0) else None
  }

  /** Rule 3: growth above 10 percent, decline below -10 percent. */
  function TrendAdvice(sales: seq<real>): (r: seq<Advice>)
    ensures |r| <= 1 && (|r| == 1 ==> RuleOf(r[0]) == 3)
  {
    var trend := SalesTrend(sales);
    if trend.None? then []
    else if trend.value > 10.0 then [Growing(trend.value)]
    else if trend.value < -10.0 then [Declining(trend.value)]
    else []
  }

  /** Sales minus expenses, day by day. */
  function Margins(sales: seq<real>, expenses: seq<real>): (m: seq<real>)
    requires |expenses| == |sales|
    ensures |m| == |sales| && forall i :: 0 <= i < |sales| ==> m[i] == sales[i] - expenses[i]
  {
    seq(|sales|, i requires 0 <= i < |sales| => sales[i] - expenses[i])
  }

  /** The mean daily margin as a percentage of mean daily sales, 0 when mean
      sales are not positive; none without days or an expense column. */
  function MarginPercent(sales: seq<real>, expenses: Option<seq<real>>): Option<real>
    requires expenses.Some? ==> |expenses.value| == |sales|
  {
    if |sales| == 0 || expenses.None? then None
    else
      var margins := Margins(sales, expenses.value);
      var avgSales := Mean(sales);
      Some(if avgSales > 0.0 then Mean(margins) / avgSales * 100.0 else 0.0)
  }

  /** Rule 4: a margin below 30 percent is low, above 50 percent high. */
  function MarginAdvice(sales: seq<real>, expenses: Option<seq<real>>): (r: seq<Advice>)
    requires expenses.Some? ==> |expenses.value| == |sales|
    ensures |r| <= 1 && (|r| == 1 ==> RuleOf(r[0]) == 4)
  {
    var m := MarginPercent(sales, expenses);
    if m.None? then []
    else if m.value < 30.0 then [LowMargin(m.value)]
    else if m.value > 50.0 then [HighMargin(m.value)]
    else []
  }

  /** What the rules fire, in their order. */
  function Fired(patterns: Option<Patterns>, products: Option<Products>, sales: seq<real>,
                 expenses: Option<seq<real>>): seq<Advice>
    requires expenses.Some? ==> |expenses.value| == |sales|
  {
    WeekendAdvice(patterns) + BestDayAdvice(patterns) + ProductAdvice(products) +
    TrendAdvice(sales) + MarginAdvice(sales, expenses)
  }

  /** The rules in their order; the fallback only when none fired. */
  function Advise(patterns: Option<Patterns>, products: Option<Products>, sales: seq<real>,
                  expenses: Option<seq<real>>): seq<Advice>
    requires expenses.Some? ==> |expenses.value| == |sales|
  {
    var fired := Fired(patterns, products, sales, expenses);
    if fired == [] then [KeepCollecting] else fired
  }

  /** `generate_recommendations`: each rule appends its advice in turn. */
  method GenerateAdvice(patterns: Option<Patterns>, products: Option<Products>, sales: seq<real>,
                        expenses: Option<seq<real>>) returns (recs: seq<Advice>)
    requires expenses.Some? ==> |expenses.value| == |sales|
    ensures recs == Advise(patterns, products, sales, expenses)
  {
    recs := [];
    if patterns.Some? {
      var boost := patterns.value.weekendBoost;
      if boost > 20.0 {
        recs := recs + [WeekendStrong(boost)];
      } else if boost < -10.0 {
        recs := recs + [WeekendWeak];
      }
      recs := recs + [BestDay(patterns.value.best.key, patterns.value.best.value)];
    }
    assert recs == WeekendAdvice(patterns) + BestDayAdvice(patterns);
    ghost var fired := recs;
    if products.Some? && |products.value.topByQuantity| > 0 {
      recs := recs + [TopProduct(products.value.topByQuantity[0].key)];
    }
    assert recs == fired + ProductAdvice(products);
    var trend := TrendRule(sales);
    recs := recs + trend;
    var margin := MarginRule(sales, expenses);
    recs := recs + margin;
    if recs == [] {
      recs := [KeepCollecting];
    }
  }

  /** Rule 3 as `generate_recommendations` computes it: the means of the last
      and the first seven days. */
  method TrendRule(sales: seq<real>) returns (recs: seq<Advice>)
    ensures recs == TrendAdvice(sales)
  {
    recs := [];
    if |sales| >= 14 {
      var recent := Mean(Tail(sales, 7));
      var older := Mean(sales[..7]);
      if older > 0.0 {
        var trend := (recent - older) / older * 100.0;
        assert SalesTrend(sales) == Some(trend);
        if trend > 10.0 {
          recs := [Growing(trend)];
        } else if trend < -10.0 {
          recs := [Declining(trend)];
        }
      }
    }
  }

  /** Rule 4 as `generate_recommendations` computes it: the mean margin over
      the mean sales. */
  method MarginRule(sales: seq<real>, expenses: Option<seq<real>>) returns (recs: seq<Advice>)
    requires expenses.Some? ==> |expenses.value| == |sales|
    ensures recs == MarginAdvice(sales, expenses)
  {
    recs := [];
    if |sales| > 0 && expenses.Some? {
      var avgSales := Mean(sales);
      var pct := if avgSales > 0.0 then Mean(Margins(sales, expenses.value)) / avgSales * 100.0 else 0.0;
      assert MarginPercent(sales, expenses) == Some(pct);
      if pct < 30.0 {
        recs := [LowMargin(pct)];
      } else if pct > 50.0 {
        recs := [HighMargin(pct)];
      }
    }
  }

  /** The advice fired comes from strictly later rules as the list goes on,
      so each rule fires at most once and its two outcomes exclude each other;
      the fallback is never among it. */
  lemma FiredOrdered(patterns: Option<Patterns>, products: Option<Products>, sales: seq<real>,
                     expenses: Option<seq<real>>)
    requires expenses.Some? ==> |expenses.value| == |sales|
    ensures InRuleOrder(Fired(patterns, products, sales, expenses))
    ensures KeepCollecting !in Fired(patterns, products, sales, expenses)
  {
    var a, b, c := WeekendAdvice(patterns), BestDayAdvice(patterns), ProductAdvice(products);
    var d, e := TrendAdvice(sales), MarginAdvice(sales, expenses);
    FiveRules(a, b, c, d, e);
  }

  /** Five rule outputs of at most one advice each, of rules 0 to 4, concatenate
      in rule order, without the fallback. */
  lemma FiveRules(a: seq<Advice>, b: seq<Advice>, c: seq<Advice>, d: seq<Advice>, e: seq<Advice>)
    requires |a| <= 1 && (|a| == 1 ==> RuleOf(a[0]) == 0)
    requires |b| <= 1 && (|b| == 1 ==> RuleOf(b[0]) == 1)
    requires |c| <= 1 && (|c| == 1 ==> RuleOf(c[0]) == 2)
    requires |d| <= 1 && (|d| == 1 ==> RuleOf(d[0]) == 3)
    requires |e| <= 1 && (|e| == 1 ==> RuleOf(e[0]) == 4)
    ensures InRuleOrder(a + b + c + d + e) && KeepCollecting !in a + b + c + d + e
  {
    OrderedAppend(a, b, 1);
    OrderedAppend(a + b, c, 2);
    OrderedAppend(a + b + c, d, 3);
    OrderedAppend(a + b + c + d, e, 4);
    var fired := a + b + c + d + e;
    assert KeepCollecting !in fired by {
      assert forall i :: 0 <= i < |fired| ==> RuleOf(fired[i]) < 5;
    }
  }

  /** Every advice in r comes from a rule before k. */
  predicate RulesBelow(r: seq<Advice>, k: nat)
  {
    forall i :: 0 <= i < |r| ==> RuleOf(r[i]) < k
  }

  /** Appending at most one advice of rule k after advice of earlier rules
      keeps the rule order. */
  lemma OrderedAppend(s: seq<Advice>, t: seq<Advice>, k: nat)
    requires InRuleOrder(s) && RulesBelow(s, k)
    requires |t| <= 1 && (|t| == 1 ==> RuleOf(t[0]) == k)
    ensures InRuleOrder(s + t) && RulesBelow(s + t, k + 1)
  {
    var u := s + t;
    forall i, j | 0 <= i < j < |u| ensures RuleOf(u[i]) < RuleOf(u[j]) {
      assert u[i] == s[i];
      if j < |s| {
        assert u[j] == s[j];
      } else {
        assert u[j] == t[0];
      }
    }
    forall i | 0 <= i < |u| ensures RuleOf(u[i]) < k + 1 {
      if i < |s| {
        assert u[i] == s[i];
      } else {
        assert u[i] == t[0];
      }
    }
  }

  /** The list is never empty, its rules run in order, and the fallback
      appears exactly when no rule fired, and then alone. */
  lemma AdviceOrdered(patterns: Option<Patterns>, products: Option<Products>, sales: seq<real>,
                      expenses: Option<seq<real>>)
    requires expenses.Some? ==> |expenses.value| == |sales|
    ensures var r := Advise(patterns, products, sales, expenses);
            |r| > 0 && InRuleOrder(r) &&
            (KeepCollecting in r <==> r == [KeepCollecting]) &&
            (KeepCollecting in r <==>
               patterns.None? && ProductAdvice(products) == [] && TrendAdvice(sales) == [] &&
               MarginAdvice(sales, expenses) == [])
  {
    FiredOrdered(patterns, products, sales, expenses);
    FiredEmpty(patterns, products, sales, expenses);
    var fired := Fired(patterns, products, sales, expenses);
    if fired == [] {
      assert Advise(patterns, products, sales, expenses) == [KeepCollecting];
    } else {
      assert Advise(patterns, products, sales, expenses) == fired;
    }
  }

  /** No rule fires exactly when there are no patterns and the other rules
      stay silent. */
  lemma FiredEmpty(patterns: Option<Patterns>, products: Option<Products>, sales: seq<real>,
                   expenses: Option<seq<real>>)
    requires expenses.Some? ==> |expenses.value| == |sales|
    ensures Fired(patterns, products, sales, expenses) == [] <==>
              patterns.None? && ProductAdvice(products) == [] && TrendAdvice(sales) == [] &&
              MarginAdvice(sales, expenses) == []
  {
    var fired := Fired(patterns, products, sales, expenses);
    var a, b, c := WeekendAdvice(patterns), BestDayAdvice(patterns), ProductAdvice(products);
    var d, e := TrendAdvice(sales), MarginAdvice(sales, expenses);
    assert |fired| == |a| + |b| + |c| + |d| + |e|;
  }

  /** The thresholds of each rule: the weekend advice quotes the boost above
      20 or follows one below -10; growth and decline need 14 days and a
      positive first-week mean; without positive mean sales the margin is 0,
      which is low. */
  lemma AdviceThresholds(patterns: Option<Patterns>, products: Option<Products>, sales: seq<real>,
                         expenses: Option<seq<real>>)
    requires expenses.Some? ==> |expenses.value| == |sales|
    ensures var r := Advise(patterns, products, sales, expenses);
            (forall b :: WeekendStrong(b) in r <==> patterns.Some? && b == patterns.value.weekendBoost && b > 20.0) &&
            (WeekendWeak in r <==> patterns.Some? && patterns.value.weekendBoost < -10.0) &&
            (forall t :: Growing(t) in r || Declining(t) in r ==> |sales| >= 14 && Mean(sales[..7]) > 0.0) &&
            (|sales| > 0 && expenses.Some? && Mean(sales) <= 0.0 ==> LowMargin(0.0) in r)
  {
    var r := Advise(patterns, products, sales, expenses);
    forall boost ensures WeekendStrong(boost) in r <==> patterns.Some? && boost == patterns.value.weekendBoost && boost > 20.0 {
      WeekendStrongGiven(patterns, products, sales, expenses, boost);
    }
    AdviceMembers(patterns, products, sales, expenses, WeekendWeak);
    forall t ensures Growing(t) in r || Declining(t) in r ==> |sales| >= 14 && Mean(sales[..7]) > 0.0 {
      TrendGiven(patterns, products, sales, expenses, t);
    }
    if |sales| > 0 && expenses.Some? && Mean(sales) <= 0.0 {
      assert MarginAdvice(sales, expenses) == [LowMargin(0.0)];
      AdviceMembers(patterns, products, sales, expenses, LowMargin(0.0));
    }
  }

  lemma WeekendStrongGiven(patterns: Option<Patterns>, products: Option<Products>, sales: seq<real>,
                           expenses: Option<seq<real>>, boost: real)
    requires expenses.Some? ==> |expenses.value| == |sales|
    ensures WeekendStrong(boost) in Advise(patterns, products, sales, expenses) <==>
              patterns.Some? && boost == patterns.value.weekendBoost && boost > 20.0
  {
    AdviceMembers(patterns, products, sales, expenses, WeekendStrong(boost));
  }

  lemma TrendGiven(patterns: Option<Patterns>, products: Option<Products>, sales: seq<real>,
                   expenses: Option<seq<real>>, t: real)
    requires expenses.Some? ==> |expenses.value| == |sales|
    ensures Growing(t) in Advise(patterns, products, sales, expenses) ||
            Declining(t) in Advise(patterns, products, sales, expenses) ==>
              |sales| >= 14 && Mean(sales[..7]) > 0.0
  {
    AdviceMembers(patterns, products, sales, expenses, Growing(t));
    AdviceMembers(patterns, products, sales, expenses, Declining(t));
  }

  /** An advice is given exactly when its own rule fires it, or it is the
      fallback and no rule fired. */
  lemma AdviceMembers(patterns: Option<Patterns>, products: Option<Products>, sales: seq<real>,
                      expenses: Option<seq<real>>, x: Advice)
    requires expenses.Some? ==> |expenses.value| == |sales|
    ensures x in Advise(patterns, products, sales, expenses) <==>
              (RuleOf(x) == 0 && x in WeekendAdvice(patterns)) ||
              (RuleOf(x) == 1 && x in BestDayAdvice(patterns)) ||
              (RuleOf(x) == 2 && x in ProductAdvice(products)) ||
              (RuleOf(x) == 3 && x in TrendAdvice(sales)) ||
              (RuleOf(x) == 4 && x in MarginAdvice(sales, expenses)) ||
              (x == KeepCollecting && Fired(patterns, products, sales, expenses) == [])
  {
    PartRules(patterns, products, sales, expenses);
  }

  /** Each rule gives only advice of its own kind. */
  lemma PartRules(patterns: Option<Patterns>, products: Option<Products>, sales: seq<real>,
                  expenses: Option<seq<real>>)
    requires expenses.Some? ==> |expenses.value| == |sales|
    ensures forall x :: x in WeekendAdvice(patterns) ==> RuleOf(x) == 0
    ensures forall x :: x in BestDayAdvice(patterns) ==> RuleOf(x) == 1
    ensures forall x :: x in ProductAdvice(products) ==> RuleOf(x) == 2
    ensures forall x :: x in TrendAdvice(sales) ==> RuleOf(x) == 3
    ensures forall x :: x in MarginAdvice(sales, expenses) ==> RuleOf(x) == 4
  {
  }

  // -------------------------------------------------------- LightGBM forecast

  /** Feature `name` of the forecast step after the predictions `preds`, for
      `day`: calendar fields of the day; `sales_lag_1` the last sale on the
      first step and the previous prediction after; `sales_lag_2` the
      second-to-last sale on the first two steps when there is one, else the
      prediction two steps back when there is one, else the historical mean;
      `sales_lag_3` the third-to-last sale on the first three steps when there
      is one, else the mean; the rolling means and the trend from history;
      every other name 0. */
  function LgbmFeature(name: string, sales: seq<real>, preds: seq<real>, day: int,
                       civil: int -> CivilDate): real
    requires |sales| > 0
  {
    var i := |preds|;
    var n := |sales|;
    if name == "day_of_week" then Weekday(day) as real
    else if name == "is_weekend" then WeekendFlag(FridaySaturday, day)
    else if name == "day_of_month" then civil(day).dayOfMonth as real
    else if name == "month" then civil(day).month as real
    else if name == "sales_lag_1" then (if i == 0 then sales[n - 1] else preds[i - 1])
    else if name == "sales_lag_2" then
      (if n > 1 && i < 2 then sales[n - 2] else if i > 1 then preds[i - 2] else Mean(sales))
    else if name == "sales_lag_3" then (if n > 2 && i < 3 then sales[n - 3] else Mean(sales))
    else if name == "sales_rolling_3" then Mean(Tail(sales, 3))
    else if name == "sales_rolling_7" then Mean(Tail(sales, 7))
    else if name == "sales_trend" then (if n > 1 then Mean(Diffs(sales)) else 0.0)
    else 0.0
  }

  /** The feature vector in the model's column order. */
  function LgbmRow(features: seq<string>, sales: seq<real>, preds: seq<real>, day: int,
                   civil: int -> CivilDate): (x: seq<real>)
    requires |sales| > 0
    ensures |x| == |features| && forall j :: 0 <= j < |features| ==> x[j] == LgbmFeature(features[j], sales, preds, day, civil)
  {
    seq(|features|, j requires 0 <= j < |features| => LgbmFeature(features[j], sales, preds, day, civil))
  }

  /** A prediction: the model output clamped at 0, or the historical mean
      when the model fails. */
  function Clamped(out: Option<real>, fallback: real): (p: real)
    ensures out.Some? ==> p == Max(out.value, 0.0)
    ensures out.None? ==> p == fallback
  {
    if out.Some? then (if out.value > 0.0 then out.value else 0.0) else fallback
  }

  /** The first n predictions, each fed the ones before it. */
  function LgbmForecast(model: seq<real> -> Option<real>, features: seq<string>, sales: seq<real>,
                        last: int, civil: int -> CivilDate, n: nat): (f: seq<real>)
    requires |sales| > 0
    ensures |f| == n
  {
    if n == 0 then []
    else
      var prev := LgbmForecast(model, features, sales, last, civil, n - 1);
      prev + [Clamped(model(LgbmRow(features, sales, prev, last + n, civil)), Mean(sales))]
  }

  /** `forecast_with_lightgbm`: `n` rows dated from the day after the last,
      none for an empty frame. */
  method ForecastWithLightgbm(model: seq<real> -> Option<real>, features: seq<string>, days: seq<int>,
                              sales: seq<real>, civil: int -> CivilDate, n: nat)
    returns (r: seq<Dated>)
    requires |days| == |sales|
    ensures |days| == 0 ==> r == []
    ensures |days| > 0 ==> r == DatedAfter(MaxDay(days), LgbmForecast(model, features, sales, MaxDay(days), civil, n))
  {
    if |days| == 0 {
      return [];
    }
    var last := MaxDay(days);
    var mean := Mean(sales);
    var preds: seq<real> := [];
    for i := 0 to n
      invariant preds == LgbmForecast(model, features, sales, last, civil, i)
    {
      var x := LgbmRow(features, sales, preds, last + i + 1, civil);
      var out := model(x);
      if out.Some? {
        preds := preds + [if out.value > 0.0 then out.value else 0.0];
      } else {
        preds := preds + [mean];
      }
    }
    r := DatedAfter(last, preds);
  }

  /** Longer forecasts extend shorter ones. */
  lemma {:induction false} LgbmPrefix(model: seq<real> -> Option<real>, features: seq<string>, sales: seq<real>,
                                      last: int, civil: int -> CivilDate, n: nat, k: nat)
    requires |sales| > 0 && k <= n
    ensures LgbmForecast(model, features, sales, last, civil, n)[..k] == LgbmForecast(model, features, sales, last, civil, k)
  {
    if k < n {
      LgbmPrefix(model, features, sales, last, civil, n - 1, k);
      assert LgbmForecast(model, features, sales, last, civil, n)[..n - 1] ==
             LgbmForecast(model, features, sales, last, civil, n - 1);
    }
  }

  /** Step k is the clamped model output on the features of day last + k + 1
      built from the predictions before it. */
  lemma LgbmStep(model: seq<real> -> Option<real>, features: seq<string>, sales: seq<real>,
                 last: int, civil: int -> CivilDate, n: nat, k: nat)
    requires |sales| > 0 && k < n
    ensures var f := LgbmForecast(model, features, sales, last, civil, n);
            f[k] == Clamped(model(LgbmRow(features, sales, f[..k], last + k + 1, civil)), Mean(sales))
  {
    LgbmPrefix(model, features, sales, last, civil, n, k + 1);
    LgbmPrefix(model, features, sales, last, civil, n, k);
    var f := LgbmForecast(model, features, sales, last, civil, n);
    assert f[..k + 1][k] == f[k];
  }

  /** The predictions are fed back: from the second step `sales_lag_1` is the
      previous prediction and from the third `sales_lag_2` the one before it;
      `sales_lag_3` falls back to the mean from the fourth step; the rolling
      means and the trend are the same at every step. */
  lemma LgbmFeedback(sales: seq<real>, preds: seq<real>, other: seq<real>, day: int, day': int,
                     civil: int -> CivilDate)
    requires |sales| > 0
    ensures |preds| >= 1 ==> LgbmFeature("sales_lag_1", sales, preds, day, civil) == preds[|preds| - 1]
    ensures |preds| >= 2 ==> LgbmFeature("sales_lag_2", sales, preds, day, civil) == preds[|preds| - 2]
    ensures |preds| >= 3 ==> LgbmFeature("sales_lag_3", sales, preds, day, civil) == Mean(sales)
    ensures forall name :: name in ["sales_rolling_3", "sales_rolling_7", "sales_trend"] ==>
              LgbmFeature(name, sales, preds, day, civil) == LgbmFeature(name, sales, other, day', civil)
  {
  }

  /** A name the forecaster does not fill is 0. */
  lemma LgbmUnknownFeature(name: string, sales: seq<real>, preds: seq<real>, day: int, civil: int -> CivilDate)
    requires |sales| > 0
    requires name !in ["day_of_week", "is_weekend", "day_of_month", "month", "sales_lag_1", "sales_lag_2",
                       "sales_lag_3", "sales_rolling_3", "sales_rolling_7", "sales_trend"]
    ensures LgbmFeature(name, sales, preds, day, civil) == 0.0
  {
  }

  /** Every prediction is the model's output clamped at 0 or, where the
      model fails, the historical mean; so with nonnegative sales all are
      nonnegative. */
  lemma LgbmNonnegative(model: seq<real> -> Option<real>, features: seq<string>, sales: seq<real>,
                        last: int, civil: int -> CivilDate, n: nat)
    requires |sales| > 0 && forall i :: 0 <= i < |sales| ==> sales[i] >= 0.0
    ensures forall k :: 0 <= k < n ==> LgbmForecast(model, features, sales, last, civil, n)[k] >= 0.0
  {
    SumNonnegative(sales);
    assert Mean(sales) >= 0.0;
    forall k | 0 <= k < n ensures LgbmForecast(model, features, sales, last, civil, n)[k] >= 0.0 {
      LgbmStep(model, features, sales, last, civil, n, k);
    }
  }
}
