/** Training of the ARIMA and regression forecasters on the daily dataset, the
    choice between them, and the recursive seven-day forecast. The fitted
    models are parameters: `fit(order)` is the ARIMA fitted on the training
    part with that order (None when statsmodels raises), `predictors(m)` the
    regressor m fitted on the scaled training rows, composed with the scaler. */
module TrainModel {
  import opened Wrappers
  import opened Stats
  import opened Calendar
  import opened Ranking
  import opened Metrics

  // ---------------------------------------------------------------- ARIMA

  /** Differencing order from the p-value of the augmented Dickey-Fuller test:
      a series not shown stationary at the 5% level is differenced once. */
  function DifferencingOrder(pValue: real): (d: nat)
    ensures d <= 1
    ensures d == 1 <==> pValue > 0.05
  {
    if pValue > 0.05 then 1 else 0
  }

  datatype Order = Order(p: nat, d: nat, q: nat)

  /** The orders tried, p-major: (0,d,0), (0,d,1), (0,d,2), (1,d,0), ... */
  function Candidates(d: nat): (c: seq<Order>)
    ensures |c| == 9
    ensures forall p, q :: 0 <= p < 3 && 0 <= q < 3 ==> c[3 * p + q] == Order(p, d, q)
  {
    seq(9, i requires 0 <= i < 9 => Order(i / 3, d, i % 3))
  }

  /** A fitted ARIMA: its AIC and its forecast over the holdout. */
  datatype ArimaFit = ArimaFit(aic: real, forecast: seq<real>)

  function AicOf(f: Option<ArimaFit>): Option<real>
  {
    if f.Some? then Some(f.value.aic) else None
  }

  /** The AIC of each candidate order in search order, None where the fit failed. */
  function Fits(d: nat, fit: Order -> Option<ArimaFit>): (a: seq<Option<real>>)
    ensures |a| == 9
    ensures forall i :: 0 <= i < 9 ==> a[i] == AicOf(fit(Candidates(d)[i]))
  {
    seq(9, i requires 0 <= i < 9 => AicOf(fit(Candidates(d)[i])))
  }

  /** Position of the first strict minimum among the successful fits, where
      each new fit must beat the best AIC so far strictly; None when no fit
      succeeded. */
  function FirstStrictMin(fits: seq<Option<real>>): (r: Option<nat>)
    ensures r.None? <==> forall j :: 0 <= j < |fits| ==> fits[j].None?
    ensures r.Some? ==> r.value < |fits| && fits[r.value].Some?
    ensures r.Some? ==> forall j :: 0 <= j < |fits| && fits[j].Some? ==>
                          fits[r.value].value <= fits[j].value
    ensures r.Some? ==> forall j :: 0 <= j < r.value && fits[j].Some? ==>
                          fits[r.value].value < fits[j].value
  {
    if |fits| == 0 then None
    else
      var n := |fits| - 1;
      var b := FirstStrictMin(fits[..n]);
      assert forall j :: 0 <= j < n ==> fits[..n][j] == fits[j];
      if fits[n].Some? && (b.None? || fits[n].value < fits[b.value].value) then Some(n) else b
  }

  /** One more candidate: it becomes the best exactly when it succeeded and
      beats the best so far strictly. */
  lemma FirstStrictMinStep(fits: seq<Option<real>>, k: nat)
    requires k < |fits|
    ensures var b := FirstStrictMin(fits[..k]);
            FirstStrictMin(fits[..k + 1]) ==
              if fits[k].Some? && (b.None? || fits[k].value < fits[b.value].value) then Some(k) else b
  {
    assert fits[..k + 1][..k] == fits[..k];
  }

  /** The search state after the first k candidates: the first strict
      minimum so far with its AIC, or the default order and an infinite AIC
      while no fit has succeeded; the flag says which. */
  ghost function SearchState(fits: seq<Option<real>>, cands: seq<Order>, k: nat, dflt: Order): (Order, Ext, bool)
    requires k <= |fits| == |cands|
  {
    var r := FirstStrictMin(fits[..k]);
    if r.Some? then (cands[r.value], Fin(fits[r.value].value), true) else (dflt, PosInf, false)
  }

  /** One more candidate replaces the state exactly when its fit succeeded
      with an AIC strictly below the best so far. */
  lemma SearchStateStep(fits: seq<Option<real>>, cands: seq<Order>, k: nat, dflt: Order)
    requires k < |fits| == |cands|
    ensures var s := SearchState(fits, cands, k, dflt);
            SearchState(fits, cands, k + 1, dflt) ==
              if fits[k].Some? && Below(fits[k].value, s.1) then (cands[k], Fin(fits[k].value), true) else s
  {
    FirstStrictMinStep(fits, k);
    var b := FirstStrictMin(fits[..k]);
    if b.Some? {
      assert fits[..k][b.value] == fits[b.value];
    }
  }

  /** The order search: every (p, q) in 0..2 x 0..2, failed fits skipped,
      starting from the default order (1, d, 1) and an infinite best AIC. */
  method SearchOrder(d: nat, fit: Order -> Option<ArimaFit>) returns (best: Order, fitted: bool)
    ensures var r := FirstStrictMin(Fits(d, fit));
            fitted == r.Some? &&
            best == (if r.Some? then Candidates(d)[r.value] else Order(1, d, 1))
  {
    ghost var fits := Fits(d, fit);
    ghost var cands := Candidates(d);
    var bestAic: Ext := PosInf;
    best := Order(1, d, 1);
    fitted := false;
    for p := 0 to 3
      invariant (best, bestAic, fitted) == SearchState(fits, cands, 3 * p, Order(1, d, 1))
    {
      for q := 0 to 3
        invariant (best, bestAic, fitted) == SearchState(fits, cands, 3 * p + q, Order(1, d, 1))
      {
        SearchStateStep(fits, cands, 3 * p + q, Order(1, d, 1));
        assert cands[3 * p + q] == Order(p, d, q);
        var f := fit(Order(p, d, q));
        if f.Some? && Below(f.value.aic, bestAic) {
          bestAic := Fin(f.value.aic);
          best := Order(p, d, q);
          fitted := true;
        }
      }
    }
    assert fits[..9] == fits;
  }

  /** Scores of a model on the holdout; a MAPE of None is infinite or NaN. */
  datatype Scores = Scores(mae: real, mape: Option<real>)

  datatype ArimaOutcome = ArimaOutcome(order: Order, scores: Scores)

  /** `train_arima`, given the ADF p-value (None when the test raises): the
      search runs on the training part, the chosen fit forecasts the last
      three days and is scored with numpy's MAE and MAPE. When no order can be
      fitted the best model stays None and forecasting from it raises. */
  function ArimaResult(sales: seq<real>, adf: Option<real>, fit: Order -> Option<ArimaFit>): (r: Result<ArimaOutcome, string>)
    requires forall o :: fit(o).Some? ==> |fit(o).value.forecast| == |Holdout(sales).1|
    ensures r.Success? <==> adf.Some? && |sales| > 0 &&
                            exists i :: 0 <= i < 9 && fit(Candidates(DifferencingOrder(adf.value))[i]).Some?
    ensures r.Success? ==> var d := DifferencingOrder(adf.value);
                           r.value.order.d == d && fit(r.value.order).Some? &&
                           forall i :: 0 <= i < 9 && fit(Candidates(d)[i]).Some? ==>
                             fit(r.value.order).value.aic <= fit(Candidates(d)[i]).value.aic
  {
    if adf.None? || |sales| == 0 then Failure("the stationarity test cannot run")
    else
      var d := DifferencingOrder(adf.value);
      var k := FirstStrictMin(Fits(d, fit));
      if k.None? then
        assert forall i :: 0 <= i < 9 ==> Fits(d, fit)[i].None?;
        Failure("no ARIMA order could be fitted")
      else
        var o := Candidates(d)[k.value];
        var test := Holdout(sales).1;
        HoldoutPartition(sales);
        var f := fit(o).value.forecast;
        Success(ArimaOutcome(o, Scores(MeanAbsoluteError(test, f), MapeNumpy(test, f))))
  }

  method TrainArima(sales: seq<real>, adf: Option<real>, fit: Order -> Option<ArimaFit>) returns (r: Result<ArimaOutcome, string>)
    requires forall o :: fit(o).Some? ==> |fit(o).value.forecast| == |Holdout(sales).1|
    ensures r == ArimaResult(sales, adf, fit)
  {
    if adf.None? || |sales| == 0 {
      return Failure("the stationarity test cannot run");
    }
    var d := DifferencingOrder(adf.value);
    var best, fitted := SearchOrder(d, fit);
    if !fitted {
      return Failure("no ARIMA order could be fitted");
    }
    var test := Holdout(sales).1;
    HoldoutPartition(sales);
    var f := fit(best).value.forecast;
    r := Success(ArimaOutcome(best, Scores(MeanAbsoluteError(test, f), MapeNumpy(test, f))));
  }

  /** Among orders of equal AIC the search keeps the earliest in p-major order. */
  lemma SearchKeepsEarliestTie(d: nat, fit: Order -> Option<ArimaFit>)
    requires FirstStrictMin(Fits(d, fit)).Some?
    ensures var k := FirstStrictMin(Fits(d, fit)).value;
            forall j :: 0 <= j < k && fit(Candidates(d)[j]).Some? ==>
              fit(Candidates(d)[k]).value.aic < fit(Candidates(d)[j]).value.aic
  {
    var k := FirstStrictMin(Fits(d, fit)).value;
    forall j | 0 <= j < k && fit(Candidates(d)[j]).Some?
      ensures fit(Candidates(d)[k]).value.aic < fit(Candidates(d)[j]).value.aic
    {
      assert Fits(d, fit)[j].Some?;
    }
  }

  // ----------------------------------------------------------- regression

  datatype Regressor = Ridge | RandomForest | GradientBoosting

  /** The regressors in the order the training loop visits them. */
  const Regressors: seq<Regressor> := [Ridge, RandomForest, GradientBoosting]

  const RegressionFeatures: seq<string> :=
    ["lag_1_sales", "lag_7_sales", "rolling_7d_sales_avg", "rolling_30d_sales_avg", "day_of_week", "is_weekend"]

  /** The loaded dataset: days, total sales, and the calendar columns the CSV
      may already carry (None when absent, and then derived from the day). */
  datatype Dataset = Dataset(days: seq<int>, sales: seq<real>, dayOfWeek: Option<seq<real>>, isWeekend: Option<seq<real>>)

  predicate WellFormed(ds: Dataset)
  {
    |ds.days| == |ds.sales| &&
    (ds.dayOfWeek.Some? ==> |ds.dayOfWeek.value| == |ds.sales|) &&
    (ds.isWeekend.Some? ==> |ds.isWeekend.value| == |ds.sales|)
  }

  /** The six features of row i, in the order of RegressionFeatures. */
  function FeatureRow(ds: Dataset, i: nat): (row: seq<real>)
    requires WellFormed(ds) && 7 <= i < |ds.sales|
    ensures |row| == |RegressionFeatures|
  {
    [ds.sales[i - 1], ds.sales[i - 7], WindowMean(ds.sales, i, 7), WindowMean(ds.sales, i, 30),
     if ds.dayOfWeek.Some? then ds.dayOfWeek.value[i] else Weekday(ds.days[i]) as real,
     if ds.isWeekend.Some? then ds.isWeekend.value[i] else WeekendFlag(FridaySaturday, ds.days[i])]
  }

  /** Row i holds the 1- and 7-day shifts of the sales, their 7- and 30-day
      rolling means, and the calendar columns of the CSV when present, else
      the weekday and the Friday-Saturday weekend flag of day i. */
  lemma FeatureRowSpec(ds: Dataset, i: nat)
    requires WellFormed(ds) && 7 <= i < |ds.sales|
    ensures var row := FeatureRow(ds, i);
            row[0] == Shift(ds.sales, 1)[i].value && row[1] == Shift(ds.sales, 7)[i].value &&
            row[2] == Rolling(ds.sales, 7)[i] && row[3] == Rolling(ds.sales, 30)[i] &&
            row[4] == (if ds.dayOfWeek.Some? then ds.dayOfWeek.value[i] else Weekday(ds.days[i]) as real) &&
            row[5] == if ds.isWeekend.Some? then ds.isWeekend.value[i] else WeekendFlag(FridaySaturday, ds.days[i])
  {
  }

  /** The rows left after `dropna`: exactly those whose 7-day lag exists, so
      the first seven rows go. */
  function RegressionRows(ds: Dataset): (rows: seq<seq<real>>)
    requires WellFormed(ds)
    ensures |rows| == if |ds.sales| < 7 then 0 else |ds.sales| - 7
    ensures forall j :: 0 <= j < |rows| ==> rows[j] == FeatureRow(ds, j + 7)
  {
    var n := if |ds.sales| < 7 then 0 else |ds.sales| - 7;
    seq(n, j requires 0 <= j < n => FeatureRow(ds, j + 7))
  }

  function Targets(ds: Dataset): (y: seq<real>)
    ensures |y| == if |ds.sales| < 7 then 0 else |ds.sales| - 7
  {
    if |ds.sales| < 7 then [] else ds.sales[7..]
  }

  function Predictions(predict: seq<real> -> real, rows: seq<seq<real>>): (p: seq<real>)
    ensures |p| == |rows|
    ensures forall i :: 0 <= i < |rows| ==> p[i] == predict(rows[i])
  {
    seq(|rows|, i requires 0 <= i < |rows| => predict(rows[i]))
  }

  /** Whether scikit-learn can fit and score: both parts of the split are non-empty. */
  predicate Trainable(ds: Dataset)
    requires WellFormed(ds)
  {
    var split := Holdout(RegressionRows(ds));
    |split.0| > 0 && |split.1| > 0
  }

  /** The holdout MAE of every regressor, in visiting order. */
  function ModelMaes(ds: Dataset, predictors: Regressor -> (seq<real> -> real)): (e: seq<Entry<Regressor>>)
    requires WellFormed(ds) && Trainable(ds)
    ensures |e| == 3 && forall i :: 0 <= i < 3 ==> e[i].key == Regressors[i]
  {
    var test := Holdout(RegressionRows(ds)).1;
    var y := Holdout(Targets(ds)).1;
    HoldoutPartition(RegressionRows(ds));
    HoldoutPartition(Targets(ds));
    seq(3, i requires 0 <= i < 3 =>
          Entry(Regressors[i], MeanAbsoluteError(y, Predictions(predictors(Regressors[i]), test))))
  }

  datatype RegressionOutcome = RegressionOutcome(model: Regressor, scores: Scores)

  /** The final evaluation of regressor m: its holdout MAE and scikit-learn's
      MAPE x 100. */
  function Evaluation(ds: Dataset, predictors: Regressor -> (seq<real> -> real), m: Regressor): (o: RegressionOutcome)
    requires WellFormed(ds) && Trainable(ds)
    ensures o.model == m
  {
    var test := Holdout(RegressionRows(ds)).1;
    var y := Holdout(Targets(ds)).1;
    HoldoutPartition(RegressionRows(ds));
    HoldoutPartition(Targets(ds));
    var preds := Predictions(predictors(m), test);
    RegressionOutcome(m, Scores(MeanAbsoluteError(y, preds), Some(MapeSklearn(y, preds) * 100.0)))
  }

  /** `train_regression`: the regressor with the first strictly smallest
      holdout MAE, scored again with its MAE and scikit-learn's MAPE x 100.
      scikit-learn raises on an empty training or test part. */
  function RegressionResult(ds: Dataset, predictors: Regressor -> (seq<real> -> real)): (r: Result<RegressionOutcome, string>)
    requires WellFormed(ds)
    ensures r.Success? <==> Trainable(ds)
  {
    if !Trainable(ds) then Failure("found an array with 0 samples")
    else
      var e := ModelMaes(ds, predictors);
      Success(Evaluation(ds, predictors, e[BestIndex(e, false)].key))
  }

  /** The regressor chosen has the smallest holdout MAE, the earliest among
      equals, and is reported with that MAE. */
  lemma RegressionBest(ds: Dataset, predictors: Regressor -> (seq<real> -> real))
    requires WellFormed(ds)
    ensures var r := RegressionResult(ds, predictors);
            r.Success? ==> var e := ModelMaes(ds, predictors);
                           exists i :: 0 <= i < 3 && r.value.model == e[i].key &&
                             r.value.scores.mae == e[i].value &&
                             (forall j :: 0 <= j < 3 ==> e[i].value <= e[j].value) &&
                             (forall j :: 0 <= j < i ==> e[i].value < e[j].value)
  {
    var r := RegressionResult(ds, predictors);
    if r.Success? {
      var e := ModelMaes(ds, predictors);
      var b := BestIndex(e, false);
      assert r.value == Evaluation(ds, predictors, e[b].key);
      assert e[b].key == Regressors[b];
      assert r.value.scores.mae == e[b].value;
    }
  }

  /** The selection loop: keep a model only when its MAE is strictly below
      the best so far, which starts infinite. */
  method SelectRegressor(maes: seq<Entry<Regressor>>) returns (best: nat)
    requires |maes| > 0
    ensures best == BestIndex(maes, false)
  {
    var bestMae: Ext := PosInf;
    best := 0;
    for i := 0 to |maes|
      invariant i == 0 ==> best == 0 && bestMae == PosInf
      invariant i > 0 ==> best == BestIndex(maes[..i], false) && bestMae == Fin(maes[best].value)
    {
      assert maes[..i + 1][..i] == maes[..i];
      if Below(maes[i].value, bestMae) {
        bestMae := Fin(maes[i].value);
        best := i;
      }
    }
    assert maes[..|maes|] == maes;
  }

  method TrainRegression(ds: Dataset, predictors: Regressor -> (seq<real> -> real)) returns (r: Result<RegressionOutcome, string>)
    requires WellFormed(ds)
    ensures r == RegressionResult(ds, predictors)
  {
    if !Trainable(ds) {
      return Failure("found an array with 0 samples");
    }
    var e := ModelMaes(ds, predictors);
    var b := SelectRegressor(e);
    r := Success(Evaluation(ds, predictors, e[b].key));
  }

  /** The regression can be trained exactly when 2 or at least 4 rows survive
      `dropna`: with 3 the training part is empty, and with 1 the single row
      becomes the test part. In particular ten days, the least `main` accepts,
      leave it untrainable. */
  lemma TrainableIff(ds: Dataset)
    requires WellFormed(ds)
    ensures Trainable(ds) <==> |ds.sales| == 9 || |ds.sales| >= 11
  {
    HoldoutPartition(RegressionRows(ds));
    var n := |RegressionRows(ds)|;
    if n == 0 {
      assert Holdout(RegressionRows(ds)).1 == [];
    }
  }

  // ----------------------------------------------------- recursive forecast

  /** A saved regression model: its feature names and its prediction. */
  datatype RegressionArtifact = RegressionArtifact(features: seq<string>, predict: seq<real> -> real)

  predicate KnownFeatures(features: seq<string>)
  {
    forall f :: f in features ==> f in RegressionFeatures
  }

  /** One feature of the forecast row for `day`, computed from the working
      history (the data followed by the forecasts so far). The weekend flag
      here counts Friday to Sunday. */
  function StepFeature(name: string, history: seq<real>, day: int): real
    requires |history| > 0 && name in RegressionFeatures
  {
    if name == "lag_1_sales" then history[|history| - 1]
    else if name == "lag_7_sales" then (if |history| >= 7 then history[|history| - 7] else Mean(history))
    else if name == "rolling_7d_sales_avg" then Mean(Tail(history, 7))
    else if name == "rolling_30d_sales_avg" then Mean(Tail(history, 30))
    else if name == "day_of_week" then Weekday(day) as real
    else WeekendFlag(FridayToSunday, day)
  }

  /** `pd.DataFrame([row])[feature_cols]`. */
  function StepVector(features: seq<string>, history: seq<real>, day: int): (x: seq<real>)
    requires |history| > 0 && KnownFeatures(features)
    ensures |x| == |features|
    ensures forall i :: 0 <= i < |x| ==> x[i] == StepFeature(features[i], history, day)
  {
    seq(|features|, i requires 0 <= i < |features| => StepFeature(features[i], history, day))
  }

  /** The first n recursive forecasts after day `last`: step k predicts day
      last + k + 1 from the data followed by the k earlier forecasts. */
  function Recursive(sales: seq<real>, art: RegressionArtifact, last: int, n: nat): (f: seq<real>)
    requires |sales| > 0 && KnownFeatures(art.features)
    ensures |f| == n
  {
    if n == 0 then []
    else
      var prev := Recursive(sales, art, last, n - 1);
      prev + [art.predict(StepVector(art.features, sales + prev, last + n))]
  }

  /** Longer forecasts extend shorter ones: step k never looks ahead. */
  lemma {:induction false} RecursivePrefix(sales: seq<real>, art: RegressionArtifact, last: int, n: nat, k: nat)
    requires |sales| > 0 && KnownFeatures(art.features) && k <= n
    ensures Recursive(sales, art, last, n)[..k] == Recursive(sales, art, last, k)
  {
    if k < n {
      RecursivePrefix(sales, art, last, n - 1, k);
      assert Recursive(sales, art, last, n)[..n - 1] == Recursive(sales, art, last, n - 1);
    }
  }

  /** Step k is the model applied to the features of its own history. */
  lemma RecursiveStep(sales: seq<real>, art: RegressionArtifact, last: int, n: nat, k: nat)
    requires |sales| > 0 && KnownFeatures(art.features) && k < n
    ensures var f := Recursive(sales, art, last, n);
            f[k] == art.predict(StepVector(art.features, sales + f[..k], last + k + 1))
  {
    RecursivePrefix(sales, art, last, n, k + 1);
    RecursivePrefix(sales, art, last, k + 1, k);
    var f := Recursive(sales, art, last, n);
    var g := Recursive(sales, art, last, k + 1);
    assert f[..k + 1][k] == f[k];
    assert g[..k] == Recursive(sales, art, last, k);
    assert f[..k] == g[..k];
    assert g[k] == art.predict(StepVector(art.features, sales + Recursive(sales, art, last, k), last + k + 1));
  }

  /** The forecasts are read back as lags: after the first step, lag_1 is the
      previous forecast and, from the eighth step, lag_7 the forecast seven
      steps earlier, and the 7-day rolling mean averages only forecasts. */
  lemma ForecastsFeedBack(sales: seq<real>, f: seq<real>, k: nat, day: int)
    requires |sales| > 0 && k <= |f|
    ensures var h := sales + f[..k];
            (k >= 1 ==> StepFeature("lag_1_sales", h, day) == f[k - 1]) &&
            (k >= 7 ==> StepFeature("lag_7_sales", h, day) == f[k - 7]) &&
            (k >= 7 ==> StepFeature("rolling_7d_sales_avg", h, day) == Mean(f[k - 7..k])) &&
            (|sales| + k < 7 ==> StepFeature("lag_7_sales", h, day) == Mean(h))
  {
    var h := sales + f[..k];
    if k >= 7 {
      assert Tail(h, 7) == f[k - 7..k];
    }
  }

  /** `forecast_next_days`: the saved regression model if there is one,
      otherwise ARIMA refitted on all data with the saved order, otherwise no
      forecast. `arimaForecast(sales, order, n)` is that refit's n-step forecast,
      n values long; either path yields n dated rows. */
  method ForecastNextDays(days: seq<int>, sales: seq<real>, regression: Option<RegressionArtifact>,
                          arima: Option<Order>, arimaForecast: (seq<real>, Order, nat) -> seq<real>, n: nat)
    returns (r: Option<seq<Dated>>)
    requires |days| == |sales| && |sales| > 0
    requires regression.Some? ==> KnownFeatures(regression.value.features)
    requires arima.Some? ==> forall s, o, k :: |arimaForecast(s, o, k)| == k
    ensures r.None? <==> regression.None? && arima.None?
    ensures r.Some? ==> |r.value| == n
    ensures regression.Some? ==> r == Some(DatedAfter(MaxDay(days), Recursive(sales, regression.value, MaxDay(days), n)))
    ensures regression.None? && arima.Some? ==> r == Some(DatedAfter(MaxDay(days), arimaForecast(sales, arima.value, n)))
  {
    var last := MaxDay(days);
    if regression.Some? {
      var art := regression.value;
      var history := sales;
      var forecast: seq<real> := [];
      for k := 0 to n
        invariant history == sales + forecast
        invariant forecast == Recursive(sales, art, last, k)
      {
        var x := StepVector(art.features, history, last + k + 1);
        var pred := art.predict(x);
        forecast := forecast + [pred];
        history := history + [pred];
      }
      r := Some(DatedAfter(last, forecast));
    } else if arima.Some? {
      r := Some(DatedAfter(last, arimaForecast(sales, arima.value, n)));
    } else {
      r := None;
    }
  }

  /** Training marks Friday and Saturday as the weekend but the forecast
      marks Friday to Sunday: the two flags differ exactly on Sundays. */
  lemma WeekendFlagsDiffer(d: int)
    ensures WeekendFlag(FridaySaturday, d) != WeekendFlag(FridayToSunday, d) <==> Weekday(d) == 6
  {
  }

  // ------------------------------------------------------------------ main

  datatype ModelName = Arima | Regression | Prophet

  /** Ascending order of MAPE with infinite or NaN values last. */
  predicate MapeBefore(a: Option<real>, b: Option<real>)
  {
    a.Some? && (b.None? || a.value < b.value)
  }

  /** The head of `sort_values('mape')`: the first entry that no other entry
      precedes; with ties (and when every MAPE is non-finite) the earliest. */
  function BestByMape(results: seq<(ModelName, Scores)>): (i: nat)
    requires |results| > 0
    ensures i < |results|
    ensures forall j :: 0 <= j < |results| ==> !MapeBefore(results[j].1.mape, results[i].1.mape)
    ensures forall j :: 0 <= j < i ==> MapeBefore(results[i].1.mape, results[j].1.mape)
  {
    if |results| == 1 then 0
    else
      var n := |results| - 1;
      var b := BestByMape(results[..n]);
      assert forall j :: 0 <= j < n ==> results[..n][j] == results[j];
      if MapeBefore(results[n].1.mape, results[b].1.mape) then n else b
  }

  datatype Training =
    | NotEnoughData
    | Trained(results: seq<(ModelName, Scores)>, best: Option<ModelName>, forecast: Option<seq<Dated>>)

  /** The row of `results` a model contributes: one when it was scored, none
      when its library did not import (`if arima_metrics:` and its like). */
  function ScoredRow(name: ModelName, scores: Option<Scores>): seq<(ModelName, Scores)>
  {
    if scores.Some? then [(name, scores.value)] else []
  }

  /** Where each model sits in the table: the order `main` trains them in. */
  function Position(name: ModelName): nat
  {
    match name
    case Arima => 0
    case Regression => 1
    case Prophet => 2
  }

  /** The results table of `main`: ARIMA, the regression, then Prophet, each
      only when it was scored. */
  function ResultsTable(arima: Option<Scores>, regression: Option<Scores>, prophet: Option<Scores>)
    : (t: seq<(ModelName, Scores)>)
    ensures forall i, j :: 0 <= i < j < |t| ==> Position(t[i].0) < Position(t[j].0)
  {
    ScoredRow(Arima, arima) + ScoredRow(Regression, regression) + ScoredRow(Prophet, prophet)
  }

  /** A model's row is in the table exactly when it was scored, with its own
      scores; so the table is empty exactly when no model was scored. */
  lemma ResultsTableMembers(arima: Option<Scores>, regression: Option<Scores>, prophet: Option<Scores>)
    ensures var t := ResultsTable(arima, regression, prophet);
            forall m, sc :: (m, sc) in t <==>
              (m == Arima && arima == Some(sc)) || (m == Regression && regression == Some(sc)) ||
              (m == Prophet && prophet == Some(sc))
    ensures ResultsTable(arima, regression, prophet) == [] <==> arima.None? && regression.None? && prophet.None?
  {
    var t := ResultsTable(arima, regression, prophet);
    if arima.Some? { assert (Arima, arima.value) in t; }
    if regression.Some? { assert (Regression, regression.value) in t; }
    if prophet.Some? { assert (Prophet, prophet.value) in t; }
  }

  /** The model `main` reports best: the head of the MAPE sort, none when
      the table is empty (`if results:`). */
  function BestOf(results: seq<(ModelName, Scores)>): (b: Option<ModelName>)
    ensures b.None? <==> results == []
    ensures b.Some? ==>
              exists i :: 0 <= i < |results| && results[i].0 == b.value &&
                forall j :: 0 <= j < |results| ==> !MapeBefore(results[j].1.mape, results[i].1.mape)
  {
    if results == [] then None
    else
      var i := BestByMape(results);
      assert results[i].0 == results[i].0;
      Some(results[i].0)
  }

  /** A table built from the scored models names each model exactly when it
      was scored. */
  lemma TableNames(arima: Option<Scores>, regression: Option<Scores>, prophet: Option<Scores>)
    ensures var t := ResultsTable(arima, regression, prophet);
            (arima.Some? <==> exists sc :: (Arima, sc) in t) &&
            (regression.Some? <==> exists sc :: (Regression, sc) in t) &&
            (prophet.Some? <==> exists sc :: (Prophet, sc) in t)
  {
    ResultsTableMembers(arima, regression, prophet);
  }

  /** A trained outcome built from the scored models names each model in
      its table exactly when it was scored, and names a best model, one no
      other beats on MAPE, exactly when one was. */
  lemma TrainedNames(t: Training, arima: Option<Scores>, regression: Option<Scores>, prophet: Option<Scores>,
                     forecast: Option<seq<Dated>>)
    requires t == Trained(ResultsTable(arima, regression, prophet), BestOf(ResultsTable(arima, regression, prophet)), forecast)
    ensures (arima.Some? <==> exists sc :: (Arima, sc) in t.results) &&
            (regression.Some? <==> exists sc :: (Regression, sc) in t.results) &&
            (prophet.Some? <==> exists sc :: (Prophet, sc) in t.results)
    ensures t.best.None? <==> arima.None? && regression.None? && prophet.None?
    ensures t.best.Some? ==>
              exists i :: 0 <= i < |t.results| && t.results[i].0 == t.best.value &&
                forall j :: 0 <= j < |t.results| ==> !MapeBefore(t.results[j].1.mape, t.results[i].1.mape)
  {
    TableNames(arima, regression, prophet);
    ResultsTableMembers(arima, regression, prophet);
  }

  /** What `main` finds around it: whether statsmodels and scikit-learn
      import, and whether an earlier training left a regression or an ARIMA
      model file on disk. */
  datatype Setup = Setup(statsmodels: bool, sklearn: bool, regressionFile: bool, arimaFile: bool)

  /** `train_arima` as `main` receives it: `(None, None)` when statsmodels
      does not import, otherwise the training, whose failure raises. */
  function ArimaStage(sales: seq<real>, statsmodels: bool, adf: Option<real>, fit: Order -> Option<ArimaFit>)
    : (r: Result<Option<ArimaOutcome>, string>)
    requires forall o :: fit(o).Some? ==> |fit(o).value.forecast| == |Holdout(sales).1|
    ensures r.Failure? <==> statsmodels && ArimaResult(sales, adf, fit).Failure?
    ensures r.Success? ==> (r.value.Some? <==> statsmodels)
    ensures r.Success? && r.value.Some? ==> r.value.value == ArimaResult(sales, adf, fit).value
  {
    if !statsmodels then Success(None)
    else
      var a := ArimaResult(sales, adf, fit);
      if a.Failure? then Failure(a.error) else Success(Some(a.value))
  }

  method RunArimaStage(sales: seq<real>, statsmodels: bool, adf: Option<real>, fit: Order -> Option<ArimaFit>)
    returns (r: Result<Option<ArimaOutcome>, string>)
    requires forall o :: fit(o).Some? ==> |fit(o).value.forecast| == |Holdout(sales).1|
    ensures r == ArimaStage(sales, statsmodels, adf, fit)
  {
    if !statsmodels {
      return Success(None);
    }
    var a := TrainArima(sales, adf, fit);
    if a.Failure? {
      return Failure(a.error);
    }
    r := Success(Some(a.value));
  }

  /** `train_regression` as `main` receives it: `(None, None)` when
      scikit-learn does not import, otherwise the training, whose failure
      raises. */
  function RegressionStage(ds: Dataset, sklearn: bool, predictors: Regressor -> (seq<real> -> real))
    : (r: Result<Option<RegressionOutcome>, string>)
    requires WellFormed(ds)
    ensures r.Failure? <==> sklearn && RegressionResult(ds, predictors).Failure?
    ensures r.Success? ==> (r.value.Some? <==> sklearn)
    ensures r.Success? && r.value.Some? ==> r.value.value == RegressionResult(ds, predictors).value
  {
    if !sklearn then Success(None)
    else
      var g := RegressionResult(ds, predictors);
      if g.Failure? then Failure(g.error) else Success(Some(g.value))
  }

  method RunRegressionStage(ds: Dataset, sklearn: bool, predictors: Regressor -> (seq<real> -> real))
    returns (r: Result<Option<RegressionOutcome>, string>)
    requires WellFormed(ds)
    ensures r == RegressionStage(ds, sklearn, predictors)
  {
    if !sklearn {
      return Success(None);
    }
    var g := TrainRegression(ds, predictors);
    if g.Failure? {
      return Failure(g.error);
    }
    r := Success(Some(g.value));
  }

  /** The scores of a model when it was trained. */
  function ArimaScores(a: Option<ArimaOutcome>): Option<Scores>
  {
    if a.Some? then Some(a.value.scores) else None
  }

  function RegressionScores(g: Option<RegressionOutcome>): Option<Scores>
  {
    if g.Some? then Some(g.value.scores) else None
  }

  /** `forecast_next_days(df, days=7)` once the trainings are done. The
      regression file is there and used when the regression was just
      trained; one left by an earlier training cannot be unpickled without
      scikit-learn and raises. Otherwise the ARIMA file is there when ARIMA
      was just trained, and the series is refitted at its order; one left by
      an earlier training raises without statsmodels. With neither file there
      is no forecast. */
  function MainForecastOf(ds: Dataset, setup: Setup, arima: Option<ArimaOutcome>, regression: Option<RegressionOutcome>,
                          predictors: Regressor -> (seq<real> -> real),
                          arimaForecast: (seq<real>, Order, nat) -> seq<real>): Result<Option<seq<Dated>>, string>
    requires |ds.days| == |ds.sales| && |ds.sales| > 0
  {
    var last := MaxDay(ds.days);
    if regression.Some? then
      Success(Some(DatedAfter(last, Recursive(ds.sales, RegressionArtifact(RegressionFeatures, predictors(regression.value.model)), last, 7))))
    else if setup.regressionFile then Failure("No module named 'sklearn'")
    else if arima.Some? then Success(Some(DatedAfter(last, arimaForecast(ds.sales, arima.value.order, 7))))
    else if setup.arimaFile then Failure("No module named 'statsmodels'")
    else Success(None)
  }

  /** The comparison and the forecast of `main` once the trainings are done:
      each scored model enters the table in training order and the best is
      taken from it; a forecast that raises raises out of `main`. */
  function Compared(ds: Dataset, setup: Setup, arima: Option<ArimaOutcome>, regression: Option<RegressionOutcome>,
                    predictors: Regressor -> (seq<real> -> real), prophet: Option<Scores>,
                    arimaForecast: (seq<real>, Order, nat) -> seq<real>): Result<Training, string>
    requires |ds.days| == |ds.sales| && |ds.sales| > 0
  {
    var f := MainForecastOf(ds, setup, arima, regression, predictors, arimaForecast);
    if f.Failure? then Failure(f.error)
    else
      var results := ResultsTable(ArimaScores(arima), RegressionScores(regression), prophet);
      Success(Trained(results, BestOf(results), f.value))
  }

  /** A comparison that succeeds holds the table of the scored models, in
      training order, and the best model of that table. */
  lemma ComparedShape(ds: Dataset, setup: Setup, arima: Option<ArimaOutcome>, regression: Option<RegressionOutcome>,
                      predictors: Regressor -> (seq<real> -> real), prophet: Option<Scores>,
                      arimaForecast: (seq<real>, Order, nat) -> seq<real>)
    requires |ds.days| == |ds.sales| && |ds.sales| > 0
    ensures var r := Compared(ds, setup, arima, regression, predictors, prophet, arimaForecast);
            var table := ResultsTable(ArimaScores(arima), RegressionScores(regression), prophet);
            r.Success? ==> r.value == Trained(table, BestOf(table), r.value.forecast)
  {
  }

  /** A comparison that succeeds names each model exactly when it was
      trained, and a best model, one no other beats on MAPE, exactly when
      some model was scored. */
  lemma ComparedNames(ds: Dataset, setup: Setup, arima: Option<ArimaOutcome>, regression: Option<RegressionOutcome>,
                      predictors: Regressor -> (seq<real> -> real), prophet: Option<Scores>,
                      arimaForecast: (seq<real>, Order, nat) -> seq<real>)
    requires |ds.days| == |ds.sales| && |ds.sales| > 0
    ensures var r := Compared(ds, setup, arima, regression, predictors, prophet, arimaForecast);
            r.Success? ==>
              var t := r.value;
              t.Trained? &&
              (arima.Some? <==> exists sc :: (Arima, sc) in t.results) &&
              (regression.Some? <==> exists sc :: (Regression, sc) in t.results) &&
              (prophet.Some? <==> exists sc :: (Prophet, sc) in t.results) &&
              (t.best.None? <==> arima.None? && regression.None? && prophet.None?) &&
              (t.best.Some? ==>
                 exists i :: 0 <= i < |t.results| && t.results[i].0 == t.best.value &&
                   forall j :: 0 <= j < |t.results| ==> !MapeBefore(t.results[j].1.mape, t.results[i].1.mape))
  {
    var r := Compared(ds, setup, arima, regression, predictors, prophet, arimaForecast);
    if r.Success? {
      ComparedShape(ds, setup, arima, regression, predictors, prophet, arimaForecast);
      TrainedNames(r.value, ArimaScores(arima), RegressionScores(regression), prophet, r.value.forecast);
    }
  }

  /** `main`: fewer than ten days abort. Otherwise ARIMA is trained when
      statsmodels imports and the regression when scikit-learn does; a
      training that raises raises out of `main`, and an unavailable library
      drops that model from the table. The smallest MAPE among the scored
      models is reported best, none when the table is empty, and the forecast
      follows. */
  function MainResult(ds: Dataset, setup: Setup, adf: Option<real>, fit: Order -> Option<ArimaFit>,
                    predictors: Regressor -> (seq<real> -> real), prophet: Option<Scores>,
                    arimaForecast: (seq<real>, Order, nat) -> seq<real>): Result<Training, string>
    requires WellFormed(ds)
    requires forall o :: fit(o).Some? ==> |fit(o).value.forecast| == |Holdout(ds.sales).1|
    requires forall s, o, k :: |arimaForecast(s, o, k)| == k
  {
    if |ds.sales| < 10 then Success(NotEnoughData)
    else
      var a := ArimaStage(ds.sales, setup.statsmodels, adf, fit);
      if a.Failure? then Failure(a.error)
      else
        var g := RegressionStage(ds, setup.sklearn, predictors);
        if g.Failure? then Failure(g.error)
        else Compared(ds, setup, a.value, g.value, predictors, prophet, arimaForecast)
  }

  /** Training rests on at least ten days of data: below that `main` reports
      nothing. */
  lemma MainShortHistory(ds: Dataset, setup: Setup, adf: Option<real>, fit: Order -> Option<ArimaFit>,
                    predictors: Regressor -> (seq<real> -> real), prophet: Option<Scores>,
                    arimaForecast: (seq<real>, Order, nat) -> seq<real>)
    requires WellFormed(ds)
    requires forall o :: fit(o).Some? ==> |fit(o).value.forecast| == |Holdout(ds.sales).1|
    requires forall s, o, k :: |arimaForecast(s, o, k)| == k
    ensures MainResult(ds, setup, adf, fit, predictors, prophet, arimaForecast) == Success(NotEnoughData) <==> |ds.sales| < 10
  {
  }

  /** With ten days or more `main` succeeds exactly when no training whose
      library imports fails and the forecast finds no model file it cannot
      load: without scikit-learn no regression file may be left, and without
      both libraries no ARIMA file either. */
  lemma MainSucceeds(ds: Dataset, setup: Setup, adf: Option<real>, fit: Order -> Option<ArimaFit>,
                    predictors: Regressor -> (seq<real> -> real), prophet: Option<Scores>,
                    arimaForecast: (seq<real>, Order, nat) -> seq<real>)
    requires WellFormed(ds)
    requires forall o :: fit(o).Some? ==> |fit(o).value.forecast| == |Holdout(ds.sales).1|
    requires forall s, o, k :: |arimaForecast(s, o, k)| == k
    requires |ds.sales| >= 10
    ensures MainResult(ds, setup, adf, fit, predictors, prophet, arimaForecast).Success? <==>
              (setup.statsmodels ==> ArimaResult(ds.sales, adf, fit).Success?) &&
              (setup.sklearn ==> RegressionResult(ds, predictors).Success?) &&
              (!setup.sklearn ==> !setup.regressionFile && (setup.statsmodels || !setup.arimaFile))
  {
  }

  /** A training that `main` completes went through both stages, and its
      outcome is their comparison. */
  lemma MainStages(ds: Dataset, setup: Setup, adf: Option<real>, fit: Order -> Option<ArimaFit>,
                   predictors: Regressor -> (seq<real> -> real), prophet: Option<Scores>,
                   arimaForecast: (seq<real>, Order, nat) -> seq<real>)
    requires WellFormed(ds)
    requires forall o :: fit(o).Some? ==> |fit(o).value.forecast| == |Holdout(ds.sales).1|
    requires forall s, o, k :: |arimaForecast(s, o, k)| == k
    ensures var r := MainResult(ds, setup, adf, fit, predictors, prophet, arimaForecast);
            var a := ArimaStage(ds.sales, setup.statsmodels, adf, fit);
            var g := RegressionStage(ds, setup.sklearn, predictors);
            r.Success? && r.value.Trained? ==>
              |ds.sales| >= 10 && a.Success? && g.Success? &&
              r == Compared(ds, setup, a.value, g.value, predictors, prophet, arimaForecast)
  {
  }

  /** The table of a training holds the ARIMA scores exactly when statsmodels
      imports, the regression's exactly when scikit-learn does and Prophet's
      exactly when it was scored; a best model is named exactly when the
      table is not empty, and no model in the table beats it on MAPE. */
  lemma MainOutcome(ds: Dataset, setup: Setup, adf: Option<real>, fit: Order -> Option<ArimaFit>,
                    predictors: Regressor -> (seq<real> -> real), prophet: Option<Scores>,
                    arimaForecast: (seq<real>, Order, nat) -> seq<real>)
    requires WellFormed(ds)
    requires forall o :: fit(o).Some? ==> |fit(o).value.forecast| == |Holdout(ds.sales).1|
    requires forall s, o, k :: |arimaForecast(s, o, k)| == k
    ensures var r := MainResult(ds, setup, adf, fit, predictors, prophet, arimaForecast);
            r.Success? && r.value.Trained? ==>
              var t := r.value;
              (setup.statsmodels <==> exists sc :: (Arima, sc) in t.results) &&
              (setup.sklearn <==> exists sc :: (Regression, sc) in t.results) &&
              (prophet.Some? <==> exists sc :: (Prophet, sc) in t.results) &&
              (t.best.None? <==> !setup.statsmodels && !setup.sklearn && prophet.None?) &&
              (t.best.Some? ==>
                 exists i :: 0 <= i < |t.results| && t.results[i].0 == t.best.value &&
                   forall j :: 0 <= j < |t.results| ==> !MapeBefore(t.results[j].1.mape, t.results[i].1.mape))
  {
    var r := MainResult(ds, setup, adf, fit, predictors, prophet, arimaForecast);
    if r.Success? && r.value.Trained? {
      MainStages(ds, setup, adf, fit, predictors, prophet, arimaForecast);
      var a := ArimaStage(ds.sales, setup.statsmodels, adf, fit);
      var g := RegressionStage(ds, setup.sklearn, predictors);
      ComparedNames(ds, setup, a.value, g.value, predictors, prophet, arimaForecast);
    }
  }

  /** The forecast of a training: with scikit-learn, the regression just
      trained, recursively; without it but with statsmodels, the refit at the
      order just chosen; without either, none. Both forecasts cover the seven
      days after the last one. */
  lemma MainForecast(ds: Dataset, setup: Setup, adf: Option<real>, fit: Order -> Option<ArimaFit>,
                    predictors: Regressor -> (seq<real> -> real), prophet: Option<Scores>,
                    arimaForecast: (seq<real>, Order, nat) -> seq<real>)
    requires WellFormed(ds)
    requires forall o :: fit(o).Some? ==> |fit(o).value.forecast| == |Holdout(ds.sales).1|
    requires forall s, o, k :: |arimaForecast(s, o, k)| == k
    ensures var r := MainResult(ds, setup, adf, fit, predictors, prophet, arimaForecast);
            r.Success? && r.value.Trained? && |ds.days| > 0 ==>
              var last := MaxDay(ds.days);
              (setup.sklearn ==>
                 r.value.forecast == Some(DatedAfter(last, Recursive(ds.sales,
                   RegressionArtifact(RegressionFeatures, predictors(RegressionResult(ds, predictors).value.model)), last, 7)))) &&
              (!setup.sklearn && setup.statsmodels ==>
                 r.value.forecast == Some(DatedAfter(last, arimaForecast(ds.sales, ArimaResult(ds.sales, adf, fit).value.order, 7)))) &&
              (!setup.sklearn && !setup.statsmodels ==> r.value.forecast.None?) &&
              (setup.sklearn || setup.statsmodels ==>
                 r.value.forecast.Some? && |r.value.forecast.value| == 7 &&
                 forall k :: 0 <= k < 7 ==> r.value.forecast.value[k].day == last + k + 1)
  {
  }

  /** The comparison and forecast steps of `main`. */
  method CompareModels(ds: Dataset, setup: Setup, arima: Option<ArimaOutcome>, regression: Option<RegressionOutcome>,
                       predictors: Regressor -> (seq<real> -> real), prophet: Option<Scores>,
                       arimaForecast: (seq<real>, Order, nat) -> seq<real>)
    returns (r: Result<Training, string>)
    requires |ds.days| == |ds.sales| && |ds.sales| > 0
    requires forall s, o, k :: |arimaForecast(s, o, k)| == k
    ensures r == Compared(ds, setup, arima, regression, predictors, prophet, arimaForecast)
  {
    var results: seq<(ModelName, Scores)> := [];
    var order: Option<Order> := None;
    if arima.Some? {
      results := results + [(Arima, arima.value.scores)];
      order := Some(arima.value.order);
    }
    assert results == ScoredRow(Arima, ArimaScores(arima));
    var saved: Option<RegressionArtifact> := None;
    if regression.Some? {
      results := results + [(Regression, regression.value.scores)];
      saved := Some(RegressionArtifact(RegressionFeatures, predictors(regression.value.model)));
    }
    assert results == ScoredRow(Arima, ArimaScores(arima)) + ScoredRow(Regression, RegressionScores(regression));
    if prophet.Some? {
      results := results + [(Prophet, prophet.value)];
    }
    assert results == ResultsTable(ArimaScores(arima), RegressionScores(regression), prophet);
    var best := BestOf(results);
    if saved.None? && setup.regressionFile {
      return Failure("No module named 'sklearn'");
    }
    if saved.None? && order.None? && setup.arimaFile {
      return Failure("No module named 'statsmodels'");
    }
    var forecast := ForecastNextDays(ds.days, ds.sales, saved, order, arimaForecast, 7);
    r := Success(Trained(results, best, forecast));
  }

  /** The training script end to end, the steps in `main`'s order. */
  method Run(ds: Dataset, setup: Setup, adf: Option<real>, fit: Order -> Option<ArimaFit>,
                    predictors: Regressor -> (seq<real> -> real), prophet: Option<Scores>,
                    arimaForecast: (seq<real>, Order, nat) -> seq<real>)
    returns (r: Result<Training, string>)
    requires WellFormed(ds)
    requires forall o :: fit(o).Some? ==> |fit(o).value.forecast| == |Holdout(ds.sales).1|
    requires forall s, o, k :: |arimaForecast(s, o, k)| == k
    ensures r == MainResult(ds, setup, adf, fit, predictors, prophet, arimaForecast)
  {
    if |ds.sales| < 10 {
      return Success(NotEnoughData);
    }
    var a := RunArimaStage(ds.sales, setup.statsmodels, adf, fit);
    if a.Failure? {
      return Failure(a.error);
    }
    var g := RunRegressionStage(ds, setup.sklearn, predictors);
    if g.Failure? {
      return Failure(g.error);
    }
    r := CompareModels(ds, setup, a.value, g.value, predictors, prophet, arimaForecast);
  }
}
