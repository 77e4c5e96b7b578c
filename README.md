# Cafe analytics, forecasting and dataset scripts — a Dafny model

The cafe management dashboard ships a set of Python scripts around its sales data:

- a business-intelligence engine (`predict_custom.py`): confidence intervals, z-score anomalies,
  weekday patterns, product tallies, rule-based advice and a LightGBM forecast loop;
- an older report generator (`predict.py`): trend label, anomalies on daily sums, best-selling items,
  peak hours, a clamped neural forecast and a strategy line;
- the training scripts (`train_model.py`, `train_lightgbm.py`) and the daily prediction job
  (`daily_predictions.py`);
- the dataset assembly scripts (`pipeline.py` from the SQL dump, `pipeline_json.py` from the JSON
  export) and the readiness audit (`validate_data.py`).

This project models the arithmetic these scripts do around their libraries and proves what it
promises: the order the rules fire in, which rows a filter keeps, what each engineered column holds,
which model a search selects, how forecasts feed back into the next step, and the verdicts.

Conventions used throughout:

- Money and counts are exact `real`s. There is no floating point, so no rounding is modelled.
- A date is an integer day ordinal. `Calendar.Weekday(d) = d % 7`, with 0 for Monday, as pandas
  `dayofweek` numbers days.
- Day of month and month come from a function parameter `civil` and are not interpreted.
- Which days count as the weekend differs between scripts, so it is a parameter (`Calendar.WeekendRule`):
  - Friday and Saturday in `predict_custom.py`, `train_model.py` training and `pipeline_json.py`;
  - Saturday and Sunday in `train_lightgbm.py` and `daily_predictions.py`;
  - Friday to Sunday in the `train_model.py` forecast.
- Every fitted model (ARIMA, the scikit-learn regressors, LightGBM, the TensorFlow network) is a
  function parameter. It returns `Option<real>` where the script catches its failure.
- The AIC of a fit, the Dickey-Fuller p-value and the cross-validation folds are given data.
- There is no square root over `real`, so the anomaly tests compare squares (`Stats.ExceedsSigmas`).
  The confidence interval takes the population deviation as a parameter, together with the fact that
  its square is the variance.
- Tables are values: a frame is a map from column to a sequence of cells. Missing cells are
  `Option<real>`. An infinite percent change is `Stats.Ext`.

Modules: `Wrappers`, `Stats`, `Calendar`, `Ranking` (Python dict tallies and stable sorting),
`Metrics` (MAE, MAPE, holdout split) and `Text` (integer printing). Then one module per script:
`PredictCustom`, `Predict`, `TrainModel`, `TrainLightgbm`, `DailyPredictions`, `DailyFrame` (shared by
both pipelines), `Pipeline`, `PipelineJson` and `ValidateData`.

Points of the code's behaviour that the model keeps:

- `predict_custom.py` flags anomalies against the sample standard deviation, with divisor n - 1.
- A feature name that the LightGBM forecast loop does not fill is set to 0.
- `train_model.py`'s forecast returns nothing when neither model file exists.
- Without scikit-learn a regression file from an earlier training cannot be loaded, and `main` raises;
  without statsmodels the same holds for an ARIMA file.
- The scripts do not share one weekend: each model uses the weekend days its own script names.

## Model

| member | source | states |
|---|---|---|
| PredictCustom.ZScore | web-app/scripts/predict_custom.py:132 | z is 1.96 exactly for a confidence of 0.95 and 1.645 for every other confidence |
| PredictCustom.IntervalStd | web-app/scripts/predict_custom.py:127-130 | the spread is the historical std when one is given; otherwise the population std for several predictions, or 0.15 times the single prediction |
| PredictCustom.ConfidenceInterval | web-app/scripts/predict_custom.py:125-136 | both bounds have one entry per prediction, and every lower bound is at least 0 |
| PredictCustom.ConfidenceIntervalShape | web-app/scripts/predict_custom.py:133-136 | the upper bound is the prediction plus the margin; the lower bound is the prediction minus the margin, clamped at 0; when the spread is not negative the interval contains every nonnegative prediction; a zero spread collapses it to the prediction |
| PredictCustom.IntervalStdNonnegative | web-app/scripts/predict_custom.py:127-128 | without a historical std the spread is never negative for nonnegative predictions |
| PredictCustom.AnomaliesExact | web-app/scripts/predict_custom.py:139-154 | a row is reported iff the frame has the column, has two or more rows, has a nonzero sample variance, and the row lies more than t deviations from the mean; the reported rows keep the frame's order |
| PredictCustom.AnomaliesAreZScores | web-app/scripts/predict_custom.py:144-152 | for sigma the sample std, a row is reported exactly when \|value - mean\| / sigma > t |
| PredictCustom.ConstantHasNoAnomalies | web-app/scripts/predict_custom.py:147-148 | a constant column has zero std, so nothing is reported |
| PredictCustom.WeeklyEntries | web-app/scripts/predict_custom.py:178 | each grouped weekday mean belongs to a weekday that has rows and is the mean of that weekday's values |
| PredictCustom.WeeklyOrdered | web-app/scripts/predict_custom.py:178 | the groups follow the alphabetical order of the English day names, as groupby sorts its keys |
| PredictCustom.WeeklyComplete | web-app/scripts/predict_custom.py:178 | every weekday that has rows has a group |
| PredictCustom.OnWeekdayNonempty | web-app/scripts/predict_custom.py:178 | a weekday has a group exactly when some row falls on it |
| PredictCustom.SeasonalPatterns | web-app/scripts/predict_custom.py:157-201 | there are no patterns exactly for an empty frame |
| PredictCustom.SeasonalExtremes | web-app/scripts/predict_custom.py:182-183 | the best day's mean is at least every weekday's mean and the worst day's at most; both are weekdays present in the data, reported with their own means; among equal means the alphabetically first name wins |
| PredictCustom.SeasonalAverages | web-app/scripts/predict_custom.py:186-188 | the weekend (Friday, Saturday) and other-day averages are the group means, 0 for an empty group; a group is nonempty exactly when some row's day is in it |
| PredictCustom.WeekendBoostSign | web-app/scripts/predict_custom.py:190-192 | the boost is positive iff the other days average above 0 and the weekend above them; it is 0 when the other days average at most 0 |
| PredictCustom.BoostSign | web-app/scripts/predict_custom.py:190-192 | the boost formula is positive iff the base is positive and the weekend is above it |
| PredictCustom.MenuEntry | web-app/scripts/predict_custom.py:215-217 | a menu row contributes a lookup entry only with a nonzero id and a nonempty name |
| PredictCustom.MenuLookupLast | web-app/scripts/predict_custom.py:213-218 | an id is in the lookup iff some menu row contributes it, and it maps to the name of the last such row |
| PredictCustom.ProductNames | web-app/scripts/predict_custom.py:225-229 | each order row is named by the lookup, or by the fallback built from its id |
| PredictCustom.AnalyzeProducts | web-app/scripts/predict_custom.py:204-242 | the loop that builds the lookup and the two tallies row by row computes the product report |
| PredictCustom.ProductReportSpec | web-app/scripts/predict_custom.py:209-241 | there is no report exactly without order rows or menu rows; otherwise the total sold is the sum of the quantities, the number of products is the number of distinct names, and both top lists hold min(5, names) entries, largest first, each a product with its own total |
| PredictCustom.WeekendAdvice | web-app/scripts/predict_custom.py:250-255 | the weekend rule gives at most one advice, of its own rule |
| PredictCustom.BestDayAdvice | web-app/scripts/predict_custom.py:257-258 | the best-day rule gives at most one advice, of its own rule |
| PredictCustom.ProductAdvice | web-app/scripts/predict_custom.py:261-263 | the product rule gives at most one advice, of its own rule |
| PredictCustom.TrendAdvice | web-app/scripts/predict_custom.py:266-275 | the trend rule gives at most one advice, of its own rule |
| PredictCustom.MarginAdvice | web-app/scripts/predict_custom.py:278-286 | the margin rule gives at most one advice, of its own rule |
| PredictCustom.Margins | web-app/scripts/predict_custom.py:279 | the daily margin is that day's sales minus its expenses |
| PredictCustom.GenerateAdvice | web-app/scripts/predict_custom.py:245-291 | the method that appends each rule's advice in turn returns the specified advice list |
| PredictCustom.TrendRule | web-app/scripts/predict_custom.py:266-275 | the inline computation over the first and last seven days gives the trend rule's advice |
| PredictCustom.MarginRule | web-app/scripts/predict_custom.py:278-286 | the inline mean margin over mean sales gives the margin rule's advice |
| PredictCustom.FiredOrdered | web-app/scripts/predict_custom.py:250-286 | the fired advice comes from strictly later rules down the list, so each rule fires at most once and its two outcomes exclude each other; the fallback is never fired by a rule |
| PredictCustom.FiveRules | web-app/scripts/predict_custom.py:250-286 | five rule outputs of at most one advice each, taken in rule order, concatenate in rule order |
| PredictCustom.OrderedAppend | web-app/scripts/predict_custom.py:250-286 | appending one later rule's advice keeps the rule order |
| PredictCustom.AdviceOrdered | web-app/scripts/predict_custom.py:288-291 | the list is never empty and keeps rule order; the fallback appears iff no rule fired, and then alone |
| PredictCustom.FiredEmpty | web-app/scripts/predict_custom.py:249-289 | no rule fires exactly when there are no patterns and the product, trend and margin rules stay silent |
| PredictCustom.AdviceThresholds | web-app/scripts/predict_custom.py:252-284 | the strong weekend advice quotes a boost above 20; the weak one follows a boost below -10; growth or decline needs 14 days and a positive first-week mean; without positive mean sales the margin is 0, which is low |
| PredictCustom.WeekendStrongGiven | web-app/scripts/predict_custom.py:251-253 | the strong weekend advice with boost b is given iff the patterns' boost is b and above 20 |
| PredictCustom.TrendGiven | web-app/scripts/predict_custom.py:266-275 | trend advice is only given with at least 14 days and a positive first-week mean |
| PredictCustom.AdviceMembers | web-app/scripts/predict_custom.py:249-289 | an advice is in the list iff its own rule fires it, or it is the fallback and nothing fired |
| PredictCustom.PartRules | web-app/scripts/predict_custom.py:250-286 | each rule gives only advice of its own kind |
| PredictCustom.LgbmRow | web-app/scripts/predict_custom.py:311-338 | the feature vector follows the model's column order, each entry the named feature |
| PredictCustom.Clamped | web-app/scripts/predict_custom.py:340-344 | a prediction is the model output clamped at 0, or the historical mean when the model fails |
| PredictCustom.LgbmForecast | web-app/scripts/predict_custom.py:306-344 | the loop yields exactly n predictions |
| PredictCustom.ForecastWithLightgbm | web-app/scripts/predict_custom.py:294-349 | no rows for an empty frame; otherwise n rows dated from the day after the last, holding the recursive forecast |
| PredictCustom.LgbmPrefix | web-app/scripts/predict_custom.py:306-344 | a longer forecast extends a shorter one: no step looks ahead |
| PredictCustom.LgbmStep | web-app/scripts/predict_custom.py:307-344 | step k is the clamped model output on day last + k + 1, with the features built from the predictions before it |
| PredictCustom.LgbmFeedback | web-app/scripts/predict_custom.py:319-335 | from the second step `sales_lag_1` is the previous prediction, and from the third `sales_lag_2` the one before it; `sales_lag_3` is the mean from the fourth step on; the rolling means and the trend are the same at every step |
| PredictCustom.LgbmUnknownFeature | web-app/scripts/predict_custom.py:338 | a feature name the loop does not fill is 0 |
| PredictCustom.LgbmNonnegative | web-app/scripts/predict_custom.py:340-344 | with nonnegative sales every prediction is nonnegative |
| TrainModel.DifferencingOrder | web-app/Dataset-creat/train_model.py:60-65 | d is 1 exactly when the ADF p-value exceeds 0.05, else 0 |
| TrainModel.Candidates | web-app/Dataset-creat/train_model.py:78-81 | nine orders (p, d, q) for p, q in 0..2, p-major |
| TrainModel.Fits | web-app/Dataset-creat/train_model.py:80-88 | the AIC of each candidate in search order, none where the fit failed |
| TrainModel.FirstStrictMin | web-app/Dataset-creat/train_model.py:83-86 | none iff every fit failed; otherwise a successful fit whose AIC is at most every other successful one and strictly below every earlier one |
| TrainModel.FirstStrictMinStep | web-app/Dataset-creat/train_model.py:83-86 | one more candidate becomes the best exactly when it succeeded and strictly beats the best so far |
| TrainModel.SearchStateStep | web-app/Dataset-creat/train_model.py:74-88 | the search state changes only for a successful fit strictly below the best AIC so far, which starts infinite |
| TrainModel.SearchOrder | web-app/Dataset-creat/train_model.py:74-88 | the nested loop returns the first strict minimum of the AICs, or the default order (1, d, 1) with no fitted model |
| TrainModel.SearchKeepsEarliestTie | web-app/Dataset-creat/train_model.py:83 | among equal AICs the search keeps the earliest order |
| TrainModel.ArimaResult | web-app/Dataset-creat/train_model.py:42-109 | ARIMA training succeeds iff the ADF test runs on a nonempty series and some order fits; the chosen order has the test's d and an AIC no successful fit beats |
| TrainModel.TrainArima | web-app/Dataset-creat/train_model.py:42-109 | the training steps compute ArimaResult: forecast the holdout and score it |
| Metrics.HoldoutPartition | web-app/Dataset-creat/train_model.py:68-69 | the holdout splits the series in order; from three rows on the test part is the last three; two rows split 1 + 1 and a single row is all test |
| Metrics.MeanAbsoluteErrorZeroIff | web-app/Dataset-creat/train_model.py:96 | the mean absolute error is never negative and is 0 exactly for a perfect forecast |
| Metrics.PyPrefix | web-app/Dataset-creat/train_model.py:164-166 | Python's `s[:k]` has min(k, n) elements for k >= 0 and counts from the end for a negative k |
| Metrics.MapeNumpy | web-app/Dataset-creat/train_model.py:97 | numpy's percentage error is undefined exactly when some actual value is 0 |
| Metrics.MapeAgree | web-app/Dataset-creat/train_model.py:199 | numpy's MAPE and scikit-learn's MAPE times 100 agree when no actual value is within scikit-learn's epsilon of 0 |
| Metrics.MapeSklearnZeroIff | web-app/Dataset-creat/train_model.py:199 | scikit-learn's percentage error is never negative and is 0 exactly for a perfect forecast |
| TrainModel.FeatureRow | web-app/Dataset-creat/train_model.py:149-160 | a regression row has one value per regression feature |
| TrainModel.FeatureRowSpec | web-app/Dataset-creat/train_model.py:131-142 | row i holds the 1- and 7-day shifts of sales, their 7- and 30-day rolling means, and the CSV calendar columns, or else the weekday and the Friday-Saturday flag |
| TrainModel.RegressionRows | web-app/Dataset-creat/train_model.py:144-146 | dropna keeps exactly the rows whose 7-day lag exists, dropping the first seven |
| TrainModel.Predictions | web-app/Dataset-creat/train_model.py:186 | one prediction per row, each the model applied to that row |
| TrainModel.ModelMaes | web-app/Dataset-creat/train_model.py:174-187 | the holdout MAE of each of the three regressors, in visiting order |
| TrainModel.Evaluation | web-app/Dataset-creat/train_model.py:197-199 | the final evaluation is of the chosen regressor |
| TrainModel.RegressionResult | web-app/Dataset-creat/train_model.py:112-226 | regression training succeeds exactly when both halves of the holdout split are nonempty |
| TrainModel.RegressionBest | web-app/Dataset-creat/train_model.py:180-194 | the chosen regressor has the smallest holdout MAE, is the earliest among equals, and is reported with that MAE |
| TrainModel.SelectRegressor | web-app/Dataset-creat/train_model.py:180-194 | the loop keeps a model only when its MAE is strictly below the best so far, which starts infinite; it returns the first best |
| TrainModel.TrainRegression | web-app/Dataset-creat/train_model.py:112-226 | the training steps compute RegressionResult |
| TrainModel.TrainableIff | web-app/Dataset-creat/train_model.py:146-166 | the regression can be trained exactly with 9 or at least 11 days, so ten days, the fewest `main` accepts, fail |
| TrainModel.StepVector | web-app/Dataset-creat/train_model.py:304-329 | the forecast row holds one value per saved feature, in the saved order |
| TrainModel.Recursive | web-app/Dataset-creat/train_model.py:302-338 | the recursive forecast has one value per step |
| TrainModel.RecursivePrefix | web-app/Dataset-creat/train_model.py:302-338 | a longer forecast extends a shorter one: no step looks ahead |
| TrainModel.RecursiveStep | web-app/Dataset-creat/train_model.py:329-338 | step k is the model on the features of the data followed by the k earlier forecasts; it is not clamped |
| TrainModel.ForecastsFeedBack | web-app/Dataset-creat/train_model.py:312-326 | from the second step `lag_1` is the previous forecast, and from the eighth `lag_7` the forecast seven steps back; the 7-day mean then averages only forecasts; a history under seven values gives `lag_7` the history mean |
| TrainModel.ForecastNextDays | web-app/Dataset-creat/train_model.py:281-367 | the regression model's forecast when there is one, else the ARIMA refit's, else none; either forecast has exactly the requested number of rows, dated from the day after the last day |
| TrainModel.WeekendFlagsDiffer | web-app/Dataset-creat/train_model.py:142-308 | the training weekend flag (Friday, Saturday) and the forecast flag (weekday 4 or later) differ exactly on Sundays |
| TrainModel.BestByMape | web-app/Dataset-creat/train_model.py:405-409 | the head of the MAPE sort: no entry has a smaller MAPE, and it is the earliest among equals, non-finite MAPEs last |
| TrainModel.ArimaStage | web-app/Dataset-creat/train_model.py:45-51 | without statsmodels ARIMA gives no outcome and no error; with it the stage fails exactly when ARIMA training does and otherwise carries its outcome, the scores and the chosen order |
| TrainModel.RunArimaStage | web-app/Dataset-creat/train_model.py:45-51 | the import guard followed by the training steps computes ArimaStage |
| TrainModel.RegressionStage | web-app/Dataset-creat/train_model.py:118-124 | without scikit-learn the regression gives no result and no error; with it the stage fails exactly when regression training does and otherwise carries its outcome |
| TrainModel.RunRegressionStage | web-app/Dataset-creat/train_model.py:118-124 | the import guard followed by the training steps computes RegressionStage |
| TrainModel.ResultsTable | web-app/Dataset-creat/train_model.py:382-397 | the results list the scored models in training order: ARIMA, then the regression, then Prophet |
| TrainModel.ResultsTableMembers | web-app/Dataset-creat/train_model.py:382-397 | a model's row is in the results exactly when that model was scored, with its own scores; the results are empty exactly when no model was |
| TrainModel.BestOf | web-app/Dataset-creat/train_model.py:404-409 | a best model is named exactly when the results are not empty, and no entry has a smaller MAPE |
| TrainModel.TrainedNames | web-app/Dataset-creat/train_model.py:382-409 | the comparison names each model exactly when it was scored, and names a best model exactly when one was |
| TrainModel.ComparedNames | web-app/Dataset-creat/train_model.py:382-409 | a comparison that succeeds lists each model exactly when it was trained or scored, and names a best model, one no listed model beats on MAPE, exactly when some model was |
| TrainModel.CompareModels | web-app/Dataset-creat/train_model.py:281-354 | the comparison steps build the results in training order and pick the best. The forecast uses the regression just trained. Without it, a regression file left on disk raises; otherwise the ARIMA file just written gives the refit at the chosen order; an ARIMA file left without statsmodels raises; with no file there is no forecast |
| TrainModel.MainShortHistory | web-app/Dataset-creat/train_model.py:378-380 | `main` reports nothing exactly when there are fewer than ten days |
| TrainModel.MainSucceeds | web-app/Dataset-creat/train_model.py:384-413 | with ten days or more `main` succeeds exactly when no training whose library imports fails, no regression file is left on disk without scikit-learn, and no ARIMA file is left when neither library imports |
| TrainModel.MainOutcome | web-app/Dataset-creat/train_model.py:382-409 | a trained outcome lists ARIMA exactly when statsmodels imports, the regression exactly when scikit-learn does and Prophet exactly when scored; a best model exists exactly when some model was scored, and no listed model has a smaller MAPE |
| TrainModel.MainForecast | web-app/Dataset-creat/train_model.py:281-354 | with scikit-learn the forecast is the recursive one of the regression just trained. Without it but with statsmodels, it is the refit of the sales at the ARIMA order just chosen. Without either there is none. Each forecast covers the seven days after the last one |
| TrainModel.Run | web-app/Dataset-creat/train_model.py:370-413 | the steps of `main`, in order, compute MainResult, including the forecast's failures |
| TrainLightgbm.SetColumn | web-app/scripts/train_lightgbm.py:27-45 | assigning a column replaces an existing one where it stands and appends a new one |
| TrainLightgbm.SetColumns | web-app/scripts/train_lightgbm.py:27-45 | the assigned columns are added after the existing ones, which keep their places |
| TrainLightgbm.SetColumnsAssigned | web-app/scripts/train_lightgbm.py:27-45 | after the assignments each assigned column holds what was assigned to it |
| TrainLightgbm.SetColumnsUntouched | web-app/scripts/train_lightgbm.py:27-45 | a column not assigned keeps its values |
| TrainLightgbm.Select | web-app/scripts/train_lightgbm.py:24 | selecting rows by position keeps the columns and reads row idx[j] into row j |
| TrainLightgbm.SortByDaySorted | web-app/scripts/train_lightgbm.py:24 | sorting lists the days in ascending order and keeps every row |
| TrainLightgbm.Lag | web-app/scripts/train_lightgbm.py:33-36 | a shift by k is NaN in the first k rows and the value k rows earlier after them |
| TrainLightgbm.Trend | web-app/scripts/train_lightgbm.py:45 | the filled 3-day percent change is never NaN |
| TrainLightgbm.NewColumns | web-app/scripts/train_lightgbm.py:27-45 | the twenty engineered columns, in order of assignment |
| TrainLightgbm.NewColumnNaN | web-app/scripts/train_lightgbm.py:33-45 | an engineered cell is NaN exactly in the first k rows of a lag k |
| TrainLightgbm.TrendColumn | web-app/scripts/train_lightgbm.py:45 | the trend column is the percent change of sales over three rows, 0 on the first three rows |
| TrainLightgbm.EngineerIsEngineered | web-app/scripts/train_lightgbm.py:27-45 | feature building keeps the days, fills every engineered column as defined, and keeps every input column |
| TrainLightgbm.EngineeredComplete | web-app/scripts/train_lightgbm.py:48 | with no NaN in the input, exactly the rows from the fourth on are complete |
| TrainLightgbm.KeptRowsFrom | web-app/scripts/train_lightgbm.py:48 | when exactly the rows from c on are complete, dropna keeps rows c, c + 1, ... |
| TrainLightgbm.DropNAFrom | web-app/scripts/train_lightgbm.py:48 | when exactly the rows from c on are complete, row j of the result is row c + j |
| TrainLightgbm.CleanRows | web-app/scripts/train_lightgbm.py:48 | with no NaN in the input, dropna removes exactly the first three rows |
| TrainLightgbm.CleanColumn | web-app/scripts/train_lightgbm.py:27-48 | row j of the prepared table holds row j + 3 of each engineered column |
| TrainLightgbm.CleanInput | web-app/scripts/train_lightgbm.py:48 | row j of the prepared table holds row j + 3 of each input column |
| TrainLightgbm.LagColumn | web-app/scripts/train_lightgbm.py:33-36 | the lag k of sales, orders and items is the shift by k of that metric |
| TrainLightgbm.CleanLags | web-app/scripts/train_lightgbm.py:33-36 | on every retained row a metric's lag k is that metric k rows earlier |
| TrainLightgbm.SmoothColumn | web-app/scripts/train_lightgbm.py:39-42 | the rolling means over 3 and 7 days of each metric are its `rolling(w, min_periods=1)` |
| Stats.RollingWindow | web-app/scripts/train_lightgbm.py:39-42 | a rolling mean at position i averages the last min(i + 1, w) values, so it is always defined |
| Stats.RollingBounds | web-app/scripts/train_lightgbm.py:39-42 | a rolling mean stays within the bounds of the series |
| TrainLightgbm.CleanSmooth | web-app/scripts/train_lightgbm.py:39-48 | on every retained row the rolling mean is the mean of the last w values up to it, counting the three dropped rows |
| Stats.PctChangeInverse | web-app/scripts/train_lightgbm.py:45 | a finite percent change undoes: base times (1 + change) is the value; it is infinite exactly over a zero base with a nonzero value |
| TrainLightgbm.CleanCalendar | web-app/scripts/train_lightgbm.py:27-30 | the calendar columns of every retained row describe its own day, the weekend being Saturday and Sunday |
| TrainLightgbm.PrepareSorted | web-app/scripts/train_lightgbm.py:20-50 | preparation works on the input sorted by day, which keeps every row, no NaN, and the metrics |
| TrainLightgbm.FeatureColumns | web-app/scripts/train_lightgbm.py:56 | a column is a feature iff it is in the table and not excluded |
| TrainLightgbm.FeatureColumnsConcat | web-app/scripts/train_lightgbm.py:56 | the selection keeps the columns' order |
| TrainLightgbm.FoldMae | web-app/scripts/train_lightgbm.py:89 | a fold's MAE is never negative and is 0 exactly for a perfect fold |
| TrainLightgbm.FoldMape | web-app/scripts/train_lightgbm.py:90 | a fold's MAPE is never negative and is 0 exactly for a perfect fold |
| TrainLightgbm.CrossValidate | web-app/scripts/train_lightgbm.py:78-115 | the per-fold scores, in fold order, and the reported metrics are their means, never negative |
| TrainLightgbm.InferenceRow | web-app/scripts/train_lightgbm.py:125-142 | the forecast row has one value per feature column |
| TrainLightgbm.InferenceRowFixed | web-app/scripts/train_lightgbm.py:133-139 | every non-calendar feature is the last row's value, or 0, the same on every day; no forecast is fed back |
| TrainLightgbm.ForecastNextDays | web-app/scripts/train_lightgbm.py:117-151 | n entries, entry i dated i + 1 days after the last row, predicted from that day's feature row, with its day name |
| DailyPredictions.ConfidenceOf | web-app/scripts/daily_predictions.py:78 | the confidence is high exactly on Monday to Friday |
| DailyPredictions.GeneratePredictions | web-app/scripts/daily_predictions.py:53-81 | n entries, entry i the day after the last row plus i, predicted from the last row's features with that day's calendar |
| DailyPredictions.RecentAverage | web-app/scripts/daily_predictions.py:88 | the mean of the last 30 days, none for an empty table |
| DailyPredictions.Grade | web-app/scripts/daily_predictions.py:92-105 | high demand iff above 1.2 times the average; low demand iff not high and below 0.7 times it; nothing in between |
| DailyPredictions.GenerateRecommendations | web-app/scripts/daily_predictions.py:83-107 | the loop over the predictions computes the recommendations against the recent average |
| DailyPredictions.RecommendFaithful | web-app/scripts/daily_predictions.py:91-105 | at most one record per prediction, each for a prediction graded as its kind says, and as many of a kind as predictions so graded |
| DailyPredictions.RecommendOrdered | web-app/scripts/daily_predictions.py:91-105 | the records follow the order of the predictions |
| DailyPredictions.Summarize | web-app/scripts/daily_predictions.py:115-119 | the total of the predictions, their mean, and the number of high-demand records; no predictions make the division fail |
| DailyPredictions.SummaryCountsHighDemand | web-app/scripts/daily_predictions.py:118 | for the recommendations made from the same predictions, the count is the number of predictions above 1.2 times the recent average |
| DailyPredictions.SummaryAverageBounds | web-app/scripts/daily_predictions.py:117 | the average lies between the smallest and the largest prediction |
| Predict.PositionsSpread | web-app/scripts/predict.py:53-55 | two or more positions give the slope a positive denominator |
| Predict.LineSlope | web-app/scripts/predict.py:53-55 | the fitted slope of points on a line is the line's slope |
| Predict.AnalyzeTrends | web-app/scripts/predict.py:48-65 | the insufficient-data label exactly below two receipts |
| Predict.TrendSigns | web-app/scripts/predict.py:59-63 | with a nonnegative average the label is growth iff the slope is positive, decline iff negative, stable iff 0; the strong labels need a slope beyond 5% of the average |
| Predict.LineTrend | web-app/scripts/predict.py:48-65 | receipts on a line with a nonnegative average read as growth exactly when it rises, as decline exactly when it falls, and as stable when it is flat |
| Predict.FlatTrend | web-app/scripts/predict.py:59-63 | flat receipts are stable unless negative, where a zero slope still beats 5% of the average and reads as strong growth |
| Predict.DailyTotalsDays | web-app/scripts/predict.py:72 | the daily totals list each receipt day once, in date order |
| Predict.DailyTotalsSum | web-app/scripts/predict.py:72 | each day's total is the sum of that day's receipts |
| Predict.DailyTotalAt | web-app/scripts/predict.py:72 | each daily row is a receipt day with its sum |
| Predict.DetectAnomalies | web-app/scripts/predict.py:67-86 | the scan over the daily rows computes the specified spikes |
| Predict.FlaggedMembers | web-app/scripts/predict.py:80-84 | a day is flagged iff its total lies beyond 1.5 deviations from the mean |
| Predict.FlaggedOrdered | web-app/scripts/predict.py:80-84 | flagged days come in date order |
| Predict.SpikesOrdered | web-app/scripts/predict.py:68-86 | at most three spikes, none below five receipts, in date order |
| Predict.SpikeFacts | web-app/scripts/predict.py:72-84 | each spike is a receipt day with its sum as total |
| Predict.SpikeBeyond | web-app/scripts/predict.py:75-83 | each spike lies beyond 1.5 sample deviations of the daily totals, and is a rise exactly when above the mean |
| Predict.FlaggedComplete | web-app/scripts/predict.py:80-84 | every receipt day beyond the threshold is flagged |
| Predict.SpikesLatest | web-app/scripts/predict.py:86 | the spikes are the last three flagged days: a flagged day left out is earlier than every one reported |
| Predict.PredictFuture | web-app/scripts/predict.py:88-113 | one row for each of the n days after today, each the network's output raised to at least 0 |
| Predict.Truncate | web-app/scripts/predict.py:134 | `int(float(q))` drops the fraction toward zero |
| Predict.MenuNamesLast | web-app/scripts/predict.py:122-124 | an id has a name iff a menu row carries it, and the name is that of the last such row |
| Predict.ItemLines | web-app/scripts/predict.py:141-143 | each listed item is shown with its menu name, or the fallback, and its count |
| Predict.AnalyzeProducts | web-app/scripts/predict.py:115-145 | the loops that build the names and the per-id counts compute the item report |
| Predict.ItemReportSpec | web-app/scripts/predict.py:128-143 | no report exactly without order rows; otherwise min(5, ids) items by descending count, each an ordered id with its name and the sum of its quantities |
| Predict.ItemsLeftOut | web-app/scripts/predict.py:137 | no id left out sold more than the last listed item |
| Predict.HourCounted | web-app/scripts/predict.py:157-164 | the tally counts each hour's orders, skipping times that do not parse |
| Predict.ParsedHoursFrom | web-app/scripts/predict.py:158-164 | an hour is tallied iff some order's time parses to it |
| Predict.ClockRoundTrip | web-app/scripts/predict.py:170-172 | every hour reads as 1 to 12, before noon exactly for 0 to 11, and the reading gives the hour back |
| Predict.PeakLines | web-app/scripts/predict.py:169-173 | each listed hour is shown in its twelve-hour reading with its count |
| Predict.AnalyzePeakHours | web-app/scripts/predict.py:147-175 | the tally loop computes the peak report |
| Predict.PeakReportSpec | web-app/scripts/predict.py:154-173 | no report exactly without order rows; otherwise the min(3, hours) busiest hours by descending count, each an hour some order was placed in, with its count |
| Predict.StrategyCases | web-app/scripts/predict.py:217-226 | growth advice iff the label holds the growth word; stocking up iff no growth and a forecast total above 3.5 times the average; the low-sales advice otherwise |
| Predict.ShortHistoryStrategy | web-app/scripts/predict.py:192-226 | no growth advice under two receipts; with none the average is 0, so any positive forecast means stocking up |
| Predict.LineStrategy | web-app/scripts/predict.py:190-222 | receipts on a line with a nonnegative average get the growth advice exactly when the line rises |
| Text.IntToStringRoundTrip | web-app/scripts/predict_custom.py:229 | `int(str(n)) == n` for the id printed in the fallback product name, so distinct ids give distinct names |
| Text.DigitsRoundTrip | web-app/scripts/predict_custom.py:229 | reading back the decimal digits of a natural number gives the number |
| Text.IntToStringInjective | web-app/scripts/predict_custom.py:229 | two ids print alike only when they are equal |
| Ranking.AddGet | web-app/scripts/predict_custom.py:230-231 | adding v under a key raises that key's total by v and leaves the others |
| Ranking.AddKeys | web-app/scripts/predict_custom.py:230-231 | adding under a key keeps the keys in place and appends the key when it is new |
| Ranking.AddDistinct | web-app/scripts/predict_custom.py:230-231 | adding under a key keeps every key once |
| Ranking.AddSum | web-app/scripts/predict_custom.py:230-231 | adding v under a key raises the total of the tally by v |
| Ranking.TallyKeys | web-app/scripts/predict.py:131-135 | a tally lists each key once, and exactly the keys of the input |
| Ranking.TallyGet | web-app/scripts/predict.py:131-135 | a tally holds for each key the sum of the values filed under it |
| Ranking.TallyTotal | web-app/scripts/predict_custom.py:240 | the values of a tally add up to the sum of all values |
| Ranking.TallySize | web-app/scripts/predict_custom.py:241 | a tally has one entry per distinct key |
| Ranking.BestIndex | web-app/scripts/predict_custom.py:182-183 | the first entry with the largest (or smallest) value, as `max`/`min` with a key function |
| Ranking.RankPermutation | web-app/scripts/predict.py:137 | the stable sort reorders the entries without adding or losing any |
| Ranking.RankOrdered | web-app/scripts/predict.py:137 | the sort lists the entries largest first, the first largest at the head |
| Ranking.TopKSpec | web-app/scripts/predict.py:137 | the top k are largest first, taken from the input, and nothing left out beats the last one kept |
| Ranking.TallyTop | web-app/scripts/predict_custom.py:234-235 | the top k of a tally are largest first, each a key of the input with its own total |
| Ranking.TallyLeftOut | web-app/scripts/predict_custom.py:234-235 | no key left out of the top k totals more than the last one kept |
| Calendar.WeekendFlag | web-app/Dataset-creat/pipeline_json.py:256 | the flag is 1 exactly on a weekend day, else 0 |
| Calendar.WeekendRulesNested | web-app/Dataset-creat/train_model.py:308 | the Friday-to-Sunday weekend is the union of the other two |
| Calendar.DayRange | web-app/Dataset-creat/pipeline.py:287 | the range holds every day from the start to the end, one each, and is empty when the end precedes the start |
| Calendar.DayRangeCovers | web-app/Dataset-creat/pipeline.py:287 | a day is in the range iff it lies between its ends |
| Calendar.DatedAfter | web-app/Dataset-creat/train_model.py:285 | the forecast rows are dated from the day after the last, one per value |
| Calendar.DayRangeConsecutive | web-app/Dataset-creat/pipeline_json.py:174 | a date range has no gap: each day is the previous one plus one |
| Calendar.MinDay | web-app/Dataset-creat/pipeline_json.py:168 | the first date is a date of the input and precedes every other |
| Calendar.MaxDay | web-app/Dataset-creat/pipeline_json.py:169 | the last date is a date of the input and follows every other |
| Calendar.AlphaOrderSorted | web-app/scripts/predict_custom.py:178 | the seven day names in the order `groupby` sorts them: each weekday once, in strictly increasing string order |
| Calendar.ValuesWhereNonempty | web-app/scripts/predict_custom.py:187-188 | a boolean mask selects some value exactly when some row's day passes it |
| Calendar.SelectMembers | web-app/scripts/predict_custom.py:154 | a boolean mask keeps exactly the rows that pass it |
| Calendar.SelectIncreasing | web-app/scripts/predict_custom.py:154 | a boolean mask keeps the rows' order |
| Stats.VarianceZeroIffConstant | web-app/scripts/predict_custom.py:145-148 | a variance is 0 exactly when every value is the same |
| Stats.ExceedsSigmasIsZTest | web-app/scripts/predict_custom.py:151-152 | the squared comparison is the z-score test \|d\| / sigma > t for the deviation sigma |
| Stats.MeanBounds | web-app/scripts/predict_custom.py:187-188 | a mean lies between the smallest and the largest value |
| Stats.VariancesNonnegative | web-app/scripts/predict_custom.py:145-148 | both variances are never negative |
| Stats.RollingFirst | web-app/scripts/train_lightgbm.py:39-42 | the first rolling value is the first observation itself |
| Stats.Shift | web-app/Dataset-creat/train_model.py:131-132 | a shift by k has a value exactly from row k on |
| Stats.ShiftOrZero | web-app/Dataset-creat/pipeline_json.py:251-252 | a shift filled with 0 is 0 in the first k rows and the value k rows earlier after them |
| Stats.TailIsSuffix | web-app/scripts/daily_predictions.py:88 | `tail(k)` holds the last min(k, n) values in their order |
| DailyFrame.ShiftOf | web-app/Dataset-creat/pipeline_json.py:142 | an order is in the morning shift exactly before 15:00, else in the evening |
| DailyFrame.ShiftSplit | web-app/Dataset-creat/pipeline.py:258-259 | each order is in exactly one shift, so on each day the two shift sums add up to the day's order sales |
| DailyFrame.ShiftRowsNonempty | web-app/Dataset-creat/pipeline.py:259-260 | a shift gets a column exactly when some order falls in it |
| DailyFrame.SumOnDayAbsent | web-app/Dataset-creat/pipeline.py:301 | a day without rows sums to 0, as the zero fill makes it |
| DailyFrame.Joined | web-app/Dataset-creat/pipeline.py:292-298 | the left join of a per-day sum onto the index has a value exactly on the days with rows |
| DailyFrame.JoinFilled | web-app/Dataset-creat/pipeline.py:292-301 | after the zero fill a joined column holds each day's value, 0 on a day without rows |
| DailyFrame.NoRowsColumn | web-app/Dataset-creat/pipeline_json.py:206-211 | a column without any rows is 0 on every day |
| DailyFrame.OrderAverageSpec | web-app/Dataset-creat/pipeline_json.py:218-220 | over a positive count, the average times the count is the sales; without orders it is 0; never negative for nonnegative sales |
| DailyFrame.MarginPercentSpec | web-app/Dataset-creat/pipeline_json.py:224-226 | on a day with sales the margin times the sales is 100 times the gross profit; it is at most 100 iff expenses are nonnegative and negative iff expenses exceed sales; 0 without sales |
| DailyFrame.CashShareSpec | web-app/Dataset-creat/pipeline_json.py:228-230 | on a day with sales the ratio times the sales is the cash, and cash within the sales gives a ratio in [0, 1]; 0 without sales |
| DailyFrame.AddMetrics | web-app/Dataset-creat/pipeline.py:304-313 | adding the computed columns adds exactly the four metric columns, one value per day |
| DailyFrame.AddMetricsAt | web-app/Dataset-creat/pipeline.py:304-313 | on each day the average order value, gross profit, margin and cash ratio follow from that day's sales, orders, expenses and cash |
| DailyFrame.MetricAt | web-app/Dataset-creat/pipeline_json.py:218-230 | each computed column, and the sales, on day i are the derived value of that day's inputs |
| DailyFrame.KeptColumn | web-app/Dataset-creat/pipeline.py:304-313 | adding the computed columns leaves the other columns as they were |
| DailyFrame.AddMetricsAssembled | web-app/Dataset-creat/pipeline.py:301-315 | a table ready for the computed columns is a complete dataset once they are added |
| DailyFrame.ColumnValues | web-app/Dataset-creat/pipeline.py:301-315 | each column of the finished table holds its value on every day of the index |
| DailyFrame.RowValueOwn | web-app/Dataset-creat/pipeline.py:292-301 | a column that is neither computed nor the sales holds the day's own database value |
| Pipeline.MasterIndex | web-app/Dataset-creat/pipeline.py:274-289 | the index fails exactly when there is neither an order nor a receipt |
| Pipeline.MasterIndexEnd | web-app/Dataset-creat/pipeline.py:280-289 | the index is contiguous, holds every order's day, and ends on the latest order or receipt day |
| Pipeline.MasterIndexStart | web-app/Dataset-creat/pipeline.py:274-289 | the index starts on the first order day when there are orders, else on the first receipt day; a receipt is inside exactly when it is not before the start |
| Pipeline.JoinTables | web-app/Dataset-creat/pipeline.py:292-298 | the frame holds exactly the joined columns, each the left join of its per-day sums onto the index |
| Pipeline.JoinedColumns | web-app/Dataset-creat/pipeline.py:292-315 | the joined columns are exactly the table's columns other than the computed ones, and the table has all four computed ones |
| Pipeline.FilledTable | web-app/Dataset-creat/pipeline.py:301 | after the zero fill the joined columns hold each day's values, with the receipts' sales as `total_sales` |
| Pipeline.ExtractDataset | web-app/Dataset-creat/pipeline.py:274-315 | fails exactly with neither orders nor receipts; otherwise the index from start to end with every column holding its daily value and the computed columns |
| Pipeline.ShiftColumnsPresent | web-app/Dataset-creat/pipeline.py:258-260 | a shift column is present exactly when some order falls in that shift; `order_sales` never is |
| Pipeline.FeatureWindows | web-app/Dataset-creat/pipeline.py:321-328 | the rolling means average the last min(i + 1, 7) or min(i + 1, 30) days; the burn rate is the 7-day usage mean, 0 without a usage column |
| Pipeline.FeatureShifts | web-app/Dataset-creat/pipeline.py:331-335 | yesterday's sales are 0 on the first day; growth is 0 on the first day, undoes over a nonzero base and is infinite exactly over a zero base with a nonzero value |
| Pipeline.AssembledHasFeatureInputs | web-app/Dataset-creat/pipeline.py:348-351 | the assembled dataset has every input the features read |
| PipelineJson.MasterIndexSpec | web-app/Dataset-creat/pipeline_json.py:166-176 | the index is contiguous from the first to the last order day and holds every order's day |
| PipelineJson.RequiredColumns | web-app/Dataset-creat/pipeline_json.py:206-209 | the required columns are exactly those read from the database |
| PipelineJson.Backfill | web-app/Dataset-creat/pipeline_json.py:206-211 | each missing required column is added as zeros; columns already there keep their values |
| PipelineJson.JoinTables | web-app/Dataset-creat/pipeline_json.py:179-200 | a per-day table is joined exactly when it has rows, each column the left join of its per-day sums |
| PipelineJson.FilledColumns | web-app/Dataset-creat/pipeline_json.py:203-211 | after the zero fill and the backfill every required column holds each day's value |
| PipelineJson.SalesFromOrders | web-app/Dataset-creat/pipeline_json.py:215-230 | once `total_sales` is replaced by the order sales, adding the computed columns completes the table |
| PipelineJson.ExtractDataset | web-app/Dataset-creat/pipeline_json.py:165-232 | nothing without orders; otherwise the index from the first to the last order day, every column holding its daily sums, and `total_sales` the order sales |
| PipelineJson.SalesSplit | web-app/Dataset-creat/pipeline_json.py:142-215 | in the dataset the morning and evening shift sales add up to each day's sales |
| PipelineJson.FeatureWindows | web-app/Dataset-creat/pipeline_json.py:240-244 | the rolling means and the burn rate average the last min(i + 1, w) days |
| PipelineJson.FeatureShifts | web-app/Dataset-creat/pipeline_json.py:247-256 | the lags are the sales 1 and 7 days earlier, 0 before the data; the growth of sales and of expenses is each 0 on the first day, undoes over a nonzero base and is infinite exactly over a zero base with a nonzero value; the weekend flag is 1 exactly on Friday and Saturday |
| PipelineJson.FeatureWeekdays | web-app/Dataset-creat/pipeline_json.py:255 | over the contiguous index the weekday advances by one each row |
| PipelineJson.AssembledHasFeatureInputs | web-app/Dataset-creat/pipeline_json.py:240-256 | the assembled dataset has every input the features read |
| PipelineJson.SizeBandOf | web-app/Dataset-creat/pipeline_json.py:290-295 | under 30 days small, under 90 moderate, otherwise adequate |
| ValidateData.MissingZeroIff | web-app/Dataset-creat/validate_data.py:26-31 | the audit finds no missing value exactly when every cell is filled |
| ValidateData.ZeroDays | web-app/Dataset-creat/validate_data.py:41 | the zero-sale days are at most the rows |
| ValidateData.PercentZerosBounds | web-app/Dataset-creat/validate_data.py:41-47 | the percentage lies in [0, 100]; it is above 50 iff more than half the rows have no sales, and above 70 iff more than seven in ten have none |
| ValidateData.ZeroStdIff | web-app/Dataset-creat/validate_data.py:54 | a column has zero std exactly when it has at least two filled cells, all with the same value |
| ValidateData.LowVariance | web-app/Dataset-creat/validate_data.py:52-55 | the loop collects the constant columns in column order |
| ValidateData.ConstantColumnsSpec | web-app/Dataset-creat/validate_data.py:52-55 | a name is reported exactly when a column of that name has zero std |
| ValidateData.DuplicateHidesGap | web-app/Dataset-creat/validate_data.py:64-68 | as written, two rows on day 0 and one on day 2 pass the continuity test although day 1 is missing |
| ValidateData.DuplicateFakesGap | web-app/Dataset-creat/validate_data.py:64-68 | as written, a duplicated day makes a series without gaps fail the test |
| ValidateData.ContinuousIff | web-app/Dataset-creat/validate_data.py:64-68 | the corrected test holds exactly when no day between the first and the last is missing |
| ValidateData.ContinuityAgrees | web-app/Dataset-creat/validate_data.py:64-68 | on distinct days, as both pipelines write them, the test as written and the corrected test agree |
| ValidateData.VerdictOf | web-app/Dataset-creat/validate_data.py:73-78 | not ready iff more than 70% zero days; else a warning iff under 30 rows; else ready |
| ValidateData.SalesColumn | web-app/Dataset-creat/validate_data.py:41 | the sales column is found iff some column is named `total_sales`, and it is that column's cells |
| ValidateData.CheckMlReadiness | web-app/Dataset-creat/validate_data.py:10-78 | fails exactly without a `total_sales` column or without rows; otherwise it reports the missing cells, the zero days and their percentage, the sparse warning above 50%, the constant columns, the corrected continuity and the verdict; on distinct days the continuity equals the script's own test |

## Left out

- File, CSV, JSON and SQLite input and output: the loaders, the SQL queries, `load_db_from_sql`,
  `load_db_from_json`, and saving models, metadata and forecasts. Their results are inputs here.
- `clean_sql_for_sqlite` in `pipeline.py`: its behaviour comes from Python's regular-expression engine,
  which is not modelled.
- The SQL `WHERE` filters and the per-category expense breakdown of `pipeline_json.py`, which no
  later step reads.
- The dtype test of `validate_data.py` (lines 34-38): the model has numeric columns only.
- Fitting and prediction inside ARIMA, the Dickey-Fuller test, scikit-learn, LightGBM, Prophet,
  StandardScaler and TensorFlow. They are function parameters, and the AIC, p-value and folds are given.
- `TimeSeriesSplit`'s fold arithmetic: the folds are given to `TrainLightgbm.CrossValidate`.
- Feature importances, the markdown reports, the Arabic messages and all printing. Advice and
  recommendations are a datatype of kinds with their numbers.
- `train_prophet`: its MAE and MAPE enter `main` as given scores.
- `datetime.now()` in `predict.py`: today is a parameter of `Predict.PredictFuture`.
- Floating point: NaN, infinity and IEEE rounding. Infinity appears only where a percent change
  divides by 0 (`Stats.Ext`). NaN is modelled only where the scripts can produce it: shifts, dropna,
  a one-row deviation, an empty mean.
- Square roots: deviations are passed with the fact that their square is the variance, or the
  comparisons use squares.
- The Gregorian calendar: day of month and month come from an uninterpreted parameter.
- Frames as objects updated in place: they are map-valued tables. Column order is kept only where a
  later step reads it (`TrainLightgbm`'s column list and feature selection).
- Raw cells that are NaN in the input of the feature builders: `TrainLightgbm.CleanRows` and the
  related lemmas assume an input without NaN, as the pipelines write it.
- Sorting by date before `set_index` in the pipelines and `predict.py`: the rows are taken in date order.
- PredictCustom.IntervalStd: the population deviation is a parameter, because there is no square root.
- PredictCustom.DetectAnomalies keeps the (day, value) rows and not the added `z_score` and
  `is_anomaly` columns.
- TrainModel.MainResult leaves Prophet's own training as a given optional score.
- TrainModel.MainResult takes its surroundings as the flags of `TrainModel.Setup`: whether
  statsmodels and scikit-learn import, and whether a regression or an ARIMA model file is on disk
  before the run. Files are I/O, so only their presence is modelled. A file this run writes is the
  model just trained. Loading a file left by an earlier training without its library is the
  `No module named …` failure.
- TrainModel.MainResult takes the ARIMA refit's seven-day forecast as the parameter
  `arimaForecast`, applied to the sales and the order just chosen. The refit itself is statsmodels.
- ValidateData.CheckMlReadiness reports the corrected continuity test (`ValidateData.Continuous`)
  and not the script's own (`ValidateData.ReportsContinuous`). The two differ only when a day
  repeats, as in the finding below. On distinct days the audit is the script's.
- TrainModel.ForecastNextDays takes the ARIMA refit's forecast as a parameter. The number of rows on
  that path holds only when the parameter returns as many values as steps are asked for, as
  `forecast(steps=days)` does.
- PipelineJson.SizeBandOf covers only the readiness lines of `analyze_data_quality`. Its other
  counts are printing.

## Findings

| source | as written | input that shows it | evidently intended | confidence | as-written member | corrected member |
|---|---|---|---|---|---|---|
| web-app/Dataset-creat/validate_data.py:64-68 | calls the series continuous when the calendar span from the first to the last day has as many days as there are rows | days [0, 0, 2] pass although day 1 is missing; days [0, 0, 1] fail although none is missing | compare the span with the number of distinct days, so that the test holds exactly when no day is missing | not executed | ValidateData.ReportsContinuous, ValidateData.DuplicateHidesGap | ValidateData.Continuous, ValidateData.ContinuousIff |
