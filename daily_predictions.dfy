/** The daily prediction run: the saved model forecasts the next days from the
    last prepared row, each forecast is graded against the recent average, and
    a summary closes the output. The table comes from the same preparation as
    training (TrainLightgbm.Prepare); the model is a parameter. */
module DailyPredictions {
  import opened Wrappers
  import opened Stats
  import opened Calendar
  import opened TrainLightgbm

  datatype Level = High | Medium

  /** One forecast record: date, day name, predicted sales and confidence. */
  datatype Prediction = Prediction(day: int, dayName: string, sales: real, confidence: Level)

  /** Weekdays are forecast with high confidence, the weekend with medium. */
  function ConfidenceOf(day: int): (c: Level)
    ensures c == High <==> !IsWeekend(SaturdaySunday, day)
  {
    if Weekday(day) < 5 then High else Medium
  }

  /** `generate_predictions`: entry i is the day after the last row plus i,
      predicted from the last row's features with that day's calendar. */
  method GeneratePredictions(model: seq<Value> -> real, f: Frame, featureCols: seq<string>,
                             civil: int -> CivilDate, n: nat)
    returns (preds: seq<Prediction>)
    requires WellFormed(f) && |f.days| > 0
    ensures |preds| == n
    ensures forall i :: 0 <= i < n ==>
              var day := f.days[|f.days| - 1] + i + 1;
              preds[i] == Prediction(day, DayName(Weekday(day)), model(InferenceRow(f, featureCols, civil, day)),
                                     ConfidenceOf(day))
  {
    var last := f.days[|f.days| - 1];
    preds := [];
    for i := 1 to n + 1
      invariant |preds| == i - 1
      invariant forall k :: 0 <= k < i - 1 ==>
                  preds[k] == Prediction(last + k + 1, DayName(Weekday(last + k + 1)),
                                         model(InferenceRow(f, featureCols, civil, last + k + 1)),
                                         ConfidenceOf(last + k + 1))
    {
      var next := last + i;
      var x := InferenceRow(f, featureCols, civil, next);
      var conf := if Weekday(next) < 5 then High else Medium;
      preds := preds + [Prediction(next, DayName(Weekday(next)), model(x), conf)];
    }
  }

  // -------------------------------------------------------- recommendations

  datatype Demand = HighDemand | LowDemand

  /** A recommendation: its type, the day, the predicted sales it quotes and
      its priority (the message text is not modelled). */
  datatype Recommendation = Recommendation(kind: Demand, day: int, sales: real, priority: Level)

  /** `df['total_sales'].tail(30).mean()`; None for an empty table, where
      pandas gives NaN and every comparison with it is false. */
  function RecentAverage(sales: seq<real>): (avg: Option<real>)
    ensures avg.None? <==> |sales| == 0
    ensures avg.Some? ==> avg.value == Mean(Tail(sales, 30))
  {
    if |sales| == 0 then None else Some(Mean(Tail(sales, 30)))
  }

  /** The grade of one prediction: high demand above 1.2 times the average,
      else low demand below 0.7 times it, else none. */
  function Grade(sales: real, avg: Option<real>): (g: Option<Demand>)
    ensures g == Some(HighDemand) <==> avg.Some? && sales > avg.value * 1.2
    ensures g == Some(LowDemand) <==> avg.Some? && !(sales > avg.value * 1.2) && sales < avg.value * 0.7
    ensures g.None? <==> avg.None? || (avg.value * 0.7 <= sales <= avg.value * 1.2)
  {
    if avg.Some? && sales > avg.value * 1.2 then Some(HighDemand)
    else if avg.Some? && sales < avg.value * 0.7 then Some(LowDemand)
    else None
  }

  /** The record a graded prediction yields: high priority for high demand. */
  function RecordOf(p: Prediction, g: Demand): Recommendation
  {
    Recommendation(g, p.day, p.sales, if g == HighDemand then High else Medium)
  }

  /** The recommendations for the predictions in order, none for an ungraded one. */
  function Recommend(preds: seq<Prediction>, avg: Option<real>): seq<Recommendation>
  {
    if |preds| == 0 then []
    else
      var rest := Recommend(preds[..|preds| - 1], avg);
      var p := preds[|preds| - 1];
      var g := Grade(p.sales, avg);
      if g.Some? then rest + [RecordOf(p, g.value)] else rest
  }

  /** `generate_recommendations`. */
  method GenerateRecommendations(preds: seq<Prediction>, sales: seq<real>) returns (recs: seq<Recommendation>)
    ensures recs == Recommend(preds, RecentAverage(sales))
  {
    var avg := RecentAverage(sales);
    recs := [];
    for i := 0 to |preds|
      invariant recs == Recommend(preds[..i], avg)
    {
      assert preds[..i + 1][..i] == preds[..i];
      var p := preds[i];
      if avg.Some? && p.sales > avg.value * 1.2 {
        recs := recs + [Recommendation(HighDemand, p.day, p.sales, High)];
      } else if avg.Some? && p.sales < avg.value * 0.7 {
        recs := recs + [Recommendation(LowDemand, p.day, p.sales, Medium)];
      }
    }
    assert preds[..|preds|] == preds;
  }

  /** Predictions graded g, counted. */
  function CountGraded(preds: seq<Prediction>, avg: Option<real>, g: Demand): nat
  {
    if |preds| == 0 then 0
    else CountGraded(preds[..|preds| - 1], avg, g) + (if Grade(preds[|preds| - 1].sales, avg) == Some(g) then 1 else 0)
  }

  /** Recommendations of kind g, counted. */
  function CountKind(recs: seq<Recommendation>, g: Demand): nat
  {
    if |recs| == 0 then 0
    else CountKind(recs[..|recs| - 1], g) + (if recs[|recs| - 1].kind == g then 1 else 0)
  }

  lemma CountKindAppend(recs: seq<Recommendation>, r: Recommendation, g: Demand)
    ensures CountKind(recs + [r], g) == CountKind(recs, g) + (if r.kind == g then 1 else 0)
  {
    assert (recs + [r])[..|recs|] == recs;
  }

  /** At most one recommendation per prediction, each one of a prediction
      graded as its kind says, and as many of each kind as predictions so
      graded; a prediction between the thresholds yields none. */
  lemma {:induction false} RecommendFaithful(preds: seq<Prediction>, avg: Option<real>)
    ensures |Recommend(preds, avg)| <= |preds|
    ensures forall r :: r in Recommend(preds, avg) ==>
              exists i :: 0 <= i < |preds| && Grade(preds[i].sales, avg) == Some(r.kind) &&
                          r == RecordOf(preds[i], r.kind)
    ensures forall g :: CountKind(Recommend(preds, avg), g) == CountGraded(preds, avg, g)
  {
    if |preds| > 0 {
      var init := preds[..|preds| - 1];
      var p := preds[|preds| - 1];
      RecommendFaithful(init, avg);
      var rest := Recommend(init, avg);
      forall r | r in Recommend(preds, avg)
        ensures exists i :: 0 <= i < |preds| && Grade(preds[i].sales, avg) == Some(r.kind) &&
                            r == RecordOf(preds[i], r.kind)
      {
        if r in rest {
          var i :| 0 <= i < |init| && Grade(init[i].sales, avg) == Some(r.kind) && r == RecordOf(init[i], r.kind);
          assert preds[i] == init[i];
        } else {
          assert Grade(preds[|preds| - 1].sales, avg) == Some(r.kind);
        }
      }
      forall g ensures CountKind(Recommend(preds, avg), g) == CountGraded(preds, avg, g) {
        var gr := Grade(p.sales, avg);
        if gr.Some? {
          CountKindAppend(rest, RecordOf(p, gr.value), g);
        }
      }
    }
  }

  /** The recommendations follow the order of the predictions: an earlier
      prediction's record comes first. */
  lemma {:induction false} RecommendOrdered(preds: seq<Prediction>, avg: Option<real>)
    requires forall i, j :: 0 <= i < j < |preds| ==> preds[i].day < preds[j].day
    ensures forall a, b :: 0 <= a < b < |Recommend(preds, avg)| ==>
              Recommend(preds, avg)[a].day < Recommend(preds, avg)[b].day
  {
    if |preds| > 0 {
      var init := preds[..|preds| - 1];
      RecommendOrdered(init, avg);
      RecommendFaithful(init, avg);
      var rest := Recommend(init, avg);
      var r := Recommend(preds, avg);
      forall a, b | 0 <= a < b < |r| ensures r[a].day < r[b].day {
        if b == |rest| {
          assert r[a] in rest;
          var i :| 0 <= i < |init| && r[a] == RecordOf(init[i], r[a].kind);
          assert preds[i] == init[i];
        } else {
          assert r[a] == rest[a] && r[b] == rest[b];
        }
      }
    }
  }

  // ---------------------------------------------------------------- summary

  datatype Summary = Summary(total: real, average: real, highDemandDays: nat)

  function SalesOf(preds: seq<Prediction>): (s: seq<real>)
    ensures |s| == |preds| && forall i :: 0 <= i < |preds| ==> s[i] == preds[i].sales
  {
    seq(|preds|, i requires 0 <= i < |preds| => preds[i].sales)
  }

  /** The summary block of `save_predictions`: total, average per day and the
      number of high-demand records. With no predictions the division by
      the length raises. */
  function Summarize(preds: seq<Prediction>, recs: seq<Recommendation>): (r: Result<Summary, string>)
    ensures r.Failure? <==> |preds| == 0
    ensures r.Success? ==> r.value.total == Sum(SalesOf(preds)) &&
                           r.value.average == Mean(SalesOf(preds)) &&
                           r.value.highDemandDays == CountKind(recs, HighDemand)
  {
    if |preds| == 0 then Failure("division by zero")
    else
      var total := Sum(SalesOf(preds));
      Success(Summary(total, total / (|preds| as real), CountKind(recs, HighDemand)))
  }

  /** For the recommendations of the same run, the summary counts exactly the
      predictions above 1.2 times the recent average. */
  lemma SummaryCountsHighDemand(preds: seq<Prediction>, sales: seq<real>)
    requires |preds| > 0
    ensures var avg := RecentAverage(sales);
            Summarize(preds, Recommend(preds, avg)).value.highDemandDays == CountGraded(preds, avg, HighDemand)
  {
    RecommendFaithful(preds, RecentAverage(sales));
  }

  /** The average per day lies between the smallest and the largest prediction. */
  lemma SummaryAverageBounds(preds: seq<Prediction>, recs: seq<Recommendation>, lo: real, hi: real)
    requires |preds| > 0
    requires forall i :: 0 <= i < |preds| ==> lo <= preds[i].sales <= hi
    ensures lo <= Summarize(preds, recs).value.average <= hi
  {
    MeanBounds(SalesOf(preds), lo, hi);
  }
}
