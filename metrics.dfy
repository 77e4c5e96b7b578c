/** Forecast error metrics and the last-three-days holdout split used when
    the forecasting models are trained. */
module Metrics {
  import opened Wrappers
  import opened Stats

  /** The smallest double step above 1, which scikit-learn uses to keep the
      percentage error finite when an actual value is 0. */
  const Epsilon: real := 0.0000000000000002220446049250313

  function AbsErrors(actual: seq<real>, predicted: seq<real>): (e: seq<real>)
    requires |actual| == |predicted|
    ensures |e| == |actual|
    ensures forall i :: 0 <= i < |e| ==> e[i] == Abs(actual[i] - predicted[i])
  {
    seq(|actual|, i requires 0 <= i < |actual| => Abs(actual[i] - predicted[i]))
  }

  /** `np.mean(np.abs(actual - predicted))`, equally `mean_absolute_error`. */
  function MeanAbsoluteError(actual: seq<real>, predicted: seq<real>): real
    requires |actual| == |predicted| && |actual| > 0
  {
    Mean(AbsErrors(actual, predicted))
  }

  lemma {:induction false} SumPositive(s: seq<real>, i: int)
    requires forall j :: 0 <= j < |s| ==> s[j] >= 0.0
    requires 0 <= i < |s| && s[i] > 0.0
    ensures Sum(s) > 0.0
  {
    var init := s[..|s| - 1];
    SumNonnegative(init);
    if i < |s| - 1 {
      assert init[i] == s[i];
      SumPositive(init, i);
    }
  }

  lemma {:induction false} SumZero(s: seq<real>)
    requires forall j :: 0 <= j < |s| ==> s[j] == 0.0
    ensures Sum(s) == 0.0
  {
    SumConstant(s, 0.0);
  }

  /** The mean absolute error is never negative and is zero exactly for a
      perfect forecast. */
  lemma MeanAbsoluteErrorZeroIff(actual: seq<real>, predicted: seq<real>)
    requires |actual| == |predicted| && |actual| > 0
    ensures MeanAbsoluteError(actual, predicted) >= 0.0
    ensures MeanAbsoluteError(actual, predicted) == 0.0 <==> actual == predicted
  {
    var e := AbsErrors(actual, predicted);
    SumNonnegative(e);
    if actual == predicted {
      SumZero(e);
    } else {
      var i :| 0 <= i < |actual| && actual[i] != predicted[i];
      SumPositive(e, i);
    }
  }

  /** numpy's percentage error `np.mean(np.abs((a - p) / a)) * 100`. An
      actual value of 0 makes it infinite or NaN, which is None here. */
  function MapeNumpy(actual: seq<real>, predicted: seq<real>): (m: Option<real>)
    requires |actual| == |predicted| && |actual| > 0
    ensures m.None? <==> exists i :: 0 <= i < |actual| && actual[i] == 0.0
  {
    if exists i :: 0 <= i < |actual| && actual[i] == 0.0 then None
    else Some(Mean(seq(|actual|, i requires 0 <= i < |actual| =>
                          Abs((actual[i] - predicted[i]) / actual[i]))) * 100.0)
  }

  /** scikit-learn's `mean_absolute_percentage_error` (a fraction, callers
      multiply by 100): each error is divided by max(|actual|, Epsilon). */
  function MapeSklearn(actual: seq<real>, predicted: seq<real>): real
    requires |actual| == |predicted| && |actual| > 0
  {
    Mean(seq(|actual|, i requires 0 <= i < |actual| =>
               Abs(actual[i] - predicted[i]) / Max(Abs(actual[i]), Epsilon)))
  }

  lemma AbsQuotient(x: real, y: real)
    requires y != 0.0
    ensures Abs(x / y) == Abs(x) / Abs(y)
  {
    if y < 0.0 {
      assert x / y == (-x) / (-y);
    }
  }

  /** The two percentage errors agree (up to the factor 100) whenever no
      actual value is within Epsilon of 0. */
  lemma MapeAgree(actual: seq<real>, predicted: seq<real>)
    requires |actual| == |predicted| && |actual| > 0
    requires forall i :: 0 <= i < |actual| ==> Abs(actual[i]) >= Epsilon
    ensures MapeNumpy(actual, predicted) == Some(MapeSklearn(actual, predicted) * 100.0)
  {
    var a := seq(|actual|, i requires 0 <= i < |actual| =>
                   Abs((actual[i] - predicted[i]) / actual[i]));
    var b := seq(|actual|, i requires 0 <= i < |actual| =>
                   Abs(actual[i] - predicted[i]) / Max(Abs(actual[i]), Epsilon));
    forall i | 0 <= i < |actual| ensures a[i] == b[i] {
      AbsQuotient(actual[i] - predicted[i], actual[i]);
    }
    assert a == b;
  }

  /** Every percentage error is nonnegative; scikit-learn's is zero exactly
      for a perfect forecast. */
  lemma MapeSklearnZeroIff(actual: seq<real>, predicted: seq<real>)
    requires |actual| == |predicted| && |actual| > 0
    ensures MapeSklearn(actual, predicted) >= 0.0
    ensures MapeSklearn(actual, predicted) == 0.0 <==> actual == predicted
  {
    var b := seq(|actual|, i requires 0 <= i < |actual| =>
                   Abs(actual[i] - predicted[i]) / Max(Abs(actual[i]), Epsilon));
    assert forall i :: 0 <= i < |b| ==> b[i] >= 0.0;
    SumNonnegative(b);
    if actual == predicted {
      SumZero(b);
    } else {
      var i :| 0 <= i < |actual| && actual[i] != predicted[i];
      assert b[i] > 0.0;
      SumPositive(b, i);
    }
  }

  /** Python `s[:k]` for any integer k: a negative k counts from the end. */
  function PyPrefix<T>(s: seq<T>, k: int): (r: seq<T>)
    ensures |r| == if k >= 0 then (if k < |s| then k else |s|)
                   else (if |s| + k > 0 then |s| + k else 0)
  {
    if k >= 0 then s[..if k < |s| then k else |s|]
    else s[..if |s| + k > 0 then |s| + k else 0]
  }

  /** Python `s[k:]` for any integer k. */
  function PySuffix<T>(s: seq<T>, k: int): (r: seq<T>)
  {
    if k >= 0 then s[if k < |s| then k else |s|..]
    else s[if |s| + k > 0 then |s| + k else 0..]
  }

  /** `train_size = len(y) - 3; y[:train_size], y[train_size:]`. */
  function Holdout<T>(s: seq<T>): (split: (seq<T>, seq<T>))
  {
    (PyPrefix(s, |s| - 3), PySuffix(s, |s| - 3))
  }

  /** The holdout splits the series into a prefix and the rest, in order; with
      three or more rows the test part is exactly the last three. With fewer,
      the negative train size counts from the end: 2 rows split 1 + 1, a single
      row is all test. */
  lemma HoldoutPartition<T>(s: seq<T>)
    ensures Holdout(s).0 + Holdout(s).1 == s
    ensures |s| >= 3 ==> |Holdout(s).1| == 3 && |Holdout(s).0| == |s| - 3
    ensures |s| == 2 ==> |Holdout(s).0| == 1 && |Holdout(s).1| == 1
    ensures |s| == 1 ==> |Holdout(s).0| == 0 && Holdout(s).1 == s
  {
    var k := |s| - 3;
    var c := if k >= 0 then (if k < |s| then k else |s|) else (if |s| + k > 0 then |s| + k else 0);
    assert PyPrefix(s, k) == s[..c];
    assert PySuffix(s, k) == s[c..];
    assert s[..c] + s[c..] == s;
  }
}
