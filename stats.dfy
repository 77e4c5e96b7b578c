/** Arithmetic over a daily series shared by the analytics: sums and means, the
    sample and population variance, pandas-style rolling means with a minimum
    period of 1, shifts and percent changes. Money and counts are exact reals. */
module Stats {
  import opened Wrappers

  /** A float that may have become an infinity: pandas' pct_change divides a
      nonzero value by a zero base that way and `fillna` does not touch it. */
  datatype Ext = Fin(value: real) | PosInf | NegInf

  /** `x < e` against a float that may be infinite, as in a running minimum
      started at `float('inf')`. */
  predicate Below(x: real, e: Ext)
  {
    match e
    case Fin(v) => x < v
    case PosInf => true
    case NegInf => false
  }

  function Abs(x: real): (r: real)
    ensures r >= 0.0 && (r == x || r == -x)
  {
    if x < 0.0 then -x else x
  }

  /** Python's `max(a, b)` and numpy's element-wise maximum. */
  function Max(a: real, b: real): (r: real)
    ensures r >= a && r >= b && (r == a || r == b)
  {
    if a < b then b else a
  }

  function Sum(s: seq<real>): real
  {
    if |s| == 0 then 0.0 else Sum(s[..|s| - 1]) + s[|s| - 1]
  }

  lemma SumAppend(s: seq<real>, x: real)
    ensures Sum(s + [x]) == Sum(s) + x
  {
    assert (s + [x])[..|s|] == s;
  }

  lemma {:induction false} SumConcat(a: seq<real>, b: seq<real>)
    ensures Sum(a + b) == Sum(a) + Sum(b)
  {
    if |b| == 0 {
      assert a + b == a;
    } else {
      assert (a + b)[..|a + b| - 1] == a + b[..|b| - 1];
      SumConcat(a, b[..|b| - 1]);
    }
  }

  lemma {:induction false} SumBounds(s: seq<real>, lo: real, hi: real)
    requires forall i :: 0 <= i < |s| ==> lo <= s[i] <= hi
    ensures (|s| as real) * lo <= Sum(s) <= (|s| as real) * hi
  {
    if |s| > 0 {
      SumBounds(s[..|s| - 1], lo, hi);
    }
  }

  lemma {:induction false} SumConstant(s: seq<real>, c: real)
    requires forall i :: 0 <= i < |s| ==> s[i] == c
    ensures Sum(s) == (|s| as real) * c
  {
    if |s| > 0 {
      SumConstant(s[..|s| - 1], c);
    }
  }

  lemma {:induction false} SumNonnegative(s: seq<real>)
    requires forall i :: 0 <= i < |s| ==> s[i] >= 0.0
    ensures Sum(s) >= 0.0
  {
    if |s| > 0 {
      SumNonnegative(s[..|s| - 1]);
    }
  }

  function Mean(s: seq<real>): real
    requires |s| > 0
  {
    Sum(s) / (|s| as real)
  }

  /** The mean of values that are not negative is not negative. */
  lemma MeanNonnegative(s: seq<real>)
    requires |s| > 0 && forall i :: 0 <= i < |s| ==> s[i] >= 0.0
    ensures Mean(s) >= 0.0
  {
    SumNonnegative(s);
  }

  /** A mean lies between the smallest and the largest value averaged. */
  lemma MeanBounds(s: seq<real>, lo: real, hi: real)
    requires |s| > 0
    requires forall i :: 0 <= i < |s| ==> lo <= s[i] <= hi
    ensures lo <= Mean(s) <= hi
  {
    SumBounds(s, lo, hi);
    var n := |s| as real;
    assert n * lo <= Sum(s) <= n * hi;
    assert Mean(s) * n == Sum(s);
  }

  lemma MeanConstant(s: seq<real>, c: real)
    requires |s| > 0
    requires forall i :: 0 <= i < |s| ==> s[i] == c
    ensures Mean(s) == c
  {
    SumConstant(s, c);
  }

  /** pandas `tail(k)`: the last min(k, |s|) values, in order. */
  function Tail<T>(s: seq<T>, k: nat): (t: seq<T>)
    ensures |t| == (if k < |s| then k else |s|)
  {
    s[|s| - (if k < |s| then k else |s|)..]
  }

  lemma TailIsSuffix<T>(s: seq<T>, k: nat, j: nat)
    requires j < |Tail(s, k)|
    ensures Tail(s, k)[j] == s[|s| - |Tail(s, k)| + j]
  {
  }

  /** pandas `rolling(w, min_periods=1).mean()` at position i: the mean of the
      min(i + 1, w) values ending at i, so it is never undefined. */
  function WindowMean(s: seq<real>, i: nat, w: nat): real
    requires i < |s| && w >= 1
  {
    Mean(Tail(s[..i + 1], w))
  }

  function Rolling(s: seq<real>, w: nat): (r: seq<real>)
    requires w >= 1
    ensures |r| == |s|
  {
    seq(|s|, i requires 0 <= i < |s| => WindowMean(s, i, w))
  }

  /** The window at position i holds exactly min(i + 1, w) values: the first
      w - 1 positions average what is available, later ones a full window. */
  lemma RollingWindow(s: seq<real>, w: nat, i: nat)
    requires w >= 1 && i < |s|
    ensures var m := if i + 1 < w then i + 1 else w;
            Rolling(s, w)[i] == Sum(s[i + 1 - m..i + 1]) / (m as real)
  {
    var m := if i + 1 < w then i + 1 else w;
    assert Tail(s[..i + 1], w) == s[i + 1 - m..i + 1];
  }

  /** A rolling mean stays within the bounds of the series it smooths. */
  lemma RollingBounds(s: seq<real>, w: nat, lo: real, hi: real)
    requires w >= 1
    requires forall i :: 0 <= i < |s| ==> lo <= s[i] <= hi
    ensures forall i :: 0 <= i < |s| ==> lo <= Rolling(s, w)[i] <= hi
  {
    forall i | 0 <= i < |s|
      ensures lo <= Rolling(s, w)[i] <= hi
    {
      var t := Tail(s[..i + 1], w);
      forall j | 0 <= j < |t|
        ensures lo <= t[j] <= hi
      {
        TailIsSuffix(s[..i + 1], w, j);
      }
      MeanBounds(t, lo, hi);
    }
  }

  /** The first rolling value is the first observation itself. */
  lemma RollingFirst(s: seq<real>, w: nat)
    requires w >= 1 && |s| > 0
    ensures Rolling(s, w)[0] == s[0]
  {
    assert Tail(s[..1], w) == [s[0]];
    assert Sum([s[0]]) == Sum([]) + s[0];
  }

  /** pandas `shift(k)`: the value k rows earlier, undefined for the first k rows. */
  function Shift(s: seq<real>, k: nat): (r: seq<Option<real>>)
    ensures |r| == |s|
    ensures forall i :: 0 <= i < |s| ==> (r[i].Some? <==> i >= k)
  {
    seq(|s|, i requires 0 <= i < |s| => if i < k then None else Some(s[i - k]))
  }

  /** pandas `shift(k).fillna(0)`. */
  function ShiftOrZero(s: seq<real>, k: nat): (r: seq<real>)
    ensures |r| == |s|
    ensures forall i :: 0 <= i < |s| ==> r[i] == (if i < k then 0.0 else Shift(s, k)[i].value)
  {
    seq(|s|, i requires 0 <= i < |s| => if i < k then 0.0 else s[i - k])
  }

  /** pandas `pct_change(periods=k).fillna(0)` at position i: the change
      relative to k rows earlier; 0 for the first k rows and for 0 over 0,
      an infinity of the numerator's sign for a nonzero value over 0. */
  function PctAt(s: seq<real>, i: nat, k: nat): Ext
    requires i < |s|
  {
    if i < k then Fin(0.0)
    else if s[i - k] == 0.0 then
      (if s[i] == 0.0 then Fin(0.0) else if s[i] > 0.0 then PosInf else NegInf)
    else Fin((s[i] - s[i - k]) / s[i - k])
  }

  function PctChange(s: seq<real>, k: nat): (r: seq<Ext>)
    requires k >= 1
    ensures |r| == |s|
  {
    seq(|s|, i requires 0 <= i < |s| => PctAt(s, i, k))
  }

  /** A finite percent change over a nonzero base undoes: base * (1 + r) is
      the current value. Infinities arise exactly from a zero base. */
  lemma PctChangeInverse(s: seq<real>, k: nat, i: nat)
    requires k >= 1 && k <= i < |s|
    ensures s[i - k] != 0.0 ==> PctChange(s, k)[i].Fin? &&
                                s[i - k] * (1.0 + PctChange(s, k)[i].value) == s[i]
    ensures !PctChange(s, k)[i].Fin? <==> s[i - k] == 0.0 && s[i] != 0.0
  {
    if s[i - k] != 0.0 {
      var b := s[i - k];
      calc {
        b * (1.0 + (s[i] - b) / b);
        b + b * ((s[i] - b) / b);
        s[i];
      }
    }
  }

  /** Sum of squared deviations from m. */
  function SqDev(s: seq<real>, m: real): real
  {
    if |s| == 0 then 0.0 else SqDev(s[..|s| - 1], m) + (s[|s| - 1] - m) * (s[|s| - 1] - m)
  }

  lemma MulNonnegative(a: real, b: real)
    requires a >= 0.0 && b >= 0.0
    ensures a * b >= 0.0
  {
  }

  lemma MulPositive(a: real, b: real)
    requires a > 0.0 && b > 0.0
    ensures a * b > 0.0
  {
  }

  /** A square is nonnegative, and positive away from zero. */
  lemma Square(d: real)
    ensures d * d >= 0.0
    ensures d != 0.0 ==> d * d > 0.0
  {
    if d > 0.0 {
      MulPositive(d, d);
    } else if d < 0.0 {
      MulPositive(-d, -d);
      assert (-d) * (-d) == d * d;
    }
  }

  lemma {:induction false} SqDevNonnegative(s: seq<real>, m: real)
    ensures SqDev(s, m) >= 0.0
  {
    if |s| > 0 {
      SqDevNonnegative(s[..|s| - 1], m);
      Square(s[|s| - 1] - m);
    }
  }

  lemma NegSquare(d: real)
    ensures (-d) * (-d) == d * d
  {
  }

  /** One element away from `m` keeps the sum of squared deviations off zero. */
  lemma {:induction false} SqDevNonzero(s: seq<real>, m: real, i: int)
    requires 0 <= i < |s| && s[i] != m
    ensures SqDev(s, m) != 0.0
  {
    var init := s[..|s| - 1];
    var d := s[|s| - 1] - m;
    SqDevNonnegative(init, m);
    Square(d);
    if i < |s| - 1 {
      assert init[i] == s[i];
      SqDevNonzero(init, m, i);
    } else if d > 0.0 {
      SquareMonotone(0.0, d);
    } else {
      SquareMonotone(0.0, -d);
      NegSquare(d);
    }
  }

  lemma {:induction false} SqDevZeroIff(s: seq<real>, m: real)
    ensures SqDev(s, m) == 0.0 <==> forall i :: 0 <= i < |s| ==> s[i] == m
  {
    if forall i :: 0 <= i < |s| ==> s[i] == m {
      if |s| > 0 {
        var init := s[..|s| - 1];
        assert forall i :: 0 <= i < |init| ==> init[i] == m;
        SqDevZeroIff(init, m);
      }
    } else {
      var i :| 0 <= i < |s| && s[i] != m;
      SqDevNonzero(s, m, i);
    }
  }

  /** pandas `Series.std() ** 2` (divisor n - 1). */
  function SampleVariance(s: seq<real>): real
    requires |s| >= 2
  {
    SqDev(s, Mean(s)) / ((|s| - 1) as real)
  }

  /** numpy `np.std(x) ** 2` (divisor n). */
  function PopulationVariance(s: seq<real>): real
    requires |s| >= 1
  {
    SqDev(s, Mean(s)) / (|s| as real)
  }

  predicate Constant(s: seq<real>)
  {
    forall i :: 0 <= i < |s| ==> s[i] == s[0]
  }

  /** Variances are never negative. */
  lemma VariancesNonnegative(s: seq<real>)
    requires |s| >= 1
    ensures PopulationVariance(s) >= 0.0
    ensures |s| >= 2 ==> SampleVariance(s) >= 0.0
  {
    SqDevNonnegative(s, Mean(s));
  }

  /** A variance is zero exactly when every value is the same. */
  lemma VarianceZeroIffConstant(s: seq<real>)
    requires |s| >= 1
    ensures PopulationVariance(s) == 0.0 <==> Constant(s)
    ensures |s| >= 2 ==> (SampleVariance(s) == 0.0 <==> Constant(s))
  {
    SqDevZeroIff(s, Mean(s));
    if Constant(s) {
      MeanConstant(s, s[0]);
    }
  }

  /** Decides |d| / sigma > t for the sigma whose square is `variance`,
      without a square root. */
  predicate ExceedsSigmas(d: real, variance: real, t: real)
  {
    if t < 0.0 then true else d * d > t * t * variance
  }

  lemma SquareMonotone(a: real, b: real)
    requires a >= 0.0 && b >= 0.0
    ensures a < b ==> a * a < b * b
    ensures b <= a ==> b * b <= a * a
  {
    if a < b {
      MulNonnegative(a, b - a);
      MulPositive(b, b - a);
      assert a * (b - a) == a * b - a * a;
      assert b * (b - a) == b * b - a * b;
    } else {
      MulNonnegative(b, a - b);
      MulNonnegative(a, a - b);
      assert b * (a - b) == a * b - b * b;
      assert a * (a - b) == a * a - a * b;
    }
  }

  /** ExceedsSigmas is the z-score test |d| / sigma > t for every sigma > 0. */
  lemma ExceedsSigmasIsZTest(d: real, variance: real, t: real, sigma: real)
    requires sigma > 0.0 && sigma * sigma == variance
    ensures ExceedsSigmas(d, variance, t) <==> Abs(d) / sigma > t
  {
    assert Abs(d) / sigma > t <==> Abs(d) > t * sigma;
    if t >= 0.0 {
      SquareMonotone(t * sigma, Abs(d));
      assert Abs(d) * Abs(d) == d * d;
      assert (t * sigma) * (t * sigma) == t * t * variance;
    } else {
      assert t * sigma < 0.0;
    }
  }

  /** First differences, pandas `diff()` without its leading NaN. */
  function Diffs(s: seq<real>): (r: seq<real>)
    ensures |r| == (if |s| == 0 then 0 else |s| - 1)
  {
    if |s| <= 1 then [] else seq(|s| - 1, i requires 0 <= i < |s| - 1 => s[i + 1] - s[i])
  }

  /** The differences telescope to last minus first. */
  lemma {:induction false} SumDiffs(s: seq<real>)
    requires |s| >= 1
    ensures Sum(Diffs(s)) == s[|s| - 1] - s[0]
  {
    if |s| >= 2 {
      var init := s[..|s| - 1];
      if |s| == 2 {
        assert Diffs(s) == [] + [s[1] - s[0]];
      } else {
        assert Diffs(s) == Diffs(init) + [s[|s| - 1] - s[|s| - 2]];
        SumDiffs(init);
      }
      SumAppend(Diffs(init), s[|s| - 1] - s[|s| - 2]);
    }
  }
}
