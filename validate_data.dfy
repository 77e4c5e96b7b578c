/** The machine-learning readiness audit of the daily dataset: missing cells,
    the share of days without sales, the constant features, the continuity
    of the dates and the closing verdict. */
module ValidateData {
  import opened Wrappers
  import opened Stats
  import opened Calendar

  /** A numeric column of the dataset: its name and its cells, None where a
      cell is empty. */
  datatype NumericColumn = NumericColumn(name: string, cells: seq<Option<real>>)

  /** The dataset as read back: the parsed day of each row and its numeric
      columns. */
  datatype Dataset = Dataset(days: seq<int>, columns: seq<NumericColumn>)

  /** Every column has one cell per row. */
  predicate WellFormed(d: Dataset)
  {
    forall j :: 0 <= j < |d.columns| ==> |d.columns[j].cells| == |d.days|
  }

  // --------------------------------------------------------- missing cells

  function CountMissing(cells: seq<Option<real>>): nat
  {
    if |cells| == 0 then 0
    else CountMissing(cells[..|cells| - 1]) + (if cells[|cells| - 1].None? then 1 else 0)
  }

  /** `df.isnull().sum().sum()`: the empty cells of all columns. */
  function MissingCount(cols: seq<NumericColumn>): nat
  {
    if |cols| == 0 then 0 else MissingCount(cols[..|cols| - 1]) + CountMissing(cols[|cols| - 1].cells)
  }

  lemma {:induction false} CountMissingZero(cells: seq<Option<real>>)
    ensures CountMissing(cells) == 0 <==> forall i :: 0 <= i < |cells| ==> cells[i].Some?
  {
    if |cells| > 0 {
      var init := cells[..|cells| - 1];
      CountMissingZero(init);
      assert forall i :: 0 <= i < |init| ==> init[i] == cells[i];
    }
  }

  /** The audit finds no missing value exactly when every cell is filled. */
  lemma {:induction false} MissingZeroIff(cols: seq<NumericColumn>)
    ensures MissingCount(cols) == 0 <==>
            forall j, i :: 0 <= j < |cols| && 0 <= i < |cols[j].cells| ==> cols[j].cells[i].Some?
  {
    if |cols| > 0 {
      var init := cols[..|cols| - 1];
      MissingZeroIff(init);
      CountMissingZero(cols[|cols| - 1].cells);
      assert forall j :: 0 <= j < |init| ==> init[j] == cols[j];
    }
  }

  // ------------------------------------------------------- zero-sale days

  /** The rows whose sales equal 0; an empty cell is not equal to 0. */
  function ZeroDays(cells: seq<Option<real>>): (n: nat)
    ensures n <= |cells|
  {
    if |cells| == 0 then 0
    else ZeroDays(cells[..|cells| - 1]) + (if cells[|cells| - 1] == Some(0.0) then 1 else 0)
  }

  function PercentZeros(zeros: nat, rows: nat): real
    requires rows > 0
  {
    (zeros as real) / (rows as real) * 100.0
  }

  /** The percentage lies between 0 and 100; it is above 50 exactly when
      more than half the rows have no sales, and above 70 exactly when more
      than seven in ten have none. */
  lemma PercentZerosBounds(zeros: nat, rows: nat)
    requires rows > 0 && zeros <= rows
    ensures 0.0 <= PercentZeros(zeros, rows) <= 100.0
    ensures PercentZeros(zeros, rows) > 50.0 <==> 2 * zeros > rows
    ensures PercentZeros(zeros, rows) > 70.0 <==> 10 * zeros > 7 * rows
  {
    var z := zeros as real;
    var n := rows as real;
    var q := z / n;
    assert q * n == z;
    assert PercentZeros(zeros, rows) == q * 100.0;
    Ratio(q, n, z, 0.0);
    Ratio(q, n, z, 1.0);
    Ratio(q, n, z, 0.5);
    Ratio(q, n, z, 0.7);
    assert (2 * zeros) as real == 2.0 * z && (10 * zeros) as real == 10.0 * z && (7 * rows) as real == 7.0 * n;
  }

  /** For n > 0 and q * n == z, q compares with c as z compares with c * n. */
  lemma Ratio(q: real, n: real, z: real, c: real)
    requires n > 0.0 && q * n == z
    ensures q <= c <==> z <= c * n
    ensures q > c <==> z > c * n
  {
    Scale(q, n, c);
  }

  /** For n > 0, p compares with c as p * n compares with c * n. */
  lemma Scale(p: real, n: real, c: real)
    requires n > 0.0
    ensures p <= c <==> p * n <= c * n
    ensures p > c <==> p * n > c * n
  {
    if p <= c {
      MulNonnegative(c - p, n);
    } else {
      MulPositive(p - c, n);
    }
  }

  // ----------------------------------------------------- constant features

  /** The filled cells of a column, in order: what pandas' `std` reads. */
  function Present(cells: seq<Option<real>>): (xs: seq<real>)
    ensures |xs| + CountMissing(cells) == |cells|
  {
    if |cells| == 0 then []
    else
      var c := cells[|cells| - 1];
      Present(cells[..|cells| - 1]) + (if c.Some? then [c.value] else [])
  }

  lemma {:induction false} PresentMembers(cells: seq<Option<real>>)
    ensures forall x :: x in Present(cells) <==> Some(x) in cells
  {
    if |cells| > 0 {
      var init := cells[..|cells| - 1];
      PresentMembers(init);
      assert cells == init + [cells[|cells| - 1]];
    }
  }

  lemma {:induction false} PresentHas(cells: seq<Option<real>>, i: int)
    requires 0 <= i < |cells| && cells[i].Some?
    ensures cells[i].value in Present(cells)
  {
    var init := cells[..|cells| - 1];
    if i < |cells| - 1 {
      assert init[i] == cells[i];
      PresentHas(init, i);
    }
  }

  /** `df[col].std() == 0`: over fewer than two filled cells the standard
      deviation is NaN, which is not 0. */
  predicate ZeroStd(cells: seq<Option<real>>)
  {
    var xs := Present(cells);
    |xs| >= 2 && SampleVariance(xs) == 0.0
  }

  /** All filled cells of a column hold the same value. */
  predicate SameFilled(cells: seq<Option<real>>)
  {
    forall i, j :: 0 <= i < |cells| && 0 <= j < |cells| && cells[i].Some? && cells[j].Some? ==>
                   cells[i] == cells[j]
  }

  lemma ConstantPresent(cells: seq<Option<real>>)
    ensures Constant(Present(cells)) <==> SameFilled(cells)
  {
    var xs := Present(cells);
    PresentMembers(cells);
    if Constant(xs) {
      forall i, j | 0 <= i < |cells| && 0 <= j < |cells| && cells[i].Some? && cells[j].Some?
        ensures cells[i] == cells[j]
      {
        PresentHas(cells, i);
        PresentHas(cells, j);
        var k :| 0 <= k < |xs| && xs[k] == cells[i].value;
        var l :| 0 <= l < |xs| && xs[l] == cells[j].value;
        assert xs[k] == xs[0] == xs[l];
      }
    }
    if SameFilled(cells) {
      forall k | 0 <= k < |xs| ensures xs[k] == xs[0] {
        assert Some(xs[k]) in cells && Some(xs[0]) in cells;
      }
    }
  }

  /** A column has zero deviation exactly when it has at least two filled
      cells and all filled cells hold the same value. */
  lemma ZeroStdIff(cells: seq<Option<real>>)
    ensures ZeroStd(cells) <==> |cells| - CountMissing(cells) >= 2 && SameFilled(cells)
  {
    var xs := Present(cells);
    ConstantPresent(cells);
    if |xs| >= 2 {
      VarianceZeroIffConstant(xs);
    }
  }

  /** The names of the constant columns, in column order. */
  function ConstantColumns(cols: seq<NumericColumn>): seq<string>
  {
    if |cols| == 0 then []
    else
      var c := cols[|cols| - 1];
      ConstantColumns(cols[..|cols| - 1]) + (if ZeroStd(c.cells) then [c.name] else [])
  }

  /** The `low_variance` loop. */
  method LowVariance(cols: seq<NumericColumn>) returns (names: seq<string>)
    ensures names == ConstantColumns(cols)
  {
    names := [];
    for k := 0 to |cols|
      invariant names == ConstantColumns(cols[..k])
    {
      assert cols[..k + 1][..k] == cols[..k];
      var xs := Present(cols[k].cells);
      if |xs| >= 2 && SampleVariance(xs) == 0.0 {
        names := names + [cols[k].name];
      }
    }
    assert cols[..|cols|] == cols;
  }

  /** A name is reported exactly when some column of that name is constant. */
  lemma {:induction false} ConstantColumnsSpec(cols: seq<NumericColumn>)
    ensures |ConstantColumns(cols)| <= |cols|
    ensures forall n :: n in ConstantColumns(cols) <==>
              exists j :: 0 <= j < |cols| && cols[j].name == n && ZeroStd(cols[j].cells)
  {
    if |cols| > 0 {
      var init := cols[..|cols| - 1];
      ConstantColumnsSpec(init);
      forall n | n in ConstantColumns(cols)
        ensures exists j :: 0 <= j < |cols| && cols[j].name == n && ZeroStd(cols[j].cells)
      {
        if n in ConstantColumns(init) {
          var j :| 0 <= j < |init| && init[j].name == n && ZeroStd(init[j].cells);
          assert cols[j] == init[j];
        }
      }
      forall n | exists j :: 0 <= j < |cols| && cols[j].name == n && ZeroStd(cols[j].cells)
        ensures n in ConstantColumns(cols)
      {
        var j :| 0 <= j < |cols| && cols[j].name == n && ZeroStd(cols[j].cells);
        if j < |init| {
          assert init[j] == cols[j];
        }
      }
    }
  }

  // ------------------------------------------------------------ continuity

  function DaySet(days: seq<int>): set<int>
  {
    set i | 0 <= i < |days| :: days[i]
  }

  /** The length of `pd.date_range(min, max)`. */
  function ExpectedDays(days: seq<int>): nat
    requires |days| > 0
  {
    |DayRange(MinDay(days), MaxDay(days))|
  }

  /** The script's test: the calendar span has as many days as there are
      rows. */
  predicate ReportsContinuous(days: seq<int>)
    requires |days| > 0
  {
    ExpectedDays(days) == |days|
  }

  /** A repeated day hides a gap: two rows on day 0 and one on day 2 pass the
      test though day 1 is missing. */
  lemma DuplicateHidesGap()
    ensures ReportsContinuous([0, 0, 2]) && 1 !in [0, 0, 2]
  {
    assert MinDay([0, 0, 2]) == 0;
    assert MaxDay([0, 0, 2]) == 2;
  }

  /** A repeated day also makes a gap-free series fail the test. */
  lemma DuplicateFakesGap()
    ensures !ReportsContinuous([0, 0, 1]) && forall d :: 0 <= d <= 1 ==> d in [0, 0, 1]
  {
    assert MinDay([0, 0, 1]) == 0;
    assert MaxDay([0, 0, 1]) == 1;
    assert [0, 0, 1][2] == 1;
  }

  /** The intended test: the calendar span has as many days as there are
      distinct days. */
  predicate Continuous(days: seq<int>)
    requires |days| > 0
  {
    ExpectedDays(days) == |DaySet(days)|
  }

  /** The intended test holds exactly when no day between the first and the
      last is missing. */
  lemma ContinuousIff(days: seq<int>)
    requires |days| > 0
    ensures Continuous(days) <==> forall d :: MinDay(days) <= d <= MaxDay(days) ==> d in days
  {
    var lo := MinDay(days);
    var hi := MaxDay(days);
    var r := DayRange(lo, hi);
    var s := DaySet(days);
    DistinctDaySet(r);
    InsideSpan(days);
    if forall d :: lo <= d <= hi ==> d in days {
      forall x | x in DaySet(r) ensures x in s {
        var k :| 0 <= k < |r| && r[k] == x;
        assert lo <= x <= hi;
        assert x in days;
        var i :| 0 <= i < |days| && days[i] == x;
      }
      assert s == DaySet(r);
    } else {
      var d :| lo <= d <= hi && d !in days;
      assert d in DaySet(r) by { assert r[d - lo] == d; }
      assert s <= DaySet(r) - {d};
      SubsetSize(s, DaySet(r) - {d});
      assert |DaySet(r) - {d}| == |DaySet(r)| - 1;
    }
  }

  lemma SubsetSize(a: set<int>, b: set<int>)
    requires a <= b
    ensures |a| <= |b|
  {
    assert b == a + (b - a);
  }

  lemma InsideSpan(days: seq<int>)
    requires |days| > 0
    ensures DaySet(days) <= DaySet(DayRange(MinDay(days), MaxDay(days)))
  {
    var lo := MinDay(days);
    var r := DayRange(lo, MaxDay(days));
    forall i | 0 <= i < |days| ensures days[i] in DaySet(r) {
      assert r[days[i] - lo] == days[i];
    }
  }

  /** On rows with distinct days, as the pipelines write them, the script's
      test is the intended one. */
  lemma {:induction false} ContinuityAgrees(days: seq<int>)
    requires |days| > 0
    requires forall i, j :: 0 <= i < j < |days| ==> days[i] != days[j]
    ensures ReportsContinuous(days) <==> Continuous(days)
  {
    DistinctDaySet(days);
  }

  lemma {:induction false} DistinctDaySet(days: seq<int>)
    requires forall i, j :: 0 <= i < j < |days| ==> days[i] != days[j]
    ensures |DaySet(days)| == |days|
  {
    if |days| > 0 {
      var init := days[..|days| - 1];
      DistinctDaySet(init);
      assert DaySet(days) == DaySet(init) + {days[|days| - 1]};
      assert days[|days| - 1] !in DaySet(init);
    }
  }

  // ---------------------------------------------------------------- verdict

  datatype Verdict = NotReady | Warning | Ready

  /** The recommendation: not ready above 70% zero-sale days, else a warning
      under 30 rows, else ready. */
  function VerdictOf(percentZeros: real, rows: nat): (v: Verdict)
    ensures v == NotReady <==> percentZeros > 70.0
    ensures v == Warning <==> percentZeros <= 70.0 && rows < 30
    ensures v == Ready <==> percentZeros <= 70.0 && rows >= 30
  {
    if percentZeros > 70.0 then NotReady else if rows < 30 then Warning else Ready
  }

  /** The findings of one audit. */
  datatype Audit = Audit(missing: nat, zeroDays: nat, percentZeros: real, sparse: bool,
                         constant: seq<string>, continuous: bool, verdict: Verdict)

  /** The `total_sales` column, the first of that name. */
  function SalesColumn(cols: seq<NumericColumn>): (r: Option<seq<Option<real>>>)
    ensures r.None? <==> forall j :: 0 <= j < |cols| ==> cols[j].name != "total_sales"
    ensures r.Some? ==> exists j :: 0 <= j < |cols| && cols[j].name == "total_sales" && cols[j].cells == r.value
  {
    if |cols| == 0 then None
    else if cols[0].name == "total_sales" then Some(cols[0].cells)
    else
      var r := SalesColumn(cols[1..]);
      assert forall j :: 0 <= j < |cols| - 1 ==> cols[1..][j] == cols[j + 1];
      r
  }

  /** `check_ml_readiness`: a failure without a `total_sales` column (a
      missing key) or without rows (the date range of an empty frame);
      otherwise the audit, with the zero-sale percentage, the sparse warning
      above 50%, the constant columns, the continuity of the dates and the
      verdict. The continuity is the corrected test, which on distinct days
      is the script's own. */
  method CheckMlReadiness(d: Dataset) returns (r: Result<Audit, string>)
    requires WellFormed(d)
    ensures r.Failure? <==> SalesColumn(d.columns).None? || |d.days| == 0
    ensures r.Success? ==>
              var sales := SalesColumn(d.columns).value;
              var zeros := ZeroDays(sales);
              var pct := PercentZeros(zeros, |sales|);
              |sales| == |d.days| &&
              r.value == Audit(MissingCount(d.columns), zeros, pct, pct > 50.0, ConstantColumns(d.columns),
                               Continuous(d.days), VerdictOf(pct, |d.days|))
    ensures r.Success? && (forall i, j :: 0 <= i < j < |d.days| ==> d.days[i] != d.days[j]) ==>
              r.value.continuous == ReportsContinuous(d.days)
  {
    var missing := MissingCount(d.columns);
    var salesColumn := SalesColumn(d.columns);
    if salesColumn.None? {
      return Failure("KeyError: total_sales");
    }
    var sales := salesColumn.value;
    if |d.days| == 0 {
      return Failure("the date range of an empty frame");
    }
    var zeros := ZeroDays(sales);
    var pct := PercentZeros(zeros, |sales|);
    var constant := LowVariance(d.columns);
    var continuous := ExpectedDays(d.days) == |DaySet(d.days)|;
    if forall i, j :: 0 <= i < j < |d.days| ==> d.days[i] != d.days[j] {
      ContinuityAgrees(d.days);
    }
    var verdict := if pct > 70.0 then NotReady else if |d.days| < 30 then Warning else Ready;
    r := Success(Audit(missing, zeros, pct, pct > 50.0, constant, continuous, verdict));
  }
}
