/** Calendar days as integer ordinals. Day 0 is a Monday, so the weekday of a
    day is its ordinal modulo 7 with Monday = 0 ... Sunday = 6, as pandas
    `dayofweek` and Python `weekday()` number them. Day of month and month
    depend on the Gregorian calendar and are supplied by the caller. */
module Calendar {

  function Weekday(d: int): (w: int)
    ensures 0 <= w < 7
  {
    d % 7
  }

  /** Consecutive days walk through the week. */
  lemma WeekdayNext(d: int)
    ensures Weekday(d + 1) == (Weekday(d) + 1) % 7
  {
  }

  /** A week later is the same weekday. */
  lemma WeekdayPeriodic(d: int, k: int)
    ensures Weekday(d + 7 * k) == Weekday(d)
  {
  }

  /** The three weekend conventions found in the scripts. */
  datatype WeekendRule =
    | FridaySaturday      // `dayofweek.isin([4, 5])`
    | SaturdaySunday      // `dayofweek >= 5`
    | FridayToSunday      // `dayofweek >= 4`

  predicate IsWeekend(rule: WeekendRule, d: int)
  {
    var w := Weekday(d);
    match rule
    case FridaySaturday => w == 4 || w == 5
    case SaturdaySunday => w >= 5
    case FridayToSunday => w >= 4
  }

  /** The `is_weekend` feature as a number: 1 on a weekend day, else 0. */
  function WeekendFlag(rule: WeekendRule, d: int): (f: real)
    ensures f == 1.0 <==> IsWeekend(rule, d)
    ensures f == 0.0 <==> !IsWeekend(rule, d)
  {
    if IsWeekend(rule, d) then 1.0 else 0.0
  }

  /** The wider conventions contain the narrower ones. */
  lemma WeekendRulesNested(d: int)
    ensures IsWeekend(SaturdaySunday, d) ==> IsWeekend(FridayToSunday, d)
    ensures IsWeekend(FridaySaturday, d) ==> IsWeekend(FridayToSunday, d)
    ensures IsWeekend(FridayToSunday, d) <==> IsWeekend(FridaySaturday, d) || IsWeekend(SaturdaySunday, d)
  {
  }

  /** Day of month and month of a day, from the Gregorian calendar. */
  datatype CivilDate = CivilDate(dayOfMonth: int, month: int)

  /** `pd.date_range(start, end, freq='D')`: every day from start to end
      inclusive, one each; empty when end precedes start. */
  function DayRange(start: int, end: int): (r: seq<int>)
    ensures |r| == if end < start then 0 else end - start + 1
    ensures forall i :: 0 <= i < |r| ==> r[i] == start + i
  {
    if end < start then [] else seq(end - start + 1, i => start + i)
  }

  /** A range is contiguous and covers exactly the days between its ends. */
  lemma DayRangeCovers(start: int, end: int, d: int)
    ensures d in DayRange(start, end) <==> start <= d <= end
  {
    var r := DayRange(start, end);
    if start <= d <= end {
      assert r[d - start] == d;
    }
  }

  predicate Consecutive(days: seq<int>)
  {
    forall i :: 0 <= i < |days| - 1 ==> days[i + 1] == days[i] + 1
  }

  lemma DayRangeConsecutive(start: int, end: int)
    ensures Consecutive(DayRange(start, end))
  {
  }

  function MinDay(days: seq<int>): (m: int)
    requires |days| > 0
    ensures m in days && forall i :: 0 <= i < |days| ==> m <= days[i]
  {
    if |days| == 1 then days[0]
    else
      var m := MinDay(days[..|days| - 1]);
      assert forall i :: 0 <= i < |days| - 1 ==> days[..|days| - 1][i] == days[i];
      if days[|days| - 1] < m then days[|days| - 1] else m
  }

  function MaxDay(days: seq<int>): (m: int)
    requires |days| > 0
    ensures m in days && forall i :: 0 <= i < |days| ==> days[i] <= m
  {
    if |days| == 1 then days[0]
    else
      var m := MaxDay(days[..|days| - 1]);
      assert forall i :: 0 <= i < |days| - 1 ==> days[..|days| - 1][i] == days[i];
      if m < days[|days| - 1] then days[|days| - 1] else m
  }

  /** English day names, as pandas `day_name()` returns them. */
  function DayName(w: int): string
    requires 0 <= w < 7
  {
    ["Monday", "Tuesday", "Wednesday", "Thursday", "Friday", "Saturday", "Sunday"][w]
  }

  /** Python string order: by code point, a proper prefix first. */
  predicate StrLess(a: string, b: string)
  {
    |b| > 0 && (|a| == 0 || a[0] < b[0] || (a[0] == b[0] && StrLess(a[1..], b[1..])))
  }

  /** The weekdays in the order of their English names, which is the order a
      pandas groupby on the day name lists its groups. */
  const AlphaOrder: seq<int> := [4, 0, 5, 6, 3, 1, 2]

  lemma AlphaOrderSorted()
    ensures |AlphaOrder| == 7
    ensures forall i :: 0 <= i < 7 ==> 0 <= AlphaOrder[i] < 7
    ensures forall w :: 0 <= w < 7 ==> w in AlphaOrder
    ensures forall i :: 0 <= i < 6 ==> StrLess(DayName(AlphaOrder[i]), DayName(AlphaOrder[i + 1]))
  {
    assert StrLess("Friday", "Monday");
    assert StrLess("Monday", "Saturday");
    assert StrLess("aturday", "unday");
    assert StrLess("Saturday", "Sunday");
    assert StrLess("Sunday", "Thursday");
    assert StrLess("hursday", "uesday");
    assert StrLess("Thursday", "Tuesday");
    assert StrLess("Tuesday", "Wednesday");
    assert AlphaOrder[2] == 5;
    assert AlphaOrder[4] == 3;
  }

  /** A value attached to a day, such as one forecast row. */
  datatype Dated = Dated(day: int, value: real)

  /** The rows of a forecast that starts the day after `last`:
      `pd.date_range(last + 1 day, periods=n)` zipped with the values. */
  function DatedAfter(last: int, values: seq<real>): (r: seq<Dated>)
    ensures |r| == |values|
    ensures forall i :: 0 <= i < |r| ==> r[i].day == last + 1 + i && r[i].value == values[i]
  {
    seq(|values|, i requires 0 <= i < |values| => Dated(last + 1 + i, values[i]))
  }

  function DatedValues(rows: seq<Dated>): (vs: seq<real>)
    ensures |vs| == |rows| && forall i :: 0 <= i < |rows| ==> vs[i] == rows[i].value
  {
    seq(|rows|, i requires 0 <= i < |rows| => rows[i].value)
  }

  /** The rows that pass `keep`, in their order: a boolean mask on a frame. */
  function Select(rows: seq<Dated>, keep: Dated -> bool): (r: seq<Dated>)
    ensures |r| <= |rows|
  {
    if |rows| == 0 then []
    else Select(rows[..|rows| - 1], keep) + (if keep(rows[|rows| - 1]) then [rows[|rows| - 1]] else [])
  }

  /** A row is selected exactly when it is one of the rows and passes the mask. */
  lemma {:induction false} SelectMembers(rows: seq<Dated>, keep: Dated -> bool)
    ensures forall x :: x in Select(rows, keep) <==> x in rows && keep(x)
  {
    if |rows| > 0 {
      var init := rows[..|rows| - 1];
      SelectMembers(init, keep);
      assert rows == init + [rows[|rows| - 1]];
    }
  }

  predicate Increasing(rows: seq<Dated>)
  {
    forall i, j :: 0 <= i < j < |rows| ==> rows[i].day < rows[j].day
  }

  /** A mask keeps the order of the rows. */
  lemma {:induction false} SelectIncreasing(rows: seq<Dated>, keep: Dated -> bool)
    requires Increasing(rows)
    ensures Increasing(Select(rows, keep))
  {
    if |rows| > 0 {
      var init := rows[..|rows| - 1];
      SelectIncreasing(init, keep);
      SelectMembers(init, keep);
      var r := Select(rows, keep);
      var r' := Select(init, keep);
      forall a, b | 0 <= a < b < |r| ensures r[a].day < r[b].day {
        if b == |r'| {
          assert r[a] == r'[a] && r'[a] in init;
        } else {
          assert r[a] == r'[a] && r[b] == r'[b];
        }
      }
    }
  }

  /** The values of the rows whose day passes `keep`. */
  function ValuesWhere(rows: seq<Dated>, keep: int -> bool): seq<real>
  {
    DatedValues(Select(rows, (x: Dated) => keep(x.day)))
  }

  /** Some value is selected exactly when some row's day passes. */
  lemma ValuesWhereNonempty(rows: seq<Dated>, keep: int -> bool)
    ensures |ValuesWhere(rows, keep)| > 0 <==> exists i :: 0 <= i < |rows| && keep(rows[i].day)
  {
    var sel := (x: Dated) => keep(x.day);
    SelectMembers(rows, sel);
    var r := Select(rows, sel);
    if |r| > 0 {
      assert r[0] in r;
    }
    if exists i :: 0 <= i < |rows| && keep(rows[i].day) {
      var i :| 0 <= i < |rows| && keep(rows[i].day);
      assert rows[i] in rows;
    }
  }

  /** The days the rows fall on. */
  function DaysOf(rows: seq<Dated>): set<int>
  {
    set i | 0 <= i < |rows| :: rows[i].day
  }

  lemma DaysCons(x: Dated, t: seq<Dated>)
    ensures DaysOf([x] + t) == {x.day} + DaysOf(t)
  {
    var s := [x] + t;
    forall d | d in DaysOf(s) ensures d in {x.day} + DaysOf(t) {
      var i :| 0 <= i < |s| && s[i].day == d;
      if i > 0 {
        assert t[i - 1].day == d;
      }
    }
    forall d | d in DaysOf(t) ensures d in DaysOf(s) {
      var i :| 0 <= i < |t| && t[i].day == d;
      assert s[i + 1].day == d;
    }
    assert s[0].day == x.day;
  }

  lemma DaysSnoc(t: seq<Dated>, x: Dated)
    ensures DaysOf(t + [x]) == DaysOf(t) + {x.day}
  {
    var s := t + [x];
    forall d | d in DaysOf(s) ensures d in DaysOf(t) + {x.day} {
      var i :| 0 <= i < |s| && s[i].day == d;
      if i < |t| {
        assert t[i].day == d;
      }
    }
    forall d | d in DaysOf(t) ensures d in DaysOf(s) {
      var i :| 0 <= i < |t| && t[i].day == d;
      assert s[i].day == d;
    }
    assert s[|t|].day == x.day;
  }

  /** The sum of the values of the rows on day d: a `groupby(day).sum()` read
      at d, and 0 for a day without rows. */
  function SumOnDay(rows: seq<Dated>, d: int): real
  {
    if |rows| == 0 then 0.0
    else SumOnDay(rows[..|rows| - 1], d) + (if rows[|rows| - 1].day == d then rows[|rows| - 1].value else 0.0)
  }
}
