/**
 * The dashboard: the total-volume-per-date series behind the progress chart
 * (group by date, sum the volumes, dates ascending) and the table of the five
 * most recent entries; both are shown only when the log is not empty.
 */
module Progress {
  import opened WorkoutLog
  import opened DateOrder

  /** One row of the chart series: a date and the total volume trained on it. */
  datatype DayTotal = DayTotal(date: Day, volume: real)

  /** How many entries the recent-entries table shows at most. */
  const RecentCount: nat := 5

  /** The distinct dates of a log. */
  function LogDates(log: seq<Entry>): set<Day>
  {
    if log == [] then {} else {log[0].date} + LogDates(log[1..])
  }

  /** The dates a series has rows for. */
  function RowDates(rows: seq<DayTotal>): set<Day>
  {
    if rows == [] then {} else {rows[0].date} + RowDates(rows[1..])
  }

  /** Rows come in strictly ascending date order, so no date has two rows. */
  predicate StrictlyAscending(rows: seq<DayTotal>)
  {
    forall i, j :: 0 <= i < j < |rows| ==> rows[i].date < rows[j].date
  }

  /** The summed volume of the entries dated d (the reference for a row's value). */
  function DayVolume(log: seq<Entry>, d: Day): real
  {
    if log == [] then 0.0
    else (if log[0].date == d then Volume(log[0]) else 0.0) + DayVolume(log[1..], d)
  }

  /** The value a series shows for date d: the first row dated d, or 0 if there is none. */
  function RowVolume(rows: seq<DayTotal>, d: Day): real
  {
    if rows == [] then 0.0
    else if rows[0].date == d then rows[0].volume
    else RowVolume(rows[1..], d)
  }

  /** The sum of the values of a series. */
  function SeriesTotal(rows: seq<DayTotal>): real
  {
    if rows == [] then 0.0 else rows[0].volume + SeriesTotal(rows[1..])
  }

  /**
   * Adds volume v to date d in an ascending series: into d's row if there is
   * one, otherwise as a new row at d's place in the order.
   */
  function AddToDay(rows: seq<DayTotal>, d: Day, v: real): (r: seq<DayTotal>)
    requires StrictlyAscending(rows)
    ensures StrictlyAscending(r)
    ensures RowDates(r) == RowDates(rows) + {d}
    ensures r[0].date == d || (rows != [] && r[0].date == rows[0].date)
  {
    if rows == [] then [DayTotal(d, v)]
    else if d < rows[0].date then
      var r := [DayTotal(d, v)] + rows;
      assert r[1..] == rows;
      r
    else if d == rows[0].date then
      var r := [DayTotal(d, rows[0].volume + v)] + rows[1..];
      assert r[1..] == rows[1..];
      r
    else
      var rest := AddToDay(rows[1..], d, v);
      var r := [rows[0]] + rest;
      assert r[1..] == rest;
      r
  }

  /**
   * The chart series: one row per distinct date of the log, in ascending date
   * order (grouping sorts its keys).
   */
  function DailyVolume(log: seq<Entry>): (r: seq<DayTotal>)
    ensures StrictlyAscending(r)
    ensures RowDates(r) == LogDates(log)
  {
    if log == [] then []
    else
      assert log == [log[0]] + log[1..];
      AddToDay(DailyVolume(log[1..]), log[0].date, Volume(log[0]))
  }

  /** Adding v to date d raises d's value by v and leaves every other date's value alone. */
  lemma {:induction false} AddToDayVolume(rows: seq<DayTotal>, d: Day, v: real, x: Day)
    requires StrictlyAscending(rows)
    ensures RowVolume(AddToDay(rows, d, v), x) == RowVolume(rows, x) + (if x == d then v else 0.0)
  {
    if rows == [] {
    } else if d < rows[0].date {
      assert AddToDay(rows, d, v)[1..] == rows;
      EarlierDateAbsent(rows, d);
      AbsentDateVolume(rows, d);
    } else if d == rows[0].date {
      assert AddToDay(rows, d, v)[1..] == rows[1..];
    } else {
      assert AddToDay(rows, d, v)[1..] == AddToDay(rows[1..], d, v);
      AddToDayVolume(rows[1..], d, v, x);
    }
  }

  /** Adding v to some date raises the series total by v. */
  lemma {:induction false} AddToDayTotal(rows: seq<DayTotal>, d: Day, v: real)
    requires StrictlyAscending(rows)
    ensures SeriesTotal(AddToDay(rows, d, v)) == SeriesTotal(rows) + v
  {
    if rows == [] {
    } else if d < rows[0].date {
      assert AddToDay(rows, d, v)[1..] == rows;
    } else if d == rows[0].date {
      assert AddToDay(rows, d, v)[1..] == rows[1..];
    } else {
      assert AddToDay(rows, d, v)[1..] == AddToDay(rows[1..], d, v);
      AddToDayTotal(rows[1..], d, v);
    }
  }

  /** In a series without repeated dates, each row's value is the value shown for its date. */
  lemma {:induction false} RowVolumeAt(rows: seq<DayTotal>, i: nat)
    requires StrictlyAscending(rows)
    requires i < |rows|
    ensures RowVolume(rows, rows[i].date) == rows[i].volume
  {
    if i > 0 {
      RowVolumeAt(rows[1..], i - 1);
    }
  }

  /** For every date, the series shows the summed volume of the entries with that date. */
  lemma {:induction false} DailyVolumePerDate(log: seq<Entry>, d: Day)
    ensures RowVolume(DailyVolume(log), d) == DayVolume(log, d)
  {
    if log != [] {
      DailyVolumePerDate(log[1..], d);
      AddToDayVolume(DailyVolume(log[1..]), log[0].date, Volume(log[0]), d);
    }
  }

  /** Each row's value is the sum of weight times reps over the entries with the row's date. */
  lemma DailyVolumeRows(log: seq<Entry>)
    ensures forall i :: 0 <= i < |DailyVolume(log)| ==>
      DailyVolume(log)[i].volume == DayVolume(log, DailyVolume(log)[i].date)
  {
    var r := DailyVolume(log);
    forall i | 0 <= i < |r|
      ensures r[i].volume == DayVolume(log, r[i].date)
    {
      RowVolumeAt(r, i);
      DailyVolumePerDate(log, r[i].date);
    }
  }

  /** The row values add up to the log's total volume. */
  lemma {:induction false} DailyVolumeTotal(log: seq<Entry>)
    ensures SeriesTotal(DailyVolume(log)) == TotalVolume(log)
  {
    if log != [] {
      DailyVolumeTotal(log[1..]);
      AddToDayTotal(DailyVolume(log[1..]), log[0].date, Volume(log[0]));
    }
  }

  /** A series without repeated dates has as many rows as it has dates. */
  lemma {:induction false} AscendingRowCount(rows: seq<DayTotal>)
    requires StrictlyAscending(rows)
    ensures |RowDates(rows)| == |rows|
  {
    if rows != [] {
      AscendingRowCount(rows[1..]);
      EarlierDateAbsent(rows[1..], rows[0].date);
    }
  }

  /** A date earlier than every row of a series has no row in it. */
  lemma {:induction false} EarlierDateAbsent(rows: seq<DayTotal>, d: Day)
    requires forall i :: 0 <= i < |rows| ==> d < rows[i].date
    ensures d !in RowDates(rows)
  {
    if rows != [] {
      EarlierDateAbsent(rows[1..], d);
    }
  }

  /** A date a series has no row for shows the value 0. */
  lemma {:induction false} AbsentDateVolume(rows: seq<DayTotal>, d: Day)
    requires d !in RowDates(rows)
    ensures RowVolume(rows, d) == 0.0
  {
    if rows != [] {
      AbsentDateVolume(rows[1..], d);
    }
  }

  /** The series has exactly as many rows as the log has distinct dates. */
  lemma DailyVolumeRowCount(log: seq<Entry>)
    ensures |DailyVolume(log)| == |LogDates(log)|
  {
    AscendingRowCount(DailyVolume(log));
  }

  /** With non-negative entries, no date shows a negative volume. */
  lemma {:induction false} DayVolumeNonNegative(log: seq<Entry>, d: Day)
    requires AllNonNegative(log)
    ensures DayVolume(log, d) >= 0.0
  {
    if log != [] {
      DayVolumeNonNegative(log[1..], d);
    }
  }

  function Min(a: nat, b: nat): nat
  {
    if a <= b then a else b
  }

  /**
   * The recent-entries table: the entries sorted by date descending, first five.
   * It holds min(5, |log|) of the log's entries, newest first, and no entry
   * left out is dated later than an entry shown.
   */
  function Recent(log: seq<Entry>): (r: seq<Entry>)
    ensures |r| == Min(RecentCount, |log|)
    ensures SortedDesc(r)
    ensures multiset(r) <= multiset(log)
  {
    var s := SortByDateDesc(log);
    var n := Min(RecentCount, |log|);
    assert s == s[..n] + s[n..];
    s[..n]
  }

  /** No entry the recent table leaves out is dated later than an entry it shows. */
  lemma RecentAreNewest(log: seq<Entry>)
    ensures forall x, e :: x in Recent(log) && e in multiset(log) - multiset(Recent(log)) ==> e.date <= x.date
  {
    RecentBound(SortByDateDesc(log), Min(RecentCount, |log|));
  }

  /** Cutting a date-descending sequence after n entries keeps the n newest. */
  lemma RecentBound(s: seq<Entry>, n: nat)
    requires SortedDesc(s)
    requires n <= |s|
    ensures forall x, e :: x in s[..n] && e in multiset(s) - multiset(s[..n]) ==> e.date <= x.date
  {
    assert s == s[..n] + s[n..];
    assert multiset(s) - multiset(s[..n]) == multiset(s[n..]);
    forall x, e | x in s[..n] && e in multiset(s) - multiset(s[..n])
      ensures e.date <= x.date
    {
      assert e in s[n..];
      var i :| 0 <= i < n && s[..n][i] == x;
      var k :| 0 <= k < |s| - n && s[n..][k] == e;
      assert s[i] == x && s[n + k] == e;
    }
  }

  /** What the dashboard shows: a notice for an empty log, otherwise the chart series and the recent table. */
  datatype DashboardView = NoData | Overview(chart: seq<DayTotal>, recent: seq<Entry>)

  /** The dashboard shows data exactly when the log is not empty; then chart and table are not empty either. */
  function Dashboard(log: seq<Entry>): (v: DashboardView)
    ensures v.NoData? <==> log == []
    ensures v.Overview? ==> v.chart == DailyVolume(log) && v.recent == Recent(log)
    ensures v.Overview? ==> |v.chart| >= 1 && 1 <= |v.recent| <= RecentCount
  {
    if log == [] then NoData
    else
      assert log[0].date in LogDates(log);
      Overview(DailyVolume(log), Recent(log))
  }
}
