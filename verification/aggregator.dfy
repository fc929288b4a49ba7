/**
 * Read-only views over the saved records: the weekly summary, the cost
 * projections, the summary statistics and the ten most recent records
 * (p2.py, the Weekly View, Analytics and Records tabs).
 */
module Aggregator {
  import opened Wrappers
  import opened Series
  import opened Records

  /** The weekday names in the order the weekly summary lists them. */
  const DaysOrder: seq<string> :=
    ["Monday", "Tuesday", "Wednesday", "Thursday", "Friday", "Saturday", "Sunday"]

  /** The daily totals of all records, oldest first. */
  function Totals(rs: seq<Record>): (ts: seq<real>)
    ensures |ts| == |rs|
    ensures forall i :: 0 <= i < |rs| ==> ts[i] == rs[i].totalEnergy
  {
    seq(|rs|, i requires 0 <= i < |rs| => rs[i].totalEnergy)
  }

  // ---------------------------------------------------------------------
  // Weekly summary

  /** The totals of the records saved for day `d`, oldest first. */
  function TotalsOn(rs: seq<Record>, d: string): seq<real>
  {
    if rs == [] then []
    else
      var last := rs[|rs| - 1];
      TotalsOn(rs[..|rs| - 1], d) + (if last.day == d then [last.totalEnergy] else [])
  }

  /** Extending the list by one record extends only that record's day. */
  lemma TotalsOnExtend(rs: seq<Record>, i: nat)
    requires i < |rs|
    ensures forall d ::
      TotalsOn(rs[..i + 1], d) == TotalsOn(rs[..i], d) + (if rs[i].day == d then [rs[i].totalEnergy] else [])
  {
    assert rs[..i + 1][..i] == rs[..i];
  }

  /** One row of the weekly summary. */
  datatype DayRow = DayRow(day: string, average: real, records: nat)

  /** The row for day `d`: the mean and count of its totals, or 0 and 0. */
  function DayRowOf(rs: seq<Record>, d: string): DayRow
  {
    var ts := TotalsOn(rs, d);
    if |ts| > 0 then DayRow(d, Mean(ts), |ts|) else DayRow(d, 0.0, 0)
  }

  /** The rows for the given days, in the given order. */
  function RowsFor(rs: seq<Record>, days: seq<string>): seq<DayRow>
  {
    if days == [] then [] else [DayRowOf(rs, days[0])] + RowsFor(rs, days[1..])
  }

  lemma {:induction false} RowsForAt(rs: seq<Record>, days: seq<string>, k: nat)
    requires k < |days|
    ensures |RowsFor(rs, days)| == |days|
    ensures RowsFor(rs, days)[k] == DayRowOf(rs, days[k])
  {
    if k > 0 {
      RowsForAt(rs, days[1..], k - 1);
    } else if |days| > 1 {
      RowsForAt(rs, days[1..], 0);
    }
  }

  /** The weekly summary as the dashboard shows it: Monday to Sunday. */
  function WeeklyRows(rs: seq<Record>): seq<DayRow>
  {
    RowsFor(rs, DaysOrder)
  }

  /**
   * The first loop of the Weekly View: groups the record totals by day
   * name, each group in saving order. A day is a key exactly when it has
   * records, and its list is the totals of that day's records.
   */
  method GroupByDay(rs: seq<Record>) returns (weeklySummary: map<string, seq<real>>)
    ensures forall d :: d in weeklySummary ==>
      weeklySummary[d] == TotalsOn(rs, d) && weeklySummary[d] != []
    ensures forall d :: d !in weeklySummary ==> TotalsOn(rs, d) == []
  {
    weeklySummary := map[];
    var i := 0;
    while i < |rs|
      invariant 0 <= i <= |rs|
      invariant forall d :: d in weeklySummary ==>
        weeklySummary[d] == TotalsOn(rs[..i], d) && weeklySummary[d] != []
      invariant forall d :: d !in weeklySummary ==> TotalsOn(rs[..i], d) == []
    {
      var record := rs[i];
      TotalsOnExtend(rs, i);
      if record.day !in weeklySummary {
        weeklySummary := weeklySummary[record.day := []];
      }
      weeklySummary := weeklySummary[record.day := weeklySummary[record.day] + [record.totalEnergy]];
      i := i + 1;
    }
    assert rs[..i] == rs;
  }

  /**
   * The Weekly View's computation: groups the totals by day name, then
   * emits one row per weekday, Monday to Sunday, with the mean and the
   * count of that day's totals, or 0 and 0 for a day without records.
   */
  method WeeklySummary(rs: seq<Record>) returns (rows: seq<DayRow>)
    ensures rows == WeeklyRows(rs)
    ensures |rows| == 7
    ensures forall k :: 0 <= k < 7 ==>
      && rows[k].day == DaysOrder[k]
      && rows[k].records == |TotalsOn(rs, DaysOrder[k])|
      && (rows[k].records == 0 ==> rows[k].average == 0.0)
      && (rows[k].records > 0 ==> rows[k].average == Mean(TotalsOn(rs, DaysOrder[k])))
  {
    var weeklySummary := GroupByDay(rs);

    rows := [];
    var k := 0;
    while k < |DaysOrder|
      invariant 0 <= k <= |DaysOrder|
      invariant |rows| == k
      invariant forall j :: 0 <= j < k ==> rows[j] == DayRowOf(rs, DaysOrder[j])
    {
      var day := DaysOrder[k];
      if day in weeklySummary {
        var avgEnergy := Sum(weeklySummary[day]) / |weeklySummary[day]| as real;
        rows := rows + [DayRow(day, avgEnergy, |weeklySummary[day]|)];
      } else {
        rows := rows + [DayRow(day, 0.0, 0)];
      }
      k := k + 1;
    }

    WeeklyRowsShape(rs);
  }

  /** The number of records whose day is one of `days`. */
  function CountWithin(rs: seq<Record>, days: seq<string>): nat
  {
    if rs == [] then 0
    else CountWithin(rs[..|rs| - 1], days) + (if rs[|rs| - 1].day in days then 1 else 0)
  }

  /** The sum of the record counts of a list of rows. */
  function RecordCount(rows: seq<DayRow>): nat
  {
    if rows == [] then 0 else rows[0].records + RecordCount(rows[1..])
  }

  predicate Distinct(days: seq<string>)
  {
    forall i, j :: 0 <= i < j < |days| ==> days[i] != days[j]
  }

  /** One more record adds one to the counts of distinct days exactly when its day is among them. */
  lemma {:induction false} RecordCountAppend(rs: seq<Record>, r: Record, days: seq<string>)
    requires Distinct(days)
    ensures RecordCount(RowsFor(rs + [r], days))
         == RecordCount(RowsFor(rs, days)) + (if r.day in days then 1 else 0)
  {
    if days != [] {
      assert (rs + [r])[..|rs|] == rs;
      RecordCountAppend(rs, r, days[1..]);
      assert r.day in days <==> r.day == days[0] || r.day in days[1..];
    }
  }

  /** The row counts over distinct days add up to the records that fall on those days. */
  lemma {:induction false} RecordCountIsCountWithin(rs: seq<Record>, days: seq<string>)
    requires Distinct(days)
    ensures RecordCount(RowsFor(rs, days)) == CountWithin(rs, days)
  {
    if rs == [] {
      RecordCountOfEmpty(days);
    } else {
      var n := |rs| - 1;
      RecordCountIsCountWithin(rs[..n], days);
      RecordCountAppend(rs[..n], rs[n], days);
      assert rs[..n] + [rs[n]] == rs;
    }
  }

  lemma {:induction false} RecordCountOfEmpty(days: seq<string>)
    ensures RecordCount(RowsFor([], days)) == 0
  {
    if days != [] {
      RecordCountOfEmpty(days[1..]);
    }
  }

  /**
   * The weekly summary has exactly seven rows, Monday to Sunday; a day with
   * k > 0 records has count k and the mean of their totals, a day with none
   * has 0 and 0; and the counts add up to the number of records whose day
   * is a weekday name.
   */
  lemma WeeklyRowsShape(rs: seq<Record>)
    ensures |WeeklyRows(rs)| == 7
    ensures forall k :: 0 <= k < 7 ==> WeeklyRows(rs)[k] == DayRowOf(rs, DaysOrder[k])
    ensures forall k :: 0 <= k < 7 ==>
      var row := WeeklyRows(rs)[k];
      && row.day == DaysOrder[k]
      && row.records == |TotalsOn(rs, DaysOrder[k])|
      && (row.records == 0 ==> row.average == 0.0)
      && (row.records > 0 ==> row.average == Mean(TotalsOn(rs, DaysOrder[k])))
    ensures RecordCount(WeeklyRows(rs)) == CountWithin(rs, DaysOrder)
  {
    RowsForAt(rs, DaysOrder, 0);
    forall k | 0 <= k < 7
      ensures WeeklyRows(rs)[k] == DayRowOf(rs, DaysOrder[k])
    {
      RowsForAt(rs, DaysOrder, k);
    }
    assert Distinct(DaysOrder);
    RecordCountIsCountWithin(rs, DaysOrder);
  }

  /** A day's average lies between its smallest and its largest total. */
  lemma DayAverageWithin(rs: seq<Record>, d: string)
    requires |TotalsOn(rs, d)| > 0
    ensures Min(TotalsOn(rs, d)) <= DayRowOf(rs, d).average <= Max(TotalsOn(rs, d))
  {
    MeanWithin(TotalsOn(rs, d));
  }

  // ---------------------------------------------------------------------
  // Cost projections

  /** The Analytics tab's projections, each with its cost at the fixed rate. */
  datatype Projection = Projection(
    daily: real, dailyCost: real,
    monthly: real, monthlyCost: real,
    yearly: real, yearlyCost: real)

  /**
   * The projections are computed only when there is at least one record:
   * the mean daily total, 30 and 365 times it, and 5 per kWh of each.
   */
  function Projections(totals: seq<real>): (p: Option<Projection>)
    ensures p.Some? <==> |totals| > 0
    ensures p.Some? ==>
      && p.value.daily == Mean(totals)
      && p.value.monthly == 30.0 * p.value.daily
      && p.value.yearly == 365.0 * p.value.daily
      && p.value.dailyCost == 5.0 * p.value.daily
      && p.value.monthlyCost == 5.0 * p.value.monthly
      && p.value.yearlyCost == 5.0 * p.value.yearly
      && Min(totals) <= p.value.daily <= Max(totals)
  {
    if |totals| > 0 then
      var avgDaily := Mean(totals);
      MeanWithin(totals);
      var monthly := avgDaily * 30.0;
      var yearly := avgDaily * 365.0;
      Some(Projection(avgDaily, avgDaily * Rate, monthly, monthly * Rate, yearly, yearly * Rate))
    else
      None
  }

  // ---------------------------------------------------------------------
  // Summary statistics

  /** The Records tab's summary statistics. */
  datatype Statistics = Statistics(count: nat, mean: real, highest: real, lowest: real)

  /**
   * Shown only when there is more than one record: the number of records,
   * the mean total, and the highest and lowest totals, which are totals of
   * some record and bound all the others, with lowest <= mean <= highest.
   */
  function SummaryStatistics(totals: seq<real>): (s: Option<Statistics>)
    ensures s.Some? <==> |totals| > 1
    ensures s.Some? ==>
      && s.value.count == |totals|
      && s.value.mean == Mean(totals)
      && s.value.highest in totals && s.value.lowest in totals
      && (forall i :: 0 <= i < |totals| ==> s.value.lowest <= totals[i] <= s.value.highest)
      && s.value.lowest <= s.value.mean <= s.value.highest
  {
    if |totals| > 1 then
      MeanWithin(totals);
      Some(Statistics(|totals|, Mean(totals), Max(totals), Min(totals)))
    else
      None
  }

  /**
   * The projections and the summary statistics as the dashboard applies
   * them to the saved records: the projections appear exactly when there
   * is a record, the statistics exactly when there are more than one, and
   * the statistics' count is the number of records.
   */
  lemma RecordViews(rs: seq<Record>)
    ensures Projections(Totals(rs)).Some? <==> |rs| > 0
    ensures SummaryStatistics(Totals(rs)).Some? <==> |rs| > 1
    ensures SummaryStatistics(Totals(rs)).Some? ==> SummaryStatistics(Totals(rs)).value.count == |rs|
  {
  }

  // ---------------------------------------------------------------------
  // Recent records

  function Reverse<T>(s: seq<T>): (r: seq<T>)
    ensures |r| == |s|
    ensures forall k :: 0 <= k < |s| ==> r[k] == s[|s| - 1 - k]
  {
    if s == [] then [] else Reverse(s[1..]) + [s[0]]
  }

  /**
   * "Recent Records": the last ten records, newest first; all of them when
   * there are fewer than ten.
   */
  function Recent(rs: seq<Record>): (r: seq<Record>)
    ensures |r| == if |rs| < 10 then |rs| else 10
    ensures forall k :: 0 <= k < |r| ==> r[k] == rs[|rs| - 1 - k]
  {
    var start := if |rs| < 10 then 0 else |rs| - 10;
    Reverse(rs[start..])
  }
}
