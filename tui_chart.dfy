/** Feeding the samples to the battery chart: one series of the samples
    taken on AC ("Charging") and one of those taken on battery
    ("Discharging"), each in sample order. */
module TuiChart {
  import opened Wrappers
  import opened GoTime
  import opened Analytics
  import opened TimeChart
  import TuiStatus

  const ChargingColor: int := 46
  const DischargingColor: int := 196

  function PointOf(row: Row): (p: TimePoint)
    ensures p.time == row.t && p.value == Num(row.batt) && p.state == row.ac
  {
    TimePoint(row.t, Num(row.batt), row.ac)
  }

  /** The points of the rows taken on AC, in row order. */
  function ChargingPoints(rows: seq<Row>): (ps: seq<TimePoint>)
    ensures forall p :: p in ps ==> p.state
  {
    if rows == [] then []
    else
      var r := rows[|rows| - 1];
      ChargingPoints(rows[..|rows| - 1]) + (if r.ac then [PointOf(r)] else [])
  }

  /** The points of the rows taken on battery, in row order. */
  function DischargingPoints(rows: seq<Row>): (ps: seq<TimePoint>)
    ensures forall p :: p in ps ==> !p.state
  {
    if rows == [] then []
    else
      var r := rows[|rows| - 1];
      DischargingPoints(rows[..|rows| - 1]) + (if r.ac then [] else [PointOf(r)])
  }

  function AllPoints(rows: seq<Row>): (ps: seq<TimePoint>)
    ensures |ps| == |rows| && forall i :: 0 <= i < |rows| ==> ps[i] == PointOf(rows[i])
  {
    seq(|rows|, i requires 0 <= i < |rows| => PointOf(rows[i]))
  }

  /** The two lists split the rows' points between them: together they
      hold each point exactly as often as the rows do. */
  lemma {:induction false} PartitionIsPermutation(rows: seq<Row>)
    ensures multiset(ChargingPoints(rows)) + multiset(DischargingPoints(rows)) == multiset(AllPoints(rows))
  {
    if rows != [] {
      var init, r := rows[..|rows| - 1], rows[|rows| - 1];
      PartitionIsPermutation(init);
      assert AllPoints(rows) == AllPoints(init) + [PointOf(r)];
    }
  }

  /** There are as many charging points as samples taken on AC, the
      count the status panel shows. */
  lemma {:induction false} ChargingCountIsACCount(rows: seq<Row>)
    ensures |ChargingPoints(rows)| == TuiStatus.CountAC(rows)
    ensures |ChargingPoints(rows)| + |DischargingPoints(rows)| == |rows|
  {
    if rows != [] {
      var init := rows[..|rows| - 1];
      ChargingCountIsACCount(init);
      TuiStatus.CountACAppend(init, [rows[|rows| - 1]]);
      assert init + [rows[|rows| - 1]] == rows;
    }
  }

  /** The series handed to the chart: the charging list first, each only
      when it has points. */
  function SeriesOf(charging: seq<TimePoint>, discharging: seq<TimePoint>): (s: seq<TimeSeries>)
    ensures |s| <= 2
    ensures s == [] <==> charging == [] && discharging == []
    ensures forall k :: 0 <= k < |s| ==> s[k].points != []
    ensures charging != [] ==> s[0] == TimeSeries("Charging", charging, ChargingColor)
    ensures discharging != [] ==> s[|s| - 1] == TimeSeries("Discharging", discharging, DischargingColor)
  {
    (if |charging| > 0 then [TimeSeries("Charging", charging, ChargingColor)] else [])
    + (if |discharging| > 0 then [TimeSeries("Discharging", discharging, DischargingColor)] else [])
  }

  method ProcessChartData(rows: seq<Row>) returns (r: Result<seq<TimeSeries>>)
    ensures rows == [] <==> r.Err?
    ensures r.Ok? ==> r.value == SeriesOf(ChargingPoints(rows), DischargingPoints(rows))
  {
    if |rows| == 0 {
      return Err("no data available");
    }
    var chargingPoints: seq<TimePoint> := [];
    var dischargingPoints: seq<TimePoint> := [];
    for i := 0 to |rows|
      invariant chargingPoints == ChargingPoints(rows[..i])
      invariant dischargingPoints == DischargingPoints(rows[..i])
    {
      var row := rows[i];
      assert rows[..i + 1][..i] == rows[..i];
      var point := TimePoint(row.t, Num(row.batt), row.ac);
      if row.ac {
        chargingPoints := chargingPoints + [point];
      } else {
        dischargingPoints := dischargingPoints + [point];
      }
    }
    assert rows[..|rows|] == rows;
    var series: seq<TimeSeries> := [];
    if |chargingPoints| > 0 {
      series := series + [TimeSeries("Charging", chargingPoints, ChargingColor)];
    }
    if |dischargingPoints| > 0 {
      series := series + [TimeSeries("Discharging", dischargingPoints, DischargingColor)];
    }
    return Ok(series);
  }

  function RowTimes(rows: seq<Row>): (ts: seq<Time>)
    ensures |ts| == |rows| && forall i :: 0 <= i < |rows| ==> ts[i] == rows[i].t
  {
    seq(|rows|, i requires 0 <= i < |rows| => rows[i].t)
  }

  /** The times of the two lists are the rows' times, each as often. */
  lemma {:induction false} PartitionTimes(rows: seq<Row>)
    ensures multiset(PointTimes(ChargingPoints(rows))) + multiset(PointTimes(DischargingPoints(rows)))
      == multiset(RowTimes(rows))
  {
    if rows != [] {
      var init, r := rows[..|rows| - 1], rows[|rows| - 1];
      PartitionTimes(init);
      assert RowTimes(rows) == RowTimes(init) + [r.t];
      if r.ac {
        assert PointTimes(ChargingPoints(rows)) == PointTimes(ChargingPoints(init)) + [r.t];
        assert DischargingPoints(rows) == DischargingPoints(init);
      } else {
        assert PointTimes(DischargingPoints(rows)) == PointTimes(DischargingPoints(init)) + [r.t];
        assert ChargingPoints(rows) == ChargingPoints(init);
      }
    }
  }

  lemma AllTimesOfSeries(ch: seq<TimePoint>, dis: seq<TimePoint>)
    ensures AllTimes(SeriesOf(ch, dis)) == PointTimes(ch) + PointTimes(dis)
  {
    var s := SeriesOf(ch, dis);
    if ch != [] && dis != [] {
      assert s[..1] == [s[0]];
      assert AllTimes(s[..1]) == AllTimes([]) + PointTimes(ch);
    } else if ch != [] {
      assert AllTimes(s) == AllTimes([]) + PointTimes(ch);
    } else if dis != [] {
      assert AllTimes(s) == AllTimes([]) + PointTimes(dis);
    }
  }

  /** The chart's series hold exactly the sample times, so the chart's
      data range runs from the earliest sample to the latest. */
  lemma SeriesSpanTheSamples(rows: seq<Row>)
    requires rows != []
    ensures var b := DataBounds(SeriesOf(ChargingPoints(rows), DischargingPoints(rows)));
      b.start in RowTimes(rows) && b.end in RowTimes(rows)
      && forall t :: t in RowTimes(rows) ==> b.start <= t <= b.end
  {
    var ch, dis := ChargingPoints(rows), DischargingPoints(rows);
    PartitionTimes(rows);
    AllTimesOfSeries(ch, dis);
    var all := AllTimes(SeriesOf(ch, dis));
    assert multiset(all) == multiset(RowTimes(rows));
    forall t
      ensures t in all <==> t in RowTimes(rows)
    {
      assert t in all <==> t in multiset(all);
      assert t in RowTimes(rows) <==> t in multiset(RowTimes(rows));
    }
  }

  /** `UpdateChartWidget`: clearing before setting makes the chart's data
      range that of the new series alone, and the zero range when there
      are none. */
  method UpdateChartWidget(chart: BatteryChart, series: seq<TimeSeries>)
    modifies chart`series, chart`dataStart, chart`dataEnd
    ensures chart.series == series
    ensures Span(chart.dataStart, chart.dataEnd) == DataBounds(series)
  {
    chart.ClearSeries();
    chart.SetSeries(series);
  }
}
