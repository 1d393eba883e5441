/** The logger's own terminal interface (`cmd/battery-logger/tui.go`): the
    chart data it bins per minute, and the status summary with its rate
    label, estimate, counts, time range and configuration line. */
module LoggerTui {
  import opened Wrappers
  import opened GoInts
  import opened GoTime
  import opened GoStrings
  import opened Analytics
  import opened LoggerMain
  import TimeChart
  import TuiStatus

  // ---------------------------------------------------------------------
  // processChartData

  datatype ChartData = ChartData(
    acValues: seq<TimeChart.Float>, battValues: seq<TimeChart.Float>, labels: map<int, string>,
    hasAC: bool, hasBatt: bool)

  /** The series of one-minute bins over the window, their labels, and
      whether each series shows anything. `clock` formats a bin's time. */
  method ProcessChartData(rows: seq<Row>, window: Duration, clock: Time -> string)
    returns (r: Result<ChartData>)
    ensures rows == [] <==> r.Err?
    ensures r.Ok? ==>
      var g := Grid(rows, Minute, window);
      var d := r.value;
      |d.acValues| == |g| && |d.battValues| == |g|
      && (forall i :: 0 <= i < |g| ==>
            (d.acValues[i].Num? <==> g[i].hasData && g[i].ac)
            && (d.battValues[i].Num? <==> g[i].hasData && !g[i].ac)
            && (d.acValues[i].Num? ==> d.acValues[i].v == g[i].batt)
            && (d.battValues[i].Num? ==> d.battValues[i].v == g[i].batt))
      && (forall i :: i in d.labels <==> 0 <= i < |g|)
      && (forall i :: 0 <= i < |g| ==> d.labels[i] == clock(g[i].time))
    ensures r.Ok? ==>
      (r.value.hasAC <==> exists i :: 0 <= i < |r.value.acValues| && r.value.acValues[i].Num?)
      && (r.value.hasBatt <==> exists i :: 0 <= i < |r.value.battValues| && r.value.battValues[i].Num?)
  {
    if |rows| == 0 {
      return Err("no data available");
    }
    var binSize := Minute;
    var bins := BinDataToTimeGrid(rows, binSize, window);
    var acSeries, battSeries, labels := CreateTimeBasedSeries(bins, clock);
    var acValues, battValues, hasAC, hasBatt := CopySeries(acSeries, battSeries);
    return Ok(ChartData(acValues, battValues, labels, hasAC, hasBatt));
  }

  /** The copying loop: element-wise copies of both series, noting whether
      each holds a value anywhere. */
  method CopySeries(acSeries: seq<TimeChart.Float>, battSeries: seq<TimeChart.Float>)
    returns (acCopy: seq<TimeChart.Float>, battCopy: seq<TimeChart.Float>, hasAC: bool, hasBatt: bool)
    requires |acSeries| == |battSeries|
    ensures acCopy == acSeries && battCopy == battSeries
    ensures hasAC <==> exists i :: 0 <= i < |acSeries| && acSeries[i].Num?
    ensures hasBatt <==> exists i :: 0 <= i < |battSeries| && battSeries[i].Num?
  {
    hasAC, hasBatt := false, false;
    var acValues := new TimeChart.Float[|acSeries|](_ => TimeChart.Num(0.0));
    var battValues := new TimeChart.Float[|battSeries|](_ => TimeChart.Num(0.0));
    for i := 0 to |acSeries|
      invariant acValues[..i] == acSeries[..i] && battValues[..i] == battSeries[..i]
      invariant hasAC <==> exists k :: 0 <= k < i && acSeries[k].Num?
      invariant hasBatt <==> exists k :: 0 <= k < i && battSeries[k].Num?
    {
      if acSeries[i].Num? {
        hasAC := true;
      }
      if battSeries[i].Num? {
        hasBatt := true;
      }
      acValues[i] := acSeries[i];
      battValues[i] := battSeries[i];
    }
    acCopy, battCopy := acValues[..], battValues[..];
  }

  /** The chart never comes out empty: the series of the latest sample's
      state shows at least that sample. */
  lemma LatestStateIsShown(rows: seq<Row>, window: Duration, d: ChartData)
    requires rows != [] && 0 <= window <= MaxInt64
    requires var g := Grid(rows, Minute, window);
      |d.acValues| == |g| && |d.battValues| == |g|
      && (forall i :: 0 <= i < |g| ==>
            (d.acValues[i].Num? <==> g[i].hasData && g[i].ac)
            && (d.battValues[i].Num? <==> g[i].hasData && !g[i].ac))
      && (d.hasAC <==> exists i :: 0 <= i < |d.acValues| && d.acValues[i].Num?)
      && (d.hasBatt <==> exists i :: 0 <= i < |d.battValues| && d.battValues[i].Num?)
    ensures rows[|rows| - 1].ac ==> d.hasAC
    ensures !rows[|rows| - 1].ac ==> d.hasBatt
  {
    LatestSampleFillsLastBin(rows, Minute, window);
    var n := |Grid(rows, Minute, window)| - 1;
    if rows[|rows| - 1].ac {
      assert d.acValues[n].Num?;
    } else {
      assert d.battValues[n].Num?;
    }
  }

  // ---------------------------------------------------------------------
  // generateStatusInfo

  const Clipboard: string := "\U{1F4CB}"
  const NotChargingText: string := "\U{221e} (not charging or already full)"
  const NotDischargingText: string := "\U{221e} (not discharging)"

  /** The configuration line: the defaults notice, the one file found, or
      the last file found and how many others there are. */
  function ConfigText(paths: seq<string>): (s: string)
    ensures paths == [] ==> s == Clipboard + " Config: Using defaults (no config file found)"
    ensures |paths| == 1 ==> s == Clipboard + " Config file: " + paths[0]
    ensures |paths| >= 2 ==>
      HasPrefix(s, Clipboard + " Config files: " + paths[|paths| - 1])
      && HasSuffix(s, " (+ " + Itoa(|paths| - 1) + " more)")
  {
    if |paths| == 0 then Clipboard + " Config: Using defaults (no config file found)"
    else if |paths| == 1 then Clipboard + " Config file: " + paths[0]
    else
      var head := Clipboard + " Config files: " + paths[|paths| - 1];
      var tail := " (+ " + Itoa(|paths| - 1) + " more)";
      assert (head + tail)[..|head|] == head;
      assert (head + tail)[|head + tail| - |tail|..] == tail;
      head + tail
  }

  datatype EstimateLines = EstimateLines(rateLabel: string, slope: string, confidence: string,
                                         estimate: string)

  /** The rate label, slope, confidence and estimate texts from the final
      run of samples in the latest AC state. */
  function StatusEstimate(contiguous: seq<Row>, latest: Row, weight: real -> real,
                          formatRate: real -> string): (f: EstimateLines)
    requires NonNegativeWeights(weight)
    ensures f.rateLabel == TuiStatus.RateLabel(latest.ac)
    ensures |contiguous| < 2 ==>
      f.estimate == Dash && f.slope == "n/a" && f.confidence == TuiStatus.NeedSamples(latest.ac)
    ensures 2 <= |contiguous| ==>
      var r := CalculateRateAndEstimate(contiguous, latest.batt, weight);
      f.confidence == r.confidence
      && (r.ok ==> f.slope == formatRate(r.rate))
      && (!r.ok ==> f.estimate == Dash && f.slope == "n/a")
  {
    var rateLabel := TuiStatus.RateLabel(latest.ac);
    if |contiguous| >= 2 then
      var r := CalculateRateAndEstimate(contiguous, latest.batt, weight);
      if r.ok then
        var est :=
          if latest.ac then
            (if r.rate > RateThreshold then FmtDur(r.estimate) else NotChargingText)
          else
            (if r.rate < -RateThreshold then FmtDur(r.estimate) else NotDischargingText);
        EstimateLines(rateLabel, formatRate(r.rate), r.confidence, est)
      else EstimateLines(rateLabel, "n/a", r.confidence, Dash)
    else EstimateLines(rateLabel, "n/a", TuiStatus.NeedSamples(latest.ac), Dash)
  }

  /** When the rows fitted are in the latest state, the guard on the
      latest state agrees with the fit's own: the estimate shown is the
      formatted estimate when it is finite, and the infinity sign with the
      reason otherwise. */
  lemma GuardAgreesWithFit(contiguous: seq<Row>, latest: Row, weight: real -> real,
                           formatRate: real -> string)
    requires NonNegativeWeights(weight)
    requires 2 <= |contiguous| && contiguous[0].ac == latest.ac
    ensures var r := CalculateRateAndEstimate(contiguous, latest.batt, weight);
      r.ok ==> StatusEstimate(contiguous, latest, weight, formatRate).estimate
               == (if r.estimate.Finite? then FmtDur(r.estimate) else "\U{221e} " + r.confidence)
  {
    assert NotChargingText == "\U{221e} " + NotCharging;
    assert NotDischargingText == "\U{221e} " + NotDischarging;
  }

  /** With a successful fit and a battery reading between 0 and 100, some
      estimate is always shown: never the dash. */
  lemma FittedEstimateIsShown(contiguous: seq<Row>, latest: Row, weight: real -> real,
                              formatRate: real -> string)
    requires NonNegativeWeights(weight) && 0.0 <= latest.batt <= 100.0
    requires 2 <= |contiguous| && contiguous[0].ac == latest.ac
    requires CalculateRateAndEstimate(contiguous, latest.batt, weight).ok
    ensures StatusEstimate(contiguous, latest, weight, formatRate).estimate != Dash
  {
    var r := CalculateRateAndEstimate(contiguous, latest.batt, weight);
    GuardAgreesWithFit(contiguous, latest, weight, formatRate);
    if r.estimate.Finite? {
      EstimateNonNegative(contiguous, latest.batt, weight);
    } else {
      assert ("\U{221e} " + r.confidence)[0] != Dash[0];
    }
  }

  /** The status the logger's terminal interface shows for a non-empty
      window of rows. `clock` is `Format("15:04")`; the configuration files
      found are a parameter. */
  datatype LoggerStatus = LoggerStatus(
    latest: Row, transitionTime: Time, transitionBatt: real,
    rateLabel: string, slopeStr: string, confidence: string, estimate: string,
    totalSamples: nat, acSamples: nat, battSamples: nat, timeRange: Duration,
    startTime: string, endTime: string, configStr: string)

  method GenerateStatusInfo(rows: seq<Row>, weight: real -> real, formatRate: real -> string,
                            clock: Time -> string, existingConfigPaths: seq<string>)
    returns (info: LoggerStatus)
    requires rows != [] && NonNegativeWeights(weight)
    ensures info.latest == rows[|rows| - 1]
    ensures var j := SameACStart(rows, rows[|rows| - 1].ac);
      j < |rows| && info.transitionTime == rows[j].t && info.transitionBatt == rows[j].batt
      && var f := StatusEstimate(rows[j..], rows[|rows| - 1], weight, formatRate);
      info.slopeStr == f.slope && info.confidence == f.confidence && info.estimate == f.estimate
    ensures info.rateLabel == TuiStatus.RateLabel(rows[|rows| - 1].ac)
    ensures info.totalSamples == |rows| && info.acSamples == TuiStatus.CountAC(rows)
    ensures info.acSamples + info.battSamples == info.totalSamples
    ensures info.timeRange == Sub(rows[|rows| - 1].t, rows[0].t)
    ensures info.startTime == clock(rows[0].t) && info.endTime == clock(rows[|rows| - 1].t)
    ensures info.configStr == ConfigText(existingConfigPaths)
  {
    var latest := rows[|rows| - 1];
    var transitionTime, transitionBatt := TuiStatus.FindLastACTransition(rows);
    var contiguous := FilterContiguousACState(rows, latest.ac);
    var f := StatusEstimate(contiguous, latest, weight, formatRate);
    var total, acSamples, battSamples := TuiStatus.CountSamples(rows);
    info := LoggerStatus(latest, transitionTime, transitionBatt, f.rateLabel, f.slope, f.confidence,
                         f.estimate, total, acSamples, battSamples, Sub(latest.t, rows[0].t),
                         clock(rows[0].t), clock(latest.t), ConfigText(existingConfigPaths));
  }

  /** The estimate is fitted to rows all in the latest state, so the
      guard on the latest state agrees with the fit's own. */
  lemma StatusEstimateOfRun(rows: seq<Row>, weight: real -> real, formatRate: real -> string)
    requires rows != [] && NonNegativeWeights(weight)
    ensures var latest := rows[|rows| - 1];
      var run := rows[SameACStart(rows, latest.ac)..];
      var r := CalculateRateAndEstimate(run, latest.batt, weight);
      2 <= |run| && r.ok ==>
        StatusEstimate(run, latest, weight, formatRate).estimate
          == (if r.estimate.Finite? then FmtDur(r.estimate) else "\U{221e} " + r.confidence)
  {
    var latest := rows[|rows| - 1];
    var j := SameACStart(rows, latest.ac);
    if 2 <= |rows| - j {
      assert rows[j..][0] == rows[j];
      GuardAgreesWithFit(rows[j..], latest, weight, formatRate);
    }
  }
}
