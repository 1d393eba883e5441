/** The command-line logger's own helpers (`cmd/battery-logger/main.go`,
    duplicated line for line in `cmd/battery-zen/main.go`): the time grid
    the old line chart is drawn from, the two series cut from it, the
    trim rule applied after each sample, and the TUI's discharge
    estimate. */
module LoggerMain {
  import opened Wrappers
  import opened GoInts
  import opened GoTime
  import opened GoStrings
  import opened Analytics
  import opened LogFile
  import TimeChart

  // ---------------------------------------------------------------------
  // binDataToTimeGrid

  datatype BinDataPoint = BinDataPoint(time: Time, batt: real, ac: bool, hasData: bool)

  /** How many bins the grid has: one per `binSize` step from `start` up to
      and including the last sample's time. */
  function BinCount(window: Duration, binSize: Duration): nat
    requires 0 < binSize
  {
    if window < 0 then 0 else window / binSize + 1
  }

  /** The grid before any sample is placed. */
  function EmptyBins(start: Time, count: nat, binSize: Duration): (bins: seq<BinDataPoint>)
    ensures |bins| == count
    ensures forall k :: 0 <= k < count ==> bins[k] == BinDataPoint(start + k * binSize, 0.0, false, false)
  {
    seq(count, k requires 0 <= k < count => BinDataPoint(start + k * binSize, 0.0, false, false))
  }

  /** The bin a sample at `t` belongs to: the truncated quotient of its
      offset from `start`. */
  function BinIndex(t: Time, start: Time, binSize: Duration): int
    requires 0 < binSize
  {
    Quo(Sub(t, start), binSize)
  }

  /** The sample is not before `start` and its index is `k`. */
  predicate InBin(r: Row, start: Time, binSize: Duration, k: int)
    requires 0 < binSize
  {
    !(r.t < start) && BinIndex(r.t, start, binSize) == k
  }

  /** One step of the filling loop. */
  function Place(bins: seq<BinDataPoint>, r: Row, start: Time, binSize: Duration): seq<BinDataPoint>
    requires 0 < binSize
  {
    if r.t < start then bins
    else
      var i := BinIndex(r.t, start, binSize);
      if 0 <= i < |bins| then bins[i := bins[i].(batt := r.batt, ac := r.ac, hasData := true)]
      else bins
  }

  /** The grid after the samples have been placed in order. */
  function Fill(bins: seq<BinDataPoint>, rows: seq<Row>, start: Time, binSize: Duration)
    : (r: seq<BinDataPoint>)
    requires 0 < binSize
    ensures |r| == |bins|
    ensures forall k :: 0 <= k < |r| ==> r[k].time == bins[k].time
  {
    if rows == [] then bins
    else Place(Fill(bins, rows[..|rows| - 1], start, binSize), rows[|rows| - 1], start, binSize)
  }

  /** The last sample that belongs to bin `k`, if any. */
  function LastInBin(rows: seq<Row>, start: Time, binSize: Duration, k: int): (r: Option<nat>)
    requires 0 < binSize
    ensures r.Some? ==> r.value < |rows| && InBin(rows[r.value], start, binSize, k)
    ensures r.Some? ==> forall j :: r.value < j < |rows| ==> !InBin(rows[j], start, binSize, k)
    ensures r.None? ==> forall j :: 0 <= j < |rows| ==> !InBin(rows[j], start, binSize, k)
  {
    if rows == [] then None
    else if InBin(rows[|rows| - 1], start, binSize, k) then Some(|rows| - 1)
    else LastInBin(rows[..|rows| - 1], start, binSize, k)
  }

  /** Each bin ends up holding the last sample that belongs to it, and a
      bin no sample belongs to is left as it was. */
  lemma {:induction false} FillLastSampleWins(bins: seq<BinDataPoint>, rows: seq<Row>, start: Time,
                                              binSize: Duration, k: nat)
    requires 0 < binSize && k < |bins|
    ensures Fill(bins, rows, start, binSize)[k] ==
      match LastInBin(rows, start, binSize, k)
      case None => bins[k]
      case Some(j) => bins[k].(batt := rows[j].batt, ac := rows[j].ac, hasData := true)
  {
    if rows != [] {
      FillLastSampleWins(bins, rows[..|rows| - 1], start, binSize, k);
    }
  }

  /** The grid `binDataToTimeGrid` returns, as a value. */
  function Grid(rows: seq<Row>, binSize: Duration, window: Duration): seq<BinDataPoint>
    requires 0 < binSize
  {
    if rows == [] then []
    else
      var start := rows[|rows| - 1].t - window;
      Fill(EmptyBins(start, BinCount(window, binSize), binSize), rows, start, binSize)
  }

  /** Lays out the bins from `last.T - window` up to the last sample's
      time, then places every sample that is not before the first bin. */
  method BinDataToTimeGrid(rows: seq<Row>, binSize: Duration, window: Duration)
    returns (bins: seq<BinDataPoint>)
    requires 0 < binSize
    ensures rows == [] ==> bins == []
    ensures rows != [] ==> |bins| == BinCount(window, binSize)
    ensures rows != [] ==> forall k :: 0 <= k < |bins| ==>
      bins[k].time == rows[|rows| - 1].t - window + k * binSize
    ensures bins == Grid(rows, binSize, window)
  {
    if |rows| == 0 {
      return [];
    }
    var endTime := rows[|rows| - 1].t;
    var startTime := endTime - window;
    bins := [];
    var t := startTime;
    while t <= endTime
      invariant t == startTime + |bins| * binSize
      invariant bins == EmptyBins(startTime, |bins|, binSize)
      invariant 0 < |bins| ==> startTime + (|bins| - 1) * binSize <= endTime
      decreases endTime - t
    {
      bins := bins + [BinDataPoint(t, 0.0, false, false)];
      t := t + binSize;
    }
    GridSize(window, binSize, |bins|);
    ghost var grid := bins;
    for i := 0 to |rows|
      invariant bins == Fill(grid, rows[..i], startTime, binSize)
    {
      var row := rows[i];
      assert rows[..i + 1][..i] == rows[..i];
      if row.t < startTime {
        continue;
      }
      var binIndex := Quo(Sub(row.t, startTime), binSize);
      if 0 <= binIndex < |bins| {
        bins := bins[binIndex := bins[binIndex].(batt := row.batt, ac := row.ac, hasData := true)];
      }
    }
    assert rows[..|rows|] == rows;
  }

  /** The stepping loop stops after `BinCount` bins. */
  lemma GridSize(window: Duration, binSize: Duration, n: nat)
    requires 0 < binSize
    requires window < n * binSize
    requires 0 < n ==> (n - 1) * binSize <= window
    ensures n == BinCount(window, binSize)
  {
    if 0 < n {
      DivUnique(window, binSize, n - 1, window - (n - 1) * binSize);
    } else {
      assert window < 0;
    }
  }

  /** What each bin of the grid holds: its time, and the values of the
      last sample that belongs to it, or no data at all. */
  lemma GridBin(rows: seq<Row>, binSize: Duration, window: Duration, k: nat)
    requires 0 < binSize && rows != [] && k < BinCount(window, binSize)
    ensures var start := rows[|rows| - 1].t - window;
      var b := Grid(rows, binSize, window)[k];
      b.time == start + k * binSize
      && match LastInBin(rows, start, binSize, k)
         case None => !b.hasData && !b.ac && b.batt == 0.0
         case Some(j) => b.hasData && b.ac == rows[j].ac && b.batt == rows[j].batt
  {
    var start := rows[|rows| - 1].t - window;
    FillLastSampleWins(EmptyBins(start, BinCount(window, binSize), binSize), rows, start, binSize, k);
  }

  lemma QuoMonotone(a: int, c: int, b: int)
    requires 0 <= a <= c && 0 < b
    ensures 0 <= Quo(a, b) <= Quo(c, b)
  {
    QuoOfNonNegative(a, b);
    QuoOfNonNegative(c, b);
    var q := a / b;
    ModBounds(a, b);
    var e := a % b + (c - a);
    ModBounds(e, b);
    var qe := e / b;
    assert c == b * q + b * qe + e % b;
    assert b * q + b * qe == b * (q + qe);
    DivUnique(c, b, q + qe, e % b);
  }

  /** No sample inside the window is lost: it falls in a bin of the grid,
      and that bin holds it or a later sample. */
  lemma SampleInWindowIsBinned(rows: seq<Row>, binSize: Duration, window: Duration, j: nat)
    requires 0 < binSize && 0 <= window <= MaxInt64 && j < |rows|
    requires rows[|rows| - 1].t - window <= rows[j].t <= rows[|rows| - 1].t
    ensures var start := rows[|rows| - 1].t - window;
      var k := BinIndex(rows[j].t, start, binSize);
      0 <= k < BinCount(window, binSize)
      && LastInBin(rows, start, binSize, k).Some?
      && j <= LastInBin(rows, start, binSize, k).value
  {
    var start := rows[|rows| - 1].t - window;
    QuoMonotone(rows[j].t - start, window, binSize);
    QuoOfNonNegative(window, binSize);
    assert InBin(rows[j], start, binSize, BinIndex(rows[j].t, start, binSize));
  }

  /** The last bin always holds the latest sample. */
  lemma LatestSampleFillsLastBin(rows: seq<Row>, binSize: Duration, window: Duration)
    requires 0 < binSize && 0 <= window <= MaxInt64 && rows != []
    ensures var bins := Grid(rows, binSize, window);
      var last := rows[|rows| - 1];
      bins != [] && bins[|bins| - 1].hasData
      && bins[|bins| - 1].ac == last.ac && bins[|bins| - 1].batt == last.batt
  {
    var start := rows[|rows| - 1].t - window;
    var k := BinCount(window, binSize) - 1;
    QuoOfNonNegative(window, binSize);
    assert InBin(rows[|rows| - 1], start, binSize, k);
    assert LastInBin(rows, start, binSize, k) == Some(|rows| - 1);
    GridBin(rows, binSize, window, k);
  }

  // ---------------------------------------------------------------------
  // createTimeBasedSeries

  /** The AC series, the battery series and the x-axis labels cut from a
      grid. `clock` is `Format("15:04")`; the four minute-of-hour branches of
      the source all format the same way. The source's `startTime`
      parameter is not used. */
  method CreateTimeBasedSeries(bins: seq<BinDataPoint>, clock: Time -> string)
    returns (acSeries: seq<TimeChart.Float>, battSeries: seq<TimeChart.Float>, labels: map<int, string>)
    ensures |acSeries| == |bins| && |battSeries| == |bins|
    ensures forall i :: 0 <= i < |bins| ==>
      (acSeries[i].Num? <==> bins[i].hasData && bins[i].ac)
      && (battSeries[i].Num? <==> bins[i].hasData && !bins[i].ac)
    ensures forall i :: 0 <= i < |bins| ==>
      (acSeries[i].Num? ==> acSeries[i].v == bins[i].batt)
      && (battSeries[i].Num? ==> battSeries[i].v == bins[i].batt)
    ensures forall i :: i in labels <==> 0 <= i < |bins|
    ensures forall i :: 0 <= i < |bins| ==> labels[i] == clock(bins[i].time)
  {
    var ac := new TimeChart.Float[|bins|](_ => TimeChart.Num(0.0));
    var batt := new TimeChart.Float[|bins|](_ => TimeChart.Num(0.0));
    labels := map[];
    for i := 0 to |bins|
      invariant forall j :: 0 <= j < i ==>
        (ac[j].Num? <==> bins[j].hasData && bins[j].ac)
        && (batt[j].Num? <==> bins[j].hasData && !bins[j].ac)
        && (ac[j].Num? ==> ac[j].v == bins[j].batt)
        && (batt[j].Num? ==> batt[j].v == bins[j].batt)
    {
      var bin := bins[i];
      if bin.hasData {
        if bin.ac {
          ac[i] := TimeChart.Num(bin.batt);
          batt[i] := TimeChart.NaN;
        } else {
          batt[i] := TimeChart.Num(bin.batt);
          ac[i] := TimeChart.NaN;
        }
      } else {
        ac[i] := TimeChart.NaN;
        batt[i] := TimeChart.NaN;
      }
    }
    for i := 0 to |bins|
      invariant forall j :: j in labels <==> 0 <= j < i
      invariant forall j :: 0 <= j < i ==> labels[j] == clock(bins[j].time)
    {
      labels := labels[i := clock(bins[i].time)];
    }
    acSeries, battSeries := ac[..], batt[..];
  }

  // ---------------------------------------------------------------------
  // sampleOnce

  /** The trim rule: more lines than the kept data lines, the buffer and
      the header together. */
  predicate ShouldTrim(lines: int, maxLines: int, trimBuffer: int)
  {
    lines > maxLines + trimBuffer + 1
  }

  /** The file after one sample: the row is appended, and the file is cut
      back to its last `maxLines` data lines once it is over the limit.
      Reading the battery and the clock are parameters (`ac`, `pct`,
      `timestamp`); write errors are not modelled. */
  function SampleOnce(file: Option<string>, timestamp: string, ac: bool, pct: int,
                      maxLines: int, trimBuffer: int): (r: string)
    ensures ShouldTrim(CountNewlines(AppendCSV(file, timestamp, ac, pct)), maxLines, trimBuffer)
      ==> Some(r) == TrimToLast(Some(AppendCSV(file, timestamp, ac, pct)), maxLines)
    ensures !ShouldTrim(CountNewlines(AppendCSV(file, timestamp, ac, pct)), maxLines, trimBuffer)
      ==> r == AppendCSV(file, timestamp, ac, pct)
  {
    var appended := AppendCSV(file, timestamp, ac, pct);
    if ShouldTrim(CountNewlines(appended), maxLines, trimBuffer) then
      TrimToLast(Some(appended), maxLines).value
    else appended
  }

  lemma {:induction false} CountNewlinesOfUnlines(ls: seq<string>)
    requires PlainLines(ls)
    ensures CountNewlines(Unlines(ls)) == |ls|
  {
    if ls != [] {
      var front, x := ls[..|ls| - 1], ls[|ls| - 1];
      assert PlainLines(front) by {
        forall k | 0 <= k < |front|
          ensures front[k] != [] && '\n' !in front[k]
        {
          assert front[k] == ls[k];
        }
      }
      CountNewlinesOfUnlines(front);
      assert Unlines(ls) == Unlines(front) + (x + "\n");
      CountNewlinesAppend(Unlines(front), x + "\n");
      OneLine(x);
    }
  }

  /** The data line `AppendCSV` writes, without its newline. */
  function RowText(timestamp: string, ac: bool, pct: int): (line: string)
    ensures CsvRow(timestamp, ac, pct) == line + "\n"
  {
    timestamp + "," + (if ac then "1" else "0") + "," + Itoa(pct)
  }

  lemma RowTextIsPlain(timestamp: string, ac: bool, pct: int)
    requires '\n' !in timestamp
    ensures RowText(timestamp, ac, pct) != [] && '\n' !in RowText(timestamp, ac, pct)
  {
    ItoaHasNoNewline(pct);
    var line := RowText(timestamp, ac, pct);
    assert line[|timestamp|] == ',';
  }

  lemma PlainLinesSnoc(ls: seq<string>, line: string)
    requires PlainLines(ls) && line != [] && '\n' !in line
    ensures PlainLines(ls + [line])
  {
    var all := ls + [line];
    forall k | 0 <= k < |all|
      ensures all[k] != [] && '\n' !in all[k]
    {
      if k < |ls| {
        assert all[k] == ls[k];
      }
    }
  }

  /** Appending a row to a file of lines is the file of one more line. */
  lemma AppendCSVOfLines(ls: seq<string>, timestamp: string, ac: bool, pct: int)
    ensures AppendCSV(Some(Unlines(ls)), timestamp, ac, pct) == Unlines(ls + [RowText(timestamp, ac, pct)])
  {
    var all := ls + [RowText(timestamp, ac, pct)];
    assert all[..|all| - 1] == ls;
  }

  /** Appending a sample to a file of well-formed lines gives the file
      with one more well-formed line. */
  lemma AppendedLines(ls: seq<string>, all: seq<string>, timestamp: string, ac: bool, pct: int)
    requires PlainLines(ls) && '\n' !in timestamp
    requires all == ls + [RowText(timestamp, ac, pct)]
    ensures PlainLines(all)
    ensures AppendCSV(Some(Unlines(ls)), timestamp, ac, pct) == Unlines(all)
    ensures CountNewlines(Unlines(all)) == |ls| + 1
  {
    RowTextIsPlain(timestamp, ac, pct);
    PlainLinesSnoc(ls, RowText(timestamp, ac, pct));
    AppendCSVOfLines(ls, timestamp, ac, pct);
    CountNewlinesOfUnlines(all);
  }

  /** On a log of well-formed lines with non-negative limits, a sample
      appends its row, and trimming keeps the header once and exactly the
      last `maxLines` data lines; a log within the limit only grows. */
  lemma SampleOnceKeepsHeaderAndLastLines(h: string, data: seq<string>, timestamp: string,
                                           ac: bool, pct: int, maxLines: nat, trimBuffer: nat)
    requires PlainLines([h] + data) && '\n' !in timestamp
    ensures var line := RowText(timestamp, ac, pct);
      var r := SampleOnce(Some(Unlines([h] + data)), timestamp, ac, pct, maxLines, trimBuffer);
      if |data| + 1 > maxLines + trimBuffer
      then r == Unlines([h] + LastN(data + [line], maxLines))
      else r == Unlines([h] + (data + [line]))
  {
    var line := RowText(timestamp, ac, pct);
    SampleOnceOfLog(Some(Unlines([h] + data)), [h] + data, h, data, line, timestamp, ac, pct, maxLines, trimBuffer);
  }

  lemma SampleOnceOfLog(file: Option<string>, ls: seq<string>, h: string, data: seq<string>, line: string,
                        timestamp: string, ac: bool, pct: int, maxLines: nat, trimBuffer: nat)
    requires ls == [h] + data && file == Some(Unlines(ls)) && line == RowText(timestamp, ac, pct)
    requires PlainLines(ls) && '\n' !in timestamp
    ensures var r := SampleOnce(file, timestamp, ac, pct, maxLines, trimBuffer);
      if |data| + 1 > maxLines + trimBuffer
      then r == Unlines([h] + LastN(data + [line], maxLines))
      else r == Unlines([h] + (data + [line]))
  {
    var rest := data + [line];
    assert ls + [line] == [h] + rest;
    AppendedLines(ls, [h] + rest, timestamp, ac, pct);
    if |data| + 1 > maxLines + trimBuffer {
      TrimToLastOfLongFile(h, rest, maxLines);
    }
  }

  // ---------------------------------------------------------------------
  // tuiCmd: the discharge estimate

  /** The source's literals, double-encoded: "∞", "—" and "≥" read back as
      Windows-1252 and written out again as UTF-8. */
  const FlatText: string := "\U{e2}\U{2c6} (not discharging or charging)"
  const DashText: string := "\U{e2}\U{20ac}\U{201d}"
  const NeedUnplugged: string := "(need \U{e2}\U{2030}\U{a5}2 unplugged samples)"

  datatype EstimateText = EstimateText(estimate: string, slope: string, confidence: string)

  /** A formatted estimate starts with the em dash, a minus sign or a
      digit, so it is never one of the double-encoded texts. */
  lemma FmtDurIsNotMojibake(e: Eta)
    ensures FmtDur(e) != FlatText && FmtDur(e) != DashText
  {
    var s := FmtDur(e);
    if s != Dash {
      var d := DurationOfFloat(e.mins * 60_000_000_000.0);
      var hours := Itoa(Quo(d, Hour));
      assert s[0] == hours[0];
      assert hours[0] == '-' || IsDigit(hours[0]);
    }
    assert s[0] != FlatText[0];
  }

  /** The three status lines from the trailing unplugged samples; the
      slope is formatted by `formatRate` (`"%.3f %%/min"`). */
  function UnpluggedEstimate(unplugged: seq<Row>, latestBatt: real, weight: real -> real,
                             formatRate: real -> string): (r: EstimateText)
    requires NonNegativeWeights(weight)
    ensures r.confidence == NeedUnplugged <==> |unplugged| < 2
    ensures |unplugged| < 2 ==> r.estimate == DashText && r.slope == "n/a"
    ensures 2 <= |unplugged| ==> (r.estimate == DashText <==> LinReg(unplugged, weight).None?)
    ensures r.estimate == FlatText <==>
      LinReg(unplugged, weight).Some? && LinReg(unplugged, weight).value.0 >= -RateThreshold
    ensures LinReg(unplugged, weight).Some? ==> r.slope == formatRate(LinReg(unplugged, weight).value.0)
    ensures LinReg(unplugged, weight).Some? && LinReg(unplugged, weight).value.0 < -RateThreshold ==>
      var b := LinReg(unplugged, weight).value.0;
      r.estimate == FmtDur(Finite(-latestBatt / b))
      && r.confidence == "(based on " + Itoa(|unplugged|) + " unplugged samples)"
  {
    assert FlatText[1] != DashText[1] && NeedUnplugged[1] == 'n';
    if |unplugged| >= 2 then
      match LinReg(unplugged, weight)
      case Some((b, _)) =>
        if b < -RateThreshold then
          var based := "(based on " + Itoa(|unplugged|) + " unplugged samples)";
          FmtDurIsNotMojibake(Finite(-latestBatt / b));
          assert based[1] == 'b';
          EstimateText(FmtDur(Finite(-latestBatt / b)), formatRate(b), based)
        else
          EstimateText(FlatText, formatRate(b), "")
      case None =>
        var failed := "(regression failed)";
        assert failed[1] == 'r';
        EstimateText(DashText, formatRate(0.0), failed)
    else EstimateText(DashText, "n/a", NeedUnplugged)
  }

  /** The loop collecting the trailing unplugged samples, then the
      regression over them and the choice of text. */
  method TuiEstimate(rows: seq<Row>, weight: real -> real, formatRate: real -> string)
    returns (r: EstimateText)
    requires rows != [] && NonNegativeWeights(weight)
    ensures r == UnpluggedEstimate(rows[SameACStart(rows, false)..], rows[|rows| - 1].batt,
                                   weight, formatRate)
  {
    var latest := rows[|rows| - 1];
    var unplugged := FilterContiguousACState(rows, false);
    r := EstimateOfRun(unplugged, latest.batt, weight, formatRate);
  }

  /** The branching on the number of samples and on the fitted slope. */
  method EstimateOfRun(unplugged: seq<Row>, latestBatt: real, weight: real -> real,
                       formatRate: real -> string) returns (r: EstimateText)
    requires NonNegativeWeights(weight)
    ensures r == UnpluggedEstimate(unplugged, latestBatt, weight, formatRate)
  {
    if |unplugged| >= 2 {
      var b, a, ok := WeightedLinReg(unplugged, weight);
      var est, confidence;
      if ok && b < -RateThreshold {
        var mins := -latestBatt / b;
        est := FmtDur(Finite(mins));
        confidence := "(based on " + Itoa(|unplugged|) + " unplugged samples)";
      } else if ok && b >= -RateThreshold {
        est := FlatText;
        confidence := "";
      } else {
        est := DashText;
        confidence := "(regression failed)";
      }
      r := EstimateText(est, formatRate(b), confidence);
    } else {
      r := EstimateText(DashText, "n/a", NeedUnplugged);
    }
  }

  /** On AC there is never an estimate: the latest sample ends every
      unplugged run. */
  lemma NoEstimateOnAC(rows: seq<Row>, weight: real -> real, formatRate: real -> string)
    requires rows != [] && rows[|rows| - 1].ac && NonNegativeWeights(weight)
    ensures UnpluggedEstimate(rows[SameACStart(rows, false)..], rows[|rows| - 1].batt, weight,
                              formatRate).confidence == NeedUnplugged
  {
    SameACSuffixEmpty(rows, false);
  }

  /** A discharge estimate is the time the fitted line takes to reach an
      empty battery, shown as whole hours and minutes. */
  lemma DischargeEstimateText(unplugged: seq<Row>, latestBatt: real, weight: real -> real,
                              formatRate: real -> string)
    requires NonNegativeWeights(weight) && 0.0 <= latestBatt
    requires LinReg(unplugged, weight).Some? && LinReg(unplugged, weight).value.0 < -RateThreshold
    requires -latestBatt / LinReg(unplugged, weight).value.0 * 60_000_000_000.0 <= MaxInt64 as real
    ensures var b := LinReg(unplugged, weight).value.0;
      var mins := -latestBatt / b;
      var k := mins.Floor;
      latestBatt + b * mins == 0.0
      && UnpluggedEstimate(unplugged, latestBatt, weight, formatRate).estimate
         == NatDigits(k / 60) + "h " + NatDigits(k % 60) + "m"
  {
    var b := LinReg(unplugged, weight).value.0;
    var mins := -latestBatt / b;
    MulQuotient(-latestBatt, b);
    assert 0.0 <= mins by {
      assert -latestBatt <= 0.0 && b < 0.0;
    }
    FmtDurOfMinutes(mins);
  }
}
