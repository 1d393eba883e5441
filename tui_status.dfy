/** The status summary of the `internal/tui` package: when the current AC
    state began, the rate label, the time estimate, the sample counts, the
    configuration line and the last suspend event. */
module TuiStatus {
  import opened Wrappers
  import opened GoInts
  import opened GoTime
  import opened GoStrings
  import opened Analytics
  import opened TuiUtils

  // ---------------------------------------------------------------------
  // FindLastACTransition

  /** The only position that splits `rows` into a prefix ending in the
      other state and a suffix entirely in state `ac` is `SameACStart`. */
  lemma SameACStartIs(rows: seq<Row>, ac: bool, j: nat)
    requires j <= |rows|
    requires forall k :: j <= k < |rows| ==> rows[k].ac == ac
    requires 0 < j ==> rows[j - 1].ac != ac
    ensures SameACStart(rows, ac) == j
  {
  }

  /** Walks back from the last row to where its AC state began; the zero
      time and 0 for no rows. */
  method FindLastACTransition(rows: seq<Row>) returns (t: Time, batt: real)
    ensures rows == [] ==> t == ZeroTime && batt == 0.0
    ensures rows != [] ==>
      var j := SameACStart(rows, rows[|rows| - 1].ac);
      j < |rows| && t == rows[j].t && batt == rows[j].batt
      && (0 < j ==> rows[j - 1].ac != rows[j].ac)
    ensures rows != [] && (forall k :: 0 <= k < |rows| ==> rows[k].ac == rows[0].ac) ==>
      t == rows[0].t && batt == rows[0].batt
  {
    if |rows| == 0 {
      return ZeroTime, 0.0;
    }
    var current := rows[|rows| - 1].ac;
    var i := |rows| - 2;
    while i >= 0
      invariant -1 <= i <= |rows| - 2
      invariant forall k :: i < k < |rows| ==> rows[k].ac == current
    {
      if rows[i].ac != current {
        SameACStartIs(rows, current, i + 1);
        return rows[i + 1].t, rows[i + 1].batt;
      }
      i := i - 1;
    }
    SameACStartIs(rows, current, 0);
    return rows[0].t, rows[0].batt;
  }

  // ---------------------------------------------------------------------
  // Labels and counts

  /** `"Charge Rate"` while on AC, `"Discharge Rate"` otherwise. */
  function RateLabel(ac: bool): (s: string)
    ensures s == "Charge Rate" <==> ac
  {
    if ac then "Charge Rate" else "Discharge Rate"
  }

  /** `"(need ≥2 charging samples)"` or `"(need ≥2 discharging samples)"`. */
  function NeedSamples(ac: bool): (s: string)
    ensures ac <==> s == "(need \U{2265}2 charging samples)"
    ensures !ac <==> s == "(need \U{2265}2 discharging samples)"
  {
    "(need \U{2265}2 " + (if ac then "charging" else "discharging") + " samples)"
  }

  /** The number of rows taken while on AC. */
  function CountAC(rows: seq<Row>): (n: nat)
    ensures n <= |rows|
  {
    if rows == [] then 0
    else CountAC(rows[..|rows| - 1]) + (if rows[|rows| - 1].ac then 1 else 0)
  }

  lemma {:induction false} CountACAppend(a: seq<Row>, b: seq<Row>)
    ensures CountAC(a + b) == CountAC(a) + CountAC(b)
    decreases |b|
  {
    if b == [] {
      assert a + b == a;
    } else {
      assert (a + b)[..|a + b| - 1] == a + b[..|b| - 1];
      CountACAppend(a, b[..|b| - 1]);
    }
  }

  /** Rows all on AC count fully; rows all on battery count nothing. */
  lemma {:induction false} CountACOfOneState(rows: seq<Row>, ac: bool)
    requires forall k :: 0 <= k < |rows| ==> rows[k].ac == ac
    ensures CountAC(rows) == if ac then |rows| else 0
  {
    if rows != [] {
      CountACOfOneState(rows[..|rows| - 1], ac);
    }
  }

  /** The counting loop: every row is either an AC sample or a battery
      sample. */
  method CountSamples(rows: seq<Row>) returns (total: nat, acSamples: nat, battSamples: nat)
    ensures total == |rows|
    ensures acSamples == CountAC(rows) && battSamples == |rows| - CountAC(rows)
    ensures acSamples + battSamples == total
  {
    total := |rows|;
    acSamples, battSamples := 0, 0;
    for i := 0 to |rows|
      invariant acSamples == CountAC(rows[..i]) && acSamples + battSamples == i
    {
      assert rows[..i + 1][..i] == rows[..i];
      if rows[i].ac {
        acSamples := acSamples + 1;
      } else {
        battSamples := battSamples + 1;
      }
    }
    assert rows[..|rows|] == rows;
  }

  // ---------------------------------------------------------------------
  // Configuration line and last suspend event

  const CogIcon: string := "\U{e615}"
  const NoConfigText: string := "  Config: Using defaults (no config file found)"

  /** The configuration line: the defaults notice, the one file found, or
      the last file found and how many others there are. */
  function ConfigLine(paths: seq<string>): (s: string)
    ensures paths == [] ==> s == NoConfigText
    ensures paths != [] ==> HasPrefix(s, CogIcon)
    ensures |paths| == 1 ==> s == CogIcon + "  Config file: " + paths[0]
    ensures |paths| >= 2 ==>
      HasPrefix(s, CogIcon + "  Config files: " + paths[|paths| - 1])
      && HasSuffix(s, " (+ " + Itoa(|paths| - 1) + " more)")
  {
    if |paths| == 0 then NoConfigText
    else if |paths| == 1 then
      var s := CogIcon + "  Config file: " + paths[0];
      s
    else
      var head := CogIcon + "  Config files: " + paths[|paths| - 1];
      var tail := " (+ " + Itoa(|paths| - 1) + " more)";
      assert (head + tail)[..|head|] == head;
      assert (head + tail)[|head + tail| - |tail|..] == tail;
      head + tail
  }

  /** The last element, or `None` when there is none. */
  function LastOf<E>(events: seq<E>): (r: Option<E>)
    ensures r.None? <==> events == []
    ensures r.Some? ==> r.value == events[|events| - 1]
  {
    if events == [] then None else Some(events[|events| - 1])
  }

  // ---------------------------------------------------------------------
  // Estimate

  /** The estimate fields of the status: label, slope text, confidence,
      estimate text, estimate duration and the time it is reached. */
  datatype EstimateFields = EstimateFields(
    rateLabel: string, slope: string, confidence: string,
    estimate: string, duration: Duration, eta: Time)

  /** `time.Duration(estimateMins * float64(time.Minute))`: an infinite
      estimate converts like any value out of range. */
  function EtaDuration(e: Eta): (d: Duration)
    ensures InInt64(d)
    ensures e.Infinite? ==> d == MinInt64
  {
    match e
    case Finite(m) => DurationOfFloat(m * 60_000_000_000.0)
    case Infinite => MinInt64
  }

  /** The estimate fields as `GenerateStatusInfo` computes them: the ok
      branch converts the estimate to a duration without checking whether
      it is infinite. */
  function EstimateAsWritten(contiguous: seq<Row>, latest: Row, weight: real -> real,
                             formatRate: real -> string, now: Time): (f: EstimateFields)
    requires NonNegativeWeights(weight)
    ensures f.rateLabel == RateLabel(latest.ac)
    ensures |contiguous| < 2 ==>
      f.estimate == Dash && f.slope == "n/a" && f.confidence == NeedSamples(latest.ac)
      && f.duration == 0 && f.eta == ZeroTime
    ensures |contiguous| >= 2 ==>
      f.confidence == CalculateRateAndEstimate(contiguous, latest.batt, weight).confidence
    ensures |contiguous| >= 2 && !CalculateRateAndEstimate(contiguous, latest.batt, weight).ok ==>
      f.estimate == Dash && f.slope == "n/a" && f.duration == 0 && f.eta == ZeroTime
    ensures |contiguous| >= 2 && CalculateRateAndEstimate(contiguous, latest.batt, weight).ok ==>
      f.slope == formatRate(CalculateRateAndEstimate(contiguous, latest.batt, weight).rate)
      && f.estimate == FormatDurationAuto(f.duration) && f.eta == RoundTime(now + f.duration, Minute)
    ensures |contiguous| >= 2 && CalculateRateAndEstimate(contiguous, latest.batt, weight).ok ==>
      f.duration == RoundDuration(EtaDuration(CalculateRateAndEstimate(contiguous, latest.batt, weight).estimate), Minute)
  {
    var rateLabel := RateLabel(latest.ac);
    if |contiguous| >= 2 then
      var r := CalculateRateAndEstimate(contiguous, latest.batt, weight);
      if r.ok then
        var dur := RoundDuration(EtaDuration(r.estimate), Minute);
        EstimateFields(rateLabel, formatRate(r.rate), r.confidence, FormatDurationAuto(dur), dur,
                       RoundTime(now + dur, Minute))
      else EstimateFields(rateLabel, "n/a", r.confidence, Dash, 0, ZeroTime)
    else EstimateFields(rateLabel, "n/a", NeedSamples(latest.ac), Dash, 0, ZeroTime)
  }

  lemma QuoNegative(a: int, b: int)
    requires 0 < b && a <= -b
    ensures Quo(a, b) < 0
  {
  }

  /** Finding: whenever the fit succeeds but the estimate is infinite
      (charging without a measurable rise, or discharging without a
      measurable fall), the estimate is shown as a negative hour count and
      its duration is negative. */
  lemma InfiniteEstimateShownNegative(contiguous: seq<Row>, latest: Row, weight: real -> real,
                                      formatRate: real -> string, now: Time)
    requires NonNegativeWeights(weight)
    requires |contiguous| >= 2
    requires var r := CalculateRateAndEstimate(contiguous, latest.batt, weight);
      r.ok && r.estimate.Infinite?
    ensures var f := EstimateAsWritten(contiguous, latest, weight, formatRate, now);
      f.duration < 0 && f.estimate != [] && f.estimate[0] == '-'
  {
    var dur := RoundDuration(MinInt64, Minute);
    assert dur <= MinInt64 + Minute;
    QuoNegative(dur, Hour);
    assert FormatDurationAuto(dur) == Pad2(WholeHours(dur)) + "h " + Pad2(Rem(WholeMinutes(dur), 60)) + "m";
  }

  /** Charging rows that all show the same battery level, once fitted, give
      an infinite estimate: this is the state of a full battery on AC. */
  lemma FlatChargingIsInfinite(contiguous: seq<Row>, batt: real, weight: real -> real)
    requires NonNegativeWeights(weight)
    requires |contiguous| >= 2 && contiguous[0].ac
    requires forall k :: 0 <= k < |contiguous| ==> contiguous[k].batt == batt
    requires LinReg(contiguous, weight).Some?
    ensures var r := CalculateRateAndEstimate(contiguous, batt, weight);
      r.ok && r.rate == 0.0 && r.estimate.Infinite?
  {
    var tNow := contiguous[|contiguous| - 1].t;
    forall k | 0 <= k < |contiguous|
      ensures contiguous[k].batt == batt + 0.0 * MinutesOf(Sub(contiguous[k].t, tNow))
    {
    }
    LinRegExactOnLine(contiguous, weight, batt, 0.0);
  }

  /** The infinity sign the terminal interface shows for an unbounded
      estimate. */
  const Infinity: string := "\U{221e} "

  /** The estimate fields with the guard `cmd/battery-logger/tui.go` has:
      an infinite estimate shows the infinity sign and the reason, and has
      no duration and no time of arrival. */
  function Estimate(contiguous: seq<Row>, latest: Row, weight: real -> real,
                    formatRate: real -> string, now: Time): (f: EstimateFields)
    requires NonNegativeWeights(weight)
    ensures f.rateLabel == RateLabel(latest.ac)
    ensures |contiguous| < 2 ==>
      f.estimate == Dash && f.slope == "n/a" && f.confidence == NeedSamples(latest.ac)
    ensures |contiguous| < 2 ==> f.duration == 0 && f.eta == ZeroTime
    ensures |contiguous| >= 2 && !CalculateRateAndEstimate(contiguous, latest.batt, weight).ok ==>
      f.estimate == Dash && f.slope == "n/a"
      && f.confidence == CalculateRateAndEstimate(contiguous, latest.batt, weight).confidence
      && f.duration == 0 && f.eta == ZeroTime
    ensures |contiguous| >= 2 && CalculateRateAndEstimate(contiguous, latest.batt, weight).ok ==>
      f.slope == formatRate(CalculateRateAndEstimate(contiguous, latest.batt, weight).rate)
      && f.confidence == CalculateRateAndEstimate(contiguous, latest.batt, weight).confidence
    ensures var r := CalculateRateAndEstimate(contiguous, latest.batt, weight);
      |contiguous| >= 2 && r.ok && r.estimate.Infinite? ==>
      f.estimate == Infinity + f.confidence && f.duration == 0 && f.eta == ZeroTime
    ensures var r := CalculateRateAndEstimate(contiguous, latest.batt, weight);
      |contiguous| >= 2 && r.ok && r.estimate.Finite? ==>
      f.duration == RoundDuration(EtaDuration(r.estimate), Minute)
      && f.estimate == FormatDurationAuto(f.duration) && f.eta == RoundTime(now + f.duration, Minute)
  {
    var rateLabel := RateLabel(latest.ac);
    if |contiguous| >= 2 then
      var r := CalculateRateAndEstimate(contiguous, latest.batt, weight);
      if r.ok && r.estimate.Infinite? then
        EstimateFields(rateLabel, formatRate(r.rate), r.confidence, Infinity + r.confidence, 0, ZeroTime)
      else if r.ok then
        var dur := RoundDuration(EtaDuration(r.estimate), Minute);
        EstimateFields(rateLabel, formatRate(r.rate), r.confidence, FormatDurationAuto(dur), dur,
                       RoundTime(now + dur, Minute))
      else EstimateFields(rateLabel, "n/a", r.confidence, Dash, 0, ZeroTime)
    else EstimateFields(rateLabel, "n/a", NeedSamples(latest.ac), Dash, 0, ZeroTime)
  }

  /** The guard changes nothing but the unbounded case: for fewer than two
      samples, a failed fit or a finite estimate both versions agree. */
  lemma GuardChangesOnlyInfinite(contiguous: seq<Row>, latest: Row, weight: real -> real,
                                 formatRate: real -> string, now: Time)
    requires NonNegativeWeights(weight)
    ensures var r := CalculateRateAndEstimate(contiguous, latest.batt, weight);
      !(|contiguous| >= 2 && r.ok && r.estimate.Infinite?) <==>
      Estimate(contiguous, latest, weight, formatRate, now)
      == EstimateAsWritten(contiguous, latest, weight, formatRate, now)
  {
    var r := CalculateRateAndEstimate(contiguous, latest.batt, weight);
    if |contiguous| >= 2 && r.ok && r.estimate.Infinite? {
      var f := EstimateAsWritten(contiguous, latest, weight, formatRate, now);
      InfiniteEstimateShownNegative(contiguous, latest, weight, formatRate, now);
      assert Estimate(contiguous, latest, weight, formatRate, now).duration == 0 != f.duration;
    }
  }

  /** With the guard, a successful fit shows the infinity text exactly when
      the estimate is unbounded; a finite estimate that fits a duration is
      never negative for a battery reading between 0 and 100, and is
      written without a sign. */
  lemma EstimateIsNeverNegative(contiguous: seq<Row>, latest: Row, weight: real -> real,
                                formatRate: real -> string, now: Time)
    requires NonNegativeWeights(weight)
    requires |contiguous| >= 2 && 0.0 <= latest.batt <= 100.0
    requires var r := CalculateRateAndEstimate(contiguous, latest.batt, weight);
      r.ok && (r.estimate.Finite? ==> r.estimate.mins * 60_000_000_000.0 <= MaxInt64 as real)
    ensures var r := CalculateRateAndEstimate(contiguous, latest.batt, weight);
      var f := Estimate(contiguous, latest, weight, formatRate, now);
      (r.estimate.Infinite? ==> f.estimate == Infinity + r.confidence && f.duration == 0)
      && (r.estimate.Finite? ==> 0 <= f.duration && f.estimate[0] != '-')
  {
    var r := CalculateRateAndEstimate(contiguous, latest.batt, weight);
    if r.estimate.Finite? {
      EstimateNonNegative(contiguous, latest.batt, weight);
      var x := r.estimate.mins * 60_000_000_000.0;
      MulMonotoneReal(0.0, r.estimate.mins, 60_000_000_000.0);
      assert 0 <= Trunc(x) <= MaxInt64;
      var dur := RoundDuration(EtaDuration(r.estimate), Minute);
      assert 0 <= dur;
      FormatIsUnsigned(dur);
    }
  }

  /** On a successful fit whose estimate, in nanoseconds, lies a minute
      inside the int64 range, the duration shown is the estimate rounded
      to the nearest whole minute. */
  lemma EstimateDurationIsNearestMinute(contiguous: seq<Row>, latest: Row, weight: real -> real,
                                        formatRate: real -> string, now: Time)
    requires NonNegativeWeights(weight)
    requires |contiguous| >= 2
    requires var r := CalculateRateAndEstimate(contiguous, latest.batt, weight);
      r.ok && r.estimate.Finite?
      && MinInt64 + Minute <= Trunc(r.estimate.mins * 60_000_000_000.0) <= MaxInt64 - Minute
    ensures var r := CalculateRateAndEstimate(contiguous, latest.batt, weight);
      var x := Trunc(r.estimate.mins * 60_000_000_000.0);
      var f := EstimateAsWritten(contiguous, latest, weight, formatRate, now);
      var g := Estimate(contiguous, latest, weight, formatRate, now);
      f.duration % Minute == 0 && 2 * Abs(f.duration - x) <= Minute && g.duration == f.duration
  {
    var r := CalculateRateAndEstimate(contiguous, latest.batt, weight);
    RoundDurationIsNearestMultiple(EtaDuration(r.estimate), Minute);
  }

  /** A non-negative duration is written with digits first. */
  lemma FormatIsUnsigned(d: Duration)
    requires 0 <= d
    ensures FormatDurationAuto(d)[0] != '-'
  {
    if d < Day {
      FormatBelowDay(d);
      assert FormatDurationAuto(d)[..2][0] == FormatDurationAuto(d)[0];
    } else {
      FormatFromDay(d);
    }
  }

  // ---------------------------------------------------------------------
  // GenerateStatusInfo

  /** The fields of `StatusInfo` that the summary decides. */
  datatype StatusInfo<E> = StatusInfo(
    latest: Row, transitionTime: Time, transitionBatt: real,
    rateLabel: string, slopeStr: string, confidence: string, estimate: string,
    estimateDuration: Duration, estimateETA: Time,
    totalSamples: nat, acSamples: nat, battSamples: nat, timeRange: Duration,
    startTime: string, endTime: string, configStr: string, lastSuspendEvent: Option<E>)

  /** The status summary of a non-empty window of rows. The estimate is
      fitted to the final run of rows in the latest AC state and converted
      as written, without a guard for an unbounded estimate (see
      `InfiniteEstimateShownNegative`). `formatClock` stands for
      `Format("Jan 2 15:04")`. */
  method GenerateStatusInfo<E>(rows: seq<Row>, weight: real -> real, formatRate: real -> string,
                               formatClock: Time -> string,
                               now: Time, existingConfigPaths: seq<string>, suspendEvents: seq<E>)
    returns (info: StatusInfo<E>)
    requires rows != [] && NonNegativeWeights(weight)
    ensures info.latest == rows[|rows| - 1]
    ensures var j := SameACStart(rows, rows[|rows| - 1].ac);
      j < |rows| && info.transitionTime == rows[j].t && info.transitionBatt == rows[j].batt
      && var f := EstimateAsWritten(rows[j..], rows[|rows| - 1], weight, formatRate, now);
      info.slopeStr == f.slope && info.confidence == f.confidence && info.estimate == f.estimate
      && info.estimateDuration == f.duration && info.estimateETA == f.eta
    ensures info.rateLabel == RateLabel(rows[|rows| - 1].ac)
    ensures info.totalSamples == |rows| && info.acSamples == CountAC(rows)
    ensures info.acSamples + info.battSamples == info.totalSamples
    ensures info.timeRange == Sub(rows[|rows| - 1].t, rows[0].t)
    ensures info.startTime == formatClock(rows[0].t) && info.endTime == formatClock(rows[|rows| - 1].t)
    ensures info.configStr == ConfigLine(existingConfigPaths)
    ensures info.lastSuspendEvent == LastOf(suspendEvents)
  {
    var latest := rows[|rows| - 1];
    var transitionTime, transitionBatt := FindLastACTransition(rows);
    var contiguous := FilterContiguousACState(rows, latest.ac);
    var f := EstimateAsWritten(contiguous, latest, weight, formatRate, now);
    var total, acSamples, battSamples := CountSamples(rows);
    info := StatusInfo(latest, transitionTime, transitionBatt, f.rateLabel, f.slope, f.confidence,
                       f.estimate, f.duration, f.eta, total, acSamples, battSamples,
                       Sub(latest.t, rows[0].t), formatClock(rows[0].t), formatClock(latest.t), ConfigLine(existingConfigPaths), LastOf(suspendEvents));
  }
}
