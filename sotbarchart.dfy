/** The bar chart of daily screen-on time: one bar per day of the last
    week, each labelled with its duration above and its weekday below.
    Drawing is described by the frame it produces: the rectangle each bar
    fills and where its labels go. */
module SotBarChart {
  import opened Wrappers
  import opened GoInts
  import opened GoTime
  import opened GoStrings
  import opened Geometry

  datatype SOTBarData = SOTBarData(date: Time, sotDuration: Duration, isToday: bool, hasData: bool)

  /** `formatDuration`: `"00:00"` for a duration that is not positive,
      otherwise `"%02d:%02d"` of the whole hours and the minutes left over. */
  function FormatDuration(d: Duration): (s: string)
    ensures d <= 0 ==> s == "00:00"
  {
    if d <= 0 then "00:00" else Pad2(WholeHours(d)) + ":" + Pad2(Rem(WholeMinutes(d), 60))
  }

  /** Below 100 hours the text is `HH:MM`, and reading its two numbers
      back gives the whole minutes of `d`. */
  lemma FormatDurationReadsBack(d: Duration)
    requires 0 < d < 100 * Hour
    ensures var s := FormatDuration(d); |s| == 5 && s[2] == ':'
    ensures var s := FormatDuration(d); AllDigits(s[..2]) && AllDigits(s[3..])
    ensures var s := FormatDuration(d); DigitsValue(s[3..]) < 60
    ensures var s := FormatDuration(d); 60 * DigitsValue(s[..2]) + DigitsValue(s[3..]) == d / Minute
  {
    HourMinuteSplit(d);
    var h, m := WholeHours(d), Rem(WholeMinutes(d), 60);
    QuoOfNonNegative(WholeMinutes(d), 60);
    assert 0 <= h < 100 && 0 <= m < 60;
    var s := FormatDuration(d);
    var ph, pm := Pad2(h), Pad2(m);
    assert s == ph + ":" + pm;
    assert s[..2] == ph;
    assert s[3..] == pm;
    assert DigitsValue(ph) == h && DigitsValue(pm) == m;
  }

  // ---------------------------------------------------------------------
  // Layout

  datatype BarColor = Regular | TodayColor

  /** One drawn bar: it paints the cells of columns `x..x+width-1` that lie
      in the bar area, from row `top` down to the bottom of the bar area. */
  datatype Bar = Bar(
    x: int, width: int, height: int, top: int, color: BarColor,
    timeLabel: string, timeLabelAt: Option<Point>,
    dayLabel: string, dayLabelAt: Option<Point>)

  datatype Frame = ResizeNeeded | NoData | Bars(barArea: Rect, bars: seq<Bar>)

  /** The bar area: the canvas less a row for time labels above and a row
      for day labels below. */
  function BarArea(area: Rect): Rect
  {
    Rect(area.minX, area.minY + 1, area.maxX, area.maxY - 1)
  }

  /** Bar width and spacing for `n` bars across `width` columns: one
      column between bars, unless the bars would be narrower than a
      column, in which case they are one column wide and touch. */
  function BarWidth(width: int, n: int): (r: (int, int))
    requires 0 < n
  {
    var w := Quo(width - (n - 1), n);
    if w < 1 then (1, 0) else (w, 1)
  }

  lemma QuoAtLeastOne(a: int, n: int)
    requires 0 < n <= a
    ensures 1 <= Quo(a, n) && n * Quo(a, n) <= a
  {
    QuoOfNonNegative(a, n);
    ModBounds(a, n);
    DivMonotone(n, a, n);
    MultipleMod(n, n, 1);
  }

  lemma QuoBelowOne(a: int, n: int)
    requires 0 < n && a < n
    ensures Quo(a, n) < 1
  {
    var q := Quo(a, n);
    if q >= 1 {
      MulAtLeast(n, q);
    }
  }

  /** When there is room for `n` bars and their gaps, the bars are at least
      one column wide, one column apart, and all fit; otherwise they are one
      column wide with no gaps. */
  lemma BarWidthFits(width: int, n: int)
    requires 0 < n
    ensures var (w, sp) := BarWidth(width, n);
      if width - (n - 1) >= n then 1 <= w && sp == 1 && n * w + (n - 1) <= width
      else w == 1 && sp == 0
  {
    var avail := width - (n - 1);
    if avail >= n {
      QuoAtLeastOne(avail, n);
    } else {
      QuoBelowOne(avail, n);
    }
  }

  /** The largest duration, or 0 when none is positive. */
  function MaxDuration(data: seq<SOTBarData>): (m: Duration)
    ensures 0 <= m && forall k :: 0 <= k < |data| ==> data[k].sotDuration <= m
    ensures m == 0 || exists k :: 0 <= k < |data| && data[k].sotDuration == m
  {
    if data == [] then 0
    else
      var m := MaxDuration(data[..|data| - 1]);
      var d := data[|data| - 1].sotDuration;
      assert forall k :: 0 <= k < |data| - 1 ==> data[..|data| - 1][k] == data[k];
      if d > m then d else m
  }

  /** The duration of a full-height bar: the largest, but at least an hour. */
  function Scale(data: seq<SOTBarData>): (m: Duration)
    ensures Hour <= m && forall k :: 0 <= k < |data| ==> data[k].sotDuration <= m
  {
    var m := MaxDuration(data);
    if m < Hour then Hour else m
  }

  /** `int(float64(rows) * d.Seconds() / scale.Seconds())`: the rows a
      duration fills, truncated toward zero. */
  function BarHeight(rows: int, d: Duration, scale: Duration): int
    requires 0 < scale
  {
    Quo(rows * d, scale)
  }

  /** A bar of a non-negative duration is between empty and the full
      height of the bar area, a bar of the scale duration is full height,
      and a longer duration never gives a shorter bar. */
  lemma BarHeightBounds(rows: nat, d: Duration, d': Duration, scale: Duration)
    requires 0 <= d <= d' <= scale && 0 < scale
    ensures 0 <= BarHeight(rows, d, scale) <= BarHeight(rows, d', scale) <= rows
    ensures d' == scale ==> BarHeight(rows, d', scale) == rows
  {
    var p, p', t := rows * d, rows * d', rows * scale;
    assert 0 <= p <= p' <= t by {
      MulMonotone(rows, 0, d);
      MulMonotone(rows, d, d');
      MulMonotone(rows, d', scale);
    }
    QuoOfNonNegative(p, scale);
    QuoOfNonNegative(p', scale);
    DivBounds(p, p', t, scale, rows);
  }

  lemma DivBounds(p: int, p': int, t: int, scale: int, rows: int)
    requires 0 <= p <= p' <= t && 0 < scale && t == rows * scale
    ensures 0 <= p / scale <= p' / scale <= rows
    ensures p' == t ==> p' / scale == rows
  {
    MultipleMod(t, scale, rows);
    DivMonotone(0, p, scale);
    DivMonotone(p, p', scale);
    DivMonotone(p', t, scale);
  }

  lemma DivMonotone(a: int, b: int, m: int)
    requires 0 <= a <= b && 0 < m
    ensures a / m <= b / m
  {
    ModBounds(a, m);
    ModBounds(b, m);
    var qa, qb := a / m, b / m;
    if qa > qb {
      MulAtLeast(m, qa - qb);
    }
  }

  lemma MulMonotone(a: int, x: int, y: int)
    requires 0 <= a && x <= y
    ensures a * x <= a * y
  {
    assert a * y - a * x == a * (y - x);
  }

  /** The position of a label of `len` characters centred on `center`, if
      it fits between the left and right edges of the canvas. */
  function LabelAt(area: Rect, center: int, len: nat, y: int): (p: Option<Point>)
    ensures p.Some? ==> area.minX <= p.value.x && p.value.x + len <= area.maxX && p.value.y == y
  {
    var x := center - len / 2;
    if x >= area.minX && x + len <= area.maxX then Some(Point(x, y)) else None
  }

  /** The bar of one day, starting at column `x`. */
  function LayoutBar(area: Rect, x: int, width: int, scale: Duration, d: SOTBarData, weekday: Time -> string): (b: Bar)
    requires 0 < scale
    ensures b.color == TodayColor <==> d.isToday
    ensures b.dayLabel == if d.isToday then "Today" else weekday(d.date)
    ensures b.timeLabel == FormatDuration(d.sotDuration)
  {
    var barArea := BarArea(area);
    var height := BarHeight(barArea.Dy(), d.sotDuration, scale);
    var top := barArea.maxY - height;
    var center := x + Quo(width, 2);
    var timeLabel := FormatDuration(d.sotDuration);
    var dayLabel := if d.isToday then "Today" else weekday(d.date);
    Bar(x, width, height, top, if d.isToday then TodayColor else Regular,
        timeLabel, LabelAt(area, center, |timeLabel|, if top - 1 < area.minY then area.minY else top - 1),
        dayLabel, LabelAt(area, center, |dayLabel|, area.maxY - 1))
  }

  /** The first column of bar `i`, bars starting every `step` columns. */
  function BarX(barArea: Rect, step: int, i: int): int
  {
    barArea.minX + i * step
  }

  /** The bars of `data`, `w` columns wide and `sp` apart, left to right. */
  function LayoutBars(area: Rect, data: seq<SOTBarData>, w: int, sp: int, scale: Duration, weekday: Time -> string): (bars: seq<Bar>)
    requires 0 < scale
    ensures |bars| == |data|
  {
    seq(|data|, i requires 0 <= i < |data| => LayoutBar(area, BarX(BarArea(area), w + sp, i), w, scale, data[i], weekday))
  }

  /** The bar loop of `Draw`: the bars of the days, left to right. */
  method DrawBars(area: Rect, days: seq<SOTBarData>, w: int, sp: int, scale: Duration, weekday: Time -> string)
    returns (bars: seq<Bar>)
    requires 0 < scale
    ensures bars == LayoutBars(area, days, w, sp, scale, weekday)
  {
    bars := [];
    var i := 0;
    while i < |days|
      invariant 0 <= i <= |days| && |bars| == i
      invariant forall k :: 0 <= k < i ==>
        bars[k] == LayoutBar(area, BarX(BarArea(area), w + sp, k), w, scale, days[k], weekday)
    {
      var barX := BarX(BarArea(area), w + sp, i);
      bars := bars + [LayoutBar(area, barX, w, scale, days[i], weekday)];
      i := i + 1;
    }
  }

  /** What `Draw` produces on a canvas of `area` for `data`. `weekday` is
      `Format("Mon")` of a date. */
  function Layout(area: Rect, data: seq<SOTBarData>, weekday: Time -> string): Frame
  {
    if area.Dx() < 10 || area.Dy() < 5 then ResizeNeeded
    else if data == [] then NoData
    else
      var barArea := BarArea(area);
      if barArea.Dy() < 1 then ResizeNeeded
      else
        var (w, sp) := BarWidth(barArea.Dx(), |data|);
        var scale := Scale(data);
        Bars(barArea, LayoutBars(area, data, w, sp, scale, weekday))
  }

  /** A canvas is too small exactly when it is narrower than 10 columns or
      lower than 5 rows: the check on the bar area can never fire. */
  lemma ResizeNeededExactly(area: Rect, data: seq<SOTBarData>, weekday: Time -> string)
    ensures Layout(area, data, weekday).ResizeNeeded? <==> area.Dx() < 10 || area.Dy() < 5
    ensures Layout(area, data, weekday).NoData? <==> !(area.Dx() < 10 || area.Dy() < 5) && data == []
  {
  }

  /** Every bar of a non-negative duration lies within the bar area's
      rows, the longest (of at least an hour) fills them, and each bar's
      colour and day label follow whether it is today's. */
  lemma BarsFitRows(area: Rect, data: seq<SOTBarData>, weekday: Time -> string, i: nat)
    requires Layout(area, data, weekday).Bars? && i < |data|
    requires forall k :: 0 <= k < |data| ==> 0 <= data[k].sotDuration
    ensures var f := Layout(area, data, weekday);
      |f.bars| == |data|
      && 0 <= f.bars[i].height <= f.barArea.Dy()
      && f.barArea.minY <= f.bars[i].top <= f.barArea.maxY
      && (data[i].sotDuration == Scale(data) ==> f.bars[i].top == f.barArea.minY)
  {
    var barArea := BarArea(area);
    BarHeightBounds(barArea.Dy(), data[i].sotDuration, Scale(data), Scale(data));
  }

  /** Where bar `i` starts and how wide it is. */
  lemma BarPlace(area: Rect, data: seq<SOTBarData>, weekday: Time -> string, i: nat)
    requires Layout(area, data, weekday).Bars? && i < |data|
    ensures var f := Layout(area, data, weekday);
      var (w, sp) := BarWidth(BarArea(area).Dx(), |data|);
      |f.bars| == |data| && f.bars[i].x == BarX(BarArea(area), w + sp, i) && f.bars[i].width == w
  {
  }

  lemma SpacedApart(x0: int, w: int, sp: int, i: int, j: int)
    requires 1 <= w && 0 <= sp && 0 <= i < j
    ensures x0 + i * (w + sp) + w <= x0 + j * (w + sp)
  {
    MulAtLeast(w + sp, j - i);
    assert j * (w + sp) == i * (w + sp) + (j - i) * (w + sp);
  }

  /** Bars are drawn left to right in day order and do not overlap. */
  lemma BarsInOrder(area: Rect, data: seq<SOTBarData>, weekday: Time -> string, i: nat, j: nat)
    requires Layout(area, data, weekday).Bars? && i < j < |data|
    ensures var f := Layout(area, data, weekday);
      f.bars[i].x + f.bars[i].width <= f.bars[j].x
  {
    var (w, sp) := BarWidth(BarArea(area).Dx(), |data|);
    BarPlace(area, data, weekday, i);
    BarPlace(area, data, weekday, j);
    SpacedApart(BarArea(area).minX, w, sp, i, j);
  }

  // ---------------------------------------------------------------------
  // The widget

  class SOTBarChart {
    var data: seq<SOTBarData>

    constructor ()
      ensures data == []
    {
      data := [];
    }

    /** `UpdateData`: one entry per day from six days ago to today, oldest
        first, with the screen-on time `dailySot` gives for that day.
        `addDays(now, k)` is `now.AddDate(0, 0, k)`. */
    method UpdateData(now: Time, addDays: (Time, int) -> Time, dailySot: Time -> Duration)
      modifies this
      ensures |data| == 7
      ensures forall k :: 0 <= k < 7 ==>
        data[k].date == addDays(now, k - 6) && data[k].sotDuration == dailySot(data[k].date)
        && (data[k].isToday <==> k == 6) && (data[k].hasData <==> data[k].sotDuration > 0)
    {
      var week: seq<SOTBarData> := [];
      var i := 6;
      while i >= 0
        invariant -1 <= i <= 6 && |week| == 6 - i
        invariant forall k :: 0 <= k < |week| ==>
          week[k].date == addDays(now, k - 6) && week[k].sotDuration == dailySot(week[k].date)
          && (week[k].isToday <==> k == 6) && (week[k].hasData <==> week[k].sotDuration > 0)
      {
        var date := addDays(now, -i);
        var sot := dailySot(date);
        week := week + [SOTBarData(date, sot, i == 0, sot > 0)];
        i := i - 1;
      }
      data := week;
    }

    /** The largest screen-on time of the week, at least 0. */
    method MaxSot() returns (m: Duration)
      ensures m == MaxDuration(data)
    {
      m := 0;
      var i := 0;
      while i < |data|
        invariant 0 <= i <= |data|
        invariant m == MaxDuration(data[..i])
      {
        assert data[..i + 1][..i] == data[..i];
        if data[i].sotDuration > m {
          m := data[i].sotDuration;
        }
        i := i + 1;
      }
      assert data[..i] == data;
    }

    /** `Draw` on a canvas of `area`. */
    method Draw(area: Rect, weekday: Time -> string) returns (f: Frame)
      ensures f == Layout(area, data, weekday)
    {
      if area.Dx() < 10 || area.Dy() < 5 {
        return ResizeNeeded;
      }
      if |data| == 0 {
        return NoData;
      }
      var barArea := BarArea(area);
      if barArea.Dy() < 1 {
        return ResizeNeeded;
      }
      var n := |data|;
      var (barWidth, barSpacing) := BarWidth(barArea.Dx(), n);
      var scale := MaxSot();
      if scale < Hour {
        scale := Hour;
      }
      var bars := DrawBars(area, data, barWidth, barSpacing, scale, weekday);
      assert scale == Scale(data);
      f := Bars(barArea, bars);
    }
  }
}
