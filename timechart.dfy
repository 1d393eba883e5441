/** The battery chart widget: a time window over the samples that zooms
    (anchored at its right edge) and pans (pinned to the data's time
    range), and the rules by which it lays out labels, day/night columns,
    day breaks and the gap-aware battery line. */
module TimeChart {
  import opened Wrappers
  import opened GoInts
  import opened GoTime
  import opened Geometry

  /** A float64 sample value; only the line drawing cares about NaN. */
  datatype Float = NaN | Num(v: real)

  datatype TimePoint = TimePoint(time: Time, value: Float, state: bool)

  datatype TimeSeries = TimeSeries(name: string, points: seq<TimePoint>, color: int)

  /** The visible window: its length and its two ends. */
  datatype View = View(window: Duration, start: Time, end: Time)

  datatype Span = Span(start: Time, end: Time)

  const ZoomStep: real := 0.1
  const MinWindow: Duration := 5 * Minute
  const MaxWindow: Duration := 7 * Day
  const DefaultWindow: Duration := 24 * Hour
  const DefaultDayStart: int := 7
  const DefaultDayEnd: int := 19
  const YMin: real := 0.0
  const YMax: real := 100.0
  /** The longest gap between two samples that the line still joins. */
  const MaxGap: Duration := 5 * Minute

  // ---------------------------------------------------------------------
  // Zoom and pan arithmetic

  /** Zooming in shrinks the window by the zoom step, never below the
      minimum window. */
  function ZoomedIn(w: Duration): (r: Duration)
    ensures MinWindow <= r
  {
    var n := DurationOfFloat(w as real * (1.0 - ZoomStep));
    if n < MinWindow then MinWindow else n
  }

  /** Zooming out grows the window by the zoom step, never above the
      maximum window. */
  function ZoomedOut(w: Duration): (r: Duration)
    ensures r <= MaxWindow
  {
    var n := DurationOfFloat(w as real * (1.0 + ZoomStep));
    if n > MaxWindow then MaxWindow else n
  }

  /** From a window within the limits, zooming in gives a window within
      the limits that is strictly smaller unless it is already the
      minimum, and zooming out one that is strictly larger unless it is
      already the maximum. */
  lemma ZoomStaysInRange(w: Duration)
    requires MinWindow <= w <= MaxWindow
    ensures MinWindow <= ZoomedIn(w) <= w && (ZoomedIn(w) < w || w == MinWindow)
    ensures w <= ZoomedOut(w) <= MaxWindow && (w < ZoomedOut(w) || w == MaxWindow)
  {
    var x := w as real * 0.9;
    assert 0.0 <= x < w as real;
    assert DurationOfFloat(x) == Trunc(x);
    var y := w as real * 1.1;
    assert w as real + 1.0 <= y <= 2.0 * w as real;
    assert InInt64(Trunc(y));
    assert DurationOfFloat(y) == Trunc(y);
  }

  /** The view after a zoom: the right edge stays, the left edge follows
      the new window. */
  function Zoomed(v: View, zoomIn: bool): (r: View)
    ensures r.end == v.end && r.start == v.end - r.window
    ensures r.window == (if zoomIn then ZoomedIn(v.window) else ZoomedOut(v.window))
  {
    var w := if zoomIn then ZoomedIn(v.window) else ZoomedOut(v.window);
    View(w, v.end - w, v.end)
  }

  /** The pan step: a tenth of the window, truncated. */
  function PanDistance(w: Duration): (p: Duration)
    ensures 0 <= w <= MaxInt64 ==> 0 <= p <= w
  {
    var x := w as real * 0.1;
    assert 0 <= w ==> 0 <= Trunc(x) <= w;
    DurationOfFloat(x)
  }

  /** Both ends shifted by the pan step, then pushed back inside
      `[ds, de]`: first against the start, then against the end, where a
      window longer than the data is cut at the data start. */
  function PanSpan(ws: Time, we: Time, ds: Time, de: Time, w: Duration, right: bool): (r: Span)
    ensures ds <= r.start && r.end <= de
    ensures var p := if right then PanDistance(w) else -PanDistance(w);
      ds <= ws + p && we + p <= de ==> r == Span(ws + p, we + p)
  {
    var p := PanDistance(w);
    var s0 := if right then ws + p else ws - p;
    var e0 := if right then we + p else we - p;
    var s1 := if s0 < ds then ds else s0;
    var e1 := if s0 < ds then ds + w else e0;
    if e1 > de then
      Span(if de - w < ds then ds else de - w, de)
    else
      Span(s1, e1)
  }

  /** The view after a pan: unchanged while either data bound is the zero
      time, otherwise the window length stays and the ends move. */
  function Panned(v: View, ds: Time, de: Time, right: bool): (r: View)
    ensures r.window == v.window
    ensures IsZero(ds) || IsZero(de) ==> r == v
    ensures !IsZero(ds) && !IsZero(de) ==> ds <= r.start && r.end <= de
  {
    if IsZero(ds) || IsZero(de) then v
    else
      var s := PanSpan(v.start, v.end, ds, de, v.window, right);
      View(v.window, s.start, s.end)
  }

  /** A window that fits the data keeps its length through a pan. */
  lemma PanKeepsWidth(ws: Time, we: Time, ds: Time, de: Time, w: Duration, right: bool)
    requires 0 <= w <= de - ds && we - ws == w
    ensures var r := PanSpan(ws, we, ds, de, w, right); r.end - r.start == w
  {
  }

  /** A window longer than the data becomes exactly the data's range, and
      stays there on every further pan. */
  lemma PanPinsWideWindow(ws: Time, we: Time, ds: Time, de: Time, w: Duration, right: bool)
    requires ds <= de && de - ds < w
    requires de - ds < we - ws || (ws == ds && we == de && 0 < PanDistance(w))
    ensures PanSpan(ws, we, ds, de, w, right) == Span(ds, de)
  {
  }

  /** Esc: back to the base window ending now. */
  function ResetView(base: Duration, now: Time): (r: View)
    ensures r.window == base && r.end == now && r.end - r.start == base
  {
    View(base, now - base, now)
  }

  // ---------------------------------------------------------------------
  // Data bounds

  function PointTimes(points: seq<TimePoint>): (ts: seq<Time>)
    ensures |ts| == |points| && forall i :: 0 <= i < |points| ==> ts[i] == points[i].time
  {
    seq(|points|, i requires 0 <= i < |points| => points[i].time)
  }

  /** Every point time of every series, series by series. */
  function AllTimes(series: seq<TimeSeries>): (ts: seq<Time>)
  {
    if series == [] then []
    else AllTimes(series[..|series| - 1]) + PointTimes(series[|series| - 1].points)
  }

  /** The time of every point of every series is among `AllTimes`. */
  lemma {:induction false} AllTimesHasEveryPoint(series: seq<TimeSeries>, k: nat, i: nat)
    requires k < |series| && i < |series[k].points|
    ensures series[k].points[i].time in AllTimes(series)
  {
    var n := |series| - 1;
    if k == n {
      assert PointTimes(series[n].points)[i] == series[k].points[i].time;
    } else {
      var init := series[..n];
      assert init[k] == series[k];
      AllTimesHasEveryPoint(init, k, i);
    }
  }

  /** The earliest time, keeping the first of equal ones as the scan does. */
  function Earliest(ts: seq<Time>): (m: Time)
    requires ts != []
    ensures m in ts && forall t :: t in ts ==> m <= t
  {
    if |ts| == 1 then ts[0]
    else
      var init, last := ts[..|ts| - 1], ts[|ts| - 1];
      var m := Earliest(init);
      assert ts == init + [last];
      if last < m then last else m
  }

  function Latest(ts: seq<Time>): (m: Time)
    requires ts != []
    ensures m in ts && forall t :: t in ts ==> t <= m
  {
    if |ts| == 1 then ts[0]
    else
      var init, last := ts[..|ts| - 1], ts[|ts| - 1];
      var m := Latest(init);
      assert ts == init + [last];
      if last > m then last else m
  }

  /** The data range of a set of series: earliest and latest point time,
      or the zero time twice when no series has a point. */
  function DataBounds(series: seq<TimeSeries>): (b: Span)
    ensures AllTimes(series) == [] ==> b == Span(ZeroTime, ZeroTime)
    ensures AllTimes(series) != [] ==> b.start in AllTimes(series) && b.end in AllTimes(series)
    ensures forall t :: t in AllTimes(series) ==> b.start <= t <= b.end
  {
    var ts := AllTimes(series);
    if ts == [] then Span(ZeroTime, ZeroTime) else Span(Earliest(ts), Latest(ts))
  }

  /** Every point of every series lies within the data range. */
  lemma DataBoundsCoverEveryPoint(series: seq<TimeSeries>, k: nat, i: nat)
    requires k < |series| && i < |series[k].points|
    ensures var b := DataBounds(series); b.start <= series[k].points[i].time <= b.end
  {
    AllTimesHasEveryPoint(series, k, i);
  }

  /** What the bounds scan holds after seeing the times `seen`. */
  predicate Scanned(seen: seq<Time>, first: bool, earliest: Time, latest: Time)
  {
    (first <==> seen == [])
    && (first ==> earliest == ZeroTime && latest == ZeroTime)
    && (!first ==> earliest == Earliest(seen) && latest == Latest(seen))
  }

  /** The inner loop of the bounds scan, over the points of one series. */
  method ScanPoints(points: seq<TimePoint>, ghost seen: seq<Time>, first0: bool, earliest0: Time, latest0: Time)
    returns (first: bool, earliest: Time, latest: Time)
    requires Scanned(seen, first0, earliest0, latest0)
    ensures Scanned(seen + PointTimes(points), first, earliest, latest)
  {
    first, earliest, latest := first0, earliest0, latest0;
    var j := 0;
    assert seen + PointTimes(points[..0]) == seen;
    while j < |points|
      invariant 0 <= j <= |points|
      invariant Scanned(seen + PointTimes(points[..j]), first, earliest, latest)
    {
      var t := points[j].time;
      ghost var ts := seen + PointTimes(points[..j]);
      assert seen + PointTimes(points[..j + 1]) == ts + [t];
      assert (ts + [t])[..|ts|] == ts;
      if first {
        earliest := t;
        latest := t;
        first := false;
      } else {
        if t < earliest {
          earliest := t;
        }
        if t > latest {
          latest := t;
        }
      }
      j := j + 1;
    }
    assert points[..j] == points;
  }

  // ---------------------------------------------------------------------
  // The widget

  class BatteryChart {
    var series: seq<TimeSeries>
    var baseWindow: Duration
    var currentWindow: Duration
    var windowStart: Time
    var windowEnd: Time
    var dataStart: Time
    var dataEnd: Time
    const dayStart: int
    const dayEnd: int
    var isDragging: bool
    var dragStart: Point
    var dragEnd: Point
    /** Whether a zoom-change callback is registered. */
    var hasCallback: bool
    /** The views the callback has been called with, oldest first. */
    ghost var notified: seq<View>

    function CurrentView(): View
      reads this
    {
      View(currentWindow, windowStart, windowEnd)
    }

    /** A chart of the default day-long window ending `now`, with day
        hours from `dayStart` (inclusive) to `dayEnd` (exclusive). */
    constructor (now: Time, dayStart: int, dayEnd: int)
      ensures series == [] && baseWindow == DefaultWindow
      ensures CurrentView() == ResetView(DefaultWindow, now)
      ensures dataStart == ZeroTime && dataEnd == ZeroTime
      ensures this.dayStart == dayStart && this.dayEnd == dayEnd
      ensures !isDragging && !hasCallback && notified == []
    {
      series := [];
      baseWindow := DefaultWindow;
      currentWindow := DefaultWindow;
      windowEnd := now;
      windowStart := now - DefaultWindow;
      dataStart := ZeroTime;
      dataEnd := ZeroTime;
      this.dayStart := dayStart;
      this.dayEnd := dayEnd;
      isDragging := false;
      dragStart := Point(0, 0);
      dragEnd := Point(0, 0);
      hasCallback := false;
      notified := [];
    }

    method SetOnZoomChange()
      modifies this`hasCallback
      ensures hasCallback
    {
      hasCallback := true;
    }

    /** Calls the callback, when there is one, with the current view. */
    method TriggerZoomChange()
      modifies this`notified
      ensures notified == old(notified) + (if hasCallback then [CurrentView()] else [])
    {
      if hasCallback {
        notified := notified + [CurrentView()];
      }
    }

    /** Recomputes the data range from the series; with no series at all
        the previous range is kept. */
    method UpdateDataBounds()
      modifies this`dataStart, this`dataEnd
      ensures series == [] ==> dataStart == old(dataStart) && dataEnd == old(dataEnd)
      ensures series != [] ==> Span(dataStart, dataEnd) == DataBounds(series)
    {
      if |series| == 0 {
        return;
      }
      var earliest, latest := ZeroTime, ZeroTime;
      var first := true;
      var i := 0;
      while i < |series|
        invariant 0 <= i <= |series|
        invariant Scanned(AllTimes(series[..i]), first, earliest, latest)
      {
        assert series[..i + 1][..i] == series[..i];
        first, earliest, latest := ScanPoints(series[i].points, AllTimes(series[..i]), first, earliest, latest);
        i := i + 1;
      }
      assert series[..i] == series;
      dataStart := earliest;
      dataEnd := latest;
    }

    method SetSeries(s: seq<TimeSeries>)
      modifies this`series, this`dataStart, this`dataEnd
      ensures series == s
      ensures s == [] ==> dataStart == old(dataStart) && dataEnd == old(dataEnd)
      ensures s != [] ==> Span(dataStart, dataEnd) == DataBounds(s)
    {
      series := s;
      UpdateDataBounds();
    }

    method AddSeries(name: string, points: seq<TimePoint>, color: int)
      modifies this`series, this`dataStart, this`dataEnd
      ensures series == old(series) + [TimeSeries(name, points, color)]
      ensures Span(dataStart, dataEnd) == DataBounds(series)
    {
      series := series + [TimeSeries(name, points, color)];
      UpdateDataBounds();
    }

    method ClearSeries()
      modifies this`series, this`dataStart, this`dataEnd
      ensures series == [] && dataStart == ZeroTime && dataEnd == ZeroTime
    {
      series := [];
      dataStart := ZeroTime;
      dataEnd := ZeroTime;
    }

    /** A new base window, shown ending `now`; no callback. */
    method SetWindow(window: Duration, now: Time)
      modifies this`baseWindow, this`currentWindow, this`windowStart, this`windowEnd
      ensures baseWindow == window && CurrentView() == ResetView(window, now)
    {
      baseWindow := window;
      currentWindow := window;
      windowEnd := now;
      windowStart := now - window;
    }

    method Zoom(zoomIn: bool)
      modifies this`currentWindow, this`windowStart, this`notified
      ensures CurrentView() == Zoomed(old(CurrentView()), zoomIn)
      ensures notified == old(notified) + (if hasCallback then [CurrentView()] else [])
    {
      if zoomIn {
        var newWindow := DurationOfFloat(currentWindow as real * (1.0 - ZoomStep));
        if newWindow < MinWindow {
          newWindow := MinWindow;
        }
        currentWindow := newWindow;
      } else {
        var newWindow := DurationOfFloat(currentWindow as real * (1.0 + ZoomStep));
        if newWindow > MaxWindow {
          newWindow := MaxWindow;
        }
        currentWindow := newWindow;
      }
      windowStart := windowEnd - currentWindow;
      TriggerZoomChange();
    }

    method Pan(right: bool)
      modifies this`windowStart, this`windowEnd, this`notified
      ensures CurrentView() == Panned(old(CurrentView()), dataStart, dataEnd, right)
      ensures IsZero(dataStart) || IsZero(dataEnd) ==> notified == old(notified)
      ensures !IsZero(dataStart) && !IsZero(dataEnd) ==>
        notified == old(notified) + (if hasCallback then [CurrentView()] else [])
    {
      if IsZero(dataStart) || IsZero(dataEnd) {
        return;
      }
      var panDistance := PanDistance(currentWindow);
      var newStart, newEnd;
      if right {
        newStart := windowStart + panDistance;
        newEnd := windowEnd + panDistance;
      } else {
        newStart := windowStart - panDistance;
        newEnd := windowEnd - panDistance;
      }
      if newStart < dataStart {
        newStart := dataStart;
        newEnd := newStart + currentWindow;
      }
      if newEnd > dataEnd {
        newEnd := dataEnd;
        newStart := newEnd - currentWindow;
        if newStart < dataStart {
          newStart := dataStart;
        }
      }
      windowStart := newStart;
      windowEnd := newEnd;
      TriggerZoomChange();
    }

    method Keyboard(k: Key, now: Time)
      modifies this`currentWindow, this`windowStart, this`windowEnd, this`notified
      ensures var v := old(CurrentView());
        CurrentView() == match KeyAction(k)
          case PanLeft => Panned(v, dataStart, dataEnd, false)
          case PanRight => Panned(v, dataStart, dataEnd, true)
          case ZoomIn => Zoomed(v, true)
          case ZoomOut => Zoomed(v, false)
          case Reset => ResetView(baseWindow, now)
          case Ignore => v
      ensures KeyAction(k) == Ignore ==> notified == old(notified)
      ensures KeyAction(k) in {ZoomIn, ZoomOut, Reset} ==>
        notified == old(notified) + (if hasCallback then [CurrentView()] else [])
      ensures KeyAction(k) in {PanLeft, PanRight} && (IsZero(dataStart) || IsZero(dataEnd)) ==>
        notified == old(notified)
      ensures KeyAction(k) in {PanLeft, PanRight} && !IsZero(dataStart) && !IsZero(dataEnd) ==>
        notified == old(notified) + (if hasCallback then [CurrentView()] else [])
    {
      match KeyAction(k)
      case PanLeft => Pan(false);
      case PanRight => Pan(true);
      case ZoomIn => Zoom(true);
      case ZoomOut => Zoom(false);
      case Reset =>
        currentWindow := baseWindow;
        windowEnd := now;
        windowStart := now - baseWindow;
        TriggerZoomChange();
      case Ignore =>
    }

    /** Wheel zooms; a left press starts a (so far inert) drag selection
        and a release ends it. */
    method Mouse(button: Button, position: Point)
      modifies this`currentWindow, this`windowStart, this`notified,
        this`isDragging, this`dragStart, this`dragEnd
      ensures button == WheelUp ==> CurrentView() == Zoomed(old(CurrentView()), true)
      ensures button == WheelDown ==> CurrentView() == Zoomed(old(CurrentView()), false)
      ensures button in {WheelUp, WheelDown} ==>
        notified == old(notified) + (if hasCallback then [CurrentView()] else [])
      ensures button !in {WheelUp, WheelDown} ==> CurrentView() == old(CurrentView()) && notified == old(notified)
      ensures button == LeftPress ==> isDragging && dragStart == position && dragEnd == position
      ensures button == Release ==> !isDragging
      ensures button != LeftPress ==> dragStart == old(dragStart) && dragEnd == old(dragEnd)
      ensures button !in {LeftPress, Release} ==> isDragging == old(isDragging)
    {
      match button
      case WheelUp => Zoom(true);
      case WheelDown => Zoom(false);
      case LeftPress =>
        isDragging := true;
        dragStart := position;
        dragEnd := position;
      case Release =>
        if isDragging {
          isDragging := false;
        }
      case OtherButton =>
    }

    /** `drawXLabels`: a label at every multiple of the label interval
        (counted from the zero time) strictly inside the shown span, none
        on a plot narrower than ten columns. The loop's guards against a
        label before the start or past the right edge never fire. */
    method XLabels(plot: Rect, start: Time, end: Time) returns (ticks: seq<Tick>)
      ensures plot.Dx() < 10 ==> ticks == []
      ensures forall k :: 0 <= k < |ticks| ==>
        start < ticks[k].time < end && ticks[k].time % LabelInterval(currentWindow) == 0
        && ticks[k].x == Column(plot, start, end - start, ticks[k].time)
        && plot.minX <= ticks[k].x < plot.maxX
      ensures forall k :: 0 < k < |ticks| ==> ticks[k].time == ticks[k - 1].time + LabelInterval(currentWindow)
      ensures var interval := LabelInterval(currentWindow);
        var first := TruncateTime(start, interval) + interval;
        10 <= plot.Dx() ==>
          (ticks == [] <==> end <= first)
          && (ticks != [] ==> ticks[0].time == first && end <= ticks[|ticks| - 1].time + interval)
    {
      var width := plot.Dx();
      if width < 10 {
        return [];
      }
      var labelInterval := LabelInterval(currentWindow);
      var t := TruncateTime(start, labelInterval) + labelInterval;
      NextMultiple(TruncateTime(start, labelInterval), labelInterval);
      ticks := TicksFrom(plot, start, end, labelInterval, t);
    }

    /** `drawDayNightBackground`: the columns painted as day, left to
        right: those whose time falls in the day hours. `hourOf` is the
        local hour of a time. */
    method DayColumns(plot: Rect, start: Time, end: Time, hourOf: Time -> int) returns (cols: seq<int>)
      requires 0 < plot.Dx()
      ensures end - start <= 0 ==> cols == []
      ensures 0 < end - start ==> forall x :: x in cols <==>
        plot.minX <= x < plot.maxX && IsDay(hourOf(PixelTime(plot, start, end - start, x)), dayStart, dayEnd)
      ensures forall k :: 0 < k < |cols| ==> cols[k - 1] < cols[k]
    {
      var timeSpan := end - start;
      if timeSpan <= 0 {
        return [];
      }
      var timePerPixel := Quo(timeSpan, plot.Dx());
      cols := [];
      var x := plot.minX;
      while x < plot.maxX
        invariant plot.minX <= x <= plot.maxX
        invariant forall y :: y in cols <==>
          plot.minX <= y < x && IsDay(hourOf(PixelTime(plot, start, timeSpan, y)), dayStart, dayEnd)
        invariant forall k :: 0 < k < |cols| ==> cols[k - 1] < cols[k]
        invariant cols != [] ==> cols[|cols| - 1] < x
      {
        var pixelTime := start + (x - plot.minX) * timePerPixel;
        var hour := hourOf(pixelTime);
        if hour >= dayStart && hour < dayEnd {
          cols := cols + [x];
        }
        x := x + 1;
      }
    }
  }

  datatype Key = ArrowLeft | ArrowRight | Esc | Rune(c: char)

  datatype Button = WheelUp | WheelDown | LeftPress | Release | OtherButton

  datatype KeyActionKind = PanLeft | PanRight | ZoomIn | ZoomOut | Reset | Ignore

  /** Arrows pan, `i`/`I` zooms in, `o`/`O` zooms out, Esc resets. */
  function KeyAction(k: Key): (a: KeyActionKind)
    ensures a == ZoomIn <==> k == Rune('i') || k == Rune('I')
    ensures a == ZoomOut <==> k == Rune('o') || k == Rune('O')
    ensures a == PanLeft <==> k == ArrowLeft
    ensures a == PanRight <==> k == ArrowRight
    ensures a == Reset <==> k == Esc
  {
    match k
    case ArrowLeft => PanLeft
    case ArrowRight => PanRight
    case Esc => Reset
    case Rune(c) =>
      if c == 'i' || c == 'I' then ZoomIn
      else if c == 'o' || c == 'O' then ZoomOut
      else Ignore
  }

  // ---------------------------------------------------------------------
  // Drawing rules

  datatype Frame = NoData | ResizeNeeded | Plot(plot: Rect)

  /** What `Draw` does before drawing: "No data" without series, a resize
      request when the plot area (the canvas less five columns on the
      left, one on the right, one row on top and three below) would be
      under 5×3 cells; the 10×5 check on the canvas itself is subsumed. */
  function DrawFrame(hasSeries: bool, area: Rect): (f: Frame)
    ensures f == NoData <==> !hasSeries
    ensures f == ResizeNeeded <==> hasSeries && (area.Dx() < 11 || area.Dy() < 7)
    ensures f.Plot? ==> (5 <= f.plot.Dx() && 3 <= f.plot.Dy()
      && area.minX < f.plot.minX && f.plot.maxX < area.maxX
      && area.minY < f.plot.minY && f.plot.maxY < area.maxY)
  {
    if !hasSeries then NoData
    else if area.Dx() < 10 || area.Dy() < 5 then ResizeNeeded
    else
      var plot := Rect(area.minX + 5, area.minY + 1, area.maxX - 1, area.maxY - 3);
      if plot.Dx() < 5 || plot.Dy() < 3 then ResizeNeeded else Plot(plot)
  }

  /** The spacing of the time labels for a window length. */
  function LabelInterval(w: Duration): (i: Duration)
    ensures 5 * Minute <= i <= Day && Day % i == 0
  {
    if w <= 30 * Minute then 5 * Minute
    else if w <= 2 * Hour then 15 * Minute
    else if w <= 4 * Hour then 30 * Minute
    else if w <= 8 * Hour then Hour
    else if w <= 24 * Hour then 2 * Hour
    else if w <= 48 * Hour then 4 * Hour
    else if w <= 7 * Day then 12 * Hour
    else 24 * Hour
  }

  /** A longer window never gets denser labels. */
  lemma LabelIntervalMonotone(a: Duration, b: Duration)
    requires a <= b
    ensures LabelInterval(a) <= LabelInterval(b)
  {
  }

  /** Any window longer than half an hour and no longer than the zoom
      limit spans more than two and at most fourteen label intervals. */
  lemma LabelIntervalsPerWindow(w: Duration)
    requires 30 * Minute < w <= MaxWindow
    ensures 2 * LabelInterval(w) < w <= 14 * LabelInterval(w)
  {
  }

  /** The column of time `t` in a plot showing `span` from `start`: the
      fraction of the span, scaled to the plot width and truncated. */
  function Column(plot: Rect, start: Time, span: Duration, t: Time): int
    requires 0 < span
  {
    plot.minX + Quo(plot.Dx() * (t - start), span)
  }

  lemma ScaleBelow(w: int, a: int, s: int)
    requires 0 < w && 0 <= a < s
    ensures 0 <= w * a && 0 <= (w * a) / s < w
  {
    assert w * a < w * s;
  }

  /** A time inside the shown span falls on a column of the plot. */
  lemma ColumnInPlot(plot: Rect, start: Time, span: Duration, t: Time)
    requires 0 < span && 0 < plot.Dx() && start <= t < start + span
    ensures plot.minX <= Column(plot, start, span, t) < plot.maxX
  {
    var w, a := plot.Dx(), t - start;
    ScaleBelow(w, a, span);
    QuoOfNonNegative(w * a, span);
  }

  datatype Tick = Tick(x: int, time: Time)

  /** The next multiple of `d` after a multiple of `d`. */
  lemma NextMultiple(t: int, d: int)
    requires 0 < d && t % d == 0
    ensures (t + d) % d == 0
  {
    assert t == d * (t / d);
    MultipleMod(t + d, d, t / d + 1);
  }

  /** The `drawXLabels` loop: a tick at `first` and at every `interval`
      after it that is still before `end`. */
  method TicksFrom(plot: Rect, start: Time, end: Time, interval: Duration, first: Time)
    returns (ticks: seq<Tick>)
    requires 0 < interval && 0 < plot.Dx() && start < first && first % interval == 0
    ensures forall k :: 0 <= k < |ticks| ==>
      start < ticks[k].time < end && ticks[k].time % interval == 0
      && ticks[k].x == Column(plot, start, end - start, ticks[k].time)
      && plot.minX <= ticks[k].x < plot.maxX
    ensures forall k :: 0 < k < |ticks| ==> ticks[k].time == ticks[k - 1].time + interval
    ensures ticks == [] <==> end <= first
    ensures ticks != [] ==> ticks[0].time == first && end <= ticks[|ticks| - 1].time + interval
  {
    var timeSpan := end - start;
    var t := first;
    ticks := [];
    while t < end
      invariant first <= t && t % interval == 0
      invariant ticks == [] ==> t == first
      invariant ticks != [] ==> ticks[0].time == first && t == ticks[|ticks| - 1].time + interval
      invariant forall k :: 0 <= k < |ticks| ==>
        start < ticks[k].time < end && ticks[k].time % interval == 0
        && ticks[k].x == Column(plot, start, timeSpan, ticks[k].time)
        && plot.minX <= ticks[k].x < plot.maxX
      invariant forall k :: 0 < k < |ticks| ==> ticks[k].time == ticks[k - 1].time + interval
      decreases end - t
    {
      ColumnInPlot(plot, start, timeSpan, t);
      NextMultiple(t, interval);
      var x := Column(plot, start, timeSpan, t);
      ticks := ticks + [Tick(x, t)];
      t := t + interval;
    }
  }

  /** The time of each column when the span is cut into whole
      per-column steps, as the day/night background does. */
  function PixelTime(plot: Rect, start: Time, span: Duration, x: int): Time
    requires 0 < plot.Dx()
  {
    start + (x - plot.minX) * Quo(span, plot.Dx())
  }

  predicate IsDay(hour: int, dayStart: int, dayEnd: int)
  {
    dayStart <= hour && hour < dayEnd
  }

  datatype DayBreak = DayBreak(x: int, time: Time)

  /** The first midnight the day-break loop considers: the midnight of
      the start's day, or a day later when that is not after the start. */
  function FirstMidnight(start: Time, midnight: Time): Time
  {
    if midnight <= start then midnight + Day else midnight
  }

  /** A day break drawn for a midnight a whole number of days from
      `first`, before `end`, in the column of its time within the plot. */
  predicate BreakAt(b: DayBreak, plot: Rect, start: Time, end: Time, first: Time)
  {
    first <= b.time < end && (b.time - first) % Day == 0
    && 0 < end - start && b.x == Column(plot, start, end - start, b.time)
    && plot.minX <= b.x < plot.maxX
  }

  /** Day breaks at `first`, `first + 24h`, ... before `end`, each kept
      when its column lies in the plot. An empty or negative span puts
      every column out of the plot. */
  method DayBreaks(plot: Rect, start: Time, end: Time, midnight: Time) returns (breaks: seq<DayBreak>)
    ensures forall k :: 0 <= k < |breaks| ==> BreakAt(breaks[k], plot, start, end, FirstMidnight(start, midnight))
    ensures forall k :: 0 < k < |breaks| ==> breaks[k - 1].time < breaks[k].time
    ensures var first := FirstMidnight(start, midnight);
      start < first && 0 < plot.Dx() ==>
        (forall k :: 0 <= k < |breaks| ==> breaks[k].time == first + k * Day)
        && end <= first + |breaks| * Day
  {
    var timeSpan := end - start;
    var width := plot.Dx();
    var current := midnight;
    if current <= start {
      current := current + Day;
    }
    ghost var first := current;
    ghost var n := 0;
    breaks := [];
    while current < end
      invariant current == first + n * Day && 0 <= n && (current - first) % Day == 0
      invariant forall k :: 0 <= k < |breaks| ==> BreakAt(breaks[k], plot, start, end, first) && breaks[k].time < current
      invariant forall k :: 0 < k < |breaks| ==> breaks[k - 1].time < breaks[k].time
      invariant start < first && 0 < width ==>
        |breaks| == n && forall k :: 0 <= k < |breaks| ==> breaks[k].time == first + k * Day
      decreases end - current
    {
      NextMultiple(current - first, Day);
      if 0 < timeSpan {
        var x := Column(plot, start, timeSpan, current);
        if start < first && 0 < width {
          ColumnInPlot(plot, start, timeSpan, current);
        }
        if plot.minX <= x < plot.maxX {
          breaks := breaks + [DayBreak(x, current)];
        }
      }
      current := current + Day;
      n := n + 1;
    }
  }

  /** A pen either lifted or resting on the last drawn pixel. */
  datatype Pen = Lifted | Down(at: Point, time: Time)

  datatype Mark = Segment(from: Point, to: Point) | Pixel(at: Point)

  function EndOf(m: Mark): Point
  {
    if m.Segment? then m.to else m.at
  }

  /** Where a sample lands on a braille canvas of `bw` × `bh` pixels, or
      nothing for a NaN value or a pixel off the canvas. */
  function Place(p: TimePoint, start: Time, span: Duration, bw: int, bh: int): (q: Option<Point>)
    requires 0 < span
    ensures q.Some? ==> 0 <= q.value.x < bw && 0 <= q.value.y < bh
    ensures p.value.NaN? ==> q == None
  {
    match p.value
    case NaN => None
    case Num(v) =>
      var x := Quo(bw * (p.time - start), span);
      var y := bh - 1 - Trunc(bh as real * (v - YMin) / (YMax - YMin));
      if x < 0 || x >= bw || y < 0 || y >= bh then None else Some(Point(x, y))
  }

  predicate InWindow(p: TimePoint, start: Time, end: Time)
  {
    start <= p.time <= end
  }

  /** What drawing a list of samples has produced: the pen, the marks and
      the time of the sample each mark was drawn for. */
  datatype Traced = Traced(pen: Pen, marks: seq<Mark>, times: seq<Time>)

  /** One sample drawn with the pen: outside the window it is passed
      over, NaN or off the canvas it lifts the pen, otherwise it is joined
      to the pen's pixel when at most `MaxGap` later, or set alone. */
  function DrawPoint(r: Traced, p: TimePoint, start: Time, end: Time, bw: int, bh: int): Traced
    requires start < end
  {
    if !InWindow(p, start, end) then r
    else match Place(p, start, end - start, bw, bh)
      case None => Traced(Lifted, r.marks, r.times)
      case Some(q) =>
        var m := if r.pen.Down? && p.time - r.pen.time <= MaxGap then Segment(r.pen.at, q) else Pixel(q);
        Traced(Down(q, p.time), r.marks + [m], r.times + [p.time])
  }

  function Trace(points: seq<TimePoint>, start: Time, end: Time, bw: int, bh: int): Traced
    requires start < end
  {
    if points == [] then Traced(Lifted, [], [])
    else DrawPoint(Trace(points[..|points| - 1], start, end, bw, bh), points[|points| - 1], start, end, bw, bh)
  }

  /** The samples that get a mark: inside the window and placed on the
      canvas. */
  function Drawable(points: seq<TimePoint>, start: Time, end: Time, bw: int, bh: int): (n: nat)
    requires start < end
    ensures n <= |points|
  {
    if points == [] then 0
    else
      var p := points[|points| - 1];
      Drawable(points[..|points| - 1], start, end, bw, bh)
        + (if InWindow(p, start, end) && Place(p, start, end - start, bw, bh).Some? then 1 else 0)
  }

  /** What a drawing keeps true: one time per mark, each inside the
      window's time range, each mark on the canvas, a pen that rests on the
      last mark's end, and a segment only after another mark, continuing
      from its pixel and at most `MaxGap` later. */
  predicate WellDrawn(r: Traced, start: Time, end: Time, bw: int, bh: int)
  {
    |r.marks| == |r.times|
    && (r.pen.Down? ==> (r.marks != [] && EndOf(r.marks[|r.marks| - 1]) == r.pen.at
          && r.times[|r.times| - 1] == r.pen.time))
    && (forall k :: 0 <= k < |r.times| ==> start <= r.times[k] <= end)
    && (forall k :: 0 <= k < |r.marks| ==> OnCanvas(r.marks[k], bw, bh))
    && (forall k :: 0 <= k < |r.marks| && r.marks[k].Segment? ==>
          0 < k && r.marks[k].from == EndOf(r.marks[k - 1]) && r.times[k] - r.times[k - 1] <= MaxGap)
  }

  /** Drawing one sample keeps a drawing well drawn and adds a mark
      exactly when the sample is drawable. */
  lemma DrawPointShape(r: Traced, p: TimePoint, start: Time, end: Time, bw: int, bh: int)
    requires start < end && WellDrawn(r, start, end, bw, bh)
    ensures var r' := DrawPoint(r, p, start, end, bw, bh);
      WellDrawn(r', start, end, bw, bh)
      && |r'.marks| == |r.marks| + (if InWindow(p, start, end) && Place(p, start, end - start, bw, bh).Some? then 1 else 0)
  {
    if InWindow(p, start, end) {
      match Place(p, start, end - start, bw, bh)
      case None =>
      case Some(q) =>
        var m := if r.pen.Down? && p.time - r.pen.time <= MaxGap then Segment(r.pen.at, q) else Pixel(q);
        AppendMark(r, m, q, p.time, start, end, bw, bh);
    }
  }

  lemma AppendMark(r: Traced, m: Mark, q: Point, t: Time, start: Time, end: Time, bw: int, bh: int)
    requires WellDrawn(r, start, end, bw, bh)
    requires 0 <= q.x < bw && 0 <= q.y < bh && start <= t <= end && EndOf(m) == q
    requires m.Segment? ==> r.pen.Down? && m.from == r.pen.at && t - r.pen.time <= MaxGap
    ensures WellDrawn(Traced(Down(q, t), r.marks + [m], r.times + [t]), start, end, bw, bh)
  {
    var marks, times := r.marks + [m], r.times + [t];
    assert OnCanvas(m, bw, bh);
    forall k | 0 <= k < |marks| && marks[k].Segment?
      ensures 0 < k && marks[k].from == EndOf(marks[k - 1]) && times[k] - times[k - 1] <= MaxGap
    {
      if k < |r.marks| {
        assert marks[k] == r.marks[k];
      }
    }
  }

  /** Every drawable sample gets exactly one mark, and the drawing is
      well drawn: so the first mark is always a lone pixel. */
  lemma {:induction false} TraceShape(points: seq<TimePoint>, start: Time, end: Time, bw: int, bh: int)
    requires start < end
    ensures var r := Trace(points, start, end, bw, bh);
      |r.marks| == Drawable(points, start, end, bw, bh) && WellDrawn(r, start, end, bw, bh)
  {
    if points != [] {
      var init := points[..|points| - 1];
      TraceShape(init, start, end, bw, bh);
      DrawPointShape(Trace(init, start, end, bw, bh), points[|points| - 1], start, end, bw, bh);
    }
  }

  /** A sample outside the window is passed over: the drawing, the pen
      included, is what it was before the sample. */
  lemma OutOfWindowSkipped(points: seq<TimePoint>, p: TimePoint, start: Time, end: Time, bw: int, bh: int)
    requires start < end && !InWindow(p, start, end)
    ensures Trace(points + [p], start, end, bw, bh) == Trace(points, start, end, bw, bh)
  {
    assert (points + [p])[..|points|] == points;
  }

  /** A sample inside the window that is NaN or lands off the canvas
      lifts the pen and draws nothing. */
  lemma UnplacedLiftsPen(points: seq<TimePoint>, p: TimePoint, start: Time, end: Time, bw: int, bh: int)
    requires start < end && InWindow(p, start, end) && Place(p, start, end - start, bw, bh).None?
    ensures var r := Trace(points, start, end, bw, bh);
      Trace(points + [p], start, end, bw, bh) == Traced(Lifted, r.marks, r.times)
  {
    assert (points + [p])[..|points|] == points;
  }

  /** A NaN or off-canvas sample breaks the line: the next drawable
      sample is set as a lone pixel, however close in time it is. */
  lemma GapBreaksLine(points: seq<TimePoint>, p: TimePoint, q: TimePoint,
                      start: Time, end: Time, bw: int, bh: int)
    requires start < end
    requires InWindow(p, start, end) && Place(p, start, end - start, bw, bh).None?
    requires InWindow(q, start, end) && Place(q, start, end - start, bw, bh).Some?
    ensures Trace(points + [p, q], start, end, bw, bh).marks
      == Trace(points, start, end, bw, bh).marks + [Pixel(Place(q, start, end - start, bw, bh).value)]
  {
    UnplacedLiftsPen(points, p, start, end, bw, bh);
    assert (points + [p, q])[..|points| + 1] == points + [p];
  }

  predicate OnCanvas(m: Mark, bw: int, bh: int)
  {
    match m
    case Segment(a, b) => 0 <= a.x < bw && 0 <= a.y < bh && 0 <= b.x < bw && 0 <= b.y < bh
    case Pixel(a) => 0 <= a.x < bw && 0 <= a.y < bh
  }

  /** Samples all drawable and at most `MaxGap` apart give one unbroken
      line: a pixel for the first, a segment for each later one. */
  lemma {:induction false} UnbrokenLine(points: seq<TimePoint>, start: Time, end: Time, bw: int, bh: int)
    requires start < end
    requires forall i :: 0 <= i < |points| ==>
      InWindow(points[i], start, end) && Place(points[i], start, end - start, bw, bh).Some?
    requires forall i :: 0 < i < |points| ==> points[i].time - points[i - 1].time <= MaxGap
    ensures var r := Trace(points, start, end, bw, bh);
      |r.marks| == |points| && (points != [] ==> r.pen.Down? && r.pen.time == points[|points| - 1].time)
      && forall k :: 0 < k < |r.marks| ==> r.marks[k].Segment?
  {
    if points != [] {
      var init := points[..|points| - 1];
      UnbrokenLine(init, start, end, bw, bh);
    }
  }

  /** The body of the `drawSeries` loop for one sample. */
  method DrawSample(pen0: Pen, marks0: seq<Mark>, ghost times0: seq<Time>, point: TimePoint,
                    start: Time, end: Time, bw: int, bh: int)
    returns (pen: Pen, marks: seq<Mark>, ghost times: seq<Time>)
    requires start < end
    ensures Traced(pen, marks, times) == DrawPoint(Traced(pen0, marks0, times0), point, start, end, bw, bh)
  {
    pen, marks, times := pen0, marks0, times0;
    var timeSpan := end - start;
    if point.time < start || point.time > end {
      return;
    }
    // A NaN value and a pixel off the canvas both lift the pen.
    var placed := Place(point, start, timeSpan, bw, bh);
    if placed.None? {
      pen := Lifted;
      return;
    }
    var current := placed.value;
    if pen.Down? {
      var timeGap := point.time - pen.time;
      if timeGap <= MaxGap {
        marks := marks + [Segment(pen.at, current)];
      } else {
        marks := marks + [Pixel(current)];
      }
    } else {
      marks := marks + [Pixel(current)];
    }
    times := times + [point.time];
    pen := Down(current, point.time);
  }

  /** `drawSeries`: the marks of `Trace`, nothing for an empty or
      negative span. */
  method DrawSeries(points: seq<TimePoint>, start: Time, end: Time, bw: int, bh: int) returns (marks: seq<Mark>)
    ensures end <= start ==> marks == []
    ensures start < end ==> marks == Trace(points, start, end, bw, bh).marks
  {
    marks := [];
    if |points| == 0 {
      return;
    }
    var timeSpan := end - start;
    if timeSpan <= 0 {
      return;
    }
    var pen := Lifted;
    ghost var times: seq<Time> := [];
    var i := 0;
    while i < |points|
      invariant 0 <= i <= |points|
      invariant Traced(pen, marks, times) == Trace(points[..i], start, end, bw, bh)
    {
      assert points[..i + 1][..i] == points[..i];
      pen, marks, times := DrawSample(pen, marks, times, points[i], start, end, bw, bh);
      i := i + 1;
    }
    assert points[..i] == points;
  }
}
