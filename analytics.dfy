/** The sample analytics of `internal/analytics/analytics.go`: loose boolean
    parsing, window and same-AC-state filtering, the weighted regression's
    failure conditions, the charge/discharge estimate and the CSV reader.
    Go's float64 values are modelled as exact reals. */
module Analytics {
  import opened Wrappers
  import opened GoInts
  import opened GoTime
  import opened GoStrings
  import LogFile

  /** One logged sample: when it was taken, whether AC power was connected
      and the battery percentage. */
  datatype Row = Row(t: Time, ac: bool, batt: real)

  /** Rows whose timestamps never go backwards, as the logger appends them. */
  predicate Chronological(rows: seq<Row>)
  {
    forall i, j :: 0 <= i < j < |rows| ==> rows[i].t <= rows[j].t
  }

  // ---------------------------------------------------------------------
  // ParseBoolLoose

  const TrueWords: set<string> := {"true", "t", "1", "yes", "y"}
  const FalseWords: set<string> := {"false", "f", "0", "no", "n"}

  /** `%q` of the offending text, without Go's escaping of special characters. */
  function Quoted(s: string): string { "\"" + s + "\"" }

  /** Trims and lower-cases `s`, then accepts the five spellings of true, the
      five of false, or any integer (zero is false). */
  function ParseBoolLoose(s: string): (r: Result<bool>)
    ensures TrimSpace(ToLower(s)) in TrueWords ==> r == Ok(true)
    ensures TrimSpace(ToLower(s)) in FalseWords ==> r == Ok(false)
    ensures TrimSpace(ToLower(s)) !in TrueWords + FalseWords && Atoi(TrimSpace(ToLower(s))).Some? ==>
      r == Ok(Atoi(TrimSpace(ToLower(s))).value != 0)
    ensures r.Err? <==>
      TrimSpace(ToLower(s)) !in TrueWords + FalseWords && Atoi(TrimSpace(ToLower(s))).None?
  {
    var ss := TrimSpace(ToLower(s));
    if ss in TrueWords then Ok(true)
    else if ss in FalseWords then Ok(false)
    else match Atoi(ss)
      case Some(v) => Ok(v != 0)
      case None => Err("bad bool: " + Quoted(s))
  }

  lemma ItoaIsPlain(n: int)
    ensures forall i :: 0 <= i < |Itoa(n)| ==> !IsUpperAscii(Itoa(n)[i]) && !IsSpace(Itoa(n)[i])
  {
    var s := Itoa(n);
    forall i | 0 <= i < |s|
      ensures !IsUpperAscii(s[i]) && !IsSpace(s[i])
    {
      if n < 0 {
        assert i == 0 || IsDigit(s[1..][i - 1]);
      }
    }
  }

  /** Every text that trims and lower-cases to an integer `strconv.Atoi`
      accepts (with a sign, leading zeros or surrounding spaces) parses as
      "not zero", including "1" and "0" which are also among the words. */
  lemma ParseBoolLooseOfInteger(s: string, v: int)
    requires Atoi(TrimSpace(ToLower(s))) == Some(v)
    ensures ParseBoolLoose(s) == Ok(v != 0)
  {
    var ss := TrimSpace(ToLower(s));
    if ss in TrueWords + FalseWords {
      AtoiOfWords(ss);
    }
  }

  /** In particular every int64 as `strconv.Itoa` prints it. */
  lemma ParseBoolLooseOfItoa(n: int)
    requires InInt64(n)
    ensures ParseBoolLoose(Itoa(n)) == Ok(n != 0)
  {
    var s := Itoa(n);
    ItoaIsPlain(n);
    ToLowerOfLower(s);
    assert TrimSpace(s) == s by {
      assert TrimLeftSpace(s) == s;
      assert TrimRightSpace(s) == s;
    }
    AtoiItoa(n);
    ParseBoolLooseOfInteger(s, n);
  }

  /** Of the ten words only "1" and "0" are integers, and they read as 1 and 0. */
  lemma AtoiOfWords(w: string)
    requires w in TrueWords + FalseWords
    ensures Atoi(w).Some? ==> (w == "1" && Atoi(w) == Some(1)) || (w == "0" && Atoi(w) == Some(0))
  {
    AtoiOfOneDigit();
    if w != "1" && w != "0" {
      assert !IsDigit(w[0]) && w[0] != '-' && w[0] != '+';
    }
  }

  lemma AtoiOfOneDigit()
    ensures Atoi("1") == Some(1) && Atoi("0") == Some(0)
  {
    assert "1"[..0] == "" && "0"[..0] == "";
  }

  lemma NotAWord(s: string)
    requires s != [] && (s[0] == '-' || IsDigit(s[0])) && s != "1" && s != "0"
    ensures s !in TrueWords + FalseWords
  {
  }

  // ---------------------------------------------------------------------
  // FilterWindow

  /** Where the window starts: the first row not strictly before `cut`. */
  function WindowStart(rows: seq<Row>, cut: Time): (i: nat)
    ensures i <= |rows|
    ensures forall k :: 0 <= k < i ==> rows[k].t < cut
    ensures i < |rows| ==> cut <= rows[i].t
  {
    if |rows| == 0 || cut <= rows[0].t then 0 else 1 + WindowStart(rows[1..], cut)
  }

  /** The rows at most `since` older than the last row: the scan stops at
      the first row that is not before the cut. */
  method FilterWindow(rows: seq<Row>, since: Duration) returns (r: seq<Row>)
    ensures rows == [] ==> r == []
    ensures rows != [] ==> r == rows[WindowStart(rows, rows[|rows| - 1].t - since)..]
  {
    if |rows| == 0 {
      return [];
    }
    var cut := rows[|rows| - 1].t - since;
    var i := 0;
    while i < |rows| && rows[i].t < cut
      invariant 0 <= i <= WindowStart(rows, cut)
    {
      i := i + 1;
    }
    r := rows[i..];
  }

  /** With a non-negative window the last row is always kept. */
  lemma FilterWindowKeepsLast(rows: seq<Row>, since: Duration)
    requires rows != [] && 0 <= since
    ensures WindowStart(rows, rows[|rows| - 1].t - since) < |rows|
  {
  }

  /** On chronological rows the window is exactly the rows not before the
      cut. */
  lemma FilterWindowOfChronological(rows: seq<Row>, cut: Time)
    requires Chronological(rows)
    ensures forall k :: 0 <= k < |rows| ==> (WindowStart(rows, cut) <= k <==> cut <= rows[k].t)
  {
    var i := WindowStart(rows, cut);
    forall k | 0 <= k < |rows| && i <= k
      ensures cut <= rows[k].t
    {
      assert rows[i].t <= rows[k].t;
    }
  }

  // ---------------------------------------------------------------------
  // FilterContiguousACState

  /** Where the longest suffix of rows in AC state `ac` begins. */
  function SameACStart(rows: seq<Row>, ac: bool): (j: nat)
    ensures j <= |rows|
    ensures forall k :: j <= k < |rows| ==> rows[k].ac == ac
    ensures 0 < j ==> rows[j - 1].ac != ac
  {
    if |rows| == 0 || rows[|rows| - 1].ac != ac then |rows|
    else SameACStart(rows[..|rows| - 1], ac)
  }

  /** Walks back from the last row, prepending rows while they share the
      requested AC state. */
  method FilterContiguousACState(rows: seq<Row>, acState: bool) returns (filtered: seq<Row>)
    ensures filtered == rows[SameACStart(rows, acState)..]
  {
    filtered := [];
    var i := |rows| - 1;
    while i >= 0
      invariant SameACStart(rows, acState) - 1 <= i < |rows|
      invariant filtered == rows[i + 1..]
    {
      if rows[i].ac == acState {
        filtered := [rows[i]] + filtered;
      } else {
        break;
      }
      i := i - 1;
    }
  }

  /** The suffix is empty exactly when there are no rows or the last row is
      in the other state. */
  lemma SameACSuffixEmpty(rows: seq<Row>, ac: bool)
    ensures SameACStart(rows, ac) == |rows| <==> rows == [] || rows[|rows| - 1].ac != ac
  {
  }

  // ---------------------------------------------------------------------
  // WeightedLinReg

  /** `Duration.Minutes()`. */
  function MinutesOf(d: Duration): real { d as real / 60_000_000_000.0 }

  /** The five running sums of the regression. */
  datatype Sums = Sums(w: real, wx: real, wy: real, wxx: real, wxy: real)

  /** The weight of a sample `x` minutes from the newest one is
      `math.Exp(alpha * x)`; it is never negative. */
  ghost predicate NonNegativeWeights(weight: real -> real)
  {
    forall x :: 0.0 <= weight(x)
  }

  /** What one sample contributes: its weight `w`, `x` and reading `y`. */
  function Terms(w: real, x: real, y: real): Sums
  {
    Sums(w, w * x, w * y, w * x * x, w * x * y)
  }

  function Add(s: Sums, t: Sums): Sums
  {
    Sums(s.w + t.w, s.wx + t.wx, s.wy + t.wy, s.wxx + t.wxx, s.wxy + t.wxy)
  }

  /** One step of the accumulation: the sample `r`, `x` minutes before
      `tNow`, weighted `weight(x)`. */
  function Accumulate(s: Sums, r: Row, tNow: Time, weight: real -> real): Sums
  {
    var x := MinutesOf(Sub(r.t, tNow));
    Add(s, Terms(weight(x), x, r.batt))
  }

  /** The sums over `rows`, accumulated from the first row. */
  function SumsOf(rows: seq<Row>, tNow: Time, weight: real -> real): Sums
  {
    if rows == [] then Sums(0.0, 0.0, 0.0, 0.0, 0.0)
    else Accumulate(SumsOf(rows[..|rows| - 1], tNow, weight), rows[|rows| - 1], tNow, weight)
  }

  function Denominator(s: Sums): real { s.w * s.wxx - s.wx * s.wx }

  /** With non-negative weights the total weight is never negative, and a
      zero total weight means every weight was zero. */
  lemma {:induction false} SumsOfNonNegative(rows: seq<Row>, tNow: Time, weight: real -> real)
    requires NonNegativeWeights(weight)
    ensures var s := SumsOf(rows, tNow, weight);
      0.0 <= s.w && (s.w == 0.0 ==> s.wx == 0.0)
  {
    if rows != [] {
      SumsOfNonNegative(rows[..|rows| - 1], tNow, weight);
      assert 0.0 <= weight(MinutesOf(Sub(rows[|rows| - 1].t, tNow)));
    }
  }

  /** The normal equations solved for slope and intercept, or `None` when
      the denominator vanishes. */
  function Solve(s: Sums): (r: Option<(real, real)>)
    requires s.w == 0.0 ==> s.wx == 0.0
    ensures r.None? <==> Denominator(s) == 0.0
  {
    var den := Denominator(s);
    if den == 0.0 then None
    else
      var b := (s.w * s.wxy - s.wx * s.wy) / den;
      Some((b, (s.wy - b * s.wx) / s.w))
  }

  /** One row's contribution written with its `x`, weight and reading named. */
  lemma AccumulateStep(s: Sums, r: Row, tNow: Time, weight: real -> real, x: real, w: real, y: real)
    requires x == MinutesOf(Sub(r.t, tNow)) && w == weight(x) && y == r.batt
    ensures Accumulate(s, r, tNow, weight)
         == Sums(s.w + w, s.wx + w * x, s.wy + w * y, s.wxx + w * x * x, s.wxy + w * x * y)
  {
    assert Accumulate(s, r, tNow, weight) == Add(s, Terms(w, x, y));
  }

  /** The normal equations solved inline give `Solve`'s pair. */
  lemma SolveOf(w: real, wx: real, wy: real, wxx: real, wxy: real, den: real, b: real, a: real)
    requires w == 0.0 ==> wx == 0.0
    requires den == w * wxx - wx * wx && den != 0.0
    requires b == (w * wxy - wx * wy) / den
    requires a == (wy - b * wx) / w
    ensures Solve(Sums(w, wx, wy, wxx, wxy)) == Some((b, a))
  {
    var s := Sums(w, wx, wy, wxx, wxy);
    assert Solve(s).value.0 == b;
    assert Solve(s).value.1 == a;
  }

  /** The regression's result as a value: `Some((slope, intercept))`, or
      `None` for fewer than two rows or a zero denominator. */
  function LinReg(rows: seq<Row>, weight: real -> real): (r: Option<(real, real)>)
    requires NonNegativeWeights(weight)
    ensures |rows| < 2 ==> r.None?
    ensures 2 <= |rows| ==>
      (r.None? <==> Denominator(SumsOf(rows, rows[|rows| - 1].t, weight)) == 0.0)
  {
    if |rows| < 2 then None
    else
      SumsOfNonNegative(rows, rows[|rows| - 1].t, weight);
      Solve(SumsOf(rows, rows[|rows| - 1].t, weight))
  }

  /** The sums over one more row add that row's terms. */
  lemma SumsOfExtend(rows: seq<Row>, i: nat, tNow: Time, weight: real -> real)
    requires i < |rows|
    ensures SumsOf(rows[..i + 1], tNow, weight)
         == Accumulate(SumsOf(rows[..i], tNow, weight), rows[i], tNow, weight)
  {
    assert rows[..i + 1][..i] == rows[..i];
  }

  /** Accumulates the weighted sums in one pass and solves the normal
      equations; `ok` is false when the fit is undetermined. */
  method WeightedLinReg(rows: seq<Row>, weight: real -> real)
    returns (b: real, a: real, ok: bool)
    requires NonNegativeWeights(weight)
    ensures ok <==> LinReg(rows, weight).Some?
    ensures ok ==> (b, a) == LinReg(rows, weight).value
    ensures !ok ==> b == 0.0 && a == 0.0
  {
    if |rows| < 2 {
      return 0.0, 0.0, false;
    }
    var tNow := rows[|rows| - 1].t;
    var sumW, sumWX, sumWY, sumWXX, sumWXY := 0.0, 0.0, 0.0, 0.0, 0.0;
    var i := 0;
    while i < |rows|
      invariant 0 <= i <= |rows|
      invariant Sums(sumW, sumWX, sumWY, sumWXX, sumWXY) == SumsOf(rows[..i], tNow, weight)
    {
      SumsOfExtend(rows, i, tNow, weight);
      var x := MinutesOf(Sub(rows[i].t, tNow));
      var w := weight(x);
      var y := rows[i].batt;
      AccumulateStep(Sums(sumW, sumWX, sumWY, sumWXX, sumWXY), rows[i], tNow, weight, x, w, y);
      sumW := sumW + w;
      sumWX := sumWX + w * x;
      sumWY := sumWY + w * y;
      sumWXX := sumWXX + w * x * x;
      sumWXY := sumWXY + w * x * y;
      i := i + 1;
    }
    assert rows[..i] == rows;
    SumsOfNonNegative(rows, tNow, weight);
    ghost var s := Sums(sumW, sumWX, sumWY, sumWXX, sumWXY);
    assert LinReg(rows, weight) == Solve(s);
    var den := sumW * sumWXX - sumWX * sumWX;
    if den == 0.0 {
      return 0.0, 0.0, false;
    }
    b := (sumW * sumWXY - sumWX * sumWY) / den;
    a := (sumWY - b * sumWX) / sumW;
    ok := true;
    SolveOf(sumW, sumWX, sumWY, sumWXX, sumWXY, den, b, a);
  }

  lemma {:induction false} SumsOfOneInstant(rows: seq<Row>, tNow: Time, weight: real -> real)
    requires forall k :: 0 <= k < |rows| ==> rows[k].t == tNow
    ensures SumsOf(rows, tNow, weight).wx == 0.0 && SumsOf(rows, tNow, weight).wxx == 0.0
  {
    if rows != [] {
      SumsOfOneInstant(rows[..|rows| - 1], tNow, weight);
    }
  }

  /** Samples all taken at the same instant give no regression. */
  lemma LinRegFailsAtOneInstant(rows: seq<Row>, weight: real -> real)
    requires NonNegativeWeights(weight)
    requires forall k :: 0 <= k < |rows| ==> rows[k].t == rows[0].t
    ensures LinReg(rows, weight).None?
  {
    if |rows| >= 2 {
      SumsOfOneInstant(rows, rows[|rows| - 1].t, weight);
    }
  }

  /** The sums' linear relation for the line `c + m * x`. */
  predicate LineRelation(s: Sums, c: real, m: real)
  {
    s.wy == c * s.w + m * s.wx && s.wxy == c * s.wx + m * s.wxx
  }

  /** Adding a point of the line `c + m * x` keeps the sums' linear relation. */
  lemma LineStep(before: Sums, r: Row, tNow: Time, weight: real -> real, c: real, m: real)
    requires LineRelation(before, c, m)
    requires r.batt == c + m * MinutesOf(Sub(r.t, tNow))
    ensures LineRelation(Accumulate(before, r, tNow, weight), c, m)
  {
    var x := MinutesOf(Sub(r.t, tNow));
    var w := weight(x);
    AccumulateStep(before, r, tNow, weight, x, w, r.batt);
    assert w * r.batt == c * w + m * (w * x);
    assert w * x * r.batt == c * (w * x) + m * (w * x * x);
  }

  /** Every reading lies on the line `c + m * x`, `x` minutes from `tNow`. */
  predicate OnLine(rows: seq<Row>, tNow: Time, c: real, m: real)
  {
    rows == [] ||
    (OnLine(rows[..|rows| - 1], tNow, c, m) &&
     rows[|rows| - 1].batt == c + m * MinutesOf(Sub(rows[|rows| - 1].t, tNow)))
  }

  lemma {:induction false} OnLineOfAll(rows: seq<Row>, tNow: Time, c: real, m: real)
    requires forall k :: 0 <= k < |rows| ==> rows[k].batt == c + m * MinutesOf(Sub(rows[k].t, tNow))
    ensures OnLine(rows, tNow, c, m)
  {
    if rows != [] {
      var prefix := rows[..|rows| - 1];
      assert forall k :: 0 <= k < |prefix| ==> prefix[k] == rows[k];
      OnLineOfAll(prefix, tNow, c, m);
    }
  }

  /** When every reading lies on the line `c + m * x`, the sums involving
      readings are determined by the others. */
  lemma {:induction false} SumsOfLine(rows: seq<Row>, tNow: Time, weight: real -> real, c: real, m: real)
    requires OnLine(rows, tNow, c, m)
    ensures LineRelation(SumsOf(rows, tNow, weight), c, m)
  {
    if rows != [] {
      var prefix := rows[..|rows| - 1];
      SumsOfLine(prefix, tNow, weight, c, m);
      LineStep(SumsOf(prefix, tNow, weight), rows[|rows| - 1], tNow, weight, c, m);
    }
  }

  lemma QuotientOfMultiple(p: real, d: real, q: real)
    requires d != 0.0 && p == q * d
    ensures p / d == q
  {
  }

  lemma SlopeNumeratorOnLine(s: Sums, c: real, m: real)
    requires LineRelation(s, c, m)
    ensures s.w * s.wxy - s.wx * s.wy == m * Denominator(s)
  {
    assert s.w * s.wxy == c * (s.w * s.wx) + m * (s.w * s.wxx);
    assert s.wx * s.wy == c * (s.w * s.wx) + m * (s.wx * s.wx);
  }

  /** Sums in the line relation solve to the line's slope and intercept. */
  lemma SolveOnLine(s: Sums, c: real, m: real)
    requires s.w == 0.0 ==> s.wx == 0.0
    requires LineRelation(s, c, m) && Denominator(s) != 0.0
    ensures Solve(s) == Some((m, c))
  {
    SlopeNumeratorOnLine(s, c, m);
    QuotientOfMultiple(s.w * s.wxy - s.wx * s.wy, Denominator(s), m);
    QuotientOfMultiple(s.wy - m * s.wx, s.w, c);
    assert Solve(s).value.0 == m;
    assert Solve(s).value.1 == c;
  }

  /** Samples that lie exactly on a line `c + m * x` give back slope `m` and
      intercept `c` whenever the fit is determined. */
  lemma LinRegExactOnLine(rows: seq<Row>, weight: real -> real, c: real, m: real)
    requires NonNegativeWeights(weight)
    requires rows != []
    requires forall k :: 0 <= k < |rows| ==>
      rows[k].batt == c + m * MinutesOf(Sub(rows[k].t, rows[|rows| - 1].t))
    requires LinReg(rows, weight).Some?
    ensures LinReg(rows, weight).value == (m, c)
  {
    var tNow := rows[|rows| - 1].t;
    OnLineOfAll(rows, tNow, c, m);
    SumsOfLine(rows, tNow, weight, c, m);
    SumsOfNonNegative(rows, tNow, weight);
    SolveOnLine(SumsOf(rows, tNow, weight), c, m);
  }

  // ---------------------------------------------------------------------
  // CalculateRateAndEstimate

  /** Minutes to the target, or `+Inf`. */
  datatype Eta = Finite(mins: real) | Infinite

  datatype RateEstimate = RateEstimate(rate: real, estimate: Eta, confidence: string, ok: bool)

  const NeedTwoSamples: string := "(need \U{2265}2 samples with same AC state)"
  const RegressionFailed: string := "(regression failed)"
  const NotCharging: string := "(not charging or already full)"
  const NotDischarging: string := "(not discharging)"
  const RateThreshold: real := 0.000001

  lemma MulQuotient(p: real, d: real)
    requires d != 0.0
    ensures d * (p / d) == p
  {
  }

  /** Fits the rows (all in one AC state) and estimates the minutes until a
      full battery when charging or an empty one when discharging. */
  function CalculateRateAndEstimate(rows: seq<Row>, currentBatt: real, weight: real -> real)
    : (r: RateEstimate)
    requires NonNegativeWeights(weight)
    ensures |rows| < 2 ==> r == RateEstimate(0.0, Finite(0.0), NeedTwoSamples, false)
    ensures 2 <= |rows| && LinReg(rows, weight).None? ==>
      r == RateEstimate(0.0, Finite(0.0), RegressionFailed, false)
    ensures r.ok <==> LinReg(rows, weight).Some?
    ensures r.ok ==> r.rate == LinReg(rows, weight).value.0
    ensures r.ok && rows[0].ac ==> (r.estimate.Finite? <==> r.rate > RateThreshold)
    ensures r.ok && !rows[0].ac ==> (r.estimate.Finite? <==> r.rate < -RateThreshold)
    ensures r.ok && rows[0].ac && r.estimate.Finite? ==>
      currentBatt + r.rate * r.estimate.mins == 100.0
    ensures r.ok && !rows[0].ac && r.estimate.Finite? ==>
      currentBatt + r.rate * r.estimate.mins == 0.0
    ensures r.ok && r.estimate.Infinite? ==>
      r.confidence == (if rows[0].ac then NotCharging else NotDischarging)
    ensures r.ok && r.estimate.Finite? ==>
      r.confidence == "(based on " + Itoa(|rows|) + (if rows[0].ac then " charging" else " discharging")
                      + " samples)"
  {
    if |rows| < 2 then RateEstimate(0.0, Finite(0.0), NeedTwoSamples, false)
    else
      var isCharging := rows[0].ac;
      match LinReg(rows, weight)
      case None => RateEstimate(0.0, Finite(0.0), RegressionFailed, false)
      case Some((rate, _)) =>
        if isCharging then
          if rate > RateThreshold then
            MulQuotient(100.0 - currentBatt, rate);
            RateEstimate(rate, Finite((100.0 - currentBatt) / rate),
              "(based on " + Itoa(|rows|) + " charging samples)", true)
          else RateEstimate(rate, Infinite, NotCharging, true)
        else
          if rate < -RateThreshold then
            MulQuotient(-currentBatt, rate);
            RateEstimate(rate, Finite(-currentBatt / rate),
              "(based on " + Itoa(|rows|) + " discharging samples)", true)
          else RateEstimate(rate, Infinite, NotDischarging, true)
  }

  /** A finite estimate is never negative while the battery reading is a
      percentage. */
  lemma EstimateNonNegative(rows: seq<Row>, currentBatt: real, weight: real -> real)
    requires NonNegativeWeights(weight)
    requires 0.0 <= currentBatt <= 100.0
    ensures var r := CalculateRateAndEstimate(rows, currentBatt, weight);
      r.ok && r.estimate.Finite? ==> 0.0 <= r.estimate.mins
  {
    var r := CalculateRateAndEstimate(rows, currentBatt, weight);
    if r.ok && r.estimate.Finite? {
      if rows[0].ac {
        assert r.estimate.mins == (100.0 - currentBatt) / r.rate;
      } else {
        assert r.estimate.mins == -currentBatt / r.rate;
      }
    }
  }

  // ---------------------------------------------------------------------
  // FmtDur

  /** The em dash shown where there is no estimate. */
  const Dash: string := "\U{2014}"

  /** `FmtDur`: the dash for an infinite or negative estimate, otherwise
      `"%dh %dm"` of the estimate converted to a duration. */
  function FmtDur(mins: Eta): (s: string)
    ensures s == Dash <==> mins.Infinite? || mins.mins < 0.0
  {
    if mins.Infinite? || mins.mins < 0.0 then Dash
    else
      var d := DurationOfFloat(mins.mins * 60_000_000_000.0);
      Itoa(Quo(d, Hour)) + "h " + Itoa(Quo(Rem(d, Hour), Minute)) + "m"
  }

  /** For a non-negative estimate whose duration fits in 64 bits, the text
      is the whole hours of the whole minutes and the minutes left over. */
  lemma FmtDurOfMinutes(mins: real)
    requires 0.0 <= mins && mins * 60_000_000_000.0 <= MaxInt64 as real
    ensures var k := mins.Floor;
      FmtDur(Finite(mins)) == NatDigits(k / 60) + "h " + NatDigits(k % 60) + "m"
  {
    var k := mins.Floor;
    var x := mins * 60_000_000_000.0;
    assert 0 <= Trunc(x) <= MaxInt64;
    var d := DurationOfFloat(x);
    assert d == Trunc(x);
    TruncScaled(mins, Minute, 60_000_000_000.0);
    HoursAndMinutesOf(d, k);
  }

  // ---------------------------------------------------------------------
  // ParseCSVRows

  /** How header cells are compared: trimmed, then lower-cased. */
  function HeaderKey(s: string): string { ToLower(TrimSpace(s)) }

  /** The position of the first header cell whose key is `key`, or the
      header's length when there is none. */
  function FirstMatch(header: seq<string>, key: string): (i: nat)
    ensures i <= |header|
    ensures forall j :: 0 <= j < i ==> HeaderKey(header[j]) != key
    ensures i < |header| ==> HeaderKey(header[i]) == key
  {
    if |header| == 0 || HeaderKey(header[0]) == key then 0
    else 1 + FirstMatch(header[1..], key)
  }

  /** The `col` lookup: the first header cell matching `name`, or -1. */
  function ColumnIndex(header: seq<string>, name: string): (i: int)
    ensures -1 <= i < |header|
  {
    var k := FirstMatch(header, HeaderKey(name));
    if k == |header| then -1 else k
  }

  /** The `col` closure's scan over the header row. */
  method FindColumn(header: seq<string>, name: string) returns (idx: int)
    ensures idx == ColumnIndex(header, name)
  {
    var key := HeaderKey(name);
    var i := 0;
    while i < |header|
      invariant 0 <= i <= FirstMatch(header, key)
    {
      if HeaderKey(header[i]) == key {
        return i;
      }
      i := i + 1;
    }
    return -1;
  }

  const AcAliases: seq<string> := ["ac_connected", "ac", "ac plugged in (bool)", "ac plugged in"]
  const BattAliases: seq<string> := ["battery_life", "battery", "battery life (%)"]

  /** The position of the first alias that names a header cell, or
      `|aliases|` when none does. */
  function FirstPresentAlias(header: seq<string>, aliases: seq<string>): (k: nat)
    ensures k <= |aliases|
    ensures forall k' :: 0 <= k' < k ==> ColumnIndex(header, aliases[k']) == -1
    ensures k < |aliases| ==> ColumnIndex(header, aliases[k]) != -1
  {
    if |aliases| == 0 || ColumnIndex(header, aliases[0]) != -1 then 0
    else 1 + FirstPresentAlias(header, aliases[1..])
  }

  /** The alias chain: the column of the first alias, or failing that of
      the next one, and so on; -1 when none is present. */
  function AliasIndex(header: seq<string>, aliases: seq<string>): (i: int)
    ensures -1 <= i < |header|
  {
    if |aliases| == 0 then -1
    else if ColumnIndex(header, aliases[0]) != -1 then ColumnIndex(header, aliases[0])
    else AliasIndex(header, aliases[1..])
  }

  /** Alias priority: the chain yields the column of the first alias that is
      present, and -1 exactly when none is. */
  lemma {:induction false} AliasIndexIsFirstPresent(header: seq<string>, aliases: seq<string>)
    ensures var k := FirstPresentAlias(header, aliases);
      AliasIndex(header, aliases) == if k == |aliases| then -1 else ColumnIndex(header, aliases[k])
  {
    if |aliases| > 0 && ColumnIndex(header, aliases[0]) == -1 {
      AliasIndexIsFirstPresent(header, aliases[1..]);
    }
  }

  /** Tries the aliases in order until one of them names a column. */
  method FindAlias(header: seq<string>, aliases: seq<string>) returns (idx: int)
    ensures idx == AliasIndex(header, aliases)
  {
    idx := -1;
    var k := 0;
    while idx == -1 && k < |aliases|
      invariant 0 <= k <= |aliases|
      invariant AliasIndex(header, aliases) == if idx != -1 then idx else AliasIndex(header, aliases[k..])
    {
      assert aliases[k..][1..] == aliases[k + 1..];
      idx := FindColumn(header, aliases[k]);
      k := k + 1;
    }
  }

  /** Where the three needed fields sit in each record. */
  datatype Columns = Columns(ts: nat, ac: nat, batt: nat)

  /** The columns of the timestamp, the AC state and the battery level, or
      `None` when one of them is missing. */
  function ResolveColumns(header: seq<string>): Option<Columns>
  {
    var ts := ColumnIndex(header, "timestamp");
    var ac := AliasIndex(header, AcAliases);
    var batt := AliasIndex(header, BattAliases);
    if ts == -1 || ac == -1 || batt == -1 then None else Some(Columns(ts, ac, batt))
  }

  const RFC3339: string := "2006-01-02T15:04:05Z07:00"
  const FallbackLayouts: seq<string> :=
    ["2006-01-02 15:04:05", "2006-01-02 15:04:05 -0700", "2006-01-02T15:04:05"]

  /** `time.Parse` with the first layout of `layouts` that accepts `s`. */
  function FirstLayout(layouts: seq<string>, s: string, parseTime: (string, string) -> Option<Time>)
    : (t: Option<Time>)
    ensures t.None? <==> forall k :: 0 <= k < |layouts| ==> parseTime(layouts[k], s).None?
    ensures forall k :: 0 <= k < |layouts| ==>
      (parseTime(layouts[k], s).Some?
       && (forall k' :: 0 <= k' < k ==> parseTime(layouts[k'], s).None?)
       ==> t == parseTime(layouts[k], s))
  {
    if |layouts| == 0 then None
    else if parseTime(layouts[0], s).Some? then parseTime(layouts[0], s)
    else
      assert forall k :: 1 <= k < |layouts| ==> layouts[k] == layouts[1..][k - 1];
      FirstLayout(layouts[1..], s, parseTime)
  }

  /** RFC 3339 first, then the three fallback layouts in order. */
  method ParseTimestamp(s: string, parseTime: (string, string) -> Option<Time>) returns (t: Option<Time>)
    ensures t == FirstLayout([RFC3339] + FallbackLayouts, s, parseTime)
  {
    t := parseTime(RFC3339, s);
    if t.Some? {
      return;
    }
    var layouts := FallbackLayouts;
    assert ([RFC3339] + FallbackLayouts)[1..] == layouts;
    var i := 0;
    while i < |layouts|
      invariant 0 <= i <= |layouts|
      invariant FirstLayout(layouts[i..], s, parseTime) == FirstLayout(layouts, s, parseTime)
    {
      var tt := parseTime(layouts[i], s);
      if tt.Some? {
        return tt;
      }
      assert layouts[i..][1..] == layouts[i + 1..];
      i := i + 1;
    }
    return None;
  }

  /** One data record, or `None` when it is too short or a field does not
      parse. A kept row is made of the three columns' values: the
      timestamp under the first layout that accepts it, the loosely parsed
      AC flag and the trimmed battery number. */
  function ParseRecord(rec: seq<string>, c: Columns, parseTime: (string, string) -> Option<Time>,
                       parseFloat: string -> Option<real>): (r: Option<Row>)
    ensures r.Some? <==>
      c.ts < |rec| && c.ac < |rec| && c.batt < |rec|
      && FirstLayout([RFC3339] + FallbackLayouts, TrimSpace(rec[c.ts]), parseTime).Some?
      && ParseBoolLoose(rec[c.ac]).Ok?
      && parseFloat(TrimSpace(rec[c.batt])).Some?
    ensures r.Some? ==>
      c.ts < |rec| && FirstLayout([RFC3339] + FallbackLayouts, TrimSpace(rec[c.ts]), parseTime) == Some(r.value.t)
    ensures r.Some? ==>
      c.ac < |rec| && c.batt < |rec|
      && ParseBoolLoose(rec[c.ac]) == Ok(r.value.ac) && parseFloat(TrimSpace(rec[c.batt])) == Some(r.value.batt)
  {
    if |rec| <= c.batt || |rec| <= c.ts || |rec| <= c.ac then None
    else match FirstLayout([RFC3339] + FallbackLayouts, TrimSpace(rec[c.ts]), parseTime)
      case None => None
      case Some(t) =>
        match ParseBoolLoose(rec[c.ac])
        case Err(_) => None
        case Ok(ac) =>
          match parseFloat(TrimSpace(rec[c.batt]))
          case None => None
          case Some(b) => Some(Row(t, ac, b))
  }

  /** What `parse` makes of `records[from..to]`, skipping the records it
      rejects and keeping the order of the others. */
  function KeepParsed(records: seq<seq<string>>, from: nat, to: nat,
                      parse: seq<string> -> Option<Row>): (out: seq<Row>)
    requires from <= to <= |records|
    ensures |out| <= to - from
  {
    if to == from then []
    else
      KeepParsed(records, from, to - 1, parse) +
      match parse(records[to - 1])
      case None => []
      case Some(row) => [row]
  }

  /** Parsing distributes over adjacent ranges: records are read one at a
      time, skipped ones leave no trace and the kept ones stay in order. */
  lemma {:induction false} KeepParsedSplit(records: seq<seq<string>>, from: nat, mid: nat, to: nat,
                                           parse: seq<string> -> Option<Row>)
    requires from <= mid <= to <= |records|
    ensures KeepParsed(records, from, to, parse)
         == KeepParsed(records, from, mid, parse) + KeepParsed(records, mid, to, parse)
  {
    if to > mid {
      KeepParsedSplit(records, from, mid, to - 1, parse);
    }
  }

  /** A range of records that all parse is kept whole, row for row. */
  lemma {:induction false} KeepParsedEvery(records: seq<seq<string>>, from: nat, to: nat,
                                           parse: seq<string> -> Option<Row>, out: seq<Row>)
    requires from <= to <= |records| && |out| == to - from
    requires forall i :: from <= i < to ==> parse(records[i]) == Some(out[i - from])
    ensures KeepParsed(records, from, to, parse) == out
  {
    if to > from {
      KeepParsedEvery(records, from, to - 1, parse, out[..|out| - 1]);
      assert parse(records[to - 1]) == Some(out[|out| - 1]);
    }
  }

  /** The reader's treatment of one record once the columns are known. */
  function RecordParser(c: Columns, parseTime: (string, string) -> Option<Time>,
                        parseFloat: string -> Option<real>): seq<string> -> Option<Row>
  {
    rec => ParseRecord(rec, c, parseTime, parseFloat)
  }

  const HeaderError: string := "expected headers: timestamp, ac_connected, battery_life (or similar)"

  function ParseCSV(records: seq<seq<string>>, parseTime: (string, string) -> Option<Time>,
                    parseFloat: string -> Option<real>): (r: Result<seq<Row>>)
    ensures records == [] ==> r == Err("empty csv")
    ensures records != [] && ResolveColumns(records[0]).None? ==> r == Err(HeaderError)
    ensures r.Ok? ==> |r.value| < |records|
  {
    if records == [] then Err("empty csv")
    else match ResolveColumns(records[0])
      case None => Err(HeaderError)
      case Some(c) => Ok(KeepParsed(records, 1, |records|, RecordParser(c, parseTime, parseFloat)))
  }

  /** The column lookups in the order the reader makes them: the timestamp,
      then the AC aliases until one is found, then the battery aliases. */
  method ResolveHeader(header: seq<string>) returns (c: Option<Columns>)
    ensures c == ResolveColumns(header)
  {
    var tsIdx := FindColumn(header, "timestamp");
    var acIdx := FindAlias(header, AcAliases);
    var battIdx := FindAlias(header, BattAliases);
    if tsIdx == -1 || acIdx == -1 || battIdx == -1 {
      return None;
    }
    return Some(Columns(tsIdx, acIdx, battIdx));
  }

  /** The body of the reader's loop for one record: skip it when it is
      too short or a field does not parse. */
  method ReadRecord(rec: seq<string>, c: Columns, parseTime: (string, string) -> Option<Time>,
                    parseFloat: string -> Option<real>) returns (row: Option<Row>)
    ensures row == ParseRecord(rec, c, parseTime, parseFloat)
  {
    if |rec| <= c.batt || |rec| <= c.ts || |rec| <= c.ac {
      return None;
    }
    var t := ParseTimestamp(TrimSpace(rec[c.ts]), parseTime);
    if t.None? {
      return None;
    }
    var ac := ParseBoolLoose(rec[c.ac]);
    if ac.Err? {
      return None;
    }
    var b := parseFloat(TrimSpace(rec[c.batt]));
    if b.None? {
      return None;
    }
    return Some(Row(t.value, ac.value, b.value));
  }

  /** Resolves the header row's columns (first matching alias wins), then
      keeps every record whose fields parse, in order. */
  method ParseCSVRows(records: seq<seq<string>>, parseTime: (string, string) -> Option<Time>,
                      parseFloat: string -> Option<real>) returns (r: Result<seq<Row>>)
    ensures r == ParseCSV(records, parseTime, parseFloat)
  {
    if |records| == 0 {
      return Err("empty csv");
    }
    var header := ResolveHeader(records[0]);
    if header.None? {
      return Err(HeaderError);
    }
    var c := header.value;
    var out: seq<Row> := [];
    var i := 1;
    while i < |records|
      invariant 1 <= i <= |records|
      invariant out == KeepParsed(records, 1, i, RecordParser(c, parseTime, parseFloat))
    {
      var row := ReadRecord(records[i], c, parseTime, parseFloat);
      if row.Some? {
        out := out + [row.value];
      }
      i := i + 1;
    }
    return Ok(out);
  }

  // ---------------------------------------------------------------------
  // Reading back what the logger writes

  /** The header line `LogFile.AppendCSV` writes, split at its commas. */
  const WrittenHeader: seq<string> := ["timestamp", "ac_connected", "battery_life"]

  /** One sample as the logger appends it: the timestamp text it writes,
      the instant that text stands for, the AC flag and the percentage. */
  datatype Logged = Logged(stamp: string, t: Time, ac: bool, pct: int)

  /** The fields of the data line `LogFile.CsvRow` writes for `x`, split at
      its commas. */
  function WrittenFields(x: Logged): (f: seq<string>)
    ensures |f| == 3
    ensures LogFile.CsvRow(x.stamp, x.ac, x.pct) == f[0] + "," + f[1] + "," + f[2] + "\n"
  {
    [x.stamp, if x.ac then "1" else "0", Itoa(x.pct)]
  }

  /** The records of a log the logger wrote: its header, then one line per
      sample. */
  function WrittenLog(log: seq<Logged>): (records: seq<seq<string>>)
    ensures |records| == |log| + 1 && records[0] == WrittenHeader
    ensures forall i :: 0 <= i < |log| ==> records[i + 1] == WrittenFields(log[i])
  {
    [WrittenHeader] + seq(|log|, i requires 0 <= i < |log| => WrittenFields(log[i]))
  }

  /** The rows the samples stand for. */
  function LoggedRows(log: seq<Logged>): (rows: seq<Row>)
    ensures |rows| == |log|
    ensures forall i :: 0 <= i < |log| ==> rows[i] == Row(log[i].t, log[i].ac, log[i].pct as real)
  {
    seq(|log|, i requires 0 <= i < |log| => Row(log[i].t, log[i].ac, log[i].pct as real))
  }

  /** Text without upper-case letters or white space is its own header key. */
  lemma HeaderKeyOfPlain(h: string)
    requires forall i :: 0 <= i < |h| ==> !IsUpperAscii(h[i]) && !IsSpace(h[i])
    ensures HeaderKey(h) == h
  {
    TrimSpaceOfTrimmed(h);
    ToLowerOfLower(h);
  }

  /** The first match is at `k` when `k` matches and nothing before it does. */
  lemma FirstMatchAt(header: seq<string>, key: string, k: nat)
    requires k < |header| && HeaderKey(header[k]) == key
    requires forall j :: 0 <= j < k ==> HeaderKey(header[j]) != key
    ensures FirstMatch(header, key) == k
  {
  }

  /** The header line is the three names joined by commas. */
  lemma WrittenHeaderText()
    ensures LogFile.Header == WrittenHeader[0] + "," + WrittenHeader[1] + "," + WrittenHeader[2] + "\n"
  {
  }

  /** The header the logger writes names the timestamp, AC and battery
      columns in that order. */
  lemma WrittenHeaderColumns()
    ensures ResolveColumns(WrittenHeader) == Some(Columns(0, 1, 2))
  {
    var h := WrittenHeader;
    HeaderKeyOfPlain(h[0]);
    HeaderKeyOfPlain(h[1]);
    HeaderKeyOfPlain(h[2]);
    FirstMatchAt(h, h[0], 0);
    FirstMatchAt(h, h[1], 1);
    FirstMatchAt(h, h[2], 2);
    assert ColumnIndex(h, "timestamp") == 0;
    assert ColumnIndex(h, AcAliases[0]) == 1;
    assert ColumnIndex(h, BattAliases[0]) == 2;
  }

  /** One written data line reads back as the sample it records, when the
      timestamp parses as RFC 3339 and the percentage as the number. */
  lemma ReadWrittenRecord(x: Logged, parseTime: (string, string) -> Option<Time>,
                          parseFloat: string -> Option<real>)
    requires parseTime(RFC3339, TrimSpace(x.stamp)) == Some(x.t)
    requires parseFloat(Itoa(x.pct)) == Some(x.pct as real)
    ensures ParseRecord(WrittenFields(x), Columns(0, 1, 2), parseTime, parseFloat)
         == Some(Row(x.t, x.ac, x.pct as real))
  {
    var layouts := [RFC3339] + FallbackLayouts;
    assert layouts[0] == RFC3339;
    assert FirstLayout(layouts, TrimSpace(x.stamp), parseTime) == Some(x.t);
    var flag := if x.ac then "1" else "0";
    HeaderKeyOfPlain(flag);
    assert TrimSpace(ToLower(flag)) == flag by {
      TrimSpaceOfTrimmed(flag);
      ToLowerOfLower(flag);
    }
    assert ParseBoolLoose(flag) == Ok(x.ac);
    ItoaIsPlain(x.pct);
    TrimSpaceOfTrimmed(Itoa(x.pct));
  }

  /** Each data record of a written log reads back as its sample. */
  lemma ReadWrittenLogAt(log: seq<Logged>, i: nat, parseTime: (string, string) -> Option<Time>,
                         parseFloat: string -> Option<real>)
    requires 1 <= i <= |log|
    requires parseTime(RFC3339, TrimSpace(log[i - 1].stamp)) == Some(log[i - 1].t)
    requires parseFloat(Itoa(log[i - 1].pct)) == Some(log[i - 1].pct as real)
    ensures RecordParser(Columns(0, 1, 2), parseTime, parseFloat)(WrittenLog(log)[i])
         == Some(LoggedRows(log)[i - 1])
  {
    ReadWrittenRecord(log[i - 1], parseTime, parseFloat);
  }

  /** Round trip: the records of a log the logger wrote parse back to
      exactly its samples, in order, when every timestamp parses as
      RFC 3339 and every percentage as the number it prints. */
  lemma ReadBackWrittenLog(log: seq<Logged>, parseTime: (string, string) -> Option<Time>,
                           parseFloat: string -> Option<real>)
    requires forall i :: 0 <= i < |log| ==> parseTime(RFC3339, TrimSpace(log[i].stamp)) == Some(log[i].t)
    requires forall i :: 0 <= i < |log| ==> parseFloat(Itoa(log[i].pct)) == Some(log[i].pct as real)
    ensures ParseCSV(WrittenLog(log), parseTime, parseFloat) == Ok(LoggedRows(log))
  {
    var records := WrittenLog(log);
    var out := LoggedRows(log);
    var parse := RecordParser(Columns(0, 1, 2), parseTime, parseFloat);
    forall i | 1 <= i < |records|
      ensures parse(records[i]) == Some(out[i - 1])
    {
      ReadWrittenLogAt(log, i, parseTime, parseFloat);
    }
    KeepParsedEvery(records, 1, |records|, parse, out);
    WrittenHeaderColumns();
  }
}
