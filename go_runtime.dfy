/** Go's integer arithmetic on `int`/`int64` and `time.Duration`, written out
    over Dafny's unbounded integers. */
module GoInts {

  const MinInt64: int := -0x8000_0000_0000_0000
  const MaxInt64: int := 0x7FFF_FFFF_FFFF_FFFF

  predicate InInt64(x: int) { MinInt64 <= x <= MaxInt64 }

  function Abs(x: int): int { if x < 0 then -x else x }

  lemma MulAtLeast(d: int, x: int)
    requires 0 < d && 1 <= x
    ensures d <= d * x
  {
  }

  /** Euclidean quotient and remainder are the only pair with `0 <= r < d`. */
  lemma DivUnique(a: int, d: int, q: int, r: int)
    requires 0 < d && a == d * q + r && 0 <= r < d
    ensures q == a / d && r == a % d
  {
    var q', r' := a / d, a % d;
    assert a == d * q' + r';
    assert d * (q - q') == r' - r;
    if q > q' {
      MulAtLeast(d, q - q');
    } else if q < q' {
      MulAtLeast(d, q' - q);
    }
  }

  lemma NegMul(b: int, x: int)
    ensures b * (-x) == -(b * x) && (-b) * x == -(b * x)
  {
  }

  lemma ModBounds(n: int, m: int)
    requires 0 <= n && 0 < m
    ensures 0 <= n % m < m && n % m <= n && n == m * (n / m) + n % m
  {
    assert n == m * (n / m) + n % m;
  }

  lemma MultipleMod(r: int, m: int, k: int)
    requires 0 < m && r == m * k
    ensures r % m == 0 && r / m == k
  {
    DivUnique(r, m, k, 0);
  }

  /** Go's `a / b` on integers: the quotient truncated toward zero. */
  function Quo(a: int, b: int): (q: int)
    requires b != 0
    ensures 0 <= a ==> 0 <= a - b * q < Abs(b)
    ensures a < 0 ==> -Abs(b) < a - b * q <= 0
  {
    var n, m := Abs(a), Abs(b);
    var u := n / m;
    assert n == m * u + n % m;
    var q := if (a < 0) == (b < 0) then u else -u;
    NegMul(m, u);
    NegMul(b, u);
    assert b * q == (if a < 0 then -(m * u) else m * u);
    q
  }

  /** Go's `a % b` on integers: its sign follows the dividend. */
  function Rem(a: int, b: int): (r: int)
    requires b != 0
    ensures a == b * Quo(a, b) + r
    ensures 0 <= a ==> 0 <= r < Abs(b)
    ensures a < 0 ==> -Abs(b) < r <= 0
  {
    a - b * Quo(a, b)
  }

  /** For a non-negative dividend and a positive divisor Go's and Dafny's
      division agree. */
  lemma QuoOfNonNegative(a: int, b: int)
    requires 0 <= a && 0 < b
    ensures Quo(a, b) == a / b && Rem(a, b) == a % b
  {
  }

  /** Go's `int(x)` for a float `x` within range: truncation toward zero. */
  function Trunc(x: real): (n: int)
    ensures 0.0 <= x ==> n as real <= x < n as real + 1.0
    ensures x < 0.0 ==> n as real - 1.0 < x <= n as real
  {
    if x >= 0.0 then x.Floor else -((-x).Floor)
  }
}

/** `time.Duration` constants and the rounding helpers of Go's `time`
    package. A point in time is its count of nanoseconds since Go's zero
    time (`time.Time{}`), so the zero time is 0. */
module GoTime {
  import opened GoInts

  type Time = int
  type Duration = int

  const ZeroTime: Time := 0
  const Nanosecond: Duration := 1
  const Second: Duration := 1_000_000_000
  const Minute: Duration := 60 * Second
  const Hour: Duration := 60 * Minute
  const Day: Duration := 24 * Hour

  predicate IsZero(t: Time) { t == ZeroTime }

  /** `t.Sub(u)`: the duration from `u` to `t`, saturated at the int64
      limits. */
  function Sub(t: Time, u: Time): (d: Duration)
    ensures InInt64(d)
    ensures InInt64(t - u) ==> d == t - u
    ensures t - u > MaxInt64 ==> d == MaxInt64
    ensures t - u < MinInt64 ==> d == MinInt64
  {
    if t - u > MaxInt64 then MaxInt64 else if t - u < MinInt64 then MinInt64 else t - u
  }

  /** `Duration.Round(m)`: halfway values go away from zero and the result
      saturates at the int64 limits; `m <= 0` leaves `d` alone. */
  function RoundDuration(d: Duration, m: Duration): (r: Duration)
    requires InInt64(d)
    ensures m <= 0 ==> r == d
    ensures 0 < m ==> InInt64(r)
    ensures 0 < m && 0 <= d ==> 0 <= r
  {
    if m <= 0 then d
    else if d < 0 then
      var rem := (-d) % m;
      ModBounds(-d, m);
      if rem + rem < m then d + rem
      else if d - m + rem >= MinInt64 then d - m + rem
      else MinInt64
    else
      var rem := d % m;
      ModBounds(d, m);
      if rem + rem < m then d - rem
      else if d + m - rem <= MaxInt64 then d + m - rem
      else MaxInt64
  }

  /** Away from the int64 limits, `Duration.Round(m)` is a multiple of `m`
      at most half of `m` away from `d`. */
  lemma RoundDurationIsNearestMultiple(d: Duration, m: Duration)
    requires 0 < m && MinInt64 + m <= d <= MaxInt64 - m
    ensures var r := RoundDuration(d, m); r % m == 0 && 2 * Abs(r - d) <= m
  {
    var r := RoundDuration(d, m);
    if d < 0 {
      var n := -d;
      var k, rem := n / m, n % m;
      ModBounds(n, m);
      if rem * 2 < m {
        assert r == -(m * k);
        NegMul(m, k);
        MultipleMod(r, m, -k);
      } else {
        assert r == -(m * (k + 1));
        NegMul(m, k + 1);
        MultipleMod(r, m, -(k + 1));
      }
    } else {
      var k, rem := d / m, d % m;
      ModBounds(d, m);
      if rem * 2 < m {
        assert r == m * k;
        MultipleMod(r, m, k);
      } else {
        assert r == m * (k + 1);
        MultipleMod(r, m, k + 1);
      }
    }
  }

  /** `time.Duration(x)` for a float `x` as amd64 converts it: truncation
      toward zero, and the minimum int64 value when the result does not
      fit (which is also what an infinite `x` gives). */
  function DurationOfFloat(x: real): (d: Duration)
    ensures InInt64(d)
    ensures InInt64(Trunc(x)) ==> d == Trunc(x)
    ensures !InInt64(Trunc(x)) ==> d == MinInt64
  {
    if InInt64(Trunc(x)) then Trunc(x) else MinInt64
  }

  lemma MulMonotoneReal(a: real, b: real, c: real)
    requires a <= b && 0.0 < c
    ensures a * c <= b * c
  {
  }

  lemma MulStrictReal(a: real, b: real, c: real)
    requires a < b && 0.0 < c
    ensures a * c < b * c
  {
  }

  lemma CastMul(a: int, b: int, br: real)
    requires br == b as real
    ensures (a * b) as real == a as real * br
  {
  }

  /** For a non-negative real, the whole multiples of `m` in
      `Trunc(x * m)` are the whole part of `x`. */
  lemma TruncScaled(x: real, m: int, mr: real)
    requires 0.0 <= x && 0 < m && mr == m as real
    ensures Trunc(x * mr) / m == x.Floor
  {
    var k := x.Floor;
    var k1 := k + 1;
    var y := x * mr;
    var d := Trunc(y);
    assert k as real <= x < k1 as real;
    MulMonotoneReal(k as real, x, mr);
    MulStrictReal(x, k1 as real, mr);
    CastMul(k, m, mr);
    CastMul(k1, m, mr);
    assert (k * m) as real <= y < (k1 * m) as real;
    assert k * m <= d < k1 * m;
    DivUnique(d, m, k, d - k * m);
  }

  /** A non-negative duration of `k` whole minutes has `k / 60` whole hours
      and `k % 60` whole minutes past the last whole hour. */
  lemma HoursAndMinutesOf(d: Duration, k: int)
    requires 0 <= d && d / Minute == k
    ensures Quo(d, Hour) == k / 60 && Quo(Rem(d, Hour), Minute) == k % 60
  {
    HourMinuteSplit(d);
    var h := d / Hour;
    DivUnique(k, 60, h, k % 60);
    QuoOfNonNegative(d, Hour);
    var r := d % Hour;
    assert d == Hour * h + r;
    assert d == Minute * k + d % Minute;
    assert r == Minute * (k % 60) + d % Minute;
    DivUnique(r, Minute, k % 60, d % Minute);
    QuoOfNonNegative(r, Minute);
  }

  /** `int(d.Hours())`: the whole hours of `d`, truncated toward zero. */
  function WholeHours(d: Duration): int { Quo(d, Hour) }

  /** `int(d.Minutes())`: the whole minutes of `d`, truncated toward zero. */
  function WholeMinutes(d: Duration): int { Quo(d, Minute) }

  /** For a non-negative duration the whole minutes are sixty per whole
      hour plus the minutes left over. */
  lemma HourMinuteSplit(d: Duration)
    requires 0 <= d
    ensures WholeHours(d) == d / Hour && WholeMinutes(d) == d / Minute
    ensures WholeMinutes(d) == 60 * WholeHours(d) + WholeMinutes(d) % 60
  {
    QuoOfNonNegative(d, Hour);
    QuoOfNonNegative(d, Minute);
    var m := d / Minute;
    assert d == Minute * m + d % Minute;
    assert m == 60 * (m / 60) + m % 60;
    assert d == Hour * (m / 60) + (Minute * (m % 60) + d % Minute);
    DivUnique(d, Hour, m / 60, Minute * (m % 60) + d % Minute);
  }

  /** `Time.Truncate(d)`: rounds down to a multiple of `d` since the zero
      time. */
  function TruncateTime(t: Time, d: Duration): (r: Time)
    requires 0 < d
    ensures r <= t < r + d && r % d == 0
  {
    assert t == d * (t / d) + t % d;
    MultipleMod(t - t % d, d, t / d);
    t - t % d
  }

  /** `Time.Round(d)`: the nearest multiple of `d` since the zero time,
      halfway values rounded up. */
  function RoundTime(t: Time, d: Duration): (r: Time)
    requires 0 < d
    ensures r % d == 0 && 2 * Abs(r - t) <= d
  {
    var rem := t % d;
    assert t == d * (t / d) + rem;
    if rem + rem < d then
      MultipleMod(t - rem, d, t / d);
      t - rem
    else
      MultipleMod(t + d - rem, d, t / d + 1);
      t + d - rem
  }
}
