/** Duration text of the terminal interface: hours and minutes below a day,
    days and hours from a day on. */
module TuiUtils {
  import opened GoInts
  import opened GoTime
  import opened GoStrings

  /** `FormatDurationAuto`: `"%02dh %02dm"` below 24 hours, `"%dd %dh"`
      from 24 hours on. */
  function FormatDurationAuto(d: Duration): (s: string)
    ensures |s| >= 2
    ensures d < 24 * Hour ==> s[|s| - 1] == 'm' && 'd' !in s
    ensures 24 * Hour <= d ==> s[|s| - 1] == 'h' && s[0] != '-' && 'm' !in s
  {
    if d < 24 * Hour then
      Pad2(WholeHours(d)) + "h " + Pad2(Rem(WholeMinutes(d), 60)) + "m"
    else
      Itoa(Quo(WholeHours(d), 24)) + "d " + Itoa(Rem(WholeHours(d), 24)) + "h"
  }

  /** Below a day the text is seven characters, `HHh MMm`, and reading its
      two numbers back gives the hours and minutes that make up the whole
      minutes of `d`. */
  lemma FormatBelowDay(d: Duration)
    requires 0 <= d < Day
    ensures var s := FormatDurationAuto(d); |s| == 7 && s[2..4] == "h " && s[6] == 'm'
    ensures var s := FormatDurationAuto(d); AllDigits(s[..2]) && AllDigits(s[4..6])
    ensures var s := FormatDurationAuto(d); DigitsValue(s[..2]) < 24 && DigitsValue(s[4..6]) < 60
    ensures var s := FormatDurationAuto(d); 60 * DigitsValue(s[..2]) + DigitsValue(s[4..6]) == d / Minute
  {
    HourMinuteSplit(d);
    var h, m := WholeHours(d), Rem(WholeMinutes(d), 60);
    QuoOfNonNegative(WholeMinutes(d), 60);
    assert 0 <= h < 24 && 0 <= m < 60;
    var s := FormatDurationAuto(d);
    var ph, pm := Pad2(h), Pad2(m);
    assert s == ph + "h " + pm + "m";
    assert s[..2] == ph;
    assert s[2..4] == "h ";
    assert s[4..6] == pm;
    assert DigitsValue(ph) == h && DigitsValue(pm) == m;
    assert m == WholeMinutes(d) % 60;
  }

  /** From a day on the text is `XdYh` with `X` the whole days and `Y`
      the hours left over, so `24·X + Y` is the whole hours of `d`. */
  lemma FormatFromDay(d: Duration)
    requires Day <= d
    ensures var x, y := WholeHours(d) / 24, WholeHours(d) % 24;
      FormatDurationAuto(d) == NatDigits(x) + "d " + NatDigits(y) + "h"
      && 1 <= x && 0 <= y < 24 && 24 * x + y == d / Hour && x == d / Day
  {
    HourMinuteSplit(d);
    var hrs := WholeHours(d);
    QuoOfNonNegative(hrs, 24);
    assert hrs >= 24 by {
      assert d / Hour >= Day / Hour;
    }
    var x := hrs / 24;
    assert d == Hour * hrs + d % Hour;
    assert hrs == 24 * x + hrs % 24;
    assert d == Day * x + (Hour * (hrs % 24) + d % Hour);
    DivUnique(d, Day, x, Hour * (hrs % 24) + d % Hour);
  }
}
