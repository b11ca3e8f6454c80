/**
 * `formatRelativeTime`: how long ago a time stamp was, in whole minutes, hours or days. Times
 * are milliseconds since the epoch and `now` stands for `Date.now()`.
 */
module FormatTime {
  import opened Strings

  const MinuteMs := 60000
  const HourMs := 3600000
  const DayMs := 86400000

  /**
   * `Math.floor(diff / unit)`. Dafny's integer division rounds toward negative infinity when
   * the divisor is positive, as `Math.floor` does, also for a negative `diff` (a future date).
   */
  function FloorDiv(diff: int, unit: int): (q: int)
    requires unit > 0
    ensures q * unit <= diff < (q + 1) * unit
  {
    diff / unit
  }

  function FormatRelativeTime(now: int, date: int): (r: string)
    ensures now - date < MinuteMs ==> r == "just now"
    ensures MinuteMs <= now - date < HourMs ==>
              var minutes := (now - date) / MinuteMs;
              1 <= minutes < 60 && r == NatToDecimal(minutes) + " min ago"
    ensures HourMs <= now - date < DayMs ==>
              var hours := (now - date) / HourMs;
              1 <= hours < 24 && r == NatToDecimal(hours) + " h ago"
    ensures DayMs <= now - date ==>
              var days := (now - date) / DayMs;
              1 <= days && r == NatToDecimal(days) + " d ago"
  {
    var diff := now - date;
    var minutes := FloorDiv(diff, MinuteMs);
    var hours := FloorDiv(diff, HourMs);
    var days := FloorDiv(diff, DayMs);
    if minutes < 1 then "just now"
    else if minutes < 60 then NatToDecimal(minutes) + " min ago"
    else if hours < 24 then NatToDecimal(hours) + " h ago"
    else NatToDecimal(days) + " d ago"
  }

  /** The result is "just now" exactly when less than a minute has passed, future dates included. */
  lemma JustNowUnderAMinute(now: int, date: int)
    ensures FormatRelativeTime(now, date) == "just now" <==> now - date < MinuteMs
  {
    var r := FormatRelativeTime(now, date);
    if now - date >= MinuteMs {
      assert r[|r| - 1] == 'o';
    }
  }

  /** The three counts are nested floors of one another: hours are whole sixties of minutes, days whole twenty-fours of hours. */
  lemma CountsAreNested(diff: int)
    ensures diff / HourMs == (diff / MinuteMs) / 60
    ensures diff / DayMs == (diff / HourMs) / 24
  {
    NestedFloor(diff, MinuteMs, 60);
    NestedFloor(diff, HourMs, 24);
  }

  lemma NestedFloor(x: int, a: int, b: int)
    requires a > 0 && b > 0
    ensures x / (a * b) == (x / a) / b
  {
    var q := x / a;
    var p := q / b;
    assert q * a <= x < (q + 1) * a;
    assert p * b <= q < (p + 1) * b;
    assert p * (a * b) <= q * a by {
      MulMono(p * b, q, a);
    }
    assert (q + 1) * a <= (p + 1) * (a * b) by {
      MulMono(q + 1, (p + 1) * b, a);
    }
    FloorUnique(x, a * b, p);
  }

  lemma MulMono(x: int, y: int, a: int)
    requires x <= y && a > 0
    ensures x * a <= y * a
  {
  }

  lemma FloorUnique(x: int, d: int, p: int)
    requires d > 0 && p * d <= x < (p + 1) * d
    ensures x / d == p
  {
    var q := x / d;
    if q < p {
      MulMono(q + 1, p, d);
    } else if q > p {
      MulMono(p + 1, q, d);
    }
  }
}
