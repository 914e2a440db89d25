/**
 * Wall-clock times in one fixed-offset zone, and the "15:04" layout.
 *
 * An instant is a calendar-day index, the nanoseconds elapsed since that
 * day's midnight, and the zone. Because the zone has a fixed offset, adding
 * 24 hours keeps the wall clock and moves to the next day.
 */
module Times {
  import opened Wrappers
  import opened Decimal

  const NanosPerSecond: int := 1_000_000_000
  const NanosPerMinute: int := 60 * NanosPerSecond
  const NanosPerHour: int := 60 * NanosPerMinute
  const NanosPerDay: int := 24 * NanosPerHour

  type Hour = h: int | 0 <= h < 24
  type Minute = m: int | 0 <= m < 60
  type NanoOfDay = n: int | 0 <= n < NanosPerDay

  /** The hour and minute of a `time.Time`, all the worker reads of its configured run time. */
  datatype TimeOfDay = TimeOfDay(hour: Hour, minute: Minute)

  datatype Zone = Zone(name: string, offsetSeconds: int)

  datatype Instant = Instant(day: int, nanos: NanoOfDay, loc: Zone) {
    function Hour(): int { nanos / NanosPerHour }
    function Minute(): int { nanos / NanosPerMinute % 60 }
    function Second(): int { nanos / NanosPerSecond % 60 }
    function Nanosecond(): int { nanos % NanosPerSecond }
  }

  /** Nanoseconds since the epoch, whatever the zone: what `After` compares. */
  function UnixNanos(t: Instant): int {
    t.day * NanosPerDay + t.nanos - t.loc.offsetSeconds * NanosPerSecond
  }

  /** `a.After(b)`. */
  predicate After(a: Instant, b: Instant) {
    UnixNanos(a) > UnixNanos(b)
  }

  /** `t.Add(24 * time.Hour)`. */
  function Add24h(t: Instant): (r: Instant)
    ensures UnixNanos(r) == UnixNanos(t) + NanosPerDay
    ensures r.loc == t.loc && r.nanos == t.nanos
  {
    Instant(t.day + 1, t.nanos, t.loc)
  }

  /** Euclidean division determines quotient and remainder uniquely. */
  lemma DivMod(n: int, d: int, q: int, r: int)
    requires d > 0 && 0 <= r < d && n == q * d + r
    ensures n / d == q && n % d == r
  {
    var q', r' := n / d, n % d;
    if q' < q {
      assert (q - q') * d == r' - r;
      AtLeastOnce(q - q', d);
    } else if q' > q {
      assert (q' - q) * d == r - r';
      AtLeastOnce(q' - q, d);
    }
  }

  lemma {:induction false} AtLeastOnce(k: int, d: int)
    requires k >= 1 && d > 0
    ensures k * d >= d
  {
    if k > 1 {
      AtLeastOnce(k - 1, d);
      assert k * d == (k - 1) * d + d;
    }
  }

  /** The offset into the day of `hh:mm:00.000000000`. */
  function ClockNanos(c: TimeOfDay): (n: NanoOfDay)
    ensures n / NanosPerHour == c.hour && n / NanosPerMinute % 60 == c.minute
    ensures n % NanosPerMinute == 0
  {
    var minutes := c.hour * 60 + c.minute;
    var n := minutes * NanosPerMinute;
    DivMod(n, NanosPerHour, c.hour, c.minute * NanosPerMinute);
    DivMod(n, NanosPerMinute, minutes, 0);
    DivMod(minutes, 60, c.hour, c.minute);
    n
  }

  /**
   * `time.Date(t.Year(), t.Month(), t.Day(), c.Hour(), c.Minute(), 0, 0, t.Location())`:
   * the instant on `t`'s calendar day, in `t`'s zone, at `c`.
   */
  function OnSameDay(t: Instant, c: TimeOfDay): (r: Instant)
    ensures r.day == t.day && r.loc == t.loc
    ensures r.Hour() == c.hour && r.Minute() == c.minute && r.Second() == 0 && r.Nanosecond() == 0
  {
    Instant(t.day, ClockNanos(c), t.loc)
  }

  /**
   * `time.Parse("15:04", s)`: an hour of one or two digits below 24, a ':',
   * a minute of exactly two digits below 60, and nothing after it.
   */
  function ParseTimeOfDay(s: string): (r: Option<TimeOfDay>)
  {
    match GetNum(s, false)
    case None => None
    case Some((hour, afterHour)) =>
      if 24 <= hour then None
      else if |afterHour| == 0 || afterHour[0] != ':' then None
      else
        match GetNum(afterHour[1..], true)
        case None => None
        case Some((minute, rest)) =>
          if |rest| > 0 || 60 <= minute then None
          else Some(TimeOfDay(hour, minute))
  }

  /** `t.Format("15:04")`. */
  function FormatTimeOfDay(t: TimeOfDay): (s: string)
    ensures |s| == 5 && s[2] == ':'
  {
    Padded(t.hour, 2) + ":" + Padded(t.minute, 2)
  }

  /** The accepted texts: "H:MM" or "HH:MM" with the hour below 24 and the minute below 60. */
  predicate IsClockText(s: string) {
    || (&& |s| == 4 && IsDigit(s[0]) && s[1] == ':' && AllDigits(s[2..])
        && Number(s[2..]) < 60)
    || (&& |s| == 5 && AllDigits(s[..2]) && s[2] == ':' && AllDigits(s[3..])
        && Number(s[..2]) < 24 && Number(s[3..]) < 60)
  }

  lemma ParseTimeOfDayIsClockText(s: string)
    ensures ParseTimeOfDay(s).Some? <==> IsClockText(s)
    ensures |s| == 5 && ParseTimeOfDay(s).Some? ==>
              ParseTimeOfDay(s).value == TimeOfDay(Number(s[..2]), Number(s[3..]))
    ensures |s| == 4 && ParseTimeOfDay(s).Some? ==>
              ParseTimeOfDay(s).value == TimeOfDay(DigitValue(s[0]), Number(s[2..]))
  {
    if |s| >= 2 && IsDigit(s[0]) && s[1] == ':' {
      assert s[1..][1..] == s[2..];
      if |s| >= 4 && IsDigit(s[2]) && IsDigit(s[3]) {
        assert s[2..][..2] == s[2..4];
        if |s| == 4 { assert s[2..] == s[2..4]; }
      }
    }
    if |s| >= 3 && IsDigit(s[0]) && IsDigit(s[1]) && s[2] == ':' {
      assert s[2..][1..] == s[3..];
      if |s| >= 5 && IsDigit(s[3]) && IsDigit(s[4]) {
        assert s[3..][..2] == s[3..5];
        if |s| == 5 { assert s[3..] == s[3..5]; }
      }
    }
  }

  /** Formatting a time of day with "15:04" and parsing it back gives it again. */
  lemma FormatThenParseTimeOfDay(t: TimeOfDay)
    ensures ParseTimeOfDay(FormatTimeOfDay(t)) == Some(t)
  {
    var s := FormatTimeOfDay(t);
    assert s[..2] == Padded(t.hour, 2);
    assert s[3..] == Padded(t.minute, 2);
    ParseTimeOfDayIsClockText(s);
  }
}
