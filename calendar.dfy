/**
 * Wall-clock arithmetic behind the `Date` objects of the source. An instant is a number of
 * milliseconds since 1970-01-01T00:00 on the clock of the process that runs the code; a day is
 * 86 400 000 ms (no daylight-saving jumps), and day 0 was a Thursday. The "YYYY-MM-DD" and
 * "HH:MM" strings stored on a reminder are abstracted to a day index and a minute of the day.
 */
module Calendar {
  import opened Wrappers

  const MinuteMs: int := 60000
  const HourMs: int := 3600000
  const DayMs: int := 86400000
  /** `getDay()` of day 0 (Thursday, with 0 = Sunday). */
  const EpochWeekday: int := 4

  type Instant = int
  type MinuteOfDay = m: int | 0 <= m < 1440

  function DayIndex(t: Instant): int { t / DayMs }

  /** `date.getDay()`: 0 = Sunday … 6 = Saturday. */
  function Weekday(t: Instant): (w: int)
    ensures 0 <= w < 7
  {
    (t / DayMs + EpochWeekday) % 7
  }

  /** `getHours() * 60 + getMinutes()` */
  function ClockMinute(t: Instant): MinuteOfDay { (t % DayMs) / MinuteMs }

  /** Midnight of the day of `t`. */
  function StartOfDay(t: Instant): Instant { t - t % DayMs }

  /** `setSeconds(0, 0)`: the minute `t` falls in. */
  function TruncateToMinute(t: Instant): (r: Instant)
    ensures r % MinuteMs == 0 && r <= t < r + MinuteMs
  {
    t - t % MinuteMs
  }

  lemma {:induction false} MulAtLeast(k: int, d: int)
    requires k >= 1 && d > 0
    ensures k * d >= d
  {
    if k > 1 {
      MulAtLeast(k - 1, d);
      assert k * d == (k - 1) * d + d;
    }
  }

  /** Euclidean division is determined by a quotient and an in-range remainder. */
  lemma DivModOf(a: int, d: int, q: int, r: int)
    requires d > 0 && 0 <= r < d && a == q * d + r
    ensures a / d == q && a % d == r
  {
    var q', r' := a / d, a % d;
    assert a == q' * d + r';
    assert (q - q') * d == r' - r;
    if q > q' {
      MulAtLeast(q - q', d);
    } else if q < q' {
      MulAtLeast(q' - q, d);
    }
  }

  /** Zeroing the seconds keeps the day and the hour and minute. */
  lemma TruncateKeepsClock(t: Instant)
    ensures ClockMinute(TruncateToMinute(t)) == ClockMinute(t)
    ensures DayIndex(TruncateToMinute(t)) == DayIndex(t)
  {
    var q, rem := t / 86400000, t % 86400000;
    var mm, s := rem / 60000, rem % 60000;
    assert rem == mm * 60000 + s;
    assert t == (q * 1440 + mm) * 60000 + s;
    DivModOf(t, 60000, q * 1440 + mm, s);
    var u := TruncateToMinute(t);
    assert u == q * 86400000 + mm * 60000;
    DivModOf(u, 86400000, q, mm * 60000);
    DivModOf(mm * 60000, 60000, mm, 0);
  }

  /** `d.setDate(d.getDate() + k)` */
  function AddDays(t: Instant, k: int): Instant { t + k * 86400000 }

  /** `d.setHours(h, m, 0, 0)`: the same day at h:m, where out-of-range hours or minutes roll over. */
  function SetHours(t: Instant, h: int, m: int): Instant {
    StartOfDay(t) + h * 3600000 + m * 60000
  }

  /** Moving one day forward keeps the clock time and advances the weekday by one. */
  lemma NextDay(t: Instant)
    ensures DayIndex(t + DayMs) == DayIndex(t) + 1
    ensures ClockMinute(t + DayMs) == ClockMinute(t)
    ensures Weekday(t + DayMs) == (Weekday(t) + 1) % 7
    ensures (t + DayMs) % MinuteMs == t % MinuteMs
  {
    var q, r := t / DayMs, t % DayMs;
    DivModOf(t + DayMs, DayMs, q + 1, r);
    var m := t % MinuteMs;
    DivModOf(t, MinuteMs, t / MinuteMs, m);
    DivModOf(t + DayMs, MinuteMs, t / MinuteMs + 1440, m);
  }

  /** Moving `k` days forward advances the weekday by `k` (modulo 7). */
  lemma {:induction false} AddDaysWeekday(t: Instant, k: nat)
    ensures Weekday(AddDays(t, k)) == (Weekday(t) + k) % 7
    ensures ClockMinute(AddDays(t, k)) == ClockMinute(t)
    ensures DayIndex(AddDays(t, k)) == DayIndex(t) + k
    ensures AddDays(t, k) % MinuteMs == t % MinuteMs
  {
    if k > 0 {
      var u := AddDays(t, k - 1);
      AddDaysWeekday(t, k - 1);
      NextDay(u);
      assert AddDays(t, k) == u + DayMs;
      WeekdaySucc(Weekday(t) + k - 1);
    }
  }

  /** One more day after `a` days is `a + 1` days, counted modulo 7. */
  lemma WeekdaySucc(a: int)
    ensures (a % 7 + 1) % 7 == (a + 1) % 7
  {
    DivModOf(a, 7, a / 7, a % 7);
    if a % 7 == 6 {
      DivModOf(a + 1, 7, a / 7 + 1, 0);
    } else {
      DivModOf(a + 1, 7, a / 7, a % 7 + 1);
    }
  }

  // ---------------------------------------------------------------------------------------
  // Stored date and time fields
  // ---------------------------------------------------------------------------------------

  /** A reminder's `date` field: missing/empty, present but not a date, or "YYYY-MM-DD". */
  datatype DateText = NoDate | BadDate | Ymd(day: int)

  /** A reminder's `time` field: missing/empty, present but not a time, or "HH:MM". */
  datatype TimeText = NoTime | BadTime | Hm(minute: MinuteOfDay)

  /** `new Date(`${date}T${time}:00`)`; None stands for an Invalid Date (NaN time value). */
  function ParseLocal(date: DateText, time: TimeText): (r: Option<Instant>)
    ensures r.Some? <==> date.Ymd? && time.Hm?
  {
    if date.Ymd? && time.Hm? then Some(date.day * 86400000 + time.minute * 60000) else None
  }

  /** `date-fns` `format` rejects an Invalid Date with this error. */
  const InvalidTimeValue: string := "Invalid time value"

  /** `format(d, 'yyyy-MM-dd')` and `format(d, 'HH:mm')` on the local clock. */
  function FormatLocal(t: Instant): (DateText, TimeText) {
    (Ymd(DayIndex(t)), Hm(ClockMinute(t)))
  }

  /** Formatting then parsing gives back the instant truncated to its minute. */
  lemma FormatThenParse(t: Instant)
    ensures ParseLocal(FormatLocal(t).0, FormatLocal(t).1) == Some(TruncateToMinute(t))
  {
    var q, rem := t / 86400000, t % 86400000;
    var mm, s := rem / 60000, rem % 60000;
    assert rem == mm * 60000 + s;
    assert t == (q * 1440 + mm) * 60000 + s;
    DivModOf(t, 60000, q * 1440 + mm, s);
  }

  /** Parsing then formatting gives back the same date and time fields. */
  lemma ParseThenFormat(d: int, m: MinuteOfDay)
    ensures ParseLocal(Ymd(d), Hm(m)).Some?
    ensures FormatLocal(ParseLocal(Ymd(d), Hm(m)).value) == (Ymd(d), Hm(m))
  {
  }
}
