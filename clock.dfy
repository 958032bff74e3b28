/** Wall-clock arithmetic used throughout the engine. An instant is a whole
    number of seconds since 1970-01-01 00:00 local time (sub-second parts are
    not modelled); a day number counts whole days from that date, which was a
    Thursday. */
module Clock {

  const MinuteSecs: int := 60
  const HourSecs: int := 3600
  const DaySecs: int := 86400

  /** `t.replace(second=0, microsecond=0)`. */
  function FloorMinute(t: int): (r: int)
    ensures r <= t < r + MinuteSecs && r % MinuteSecs == 0
  {
    t - t % MinuteSecs
  }

  /** `t.replace(minute=0, second=0, microsecond=0)`. */
  function FloorHour(t: int): (r: int)
    ensures r <= t < r + HourSecs && r % HourSecs == 0
  {
    t - t % HourSecs
  }

  /** The day number of an instant (`t.date()`). */
  function DayOf(t: int): int { t / DaySecs }

  /** Midnight of the instant's day. */
  function DayStart(t: int): (r: int)
    ensures r <= t < r + DaySecs && r == DayOf(t) * DaySecs
  {
    t - t % DaySecs
  }

  /** Seconds elapsed since midnight (`t.time()`). */
  function SecondOfDay(t: int): (r: int)
    ensures 0 <= r < DaySecs && t == DayStart(t) + r
  {
    t % DaySecs
  }

  function SecondOf(t: int): int { t % MinuteSecs }
  function MinuteOf(t: int): int { (t % HourSecs) / MinuteSecs }
  function HourOf(t: int): int { (t % DaySecs) / HourSecs }

  /** Python's `weekday()` of a day number: 0 is Monday, 6 is Sunday. */
  function Weekday(day: int): (r: int)
    ensures 0 <= r < 7
  {
    (day + 3) % 7
  }

  /** Saturday or Sunday (`weekday() in [5, 6]`). */
  predicate IsWeekendDay(day: int) { Weekday(day) >= 5 }

  predicate IsWeekend(t: int) { IsWeekendDay(DayOf(t)) }

  /** An `"%H:%M"` time of day, as handed to the daily job scheduler. */
  datatype ClockTime = ClockTime(hour: int, minute: int)

  predicate ValidClockTime(c: ClockTime) {
    0 <= c.hour < 24 && 0 <= c.minute < 60
  }

  function ClockSecs(c: ClockTime): int { c.hour * HourSecs + c.minute * MinuteSecs }

  /** `dt.strftime("%H:%M")`: the hour and minute of an instant, dropping the
      date and the seconds. */
  function HourMinute(t: int): (c: ClockTime)
    ensures ValidClockTime(c)
    ensures DayStart(t) + ClockSecs(c) == FloorMinute(t)
  {
    HourMinuteSplit(t);
    ClockTime(HourOf(t), MinuteOf(t))
  }

  lemma HourMinuteSplit(t: int)
    ensures 0 <= HourOf(t) < 24 && 0 <= MinuteOf(t) < 60
    ensures DayStart(t) + HourOf(t) * HourSecs + MinuteOf(t) * MinuteSecs == FloorMinute(t)
  {
    ModOfMod(t, HourSecs, 24);
    ModOfMod(t, MinuteSecs, 60);
    var s := t % DaySecs;
    var r := s % HourSecs;
    assert s == (s / HourSecs) * HourSecs + r;
    assert r == (r / MinuteSecs) * MinuteSecs + r % MinuteSecs;
  }

  /** Euclidean division has one quotient and remainder. */
  lemma DivModUnique(x: int, d: int, q: int, r: int)
    requires d > 0 && 0 <= r < d && x == q * d + r
    ensures x % d == r && x / d == q
  {
    var q', r' := x / d, x % d;
    assert x == q' * d + r';
    assert (q - q') * d == r' - r;
    MulSign(q - q', d);
  }

  /** A non-zero multiple of `d` is at least `d` away from 0. */
  lemma MulSign(k: int, d: int)
    requires d > 0
    ensures k >= 1 ==> k * d >= d
    ensures k <= -1 ==> k * d <= -d
  {
    if k >= 1 {
      MulAtLeast(k, d);
    } else if k <= -1 {
      MulAtLeast(-k, d);
      assert k * d == -((-k) * d);
    }
  }

  lemma {:induction false} MulAtLeast(k: int, d: int)
    requires k >= 1 && d > 0
    ensures k * d >= d
    decreases k
  {
    if k > 1 {
      MulAtLeast(k - 1, d);
      assert k * d == (k - 1) * d + d;
    }
  }

  /** Taking the remainder by a multiple of `a` first keeps the remainder
      by `a`. */
  lemma ModOfMod(t: int, a: int, b: int)
    requires a > 0 && b > 0
    ensures (t % (a * b)) % a == t % a
  {
    var s := t % (a * b);
    var q := t / (a * b);
    assert t == q * (a * b) + s;
    assert s == (s / a) * a + s % a;
    assert t == (q * b + s / a) * a + s % a;
    DivModUnique(t, a, q * b + s / a, s % a);
  }

  /** When a freshly registered `every().day.at(c)` job of the `schedule`
      library first runs: today at `c` if that is still ahead of `now`,
      otherwise tomorrow at `c`. */
  function NextOccurrence(now: int, c: ClockTime): int {
    var today := DayStart(now) + ClockSecs(c);
    if today > now then today else today + DaySecs
  }

  /** The job registered for any valid time of day runs within the next 24
      hours, and strictly after `now`. */
  lemma NextOccurrenceWithinADay(now: int, c: ClockTime)
    requires ValidClockTime(c)
    ensures now < NextOccurrence(now, c) <= now + DaySecs
  {
    assert 0 <= ClockSecs(c) < DaySecs;
  }

  /** A multiple of the day length is a multiple of the minute, so a day
      starts on a whole minute and flooring to the minute never leaves the
      day. */
  lemma DayStartOfFloorMinute(t: int)
    ensures DayStart(FloorMinute(t)) == DayStart(t)
  {
    var d, f := DayStart(t), FloorMinute(t);
    var k := t / DaySecs;
    assert d == k * DaySecs;
    assert d == (k * 1440) * MinuteSecs;
    var j := t / MinuteSecs;
    assert f == j * MinuteSecs;
    assert d <= f;
    assert f / DaySecs == k by {
      assert k * DaySecs <= f < k * DaySecs + DaySecs;
    }
  }

  /** `"%H:%M"` of a target keeps its whole minute: once that minute lies
      within the next 24 hours, the daily job registered for it first runs
      exactly then. */
  lemma JobRunsAtTargetMinute(now: int, target: int)
    requires now < FloorMinute(target) <= now + DaySecs
    ensures NextOccurrence(now, HourMinute(target)) == FloorMinute(target)
  {
    var c := HourMinute(target);
    var m := FloorMinute(target);
    DayStartOfFloorMinute(target);
    assert DayStart(m) + ClockSecs(c) == m;
    var k, k' := DayOf(now), DayOf(m);
    assert DayStart(now) == k * DaySecs && DayStart(m) == k' * DaySecs;
    assert k <= k' <= k + 1;
  }
}
