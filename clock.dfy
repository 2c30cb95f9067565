/** The calendar arithmetic the source gets from JavaScript `Date` and
    date-fns, abstracted: a timestamp is an integer number of milliseconds of
    local wall-clock time since 1970-01-01 00:00, a calendar day is the
    integer number of days since that date, and the local time zone is UTC
    (no daylight-saving offsets). */
module Clock {

  const MsPerSecond: int := 1000
  const MsPerMinute: int := 60 * MsPerSecond
  const MsPerHour: int := 60 * MsPerMinute
  const MsPerDay: int := 24 * MsPerHour

  /** The calendar day a timestamp falls on (`format(t, 'yyyy-MM-dd')`,
      `isSameDay`). Dafny's `/` floors for a positive divisor, so instants
      before 1970 land on the right day too. */
  function DayOf(t: int): int
  {
    t / MsPerDay
  }

  /** The hour of the day of a timestamp (`getHours()`). */
  function HourOf(t: int): (h: int)
    ensures 0 <= h < 24
  {
    (t % MsPerDay) / MsPerHour
  }

  /** The timestamp of midnight that starts a day (`new Date("yyyy-MM-dd")`,
      `startOfDay`). */
  function Midnight(day: int): int
  {
    day * MsPerDay
  }

  /** A timestamp falls on a day exactly when it lies in that day's 24-hour
      window. */
  lemma DayOfWindow(t: int, day: int)
    ensures DayOf(t) == day <==> Midnight(day) <= t < Midnight(day) + MsPerDay
  {
  }

  /** Midnight of a day falls on that day, at hour 0. */
  lemma MidnightOnItsDay(day: int)
    ensures DayOf(Midnight(day)) == day && HourOf(Midnight(day)) == 0
  {
    DayOfWindow(Midnight(day), day);
  }

  /** The first day (a Sunday) of the week holding a day (`startOfWeek`).
      Day 0, 1970-01-01, was a Thursday, so Sunday is four days before it. */
  function WeekStartDay(day: int): (s: int)
    ensures s <= day < s + 7
    ensures (s + 4) % 7 == 0
  {
    day - (day + 4) % 7
  }

  /** `startOfWeek(t)`: midnight of that Sunday. */
  function StartOfWeek(t: int): (r: int)
    ensures DayOf(r) == WeekStartDay(DayOf(t)) && HourOf(r) == 0 && r <= t
  {
    MidnightOnItsDay(WeekStartDay(DayOf(t)));
    DayOfWindow(t, DayOf(t));
    Midnight(WeekStartDay(DayOf(t)))
  }

  /** `endOfWeek(t)`: the last millisecond of the following Saturday. */
  function EndOfWeek(t: int): (r: int)
    ensures DayOf(r) == WeekStartDay(DayOf(t)) + 6 && DayOf(r + 1) == DayOf(r) + 1
  {
    DayOfWindow(Midnight(WeekStartDay(DayOf(t)) + 7) - 1, WeekStartDay(DayOf(t)) + 6);
    DayOfWindow(Midnight(WeekStartDay(DayOf(t)) + 7), WeekStartDay(DayOf(t)) + 7);
    Midnight(WeekStartDay(DayOf(t)) + 7) - 1
  }

  /** A timestamp lies in its own week. */
  lemma WeekHoldsInstant(t: int)
    ensures StartOfWeek(t) <= t <= EndOfWeek(t)
  {
    DayOfWindow(t, DayOf(t));
  }

  /** Division by a positive divisor recovers quotient and remainder. */
  lemma DivMod(a: int, n: int, b: int)
    requires n > 0 && 0 <= b < n
    ensures (a * n + b) / n == a && (a * n + b) % n == b
  {
    var x := a * n + b;
    var q, r := x / n, x % n;
    assert x == q * n + r;
    var d := a - q;
    assert d * n == r - b;
    if d >= 1 {
      MulAtLeast(d, n);
    } else if d <= -1 {
      MulAtLeast(-d, n);
    }
  }

  lemma MulAtLeast(k: int, n: int)
    requires k >= 1 && n > 0
    ensures k * n >= n && (-k) * n <= -n
  {
  }

  /** Local time at `hh:mm` on a day (`new Date('yyyy-MM-ddThh:mm:00')`). */
  function At(day: int, hh: nat, mm: nat): (t: int)
    requires hh < 24 && mm < 60
    ensures DayOf(t) == day && HourOf(t) == hh
    ensures (t % MsPerHour) / MsPerMinute == mm && t % MsPerMinute == 0
  {
    var inDay := hh * MsPerHour + mm * MsPerMinute;
    var t := day * MsPerDay + inDay;
    DivMod(day, MsPerDay, inDay);
    DivMod(hh, MsPerHour, mm * MsPerMinute);
    assert t == (day * 24 + hh) * MsPerHour + mm * MsPerMinute;
    DivMod(day * 24 + hh, MsPerHour, mm * MsPerMinute);
    DivMod(mm, MsPerMinute, 0);
    assert t == ((day * 24 + hh) * 60 + mm) * MsPerMinute + 0;
    DivMod((day * 24 + hh) * 60 + mm, MsPerMinute, 0);
    t
  }
}
