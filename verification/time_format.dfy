// The relative-time and duration labels shared by the widgets and pages:
// `formatTimeAgo`/`formatTime` (one bucketing, written out three times) and
// `formatDuration` (one bucketing, written out three times).

module TimeFormat {
  import opened Common

  const MinuteMs: int := 60000
  const HourMs: int := 3600000
  const DayMs: int := 86400000

  // ---------------------------------------------------------------------
  // Time ago

  /** The bucket a relative-time label falls in. */
  datatype Age = JustNow | MinutesAgo(minutes: nat) | HoursAgo(hours: nat) | OnDate

  function AgeRank(a: Age): nat {
    match a
    case JustNow => 0
    case MinutesAgo(_) => 1
    case HoursAgo(_) => 2
    case OnDate => 3
  }

  /** Whole hours of an elapsed time, as `Math.floor(Math.floor(diff / 60000) / 60)`. */
  lemma HoursOfMinutes(diff: int)
    ensures (diff / MinuteMs) / 60 == diff / HourMs
  {
    var m := diff / MinuteMs;
    var h := m / 60;
    assert diff == m * MinuteMs + diff % MinuteMs;
    assert m == h * 60 + m % 60;
    assert diff == h * HourMs + ((m % 60) * MinuteMs + diff % MinuteMs);
  }

  /**
   * The cascade of `formatTimeAgo` over `diff = now - date` in
   * milliseconds: floor to minutes, then to hours.
   */
  function AgeOf(diff: int): (a: Age)
    ensures a == JustNow <==> diff < MinuteMs
    ensures a.MinutesAgo? <==> MinuteMs <= diff < HourMs
    ensures a.HoursAgo? <==> HourMs <= diff < DayMs
    ensures a.MinutesAgo? ==> 1 <= a.minutes < 60 && a.minutes * MinuteMs <= diff < (a.minutes + 1) * MinuteMs
    ensures a.HoursAgo? ==> 1 <= a.hours < 24 && a.hours * HourMs <= diff < (a.hours + 1) * HourMs
  {
    var minutes := diff / MinuteMs;
    if minutes < 1 then JustNow
    else if minutes < 60 then MinutesAgo(minutes)
    else
      var hours := minutes / 60;
      HoursOfMinutes(diff);
      if hours < 24 then HoursAgo(hours) else OnDate
  }

  /** An older date never gets a finer label than a newer one. */
  lemma AgeMonotone(d1: int, d2: int)
    requires d1 <= d2
    ensures AgeRank(AgeOf(d1)) <= AgeRank(AgeOf(d2))
    ensures AgeOf(d1).MinutesAgo? && AgeOf(d2).MinutesAgo? ==> AgeOf(d1).minutes <= AgeOf(d2).minutes
    ensures AgeOf(d1).HoursAgo? && AgeOf(d2).HoursAgo? ==> AgeOf(d1).hours <= AgeOf(d2).hours
  {
  }

  /** The label for an age; only a date falls back to the locale string. */
  function RenderAge(a: Age, localeDate: string): (r: string)
    ensures a.OnDate? ==> r == localeDate
    ensures a.MinutesAgo? || a.HoursAgo? ==> |r| > 5 && r[|r| - 4..] == " ago"
    ensures a.MinutesAgo? ==> r[|r| - 5] == 'm'
    ensures a.HoursAgo? ==> r[|r| - 5] == 'h'
  {
    match a
    case JustNow => "Just now"
    case MinutesAgo(m) => NatToString(m) + "m ago"
    case HoursAgo(h) => NatToString(h) + "h ago"
    case OnDate => localeDate
  }

  /**
   * `formatTimeAgo(date)` (and `formatTime`) with the clock read as `now`
   * and `date.getTime()` as `date`, both in milliseconds; `localeDate` is
   * `date.toLocaleDateString()`.
   */
  function FormatTimeAgo(now: int, date: int, localeDate: string): (r: string)
    ensures now - date < MinuteMs ==> r == "Just now"
    ensures MinuteMs <= now - date < HourMs ==> r == NatToString((now - date) / MinuteMs) + "m ago"
    ensures HourMs <= now - date < DayMs ==> r == NatToString((now - date) / HourMs) + "h ago"
    ensures now - date >= DayMs ==> r == localeDate
  {
    HoursOfMinutes(now - date);
    RenderAge(AgeOf(now - date), localeDate)
  }

  // ---------------------------------------------------------------------
  // Durations

  datatype DurationUnit = Millis | Seconds | Minutes

  function UnitRank(u: DurationUnit): nat {
    match u
    case Millis => 0
    case Seconds => 1
    case Minutes => 2
  }

  function UnitOf(ms: int): (u: DurationUnit)
    ensures u == Millis <==> ms < 1000
    ensures u == Minutes <==> ms >= 60000
  {
    if ms < 1000 then Millis else if ms < 60000 then Seconds else Minutes
  }

  /** A longer duration never gets a finer unit. */
  lemma UnitMonotone(ms1: int, ms2: int)
    requires ms1 <= ms2
    ensures UnitRank(UnitOf(ms1)) <= UnitRank(UnitOf(ms2))
  {
  }

  /**
   * `formatDuration(ms)`; `fixed1` is `Number.prototype.toFixed(1)`. The
   * number shown in seconds or minutes is always at least 1.
   */
  function FormatDuration(ms: int, fixed1: real -> string): (r: string)
    ensures UnitOf(ms) == Millis ==> r == IntToString(ms) + "ms"
    ensures UnitOf(ms) == Seconds ==> 1.0 <= ms as real / 1000.0 < 60.0 && r == fixed1(ms as real / 1000.0) + "s"
    ensures UnitOf(ms) == Minutes ==> 1.0 <= ms as real / 60000.0 && r == fixed1(ms as real / 60000.0) + "m"
  {
    if ms < 1000 then IntToString(ms) + "ms"
    else if ms < 60000 then fixed1(ms as real / 1000.0) + "s"
    else fixed1(ms as real / 60000.0) + "m"
  }
}
