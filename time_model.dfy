/**
 * Time as integer UTC minutes, the trading calendar and the time zone used
 * by the clocks. The calendar and the zone are abstract: their rules (holidays,
 * early closes, daylight saving) live in libraries outside this model, so they
 * are given as total functions over minutes.
 */
module TimeModel {
  const MinutesPerDay: int := 1440
  const SecondsPerMinute: int := 60

  /** A timestamp floored to the start of its UTC day (pandas `floor('1D')`). */
  function DayLabel(t: int): (d: int)
    ensures d <= t < d + MinutesPerDay
    ensures d % MinutesPerDay == 0
  {
    t - t % MinutesPerDay
  }

  /** Wall-clock seconds plus the broker's skew, floored to a whole minute. */
  function ServerMinute(nowSeconds: int, skewSeconds: int): (m: int)
    ensures SecondsPerMinute * m <= nowSeconds + skewSeconds < SecondsPerMinute * m + SecondsPerMinute
  {
    (nowSeconds + skewSeconds) / SecondsPerMinute
  }

  /** Flooring to the day is idempotent and monotone, and distinct labels are a day apart. */
  lemma DayLabelFacts(t: int, u: int)
    ensures DayLabel(DayLabel(t)) == DayLabel(t)
    ensures t <= u ==> DayLabel(t) <= DayLabel(u)
    ensures t <= u && DayLabel(t) != DayLabel(u) ==> DayLabel(t) + MinutesPerDay <= DayLabel(u)
  {
    var d, e := DayLabel(t), DayLabel(u);
    assert d % MinutesPerDay == 0 && e % MinutesPerDay == 0;
    var q, r := d / MinutesPerDay, e / MinutesPerDay;
    assert d == q * MinutesPerDay && e == r * MinutesPerDay;
    if t <= u && q > r {
      assert false;
    }
  }

  /** An exchange calendar, as the functions of it the core uses. */
  datatype Calendar = Calendar(
    isSession: int -> bool,
    sessionOpen: int -> int,
    sessionClose: int -> int,
    previousMinute: int -> int,
    nextOpen: int -> int,
    minuteToSessionLabel: int -> int,
    previousOpen: int -> int,
    previousClose: int -> int,
    isOpenOnMinute: int -> bool)

  /**
   * A time zone: `localize` reads a naive wall-clock minute as local time and
   * returns the UTC minute; `toLocal` gives the wall-clock minute of a UTC minute.
   */
  datatype Zone = Zone(localize: int -> int, toLocal: int -> int)

  /** A time of day in a zone, such as 08:45 America/New_York. */
  datatype WallTime = WallTime(hour: nat, minute: nat, zone: Zone)

  function MinuteOfDay(w: WallTime): int
  {
    60 * w.hour + w.minute
  }

  /**
   * The UTC minute at which wall time `w` falls on the local date of UTC
   * minute `t`.
   */
  function OnLocalDate(w: WallTime, t: int): int
  {
    w.zone.localize(DayLabel(w.zone.toLocal(t)) + MinuteOfDay(w))
  }
}
