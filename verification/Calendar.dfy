/** Time as whole UTC seconds: every UTC day has 86400 of them, so the calendar
    helpers the program takes from its time library become integer arithmetic. */
module Calendar {
  const DAY := 86400
  const HOUR := 3600

  datatype Period = Period(start: int, end: int)

  /** Midnight of the UTC day that holds `t`; Euclidean `%` floors, also before the epoch. */
  function StartOfDay(t: int): (d: int)
    ensures d % DAY == 0 && d <= t < d + DAY
  {
    t - t % DAY
  }

  function AddDays(t: int, days: int): int {
    t + days * DAY
  }

  predicate SameDay(left: int, right: int) {
    StartOfDay(left) == StartOfDay(right)
  }

  function HourOf(t: int): int {
    t % DAY / HOUR
  }

  /** Whole UTC days between the first and the last day of a period (may be negative). */
  function Nights(p: Period): (n: int)
    ensures StartOfDay(p.end) == AddDays(StartOfDay(p.start), n)
  {
    (StartOfDay(p.end) - StartOfDay(p.start)) / DAY
  }

  /** The first instant after the hour that holds `t`. */
  function HourEnd(t: int): (e: int)
    ensures t < e <= t + HOUR
  {
    t - t % HOUR + HOUR
  }

  /** The rest of an hour, told by day and hour or by its bounds. */
  lemma RestOfHour(t: int, from: int)
    ensures SameDay(t, from) && HourOf(t) == HourOf(from) && t >= from <==> from <= t < HourEnd(from)
  {
    var q := t % DAY / HOUR;
    assert t % DAY == q * HOUR + t % DAY % HOUR;
  }
}
