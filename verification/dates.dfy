/** Instants and calendar days. An instant is a count of seconds on the
    device's local clock, so a day is a fixed block of 86400 seconds; the
    Foundation ISO-8601 formatters are supplied from outside as parsers. */
module Dates {
  import opened Wrappers

  const SecondsPerDay: int := 86400
  const SecondsPerHour: int := 3600

  /** The local calendar day an instant falls on (`Calendar.isDate(_:inSameDayAs:)`
      compares these). Dafny's division rounds down here, so instants before
      the epoch land on the right day too. */
  function DayOf(t: int): int {
    t / SecondsPerDay
  }

  /** The first instant of a day (`Calendar.startOfDay`). */
  function StartOfDay(d: int): int {
    d * SecondsPerDay
  }

  /** Every instant lies in the day `DayOf` gives it. */
  lemma DayBounds(t: int)
    ensures StartOfDay(DayOf(t)) <= t < StartOfDay(DayOf(t)) + SecondsPerDay
  {
  }

  /** An instant `k` seconds into day `d`, for `0 <= k < SecondsPerDay`, is on day `d`. */
  lemma DayOfOffset(d: int, k: int)
    requires 0 <= k < SecondsPerDay
    ensures DayOf(StartOfDay(d) + k) == d
  {
    assert StartOfDay(d) + k == d * SecondsPerDay + k;
  }

  /** The two Foundation ISO-8601 formatters the screens use:
      `internet` is `ISO8601DateFormatter()` with its default options,
      `fractional` adds `.withFractionalSeconds`. Either yields `None` when
      the text does not parse. */
  datatype Parsers = Parsers(internet: string -> Option<int>, fractional: string -> Option<int>)
}
