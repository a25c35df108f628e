/** The shift-duration calculator (`calculateOTDuration`): two wall-clock
    times on the same reference day; an end strictly earlier than the start
    means the shift crossed midnight and ends on the following day. */
module Duration {

  const MINUTES_PER_DAY := 1440

  /** A wall-clock time, in minutes since midnight. */
  type ClockTime = m: int | 0 <= m < MINUTES_PER_DAY

  /** Minutes from `start` to the next moment the clock shows `end`. When `end`
      is strictly earlier than `start` the end moves to the next day, so equal
      times give zero, not a full day. */
  function ShiftMinutes(start: ClockTime, end: ClockTime): (d: nat)
    ensures d < MINUTES_PER_DAY
    ensures (start + d) % MINUTES_PER_DAY == end
  {
    var endOfShift := if end < start then end + MINUTES_PER_DAY else end;
    endOfShift - start
  }

  /** The duration is the only length under a day that takes the clock from
      `start` to `end`. */
  lemma ShiftMinutesUnique(start: ClockTime, end: ClockTime, d: int)
    requires 0 <= d < MINUTES_PER_DAY
    requires (start + d) % MINUTES_PER_DAY == end
    ensures d == ShiftMinutes(start, end)
  {
  }

  /** The end is moved to the next day exactly when the shift runs past
      midnight; otherwise the duration is the plain difference. */
  lemma CrossesMidnight(start: ClockTime, end: ClockTime)
    ensures end < start <==> start + ShiftMinutes(start, end) >= MINUTES_PER_DAY
    ensures start <= end ==> ShiftMinutes(start, end) == end - start
    ensures end < start ==> ShiftMinutes(start, end) == end + MINUTES_PER_DAY - start
  {
  }

  /** The duration in hours, as stored in a record (exact; the source rounds to
      hundredths of an hour). */
  function DurationHours(start: ClockTime, end: ClockTime): (h: real)
    ensures 0.0 <= h < 24.0
    ensures h * 60.0 == ShiftMinutes(start, end) as real
    ensures start == end ==> h == 0.0
  {
    ShiftMinutes(start, end) as real / 60.0
  }
}
