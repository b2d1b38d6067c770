/** Time in the model: integer milliseconds since the epoch, as `Date.getTime()`
    returns them, with the clock passed in where the source reads it. */
module Time {
  const Second := 1000
  const Minute := 60 * Second
  const Hour := 60 * Minute
  const Day := 24 * Hour

  /** `d.setHours(0, 0, 0, 0)` on `now` in a time zone utcOffset ms ahead of UTC:
      the start of the local day containing now (daylight-saving changes aside). */
  function LocalMidnight(now: int, utcOffset: int): (r: int)
    ensures r <= now < r + Day
    ensures (r + utcOffset) % Day == 0
  {
    var local := now + utcOffset;
    local - local % Day - utcOffset
  }
}
