/** The part of luxon's DateTime the booking services rely on. */
module Time {

  /** An instant, in milliseconds since the Unix epoch, expressed in a named IANA zone (an opaque label here). */
  datatype DateTime = DateTime(epochMillis: int, zone: string)

  const MillisPerMinute: int := 60000

  /**
   * `DateTime.fromISO(iso, { zone: "utc" }).setZone(zone)`: the ISO text is read as an instant,
   * and `setZone` changes the zone the instant is expressed in, never the instant.
   */
  function InZone(epochMillis: int, zone: string): (t: DateTime)
    ensures t.epochMillis == epochMillis && t.zone == zone
  {
    DateTime(epochMillis, zone)
  }

  /** `t.plus({ minutes })`: minutes are a fixed-length unit, so the instant moves by exactly that much. */
  function PlusMinutes(t: DateTime, minutes: int): (r: DateTime)
    ensures r.zone == t.zone
    ensures r.epochMillis - t.epochMillis == minutes * MillisPerMinute
  {
    DateTime(t.epochMillis + minutes * MillisPerMinute, t.zone)
  }

  /**
   * Calendar arithmetic that luxon performs in local time with its zone database:
   * each function takes an instant, the zone and an amount, and returns the new instant.
   */
  datatype Calendar = Calendar(
    plusYears: (int, string, int) -> int,
    plusMonths: (int, string, int) -> int,
    plusWeeks: (int, string, int) -> int)

  /** `end.diff(start, "minutes").minutes`: the exact, possibly fractional, number of minutes between two instants. */
  function DiffMinutes(startMillis: int, endMillis: int): (d: real)
    ensures d * (MillisPerMinute as real) == (endMillis - startMillis) as real
  {
    (endMillis - startMillis) as real / (MillisPerMinute as real)
  }
}
