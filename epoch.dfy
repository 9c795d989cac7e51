/**
 * Reference epochs of astronomy and the day / Julian-century spans from an epoch to an
 * instant. Instants are whole milliseconds of UTC since 1970-01-01T00:00Z.
 */
module Epochs {

  const MILLIS_PER_DAY: int := 1000 * 3600 * 24
  const DAYS_PER_MILLIS: real := 1.0 / (1000.0 * 3600.0 * 24.0)
  const JULIAN_CENTURIES_PER_DAY: real := 1.0 / 36525.0

  /**
   * A zoned date-time: an instant plus the zone offset it is displayed in. Only the
   * instant takes part in the arithmetic below.
   */
  datatype ZonedDateTime = ZonedDateTime(epochMilli: int, offsetSeconds: int)

  /**
   * Days from 1970-01-01 to the proleptic Gregorian date `year-month-day` (civil-from-days
   * inverse, valid for years from 1 on).
   */
  function DaysFromCivil(year: int, month: int, day: int): int
    requires year >= 1 && 1 <= month <= 12 && 1 <= day <= 31
  {
    var y := if month <= 2 then year - 1 else year;
    var era := y / 400;
    var yoe := y - era * 400;
    var mp := (month + 9) % 12;
    var doy := (153 * mp + 2) / 5 + day - 1;
    var doe := yoe * 365 + yoe / 4 - yoe / 100 + doy;
    era * 146097 + doe - 719468
  }

  /** The UTC instant of `hour`:00 on the given date. */
  function UtcInstant(year: int, month: int, day: int, hour: int): int
    requires year >= 1 && 1 <= month <= 12 && 1 <= day <= 31
  {
    DaysFromCivil(year, month, day) * MILLIS_PER_DAY + hour * 3600 * 1000
  }

  /** The two epochs: J2000 is 2000-01-01 at noon UTC, J2010 is 2009-12-31 at midnight UTC. */
  datatype Epoch = J2000 | J2010
  {
    /**
     * The epoch's instant. J2010 is built as the day before 2010-01-01, at hour 0.
     */
    function DateTime(): (r: int)
      ensures this == J2000 ==> r == 946728000000
      ensures this == J2010 ==> r == 1262217600000
    {
      match this
      case J2000 => UtcInstant(2000, 1, 1, 12)
      case J2010 => UtcInstant(2010, 1, 1, 0) - MILLIS_PER_DAY
    }

    /** `daysUntil`: the (fractional) number of days from the epoch to `when`. */
    function DaysUntil(when: ZonedDateTime): (r: real)
      ensures r * 86400000.0 == (when.epochMilli - DateTime()) as real
      ensures r > 0.0 <==> when.epochMilli > DateTime()
      ensures when.epochMilli == DateTime() ==> r == 0.0
    {
      (when.epochMilli - DateTime()) as real * DAYS_PER_MILLIS
    }

    /** `julianCenturiesUntil`: days until `when` in Julian centuries of 36525 days. */
    function JulianCenturiesUntil(when: ZonedDateTime): (r: real)
      ensures r * 36525.0 == DaysUntil(when)
    {
      DaysUntil(when) * JULIAN_CENTURIES_PER_DAY
    }
  }

  /** From J2000 to J2010 there are 3651.5 days. */
  lemma J2000ToJ2010()
    ensures J2000.DaysUntil(ZonedDateTime(J2010.DateTime(), 0)) == 3651.5
  {
  }

  /** The span depends on the instant only, not on the zone it is written in. */
  lemma DaysUntilIgnoresZone(e: Epoch, t: int, o1: int, o2: int)
    ensures e.DaysUntil(ZonedDateTime(t, o1)) == e.DaysUntil(ZonedDateTime(t, o2))
  {
  }
}
