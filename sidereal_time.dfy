/** Greenwich and local mean sidereal time of an instant, as angles in [0, TAU[. */
module SiderealTime {
  import opened Angle
  import opened Polynomials
  import opened Coordinates
  import opened Epochs

  const HOURS_PER_MILLIS: real := 1.0 / (1000.0 * 3600.0)
  /** The coefficients of the sidereal-time polynomial in Julian centuries, highest degree first. */
  const JULIAN_POLYNOMIAL: seq<real> := [0.000025862, 2400.051336, 6.697374558]
  const HOURS_DAYS_NOW_FACTOR: real := 1.002737909

  /** The instant truncated to the start of its UTC day (floored, also before 1970). */
  function UtcMidnight(when: ZonedDateTime): (r: ZonedDateTime)
    ensures r.epochMilli <= when.epochMilli < r.epochMilli + MILLIS_PER_DAY
    ensures r.epochMilli % MILLIS_PER_DAY == 0
  {
    ZonedDateTime(when.epochMilli - when.epochMilli % MILLIS_PER_DAY, 0)
  }

  /** Hours elapsed since the UTC midnight of the day of `when`. */
  function HoursDayNow(when: ZonedDateTime): (r: real)
    ensures 0.0 <= r < 24.0
  {
    var millis := when.epochMilli - UtcMidnight(when).epochMilli;
    millis as real * HOURS_PER_MILLIS
  }

  /** Julian centuries from J2000 to the UTC midnight of the day of `when`. */
  function CentBeginningDay(when: ZonedDateTime): real {
    J2000.JulianCenturiesUntil(UtcMidnight(when))
  }

  /**
   * `greenwich`: the polynomial in the centuries to the day's midnight, plus the hours
   * since midnight scaled to sidereal hours, converted to radians and normalised.
   */
  function Greenwich(when: ZonedDateTime): (r: real)
    ensures 0.0 <= r < TAU
    ensures r == NormalizePositive(OfHr(MonomialSum(JULIAN_POLYNOMIAL, CentBeginningDay(when))
                                        + HOURS_DAYS_NOW_FACTOR * HoursDayNow(when)))
  {
    var sidTime0 := Horner(JULIAN_POLYNOMIAL, CentBeginningDay(when));
    HornerIsMonomialSum(JULIAN_POLYNOMIAL, CentBeginningDay(when));
    var sidTime1 := HOURS_DAYS_NOW_FACTOR * HoursDayNow(when);
    NormalizePositive(OfHr(sidTime0 + sidTime1))
  }

  /** Greenwich sidereal time depends only on the UTC instant, not on the zone offset. */
  lemma GreenwichIgnoresZone(t: int, o1: int, o2: int)
    ensures Greenwich(ZonedDateTime(t, o1)) == Greenwich(ZonedDateTime(t, o2))
  {
  }

  /** `local`: Greenwich sidereal time shifted by the observer's longitude, normalised. */
  function Local(when: ZonedDateTime, where: GeographicCoordinates): (r: real)
    ensures 0.0 <= r < TAU
    ensures where.Lon() == 0.0 ==> r == Greenwich(when)
  {
    NormalizePositive(Greenwich(when) + where.Lon())
  }

  /** Shifting the longitude by a full turn leaves local sidereal time unchanged. */
  lemma LocalPeriodicInLongitude(when: ZonedDateTime, lon: real, lat: real)
    ensures Local(when, GeographicCoordinates(SphericalCoordinates(lon + TAU, lat)))
         == Local(when, GeographicCoordinates(SphericalCoordinates(lon, lat)))
  {
    NormalizePeriodic(Greenwich(when) + lon, 1);
    assert Greenwich(when) + (lon + TAU) == (Greenwich(when) + lon) + 1 as real * TAU;
  }
}
