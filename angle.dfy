/** Angle units (radians, degrees, hours, arc seconds) and normalisation into [0, TAU[. */
module Angle {
  import opened Wrappers
  import opened Intervals
  import opened Preconditions

  /** `Math.PI` as the exact rational the double literal denotes. */
  const PI: real := 3.141592653589793
  const TAU: real := 2.0 * PI

  const HOUR_PER_RAD: real := 24.0 / TAU
  const RAD_PER_HOUR: real := TAU / 24.0
  const RAD_PER_ARCSEC: real := TAU / (360.0 * 3600.0)
  const SEC_PER_MIN: real := 60.0
  const MIN_PER_DEG: real := 60.0

  const ZERO_TAU: Interval := RightOpenInterval(0.0, TAU)
  const ZERO_SIXTY: Interval := RightOpenInterval(0.0, 60.0)

  /** `normalizePositive`: the angle equivalent to `rad` modulo TAU, in [0, TAU[. */
  function NormalizePositive(rad: real): (r: real)
    ensures 0.0 <= r < TAU
    ensures 0.0 <= rad < TAU ==> r == rad
  {
    ReduceInRange(ZERO_TAU, rad);
    if 0.0 <= rad < TAU then ReduceFixesMembers(ZERO_TAU, rad); Reduce(ZERO_TAU, rad)
    else Reduce(ZERO_TAU, rad)
  }

  lemma NormalizePeriodic(rad: real, k: int)
    ensures NormalizePositive(rad + k as real * TAU) == NormalizePositive(rad)
  {
    ReducePeriodic(ZERO_TAU, rad, k);
  }

  lemma NormalizeIdempotent(rad: real)
    ensures NormalizePositive(NormalizePositive(rad)) == NormalizePositive(rad)
  {
  }

  function OfArcsec(sec: real): (r: real)
    ensures r * 360.0 * 3600.0 == sec * TAU
  {
    sec * RAD_PER_ARCSEC
  }

  /**
   * `ofDMS`: degrees, arc minutes and arc seconds to radians. Fails with
   * IllegalArgumentException when the degrees are negative or when the minutes or
   * seconds leave [0, 60[.
   */
  function OfDMS(deg: int, min: int, sec: real): (r: Result<real>)
    ensures r.Success? <==> deg >= 0 && 0 <= min < 60 && 0.0 <= sec < 60.0
    ensures r.Failure? ==> r.error == IllegalArgument
    ensures r.Success? ==> r.value == OfArcsec(3600.0 * deg as real + 60.0 * min as real + sec)
  {
    if CheckArgument(deg >= 0).Fail? then Failure(IllegalArgument)
    else
      var secs :- CheckInInterval(ZERO_SIXTY, sec);
      var mins :- CheckInInterval(ZERO_SIXTY, min as real);
      var totalSecs := secs + mins * SEC_PER_MIN + deg as real * MIN_PER_DEG * SEC_PER_MIN;
      Success(totalSecs * RAD_PER_ARCSEC)
  }

  /** `Math.toRadians`. */
  function OfDeg(deg: real): real {
    deg / 180.0 * PI
  }

  /** `Math.toDegrees`. */
  function ToDeg(rad: real): real {
    rad * 180.0 / PI
  }

  function OfHr(hr: real): real {
    hr * RAD_PER_HOUR
  }

  function ToHr(rad: real): real {
    rad * HOUR_PER_RAD
  }

  lemma DegRoundTrip(deg: real, rad: real)
    ensures ToDeg(OfDeg(deg)) == deg
    ensures OfDeg(ToDeg(rad)) == rad
  {
  }

  lemma HrRoundTrip(hr: real, rad: real)
    ensures ToHr(OfHr(hr)) == hr
    ensures OfHr(ToHr(rad)) == rad
    ensures OfHr(24.0) == TAU
  {
  }

  /** A full turn is 360 degrees, and [0, TAU[ is [0, 360[ in degrees. */
  lemma DegreesOfTurn(rad: real)
    ensures OfDeg(360.0) == TAU
    ensures 0.0 <= rad < TAU <==> 0.0 <= ToDeg(rad) < 360.0
    ensures -(PI / 2.0) <= rad <= PI / 2.0 <==> -90.0 <= ToDeg(rad) <= 90.0
  {
  }
}
