/**
 * The validated coordinate value types: horizontal (azimuth/altitude), equatorial
 * (right ascension/declination), ecliptic, geographic, and plane Cartesian points.
 * The four spherical kinds share `SphericalCoordinates`, which stores a longitude and a
 * latitude in radians.
 */
module Coordinates {
  import opened Wrappers
  import opened Intervals
  import opened Preconditions
  import opened Angle

  /** Radian intervals: longitudes in [0, TAU[ and latitudes in [-PI/2, PI/2]. */
  const LON_INTERVAL_RAD: Interval := RightOpenInterval(0.0, TAU)
  const LAT_INTERVAL_RAD: Interval := ClosedInterval(-(PI / 2.0), PI / 2.0)
  /** Degree intervals of the horizontal factory: [0, 360[ and [-90, 90]. */
  const AZ_INTERVAL_DEG: Interval := RightOpenInterval(0.0, 360.0)
  const ALT_INTERVAL_DEG: Interval := ClosedInterval(-90.0, 90.0)
  /** Degree intervals of the geographic factory: [-180, 180[ and [-90, 90]. */
  const GEO_LON_INTERVAL_DEG: Interval := RightOpenInterval(-180.0, 180.0)
  const GEO_LAT_INTERVAL_DEG: Interval := ClosedInterval(-90.0, 90.0)

  /** The named interval constants are the ones the interval factories build. */
  lemma IntervalConstants()
    ensures RightOpenOf(0.0, TAU) == Success(LON_INTERVAL_RAD)
    ensures ClosedSymmetric(PI) == Success(LAT_INTERVAL_RAD)
    ensures RightOpenOf(0.0, 360.0) == Success(AZ_INTERVAL_DEG)
    ensures ClosedSymmetric(180.0) == Success(ALT_INTERVAL_DEG)
    ensures RightOpenSymmetric(360.0) == Success(GEO_LON_INTERVAL_DEG)
    ensures ClosedSymmetric(180.0) == Success(GEO_LAT_INTERVAL_DEG)
  {
  }

  /** A longitude/latitude pair in radians, stored as given. */
  datatype SphericalCoordinates = SphericalCoordinates(longitude: real, latitude: real)
  {
    function Lon(): (r: real)
      ensures r == longitude
    {
      longitude
    }

    function Lat(): (r: real)
      ensures r == latitude
    {
      latitude
    }

    /** The longitude in degrees: converting it back gives the stored radians. */
    function LonDeg(): (r: real)
      ensures OfDeg(r) == longitude
    {
      DegRoundTrip(0.0, longitude);
      ToDeg(longitude)
    }

    function LatDeg(): (r: real)
      ensures OfDeg(r) == latitude
    {
      DegRoundTrip(0.0, latitude);
      ToDeg(latitude)
    }

    /** Value equality is refused. */
    function EqualsOther<T>(o: T): (r: Result<bool>)
      ensures r.Failure? && r.error == UnsupportedOperation
    {
      Failure(UnsupportedOperation)
    }

    function HashCode(): (r: Result<int>)
      ensures r.Failure? && r.error == UnsupportedOperation
    {
      Failure(UnsupportedOperation)
    }
  }

  /** Whether a longitude in [0, TAU[ and a latitude in [-PI/2, PI/2] are stored. */
  predicate InSkyRange(sph: SphericalCoordinates) {
    LON_INTERVAL_RAD.Contains(sph.longitude) && LAT_INTERVAL_RAD.Contains(sph.latitude)
  }

  /** Degree views of a pair in sky range lie in [0, 360[ and [-90, 90]. */
  lemma SkyRangeInDegrees(sph: SphericalCoordinates)
    requires InSkyRange(sph)
    ensures 0.0 <= sph.LonDeg() < 360.0
    ensures -90.0 <= sph.LatDeg() <= 90.0
  {
    DegreesOfTurn(sph.longitude);
    DegreesOfTurn(sph.latitude);
  }

  /** The octant number `floor((azDeg + 22.5) / 45) % 8`, with Java's truncating `%`. */
  function OctantNumber(azDeg: real): int {
    var k := ((azDeg + 22.5) / 45.0).Floor;
    if k >= 0 then k % 8 else -((-k) % 8)
  }

  /** Horizontal coordinates: azimuth and altitude. */
  datatype HorizontalCoordinates = HorizontalCoordinates(sph: SphericalCoordinates)
  {
    predicate Valid() { InSkyRange(sph) }

    function Az(): (r: real)
      ensures r == sph.longitude
    {
      sph.Lon()
    }

    function AzDeg(): (r: real)
      ensures OfDeg(r) == Az()
      ensures Valid() ==> 0.0 <= r < 360.0
    {
      if Valid() then SkyRangeInDegrees(sph); sph.LonDeg() else sph.LonDeg()
    }

    function Alt(): (r: real)
      ensures r == sph.latitude
    {
      sph.Lat()
    }

    function AltDeg(): (r: real)
      ensures OfDeg(r) == Alt()
      ensures Valid() ==> -90.0 <= r <= 90.0
    {
      if Valid() then SkyRangeInDegrees(sph); sph.LatDeg() else sph.LatDeg()
    }

    /**
     * `azOctantName`: the compass octant of the azimuth, each 45 degrees wide and
     * centred on a cardinal or intercardinal direction; north covers [337.5, 360[ and
     * [0, 22.5[. The "invalid" default is reached by no valid azimuth.
     */
    function AzOctantName(n: string, e: string, s: string, w: string): (r: string)
      ensures 337.5 <= AzDeg() < 382.5 || -22.5 <= AzDeg() < 22.5 ==> r == n
      ensures 22.5 <= AzDeg() < 67.5 ==> r == n + e
      ensures 67.5 <= AzDeg() < 112.5 ==> r == e
      ensures 112.5 <= AzDeg() < 157.5 ==> r == s + e
      ensures 157.5 <= AzDeg() < 202.5 ==> r == s
      ensures 202.5 <= AzDeg() < 247.5 ==> r == s + w
      ensures 247.5 <= AzDeg() < 292.5 ==> r == w
      ensures 292.5 <= AzDeg() < 337.5 ==> r == n + w
      ensures Valid() ==> r in [n, n + e, e, s + e, s, s + w, w, n + w]
    {
      var octantNumber := OctantNumber(AzDeg());
      match octantNumber
      case 0 => n
      case 1 => n + e
      case 2 => e
      case 3 => s + e
      case 4 => s
      case 5 => s + w
      case 6 => w
      case 7 => n + w
      case _ => "invalid"
    }
  }

  /** `HorizontalCoordinates.of`: azimuth in [0, TAU[ and altitude in [-PI/2, PI/2], in radians. */
  function HorizontalOf(az: real, alt: real): (r: Result<HorizontalCoordinates>)
    ensures r.Success? <==> 0.0 <= az < TAU && -(PI / 2.0) <= alt <= PI / 2.0
    ensures r.Failure? ==> r.error == IllegalArgument
    ensures r.Success? ==> r.value.Valid() && r.value.Az() == az && r.value.Alt() == alt
  {
    var lon :- CheckInInterval(LON_INTERVAL_RAD, az);
    var lat :- CheckInInterval(LAT_INTERVAL_RAD, alt);
    Success(HorizontalCoordinates(SphericalCoordinates(lon, lat)))
  }

  /** `HorizontalCoordinates.ofDeg`: azimuth in [0, 360[ and altitude in [-90, 90], in degrees. */
  function HorizontalOfDeg(azDeg: real, altDeg: real): (r: Result<HorizontalCoordinates>)
    ensures r.Success? <==> 0.0 <= azDeg < 360.0 && -90.0 <= altDeg <= 90.0
    ensures r.Failure? ==> r.error == IllegalArgument
    ensures r.Success? ==> r.value.Valid() && r.value.AzDeg() == azDeg && r.value.AltDeg() == altDeg
    ensures r.Success? ==> r.value.Az() == OfDeg(azDeg) && r.value.Alt() == OfDeg(altDeg)
  {
    var a :- CheckInInterval(AZ_INTERVAL_DEG, azDeg);
    var b :- CheckInInterval(ALT_INTERVAL_DEG, altDeg);
    var azRad, altRad := OfDeg(a), OfDeg(b);
    DegRoundTrip(a, azRad);
    DegRoundTrip(b, altRad);
    DegreesOfTurn(azRad);
    DegreesOfTurn(altRad);
    Success(HorizontalCoordinates(SphericalCoordinates(azRad, altRad)))
  }

  /** Octant boundaries: exactly 22.5 degrees is north-east, anything below is north. */
  lemma OctantBoundary(n: string, e: string, s: string, w: string, eps: real)
    requires 0.0 < eps <= 22.5
    ensures HorizontalOfDeg(22.5, 0.0).value.AzOctantName(n, e, s, w) == n + e
    ensures HorizontalOfDeg(22.5 - eps, 0.0).value.AzOctantName(n, e, s, w) == n
    ensures HorizontalOfDeg(360.0 - eps, 0.0).value.AzOctantName(n, e, s, w) == n
  {
  }

  /** For every valid azimuth the octant number lies in 0..7, so "invalid" is unreachable. */
  lemma {:induction false} OctantNumberInRange(h: HorizontalCoordinates)
    requires h.Valid()
    ensures 0 <= OctantNumber(h.AzDeg()) < 8
  {
    var q := (h.AzDeg() + 22.5) / 45.0;
    assert 0.5 <= q < 8.5;
  }

  /** Equatorial coordinates: right ascension and declination. */
  datatype EquatorialCoordinates = EquatorialCoordinates(sph: SphericalCoordinates)
  {
    predicate Valid() { InSkyRange(sph) }

    function Ra(): (r: real)
      ensures r == sph.longitude
    {
      sph.Lon()
    }

    function RaDeg(): (r: real)
      ensures OfDeg(r) == Ra()
      ensures Valid() ==> 0.0 <= r < 360.0
    {
      if Valid() then SkyRangeInDegrees(sph); sph.LonDeg() else sph.LonDeg()
    }

    /** The right ascension in hours, in [0, 24[ for valid coordinates. */
    function RaHr(): (r: real)
      ensures OfHr(r) == Ra()
      ensures Valid() ==> 0.0 <= r < 24.0
    {
      HrRoundTrip(0.0, Ra());
      ToHr(Ra())
    }

    function Dec(): (r: real)
      ensures r == sph.latitude
    {
      sph.Lat()
    }

    function DecDeg(): (r: real)
      ensures OfDeg(r) == Dec()
      ensures Valid() ==> -90.0 <= r <= 90.0
    {
      if Valid() then SkyRangeInDegrees(sph); sph.LatDeg() else sph.LatDeg()
    }
  }

  /** `EquatorialCoordinates.of`: right ascension in [0, TAU[, declination in [-PI/2, PI/2]. */
  function EquatorialOf(ra: real, dec: real): (r: Result<EquatorialCoordinates>)
    ensures r.Success? <==> 0.0 <= ra < TAU && -(PI / 2.0) <= dec <= PI / 2.0
    ensures r.Failure? ==> r.error == IllegalArgument
    ensures r.Success? ==> r.value.Valid() && r.value.Ra() == ra && r.value.Dec() == dec
  {
    var lon :- CheckInInterval(LON_INTERVAL_RAD, ra);
    var lat :- CheckInInterval(LAT_INTERVAL_RAD, dec);
    Success(EquatorialCoordinates(SphericalCoordinates(lon, lat)))
  }

  /** Ecliptic coordinates: ecliptic longitude and latitude. */
  datatype EclipticCoordinates = EclipticCoordinates(sph: SphericalCoordinates)
  {
    predicate Valid() { InSkyRange(sph) }

    function Lon(): (r: real)
      ensures r == sph.longitude
    {
      sph.Lon()
    }

    function LonDeg(): (r: real)
      ensures OfDeg(r) == Lon()
      ensures Valid() ==> 0.0 <= r < 360.0
    {
      if Valid() then SkyRangeInDegrees(sph); sph.LonDeg() else sph.LonDeg()
    }

    function Lat(): (r: real)
      ensures r == sph.latitude
    {
      sph.Lat()
    }

    function LatDeg(): (r: real)
      ensures OfDeg(r) == Lat()
      ensures Valid() ==> -90.0 <= r <= 90.0
    {
      if Valid() then SkyRangeInDegrees(sph); sph.LatDeg() else sph.LatDeg()
    }
  }

  /** `EclipticCoordinates.of`: longitude in [0, TAU[ (TAU itself rejected), latitude in [-PI/2, PI/2]. */
  function EclipticOf(lon: real, lat: real): (r: Result<EclipticCoordinates>)
    ensures r.Success? <==> 0.0 <= lon < TAU && -(PI / 2.0) <= lat <= PI / 2.0
    ensures r.Failure? ==> r.error == IllegalArgument
    ensures r.Success? ==> r.value.Valid() && r.value.Lon() == lon && r.value.Lat() == lat
  {
    var l :- CheckInInterval(LON_INTERVAL_RAD, lon);
    var b :- CheckInInterval(LAT_INTERVAL_RAD, lat);
    Success(EclipticCoordinates(SphericalCoordinates(l, b)))
  }

  /** Geographic coordinates of an observer: longitude and latitude. */
  datatype GeographicCoordinates = GeographicCoordinates(sph: SphericalCoordinates)
  {
    function Lon(): (r: real)
      ensures r == sph.longitude
    {
      sph.Lon()
    }

    function Lat(): (r: real)
      ensures r == sph.latitude
    {
      sph.Lat()
    }

    function LonDeg(): (r: real)
      ensures OfDeg(r) == Lon()
    {
      sph.LonDeg()
    }

    function LatDeg(): (r: real)
      ensures OfDeg(r) == Lat()
    {
      sph.LatDeg()
    }
  }

  /** `isValidLonDeg`: a longitude in [-180, 180[ degrees. */
  function IsValidLonDeg(lonDeg: real): (r: bool)
    ensures r <==> -180.0 <= lonDeg < 180.0
  {
    GEO_LON_INTERVAL_DEG.Contains(lonDeg)
  }

  /** `isValidLatDeg`: a latitude in [-90, 90] degrees. */
  function IsValidLatDeg(latDeg: real): (r: bool)
    ensures r <==> -90.0 <= latDeg <= 90.0
  {
    GEO_LAT_INTERVAL_DEG.Contains(latDeg)
  }

  /** `GeographicCoordinates.ofDeg`: both degree values checked, then stored in radians. */
  function GeographicOfDeg(lonDeg: real, latDeg: real): (r: Result<GeographicCoordinates>)
    ensures r.Success? <==> IsValidLonDeg(lonDeg) && IsValidLatDeg(latDeg)
    ensures r.Failure? ==> r.error == IllegalArgument
    ensures r.Success? ==> r.value.Lon() == OfDeg(lonDeg) && r.value.Lat() == OfDeg(latDeg)
    ensures r.Success? ==> r.value.LonDeg() == lonDeg && r.value.LatDeg() == latDeg
  {
    var lo :- CheckInInterval(GEO_LON_INTERVAL_DEG, lonDeg);
    var la :- CheckInInterval(GEO_LAT_INTERVAL_DEG, latDeg);
    var lonRad, latRad := OfDeg(lo), OfDeg(la);
    DegRoundTrip(lo, lonRad);
    DegRoundTrip(la, latRad);
    Success(GeographicCoordinates(SphericalCoordinates(lonRad, latRad)))
  }

  /** A point of the plane. */
  datatype CartesianCoordinates = CartesianCoordinates(abscissa: real, ordinate: real)
  {
    function X(): (r: real)
      ensures r == abscissa
    {
      abscissa
    }

    function Y(): (r: real)
      ensures r == ordinate
    {
      ordinate
    }

    /** The squared Euclidean distance to `coords`: never negative, and zero from a point to itself. */
    function DistanceSquared(coords: CartesianCoordinates): (r: real)
      ensures r == (coords.X() - X()) * (coords.X() - X()) + (coords.Y() - Y()) * (coords.Y() - Y())
      ensures r >= 0.0
      ensures coords == this ==> r == 0.0
    {
      var dx, dy := coords.X() - X(), coords.Y() - Y();
      SquareNonNegative(dx);
      SquareNonNegative(dy);
      dx * dx + dy * dy
    }

    /** Value equality is refused. */
    function EqualsOther<T>(o: T): (r: Result<bool>)
      ensures r.Failure? && r.error == UnsupportedOperation
    {
      Failure(UnsupportedOperation)
    }

    function HashCode(): (r: Result<int>)
      ensures r.Failure? && r.error == UnsupportedOperation
    {
      Failure(UnsupportedOperation)
    }
  }

  lemma SquareNonNegative(d: real)
    ensures d * d >= 0.0
  {
    if d < 0.0 {
      ScaleStrictMonotone(-d, 0.0, -d);
      assert (-d) * (-d) == d * d;
    }
  }

  /** `CartesianCoordinates.of(x, y)`: the point whose getters give back `x` and `y`. */
  function CartesianOf(x: real, y: real): (r: CartesianCoordinates)
    ensures r.X() == x && r.Y() == y
  {
    CartesianCoordinates(x, y)
  }

  /** The squared distance is symmetric. */
  lemma DistanceSymmetric(a: CartesianCoordinates, b: CartesianCoordinates)
    ensures a.DistanceSquared(b) == b.DistanceSquared(a)
  {
    var dx, dy := b.abscissa - a.abscissa, b.ordinate - a.ordinate;
    assert (-dx) * (-dx) == dx * dx;
    assert (-dy) * (-dy) == dy * dy;
  }
}
