/**
 * The celestial objects of the sky map (stars, the Sun, the Moon, planets) and asterisms.
 * Every object is a reference (the catalogue and the observed sky key maps by object
 * identity); its immutable state is an `ObjectData` value built by a validating factory.
 */
module CelestialObjects {
  import opened Wrappers
  import opened Intervals
  import opened Preconditions
  import opened Coordinates
  import opened Text

  const COLOR_INTERVAL: Interval := ClosedInterval(-0.5, 5.5)
  const PHASE_INTERVAL: Interval := ClosedInterval(0.0, 1.0)
  const SUN_NAME: string := "Soleil"
  const SUN_MAGNITUDE: real := -26.7
  const MOON_NAME: string := "Lune"

  /** What distinguishes the four kinds of object. */
  datatype Body =
    | StarBody(hipparcosId: int, colorTemperature: int)
    | SunBody(eclipticPos: EclipticCoordinates, meanAnomaly: real)
    | MoonBody(phase: real)
    | PlanetBody

  /** The state every celestial object holds. */
  datatype ObjectData = ObjectData(
    name: string,
    equatorialPos: EquatorialCoordinates,
    angularSize: real,
    magnitude: real,
    body: Body)

  /** The effective temperature, in kelvins, of a star of B-V colour index `c` (before truncation). */
  function TemperatureFormula(c: real): real
    requires COLOR_INTERVAL.Contains(c)
  {
    4600.0 * (1.0 / (0.92 * c + 1.7) + 1.0 / (0.92 * c + 0.62))
  }

  lemma ReciprocalAntitone(x: real, y: real)
    requires 0.0 < x <= y
    ensures 1.0 / y <= 1.0 / x
  {
    assert 1.0 / y * y == 1.0;
    assert 1.0 / x * x == 1.0;
    if 1.0 / y > 1.0 / x {
      ScaleStrictMonotone(y, 1.0 / x, 1.0 / y);
      ScaleMonotone(1.0 / x, x, y);
      assert false;
    }
  }

  /** A redder star (larger colour index) is never hotter. */
  lemma TemperatureFormulaAntitone(c1: real, c2: real)
    requires COLOR_INTERVAL.Contains(c1) && COLOR_INTERVAL.Contains(c2) && c1 <= c2
    ensures TemperatureFormula(c2) <= TemperatureFormula(c1)
  {
    ReciprocalAntitone(0.92 * c1 + 1.7, 0.92 * c2 + 1.7);
    ReciprocalAntitone(0.92 * c1 + 0.62, 0.92 * c2 + 0.62);
  }

  /**
   * The colour temperature a star stores: the formula truncated to an int. It lies in
   * [1490, 32459] on the whole allowed colour range.
   */
  function ColorTemperature(c: real): (r: int)
    requires COLOR_INTERVAL.Contains(c)
    ensures r as real <= TemperatureFormula(c) < r as real + 1.0
    ensures 1490 <= r <= 32459
  {
    TemperatureFormulaAntitone(-0.5, c);
    TemperatureFormulaAntitone(c, 5.5);
    assert 1490.0 <= TemperatureFormula(5.5) < 1491.0;
    assert 32459.0 <= TemperatureFormula(-0.5) < 32460.0;
    TemperatureFormula(c).Floor
  }

  /** The temperature does not increase with the colour index, and index 0 gives 10125 K. */
  lemma ColorTemperatureAntitone(c1: real, c2: real)
    requires COLOR_INTERVAL.Contains(c1) && COLOR_INTERVAL.Contains(c2) && c1 <= c2
    ensures ColorTemperature(c2) <= ColorTemperature(c1)
    ensures ColorTemperature(0.0) == 10125
  {
    TemperatureFormulaAntitone(c1, c2);
    assert 10125.0 <= TemperatureFormula(0.0) < 10126.0;
  }

  /** The invariants the constructors establish. */
  predicate WellFormed(d: ObjectData) {
    && d.angularSize >= 0.0
    && match d.body
       case StarBody(hip, t) => hip >= 0 && d.angularSize == 0.0 && 1490 <= t <= 32459
       case SunBody(_, _) => d.name == SUN_NAME && d.magnitude == SUN_MAGNITUDE
       case MoonBody(p) => d.name == MOON_NAME && PHASE_INTERVAL.Contains(p)
       case PlanetBody => true
  }

  /**
   * The `CelestialObject` constructor: a missing name or position is a
   * NullPointerException, a negative angular size an IllegalArgumentException.
   */
  function BaseData(name: Option<string>, equatorialPos: Option<EquatorialCoordinates>,
                    angularSize: real, magnitude: real, body: Body): (r: Result<ObjectData>)
    ensures r.Success? <==> name.Some? && equatorialPos.Some? && angularSize >= 0.0
    ensures r.Failure? ==> r.error == (if name.None? || equatorialPos.None? then NullPointer else IllegalArgument)
    ensures r.Success? ==> r.value == ObjectData(name.value, equatorialPos.value, angularSize, magnitude, body)
  {
    if name.None? || equatorialPos.None? then Failure(NullPointer)
    else if CheckArgument(angularSize >= 0.0).Fail? then Failure(IllegalArgument)
    else Success(ObjectData(name.value, equatorialPos.value, angularSize, magnitude, body))
  }

  /**
   * The `Star` constructor: angular size 0, then a non-negative Hipparcos id and a colour
   * index in [-0.5, 5.5], from which the colour temperature is computed once.
   */
  function StarData(hipparcosId: int, name: Option<string>, equatorialPos: Option<EquatorialCoordinates>,
                    magnitude: real, colorIndex: real): (r: Result<ObjectData>)
    ensures r.Success? <==> name.Some? && equatorialPos.Some? && hipparcosId >= 0 && -0.5 <= colorIndex <= 5.5
    ensures r.Failure? ==> r.error == (if name.None? || equatorialPos.None? then NullPointer else IllegalArgument)
    ensures r.Success? ==> WellFormed(r.value) && r.value.angularSize == 0.0
    ensures r.Success? ==> r.value.name == name.value && r.value.equatorialPos == equatorialPos.value
                           && r.value.magnitude == magnitude
                           && r.value.body == StarBody(hipparcosId, ColorTemperature(colorIndex))
  {
    var base :- BaseData(name, equatorialPos, 0.0, magnitude, PlanetBody);
    if CheckArgument(hipparcosId >= 0).Fail? then Failure(IllegalArgument)
    else
      var checkedColorIndex :- CheckInInterval(COLOR_INTERVAL, colorIndex);
      Success(base.(body := StarBody(hipparcosId, ColorTemperature(checkedColorIndex))))
  }

  /**
   * The `Sun` constructor: fixed name "Soleil" and magnitude -26.7; the base checks run
   * first, then a missing ecliptic position is a NullPointerException.
   */
  function SunData(eclipticPos: Option<EclipticCoordinates>, equatorialPos: Option<EquatorialCoordinates>,
                   angularSize: real, meanAnomaly: real): (r: Result<ObjectData>)
    ensures r.Success? <==> equatorialPos.Some? && angularSize >= 0.0 && eclipticPos.Some?
    ensures r.Failure? ==> r.error == (if equatorialPos.Some? && angularSize < 0.0 then IllegalArgument else NullPointer)
    ensures r.Success? ==> WellFormed(r.value) && r.value.name == SUN_NAME && r.value.magnitude == SUN_MAGNITUDE
    ensures r.Success? ==> r.value.equatorialPos == equatorialPos.value && r.value.angularSize == angularSize
                           && r.value.body == SunBody(eclipticPos.value, meanAnomaly)
  {
    var base :- BaseData(Some(SUN_NAME), equatorialPos, angularSize, SUN_MAGNITUDE, PlanetBody);
    if eclipticPos.None? then Failure(NullPointer)
    else Success(base.(body := SunBody(eclipticPos.value, meanAnomaly)))
  }

  /** The `Moon` constructor: fixed name "Lune" and a phase in [0, 1]. */
  function MoonData(equatorialPos: Option<EquatorialCoordinates>, angularSize: real,
                    magnitude: real, phase: real): (r: Result<ObjectData>)
    ensures r.Success? <==> equatorialPos.Some? && angularSize >= 0.0 && 0.0 <= phase <= 1.0
    ensures r.Failure? ==> r.error == (if equatorialPos.None? then NullPointer else IllegalArgument)
    ensures r.Success? ==> WellFormed(r.value) && r.value.name == MOON_NAME
    ensures r.Success? ==> r.value.equatorialPos == equatorialPos.value && r.value.angularSize == angularSize
                           && r.value.magnitude == magnitude && r.value.body == MoonBody(phase)
  {
    var base :- BaseData(Some(MOON_NAME), equatorialPos, angularSize, magnitude, PlanetBody);
    var checkedPhase :- CheckInInterval(PHASE_INTERVAL, phase);
    Success(base.(body := MoonBody(checkedPhase)))
  }

  /** The `Planet` constructor: everything is handed to the base unchanged. */
  function PlanetData(name: Option<string>, equatorialPos: Option<EquatorialCoordinates>,
                      angularSize: real, magnitude: real): (r: Result<ObjectData>)
    ensures r.Success? <==> name.Some? && equatorialPos.Some? && angularSize >= 0.0
    ensures r.Failure? ==> r.error == (if name.None? || equatorialPos.None? then NullPointer else IllegalArgument)
    ensures r.Success? ==> WellFormed(r.value)
                           && r.value == ObjectData(name.value, equatorialPos.value, angularSize, magnitude, PlanetBody)
  {
    BaseData(name, equatorialPos, angularSize, magnitude, PlanetBody)
  }

  /**
   * A non-negative value printed with one decimal, rounding half up: the integral digits,
   * a dot and the tenths digit.
   */
  function OneDecimal(x: real): (r: string)
    requires x >= 0.0
    ensures exists t: nat :: (t as real - 0.5 <= x * 10.0 < t as real + 0.5)
                             && r == NatToString(t / 10) + "." + [DigitChar(t % 10)]
  {
    var t := (x * 10.0 + 0.5).Floor;
    NatToString(t / 10) + "." + [DigitChar(t % 10)]
  }

  /** The text `info()` gives: the name, and for the Moon the phase as a percentage. */
  function InfoOf(d: ObjectData): (r: string)
    ensures !d.body.MoonBody? ==> r == d.name
    ensures d.body.MoonBody? && 0.0 <= d.body.phase ==>
              r == d.name + " (" + OneDecimal(d.body.phase * 100.0) + "%)"
    ensures StartsWith(r, d.name)
  {
    match d.body
    case MoonBody(phase) =>
      if phase >= 0.0 then d.name + " (" + OneDecimal(phase * 100.0) + "%)"
      else d.name + " (" + "-" + OneDecimal(-phase * 100.0) + "%)"
    case _ => d.name
  }

  /** A celestial object: an identity carrying immutable data. */
  class CelestialObject {
    const data: ObjectData

    constructor (d: ObjectData)
      ensures data == d
    {
      data := d;
    }

    function Name(): (r: string)
      ensures r == data.name
    {
      data.name
    }

    function AngularSize(): (r: real)
      ensures r == data.angularSize
    {
      data.angularSize
    }

    function Magnitude(): (r: real)
      ensures r == data.magnitude
    {
      data.magnitude
    }

    function EquatorialPos(): (r: EquatorialCoordinates)
      ensures r == data.equatorialPos
    {
      data.equatorialPos
    }

    /** The name; the Moon adds its phase. */
    function Info(): (r: string)
      ensures !data.body.MoonBody? ==> r == data.name
    {
      InfoOf(data)
    }

    function ToString(): (r: string)
      ensures r == Info()
    {
      Info()
    }

    predicate IsStar() { data.body.StarBody? }

    function HipparcosId(): (r: int)
      requires IsStar()
      ensures r == data.body.hipparcosId
    {
      data.body.hipparcosId
    }

    function ColorTemperatureOf(): (r: int)
      requires IsStar()
      ensures r == data.body.colorTemperature
    {
      data.body.colorTemperature
    }

    function EclipticPos(): (r: EclipticCoordinates)
      requires data.body.SunBody?
      ensures r == data.body.eclipticPos
    {
      data.body.eclipticPos
    }

    function MeanAnomaly(): (r: real)
      requires data.body.SunBody?
      ensures r == data.body.meanAnomaly
    {
      data.body.meanAnomaly
    }
  }

  /** `new Star(...)`: a fresh object with the star's data, or the exception the checks raise. */
  method NewStar(hipparcosId: int, name: Option<string>, equatorialPos: Option<EquatorialCoordinates>,
                 magnitude: real, colorIndex: real) returns (r: Result<CelestialObject>)
    ensures r.Success? <==> StarData(hipparcosId, name, equatorialPos, magnitude, colorIndex).Success?
    ensures r.Failure? ==> r.error == StarData(hipparcosId, name, equatorialPos, magnitude, colorIndex).error
    ensures r.Success? ==> fresh(r.value) && r.value.IsStar()
                           && r.value.data == StarData(hipparcosId, name, equatorialPos, magnitude, colorIndex).value
  {
    var d := StarData(hipparcosId, name, equatorialPos, magnitude, colorIndex);
    if d.Failure? {
      return Failure(d.error);
    }
    var star := new CelestialObject(d.value);
    return Success(star);
  }

  /** `new Sun(...)`. */
  method NewSun(eclipticPos: Option<EclipticCoordinates>, equatorialPos: Option<EquatorialCoordinates>,
                angularSize: real, meanAnomaly: real) returns (r: Result<CelestialObject>)
    ensures r.Success? <==> SunData(eclipticPos, equatorialPos, angularSize, meanAnomaly).Success?
    ensures r.Failure? ==> r.error == SunData(eclipticPos, equatorialPos, angularSize, meanAnomaly).error
    ensures r.Success? ==> fresh(r.value)
                           && r.value.data == SunData(eclipticPos, equatorialPos, angularSize, meanAnomaly).value
  {
    var d := SunData(eclipticPos, equatorialPos, angularSize, meanAnomaly);
    if d.Failure? {
      return Failure(d.error);
    }
    var sun := new CelestialObject(d.value);
    return Success(sun);
  }

  /** `new Moon(...)`. */
  method NewMoon(equatorialPos: Option<EquatorialCoordinates>, angularSize: real,
                 magnitude: real, phase: real) returns (r: Result<CelestialObject>)
    ensures r.Success? <==> MoonData(equatorialPos, angularSize, magnitude, phase).Success?
    ensures r.Failure? ==> r.error == MoonData(equatorialPos, angularSize, magnitude, phase).error
    ensures r.Success? ==> fresh(r.value)
                           && r.value.data == MoonData(equatorialPos, angularSize, magnitude, phase).value
  {
    var d := MoonData(equatorialPos, angularSize, magnitude, phase);
    if d.Failure? {
      return Failure(d.error);
    }
    var moon := new CelestialObject(d.value);
    return Success(moon);
  }

  /** `new Planet(...)`. */
  method NewPlanet(name: Option<string>, equatorialPos: Option<EquatorialCoordinates>,
                   angularSize: real, magnitude: real) returns (r: Result<CelestialObject>)
    ensures r.Success? <==> PlanetData(name, equatorialPos, angularSize, magnitude).Success?
    ensures r.Failure? ==> r.error == PlanetData(name, equatorialPos, angularSize, magnitude).error
    ensures r.Success? ==> fresh(r.value)
                           && r.value.data == PlanetData(name, equatorialPos, angularSize, magnitude).value
  {
    var d := PlanetData(name, equatorialPos, angularSize, magnitude);
    if d.Failure? {
      return Failure(d.error);
    }
    var planet := new CelestialObject(d.value);
    return Success(planet);
  }

  /** A named group of stars; identity matters, as the catalogue keys its index by asterism. */
  class Asterism {
    const starList: seq<CelestialObject>
    const constellation: string

    /** An asterism always holds at least one star, and only stars. */
    predicate Valid() {
      |starList| > 0 && forall s <- starList :: s.IsStar()
    }

    constructor (stars: seq<CelestialObject>, constellation: string)
      requires |stars| > 0 && forall s <- stars :: s.IsStar()
      ensures starList == stars && this.constellation == constellation
      ensures Valid()
    {
      starList := stars;
      this.constellation := constellation;
    }

    function Stars(): (r: seq<CelestialObject>)
      ensures r == starList
    {
      starList
    }

    function GetConstellationName(): (r: string)
      ensures r == constellation
    {
      constellation
    }
  }

  /**
   * `new Asterism(stars, constellation)`: an empty star list is an IllegalArgumentException;
   * otherwise the asterism keeps its own copy of the list and the label ("-" marks a
   * constellation that is already labelled).
   */
  method NewAsterism(stars: seq<CelestialObject>, constellation: string) returns (r: Result<Asterism>)
    requires forall s <- stars :: s.IsStar()
    ensures r.Success? <==> |stars| > 0
    ensures r.Failure? ==> r.error == IllegalArgument
    ensures r.Success? ==> fresh(r.value) && r.value.Valid() && r.value.Stars() == stars
                           && r.value.GetConstellationName() == constellation
  {
    if CheckArgument(|stars| > 0).Fail? {
      return Failure(IllegalArgument);
    }
    var asterism := new Asterism(stars, constellation);
    return Success(asterism);
  }
}
