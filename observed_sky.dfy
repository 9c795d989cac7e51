/**
 * A snapshot of the sky for one observer: the Sun, the Moon, the seven other planets and
 * the catalogue's stars, each with its position on the projection plane, and the
 * closest-object query. The orbital models and the projection are parameters.
 */
module ObservedSkies {
  import opened Wrappers
  import opened Intervals
  import opened Coordinates
  import opened CelestialObjects
  import opened StarCatalogues

  /** The planet models, in declaration order. */
  datatype PlanetModel = MERCURY | VENUS | EARTH | MARS | JUPITER | SATURN | URANUS | NEPTUNE

  /** `PlanetModel.ALL`. */
  const ALL: seq<PlanetModel> := [MERCURY, VENUS, EARTH, MARS, JUPITER, SATURN, URANUS, NEPTUNE]

  /** The models other than EARTH, in the order given. */
  function WithoutEarth(models: seq<PlanetModel>): (r: seq<PlanetModel>)
    ensures |r| <= |models|
    ensures EARTH !in r
  {
    if |models| == 0 then []
    else
      var front := WithoutEarth(models[..|models| - 1]);
      var last := models[|models| - 1];
      if last == EARTH then front else front + [last]
  }

  /** A list with no Earth is kept whole. */
  lemma {:induction false} WithoutEarthKeepsOthers(models: seq<PlanetModel>)
    requires EARTH !in models
    ensures WithoutEarth(models) == models
    decreases |models|
  {
    if |models| > 0 {
      WithoutEarthKeepsOthers(models[..|models| - 1]);
    }
  }

  /** A list with the Earth at `earth` only loses that one element. */
  lemma {:induction false} WithoutEarthRemovesOne(models: seq<PlanetModel>, earth: int)
    requires 0 <= earth < |models| && forall k :: 0 <= k < |models| ==> (models[k] == EARTH <==> k == earth)
    ensures WithoutEarth(models) == models[..earth] + models[earth + 1..]
    decreases |models|
  {
    var front := models[..|models| - 1];
    if earth == |models| - 1 {
      WithoutEarthKeepsOthers(front);
      assert models[earth + 1..] == [];
    } else {
      WithoutEarthRemovesOne(front, earth);
      assert front[..earth] == models[..earth];
      assert models[earth + 1..] == front[earth + 1..] + [models[|models| - 1]];
    }
  }

  /** The observed planets come in model order with the Earth left out. */
  lemma ObservedPlanetModels()
    ensures WithoutEarth(ALL) == [MERCURY, VENUS, MARS, JUPITER, SATURN, URANUS, NEPTUNE]
  {
    forall k | 0 <= k < |ALL| ensures ALL[k] == EARTH <==> k == 2 {
      EarthIsThird(k);
    }
    WithoutEarthRemovesOne(ALL, 2);
  }

  /** Only the third model is the Earth. */
  lemma EarthIsThird(k: int)
    requires 0 <= k < |ALL|
    ensures ALL[k] == EARTH <==> k == 2
  {
  }

  /** Taking one more model extends the observed models by it unless it is the Earth. */
  lemma WithoutEarthStep(models: seq<PlanetModel>, k: int)
    requires 0 <= k < |models|
    ensures WithoutEarth(models[..k + 1]) == WithoutEarth(models[..k]) + (if models[k] == EARTH then [] else [models[k]])
  {
    assert models[..k + 1][..k] == models[..k];
  }

  /** The planets of the given models, in order. */
  function PlanetsOf(models: seq<PlanetModel>, planetAt: PlanetModel -> CelestialObject): (r: seq<CelestialObject>)
    ensures |r| == |models|
    ensures forall i :: 0 <= i < |r| ==> r[i] == planetAt(models[i])
  {
    seq(|models|, i requires 0 <= i < |models| => planetAt(models[i]))
  }

  /** Appending a model appends its planet. */
  lemma PlanetsOfSnoc(models: seq<PlanetModel>, m: PlanetModel, planetAt: PlanetModel -> CelestialObject)
    ensures PlanetsOf(models + [m], planetAt) == PlanetsOf(models, planetAt) + [planetAt(m)]
  {
  }

  /** The projected position of each object, in order. */
  function Positions(objects: seq<CelestialObject>, toPlane: EquatorialCoordinates -> CartesianCoordinates)
    : (r: seq<CartesianCoordinates>)
    ensures |r| == |objects|
    ensures forall i :: 0 <= i < |r| ==> r[i] == toPlane(objects[i].EquatorialPos())
  {
    seq(|objects|, i requires 0 <= i < |objects| => toPlane(objects[i].EquatorialPos()))
  }

  /** The position buffer layout: the i-th point's x at 2i and its y at 2i+1. */
  function Flatten(points: seq<CartesianCoordinates>): (r: seq<real>)
    ensures |r| == 2 * |points|
  {
    if |points| == 0 then []
    else Flatten(points[..|points| - 1]) + [points[|points| - 1].X(), points[|points| - 1].Y()]
  }

  /** Appending a point appends its two coordinates. */
  lemma FlattenSnoc(points: seq<CartesianCoordinates>, p: CartesianCoordinates)
    ensures Flatten(points + [p]) == Flatten(points) + [p.X(), p.Y()]
  {
    assert (points + [p])[..|points|] == points;
  }

  /** Appending an object appends its projected position. */
  lemma PositionsSnoc(objects: seq<CelestialObject>, o: CelestialObject,
                      toPlane: EquatorialCoordinates -> CartesianCoordinates)
    ensures Positions(objects + [o], toPlane) == Positions(objects, toPlane) + [toPlane(o.EquatorialPos())]
  {
  }

  /** Reading a buffer back as points. */
  function Unflatten(buffer: seq<real>): (r: seq<CartesianCoordinates>)
    requires |buffer| % 2 == 0
    ensures 2 * |r| == |buffer|
  {
    if |buffer| == 0 then []
    else Unflatten(buffer[..|buffer| - 2]) + [CartesianCoordinates(buffer[|buffer| - 2], buffer[|buffer| - 1])]
  }

  /** The i-th point sits at positions 2i and 2i+1 of the buffer. */
  lemma {:induction false} FlattenLayout(points: seq<CartesianCoordinates>, i: int)
    requires 0 <= i < |points|
    ensures Flatten(points)[2 * i] == points[i].X() && Flatten(points)[2 * i + 1] == points[i].Y()
    decreases |points|
  {
    if i < |points| - 1 {
      FlattenLayout(points[..|points| - 1], i);
    }
  }

  /** The buffer holds the points and nothing else: reading it back gives them. */
  lemma {:induction false} FlattenRoundTrip(points: seq<CartesianCoordinates>)
    ensures Unflatten(Flatten(points)) == points
    decreases |points|
  {
    if |points| > 0 {
      var front := points[..|points| - 1];
      FlattenRoundTrip(front);
      var buffer := Flatten(points);
      assert buffer[..|buffer| - 2] == Flatten(front);
    }
  }

  /** `Math.abs`. */
  function Abs(x: real): (r: real)
    ensures r >= 0.0 && (r == x || r == -x)
  {
    if x < 0.0 then -x else x
  }

  /** The pre-filter of `objectClosestTo`: within `maxDistance` of `p` along both axes. */
  predicate InBox(c: CartesianCoordinates, p: CartesianCoordinates, maxDistance: real) {
    Abs(c.X() - p.X()) <= maxDistance && Abs(c.Y() - p.Y()) <= maxDistance
  }

  /** A non-negative coordinate difference is bounded by any radius the squared distance is within. */
  lemma PositiveSquareBound(d: real, e: real, m: real)
    requires m >= 0.0 && d >= 0.0 && d * d + e * e <= m * m
    ensures d <= m
  {
    SquareNonNegative(e);
    if d > m {
      SquareStrictMonotone(m, d);
    }
  }

  /** Squaring is strictly increasing on the non-negative reals. */
  lemma SquareStrictMonotone(m: real, d: real)
    requires 0.0 <= m < d
    ensures m * m < d * d
  {
    ScaleStrictMonotone(d + m, 0.0, d - m);
    assert (d + m) * (d - m) == d * d - m * m;
  }

  /** A coordinate difference is bounded by any non-negative radius the squared distance is within. */
  lemma SquareBound(d: real, e: real, m: real)
    requires m >= 0.0 && d * d + e * e <= m * m
    ensures -m <= d <= m
  {
    if d >= 0.0 {
      PositiveSquareBound(d, e, m);
    } else {
      assert (-d) * (-d) == d * d;
      PositiveSquareBound(-d, e, m);
    }
  }

  /** The pre-filter loses nothing: a point within squared distance `maxDistance²` is in the box. */
  lemma WithinRadiusInBox(c: CartesianCoordinates, p: CartesianCoordinates, maxDistance: real)
    requires maxDistance >= 0.0 && c.DistanceSquared(p) <= maxDistance * maxDistance
    ensures InBox(c, p, maxDistance)
  {
    var dx, dy := p.X() - c.X(), p.Y() - c.Y();
    assert c.DistanceSquared(p) == dx * dx + dy * dy;
    SquareBound(dx, dy, maxDistance);
    SquareBound(dy, dx, maxDistance);
  }

  /** Whether every object of the map is recorded at its projected position. */
  predicate Projected(positions: map<CelestialObject, CartesianCoordinates>,
                      toPlane: EquatorialCoordinates -> CartesianCoordinates)
  {
    forall o <- positions.Keys :: positions[o] == toPlane(o.EquatorialPos())
  }

  /** The map holds the objects of `positions0` and `objects`, each at its projected position. */
  predicate Recorded(positions: map<CelestialObject, CartesianCoordinates>,
                     positions0: map<CelestialObject, CartesianCoordinates>, objects: seq<CelestialObject>,
                     toPlane: EquatorialCoordinates -> CartesianCoordinates)
  {
    positions.Keys == positions0.Keys + (set o <- objects) && Projected(positions, toPlane)
  }

  /** Entering one more object at its projected position. */
  lemma RecordStep(positions: map<CelestialObject, CartesianCoordinates>,
                   positions0: map<CelestialObject, CartesianCoordinates>, objects: seq<CelestialObject>,
                   o: CelestialObject, toPlane: EquatorialCoordinates -> CartesianCoordinates)
    requires Recorded(positions, positions0, objects, toPlane)
    ensures Recorded(positions[o := toPlane(o.EquatorialPos())], positions0, objects + [o], toPlane)
  {
    assert (set x <- objects + [o]) == (set x <- objects) + {o};
  }

  /** Writes the point's x at `2·index` and its y at `2·index + 1`. */
  method PutPoint(buffer: array<real>, index: nat, c: CartesianCoordinates)
    requires 2 * index + 1 < buffer.Length
    modifies buffer
    ensures buffer[..2 * index + 2] == old(buffer[..2 * index]) + [c.X(), c.Y()]
  {
    buffer[2 * index] := c.X();
    buffer[2 * index + 1] := c.Y();
  }

  /**
   * One step of both loops: the object's projection written after those of `objects` in the
   * buffer, and entered in the query map.
   */
  method ProjectObject(objects: seq<CelestialObject>, o: CelestialObject, buffer: array<real>,
                       toPlane: EquatorialCoordinates -> CartesianCoordinates,
                       positions: map<CelestialObject, CartesianCoordinates>,
                       positions0: map<CelestialObject, CartesianCoordinates>)
    returns (next: map<CelestialObject, CartesianCoordinates>)
    requires 2 * |objects| + 1 < buffer.Length
    requires buffer[..2 * |objects|] == Flatten(Positions(objects, toPlane))
    requires Recorded(positions, positions0, objects, toPlane)
    modifies buffer
    ensures buffer[..2 * |objects| + 2] == Flatten(Positions(objects + [o], toPlane))
    ensures Recorded(next, positions0, objects + [o], toPlane)
  {
    var cartCoords := toPlane(o.EquatorialPos());
    PutPoint(buffer, |objects|, cartCoords);
    PositionsSnoc(objects, o, toPlane);
    FlattenSnoc(Positions(objects, toPlane), cartCoords);
    RecordStep(positions, positions0, objects, o, toPlane);
    next := positions[o := cartCoords];
  }

  /**
   * One pass of the planet loop: the model at `k` is skipped if it is the Earth, and
   * otherwise its planet is appended, written to the buffer and entered in the query map.
   */
  method ProjectModel(models: seq<PlanetModel>, k: int, planetAt: PlanetModel -> CelestialObject,
                      toPlane: EquatorialCoordinates -> CartesianCoordinates, planets: seq<CelestialObject>,
                      buffer: array<real>, positions: map<CelestialObject, CartesianCoordinates>,
                      positions0: map<CelestialObject, CartesianCoordinates>)
    returns (planets': seq<CelestialObject>, positions': map<CelestialObject, CartesianCoordinates>)
    requires 0 <= k < |models| && planets == PlanetsOf(WithoutEarth(models[..k]), planetAt)
    requires models[k] != EARTH ==> 2 * |planets| + 1 < buffer.Length
    requires 2 * |planets| <= buffer.Length && buffer[..2 * |planets|] == Flatten(Positions(planets, toPlane))
    requires Recorded(positions, positions0, planets, toPlane)
    modifies buffer
    ensures planets' == PlanetsOf(WithoutEarth(models[..k + 1]), planetAt)
    ensures |planets'| == |planets| + (if models[k] == EARTH then 0 else 1)
    ensures buffer[..2 * |planets'|] == Flatten(Positions(planets', toPlane))
    ensures Recorded(positions', positions0, planets', toPlane)
  {
    WithoutEarthStep(models, k);
    planets', positions' := planets, positions;
    if models[k] != EARTH {
      PlanetsOfSnoc(WithoutEarth(models[..k]), models[k], planetAt);
      var planet := planetAt(models[k]);
      positions' := ProjectObject(planets, planet, buffer, toPlane, positions, positions0);
      planets' := planets + [planet];
    }
  }

  /**
   * The planet loop of the constructor: for every model but the Earth, in order, the planet,
   * its coordinates at 2·index and 2·index+1 of a buffer of 2·(|models| - 1) values, and its
   * entry in the query map. The models list the Earth once, as `ALL` does.
   */
  method ProjectPlanets(models: seq<PlanetModel>, ghost earth: int, planetAt: PlanetModel -> CelestialObject,
                        toPlane: EquatorialCoordinates -> CartesianCoordinates,
                        positions0: map<CelestialObject, CartesianCoordinates>)
    returns (planets: seq<CelestialObject>, planetCoords: array<real>, positions: map<CelestialObject, CartesianCoordinates>)
    requires 0 <= earth < |models| && forall k :: 0 <= k < |models| ==> (models[k] == EARTH <==> k == earth)
    requires Projected(positions0, toPlane)
    ensures fresh(planetCoords)
    ensures planets == PlanetsOf(WithoutEarth(models), planetAt) && |planets| == |models| - 1
    ensures planetCoords[..] == Flatten(Positions(planets, toPlane))
    ensures positions.Keys == positions0.Keys + (set o <- planets) && Projected(positions, toPlane)
  {
    positions := positions0;
    var planetsSize := |models|;
    planets := [];
    planetCoords := new real[2 * (planetsSize - 1)];
    var k := 0;
    while k < planetsSize
      invariant 0 <= k <= planetsSize
      invariant (k > earth ==> |planets| == k - 1) && (k <= earth ==> |planets| == k)
      invariant planets == PlanetsOf(WithoutEarth(models[..k]), planetAt)
      invariant planetCoords[..2 * |planets|] == Flatten(Positions(planets, toPlane))
      invariant Recorded(positions, positions0, planets, toPlane)
    {
      planets, positions := ProjectModel(models, k, planetAt, toPlane, planets, planetCoords, positions, positions0);
      k := k + 1;
    }
    assert models[..k] == models;
    assert planetCoords[..] == planetCoords[..2 * |planets|];
  }

  /**
   * The star loop of the constructor: the coordinates of the i-th star at 2i and 2i+1 of a
   * buffer of 2·|stars| values, and its entry in the query map.
   */
  method ProjectStars(stars: seq<CelestialObject>, toPlane: EquatorialCoordinates -> CartesianCoordinates,
                      positions0: map<CelestialObject, CartesianCoordinates>)
    returns (starCoords: array<real>, positions: map<CelestialObject, CartesianCoordinates>)
    requires Projected(positions0, toPlane)
    ensures fresh(starCoords)
    ensures starCoords[..] == Flatten(Positions(stars, toPlane))
    ensures positions.Keys == positions0.Keys + (set o <- stars) && Projected(positions, toPlane)
  {
    positions := positions0;
    var starListSize := |stars|;
    starCoords := new real[2 * starListSize];
    var i := 0;
    while i < starListSize
      invariant 0 <= i <= starListSize
      invariant starCoords[..2 * i] == Flatten(Positions(stars[..i], toPlane))
      invariant Recorded(positions, positions0, stars[..i], toPlane)
    {
      assert stars[..i + 1] == stars[..i] + [stars[i]];
      positions := ProjectObject(stars[..i], stars[i], starCoords, toPlane, positions, positions0);
      i := i + 1;
    }
    assert stars[..i] == stars;
    assert starCoords[..] == starCoords[..2 * i];
  }

  class ObservedSky {
    const catalogue: StarCatalogue
    /** The equatorial-to-horizontal conversion followed by the stereographic projection. */
    const toPlane: EquatorialCoordinates -> CartesianCoordinates
    const sun: CelestialObject
    const sunCarCoords: CartesianCoordinates
    const moon: CelestialObject
    const moonCarCoords: CartesianCoordinates
    const planetsList: seq<CelestialObject>
    const planetCoords: array<real>
    const starsList: seq<CelestialObject>
    const starCoords: array<real>
    const celestialToCoordinates: map<CelestialObject, CartesianCoordinates>

    /**
     * The layout the constructor establishes: 14 planet coordinates and two per star, each
     * pair the projection of its object, and the query map holding every object with its
     * projected position.
     */
    predicate Valid()
      reads planetCoords, starCoords
    {
      && |planetsList| == 7
      && planetCoords[..] == Flatten(Positions(planetsList, toPlane))
      && starCoords[..] == Flatten(Positions(starsList, toPlane))
      && planetCoords != starCoords
      && celestialToCoordinates.Keys == {sun, moon} + (set o <- planetsList) + (set o <- starsList)
      && Projected(celestialToCoordinates, toPlane)
    }

    /**
     * The constructor: records the Sun and the Moon, then the planets of every model but the
     * Earth, then the catalogue's stars, projecting each and entering it in the query map.
     */
    constructor (sunNow: CelestialObject, moonNow: CelestialObject, planetAt: PlanetModel -> CelestialObject,
                 toPlane: EquatorialCoordinates -> CartesianCoordinates, catalogue: StarCatalogue)
      ensures this.catalogue == catalogue && this.toPlane == toPlane
      ensures sun == sunNow && sunCarCoords == toPlane(sunNow.EquatorialPos())
      ensures moon == moonNow && moonCarCoords == toPlane(moonNow.EquatorialPos())
      ensures planetsList == PlanetsOf(WithoutEarth(ALL), planetAt)
      ensures starsList == catalogue.Stars()
      ensures fresh(planetCoords) && fresh(starCoords)
      ensures Valid()
    {
      var sunPos := toPlane(sunNow.EquatorialPos());
      var moonPos := toPlane(moonNow.EquatorialPos());
      var positions := map[sunNow := sunPos];
      positions := positions[moonNow := moonPos];
      var planets, pCoords;
      forall k | 0 <= k < |ALL| ensures ALL[k] == EARTH <==> k == 2 {
        EarthIsThird(k);
      }
      planets, pCoords, positions := ProjectPlanets(ALL, 2, planetAt, toPlane, positions);
      ObservedPlanetModels();
      var stars := catalogue.Stars();
      var sCoords;
      sCoords, positions := ProjectStars(stars, toPlane, positions);

      this.catalogue := catalogue;
      this.toPlane := toPlane;
      sun := sunNow;
      sunCarCoords := sunPos;
      moon := moonNow;
      moonCarCoords := moonPos;
      planetsList := planets;
      planetCoords := pCoords;
      starsList := stars;
      starCoords := sCoords;
      celestialToCoordinates := positions;
    }

    function Sun(): (r: CelestialObject)
      ensures r == sun
    {
      sun
    }

    function SunPosition(): (r: CartesianCoordinates)
      ensures r == sunCarCoords
    {
      sunCarCoords
    }

    function Moon(): (r: CelestialObject)
      ensures r == moon
    {
      moon
    }

    function MoonPosition(): (r: CartesianCoordinates)
      ensures r == moonCarCoords
    {
      moonCarCoords
    }

    /** `planets()`: the planets in model order. */
    function Planets(): (r: seq<CelestialObject>)
      ensures r == planetsList
    {
      planetsList
    }

    /** `planetsPosition()`: a fresh copy of the planet buffer. */
    method PlanetsPosition() returns (copy: array<real>)
      requires Valid()
      ensures fresh(copy) && copy[..] == planetCoords[..] && copy.Length == 14
      ensures forall i :: 0 <= i < 7 ==>
                copy[2 * i] == toPlane(planetsList[i].EquatorialPos()).X()
                && copy[2 * i + 1] == toPlane(planetsList[i].EquatorialPos()).Y()
    {
      copy := new real[planetCoords.Length](j requires 0 <= j < planetCoords.Length reads planetCoords => planetCoords[j]);
      forall i | 0 <= i < 7
        ensures copy[2 * i] == toPlane(planetsList[i].EquatorialPos()).X()
                && copy[2 * i + 1] == toPlane(planetsList[i].EquatorialPos()).Y()
      {
        FlattenLayout(Positions(planetsList, toPlane), i);
      }
    }

    /** `stars()`: the catalogue's list. */
    function Stars(): (r: seq<CelestialObject>)
      ensures r == starsList
    {
      starsList
    }

    /** `starsPosition()`: a fresh copy of the star buffer. */
    method StarsPosition() returns (copy: array<real>)
      requires Valid()
      ensures fresh(copy) && copy[..] == starCoords[..] && copy.Length == 2 * |starsList|
      ensures forall i :: 0 <= i < |starsList| ==>
                copy[2 * i] == toPlane(starsList[i].EquatorialPos()).X()
                && copy[2 * i + 1] == toPlane(starsList[i].EquatorialPos()).Y()
    {
      copy := new real[starCoords.Length](j requires 0 <= j < starCoords.Length reads starCoords => starCoords[j]);
      forall i | 0 <= i < |starsList|
        ensures copy[2 * i] == toPlane(starsList[i].EquatorialPos()).X()
                && copy[2 * i + 1] == toPlane(starsList[i].EquatorialPos()).Y()
      {
        FlattenLayout(Positions(starsList, toPlane), i);
      }
    }

    /** `asterisms()`: the catalogue's. */
    function Asterisms(): (r: set<Asterism>)
      ensures r == catalogue.asterismListMap.Keys
    {
      catalogue.Asterisms()
    }

    /** `asterismIndices(a)`: the catalogue's, failing the same way. */
    function AsterismIndices(asterism: Asterism): (r: Result<seq<int>>)
      ensures r.Success? <==> asterism in catalogue.asterismListMap
      ensures r.Success? ==> r.value == catalogue.asterismListMap[asterism]
    {
      catalogue.AsterismIndices(asterism)
    }

    /** The squared distance from the recorded position of `o` to `p`. */
    function DistanceOf(o: CelestialObject, p: CartesianCoordinates): real
      requires o in celestialToCoordinates
    {
      celestialToCoordinates[o].DistanceSquared(p)
    }

    /**
     * `objectClosestTo(p, maxDistance)`: an object at squared distance at most
     * `maxDistance²` with none strictly closer, or nothing when there is no such object
     * (and always nothing for a negative `maxDistance`, which the box filter rejects).
     * Among equidistant objects any may be returned.
     */
    method ObjectClosestTo(p: CartesianCoordinates, maxDistance: real) returns (closest: Option<CelestialObject>)
      ensures closest.Some? ==> closest.value in celestialToCoordinates
                                && DistanceOf(closest.value, p) <= maxDistance * maxDistance
      ensures closest.Some? ==> forall o <- celestialToCoordinates.Keys :: DistanceOf(o, p) >= DistanceOf(closest.value, p)
      ensures closest.None? <==>
                maxDistance < 0.0 || forall o <- celestialToCoordinates.Keys :: DistanceOf(o, p) > maxDistance * maxDistance
    {
      var filtered := map o | o in celestialToCoordinates && InBox(celestialToCoordinates[o], p, maxDistance)
                            :: celestialToCoordinates[o];
      closest := None;
      var closestDistanceSquared := maxDistance * maxDistance;
      if filtered != map[] {
        var remaining := filtered.Keys;
        while remaining != {}
          invariant remaining <= filtered.Keys
          invariant closestDistanceSquared <= maxDistance * maxDistance
          invariant closest.Some? ==> closest.value in filtered && DistanceOf(closest.value, p) == closestDistanceSquared
          invariant forall o <- filtered.Keys - remaining :: DistanceOf(o, p) >= closestDistanceSquared
          invariant closest.None? ==> closestDistanceSquared == maxDistance * maxDistance
          invariant closest.None? ==> forall o <- filtered.Keys - remaining :: DistanceOf(o, p) > maxDistance * maxDistance
          decreases remaining
        {
          var entry :| entry in remaining;
          var currentObjectDistance := filtered[entry].DistanceSquared(p);
          if currentObjectDistance <= closestDistanceSquared {
            closestDistanceSquared := currentObjectDistance;
            closest := Some(entry);
          }
          remaining := remaining - {entry};
        }
      }
      if maxDistance < 0.0 {
        assert filtered == map[];
      }
      forall o <- celestialToCoordinates.Keys | maxDistance >= 0.0 && DistanceOf(o, p) <= maxDistance * maxDistance
        ensures o in filtered
      {
        WithinRadiusInBox(celestialToCoordinates[o], p, maxDistance);
      }
    }
  }
}
