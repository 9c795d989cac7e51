# Rigel sky map — a verified Dafny model of its core

Rigel is a Java/JavaFX planetarium. It loads a star catalogue (the HYG database and
a list of asterisms) and computes, for an instant and an observer, where the Sun, the Moon, the
planets and the stars appear. It projects them onto a plane, finds the object closest to the
mouse, and animates time with a choice of accelerators.

This project models the core of that program in Dafny and proves properties of the model:

- **Mathematics.** Closed and right-open intervals with `clip` and `reduce`, angle conversions,
  Horner evaluation of polynomials, and the argument checks.
- **Coordinates.** Spherical, horizontal, equatorial, ecliptic, geographic and Cartesian
  coordinates, with their validating factories.
- **Time.** The J2000 and J2010 epochs, and Greenwich and local sidereal time.
- **Celestial objects.** Stars (with the colour-temperature formula), the Sun, the Moon, planets
  and asterisms.
- **The catalogue.** The star catalogue and its builder, the asterism loader, the HYG loader,
  and `loadFrom`.
- **The observed sky.** The buffer layout of projected positions and the closest-object search.
- **The GUI rules.**
  - The direction keys, the zoom and the rounding of the view altitude.
  - The time accelerators, their six named values, and the animation timer.
  - The black-body colour table.
  - The celestial information file.

Modelling choices:

- **Arithmetic.**
  - Numbers are exact: `real` for doubles and floats, and `int` for Java integers.
  - `long` wrap-around (`WrapLong`) and `(int)`/`(long)` truncation are written out where the
    source relies on them.
- **Exceptions.** They become `Result`, `Outcome` and `Option` values, with an `Error` tag naming
  the exception class.
- **Object identity.**
  - Objects that the source keys hash maps by identity are Dafny classes. These are celestial
    objects, asterisms, the catalogue and its builder.
  - Objects whose fields the source updates are classes too: the builder, the observed sky, the
    animation timer, the view and the information-file manager.
  - Immutable values (intervals, coordinates, epochs, accelerators) are datatypes.
- **I/O.** Files and streams become sequences of lines.
- **Parameters for what the model does not compute.**
  - `Double.parseDouble` is a parameter (`string -> Option<real>`).
  - The orbital models and the stereographic projection are parameters: a planet per model and a
    function from equatorial coordinates to the plane.
  - Colours stay as their `#rrggbb` text.

Behaviour of the program that a reader might not expect, and that the model keeps:

- **Partial loads.** The asterism loader and the HYG loader add to the builder line by line. When
  a line throws, what the earlier lines added stays in the builder. `AsterismLoading.Load` and
  `HygLoading.Load` state this: the old content is a prefix of the new, and the appended part is
  what the lines before the failing one read to.
- **Line filters.** The HYG loader skips only its first line. The black-body table keeps the lines
  whose columns 10–14 read "10deg" ignoring case, and skips '#' lines.
- **Shared captions.** The captions of the information window live in a static list, so each new
  manager appends them again. The model passes that list in as a shared object.

## Model

| member | source | states |
|---|---|---|
| Preconditions.CheckArgument | src/ch/epfl/rigel/Preconditions.java:26-28 | passes exactly when the condition holds, otherwise IllegalArgumentException |
| Preconditions.CheckInInterval | src/ch/epfl/rigel/Preconditions.java:39-42 | returns the value unchanged exactly when the interval contains it, otherwise IllegalArgumentException |
| Intervals.Interval.Low | src/ch/epfl/rigel/math/Interval.java:34-36 | the lower bound given at construction |
| Intervals.Interval.High | src/ch/epfl/rigel/math/Interval.java:44-46 | the upper bound given at construction |
| Intervals.Interval.Size | src/ch/epfl/rigel/math/Interval.java:54-56 | the size is positive for a valid interval and adds to the lower bound to give the upper one |
| Intervals.Interval.EqualsOther | src/ch/epfl/rigel/math/Interval.java:74-76 | always UnsupportedOperationException |
| Intervals.Interval.HashCode | src/ch/epfl/rigel/math/Interval.java:85-87 | always UnsupportedOperationException |
| Intervals.ClosedOf | src/ch/epfl/rigel/math/ClosedInterval.java:34-37 | succeeds exactly when low < high, keeping both bounds; IllegalArgumentException otherwise |
| Intervals.ClosedSymmetric | src/ch/epfl/rigel/math/ClosedInterval.java:47-50 | succeeds exactly for a positive size; the interval has that size and is centred on 0 |
| Intervals.Clip | src/ch/epfl/rigel/math/ClosedInterval.java:59-61 | the result lies in the interval, is `v` when `v` does, and is the nearer bound otherwise |
| Intervals.ClipIdempotent | src/ch/epfl/rigel/math/ClosedInterval.java:59-61 | clipping twice is clipping once |
| Intervals.RightOpenOf | src/ch/epfl/rigel/math/RightOpenInterval.java:34-37 | succeeds exactly when low < high, keeping both bounds; IllegalArgumentException otherwise |
| Intervals.RightOpenSymmetric | src/ch/epfl/rigel/math/RightOpenInterval.java:47-50 | succeeds exactly for a positive size; the interval has that size and is centred on 0 |
| Intervals.ReduceInRange | src/ch/epfl/rigel/math/RightOpenInterval.java:59-63 | `reduce` always lands in [low, high[ |
| Intervals.ReduceFixesMembers | src/ch/epfl/rigel/math/RightOpenInterval.java:59-63 | `reduce` leaves a member of the interval unchanged |
| Intervals.ReducePeriodic | src/ch/epfl/rigel/math/RightOpenInterval.java:59-63 | shifting the input by whole periods does not change `reduce` |
| Intervals.ReduceOffsetIsMultiple | src/ch/epfl/rigel/math/RightOpenInterval.java:59-63 | `reduce` moves its input by a whole number of interval sizes |
| Intervals.ReduceIdempotent | src/ch/epfl/rigel/math/RightOpenInterval.java:59-63 | reducing twice is reducing once |
| Angle.NormalizePositive | src/ch/epfl/rigel/math/Angle.java:39-41 | the result is in [0, 2π[ and is the angle itself when it already is |
| Angle.NormalizePeriodic | src/ch/epfl/rigel/math/Angle.java:39-41 | adding whole turns does not change the normalised angle |
| Angle.NormalizeIdempotent | src/ch/epfl/rigel/math/Angle.java:39-41 | normalising twice is normalising once |
| Angle.OfArcsec | src/ch/epfl/rigel/math/Angle.java:50-52 | 360·3600 arc seconds make one turn of 2π |
| Angle.OfDMS | src/ch/epfl/rigel/math/Angle.java:66-74 | succeeds exactly when deg ≥ 0, min ∈ [0, 60[ and sec ∈ [0, 60[, with the angle of the total arc seconds; IllegalArgumentException otherwise |
| Angle.DegRoundTrip | src/ch/epfl/rigel/math/Angle.java:83-96 | `toDeg` and `ofDeg` are inverse to each other |
| Angle.HrRoundTrip | src/ch/epfl/rigel/math/Angle.java:105-118 | `toHr` and `ofHr` are inverse to each other, and 24 h is one turn |
| Angle.DegreesOfTurn | src/ch/epfl/rigel/math/Angle.java:83-96 | 360° is one turn; [0, 2π[ and [−π/2, π/2] correspond to [0, 360[ and [−90, 90] |
| Polynomials.HornerIsMonomialSum | src/ch/epfl/rigel/math/Polynomial.java:54-63 | the Horner evaluation equals the sum of coefficient × power monomials |
| Polynomials.MonomialSumSnoc | src/ch/epfl/rigel/math/Polynomial.java:54-63 | appending a coefficient multiplies the previous sum by x and adds the coefficient (the Horner step) |
| Polynomials.ConstantPolynomial | src/ch/epfl/rigel/math/Polynomial.java:54-63 | a single-coefficient polynomial is that constant everywhere |
| Polynomials.HornerAtZero | src/ch/epfl/rigel/math/Polynomial.java:54-63 | at 0 the polynomial is its constant coefficient |
| Polynomials.Polynomial.Of | src/ch/epfl/rigel/math/Polynomial.java:36-45 | fails with IllegalArgumentException exactly when the leading coefficient is 0; otherwise a fresh array holding the leading coefficient and then the others |
| Polynomials.Polynomial.At | src/ch/epfl/rigel/math/Polynomial.java:54-63 | the Horner loop returns the sum of the monomials |
| Polynomials.Polynomial.EqualsOther | src/ch/epfl/rigel/math/Polynomial.java:115-117 | always UnsupportedOperationException |
| Polynomials.Polynomial.HashCode | src/ch/epfl/rigel/math/Polynomial.java:126-128 | always UnsupportedOperationException |
| Coordinates.IntervalConstants | src/ch/epfl/rigel/coordinates/HorizontalCoordinates.java:19-28 | the azimuth, altitude and geographic interval constants are what `of` and `symmetric` build from their arguments |
| Coordinates.SphericalCoordinates.Lon | src/ch/epfl/rigel/coordinates/SphericalCoordinates.java:34 | the stored longitude |
| Coordinates.SphericalCoordinates.Lat | src/ch/epfl/rigel/coordinates/SphericalCoordinates.java:54 | the stored latitude |
| Coordinates.SphericalCoordinates.LonDeg | src/ch/epfl/rigel/coordinates/SphericalCoordinates.java:44-46 | converting the degree value back to radians gives the stored longitude |
| Coordinates.SphericalCoordinates.LatDeg | src/ch/epfl/rigel/coordinates/SphericalCoordinates.java:64-66 | converting the degree value back to radians gives the stored latitude |
| Coordinates.SphericalCoordinates.EqualsOther | src/ch/epfl/rigel/coordinates/SphericalCoordinates.java:75-77 | always UnsupportedOperationException |
| Coordinates.SphericalCoordinates.HashCode | src/ch/epfl/rigel/coordinates/SphericalCoordinates.java:86-88 | always UnsupportedOperationException |
| Coordinates.SkyRangeInDegrees | src/ch/epfl/rigel/coordinates/HorizontalCoordinates.java:87-109 | valid coordinates have degree values in [0, 360[ and [−90, 90] |
| Coordinates.HorizontalOf | src/ch/epfl/rigel/coordinates/HorizontalCoordinates.java:49-53 | succeeds exactly for an azimuth in [0, 2π[ and an altitude in [−π/2, π/2], keeping both |
| Coordinates.HorizontalOfDeg | src/ch/epfl/rigel/coordinates/HorizontalCoordinates.java:64-69 | succeeds exactly for an azimuth in [0, 360[ and an altitude in [−90, 90]; the degree getters give them back |
| Coordinates.HorizontalCoordinates.Az | src/ch/epfl/rigel/coordinates/HorizontalCoordinates.java:77-79 | the azimuth, the spherical longitude |
| Coordinates.HorizontalCoordinates.Alt | src/ch/epfl/rigel/coordinates/HorizontalCoordinates.java:97-99 | the altitude, the spherical latitude |
| Coordinates.HorizontalCoordinates.AzDeg | src/ch/epfl/rigel/coordinates/HorizontalCoordinates.java:87-89 | the azimuth in degrees, in [0, 360[ for valid coordinates |
| Coordinates.HorizontalCoordinates.AltDeg | src/ch/epfl/rigel/coordinates/HorizontalCoordinates.java:107-109 | the altitude in degrees, in [−90, 90] for valid coordinates |
| Coordinates.HorizontalCoordinates.AzOctantName | src/ch/epfl/rigel/coordinates/HorizontalCoordinates.java:121-147 | each 45° octant centred on a compass point gets its name, and north covers both sides of 0° |
| Coordinates.OctantBoundary | src/ch/epfl/rigel/coordinates/HorizontalCoordinates.java:121-147 | 22.5° is already north-east, anything just below is north, and just below 360° is north |
| Coordinates.OctantNumberInRange | src/ch/epfl/rigel/coordinates/HorizontalCoordinates.java:121-147 | a valid azimuth always selects one of the eight octants, never the "invalid" default |
| Coordinates.EquatorialOf | src/ch/epfl/rigel/coordinates/EquatorialCoordinates.java:41-45 | succeeds exactly for a right ascension in [0, 2π[ and a declination in [−π/2, π/2], keeping both |
| Coordinates.EquatorialCoordinates.Ra | src/ch/epfl/rigel/coordinates/EquatorialCoordinates.java:53-55 | the right ascension, the spherical longitude |
| Coordinates.EquatorialCoordinates.Dec | src/ch/epfl/rigel/coordinates/EquatorialCoordinates.java:83-85 | the declination, the spherical latitude |
| Coordinates.EquatorialCoordinates.RaDeg | src/ch/epfl/rigel/coordinates/EquatorialCoordinates.java:63-65 | the right ascension in degrees, in [0, 360[ when valid |
| Coordinates.EquatorialCoordinates.RaHr | src/ch/epfl/rigel/coordinates/EquatorialCoordinates.java:73-75 | the right ascension in hours, in [0, 24[ when valid |
| Coordinates.EquatorialCoordinates.DecDeg | src/ch/epfl/rigel/coordinates/EquatorialCoordinates.java:93-95 | the declination in degrees, in [−90, 90] when valid |
| Coordinates.EclipticOf | src/ch/epfl/rigel/coordinates/EclipticCoordinates.java:41-45 | succeeds exactly for a longitude in [0, 2π[ and a latitude in [−π/2, π/2], keeping both |
| Coordinates.EclipticCoordinates.Lon | src/ch/epfl/rigel/coordinates/EclipticCoordinates.java:53-55 | the ecliptic longitude, the spherical longitude |
| Coordinates.EclipticCoordinates.Lat | src/ch/epfl/rigel/coordinates/EclipticCoordinates.java:73-75 | the ecliptic latitude, the spherical latitude |
| Coordinates.EclipticCoordinates.LonDeg | src/ch/epfl/rigel/coordinates/EclipticCoordinates.java:63-65 | the longitude in degrees, in [0, 360[ when valid |
| Coordinates.EclipticCoordinates.LatDeg | src/ch/epfl/rigel/coordinates/EclipticCoordinates.java:83-85 | the latitude in degrees, in [−90, 90] when valid |
| Coordinates.IsValidLonDeg | src/ch/epfl/rigel/coordinates/GeographicCoordinates.java:57-59 | true exactly for a longitude in [−180, 180[ |
| Coordinates.IsValidLatDeg | src/ch/epfl/rigel/coordinates/GeographicCoordinates.java:68-70 | true exactly for a latitude in [−90, 90] |
| Coordinates.GeographicOfDeg | src/ch/epfl/rigel/coordinates/GeographicCoordinates.java:44-48 | succeeds exactly for valid degrees, stores radians, and gives the degrees back |
| Coordinates.GeographicCoordinates.Lon | src/ch/epfl/rigel/coordinates/GeographicCoordinates.java:79-81 | the longitude in radians |
| Coordinates.GeographicCoordinates.Lat | src/ch/epfl/rigel/coordinates/GeographicCoordinates.java:90-92 | the latitude in radians |
| Coordinates.GeographicCoordinates.LonDeg | src/ch/epfl/rigel/coordinates/GeographicCoordinates.java:101-103 | the longitude in degrees: converting back to radians gives `lon` |
| Coordinates.GeographicCoordinates.LatDeg | src/ch/epfl/rigel/coordinates/GeographicCoordinates.java:112-114 | the latitude in degrees: converting back to radians gives `lat` |
| Coordinates.CartesianOf | src/ch/epfl/rigel/coordinates/CartesianCoordinates.java:38-40 | the point has the given abscissa and ordinate |
| Coordinates.CartesianCoordinates.X | src/ch/epfl/rigel/coordinates/CartesianCoordinates.java:57-59 | the abscissa |
| Coordinates.CartesianCoordinates.Y | src/ch/epfl/rigel/coordinates/CartesianCoordinates.java:67-69 | the ordinate |
| Coordinates.CartesianCoordinates.DistanceSquared | src/ch/epfl/rigel/coordinates/CartesianCoordinates.java:81-84 | (x₂ − x₁)² + (y₂ − y₁)², which is non-negative and zero from a point to itself |
| Coordinates.DistanceSymmetric | src/ch/epfl/rigel/coordinates/CartesianCoordinates.java:81-84 | the squared distance is symmetric |
| Coordinates.CartesianCoordinates.EqualsOther | src/ch/epfl/rigel/coordinates/CartesianCoordinates.java:105-107 | always UnsupportedOperationException |
| Coordinates.CartesianCoordinates.HashCode | src/ch/epfl/rigel/coordinates/CartesianCoordinates.java:116-118 | always UnsupportedOperationException |
| Epochs.Epoch.DateTime | src/ch/epfl/rigel/astronomy/Epoch.java:16-17 | J2000 is 2000-01-01 12:00 UTC and J2010 is 2009-12-31 00:00 UTC, as UTC milliseconds |
| Epochs.Epoch.DaysUntil | src/ch/epfl/rigel/astronomy/Epoch.java:49-52 | the days from the epoch to the instant: positive exactly for later instants, zero at the epoch |
| Epochs.Epoch.JulianCenturiesUntil | src/ch/epfl/rigel/astronomy/Epoch.java:62-64 | the same interval in Julian centuries of 36 525 days |
| Epochs.J2000ToJ2010 | src/ch/epfl/rigel/astronomy/Epoch.java:16-17 | J2010 lies 3651.5 days after J2000 |
| Epochs.DaysUntilIgnoresZone | src/ch/epfl/rigel/astronomy/Epoch.java:49-52 | only the instant matters, not the zone of the date-time |
| SiderealTime.UtcMidnight | src/ch/epfl/rigel/astronomy/SiderealTime.java:42-43 | the UTC midnight at or before the instant, within one day of it |
| SiderealTime.HoursDayNow | src/ch/epfl/rigel/astronomy/SiderealTime.java:47-50 | the hours since UTC midnight are in [0, 24[ |
| SiderealTime.Greenwich | src/ch/epfl/rigel/astronomy/SiderealTime.java:40-60 | the polynomial in centuries at midnight plus 1.002737909 × hours, turned into an angle normalised to [0, 2π[ |
| SiderealTime.GreenwichIgnoresZone | src/ch/epfl/rigel/astronomy/SiderealTime.java:40-60 | only the instant matters, not the zone |
| SiderealTime.Local | src/ch/epfl/rigel/astronomy/SiderealTime.java:70-72 | in [0, 2π[, and equal to Greenwich time at longitude 0 |
| SiderealTime.LocalPeriodicInLongitude | src/ch/epfl/rigel/astronomy/SiderealTime.java:70-72 | a whole turn of longitude does not change local sidereal time |
| CelestialObjects.ColorTemperature | src/ch/epfl/rigel/astronomy/Star.java:37-38 | the formula truncated to an int; always in [1490, 32459] |
| CelestialObjects.ColorTemperatureAntitone | src/ch/epfl/rigel/astronomy/Star.java:37-38 | a larger colour index never gives a hotter star; index 0 gives 10 125 K |
| CelestialObjects.BaseData | src/ch/epfl/rigel/astronomy/CelestialObject.java:33-43 | NullPointerException for a null name or position, IllegalArgumentException for a negative angular size, otherwise the fields as given |
| CelestialObjects.StarData | src/ch/epfl/rigel/astronomy/Star.java:32-39 | the base checks, then a non-negative Hipparcos id and a colour index in [−0.5, 5.5]; angular size 0 |
| CelestialObjects.SunData | src/ch/epfl/rigel/astronomy/Sun.java:29-33 | named "Soleil" with magnitude −26.7; the base checks, then a non-null ecliptic position |
| CelestialObjects.MoonData | src/ch/epfl/rigel/astronomy/Moon.java:30-33 | named "Lune"; the base checks, then a phase in [0, 1] |
| CelestialObjects.PlanetData | src/ch/epfl/rigel/astronomy/Planet.java:21-23 | exactly the base checks |
| CelestialObjects.InfoOf | src/ch/epfl/rigel/astronomy/CelestialObject.java:90-92 | the name, except for the Moon, whose text starts with its name followed by the phase |
| CelestialObjects.OneDecimal | src/ch/epfl/rigel/astronomy/Moon.java:42-44 | the phase percentage is rounded to one decimal |
| CelestialObjects.CelestialObject.Name | src/ch/epfl/rigel/astronomy/CelestialObject.java:51-53 | the name given at construction |
| CelestialObjects.CelestialObject.AngularSize | src/ch/epfl/rigel/astronomy/CelestialObject.java:61-63 | the angular size given at construction |
| CelestialObjects.CelestialObject.Magnitude | src/ch/epfl/rigel/astronomy/CelestialObject.java:71-73 | the magnitude given at construction |
| CelestialObjects.CelestialObject.EquatorialPos | src/ch/epfl/rigel/astronomy/CelestialObject.java:81-83 | the position given at construction |
| CelestialObjects.CelestialObject.Info | src/ch/epfl/rigel/astronomy/CelestialObject.java:90-92 | the name for everything but the Moon |
| CelestialObjects.CelestialObject.ToString | src/ch/epfl/rigel/astronomy/CelestialObject.java:100-102 | the same text as `info` |
| CelestialObjects.CelestialObject.HipparcosId | src/ch/epfl/rigel/astronomy/Star.java:47-49 | the id given at construction |
| CelestialObjects.CelestialObject.ColorTemperatureOf | src/ch/epfl/rigel/astronomy/Star.java:57-59 | the temperature computed once at construction |
| CelestialObjects.CelestialObject.EclipticPos | src/ch/epfl/rigel/astronomy/Sun.java:41-43 | the ecliptic position given at construction |
| CelestialObjects.CelestialObject.MeanAnomaly | src/ch/epfl/rigel/astronomy/Sun.java:51-53 | the mean anomaly given at construction |
| CelestialObjects.NewStar | src/ch/epfl/rigel/astronomy/Star.java:32-39 | a fresh star exactly when the star checks pass, otherwise their exception |
| CelestialObjects.NewSun | src/ch/epfl/rigel/astronomy/Sun.java:29-33 | a fresh Sun exactly when the Sun checks pass, otherwise their exception |
| CelestialObjects.NewMoon | src/ch/epfl/rigel/astronomy/Moon.java:30-33 | a fresh Moon exactly when the Moon checks pass, otherwise their exception |
| CelestialObjects.NewPlanet | src/ch/epfl/rigel/astronomy/Planet.java:21-23 | a fresh planet exactly when the base checks pass, otherwise their exception |
| CelestialObjects.NewAsterism | src/ch/epfl/rigel/astronomy/Asterism.java:36-42 | IllegalArgumentException exactly for an empty star list; otherwise a fresh asterism holding those stars, which is never empty |
| CelestialObjects.Asterism.Stars | src/ch/epfl/rigel/astronomy/Asterism.java:50-52 | the stars given at construction |
| CelestialObjects.Asterism.GetConstellationName | src/ch/epfl/rigel/astronomy/Asterism.java:60-62 | the constellation label given at construction |
| StarCatalogues.LastIndexOf | src/ch/epfl/rigel/astronomy/StarCatalogue.java:42-44 | the index a star ends up with in the star-to-index map: its last position, −1 when absent |
| StarCatalogues.IndicesIn | src/ch/epfl/rigel/astronomy/StarCatalogue.java:50-57 | one index per member, and the catalogue's star at that index is the member |
| StarCatalogues.IndexStars | src/ch/epfl/rigel/astronomy/StarCatalogue.java:41-44 | the map holds exactly the catalogue's stars, each with its last index |
| StarCatalogues.AsterismIndexMap | src/ch/epfl/rigel/astronomy/StarCatalogue.java:46-60 | fails with IllegalArgumentException exactly when some member star is not in the catalogue; otherwise each asterism maps to its members' indices |
| StarCatalogues.IndexMapConsistent | src/ch/epfl/rigel/astronomy/StarCatalogue.java:46-61 | every index stored for an asterism points at the corresponding member star |
| StarCatalogues.NewStarCatalogue | src/ch/epfl/rigel/astronomy/StarCatalogue.java:38-62 | a consistent catalogue exactly when every asterism member is a catalogue star |
| StarCatalogues.StarCatalogue.Stars | src/ch/epfl/rigel/astronomy/StarCatalogue.java:70-72 | the stars given at construction |
| StarCatalogues.StarCatalogue.Asterisms | src/ch/epfl/rigel/astronomy/StarCatalogue.java:80-82 | the asterisms that were indexed |
| StarCatalogues.StarCatalogue.AsterismIndices | src/ch/epfl/rigel/astronomy/StarCatalogue.java:92-98 | IllegalArgumentException for an unknown asterism; otherwise indices that point at its member stars |
| StarCatalogues.Builder.AddStar | src/ch/epfl/rigel/astronomy/StarCatalogue.java:123-126 | appends the star, leaves the asterisms, returns the builder |
| StarCatalogues.Builder.Stars | src/ch/epfl/rigel/astronomy/StarCatalogue.java:133-135 | the stars added so far |
| StarCatalogues.Builder.AddAsterism | src/ch/epfl/rigel/astronomy/StarCatalogue.java:143-146 | appends the asterism, leaves the stars, returns the builder |
| StarCatalogues.Builder.Asterisms | src/ch/epfl/rigel/astronomy/StarCatalogue.java:153-155 | the asterisms added so far |
| StarCatalogues.Builder.Build | src/ch/epfl/rigel/astronomy/StarCatalogue.java:162-164 | a catalogue of the builder's stars exactly when every asterism member was added as a star |
| LineLoads.LoadOfLines | src/ch/epfl/rigel/astronomy/AsterismLoader.java:43-57 | a line-by-line load keeps every line read before the first failure, stops there with that failure, and passes when no line fails |
| LineLoads.LoadOfAt | src/ch/epfl/rigel/astronomy/AsterismLoader.java:43-57 | the k-th loaded value is what line k reads to |
| LineLoads.LoadOfStep | src/ch/epfl/rigel/astronomy/HygDatabaseLoader.java:35-63 | one successful line extends what has been loaded by its value |
| LineLoads.LoadOfFail | src/ch/epfl/rigel/astronomy/HygDatabaseLoader.java:35-63 | a failing line ends the load with its exception and nothing more |
| AsterismLoading.HipIndexLookup | src/ch/epfl/rigel/astronomy/AsterismLoader.java:37-40 | an id is in the index exactly when a star has it, and maps to the last such star |
| AsterismLoading.HipIndexValues | src/ch/epfl/rigel/astronomy/AsterismLoader.java:37-40 | every star in the index is one of the builder's stars |
| AsterismLoading.BuildHipIndex | src/ch/epfl/rigel/astronomy/AsterismLoader.java:37-40 | the loop builds the Hipparcos-id index of the builder's stars |
| AsterismLoading.Members | src/ch/epfl/rigel/astronomy/AsterismLoader.java:49-53 | NumberFormatException exactly when some id does not parse; otherwise at most one star per id, each the index's star for a known positive id |
| AsterismLoading.MembersKeepKnownStars | src/ch/epfl/rigel/astronomy/AsterismLoader.java:49-55 | when every id is known and positive, the members are exactly those stars, in order |
| AsterismLoading.Resolved | src/ch/epfl/rigel/astronomy/AsterismLoader.java:51-52 | a parsed id contributes one star exactly when it is positive and known, and that star is the index's star for it |
| AsterismLoading.MembersSingle | src/ch/epfl/rigel/astronomy/AsterismLoader.java:51-52 | a single field is a NumberFormatException when it does not parse, and otherwise contributes what its number resolves to |
| AsterismLoading.MembersAppend | src/ch/epfl/rigel/astronomy/AsterismLoader.java:49-53 | the stars of two runs of fields are those of the first followed by those of the second, so resolved stars keep their order and unresolved ids are skipped |
| AsterismLoading.MembersNoneKnown | src/ch/epfl/rigel/astronomy/AsterismLoader.java:49-53 | numbers that are all unknown or not positive give no star |
| AsterismLoading.LineWithoutKnownStar | src/ch/epfl/rigel/astronomy/AsterismLoader.java:46-55 | a line that names no known positive number is refused with IllegalArgumentException |
| AsterismLoading.ParseLine | src/ch/epfl/rigel/astronomy/AsterismLoader.java:46-57 | an asterism read from a line never has an empty star list |
| AsterismLoading.ParseLineFields | src/ch/epfl/rigel/astronomy/AsterismLoader.java:46-57 | a line with no fields is out of bounds; otherwise the constellation is the last field and the members come from all the others; an id that does not parse gives NumberFormatException, and no known star gives the IllegalArgumentException of `new Asterism` |
| AsterismLoading.AsterismOfLine | src/ch/epfl/rigel/astronomy/AsterismLoader.java:46-57 | the asterism built from a line is non-empty and has the stars and label the line reads to, or fails with the line's exception |
| AsterismLoading.Load | src/ch/epfl/rigel/astronomy/AsterismLoader.java:31-59 | keeps the stars and the earlier asterisms, and appends the asterisms of the lines up to the first failure, which it reports |
| AsterismLoading.LoadedMembersListed | src/ch/epfl/rigel/astronomy/AsterismLoader.java:49-55 | every member of a loaded asterism is one of the builder's stars |
| HygLoading.Ordinal | src/ch/epfl/rigel/astronomy/HygDatabaseLoader.java:86-91 | each column's ordinal is its place among the 37 declared columns |
| HygLoading.Field | src/ch/epfl/rigel/astronomy/HygDatabaseLoader.java:77 | the field at the column's ordinal, or ArrayIndexOutOfBounds for a short row |
| HygLoading.StringOf | src/ch/epfl/rigel/astronomy/HygDatabaseLoader.java:76-79 | the field, or the default when it is empty; out of bounds for a short row |
| HygLoading.ParseDouble | src/ch/epfl/rigel/astronomy/HygDatabaseLoader.java:57-60 | the parsed number, or NumberFormatException |
| HygLoading.StarName | src/ch/epfl/rigel/astronomy/HygDatabaseLoader.java:42-48 | the proper name when present, otherwise the Bayer designation (or "?") followed by a space and the constellation |
| HygLoading.RecordHip | src/ch/epfl/rigel/astronomy/HygDatabaseLoader.java:39 | the parsed Hipparcos id, 0 when the field is empty |
| HygLoading.RecordPosition | src/ch/epfl/rigel/astronomy/HygDatabaseLoader.java:51-54 | equatorial coordinates from the RARAD and DECRAD columns, validated |
| HygLoading.RecordDouble | src/ch/epfl/rigel/astronomy/HygDatabaseLoader.java:57-60 | the magnitude or colour-index column parsed, "0" when empty |
| HygLoading.RecordArguments | src/ch/epfl/rigel/astronomy/HygDatabaseLoader.java:36-60 | each constructor argument comes from its own column rule |
| HygLoading.LineStar | src/ch/epfl/rigel/astronomy/HygDatabaseLoader.java:36-62 | a row that reads gives a well-formed star |
| HygLoading.LineStarFields | src/ch/epfl/rigel/astronomy/HygDatabaseLoader.java:36-62 | a row that reads has every column up to CI, a non-empty name, the column's Hipparcos id, and a valid position |
| HygLoading.Records | src/ch/epfl/rigel/astronomy/HygDatabaseLoader.java:33-35 | every line but the header is a record |
| HygLoading.StarOfRecord | src/ch/epfl/rigel/astronomy/HygDatabaseLoader.java:36-62 | a fresh star with the data the record reads to, or the record's exception |
| HygLoading.Load | src/ch/epfl/rigel/astronomy/HygDatabaseLoader.java:27-65 | keeps the asterisms and the earlier stars, and appends the stars of the records up to the first failure, which it reports |
| CatalogueLoading.LoadFrom | src/ch/epfl/rigel/astronomy/StarCatalogue.java:174-177 | runs the chosen loader on the builder and returns the same builder |
| CatalogueLoading.LoadedAsterismListed | src/ch/epfl/rigel/astronomy/AsterismLoader.java:49-55 | the members of every loaded asterism are catalogue stars |
| CatalogueLoading.BuildAfterAsterismLoad | src/ch/epfl/rigel/astronomy/StarCatalogue.java:162-177 | after loading asterisms over the loaded stars, `build` cannot fail on a missing star |
| ObservedSkies.WithoutEarth | src/ch/epfl/rigel/astronomy/ObservedSky.java:74-86 | no planet model kept is the Earth |
| ObservedSkies.WithoutEarthKeepsOthers | src/ch/epfl/rigel/astronomy/ObservedSky.java:74-86 | a list without the Earth is kept whole |
| ObservedSkies.WithoutEarthRemovesOne | src/ch/epfl/rigel/astronomy/ObservedSky.java:74-86 | with the Earth once, exactly that one entry is removed |
| ObservedSkies.ObservedPlanetModels | src/ch/epfl/rigel/astronomy/ObservedSky.java:70-86 | the seven planets observed, in the order of the model list |
| ObservedSkies.PlanetsOf | src/ch/epfl/rigel/astronomy/ObservedSky.java:77-78 | one planet per model, in order |
| ObservedSkies.Positions | src/ch/epfl/rigel/astronomy/ObservedSky.java:110-113 | each object's projected position |
| ObservedSkies.FlattenLayout | src/ch/epfl/rigel/astronomy/ObservedSky.java:80-81 | point i occupies cells 2i (x) and 2i+1 (y) |
| ObservedSkies.FlattenRoundTrip | src/ch/epfl/rigel/astronomy/ObservedSky.java:96-97 | the flat buffer loses nothing: unflattening gives the points back |
| ObservedSkies.WithinRadiusInBox | src/ch/epfl/rigel/astronomy/ObservedSky.java:245-257 | an object within the search radius passes the square pre-filter |
| ObservedSkies.ProjectPlanets | src/ch/epfl/rigel/astronomy/ObservedSky.java:70-86 | the seven non-Earth planets in order, their positions in a fresh buffer of 14, and each one recorded in the position map |
| ObservedSkies.ProjectStars | src/ch/epfl/rigel/astronomy/ObservedSky.java:89-98 | the catalogue's star positions in a fresh buffer, each star recorded in the position map |
| ObservedSkies.ObservedSky.constructor | src/ch/epfl/rigel/astronomy/ObservedSky.java:50-100 | the Sun, the Moon, the planets and the stars with their projected positions, in a consistent state |
| ObservedSkies.ObservedSky.Sun | src/ch/epfl/rigel/astronomy/ObservedSky.java:121-123 | the Sun computed at construction |
| ObservedSkies.ObservedSky.SunPosition | src/ch/epfl/rigel/astronomy/ObservedSky.java:131-133 | its projected position |
| ObservedSkies.ObservedSky.Moon | src/ch/epfl/rigel/astronomy/ObservedSky.java:141-143 | the Moon computed at construction |
| ObservedSkies.ObservedSky.MoonPosition | src/ch/epfl/rigel/astronomy/ObservedSky.java:151-153 | its projected position |
| ObservedSkies.ObservedSky.Planets | src/ch/epfl/rigel/astronomy/ObservedSky.java:161-163 | the planets computed at construction |
| ObservedSkies.ObservedSky.PlanetsPosition | src/ch/epfl/rigel/astronomy/ObservedSky.java:173-175 | a fresh copy of 14 numbers, planet i at cells 2i and 2i+1 |
| ObservedSkies.ObservedSky.Stars | src/ch/epfl/rigel/astronomy/ObservedSky.java:183-185 | the catalogue's stars |
| ObservedSkies.ObservedSky.StarsPosition | src/ch/epfl/rigel/astronomy/ObservedSky.java:195-197 | a fresh copy, star i at cells 2i and 2i+1 |
| ObservedSkies.ObservedSky.Asterisms | src/ch/epfl/rigel/astronomy/ObservedSky.java:206-208 | the catalogue's asterisms |
| ObservedSkies.ObservedSky.AsterismIndices | src/ch/epfl/rigel/astronomy/ObservedSky.java:218-220 | the catalogue's indices for a known asterism, IllegalArgumentException otherwise |
| ObservedSkies.ObservedSky.ObjectClosestTo | src/ch/epfl/rigel/astronomy/ObservedSky.java:232-266 | an object no farther than the radius and no farther than any other object; empty exactly when none is within the radius |
| TimeAccelerators.WrapLong | src/ch/epfl/rigel/gui/TimeAccelerator.java:36 | a `long` product: in range, congruent modulo 2⁶⁴, and exact when it fits |
| TimeAccelerators.TruncDiv | src/ch/epfl/rigel/gui/TimeAccelerator.java:48 | the `(long)` cast of a quotient rounds toward zero |
| TimeAccelerators.TimeAccelerator.Adjust | src/ch/epfl/rigel/gui/TimeAccelerator.java:35-49 | no elapsed time, no change; continuous(k) adds k·e when it fits a `long`; discrete adds a whole number of steps |
| TimeAccelerators.ContinuousOneIsRealTime | src/ch/epfl/rigel/gui/TimeAccelerator.java:35-37 | continuous(1) advances by exactly the real time elapsed |
| TimeAccelerators.DiscreteTakesFloorSteps | src/ch/epfl/rigel/gui/TimeAccelerator.java:47-49 | discrete(f, s) advances by s·⌊f·e / 10⁹⌋ for a non-negative f·e |
| TimeAccelerators.DiscreteIdleBelowOneTick | src/ch/epfl/rigel/gui/TimeAccelerator.java:47-49 | less than one tick of real time (f·e < 10⁹) changes nothing |
| TimeAccelerators.AdjustMonotone | src/ch/epfl/rigel/gui/TimeAccelerator.java:35-49 | with non-negative factors, simulated time never runs backwards as real time advances |
| NamedTimeAccelerators.NamedTimeAccelerator.Name | src/ch/epfl/rigel/gui/NamedTimeAccelerator.java:41-43 | the display label, never empty |
| NamedTimeAccelerators.NamedTimeAccelerator.Accelerator | src/ch/epfl/rigel/gui/NamedTimeAccelerator.java:13-18 | the four "n x" values are continuous(n), matching their label; DAY and SIDEREAL_DAY are discrete at 60 Hz with steps of 86 400 s and 86 164 s |
| NamedTimeAccelerators.NamedTimeAccelerator.ToString | src/ch/epfl/rigel/gui/NamedTimeAccelerator.java:63-65 | the same label as `getName` |
| NamedTimeAccelerators.ValuesComplete | src/ch/epfl/rigel/gui/NamedTimeAccelerator.java:13-18 | six distinct values in declaration order, with distinct labels |
| TimeAnimators.TimeAnimator.constructor | src/ch/epfl/rigel/gui/TimeAnimator.java:35-39 | a new animator is not running and has no accelerator |
| TimeAnimators.TimeAnimator.GetAccelerator | src/ch/epfl/rigel/gui/TimeAnimator.java:66-68 | the current accelerator |
| TimeAnimators.TimeAnimator.Start | src/ch/epfl/rigel/gui/TimeAnimator.java:90-95 | running, the next frame is the first, and the start instant is the bean's current instant |
| TimeAnimators.TimeAnimator.Stop | src/ch/epfl/rigel/gui/TimeAnimator.java:102-105 | not running; nothing else changes |
| TimeAnimators.TimeAnimator.Handle | src/ch/epfl/rigel/gui/TimeAnimator.java:77-84 | the first frame records its time and leaves the bean; later frames set the bean to the accelerator applied to the start instant and the time since the first frame; NullPointerException without an accelerator |
| TimeAnimators.RealTimeAnimation | src/ch/epfl/rigel/gui/TimeAnimator.java:77-84 | under continuous(1) the bean shows the start instant plus the real time since the first frame |
| SkyCanvasManagers.Steered | src/ch/epfl/rigel/gui/SkyCanvasManager.java:374-406 | LEFT and RIGHT turn the azimuth by 10° with wrap-around and keep the altitude; UP adds 5° to the altitude and stops at 90°, DOWN subtracts 5° and stops at −30°, both keeping the azimuth; other strings change nothing |
| SkyCanvasManagers.TurnLeft | src/ch/epfl/rigel/gui/SkyCanvasManager.java:378-382 | LEFT subtracts 10°, wrapping below 0° up to 350° and above |
| SkyCanvasManagers.TurnRight | src/ch/epfl/rigel/gui/SkyCanvasManager.java:384-388 | RIGHT adds 10°, wrapping at 360° down to below 10° |
| SkyCanvasManagers.TurnsCancel | src/ch/epfl/rigel/gui/SkyCanvasManager.java:378-388 | LEFT then RIGHT, and RIGHT then LEFT, restore the centre |
| SkyCanvasManagers.SteeringKeepsViewAltitude | src/ch/epfl/rigel/gui/SkyCanvasManager.java:374-406 | an altitude in [−30, 90] stays there under every key |
| SkyCanvasManagers.SkyCanvasManager.UpdateDirection | src/ch/epfl/rigel/gui/SkyCanvasManager.java:374-406 | the centre moves as `Steered` says and remains valid, so `ofDeg` never throws; the field of view is untouched |
| SkyCanvasManagers.ZoomDelta | src/ch/epfl/rigel/gui/SkyCanvasManager.java:301-309 | the delta of larger magnitude, the horizontal one on a tie |
| SkyCanvasManagers.SkyCanvasManager.Scroll | src/ch/epfl/rigel/gui/SkyCanvasManager.java:299-311 | the field of view becomes clip₍₃₀,₁₅₀₎(fov − δ), always in [30, 150]; the centre is untouched |
| SkyCanvasManagers.IntCast | src/ch/epfl/rigel/gui/SkyCanvasManager.java:160 | `(int)` rounds toward zero and saturates at the `int` bounds |
| SkyCanvasManagers.RoundsHalfAwayFromZero | src/ch/epfl/rigel/gui/SkyCanvasManager.java:158-161 | the rounded altitude is within ½ of the altitude, halves go away from zero, and rounding commutes with negation |
| SkyCanvasManagers.SkyCanvasManager.RoundedViewAltDeg | src/ch/epfl/rigel/gui/SkyCanvasManager.java:158-161 | a whole degree in [−90, 90] within ½ of the centre's altitude |
| BlackBodyColors.TemperatureKey | src/ch/epfl/rigel/gui/BlackBodyColor.java:45 | a multiple of 100 in [1000, 40000], the nearest one to the temperature, with halves rounded up |
| BlackBodyColors.ColorForTemperature | src/ch/epfl/rigel/gui/BlackBodyColor.java:43-47 | IllegalArgumentException outside [1000, 40000] K; otherwise the table's colour for the key, or none |
| BlackBodyColors.StarTemperatureAccepted | src/ch/epfl/rigel/gui/BlackBodyColor.java:27-44 | every star's colour temperature is accepted |
| BlackBodyColors.ToInteger | src/ch/epfl/rigel/gui/BlackBodyColor.java:79-82 | parses the text, without its leading space if it has one |
| BlackBodyColors.ToIntegerPadded | src/ch/epfl/rigel/gui/BlackBodyColor.java:79-82 | every four- or five-digit temperature written in five columns reads back as itself |
| BlackBodyColors.LineEntry | src/ch/epfl/rigel/gui/BlackBodyColor.java:61-62 | comment lines and non-"10deg" lines contribute nothing; a "10deg" line maps its temperature (columns 1–5) to its colour (columns 80–86); short lines and bad numbers throw |
| BlackBodyColors.LastColor | src/ch/epfl/rigel/gui/BlackBodyColor.java:60-64 | some kept line has the temperature exactly when a last colour for it exists |
| BlackBodyColors.TableFromSucceeds | src/ch/epfl/rigel/gui/BlackBodyColor.java:60-64 | the table is read exactly when no line throws |
| BlackBodyColors.TableOfLastWins | src/ch/epfl/rigel/gui/BlackBodyColor.java:60-64 | the table holds exactly the kept temperatures, each with the colour of the last line for it |
| BlackBodyColors.Init | src/ch/epfl/rigel/gui/BlackBodyColor.java:55-70 | the loop builds the table of the lines |
| CelestialDataManagers.Classified | src/ch/epfl/rigel/gui/CelestialDataManager.java:68-77 | an interrupted read fails on an empty line, and there are never more rows than lines |
| CelestialDataManagers.ClassifiedPasses | src/ch/epfl/rigel/gui/CelestialDataManager.java:69 | the read ends normally exactly when no line is empty |
| CelestialDataManagers.ClassifiedAppend | src/ch/epfl/rigel/gui/CelestialDataManager.java:68-77 | reading two pieces one after the other appends their rows and captions |
| CelestialDataManagers.SingleLine | src/ch/epfl/rigel/gui/CelestialDataManager.java:69-75 | a '#' line gives nothing, a "Nom" line gives captions, any other line one row of its fields |
| CelestialDataManagers.CommentIgnored | src/ch/epfl/rigel/gui/CelestialDataManager.java:69 | inserting a comment line anywhere changes nothing |
| CelestialDataManagers.Names | src/ch/epfl/rigel/gui/CelestialDataManager.java:87-93 | the first field of every row, in order; out of bounds if a row is empty |
| CelestialDataManagers.Lookup | src/ch/epfl/rigel/gui/CelestialDataManager.java:124-134 | IllegalArgumentException exactly when every row has a name and none matches; ArrayIndexOutOfBoundsException exactly when a row without a name comes before any matching row; otherwise a found row |
| CelestialDataManagers.LookupFindsFirstMatch | src/ch/epfl/rigel/gui/CelestialDataManager.java:126-130 | a found row is the first whose name matches ignoring case |
| CelestialDataManagers.LookupFindsPresent | src/ch/epfl/rigel/gui/CelestialDataManager.java:126-130 | a name matching row k, after only named rows that do not match, finds row k |
| CelestialDataManagers.LookupIgnoresCase | src/ch/epfl/rigel/gui/CelestialDataManager.java:127 | names that differ only in case find the same row |
| CelestialDataManagers.CelestialDataManager.BuildCelestialObjectsList | src/ch/epfl/rigel/gui/CelestialDataManager.java:64-79 | appends the rows of the lines, and appends the captions to the shared list, so every build appends them again |
| CelestialDataManagers.CelestialDataManager.GetCelestialNames | src/ch/epfl/rigel/gui/CelestialDataManager.java:87-93 | the loop returns the names of the rows |
| CelestialDataManagers.CelestialDataManager.ObjectInfo | src/ch/epfl/rigel/gui/CelestialDataManager.java:124-134 | the loop returns the row the lookup finds |
| Text.ParseInt | src/ch/epfl/rigel/astronomy/HygDatabaseLoader.java:39 | `Integer.parseInt` over ASCII digits: 32-bit results only, NumberFormatException otherwise, empty text rejected |
| Text.ParseIntToString | src/ch/epfl/rigel/astronomy/HygDatabaseLoader.java:39 | an int written in decimal parses back to itself |
| Text.Split | src/ch/epfl/rigel/astronomy/HygDatabaseLoader.java:36 | `split(",")`: the text itself when it has no comma, otherwise the fields with the trailing empty ones dropped |
| Text.SplitRoundTrip | src/ch/epfl/rigel/astronomy/AsterismLoader.java:46 | for a text that does not end with a comma, splitting loses nothing |
| Text.EqualsIgnoreCaseIsEquivalence | src/ch/epfl/rigel/gui/CelestialDataManager.java:127 | `equalsIgnoreCase` is reflexive, symmetric and transitive |

## Left out

- Floating point:
  - Doubles and floats are exact reals. The `(float)` casts of magnitudes, colour indices,
    angular sizes and phases are not modelled.
  - The IEEE rounding of every operation is not modelled. Round trips (`toDeg(ofDeg(x)) == x`) and
    periodicity hold over reals only.
  - NaN inputs are not modelled.
- Spherical trigonometry, the orbital models, the stereographic projection and
  `HorizontalCoordinates.angularDistanceTo` are not modelled. The observed sky takes the Sun, the
  Moon, a planet per model and the projection to the plane as parameters.
- I/O:
  - Streams, readers, `ready()`, character sets and `getResourceAsStream` are not modelled. Every
    file is a sequence of lines.
  - `IOException` is not modelled.
- Library parsers: `Double.parseDouble` is a parameter, and `Color.web` is not applied, so colours
  stay text.
- Number formatting: `Polynomial.toString` and the coordinate `toString` methods are not modelled.
  The Moon's `info` keeps only its structure (name, then the phase to one decimal).
- `java.time`: instants are integer UTC milliseconds (epochs, sidereal time) or nanoseconds
  (accelerators, animator). Zones other than the offset, and the `DateTimeException` of a
  date-time out of range, are not modelled.
- TimeAccelerators.TimeAccelerator.Adjust: the double product `f·e·1e-9` is taken exactly, so a
  product lying within one rounding error of a whole tick may take a different number of steps.
  `Duration.multipliedBy` overflow cannot happen for these step sizes and is not modelled.
- CelestialDataManagers.Lookup: case is folded only for ASCII and the Latin-1 letters À–Þ. Java's
  `equalsIgnoreCase` folds every UTF-16 character, so names such as "ÿ"/"Ÿ", "µ"/"Μ" or the
  Kelvin sign and "k" match in the program but not in the model.
- CelestialDataManagers.LookupIgnoresCase: holds for the same limited case folding as `Lookup`.
- Text.ParseInt: only ASCII digits are accepted, while `Integer.parseInt` also accepts other
  Unicode decimal digits. The loaders decode their files as US-ASCII, so no other digit reaches it.
- SkyCanvasManagers.SkyCanvasManager.UpdateDirection: a null direction string
  (NullPointerException in the `switch`) is not modelled; directions are strings.
- SkyCanvasManagers.SteeringKeepsViewAltitude: a centre whose altitude is below −30° keeps it
  under LEFT and RIGHT. Only UP and DOWN clip the altitude to [−30, 90].
- TimeAnimators.TimeAnimator.Handle: the JavaFX frame loop (`super.start()` and `super.stop()`)
  is not modelled. `handle` can be called in any state, and the date-time bean is a single field
  of the animator.
- JavaFX bindings, listeners, key and mouse wiring, the canvas and its painter, the information
  window's layout (`buildInfoBox`, `emptyInfoBox`, `launchInfoWindow`, `hasLaunched`), sound,
  the property beans and `Main` are not modelled.
- `CartesianCoordinates.of(Point2D)` is not modelled because it depends on a JavaFX type.
- Null arguments: they are modelled as `Option` only where the source checks them
  (`requireNonNull`). Elsewhere Java references are assumed non-null.
