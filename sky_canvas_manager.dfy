/**
 * The view controls of the sky canvas: the arrow keys move the centre of the view, the
 * scroll wheel changes the field of view, and the status bar shows the altitude of the
 * centre rounded to a whole degree.
 */
module SkyCanvasManagers {
  import opened Intervals
  import Coordinates

  const AZIMUTH_SHIFT: real := 10.0
  const ALTITUDE_SHIFT: real := 5.0

  const ZOOM_INTERVAL: Interval := ClosedInterval(30.0, 150.0)
  const AZ_INTERVAL_DEG: Interval := RightOpenInterval(0.0, 360.0)
  /** The altitudes the keys can reach: the view never points more than 30 degrees below the horizon. */
  const ALT_INTERVAL_DEG: Interval := ClosedInterval(-30.0, 90.0)

  const INT_MIN: int := -0x8000_0000
  const INT_MAX: int := 0x7fff_ffff

  function Abs(x: real): real { if x < 0.0 then -x else x }

  function Max(x: real, y: real): real { if x >= y then x else y }

  /**
   * The new (azimuth, altitude), in degrees, after one direction key: LEFT and RIGHT turn
   * the azimuth by 10 degrees and wrap it into [0, 360[; UP and DOWN move the altitude by
   * 5 degrees and clip it to [-30, 90]; any other direction leaves the centre where it is.
   */
  function Steered(azDeg: real, altDeg: real, direction: string): (r: (real, real))
    requires 0.0 <= azDeg < 360.0 && -90.0 <= altDeg <= 90.0
    ensures 0.0 <= r.0 < 360.0 && -90.0 <= r.1 <= 90.0
    ensures direction == "LEFT" ==> r.1 == altDeg && (r.0 == azDeg - 10.0 || r.0 == azDeg + 350.0)
    ensures direction == "RIGHT" ==> r.1 == altDeg && (r.0 == azDeg + 10.0 || r.0 == azDeg - 350.0)
    ensures direction == "UP" || direction == "DOWN" ==> r.0 == azDeg && -30.0 <= r.1 <= 90.0
    ensures direction == "UP" && altDeg <= 85.0 ==> r.1 == Max(altDeg + 5.0, -30.0)
    ensures direction == "UP" && altDeg > 85.0 ==> r.1 == 90.0
    ensures direction == "DOWN" && altDeg >= -25.0 ==> r.1 == altDeg - 5.0
    ensures direction == "DOWN" && altDeg < -25.0 ==> r.1 == -30.0
    ensures direction !in {"LEFT", "RIGHT", "UP", "DOWN"} ==> r == (azDeg, altDeg)
  {
    match direction
    case "LEFT" =>
      TurnLeft(azDeg);
      (Reduce(AZ_INTERVAL_DEG, azDeg - AZIMUTH_SHIFT), altDeg)
    case "RIGHT" =>
      TurnRight(azDeg);
      (Reduce(AZ_INTERVAL_DEG, azDeg + AZIMUTH_SHIFT), altDeg)
    case "UP" => (azDeg, Clip(ALT_INTERVAL_DEG, altDeg + ALTITUDE_SHIFT))
    case "DOWN" => (azDeg, Clip(ALT_INTERVAL_DEG, altDeg - ALTITUDE_SHIFT))
    case _ => (azDeg, altDeg)
  }

  /** Turning left from an azimuth below 10 degrees wraps past north to 350 and above. */
  lemma {:induction false} TurnLeft(azDeg: real)
    requires 0.0 <= azDeg < 360.0
    ensures var r := Reduce(AZ_INTERVAL_DEG, azDeg - 10.0);
            (azDeg >= 10.0 ==> r == azDeg - 10.0) && (azDeg < 10.0 ==> r == azDeg + 350.0)
  {
    var v := azDeg - 10.0;
    if azDeg >= 10.0 {
      ReduceFixesMembers(AZ_INTERVAL_DEG, v);
    } else {
      ReducePeriodic(AZ_INTERVAL_DEG, v, 1);
      ReduceFixesMembers(AZ_INTERVAL_DEG, v + 360.0);
    }
  }

  /** Turning right from an azimuth of 350 degrees or more wraps past north to below 10. */
  lemma {:induction false} TurnRight(azDeg: real)
    requires 0.0 <= azDeg < 360.0
    ensures var r := Reduce(AZ_INTERVAL_DEG, azDeg + 10.0);
            (azDeg < 350.0 ==> r == azDeg + 10.0) && (azDeg >= 350.0 ==> r == azDeg - 350.0)
  {
    var v := azDeg + 10.0;
    if azDeg < 350.0 {
      ReduceFixesMembers(AZ_INTERVAL_DEG, v);
    } else {
      ReducePeriodic(AZ_INTERVAL_DEG, v, -1);
      ReduceFixesMembers(AZ_INTERVAL_DEG, v - 360.0);
    }
  }

  /** LEFT then RIGHT, or RIGHT then LEFT, brings the centre back where it was. */
  lemma TurnsCancel(azDeg: real, altDeg: real)
    requires 0.0 <= azDeg < 360.0 && -90.0 <= altDeg <= 90.0
    ensures var left := Steered(azDeg, altDeg, "LEFT");
            Steered(left.0, left.1, "RIGHT") == (azDeg, altDeg)
    ensures var right := Steered(azDeg, altDeg, "RIGHT");
            Steered(right.0, right.1, "LEFT") == (azDeg, altDeg)
  {
  }

  /** Once the altitude is in [-30, 90], no sequence of direction keys takes it out again. */
  lemma SteeringKeepsViewAltitude(azDeg: real, altDeg: real, direction: string)
    requires 0.0 <= azDeg < 360.0 && -30.0 <= altDeg <= 90.0
    ensures -30.0 <= Steered(azDeg, altDeg, direction).1 <= 90.0
  {
  }

  /** The scroll delta that wins: the one of larger magnitude, the horizontal one on a tie. */
  function ZoomDelta(deltaX: real, deltaY: real): (r: real)
    ensures r == deltaX || r == deltaY
    ensures Abs(r) == Max(Abs(deltaX), Abs(deltaY))
    ensures Abs(deltaX) >= Abs(deltaY) ==> r == deltaX
  {
    if Max(Abs(deltaX), Abs(deltaY)) == Abs(deltaX) then deltaX else deltaY
  }

  /**
   * `(int)` applied to a double, over exact reals: rounds toward zero and saturates at the
   * bounds of `int`.
   */
  function IntCast(x: real): (r: int)
    ensures INT_MIN <= r <= INT_MAX
    ensures INT_MIN as real < x < INT_MAX as real && x >= 0.0 ==> r as real <= x < r as real + 1.0
    ensures INT_MIN as real < x < INT_MAX as real && x < 0.0 ==> r as real - 1.0 < x <= r as real
  {
    if x >= INT_MAX as real then INT_MAX
    else if x <= INT_MIN as real then INT_MIN
    else if x >= 0.0 then x.Floor
    else -((-x).Floor)
  }

  /** The displayed altitude: `(int)(a + 0.5)` for a non-negative `a`, `(int)(a - 0.5)` otherwise. */
  function RoundedDeg(altDeg: real): int {
    if altDeg >= 0.0 then IntCast(altDeg + 0.5) else IntCast(altDeg - 0.5)
  }

  /**
   * The displayed altitude is a nearest whole degree, halves are rounded away from zero,
   * and rounding commutes with negation.
   */
  lemma {:induction false} RoundsHalfAwayFromZero(a: real)
    requires -1000.0 <= a <= 1000.0
    ensures var r := RoundedDeg(a) as real;
            r - 0.5 <= a <= r + 0.5 && (a == r - 0.5 || a == r + 0.5 ==> Abs(r) > Abs(a))
    ensures RoundedDeg(-a) == -RoundedDeg(a)
  {
    var r := RoundedDeg(a);
    if a > 0.0 {
      assert r == (a + 0.5).Floor;
      assert RoundedDeg(-a) == -((a + 0.5).Floor);
    } else if a < 0.0 {
      assert r == -((-a + 0.5).Floor);
      assert RoundedDeg(-a) == (-a + 0.5).Floor;
    }
  }

  /** The view of the sky: its centre and its field of view, in degrees. */
  class SkyCanvasManager {
    var center: Coordinates.HorizontalCoordinates
    var fieldOfViewDeg: real

    predicate Valid()
      reads this
    {
      center.Valid()
    }

    constructor (center: Coordinates.HorizontalCoordinates, fieldOfViewDeg: real)
      requires center.Valid()
      ensures Valid()
      ensures this.center == center && this.fieldOfViewDeg == fieldOfViewDeg
    {
      this.center := center;
      this.fieldOfViewDeg := fieldOfViewDeg;
    }

    /**
     * `updateDirection`: moves the centre as `Steered` says. The new centre is always a
     * valid pair of horizontal coordinates, so `HorizontalCoordinates.ofDeg` never throws.
     */
    method UpdateDirection(newDirection: string)
      requires Valid()
      modifies this
      ensures Valid()
      ensures (center.AzDeg(), center.AltDeg())
              == Steered(old(center).AzDeg(), old(center).AltDeg(), newDirection)
      ensures newDirection !in {"LEFT", "RIGHT", "UP", "DOWN"} ==> center == old(center)
      ensures fieldOfViewDeg == old(fieldOfViewDeg)
    {
      if newDirection in {"LEFT", "RIGHT", "UP", "DOWN"} {
        var next := Steered(center.AzDeg(), center.AltDeg(), newDirection);
        var moved := Coordinates.HorizontalOfDeg(next.0, next.1);
        if moved.Failure? {
          assert false;
        } else {
          center := moved.value;
        }
      }
    }

    /** The scroll handler: the field of view shrinks by the winning delta, kept in [30, 150]. */
    method Scroll(deltaX: real, deltaY: real)
      modifies this
      ensures fieldOfViewDeg == Clip(ZOOM_INTERVAL, old(fieldOfViewDeg) - ZoomDelta(deltaX, deltaY))
      ensures 30.0 <= fieldOfViewDeg <= 150.0
      ensures center == old(center)
    {
      fieldOfViewDeg := Clip(ZOOM_INTERVAL, fieldOfViewDeg - ZoomDelta(deltaX, deltaY));
    }

    /** `roundedViewAltDeg`: the altitude of the centre to the nearest whole degree. */
    function RoundedViewAltDeg(): (r: int)
      requires Valid()
      reads this
      ensures -90 <= r <= 90
      ensures r as real - 0.5 <= center.AltDeg() <= r as real + 0.5
    {
      RoundsHalfAwayFromZero(center.AltDeg());
      RoundedDeg(center.AltDeg())
    }
  }
}
