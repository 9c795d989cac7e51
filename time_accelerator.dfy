/**
 * Time accelerators: how the animation turns the real time elapsed since it started into a
 * simulated instant. Instants and durations are whole nanoseconds on the UTC time line.
 */
module TimeAccelerators {

  const LONG_MIN: int := -0x8000_0000_0000_0000
  const LONG_MAX: int := 0x7fff_ffff_ffff_ffff
  const TWO_64: int := 0x1_0000_0000_0000_0000

  /** Nanoseconds per second: the factor `NANOS_TO_SECONDS = 1e-9` divides by. */
  const NANOS_PER_SECOND: int := 1_000_000_000

  /** Two's-complement wrap of an integer into the 64-bit `long` range. */
  function WrapLong(x: int): (r: int)
    ensures LONG_MIN <= r <= LONG_MAX
    ensures (x - r) % TWO_64 == 0
    ensures LONG_MIN <= x <= LONG_MAX ==> r == x
  {
    (x - LONG_MIN) % TWO_64 + LONG_MIN
  }

  /** Integer division rounding toward zero, as a `(long)` cast of a quotient does. */
  function TruncDiv(a: int, b: int): (r: int)
    requires b > 0
    ensures a >= 0 ==> 0 <= r * b <= a < (r + 1) * b
    ensures a < 0 ==> (r - 1) * b < a <= r * b <= 0
  {
    if a >= 0 then DivBounds(a, b); a / b
    else DivBounds(-a, b); -((-a) / b)
  }

  /** Euclidean division of a non-negative `a`: the quotient times `b` is the largest multiple below. */
  lemma DivBounds(a: int, b: int)
    requires a >= 0 && b > 0
    ensures 0 <= (a / b) * b <= a < (a / b + 1) * b
  {
    var q, m := a / b, a % b;
    assert a == q * b + m;
    assert (q + 1) * b == q * b + b;
    if q < 0 {
      MulMonotone(b, q, -1);
      assert false;
    }
    MulMonotone(b, 0, q);
  }

  /** A multiple of a positive `s` leaves no remainder. */
  lemma MultipleModulo(s: int, n: int)
    requires s > 0
    ensures (s * n) % s == 0
  {
    var x := s * n;
    var d := n - x / s;
    assert x == (x / s) * s + x % s;
    assert s * d == x % s;
    if d >= 1 {
      MulMonotone(s, 1, d);
      assert false;
    }
    if d <= -1 {
      MulMonotone(s, d, -1);
      assert false;
    }
  }

  /**
   * A time accelerator. `Continuous(k)` runs simulated time `k` times faster than real
   * time; `Discrete(f, s)` advances it by whole steps of `s` nanoseconds, `f` steps per
   * real second.
   */
  datatype TimeAccelerator =
    | Continuous(accFactor: int)
    | Discrete(frequency: int, stepNanos: int)
  {
    /**
     * `adjust`: the simulated instant `realElapsed` real nanoseconds after the simulated
     * instant `initial`. The products are `long` products and wrap on overflow.
     */
    function Adjust(initial: int, realElapsed: int): (r: int)
      ensures realElapsed == 0 ==> r == initial
      ensures Continuous? && LONG_MIN <= accFactor * realElapsed <= LONG_MAX
              ==> r == initial + accFactor * realElapsed
      ensures Discrete? && stepNanos > 0 ==> (r - initial) % stepNanos == 0
    {
      match this
      case Continuous(k) => initial + WrapLong(k * realElapsed)
      case Discrete(f, s) =>
        if s > 0 then MultipleModulo(s, Steps(f, realElapsed)); initial + s * Steps(f, realElapsed)
        else initial + s * Steps(f, realElapsed)
    }
  }

  /** The number of whole steps a discrete accelerator of frequency `f` takes in `realElapsed` ns. */
  function Steps(f: int, realElapsed: int): int {
    TruncDiv(WrapLong(f * realElapsed), NANOS_PER_SECOND)
  }

  /** `continuous(1)` advances simulated time by exactly the real time elapsed. */
  lemma ContinuousOneIsRealTime(initial: int, realElapsed: int)
    requires LONG_MIN <= realElapsed <= LONG_MAX
    ensures Continuous(1).Adjust(initial, realElapsed) == initial + realElapsed
  {
  }

  /**
   * For a non-negative `f·e` within the `long` range a discrete accelerator takes
   * `⌊f·e / 10⁹⌋` steps: the largest whole number of `1/f`-second ticks in `e`.
   */
  lemma DiscreteTakesFloorSteps(f: int, s: int, initial: int, realElapsed: int)
    requires 0 <= f * realElapsed <= LONG_MAX
    ensures Discrete(f, s).Adjust(initial, realElapsed)
            == initial + s * ((f * realElapsed) / NANOS_PER_SECOND)
    ensures ((f * realElapsed) / NANOS_PER_SECOND) * NANOS_PER_SECOND <= f * realElapsed
            < ((f * realElapsed) / NANOS_PER_SECOND + 1) * NANOS_PER_SECOND
  {
  }

  /** Less than one tick of real time leaves a discrete accelerator where it started. */
  lemma DiscreteIdleBelowOneTick(f: int, s: int, initial: int, realElapsed: int)
    requires 0 <= f * realElapsed < NANOS_PER_SECOND
    ensures Discrete(f, s).Adjust(initial, realElapsed) == initial
  {
  }

  lemma MulMonotone(k: int, a: int, b: int)
    requires k >= 0 && a <= b
    ensures k * a <= k * b
  {
  }

  lemma DivMonotone(a: int, b: int, d: int)
    requires 0 <= a <= b && d > 0
    ensures a / d <= b / d
  {
    DivBounds(a, d);
    DivBounds(b, d);
    if a / d > b / d {
      MulMonotone(d, b / d + 1, a / d);
      assert false;
    }
  }

  /**
   * With a non-negative factor (or frequency and step) simulated time never runs backwards
   * as real time advances, as long as the products stay in the `long` range.
   */
  lemma {:induction false} AdjustMonotone(acc: TimeAccelerator, initial: int, e1: int, e2: int)
    requires 0 <= e1 <= e2
    requires acc.Continuous? ==> 0 <= acc.accFactor && acc.accFactor * e2 <= LONG_MAX
    requires acc.Discrete? ==> 0 <= acc.frequency && 0 <= acc.stepNanos
                               && acc.frequency * e2 <= LONG_MAX
    ensures acc.Adjust(initial, e1) <= acc.Adjust(initial, e2)
  {
    match acc
    case Continuous(k) =>
      MulMonotone(k, e1, e2);
      MulMonotone(k, 0, e1);
    case Discrete(f, s) =>
      MulMonotone(f, e1, e2);
      MulMonotone(f, 0, e1);
      DivMonotone(f * e1, f * e2, NANOS_PER_SECOND);
      MulMonotone(s, (f * e1) / NANOS_PER_SECOND, (f * e2) / NANOS_PER_SECOND);
  }
}
