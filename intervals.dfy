/**
 * Closed and right-open intervals of reals: bounds, membership, saturation (`Clip`)
 * and the floored-division wrap (`Reduce`) that the rest of the sky map uses to
 * normalise angles.
 */
module Intervals {
  import opened Wrappers

  /** An interval of the real line; both kinds keep the bounds they were built with. */
  datatype Interval =
    | ClosedInterval(low: real, high: real)      // [low, high]
    | RightOpenInterval(low: real, high: real)   // [low, high[
  {
    /** What the factories guarantee of every interval they hand out. */
    predicate Valid() { low < high }

    function Low(): (r: real)
      ensures r == low
    {
      low
    }

    function High(): (r: real)
      ensures r == high
    {
      high
    }

    function Size(): (r: real)
      ensures Valid() ==> r > 0.0
      ensures low + r == high
    {
      high - low
    }

    /** Closed intervals include both bounds, right-open ones exclude the upper bound. */
    predicate Contains(v: real) {
      match this
      case ClosedInterval(lo, hi) => lo <= v <= hi
      case RightOpenInterval(lo, hi) => lo <= v < hi
    }

    /** Value equality is refused: intervals are never to be compared or hashed. */
    function EqualsOther<T>(o: T): (r: Result<bool>)
      ensures r.Failure? && r.error == UnsupportedOperation
    {
      Failure(UnsupportedOperation)
    }

    function HashCode(): (r: Result<int>)
      ensures r.Failure? && r.error == UnsupportedOperation
    {
      Failure(UnsupportedOperation)
    }
  }

  /** `ClosedInterval.of`: fails unless the lower bound is strictly below the upper one. */
  function ClosedOf(low: real, high: real): (r: Result<Interval>)
    ensures r.Success? <==> low < high
    ensures r.Failure? ==> r.error == IllegalArgument
    ensures r.Success? ==> r.value.ClosedInterval? && r.value.Valid()
                           && r.value.Low() == low && r.value.High() == high
  {
    if low < high then Success(ClosedInterval(low, high)) else Failure(IllegalArgument)
  }

  /** `ClosedInterval.symmetric`: the interval [-size/2, size/2] for a positive size. */
  function ClosedSymmetric(size: real): (r: Result<Interval>)
    ensures r.Success? <==> size > 0.0
    ensures r.Failure? ==> r.error == IllegalArgument
    ensures r.Success? ==> r.value.ClosedInterval? && r.value.Valid()
                           && r.value.Size() == size && r.value.Low() == -r.value.High()
  {
    if size > 0.0 then Success(ClosedInterval(-(size / 2.0), size / 2.0))
    else Failure(IllegalArgument)
  }

  /** `RightOpenInterval.of`: fails unless the lower bound is strictly below the upper one. */
  function RightOpenOf(low: real, high: real): (r: Result<Interval>)
    ensures r.Success? <==> low < high
    ensures r.Failure? ==> r.error == IllegalArgument
    ensures r.Success? ==> r.value.RightOpenInterval? && r.value.Valid()
                           && r.value.Low() == low && r.value.High() == high
  {
    if low < high then Success(RightOpenInterval(low, high)) else Failure(IllegalArgument)
  }

  /** `RightOpenInterval.symmetric`: the interval [-size/2, size/2[ for a positive size. */
  function RightOpenSymmetric(size: real): (r: Result<Interval>)
    ensures r.Success? <==> size > 0.0
    ensures r.Failure? ==> r.error == IllegalArgument
    ensures r.Success? ==> r.value.RightOpenInterval? && r.value.Valid()
                           && r.value.Size() == size && r.value.Low() == -r.value.High()
  {
    if size > 0.0 then Success(RightOpenInterval(-size / 2.0, size / 2.0))
    else Failure(IllegalArgument)
  }

  /**
   * `ClosedInterval.clip`: saturates `v` to the nearest bound. The result always lies
   * in the interval and is `v` itself when `v` already does.
   */
  function Clip(i: Interval, v: real): (r: real)
    requires i.ClosedInterval? && i.Valid()
    ensures i.Contains(r)
    ensures i.Contains(v) ==> r == v
    ensures v <= i.low ==> r == i.low
    ensures v >= i.high ==> r == i.high
  {
    if v <= i.Low() then i.Low() else if v < i.High() then v else i.High()
  }

  lemma ClipIdempotent(i: Interval, v: real)
    requires i.ClosedInterval? && i.Valid()
    ensures Clip(i, Clip(i, v)) == Clip(i, v)
  {
  }

  /** The number of whole periods `Reduce` subtracts from `v`. */
  function Periods(i: Interval, v: real): int
    requires i.Valid()
  {
    ((v - i.Low()) / i.Size()).Floor
  }

  /**
   * `RightOpenInterval.reduce`: `v` minus the whole number of interval sizes that brings it
   * into [low, high[ (floored division, so negative inputs wrap upward).
   */
  function Reduce(i: Interval, v: real): (r: real)
    requires i.RightOpenInterval? && i.Valid()
  {
    v - i.Size() * Periods(i, v) as real
  }

  /** Floor characterisation: `q` lies in [n, n + 1[ exactly when `n` is its floor. */
  lemma FloorUnique(q: real, n: int)
    requires n as real <= q < n as real + 1.0
    ensures q.Floor == n
  {
  }

  lemma DivideThenScale(a: real, s: real)
    requires s > 0.0
    ensures s * (a / s) == a
  {
  }

  lemma ScaleMonotone(s: real, x: real, y: real)
    requires s > 0.0 && x <= y
    ensures s * x <= s * y
  {
  }

  lemma ScaleStrictMonotone(s: real, x: real, y: real)
    requires s > 0.0 && x < y
    ensures s * x < s * y
  {
  }

  /** Floored division leaves a remainder in [0, s[. */
  lemma {:induction false} FloorRemainder(a: real, s: real)
    requires s > 0.0
    ensures 0.0 <= a - s * (a / s).Floor as real < s
  {
    var q := a / s;
    var n := q.Floor;
    DivideThenScale(a, s);
    ScaleMonotone(s, n as real, q);
    assert q < n as real + 1.0;
    ScaleStrictMonotone(s, q, n as real + 1.0);
    assert s * q < s * (n as real + 1.0);
    assert s * (n as real + 1.0) == s * n as real + s;
    assert a < s * n as real + s;
  }

  lemma {:induction false} ReduceInRange(i: Interval, v: real)
    requires i.RightOpenInterval? && i.Valid()
    ensures i.Contains(Reduce(i, v))
  {
    FloorRemainder(v - i.Low(), i.Size());
  }

  lemma {:induction false} ReduceFixesMembers(i: Interval, v: real)
    requires i.RightOpenInterval? && i.Valid()
    requires i.Contains(v)
    ensures Reduce(i, v) == v
  {
    var s, a := i.Size(), v - i.Low();
    var q := a / s;
    DivideThenScale(a, s);
    if q >= 1.0 {
      ScaleMonotone(s, 1.0, q);
      assert false;
    }
    if q < 0.0 {
      ScaleStrictMonotone(s, q, 0.0);
      assert false;
    }
    FloorUnique(q, 0);
  }

  lemma {:induction false} ShiftedQuotient(a: real, s: real, k: int)
    requires s > 0.0
    ensures (a + k as real * s) / s == a / s + k as real
  {
    DivideThenScale(a, s);
    DivideThenScale(a + k as real * s, s);
    var lhs, rhs := (a + k as real * s) / s, a / s + k as real;
    assert s * rhs == a + k as real * s;
    if lhs < rhs {
      ScaleStrictMonotone(s, lhs, rhs);
      assert false;
    }
    if lhs > rhs {
      ScaleStrictMonotone(s, rhs, lhs);
      assert false;
    }
  }

  /** The floored remainder of `a` by `s` is unchanged when `a` moves by `k` periods. */
  lemma {:induction false} RemainderPeriodic(a: real, s: real, k: int)
    requires s > 0.0
    ensures (a + k as real * s) - s * ((a + k as real * s) / s).Floor as real
            == a - s * (a / s).Floor as real
  {
    var n := (a / s).Floor;
    ShiftedQuotient(a, s, k);
    FloorUnique(a / s + k as real, n + k);
    assert s * (n + k) as real == s * n as real + s * k as real;
    assert k as real * s == s * k as real;
  }

  /** Shifting the input by a whole number of periods does not change the result. */
  lemma {:induction false} ReducePeriodic(i: Interval, v: real, k: int)
    requires i.RightOpenInterval? && i.Valid()
    ensures Reduce(i, v + k as real * i.Size()) == Reduce(i, v)
  {
    var s, a := i.Size(), v - i.Low();
    var w := v + k as real * s;
    RemainderPeriodic(a, s, k);
    assert w - i.Low() == a + k as real * s;
    assert Periods(i, w) == ((a + k as real * s) / s).Floor;
    assert Reduce(i, w) == w - s * Periods(i, w) as real;
    assert Reduce(i, w) == i.Low() + ((a + k as real * s) - s * ((a + k as real * s) / s).Floor as real);
    assert Reduce(i, v) == i.Low() + (a - s * (a / s).Floor as real);
    assert Reduce(i, w) == Reduce(i, v);
    assert w == v + k as real * i.Size();
  }

  /** `k` whole periods of length `size`. */
  function Multiple(k: int, size: real): real {
    k as real * size
  }

  /** `v - Reduce(v)` is a whole multiple of the interval size. */
  lemma ReduceOffsetIsMultiple(i: Interval, v: real)
    requires i.RightOpenInterval? && i.Valid()
    ensures exists k: int :: v - Reduce(i, v) == Multiple(k, i.Size())
  {
    var k := Periods(i, v);
    assert v - Reduce(i, v) == Multiple(k, i.Size());
  }

  lemma ReduceIdempotent(i: Interval, v: real)
    requires i.RightOpenInterval? && i.Valid()
    ensures Reduce(i, Reduce(i, v)) == Reduce(i, v)
  {
    ReduceInRange(i, v);
    ReduceFixesMembers(i, Reduce(i, v));
  }
}
