/** Argument checks shared by every validating factory of the sky map. */
module Preconditions {
  import opened Wrappers
  import opened Intervals

  /** `checkArgument`: returns normally on `true`, throws IllegalArgumentException on `false`. */
  function CheckArgument(isTrue: bool): (r: Outcome)
    ensures r.Pass? <==> isTrue
    ensures r.Fail? ==> r.error == IllegalArgument
  {
    if isTrue then Pass else Fail(IllegalArgument)
  }

  /** `checkInInterval`: hands `value` back unchanged when the interval contains it. */
  function CheckInInterval(interval: Interval, value: real): (r: Result<real>)
    ensures r.Success? <==> interval.Contains(value)
    ensures r.Success? ==> r.value == value
    ensures r.Failure? ==> r.error == IllegalArgument
  {
    if interval.Contains(value) then Success(value) else Failure(IllegalArgument)
  }
}
