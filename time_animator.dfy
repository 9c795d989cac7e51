/**
 * The animation timer that drives the observation instant. On the first frame after `start`
 * it records the frame time; on every later frame it sets the observation instant to the
 * accelerator applied to the instant at `start` and the real time since that first frame.
 */
module TimeAnimators {
  import opened Wrappers
  import opened TimeAccelerators

  class TimeAnimator {
    /** The date-time bean's instant, in nanoseconds: what the animator writes. */
    var dateTime: int
    /** The frame time of the first frame after `start` (`long`). */
    var initialTime: int
    /** Whether the next frame is the first one after `start`. */
    var isStarting: bool
    /** The bean's instant when `start` was called; `None` until then. */
    var startTime: Option<int>
    /** The accelerator property, initially empty. */
    var accelerator: Option<TimeAccelerator>
    var running: bool

    /** A new animator over a bean holding `dateTime`: not running and without an accelerator. */
    constructor (dateTime: int)
      ensures this.dateTime == dateTime
      ensures !running && accelerator.None? && startTime.None?
      ensures !isStarting && initialTime == 0
    {
      this.dateTime := dateTime;
      initialTime := 0;
      isStarting := false;
      startTime := None;
      accelerator := None;
      running := false;
    }

    function GetAccelerator(): (r: Option<TimeAccelerator>)
      reads this
      ensures r == accelerator
    {
      accelerator
    }

    /** `acceleratorProperty().set`. */
    method SetAccelerator(acc: Option<TimeAccelerator>)
      modifies this
      ensures accelerator == acc
      ensures dateTime == old(dateTime) && initialTime == old(initialTime)
      ensures isStarting == old(isStarting) && startTime == old(startTime) && running == old(running)
    {
      accelerator := acc;
    }

    /** `start`: remembers the current instant and makes the next frame the first one. */
    method Start()
      modifies this
      ensures isStarting && running
      ensures startTime == Some(old(dateTime))
      ensures dateTime == old(dateTime) && initialTime == old(initialTime)
      ensures accelerator == old(accelerator)
    {
      isStarting := true;
      startTime := Some(dateTime);
      running := true;
    }

    /** `stop`: clears `running` and nothing else. */
    method Stop()
      modifies this
      ensures !running
      ensures dateTime == old(dateTime) && initialTime == old(initialTime)
      ensures isStarting == old(isStarting) && startTime == old(startTime)
      ensures accelerator == old(accelerator)
    {
      running := false;
    }

    /**
     * `handle(now)`: the first frame records `now`; a later frame sets the instant from the
     * start instant and the (wrapping `long`) real time since the first frame, so the result
     * does not depend on the instant the previous frame wrote. With no accelerator, or no
     * start instant, that frame fails with a NullPointerException.
     */
    method Handle(now: int) returns (r: Outcome)
      modifies this
      ensures old(isStarting) ==> r.Pass? && initialTime == now && !isStarting && dateTime == old(dateTime)
      ensures !old(isStarting) ==> initialTime == old(initialTime) && !isStarting
      ensures !old(isStarting) && (old(accelerator).None? || old(startTime).None?)
              ==> r == Fail(NullPointer) && dateTime == old(dateTime)
      ensures !old(isStarting) && old(accelerator).Some? && old(startTime).Some?
              ==> r.Pass? && dateTime == old(accelerator).value.Adjust(old(startTime).value, WrapLong(now - old(initialTime)))
      ensures startTime == old(startTime) && accelerator == old(accelerator) && running == old(running)
    {
      if isStarting {
        initialTime := now;
        isStarting := false;
        return Pass;
      }
      if accelerator.None? || startTime.None? {
        return Fail(NullPointer);
      }
      dateTime := accelerator.value.Adjust(startTime.value, WrapLong(now - initialTime));
      return Pass;
    }
  }

  /**
   * Under `continuous(1)` the instant written at frame time `now` is the start instant plus
   * the real time since the first frame, whatever frames came in between.
   */
  lemma RealTimeAnimation(start: int, first: int, now: int)
    requires LONG_MIN <= now - first <= LONG_MAX
    ensures Continuous(1).Adjust(start, WrapLong(now - first)) == start + (now - first)
  {
    ContinuousOneIsRealTime(start, now - first);
  }
}
