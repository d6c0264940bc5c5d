/**
 * `StopwatchFragment`: shows the time since the last start as "mm:ss.cc",
 * refreshed by a runnable that re-posts itself every 10 ms. Each run of the
 * runnable is one `Tick`; `tickPending` says whether a run is posted.
 */
module Stopwatch {
  import opened JavaInt
  import opened Clock

  /** The "mm:ss.cc" display as its three numbers. */
  datatype Face = Face(minutes: int, seconds: int, centis: int)

  /** The number of whole seconds that still fit an `int`, in milliseconds. */
  const IntSecondsLimitMs := 1000 * (MaxInt32 + 1)

  /**
   * The display for `elapsed` milliseconds, in Java's arithmetic: whole
   * seconds cast to `int`, truncating division and remainder. Up to about
   * 24.8 days it is the elapsed time to the hundredth of a second (negative
   * parts for a clock that went back); beyond that the cast wraps.
   */
  function StopwatchFace(elapsed: int): (f: Face)
    ensures 0 <= elapsed < IntSecondsLimitMs ==>
      f.minutes == elapsed / MinuteMs && 0 <= f.seconds < 60 && 0 <= f.centis < 100 &&
      0 <= elapsed - (f.minutes * MinuteMs + f.seconds * 1000 + f.centis * 10) < 10
    ensures -IntSecondsLimitMs < elapsed < 0 ==>
      f.minutes <= 0 && -60 < f.seconds <= 0 && -100 < f.centis <= 0
  {
    var wholeSeconds := Wrap32(Quot(elapsed, 1000));
    var f := Face(Quot(wholeSeconds, 60), Rem(wholeSeconds, 60), Quot(Wrap32(Rem(elapsed, 1000)), 10));
    if 0 <= elapsed < IntSecondsLimitMs then
      MinutesOfMillis(elapsed);
      f
    else
      f
  }

  /** Past 2^31 whole seconds the cast wraps and the display goes negative. */
  lemma FaceWrapsAfterIntSeconds()
    ensures StopwatchFace(IntSecondsLimitMs) == Face(-35791394, -8, 0)
  {
  }

  class StopwatchFragment {
    var startTime: int
    var isRunning: bool
    var tickPending: bool
    var shown: Face

    /** The runnable is posted exactly while the stopwatch runs. */
    ghost predicate Valid()
      reads this
    {
      tickPending == isRunning
    }

    constructor ()
      ensures Valid() && startTime == 0 && !isRunning && shown == Face(0, 0, 0)
    {
      startTime := 0;
      isRunning := false;
      tickPending := false;
      shown := Face(0, 0, 0);
    }

    /** One run of the runnable at `now`: shows the time since the last start and posts itself again. */
    method Tick(now: int)
      requires Valid() && tickPending
      modifies this
      ensures Valid() && shown == StopwatchFace(now - startTime)
      ensures startTime == old(startTime) && isRunning == old(isRunning) && tickPending
    {
      shown := StopwatchFace(now - startTime);
    }

    /**
     * The Start/Stop button at `now`. Stopping withdraws the runnable and
     * keeps the display; starting restarts the count from `now` (elapsed time
     * does not carry over a pause) and posts the runnable.
     */
    method StartStop(now: int)
      requires Valid()
      modifies this
      ensures Valid() && isRunning == !old(isRunning) && shown == old(shown)
      ensures old(isRunning) ==> startTime == old(startTime)
      ensures !old(isRunning) ==> startTime == now
    {
      if isRunning {
        tickPending := false;
      } else {
        startTime := now;
        tickPending := true;
      }
      isRunning := !isRunning;
    }

    /** The Reset button: stopped, start time 0, display 00:00.00. */
    method Reset()
      modifies this
      ensures Valid() && startTime == 0 && !isRunning && shown == Face(0, 0, 0)
    {
      tickPending := false;
      startTime := 0;
      isRunning := false;
      shown := Face(0, 0, 0);
    }
  }
}
