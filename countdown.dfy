/**
 * `TimerFragment`: a countdown in milliseconds, entered in whole minutes and
 * counted down by a runnable that re-posts itself every 10 ms. Each run of
 * the runnable is one `Tick`; `tickPending` says whether a run is posted.
 */
module Countdown {
  import opened Wrappers
  import opened JavaInt
  import opened JavaText
  import opened Clock

  /** How much one run of the runnable takes off `timeLeft`. */
  const TickMs := 10

  /** The "mm:ss" display as its two numbers. */
  datatype Face = Face(minutes: int, seconds: int)

  /** The display for a positive `timeLeft`: whole minutes, and the whole seconds within the minute. */
  function TimerFace(timeLeft: int): (f: Face)
    requires 0 < timeLeft <= MaxInt32
    ensures f.minutes == timeLeft / MinuteMs
    ensures 0 <= f.seconds < 60 && f.minutes * 60 + f.seconds == timeLeft / 1000
  {
    var seconds := Wrap32(Quot(timeLeft, 1000));
    MinutesOfMillis(timeLeft);
    Face(Quot(seconds, 60), Rem(seconds, 60))
  }

  /** The `timeLeft` a start with `n` entered minutes sets: `n * 60 * 1000` in `int` arithmetic. */
  function StartingTime(n: Int32): (t: Int32)
    ensures 0 <= n <= MaxInt32 / MinuteMs ==> t == n * MinuteMs
  {
    Wrap32(Wrap32(n * 60) * 1000)
  }

  /** 35792 minutes do not fit: the product wraps to a negative `timeLeft`, and the first tick ends the countdown. */
  lemma LongInputWraps()
    ensures StartingTime(35792) == -2147447296
    ensures StartingTime(35791) == 2147460000
  {
  }

  class TimerFragment {
    var timeLeft: int
    var isRunning: bool
    var tickPending: bool
    var shown: Face
    /** The minutes field's text. */
    var input: string

    /** A posted tick only exists while the timer counts as running. */
    ghost predicate Valid()
      reads this
    {
      tickPending ==> isRunning
    }

    constructor ()
      ensures Valid() && timeLeft == 0 && !isRunning && !tickPending && shown == Face(0, 0) && input == ""
    {
      timeLeft := 0;
      isRunning := false;
      tickPending := false;
      shown := Face(0, 0);
      input := "";
    }

    /** The user types into the minutes field. */
    method EditInput(text: string)
      modifies this
      ensures input == text
      ensures timeLeft == old(timeLeft) && isRunning == old(isRunning) && tickPending == old(tickPending) && shown == old(shown)
    {
      input := text;
    }

    /**
     * One run of the runnable: 10 ms less; at zero or below the display
     * shows 00:00 and the timer stops without re-posting, otherwise the
     * display shows the time left and the runnable is posted again.
     */
    method Tick()
      requires Valid() && tickPending && timeLeft <= MaxInt32
      modifies this
      ensures Valid() && input == old(input)
      ensures timeLeft == old(timeLeft) - TickMs
      ensures timeLeft <= 0 ==> shown == Face(0, 0) && !isRunning && !tickPending
      ensures timeLeft > 0 ==> shown == TimerFace(timeLeft) && isRunning && tickPending
    {
      timeLeft := timeLeft - TickMs;
      if timeLeft <= 0 {
        shown := Face(0, 0);
        isRunning := false;
        tickPending := false;
        return;
      }
      shown := TimerFace(timeLeft);
    }

    /**
     * The Start/Stop button. Running: the tick is withdrawn. Stopped with a
     * non-empty field: `timeLeft` is set from the entered minutes and a tick
     * is posted. Either way `isRunning` flips, even when the field was empty
     * and nothing was posted. Text that `parseInt` rejects throws before the
     * flip; `crashed` says so and nothing changes.
     */
    method StartStop() returns (crashed: bool)
      requires Valid() && timeLeft <= MaxInt32
      modifies this
      ensures Valid() && input == old(input) && shown == old(shown) && timeLeft <= MaxInt32
      ensures crashed <==> !old(isRunning) && input != "" && ParseInt(input).None?
      ensures crashed ==> timeLeft == old(timeLeft) && isRunning == old(isRunning) && tickPending == old(tickPending)
      ensures !crashed ==> isRunning == !old(isRunning)
      ensures !crashed && old(isRunning) ==> !tickPending && timeLeft == old(timeLeft)
      ensures !crashed && !old(isRunning) && input == "" ==> !tickPending && timeLeft == old(timeLeft)
      ensures !crashed && !old(isRunning) && input != "" ==>
        tickPending && timeLeft == StartingTime(ParseInt(input).value)
    {
      if isRunning {
        tickPending := false;
      } else if input != "" {
        var parsed := ParseInt(input);
        if parsed.None? {
          return true;
        }
        timeLeft := StartingTime(parsed.value);
        tickPending := true;
      }
      isRunning := !isRunning;
      return false;
    }

    /** The Reset button: nothing pending, nothing left, stopped, 00:00 and an empty field. */
    method Reset()
      modifies this
      ensures Valid()
      ensures timeLeft == 0 && !isRunning && !tickPending && shown == Face(0, 0) && input == ""
    {
      tickPending := false;
      timeLeft := 0;
      isRunning := false;
      shown := Face(0, 0);
      input := "";
    }
  }

  /**
   * Letting the posted runnable run until it stops re-posting: a countdown
   * always ends, after exactly ceil(t / 10) ticks for a starting `t > 0`
   * (one tick for `t <= 0`), stopped and showing 00:00.
   */
  method RunDown(timer: TimerFragment) returns (ticks: nat)
    requires timer.Valid() && timer.tickPending && timer.timeLeft <= MaxInt32
    modifies timer
    ensures timer.Valid() && !timer.isRunning && !timer.tickPending && timer.shown == Face(0, 0)
    ensures old(timer.timeLeft) > 0 ==> ticks == (old(timer.timeLeft) + TickMs - 1) / TickMs
    ensures old(timer.timeLeft) <= 0 ==> ticks == 1
    ensures timer.timeLeft == old(timer.timeLeft) - TickMs * ticks && timer.input == old(timer.input)
  {
    ticks := 0;
    while timer.tickPending
      invariant timer.Valid() && timer.timeLeft <= MaxInt32 && timer.input == old(timer.input)
      invariant timer.timeLeft == old(timer.timeLeft) - TickMs * ticks
      invariant timer.tickPending ==> timer.timeLeft > 0 || ticks == 0
      invariant !timer.tickPending ==> timer.timeLeft <= 0 && !timer.isRunning && timer.shown == Face(0, 0) && ticks > 0
      invariant ticks > 0 && old(timer.timeLeft) > 0 ==> timer.timeLeft + TickMs > 0
      invariant old(timer.timeLeft) <= 0 ==> ticks <= 1
      decreases timer.tickPending, timer.timeLeft + TickMs
    {
      timer.Tick();
      ticks := ticks + 1;
    }
    var t := old(timer.timeLeft);
    if t > 0 {
      DivisionUnique(t + TickMs - 1, TickMs, ticks, t + TickMs - 1 - TickMs * ticks);
    }
  }
}
