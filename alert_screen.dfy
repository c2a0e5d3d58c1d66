/** The alert screen's countdown: a one-second interval that counts down
    from 10 and, on reaching the end, stops itself and calls `onConfirm`. */
module AlertCountdown {

  const InitialCountdown: int := 10

  /** What one firing of the interval callback leaves behind: the new
      countdown, whether the interval still runs, and whether it called
      `onConfirm`. */
  datatype TickResult = TickResult(countdown: int, running: bool, confirmed: bool)

  /** One firing of the interval callback; a cleared interval does not fire. */
  function Step(countdown: int, running: bool): TickResult {
    if !running then TickResult(countdown, false, false)
    else if countdown <= 1 then TickResult(0, false, true)
    else TickResult(countdown - 1, true, false)
  }

  /** The state after `n` seconds with no user input, with the number of
      `onConfirm` calls made on the way. */
  datatype Timeline = Timeline(countdown: int, running: bool, confirms: nat)

  function Ticks(countdown: int, running: bool, n: nat): Timeline
    decreases n
  {
    if n == 0 then Timeline(countdown, running, 0)
    else
      var r := Step(countdown, running);
      var rest := Ticks(r.countdown, r.running, n - 1);
      rest.(confirms := rest.confirms + if r.confirmed then 1 else 0)
  }

  /** The screen with its countdown and its interval timer. */
  class AlertScreen {
    var countdown: int
    var intervalRunning: bool

    ghost predicate Valid()
      reads this
    {
      && 0 <= countdown <= InitialCountdown
      && (intervalRunning ==> countdown >= 1)
    }

    /** Mounting sets the countdown to 10 and starts the interval. */
    constructor ()
      ensures Valid()
      ensures countdown == 10 && intervalRunning
    {
      countdown := InitialCountdown;
      intervalRunning := true;
    }

    /** One second passes: the interval callback fires if it still runs. */
    method Tick() returns (confirmed: bool)
      requires Valid()
      modifies this
      ensures Valid()
      ensures TickResult(countdown, intervalRunning, confirmed) == Step(old(countdown), old(intervalRunning))
    {
      confirmed := false;
      if intervalRunning {
        if countdown <= 1 {
          intervalRunning := false;
          confirmed := true;
          countdown := 0;
        } else {
          countdown := countdown - 1;
        }
      }
    }

    /** Leaving the screen runs the effect's cleanup, which clears the interval. */
    method Unmount()
      requires Valid()
      modifies this
      ensures Valid()
      ensures !intervalRunning && countdown == old(countdown)
    {
      intervalRunning := false;
    }
  }

  // ---------------------------------------------------------------------
  // Properties of the countdown

  /** A tick above 1 decrements by exactly one and does not confirm; a tick
      at 1 or below sets 0, stops the interval and confirms. */
  lemma StepCases(countdown: int)
    ensures countdown > 1 ==> Step(countdown, true) == TickResult(countdown - 1, true, false)
    ensures countdown <= 1 ==> Step(countdown, true) == TickResult(0, false, true)
  {
  }

  /** With the interval running from `c >= 1`, the n-th tick confirms exactly
      when n reaches c, exactly once, and the countdown never goes below 0. */
  lemma {:induction false} ConfirmsOnceAfter(c: int, n: nat)
    requires c >= 1
    ensures Ticks(c, true, n).confirms == if n >= c then 1 else 0
    ensures Ticks(c, true, n).countdown == if n >= c then 0 else c - n
    ensures Ticks(c, true, n).running <==> n < c
    decreases n
  {
    if n > 0 {
      if c == 1 {
        StoppedStaysQuiet(0, n - 1);
      } else {
        ConfirmsOnceAfter(c - 1, n - 1);
      }
    }
  }

  /** A stopped interval never fires, so nothing confirms after cancel,
      confirm or the timeout has cleared it. */
  lemma {:induction false} StoppedStaysQuiet(c: int, n: nat)
    ensures Ticks(c, false, n) == Timeline(c, false, 0)
    decreases n
  {
    if n > 0 {
      StoppedStaysQuiet(c, n - 1);
    }
  }

  /** From mounting, with no user input, `onConfirm` fires on the tenth tick
      and on no other. */
  lemma ConfirmsOnTenthTick(n: nat)
    ensures Ticks(InitialCountdown, true, 9).confirms == 0
    ensures Ticks(InitialCountdown, true, 10).confirms == 1
    ensures Ticks(InitialCountdown, true, n).confirms <= 1
    ensures Ticks(InitialCountdown, true, n).countdown >= 0
  {
    ConfirmsOnceAfter(InitialCountdown, 9);
    ConfirmsOnceAfter(InitialCountdown, 10);
    ConfirmsOnceAfter(InitialCountdown, n);
  }
}
