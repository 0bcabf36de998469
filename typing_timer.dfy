/**
 * The countdown of a time-limited test.  The one-second interval is reduced
 * to a `running` flag; each firing of the interval is a call of `Tick(now)`.
 */
module TypingTimer {
  import opened TypingTypes

  /**
   * `Math.max(0, timeLimit - Math.floor(elapsedMs / 1000))`: whole seconds
   * left.  Dafny's `/` by a positive divisor rounds down, as `Math.floor` of
   * the quotient does, also for a negative `elapsedMs`.
   */
  function Remaining(timeLimit: int, elapsedMs: int): (r: int)
    ensures r >= 0
  {
    var elapsedSeconds := elapsedMs / 1000;
    if timeLimit - elapsedSeconds >= 0 then timeLimit - elapsedSeconds else 0
  }

  /** Once the clock has started, no more than the limit remains. */
  lemma RemainingAtMostLimit(timeLimit: TimeLimit, elapsedMs: int)
    requires elapsedMs >= 0
    ensures Remaining(timeLimit, elapsedMs) <= timeLimit
  {
  }

  /** During the first second the whole limit remains. */
  lemma RemainingFirstSecond(timeLimit: TimeLimit, elapsedMs: int)
    requires 0 <= elapsedMs < 1000
    ensures Remaining(timeLimit, elapsedMs) == timeLimit
  {
  }

  /** The countdown never goes back up as time passes. */
  lemma RemainingNonIncreasing(timeLimit: int, earlier: int, later: int)
    requires earlier <= later
    ensures Remaining(timeLimit, later) <= Remaining(timeLimit, earlier)
  {
    DivMonotone(earlier, later);
  }

  lemma DivMonotone(a: int, b: int)
    requires a <= b
    ensures a / 1000 <= b / 1000
  {
    assert 1000 * (a / 1000) <= a;
    assert b < 1000 * (b / 1000) + 1000;
    assert 1000 * (a / 1000) < 1000 * (b / 1000 + 1);
  }

  /** Time is up exactly when the limit, in milliseconds, has elapsed. */
  lemma RemainingZeroIff(timeLimit: TimeLimit, elapsedMs: int)
    ensures Remaining(timeLimit, elapsedMs) == 0 <==> elapsedMs >= timeLimit * 1000
  {
    assert 1000 * (elapsedMs / 1000) + elapsedMs % 1000 == elapsedMs;
  }

  /** `timeLimit > 0 && startTime && !isComplete`: the condition under which the countdown is armed. */
  predicate TimerActive(timeLimit: TimeLimit, startTime: Option<int>, isComplete: bool) {
    timeLimit > 0 && IsSet(startTime) && !isComplete
  }

  /**
   * The countdown of one mounted test.  `timeLimit`, `startTime` and
   * `isComplete` are the values the interval was armed with; `running` says
   * whether an interval is scheduled; `completions` counts the calls of
   * `onTimerComplete` since it was armed.
   */
  class Countdown {
    var timeLimit: TimeLimit
    var startTime: Option<int>
    var isComplete: bool
    var running: bool
    var lastRemaining: Option<int>
    var completions: nat

    /** An armed countdown has not completed; a completed one is no longer scheduled. */
    ghost predicate Valid()
      reads this
    {
      && completions <= 1
      && (running ==> TimerActive(timeLimit, startTime, isComplete) && completions == 0)
    }

    constructor()
      ensures Valid() && !running && lastRemaining.None? && completions == 0
    {
      timeLimit := 0;
      startTime := None;
      isComplete := false;
      running := false;
      lastRemaining := None;
      completions := 0;
    }

    /**
     * The effect, run whenever one of its inputs changes: the previous
     * interval is cleared, and a new one is armed when the condition holds.
     */
    method Arm(newTimeLimit: TimeLimit, newStartTime: Option<int>, newIsComplete: bool)
      modifies this
      ensures Valid()
      ensures timeLimit == newTimeLimit && startTime == newStartTime && isComplete == newIsComplete
      ensures running == TimerActive(newTimeLimit, newStartTime, newIsComplete)
      ensures completions == 0 && lastRemaining == old(lastRemaining)
    {
      running := false;
      timeLimit, startTime, isComplete := newTimeLimit, newStartTime, newIsComplete;
      completions := 0;
      if TimerActive(timeLimit, startTime, isComplete) {
        running := true;
      }
    }

    /**
     * One firing of the interval at time `now`: publishes the remaining time
     * and, when it is zero, clears the interval before calling
     * `onTimerComplete` (`fired`).  A cleared interval does not fire.
     */
    method Tick(now: int) returns (fired: bool)
      requires Valid()
      modifies this
      ensures Valid()
      ensures timeLimit == old(timeLimit) && startTime == old(startTime) && isComplete == old(isComplete)
      ensures !old(running) ==> !fired && running == old(running) && lastRemaining == old(lastRemaining)
                                && completions == old(completions)
      ensures old(running) ==>
        var origin := if IsSet(startTime) then startTime.value else now;
        var remaining := Remaining(timeLimit, now - origin);
        && lastRemaining == Some(remaining)
        && fired == (remaining == 0)
        && running == !fired
        && completions == (if fired then 1 else 0)
      ensures fired ==> lastRemaining == Some(0) && !running && completions == 1
    {
      fired := false;
      if running {
        var origin := if IsSet(startTime) then startTime.value else now;
        var remaining := Remaining(timeLimit, now - origin);
        lastRemaining := Some(remaining);
        if remaining == 0 && !isComplete {
          running := false;
          completions := completions + 1;
          fired := true;
        }
      }
    }

    /** `clearTimer`: no interval stays scheduled. */
    method ClearTimer()
      requires Valid()
      modifies this
      ensures Valid() && !running
      ensures timeLimit == old(timeLimit) && startTime == old(startTime) && isComplete == old(isComplete)
      ensures lastRemaining == old(lastRemaining) && completions == old(completions)
    {
      running := false;
    }
  }
}
