/** The exam timer of src/app.jsx (`Timer`): a countdown seeded from its
    `seconds` input, stepped once a second while `isActive`, clamped at zero,
    and reporting expiry when it reaches zero while active.

    The one-second interval and the zero-delay expiry timeout are events the
    environment delivers: `OnTick` is the interval firing, `ExpiryDue` tells
    when the owner's `onTimeUp` is scheduled. */
module Countdown {

  import opened TimerDisplay

  /** The value an interval tick leaves: one second less while active and
      positive (the `newTime <= 0` clamp keeps it at zero), otherwise no
      interval is running and the value stays. */
  function Step(timeLeft: int, isActive: bool): (t: int)
    ensures timeLeft >= 0 ==> t >= 0
    ensures t == if isActive && timeLeft > 0 then timeLeft - 1 else timeLeft
  {
    if isActive && timeLeft > 0 then
      var newTime := timeLeft - 1;
      if newTime <= 0 then 0 else newTime
    else timeLeft
  }

  /** The value after `n` ticks. */
  function Steps(timeLeft: int, isActive: bool, n: nat): int {
    if n == 0 then timeLeft else Steps(Step(timeLeft, isActive), isActive, n - 1)
  }

  /** An active timer seeded with `seconds` shows `seconds - n` after `n`
      ticks and stays at zero from then on: it never goes negative. */
  lemma {:induction false} RunsDown(seconds: nat, n: nat)
    ensures Steps(seconds, true, n) == if n <= seconds then seconds - n else 0
  {
    if n > 0 {
      RunsDown(Step(seconds, true), n - 1);
    }
  }

  /** Expiry (time left 0 while active) is reached after exactly `seconds`
      ticks and at no earlier tick. */
  lemma ExpiresAfterExactlySeconds(seconds: nat)
    ensures Steps(seconds, true, seconds) == 0
    ensures forall n: nat :: n < seconds ==> Steps(seconds, true, n) > 0
  {
    RunsDown(seconds, seconds);
    forall n: nat | n < seconds ensures Steps(seconds, true, n) > 0 {
      RunsDown(seconds, n);
    }
  }

  /** An inactive timer does not move, however many ticks arrive. */
  lemma {:induction false} InactiveStays(timeLeft: int, n: nat)
    ensures Steps(timeLeft, false, n) == timeLeft
  {
    if n > 0 {
      InactiveStays(timeLeft, n - 1);
    }
  }

  class ExamTimer {
    /** The `seconds` input the timer was last seeded from. */
    var seconds: nat
    var timeLeft: int
    /** The `isActive` input, owned by the segment that shows the timer. */
    var isActive: bool

    ghost predicate Valid()
      reads this
    {
      timeLeft >= 0
    }

    /** Mounting: `useState(seconds)`. */
    constructor(seconds: nat, isActive: bool)
      ensures Valid()
      ensures this.seconds == seconds && timeLeft == seconds && this.isActive == isActive
    {
      this.seconds := seconds;
      timeLeft := seconds;
      this.isActive := isActive;
    }

    /** A new `seconds` input. The effect keyed on `seconds` re-seeds the
        countdown only when the value differs from the previous one. */
    method SetSeconds(s: nat)
      requires Valid()
      modifies this
      ensures Valid()
      ensures seconds == s && isActive == old(isActive)
      ensures timeLeft == if s != old(seconds) then s else old(timeLeft)
    {
      if s != seconds {
        timeLeft := s;
      }
      seconds := s;
    }

    /** A new `isActive` input; stopping never fires expiry by itself. */
    method SetActive(active: bool)
      requires Valid()
      modifies this
      ensures Valid()
      ensures isActive == active && seconds == old(seconds) && timeLeft == old(timeLeft)
    {
      isActive := active;
    }

    /** The one-second interval fires. It only exists while the timer is
        active with time left. */
    method OnTick()
      requires Valid()
      modifies this
      ensures Valid()
      ensures timeLeft == Step(old(timeLeft), isActive)
      ensures seconds == old(seconds) && isActive == old(isActive)
    {
      if isActive && timeLeft > 0 {
        timeLeft := timeLeft - 1;
        if timeLeft <= 0 {
          timeLeft := 0;
        }
      }
    }

    /** The expiry effect schedules `onTimeUp` exactly when the time left is
        zero and the timer is active. */
    predicate ExpiryDue()
      reads this
    {
      timeLeft == 0 && isActive
    }

    /** The text the timer shows. */
    function Display(): (text: string)
      reads this
      requires Valid()
    {
      FormatTime(timeLeft)
    }
  }
}
