/** The round clock. A tick happens only while the round is active; it counts
    the time left down by one, and the tick that finds one second or less left
    sets it to zero and completes the round. */
module Countdown {

  /** Seconds in a round. */
  const RoundLength: int := 30

  /** The clock's part of the round state: seconds left and the two phase flags. */
  datatype Clock = Clock(timeLeft: int, active: bool, completed: bool)

  /** The clock after one tick of the interval timer. */
  function ClockTick(c: Clock): (r: Clock)
    ensures !c.active ==> r == c
    ensures c.active && r.active ==> r.timeLeft == c.timeLeft - 1 >= 1 && r.completed == c.completed
    ensures c.active && !r.active ==> r.completed && r.timeLeft == 0 && c.timeLeft <= 1
  {
    if !c.active then c
    else if c.timeLeft <= 1 then Clock(0, false, true)
    else Clock(c.timeLeft - 1, c.active, c.completed)
  }

  /** The clock after `k` ticks. */
  function ClockRun(c: Clock, k: nat): Clock
    decreases k
  {
    if k == 0 then c else ClockRun(ClockTick(c), k - 1)
  }

  /** Once the round is not active, ticks change nothing. */
  lemma {:induction false} SuspendedRun(c: Clock, k: nat)
    requires !c.active
    ensures ClockRun(c, k) == c
    decreases k
  {
    if k > 0 {
      SuspendedRun(ClockTick(c), k - 1);
    }
  }

  /** From `n` seconds left in an active round, the clock counts down one second
      per tick, stays active for the first n - 1 ticks, and the n-th tick
      completes the round at zero, where it stays. */
  lemma {:induction false} CountsDown(n: int, k: nat)
    requires n >= 1
    ensures ClockRun(Clock(n, true, false), k)
         == if k < n then Clock(n - k, true, false) else Clock(0, false, true)
    decreases k
  {
    if k > 0 {
      if n == 1 {
        SuspendedRun(Clock(0, false, true), k - 1);
      } else {
        CountsDown(n - 1, k - 1);
      }
    }
  }

  /** A fresh round completes after exactly `RoundLength` ticks. */
  lemma RoundCompletesAfterRoundLength()
    ensures ClockRun(Clock(RoundLength, true, false), RoundLength - 1) == Clock(1, true, false)
    ensures ClockRun(Clock(RoundLength, true, false), RoundLength) == Clock(0, false, true)
  {
    CountsDown(RoundLength, RoundLength - 1);
    CountsDown(RoundLength, RoundLength);
  }
}
