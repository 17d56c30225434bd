/** The tap-scoring rule of the bonus round: a tap that follows the previous
    successful tap within the combo window extends the combo and earns a bonus
    that grows with the length of the combo so far; a slower tap resets it. */
module ComboScoring {

  /** Milliseconds within which a tap continues the combo. */
  const ComboWindow: int := 1000
  /** Bonus points per level of combo that preceded the tap. */
  const ComboBonus: nat := 5
  const BaseTone: nat := 800
  const ToneStep: nat := 100

  /** The part of the round state a tap reads and writes, besides the balloons.
      `lastPopTime` is a clock reading in milliseconds. */
  datatype Tally = Tally(score: nat, combo: nat, lastPopTime: int)

  /** The tally after a successful tap at time `now` on a balloon worth `points`.
      The bonus is computed from the combo as it was before the tap. */
  function TapStep(t: Tally, points: nat, now: int): (r: Tally)
    ensures r.lastPopTime == now
    ensures r.combo > 0 <==> now - t.lastPopTime < ComboWindow
    ensures r.combo == 0 || r.combo == t.combo + 1
    ensures r.score == t.score + points + (if r.combo > 0 then (r.combo - 1) * ComboBonus else 0)
  {
    var rapid := now - t.lastPopTime < ComboWindow;
    var finalPoints := if rapid then points + t.combo * ComboBonus else points;
    Tally(t.score + finalPoints, if rapid then t.combo + 1 else 0, now)
  }

  /** Frequency in hertz of the tone a successful tap plays, taken from the combo
      as it was before the tap: one step above the base tone per combo level. */
  function PopTone(combo: nat): (hz: nat)
    ensures hz >= BaseTone
    ensures (hz - BaseTone) % ToneStep == 0 && (hz - BaseTone) / ToneStep == combo
  {
    BaseTone + combo * ToneStep
  }

  /** One successful tap: the balloon's base points and the time of the tap. */
  datatype Tap = Tap(points: nat, time: int)

  /** The tally after a series of successful taps, in order. */
  function TapRun(t: Tally, taps: seq<Tap>): Tally
    decreases |taps|
  {
    if taps == [] then t else TapRun(TapStep(t, taps[0].points, taps[0].time), taps[1..])
  }

  function SumPoints(taps: seq<Tap>): nat
    decreases |taps|
  {
    if taps == [] then 0 else taps[0].points + SumPoints(taps[1..])
  }

  /** Every tap lands within the combo window of the tap before it, the first
      one within the window of `last`. */
  predicate Rapid(last: int, taps: seq<Tap>)
    decreases |taps|
  {
    taps == [] || (taps[0].time - last < ComboWindow && Rapid(taps[0].time, taps[1..]))
  }

  /** Taps never lower the score: each one adds at least its base points. */
  lemma {:induction false} TapRunNeverLowers(t: Tally, taps: seq<Tap>)
    ensures TapRun(t, taps).score >= t.score + SumPoints(taps)
    decreases |taps|
  {
    if taps != [] {
      TapRunNeverLowers(TapStep(t, taps[0].points, taps[0].time), taps[1..]);
    }
  }

  /** c + (c + 1) + ... + (c + k - 1): the combo levels a chain of k rapid taps
      passes through when it starts at combo c. */
  function Levels(c: nat, k: nat): nat
    decreases k
  {
    if k == 0 then 0 else c + Levels(c + 1, k - 1)
  }

  lemma {:induction false} LevelsClosedForm(c: nat, k: nat)
    ensures 2 * Levels(c, k) == 2 * k * c + k * (k - 1)
    decreases k
  {
    if k > 0 {
      LevelsClosedForm(c + 1, k - 1);
      assert 2 * (k - 1) * (c + 1) == 2 * k * c - 2 * c + 2 * k - 2;
      assert (k - 1) * (k - 2) == k * (k - 1) - 2 * k + 2;
    }
  }

  /** A chain of k rapid taps raises the combo by k and pays, on top of the base
      points, the bonus of every combo level it passes through. */
  lemma {:induction false} RapidChain(t: Tally, taps: seq<Tap>)
    requires Rapid(t.lastPopTime, taps)
    ensures TapRun(t, taps).combo == t.combo + |taps|
    ensures TapRun(t, taps).score == t.score + SumPoints(taps) + ComboBonus * Levels(t.combo, |taps|)
    decreases |taps|
  {
    if taps != [] {
      var next := TapStep(t, taps[0].points, taps[0].time);
      assert next.combo == t.combo + 1;
      RapidChain(next, taps[1..]);
    }
  }

  /** The same total in closed form: a chain of k rapid taps from combo c earns
      5 * (k * c + k * (k - 1) / 2) bonus points. */
  lemma RapidChainBonus(t: Tally, taps: seq<Tap>)
    requires Rapid(t.lastPopTime, taps)
    ensures 2 * TapRun(t, taps).score
         == 2 * (t.score + SumPoints(taps)) + ComboBonus * (2 * |taps| * t.combo + |taps| * (|taps| - 1))
  {
    RapidChain(t, taps);
    LevelsClosedForm(t.combo, |taps|);
  }

  /** A tap outside the window ends a chain: the combo restarts at zero and the
      tap earns its base points only, whatever the combo was. */
  lemma SlowTapResets(t: Tally, points: nat, now: int)
    requires now - t.lastPopTime >= ComboWindow
    ensures TapStep(t, points, now) == Tally(t.score + points, 0, now)
  {
  }

  /** Three taps, each within the window of the one before and the first long
      after the start of the clock: 10 points, then 10 with no bonus while the
      combo starts, then 50 plus a bonus of 5. */
  lemma ComboScenario()
    ensures TapRun(Tally(0, 0, 0), [Tap(10, 5000), Tap(10, 5500), Tap(50, 6200)]) == Tally(75, 2, 6200)
  {
  }
}
