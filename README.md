# Bonus balloon round, modelled in Dafny

This project models the round engine of the bonus balloon game, a 30-second
arcade round. Balloons enter above the top edge of the field and fall at their
own speed (`y` is the height above the bottom edge, from 110 down). The player
taps them for points, and taps that come in quick succession build a combo
bonus. A one-second timer moves the balloons, may spawn a new one and counts
the clock down. When the clock runs out the round completes, and the final
score is mapped to a rating and a pass/fail flag.

Modules, one per part of the engine:

- `BalloonField` (balloons.dfy): the `Balloon` record and how one is generated
  from its random draws. The per-tick move-and-filter, and the lookup and
  removal of a tapped balloon, are functions over `seq<Balloon>`.
- `ComboScoring` (scoring.dfy): the combo rule for one tap, the pop tone, and
  what a series of taps adds up to.
- `Countdown` (countdown.dfy): the clock and phase flags under the interval
  timer.
- `Outcome` (outcome.dfy): the rating tiers and the continue threshold.
- `RoundEngine` (round.dfy): class `Round` holds the component's state fields.
  Its methods `Start`, `Pop` and `Tick` change them in place. Each method's
  contract ties the new state to the functions above, and all three keep the
  invariant `Valid()`.

The random draws (`Math.random`) and the current time (`Date.now`) are passed
in as parameters. The timer is modelled by calling `Tick` explicitly.

Three behaviours of the code shape the model:

- `startGame` does not reset `lastPopTime`, and before the first tap ever it
  is 0. In the program the first balloon of a new round appears only at the
  first tick, a second after the restart, so the round's first tap never
  continues the last round's combo. The model leaves `now` free, so
  `Round.Start` states only that `lastPopTime` is kept.
- `popBalloon` itself has no phase check. It is called only from the balloon
  buttons (src/components/BonusBalloonGame.tsx:268-271), which are never drawn
  on a completed round, because the outcome screen is returned first (:166).
  `Round.Pop` therefore requires a round that is not completed. `Round.Tick`
  never changes the score, so a completed round's score is frozen.
- The tick that finds one second or less left sets the clock to 0 and completes
  the round. An active round always has at least one second left, so this tick
  is the one at 1 second.

`RoundEngine.TapScenario` is a client example. It drives a `Round` through its
method contracts alone (start, a spawning tick, a tap, a repeated tap) and has
no contract of its own.

## Model

| member | source | states |
|---|---|---|
| `BalloonField.GenerateBalloon` | src/components/BonusBalloonGame.tsx:31-57 | The kind depends only on the first draw: below 0.1 is special, 0.1 up to 0.3 is bonus, otherwise normal. Points and size agree with the kind (50/60, 25/50, 10/40). x is in [0, 90), speed is in [0.5, 2.0) and the colour is from the palette. y is 110 and the id is the second draw. |
| `BalloonField.Spawn` | src/components/BonusBalloonGame.tsx:128-131 | A tick adds at most one balloon. It adds one exactly when the spawn draw is below 0.3, and that balloon is exactly the one `GenerateBalloon` makes from the draws, so its id, kind and ranges are those stated there. The balloon's draws need to be in range only when it spawns. |
| `BalloonField.MoveAll` | src/components/BonusBalloonGame.tsx:119-124 | The move keeps the length, and the balloon at each index is the old one moved down by its speed. |
| `BalloonField.KeepVisible` | src/components/BonusBalloonGame.tsx:125 | The filter keeps exactly the balloons with y > -10, and never adds any. |
| `BalloonField.KeepVisibleAppend` | src/components/BonusBalloonGame.tsx:125 | Filtering a concatenation is concatenating the filtered parts, so the filter keeps relative order. |
| `BalloonField.Advance` | src/components/BonusBalloonGame.tsx:119-126 | The field after the move and filter has no more balloons than before, and every one of them is above the exit line y = -10. |
| `BalloonField.AdvanceOne` | src/components/BonusBalloonGame.tsx:119-126 | One balloon survives a tick exactly when y - speed > -10. It comes back with y' = y - speed and every other field unchanged. |
| `BalloonField.AdvanceAppend` | src/components/BonusBalloonGame.tsx:119-126 | Move-then-filter works part by part, so survivors keep their relative order. |
| `BalloonField.AdvanceMembers` | src/components/BonusBalloonGame.tsx:119-126 | A balloon is on the field after the move and filter exactly when it is the moved image of an old balloon with y - speed > -10. |
| `BalloonField.AdvanceKeepsWellFormed` | src/components/BonusBalloonGame.tsx:119-126 | Motion keeps every balloon well formed. Each balloon after a tick is an old one with only its y changed, so kind, points, size, speed, colour, x and id are kept. |
| `BalloonField.Find` | src/components/BonusBalloonGame.tsx:70-72 | The lookup fails exactly when no balloon carries the id. Otherwise it returns a live balloon with that id. |
| `BalloonField.FindFirst` | src/components/BonusBalloonGame.tsx:70 | The lookup returns the earliest balloon with the id, as `find` does. |
| `BalloonField.RemoveId` | src/components/BonusBalloonGame.tsx:87 | Removal keeps exactly the balloons whose id differs from the tapped one. |
| `BalloonField.RemoveIdAppend` | src/components/BonusBalloonGame.tsx:87 | Removal works part by part, so the other balloons keep their relative order. |
| `BalloonField.RemoveIdAbsent` | src/components/BonusBalloonGame.tsx:87 | Removing an id that no balloon carries leaves the field as it was. |
| `BalloonField.RemoveIdAt` | src/components/BonusBalloonGame.tsx:87 | With distinct ids, removing the id of the balloon at index k gives the field without index k, everything else unchanged and in order. |
| `BalloonField.RemoveIdKeepsWellFormed` | src/components/BonusBalloonGame.tsx:87 | Removal leaves every remaining balloon well formed. |
| `ComboScoring.TapStep` | src/components/BonusBalloonGame.tsx:75-84 | The last pop time becomes now. The combo continues exactly when now - lastPopTime < 1000, and then grows by one; otherwise it is 0. The score grows by the base points plus 5 times the combo as it was before the tap. |
| `ComboScoring.SlowTapResets` | src/components/BonusBalloonGame.tsx:79-81 | A tap 1000 ms or more after the last one resets the combo to 0 and adds only the base points. |
| `ComboScoring.PopTone` | src/components/BonusBalloonGame.tsx:90 | The tone is 800 Hz plus 100 Hz per level of the combo from before the tap, so the combo can be read back from the tone. |
| `ComboScoring.TapRunNeverLowers` | src/components/BonusBalloonGame.tsx:83 | Over any series of taps the score grows by at least the sum of the base points, so it never decreases. |
| `ComboScoring.RapidChain` | src/components/BonusBalloonGame.tsx:75-84 | k rapid taps from combo c raise the combo to c + k. They pay the base points plus 5 times c + (c+1) + ... + (c+k-1). |
| `ComboScoring.RapidChainBonus` | src/components/BonusBalloonGame.tsx:75-84 | The same total in closed form: twice the bonus is 5 * (2kc + k(k-1)). |
| `ComboScoring.ComboScenario` | src/components/BonusBalloonGame.tsx:75-84 | Taps of 10, 10 and 50 points at 5000, 5500 and 6200 ms, starting from combo 0 and last pop time 0, end at score 75 and combo 2. The third tap carries the only bonus, 5. |
| `Countdown.ClockTick` | src/components/BonusBalloonGame.tsx:134-141 | An inactive clock does not change. An active tick either stays active with one second less (and at least one left), or ends the round: inactive, completed, 0 left, and only from 1 second or less. |
| `Countdown.SuspendedRun` | src/components/BonusBalloonGame.tsx:114-145 | No number of ticks changes a round that is not active: the timer only runs while the game is active. |
| `Countdown.CountsDown` | src/components/BonusBalloonGame.tsx:134-141 | From n >= 1 seconds, k ticks leave n - k seconds in an active round when k < n. Otherwise they leave 0 seconds in a completed round. |
| `Countdown.RoundCompletesAfterRoundLength` | src/components/BonusBalloonGame.tsx:134-141 | From 30 seconds the round is still active with 1 second left after 29 ticks, and completed with 0 left after exactly 30. |
| `Outcome.ScoreRating` | src/components/BonusBalloonGame.tsx:158-164 | Each rating holds on exactly its score range: at least 500 Royal Master, 300 to 499 Champion, 200 to 299 Great Popper, 100 to 199 Good Job, below 100 Keep Practicing. Only at least 500 gets the crown. The colour is fixed by the tier: slate, green, blue, purple, yellow from the lowest up. |
| `Outcome.RatingMonotone` | src/components/BonusBalloonGame.tsx:158-164 | A higher score never gets a lower tier. |
| `Outcome.CanContinue` | src/components/BonusBalloonGame.tsx:168 | Continuing is offered exactly when the rating is Great Popper or higher. |
| `Outcome.PassBoundary` | src/components/BonusBalloonGame.tsx:168 | 200 passes and 199 does not; their ratings are Great Popper and Good Job. |
| `RoundEngine.Round.constructor` | src/components/BonusBalloonGame.tsx:21-27 | The initial state: no balloons, score 0, 30 seconds, combo 0, last pop time 0, neither active nor completed. |
| `RoundEngine.Round.Start` | src/components/BonusBalloonGame.tsx:59-66 | From any prior state: active, not completed, score 0, 30 seconds, combo 0, no balloons. The last pop time is unchanged. |
| `RoundEngine.Round.Pop` | src/components/BonusBalloonGame.tsx:68-91 | Only for a round that is not completed, as the only call site (:268-271) guarantees. A tap on an absent id changes nothing and plays no tone. Otherwise the score, combo and last pop time follow `TapStep` with the found balloon's points. The field loses exactly that id, and the tone uses the combo from before the tap. The score never decreases, and the clock and phase are not touched. |
| `RoundEngine.Round.Tick` | src/components/BonusBalloonGame.tsx:114-145 | While active, the field becomes the moved and filtered old field with the spawned balloon, if any, appended after it. The clock follows `ClockTick`. Score, combo and last pop time are unchanged. An inactive round, a completed one in particular, does not change. |

## Left out

- Rendering: the JSX, the icons (`getBalloonIcon`) and the styling are not modelled. They are display only.
- `playSound` and the browser audio context are not modelled. `Round.Pop` only returns the frequency it would play.
- `Math.random`, `Date.now`, `setInterval`/`clearInterval` and the `useEffect` lifetime are not modelled. The draws and the time are parameters, and the caller runs each tick by calling `Tick`.
- React's state batching and stale closures are not modelled. Each tap and each tick is one atomic update of the round state.
- Id uniqueness is not modelled: the code takes ids from `Math.random()`, which does not guarantee it. `RemoveIdAt` assumes distinct ids; everything else holds without that.
- Floating point is not modelled. Positions, speeds and draws are `real`, so no rounding happens.
- The `onComplete` and `onBack` navigation callbacks are not modelled. They belong to the hosting shell.
- BalloonField.GenerateBalloon: states the ranges of x, speed and colour. It does not state that the colour is uniform over the palette, because the draws are parameters.
