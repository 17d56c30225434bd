/** The round engine: the one mutable round state and the three things that
    change it, a start, a tap and a tick of the one-second timer. Random draws
    and the current time are passed in by the caller. */
module RoundEngine {
  import opened BalloonField
  import opened ComboScoring
  import opened Countdown

  class Round {
    var balloons: seq<Balloon>
    var score: nat
    var timeLeft: int
    var gameActive: bool
    var gameCompleted: bool
    var combo: nat
    var lastPopTime: int

    /** The round invariant: the clock stays within the round length, an active
        round has time left, a completed one has none, a round that was never
        started is as the constructor left it, and every live balloon is well
        formed. */
    ghost predicate Valid()
      reads this
    {
      && 0 <= timeLeft <= RoundLength
      && !(gameActive && gameCompleted)
      && (gameActive ==> timeLeft >= 1)
      && (gameCompleted ==> timeLeft == 0)
      && (!gameActive && !gameCompleted ==>
            balloons == [] && score == 0 && combo == 0 && timeLeft == RoundLength)
      && AllWellFormed(balloons)
    }

    function TallyOf(): Tally
      reads this
    {
      Tally(score, combo, lastPopTime)
    }

    function ClockOf(): Clock
      reads this
    {
      Clock(timeLeft, gameActive, gameCompleted)
    }

    /** The state before the first start: idle, nothing scored, a full clock. */
    constructor ()
      ensures Valid()
      ensures balloons == [] && score == 0 && timeLeft == RoundLength && combo == 0
      ensures lastPopTime == 0 && !gameActive && !gameCompleted
    {
      balloons := [];
      score := 0;
      timeLeft := RoundLength;
      gameActive := false;
      gameCompleted := false;
      combo := 0;
      lastPopTime := 0;
    }

    /** Starts or restarts a round from any state. The time of the last pop is
        kept. */
    method Start()
      modifies this
      ensures Valid()
      ensures gameActive && !gameCompleted
      ensures score == 0 && timeLeft == RoundLength && combo == 0 && balloons == []
      ensures lastPopTime == old(lastPopTime)
    {
      gameActive := true;
      score := 0;
      timeLeft := RoundLength;
      combo := 0;
      gameCompleted := false;
      balloons := [];
    }

    /** A tap on the balloon with identifier `id` at time `now`. A tap on an
        identifier that is no longer on the field changes nothing. Otherwise the
        tally advances by the combo rule and that identifier leaves the field;
        `tone` is the frequency of the sound the tap plays. Balloons can only be
        tapped while the field is drawn, which is never on a completed round. */
    method Pop(id: real, now: int) returns (tone: Option<nat>)
      requires Valid() && !gameCompleted
      modifies this
      ensures Valid()
      ensures timeLeft == old(timeLeft) && gameActive == old(gameActive)
      ensures gameCompleted == old(gameCompleted)
      ensures Find(old(balloons), id).None? ==>
        && tone.None?
        && balloons == old(balloons) && score == old(score)
        && combo == old(combo) && lastPopTime == old(lastPopTime)
      ensures Find(old(balloons), id).Some? ==>
        && TallyOf() == TapStep(old(TallyOf()), Find(old(balloons), id).value.points, now)
        && balloons == RemoveId(old(balloons), id)
        && tone == Some(PopTone(old(combo)))
      ensures score >= old(score)
    {
      var found := Find(balloons, id);
      if found.None? {
        return None;
      }
      var balloon := found.value;
      var finalPoints := balloon.points;
      var priorCombo := combo;
      if now - lastPopTime < ComboWindow {
        combo := combo + 1;
        finalPoints := finalPoints + priorCombo * ComboBonus;
      } else {
        combo := 0;
      }
      score := score + finalPoints;
      lastPopTime := now;
      RemoveIdKeepsWellFormed(balloons, id);
      balloons := RemoveId(balloons, id);
      tone := Some(PopTone(priorCombo));
    }

    /** One tick of the interval timer. While the round is active the balloons
        move and leave the field, one new balloon may be added after them, and
        the clock counts down; otherwise the timer is not running and nothing
        changes. `spawnDraw` decides the spawn and `draws` the new balloon. */
    method Tick(spawnDraw: real, draws: Draws)
      requires Valid() && (spawnDraw < SpawnChance ==> ValidDraws(draws))
      modifies this
      ensures Valid()
      ensures ClockOf() == ClockTick(old(ClockOf()))
      ensures balloons ==
        if old(gameActive) then Advance(old(balloons)) + Spawn(spawnDraw, draws)
        else old(balloons)
      ensures score == old(score) && combo == old(combo) && lastPopTime == old(lastPopTime)
      ensures old(gameCompleted) ==> balloons == old(balloons) && ClockOf() == old(ClockOf())
    {
      if !gameActive {
        return;
      }
      AdvanceKeepsWellFormed(balloons);
      balloons := Advance(balloons);
      if spawnDraw < SpawnChance {
        balloons := balloons + [GenerateBalloon(draws)];
      }
      if timeLeft <= 1 {
        gameActive := false;
        gameCompleted := true;
        timeLeft := 0;
      } else {
        timeLeft := timeLeft - 1;
      }
    }
  }

  /** A started round in which the first tick spawns a normal balloon: tapping
      it scores 10 and starts no combo, and tapping it again changes nothing. */
  method TapScenario() {
    var round := new Round();
    round.Start();
    var normal := Draws(0.5, 0.25, 0.0, 0.0, 0.0);
    round.Tick(0.0, normal);
    assert round.balloons == [GenerateBalloon(normal)] by {
      assert Advance([]) == [];
    }
    var tone := round.Pop(0.25, 5000);
    assert round.score == 10 && round.combo == 0 && tone == Some(800);
    assert round.balloons == [];
    tone := round.Pop(0.25, 5100);
    assert tone.None? && round.score == 10;
  }
}
