/**
 * The match: the two global paddles and the puck, and one tick of the game
 * loop (both paddles, then the puck; drawing left out).
 */
module Matches {
  import opened Vectors
  import Lcd
  import Paddles
  import Pucks

  /**
   * The keys one tick reads: each paddle's up and down keys (2nd/Alpha on the
   * left, the Up/Down arrows on the right) and the two keys that switch a
   * paddle's collision off (Right for the left paddle, Mode for the right).
   */
  datatype Keys = Keys(leftUp: bool, leftDown: bool, rightUp: bool, rightDown: bool,
                       disableLeft: bool, disableRight: bool)

  class Match {
    const left: Paddles.Paddle
    const right: Paddles.Paddle
    const puck: Pucks.Puck

    /**
     * The paddles are distinct, sit at their fixed columns, are on screen and
     * have nonnegative scores; only the left one can be autonomous; the puck's
     * cached speed is a serve or play speed.
     */
    ghost predicate Valid()
      reads this, left, right, puck
    {
      && left != right
      && puck.Valid()
      && left.position.x == Paddles.Border as real
      && right.position.x == (Lcd.Width - Paddles.Border) as real
      && Paddles.Top <= left.position.y <= Paddles.Bottom
      && Paddles.Top <= right.position.y <= Paddles.Bottom
      && 0 <= left.score && 0 <= right.score
      && !right.isAuto
    }

    /**
     * The globals `puck`, `left` and `right` in declaration order, then the
     * title screen's choice: single player makes the left paddle autonomous.
     */
    constructor (singlePlayer: bool, draws: Pucks.Draws, m: Maths)
      requires m.Valid() && draws.Valid()
      ensures Valid() && fresh(left) && fresh(right) && fresh(puck)
      ensures left.score == 0 && right.score == 0
      ensures left.isAuto == singlePlayer
      ensures left.speed == Paddles.Speed && right.speed == Paddles.Speed
      ensures left.position == Zeroed.Set(Paddles.Border as real, (Lcd.Height / 2) as real, m)
      ensures right.position == Zeroed.Set((Lcd.Width - Paddles.Border) as real, (Lcd.Height / 2) as real, m)
      ensures puck.position == Zeroed.Set(Pucks.CentreX, Pucks.CentreY, m)
      ensures puck.velocity == Pucks.Serve(Zeroed, Pucks.ServeDirection(draws).0, Pucks.ServeDirection(draws).1, m)
      ensures puck.velocity.magnitude == Known(Pucks.StartSpeed as real)
    {
      puck := new Pucks.Puck(draws, m);
      left := new Paddles.Paddle(Paddles.Border as real, m);
      right := new Paddles.Paddle((Lcd.Width - Paddles.Border) as real, m);
      new;
      left.isAuto := singlePlayer;
    }

    /**
     * One frame's simulation: `left.Update()`, `right.Update()`, `puck.Update()`.
     * Both paddles move by `NextY` against the puck as it was before the frame;
     * the puck then advances and collides against the paddles' new positions.
     * The paddles stay on screen, each paddle's score rises by at most one and
     * the two together by at most one, and an autonomous paddle ends at the
     * autonomous speed.
     */
    method Tick(keys: Keys, dt: real, draws: Pucks.Draws, m: Maths)
      requires Valid() && m.Valid() && draws.Valid()
      modifies left, right, puck
      ensures Valid()
      ensures left.position == old(left.position).(y := Paddles.NextY(left.isAuto, keys.leftUp, keys.leftDown,
                old(left.position), old(puck.position), old(puck.velocity), old(left.speed), dt))
      ensures right.position == old(right.position).(y := Paddles.NextY(right.isAuto, keys.rightUp, keys.rightDown,
                old(right.position), old(puck.position), old(puck.velocity), old(right.speed), dt))
      ensures var r := Pucks.Advance(old(puck.position), old(puck.velocity), left.position, right.position,
                                     keys.disableLeft, keys.disableRight, dt, m);
              var s := Pucks.ScoreState(r.0.x);
              var dir := Pucks.ServeDirection(draws);
              && (s == 0 ==> puck.position == r.0 && puck.velocity == r.1)
              && (s != 0 ==> puck.position == r.0.Set(Pucks.CentreX, Pucks.CentreY, m)
                             && puck.velocity == Pucks.Serve(r.1, dir.0, dir.1, m))
              && left.score == old(left.score) + Pucks.Points(s).0
              && right.score == old(right.score) + Pucks.Points(s).1
      ensures left.isAuto == old(left.isAuto)
      ensures left.isAuto ==> left.speed == Paddles.AutoSpeed
      ensures !left.isAuto ==> left.speed == old(left.speed)
      ensures right.speed == old(right.speed)
      ensures old(left.score) <= left.score && old(right.score) <= right.score
      ensures left.score + right.score <= old(left.score) + old(right.score) + 1
      ensures left.score + right.score != old(left.score) + old(right.score)
              ==> puck.position.x == Pucks.CentreX && puck.position.y == Pucks.CentreY
                  && puck.velocity.magnitude == Known(Pucks.StartSpeed as real)
    {
      left.Update(keys.leftUp, keys.leftDown, puck.position, puck.velocity, dt);
      right.Update(keys.rightUp, keys.rightDown, puck.position, puck.velocity, dt);
      puck.Update(left, right, keys.disableLeft, keys.disableRight, dt, draws, m);
    }
  }
}
