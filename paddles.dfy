/**
 * The paddles: vertical position driven by two keys or by the tracking
 * controller, clamped so that the paddle stays on screen.
 */
module Paddles {
  import opened Vectors
  import Lcd

  const Width: int := 10
  const Height: int := 50
  /** Horizontal distance from a screen edge to a paddle's centre. */
  const Border: int := Width / 2 + 10
  const Speed: int := 300
  const AutoSpeed: int := 200

  /** Highest and lowest centre a paddle may have (integer halves, as in the source). */
  const Top: real := (Height / 2) as real
  const Bottom: real := (Lcd.Height - Height / 2) as real

  /** The post-move clamp: the nearest centre that keeps the whole paddle on screen. */
  function Clamp(y: real): (r: real)
    ensures Top <= r <= Bottom
    ensures Top <= y <= Bottom ==> r == y
    ensures y < Top ==> r == Top
    ensures Bottom < y ==> r == Bottom
  {
    if y < Top then Top else if y > Bottom then Bottom else y
  }

  /** The manual policy: up (-1) wins over down (+1); neither held holds still. */
  function ManualDirection(up: bool, down: bool): (d: int)
    ensures d == -1 <==> up
    ensures d == 1 <==> !up && down
    ensures d == 0 <==> !up && !down
  {
    if up then -1 else if down then 1 else 0
  }

  /** The puck is heading for this paddle's side: `sign(paddle.x - puck.x) == sign(puck.velocity.x)`. */
  function Approaching(paddleX: real, puckX: real, puckVx: real): (b: bool)
    ensures b <==> || (puckX < paddleX && 0.0 < puckVx)
                   || (paddleX < puckX && puckVx < 0.0)
                   || (paddleX == puckX && puckVx == 0.0)
  {
    Sign(paddleX - puckX) == Sign(puckVx)
  }

  /**
   * The tracking step toward a target `gap` away (target minus paddle) when one
   * tick covers `reach`: move only when the target lies beyond the reach.
   */
  function TrackDirection(gap: real, reach: real): (d: int)
    ensures d == -1 <==> gap < -reach
    ensures d == 1 <==> -reach <= gap && reach < gap
    ensures 0.0 <= reach ==> (d == 0 <==> -reach <= gap <= reach)
  {
    if gap < -reach then -1 else if gap > reach then 1 else 0
  }

  /** The direction of one `Update`, in either mode; `speed` is the value before the update. */
  function Direction(isAuto: bool, up: bool, down: bool, position: Vector,
                     puckPosition: Vector, puckVelocity: Vector, speed: int, dt: real): (d: int)
    ensures -1 <= d <= 1
    ensures !isAuto ==> d == ManualDirection(up, down)
    ensures isAuto && d != 0 ==> Approaching(position.x, puckPosition.x, puckVelocity.x)
    ensures isAuto && d == -1 ==> puckPosition.y - position.y < -(speed as real * dt)
    ensures isAuto && d == 1 ==> puckPosition.y - position.y > speed as real * dt
  {
    if !isAuto then ManualDirection(up, down)
    else if Approaching(position.x, puckPosition.x, puckVelocity.x)
    then TrackDirection(puckPosition.y - position.y, speed as real * dt)
    else 0
  }

  /** The paddle's centre after one `Update`: `speed * dt` in the chosen direction, then clamped. */
  function NextY(isAuto: bool, up: bool, down: bool, position: Vector,
                 puckPosition: Vector, puckVelocity: Vector, speed: int, dt: real): (r: real)
    ensures Top <= r <= Bottom
    ensures var moved := position.y + speed as real * dt * Direction(isAuto, up, down, position, puckPosition, puckVelocity, speed, dt) as real;
            Top <= moved <= Bottom ==> r == moved
  {
    var d := Direction(isAuto, up, down, position, puckPosition, puckVelocity, speed, dt);
    Clamp(position.y + speed as real * dt * d as real)
  }

  class Paddle {
    var position: Vector
    var speed: int
    var score: int
    var isAuto: bool

    /**
     * `Paddle(x, up, down)` on a global object: centred vertically, score 0,
     * speed 300, and manual (static storage starts `isAuto` false).
     */
    constructor (x: real, m: Maths)
      ensures position == Zeroed.Set(x, (Lcd.Height / 2) as real, m)
      ensures speed == Speed && score == 0 && !isAuto
    {
      position := Zeroed.Set(x, (Lcd.Height / 2) as real, m);
      speed := Speed;
      score := 0;
      isAuto := false;
    }

    /**
     * `Paddle::Update`: move by the manual or the tracking policy at the current
     * speed, drop to the autonomous speed in autonomous mode, then clamp. Only
     * `position.y` and `speed` change.
     */
    method Update(up: bool, down: bool, puckPosition: Vector, puckVelocity: Vector, dt: real)
      modifies this`position, this`speed
      ensures position == old(position).(y := NextY(isAuto, up, down, old(position), puckPosition, puckVelocity, old(speed), dt))
      ensures speed == if isAuto then AutoSpeed else old(speed)
    {
      if !isAuto {
        position := position.(y := position.y + speed as real * dt * ManualDirection(up, down) as real);
      } else {
        var d := if Approaching(position.x, puckPosition.x, puckVelocity.x)
                 then TrackDirection(puckPosition.y - position.y, speed as real * dt)
                 else 0;
        position := position.(y := position.y + speed as real * dt * d as real);
        speed := AutoSpeed;
      }
      position := position.(y := Clamp(position.y));
    }
  }

  /** A manual paddle moves up only when up is held, down only when down alone is held, else holds. */
  lemma ManualStep(up: bool, down: bool, position: Vector, puckPosition: Vector, puckVelocity: Vector, speed: int, dt: real)
    requires Top <= position.y <= Bottom && 0 <= speed && 0.0 <= dt
    ensures var r := NextY(false, up, down, position, puckPosition, puckVelocity, speed, dt);
            && (up ==> r <= position.y)
            && (!up && down ==> position.y <= r)
            && (!up && !down ==> r == position.y)
  {
    var reach := speed as real * dt;
    assert 0.0 <= reach;
  }

  /** An autonomous paddle holds when the puck is heading away, or when it is within one tick's reach. */
  lemma TrackingHolds(position: Vector, puckPosition: Vector, puckVelocity: Vector, speed: int, dt: real)
    requires Top <= position.y <= Bottom && 0 <= speed && 0.0 <= dt
    requires !Approaching(position.x, puckPosition.x, puckVelocity.x)
             || -(speed as real * dt) <= puckPosition.y - position.y <= speed as real * dt
    ensures NextY(true, false, false, position, puckPosition, puckVelocity, speed, dt) == position.y
  {
    var reach := speed as real * dt;
    assert 0.0 <= reach;
  }

  /**
   * An autonomous paddle never passes its target: the target stays on the same
   * side and gets no farther away.
   */
  lemma TrackingNeverOvershoots(up: bool, down: bool, position: Vector, puckPosition: Vector,
                                puckVelocity: Vector, speed: int, dt: real)
    requires Top <= position.y <= Bottom && 0 <= speed && 0.0 <= dt
    ensures var gap := puckPosition.y - position.y;
            var gap' := puckPosition.y - NextY(true, up, down, position, puckPosition, puckVelocity, speed, dt);
            && (0.0 <= gap ==> 0.0 <= gap' <= gap)
            && (gap <= 0.0 ==> gap <= gap' <= 0.0)
  {
    var reach := speed as real * dt;
    assert 0.0 <= reach;
    var d := Direction(true, up, down, position, puckPosition, puckVelocity, speed, dt);
    var r := NextY(true, up, down, position, puckPosition, puckVelocity, speed, dt);
    assert r == Clamp(position.y + reach * d as real);
    if d == 1 {
      assert position.y + reach < puckPosition.y;
      assert r == Clamp(position.y + reach);
    } else if d == -1 {
      assert puckPosition.y < position.y - reach;
      assert r == Clamp(position.y - reach);
    } else {
      assert r == position.y;
    }
  }

  /**
   * When the puck approaches from farther than one tick's reach, the autonomous
   * paddle moves a full `speed * dt` toward it (unless the clamp stops it first).
   */
  lemma TrackingStep(position: Vector, puckPosition: Vector, puckVelocity: Vector, speed: int, dt: real)
    requires Approaching(position.x, puckPosition.x, puckVelocity.x) && 0 <= speed && 0.0 <= dt
    ensures var reach := speed as real * dt;
            var r := NextY(true, false, false, position, puckPosition, puckVelocity, speed, dt);
            && (puckPosition.y - position.y > reach ==> r == Clamp(position.y + reach))
            && (puckPosition.y - position.y < -reach ==> r == Clamp(position.y - reach))
  {
    var reach := speed as real * dt;
    assert reach * 1.0 == reach && reach * (-1) as real == -reach;
  }
}
