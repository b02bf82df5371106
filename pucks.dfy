/**
 * The puck: integration, paddle collision with an angle chosen by where the
 * paddle was struck, reflection off the top and bottom walls, and scoring with
 * the reset that follows a point.
 */
module Pucks {
  import opened Vectors
  import Lcd
  import Paddles

  const PlaySpeed: int := 450
  const StartSpeed: int := 150
  const Radius: int := 5
  /** How far beyond the radius the collision band reaches past each end of a paddle. */
  const Tolerance: int := 10

  /** `onLeft`: the puck's left edge has reached the left paddle's right face. */
  function OnLeft(x: real, leftX: real): (b: bool)
    ensures b <==> x < leftX + 10.0
  {
    x - Radius as real < leftX + (Paddles.Width / 2) as real
  }

  /** `onRight`: the puck's right edge has reached the right paddle's left face. */
  function OnRight(x: real, rightX: real): (b: bool)
    ensures b <==> rightX - 10.0 < x
  {
    x + Radius as real > rightX - (Paddles.Width / 2) as real
  }

  /** `BetweenPaddle`: the puck's centre lies strictly within 40 pixels of the paddle's centre, vertically. */
  function BetweenPaddle(y: real, paddleY: real): (b: bool)
    ensures b <==> paddleY - 40.0 < y < paddleY + 40.0
  {
    && y + Radius as real + Tolerance as real > paddleY - (Paddles.Height / 2) as real
    && y - Radius as real - Tolerance as real < paddleY + (Paddles.Height / 2) as real
  }

  /**
   * The angle a hit at height `y` on a paddle centred at `paddleY` sends the
   * puck off at: linear in the offset from the paddle's centre, pi/100 radians
   * per pixel.
   */
  function Deflection(y: real, paddleY: real, pi: real): (theta: real)
    ensures theta == (y - paddleY) * pi / 100.0
  {
    var fraction := (y - (paddleY - (Paddles.Height / 2) as real)) / Paddles.Height as real;
    assert fraction == (y - paddleY + 25.0) / 50.0;
    assert fraction * pi == (y - paddleY) * pi / 50.0 + pi / 2.0;
    fraction * pi / 2.0 - pi / 4.0
  }

  /** A registered hit on the left paddle: on its side, within its band, and not switched off. */
  function LeftHit(position: Vector, leftPosition: Vector, disableLeft: bool): (b: bool)
    ensures b <==> && !disableLeft
                   && position.x < leftPosition.x + 10.0
                   && leftPosition.y - 40.0 < position.y < leftPosition.y + 40.0
  {
    OnLeft(position.x, leftPosition.x) && BetweenPaddle(position.y, leftPosition.y) && !disableLeft
  }

  /** A registered hit on the right paddle: on its side, within its band, and not switched off. */
  function RightHit(position: Vector, rightPosition: Vector, disableRight: bool): (b: bool)
    ensures b <==> && !disableRight
                   && rightPosition.x - 10.0 < position.x
                   && rightPosition.y - 40.0 < position.y < rightPosition.y + 40.0
  {
    OnRight(position.x, rightPosition.x) && BetweenPaddle(position.y, rightPosition.y) && !disableRight
  }

  /** Velocity after a left hit: `SetAngle(theta)`, then `SetMagnitude(playSpeed)`. */
  function LeftReturn(velocity: Vector, theta: real, m: Maths): (v: Vector)
    requires velocity.magnitude.Known? && velocity.magnitude.value != 0.0
    ensures v.x == PlaySpeed as real * m.cos(theta) && v.y == PlaySpeed as real * m.sin(theta)
    ensures v.magnitude == Known(PlaySpeed as real) && v.angle == Known(theta)
  {
    SetAngleThenMagnitude(velocity, theta, PlaySpeed as real, m);
    velocity.SetAngle(theta, m).SetMagnitude(PlaySpeed as real)
  }

  /**
   * Velocity after a right hit: `SetAngle(theta)`, `x *= -1`, then
   * `SetMagnitude(playSpeed)`. The result is the left return mirrored; the
   * cached angle still says `theta`.
   */
  function RightReturn(velocity: Vector, theta: real, m: Maths): (v: Vector)
    requires velocity.magnitude.Known? && velocity.magnitude.value != 0.0
    ensures v.x == -(PlaySpeed as real * m.cos(theta)) && v.y == PlaySpeed as real * m.sin(theta)
    ensures v.magnitude == Known(PlaySpeed as real) && v.angle == Known(theta)
  {
    var aimed := velocity.SetAngle(theta, m);
    var mirrored := aimed.(x := aimed.x * -1.0);
    var mv := velocity.magnitude.value;
    assert -(mv * m.cos(theta)) * (PlaySpeed as real / mv) == -(PlaySpeed as real * m.cos(theta));
    assert mv * m.sin(theta) * (PlaySpeed as real / mv) == PlaySpeed as real * m.sin(theta);
    mirrored.SetMagnitude(PlaySpeed as real)
  }

  /** `Collide`: the left paddle is tested first, then the right, each on the velocity the previous test left. */
  function Collided(position: Vector, velocity: Vector, leftPosition: Vector, rightPosition: Vector,
                    disableLeft: bool, disableRight: bool, m: Maths): (v: Vector)
    requires velocity.magnitude.Known? && velocity.magnitude.value != 0.0
    ensures !LeftHit(position, leftPosition, disableLeft) && !RightHit(position, rightPosition, disableRight)
            ==> v == velocity
    ensures LeftHit(position, leftPosition, disableLeft) || RightHit(position, rightPosition, disableRight)
            ==> v.magnitude == Known(PlaySpeed as real)
    ensures LeftHit(position, leftPosition, disableLeft) && !RightHit(position, rightPosition, disableRight)
            ==> v == LeftReturn(velocity, Deflection(position.y, leftPosition.y, m.pi), m)
    ensures RightHit(position, rightPosition, disableRight)
            ==> v.x == -(PlaySpeed as real * m.cos(Deflection(position.y, rightPosition.y, m.pi)))
                && v.y == PlaySpeed as real * m.sin(Deflection(position.y, rightPosition.y, m.pi))
  {
    var afterLeft :=
      if LeftHit(position, leftPosition, disableLeft)
      then LeftReturn(velocity, Deflection(position.y, leftPosition.y, m.pi), m)
      else velocity;
    if RightHit(position, rightPosition, disableRight)
    then RightReturn(afterLeft, Deflection(position.y, rightPosition.y, m.pi), m)
    else afterLeft
  }

  /** The puck's edge is past the top or the bottom of the screen. */
  function AtWall(y: real): (b: bool)
    ensures b <==> !(5.0 <= y <= 235.0)
  {
    y < Radius as real || y > (Lcd.Height - Radius) as real
  }

  /** `Bounce`'s velocity: the vertical component reversed at a wall, nothing else touched. */
  function BounceVelocity(position: Vector, velocity: Vector): (v: Vector)
    ensures AtWall(position.y) ==> v.y == -velocity.y
    ensures v.x == velocity.x && v.magnitude == velocity.magnitude && v.angle == velocity.angle
    ensures !AtWall(position.y) ==> v == velocity
  {
    if AtWall(position.y) then velocity.(y := velocity.y * -1.0) else velocity
  }

  /** `Bounce`'s position: at a wall, nudged along the reflected vertical velocity for two ticks' worth. */
  function BouncePosition(position: Vector, velocity: Vector, dt: real): (p: Vector)
    ensures AtWall(position.y) ==> p.y == position.y - 2.0 * velocity.y * dt
    ensures p.x == position.x && p.magnitude == position.magnitude && p.angle == position.angle
    ensures !AtWall(position.y) ==> p == position
  {
    if AtWall(position.y)
    then position.(y := position.y + BounceVelocity(position, velocity).y * 2.0 * dt)
    else position
  }

  /** What `Score` passes to `Reset`: -1 past the right edge, 1 past the left edge, 0 (no reset) otherwise. */
  function ScoreState(x: real): (s: int)
    ensures s == -1 <==> x > (Lcd.Width + Radius) as real
    ensures s == 1 <==> x < -(Radius as real)
    ensures s == 0 <==> -(Radius as real) <= x <= (Lcd.Width + Radius) as real
  {
    var leftScores := x > (Lcd.Width + Radius) as real;
    var rightScores := x < -(Radius as real);
    if leftScores then -1 else if rightScores then 1 else 0
  }

  /** The points `Reset(state)` awards, as (left, right): a negative state is the left player's, a positive one the right's. */
  function Points(state: int): (p: (int, int))
    ensures 0 <= p.0 && 0 <= p.1 && p.0 + p.1 <= 1
    ensures p.0 == 1 <==> state < 0
    ensures p.1 == 1 <==> 0 < state
  {
    (if state < 0 then 1 else 0, if state > 0 then 1 else 0)
  }

  /** The playfield's centre, where `Reset` puts the puck. */
  const CentreX: real := (Lcd.Width / 2) as real
  const CentreY: real := (Lcd.Height / 2) as real

  /** 2^31, the constant `Reset` subtracts from each raw `random()` draw. */
  const Half: int := 0x8000_0000
  /** 2^32: `random()` returns a 32-bit unsigned value. */
  const Modulus: int := 0x1_0000_0000

  predicate IsWord(n: int) {
    0 <= n < Modulus
  }

  /**
   * The three `random()` results one serve consumes: `k` is `random() % 300`
   * for the horizontal factor, `rawY` the raw draw behind `rn`, and `rawS` the
   * raw draw behind the horizontal sign. A draw that makes `rn` zero would
   * leave nothing to normalise, so it is excluded.
   */
  datatype Draws = Draws(k: int, rawY: int, rawS: int)
  {
    predicate Valid() {
      0 <= k < 300 && IsWord(rawY) && IsWord(rawS) && rawY != Half
    }
  }

  /** `random() - 0x80000000` in unsigned 32-bit arithmetic, wrapping below zero. */
  function Unsigned(raw: int): (u: int)
    requires IsWord(raw)
    ensures IsWord(u)
    ensures Half <= raw ==> u == raw - Half
    ensures raw < Half ==> u == raw + Half
  {
    (raw - Half) % Modulus
  }

  /** The same 32 bits read as a signed (two's complement) value: the draw centred on zero. */
  function Signed(raw: int): (s: int)
    requires IsWord(raw)
    ensures -Half <= s < Half
    ensures s == raw - Half
  {
    var u := Unsigned(raw);
    if u < Half then u else u - Modulus
  }

  /** The horizontal factor `float(random() % 300) / 100 + 1`. */
  function Factor(k: int): (f: real)
    requires 0 <= k < 300
    ensures 1.0 <= f < 4.0
  {
    k as real / 100.0 + 1.0
  }

  /**
   * The direction `Reset` draws, as written: `rn` is a `uint32_t` and `sign`
   * is instantiated at the unsigned type, so neither component is ever negative.
   */
  function ServeDirectionAsWritten(d: Draws): (r: (real, real))
    requires d.Valid()
    ensures 0.0 <= r.0 && 0.0 < r.1
  {
    var rn := Unsigned(d.rawY) as real;
    var s := Sign(Unsigned(d.rawS) as real);
    assert 0.0 <= Factor(d.k) * rn;
    (Factor(d.k) * rn * s as real, rn)
  }

  /** `f * a * s` has the sign of `a` times the sign of `s`, for a positive `f` and `s` in {-1, 0, 1}. */
  lemma SignOfScaled(f: real, a: real, s: int)
    requires 0.0 < f && -1 <= s <= 1
    ensures Sign(f * a * s as real) == Sign(a) * s
  {
    if s == 1 {
      assert f * a * s as real == f * a;
    } else if s == -1 {
      assert f * a * s as real == -(f * a);
    }
  }

  /**
   * The direction the serve evidently intends, with `rn` and the sign's draw
   * read as signed values: each component's sign follows its draw, so every
   * quadrant can be served into.
   */
  function ServeDirection(d: Draws): (r: (real, real))
    requires d.Valid()
    ensures r.1 != 0.0
    ensures Sign(r.1) == Sign((d.rawY - Half) as real)
    ensures Sign(r.0) == Sign((d.rawS - Half) as real) * Sign((d.rawY - Half) as real)
  {
    var rn := Signed(d.rawY) as real;
    var s := Sign(Signed(d.rawS) as real);
    SignOfScaled(Factor(d.k), rn, s);
    (Factor(d.k) * rn * s as real, rn)
  }

  /**
   * Raw draws 0 for `rn` and 0xFFFF_FFFF for the sign call for a serve up and
   * to the left; as written the puck goes down and to the right.
   */
  lemma ServeDirectionsDiffer()
    ensures var d := Draws(0, 0, Modulus - 1);
            && ServeDirection(d).0 < 0.0 && ServeDirection(d).1 < 0.0
            && 0.0 < ServeDirectionAsWritten(d).0 && 0.0 < ServeDirectionAsWritten(d).1
  {
    var d := Draws(0, 0, Modulus - 1);
    assert Unsigned(d.rawY) == Half && Unsigned(d.rawS) == Half - 1;
    assert Factor(0) == 1.0;
  }

  /**
   * `Reset`'s new velocity for a drawn direction (sx, sy): the direction is
   * `Set`, then scaled to the serve speed. It keeps the direction's line and
   * signs; the cached angle stays stale.
   */
  function Serve(velocity: Vector, sx: real, sy: real, m: Maths): (v: Vector)
    requires m.Valid() && (sx != 0.0 || sy != 0.0)
    ensures v.magnitude == Known(StartSpeed as real) && v.angle == velocity.angle
    ensures v.x * sy == v.y * sx
    ensures Sign(v.x) == Sign(sx) && Sign(v.y) == Sign(sy)
  {
    var drawn := velocity.Set(sx, sy, m);
    assert 0.0 < sx * sx || 0.0 < sy * sy;
    assert 0.0 < m.root(sx * sx + sy * sy);
    SetMagnitudeKeepsSigns(drawn, StartSpeed as real);
    drawn.SetMagnitude(StartSpeed as real)
  }

  /** With an exact square root, every serve really moves at the serve speed, not only by its cache. */
  lemma ServeAtStartSpeed(velocity: Vector, sx: real, sy: real, m: Maths)
    requires m.Valid() && m.ExactRoot() && (sx != 0.0 || sy != 0.0)
    ensures Serve(velocity, sx, sy, m).Measured()
    ensures Serve(velocity, sx, sy, m).magnitude == Known(StartSpeed as real)
  {
    var drawn := velocity.Set(sx, sy, m);
    RemeasureMeasured(velocity.(x := sx, y := sy), m);
    assert 0.0 < sx * sx || 0.0 < sy * sy;
    assert 0.0 < m.root(sx * sx + sy * sy);
    SetMagnitudeKeepsMeasured(drawn, StartSpeed as real);
  }

  /** Served along the direction as written, the puck always leaves downward and never to the left. */
  lemma ServeAsWrittenHeadsDownRight(velocity: Vector, d: Draws, m: Maths)
    requires m.Valid() && d.Valid()
    ensures var dir := ServeDirectionAsWritten(d);
            var v := Serve(velocity, dir.0, dir.1, m);
            0.0 <= v.x && 0.0 < v.y
  {
  }

  /** Served along the intended direction, the puck leaves into the quadrant the two draws pick. */
  lemma ServeFollowsDraws(velocity: Vector, d: Draws, m: Maths)
    requires m.Valid() && d.Valid()
    ensures var dir := ServeDirection(d);
            var v := Serve(velocity, dir.0, dir.1, m);
            && Sign(v.y) == Sign((d.rawY - Half) as real)
            && Sign(v.x) == Sign((d.rawS - Half) as real) * Sign((d.rawY - Half) as real)
  {
  }

  /**
   * Integration, `Collide` and `Bounce` of one `Puck::Update`, as (position, velocity).
   * Only integration moves the puck sideways.
   */
  function Advance(position: Vector, velocity: Vector, leftPosition: Vector, rightPosition: Vector,
                   disableLeft: bool, disableRight: bool, dt: real, m: Maths): (r: (Vector, Vector))
    requires velocity.magnitude.Known? && velocity.magnitude.value != 0.0
    ensures r.0.x == position.x + velocity.x * dt
    ensures r.1.magnitude == velocity.magnitude || r.1.magnitude == Known(PlaySpeed as real)
  {
    var moved := position.AddAssign(velocity.Scale(dt));
    var aimed := Collided(moved, velocity, leftPosition, rightPosition, disableLeft, disableRight, m);
    (BouncePosition(moved, aimed, dt), BounceVelocity(moved, aimed))
  }

  class Puck {
    var position: Vector
    var velocity: Vector

    /** The velocity's cached magnitude is the serve speed or the play speed, never zero. */
    predicate Valid()
      reads this
    {
      velocity.magnitude == Known(StartSpeed as real) || velocity.magnitude == Known(PlaySpeed as real)
    }

    /** `Puck()`: `Reset(0)` on default-constructed vectors; no score is touched. */
    constructor (draws: Draws, m: Maths)
      requires m.Valid() && draws.Valid()
      ensures Valid()
      ensures position == Zeroed.Set(CentreX, CentreY, m)
      ensures velocity == Serve(Zeroed, ServeDirection(draws).0, ServeDirection(draws).1, m)
    {
      position := Zeroed.Set(CentreX, CentreY, m);
      velocity := Serve(Zeroed, ServeDirection(draws).0, ServeDirection(draws).1, m);
    }

    /** `Puck::Update`: integrate, then `Collide`, `Bounce` and `Score`, in that order. */
    method Update(left: Paddles.Paddle, right: Paddles.Paddle, disableLeft: bool, disableRight: bool,
                  dt: real, draws: Draws, m: Maths)
      requires Valid() && left != right
      requires m.Valid() && draws.Valid()
      modifies this, left`score, right`score
      ensures Valid()
      ensures var r := Advance(old(position), old(velocity), left.position, right.position,
                               disableLeft, disableRight, dt, m);
              var s := ScoreState(r.0.x);
              && (s == 0 ==> position == r.0 && velocity == r.1)
              && (s != 0 ==> position == r.0.Set(CentreX, CentreY, m) && velocity == Serve(r.1, ServeDirection(draws).0, ServeDirection(draws).1, m))
              && left.score == old(left.score) + Points(s).0
              && right.score == old(right.score) + Points(s).1
    {
      position := position.AddAssign(velocity.Scale(dt));
      Collide(left, right, disableLeft, disableRight, m);
      Bounce(dt);
      Score(left, right, draws, m);
    }

    /** `Collide`: deflect off whichever paddle registers a hit, renormalising to the play speed. */
    method Collide(left: Paddles.Paddle, right: Paddles.Paddle, disableLeft: bool, disableRight: bool, m: Maths)
      requires Valid()
      modifies this`velocity
      ensures Valid()
      ensures velocity == Collided(position, old(velocity), left.position, right.position,
                                   disableLeft, disableRight, m)
    {
      if LeftHit(position, left.position, disableLeft) {
        velocity := velocity.SetAngle(Deflection(position.y, left.position.y, m.pi), m);
        velocity := velocity.SetMagnitude(PlaySpeed as real);
      }
      if RightHit(position, right.position, disableRight) {
        velocity := velocity.SetAngle(Deflection(position.y, right.position.y, m.pi), m);
        velocity := velocity.(x := velocity.x * -1.0);
        velocity := velocity.SetMagnitude(PlaySpeed as real);
      }
    }

    /** `Bounce`: reflect off the top or bottom wall and push the puck back from it. */
    method Bounce(dt: real)
      modifies this
      ensures velocity == BounceVelocity(old(position), old(velocity))
      ensures position == BouncePosition(old(position), old(velocity), dt)
    {
      if position.y < Radius as real || position.y > (Lcd.Height - Radius) as real {
        velocity := velocity.(y := velocity.y * -1.0);
        position := position.(y := position.y + velocity.y * 2.0 * dt);
      }
    }

    /** `Score`: past either side edge, reset with the scoring side's state. */
    method Score(left: Paddles.Paddle, right: Paddles.Paddle, draws: Draws, m: Maths)
      requires left != right && m.Valid() && draws.Valid()
      requires Valid()
      modifies this, left`score, right`score
      ensures Valid()
      ensures var s := ScoreState(old(position.x));
              && (s == 0 ==> position == old(position) && velocity == old(velocity))
              && (s != 0 ==> position == old(position).Set(CentreX, CentreY, m)
                             && velocity == Serve(old(velocity), ServeDirection(draws).0, ServeDirection(draws).1, m))
              && left.score == old(left.score) + Points(s).0
              && right.score == old(right.score) + Points(s).1
    {
      var leftScores := position.x > (Lcd.Width + Radius) as real;
      var rightScores := position.x < -(Radius as real);
      if leftScores || rightScores {
        Reset(if leftScores then -1 else if rightScores then 1 else 0, left, right, draws, m);
      }
    }

    /** `Reset(state)`: award the point `state` names, centre the puck and serve from the draws. */
    method Reset(state: int, left: Paddles.Paddle, right: Paddles.Paddle, draws: Draws, m: Maths)
      requires left != right && m.Valid() && draws.Valid()
      modifies this, left`score, right`score
      ensures Valid()
      ensures left.score == old(left.score) + Points(state).0
      ensures right.score == old(right.score) + Points(state).1
      ensures position == old(position).Set(CentreX, CentreY, m)
      ensures velocity == Serve(old(velocity), ServeDirection(draws).0, ServeDirection(draws).1, m)
    {
      if state > 0 { right.score := right.score + 1; }
      if state < 0 { left.score := left.score + 1; }
      position := position.Set(CentreX, CentreY, m);
      var (sx, sy) := ServeDirection(draws);
      velocity := velocity.Set(sx, sy, m);
      velocity := velocity.SetMagnitude(StartSpeed as real);
    }
  }

  /** A strike at the paddle's centre leaves at angle 0; its ends at -pi/4 (top) and pi/4 (bottom). */
  /** A strike at the centre leaves straight; strikes at the paddle's ends leave at -pi/4 and pi/4. */
  lemma DeflectionCentreAndEnds(paddleY: real, pi: real)
    ensures Deflection(paddleY, paddleY, pi) == 0.0
    ensures Deflection(paddleY - (Paddles.Height / 2) as real, paddleY, pi) == -pi / 4.0
    ensures Deflection(paddleY + (Paddles.Height / 2) as real, paddleY, pi) == pi / 4.0
  {
  }

  /** The lower the strike, the larger the angle. */
  lemma DeflectionIncreasing(y1: real, y2: real, paddleY: real, pi: real)
    requires 0.0 < pi && y1 < y2
    ensures Deflection(y1, paddleY, pi) < Deflection(y2, paddleY, pi)
  {
    MulStrictMonotone(y1 - paddleY, y2 - paddleY, pi);
  }

  /** Multiplying by a positive number keeps a strict order. */
  lemma MulStrictMonotone(a: real, b: real, c: real)
    requires a < b && 0.0 < c
    ensures a * c < b * c
  {
    assert 0.0 < (b - a) * c;
  }

  /** Multiplying by a positive number keeps an order. */
  lemma MulMonotone(a: real, b: real, c: real)
    requires a <= b && 0.0 < c
    ensures a * c <= b * c
  {
    assert 0.0 <= (b - a) * c;
  }

  /** A strike on the paddle's own 50 pixels leaves within [-pi/4, pi/4]. */
  lemma DeflectionOnPaddle(y: real, paddleY: real, pi: real)
    requires 0.0 < pi
    requires paddleY - (Paddles.Height / 2) as real <= y <= paddleY + (Paddles.Height / 2) as real
    ensures -pi / 4.0 <= Deflection(y, paddleY, pi) <= pi / 4.0
  {
    var t := (y - paddleY) * pi;
    MulMonotone(-25.0, y - paddleY, pi);
    MulMonotone(y - paddleY, 25.0, pi);
    assert Deflection(y, paddleY, pi) == t / 100.0;
  }

  /**
   * Anywhere in the collision band, which reaches 15 pixels past each end of
   * the paddle, the angle lies strictly within (-2pi/5, 2pi/5).
   */
  lemma DeflectionInBand(y: real, paddleY: real, pi: real)
    requires 0.0 < pi && BetweenPaddle(y, paddleY)
    ensures -2.0 * pi / 5.0 < Deflection(y, paddleY, pi) < 2.0 * pi / 5.0
  {
    DeflectionWithin(y, paddleY, pi, 40.0);
  }

  /** Strikes less than `k` pixels from the centre leave at less than k pi/100 either way. */
  lemma DeflectionWithin(y: real, paddleY: real, pi: real, k: real)
    requires 0.0 < pi && -k < y - paddleY < k
    ensures -k * pi / 100.0 < Deflection(y, paddleY, pi) < k * pi / 100.0
  {
    MulStrictMonotone(-k, y - paddleY, pi);
    MulStrictMonotone(y - paddleY, k, pi);
  }

  /** With the paddles where the match puts them, the puck can never be on both sides at once. */
  lemma SidesExclusive(x: real)
    ensures !(OnLeft(x, Paddles.Border as real) && OnRight(x, (Lcd.Width - Paddles.Border) as real))
  {
  }

  /**
   * A strike at the dead centre of either paddle returns the puck horizontally
   * at the play speed: rightward off the left paddle, leftward off the right one.
   */
  lemma CentreStrike(velocity: Vector, paddleY: real, m: Maths)
    requires velocity.magnitude.Known? && velocity.magnitude.value != 0.0
    requires m.cos(0.0) == 1.0 && m.sin(0.0) == 0.0
    ensures var theta := Deflection(paddleY, paddleY, m.pi);
            && LeftReturn(velocity, theta, m).x == PlaySpeed as real
            && LeftReturn(velocity, theta, m).y == 0.0
            && RightReturn(velocity, theta, m).x == -(PlaySpeed as real)
            && RightReturn(velocity, theta, m).y == 0.0
  {
    DeflectionCentreAndEnds(paddleY, m.pi);
    var theta := Deflection(paddleY, paddleY, m.pi);
    assert m.cos(theta) == 1.0 && m.sin(theta) == 0.0;
    assert PlaySpeed as real * m.cos(theta) == PlaySpeed as real;
    assert PlaySpeed as real * m.sin(theta) == 0.0;
  }

  /** A hit leaves the puck moving exactly at the play speed when the library's cos and sin are exact. */
  lemma HitAtPlaySpeed(velocity: Vector, theta: real, m: Maths)
    requires velocity.magnitude.Known? && velocity.magnitude.value != 0.0 && m.UnitCircle(theta)
    ensures LeftReturn(velocity, theta, m).Measured()
    ensures RightReturn(velocity, theta, m).Measured()
  {
    var c, s := m.cos(theta), m.sin(theta);
    calc {
      (450.0 * c) * (450.0 * c) + (450.0 * s) * (450.0 * s);
      == 450.0 * 450.0 * (c * c + s * s);
      == 450.0 * 450.0;
    }
  }

  /**
   * A tick awards at most one point: the left player's past the right edge,
   * the right player's past the left edge, and none in between.
   */
  lemma AtMostOnePoint(x: real)
    ensures var p := Points(ScoreState(x));
            && (p == (1, 0) <==> x > (Lcd.Width + Radius) as real)
            && (p == (0, 1) <==> x < -(Radius as real))
            && (p == (0, 0) <==> -(Radius as real) <= x <= (Lcd.Width + Radius) as real)
  {
  }

  /**
   * A puck at the top wall heading up (vertical velocity -v) comes out of the
   * bounce heading down at v, pushed 2 v dt away from the wall.
   */
  lemma TopWallBounce(position: Vector, velocity: Vector, v: real, dt: real)
    requires position.y < Radius as real && velocity.y == -v
    ensures BounceVelocity(position, velocity).y == v
    ensures BouncePosition(position, velocity, dt).y == position.y + 2.0 * v * dt
    ensures BounceVelocity(position, velocity).x == velocity.x
  {
  }

  /** A bounce keeps an exactly measured velocity exactly measured. */
  lemma BounceKeepsMeasured(position: Vector, velocity: Vector)
    requires velocity.Measured()
    ensures BounceVelocity(position, velocity).Measured()
  {
  }
}
