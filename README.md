# Pong84 game-state core in Dafny

This project models the simulation core of Pong84, a Pong game for the TI-84 Plus CE calculator, as written in `src/main.cpp`. A match has two paddles and one puck. On every frame the left paddle is updated, then the right paddle, then the puck. A paddle moves under two keys, or under a tracking controller when the left paddle is autonomous in single-player mode, and is then clamped to the screen. The puck is integrated, deflected off a paddle at an angle set by where it struck, reflected off the top and bottom walls, and, past a side edge, scores a point and is re-served from the centre.

Layout, one module per part of the source:

- `lcd.dfy`, module `Lcd`: the screen size, 320 by 240.
- `vectors.dfy`, module `Vectors`: the `sign` template and the `Vector` struct. `Vector` is a value type, so every member that assigns the struct's fields in place is a function that returns the updated vector, and the owning object stores it back. The cached `magnitude` and `angle` fields are `Slot`s: `Known(r)`, or `Indeterminate` where the source leaves them uninitialised (the default constructor and the arithmetic operators). The library calls `powf`, `atan`, `cos`, `sin` and `M_PI` are fields of a `Maths` value passed in as a parameter. Two facts about them, that pi is positive and that the root of a positive number is positive, make up `Maths.Valid()`. `Pucks.Serve`, the `Puck` constructor, `Puck.Update`, `Score` and `Reset`, and the `Match` constructor and `Tick` all require it, because the serve divides by a computed root. Every other fact is a hypothesis of the lemma that needs it. The three `random()` results of a serve are inputs (`Pucks.Draws`).
- `paddles.dfy`, module `Paddles`: the paddle constants, the manual and tracking policies as functions, the `Paddle` class whose `Update` is proved against `NextY`, and the lemmas about the controller.
- `pucks.dfy`, module `Pucks`: the puck constants, the hit test, the deflection angle, the wall bounce, scoring, the serve, the `Puck` class whose methods are proved against those functions, and the lemmas about them.
- `matches.dfy`, module `Matches`: the three global objects as one `Match`, with a `Tick` that runs one frame's updates.

Floats are exact `real`s. Screen constants such as `Paddle::height / 2` are integer divisions, as in C++, giving 25, 215, 160 and 120.

The code differs from a natural reading of the game's rules in two places, and the model follows the code:

- The deflection formula maps only the paddle's own 50 pixels onto [-pi/4, pi/4] (`Pucks.DeflectionOnPaddle`). The collision band reaches 15 pixels further at each end, so a registered hit can leave at any angle strictly inside (-2pi/5, 2pi/5), that is, up to 72 degrees (`Pucks.DeflectionInBand`).
- The autonomous speed is not switched once at start-up: every autonomous `Update` writes `speed = autoSpeed` after moving, so the first autonomous tick still moves at the manual speed of 300.

## Model

| member | source | states |
|---|---|---|
| `Vectors.Sign` | src/main.cpp:10-12 | the result is -1, 0 or 1, and is 1 exactly for positive and -1 exactly for negative arguments |
| `Vectors.Vector.Make` | src/main.cpp:25 | the two-argument constructor stores the coordinates, and both cached fields agree with them |
| `Vectors.Vector.Set` | src/main.cpp:27 | new coordinates, the magnitude recomputed from them, the cached angle left stale |
| `Vectors.Vector.Remeasure` | src/main.cpp:28 | `SetMagnitude()` keeps the coordinates and angle and makes the cached magnitude current |
| `Vectors.Vector.SetMagnitude` | src/main.cpp:29 | caches the new length; both coordinates scale by new/old, so the direction line (x·y' = y·x') is kept; the angle is untouched |
| `Vectors.Vector.Reangle` | src/main.cpp:30 | `SetAngle()` keeps the coordinates and magnitude and makes the cached angle current |
| `Vectors.Vector.SetAngle` | src/main.cpp:31 | the coordinates become (m·cos θ, m·sin θ) for the cached magnitude m; the angle is set to θ and the magnitude is not written |
| `Vectors.Vector.Plus` | src/main.cpp:33 | component-wise sum, with the polar fields left uninitialised |
| `Vectors.Vector.Minus` | src/main.cpp:34 | adding `w` back to `v - w` gives `v`, with the polar fields left uninitialised |
| `Vectors.Vector.Scale` | src/main.cpp:35 | scalar multiple, with the polar fields left uninitialised |
| `Vectors.Vector.Times` | src/main.cpp:36 | component-wise product, with the polar fields left uninitialised |
| `Vectors.Vector.AddAssign` | src/main.cpp:37 | `+=` gives the same coordinates as `+` and keeps both cached fields, now stale |
| `Vectors.Vector.SubAssign` | src/main.cpp:38 | `-=` gives the same coordinates as `-` and keeps both cached fields |
| `Vectors.Vector.MulAssign` | src/main.cpp:39 | `*=` by a vector gives the same coordinates as `*` and keeps both cached fields |
| `Vectors.Vector.ScaleAssign` | src/main.cpp:40 | `*=` by a scalar gives the same coordinates as `*` and keeps both cached fields |
| `Vectors.Vector.Equals` | src/main.cpp:41 | two vectors are equal exactly when their difference is the zero vector, whatever their cached fields hold |
| `Vectors.RemeasureMeasured` | src/main.cpp:28 | with an exact square root, the magnitude `SetMagnitude()` recomputes is the true Euclidean length |
| `Vectors.SetMagnitudeKeepsMeasured` | src/main.cpp:29 | rescaling a vector whose cached magnitude is its exact length leaves the new cached magnitude exact |
| `Vectors.SetMagnitudeKeepsSigns` | src/main.cpp:29 | rescaling to a positive length keeps the sign of each coordinate |
| `Vectors.SetMagnitudeTwice` | src/main.cpp:29 | rescaling to a and then to b gives the same vector as rescaling to b |
| `Vectors.SetAngleKeepsMeasured` | src/main.cpp:31 | with cos²+sin² = 1, pointing along θ makes the cached magnitude the exact length |
| `Vectors.SetAngleThenMagnitude` | src/main.cpp:29-31 | `SetAngle(θ)` then `SetMagnitude(L)` yields (L·cos θ, L·sin θ), whatever the previous nonzero length |
| `Paddles.Clamp` | src/main.cpp:98 | the result lies in [25, 215]; values already in range are unchanged; values outside go to the nearer bound |
| `Paddles.ManualDirection` | src/main.cpp:96 | -1 exactly when up is held (up wins), +1 exactly when only down is held, 0 otherwise |
| `Paddles.TrackDirection` | src/main.cpp:97 | moves up exactly when the target is more than one tick's reach above, down exactly when it is more than one reach below; with a nonnegative reach, holds exactly inside the dead band |
| `Paddles.Approaching` | src/main.cpp:97 | `sign(paddle.x - puck.x) == sign(puck.velocity.x)` holds exactly when the puck moves toward the paddle, or both differences are zero |
| `Paddles.Direction` | src/main.cpp:96-97 | manual mode follows the keys; an autonomous move happens only when `sign(paddle.x - puck.x) == sign(puck.velocity.x)` and the gap exceeds `speed·dt` in the move's direction |
| `Paddles.NextY` | src/main.cpp:94-98 | the new centre is always in [25, 215], and it equals `y + speed·dt·d` whenever that is in range |
| `Paddles.Paddle.constructor` | src/main.cpp:81-86 | the paddle starts vertically centred at its column, with speed 300, score 0 and manual mode |
| `Paddles.Paddle.Update` | src/main.cpp:94-99 | only `position.y` and `speed` change: y becomes `NextY` computed with the speed before the update, and speed becomes 200 in autonomous mode and is unchanged otherwise |
| `Paddles.ManualStep` | src/main.cpp:96-98 | an on-screen manual paddle never moves down while up is held, never moves up while only down is held, and holds when neither key is held |
| `Paddles.TrackingHolds` | src/main.cpp:97-98 | an on-screen autonomous paddle holds when the puck is receding or is within one tick's reach |
| `Paddles.TrackingNeverOvershoots` | src/main.cpp:97-98 | after an autonomous step the puck is still on the same side of the paddle and no farther away |
| `Paddles.TrackingStep` | src/main.cpp:97-98 | when the puck approaches from beyond one tick's reach, the paddle moves a full `speed·dt` toward it, subject to the clamp |
| `Pucks.OnLeft` | src/main.cpp:136 | the puck is on the left side exactly when its centre is left of leftX + 10 (5 pixels of radius plus half the paddle) |
| `Pucks.OnRight` | src/main.cpp:137 | the puck is on the right side exactly when its centre is more than rightX - 10 |
| `Pucks.Deflection` | src/main.cpp:140 | the deflection angle equals (y - paddleY)·π/100: linear in the offset from the paddle's centre |
| `Pucks.LeftHit` | src/main.cpp:139 | a left hit registers exactly when the Right key is up, the puck's centre is left of leftX + 10, and it is within 40 pixels of it vertically |
| `Pucks.RightHit` | src/main.cpp:144 | a right hit registers exactly when the Mode key is up, the puck is past rightX - 10, and within 40 pixels of the right paddle's centre vertically |
| `Pucks.AtWall` | src/main.cpp:129 | the puck bounces exactly when its centre is outside [5, 235] |
| `Pucks.BetweenPaddle` | src/main.cpp:151-153 | true exactly when the puck's centre is strictly within 40 pixels of the paddle's centre, vertically |
| `Pucks.LeftReturn` | src/main.cpp:139-142 | a left hit leaves at (450·cos θ, 450·sin θ), with cached magnitude 450 and cached angle θ |
| `Pucks.RightReturn` | src/main.cpp:144-148 | a right hit leaves at (-450·cos θ, 450·sin θ), the mirror image of a left hit; the cached angle still says θ |
| `Pucks.Collided` | src/main.cpp:135-149 | without a registered hit the velocity is untouched; after any hit the cached magnitude is 450; a left-only hit gives the left return; a right hit gives the mirrored return |
| `Pucks.BounceVelocity` | src/main.cpp:128-133 | at a wall only the vertical velocity changes, and it is negated; away from the walls nothing changes |
| `Pucks.BouncePosition` | src/main.cpp:128-133 | at a wall y moves by -2·vy·dt, along the reflected velocity; x and the cached fields are unchanged; away from the walls nothing changes |
| `Pucks.ScoreState` | src/main.cpp:122-126 | -1 exactly when x > 325, 1 exactly when x < -5, and 0 exactly in between |
| `Pucks.Points` | src/main.cpp:155-157 | `Reset(state)` gives the left player one point exactly when state < 0, the right player one exactly when state > 0, and never more than one point in all |
| `Pucks.Unsigned` | src/main.cpp:160 | `random() - 0x80000000` in 32-bit unsigned arithmetic: the draw minus 2^31, wrapped into [0, 2^32) |
| `Pucks.Signed` | src/main.cpp:160 | the same 32 bits read as a signed value are exactly the draw minus 2^31, in [-2^31, 2^31) |
| `Pucks.Factor` | src/main.cpp:161 | the horizontal factor lies in [1, 4) |
| `Pucks.ServeDirectionAsWritten` | src/main.cpp:160-161 | as written, the drawn direction never has a negative component, and its vertical part is positive |
| `Pucks.ServeDirection` | src/main.cpp:160-161 | with signed draws, the vertical component's sign is the sign of its draw, and the horizontal component's is the product of the two draws' signs, so every quadrant can be drawn |
| `Pucks.ServeDirectionsDiffer` | src/main.cpp:160-161 | for the draws 0 and 0xFFFF_FFFF the intended serve heads up and left, while the serve as written heads down and right |
| `Pucks.Serve` | src/main.cpp:159-162 | for any nonzero drawn direction, the served velocity has cached magnitude 150, lies on the direction's line with the same signs, and keeps the stale angle |
| `Pucks.ServeAtStartSpeed` | src/main.cpp:159-162 | with an exact square root, a served puck truly moves at 150, its cached magnitude |
| `Pucks.ServeAsWrittenHeadsDownRight` | src/main.cpp:159-162 | served along the direction as written, every serve has vx >= 0 and vy > 0: down and never to the left |
| `Pucks.ServeFollowsDraws` | src/main.cpp:159-162 | served along the intended direction, vy has the sign of its draw and vx the product of the two draws' signs |
| `Pucks.Advance` | src/main.cpp:114-119 | only integration moves the puck sideways, by `vx·dt`; the velocity's cached magnitude stays as it was or becomes 450 |
| `Pucks.Puck.constructor` | src/main.cpp:104-106 | `Reset(0)` centres the puck and serves along the corrected direction at magnitude 150, without touching any score |
| `Pucks.Puck.Update` | src/main.cpp:114-120 | integrate, collide and bounce as in `Advance`, then either keep that state or reset; each score rises by that tick's `Points` |
| `Pucks.Puck.Collide` | src/main.cpp:135-149 | the velocity becomes `Collided`; the position is not written; the puck invariant (cached speed 150 or 450) is kept |
| `Pucks.Puck.Bounce` | src/main.cpp:128-133 | position and velocity become `BouncePosition` and `BounceVelocity` |
| `Pucks.Puck.Score` | src/main.cpp:122-126 | a point and a reset happen exactly past a side edge; otherwise the puck and the scores are untouched |
| `Pucks.Puck.Reset` | src/main.cpp:155-163 | the scores rise by `Points(state)`, so `Reset(0)` changes none; the puck is re-centred at (160, 120) with its angle stale, and the velocity becomes `Serve` of the draws, using the corrected signed direction (see Findings) |
| `Pucks.DeflectionCentreAndEnds` | src/main.cpp:145 | a strike at the centre leaves at angle 0; strikes at the top and bottom ends leave at -π/4 and π/4 |
| `Pucks.DeflectionIncreasing` | src/main.cpp:140 | the angle is strictly increasing in the strike height |
| `Pucks.DeflectionOnPaddle` | src/main.cpp:139-140 | strikes on the paddle's own 50 pixels leave within [-π/4, π/4] |
| `Pucks.DeflectionWithin` | src/main.cpp:145 | strikes less than k pixels from the centre leave at an angle of less than k·π/100 either way |
| `Pucks.DeflectionInBand` | src/main.cpp:151-152 | every registered hit leaves strictly within (-2π/5, 2π/5) |
| `Pucks.SidesExclusive` | src/main.cpp:136-137 | with the paddles at x = 15 and x = 305, the puck can never be on both sides at once |
| `Pucks.CentreStrike` | src/main.cpp:139-148 | a dead-centre strike returns the puck horizontally at 450: rightward off the left paddle, leftward off the right one |
| `Pucks.HitAtPlaySpeed` | src/main.cpp:141 | with cos²+sin² = 1, a hit leaves the puck moving at exactly 450, its cached magnitude |
| `Pucks.AtMostOnePoint` | src/main.cpp:123-125 | a tick gives exactly one of: a point to the left player (x > 325), a point to the right player (x < -5), or no point |
| `Pucks.TopWallBounce` | src/main.cpp:129-131 | a puck past the top wall with vertical velocity -v leaves with +v, pushed 2·v·dt down, and its vx is unchanged |
| `Pucks.BounceKeepsMeasured` | src/main.cpp:130 | negating vy keeps an exact cached magnitude exact |
| `Matches.Match.constructor` | src/main.cpp:101-102 | paddles set to (15, 120) and (305, 120) with speed 300 and score 0, the puck at (160, 120) served along the corrected direction at 150; in single player the left paddle is autonomous |
| `Matches.Match.Tick` | src/main.cpp:208-216 | each paddle's y becomes `NextY` against the puck as it was before the frame; the puck then becomes `Advance` against the paddles' new positions, followed by the reset and the `Points` of its `ScoreState`; the invariant is kept (paddles on screen at fixed columns, speed 150 or 450); the scores rise by at most one point in all; an autonomous paddle ends at speed 200 |

## Left out

- Drawing: `Show`, `FillRect`, every `gfx_*` call, the title screen, the centre-line dashes and the placement of the score text. These only render the state.
- Keyboard polling (`kb_Scan`, `kb_IsDown`): each key's state is a boolean input. The paddle's `up` and `down` key fields are replaced by the booleans that `Tick` passes in.
- Timing: the `clock()`-based frame time is the input `dt`.
- Pucks.Puck.Reset: serves along the corrected `Pucks.ServeDirection`, not along the direction the code computes, so the model does not reproduce the always down-right serve (see Findings). The serve as written is `Pucks.Serve` of `Pucks.ServeDirectionAsWritten`, and `Pucks.ServeAsWrittenHeadsDownRight` states its direction.
- Pucks.Puck.constructor: its `Reset(0)` serves along the corrected `Pucks.ServeDirection`, so the first serve is not the always down-right one the code makes.
- Pucks.Puck.Update: on a scoring tick the reset serves along the corrected `Pucks.ServeDirection`, not the always down-right direction the code makes.
- Pucks.Puck.Score: its reset serves along the corrected `Pucks.ServeDirection`, not the always down-right direction the code makes.
- Matches.Match.constructor: the puck's first serve is along the corrected `Pucks.ServeDirection`, not the always down-right direction the code makes.
- Matches.Match.Tick: a scoring tick serves along the corrected `Pucks.ServeDirection`, not the always down-right direction the code makes.
- The pseudo-random generator: the three `random()` results one serve uses are the inputs `Pucks.Draws`. The draw that makes `rn` zero (exactly 0x80000000) is excluded. With it the serve would be the zero vector, and `SetMagnitude` would divide by zero.
- The library calls `powf(s, 0.5)`, `atan(y / x)`, `cos`, `sin` and `M_PI` are abstract fields of `Maths`. `Maths.Valid()` (pi > 0 and a positive root of a positive number) is required by `Pucks.Serve` and by every `Puck` and `Match` member that can serve. Lemmas that need another fact (cos²+sin² = 1, cos 0 = 1) take it as a hypothesis. `atan(y / x)` at x = 0 is folded into that abstract function.
- Floating-point rounding, infinities and NaN: all arithmetic is exact over the reals.
- Vectors.Vector.SetMagnitude: requires a cached magnitude that is assigned and not zero. At zero the source divides by zero and gets infinities or NaN. The puck's velocity always caches 150 or 450 (the `Puck` invariant), so the game never reaches that case.
- Vectors.Vector.SetAngle: requires an assigned cached magnitude, where the source would read an uninitialised float. The game's only caller, `Collide`, always has one.
- `Vectors.Zeroed` is the default-constructed vector of a global object. Static storage is zero-initialised, so all four fields start at 0. A `Vector` default-constructed elsewhere (the operators' `result`) has its cached fields `Indeterminate`.
- The debug velocity override in the main loop (the Graph and Y= keys), the quit key, and the loop itself. `Tick` is one pass of the loop's simulation calls.
- Integer widths: `score` and `speed` are unbounded integers. The 24-bit `int` of the target would overflow only after millions of points.
- The multi-tick scenario of a served puck drifting off the left edge is not stated as one lemma. Each tick's behaviour is fixed by `Pucks.Puck.Update`, and the scoring step by `Pucks.AtMostOnePoint`.

## Findings

| source | as written | input that shows it | evidently intended | confidence | as-written member | corrected member |
|---|---|---|---|---|---|---|
| src/main.cpp:160-161 | `rn` is a `uint32_t`, and `random() - 0x80000000` is unsigned, so `sign` returns only 0 or 1. Both components of the serve are nonnegative: the puck is always served down and to the right. | `random()` draws 0 for `rn` and 0xFFFF_FFFF for the sign call: the puck is served down-right | both draws read as signed values centred on zero, so the serve can head into any quadrant; here it heads up-left | high, not executed; it relies on the target's 32-bit `long`, which makes `0x80000000` an `unsigned long` whatever `random()` returns | `Pucks.ServeDirectionAsWritten` | `Pucks.ServeDirection` |
