# magnet_survival core, modelled in Dafny

A small survival game (one Go file, `main.go`, on the Ebiten engine): the
player walks with the arrow keys, and a magnetic wrecking ball (the
"weapon") keeps picking a point beyond the player and swinging toward it.
A hit costs one of three hearts and makes the player invincible, and
blinking, for five seconds. When health reaches zero the game is over
until Space is pressed again.

This project models the per-tick logic of that game:

- `player.dfy`, module `PlayerLogic`: the key precedence of
  `Player.Update` (Right beats Left, Up beats Down), the frame counter, and
  the damage / invincibility state machine. `Player` is a class whose
  `Update` changes its fields. The pure function `PlayerStep` specifies
  that method, and `DamageTick` states the damage rules.
- `sprite.dfy`, module `Sprite`: the arithmetic of `Player.Draw`. It covers
  the animation column, the row for the facing direction, the 32x32 source
  rectangle on a 33-pixel grid, and the blink frames on which the player is
  not drawn.
- `steering.dfy`, module `Steering`: the formulas of
  `Weapon.UpdateTarget`. These are the target-distance law (75 beyond the
  player, twice the offset, or 100 beyond), the rotation still to make, and
  the angular velocity per unit of travel.
- `motion.dfy`, module `Motion`: the weapon as a class with
  `UpdateTarget`, `UpdatePosition` and `Update`, each proved equal to a
  pure step on `WeaponState`. Beside them are the invariants the steps
  keep: the angle never overshoots, the arrival flag is exact, and an
  arrived weapon retargets.
- `game.dfy`, module `GameLogic`: the session. `Game` is a class with
  `Init` and `Update`, specified by `GameStep`. Lemmas over single ticks
  and over whole runs of ticks prove the session invariant: health stays
  in 0..3, the game is over exactly at health 0, and nothing changes
  after a game over until Space is pressed.

How the model reads the Go code:

- Coordinates are exact reals (`real`), not float64.
- Inside one leg every weapon step moves along `targetPos - pos`, which is
  parallel to the leg's offset `distVec`. So the weapon is kept as one
  coordinate. `progress` is the signed distance of the position from
  `startPos` toward `targetPos`, and `leg` is `|distVec|`.
- The 2-D law that gives `|distVec|` is proved separately in
  `Steering.AimOffsetLaw`.
- The square roots inside `Magnitude`/`Unit`, `math.Acos` and the cross
  product are not computed. The game supplies them per tick as an `Aim`:
  `m = |player - weapon|`, `theta`, and whether `cross.Z < 0`.
- The collision query is a boolean input.
- The clock is an integer number of milliseconds, so the 5-second window
  is `now > invincTs + 5000`.
- The player's `dirVec` is kept as the signs of its two components. The
  drawing code reads only these signs, and `Unit` keeps them.
- The literal `3.14` that the source uses for pi is kept as written
  (`Steering.RoughPi`).

## Model

| member | source | states |
|---|---|---|
| `PlayerLogic.HorizontalSign` | main.go:60-64 | the horizontal velocity is +1 exactly when Right is held, -1 exactly when Left is held without Right, else 0 |
| `PlayerLogic.VerticalSign` | main.go:66-70 | the vertical velocity is -1 exactly when Up is held, +1 exactly when Down is held without Up, else 0 |
| `PlayerLogic.DamageTick` | main.go:78-86 | health drops exactly when a collision meets a vulnerable player, and by exactly one; the hit sets invincibility stamped `now`; while invincible, health and stamp are unchanged; invincibility ends exactly when `now > invincTs + 5000`; the tick that ends it never deals damage |
| `PlayerLogic.DamageScenario` | main.go:78-86 | hit at 0 ms gives 2 hearts and invincibility; a hit at 3000 ms changes nothing; at 5001 ms invincibility is over; a hit at 6000 ms gives 1 heart |
| `PlayerLogic.PlayerStepLosesAtMostOne` | main.go:78-82 | from health in 1..3, one player update leaves health in 0..old health |
| `PlayerLogic.PlayerStep` | main.go:55-87 | one player update: the frame counter goes up by one, the direction signs follow the key precedence, and the vitals follow `DamageTick` |
| `PlayerLogic.Player.constructor` | main.go:252-257 | a new player has health 3, is not invincible, and its counters are zero |
| `PlayerLogic.Player.Update` | main.go:55-87 | the new fields are `PlayerStep` of the old ones: key signs, frame counter plus one, then `DamageTick` |
| `Sprite.FrameColumn` | main.go:90 | the animation column is in 0..5 |
| `Sprite.FrameColumnCycle` | main.go:90 | the column is `(n mod 30) / 5`: each column is shown for 5 frames and the cycle repeats every 30 |
| `Sprite.RowIndex` | main.go:91-100 | the row is in 0..4, and it is the idle row exactly when the direction is zero |
| `Sprite.RowFollowsKeys` | main.go:60-100 | after an update, the row drawn is right(1) if Right is held, else left(2), else up(4), else down(3), else idle(0) |
| `Sprite.SourceRect` | main.go:102-107 | the source rectangle is 32x32 and its origin is on the 33-pixel grid |
| `Sprite.SourceRectCell` | main.go:102 | column and row can be read back from the origin (`x0 / 33`, `y0 / 33`) |
| `Sprite.SourceRectsDisjoint` | main.go:102-107 | rectangles of distinct cells share no pixel |
| `Sprite.IsFlashFrame` | main.go:105 | a blink frame is always an invincible frame |
| `Sprite.Draw` | main.go:89-111 | Draw shows nothing exactly on a blink frame, which needs invincibility; otherwise it shows the cell of the current column and direction row |
| `Sprite.FlashFramePeriod` | main.go:105 | a blink frame is an invincible frame with `frameCount mod 20 < 10`: hidden 10 frames, shown 10 |
| `Sprite.DrawHidden` | main.go:105-111 | Draw shows nothing exactly when the player is invincible and `frameCount mod 20 < 10` |
| `Steering.TargetDistance` | main.go:143-149 | the leg length for offset `m > 0` is greater than `m` and greater than 75 |
| `Steering.TargetDistanceIncreasing` | main.go:143-149 | the leg length is strictly increasing in `m`, and between two offsets it grows by at least their difference and at most twice it, so there is no jump at 75 or 100 |
| `Steering.AimFactor` | main.go:143-149 | each branch scales `diff` by a factor `k > 1` with `k * m` equal to the leg length |
| `Steering.AimOffset` | main.go:140-149 | every branch of `distVec` is `diff` scaled by `AimFactor(m)` |
| `Steering.AimTarget` | main.go:158 | the target is the weapon's position plus the offset to the player scaled by `AimFactor(m) > 1` |
| `Steering.AimOffsetLaw` | main.go:140-158 | `distVec` is `k * diff`, has squared length `TargetDistance(m)^2`, is parallel to `diff` (zero cross product), and its projection on `diff` is `m * TargetDistance(m) > m^2`: the target lies beyond the player on the weapon-to-player ray |
| `Steering.CloseTargetExample` | main.go:140-158 | weapon at (0,0) and player at (10,0) give target (85,0) |
| `Steering.FarTargetExample` | main.go:140-158 | weapon at (0,0) and player at (0,150) give target (0,250) |
| `Steering.BandTargetDoubles` | main.go:143-149 | for `75 <= m <= 100` (the closed band, both edges included) the target is the weapon plus twice the offset |
| `Steering.QuarterMark` | main.go:156 | the quarter mark is a quarter of the leg, strictly inside a leg of positive length |
| `Steering.ThreeQuarterMark` | main.go:157 | the three-quarter mark is three times the quarter mark, strictly between the quarter mark and the end of a positive leg |
| `Steering.AngleDiff` | main.go:166-170 | the rotation is in `[0, 6.28]`: `theta` when `cross.Z >= 0`, else the rest of a turn of `2 * 3.14` |
| `Steering.AngularVelocity` | main.go:175 | the angular velocity times the quarter distance is the rotation, and it is non-negative for a non-negative rotation |
| `Motion.VelocityChange` | main.go:179-183 | velocity changes by `+acceleration` before the quarter mark, by `-acceleration` from the three-quarter mark on, by 0 in between |
| `Motion.VelocityProfileOrder` | main.go:179-183 | the change never grows with distance travelled: accelerate, cruise, decelerate in this order |
| `Motion.MoveAlong` | main.go:185-194 | closer than 2 the weapon lands exactly on the target; otherwise it moves exactly `|velocity|` and the distance left becomes `|remaining - velocity|` |
| `Motion.AngleStep` | main.go:196-202 | closer to the target angle than twice the angular velocity, the angle snaps onto it; otherwise, unless already there, it moves by exactly the angular velocity; an angle on target stays; with non-negative angular velocity it never passes the target angle nor decreases |
| `Motion.Retarget` | main.go:136-176 | a new leg starts at progress 0 and ends beyond the player; quarter mark < three-quarter mark; target angle = angle + rotation >= angle; angular velocity >= 0 and covers the rotation over the first quarter; velocity, angle and flag unchanged |
| `Motion.Advance` | main.go:178-203 | one UpdatePosition: velocity by the phase rule, then the move with the new velocity, then the angle step; nothing else changes |
| `Motion.WeaponTick` | main.go:205-214 | after every weapon update, `arrived` holds exactly when the position is the target |
| `Motion.TickKeepsLeg` | main.go:205-211 | a weapon that has not arrived keeps its leg, target angle and angular velocity |
| `Motion.ArrivedRetargets` | main.go:205-211 | an arrived weapon takes the leg and target angle from the new aim, accelerates, and takes a first step of exactly its velocity, with no snap |
| `Motion.TickKeepsInv` | main.go:196-214 | the weapon invariant holds after each update, and the angle never decreases nor passes the target angle |
| `Motion.Weapon.constructor` | main.go:271-280 | a new weapon has acceleration 0.04, velocity 0.25, is not arrived, the rest zero |
| `Motion.Weapon.UpdateTarget` | main.go:136-176 | the new fields are `Retarget` of the old ones |
| `Motion.Weapon.UpdatePosition` | main.go:178-203 | the new fields are `Advance` of the old ones |
| `Motion.Weapon.Update` | main.go:205-216 | the new fields are `WeaponTick` of the old ones |
| `GameLogic.InitState` | main.go:252-292 | init gives a running session started at `now`: full-health player; weapon targeted once with leg `TargetDistance(m)` and target angle `theta` (the first rotation is never the long way), at progress 0, acceleration 0.04, velocity 0.25, angle 0, not arrived |
| `GameLogic.GameStep` | main.go:295-309 | a session exists after a tick exactly when one existed or Space started one; without a session or after a game over only Space does anything; a session at health 0 or less is over; a restart starts the session clock at `now` |
| `GameLogic.NewGameInv` | main.go:402-407 | the game as created satisfies the session invariant |
| `GameLogic.StepKeepsInv` | main.go:295-309 | every tick keeps the session invariant: health in 0..3, game over exactly at health 0 |
| `GameLogic.StepIdle` | main.go:296-303 | before the first session or after a game over, a tick without Space changes nothing |
| `GameLogic.StepRestart` | main.go:296-303 | Space before the first session or after a game over reinitialises and plays the first tick at once (a collision on it costs a point) |
| `GameLogic.StepPlaying` | main.go:300-307 | while running, a tick updates player then weapon, ignores Space, and ends the session exactly when health reaches 0, which needs a hit at health 1 |
| `GameLogic.RunKeepsInv` | main.go:295-309 | after any sequence of ticks the session invariant still holds |
| `GameLogic.RunFrozenAfterGameOver` | main.go:295-309 | after a game over, ticks without Space change nothing: health is never decremented again |
| `GameLogic.RunHealthNeverRises` | main.go:295-309 | without Space, a running session stays initialised and health never goes up |
| `GameLogic.Game.constructor` | main.go:402-407 | a new game has no session and satisfies the invariant |
| `GameLogic.Game.Init` | main.go:230-293 | after init, fresh player and weapon, and the state is `InitState` |
| `GameLogic.Game.Update` | main.go:295-309 | the new state is `GameStep` of the old one, and the session invariant is kept |

## Left out

- Rendering and assets are not modelled: image decoding, `SubImage`/`DrawImage` calls, `Game.Draw`, `DebugVector`, `DebugDraw`, `Layout`, `NewGame`'s window size and `main`. Only the sprite-index arithmetic of `Player.Draw` is modelled.
- Keyboard polling (`ebiten.IsKeyPressed`) is not modelled; the keys are boolean inputs.
- The resolv collision library (`NewSpace`, `NewObject`, `SetShape`, `AddTags`, `obj.Update`) is an external geometry engine. `Check` is a boolean input with no geometry behind it.
- World coordinates of the player and the weapon are not modelled. The player's step of `Unit(dirVec)` involves the irrational `1/sqrt(2)` on diagonals. Both positions only feed the collision query and the weapon's `|diff|`, and both of these are inputs here.
- The weapon's heading `dirVec` (the unit vector), `math.Acos` and `Cross` are not modelled. Their results come in as `Aim.theta` and `Aim.crossNegative`. The `log.Fatal` branch of `Cross` is left out: it cannot happen for the 3-component vectors the code builds.
- Floating point is not modelled: rounding, the exact float comparisons at main.go:200 and main.go:212, NaN and Inf. The source does not clamp the argument of `Acos`, and it divides by zero when the weapon sits exactly on the player. Both cases are excluded by `Steering.AimOk` (`m > 0`, `0 <= theta <= 3.1416`). `GameStep`, `Game.Update` and the single-tick lemmas require it only on the ticks that retarget. `Run` and its lemmas require it of every tick's aim report; on a tick that does not retarget the report is never read, so this loses no behaviour.
- `Unit` of the zero vector is taken to be the zero vector, so an idle player has the zero direction.
- `GameLogic.InitState`: the first `theta` is `acos(0) = pi/2`, which has no exact real literal. It is taken from the aim report like every other `theta`. The sign of the cross product is fixed as written: the zero heading gives cross product 0.
- Wall-clock time is one integer reading per tick. `Player.Update` calls `time.Now()` twice (main.go:81 and main.go:84), and the model uses a single `now` for both. The elapsed-time display (main.go:330-336) is screen formatting and is not modelled; `gameStart` is only recorded.
- Go's 64-bit `int` is not modelled: `frameCount` is an unbounded `nat`, and its wrap-around after 2^63 ticks is not modelled.
- Liveness is not claimed: neither the weapon eventually arriving nor the angle eventually reaching its target angle. Velocity has no floor (main.go:182), so it can turn negative and carry the weapon away from its target. `Motion.MoveAlong` states the exact distance left in that case too.
