# Scrolling platformer: a Dafny model of the game loop

The program is a small raylib platformer in a single file,
`Project2/Project2/main.cpp`. Each frame runs the following, in order:

- **Dash.** Tick the dash and cooldown timers, and start a dash on `Z`.
- **Move and jump.** Move on `LEFT`/`RIGHT` and jump on `SPACE`. The player has at most two jumps.
- **Gravity.** Apply gravity.
- **Platforms.** Resolve the player against every platform. Each moving platform then takes one step and bounces at the ends of its travel range.
- **Fall-out and flag.** Respawn a player that fell below the screen, and latch the win flag on contact.
- **Particles.** Age the particle pool and prune the dead particles.

A dash and a double jump each emit a burst of 20 particles. The pool is capped at 100.

The model has six modules:

- `Raylib`: the raylib value types used (vector, rectangle, colour) and the axis-aligned overlap test.
- `Particles`: the particle record and `AddParticle`. It also holds the burst loop, the per-frame ageing and the stable prune.
- `PlayerPhysics`: the player record, `ResetPlayer`'s spawn state, and each input phase of a frame as a function on the player value.
- `Platforms`: the platform record and the oscillation of moving platforms.
- `Collision`: the least-penetration response against one platform, and the loop over all platforms against the frame's player rectangle.
- `Platformer`: the state `main` owns. This is the player, the platform vector (an array updated in place), the flag and the particle vector. The class `Game` holds it, and its methods mirror the sections of the loop body. Each method is proved against the functions above.

Properties proved include:

- the particle cap, and the exact contents of a burst;
- prune membership, stability and identity;
- the player invariant: jump count in `0..2`, speed equal to the dash speed exactly while dashing, always alive;
- dash duration and cooldown over any run of frames, whatever keys are pressed while the cooldown runs;
- separation after a collision response;
- the envelope a moving platform stays in;
- the flag latch across frames.

The source checks a platform's range *after* moving it. A platform can therefore pass `startPos ± moveDistance` by up to one velocity step before it turns round. The model proves the bound `moveDistance + |velocity|` (`StaysNearTravelRange`). `SecondPlatformFrames` and `OvershootsTravelRange` show that the level's second platform, starting at x = 200, reaches 302 on frame 51 against a range end of 300.

## Model

| member | source | states |
|---|---|---|
| Particles.NewParticle | Project2/Project2/main.cpp:54-60 | A new particle sits at the given position with the given colour and life 1. Each velocity component is in [-2, 2]. Rotation is a whole number in [0, 359] and size a whole number in [2, 6]. |
| Particles.Spawn | Project2/Project2/main.cpp:52-63 | Below the cap of 100 the pool grows by exactly one particle, appended after the unchanged old pool. At the cap it is unchanged. |
| Particles.Burst | Project2/Project2/main.cpp:134 | A burst of calls grows a pool of at most 100 to min(old size + calls, 100). It leaves a full pool unchanged and never alters the existing particles. |
| Particles.BurstAppends | Project2/Project2/main.cpp:134 | The k-th particle a burst adds is the particle built from the k-th call's draws. |
| Particles.AlphaOf | Project2/Project2/main.cpp:234 | When life*255 is in [0, 256), alpha is its truncation. When it is in (-1, 0), alpha is 0, as truncation toward zero gives. |
| Particles.Prune | Project2/Project2/main.cpp:236 | After the prune every particle has positive life, and the pool never grows. |
| Particles.PruneMembers | Project2/Project2/main.cpp:236 | A particle is in the pruned pool exactly when it was in the pool with positive life. |
| Particles.PruneAppend | Project2/Project2/main.cpp:236 | The prune is stable: it distributes over concatenation, so the survivors keep their order. |
| Particles.PruneIdentity | Project2/Project2/main.cpp:236 | The prune leaves the pool unchanged exactly when every particle is alive. |
| PlayerPhysics.TickDash | Project2/Project2/main.cpp:119-126 | The cooldown decreases by dt only while positive. A dash continues exactly while its timer minus dt stays positive, and on ending it restores speed 5. Position, velocity, jumps and aliveness are untouched. |
| PlayerPhysics.DashPhase | Project2/Project2/main.cpp:119-135 | Z after a non-positive ticked cooldown sets dashing, speed 15, timer 0.2 and cooldown 1. Otherwise only the timers tick. Preserves the player invariant. |
| PlayerPhysics.MoveHorizontal | Project2/Project2/main.cpp:137-145 | Only x changes. Under the invariant, RIGHT adds and LEFT subtracts the speed in force, so both keys together cancel. |
| PlayerPhysics.JumpPhase | Project2/Project2/main.cpp:147-157 | SPACE below two jumps sets vertical velocity -10 and counts a jump; otherwise the player is unchanged. Nothing else changes, and the count stays within 0..2. |
| PlayerPhysics.SteerKeepsInv | Project2/Project2/main.cpp:117-161 | The input phases and gravity keep the player invariant: jumps in 0..2, alive, speed 15 exactly while dashing, and a dash has time left. |
| PlayerPhysics.DashGate | Project2/Project2/main.cpp:128-135 | The dash burst is emitted exactly when Z is pressed and the decremented cooldown is not positive. It is emitted at the pre-move player centre and comes with the full dash state. Without it the dash state is just the ticked timers. |
| PlayerPhysics.JumpGate | Project2/Project2/main.cpp:148-157 | A jump (and its sound) fires exactly on SPACE below the jump limit. The burst goes with the jump that makes the count 2, at the moved player's centre. |
| PlayerPhysics.SteerVertical | Project2/Project2/main.cpp:159-161 | The new vertical velocity is the old one, or -10 after a jump, plus gravity 0.5. The position moves by that new velocity. |
| PlayerPhysics.SteerHorizontal | Project2/Project2/main.cpp:137-145 | The horizontal step is the speed set by the dash section of the same frame. |
| PlayerPhysics.FallOut | Project2/Project2/main.cpp:217-220 | Below y = 550 the player respawns at the ResetPlayer state; otherwise it is unchanged. Afterwards y is never below 550, and the invariant is kept. |
| PlayerPhysics.DashLastsItsTime | Project2/Project2/main.cpp:119-126 | Over any run of non-negative frame times, a dash lasts exactly while the elapsed time is below the timer it had. Meanwhile the timer is reduced by the elapsed time; once it ends, speed is 5. |
| PlayerPhysics.CooldownLastsItsTime | Project2/Project2/main.cpp:119-129 | A positive cooldown refuses Z exactly until the elapsed frame time reaches it. |
| PlayerPhysics.ZRefusedDuringCooldown | Project2/Project2/main.cpp:119-135 | While the elapsed time stays below a positive cooldown, the dash section with any pattern of Z presses equals the timers ticking with Z never pressed. So the two lemmas above hold whatever keys are pressed, including right after a dash starts. |
| Platforms.MovePlatform | Project2/Project2/main.cpp:197-209 | A moving platform shifts by its velocity. Each velocity component is negated exactly when the new origin on that axis is outside start ± moveDistance. Static platforms and all other fields are unchanged. |
| Platforms.MoveKeepsBounded | Project2/Project2/main.cpp:197-209 | One step keeps a platform within one velocity step of its range, heading back when outside it, and keeps each speed. |
| Platforms.StaysNearTravelRange | Project2/Project2/main.cpp:197-209 | After any number of frames a moving platform is within moveDistance + abs(velocity) of its start on each axis. |
| Platforms.SecondPlatformFrames | Project2/Project2/main.cpp:101 | Starting from the level, the second platform is at x = 200 + 2n after n frames, for n up to 50, still moving right. |
| Platforms.OvershootsTravelRange | Project2/Project2/main.cpp:198-208 | From the level's start, the second platform is at x = 302 after 51 frames, past its range end of 300, and only then reverses. So the range end is not a bound on a reachable state. |
| Collision.Depths | Project2/Project2/main.cpp:168-173 | The rectangles overlap exactly when all four penetration depths are positive. |
| Collision.ResolveSide | Project2/Project2/main.cpp:175-194 | Ties go by the source's test order top, bottom, left, right. Top is chosen iff the top depth is the least; bottom iff it is least and strictly below top; and so on. |
| Collision.Collide | Project2/Project2/main.cpp:168-195 | Without overlap nothing changes. Top lands the player on the platform, stopped, with jumps reset. Bottom puts it just under the platform, stopped. Left and right move only x. Afterwards a player-sized box no longer overlaps the platform, and dash state, speed and horizontal velocity are never touched. |
| Collision.CollideAll | Project2/Project2/main.cpp:167-210 | Against the frame's fixed rectangle the jump count is unchanged or 0, and the non-collision fields are untouched. With no overlap the player is unchanged, and the invariant is kept. |
| Collision.RestingStaysOnTop | Project2/Project2/main.cpp:159-184 | Take a player at rest on top of a platform, overlapping it horizontally by at least the gravity step (0.5) on each side. After a frame with no key pressed and the response to that platform, it is back on top, at rest, with its jumps reset. The result meets the same conditions, so the player rests there frame after frame. With less overlap a side response can win instead. |
| Platformer.Game.constructor | Project2/Project2/main.cpp:86-111 | Initial state: the spawn player, the five level platforms, the flag at (1400, 150) not reached, no particles. The state invariant holds. |
| Platformer.Game.ResetPlayer | Project2/Project2/main.cpp:66-75 | The player becomes the spawn state. |
| Platformer.Game.AddParticle | Project2/Project2/main.cpp:52-63 | The pool becomes Spawn of the old pool. |
| Platformer.Game.EmitBurst | Project2/Project2/main.cpp:134 | The 20-call loop leaves the pool as Burst of the old pool. |
| Platformer.Game.TickTimers | Project2/Project2/main.cpp:118-126 | The player becomes TickDash of the old player. |
| Platformer.Game.UpdateDash | Project2/Project2/main.cpp:118-135 | The player becomes DashPhase of the old player. The pool gets a burst exactly when a dash starts. |
| Platformer.Game.MovePlayer | Project2/Project2/main.cpp:137-145 | The player becomes MoveHorizontal of the old player. |
| Platformer.Game.HandleJump | Project2/Project2/main.cpp:147-157 | The player becomes JumpPhase of the old player. The sound count rises exactly on a jump, and the burst comes with the second jump. |
| Platformer.Game.SteerPlayer | Project2/Project2/main.cpp:118-161 | Player, pool and sound count become what Steer and its two bursts give. |
| Platformer.Game.CollidePlatform | Project2/Project2/main.cpp:168-195 | The player becomes Collide against one platform with the frame's rectangle. |
| Platformer.Game.MovePlatformAt | Project2/Project2/main.cpp:197-209 | The platform array changes only at index i, where it becomes MovePlatform of the old element. |
| Platformer.Game.ResolvePlatforms | Project2/Project2/main.cpp:167-210 | The player becomes CollideAll over the old platforms, and every platform becomes MovePlatform of itself. |
| Platformer.Game.UpdateParticles | Project2/Project2/main.cpp:229-236 | The pool becomes the prune of the aged pool. |
| Platformer.Game.AgeParticles | Project2/Project2/main.cpp:230-235 | Each particle moves by its velocity, loses dt of life and fades, in place. |
| Platformer.Game.RemoveDead | Project2/Project2/main.cpp:236 | The in-place compaction and truncation leave exactly the prune of the old pool. |
| Platformer.Game.UpdateWorld | Project2/Project2/main.cpp:117-227 | Steering, collisions against the pre-collision rectangle, platform motion, fall-out and the flag test, tested with that same stale rectangle. Keeps the player invariant and every platform bounded. |
| Platformer.Game.Step | Project2/Project2/main.cpp:114-236 | One frame. While running it composes the phases above and then updates the particles; otherwise only the particles are updated. Keeps the state invariant: player invariant, platforms bounded, at most 100 particles, all alive. |
| Platformer.Game.Run | Project2/Project2/main.cpp:114-236 | Over any run of frames the state invariant holds. Once the flag is reached, player, flag, platforms and sound count never change again. |

## Left out

- Drawing, the camera, the window, audio playback and `SetTargetFPS` are not modelled. The jump sound is a ghost counter of `PlaySound` calls.
- Keyboard state and `GetFrameTime()` are parameters of each frame.
- `rand()` is not modelled. Each accepted `AddParticle` call takes its four results as a `Draw` parameter, in the order the source draws them.
- Floats are real numbers, so IEEE rounding is not modelled. This includes the `0.2f` dash time, which is not exactly representable. `fminf`'s NaN handling is not modelled either.
- `(unsigned char)(life * 255)` truncates toward zero. It is undefined in C++ at -1 or below and at 256 or above; `AlphaOf` yields 0 there and on (-1, 0), where C++ also gives 0.
- `CheckCollisionRecs` is raylib code that is not part of this model. It is modelled as raylib's strict overlap test on the rectangles' edges.
- The `Spike` struct is declared but never used, and is not modelled.
- `onGround` is assigned but never read, and is not modelled.
- Nothing ever clears `isAlive`. The "You Died" screen and its ENTER restart are therefore unreachable and are not modelled; `Inv` records that the player is always alive.
- `maxJumps`, `dashSpeed`, `dashTime` and `dashCooldown` are struct fields that are never assigned. They are module constants here.
- The loop's exit on window close is modelled as a finite sequence of frames given to `Run`.
