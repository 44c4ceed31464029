/** The state main() owns (player, platform list, flag, particle vector) and
    the frame loop over it. Input, frame time and rand() arrive as
    parameters; drawing, audio and the camera are not modelled, except for
    a ghost count of jump sounds played. */
module Platformer {
  import opened Raylib
  import opened Particles
  import opened PlayerPhysics
  import opened Platforms
  import opened Collision

  datatype Flag = Flag(position: Vec2, isReached: bool)

  const FLAG_WIDTH: real := 40.0
  const FLAG_HEIGHT: real := 80.0

  function FlagRect(f: Flag): Rect {
    Rect(f.position.x, f.position.y, FLAG_WIDTH, FLAG_HEIGHT)
  }

  const START_FLAG: Flag := Flag(Vec2(1400.0, 150.0), false)

  /** One frame's inputs: the frame time, the keys, and the rand() draws for
      the two bursts the frame may emit. */
  datatype Frame = Frame(dt: real, keys: Keys, dashDraws: seq<Draw>, jumpDraws: seq<Draw>)

  predicate WellFormed(f: Frame) {
    |f.dashDraws| == BURST && |f.jumpDraws| == BURST
  }

  /** The pool after a burst at `origin`, or unchanged when there is none. */
  function Emit(ps: seq<Particle>, origin: Option<Vec2>, ds: seq<Draw>): seq<Particle> {
    match origin
    case None => ps
    case Some(pos) => Burst(ps, pos, WHITE, ds)
  }

  class Game {
    var player: Player
    var platforms: array<Platform>
    var flag: Flag
    var particles: seq<Particle>
    /** How often the jump sound has been played. */
    ghost var jumpSounds: nat

    ghost predicate Valid()
      reads this, platforms
    {
      && Inv(player)
      && (forall i :: 0 <= i < platforms.Length ==> Bounded(platforms[i]))
      && |particles| <= MAX_PARTICLES
      && AllAlive(particles)
    }

    /** The player and platform part of a frame runs only while this holds. */
    predicate Running()
      reads this
    {
      player.isAlive && !flag.isReached
    }

    constructor ()
      ensures Valid() && fresh(platforms)
      ensures player == SPAWN && platforms[..] == LEVEL && flag == START_FLAG
      ensures particles == [] && jumpSounds == 0
    {
      player := SPAWN;
      platforms := new Platform[|LEVEL|](i requires 0 <= i < |LEVEL| => LEVEL[i]);
      flag := START_FLAG;
      particles := [];
      jumpSounds := 0;
    }

    method ResetPlayer()
      modifies this`player
      ensures player == SPAWN
    {
      player := player.(position := Vec2(100.0, 100.0));
      player := player.(velocity := Vec2(0.0, 0.0));
      player := player.(speed := BASE_SPEED);
      player := player.(jumpCount := 0);
      player := player.(isDashing := false);
      player := player.(dashTimer := 0.0);
      player := player.(dashCooldownTimer := 0.0);
      player := player.(isAlive := true);
    }

    method AddParticle(pos: Vec2, color: Color, d: Draw)
      modifies this`particles
      ensures particles == Spawn(old(particles), pos, color, d)
    {
      if |particles| < MAX_PARTICLES {
        var p := NewParticle(pos, color, d);
        particles := particles + [p];
      }
    }

    /** The loop of BURST AddParticle calls that a dash or double jump runs. */
    method EmitBurst(pos: Vec2, ds: seq<Draw>)
      requires |ds| == BURST
      modifies this`particles
      ensures particles == Burst(old(particles), pos, WHITE, ds)
    {
      for i := 0 to BURST
        invariant particles == Burst(old(particles), pos, WHITE, ds[..i])
      {
        AddParticle(pos, WHITE, ds[i]);
        assert ds[..i + 1][..i] == ds[..i];
      }
      assert ds[..BURST] == ds;
    }

    /** Lines of the platform loop that resolve the player against one
        platform rectangle `rect`, using the frame's rectangle `playerRect`. */
    method CollidePlatform(playerRect: Rect, rect: Rect)
      modifies this`player
      ensures player == Collide(old(player), playerRect, rect)
    {
      if CheckCollisionRecs(playerRect, rect) {
        var overlapLeft := playerRect.x + playerRect.width - rect.x;
        var overlapRight := rect.x + rect.width - playerRect.x;
        var overlapTop := playerRect.y + playerRect.height - rect.y;
        var overlapBottom := rect.y + rect.height - playerRect.y;
        var minOverlap := Min(Min(overlapLeft, overlapRight), Min(overlapTop, overlapBottom));
        if minOverlap == overlapTop {
          player := player.(position := player.position.(y := rect.y - playerRect.height));
          player := player.(velocity := player.velocity.(y := 0.0));
          player := player.(jumpCount := 0);
        } else if minOverlap == overlapBottom {
          player := player.(position := player.position.(y := rect.y + rect.height));
          player := player.(velocity := player.velocity.(y := 0.0));
        } else if minOverlap == overlapLeft {
          player := player.(position := player.position.(x := rect.x - playerRect.width));
        } else if minOverlap == overlapRight {
          player := player.(position := player.position.(x := rect.x + rect.width));
        }
      }
    }

    /** The motion of platform i, updated in place when it moves. */
    method MovePlatformAt(i: nat)
      requires i < platforms.Length
      modifies platforms
      ensures platforms[..] == old(platforms[..])[i := MovePlatform(old(platforms[i]))]
    {
      var platform := platforms[i];
      if platform.isMoving {
        platform := platform.(rect := platform.rect.(x := platform.rect.x + platform.velocity.x));
        platform := platform.(rect := platform.rect.(y := platform.rect.y + platform.velocity.y));
        if OutOfRange(platform.rect.x, platform.startPos.x, platform.moveDistance) {
          platform := platform.(velocity := platform.velocity.(x := -platform.velocity.x));
        }
        if OutOfRange(platform.rect.y, platform.startPos.y, platform.moveDistance) {
          platform := platform.(velocity := platform.velocity.(y := -platform.velocity.y));
        }
        platforms[i] := platform;
      }
    }

    /** The loop over the platforms: resolve the player against each one,
        then move it if it moves. */
    method ResolvePlatforms(playerRect: Rect)
      modifies this`player, platforms
      ensures player == CollideAll(old(player), playerRect, old(platforms[..]))
      ensures forall i :: 0 <= i < platforms.Length ==> platforms[i] == MovePlatform(old(platforms[i]))
    {
      ghost var before := platforms[..];
      for i := 0 to platforms.Length
        invariant player == CollideAll(old(player), playerRect, before[..i])
        invariant forall k :: 0 <= k < i ==> platforms[k] == MovePlatform(before[k])
        invariant forall k :: i <= k < platforms.Length ==> platforms[k] == before[k]
      {
        CollidePlatform(playerRect, platforms[i].rect);
        assert before[..i + 1][..i] == before[..i];
        MovePlatformAt(i);
      }
      assert before[..platforms.Length] == before;
    }

    /** The particle section: age every particle, then drop the dead ones. */
    method UpdateParticles(dt: real)
      modifies this`particles
      ensures particles == Prune(Aged(old(particles), dt))
    {
      AgeParticles(dt);
      RemoveDead();
    }

    /** Move, age and fade every particle in place. */
    method AgeParticles(dt: real)
      modifies this`particles
      ensures particles == Aged(old(particles), dt)
    {
      for i := 0 to |particles|
        invariant |particles| == |old(particles)|
        invariant forall k :: 0 <= k < i ==> particles[k] == Advance(old(particles)[k], dt)
        invariant forall k :: i <= k < |particles| ==> particles[k] == old(particles)[k]
      {
        var p := particles[i];
        p := p.(position := Vec2(p.position.x + p.velocity.x, p.position.y + p.velocity.y));
        p := p.(life := p.life - dt);
        p := p.(color := p.color.(a := AlphaOf(p.life)));
        particles := particles[i := p];
      }
    }

    /** erase(remove_if(...)): a stable in-place compaction of the live
        particles to the front, then truncation. */
    method RemoveDead()
      modifies this`particles
      ensures particles == Prune(old(particles))
    {
      ghost var pool := particles;
      var kept := 0;
      for i := 0 to |particles|
        invariant |particles| == |pool| && kept <= i
        invariant particles[..kept] == Prune(pool[..i])
        invariant forall k :: i <= k < |particles| ==> particles[k] == pool[k]
      {
        assert pool[..i + 1][..i] == pool[..i];
        if !(particles[i].life <= 0.0) {
          particles := particles[kept := particles[i]];
          kept := kept + 1;
        }
      }
      assert pool[..|pool|] == pool;
      particles := particles[..kept];
    }

    /** The dash section: cooldown and dash timers, then the Z key. */
    method UpdateDash(dt: real, pressed: bool, draws: seq<Draw>)
      requires |draws| == BURST
      modifies this`player, this`particles
      ensures player == DashPhase(old(player), dt, pressed)
      ensures particles == if pressed && CanDash(TickDash(old(player), dt))
                           then Burst(old(particles), BurstOrigin(old(player)), WHITE, draws)
                           else old(particles)
    {
      TickTimers(dt);
      if pressed && player.dashCooldownTimer <= 0.0 {
        player := player.(isDashing := true, dashTimer := DASH_TIME, dashCooldownTimer := DASH_COOLDOWN);
        player := player.(speed := DASH_SPEED);
        EmitBurst(BurstOrigin(player), draws);
      }
    }

    /** The cooldown and dash timers of the dash section. */
    method TickTimers(dt: real)
      modifies this`player
      ensures player == TickDash(old(player), dt)
    {
      if player.dashCooldownTimer > 0.0 {
        player := player.(dashCooldownTimer := player.dashCooldownTimer - dt);
      }
      if player.isDashing {
        player := player.(dashTimer := player.dashTimer - dt);
        if player.dashTimer <= 0.0 {
          player := player.(isDashing := false, speed := BASE_SPEED);
        }
      }
    }

    /** The movement section: RIGHT and LEFT held. */
    method MovePlayer(right: bool, left: bool)
      modifies this`player
      ensures player == MoveHorizontal(old(player), right, left)
    {
      if !player.isDashing {
        if right { player := player.(position := player.position.(x := player.position.x + player.speed)); }
        if left { player := player.(position := player.position.(x := player.position.x - player.speed)); }
      } else {
        if right { player := player.(position := player.position.(x := player.position.x + DASH_SPEED)); }
        if left { player := player.(position := player.position.(x := player.position.x - DASH_SPEED)); }
      }
    }

    /** The jump section: SPACE pressed; the jump plays the sound, and the
        jump that reaches the limit emits a burst. */
    method HandleJump(pressed: bool, draws: seq<Draw>)
      requires |draws| == BURST
      modifies this`player, this`particles, this`jumpSounds
      ensures player == JumpPhase(old(player), pressed)
      ensures jumpSounds == old(jumpSounds) + (if pressed && CanJump(old(player)) then 1 else 0)
      ensures particles == if pressed && old(player).jumpCount + 1 == MAX_JUMPS
                           then Burst(old(particles), BurstOrigin(old(player)), WHITE, draws)
                           else old(particles)
    {
      if pressed {
        if player.jumpCount < MAX_JUMPS {
          player := player.(velocity := player.velocity.(y := JUMP_VELOCITY));
          player := player.(jumpCount := player.jumpCount + 1);
          jumpSounds := jumpSounds + 1;
          if player.jumpCount == MAX_JUMPS {
            EmitBurst(BurstOrigin(player), draws);
          }
        }
      }
    }

    /** The input-driven part of a frame: dash, movement, jump, then gravity. */
    method SteerPlayer(dt: real, keys: Keys, dashDraws: seq<Draw>, jumpDraws: seq<Draw>)
      requires |dashDraws| == BURST && |jumpDraws| == BURST
      modifies this`player, this`particles, this`jumpSounds
      ensures var s := Steer(old(player), dt, keys);
        && player == s.player
        && particles == Emit(Emit(old(particles), s.dashBurst, dashDraws), s.jumpBurst, jumpDraws)
        && jumpSounds == old(jumpSounds) + (if s.jumped then 1 else 0)
    {
      ghost var s := Steer(player, dt, keys);
      ghost var p0, pool := player, particles;
      UpdateDash(dt, keys.dash, dashDraws);
      assert player.position == p0.position;
      assert particles == Emit(pool, s.dashBurst, dashDraws);
      ghost var p1, pool1 := player, particles;
      MovePlayer(keys.right, keys.left);
      ghost var p2 := player;
      HandleJump(keys.jump, jumpDraws);
      assert s.jumped == (keys.jump && CanJump(p2));
      assert s.jumpBurst.Some? <==> keys.jump && p2.jumpCount + 1 == MAX_JUMPS;
      assert particles == Emit(pool1, s.jumpBurst, jumpDraws);
      assert player == JumpPhase(p2, keys.jump);
      player := player.(velocity := player.velocity.(y := player.velocity.y + GRAVITY));
      player := player.(position := player.position.(y := player.position.y + player.velocity.y));
    }

    /** The part of a frame that runs while the player is alive and the
        flag not reached: steering, collisions and platform motion, the fall
        into the abyss, and the flag test. */
    method UpdateWorld(dt: real, keys: Keys, dashDraws: seq<Draw>, jumpDraws: seq<Draw>)
      requires Inv(player) && forall i :: 0 <= i < platforms.Length ==> Bounded(platforms[i])
      requires |dashDraws| == BURST && |jumpDraws| == BURST
      modifies this`player, this`flag, this`particles, this`jumpSounds, platforms
      ensures Inv(player) && forall i :: 0 <= i < platforms.Length ==> Bounded(platforms[i])
      ensures var s := Steer(old(player), dt, keys);
        var pr := PlayerRect(s.player);
        && player == FallOut(CollideAll(s.player, pr, old(platforms[..])))
        && (forall i :: 0 <= i < platforms.Length ==> platforms[i] == MovePlatform(old(platforms[i])))
        && flag == (if CheckCollisionRecs(pr, FlagRect(old(flag))) then old(flag).(isReached := true) else old(flag))
        && particles == Emit(Emit(old(particles), s.dashBurst, dashDraws), s.jumpBurst, jumpDraws)
        && jumpSounds == old(jumpSounds) + (if s.jumped then 1 else 0)
    {
      ghost var before := platforms[..];
      SteerKeepsInv(player, dt, keys);
      SteerPlayer(dt, keys, dashDraws, jumpDraws);
      // collisions and platform motion, all against this rectangle
      var playerRect := PlayerRect(player);
      ResolvePlatforms(playerRect);
      // fall into the abyss
      if player.position.y > FALL_LIMIT {
        ResetPlayer();
      }
      // reach the flag, tested with the rectangle taken before the collisions
      var flagRect := FlagRect(flag);
      if CheckCollisionRecs(playerRect, flagRect) {
        flag := flag.(isReached := true);
      }
      forall i | 0 <= i < platforms.Length
        ensures Bounded(platforms[i])
      {
        MoveKeepsBounded(before[i]);
      }
    }

    /** One iteration of the main loop, without drawing. */
    method Step(dt: real, keys: Keys, dashDraws: seq<Draw>, jumpDraws: seq<Draw>)
      requires Valid() && |dashDraws| == BURST && |jumpDraws| == BURST
      modifies this, platforms
      ensures Valid() && platforms == old(platforms)
      ensures old(Running()) ==>
        var s := Steer(old(player), dt, keys);
        var pr := PlayerRect(s.player);
        && player == FallOut(CollideAll(s.player, pr, old(platforms[..])))
        && (forall i :: 0 <= i < platforms.Length ==> platforms[i] == MovePlatform(old(platforms[i])))
        && flag == (if CheckCollisionRecs(pr, FlagRect(old(flag))) then old(flag).(isReached := true) else old(flag))
        && particles == Prune(Aged(Emit(Emit(old(particles), s.dashBurst, dashDraws), s.jumpBurst, jumpDraws), dt))
        && jumpSounds == old(jumpSounds) + (if s.jumped then 1 else 0)
      ensures !old(Running()) ==>
        && player == old(player) && flag == old(flag) && jumpSounds == old(jumpSounds)
        && platforms[..] == old(platforms[..])
        && particles == Prune(Aged(old(particles), dt))
    {
      if player.isAlive && !flag.isReached {
        UpdateWorld(dt, keys, dashDraws, jumpDraws);
      }
      UpdateParticles(dt);
    }

    /** The main loop over a run of frames (the window closing ends it). */
    method Run(frames: seq<Frame>)
      requires Valid() && forall i :: 0 <= i < |frames| ==> WellFormed(frames[i])
      modifies this, platforms
      ensures Valid() && platforms == old(platforms)
      ensures old(flag.isReached) ==>
        && flag == old(flag) && player == old(player)
        && platforms[..] == old(platforms[..]) && jumpSounds == old(jumpSounds)
    {
      for i := 0 to |frames|
        invariant Valid() && platforms == old(platforms)
        invariant old(flag.isReached) ==>
          && flag == old(flag) && player == old(player)
          && platforms[..] == old(platforms[..]) && jumpSounds == old(jumpSounds)
      {
        Step(frames[i].dt, frames[i].keys, frames[i].dashDraws, frames[i].jumpDraws);
      }
    }
  }
}
