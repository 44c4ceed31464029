/** The player record and the input-driven part of one frame: dash timers,
    dash start, horizontal movement, jumping and gravity. Each phase is a
    function of the player value; the frame method applies them in place. */
module PlayerPhysics {
  import opened Raylib

  const MAX_JUMPS: int := 2
  const BASE_SPEED: real := 5.0
  const DASH_SPEED: real := 15.0
  const DASH_TIME: real := 0.2
  const DASH_COOLDOWN: real := 1.0
  const GRAVITY: real := 0.5
  const JUMP_VELOCITY: real := -10.0
  const PLAYER_SIZE: real := 40.0
  /** screenHeight + 100: below this line the player respawns. */
  const FALL_LIMIT: real := 550.0

  /** The mutable fields of the player struct; maxJumps, dashSpeed, dashTime
      and dashCooldown are never assigned and are the constants above. */
  datatype Player = Player(
    position: Vec2,
    velocity: Vec2,
    speed: real,
    jumpCount: int,
    isDashing: bool,
    dashTimer: real,
    dashCooldownTimer: real,
    isAlive: bool)

  /** The state ResetPlayer writes. */
  const SPAWN: Player := Player(Vec2(100.0, 100.0), Vec2(0.0, 0.0), BASE_SPEED, 0, false, 0.0, 0.0, true)

  /** This frame's keys: Z and SPACE pressed, RIGHT and LEFT held. */
  datatype Keys = Keys(dash: bool, right: bool, left: bool, jump: bool)

  datatype Option<T> = None | Some(value: T)

  /** What every frame keeps true of the player: the jump counter within
      0..maxJumps, the player alive, the speed field equal to the dash speed
      exactly while dashing, and a running dash with time left. */
  predicate Inv(p: Player) {
    && 0 <= p.jumpCount <= MAX_JUMPS
    && p.isAlive
    && p.speed == (if p.isDashing then DASH_SPEED else BASE_SPEED)
    && (p.isDashing ==> p.dashTimer > 0.0)
  }

  function PlayerRect(p: Player): Rect {
    Rect(p.position.x, p.position.y, PLAYER_SIZE, PLAYER_SIZE)
  }

  /** Where a dash or double-jump burst is emitted. */
  function BurstOrigin(p: Player): Vec2 {
    Vec2(p.position.x + 20.0, p.position.y + 20.0)
  }

  /** Count the cooldown down while positive, then count a running dash
      down and end it once its timer is no longer positive. */
  function TickDash(p: Player, dt: real): (q: Player)
    ensures q.position == p.position && q.velocity == p.velocity
    ensures q.jumpCount == p.jumpCount && q.isAlive == p.isAlive
    ensures q.dashCooldownTimer == if p.dashCooldownTimer > 0.0 then p.dashCooldownTimer - dt else p.dashCooldownTimer
    ensures q.isDashing <==> p.isDashing && p.dashTimer - dt > 0.0
    ensures p.isDashing ==> q.dashTimer == p.dashTimer - dt
    ensures !p.isDashing ==> q.dashTimer == p.dashTimer && q.speed == p.speed
    ensures p.isDashing && !q.isDashing ==> q.speed == BASE_SPEED
    ensures q.isDashing ==> q.speed == p.speed
  {
    var cooled := if p.dashCooldownTimer > 0.0 then p.(dashCooldownTimer := p.dashCooldownTimer - dt) else p;
    if !cooled.isDashing then cooled
    else
      var timed := cooled.(dashTimer := cooled.dashTimer - dt);
      if timed.dashTimer <= 0.0 then timed.(isDashing := false, speed := BASE_SPEED) else timed
  }

  /** A dash may start once the cooldown is no longer positive. */
  predicate CanDash(p: Player) {
    p.dashCooldownTimer <= 0.0
  }

  function StartDash(p: Player): Player {
    p.(isDashing := true, dashTimer := DASH_TIME, dashCooldownTimer := DASH_COOLDOWN, speed := DASH_SPEED)
  }

  /** The dash section of a frame: timers first, then Z may start a dash. */
  function DashPhase(p: Player, dt: real, pressed: bool): (q: Player)
    ensures q.position == p.position && q.velocity == p.velocity
    ensures q.jumpCount == p.jumpCount && q.isAlive == p.isAlive
    ensures pressed && CanDash(TickDash(p, dt)) ==>
      && q.isDashing && q.speed == DASH_SPEED
      && q.dashTimer == DASH_TIME && q.dashCooldownTimer == DASH_COOLDOWN
    ensures !(pressed && CanDash(TickDash(p, dt))) ==> q == TickDash(p, dt)
    ensures Inv(p) ==> Inv(q)
  {
    var t := TickDash(p, dt);
    if pressed && CanDash(t) then StartDash(t) else t
  }

  /** RIGHT adds and LEFT subtracts one step: the speed field, or the dash speed while dashing. */
  function MoveHorizontal(p: Player, right: bool, left: bool): (q: Player)
    ensures q == p.(position := Vec2(q.position.x, p.position.y))
    // under the invariant the step is always the speed field, and opposite keys cancel
    ensures Inv(p) ==>
              q.position.x == p.position.x + (if right then p.speed else 0.0) - (if left then p.speed else 0.0)
  {
    var step := if p.isDashing then DASH_SPEED else p.speed;
    var x := p.position.x + (if right then step else 0.0) - (if left then step else 0.0);
    p.(position := p.position.(x := x))
  }

  predicate CanJump(p: Player) {
    p.jumpCount < MAX_JUMPS
  }

  function Jump(p: Player): Player {
    p.(velocity := p.velocity.(y := JUMP_VELOCITY), jumpCount := p.jumpCount + 1)
  }

  /** The jump section of a frame: SPACE jumps while below the jump limit. */
  function JumpPhase(p: Player, pressed: bool): (q: Player)
    ensures pressed && CanJump(p) ==> q.velocity.y == JUMP_VELOCITY && q.jumpCount == p.jumpCount + 1
    ensures !(pressed && CanJump(p)) ==> q == p
    ensures q == p.(velocity := p.velocity.(y := q.velocity.y), jumpCount := q.jumpCount)
    ensures 0 <= p.jumpCount <= MAX_JUMPS ==> 0 <= q.jumpCount <= MAX_JUMPS
  {
    if pressed && CanJump(p) then Jump(p) else p
  }

  function ApplyGravity(p: Player): Player {
    var vy := p.velocity.y + GRAVITY;
    p.(velocity := p.velocity.(y := vy), position := p.position.(y := p.position.y + vy))
  }

  /** The player after the input phases of one frame, whether the jump fired
      (and with it the sound), and where the dash and double-jump bursts go. */
  datatype Steering = Steering(player: Player, jumped: bool, dashBurst: Option<Vec2>, jumpBurst: Option<Vec2>)

  function Steer(p: Player, dt: real, keys: Keys): Steering {
    var dash := keys.dash && CanDash(TickDash(p, dt));
    var p1 := DashPhase(p, dt, keys.dash);
    var p2 := MoveHorizontal(p1, keys.right, keys.left);
    var jump := keys.jump && CanJump(p2);
    var p3 := JumpPhase(p2, keys.jump);
    Steering(ApplyGravity(p3), jump,
             if dash then Some(BurstOrigin(p1)) else None,
             if jump && p3.jumpCount == MAX_JUMPS then Some(BurstOrigin(p2)) else None)
  }

  /** A frame keeps the player invariant. */
  lemma SteerKeepsInv(p: Player, dt: real, keys: Keys)
    requires Inv(p)
    ensures Inv(Steer(p, dt, keys).player)
  {
  }

  /** A dash starts exactly when Z is pressed and the cooldown, after this
      frame's decrement, is not positive; it then sets the dash state and
      emits a burst at the player's position before moving. */
  lemma DashGate(p: Player, dt: real, keys: Keys)
    ensures var s := Steer(p, dt, keys);
      && (s.dashBurst.Some? <==> keys.dash && TickDash(p, dt).dashCooldownTimer <= 0.0)
      && (s.dashBurst.Some? ==>
            && s.dashBurst.value == BurstOrigin(p)
            && s.player.isDashing && s.player.speed == DASH_SPEED
            && s.player.dashTimer == DASH_TIME && s.player.dashCooldownTimer == DASH_COOLDOWN)
      && (s.dashBurst.None? ==>
            var t := TickDash(p, dt);
            && s.player.isDashing == t.isDashing && s.player.speed == t.speed
            && s.player.dashTimer == t.dashTimer && s.player.dashCooldownTimer == t.dashCooldownTimer)
  {
  }

  /** A jump fires exactly when SPACE is pressed below the jump limit, and
      the burst goes with the jump that reaches the limit. */
  lemma JumpGate(p: Player, dt: real, keys: Keys)
    ensures var s := Steer(p, dt, keys);
      && (s.jumped <==> keys.jump && p.jumpCount < MAX_JUMPS)
      && s.player.jumpCount == (if s.jumped then p.jumpCount + 1 else p.jumpCount)
      && (s.jumpBurst.Some? <==> s.jumped && p.jumpCount + 1 == MAX_JUMPS)
      && (s.jumpBurst.Some? ==> s.jumpBurst.value == Vec2(s.player.position.x + 20.0, p.position.y + 20.0))
  {
  }

  /** Gravity acts every frame on the vertical velocity (reset by a jump),
      and the position moves by the new velocity. */
  lemma SteerVertical(p: Player, dt: real, keys: Keys)
    ensures var s := Steer(p, dt, keys);
      && s.player.velocity.y == (if s.jumped then JUMP_VELOCITY else p.velocity.y) + GRAVITY
      && s.player.position.y == p.position.y + s.player.velocity.y
      && s.player.velocity.x == p.velocity.x && s.player.isAlive == p.isAlive
  {
  }

  /** The horizontal step is the speed in force after the dash section. */
  lemma SteerHorizontal(p: Player, dt: real, keys: Keys)
    requires Inv(p)
    ensures var s := Steer(p, dt, keys);
      s.player.position.x == p.position.x + (if keys.right then s.player.speed else 0.0)
                                          - (if keys.left then s.player.speed else 0.0)
  {
  }

  /** Falling below the limit respawns the player; after it the player is never below it. */
  function FallOut(p: Player): (q: Player)
    ensures q.position.y <= FALL_LIMIT
    ensures p.position.y <= FALL_LIMIT ==> q == p
    ensures p.position.y > FALL_LIMIT ==> q == SPAWN
    ensures Inv(p) ==> Inv(q)
  {
    if p.position.y > FALL_LIMIT then SPAWN else p
  }

  /** Total frame time of a run of frames. */
  function Sum(dts: seq<real>): real
    decreases |dts|
  {
    if |dts| == 0 then 0.0 else Sum(dts[..|dts| - 1]) + dts[|dts| - 1]
  }

  predicate NonNegative(dts: seq<real>) {
    forall i :: 0 <= i < |dts| ==> dts[i] >= 0.0
  }

  /** The dash timers over frames of the given lengths, with Z never pressed. */
  function TickFrames(p: Player, dts: seq<real>): Player
    decreases |dts|
  {
    if |dts| == 0 then p else TickDash(TickFrames(p, dts[..|dts| - 1]), dts[|dts| - 1])
  }

  /** A running dash lasts exactly until the accumulated frame time reaches
      the time it had left, then the speed is back to the base speed. */
  lemma {:induction false} DashLastsItsTime(p: Player, dts: seq<real>)
    requires p.isDashing && p.dashTimer > 0.0 && NonNegative(dts)
    ensures TickFrames(p, dts).isDashing <==> Sum(dts) < p.dashTimer
    ensures TickFrames(p, dts).isDashing ==>
      TickFrames(p, dts).dashTimer == p.dashTimer - Sum(dts) && TickFrames(p, dts).speed == p.speed
    ensures !TickFrames(p, dts).isDashing ==> TickFrames(p, dts).speed == BASE_SPEED
    decreases |dts|
  {
    if |dts| > 0 {
      var init := dts[..|dts| - 1];
      assert NonNegative(init);
      DashLastsItsTime(p, init);
    }
  }

  /** After a dash sets the cooldown, Z is refused until the accumulated
      frame time reaches the cooldown. */
  lemma {:induction false} CooldownLastsItsTime(p: Player, dts: seq<real>)
    requires p.dashCooldownTimer > 0.0 && NonNegative(dts)
    ensures CanDash(TickFrames(p, dts)) <==> Sum(dts) >= p.dashCooldownTimer
    ensures !CanDash(TickFrames(p, dts)) ==> TickFrames(p, dts).dashCooldownTimer == p.dashCooldownTimer - Sum(dts)
    decreases |dts|
  {
    if |dts| > 0 {
      var init := dts[..|dts| - 1];
      assert NonNegative(init);
      CooldownLastsItsTime(p, init);
    }
  }

  /** The dash section over frames of the given lengths, with Z pressed on
      frame i exactly when zs[i] holds. */
  function DashFrames(p: Player, dts: seq<real>, zs: seq<bool>): Player
    requires |zs| == |dts|
    decreases |dts|
  {
    if |dts| == 0 then p
    else DashPhase(DashFrames(p, dts[..|dts| - 1], zs[..|zs| - 1]), dts[|dts| - 1], zs[|zs| - 1])
  }

  /** While the cooldown has time left, pressing Z changes nothing: the dash
      section behaves as if Z were never pressed, so the two lemmas above
      hold whatever keys are pressed, and in particular for a dash just started. */
  lemma {:induction false} ZRefusedDuringCooldown(p: Player, dts: seq<real>, zs: seq<bool>)
    requires |zs| == |dts| && NonNegative(dts)
    requires p.dashCooldownTimer > 0.0 && Sum(dts) < p.dashCooldownTimer
    ensures DashFrames(p, dts, zs) == TickFrames(p, dts)
    decreases |dts|
  {
    if |dts| > 0 {
      var init := dts[..|dts| - 1];
      assert NonNegative(init);
      assert Sum(dts) == Sum(init) + dts[|dts| - 1];
      ZRefusedDuringCooldown(p, init, zs[..|zs| - 1]);
      CooldownLastsItsTime(p, dts);
    }
  }
}
