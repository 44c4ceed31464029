/** Resolution of the player against the platforms: on overlap, push the
    player out along the side of least penetration. The player rectangle is
    taken once per frame and not refreshed between platforms. */
module Collision {
  import opened Raylib
  import opened PlayerPhysics
  import opened Platforms

  datatype Side = Top | Bottom | Left | Right

  /** How far the player rectangle reaches into the platform from each side. */
  datatype Penetration = Penetration(left: real, right: real, top: real, bottom: real)

  function Depths(pr: Rect, r: Rect): (o: Penetration)
    ensures CheckCollisionRecs(pr, r) <==> o.left > 0.0 && o.right > 0.0 && o.top > 0.0 && o.bottom > 0.0
  {
    Penetration(pr.x + pr.width - r.x, r.x + r.width - pr.x,
                pr.y + pr.height - r.y, r.y + r.height - pr.y)
  }

  /** The side whose depth equals the minimum, tested top, bottom, left, right. */
  function ResolveSide(o: Penetration): (s: Side)
    ensures s == Top <==> o.top <= o.bottom && o.top <= o.left && o.top <= o.right
    ensures s == Bottom <==> o.bottom < o.top && o.bottom <= o.left && o.bottom <= o.right
    ensures s == Left <==> o.left < o.top && o.left < o.bottom && o.left <= o.right
    ensures s == Right <==> o.right < o.top && o.right < o.bottom && o.right < o.left
  {
    var m := Min(Min(o.left, o.right), Min(o.top, o.bottom));
    if m == o.top then Top
    else if m == o.bottom then Bottom
    else if m == o.left then Left
    else Right
  }

  /** One platform's collision response, tested against the frame's rectangle `pr`. */
  function Collide(p: Player, pr: Rect, r: Rect): (q: Player)
    ensures !CheckCollisionRecs(pr, r) ==> q == p
    // dash state, speed, horizontal velocity and aliveness are never touched
    ensures q.velocity.x == p.velocity.x && q.speed == p.speed && q.isAlive == p.isAlive
    ensures q.isDashing == p.isDashing && q.dashTimer == p.dashTimer && q.dashCooldownTimer == p.dashCooldownTimer
    ensures CheckCollisionRecs(pr, r) ==>
      match ResolveSide(Depths(pr, r))
      // landing: stand on the platform, stop falling, jumps restored
      case Top => q.position == Vec2(p.position.x, r.y - pr.height) && q.velocity.y == 0.0 && q.jumpCount == 0
      // head bump: just below the platform, vertical motion stopped
      case Bottom => q.position == Vec2(p.position.x, r.y + r.height) && q.velocity.y == 0.0 && q.jumpCount == p.jumpCount
      // side hits move the player horizontally and change nothing else
      case Left => q == p.(position := Vec2(r.x - pr.width, p.position.y))
      case Right => q == p.(position := Vec2(r.x + r.width, p.position.y))
    // whatever the side, a rectangle of the frame's size at the new position
    // no longer overlaps the platform
    ensures CheckCollisionRecs(pr, r) ==>
      !CheckCollisionRecs(Rect(q.position.x, q.position.y, pr.width, pr.height), r)
  {
    if !CheckCollisionRecs(pr, r) then p
    else match ResolveSide(Depths(pr, r))
      case Top => p.(position := p.position.(y := r.y - pr.height), velocity := p.velocity.(y := 0.0), jumpCount := 0)
      case Bottom => p.(position := p.position.(y := r.y + r.height), velocity := p.velocity.(y := 0.0))
      case Left => p.(position := p.position.(x := r.x - pr.width))
      case Right => p.(position := p.position.(x := r.x + r.width))
  }

  /** The responses to every platform in order, all against the same rectangle `pr`. */
  function CollideAll(p: Player, pr: Rect, ps: seq<Platform>): (q: Player)
    ensures q.jumpCount == p.jumpCount || q.jumpCount == 0
    ensures q.velocity.x == p.velocity.x && q.speed == p.speed && q.isAlive == p.isAlive
    ensures q.isDashing == p.isDashing && q.dashTimer == p.dashTimer && q.dashCooldownTimer == p.dashCooldownTimer
    ensures (forall i :: 0 <= i < |ps| ==> !CheckCollisionRecs(pr, ps[i].rect)) ==> q == p
    ensures Inv(p) ==> Inv(q)
    decreases |ps|
  {
    if |ps| == 0 then p
    else Collide(CollideAll(p, pr, ps[..|ps| - 1]), pr, ps[|ps| - 1].rect)
  }

  /** A player resting on a platform it covers by at least one gravity step
      on both sides stays exactly on top, at rest, with its jumps restored,
      after a whole frame with no key pressed (the dash timers aside). The
      result again satisfies the requirements, so the player rests there
      frame after frame. */
  lemma RestingStaysOnTop(p: Player, dt: real, r: Rect)
    requires p.position.y == r.y - PLAYER_SIZE && p.velocity.y == 0.0 && r.height > 0.0
    requires p.position.x + PLAYER_SIZE - r.x >= GRAVITY && r.x + r.width - p.position.x >= GRAVITY
    ensures var s := Steer(p, dt, Keys(false, false, false, false)).player;
            var q := Collide(s, PlayerRect(s), r);
            && q.position == p.position && q.velocity == p.velocity && q.jumpCount == 0
            && q.position.y == r.y - PLAYER_SIZE && q.velocity.y == 0.0
  {
  }
}
