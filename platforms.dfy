/** Platforms and the per-frame motion of the moving ones: shift the origin
    by the velocity, then reverse each velocity component whose axis has
    left the travel range around the start position. */
module Platforms {
  import opened Raylib

  datatype Platform = Platform(
    rect: Rect,
    color: Color,
    velocity: Vec2,
    startPos: Vec2,
    moveDistance: real,
    isMoving: bool)

  /** The origin coordinate `pos` lies strictly outside start +- d. */
  predicate OutOfRange(pos: real, start: real, d: real) {
    pos > start + d || pos < start - d
  }

  function MovePlatform(pl: Platform): (q: Platform)
    ensures !pl.isMoving ==> q == pl
    ensures q.color == pl.color && q.startPos == pl.startPos
    ensures q.moveDistance == pl.moveDistance && q.isMoving == pl.isMoving
    ensures q.rect.width == pl.rect.width && q.rect.height == pl.rect.height
    ensures pl.isMoving ==>
      && q.rect.x == pl.rect.x + pl.velocity.x
      && q.rect.y == pl.rect.y + pl.velocity.y
      && q.velocity.x == (if OutOfRange(q.rect.x, pl.startPos.x, pl.moveDistance) then -pl.velocity.x else pl.velocity.x)
      && q.velocity.y == (if OutOfRange(q.rect.y, pl.startPos.y, pl.moveDistance) then -pl.velocity.y else pl.velocity.y)
  {
    if !pl.isMoving then pl
    else
      var moved := pl.(rect := pl.rect.(x := pl.rect.x + pl.velocity.x, y := pl.rect.y + pl.velocity.y));
      var vx := if OutOfRange(moved.rect.x, moved.startPos.x, moved.moveDistance) then -moved.velocity.x else moved.velocity.x;
      var vy := if OutOfRange(moved.rect.y, moved.startPos.y, moved.moveDistance) then -moved.velocity.y else moved.velocity.y;
      moved.(velocity := Vec2(vx, vy))
  }

  /** One axis of a moving platform: within one step of the travel range,
      and heading back whenever outside it. */
  predicate AxisBounded(pos: real, v: real, start: real, d: real) {
    && start - d - Abs(v) <= pos <= start + d + Abs(v)
    && (pos > start + d ==> v <= 0.0)
    && (pos < start - d ==> v >= 0.0)
  }

  predicate Bounded(pl: Platform) {
    pl.isMoving ==>
      && pl.moveDistance >= 0.0
      && AxisBounded(pl.rect.x, pl.velocity.x, pl.startPos.x, pl.moveDistance)
      && AxisBounded(pl.rect.y, pl.velocity.y, pl.startPos.y, pl.moveDistance)
  }

  /** A bounded platform stays bounded, and its speed on each axis never changes. */
  lemma MoveKeepsBounded(pl: Platform)
    requires Bounded(pl)
    ensures Bounded(MovePlatform(pl))
    ensures Abs(MovePlatform(pl).velocity.x) == Abs(pl.velocity.x)
    ensures Abs(MovePlatform(pl).velocity.y) == Abs(pl.velocity.y)
  {
  }

  /** n frames of motion. */
  function MoveFrames(pl: Platform, n: nat): Platform
    decreases n
  {
    if n == 0 then pl else MovePlatform(MoveFrames(pl, n - 1))
  }

  /** However many frames pass, a moving platform that starts bounded never
      gets further from its start than the travel distance plus one step. */
  lemma {:induction false} StaysNearTravelRange(pl: Platform, n: nat)
    requires Bounded(pl)
    ensures var q := MoveFrames(pl, n);
      && Bounded(q)
      && q.startPos == pl.startPos && q.moveDistance == pl.moveDistance && q.isMoving == pl.isMoving
      && Abs(q.velocity.x) == Abs(pl.velocity.x) && Abs(q.velocity.y) == Abs(pl.velocity.y)
      && (pl.isMoving ==>
            && Abs(q.rect.x - pl.startPos.x) <= pl.moveDistance + Abs(pl.velocity.x)
            && Abs(q.rect.y - pl.startPos.y) <= pl.moveDistance + Abs(pl.velocity.y))
    decreases n
  {
    if n > 0 {
      var prev := MoveFrames(pl, n - 1);
      StaysNearTravelRange(pl, n - 1);
      MoveKeepsBounded(prev);
      assert MoveFrames(pl, n) == MovePlatform(prev);
      if pl.isMoving {
        BoundedIsNear(MovePlatform(prev));
      }
    } else if pl.isMoving {
      BoundedIsNear(pl);
    }
  }

  /** A bounded moving platform is within moveDistance + |velocity| of its start. */
  lemma BoundedIsNear(pl: Platform)
    requires Bounded(pl) && pl.isMoving
    ensures Abs(pl.rect.x - pl.startPos.x) <= pl.moveDistance + Abs(pl.velocity.x)
    ensures Abs(pl.rect.y - pl.startPos.y) <= pl.moveDistance + Abs(pl.velocity.y)
  {
  }

  /** The level: the ground, two moving platforms, two static ones. */
  const LEVEL: seq<Platform> := [
    Platform(Rect(0.0, 400.0, 800.0, 20.0), GRAY, Vec2(0.0, 0.0), Vec2(0.0, 200.0), 0.0, false),
    Platform(Rect(200.0, 300.0, 200.0, 20.0), GRAY, Vec2(2.0, 0.0), Vec2(200.0, 300.0), 100.0, true),
    Platform(Rect(500.0, 200.0, 150.0, 20.0), GRAY, Vec2(0.0, 2.0), Vec2(500.0, 200.0), 100.0, true),
    Platform(Rect(800.0, 300.0, 200.0, 20.0), GRAY, Vec2(0.0, 0.0), Vec2(800.0, 300.0), 0.0, false),
    Platform(Rect(1200.0, 200.0, 150.0, 20.0), GRAY, Vec2(0.0, 0.0), Vec2(1200.0, 200.0), 0.0, false)
  ]

  /** The level's second platform, moving right at 2 per frame from x = 200,
      is at 200 + 2n for the first 50 frames without reversing. */
  lemma {:induction false} SecondPlatformFrames(n: nat)
    requires n <= 50
    ensures MoveFrames(LEVEL[1], n) == LEVEL[1].(rect := LEVEL[1].rect.(x := 200.0 + 2.0 * n as real))
    decreases n
  {
    if n > 0 {
      SecondPlatformFrames(n - 1);
    }
  }

  /** The bound [start - moveDistance, start + moveDistance] is not kept: the
      level's second platform reaches x = 302 on frame 51, past its range end
      of 300, and only then reverses. */
  lemma OvershootsTravelRange()
    ensures var pl := MoveFrames(LEVEL[1], 51);
      && pl.rect.x == 302.0 > LEVEL[1].startPos.x + LEVEL[1].moveDistance
      && pl.velocity.x == -2.0
  {
    SecondPlatformFrames(50);
  }
}
