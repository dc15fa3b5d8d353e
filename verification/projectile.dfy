/** Bullets: straight-moving rectangles owned by the ship or by one enemy. */
module Projectile {

  datatype Option<T> = None | Some(value: T)

  /** A bullet. `color` is the hue the ship fires with (enemy bullets have
      none); `rotation` is the fan angle of a spread shot. The velocity is fixed
      when the bullet is made. */
  datatype Bullet = Bullet(x: real, y: real, baseWidth: real, goUp: bool,
                           color: Option<int>, rotation: Option<int>, vx: real, vy: real)
  {
    /** Twice the width. */
    function BaseHeight(): real
    {
      baseWidth * 2.0
    }
  }

  /** Signed speed: up the screen (negative y) for the ship's bullets. */
  function Speed(goUp: bool): real
  {
    if goUp then -10.0 else 10.0
  }

  /** The `Bullet` constructor. An unrotated bullet's velocity is (0, 45)
      rescaled to the signed speed, i.e. (0, speed). A rotated bullet's velocity
      is (-rotation, 45) rescaled to the signed speed, which needs a square
      root: `spread` supplies it. */
  function NewBullet(x: real, y: real, size: real, goUp: bool, color: Option<int>,
                     rotation: Option<int>, spread: int -> (real, real)): (b: Bullet)
    ensures b.x == x && b.y == y && b.baseWidth == size && b.goUp == goUp
    ensures b.color == color && b.rotation == rotation
    ensures rotation == None ==> b.vx == 0.0 && b.vy == Speed(goUp)
  {
    match rotation
    case None => StraightBullet(x, y, size, goUp, color)
    case Some(r) => Bullet(x, y, size, goUp, color, rotation, spread(r).0, spread(r).1)
  }

  /** A bullet made without a rotation: straight up or down at the speed. */
  function StraightBullet(x: real, y: real, size: real, goUp: bool, color: Option<int>): Bullet
  {
    Bullet(x, y, size, goUp, color, None, 0.0, Speed(goUp))
  }

  /** `update()`: one step along the velocity. */
  function Advance(b: Bullet): Bullet
  {
    b.(x := b.x + b.vx, y := b.y + b.vy)
  }

  /** Every bullet of the list advanced by one step. */
  function AdvancedAll(bs: seq<Bullet>): (r: seq<Bullet>)
    ensures |r| == |bs|
  {
    seq(|bs|, k requires 0 <= k < |bs| => Advance(bs[k]))
  }

  /** The owner's `forEach(bullet => bullet.update())`. */
  method AdvanceAll(bs: seq<Bullet>) returns (r: seq<Bullet>)
    ensures r == AdvancedAll(bs)
  {
    r := bs;
    for k := 0 to |r|
      invariant |r| == |bs|
      invariant forall m :: 0 <= m < k ==> r[m] == Advance(bs[m])
      invariant forall m :: k <= m < |r| ==> r[m] == bs[m]
    {
      r := r[k := Advance(r[k])];
    }
  }

  /** A ship bullet is dropped once it is above the top edge or beyond either
      side edge, each by more than its height. */
  predicate ShipBulletGone(b: Bullet, width: real)
  {
    b.y < -b.BaseHeight() || b.x < -b.BaseHeight() || b.x > width + b.BaseHeight()
  }

  /** An enemy bullet is dropped once it is below the bottom edge by more than its height. */
  predicate EnemyBulletGone(b: Bullet, height: real)
  {
    b.y > b.BaseHeight() + height
  }
}
