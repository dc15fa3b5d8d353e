/** The player's ship: position, health, weapon colour, fire cooldown and the
    bullets it has fired. */
module Ship {
  import opened Projectile
  import Polygon
  import Lists

  const BaseWidth: real := 70.0
  const BaseHeight: real := 14.0      // BaseWidth / 5
  const ShooterWidth: real := 7.0     // BaseWidth / 10
  const BulletSize: real := 7.0       // BaseWidth / 10
  const MinFrameWaitCount: real := 7.0
  const Speed: real := 15.0
  const FullHealth: real := 100.0

  /** Weapon colours with a batch of their own; every other colour fires the fan. */
  const SingleShot: int := 0
  const DoubleShot: int := 120

  datatype Direction = Left | Right

  /** Height of the muzzle: one and a half body heights above the centre. */
  function GunY(y: real): real
  {
    y - BaseHeight * 1.5
  }

  /** The k-th bullet of the fan, rotated by -40 + 10k degrees. */
  function FanBullet(x: real, y: real, color: int, k: int, spread: int -> (real, real)): Bullet
  {
    NewBullet(x, GunY(y), BulletSize, true, Some(color), Some(-40 + 10 * k), spread)
  }

  /** What one trigger pull emits for weapon colour `color` from a ship at (x, y). */
  function BulletBatch(x: real, y: real, color: int, spread: int -> (real, real)): seq<Bullet>
  {
    if color == SingleShot then
      [NewBullet(x, GunY(y), BulletSize, true, Some(color), None, spread)]
    else if color == DoubleShot then
      [NewBullet(x - ShooterWidth, GunY(y), BulletSize, true, Some(color), None, spread),
       NewBullet(x + ShooterWidth, GunY(y), BulletSize, true, Some(color), None, spread)]
    else
      seq(8, k => FanBullet(x, y, color, k, spread))
  }

  /** Colour 0 fires one bullet from the muzzle, colour 120 two bullets one
      shooter-width either side of it, any other colour a fan of eight bullets
      rotated -40, -30, ..., 30 degrees. All go up and carry the colour. */
  lemma BatchShape(x: real, y: real, color: int, spread: int -> (real, real))
    ensures var batch := BulletBatch(x, y, color, spread);
      && |batch| == (if color == SingleShot then 1 else if color == DoubleShot then 2 else 8)
      && (forall b :: b in batch ==> b.goUp && b.color == Some(color) && b.y == GunY(y) && b.baseWidth == BulletSize)
      && (color == SingleShot ==> batch[0].x == x && batch[0].rotation == None)
      && (color == DoubleShot ==> batch[0].x == x - ShooterWidth && batch[1].x == x + ShooterWidth
                                  && batch[0].rotation == None && batch[1].rotation == None)
      && (color != SingleShot && color != DoubleShot ==>
            forall k :: 0 <= k < 8 ==> batch[k].x == x && batch[k].rotation == Some(-40 + 10 * k))
  {
  }

  /** The cooldown counter as `update` leaves it: back to the minimum wait when
      the fire key is up or the counter has gone negative. */
  function Rearmed(waitFrameCount: real, fireKeyDown: bool): real
  {
    if !fireKeyDown || waitFrameCount < 0.0 then MinFrameWaitCount else waitFrameCount
  }

  /** The counter after `n` frames with the fire key held, each frame being
      `update` followed by `shootBullets` with a decrement of `d`. */
  function CounterAfterHeld(w: real, d: real, n: nat): real
  {
    if n == 0 then w else Rearmed(CounterAfterHeld(w, d, n - 1), true) - d
  }

  /** Whether frame `n` (from 0) of holding the key emits a batch. */
  predicate FiresOnHeldFrame(w: real, d: real, n: nat)
  {
    Rearmed(CounterAfterHeld(w, d, n), true) == MinFrameWaitCount
  }

  /** At 60 frames per second (a decrement of 1), holding the fire key from a
      rested counter fires on frames 0, 8, 16, ...: one batch every eight frames. */
  lemma {:induction false} SteadyFireEveryEighthFrame(n: nat)
    ensures CounterAfterHeld(MinFrameWaitCount, 1.0, n)
            == if n == 0 then MinFrameWaitCount else 6.0 - ((n - 1) % 8) as real
    ensures FiresOnHeldFrame(MinFrameWaitCount, 1.0, n) <==> n % 8 == 0
  {
    if n > 0 {
      SteadyFireEveryEighthFrame(n - 1);
      if n - 1 == 0 {
      } else if (n - 2) % 8 == 7 {
        assert (n - 1) % 8 == 0;
      } else {
        assert (n - 1) % 8 == (n - 2) % 8 + 1;
      }
    }
  }

  /** `moveShip`'s first step: a ship past either side is put back one unit
      inside half its width from that side (the left test comes first). */
  function Clamped(x: real, width: real): real
  {
    var x1 := if x < BaseWidth / 2.0 then BaseWidth / 2.0 + 1.0 else x;
    if x1 > width - BaseWidth / 2.0 then width - BaseWidth / 2.0 - 1.0 else x1
  }

  /** `moveShip`'s second step: (width, 0) rescaled to the signed speed. A zero
      vector stays zero, and a negative width flips the direction. */
  function Step(direction: Direction, width: real): real
  {
    if width == 0.0 then 0.0
    else if (width > 0.0) == (direction == Right) then Speed
    else -Speed
  }

  /** On a screen wider than the ship, the clamp leaves a ship that is inside
      the margins where it is, and brings any other ship within them. */
  lemma ClampKeepsShipInside(x: real, width: real)
    requires width >= BaseWidth + 2.0
    ensures BaseWidth / 2.0 <= Clamped(x, width) <= width - BaseWidth / 2.0
    ensures BaseWidth / 2.0 <= x <= width - BaseWidth / 2.0 ==> Clamped(x, width) == x
  {
  }

  /** One move on such a screen therefore never leaves the ship further than
      one step (15 units) outside the margins, whatever it did before. */
  lemma MoveStaysNearScreen(x: real, width: real, direction: Direction)
    requires width >= BaseWidth + 2.0
    ensures BaseWidth / 2.0 - Speed <= Clamped(x, width) + Step(direction, width) <= width - BaseWidth / 2.0 + Speed
  {
  }

  class SpaceShip {
    var x: real
    var y: real
    var health: real
    var godMode: bool
    var bulletColor: int
    var waitFrameCount: real
    var bullets: seq<Bullet>
    var shapePoints: seq<Polygon.Point>

    /** Centred horizontally, its base ten units above the bottom edge. */
    constructor (width: real, height: real)
      ensures x == width / 2.0 && y == height - BaseHeight - 10.0
      ensures health == FullHealth && !godMode && bulletColor == SingleShot
      ensures waitFrameCount == MinFrameWaitCount && bullets == [] && shapePoints == []
    {
      x := width / 2.0;
      y := height - BaseHeight - 10.0;
      health := FullHealth;
      godMode := false;
      bulletColor := SingleShot;
      waitFrameCount := MinFrameWaitCount;
      bullets := [];
      shapePoints := [];
    }

    /** `show`, which also records the outline used for hit tests. */
    method Show()
      modifies this`shapePoints
      ensures shapePoints == Polygon.ShipOutline(x, y)
    {
      shapePoints := Polygon.ShipOutline(x, y);
    }

    /** `update`: rearm the cooldown, move every bullet one step, then drop
        the bullets that have left the screen, keeping the others in order. */
    method Update(fireKeyDown: bool, width: real)
      modifies this`waitFrameCount, this`bullets
      ensures waitFrameCount == Rearmed(old(waitFrameCount), fireKeyDown)
      ensures bullets == Lists.Remaining(AdvancedAll(old(bullets)), b => ShipBulletGone(b, width))
    {
      if !fireKeyDown {
        waitFrameCount := MinFrameWaitCount;
      }
      if waitFrameCount < 0.0 {
        waitFrameCount := MinFrameWaitCount;
      }
      var moved := AdvanceAll(bullets);
      bullets := Lists.RemoveWhere(moved, b => ShipBulletGone(b, width));
    }

    /** `moveShip`: clamp into the screen, then step by the speed. */
    method MoveShip(direction: Direction, width: real)
      modifies this`x
      ensures x == Clamped(old(x), width) + Step(direction, width)
    {
      if x < BaseWidth / 2.0 {
        x := BaseWidth / 2.0 + 1.0;
      }
      if x > width - BaseWidth / 2.0 {
        x := width - BaseWidth / 2.0 - 1.0;
      }
      x := x + Step(direction, width);
    }

    method SetBulletType(colorValue: int)
      modifies this`bulletColor
      ensures bulletColor == colorValue
    {
      bulletColor := colorValue;
    }

    /** `getBulletType`: the batch for the current weapon colour; the fan is
        built by a loop over 0, 10, ..., 70. */
    method GetBulletType(spread: int -> (real, real)) returns (batch: seq<Bullet>)
      ensures batch == BulletBatch(x, y, bulletColor, spread)
    {
      if bulletColor == SingleShot {
        batch := [NewBullet(x, GunY(y), BulletSize, true, Some(bulletColor), None, spread)];
      } else if bulletColor == DoubleShot {
        batch := [NewBullet(x - ShooterWidth, GunY(y), BulletSize, true, Some(bulletColor), None, spread),
                  NewBullet(x + ShooterWidth, GunY(y), BulletSize, true, Some(bulletColor), None, spread)];
      } else {
        batch := [];
        var i := 0;
        while i < 80
          invariant 0 <= i <= 80 && i % 10 == 0
          invariant |batch| == i / 10
          invariant forall k :: 0 <= k < |batch| ==> batch[k] == FanBullet(x, y, bulletColor, k, spread)
        {
          batch := batch + [NewBullet(x, GunY(y), BulletSize, true, Some(bulletColor), Some(-40 + i), spread)];
          i := i + 10;
        }
      }
    }

    /** `shootBullets`: fire a batch only when the counter is exactly at the
        minimum wait, then count down by `decrement` (60 / frame rate). */
    method ShootBullets(decrement: real, spread: int -> (real, real)) returns (fired: bool)
      modifies this`bullets, this`waitFrameCount
      ensures fired <==> old(waitFrameCount) == MinFrameWaitCount
      ensures bullets == old(bullets) + (if fired then BulletBatch(x, y, bulletColor, spread) else [])
      ensures waitFrameCount == old(waitFrameCount) - decrement
    {
      fired := waitFrameCount == MinFrameWaitCount;
      if fired {
        var batch := GetBulletType(spread);
        bullets := bullets + batch;
      }
      waitFrameCount := waitFrameCount - decrement;
    }

    /** `decreaseHealth`: ignored in god mode. */
    method DecreaseHealth(amount: real)
      modifies this`health
      ensures health == if godMode then old(health) else old(health) - amount
    {
      if !godMode {
        health := health - amount;
      }
    }

    method ActivateGodMode()
      modifies this`godMode
      ensures godMode
    {
      godMode := true;
    }

    /** `isDestroyed`: a ship at or below zero health is destroyed, and its
        health is pinned to zero. */
    method IsDestroyed() returns (destroyed: bool)
      modifies this`health
      ensures destroyed <==> old(health) <= 0.0
      ensures health == if destroyed then 0.0 else old(health)
      ensures 0.0 <= health
    {
      if health <= 0.0 {
        health := 0.0;
        destroyed := true;
      } else {
        destroyed := false;
      }
    }

    /** `reset`: a new life at the same position. */
    method Reset()
      modifies this`bullets, this`waitFrameCount, this`health, this`godMode, this`bulletColor
      ensures bullets == [] && waitFrameCount == MinFrameWaitCount && health == FullHealth
      ensures !godMode && bulletColor == SingleShot
    {
      bullets := [];
      waitFrameCount := MinFrameWaitCount;
      health := FullHealth;
      godMode := false;
      bulletColor := SingleShot;
    }

    /** `pointIsInside`: the even-odd test against the outline last shown. */
    method PointIsInside(point: Polygon.Point) returns (inside: bool)
      ensures inside <==> Polygon.Inside(shapePoints, point)
    {
      inside := Polygon.PointIsInside(shapePoints, point);
    }
  }
}
