/** Enemies and the boss. A boss is an enemy with a square outline, a fixed
    width and health, half the damage per hit, and a timer that spawns small
    enemies around it. */
module Enemies {
  import opened Projectile
  import opened Random
  import Polygon
  import Lists

  const BulletTime: real := 7.0        // constBulletTime
  const FireRange: real := 200.0
  const EnemyHitDamage: real := 20.0
  const BossHitDamage: real := 10.0
  const BossWidth: real := 200.0
  const BossMaxHealth: real := 500.0
  const SpawnInterval: int := 100
  const SpawnCount: nat := 5
  const SpawnWidth: real := 20.0
  const SpawnOffset: real := 50.0

  /** Health grows with size: 100 for a 45-wide enemy. */
  function MaxHealth(baseWidth: real): real
  {
    100.0 * baseWidth / 45.0
  }

  function HitDamage(isBoss: bool): real
  {
    if isBoss then BossHitDamage else EnemyHitDamage
  }

  /** The bullet an enemy drops: from where it was before this frame's move,
      five general dimensions (one width) below its centre, a fifth of its
      width wide, going down, without a colour. */
  function EnemyBullet(prevX: real, y: real, baseWidth: real): Bullet
  {
    StraightBullet(prevX, y + (baseWidth / 5.0) * 5.0, baseWidth / 5.0, false, None)
  }

  /** The spawn timer after one boss update. */
  function Tick(timer: int): int
  {
    if timer + 1 >= SpawnInterval then 0 else timer + 1
  }

  function TimerAfter(timer: int, n: nat): int
  {
    if n == 0 then timer else Tick(TimerAfter(timer, n - 1))
  }

  /** Small enemies spawned by `n` boss updates from timer value `timer`. */
  function SpawnedAfter(timer: int, n: nat): nat
  {
    if n == 0 then 0
    else SpawnedAfter(timer, n - 1) + (if TimerAfter(timer, n - 1) + 1 >= SpawnInterval then SpawnCount else 0)
  }

  /** A boss spawns five enemies on every hundredth update: after `n` updates
      from timer `t` the timer reads (t + n) mod 100 and 5 * ((t + n) div 100)
      enemies have appeared. */
  lemma {:induction false} BossSpawnRhythm(t: int, n: nat)
    requires 0 <= t < SpawnInterval
    ensures TimerAfter(t, n) == (t + n) % SpawnInterval
    ensures SpawnedAfter(t, n) == SpawnCount * ((t + n) / SpawnInterval)
  {
    if n > 0 {
      BossSpawnRhythm(t, n - 1);
      var m := t + n - 1;
      if m % SpawnInterval + 1 >= SpawnInterval {
        assert (m + 1) / SpawnInterval == m / SpawnInterval + 1;
      } else {
        assert (m + 1) / SpawnInterval == m / SpawnInterval;
      }
    }
  }

  /** Health after `n` hits of `damage` each. */
  function HealthAfterHits(health: real, damage: real, n: nat): real
  {
    if n == 0 then health else HealthAfterHits(health, damage, n - 1) - damage
  }

  lemma {:induction false} HealthAfterHitsIs(health: real, damage: real, n: nat)
    ensures HealthAfterHits(health, damage, n) == health - (n as real) * damage
  {
    if n > 0 {
      HealthAfterHitsIs(health, damage, n - 1);
    }
  }

  /** An enemy of width w dies (health below zero) on hit n exactly when 9n > w:
      a 45-wide enemy survives five hits and dies on the sixth. */
  lemma EnemyHitsToKill(w: real, n: nat)
    ensures HealthAfterHits(MaxHealth(w), EnemyHitDamage, n) < 0.0 <==> 9.0 * (n as real) > w
  {
    HealthAfterHitsIs(MaxHealth(w), EnemyHitDamage, n);
  }

  /** A boss survives fifty hits and dies on the fifty-first. */
  lemma BossHitsToKill(n: nat)
    ensures HealthAfterHits(BossMaxHealth, BossHitDamage, n) < 0.0 <==> n > 50
  {
    HealthAfterHitsIs(BossMaxHealth, BossHitDamage, n);
  }

  class Enemy {
    const isBoss: bool
    const baseWidth: real
    const maxHealth: real
    var x: real
    var y: real
    var prevX: real
    var targetX: real       // positionToReach
    var targetY: real
    var health: real
    var currentBulletTime: real
    var bullets: seq<Bullet>
    var shapePoints: seq<Polygon.Point>
    var spawnTimer: int

    ghost predicate Valid()
      reads this`spawnTimer, this`health
    {
      && (isBoss ==> baseWidth == BossWidth && maxHealth == BossMaxHealth)
      && (!isBoss ==> maxHealth == MaxHealth(baseWidth) && spawnTimer == 0)
      && 0 <= spawnTimer < SpawnInterval
      && health <= maxHealth
    }

    /** `new Enemy(x, y, w)`: full health, a rested gun, and a first target
        drawn from the upper half of the screen. */
    constructor (xPosition: real, yPosition: real, enemyBaseWidth: real, width: real, height: real, rng: Rng)
      requires rng.Valid()
      modifies rng
      ensures Valid() && rng.Valid() && rng.used == old(rng.used) + 2
      ensures !isBoss && baseWidth == enemyBaseWidth && health == maxHealth == MaxHealth(enemyBaseWidth)
      ensures x == xPosition && y == yPosition && prevX == xPosition
      ensures targetX == Scale(rng.stream(old(rng.used)), 0.0, width)
      ensures targetY == Scale(rng.stream(old(rng.used) + 1), 0.0, height / 2.0)
      ensures currentBulletTime == BulletTime && bullets == [] && shapePoints == [] && spawnTimer == 0
    {
      isBoss := false;
      baseWidth := enemyBaseWidth;
      maxHealth := MaxHealth(enemyBaseWidth);
      x := xPosition;
      y := yPosition;
      prevX := xPosition;
      health := MaxHealth(enemyBaseWidth);
      currentBulletTime := BulletTime;
      bullets := [];
      shapePoints := [];
      spawnTimer := 0;
      new;
      targetX := rng.Between(0.0, width);
      targetY := rng.Between(0.0, height / 2.0);
    }

    /** `new Boss(x, y)`: an enemy 200 wide whose health is then raised to 500. */
    constructor Boss(xPosition: real, yPosition: real, width: real, height: real, rng: Rng)
      requires rng.Valid()
      modifies rng
      ensures Valid() && rng.Valid() && rng.used == old(rng.used) + 2
      ensures isBoss && baseWidth == BossWidth && health == maxHealth == BossMaxHealth
      ensures x == xPosition && y == yPosition && prevX == xPosition
      ensures targetX == Scale(rng.stream(old(rng.used)), 0.0, width)
      ensures targetY == Scale(rng.stream(old(rng.used) + 1), 0.0, height / 2.0)
      ensures currentBulletTime == BulletTime && bullets == [] && shapePoints == [] && spawnTimer == 0
    {
      isBoss := true;
      baseWidth := BossWidth;
      maxHealth := BossMaxHealth;
      x := xPosition;
      y := yPosition;
      prevX := xPosition;
      health := BossMaxHealth;
      currentBulletTime := BulletTime;
      bullets := [];
      shapePoints := [];
      spawnTimer := 0;
      new;
      targetX := rng.Between(0.0, width);
      targetY := rng.Between(0.0, height / 2.0);
    }

    /** `show`, which also records the outline used for hit tests. */
    method Show()
      modifies this`shapePoints
      ensures shapePoints == if isBoss then Polygon.BossOutline(x, y, baseWidth)
                             else Polygon.EnemyOutline(x, y, baseWidth)
    {
      if isBoss {
        shapePoints := Polygon.BossOutline(x, y, baseWidth);
      } else {
        shapePoints := Polygon.EnemyOutline(x, y, baseWidth);
      }
    }

    /** `shootBullets`: only with a rested gun; then one draw decides, with
        even odds, whether a bullet is dropped. */
    method ShootBullets(rng: Rng) returns (shot: bool)
      requires rng.Valid()
      modifies this`bullets, rng
      ensures rng.Valid()
      ensures rng.used == old(rng.used) + (if old(currentBulletTime) == BulletTime then 1 else 0)
      ensures shot <==> old(currentBulletTime) == BulletTime && rng.stream(old(rng.used)) < 0.5
      ensures bullets == old(bullets) + (if shot then [EnemyBullet(prevX, y, baseWidth)] else [])
    {
      shot := false;
      if currentBulletTime == BulletTime {
        var r := rng.Next();
        if r < 0.5 {
          bullets := bullets + [EnemyBullet(prevX, y, baseWidth)];
          shot := true;
        }
      }
    }

    /** `checkPlayerDistance`: rearm a gun that has gone negative; shoot when
        the player is within 200 horizontally, otherwise rest the gun; then
        count down by `decrement` (60 / frame rate). */
    method CheckPlayerDistance(playerX: real, decrement: real, rng: Rng) returns (shot: bool)
      requires rng.Valid()
      modifies this`bullets, this`currentBulletTime, rng
      ensures rng.Valid()
      ensures var rearmed := if old(currentBulletTime) < 0.0 then BulletTime else old(currentBulletTime);
              var inRange := Abs(playerX - x) < FireRange;
              && currentBulletTime == (if inRange then rearmed else BulletTime) - decrement
              && rng.used == old(rng.used) + (if inRange && rearmed == BulletTime then 1 else 0)
              && (shot <==> inRange && rearmed == BulletTime && rng.stream(old(rng.used)) < 0.5)
      ensures bullets == old(bullets) + (if shot then [EnemyBullet(prevX, y, baseWidth)] else [])
    {
      if currentBulletTime < 0.0 {
        currentBulletTime := BulletTime;
      }
      if Abs(playerX - x) < FireRange {
        shot := ShootBullets(rng);
      } else {
        currentBulletTime := BulletTime;
        shot := false;
      }
      currentBulletTime := currentBulletTime - decrement;
    }

    /** `takeDamageAndCheckDeath`: lose 20 (a boss 10); dead once below zero. */
    method TakeDamageAndCheckDeath() returns (dead: bool)
      requires Valid()
      modifies this`health
      ensures Valid()
      ensures health == old(health) - HitDamage(isBoss)
      ensures dead <==> health < 0.0
    {
      health := health - HitDamage(isBoss);
      dead := health < 0.0;
    }

    /** `update`: remember the x before moving, move by this frame's velocity,
        pick a new target when barely moving, move the bullets and drop those
        below the screen. A boss then advances its spawn timer and, every
        hundredth update, spawns five small enemies. */
    method Update(velocity: (real, real), width: real, height: real, rng: Rng) returns (spawned: seq<Enemy>)
      requires Valid() && rng.Valid()
      modifies this`prevX, this`x, this`y, this`targetX, this`targetY, this`bullets, this`spawnTimer, rng
      ensures Valid() && rng.Valid()
      ensures prevX == old(x) && x == old(x) + velocity.0 && y == old(y) + velocity.1
      ensures var spawns := isBoss && old(spawnTimer) + 1 >= SpawnInterval;
              && rng.used == old(rng.used) + (if Slow(velocity) then 2 else 0) + (if spawns then 4 * SpawnCount else 0)
              && |spawned| == (if spawns then SpawnCount else 0)
      ensures Slow(velocity) ==>
        targetX == Scale(rng.stream(old(rng.used)), 0.0, width) &&
        targetY == Scale(rng.stream(old(rng.used) + 1), 0.0, height / 2.0)
      ensures !Slow(velocity) ==> targetX == old(targetX) && targetY == old(targetY)
      ensures bullets == Lists.Remaining(AdvancedAll(old(bullets)), b => EnemyBulletGone(b, height))
      ensures spawnTimer == if isBoss then Tick(old(spawnTimer)) else old(spawnTimer)
      ensures forall e :: e in spawned ==>
        fresh(e) && e.Valid() && !e.isBoss && e.baseWidth == SpawnWidth && e.health == MaxHealth(SpawnWidth)
      ensures Lists.Distinct(spawned)
    {
      Move(velocity, width, height, rng);
      var moved := AdvanceAll(bullets);
      bullets := Lists.RemoveWhere(moved, b => EnemyBulletGone(b, height));
      spawned := [];
      if isBoss {
        spawnTimer := spawnTimer + 1;
        if spawnTimer >= SpawnInterval {
          spawnTimer := 0;
          spawned := SpawnSmallEnemies(width, height, rng);
        }
      }
    }

    /** The motion part of `update`. */
    method Move(velocity: (real, real), width: real, height: real, rng: Rng)
      requires rng.Valid()
      modifies this`prevX, this`x, this`y, this`targetX, this`targetY, rng
      ensures rng.Valid() && rng.used == old(rng.used) + (if Slow(velocity) then 2 else 0)
      ensures prevX == old(x) && x == old(x) + velocity.0 && y == old(y) + velocity.1
      ensures Slow(velocity) ==>
        targetX == Scale(rng.stream(old(rng.used)), 0.0, width) &&
        targetY == Scale(rng.stream(old(rng.used) + 1), 0.0, height / 2.0)
      ensures !Slow(velocity) ==> targetX == old(targetX) && targetY == old(targetY)
    {
      prevX := x;
      x := x + velocity.0;
      y := y + velocity.1;
      if Slow(velocity) {
        targetX := rng.Between(0.0, width);
        targetY := rng.Between(0.0, height / 2.0);
      }
    }

    /** `spawnSmallEnemies`: five 20-wide enemies, each placed at an offset
        drawn from [-50, 50) on both axes around this boss. */
    method SpawnSmallEnemies(width: real, height: real, rng: Rng) returns (spawned: seq<Enemy>)
      requires rng.Valid()
      modifies rng
      ensures rng.Valid() && rng.used == old(rng.used) + 4 * SpawnCount
      ensures |spawned| == SpawnCount && Lists.Distinct(spawned)
      ensures forall e :: e in spawned ==>
        && fresh(e) && e.Valid() && !e.isBoss && e.baseWidth == SpawnWidth && e.health == MaxHealth(SpawnWidth)
        && x - SpawnOffset <= e.x < x + SpawnOffset && y - SpawnOffset <= e.y < y + SpawnOffset
    {
      spawned := [];
      var i := 0;
      while i < SpawnCount
        invariant 0 <= i <= SpawnCount && |spawned| == i
        invariant rng.Valid() && rng.used == old(rng.used) + 4 * i
        invariant Lists.Distinct(spawned)
        invariant forall e :: e in spawned ==>
          && fresh(e) && e.Valid() && !e.isBoss && e.baseWidth == SpawnWidth && e.health == MaxHealth(SpawnWidth)
          && x - SpawnOffset <= e.x < x + SpawnOffset && y - SpawnOffset <= e.y < y + SpawnOffset
      {
        var offsetX := rng.Between(-SpawnOffset, SpawnOffset);
        var offsetY := rng.Between(-SpawnOffset, SpawnOffset);
        var e := new Enemy(x + offsetX, y + offsetY, SpawnWidth, width, height, rng);
        spawned := spawned + [e];
        i := i + 1;
      }
    }

    /** `pointIsInside`: the even-odd test against the outline last shown. */
    method PointIsInside(point: Polygon.Point) returns (inside: bool)
      ensures inside <==> Polygon.Inside(shapePoints, point)
    {
      inside := Polygon.PointIsInside(shapePoints, point);
    }
  }

  /** A speed of at most 1, tested on the squared length. */
  predicate Slow(velocity: (real, real))
  {
    velocity.0 * velocity.0 + velocity.1 * velocity.1 <= 1.0
  }

  function Abs(v: real): real
  {
    if v < 0.0 then -v else v
  }
}
