/** The game state shared by `draw()` and the level director: the ship, the
    lists of enemies, explosions and pickups, the score and the level. */
module Game {
  import opened Projectile
  import opened Random
  import Polygon
  import Lists
  import Ship
  import Enemies
  import Effects
  import Levels

  const PickupColors: seq<int> := [0, 120, 175]
  const KillScore: int := 10
  const SplitWidth: real := 100.0
  const PickupChance: real := 0.5
  const FireworkChance: real := 0.1
  const FireworkMaxWeight: real := 10.0

  /** Where each enemy of `es` stands and how wide it is: what its
      explosion is made of when the ship is destroyed. */
  ghost function Spots(es: seq<Enemies.Enemy>): (r: seq<(real, real, real)>)
    reads es
    ensures |r| == |es| && forall k :: 0 <= k < |es| ==> r[k] == (es[k].x, es[k].y, es[k].baseWidth)
  {
    seq(|es|, k requires 0 <= k < |es| reads es => (es[k].x, es[k].y, es[k].baseWidth))
  }

  /** The explosions `xs` that the death check of a destroyed ship leaves
      after `x0`: the ship's own blast at (`shipX`, `shipY`) when this is the
      `first` such frame, then one blast per enemy spot, in order. */
  predicate Blasted(x0: seq<Effects.Explosion>, xs: seq<Effects.Explosion>, first: bool,
                    shipX: real, shipY: real, spots: seq<(real, real, real)>)
  {
    var blasts := if first then 1 else 0;
    && x0 <= xs && |xs| == |x0| + blasts + |spots|
    && (first ==>
          xs[|x0|].x == shipX && xs[|x0|].y == shipY && xs[|x0|].maxStrokeWeight == Ship.BaseWidth)
    && forall k :: 0 <= k < |spots| ==>
         var boom := xs[|x0| + blasts + k];
         boom.x == spots[k].0 && boom.y == spots[k].1 && boom.maxStrokeWeight == BlastWeight(spots[k].2)
  }

  /** The death check's explosions in two steps: the ship's own blast (on
      the `first` frame only) takes `x0` to `x1`, then the removal loop adds
      one blast per enemy spot. */
  lemma BlastedFrom(x0: seq<Effects.Explosion>, x1: seq<Effects.Explosion>, xs: seq<Effects.Explosion>,
                    first: bool, shipX: real, shipY: real, spots: seq<(real, real, real)>)
    requires first ==> && x0 <= x1 && |x1| == |x0| + 1
                       && x1[|x0|].x == shipX && x1[|x0|].y == shipY && x1[|x0|].maxStrokeWeight == Ship.BaseWidth
    requires !first ==> x1 == x0
    requires x1 <= xs && |xs| == |x1| + |spots|
    requires forall k :: 0 <= k < |spots| ==>
      xs[|x1| + k].x == spots[k].0 && xs[|x1| + k].y == spots[k].1
      && xs[|x1| + k].maxStrokeWeight == BlastWeight(spots[k].2)
    ensures Blasted(x0, xs, first, shipX, shipY, spots)
  {
  }

  /** Stroke weight of the explosion left by an enemy: 7 for a 45-wide one. */
  function BlastWeight(baseWidth: real): real
  {
    baseWidth * 7.0 / 45.0
  }

  /** What an enemy bullet costs the ship: 2 * size / 10. */
  function BulletDamage(b: Bullet): real
  {
    2.0 * b.baseWidth / 10.0
  }

  /** A bullet whose position is inside `outline`. */
  function HitsOutline(outline: seq<Polygon.Point>): Bullet -> bool
  {
    (b: Bullet) => Polygon.Inside(outline, (b.x, b.y))
  }

  /** Damage of the bullets of `bs` that are inside `outline`. */
  function VolleyDamage(bs: seq<Bullet>, outline: seq<Polygon.Point>): real
  {
    if bs == [] then 0.0
    else VolleyDamage(bs[..|bs| - 1], outline)
         + (if HitsOutline(outline)(bs[|bs| - 1]) then BulletDamage(bs[|bs| - 1]) else 0.0)
  }

  /** The damage of the first k + 1 bullets: that of the first k, plus the
      k-th bullet's when it is inside. */
  lemma VolleyStep(bs: seq<Bullet>, k: nat, outline: seq<Polygon.Point>)
    requires k < |bs|
    ensures VolleyDamage(bs[..k + 1], outline)
         == VolleyDamage(bs[..k], outline) + (if HitsOutline(outline)(bs[k]) then BulletDamage(bs[k]) else 0.0)
  {
    assert bs[..k + 1][..k] == bs[..k];
  }

  /** Damage of all the enemies' bullets inside `outline`. */
  function TotalDamage(volleys: seq<seq<Bullet>>, outline: seq<Polygon.Point>): real
  {
    if volleys == [] then 0.0
    else TotalDamage(volleys[..|volleys| - 1], outline) + VolleyDamage(volleys[|volleys| - 1], outline)
  }

  /** Bullets cost no health unless some are in the ship, and never give any. */
  lemma {:induction false} VolleyDamageBounds(bs: seq<Bullet>, outline: seq<Polygon.Point>)
    requires forall i :: 0 <= i < |bs| ==> bs[i].baseWidth >= 0.0
    ensures VolleyDamage(bs, outline) >= 0.0
    ensures (forall i :: 0 <= i < |bs| ==> !HitsOutline(outline)(bs[i])) ==> VolleyDamage(bs, outline) == 0.0
  {
    if bs != [] {
      VolleyDamageBounds(bs[..|bs| - 1], outline);
    }
  }

  ghost function BulletLists(es: seq<Enemies.Enemy>): (r: seq<seq<Bullet>>)
    reads es
    ensures |r| == |es|
  {
    seq(|es|, k requires 0 <= k < |es| reads es => es[k].bullets)
  }

  /** A map from each listed explosion to its particles. */
  lemma SnapParticles(es: seq<Effects.Explosion>) returns (r: map<Effects.Explosion, seq<Effects.Particle>>)
    ensures forall m :: 0 <= m < |es| ==> es[m] in r && r[es[m]] == es[m].particles
  {
    r := map e: Effects.Explosion | e in es :: e.particles;
  }

  /** Each listed explosion's particles after this frame, from those in `before`. */
  lemma SnapFrames(es: seq<Effects.Explosion>, before: map<Effects.Explosion, seq<Effects.Particle>>)
    returns (after: map<Effects.Explosion, seq<Effects.Particle>>)
    requires forall m :: 0 <= m < |es| ==> es[m] in before
    ensures forall m :: 0 <= m < |es| ==> es[m] in after && after[es[m]] == Effects.Frame(before[es[m]])
  {
    after := map e | e in before :: Effects.Frame(before[e]);
  }

  /** The explosions of `s` before index `k` hold their particles of `after`,
      the others still those of `before`. */
  ghost predicate BurntUpTo(s: seq<Effects.Explosion>, k: nat,
                            before: map<Effects.Explosion, seq<Effects.Particle>>,
                            after: map<Effects.Explosion, seq<Effects.Particle>>)
    reads s`particles
  {
    && (forall m :: 0 <= m < |s| ==> s[m] in before && s[m] in after)
    && (forall m :: 0 <= m < |s| ==> s[m].particles == if m < k then after[s[m]] else before[s[m]])
  }

  /** Before the explosion loop, every explosion still holds its particles of `before`. */
  lemma BurnStart(s: seq<Effects.Explosion>, before: map<Effects.Explosion, seq<Effects.Particle>>,
                  after: map<Effects.Explosion, seq<Effects.Particle>>)
    requires forall m :: 0 <= m < |s| ==> s[m] in before && before[s[m]] == s[m].particles && s[m] in after
    ensures BurntUpTo(s, 0, before, after)
  {
  }

  /** An explosion whose particles are all gone after this frame. */
  function BurnsOut(before: map<Effects.Explosion, seq<Effects.Particle>>): Effects.Explosion -> bool
  {
    (e: Effects.Explosion) => e in before && Effects.Frame(before[e]) == []
  }

  /** An explosion whose particles, as recorded in `after`, are all gone. */
  function Emptied(after: map<Effects.Explosion, seq<Effects.Particle>>): Effects.Explosion -> bool
  {
    (e: Effects.Explosion) => e in after && after[e] == []
  }

  /** A map from each listed pickup to its height after this frame's fall. */
  lemma SnapFalls(ps: seq<Effects.Pickup>) returns (r: map<Effects.Pickup, real>)
    ensures forall m :: 0 <= m < |ps| ==> ps[m] in r && r[ps[m]] == ps[m].y + ps[m].vy
  {
    r := map p: Effects.Pickup | p in ps :: p.y + p.vy;
  }

  /** Each listed pickup's angle, and the angle this frame's spin turns it to. */
  lemma SnapSpins(ps: seq<Effects.Pickup>, frameRate: real)
    returns (angles: map<Effects.Pickup, real>, spun: map<Effects.Pickup, real>)
    ensures forall m :: 0 <= m < |ps| ==>
      && ps[m] in angles && angles[ps[m]] == ps[m].angle
      && ps[m] in spun && spun[ps[m]] == Effects.Spun(ps[m].angle, frameRate)
  {
    angles := map p: Effects.Pickup | p in ps :: p.angle;
    spun := map p: Effects.Pickup | p in ps :: Effects.Spun(p.angle, frameRate);
  }

  /** The pickups of `s` before index `k` have spun and fallen (to `spun`
      and `next`), the others are still at `angles` and one fall short of
      `next`. */
  ghost predicate FallenUpTo(s: seq<Effects.Pickup>, k: nat, next: map<Effects.Pickup, real>,
                             angles: map<Effects.Pickup, real>, spun: map<Effects.Pickup, real>)
    reads s`angle, s`y
  {
    && (forall m :: 0 <= m < |s| ==> s[m] in next && s[m] in angles && s[m] in spun)
    && (forall m :: 0 <= m < |s| ==> s[m].Valid())
    && (forall m :: 0 <= m < |s| ==>
          if m < k then s[m].y == next[s[m]] && s[m].angle == spun[s[m]]
          else s[m].y + s[m].vy == next[s[m]] && s[m].angle == angles[s[m]])
  }

  /** Before the pickup loop, every pickup is where the snapshots say. */
  lemma FallStart(s: seq<Effects.Pickup>, next: map<Effects.Pickup, real>,
                  angles: map<Effects.Pickup, real>, spun: map<Effects.Pickup, real>)
    requires forall m :: 0 <= m < |s| ==> s[m].Valid()
    requires forall m :: 0 <= m < |s| ==> s[m] in next && next[s[m]] == s[m].y + s[m].vy
    requires forall m :: 0 <= m < |s| ==> s[m] in angles && angles[s[m]] == s[m].angle && s[m] in spun
    ensures FallenUpTo(s, 0, next, angles, spun)
  {
  }

  /** A pickup that, after this frame's fall, is below the screen. */
  function FallsOut(next: map<Effects.Pickup, real>, height: real): Effects.Pickup -> bool
  {
    (p: Effects.Pickup) => p in next && next[p] > height + Effects.PickupWidth
  }

  /** A map from each listed pickup to its position. */
  lemma SnapPositions(ps: seq<Effects.Pickup>) returns (r: map<Effects.Pickup, Polygon.Point>)
    ensures forall m :: 0 <= m < |ps| ==> ps[m] in r && r[ps[m]] == (ps[m].x, ps[m].y)
  {
    r := map p: Effects.Pickup | p in ps :: (p.x, p.y);
  }

  /** A pickup whose position is inside `outline`. */
  function Touching(outline: seq<Polygon.Point>, at: map<Effects.Pickup, Polygon.Point>): Effects.Pickup -> bool
  {
    (p: Effects.Pickup) => p in at && Polygon.Inside(outline, at[p])
  }

  /** The weapon colour after collecting: that of the last pickup touched, or
      `current` when none is. */
  function CollectedColor(ps: seq<Effects.Pickup>, touching: Effects.Pickup -> bool, current: int): int
  {
    if ps == [] then current
    else if touching(ps[|ps| - 1]) then ps[|ps| - 1].colorValue
    else CollectedColor(ps[..|ps| - 1], touching, current)
  }

  /** Touching one more pickup makes its colour the current one. */
  lemma CollectedStep(ps: seq<Effects.Pickup>, k: nat, touching: Effects.Pickup -> bool, current: int)
    requires k < |ps|
    ensures CollectedColor(ps[..k + 1], touching, current)
         == if touching(ps[k]) then ps[k].colorValue else CollectedColor(ps[..k], touching, current)
  {
    assert ps[..k + 1][..k] == ps[..k];
  }

  /** The width a level's wave gives an enemy it spawns. */
  predicate FitsWave(wave: Levels.Wave, isBoss: bool, baseWidth: real)
  {
    match wave
    case Drawn(_, lo, hi) => !isBoss && lo <= baseWidth < hi
    case Fixed(_, w) => !isBoss && baseWidth == w
    case BossWave => isBoss
    case NoWave => false
  }


  /** `floor(random() * 3)`: a draw picks one of the three pickup colours. */
  function ColorIndex(r: real): (k: nat)
    requires 0.0 <= r < 1.0
    ensures k < |PickupColors|
  {
    (r * 3.0).Floor
  }

  /** A boss whose spawn timer wraps on its next update. */
  ghost predicate Due(e: Enemies.Enemy)
    reads e`spawnTimer
  {
    e.isBoss && e.spawnTimer + 1 >= Enemies.SpawnInterval
  }

  /** How many of `es` spawn small enemies on their next update. */
  ghost function DueBosses(es: seq<Enemies.Enemy>): nat
    reads es`spawnTimer
  {
    if es == [] then 0
    else DueBosses(es[..|es| - 1]) + (if Due(es[|es| - 1]) then 1 else 0)
  }

  /** Where an enemy stood before its turn, its bullets, its boss timer, its
      gun counter and its target. */
  datatype Prior = Prior(x: real, y: real, bullets: seq<Bullet>, timer: int, time: real,
                         targetX: real, targetY: real)

  ghost function PriorOf(e: Enemies.Enemy): Prior
    reads e`x, e`y, e`bullets, e`spawnTimer, e`currentBulletTime, e`targetX, e`targetY
  {
    Prior(e.x, e.y, e.bullets, e.spawnTimer, e.currentBulletTime, e.targetX, e.targetY)
  }

  /** The priors of every listed enemy. */
  ghost function PriorsOf(es: seq<Enemies.Enemy>): (r: seq<Prior>)
    reads es
    ensures |r| == |es| && forall m :: 0 <= m < |es| ==> r[m] == PriorOf(es[m])
  {
    seq(|es|, m requires 0 <= m < |es| reads es => PriorOf(es[m]))
  }

  /** What a turn does to an enemy with prior `p`: it moved by the velocity,
      its outline is the one at its old position, a boss's timer ticked, a
      fast enemy kept its target, its gun counter was rearmed (or rested, out
      of range) and counted down, and its bullets moved and lost those below
      the screen, gaining one only when the ship is in range and the gun was
      rested. */
  predicate Turned(e: Enemies.Enemy, p: Prior, velocity: (real, real), decrement: real, shipX: real, height: real)
    reads e`prevX, e`x, e`y, e`shapePoints, e`spawnTimer, e`bullets, e`currentBulletTime, e`targetX, e`targetY
  {
    var kept := Lists.Remaining(AdvancedAll(p.bullets), (b: Bullet) => EnemyBulletGone(b, height));
    var rearmed := if p.time < 0.0 then Enemies.BulletTime else p.time;
    var inRange := Enemies.Abs(shipX - e.x) < Enemies.FireRange;
    && e.prevX == p.x && e.x == p.x + velocity.0 && e.y == p.y + velocity.1
    && e.shapePoints == (if e.isBoss then Polygon.BossOutline(p.x, p.y, e.baseWidth)
                         else Polygon.EnemyOutline(p.x, p.y, e.baseWidth))
    && e.spawnTimer == (if e.isBoss then Enemies.Tick(p.timer) else p.timer)
    && (!Enemies.Slow(velocity) ==> e.targetX == p.targetX && e.targetY == p.targetY)
    && e.currentBulletTime == (if inRange then rearmed else Enemies.BulletTime) - decrement
    && (e.bullets == kept
        || (inRange && rearmed == Enemies.BulletTime
            && e.bullets == kept + [Enemies.EnemyBullet(e.prevX, e.y, e.baseWidth)]))
  }

  /** The enemies of `s` before index `k` have taken their turn from their
      priors, the others are still at them. */
  ghost predicate TurnedUpTo(s: seq<Enemies.Enemy>, k: nat, priors: seq<Prior>,
                             steer: nat -> (real, real), decrement: real, shipX: real, height: real)
    reads s`prevX, s`x, s`y, s`shapePoints, s`spawnTimer, s`bullets, s`currentBulletTime, s`targetX, s`targetY
  {
    && |priors| == |s|
    && (forall m :: 0 <= m < |s| ==>
          if m < k then Turned(s[m], priors[m], steer(m), decrement, shipX, height) else PriorOf(s[m]) == priors[m])
  }

  /** Before the enemy loop, every enemy is at its prior. */
  lemma TurnStart(s: seq<Enemies.Enemy>, priors: seq<Prior>, steer: nat -> (real, real), decrement: real,
                  shipX: real, height: real)
    requires |priors| == |s| && forall m :: 0 <= m < |s| ==> priors[m] == PriorOf(s[m])
    ensures TurnedUpTo(s, 0, priors, steer, decrement, shipX, height)
  {
  }

  /** A boss whose timer, at `p`, reaches the spawn interval on its next update. */
  predicate DueAt(e: Enemies.Enemy, p: Prior)
  {
    e.isBoss && p.timer + 1 >= Enemies.SpawnInterval
  }

  /** Partial counts of the bosses due in `es`, whose priors are `priors`:
      `counts[m]` counts those among the first m. */
  lemma {:induction false} DueCounts(es: seq<Enemies.Enemy>, priors: seq<Prior>) returns (counts: seq<nat>)
    requires |priors| == |es| && forall m :: 0 <= m < |es| ==> priors[m] == PriorOf(es[m])
    ensures |counts| == |es| + 1 && counts[0] == 0 && counts[|es|] == DueBosses(es)
    ensures forall m :: 0 <= m < |es| ==> counts[m + 1] == counts[m] + (if DueAt(es[m], priors[m]) then 1 else 0)
  {
    if es == [] {
      counts := [0];
    } else {
      var n := |es| - 1;
      var prior := DueCounts(es[..n], priors[..n]);
      counts := prior + [prior[n] + (if DueAt(es[n], priors[n]) then 1 else 0)];
    }
  }

  /** Enemy lists hold no repeats, and every enemy is well formed and alive. */
  ghost predicate WellFormed(es: seq<Enemies.Enemy>)
    reads es`spawnTimer, es`health
  {
    && Lists.Distinct(es)
    && forall e :: e in es ==> e.Valid() && 0.0 <= e.health
  }

  /** What a living ship's part of `draw` does to a ship at height `y` with
      weapon colour `color` that stood at `x0` with counter `wait0` and
      bullets `bullets0`, leaving it at position `x` with counter `wait` and
      bullets `bullets`: the ship moves one step unless both arrows or
      neither are held; the counter is rearmed, and counted down while fire
      is held; the bullets move, those off screen go, and a batch is fired
      when the rearmed counter stood at 7. (The outline it records is stated
      beside it.) */
  predicate ShipTurned(keys: Keys, decrement: real, spread: int -> (real, real), width: real,
                       y: real, color: int, x0: real, wait0: real, bullets0: seq<Bullet>,
                       x: real, wait: real, bullets: seq<Bullet>)
  {
    var rearmed := Ship.Rearmed(wait0, keys.fire);
    var kept := Lists.Remaining(AdvancedAll(bullets0), (b: Bullet) => ShipBulletGone(b, width));
    var fired := keys.fire && rearmed == Ship.MinFrameWaitCount;
    && x == (if keys.left == keys.right then x0
             else Ship.Clamped(x0, width) + Ship.Step(if keys.left then Ship.Left else Ship.Right, width))
    && wait == (if keys.fire then rearmed - decrement else rearmed)
    && bullets == kept + (if fired then Ship.BulletBatch(x, y, color, spread) else [])
  }

  /** The keys `draw` looks at: the arrows, the space bar, and the G-O-D combination. */
  datatype Keys = Keys(left: bool, right: bool, fire: bool, godCombo: bool)

  class Game {
    const width: real
    const height: real
    const ship: Ship.SpaceShip
    var enemies: seq<Enemies.Enemy>
    var explosions: seq<Effects.Explosion>
    var pickups: seq<Effects.Pickup>
    var score: int
    var currentLevelCount: int
    var timeoutCalled: bool
    var pendingTimers: nat      // level timers set and not yet fired
    var gameStarted: bool
    var gamePaused: bool
    var spaceShipDestroyed: bool

    /** Every listed enemy is distinct, well formed and not dead. */
    ghost predicate EnemiesOk()
      reads this`enemies, enemies`spawnTimer, enemies`health
    {
      WellFormed(enemies)
    }

    /** The other lists hold no repeats, pickups are well formed, the level is
        1 to 21, and a set guard means a timer is pending for a level that exists. */
    ghost predicate OthersOk()
      reads this`explosions, this`pickups, this`currentLevelCount, this`timeoutCalled, this`pendingTimers,
            pickups`angle
    {
      && Lists.Distinct(explosions)
      && Lists.Distinct(pickups)
      && (forall p :: p in pickups ==> p.Valid())
      && 1 <= currentLevelCount <= Levels.MaxLevelCount + 1
      && (timeoutCalled ==> 1 <= pendingTimers && currentLevelCount <= Levels.MaxLevelCount)
    }

    ghost predicate Valid()
      reads this`enemies, enemies`spawnTimer, enemies`health,
            this`explosions, this`pickups, this`currentLevelCount, this`timeoutCalled, this`pendingTimers,
            pickups`angle
    {
      EnemiesOk() && OthersOk()
    }

    /** At most one level advance is pending, and one is exactly when the
        guard has been passed and not yet cleared. */
    predicate OneTimer()
      reads this`pendingTimers, this`timeoutCalled
    {
      pendingTimers == if timeoutCalled then 1 else 0
    }

    /** `setup`: a new ship, empty lists, level 1. */
    constructor (width: real, height: real)
      ensures Valid() && OneTimer()
      ensures this.width == width && this.height == height && fresh(ship)
      ensures enemies == [] && explosions == [] && pickups == [] && score == 0
      ensures currentLevelCount == 1 && !timeoutCalled && !gameStarted && !gamePaused && !spaceShipDestroyed
      ensures ship.health == Ship.FullHealth && ship.bullets == []
    {
      this.width := width;
      this.height := height;
      ship := new Ship.SpaceShip(width, height);
      enemies := [];
      explosions := [];
      pickups := [];
      score := 0;
      currentLevelCount := 1;
      timeoutCalled := false;
      pendingTimers := 0;
      gameStarted := false;
      gamePaused := false;
      spaceShipDestroyed := false;
    }

    /** The death check of `draw`: when the ship is destroyed, it explodes
        once, and every enemy is removed, each leaving an explosion. */
    method CheckShipDeath(rng: Rng) returns (destroyed: bool)
      requires Valid() && rng.Valid()
      modifies this`enemies, this`explosions, this`spaceShipDestroyed, ship`health, rng
      ensures Valid() && rng.Valid()
      ensures destroyed <==> old(ship.health) <= 0.0
      ensures ship.health == if destroyed then 0.0 else old(ship.health)
      ensures !destroyed ==>
        && enemies == old(enemies) && explosions == old(explosions)
        && spaceShipDestroyed == old(spaceShipDestroyed) && rng.used == old(rng.used)
      ensures destroyed ==>
        && spaceShipDestroyed && enemies == []
        && Blasted(old(explosions), explosions, !old(spaceShipDestroyed), ship.x, ship.y, old(Spots(enemies)))
      ensures forall k :: |old(explosions)| <= k < |explosions| ==> fresh(explosions[k])
    {
      ghost var first := !spaceShipDestroyed;
      destroyed := ship.IsDestroyed();
      if destroyed {
        if !spaceShipDestroyed {
          var boom := new Effects.Explosion(ship.x, ship.y, Ship.BaseWidth, rng);
          Lists.DistinctAppend(explosions, [boom]);
          explosions := explosions + [boom];
          spaceShipDestroyed := true;
        }
        ghost var x1, spots := explosions, Spots(enemies);
        assert spots == old(Spots(enemies));
        enemies, explosions := BlastAll(enemies, explosions, rng);
        BlastedFrom(old(explosions), x1, explosions, first, ship.x, ship.y, spots);
      }
    }

    /** The removal loop of the death check over the lists `es` and `xs`:
        the first enemy is spliced out and leaves an explosion at its place,
        until none is left. */
    static method BlastAll(es: seq<Enemies.Enemy>, xs: seq<Effects.Explosion>, rng: Rng)
      returns (rest: seq<Enemies.Enemy>, blasts: seq<Effects.Explosion>)
      requires rng.Valid() && Lists.Distinct(xs)
      modifies rng
      ensures rng.Valid() && rest == [] && Lists.Distinct(blasts)
      ensures xs <= blasts && |blasts| == |xs| + |es|
      ensures forall k :: |xs| <= k < |blasts| ==> fresh(blasts[k])
      ensures forall k :: 0 <= k < |es| ==>
        && blasts[|xs| + k].x == es[k].x && blasts[|xs| + k].y == es[k].y
        && blasts[|xs| + k].maxStrokeWeight == BlastWeight(es[k].baseWidth)
    {
      rest, blasts := es, xs;
      var i: int := 0;
      while i < |rest|
        invariant i == 0 && |rest| <= |es| && rest == es[|es| - |rest|..]
        invariant rng.Valid() && Lists.Distinct(blasts)
        invariant xs <= blasts && |blasts| == |xs| + (|es| - |rest|)
        invariant forall k :: |xs| <= k < |blasts| ==> fresh(blasts[k])
        invariant forall k :: 0 <= k < |es| - |rest| ==>
          && blasts[|xs| + k].x == es[k].x && blasts[|xs| + k].y == es[k].y
          && blasts[|xs| + k].maxStrokeWeight == BlastWeight(es[k].baseWidth)
        decreases |rest|
      {
        var e := rest[i];
        var boom := new Effects.Explosion(e.x, e.y, BlastWeight(e.baseWidth), rng);
        Lists.DistinctAppend(blasts, [boom]);
        blasts := blasts + [boom];
        rest := rest[..i] + rest[i + 1..];
        i := i - 1;
        i := i + 1;
      }
    }

    /** One turn of the enemy loop of `draw` for `e`: `show` (the outline at
        the position before moving), `update` with this frame's velocity, then
        `checkPlayerDistance` against the ship at `shipX`. */
    static method Turn(e: Enemies.Enemy, velocity: (real, real), decrement: real,
                       shipX: real, width: real, height: real, rng: Rng)
      returns (spawned: seq<Enemies.Enemy>, shot: bool)
      requires e.Valid() && rng.Valid()
      modifies e`shapePoints, e`prevX, e`x, e`y, e`targetX, e`targetY, e`bullets, e`spawnTimer,
               e`currentBulletTime, rng
      ensures e.Valid() && rng.Valid()
      ensures Turned(e, old(PriorOf(e)), velocity, decrement, shipX, height)
      ensures e.bullets == Lists.Remaining(AdvancedAll(old(e.bullets)), (b: Bullet) => EnemyBulletGone(b, height))
                           + (if shot then [Enemies.EnemyBullet(e.prevX, e.y, e.baseWidth)] else [])
      ensures Enemies.Slow(velocity) ==>
        e.targetX == Scale(rng.stream(old(rng.used)), 0.0, width) &&
        e.targetY == Scale(rng.stream(old(rng.used) + 1), 0.0, height / 2.0)
      ensures var rearmed := if old(e.currentBulletTime) < 0.0 then Enemies.BulletTime else old(e.currentBulletTime);
              var inRange := Enemies.Abs(shipX - e.x) < Enemies.FireRange;
              var at := old(rng.used) + (if Enemies.Slow(velocity) then 2 else 0)
                        + (if old(Due(e)) then 4 * Enemies.SpawnCount else 0);
              && rng.used == at + (if inRange && rearmed == Enemies.BulletTime then 1 else 0)
              && (shot <==> inRange && rearmed == Enemies.BulletTime && rng.stream(at) < 0.5)
      ensures |spawned| == if old(Due(e)) then Enemies.SpawnCount else 0
      ensures Lists.Distinct(spawned)
      ensures forall i :: 0 <= i < |spawned| ==>
        var c := spawned[i];
        fresh(c) && c.Valid() && !c.isBoss && c.baseWidth == Enemies.SpawnWidth && 0.0 <= c.health
    {
      e.Show();
      spawned := e.Update(velocity, width, height, rng);
      label Spawned:
      shot := e.CheckPlayerDistance(shipX, decrement, rng);
      assert 0.0 <= Enemies.MaxHealth(Enemies.SpawnWidth);
      forall i | 0 <= i < |spawned|
        ensures fresh(spawned[i]) && spawned[i].Valid() && 0.0 <= spawned[i].health
      {
        assert spawned[i] in spawned;
        assert spawned[i] != e && unchanged@Spawned(spawned[i]);
      }
    }

    /** One pass of the enemy loop: enemy k of `s` (the list the loop started
        from, a prefix of `r`) takes its turn, after which what it spawns is
        appended to `r`. */
    static method TurnNext(s: seq<Enemies.Enemy>, k: nat, r: seq<Enemies.Enemy>, ghost priors: seq<Prior>,
                           steer: nat -> (real, real), decrement: real,
                           shipX: real, width: real, height: real, rng: Rng)
      returns (next: seq<Enemies.Enemy>)
      requires k < |s| && s <= r && TurnedUpTo(s, k, priors, steer, decrement, shipX, height)
      requires rng.Valid() && Lists.Distinct(r)
      requires forall m :: 0 <= m < |r| ==> r[m].Valid() && 0.0 <= r[m].health
      modifies {s[k]}`shapePoints, {s[k]}`prevX, {s[k]}`x, {s[k]}`y, {s[k]}`targetX, {s[k]}`targetY,
               {s[k]}`bullets, {s[k]}`spawnTimer, {s[k]}`currentBulletTime, rng
      ensures rng.Valid() && r <= next && Lists.Distinct(next)
      ensures TurnedUpTo(s, k + 1, priors, steer, decrement, shipX, height)
      ensures |next| == |r| + (if DueAt(s[k], priors[k]) then Enemies.SpawnCount else 0)
      ensures forall m :: 0 <= m < |next| ==> next[m].Valid() && 0.0 <= next[m].health
      ensures forall m :: |r| <= m < |next| ==>
        fresh(next[m]) && !next[m].isBoss && next[m].baseWidth == Enemies.SpawnWidth
    {
      var e := s[k];
      assert r[k] == e;
      assert PriorOf(e) == priors[k];
      var spawned, _ := Turn(e, steer(k), decrement, shipX, width, height, rng);
      assert Turned(e, priors[k], steer(k), decrement, shipX, height);
      forall m | 0 <= m < |r| && m != k
        ensures r[m].Valid() && 0.0 <= r[m].health
      {
        assert r[m] != e;
      }
      forall m | 0 <= m < |s| && m != k
        ensures if m < k then Turned(s[m], priors[m], steer(m), decrement, shipX, height)
                else PriorOf(s[m]) == priors[m]
      {
        assert r[m] == s[m] && s[m] != e;
      }
      Lists.DistinctAppend(r, spawned);
      next := r + spawned;
    }

    /** The enemy loop of `draw` (a `forEach`) over the list `s`: every enemy
        listed when the loop starts takes its turn, in order; `steer(k)` is the
        velocity the k-th one reaches this frame. Small enemies spawned by a
        boss are appended and wait for the next frame. */
    static method TurnAll(s: seq<Enemies.Enemy>, steer: nat -> (real, real), decrement: real,
                          shipX: real, width: real, height: real, rng: Rng)
      returns (r: seq<Enemies.Enemy>)
      requires rng.Valid() && WellFormed(s)
      modifies s`shapePoints, s`prevX, s`x, s`y, s`targetX, s`targetY, s`bullets, s`spawnTimer,
               s`currentBulletTime, rng
      ensures rng.Valid() && s <= r && WellFormed(r)
      ensures |r| == |s| + Enemies.SpawnCount * old(DueBosses(s))
      ensures TurnedUpTo(s, |s|, old(PriorsOf(s)), steer, decrement, shipX, height)
      ensures forall k :: |s| <= k < |r| ==>
        fresh(r[k]) && !r[k].isBoss && r[k].baseWidth == Enemies.SpawnWidth
    {
      ghost var priors := PriorsOf(s);
      ghost var counts := DueCounts(s, priors);
      TurnStart(s, priors, steer, decrement, shipX, height);
      r := s;
      for k := 0 to |s|
        invariant rng.Valid() && s <= r && Lists.Distinct(r)
        invariant |r| == |s| + Enemies.SpawnCount * counts[k]
        invariant TurnedUpTo(s, k, priors, steer, decrement, shipX, height)
        invariant forall m :: |s| <= m < |r| ==>
          fresh(r[m]) && !r[m].isBoss && r[m].baseWidth == Enemies.SpawnWidth
        invariant forall m :: 0 <= m < |r| ==> r[m].Valid() && 0.0 <= r[m].health
      {
        r := TurnNext(s, k, r, priors, steer, decrement, shipX, width, height, rng);
      }
    }

    /** The enemy loop of `draw` on the game's list; what each turn does is
        stated by `TurnAll`. */
    method StepEnemies(steer: nat -> (real, real), decrement: real, rng: Rng)
      requires EnemiesOk() && rng.Valid()
      modifies this`enemies, enemies`shapePoints, enemies`prevX, enemies`x, enemies`y, enemies`targetX,
               enemies`targetY, enemies`bullets, enemies`spawnTimer, enemies`currentBulletTime, rng
      ensures EnemiesOk() && rng.Valid()
      ensures old(enemies) <= enemies
      ensures |enemies| == |old(enemies)| + Enemies.SpawnCount * old(DueBosses(enemies))
      ensures forall k :: |old(enemies)| <= k < |enemies| ==>
        fresh(enemies[k]) && !enemies[k].isBoss && enemies[k].baseWidth == Enemies.SpawnWidth
      ensures forall k :: 0 <= k < |enemies| ==> enemies[k] in old(enemies) || fresh(enemies[k])
    {
      ghost var e0 := enemies;
      enemies := TurnAll(enemies, steer, decrement, ship.x, width, height, rng);
      forall k | 0 <= k < |enemies|
        ensures enemies[k] in e0 || fresh(enemies[k])
      {
        if k < |e0| {
          assert enemies[k] == e0[k];
        }
      }
    }

    /** One explosion's turn in the explosion loop: `show`, then `update`. */
    static method Burn(e: Effects.Explosion)
      modifies e`particles
      ensures e.particles == Effects.Frame(old(e.particles))
    {
      e.Show();
      e.Update();
    }

    /** One pass of the explosion loop: explosion k of `s`, at index `i` of
        the spliced list `r`, burns and is spliced out when it is over. */
    static method BurnNext(s: seq<Effects.Explosion>, ghost k: nat, r: seq<Effects.Explosion>, i: int,
                           ghost before: map<Effects.Explosion, seq<Effects.Particle>>,
                           ghost after: map<Effects.Explosion, seq<Effects.Particle>>)
      returns (r': seq<Effects.Explosion>, i': int)
      requires k < |s| && Lists.Distinct(s)
      requires r == Lists.Remaining(s[..k], Emptied(after)) + s[k..]
      requires i == |Lists.Remaining(s[..k], Emptied(after))|
      requires BurntUpTo(s, k, before, after) && after[s[k]] == Effects.Frame(before[s[k]])
      modifies {s[k]}`particles
      ensures r' == Lists.Remaining(s[..k + 1], Emptied(after)) + s[k + 1..]
      ensures i' == |Lists.Remaining(s[..k + 1], Emptied(after))|
      ensures BurntUpTo(s, k + 1, before, after)
    {
      Lists.RemoveStep(r, s, k, Emptied(after));
      var e := r[i];
      Burn(e);
      forall m | 0 <= m < |s|
        ensures s[m].particles == if m < k + 1 then after[s[m]] else before[s[m]]
      {
        if m != k {
          assert s[m] != s[k];
        }
      }
      r', i' := r, i;
      if e.ExplosionComplete() {
        r' := r[..i] + r[i + 1..];
        i' := i - 1;
      }
      i' := i' + 1;
    }

    /** The explosion loop of `draw` over the list `s`: each explosion is
        shown and updated, and spliced out once it has no particle left; the
        others keep their order. `before` records each one's particles at the
        start. */
    static method BurnAll(s: seq<Effects.Explosion>)
      returns (r: seq<Effects.Explosion>, ghost before: map<Effects.Explosion, seq<Effects.Particle>>)
      requires Lists.Distinct(s)
      modifies s`particles
      ensures forall m :: 0 <= m < |s| ==> s[m] in before && before[s[m]] == old(s[m].particles)
      ensures forall m :: 0 <= m < |s| ==> s[m].particles == Effects.Frame(before[s[m]])
      ensures r == Lists.Remaining(s, BurnsOut(before))
    {
      before := SnapParticles(s);
      ghost var after := SnapFrames(s, before);
      BurnStart(s, before, after);
      r := BurnLoop(s, before, after);
      Lists.RemainingAgree(s, Emptied(after), BurnsOut(before));
    }

    /** The loop itself, from every explosion holding its particles of
        `before` to every one holding those of `after`. */
    static method BurnLoop(s: seq<Effects.Explosion>, ghost before: map<Effects.Explosion, seq<Effects.Particle>>,
                           ghost after: map<Effects.Explosion, seq<Effects.Particle>>)
      returns (r: seq<Effects.Explosion>)
      requires Lists.Distinct(s) && BurntUpTo(s, 0, before, after)
      requires forall m :: 0 <= m < |s| ==> after[s[m]] == Effects.Frame(before[s[m]])
      modifies s`particles
      ensures BurntUpTo(s, |s|, before, after)
      ensures r == Lists.Remaining(s, Emptied(after))
    {
      r := s;
      var i: int := 0;
      ghost var k := 0;
      while i < |r|
        invariant 0 <= k <= |s|
        invariant r == Lists.Remaining(s[..k], Emptied(after)) + s[k..]
        invariant i == |Lists.Remaining(s[..k], Emptied(after))|
        invariant BurntUpTo(s, k, before, after)
        decreases |s| - k
      {
        r, i := BurnNext(s, k, r, i, before, after);
        k := k + 1;
      }
      assert |r| == i + |s[k..]| && k == |s|;
      assert s[..k] == s;
    }

    /** The explosion loop of `draw` on the game's list. */
    method StepExplosions() returns (ghost before: map<Effects.Explosion, seq<Effects.Particle>>)
      requires Valid()
      modifies this`explosions, explosions`particles
      ensures Valid()
      ensures forall e :: e in old(explosions) ==> e in before && before[e] == old(e.particles)
      ensures forall e :: e in old(explosions) ==> e.particles == Effects.Frame(old(e.particles))
      ensures explosions == Lists.Remaining(old(explosions), BurnsOut(before))
    {
      assert Lists.Distinct(explosions);
      explosions, before := BurnAll(explosions);
      Lists.RemainingDistinct(old(explosions), BurnsOut(before));
    }

    /** One pickup's turn: `show` spins it, `update` makes it fall. */
    static method Fall(p: Effects.Pickup, frameRate: real)
      requires p.Valid()
      modifies p`angle, p`y
      ensures p.Valid() && p.y == old(p.y) + p.vy && p.angle == Effects.Spun(old(p.angle), frameRate)
    {
      p.Show(frameRate);
      p.Update();
    }

    /** One pass of the pickup loop: pickup k of `s`, at index `i` of the
        spliced list `r`, spins and falls, and is spliced out once below the
        screen. */
    static method FallNext(s: seq<Effects.Pickup>, ghost k: nat, r: seq<Effects.Pickup>, i: int,
                           frameRate: real, height: real, ghost next: map<Effects.Pickup, real>,
                           ghost angles: map<Effects.Pickup, real>, ghost spun: map<Effects.Pickup, real>)
      returns (r': seq<Effects.Pickup>, i': int)
      requires k < |s| && Lists.Distinct(s)
      requires r == Lists.Remaining(s[..k], FallsOut(next, height)) + s[k..]
      requires i == |Lists.Remaining(s[..k], FallsOut(next, height))|
      requires FallenUpTo(s, k, next, angles, spun) && spun[s[k]] == Effects.Spun(angles[s[k]], frameRate)
      modifies {s[k]}`angle, {s[k]}`y
      ensures r' == Lists.Remaining(s[..k + 1], FallsOut(next, height)) + s[k + 1..]
      ensures i' == |Lists.Remaining(s[..k + 1], FallsOut(next, height))|
      ensures FallenUpTo(s, k + 1, next, angles, spun)
    {
      Lists.RemoveStep(r, s, k, FallsOut(next, height));
      var p := r[i];
      Fall(p, frameRate);
      forall m | 0 <= m < |s|
        ensures s[m].Valid()
        ensures if m < k + 1 then s[m].y == next[s[m]] && s[m].angle == spun[s[m]]
                else s[m].y + s[m].vy == next[s[m]] && s[m].angle == angles[s[m]]
      {
        if m != k {
          assert s[m] != s[k];
        }
      }
      assert FallsOut(next, height)(s[k]) <==> p.IsOutOfScreen(height);
      r', i' := r, i;
      if p.IsOutOfScreen(height) {
        r' := r[..i] + r[i + 1..];
        i' := i - 1;
      }
      i' := i' + 1;
    }

    /** The pickup loop of `draw` over the list `s`: each pickup is shown
        (spun) and falls, and is spliced out once below the screen; the others
        keep their order. `next` records where each pickup falls to. */
    static method FallAll(s: seq<Effects.Pickup>, frameRate: real, height: real)
      returns (r: seq<Effects.Pickup>, ghost next: map<Effects.Pickup, real>)
      requires Lists.Distinct(s)
      requires forall m :: 0 <= m < |s| ==> s[m].Valid()
      modifies s`angle, s`y
      ensures forall m :: 0 <= m < |s| ==> s[m] in next && next[s[m]] == old(s[m].y) + s[m].vy
      ensures forall m :: 0 <= m < |s| ==>
        && s[m].Valid() && s[m].y == next[s[m]]
        && s[m].angle == Effects.Spun(old(s[m].angle), frameRate)
      ensures r == Lists.Remaining(s, FallsOut(next, height))
    {
      next := SnapFalls(s);
      ghost var angles, spun := SnapSpins(s, frameRate);
      FallStart(s, next, angles, spun);
      r := s;
      var i: int := 0;
      ghost var k := 0;
      while i < |r|
        invariant 0 <= k <= |s|
        invariant r == Lists.Remaining(s[..k], FallsOut(next, height)) + s[k..]
        invariant i == |Lists.Remaining(s[..k], FallsOut(next, height))|
        invariant FallenUpTo(s, k, next, angles, spun)
        decreases |s| - k
      {
        r, i := FallNext(s, k, r, i, frameRate, height, next, angles, spun);
        k := k + 1;
      }
      assert |r| == i + |s[k..]| && k == |s|;
      assert s[..k] == s;
    }

    /** The pickup loop of `draw` on the game's list. */
    method StepPickups(frameRate: real) returns (ghost next: map<Effects.Pickup, real>)
      requires Valid()
      modifies this`pickups, pickups`angle, pickups`y
      ensures Valid()
      ensures forall p :: p in old(pickups) ==> p in next && next[p] == old(p.y) + p.vy
      ensures forall p :: p in old(pickups) ==>
        p.y == old(p.y) + p.vy && p.angle == Effects.Spun(old(p.angle), frameRate)
      ensures pickups == Lists.Remaining(old(pickups), FallsOut(next, height))
    {
      ghost var s := pickups;
      assert Lists.Distinct(s);
      pickups, next := FallAll(pickups, frameRate, height);
      Lists.RemainingDistinct(s, FallsOut(next, height));
      forall p | p in pickups
        ensures p.Valid()
      {
        Lists.RemainingMember(s, FallsOut(next, height), p);
      }
    }

    /** The collection loop of `draw`: every pickup inside the ship's outline
        sets the weapon colour and is removed, in list order, so the last one
        collected decides the colour. `at` records each pickup's position. */
    method CollectPickups() returns (ghost at: map<Effects.Pickup, Polygon.Point>)
      requires Valid()
      modifies this`pickups, ship`bulletColor
      ensures Valid()
      ensures forall m :: 0 <= m < |old(pickups)| ==>
        var p := old(pickups)[m]; p in at && at[p] == (p.x, p.y)
      ensures pickups == Lists.Remaining(old(pickups), Touching(ship.shapePoints, at))
      ensures ship.bulletColor == CollectedColor(old(pickups), Touching(ship.shapePoints, at), old(ship.bulletColor))
    {
      var s := pickups;
      var r;
      r, at := CollectAll(ship, s);
      Lists.RemainingDistinct(s, Touching(ship.shapePoints, at));
      forall p | p in r
        ensures p.Valid()
      {
        Lists.RemainingMember(s, Touching(ship.shapePoints, at), p);
      }
      pickups := r;
    }

    /** The collection loop over the list `s`, spliced on a copy. */
    static method CollectAll(ship: Ship.SpaceShip, s: seq<Effects.Pickup>)
      returns (r: seq<Effects.Pickup>, ghost at: map<Effects.Pickup, Polygon.Point>)
      modifies ship`bulletColor
      ensures forall m :: 0 <= m < |s| ==> s[m] in at && at[s[m]] == (s[m].x, s[m].y)
      ensures r == Lists.Remaining(s, Touching(ship.shapePoints, at))
      ensures ship.bulletColor == CollectedColor(s, Touching(ship.shapePoints, at), old(ship.bulletColor))
    {
      at := SnapPositions(s);
      r := s;
      var i: int := 0;
      ghost var k := 0;
      while i < |r|
        invariant 0 <= k <= |s| && |r| - i == |s| - k
        invariant r == Lists.Remaining(s[..k], Touching(ship.shapePoints, at)) + s[k..]
        invariant i == |Lists.Remaining(s[..k], Touching(ship.shapePoints, at))|
        invariant ship.bulletColor == CollectedColor(s[..k], Touching(ship.shapePoints, at), old(ship.bulletColor))
        decreases |s| - k
      {
        Lists.RemoveStep(r, s, k, Touching(ship.shapePoints, at));
        CollectedStep(s, k, Touching(ship.shapePoints, at), old(ship.bulletColor));
        var p := r[i];
        var touched := ship.PointIsInside((p.x, p.y));
        assert Touching(ship.shapePoints, at)(s[k]) <==> touched;
        if touched {
          ship.SetBulletType(p.colorValue);
          r := r[..i] + r[i + 1..];
          i := i - 1;
        }
        i := i + 1;
        k := k + 1;
      }
      assert |r| == i + |s[k..]| && k == |s|;
      assert s[..k] == s;
    }

    /** The enemy-bullet loop of `draw`: every enemy bullet inside the ship's
        outline costs the ship 2 * size / 10 (nothing in god mode) and is
        removed; the others keep their order. */
    method DamageShip()
      requires Valid()
      modifies ship`health, enemies`bullets
      ensures Valid()
      ensures forall k :: 0 <= k < |enemies| ==>
        enemies[k].bullets == Lists.Remaining(old(enemies[k].bullets), HitsOutline(ship.shapePoints))
      ensures ship.health
           == old(ship.health) - (if ship.godMode then 0.0 else TotalDamage(old(BulletLists(enemies)), ship.shapePoints))
    {
      ghost var volleys := BulletLists(enemies);
      var i := 0;
      while i < |enemies|
        invariant 0 <= i <= |enemies| && Valid()
        invariant forall m :: 0 <= m < i ==>
          enemies[m].bullets == Lists.Remaining(volleys[m], HitsOutline(ship.shapePoints))
        invariant forall m :: i <= m < |enemies| ==> enemies[m].bullets == volleys[m]
        invariant ship.health
               == old(ship.health) - (if ship.godMode then 0.0 else TotalDamage(volleys[..i], ship.shapePoints))
      {
        var e := enemies[i];
        var taken := HitBullets(e);
        assert volleys[..i + 1][..i] == volleys[..i];
        i := i + 1;
      }
      assert volleys[..i] == volleys;
    }

    /** The inner loop for one enemy: its bullets inside the ship's outline
        hurt the ship and are removed. */
    method HitBullets(e: Enemies.Enemy) returns (taken: real)
      modifies ship`health, e`bullets
      ensures e.bullets == Lists.Remaining(old(e.bullets), HitsOutline(ship.shapePoints))
      ensures taken == VolleyDamage(old(e.bullets), ship.shapePoints)
      ensures ship.health == old(ship.health) - (if ship.godMode then 0.0 else taken)
    {
      var s := e.bullets;
      var outline := ship.shapePoints;
      ghost var god, h0 := ship.godMode, ship.health;
      var r := s;
      var j: int := 0;
      ghost var k := 0;
      taken := 0.0;
      while j < |r|
        invariant 0 <= k <= |s| && |r| - j == |s| - k
        invariant r == Lists.Remaining(s[..k], HitsOutline(outline)) + s[k..]
        invariant j == |Lists.Remaining(s[..k], HitsOutline(outline))|
        invariant taken == VolleyDamage(s[..k], outline)
        invariant ship.shapePoints == outline && ship.godMode == god
        invariant ship.health == h0 - (if god then 0.0 else taken)
        modifies ship`health
        decreases |s| - k
      {
        r, j, taken := HitNext(ship, s, k, r, j, taken, outline);
        k := k + 1;
      }
      assert s[..k] == s;
      e.bullets := r;
    }

    /** One pass of the enemy-bullet loop of `draw`: bullet k of `s`, at
        index `j` of the spliced list `r`, is tested against the ship's
        outline; a hit damages the ship and is spliced out. */
    static method HitNext(ship: Ship.SpaceShip, s: seq<Bullet>, ghost k: nat, r: seq<Bullet>, j: int,
                          taken: real, outline: seq<Polygon.Point>)
      returns (r': seq<Bullet>, j': int, taken': real)
      requires k < |s| && ship.shapePoints == outline
      requires r == Lists.Remaining(s[..k], HitsOutline(outline)) + s[k..]
      requires j == |Lists.Remaining(s[..k], HitsOutline(outline))|
      requires taken == VolleyDamage(s[..k], outline)
      modifies ship`health
      ensures r' == Lists.Remaining(s[..k + 1], HitsOutline(outline)) + s[k + 1..]
      ensures j' == |Lists.Remaining(s[..k + 1], HitsOutline(outline))|
      ensures taken' == VolleyDamage(s[..k + 1], outline)
      ensures ship.health == old(ship.health) - (if ship.godMode then 0.0 else taken' - taken)
    {
      Lists.RemoveStep(r, s, k, HitsOutline(outline));
      VolleyStep(s, k, outline);
      var b := r[j];
      var hit := ship.PointIsInside((b.x, b.y));
      r', j', taken' := r, j, taken;
      if hit {
        ship.DecreaseHealth(BulletDamage(b));
        taken' := taken + BulletDamage(b);
        r' := r[..j] + r[j + 1..];
        j' := j - 1;
      }
      j' := j' + 1;
    }

    /** The death branch of the hit loop, for enemy `j` whose health has just
        gone below zero: an explosion where it was, two enemies of half its
        width when it was wider than 100, a pickup of a random palette colour
        with even odds, then the enemy is spliced out and the score grows by 10. */
    method Kill(j: nat, rng: Rng) returns (split: bool, dropped: bool)
      requires j < |enemies| && rng.Valid() && OthersOk()
      requires Lists.Distinct(enemies) && forall e :: e in enemies ==> e.Valid()
      requires forall e :: e in enemies && e != enemies[j] ==> 0.0 <= e.health
      modifies this`enemies, this`explosions, this`pickups, this`score, rng
      ensures EnemiesOk() && OthersOk() && rng.Valid()
      ensures var dead := old(enemies[j]);
        && split == (dead.baseWidth > SplitWidth)
        && score == old(score) + KillScore
        && |enemies| == |old(enemies)| - 1 + (if split then 2 else 0)
        && enemies[..|old(enemies)| - 1] == old(enemies[..j] + enemies[j + 1..])
        && (forall k :: |old(enemies)| - 1 <= k < |enemies| ==>
              var c := enemies[k];
              && fresh(c) && !c.isBoss && c.baseWidth == dead.baseWidth / 2.0 && c.health == c.maxHealth
              && c.x == dead.x && c.y == dead.y && c.shapePoints == [])
      ensures forall e :: e in old(enemies) ==> (e in enemies <==> e != old(enemies[j]))
      ensures forall e :: e in enemies ==> e in old(enemies) || fresh(e)
      ensures var dead := old(enemies[j]);
        && old(explosions) <= explosions && |explosions| == |old(explosions)| + 1
        && var boom := explosions[|old(explosions)|];
           fresh(boom) && boom.x == dead.x && boom.y == dead.y && boom.maxStrokeWeight == BlastWeight(dead.baseWidth)
      ensures var dead := old(enemies[j]);
        var u := old(rng.used) + 1 + Effects.ParticleCount + (if split then 4 else 0);
        && (dropped <==> rng.stream(u) < PickupChance)
        && rng.used == u + (if dropped then 2 else 1)
        && old(pickups) <= pickups && |pickups| == |old(pickups)| + (if dropped then 1 else 0)
        && (dropped ==>
              var p := pickups[|old(pickups)|];
              fresh(p) && p.x == dead.x && p.y == dead.y
              && p.colorValue == PickupColors[ColorIndex(rng.stream(u + 1))])
    {
      var dead := enemies[j];
      split, dropped := Aftermath(dead, rng);
      ghost var pre := enemies;
      Lists.DistinctRemoveAt(enemies, j);
      enemies := enemies[..j] + enemies[j + 1..];
      score := score + KillScore;
      forall e | e in enemies
        ensures e.Valid() && 0.0 <= e.health
      {
        assert e in pre && e != dead;
      }
    }

    /** What a kill of `dead` leaves behind, in order: an explosion where it
        was, two enemies of half its width when it was wider than 100, and a
        pickup of a random palette colour with even odds. */
    method Aftermath(dead: Enemies.Enemy, rng: Rng) returns (split: bool, dropped: bool)
      requires rng.Valid() && OthersOk() && Lists.Distinct(enemies)
      modifies this`enemies, this`explosions, this`pickups, rng
      ensures OthersOk() && rng.Valid() && Lists.Distinct(enemies)
      ensures split == (dead.baseWidth > SplitWidth)
      ensures old(enemies) <= enemies && |enemies| == |old(enemies)| + (if split then 2 else 0)
      ensures forall k :: |old(enemies)| <= k < |enemies| ==>
        var c := enemies[k];
        && fresh(c) && c.Valid() && 0.0 <= c.health
        && !c.isBoss && c.baseWidth == dead.baseWidth / 2.0 && c.health == c.maxHealth
        && c.x == dead.x && c.y == dead.y && c.shapePoints == []
      ensures old(explosions) <= explosions && |explosions| == |old(explosions)| + 1
      ensures var boom := explosions[|old(explosions)|];
        fresh(boom) && boom.x == dead.x && boom.y == dead.y && boom.maxStrokeWeight == BlastWeight(dead.baseWidth)
      ensures var u := old(rng.used) + 1 + Effects.ParticleCount + (if split then 4 else 0);
        && (dropped <==> rng.stream(u) < PickupChance)
        && rng.used == u + (if dropped then 2 else 1)
        && old(pickups) <= pickups && |pickups| == |old(pickups)| + (if dropped then 1 else 0)
        && (dropped ==>
              var p := pickups[|old(pickups)|];
              fresh(p) && p.x == dead.x && p.y == dead.y
              && p.colorValue == PickupColors[ColorIndex(rng.stream(u + 1))])
    {
      BlastAt(dead, rng);
      split := dead.baseWidth > SplitWidth;
      if split {
        SplitInTwo(dead, rng);
      }
      dropped := MaybeDrop(dead, rng);
    }

    /** The explosion a kill leaves where the enemy was. */
    method BlastAt(dead: Enemies.Enemy, rng: Rng)
      requires rng.Valid() && Lists.Distinct(explosions)
      modifies this`explosions, rng
      ensures rng.Valid() && rng.used == old(rng.used) + 1 + Effects.ParticleCount
      ensures Lists.Distinct(explosions)
      ensures old(explosions) <= explosions && |explosions| == |old(explosions)| + 1
      ensures var boom := explosions[|old(explosions)|];
        fresh(boom) && boom.x == dead.x && boom.y == dead.y && boom.maxStrokeWeight == BlastWeight(dead.baseWidth)
    {
      var boom := new Effects.Explosion(dead.x, dead.y, BlastWeight(dead.baseWidth), rng);
      Lists.DistinctAppend(explosions, [boom]);
      explosions := explosions + [boom];
    }

    /** The split of a killed enemy wider than 100: two enemies of half its
        width, where it was, join the end of the list. */
    method SplitInTwo(dead: Enemies.Enemy, rng: Rng)
      requires rng.Valid() && Lists.Distinct(enemies) && dead.baseWidth > SplitWidth
      modifies this`enemies, rng
      ensures rng.Valid() && rng.used == old(rng.used) + 4
      ensures Lists.Distinct(enemies) && old(enemies) <= enemies && |enemies| == |old(enemies)| + 2
      ensures forall k :: |old(enemies)| <= k < |enemies| ==>
        var c := enemies[k];
        && fresh(c) && c.Valid() && 0.0 <= c.health
        && !c.isBoss && c.baseWidth == dead.baseWidth / 2.0 && c.health == c.maxHealth
        && c.x == dead.x && c.y == dead.y && c.shapePoints == []
    {
      var left := new Enemies.Enemy(dead.x, dead.y, dead.baseWidth / 2.0, width, height, rng);
      var right := new Enemies.Enemy(dead.x, dead.y, dead.baseWidth / 2.0, width, height, rng);
      assert 0.0 <= Enemies.MaxHealth(dead.baseWidth / 2.0);
      Lists.DistinctAppend(enemies, [left, right]);
      enemies := enemies + [left, right];
    }

    /** The pickup a kill may leave, with even odds: one draw decides, and a
        second picks its colour from the palette. */
    method MaybeDrop(dead: Enemies.Enemy, rng: Rng) returns (dropped: bool)
      requires rng.Valid() && Lists.Distinct(pickups) && forall p :: p in pickups ==> p.Valid()
      modifies this`pickups, rng
      ensures rng.Valid() && Lists.Distinct(pickups) && forall p :: p in pickups ==> p.Valid()
      ensures var u := old(rng.used);
        && (dropped <==> rng.stream(u) < PickupChance)
        && rng.used == u + (if dropped then 2 else 1)
        && old(pickups) <= pickups && |pickups| == |old(pickups)| + (if dropped then 1 else 0)
        && (dropped ==>
              var p := pickups[|old(pickups)|];
              fresh(p) && p.x == dead.x && p.y == dead.y
              && p.colorValue == PickupColors[ColorIndex(rng.stream(u + 1))])
    {
      var chance := rng.Next();
      dropped := chance < PickupChance;
      if dropped {
        var c := rng.Next();
        var p := new Effects.Pickup(dead.x, dead.y, PickupColors[ColorIndex(c)], height);
        Lists.DistinctAppend(pickups, [p]);
        pickups := pickups + [p];
      }
    }

    /** The bullet-enemy loop of `draw`, as written: for each ship bullet,
        every enemy whose last outline contains it takes a hit; the bullet is
        spliced out and the bullet index steps back one place (staying at 0),
        while the enemy index goes on, so the bullet now under the index meets
        only the remaining enemies. A killed enemy goes through `Kill`. */
    method ResolveBulletHits(rng: Rng) returns (kills: nat, splits: nat)
      requires Valid() && rng.Valid()
      modifies this`enemies, this`explosions, this`pickups, this`score, ship`bullets, enemies`health, rng
      ensures Valid() && rng.Valid()
      ensures score == old(score) + KillScore * kills
      ensures old(explosions) <= explosions && |explosions| == |old(explosions)| + kills
      ensures old(pickups) <= pickups && |pickups| <= |old(pickups)| + kills
      ensures splits <= kills && |enemies| + kills == |old(enemies)| + 2 * splits
      ensures Lists.Subsequence(ship.bullets, old(ship.bullets))
      ensures kills <= |old(ship.bullets)| - |ship.bullets|
      ensures forall e :: e in old(enemies) ==> e.health <= old(e.health) && (e in enemies <==> 0.0 <= e.health)
      ensures forall e :: e in enemies ==> e in old(enemies) || fresh(e)
      ensures forall k :: 0 <= k < |enemies| ==> enemies[k] in old(enemies) || fresh(enemies[k])
      ensures old(enemies) == [] ==> kills == 0 && enemies == [] && ship.bullets == old(ship.bullets)
    {
      kills, splits := 0, 0;
      var bs := ship.bullets;
      ghost var e0, x0, p0, s0, b0 := enemies, explosions, pickups, score, bs;
      ghost var h0 := map e | e in enemies :: e.health;
      ghost var idx: seq<nat> := seq(|bs|, k requires 0 <= k < |bs| => k as nat);
      Lists.EmbedsSelf(bs);
      var i := 0;
      while i < |bs|
        invariant 0 <= i <= |bs| + 1
        invariant Valid() && rng.Valid()
        invariant HitTally(e0, h0, x0, p0, s0, b0, bs, idx, kills, splits)
        invariant forall e :: e in enemies ==> e in old(enemies) || fresh(e)
        decreases 2 * |bs| + 1 - i
      {
        ghost var bound := 2 * |bs| - i;
        var j := 0;
        while j < |enemies|
          invariant 0 <= j <= |enemies| && 0 <= i <= |bs| && 2 * |bs| - i <= bound
          invariant Valid() && rng.Valid()
          invariant HitTally(e0, h0, x0, p0, s0, b0, bs, idx, kills, splits)
          invariant forall e :: e in enemies ==> e in old(enemies) || fresh(e)
          decreases |bs|, |enemies| - j
        {
          assert enemies[j] in enemies;
          i, j, bs, idx, kills, splits := AimAt(i, j, bs, idx, kills, splits, rng, e0, h0, x0, p0, s0, b0);
        }
        i := i + 1;
      }
      ship.bullets := bs;
    }

    /** The running totals of the bullet-enemy loop, against the enemies
        `e0` (whose healths were `h0`), explosions `x0`, pickups `p0`, score
        `s0` and ship bullets `b0` it started from: `bs` is `b0` with some
        bullets spliced out (`idx` says where each one left stands), and the
        counts of kills and splits account for the lists and the score. */
    ghost predicate HitTally(e0: seq<Enemies.Enemy>, h0: map<Enemies.Enemy, real>, x0: seq<Effects.Explosion>,
                             p0: seq<Effects.Pickup>, s0: int, b0: seq<Bullet>,
                             bs: seq<Bullet>, idx: seq<nat>, kills: nat, splits: nat)
      reads this`score, this`explosions, this`pickups, this`enemies, e0`health
    {
      && score == s0 + KillScore * kills
      && x0 <= explosions && |explosions| == |x0| + kills
      && p0 <= pickups && |pickups| <= |p0| + kills
      && splits <= kills && |enemies| + kills == |e0| + 2 * splits
      && Lists.Embeds(bs, b0, idx)
      && kills <= |b0| - |bs|
      && (forall e :: e in e0 ==> e in h0 && e.health <= h0[e] && (e in enemies <==> 0.0 <= e.health))
      && (e0 == [] ==> kills == 0 && enemies == [] && bs == b0)
    }

    /** One pass of the inner (enemy) loop: while bullet `i` exists and
        enemy `j`'s outline contains it, the enemy is struck, the bullet is
        spliced out and `i` steps back (staying at 0); a killed enemy leaves
        the list, so `j` stays on the enemy that took its place. */
    method AimAt(i: int, j: int, bs: seq<Bullet>, ghost idx: seq<nat>, kills: nat, splits: nat, rng: Rng,
                 ghost e0: seq<Enemies.Enemy>, ghost h0: map<Enemies.Enemy, real>, ghost x0: seq<Effects.Explosion>,
                 ghost p0: seq<Effects.Pickup>, ghost s0: int, ghost b0: seq<Bullet>)
      returns (i': int, j': int, bs': seq<Bullet>, ghost idx': seq<nat>, kills': nat, splits': nat)
      requires 0 <= i <= |bs| && 0 <= j < |enemies|
      requires Valid() && rng.Valid() && HitTally(e0, h0, x0, p0, s0, b0, bs, idx, kills, splits)
      modifies this`enemies, this`explosions, this`pickups, this`score, {enemies[j]}`health, rng
      ensures Valid() && rng.Valid() && HitTally(e0, h0, x0, p0, s0, b0, bs', idx', kills', splits')
      ensures forall e :: e in enemies ==> e in old(enemies) || fresh(e)
      ensures 0 <= j' <= |enemies| && 0 <= i' <= |bs'| && 2 * |bs'| - i' <= 2 * |bs| - i
      ensures |bs'| < |bs| || (bs' == bs && i' == i && |enemies| - j' < old(|enemies|) - j)
      ensures var e := old(enemies[j]);
              var hit := i < |bs| && Polygon.Inside(e.shapePoints, (bs[i].x, bs[i].y));
              var killed := hit && e.health < 0.0;
              && (hit ==> && bs' == bs[..i] + bs[i + 1..] && i' == (if i == 0 then 0 else i - 1)
                          && e.health == old(e.health) - Enemies.HitDamage(e.isBoss))
              && (!hit ==> bs' == bs && i' == i && e.health == old(e.health))
              && (!killed ==>
                    && enemies == old(enemies) && explosions == old(explosions) && pickups == old(pickups)
                    && score == old(score) && rng.used == old(rng.used))
              && j' == (if killed then j else j + 1)
              && kills' == kills + (if killed then 1 else 0)
    {
      i', j', bs', idx', kills', splits' := i, j, bs, idx, kills, splits;
      if i < |bs| {
        var b := bs[i];
        var hit := enemies[j].PointIsInside((b.x, b.y));
        if hit {
          assert enemies[j] in enemies;
          var killed := Strike(j, rng);
          if killed.0 {
            kills' := kills + 1;
            splits' := splits + (if killed.1 then 1 else 0);
            j' := j - 1;
          }
          Lists.EmbedsRemoveAt(bs, b0, idx, i);
          idx' := idx[..i] + idx[i + 1..];
          bs' := bs[..i] + bs[i + 1..];
          i' := if i == 0 then 0 else i - 1;
        }
      }
      j' := j' + 1;
    }

    /** A hit on enemy `j`: it takes the damage and, when that kills it, goes
        through `Kill`. Returns whether it died and whether it split. */
    method Strike(j: nat, rng: Rng) returns (outcome: (bool, bool))
      requires j < |enemies| && Valid() && rng.Valid()
      modifies this`enemies, this`explosions, this`pickups, this`score, {enemies[j]}`health, rng
      ensures Valid() && rng.Valid()
      ensures var e := old(enemies[j]);
        && e.health == old(e.health) - Enemies.HitDamage(e.isBoss)
        && (outcome.0 <==> e.health < 0.0)
        && (outcome.1 ==> outcome.0)
      ensures !outcome.0 ==>
        && enemies == old(enemies) && explosions == old(explosions) && pickups == old(pickups)
        && score == old(score) && rng.used == old(rng.used)
      ensures outcome.0 ==>
        && score == old(score) + KillScore
        && old(explosions) <= explosions && |explosions| == |old(explosions)| + 1
        && old(pickups) <= pickups && |pickups| <= |old(pickups)| + 1
        && |enemies| == |old(enemies)| - 1 + (if outcome.1 then 2 else 0)
      ensures forall e :: e in old(enemies) ==> (e in enemies <==> e != old(enemies[j]) || !outcome.0)
      ensures forall e :: e in enemies ==> e in old(enemies) || fresh(e)
    {
      var e := enemies[j];
      var dead := e.TakeDamageAndCheckDeath();
      if dead {
        var split, dropped := Kill(j, rng);
        outcome := (true, split);
      } else {
        outcome := (false, false);
      }
    }

    /** The level guard of `draw`: with no enemy left, the ship alive and the
        game started, set one timer for the next level unless one is already
        set; past the last level, celebrate with a random explosion one frame
        in ten. */
    method LevelGuard(rng: Rng) returns (scheduled: bool)
      requires Valid() && rng.Valid()
      modifies this`pendingTimers, this`timeoutCalled, this`explosions, rng
      ensures Valid() && rng.Valid()
      ensures var idle := |enemies| == 0 && !spaceShipDestroyed && gameStarted;
        && (scheduled <==> idle && currentLevelCount <= Levels.MaxLevelCount && !old(timeoutCalled))
        && pendingTimers == old(pendingTimers) + (if scheduled then 1 else 0)
        && timeoutCalled == (old(timeoutCalled) || scheduled)
        && (!idle || currentLevelCount <= Levels.MaxLevelCount ==> explosions == old(explosions))
        && old(explosions) <= explosions && |explosions| <= |old(explosions)| + 1
      ensures var won := |enemies| == 0 && !spaceShipDestroyed && gameStarted
                         && currentLevelCount > Levels.MaxLevelCount;
              var at := old(rng.used);
        && (!won ==> rng.used == at)
        && (won ==> (|explosions| == |old(explosions)| + 1 <==> rng.stream(at) < FireworkChance))
        && (won && FireworkChance <= rng.stream(at) ==> rng.used == at + 1)
        && (won && rng.stream(at) < FireworkChance ==>
              var boom := explosions[|old(explosions)|];
              && boom.x == Scale(rng.stream(at + 1), 0.0, width)
              && boom.y == Scale(rng.stream(at + 2), 0.0, height)
              && boom.maxStrokeWeight == Scale(rng.stream(at + 3), 0.0, FireworkMaxWeight)
              && rng.used == at + 4 + 1 + Effects.ParticleCount)
      ensures old(OneTimer()) ==> OneTimer()
    {
      scheduled := false;
      if |enemies| == 0 && !spaceShipDestroyed && gameStarted {
        if currentLevelCount <= Levels.MaxLevelCount {
          if !timeoutCalled {
            pendingTimers := pendingTimers + 1;
            timeoutCalled := true;
            scheduled := true;
          }
        } else {
          var r := rng.Next();
          if r < FireworkChance {
            var fx := rng.Between(0.0, width);
            var fy := rng.Between(0.0, height);
            var fw := rng.Between(0.0, FireworkMaxWeight);
            var boom := new Effects.Explosion(fx, fy, fw, rng);
            Lists.DistinctAppend(explosions, [boom]);
            explosions := explosions + [boom];
          }
        }
      }
    }

    /** One of the set timers goes off and runs `incrementLevel`. */
    method FireLevelTimer(rng: Rng)
      requires Valid() && rng.Valid() && pendingTimers > 0
      modifies this`enemies, this`pendingTimers, this`timeoutCalled, this`currentLevelCount, rng
      ensures Valid() && rng.Valid()
      ensures pendingTimers == old(pendingTimers) - 1
      ensures old(OneTimer()) ==> OneTimer()
      ensures old(enemies) <= enemies
      ensures |enemies| == |old(enemies)| + Levels.SpawnCount(old(currentLevelCount))
      ensures currentLevelCount == if old(currentLevelCount) <= Levels.MaxLevelCount
                                   then old(currentLevelCount) + 1 else old(currentLevelCount)
    {
      IncrementLevel(rng);
      pendingTimers := pendingTimers - 1;
    }

    /** `incrementLevel`: spawn the current level's wave; then, up to the
        last level, clear the guard and go to the next level. */
    method IncrementLevel(rng: Rng)
      requires Valid() && rng.Valid()
      modifies this`enemies, this`timeoutCalled, this`currentLevelCount, rng
      ensures Valid() && rng.Valid()
      ensures old(enemies) <= enemies
      ensures |enemies| == |old(enemies)| + Levels.SpawnCount(old(currentLevelCount))
      ensures forall k :: |old(enemies)| <= k < |enemies| ==>
        var e := enemies[k];
        && fresh(e) && e.health == e.maxHealth
        && FitsWave(Levels.WaveFor(old(currentLevelCount)), e.isBoss, e.baseWidth)
        && e.y == (if e.isBoss then Levels.BossSpawnY else Levels.SpawnY)
      ensures old(currentLevelCount) <= Levels.MaxLevelCount ==>
        currentLevelCount == old(currentLevelCount) + 1 && !timeoutCalled
      ensures old(currentLevelCount) > Levels.MaxLevelCount ==>
        currentLevelCount == old(currentLevelCount) && timeoutCalled == old(timeoutCalled)
    {
      var wave := Levels.WaveFor(currentLevelCount);
      Levels.DrawnRangesAreProper(currentLevelCount);
      if wave.Drawn? || wave.Fixed? {
        SpawnRow(wave.count, wave, rng);
      } else if wave.BossWave? {
        var boss := new Enemies.Enemy.Boss(width / 2.0, Levels.BossSpawnY, width, height, rng);
        Lists.DistinctAppend(enemies, [boss]);
        enemies := enemies + [boss];
      }
      if currentLevelCount <= Levels.MaxLevelCount {
        timeoutCalled := false;
        currentLevelCount := currentLevelCount + 1;
      }
    }

    /** The spawning loop of one level: `n` enemies at random x on the spawn
        line, each with the wave's width (drawn or fixed). */
    method SpawnRow(n: nat, wave: Levels.Wave, rng: Rng)
      requires EnemiesOk() && rng.Valid()
      requires wave.Drawn? || wave.Fixed?
      requires wave.Drawn? ==> 0.0 < wave.minWidth < wave.maxWidth
      requires wave.Fixed? ==> 0.0 <= wave.width
      modifies this`enemies, rng
      ensures EnemiesOk() && rng.Valid()
      ensures old(enemies) <= enemies && |enemies| == |old(enemies)| + n
      ensures forall k :: |old(enemies)| <= k < |enemies| ==>
        var e := enemies[k];
        && fresh(e) && e.health == e.maxHealth && FitsWave(wave, e.isBoss, e.baseWidth) && e.y == Levels.SpawnY
    {
      var i := 0;
      while i < n
        invariant 0 <= i <= n && rng.Valid() && EnemiesOk()
        invariant old(enemies) <= enemies && |enemies| == |old(enemies)| + i
        invariant forall k :: |old(enemies)| <= k < |enemies| ==>
          var e := enemies[k];
          && fresh(e) && e.health == e.maxHealth && FitsWave(wave, e.isBoss, e.baseWidth) && e.y == Levels.SpawnY
      {
        var x := rng.Between(0.0, width);
        var w: real;
        if wave.Drawn? {
          w := rng.Between(wave.minWidth, wave.maxWidth);
        } else {
          w := wave.width;
        }
        var e := new Enemies.Enemy(x, Levels.SpawnY, w, width, height, rng);
        Lists.DistinctAppend(enemies, [e]);
        enemies := enemies + [e];
        i := i + 1;
      }
    }

    /** `draw`, the frame step, without the drawing: nothing happens while
        paused; otherwise the god-mode keys, the death check or the ship's
        own step, then the enemy, explosion and pickup loops, the hits on
        enemies, the pickup collection, the hits on the ship and the level
        guard, in that order. `decrement` is 60 / frame rate. */
    method Draw(keys: Keys, frameRate: real, decrement: real, spread: int -> (real, real),
                steer: nat -> (real, real), rng: Rng)
      requires Valid() && rng.Valid()
      modifies this, ship, enemies, explosions, pickups, rng
      ensures Valid() && rng.Valid()
      ensures old(gamePaused) ==>
        && enemies == old(enemies) && explosions == old(explosions) && pickups == old(pickups)
        && score == old(score) && ship.health == old(ship.health) && ship.bullets == old(ship.bullets)
        && pendingTimers == old(pendingTimers) && rng.used == old(rng.used)
      ensures old(gamePaused) ==>
        (&& unchanged(this, ship, rng)
         && (forall e :: e in old(enemies) ==> unchanged(e))
         && (forall e :: e in old(explosions) ==> unchanged(e))
         && (forall p :: p in old(pickups) ==> unchanged(p)))
      ensures currentLevelCount == old(currentLevelCount) && gameStarted == old(gameStarted)
      ensures gamePaused == old(gamePaused)
      ensures old(OneTimer()) ==> OneTimer()
      ensures old(score) <= score && (score - old(score)) % KillScore == 0
      ensures !old(gamePaused) && keys.godCombo ==> ship.godMode
      ensures !old(gamePaused) && old(ship.health) <= 0.0 ==>
        enemies == [] && spaceShipDestroyed && ship.health == 0.0
    {
      if gamePaused {
        return;
      }
      var destroyed := ShipPhase(keys, decrement, spread, rng);
      var kills := WorldAndGuard(frameRate, decrement, steer, rng);
    }

    /** The rest of an unpaused `draw` after the ship's own part: the world
        phase, then the level guard. The score grows by 10 per kill; with no
        enemy, none appears and the ship is not hurt; a timer is only set
        when none is pending. */
    method WorldAndGuard(frameRate: real, decrement: real, steer: nat -> (real, real), rng: Rng)
      returns (kills: nat)
      requires Valid() && rng.Valid()
      modifies this`enemies, this`explosions, this`pickups, this`score, this`pendingTimers, this`timeoutCalled,
               enemies, explosions`particles, pickups`angle, pickups`y,
               ship`bullets, ship`bulletColor, ship`health, rng
      ensures Valid() && rng.Valid()
      ensures score == old(score) + KillScore * kills
      ensures old(enemies) == [] ==> kills == 0 && enemies == [] && ship.health == old(ship.health)
      ensures old(OneTimer()) ==> OneTimer()
    {
      kills := WorldPhase(frameRate, decrement, steer, rng);
      var _ := LevelGuard(rng);
    }

    /** The first part of an unpaused `draw`: the god-mode keys, then the
        death check, and, for a ship still alive, its own step and the arrow
        and space keys (both arrows held move nothing). */
    method ShipPhase(keys: Keys, decrement: real, spread: int -> (real, real), rng: Rng)
      returns (destroyed: bool)
      requires Valid() && rng.Valid()
      modifies this`enemies, this`explosions, this`spaceShipDestroyed, rng,
               ship`health, ship`godMode, ship`shapePoints, ship`waitFrameCount, ship`bullets, ship`x
      ensures Valid() && rng.Valid()
      ensures destroyed <==> old(ship.health) <= 0.0
      ensures ship.godMode == (keys.godCombo || old(ship.godMode))
      ensures destroyed ==>
        && enemies == [] && spaceShipDestroyed && ship.health == 0.0
        && Blasted(old(explosions), explosions, !old(spaceShipDestroyed), ship.x, ship.y, old(Spots(enemies)))
      ensures !destroyed ==>
        && enemies == old(enemies) && ship.health == old(ship.health) && explosions == old(explosions)
        && spaceShipDestroyed == old(spaceShipDestroyed) && rng.used == old(rng.used)
      ensures !destroyed ==> ship.shapePoints == Polygon.ShipOutline(old(ship.x), ship.y)
      ensures !destroyed ==>
        ShipTurned(keys, decrement, spread, width, ship.y, ship.bulletColor,
                   old(ship.x), old(ship.waitFrameCount), old(ship.bullets),
                   ship.x, ship.waitFrameCount, ship.bullets)
      ensures destroyed ==>
        && ship.x == old(ship.x) && ship.waitFrameCount == old(ship.waitFrameCount)
        && ship.bullets == old(ship.bullets) && ship.shapePoints == old(ship.shapePoints)
      ensures old(explosions) <= explosions
      ensures forall k :: |old(explosions)| <= k < |explosions| ==> fresh(explosions[k])
    {
      if keys.godCombo {
        ship.ActivateGodMode();
      }
      destroyed := CheckShipDeath(rng);
      if !destroyed {
        ShipTurn(ship, keys, decrement, spread, width);
      }
    }

    /** A living ship's part of `draw`: `show`, `update`, then the arrow keys
        (both held move nothing) and the space key. */
    static method ShipTurn(ship: Ship.SpaceShip, keys: Keys, decrement: real,
                           spread: int -> (real, real), width: real)
      modifies ship`shapePoints, ship`waitFrameCount, ship`bullets, ship`x
      ensures ship.shapePoints == Polygon.ShipOutline(old(ship.x), ship.y)
      ensures ShipTurned(keys, decrement, spread, width, ship.y, ship.bulletColor,
                   old(ship.x), old(ship.waitFrameCount), old(ship.bullets),
                   ship.x, ship.waitFrameCount, ship.bullets)
    {
      ship.Show();
      ship.Update(keys.fire, width);
      if keys.left && keys.right {
      } else if keys.left {
        ship.MoveShip(Ship.Left, width);
      } else if keys.right {
        ship.MoveShip(Ship.Right, width);
      }
      if keys.fire {
        var _ := ship.ShootBullets(decrement, spread);
      }
    }

    /** The middle part of an unpaused `draw`: the loops that move things,
        then the hits. With no enemy, none appears and the ship is not hurt. */
    method WorldPhase(frameRate: real, decrement: real, steer: nat -> (real, real), rng: Rng)
      returns (kills: nat)
      requires Valid() && rng.Valid()
      modifies this`enemies, this`explosions, this`pickups, this`score, enemies, explosions`particles,
               pickups`angle, pickups`y, ship`bullets, ship`bulletColor, ship`health, rng
      ensures Valid() && rng.Valid()
      ensures score == old(score) + KillScore * kills && kills <= |old(ship.bullets)|
      ensures old(enemies) == [] ==> kills == 0 && enemies == [] && ship.health == old(ship.health)
    {
      ghost var before, next := MovePhase(frameRate, decrement, steer, rng);
      kills := HitPhase(rng);
    }

    /** The enemy, explosion and pickup loops of `draw`, in that order:
        every enemy listed takes its turn (as `TurnAll` states) and the
        spawned ones are appended; every explosion burns once and the emptied
        ones go; every pickup spins and falls and those below the screen go. */
    method MovePhase(frameRate: real, decrement: real, steer: nat -> (real, real), rng: Rng)
      returns (ghost before: map<Effects.Explosion, seq<Effects.Particle>>, ghost next: map<Effects.Pickup, real>)
      requires Valid() && rng.Valid()
      modifies this`enemies, this`explosions, this`pickups, enemies, explosions`particles,
               pickups`angle, pickups`y, rng
      ensures Valid() && rng.Valid()
      ensures old(enemies) <= enemies
      ensures |enemies| == |old(enemies)| + Enemies.SpawnCount * old(DueBosses(enemies))
      ensures forall k :: |old(enemies)| <= k < |enemies| ==>
        fresh(enemies[k]) && !enemies[k].isBoss && enemies[k].baseWidth == Enemies.SpawnWidth
      ensures forall k :: 0 <= k < |enemies| ==> enemies[k] in old(enemies) || fresh(enemies[k])
      ensures old(enemies) == [] ==> enemies == []
      ensures forall e :: e in old(explosions) ==>
        e in before && before[e] == old(e.particles) && e.particles == Effects.Frame(old(e.particles))
      ensures explosions == Lists.Remaining(old(explosions), BurnsOut(before))
      ensures forall p :: p in old(pickups) ==>
        && p in next && next[p] == old(p.y) + p.vy
        && p.y == old(p.y) + p.vy && p.angle == Effects.Spun(old(p.angle), frameRate)
      ensures pickups == Lists.Remaining(old(pickups), FallsOut(next, height))
    {
      StepEnemies(steer, decrement, rng);
      before, next := StepEffects(frameRate);
    }

    /** The explosion and pickup loops of `draw`, in that order. */
    method StepEffects(frameRate: real)
      returns (ghost before: map<Effects.Explosion, seq<Effects.Particle>>, ghost next: map<Effects.Pickup, real>)
      requires Valid()
      modifies this`explosions, this`pickups, explosions`particles, pickups`angle, pickups`y
      ensures Valid()
      ensures forall e :: e in old(explosions) ==>
        e in before && before[e] == old(e.particles) && e.particles == Effects.Frame(old(e.particles))
      ensures explosions == Lists.Remaining(old(explosions), BurnsOut(before))
      ensures forall p :: p in old(pickups) ==>
        && p in next && next[p] == old(p.y) + p.vy
        && p.y == old(p.y) + p.vy && p.angle == Effects.Spun(old(p.angle), frameRate)
      ensures pickups == Lists.Remaining(old(pickups), FallsOut(next, height))
    {
      before := StepExplosions();
      next := StepPickups(frameRate);
    }

    /** The hits on enemies, the pickup collection and the hits on the ship,
        in that order: the score grows by 10 for each of the `kills`. */
    method HitPhase(rng: Rng) returns (kills: nat)
      requires Valid() && rng.Valid()
      modifies this`enemies, this`explosions, this`pickups, this`score, enemies`health, enemies`bullets,
               ship`bullets, ship`bulletColor, ship`health, rng
      ensures Valid() && rng.Valid()
      ensures score == old(score) + KillScore * kills
      ensures kills <= |old(ship.bullets)| && |explosions| == |old(explosions)| + kills
      ensures old(enemies) == [] ==> kills == 0 && enemies == [] && ship.health == old(ship.health)
    {
      var splits;
      kills, splits := ResolveBulletHits(rng);
      ghost var at := ContactPhase();
    }

    /** The pickup collection, then the hits on the ship: exactly the
        pickups inside the ship's outline go, the last of them setting the
        weapon colour; exactly the enemy bullets inside it go, each costing
        its damage unless in god mode; with no enemy the ship is not hurt. */
    method ContactPhase() returns (ghost at: map<Effects.Pickup, Polygon.Point>)
      requires Valid()
      modifies this`pickups, enemies`bullets, ship`bulletColor, ship`health
      ensures Valid()
      ensures forall m :: 0 <= m < |old(pickups)| ==>
        var p := old(pickups)[m]; p in at && at[p] == (p.x, p.y)
      ensures pickups == Lists.Remaining(old(pickups), Touching(ship.shapePoints, at))
      ensures ship.bulletColor == CollectedColor(old(pickups), Touching(ship.shapePoints, at), old(ship.bulletColor))
      ensures forall k :: 0 <= k < |enemies| ==>
        enemies[k].bullets == Lists.Remaining(old(enemies[k].bullets), HitsOutline(ship.shapePoints))
      ensures ship.health
           == old(ship.health) - (if ship.godMode then 0.0 else TotalDamage(old(BulletLists(enemies)), ship.shapePoints))
      ensures enemies == [] ==> ship.health == old(ship.health)
    {
      at := CollectPickups();
      ghost var volleys := BulletLists(enemies);
      DamageShip();
      assert enemies == [] ==> volleys == [];
    }

    /** `resetGame`: a new game from level 1 with the same ship; pickups stay,
        and a timer already set is not cancelled. */
    method ResetGame()
      requires Valid()
      modifies this`spaceShipDestroyed, this`enemies, this`explosions, this`currentLevelCount,
               this`timeoutCalled, this`score, this`gameStarted, this`gamePaused,
               ship`bullets, ship`waitFrameCount, ship`health, ship`godMode, ship`bulletColor
      ensures Valid()
      ensures !spaceShipDestroyed && enemies == [] && explosions == [] && pickups == old(pickups)
      ensures currentLevelCount == 1 && !timeoutCalled && score == 0 && gameStarted && !gamePaused
      ensures pendingTimers == old(pendingTimers)
      ensures old(pendingTimers) == 0 ==> OneTimer()
      ensures ship.bullets == [] && ship.health == Ship.FullHealth && !ship.godMode
      ensures ship.bulletColor == Ship.SingleShot && ship.waitFrameCount == Ship.MinFrameWaitCount
      ensures ship.x == old(ship.x) && ship.y == old(ship.y)
    {
      spaceShipDestroyed := false;
      enemies := [];
      explosions := [];
      ship.Reset();
      currentLevelCount := 1;
      timeoutCalled := false;
      score := 0;
      gameStarted := true;
      gamePaused := false;
    }

    /** `togglePause` without the pause screen. */
    method TogglePause()
      modifies this`gamePaused
      ensures gamePaused == !old(gamePaused)
    {
      gamePaused := !gamePaused;
    }

    /** `startGame` without the start screen and the music. */
    method StartGame()
      modifies this`gameStarted
      ensures gameStarted
    {
      gameStarted := true;
    }
  }
}
