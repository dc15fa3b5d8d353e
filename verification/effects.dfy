/** Explosions (bursts of fading particles) and pickups (falling weapon tokens). */
module Effects {
  import opened Random
  import Lists

  const ParticleCount: nat := 200
  /** A particle starts fully opaque (alpha 1) and loses 0.05 per `show`:
      alpha is kept as the number of 0.05 steps left, starting from 20. */
  const FullAlpha: int := 20
  const MaxParticleSpeed: real := 70.0
  const HueRange: real := 359.0

  /** A particle of an explosion. `speed` is the length drawn for its initial
      velocity; its motion is not modelled, only its fading. */
  datatype Particle = Particle(alpha: int, speed: real)

  /** `isVisible`: alpha above zero. */
  predicate IsVisible(p: Particle)
  {
    p.alpha > 0
  }

  /** The particle after one `show`. */
  function Faded(p: Particle): Particle
  {
    p.(alpha := p.alpha - 1)
  }

  function FadedAll(ps: seq<Particle>): (r: seq<Particle>)
    ensures |r| == |ps|
  {
    seq(|ps|, k requires 0 <= k < |ps| => Faded(ps[k]))
  }

  /** One frame of an explosion: `show` fades every particle, then `update`
      drops the invisible ones. */
  function Frame(ps: seq<Particle>): seq<Particle>
  {
    Lists.Remaining(FadedAll(ps), p => !IsVisible(p))
  }

  function AfterFrames(ps: seq<Particle>, n: nat): seq<Particle>
  {
    if n == 0 then ps else Frame(AfterFrames(ps, n - 1))
  }

  /** Particles that share alpha `a` all survive the first a - 1 frames, each
      keeping its place and losing one step per frame, and all vanish together
      in frame a. */
  lemma {:induction false} FadeOut(ps: seq<Particle>, a: int, n: nat)
    requires 0 < a && n <= a
    requires forall i :: 0 <= i < |ps| ==> ps[i].alpha == a
    ensures n < a ==> AfterFrames(ps, n) == seq(|ps|, i requires 0 <= i < |ps| => ps[i].(alpha := a - n))
    ensures n == a ==> AfterFrames(ps, n) == []
  {
    if n > 0 {
      FadeOut(ps, a, n - 1);
      var before := AfterFrames(ps, n - 1);
      var faded := FadedAll(before);
      assert forall i :: 0 <= i < |faded| ==> faded[i] == ps[i].(alpha := a - n);
      if n < a {
        Lists.RemainingNoneDropped(faded, p => !IsVisible(p));
      } else {
        Lists.RemainingAllDropped(faded, p => !IsVisible(p));
      }
    }
  }

  /** A fresh explosion is over exactly after its twentieth frame. */
  lemma ExplosionLifetime(ps: seq<Particle>, n: nat)
    requires |ps| == ParticleCount && n <= FullAlpha
    requires forall i :: 0 <= i < |ps| ==> ps[i].alpha == FullAlpha
    ensures AfterFrames(ps, n) == [] <==> n == FullAlpha
  {
    FadeOut(ps, FullAlpha, n);
    if n < FullAlpha {
      assert |AfterFrames(ps, n)| == ParticleCount;
    }
  }

  class Explosion {
    const x: real
    const y: real
    const hue: int
    const maxStrokeWeight: real
    var particles: seq<Particle>

    /** `new Explosion(x, y, w)`: a hue `int(random(0, 359))`, then `explode`
        adds 200 opaque particles, each drawing its speed from [0, 70). */
    constructor (spawnX: real, spawnY: real, maxStrokeWeight: real, rng: Rng)
      requires rng.Valid()
      modifies rng
      ensures rng.Valid() && rng.used == old(rng.used) + 1 + ParticleCount
      ensures x == spawnX && y == spawnY && this.maxStrokeWeight == maxStrokeWeight
      ensures hue == Scale(rng.stream(old(rng.used)), 0.0, HueRange).Floor && 0 <= hue < 359
      ensures |particles| == ParticleCount
      ensures forall i :: 0 <= i < |particles| ==>
        && particles[i].alpha == FullAlpha
        && particles[i].speed == Scale(rng.stream(old(rng.used) + 1 + i), 0.0, MaxParticleSpeed)
        && 0.0 <= particles[i].speed < MaxParticleSpeed
    {
      x := spawnX;
      y := spawnY;
      this.maxStrokeWeight := maxStrokeWeight;
      var h := rng.Between(0.0, HueRange);
      hue := h.Floor;
      var ps: seq<Particle> := [];
      var i := 0;
      while i < ParticleCount
        invariant 0 <= i <= ParticleCount && |ps| == i
        invariant rng.Valid() && rng.used == old(rng.used) + 1 + i
        invariant forall k :: 0 <= k < i ==>
          && ps[k].alpha == FullAlpha
          && ps[k].speed == Scale(rng.stream(old(rng.used) + 1 + k), 0.0, MaxParticleSpeed)
          && 0.0 <= ps[k].speed < MaxParticleSpeed
      {
        var speed := rng.Between(0.0, MaxParticleSpeed);
        ps := ps + [Particle(FullAlpha, speed)];
        i := i + 1;
      }
      particles := ps;
    }

    /** `show`: every particle fades by one step. */
    method Show()
      modifies this`particles
      ensures particles == FadedAll(old(particles))
    {
      for k := 0 to |particles|
        invariant |particles| == |old(particles)|
        invariant forall m :: 0 <= m < k ==> particles[m] == Faded(old(particles)[m])
        invariant forall m :: k <= m < |particles| ==> particles[m] == old(particles)[m]
      {
        particles := particles[k := Faded(particles[k])];
      }
    }

    /** `update`: drop the invisible particles, keeping the others in order. */
    method Update()
      modifies this`particles
      ensures particles == Lists.Remaining(old(particles), p => !IsVisible(p))
    {
      particles := Lists.RemoveWhere(particles, p => !IsVisible(p));
    }

    /** `explosionComplete`: no particle left. */
    predicate ExplosionComplete()
      reads this
    {
      |particles| == 0
    }
  }

  const PickupSpeed: real := 2.0
  const PickupWidth: real := 15.0
  const FullTurn: real := 360.0

  /** The y velocity of `createVector(0, height).setMag(2)`. */
  function FallSpeed(height: real): real
  {
    if height == 0.0 then 0.0 else if height > 0.0 then PickupSpeed else -PickupSpeed
  }

  /** The spin of one `show`: two degrees per 60th of a second (two degrees
      when the frame rate reads zero); past 360 it starts over at 0. */
  function Spun(angle: real, frameRate: real): real
  {
    var a := if frameRate > 0.0 then angle + 2.0 * (60.0 / frameRate) else angle + 2.0;
    if a > FullTurn then 0.0 else a
  }

  /** The spin keeps the angle within [0, 360]: it grows, or starts over at 0. */
  lemma SpinStaysInTurn(angle: real, frameRate: real)
    requires 0.0 <= angle <= FullTurn
    ensures 0.0 <= Spun(angle, frameRate) <= FullTurn
    ensures Spun(angle, frameRate) == 0.0 || Spun(angle, frameRate) > angle
  {
    if frameRate > 0.0 {
      assert 60.0 / frameRate > 0.0;
    }
  }

  /** 360 itself is kept (the test is strictly greater), so the range is
      closed; only the step after it goes back to 0. */
  lemma FullTurnIsKept()
    ensures Spun(358.0, 60.0) == FullTurn
    ensures Spun(FullTurn, 60.0) == 0.0
  {
  }

  class Pickup {
    var x: real
    var y: real
    const vy: real
    const colorValue: int
    var angle: real

    ghost predicate Valid()
      reads this`angle
    {
      0.0 <= angle <= FullTurn
    }

    constructor (xPosition: real, yPosition: real, colorValue: int, height: real)
      ensures Valid() && x == xPosition && y == yPosition && this.colorValue == colorValue
      ensures vy == FallSpeed(height) && angle == 0.0
    {
      x := xPosition;
      y := yPosition;
      vy := FallSpeed(height);
      this.colorValue := colorValue;
      angle := 0.0;
    }

    /** `show`, which also spins the pickup. */
    method Show(frameRate: real)
      requires Valid()
      modifies this`angle
      ensures Valid() && angle == Spun(old(angle), frameRate)
    {
      angle := if frameRate > 0.0 then angle + 2.0 * (60.0 / frameRate) else angle + 2.0;
      angle := if angle > FullTurn then 0.0 else angle;
      SpinStaysInTurn(old(angle), frameRate);
    }

    /** `update`: fall by the fixed velocity. */
    method Update()
      modifies this`y
      ensures y == old(y) + vy
    {
      y := y + vy;
    }

    /** `isOutOfScreen`: more than its width below the bottom edge. */
    predicate IsOutOfScreen(height: real)
      reads this
    {
      y > height + PickupWidth
    }
  }
}
