/** p5's `random()`, made a parameter: a fixed stream of draws in [0, 1) and
    the number of draws taken so far. Every call site of `random` in the game
    rules takes the next draw, so the rules are deterministic given the stream. */
module Random {

  class Rng {
    const stream: nat -> real
    var used: nat

    ghost predicate Valid()
      reads this
    {
      forall k: nat :: 0.0 <= stream(k) < 1.0
    }

    constructor (stream: nat -> real)
      requires forall k: nat :: 0.0 <= stream(k) < 1.0
      ensures Valid() && this.stream == stream && used == 0
    {
      this.stream := stream;
      used := 0;
    }

    /** `random()`: the next draw. */
    method Next() returns (r: real)
      requires Valid()
      modifies this
      ensures Valid() && used == old(used) + 1
      ensures r == stream(old(used)) && 0.0 <= r < 1.0
    {
      r := stream(used);
      used := used + 1;
    }

    /** `random(a, b)`: the next draw scaled onto [min(a, b), max(a, b)). */
    method Between(a: real, b: real) returns (v: real)
      requires Valid()
      modifies this
      ensures Valid() && used == old(used) + 1
      ensures v == Scale(stream(old(used)), a, b)
      ensures a <= b ==> a <= v && (a < b ==> v < b)
      ensures b < a ==> b <= v < a
    {
      var r := Next();
      v := Scale(r, a, b);
      ScaleInRange(r, a, b);
    }
  }

  /** How `random(a, b)` maps a unit draw `r`: `r * (max - min) + min`. */
  function Scale(r: real, a: real, b: real): real
  {
    var lo, hi := if a <= b then a else b, if a <= b then b else a;
    r * (hi - lo) + lo
  }

  /** A unit draw lands in the half-open range between the two bounds. */
  lemma ScaleInRange(r: real, a: real, b: real)
    requires 0.0 <= r < 1.0
    ensures a <= b ==> a <= Scale(r, a, b) && (a < b ==> Scale(r, a, b) < b)
    ensures b < a ==> b <= Scale(r, a, b) < a
  {
    if a <= b {
      OrderedScale(r, a, b);
    } else {
      OrderedScale(r, b, a);
    }
  }

  lemma OrderedScale(r: real, lo: real, hi: real)
    requires 0.0 <= r < 1.0 && lo <= hi
    ensures lo <= r * (hi - lo) + lo
    ensures lo < hi ==> r * (hi - lo) + lo < hi
  {
    NonNegProduct(r, hi - lo);
    if lo < hi {
      StrictlyBelowTop(r, lo, hi);
    }
  }

  lemma StrictlyBelowTop(r: real, lo: real, hi: real)
    requires 0.0 <= r < 1.0 && lo < hi
    ensures r * (hi - lo) + lo < hi
  {
    assert r * (hi - lo) == r * hi - r * lo;
    assert r * hi - r * lo < hi - lo by {
      assert (1.0 - r) * hi - (1.0 - r) * lo == (1.0 - r) * (hi - lo);
      PosProduct(1.0 - r, hi - lo);
    }
  }

  lemma NonNegProduct(x: real, y: real)
    requires 0.0 <= x && 0.0 <= y
    ensures 0.0 <= x * y
  {
  }

  lemma PosProduct(x: real, y: real)
    requires 0.0 < x && 0.0 < y
    ensures 0.0 < x * y
  {
  }
}
