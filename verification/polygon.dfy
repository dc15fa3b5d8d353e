/** The even-odd (crossing-number) point-in-polygon test shared by the ship,
    the enemies and the boss, and the outlines those entities test against. */
module Polygon {

  /** A canvas point (x, y); y grows downwards. */
  type Point = (real, real)

  /** The x coordinate at which the edge from `a` to `b` meets the horizontal
      line through `p` (meaningful only when the edge straddles that line). */
  function EdgeX(a: Point, b: Point, p: Point): real
    requires a.1 != b.1
  {
    (b.0 - a.0) * (p.1 - a.1) / (b.1 - a.1) + a.0
  }

  /** The edge from vertex `a` (index i) to vertex `b` (index j, the previous
      vertex) straddles the line through `p`, and meets it strictly to the
      right of `p`. */
  predicate Crosses(a: Point, b: Point, p: Point)
  {
    (a.1 > p.1) != (b.1 > p.1) && p.0 < EdgeX(a, b, p)
  }

  /** Index of the vertex that edge `i` joins to vertex `i`: the previous one, cyclically. */
  function Prev(n: nat, i: nat): nat
    requires i < n
  {
    if i == 0 then n - 1 else i - 1
  }

  /** How many of the edges 0 .. k-1 of the outline the rightward ray from `p` crosses. */
  function Crossings(outline: seq<Point>, p: Point, k: nat): nat
    requires k <= |outline|
  {
    if k == 0 then 0
    else Crossings(outline, p, k - 1)
         + (if Crosses(outline[k - 1], outline[Prev(|outline|, k - 1)], p) then 1 else 0)
  }

  /** The even-odd rule: `p` is inside iff the ray crosses an odd number of edges. */
  predicate Inside(outline: seq<Point>, p: Point)
  {
    Crossings(outline, p, |outline|) % 2 == 1
  }

  /** The parity flag after edges 0 .. k-1: flipped once per crossing edge. */
  function Parity(outline: seq<Point>, p: Point, k: nat): bool
    requires k <= |outline|
  {
    if k == 0 then false
    else Parity(outline, p, k - 1) != Crosses(outline[k - 1], outline[Prev(|outline|, k - 1)], p)
  }

  /** The flag is set exactly when the number of crossings so far is odd. */
  lemma {:induction false} ParityIsOddCrossings(outline: seq<Point>, p: Point, k: nat)
    requires k <= |outline|
    ensures Parity(outline, p, k) <==> Crossings(outline, p, k) % 2 == 1
  {
    if k > 0 {
      ParityIsOddCrossings(outline, p, k - 1);
      var crosses := Crosses(outline[k - 1], outline[Prev(|outline|, k - 1)], p);
      assert Crossings(outline, p, k) == Crossings(outline, p, k - 1) + (if crosses then 1 else 0);
      OddStep(Crossings(outline, p, k - 1), crosses);
    }
  }

  /** Adding one flips the parity of a count; adding nothing keeps it. */
  lemma OddStep(c: int, flip: bool)
    ensures (c + (if flip then 1 else 0)) % 2 == 1 <==> (c % 2 == 1) != flip
  {
  }

  /** The loop of `pointIsInside`: i walks the vertices, j trails it (starting
      at the last vertex), and the parity flag flips on every crossing edge. */
  method PointIsInside(shapePoints: seq<Point>, point: Point) returns (inside: bool)
    ensures inside <==> Inside(shapePoints, point)
  {
    inside := false;
    var i := 0;
    var j := |shapePoints| - 1;
    while i < |shapePoints|
      invariant 0 <= i <= |shapePoints|
      invariant i < |shapePoints| ==> j == Prev(|shapePoints|, i)
      invariant inside == Parity(shapePoints, point, i)
    {
      var intersect := Crosses(shapePoints[i], shapePoints[j], point);
      if intersect {
        inside := !inside;
      }
      j := i;
      i := i + 1;
    }
    ParityIsOddCrossings(shapePoints, point, |shapePoints|);
  }

  // ----- Outlines, as recomputed by each entity's show() -----

  /** The ship's 12-point outline around its position (width 70, height 14, gun width 7). */
  function ShipOutline(x: real, y: real): seq<Point>
  {
    var w, h, s := 70.0, 14.0, 7.0;
    [(x - s / 2.0, y - h * 2.0), (x + s / 2.0, y - h * 2.0),
     (x + s / 2.0, y - h * 1.5), (x + w / 4.0, y - h * 1.5),
     (x + w / 4.0, y - h / 2.0), (x + w / 2.0, y - h / 2.0),
     (x + w / 2.0, y + h / 2.0), (x - w / 2.0, y + h / 2.0),
     (x - w / 2.0, y - h / 2.0), (x - w / 4.0, y - h / 2.0),
     (x - w / 4.0, y - h * 1.5), (x - s / 2.0, y - h * 1.5)]
  }

  /** An enemy's 16-point outline for base width `w` (g = w/5, gun height 3w/20). */
  function EnemyOutline(x: real, y: real, w: real): seq<Point>
  {
    var g, sh := w / 5.0, w * 3.0 / 20.0;
    [(x - w / 2.0, y - g * 1.5), (x - w / 2.0 + g, y - g * 1.5),
     (x - w / 2.0 + g, y - g / 2.0), (x + w / 2.0 - g, y - g / 2.0),
     (x + w / 2.0 - g, y - g * 1.5), (x + w / 2.0, y - g * 1.5),
     (x + w / 2.0, y + g / 2.0), (x + w / 2.0 - w / 5.0, y + g / 2.0),
     (x + w / 2.0 - w / 5.0, y + g * 1.5), (x + w / 2.0 - w / 5.0 - w / 5.0, y + g * 1.5),
     (x + w / 2.0 - w / 5.0 - w / 5.0, y + g * 1.5 + sh),
     (x - w / 2.0 + w / 5.0 + w / 5.0, y + g * 1.5 + sh),
     (x - w / 2.0 + w / 5.0 + w / 5.0, y + g * 1.5), (x - w / 2.0 + w / 5.0, y + g * 1.5),
     (x - w / 2.0 + w / 5.0, y + g / 2.0), (x - w / 2.0, y + g / 2.0)]
  }

  /** The boss's outline: the axis-aligned square of side `w` centred on its position. */
  function BossOutline(x: real, y: real, w: real): seq<Point>
  {
    [(x - w / 2.0, y - w / 2.0), (x + w / 2.0, y - w / 2.0),
     (x + w / 2.0, y + w / 2.0), (x - w / 2.0, y + w / 2.0)]
  }

  // ----- Properties of the test -----

  /** An outline with no points (an entity never shown) contains nothing. */
  lemma EmptyOutlineContainsNothing(p: Point)
    ensures !Inside([], p)
  {
  }

  /** The boss square contains exactly the points of the half-open box
      [x - w/2, x + w/2) x [y - w/2, y + w/2): the even-odd rule counts the
      left and top sides in and the right and bottom sides out. */
  lemma BossSquareInside(x: real, y: real, w: real, p: Point)
    requires w > 0.0
    ensures Inside(BossOutline(x, y, w), p)
        <==> x - w / 2.0 <= p.0 < x + w / 2.0 && y - w / 2.0 <= p.1 < y + w / 2.0
  {
    var o := BossOutline(x, y, w);
    var h := w / 2.0;
    var band := y - h <= p.1 < y + h;
    // left side (edge 0, from vertex 0 back to vertex 3) and right side (edge 2)
    if band {
      VerticalEdgeX(o[0], o[3], p);
      VerticalEdgeX(o[2], o[1], p);
    }
    assert Crosses(o[0], o[3], p) <==> band && p.0 < x - h;
    assert Crosses(o[2], o[1], p) <==> band && p.0 < x + h;
    // top and bottom sides are horizontal and never straddle
    assert !Crosses(o[1], o[0], p);
    assert !Crosses(o[3], o[2], p);
    assert Crossings(o, p, 1) == (if band && p.0 < x - h then 1 else 0);
    assert Crossings(o, p, 2) == Crossings(o, p, 1);
    assert Crossings(o, p, 3) == Crossings(o, p, 1) + (if band && p.0 < x + h then 1 else 0);
    assert Crossings(o, p, 4) == Crossings(o, p, 3);
  }

  /** Where a straddling edge meets the ray's line lies between the edge's end x coordinates. */
  lemma EdgeXBetween(a: Point, b: Point, p: Point)
    requires (a.1 > p.1) != (b.1 > p.1)
    ensures a.0 <= b.0 ==> a.0 <= EdgeX(a, b, p) <= b.0
    ensures b.0 <= a.0 ==> b.0 <= EdgeX(a, b, p) <= a.0
  {
    var t := (p.1 - a.1) / (b.1 - a.1);
    StraddleFraction(p.1 - a.1, b.1 - a.1);
    var d := b.0 - a.0;
    assert EdgeX(a, b, p) == d * t + a.0 by {
      MulDiv(d, p.1 - a.1, b.1 - a.1);
    }
    ScaleBetween(d, t);
  }

  /** The offset of the line from one end of a straddling edge, over the
      edge's height, lies in [0, 1]. */
  lemma StraddleFraction(n: real, m: real)
    requires (0.0 <= n < m) || (m <= n < 0.0)
    ensures 0.0 <= n / m <= 1.0
  {
    if m < 0.0 {
      NegDiv(n, m);
      UnitFraction(-n, -m);
    } else {
      UnitFraction(n, m);
    }
  }

  /** Negating both sides of a quotient leaves it unchanged. */
  lemma NegDiv(n: real, m: real)
    requires m != 0.0
    ensures (-n) / (-m) == n / m
  {
    var q := n / m;
    assert q * m == n;
    assert q * (-m) == -n;
  }

  /** Scaling a quotient's numerator scales the quotient. */
  lemma MulDiv(d: real, n: real, m: real)
    requires m != 0.0
    ensures d * n / m == d * (n / m)
  {
  }

  /** A vertical edge meets every horizontal line at its own x. */
  lemma VerticalEdgeX(a: Point, b: Point, p: Point)
    requires a.0 == b.0 && a.1 != b.1
    ensures EdgeX(a, b, p) == a.0
  {
    assert b.0 - a.0 == 0.0;
  }

  /** Scaling by a factor in [0, 1] lands between zero and the scaled value. */
  lemma ScaleBetween(d: real, t: real)
    requires 0.0 <= t <= 1.0
    ensures d >= 0.0 ==> 0.0 <= d * t <= d
    ensures d < 0.0 ==> d <= d * t <= 0.0
  {
    assert d - d * t == d * (1.0 - t);
  }

  /** A fraction whose numerator lies between zero and its denominator lies in [0, 1]. */
  lemma UnitFraction(n: real, d: real)
    requires 0.0 <= n <= d && d > 0.0
    ensures 0.0 <= n / d <= 1.0
  {
  }

  /** A point on or below every vertex, or strictly above every vertex, sees no crossing. */
  lemma {:induction false} NoCrossingsOutsideBand(outline: seq<Point>, p: Point, k: nat)
    requires k <= |outline|
    requires (forall i :: 0 <= i < |outline| ==> outline[i].1 <= p.1)
          || (forall i :: 0 <= i < |outline| ==> outline[i].1 > p.1)
    ensures Crossings(outline, p, k) == 0
  {
    if k > 0 {
      NoCrossingsOutsideBand(outline, p, k - 1);
    }
  }

  /** A point on or to the right of every vertex sees no crossing. */
  lemma {:induction false} NoCrossingsRightOfAll(outline: seq<Point>, p: Point, k: nat)
    requires k <= |outline|
    requires forall i :: 0 <= i < |outline| ==> outline[i].0 <= p.0
    ensures Crossings(outline, p, k) == 0
  {
    if k > 0 {
      NoCrossingsRightOfAll(outline, p, k - 1);
      var a, b := outline[k - 1], outline[Prev(|outline|, k - 1)];
      if (a.1 > p.1) != (b.1 > p.1) {
        EdgeXBetween(a, b, p);
      }
    }
  }

  /** Whether vertex i lies strictly below the line through `p` (its y is larger). */
  predicate Below(outline: seq<Point>, p: Point, i: nat)
    requires i < |outline|
  {
    outline[i].1 > p.1
  }

  /** For a point left of every vertex, edges 1 .. k-1 cross with the parity of
      "vertex 0 and vertex k-1 lie on different sides": the sides telescope. */
  lemma {:induction false} LeftParity(outline: seq<Point>, p: Point, k: nat)
    requires 1 <= k <= |outline|
    requires forall i :: 0 <= i < |outline| ==> p.0 < outline[i].0
    ensures (Crossings(outline, p, k) - Crossings(outline, p, 1)) % 2
            == (if Below(outline, p, 0) != Below(outline, p, k - 1) then 1 else 0)
  {
    if k > 1 {
      LeftParity(outline, p, k - 1);
      var a, b := outline[k - 1], outline[k - 2];
      if (a.1 > p.1) != (b.1 > p.1) {
        EdgeXBetween(a, b, p);
        assert Crosses(a, b, p);
      }
      var c := Crossings(outline, p, k - 1) - Crossings(outline, p, 1);
      assert Crossings(outline, p, k) - Crossings(outline, p, 1)
          == c + (if Below(outline, p, k - 1) != Below(outline, p, k - 2) then 1 else 0);
      SideStep(c, Below(outline, p, 0), Below(outline, p, k - 2), Below(outline, p, k - 1));
    }
  }

  /** The telescoping step: a count with the parity of "first and previous
      differ", plus one when previous and last differ, has the parity of
      "first and last differ". */
  lemma SideStep(c: int, first: bool, previous: bool, last: bool)
    requires c % 2 == (if first != previous then 1 else 0)
    ensures (c + (if last != previous then 1 else 0)) % 2 == (if first != last then 1 else 0)
  {
  }

  /** A point strictly left of every vertex crosses every straddling edge, and a
      closed outline has an even number of those: it is outside. */
  lemma LeftOfAllOutside(outline: seq<Point>, p: Point)
    requires forall i :: 0 <= i < |outline| ==> p.0 < outline[i].0
    ensures !Inside(outline, p)
  {
    var n := |outline|;
    if n > 0 {
      LeftParity(outline, p, n);
      var a, b := outline[0], outline[n - 1];
      if (a.1 > p.1) != (b.1 > p.1) {
        EdgeXBetween(a, b, p);
        assert Crosses(a, b, p);
      }
    }
  }

  /** A point outside the bounding box of the outline's vertices is outside:
      the parity test never reports a far-away point as a hit. */
  lemma OutsideBoundingBox(outline: seq<Point>, p: Point)
    requires (forall i :: 0 <= i < |outline| ==> p.0 < outline[i].0)
          || (forall i :: 0 <= i < |outline| ==> outline[i].0 <= p.0)
          || (forall i :: 0 <= i < |outline| ==> p.1 < outline[i].1)
          || (forall i :: 0 <= i < |outline| ==> outline[i].1 <= p.1)
    ensures !Inside(outline, p)
  {
    if forall i :: 0 <= i < |outline| ==> p.0 < outline[i].0 {
      LeftOfAllOutside(outline, p);
    } else if forall i :: 0 <= i < |outline| ==> outline[i].0 <= p.0 {
      NoCrossingsRightOfAll(outline, p, |outline|);
    } else {
      NoCrossingsOutsideBand(outline, p, |outline|);
    }
  }

  /** The ship's own position lies inside its outline. */
  lemma ShipContainsItsPosition(x: real, y: real)
    ensures Inside(ShipOutline(x, y), (x, y))
  {
    var o, p := ShipOutline(x, y), (x, y);
    // only the two outer sides of the body straddle the line y; the right one crosses
    VerticalEdgeX(o[6], o[5], p);
    assert Crosses(o[6], o[5], p);
    assert !Crosses(o[8], o[7], p);
    assert Crossings(o, p, 1) == 0;
    assert Crossings(o, p, 2) == 0;
    assert Crossings(o, p, 3) == 0;
    assert Crossings(o, p, 4) == 0;
    assert Crossings(o, p, 5) == 0;
    assert Crossings(o, p, 6) == 0;
    assert Crossings(o, p, 7) == 1;
    assert Crossings(o, p, 8) == 1;
    assert Crossings(o, p, 9) == 1;
    assert Crossings(o, p, 10) == 1;
    assert Crossings(o, p, 11) == 1;
    assert Crossings(o, p, 12) == 1;
  }

  /** An enemy's own position lies inside its outline, whatever its (positive) width. */
  lemma EnemyContainsItsPosition(x: real, y: real, w: real)
    requires w > 0.0
    ensures Inside(EnemyOutline(x, y, w), (x, y))
  {
    var o, p := EnemyOutline(x, y, w), (x, y);
    assert !Crosses(o[0], o[15], p);
    VerticalEdgeX(o[6], o[5], p);
    assert Crosses(o[6], o[5], p);
    assert Crossings(o, p, 1) == 0;
    assert Crossings(o, p, 2) == 0;
    assert Crossings(o, p, 3) == 0;
    assert Crossings(o, p, 4) == 0;
    assert Crossings(o, p, 5) == 0;
    assert Crossings(o, p, 6) == 0;
    assert Crossings(o, p, 7) == 1;
    assert Crossings(o, p, 8) == 1;
    assert Crossings(o, p, 9) == 1;
    assert Crossings(o, p, 10) == 1;
    assert Crossings(o, p, 11) == 1;
    assert Crossings(o, p, 12) == 1;
    assert Crossings(o, p, 13) == 1;
    assert Crossings(o, p, 14) == 1;
    assert Crossings(o, p, 15) == 1;
    assert Crossings(o, p, 16) == 1;
  }
}
