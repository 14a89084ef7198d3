/**
 * The p5.js numeric helpers the head-pose sketch calls (lerp, map, dist), over the
 * reals, together with the facts about squares that the pose formulas rest on.
 *
 * The square root that dist and the rotation formulas need is a foreign call
 * (Math.sqrt); it is passed in as a function `root` that is only known to satisfy
 * IsSqrt. Squares are written through Square, so that every proof about them goes
 * through the small lemmas below.
 */
module P5Math {

  /** x squared (Math.pow(x, 2)). */
  function Square(x: real): real
  {
    x * x
  }

  /** `root` returns the non-negative square root of every non-negative real. */
  ghost predicate IsSqrt(root: real -> real)
  {
    forall x: real :: 0.0 <= x ==> 0.0 <= root(x) && Square(root(x)) == x
  }

  lemma MulStrict(x: real, y: real, z: real)
    requires 0.0 < z && x < y
    ensures x * z < y * z
  {
  }

  lemma MulLeft(x: real, y: real, z: real)
    requires 0.0 <= z && x <= y
    ensures z * x <= z * y
  {
  }

  lemma SquareNonNeg(x: real)
    ensures 0.0 <= Square(x)
  {
  }

  lemma SquareNeg(x: real)
    ensures Square(-x) == Square(x)
  {
  }

  lemma SquareMonoPos(x: real, y: real)
    requires 0.0 < x < y
    ensures Square(x) < Square(y)
  {
    MulStrict(x, y, x);
    MulStrict(x, y, y);
  }

  /** Squares of non-zero reals are positive. */
  lemma SquarePos(x: real)
    requires x != 0.0
    ensures 0.0 < Square(x)
  {
    var a := if x > 0.0 then x else -x;
    SquareNeg(x);
    SquareMonoPos(a / 2.0, a);
    SquareNonNeg(a / 2.0);
  }

  /** Squaring is strictly increasing on the non-negative reals. */
  lemma SquareMono(x: real, y: real)
    requires 0.0 <= x < y
    ensures Square(x) < Square(y)
  {
    if x == 0.0 {
      SquarePos(y);
    } else {
      SquareMonoPos(x, y);
    }
  }

  lemma SquareZero(x: real)
    ensures Square(x) == 0.0 <==> x == 0.0
  {
    if x != 0.0 {
      SquarePos(x);
    }
  }

  /**
   * The hypotenuse of a right triangle with legs a and o is zero exactly when both
   * legs are.
   */
  lemma HypotenuseZero(a: real, o: real, h: real)
    requires 0.0 <= h && Square(h) == Square(a) + Square(o)
    ensures h == 0.0 <==> a == 0.0 && o == 0.0
  {
    SquareZero(h);
    SquareZero(a);
    SquareZero(o);
    SquareNonNeg(a);
    SquareNonNeg(o);
  }

  /** A leg of a right triangle is no longer than its hypotenuse. */
  lemma LegBound(a: real, o: real, h: real)
    requires 0.0 <= h && Square(h) == Square(a) + Square(o)
    ensures -h <= a <= h
  {
    SquareNonNeg(o);
    if a > h {
      SquareMono(h, a);
    }
    if -a > h {
      SquareMono(h, -a);
      SquareNeg(a);
    }
  }

  /** When the other leg is zero, the hypotenuse is the length of the leg. */
  lemma DegenerateTriangle(a: real, h: real)
    requires 0.0 <= h && Square(h) == Square(a) + Square(0.0)
    ensures h == a || h == -a
  {
    LegBound(a, 0.0, h);
    if 0.0 <= a < h {
      SquareMono(a, h);
    } else if 0.0 <= -a < h {
      SquareMono(-a, h);
      SquareNeg(a);
    }
  }

  /** A leg over its hypotenuse lies in [-1, 1] and has the sign of the leg. */
  lemma RatioBounds(a: real, h: real)
    requires 0.0 < h && -h <= a <= h
    ensures -1.0 <= a / h <= 1.0
    ensures 0.0 < a / h <==> 0.0 < a
    ensures a / h == 0.0 <==> a == 0.0
  {
  }

  lemma RatioUnit(a: real, h: real)
    requires 0.0 < h && (a == h || a == -h)
    ensures a / h == (if 0.0 < a then 1.0 else -1.0)
  {
  }

  /** With the other leg zero, a leg over the hypotenuse is exactly 1 or -1. */
  lemma FlatRatio(a: real, o: real, h: real)
    requires 0.0 < h && Square(h) == Square(a) + Square(o)
    ensures o == 0.0 ==> a / h == (if 0.0 < a then 1.0 else -1.0)
  {
    if o == 0.0 {
      DegenerateTriangle(a, h);
      RatioUnit(a, h);
    }
  }

  /** p5's lerp(start, stop, amt): the point a fraction `amt` of the way from start to stop. */
  function Lerp(start: real, stop: real, amt: real): (r: real)
    ensures amt == 0.0 ==> r == start
    ensures amt == 1.0 ==> r == stop
    ensures amt == 0.5 ==> r == (start + stop) / 2.0
    ensures start == stop ==> r == start
  {
    amt * (stop - start) + start
  }

  /** Interpolating from stop back to start by 1 - amt lands on the same point. */
  lemma LerpReversed(start: real, stop: real, amt: real)
    ensures Lerp(start, stop, amt) == Lerp(stop, start, 1.0 - amt)
  {
  }

  /** For amt in [0, 1], lerp from a lower to a higher point stays between them. */
  lemma LerpBetweenRising(start: real, stop: real, amt: real)
    requires 0.0 <= amt <= 1.0 && start <= stop
    ensures start <= Lerp(start, stop, amt) <= stop
  {
    var d := stop - start;
    var p := amt * d;
    assert 0.0 <= p by { MulLeft(0.0, amt, d); }
    assert p <= d by { MulLeft(amt, 1.0, d); }
  }

  /** For amt in [0, 1], lerp stays between its two end points. */
  lemma LerpBetween(start: real, stop: real, amt: real)
    requires 0.0 <= amt <= 1.0
    ensures start <= stop ==> start <= Lerp(start, stop, amt) <= stop
    ensures stop <= start ==> stop <= Lerp(start, stop, amt) <= start
  {
    if start <= stop {
      LerpBetweenRising(start, stop, amt);
    } else {
      LerpReversed(start, stop, amt);
      LerpBetweenRising(stop, start, 1.0 - amt);
    }
  }

  lemma Quotient(x: real, w: real)
    requires w != 0.0
    ensures x == 0.0 ==> x / w == 0.0
    ensures x == w ==> x / w == 1.0
  {
  }

  /**
   * p5's map(n, start1, stop1, start2, stop2), which does not clamp by default: the
   * affine map that sends start1 to start2 and stop1 to stop2.
   */
  function Map(n: real, start1: real, stop1: real, start2: real, stop2: real): (r: real)
    requires start1 != stop1
    ensures n == start1 ==> r == start2
    ensures n == stop1 ==> r == stop2
  {
    Quotient(n - start1, stop1 - start1);
    (n - start1) / (stop1 - start1) * (stop2 - start2) + start2
  }

  /**
   * p5's three-dimensional dist(x1, y1, z1, x2, y2, z2): the square root of the sum of
   * the squared coordinate differences.
   */
  function Dist(x1: real, y1: real, z1: real, x2: real, y2: real, z2: real, root: real -> real): real
  {
    root(Square(x2 - x1) + Square(y2 - y1) + Square(z2 - z1))
  }

  /** With a true square root, dist is a non-negative length that is zero only for one point. */
  lemma DistIsLength(x1: real, y1: real, z1: real, x2: real, y2: real, z2: real, root: real -> real)
    requires IsSqrt(root)
    ensures 0.0 <= Dist(x1, y1, z1, x2, y2, z2, root)
    ensures Square(Dist(x1, y1, z1, x2, y2, z2, root)) == Square(x2 - x1) + Square(y2 - y1) + Square(z2 - z1)
    ensures Dist(x1, y1, z1, x2, y2, z2, root) == 0.0 <==> x1 == x2 && y1 == y2 && z1 == z2
  {
    var s := Square(x2 - x1) + Square(y2 - y1) + Square(z2 - z1);
    SquareNonNeg(x2 - x1);
    SquareNonNeg(y2 - y1);
    SquareNonNeg(z2 - z1);
    SquareZero(x2 - x1);
    SquareZero(y2 - y1);
    SquareZero(z2 - z1);
    SquareZero(root(s));
  }

  /** The distance from p to q is the distance from q to p. */
  lemma DistSymmetric(x1: real, y1: real, z1: real, x2: real, y2: real, z2: real, root: real -> real)
    ensures Dist(x1, y1, z1, x2, y2, z2, root) == Dist(x2, y2, z2, x1, y1, z1, root)
  {
    SquareNeg(x2 - x1);
    SquareNeg(y2 - y1);
    SquareNeg(z2 - z1);
  }
}
