/**
 * The pose arithmetic of headNod, headShake, headTilt and headScale: each rotation is
 * read from a pair of points of interest as adjacent / hypotenuse of the right
 * triangle between one point and the pair's midpoint, times `drama`; the scale is the
 * mean of two linear maps of the face's height and width.
 */
module Pose {
  import opened P5Math
  import opened Landmarks

  /** How strongly head movements are exaggerated. */
  const Drama: real := 1.5

  /**
   * A JavaScript number as the rotation formulas can produce it: a finite value, or
   * NaN from 0 / 0 when both legs of the triangle are zero.
   */
  datatype Number = Finite(value: real) | NaN

  /** The two legs of the right triangle a rotation is read from. */
  datatype Sides = Sides(adjacent: real, opposite: real)

  /** A rotation argument that, when it is a number, lies in [-drama, drama]. */
  predicate Bounded(a: Number)
  {
    a.Finite? ==> -Drama <= a.value <= Drama
  }

  /** Unary minus on a JavaScript number. */
  function Negated(n: Number): (r: Number)
    ensures r.NaN? <==> n.NaN?
    ensures n.Finite? ==> r.value + n.value == 0.0
  {
    match n
    case Finite(v) => Finite(-v)
    case NaN => NaN
  }

  /** Multiplication of a JavaScript number by a finite factor. */
  function Times(n: Number, k: real): (r: Number)
    ensures r.NaN? <==> n.NaN?
  {
    match n
    case Finite(v) => Finite(v * k)
    case NaN => NaN
  }

  /** A ratio in [-1, 1] times drama lies in [-drama, drama] and keeps its sign. */
  lemma Exaggerated(c: Number)
    requires c.Finite? ==> -1.0 <= c.value <= 1.0
    ensures Times(c, Drama).Finite? ==> -Drama <= Times(c, Drama).value <= Drama
    ensures Times(c, Drama).Finite? ==> (0.0 < Times(c, Drama).value <==> 0.0 < c.value)
    ensures Times(c, Drama).Finite? ==> (Times(c, Drama).value == 0.0 <==> c.value == 0.0)
  {
  }

  /** headNod's triangle: forehead against the y/z midpoint of forehead and chin. */
  function NodSides(forehead: Landmark, chin: Landmark): (s: Sides)
    ensures s.adjacent == (forehead.z - chin.z) / 2.0
    ensures s.opposite == (forehead.y - chin.y) / 2.0
    ensures s.adjacent == 0.0 && s.opposite == 0.0 <==> forehead.y == chin.y && forehead.z == chin.z
    ensures 0.0 < s.adjacent <==> chin.z < forehead.z
  {
    var mid := Landmark(0.0, (forehead.y + chin.y) * 0.5, (forehead.z + chin.z) * 0.5);
    Sides(forehead.z - mid.z, forehead.y - mid.y)
  }

  /** headShake's triangle: left eye against the x/z midpoint of the two eyes. */
  function ShakeSides(leftEye: Landmark, rightEye: Landmark): (s: Sides)
    ensures s.adjacent == (leftEye.z - rightEye.z) / 2.0
    ensures s.opposite == (leftEye.x - rightEye.x) / 2.0
    ensures s.adjacent == 0.0 && s.opposite == 0.0 <==> leftEye.x == rightEye.x && leftEye.z == rightEye.z
    ensures 0.0 < s.adjacent <==> rightEye.z < leftEye.z
  {
    var mid := Landmark((leftEye.x + rightEye.x) * 0.5, 0.0, (leftEye.z + rightEye.z) * 0.5);
    Sides(leftEye.z - mid.z, leftEye.x - mid.x)
  }

  /** headTilt's triangle: forehead against the x/y midpoint of forehead and chin. */
  function TiltSides(forehead: Landmark, chin: Landmark): (s: Sides)
    ensures s.adjacent == (forehead.x - chin.x) / 2.0
    ensures s.opposite == (forehead.y - chin.y) / 2.0
    ensures s.adjacent == 0.0 && s.opposite == 0.0 <==> forehead.x == chin.x && forehead.y == chin.y
    ensures s.adjacent < 0.0 <==> forehead.x < chin.x
  {
    var mid := Landmark((forehead.x + chin.x) * 0.5, (forehead.y + chin.y) * 0.5, 0.0);
    Sides(forehead.x - mid.x, forehead.y - mid.y)
  }

  /** Math.sqrt(Math.pow(adjacent, 2) + Math.pow(opposite, 2)). */
  function Hypotenuse(s: Sides, root: real -> real): real
  {
    root(Square(s.adjacent) + Square(s.opposite))
  }

  /** With a true square root, the hypotenuse closes the right triangle on the two legs. */
  lemma HypotenuseCloses(s: Sides, root: real -> real)
    requires IsSqrt(root)
    ensures 0.0 <= Hypotenuse(s, root)
    ensures Square(Hypotenuse(s, root)) == Square(s.adjacent) + Square(s.opposite)
  {
    SquareNonNeg(s.adjacent);
    SquareNonNeg(s.opposite);
  }

  /**
   * adjacent / hypotenuse, for a hypotenuse `h`. sketch.js has no guard for a zero
   * hypotenuse, where the quotient is 0 / 0.
   */
  function Cosine(s: Sides, h: real): Number
  {
    if h == 0.0 then NaN else Finite(s.adjacent / h)
  }

  /**
   * For the true hypotenuse, the ratio is NaN exactly when the triangle is a point, and
   * otherwise lies in [-1, 1], has the sign of the adjacent leg, and is 1 or -1 when the
   * opposite leg is zero.
   */
  lemma CosineRange(s: Sides, h: real)
    requires 0.0 <= h && Square(h) == Square(s.adjacent) + Square(s.opposite)
    ensures Cosine(s, h).NaN? <==> s.adjacent == 0.0 && s.opposite == 0.0
    ensures Cosine(s, h).Finite? ==> -1.0 <= Cosine(s, h).value <= 1.0
    ensures Cosine(s, h).Finite? ==> (0.0 < Cosine(s, h).value <==> 0.0 < s.adjacent)
    ensures Cosine(s, h).Finite? ==> (Cosine(s, h).value == 0.0 <==> s.adjacent == 0.0)
    ensures Cosine(s, h).Finite? && s.opposite == 0.0 ==>
      Cosine(s, h).value == (if 0.0 < s.adjacent then 1.0 else -1.0)
  {
    HypotenuseZero(s.adjacent, s.opposite, h);
    if h != 0.0 {
      LegBound(s.adjacent, s.opposite, h);
      RatioBounds(s.adjacent, h);
      FlatRatio(s.adjacent, s.opposite, h);
    }
  }

  /** The rotation read from a triangle: its ratio, exaggerated by drama. */
  function Rotation(s: Sides, root: real -> real): Number
  {
    Times(Cosine(s, Hypotenuse(s, root)), Drama)
  }

  /** A rotation is NaN only for a point-like triangle, else bounded by drama with the adjacent leg's sign. */
  lemma RotationRange(s: Sides, root: real -> real)
    requires IsSqrt(root)
    ensures Rotation(s, root).NaN? <==> s.adjacent == 0.0 && s.opposite == 0.0
    ensures Bounded(Rotation(s, root))
    ensures Rotation(s, root).Finite? ==> (0.0 < Rotation(s, root).value <==> 0.0 < s.adjacent)
    ensures Rotation(s, root).Finite? ==> (Rotation(s, root).value == 0.0 <==> s.adjacent == 0.0)
  {
    HypotenuseCloses(s, root);
    CosineRange(s, Hypotenuse(s, root));
    Exaggerated(Cosine(s, Hypotenuse(s, root)));
  }

  /** The argument of headNod's rotateX. */
  function NodAngle(forehead: Landmark, chin: Landmark, root: real -> real): Number
  {
    Rotation(NodSides(forehead, chin), root)
  }

  /** The argument of headShake's rotateY. */
  function ShakeAngle(leftEye: Landmark, rightEye: Landmark, root: real -> real): Number
  {
    Rotation(ShakeSides(leftEye, rightEye), root)
  }

  /**
   * The argument of headTilt's rotateZ, -adjacent / hypotenuse * drama: the ratio is
   * negated, so the tilt is mirrored.
   */
  function TiltAngle(forehead: Landmark, chin: Landmark, root: real -> real): Number
  {
    Negated(Rotation(TiltSides(forehead, chin), root))
  }

  /**
   * The nod is NaN exactly when forehead and chin agree in y and z, and otherwise lies
   * in [-drama, drama] and is positive exactly when the forehead is deeper than the chin.
   */
  lemma NodAngleRange(forehead: Landmark, chin: Landmark, root: real -> real)
    requires IsSqrt(root)
    ensures NodAngle(forehead, chin, root).NaN? <==> forehead.y == chin.y && forehead.z == chin.z
    ensures Bounded(NodAngle(forehead, chin, root))
    ensures NodAngle(forehead, chin, root).Finite? ==> (0.0 < NodAngle(forehead, chin, root).value <==> chin.z < forehead.z)
  {
    RotationRange(NodSides(forehead, chin), root);
  }

  /**
   * The shake is NaN exactly when the eyes agree in x and z, and otherwise lies in
   * [-drama, drama] and is positive exactly when the left eye is deeper than the right.
   */
  lemma ShakeAngleRange(leftEye: Landmark, rightEye: Landmark, root: real -> real)
    requires IsSqrt(root)
    ensures ShakeAngle(leftEye, rightEye, root).NaN? <==> leftEye.x == rightEye.x && leftEye.z == rightEye.z
    ensures Bounded(ShakeAngle(leftEye, rightEye, root))
    ensures ShakeAngle(leftEye, rightEye, root).Finite? ==> (0.0 < ShakeAngle(leftEye, rightEye, root).value <==> rightEye.z < leftEye.z)
  {
    RotationRange(ShakeSides(leftEye, rightEye), root);
  }

  /**
   * The tilt is NaN exactly when forehead and chin agree in x and y, and otherwise lies
   * in [-drama, drama] and is positive exactly when the forehead is left of the chin.
   */
  lemma TiltAngleRange(forehead: Landmark, chin: Landmark, root: real -> real)
    requires IsSqrt(root)
    ensures TiltAngle(forehead, chin, root).NaN? <==> forehead.x == chin.x && forehead.y == chin.y
    ensures Bounded(TiltAngle(forehead, chin, root))
    ensures TiltAngle(forehead, chin, root).Finite? ==> (0.0 < TiltAngle(forehead, chin, root).value <==> forehead.x < chin.x)
  {
    RotationRange(TiltSides(forehead, chin), root);
  }

  /** Swapping the two points of a triangle negates both legs and so the rotation. */
  lemma RotationSwapped(s: Sides, root: real -> real)
    ensures Rotation(Sides(-s.adjacent, -s.opposite), root) == Negated(Rotation(s, root))
  {
    SquareNeg(s.adjacent);
    SquareNeg(s.opposite);
    assert Hypotenuse(Sides(-s.adjacent, -s.opposite), root) == Hypotenuse(s, root);
  }

  /** Reading the nod from the chin instead of the forehead gives the opposite rotation. */
  lemma NodAngleSwapped(forehead: Landmark, chin: Landmark, root: real -> real)
    ensures NodAngle(chin, forehead, root) == Negated(NodAngle(forehead, chin, root))
  {
    var s := NodSides(forehead, chin);
    assert NodSides(chin, forehead) == Sides(-s.adjacent, -s.opposite);
    RotationSwapped(s, root);
  }

  /**
   * headScale's factor from the face height (forehead to chin) and width (eye to eye):
   * the mean of map(height, 0, 600, 0, 3) and map(width, 0, 400, 0, 3), times drama.
   */
  function ScaleOf(yDistance: real, xDistance: real): (s: real)
    ensures s == (yDistance * 3.0 / 600.0 + xDistance * 3.0 / 400.0) / 2.0 * Drama
  {
    (Map(yDistance, 0.0, 600.0, 0.0, 3.0) + Map(xDistance, 0.0, 400.0, 0.0, 3.0)) / 2.0 * Drama
  }

  /** A taller face, at the same width, is drawn strictly larger. */
  lemma ScaleGrowsWithHeight(y1: real, y2: real, x: real)
    requires y1 < y2
    ensures ScaleOf(y1, x) < ScaleOf(y2, x)
  {
  }

  /** A wider face, at the same height, is drawn strictly larger. */
  lemma ScaleGrowsWithWidth(y: real, x1: real, x2: real)
    requires x1 < x2
    ensures ScaleOf(y, x1) < ScaleOf(y, x2)
  {
  }

  /** The argument of headScale's scale call. */
  function HeadScaleFactor(forehead: Landmark, chin: Landmark, leftEye: Landmark, rightEye: Landmark,
                           root: real -> real): real
  {
    var yDistance := Dist(forehead.x, forehead.y, forehead.z, chin.x, chin.y, chin.z, root);
    var xDistance := Dist(leftEye.x, leftEye.y, leftEye.z, rightEye.x, rightEye.y, rightEye.z, root);
    ScaleOf(yDistance, xDistance)
  }

  /** The scale is never negative, and is zero only when both point pairs coincide. */
  lemma HeadScaleFactorRange(forehead: Landmark, chin: Landmark, leftEye: Landmark, rightEye: Landmark,
                             root: real -> real)
    requires IsSqrt(root)
    ensures 0.0 <= HeadScaleFactor(forehead, chin, leftEye, rightEye, root)
    ensures HeadScaleFactor(forehead, chin, leftEye, rightEye, root) == 0.0 <==> forehead == chin && leftEye == rightEye
  {
    DistIsLength(forehead.x, forehead.y, forehead.z, chin.x, chin.y, chin.z, root);
    DistIsLength(leftEye.x, leftEye.y, leftEye.z, rightEye.x, rightEye.y, rightEye.z, root);
  }
}
