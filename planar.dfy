/**
 * Geometry of the table plane.
 *
 * The balls live in 3D space, but the physics only moves them in the X/Z
 * plane; a ball's planar velocity is a 2D vector whose `y` component is the
 * velocity along the world Z axis. Angles never appear: the line of impact is
 * described by its cosine and sine, and lengths by the square they must have.
 */
module Planar {

  /** A planar velocity: `x` along world X, `y` along world Z. */
  datatype Vec2 = Vec2(x: real, y: real)

  /** A point in space; only `x` and `z` are moved by the physics. */
  datatype Vec3 = Vec3(x: real, y: real, z: real)

  /** The line of impact, given by the cosine `c` and sine `s` of its angle. */
  datatype Direction = Direction(c: real, s: real)

  function Sq(a: real): real { a * a }

  /** `len` is the Euclidean length of a vector whose squared length is `sq`. */
  predicate IsRoot(len: real, sq: real) { 0.0 <= len && Sq(len) == sq }

  /** Squared length of a planar velocity. */
  function SpeedSq(v: Vec2): real { Sq(v.x) + Sq(v.y) }

  /** Squared 3D distance between two points. */
  function SqDist3(p: Vec3, q: Vec3): real { Sq(q.x - p.x) + Sq(q.y - p.y) + Sq(q.z - p.z) }

  /** Squared distance between two points projected onto the X/Z plane. */
  function PlanarSqDist(p: Vec3, q: Vec3): real { Sq(q.x - p.x) + Sq(q.z - p.z) }

  /** (c, s) lies on the unit circle, so it is (cos θ, sin θ) for some θ. */
  predicate IsUnit(d: Direction) { d.c * d.c + d.s * d.s == 1.0 }

  /** A product kept behind a function, so sign facts about it survive. */
  function Mul(x: real, y: real): real { x * y }

  lemma MulPositive(x: real, y: real)
    requires 0.0 < x && 0.0 < y
    ensures 0.0 < Mul(x, y)
  {
  }

  lemma MulOfNegatives(x: real, y: real)
    requires x < 0.0 && y < 0.0
    ensures 0.0 < Mul(x, y)
  {
  }

  lemma MulMixed(x: real, y: real)
    requires x < 0.0 && 0.0 < y
    ensures Mul(x, y) < 0.0
  {
  }

  /** A product vanishes only when one of its factors does. */
  lemma ProductZero(x: real, y: real)
    requires Mul(x, y) == 0.0
    ensures x == 0.0 || y == 0.0
  {
    if x < 0.0 && y < 0.0 {
      MulOfNegatives(x, y);
    } else if x < 0.0 && 0.0 < y {
      MulMixed(x, y);
    } else if 0.0 < x && y < 0.0 {
      assert Mul(y, x) == Mul(x, y);
      MulMixed(y, x);
    } else if 0.0 < x && 0.0 < y {
      MulPositive(x, y);
    }
  }

  /** Scaling by a positive factor keeps the sign of a number. */
  lemma KeepsSign(a: real, f: real)
    requires 0.0 < f
    ensures 0.0 < a <==> 0.0 < a * f
    ensures a < 0.0 <==> a * f < 0.0
  {
    if 0.0 < a {
      MulPositive(a, f);
    } else if a < 0.0 {
      MulMixed(a, f);
    }
  }

  /** The square of a non-zero number is positive. */
  lemma SqPositive(a: real)
    requires a < 0.0 || 0.0 < a
    ensures 0.0 < Sq(a)
  {
    if a < 0.0 {
      MulOfNegatives(a, a);
    } else {
      MulPositive(a, a);
    }
    assert Sq(a) == Mul(a, a);
  }

  lemma SqNonNegative(a: real)
    ensures 0.0 <= Sq(a)
  {
    if a < 0.0 || 0.0 < a {
      SqPositive(a);
    }
  }

  /** A sum of two squares vanishes only when both terms do. */
  lemma SumOfSquaresZero(a: real, b: real)
    requires Sq(a) + Sq(b) == 0.0
    ensures a == 0.0 && b == 0.0
  {
    SqNonNegative(a);
    SqNonNegative(b);
    if a < 0.0 || 0.0 < a {
      SqPositive(a);
    }
    if b < 0.0 || 0.0 < b {
      SqPositive(b);
    }
  }

  /** Squaring is strictly increasing on the non-negative reals. */
  lemma SqStrictlyIncreasing(a: real, b: real)
    requires 0.0 <= a < b
    ensures Sq(a) < Sq(b)
  {
    MulPositive(b - a, b + a);
    assert Mul(b - a, b + a) == Sq(b) - Sq(a);
  }

  /** Squaring is increasing on the non-negative reals. */
  lemma SqIncreasing(a: real, b: real)
    requires 0.0 <= a <= b
    ensures Sq(a) <= Sq(b)
  {
    if a < b {
      SqStrictlyIncreasing(a, b);
    }
  }

  /**
   * Comparing a length with a bound is comparing squares, provided the bound
   * is positive: a length is never below zero or a negative bound.
   */
  lemma RootBelow(len: real, sq: real, bound: real)
    requires IsRoot(len, sq)
    ensures len < bound <==> 0.0 < bound && sq < Sq(bound)
  {
    if len < bound {
      SqStrictlyIncreasing(len, bound);
    } else if 0.0 < bound {
      SqIncreasing(bound, len);
    }
  }

  /** `RootBelow` for every length a squared length can have. */
  lemma RootsBelow(sq: real, bound: real)
    ensures forall len | IsRoot(len, sq) :: len < bound <==> 0.0 < bound && sq < Sq(bound)
  {
    forall len | IsRoot(len, sq)
      ensures len < bound <==> 0.0 < bound && sq < Sq(bound)
    {
      RootBelow(len, sq, bound);
    }
  }

  /** A factor that leaves a positive number unchanged is one. */
  lemma CancelPositive(u: real, p: real)
    requires 0.0 < p && Mul(u, p) == p
    ensures u == 1.0
  {
    assert Mul(u - 1.0, p) == 0.0;
    if u < 1.0 {
      MulPositive(1.0 - u, p);
    } else if 1.0 < u {
      MulPositive(u - 1.0, p);
    }
  }

  /** Dividing a vector of positive length by that length gives a unit vector. */
  lemma ScaledIsUnit(dx: real, dz: real, len: real)
    requires 0.0 < len && Sq(len) == Sq(dx) + Sq(dz)
    ensures IsUnit(Direction(dx / len, dz / len))
  {
    var c, s := dx / len, dz / len;
    assert c * len == dx && s * len == dz;
    var u := c * c + s * s;
    assert Mul(u, Sq(len)) == Sq(c * len) + Sq(s * len);
    SqPositive(len);
    CancelPositive(u, Sq(len));
  }

  /**
   * The unit direction of the vector (dx, dz) of length `len`: the cosine and
   * sine of atan2(dz, dx). When both differences are zero atan2 gives 0, so
   * the direction is (1, 0).
   */
  function ImpactDirection(dx: real, dz: real, len: real): (d: Direction)
    requires IsRoot(len, Sq(dx) + Sq(dz))
    ensures IsUnit(d)
    ensures d.c * len == dx && d.s * len == dz
    ensures len == 0.0 <==> dx == 0.0 && dz == 0.0
    ensures len == 0.0 ==> d == Direction(1.0, 0.0)
  {
    if 0.0 < len then
      ScaledIsUnit(dx, dz, len);
      Direction(dx / len, dz / len)
    else
      SumOfSquaresZero(dx, dz);
      Direction(1.0, 0.0)
  }

  /** `v` scaled by `k`. */
  function Scale(v: Vec2, k: real): Vec2 { Vec2(v.x * k, v.y * k) }

  function Add(u: Vec2, v: Vec2): Vec2 { Vec2(u.x + v.x, u.y + v.y) }

  /** The component of `v` along the line of impact. */
  function Normal(v: Vec2, d: Direction): real { v.x * d.c + v.y * d.s }

  /** The component of `v` perpendicular to the line of impact. */
  function Tangent(v: Vec2, d: Direction): real { v.y * d.c - v.x * d.s }

  /**
   * The planar velocity whose normal and tangential components along a unit
   * direction are `n` and `t`.
   */
  function Compose(n: real, t: real, d: Direction): (v: Vec2)
    requires IsUnit(d)
    ensures Normal(v, d) == n && Tangent(v, d) == t
  {
    var v := Vec2(n * d.c - t * d.s, n * d.s + t * d.c);
    assert Normal(v, d) == n * (d.c * d.c + d.s * d.s);
    assert Tangent(v, d) == t * (d.c * d.c + d.s * d.s);
    v
  }

  /** Decomposing and recomposing along a unit direction gives back the velocity. */
  lemma {:induction false} ComposeDecomposed(v: Vec2, d: Direction)
    requires IsUnit(d)
    ensures Compose(Normal(v, d), Tangent(v, d), d) == v
  {
    var w := Compose(Normal(v, d), Tangent(v, d), d);
    assert w.x == v.x * (d.c * d.c + d.s * d.s);
    assert w.y == v.y * (d.c * d.c + d.s * d.s);
  }

  /** Rotating onto a unit direction keeps the squared speed. */
  lemma {:induction false} DecompositionKeepsSpeed(v: Vec2, d: Direction)
    requires IsUnit(d)
    ensures Sq(Normal(v, d)) + Sq(Tangent(v, d)) == SpeedSq(v)
  {
    calc {
      Sq(Normal(v, d)) + Sq(Tangent(v, d));
      (v.x * v.x + v.y * v.y) * (d.c * d.c + d.s * d.s);
      SpeedSq(v);
    }
  }

  /** Velocities with the same normal and tangential parts are equal. */
  lemma {:induction false} DecompositionInjective(u: Vec2, v: Vec2, d: Direction)
    requires IsUnit(d)
    requires Normal(u, d) == Normal(v, d) && Tangent(u, d) == Tangent(v, d)
    ensures u == v
  {
    ComposeDecomposed(u, d);
    ComposeDecomposed(v, d);
  }

  /** Taking the normal component is linear. */
  lemma {:induction false} NormalLinear(u: Vec2, a: real, v: Vec2, b: real, d: Direction)
    ensures Normal(Add(Scale(u, a), Scale(v, b)), d) == a * Normal(u, d) + b * Normal(v, d)
  {
  }

  /** Taking the tangential component is linear. */
  lemma {:induction false} TangentLinear(u: Vec2, a: real, v: Vec2, b: real, d: Direction)
    ensures Tangent(Add(Scale(u, a), Scale(v, b)), d) == a * Tangent(u, d) + b * Tangent(v, d)
  {
  }
}
