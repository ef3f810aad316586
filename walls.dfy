/**
 * The rectangular table walls: which walls a ball overlaps, the damped
 * bounce off them, and rolling friction.
 */
module Walls {
  import opened Planar

  /** An axis-aligned rectangle on the X/Z plane. */
  datatype WallBounds = WallBounds(minX: real, maxX: real, minZ: real, maxZ: real)

  /**
   * Which walls a ball overlaps. `x` flags the walls across the X axis, `y`
   * the walls across the world Z axis (the planar velocity's `y`); `z` is
   * never raised.
   */
  datatype WallCollision = WallCollision(x: bool, y: bool, z: bool)

  /** Every ball starts out inside ±10 on both axes. */
  const DefaultBounds := WallBounds(-10.0, 10.0, -10.0, 10.0)

  /** Share of a speed component kept by a wall bounce. */
  const DefaultWallDamping: real := 0.9

  /** Share of the speed kept by one step of rolling friction. */
  const DefaultFriction: real := 0.999

  /** A ball of radius `r` centred at `c` fits between walls at `lo` and `hi`. */
  predicate Fits(c: real, r: real, lo: real, hi: real)
  {
    lo <= c - r && c + r <= hi
  }

  /** The walls overlapped by a ball of radius `r` at `p`. */
  function WallFlags(p: Vec3, r: real, b: WallBounds): WallCollision
  {
    WallCollision(p.x - r < b.minX || p.x + r > b.maxX, p.z - r < b.minZ || p.z + r > b.maxZ, false)
  }

  /**
   * The walls a ball of radius `r` at `p` overlaps AND is moving further
   * into: a wall counts only when the component of `v` across it points out
   * of the table. Unlike `WallFlags`, a ball already heading back in is left
   * alone.
   */
  function HeadingOutFlags(p: Vec3, v: Vec2, r: real, b: WallBounds): (w: WallCollision)
    ensures w.x <==> (0.0 < v.x && p.x + r > b.maxX) || (v.x < 0.0 && p.x - r < b.minX)
    ensures w.y <==> (0.0 < v.y && p.z + r > b.maxZ) || (v.y < 0.0 && p.z - r < b.minZ)
    ensures !w.z
  {
    var flags := WallFlags(p, r, b);
    WallCollision(
      flags.x && (if 0.0 < v.x then p.x + r > b.maxX else v.x < 0.0 && p.x - r < b.minX),
      flags.y && (if 0.0 < v.y then p.z + r > b.maxZ else v.y < 0.0 && p.z - r < b.minZ),
      false)
  }

  /**
   * The bounce: every flagged component of `v` is reversed and scaled by
   * the damping `k`; the others are kept.
   */
  function Bounce(v: Vec2, w: WallCollision, k: real): Vec2
  {
    Vec2(if w.x then -v.x * k else v.x, if w.y then -v.y * k else v.y)
  }

  /** With no wall flagged the velocity is kept. */
  lemma {:induction false} BounceUnflagged(v: Vec2, k: real)
    ensures Bounce(v, WallCollision(false, false, false), k) == v
  {
  }

  /** A damping between 0 and 1 never speeds a ball up. */
  lemma {:induction false} BounceNeverSpeedsUp(v: Vec2, w: WallCollision, k: real)
    requires 0.0 <= k <= 1.0
    ensures SpeedSq(Bounce(v, w, k)) <= SpeedSq(v)
  {
    var u := Bounce(v, w, k);
    DampedSquare(v.x, k);
    DampedSquare(v.y, k);
    assert Sq(u.x) <= Sq(v.x);
    assert Sq(u.y) <= Sq(v.y);
  }

  /** Scaling a component by a damping between 0 and 1 does not grow its square. */
  lemma DampedSquare(a: real, k: real)
    requires 0.0 <= k <= 1.0
    ensures Sq(-a * k) <= Sq(a)
  {
    assert Sq(-a * k) == Sq(k) * Sq(a);
    SqIncreasing(k, 1.0);
    SqNonNegative(a);
    assert Mul(1.0 - Sq(k), Sq(a)) == Sq(a) - Sq(k) * Sq(a);
    if Sq(k) < 1.0 && 0.0 < Sq(a) {
      MulPositive(1.0 - Sq(k), Sq(a));
    }
  }

  /**
   * A positive damping turns a flagged component around: afterwards it
   * points against its old direction, or both are zero.
   */
  lemma {:induction false} BounceTurnsAround(v: Vec2, w: WallCollision, k: real)
    requires 0.0 < k
    ensures w.x ==> (v.x < 0.0 <==> 0.0 < Bounce(v, w, k).x) && (v.x == 0.0 <==> Bounce(v, w, k).x == 0.0)
    ensures w.y ==> (v.y < 0.0 <==> 0.0 < Bounce(v, w, k).y) && (v.y == 0.0 <==> Bounce(v, w, k).y == 0.0)
  {
    if w.x {
      BounceComponent(v.x, k);
    }
    if w.y {
      BounceComponent(v.y, k);
    }
  }

  lemma BounceComponent(a: real, k: real)
    requires 0.0 < k
    ensures (a < 0.0 <==> 0.0 < -a * k) && (a == 0.0 <==> -a * k == 0.0)
  {
    if a < 0.0 {
      MulPositive(-a, k);
    } else if 0.0 < a {
      MulPositive(a, k);
    }
  }

  /**
   * Friction scales the velocity by a coefficient `f`: the squared speed is
   * scaled by the square of `f` and the heading does not turn.
   */
  lemma {:induction false} FrictionScalesSpeed(v: Vec2, f: real)
    ensures SpeedSq(Scale(v, f)) == Sq(f) * SpeedSq(v)
    ensures Scale(v, f).x * v.y == Scale(v, f).y * v.x
  {
  }

  /** A positive friction coefficient keeps the sign of each component, so the heading. */
  lemma {:induction false} FrictionKeepsHeading(v: Vec2, f: real)
    requires 0.0 < f
    ensures (0.0 < v.x <==> 0.0 < Scale(v, f).x) && (v.x < 0.0 <==> Scale(v, f).x < 0.0)
    ensures (0.0 < v.y <==> 0.0 < Scale(v, f).y) && (v.y < 0.0 <==> Scale(v, f).y < 0.0)
  {
    KeepsSign(v.x, f);
    KeepsSign(v.y, f);
  }

  /** A friction coefficient between 0 and 1 never speeds a ball up. */
  lemma {:induction false} FrictionNeverSpeedsUp(v: Vec2, f: real)
    requires 0.0 <= f <= 1.0
    ensures SpeedSq(Scale(v, f)) <= SpeedSq(v)
  {
    FrictionScalesSpeed(v, f);
    SqIncreasing(f, 1.0);
    var s := SpeedSq(v);
    SqNonNegative(v.x);
    SqNonNegative(v.y);
    assert Mul(1.0 - Sq(f), s) == s - Sq(f) * s;
    if Sq(f) < 1.0 && 0.0 < s {
      MulPositive(1.0 - Sq(f), s);
    }
  }
}
