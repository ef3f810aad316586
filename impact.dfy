/**
 * What happens to a pair of balls that touch: the contact test, the exchange
 * of normal speeds along the line of impact, and the push that moves the two
 * centres exactly one reach apart.
 */
module Impact {
  import opened Planar
  import opened Elastic

  /** The planar velocities of the first and the second ball of a pair. */
  datatype Speeds = Speeds(first: Vec2, second: Vec2)

  /** The positions of the first and the second ball of a pair. */
  datatype Positions = Positions(first: Vec3, second: Vec3)

  /**
   * Two balls whose centres are at `p` and `q` are in contact when the 3D
   * distance between the centres is strictly below `reach`, the sum of the
   * radii. The test is made on squared distances.
   */
  function InContact(p: Vec3, q: Vec3, reach: real): (hit: bool)
    ensures forall dist | IsRoot(dist, SqDist3(p, q)) :: hit <==> dist < reach
  {
    RootsBelow(SqDist3(p, q), reach);
    0.0 < reach && SqDist3(p, q) < Sq(reach)
  }

  /** The normal speeds of a pair along `d`. */
  function NormalsAlong(v: Speeds, d: Direction): Normals
  {
    Normals(Normal(v.first, d), Normal(v.second, d))
  }

  /** Total momentum of a pair, as a planar vector. */
  function PairMomentum(m1: real, m2: real, v: Speeds): Vec2
  {
    Add(Scale(v.first, m1), Scale(v.second, m2))
  }

  /** Twice the total kinetic energy of a pair. */
  function PairEnergy(m1: real, m2: real, v: Speeds): real
  {
    m1 * SpeedSq(v.first) + m2 * SpeedSq(v.second)
  }

  /**
   * The velocities after impact along the unit direction `d`: the normal
   * speeds go through the elastic formula, the tangential speeds are kept.
   */
  function ResolveSpeeds(v: Speeds, m1: real, m2: real, d: Direction): (r: Speeds)
    requires m1 + m2 != 0.0 && IsUnit(d)
    ensures NormalsAlong(r, d) == ElasticNormals(m1, m2, NormalsAlong(v, d))
    ensures Tangent(r.first, d) == Tangent(v.first, d)
    ensures Tangent(r.second, d) == Tangent(v.second, d)
  {
    var n := ElasticNormals(m1, m2, NormalsAlong(v, d));
    Speeds(Compose(n.first, Tangent(v.first, d), d), Compose(n.second, Tangent(v.second, d), d))
  }

  /** The impact keeps the pair's planar momentum, as a vector. */
  lemma {:induction false} ResolveKeepsMomentum(v: Speeds, m1: real, m2: real, d: Direction)
    requires m1 + m2 != 0.0 && IsUnit(d)
    ensures PairMomentum(m1, m2, ResolveSpeeds(v, m1, m2, d)) == PairMomentum(m1, m2, v)
  {
    var r := ResolveSpeeds(v, m1, m2, d);
    NormalLinear(r.first, m1, r.second, m2, d);
    NormalLinear(v.first, m1, v.second, m2, d);
    TangentLinear(r.first, m1, r.second, m2, d);
    TangentLinear(v.first, m1, v.second, m2, d);
    assert Momentum(m1, m2, NormalsAlong(r, d)) == Momentum(m1, m2, NormalsAlong(v, d));
    DecompositionInjective(PairMomentum(m1, m2, r), PairMomentum(m1, m2, v), d);
  }

  /** The impact keeps the pair's kinetic energy. */
  lemma {:induction false} ResolveKeepsEnergy(v: Speeds, m1: real, m2: real, d: Direction)
    requires m1 + m2 != 0.0 && IsUnit(d)
    ensures PairEnergy(m1, m2, ResolveSpeeds(v, m1, m2, d)) == PairEnergy(m1, m2, v)
  {
    var r := ResolveSpeeds(v, m1, m2, d);
    DecompositionKeepsSpeed(r.first, d);
    DecompositionKeepsSpeed(r.second, d);
    DecompositionKeepsSpeed(v.first, d);
    DecompositionKeepsSpeed(v.second, d);
    ElasticKeepsEnergy(m1, m2, NormalsAlong(v, d));
    assert Energy(m1, m2, NormalsAlong(r, d)) == Energy(m1, m2, NormalsAlong(v, d));
    TangentialEnergy(m1, m2, r, v, d);
  }

  /** Splits a pair's energy into its normal and its tangential part. */
  lemma {:induction false} TangentialEnergy(m1: real, m2: real, r: Speeds, v: Speeds, d: Direction)
    requires Energy(m1, m2, NormalsAlong(r, d)) == Energy(m1, m2, NormalsAlong(v, d))
    requires Tangent(r.first, d) == Tangent(v.first, d) && Tangent(r.second, d) == Tangent(v.second, d)
    requires SpeedSq(r.first) == Sq(Normal(r.first, d)) + Sq(Tangent(r.first, d))
    requires SpeedSq(r.second) == Sq(Normal(r.second, d)) + Sq(Tangent(r.second, d))
    requires SpeedSq(v.first) == Sq(Normal(v.first, d)) + Sq(Tangent(v.first, d))
    requires SpeedSq(v.second) == Sq(Normal(v.second, d)) + Sq(Tangent(v.second, d))
    ensures PairEnergy(m1, m2, r) == PairEnergy(m1, m2, v)
  {
    var t1, t2 := Sq(Tangent(v.first, d)), Sq(Tangent(v.second, d));
    assert PairEnergy(m1, m2, r) == Energy(m1, m2, NormalsAlong(r, d)) + (m1 * t1 + m2 * t2);
    assert PairEnergy(m1, m2, v) == Energy(m1, m2, NormalsAlong(v, d)) + (m1 * t1 + m2 * t2);
  }

  /**
   * Balls of equal mass exchange their normal speeds and keep their
   * tangential ones; in a head-on impact they exchange their velocities.
   */
  lemma {:induction false} EqualMassesExchange(v: Speeds, m: real, d: Direction)
    requires m != 0.0 && IsUnit(d)
    ensures var r := ResolveSpeeds(v, m, m, d);
      Normal(r.first, d) == Normal(v.second, d) && Normal(r.second, d) == Normal(v.first, d)
    ensures Tangent(v.first, d) == 0.0 && Tangent(v.second, d) == 0.0 ==>
      ResolveSpeeds(v, m, m, d) == Speeds(v.second, v.first)
  {
    var r := ResolveSpeeds(v, m, m, d);
    EqualMassesSwap(m, NormalsAlong(v, d));
    if Tangent(v.first, d) == 0.0 && Tangent(v.second, d) == 0.0 {
      DecompositionInjective(r.first, v.second, d);
      DecompositionInjective(r.second, v.first, d);
    }
  }

  /** A second impact along the same line restores the velocities. */
  lemma {:induction false} ResolveTwiceRestores(v: Speeds, m1: real, m2: real, d: Direction)
    requires m1 + m2 != 0.0 && IsUnit(d)
    ensures ResolveSpeeds(ResolveSpeeds(v, m1, m2, d), m1, m2, d) == v
  {
    var r := ResolveSpeeds(v, m1, m2, d);
    var w := ResolveSpeeds(r, m1, m2, d);
    ElasticInvolution(m1, m2, NormalsAlong(v, d));
    assert NormalsAlong(w, d) == NormalsAlong(v, d);
    DecompositionInjective(w.first, v.first, d);
    DecompositionInjective(w.second, v.second, d);
  }

  /** The line of impact from the first ball towards the second. */
  function LineOfImpact(p: Positions, len: real): (d: Direction)
    requires IsRoot(len, PlanarSqDist(p.first, p.second))
    ensures IsUnit(d)
    ensures d.c * len == p.second.x - p.first.x && d.s * len == p.second.z - p.first.z
  {
    ImpactDirection(p.second.x - p.first.x, p.second.z - p.first.z, len)
  }

  /**
   * Depenetration: each ball moves by half the overlap `reach - len` along
   * the line of impact, away from the other when the overlap is positive
   * and towards it when it is negative.
   */
  function Separate(p: Positions, reach: real, len: real): (r: Positions)
    requires IsRoot(len, PlanarSqDist(p.first, p.second))
    ensures var d := LineOfImpact(p, len);
      r.second.x - r.first.x == reach * d.c && r.second.z - r.first.z == reach * d.s
    ensures r.first.x + r.second.x == p.first.x + p.second.x
    ensures r.first.z + r.second.z == p.first.z + p.second.z
    ensures r.first.y == p.first.y && r.second.y == p.second.y
  {
    var d := LineOfImpact(p, len);
    var displacement := (reach - len) / 2.0;
    Positions(
      Vec3(p.first.x - displacement * d.c, p.first.y, p.first.z - displacement * d.s),
      Vec3(p.second.x + displacement * d.c, p.second.y, p.second.z + displacement * d.s))
  }

  /** After depenetration the centres are exactly `reach` apart in the plane. */
  lemma {:induction false} SeparateTouches(p: Positions, reach: real, len: real)
    requires IsRoot(len, PlanarSqDist(p.first, p.second))
    ensures PlanarSqDist(Separate(p, reach, len).first, Separate(p, reach, len).second) == Sq(reach)
  {
    var r := Separate(p, reach, len);
    var d := LineOfImpact(p, len);
    calc {
      PlanarSqDist(r.first, r.second);
      Sq(reach * d.c) + Sq(reach * d.s);
      Sq(reach) * (d.c * d.c + d.s * d.s);
      Sq(reach);
    }
  }

  /**
   * After depenetration the pair no longer counts as colliding, whatever the
   * heights of the two centres.
   */
  lemma {:induction false} SeparatedNotInContact(p: Positions, reach: real, len: real)
    requires IsRoot(len, PlanarSqDist(p.first, p.second))
    ensures !InContact(Separate(p, reach, len).first, Separate(p, reach, len).second, reach)
  {
    var r := Separate(p, reach, len);
    SeparateTouches(p, reach, len);
    SqNonNegative(r.second.y - r.first.y);
  }

  /**
   * When the line of impact is the X axis, depenetration moves the balls
   * along X only, by half the overlap each.
   */
  lemma {:induction false} SeparateAlongX(p: Positions, reach: real, len: real)
    requires IsRoot(len, PlanarSqDist(p.first, p.second))
    requires LineOfImpact(p, len) == Direction(1.0, 0.0)
    ensures var half := (reach - len) / 2.0;
      Separate(p, reach, len)
        == Positions(Vec3(p.first.x - half, p.first.y, p.first.z), Vec3(p.second.x + half, p.second.y, p.second.z))
  {
  }

  /** A pair already exactly one reach apart is not moved. */
  lemma {:induction false} SeparateKeepsTouching(p: Positions, reach: real, len: real)
    requires IsRoot(len, PlanarSqDist(p.first, p.second)) && len == reach
    ensures Separate(p, reach, len) == p
  {
  }
}
