/**
 * The one-dimensional elastic collision applied to the normal speeds of two
 * balls: the speeds after impact keep the pair's momentum and reverse the
 * speed of one ball relative to the other.
 */
module Elastic {
  import opened Planar

  /** Normal speeds of the two balls after an impact. */
  datatype Normals = Normals(first: real, second: real)

  /** Momentum of a pair of masses moving along one axis. */
  function Momentum(m1: real, m2: real, n: Normals): real
  {
    m1 * n.first + m2 * n.second
  }

  /** Twice the kinetic energy of a pair of masses moving along one axis. */
  function Energy(m1: real, m2: real, n: Normals): real
  {
    m1 * Sq(n.first) + m2 * Sq(n.second)
  }

  /**
   * The standard two-body elastic collision formula. The total mass is a
   * divisor, so it must not vanish.
   */
  function ElasticNormals(m1: real, m2: real, n: Normals): (r: Normals)
    requires m1 + m2 != 0.0
    ensures Momentum(m1, m2, r) == Momentum(m1, m2, n)
    ensures r.first - r.second == n.second - n.first
  {
    var total := m1 + m2;
    var r := Normals(
      (n.first * (m1 - m2) + 2.0 * m2 * n.second) / total,
      (n.second * (m2 - m1) + 2.0 * m1 * n.first) / total);
    assert r.first * total == n.first * (m1 - m2) + 2.0 * m2 * n.second;
    assert r.second * total == n.second * (m2 - m1) + 2.0 * m1 * n.first;
    assert Mul(Momentum(m1, m2, r) - Momentum(m1, m2, n), total) == 0.0;
    ProductZero(Momentum(m1, m2, r) - Momentum(m1, m2, n), total);
    assert Mul(r.first - r.second - (n.second - n.first), total) == 0.0;
    ProductZero(r.first - r.second - (n.second - n.first), total);
    r
  }

  /**
   * Momentum and the reversed relative speed pin the outcome down: when the
   * total mass is non-zero, at most one pair of speeds has both.
   */
  lemma {:induction false} Determined(m1: real, m2: real, a: Normals, b: Normals)
    requires m1 + m2 != 0.0
    requires Momentum(m1, m2, a) == Momentum(m1, m2, b)
    requires a.first - a.second == b.first - b.second
    ensures a == b
  {
    var e := a.first - b.first;
    assert Mul(m1 + m2, e) == Momentum(m1, m2, a) - Momentum(m1, m2, b);
    ProductZero(m1 + m2, e);
  }

  /** When momentum is kept, what one ball gains the other loses. */
  lemma MomentumHandedOver(m1: real, m2: real, n: Normals, a: Normals)
    requires Momentum(m1, m2, a) == Momentum(m1, m2, n)
    ensures m2 * (a.second - n.second) == -(m1 * (a.first - n.first))
  {
  }

  /** The change of one ball's energy, factored through its change of momentum. */
  lemma KineticChange(m: real, before: real, after: real)
    ensures m * Sq(after) - m * Sq(before) == Mul(m * (after - before), after + before)
  {
  }

  lemma MulNegated(p: real, q: real, y: real)
    requires q == -p
    ensures Mul(q, y) == -Mul(p, y)
  {
  }

  lemma MulDifference(p: real, x: real, y: real, z: real)
    requires z == x - y
    ensures Mul(p, x) - Mul(p, y) == Mul(p, z)
  {
  }

  /**
   * When momentum is kept, the change in energy is the momentum handed from
   * the second ball to the first times the change in relative speed.
   */
  lemma {:induction false} EnergyChange(m1: real, m2: real, n: Normals, a: Normals)
    requires Momentum(m1, m2, a) == Momentum(m1, m2, n)
    ensures Energy(m1, m2, a) - Energy(m1, m2, n)
         == Mul(m1 * (a.first - n.first), (a.first - a.second) + (n.first - n.second))
  {
    var p := m1 * (a.first - n.first);
    var s1, s2 := a.first + n.first, a.second + n.second;
    MomentumHandedOver(m1, m2, n, a);
    KineticChange(m1, n.first, a.first);
    KineticChange(m2, n.second, a.second);
    MulNegated(p, m2 * (a.second - n.second), s2);
    MulDifference(p, s1, s2, (a.first - a.second) + (n.first - n.second));
  }

  /** The elastic formula conserves kinetic energy. */
  lemma {:induction false} ElasticKeepsEnergy(m1: real, m2: real, n: Normals)
    requires m1 + m2 != 0.0
    ensures Energy(m1, m2, ElasticNormals(m1, m2, n)) == Energy(m1, m2, n)
  {
    EnergyChange(m1, m2, n, ElasticNormals(m1, m2, n));
  }

  /** Balls of equal mass exchange their normal speeds. */
  lemma {:induction false} EqualMassesSwap(m: real, n: Normals)
    requires m != 0.0
    ensures ElasticNormals(m, m, n) == Normals(n.second, n.first)
  {
    var swapped := Normals(n.second, n.first);
    assert Momentum(m, m, swapped) == Momentum(m, m, n);
    Determined(m, m, ElasticNormals(m, m, n), swapped);
  }

  /** A second impact between the same two balls undoes the first. */
  lemma {:induction false} ElasticInvolution(m1: real, m2: real, n: Normals)
    requires m1 + m2 != 0.0
    ensures ElasticNormals(m1, m2, ElasticNormals(m1, m2, n)) == n
  {
    var r := ElasticNormals(m1, m2, n);
    Determined(m1, m2, ElasticNormals(m1, m2, r), n);
  }

  /**
   * Among all outcomes that keep both momentum and kinetic energy, the
   * elastic formula is the only one besides leaving the speeds alone.
   */
  lemma {:induction false} ElasticUnique(m1: real, m2: real, n: Normals, a: Normals)
    requires m1 != 0.0 && m2 != 0.0 && m1 + m2 != 0.0
    ensures Momentum(m1, m2, a) == Momentum(m1, m2, n) && Energy(m1, m2, a) == Energy(m1, m2, n)
      ==> a == n || a == ElasticNormals(m1, m2, n)
  {
    if Momentum(m1, m2, a) == Momentum(m1, m2, n) && Energy(m1, m2, a) == Energy(m1, m2, n) {
      var p := m1 * (a.first - n.first);
      var q := (a.first - a.second) + (n.first - n.second);
      EnergyChange(m1, m2, n, a);
      ProductZero(p, q);
      if p == 0.0 {
        assert Mul(m1, a.first - n.first) == 0.0;
        ProductZero(m1, a.first - n.first);
        assert Mul(m2, a.second - n.second) == 0.0;
        ProductZero(m2, a.second - n.second);
      } else {
        var r := ElasticNormals(m1, m2, n);
        assert a.first - a.second == r.first - r.second;
        Determined(m1, m2, a, r);
      }
    }
  }
}
