/**
 * A ball on the table: its position in space, its planar velocity, its mass
 * and radius, and the wall rectangle it bounces inside. The physics updates
 * a ball in place, frame by frame.
 */
module Balls {
  import opened Planar
  import opened Elastic
  import opened Impact
  import opened Walls

  /** What one integration step changes: where the ball is and how it moves. */
  datatype State = State(position: Vec3, speed: Vec2)

  /**
   * One integration step: an explicit Euler move over `dt`, then a bounce
   * off the walls overlapped at the new position with the default damping,
   * then friction.
   */
  function Step(p: Vec3, v: Vec2, r: real, b: WallBounds, dt: real, f: real): State
  {
    var moved := Vec3(p.x + v.x * dt, p.y, p.z + v.y * dt);
    State(moved, Scale(Bounce(v, WallFlags(moved, r, b), DefaultWallDamping), f))
  }

  /** A ball at rest stays where it is and stays at rest. */
  lemma {:induction false} StepAtRest(p: Vec3, r: real, b: WallBounds, dt: real, f: real)
    ensures Step(p, Vec2(0.0, 0.0), r, b, dt, f) == State(p, Vec2(0.0, 0.0))
  {
    var rest := Vec2(0.0, 0.0);
    assert Vec3(p.x + rest.x * dt, p.y, p.z + rest.y * dt) == p;
    var w := WallFlags(p, r, b);
    assert Bounce(rest, w, DefaultWallDamping) == rest;
  }

  /** With a friction coefficient between 0 and 1 a step never speeds a ball up. */
  lemma {:induction false} StepNeverSpeedsUp(p: Vec3, v: Vec2, r: real, b: WallBounds, dt: real, f: real)
    requires 0.0 <= f <= 1.0
    ensures SpeedSq(Step(p, v, r, b, dt, f).speed) <= SpeedSq(v)
  {
    var moved := Step(p, v, r, b, dt, f).position;
    var bounced := Bounce(v, WallFlags(moved, r, b), DefaultWallDamping);
    BounceNeverSpeedsUp(v, WallFlags(moved, r, b), DefaultWallDamping);
    FrictionNeverSpeedsUp(bounced, f);
  }

  /**
   * A step that ends with the ball clear of every wall only applies
   * friction to the velocity, and moves the ball by `dt` times its velocity.
   */
  lemma {:induction false} StepInsideWalls(p: Vec3, v: Vec2, r: real, b: WallBounds, dt: real, f: real)
    requires var q := Step(p, v, r, b, dt, f).position;
      Fits(q.x, r, b.minX, b.maxX) && Fits(q.z, r, b.minZ, b.maxZ)
    ensures Step(p, v, r, b, dt, f).speed == Scale(v, f)
    ensures Step(p, v, r, b, dt, f).position == Vec3(p.x + v.x * dt, p.y, p.z + v.y * dt)
  {
  }

  /**
   * A step that ends with the ball over a wall reverses the velocity
   * component across that wall, as long as friction is positive. The
   * reversal does not look at which way the ball was heading: a ball already
   * on its way back in is turned outward again (see `StuckPastWall`).
   */
  lemma {:induction false} StepBouncesBack(p: Vec3, v: Vec2, r: real, b: WallBounds, dt: real, f: real)
    requires 0.0 < f
    ensures var s := Step(p, v, r, b, dt, f);
      !Fits(s.position.x, r, b.minX, b.maxX) ==>
        (v.x < 0.0 <==> 0.0 < s.speed.x) && (0.0 < v.x <==> s.speed.x < 0.0)
    ensures var s := Step(p, v, r, b, dt, f);
      !Fits(s.position.z, r, b.minZ, b.maxZ) ==>
        (v.y < 0.0 <==> 0.0 < s.speed.y) && (0.0 < v.y <==> s.speed.y < 0.0)
  {
    var s := Step(p, v, r, b, dt, f);
    var w := WallFlags(s.position, r, b);
    var bounced := Bounce(v, w, DefaultWallDamping);
    BounceTurnsAround(v, w, DefaultWallDamping);
    KeepsSign(bounced.x, f);
    KeepsSign(bounced.y, f);
  }

  /**
   * A ball over the +X wall that is already rolling back in, but not far
   * enough to clear the wall in one step, is turned outward by the bounce;
   * its next step then carries it further out. For instance a ball of
   * radius 0.03 at x = 10.5 with velocity (-1, 0) and `dt` 0.1, with the
   * default walls.
   */
  lemma {:induction false} StuckPastWall(p: Vec3, v: Vec2, r: real, b: WallBounds, dt: real, f: real)
    requires 0.0 < dt && 0.0 < f && v.x < 0.0
    requires p.x + v.x * dt + r > b.maxX
    ensures var s1 := Step(p, v, r, b, dt, f);
      var s2 := Step(s1.position, s1.speed, r, b, dt, f);
      !Fits(s1.position.x, r, b.minX, b.maxX) && 0.0 < s1.speed.x
      && !Fits(s2.position.x, r, b.minX, b.maxX) && s1.position.x < s2.position.x
  {
    var s1 := Step(p, v, r, b, dt, f);
    StepBouncesBack(p, v, r, b, dt, f);
    MulPositive(s1.speed.x, dt);
    assert Step(s1.position, s1.speed, r, b, dt, f).position.x == s1.position.x + Mul(s1.speed.x, dt);
  }

  /**
   * One integration step whose bounce only reverses a component that points
   * out through a wall the ball overlaps.
   */
  function ReturningStep(p: Vec3, v: Vec2, r: real, b: WallBounds, dt: real, f: real): State
  {
    var moved := Vec3(p.x + v.x * dt, p.y, p.z + v.y * dt);
    State(moved, Scale(Bounce(v, HeadingOutFlags(moved, v, r, b), DefaultWallDamping), f))
  }

  /**
   * After a returning step, a ball over one wall of an axis (and clear of the
   * opposite one) is never heading further out through it; a component
   * already pointing back in keeps its sign; and a step that ends clear of
   * the walls is the same as `Step`.
   */
  lemma {:induction false} ReturningStepHeadsIn(p: Vec3, v: Vec2, r: real, b: WallBounds, dt: real, f: real)
    requires 0.0 < f
    ensures var s := ReturningStep(p, v, r, b, dt, f);
      (s.position.x + r > b.maxX && b.minX <= s.position.x - r ==> s.speed.x <= 0.0)
      && (s.position.x - r < b.minX && s.position.x + r <= b.maxX ==> 0.0 <= s.speed.x)
    ensures var s := ReturningStep(p, v, r, b, dt, f);
      (s.position.z + r > b.maxZ && b.minZ <= s.position.z - r ==> s.speed.y <= 0.0)
      && (s.position.z - r < b.minZ && s.position.z + r <= b.maxZ ==> 0.0 <= s.speed.y)
    ensures var s := ReturningStep(p, v, r, b, dt, f);
      s.position.x + r > b.maxX && v.x < 0.0 && b.minX <= s.position.x - r ==> s.speed.x < 0.0
    ensures var s := ReturningStep(p, v, r, b, dt, f);
      s.position.x - r < b.minX && 0.0 < v.x && s.position.x + r <= b.maxX ==> 0.0 < s.speed.x
    ensures var s := ReturningStep(p, v, r, b, dt, f);
      s.position.z + r > b.maxZ && v.y < 0.0 && b.minZ <= s.position.z - r ==> s.speed.y < 0.0
    ensures var s := ReturningStep(p, v, r, b, dt, f);
      s.position.z - r < b.minZ && 0.0 < v.y && s.position.z + r <= b.maxZ ==> 0.0 < s.speed.y
    ensures var s := ReturningStep(p, v, r, b, dt, f);
      (Fits(s.position.x, r, b.minX, b.maxX) && Fits(s.position.z, r, b.minZ, b.maxZ))
        ==> s == Step(p, v, r, b, dt, f)
  {
    var s := ReturningStep(p, v, r, b, dt, f);
    var w := HeadingOutFlags(s.position, v, r, b);
    var bounced := Bounce(v, w, DefaultWallDamping);
    BounceTurnsAround(v, w, DefaultWallDamping);
    KeepsSign(bounced.x, f);
    KeepsSign(bounced.y, f);
    if Fits(s.position.x, r, b.minX, b.maxX) && Fits(s.position.z, r, b.minZ, b.maxZ) {
      assert w == WallFlags(s.position, r, b) == WallCollision(false, false, false);
    }
  }

  /**
   * From the start of `StuckPastWall`, and clear of the opposite wall, the
   * returning step keeps the ball rolling in, so its next step moves it
   * back towards the table.
   */
  lemma {:induction false} PastWallReturns(p: Vec3, v: Vec2, r: real, b: WallBounds, dt: real, f: real)
    requires 0.0 < dt && 0.0 < f && v.x < 0.0
    requires p.x + v.x * dt + r > b.maxX && b.minX <= p.x + v.x * dt - r
    ensures var s1 := ReturningStep(p, v, r, b, dt, f);
      var s2 := ReturningStep(s1.position, s1.speed, r, b, dt, f);
      s1.speed.x < 0.0 && s2.position.x < s1.position.x
  {
    var s1 := ReturningStep(p, v, r, b, dt, f);
    ReturningStepHeadsIn(p, v, r, b, dt, f);
    MulMixed(s1.speed.x, dt);
    assert ReturningStep(s1.position, s1.speed, r, b, dt, f).position.x == s1.position.x + Mul(s1.speed.x, dt);
  }

  class Ball {
    var position: Vec3
    var speed: Vec2
    const mass: real
    const radius: real
    var wallBounds: WallBounds

    /** A ball starts inside the default walls. */
    constructor (position: Vec3, speed: Vec2, mass: real, radius: real)
      ensures this.position == position && this.speed == speed
      ensures this.mass == mass && this.radius == radius
      ensures wallBounds == DefaultBounds
    {
      this.position := position;
      this.speed := speed;
      this.mass := mass;
      this.radius := radius;
      wallBounds := DefaultBounds;
    }

    /**
     * Whether this ball and `other` collide: the 3D distance between their
     * centres is strictly below the sum of their radii.
     */
    function DetectCollision(other: Ball): (hit: bool)
      reads this, other
      ensures forall dist | IsRoot(dist, SqDist3(position, other.position)) ::
        hit <==> dist < radius + other.radius
    {
      InContact(position, other.position, radius + other.radius)
    }

    /**
     * Resolves a collision with `other`, given `len`, the length of the
     * planar vector from this ball's centre to the other's. The normal
     * speeds along the line of impact go through the elastic formula, the
     * tangential ones are kept, and then both balls move by half the overlap
     * along that line. `dampingFactor` has no effect. A ball resolved against
     * itself is left as it was.
     */
    method HandleCollision(other: Ball, len: real, dampingFactor: real := 1.0)
      requires mass + other.mass != 0.0
      requires IsRoot(len, PlanarSqDist(position, other.position))
      modifies this, other
      ensures other != this ==>
        var before := Positions(old(position), old(other.position));
        Speeds(speed, other.speed)
          == ResolveSpeeds(Speeds(old(speed), old(other.speed)), mass, other.mass, LineOfImpact(before, len))
        && Positions(position, other.position) == Separate(before, radius + other.radius, len)
      ensures other != this ==>
        PairMomentum(mass, other.mass, Speeds(speed, other.speed))
          == PairMomentum(mass, other.mass, Speeds(old(speed), old(other.speed)))
        && PairEnergy(mass, other.mass, Speeds(speed, other.speed))
          == PairEnergy(mass, other.mass, Speeds(old(speed), old(other.speed)))
      ensures other != this ==>
        PlanarSqDist(position, other.position) == Sq(radius + other.radius) && !DetectCollision(other)
      ensures other == this ==> speed == old(speed) && position == old(position)
      ensures wallBounds == old(wallBounds) && other.wallBounds == old(other.wallBounds)
    {
      ghost var before := Positions(position, other.position);
      ghost var speedsBefore := Speeds(speed, other.speed);
      var dx := other.position.x - position.x;
      var dz := other.position.z - position.z;
      var d := ImpactDirection(dx, dz, len);
      assert d == LineOfImpact(before, len);
      // The displacement only depends on the radii and the distance.
      var overlap := (radius + other.radius) - len;
      var displacement := overlap / 2.0;
      ghost var separated := Separate(before, radius + other.radius, len);
      assert separated.first == Vec3(position.x - displacement * d.c, position.y, position.z - displacement * d.s);
      assert separated.second == Vec3(other.position.x + displacement * d.c, other.position.y, other.position.z + displacement * d.s);

      var normal1 := Normal(speed, d);
      var tangent1 := Tangent(speed, d);
      var normal2 := Normal(other.speed, d);
      var tangent2 := Tangent(other.speed, d);
      var after := ElasticNormals(mass, other.mass, Normals(normal1, normal2));
      var speed1 := Compose(after.first, tangent1, d);
      var speed2 := Compose(after.second, tangent2, d);
      assert Speeds(speed1, speed2) == ResolveSpeeds(speedsBefore, mass, other.mass, d);
      ResolveKeepsMomentum(speedsBefore, mass, other.mass, d);
      ResolveKeepsEnergy(speedsBefore, mass, other.mass, d);
      SeparateTouches(before, radius + other.radius, len);
      SeparatedNotInContact(before, radius + other.radius, len);
      if other == this {
        EqualMassesSwap(mass, Normals(normal1, normal2));
        ComposeDecomposed(speedsBefore.first, d);
      }
      speed := speed1;
      other.speed := speed2;

      position := Vec3(position.x - displacement * d.c, position.y, position.z - displacement * d.s);
      other.position := Vec3(other.position.x + displacement * d.c, other.position.y, other.position.z + displacement * d.s);
    }

    /**
     * The walls of `wallBounds` this ball overlaps: `x` when it does not fit
     * between the X walls, `y` when it does not fit between the Z walls.
     */
    function DetectWallCollision(wallBounds: WallBounds): (w: WallCollision)
      reads this
      ensures w.x <==> !Fits(position.x, radius, wallBounds.minX, wallBounds.maxX)
      ensures w.y <==> !Fits(position.z, radius, wallBounds.minZ, wallBounds.maxZ)
      ensures !w.z
    {
      WallFlags(position, radius, wallBounds)
    }

    /** Reverses and damps every flagged component of the velocity. */
    method HandleWallCollision2D(wallCollision: WallCollision, dampingFactor: real := DefaultWallDamping)
      modifies this
      ensures speed == Bounce(old(speed), wallCollision, dampingFactor)
      ensures position == old(position) && wallBounds == old(wallBounds)
    {
      if wallCollision.x {
        speed := speed.(x := -speed.x * dampingFactor);
      }
      if wallCollision.y {
        speed := speed.(y := -speed.y * dampingFactor);
      }
    }

    /**
     * Advances the ball by one frame: moves it by `deltaTime` times its
     * velocity, bounces it off the walls it then overlaps, and applies
     * friction.
     */
    method UpdatePlace(deltaTime: real, frictionCoefficient: real := DefaultFriction)
      modifies this
      ensures State(position, speed)
        == Step(old(position), old(speed), radius, wallBounds, deltaTime, frictionCoefficient)
      ensures wallBounds == old(wallBounds)
    {
      ghost var start := State(position, speed);
      position := Vec3(position.x + speed.x * deltaTime, position.y, position.z + speed.y * deltaTime);
      var wallCollision := DetectWallCollision(wallBounds);
      assert wallCollision == WallFlags(position, radius, wallBounds);
      HandleWallCollision2D(wallCollision);
      ghost var bounced := speed;
      assert bounced == Bounce(start.speed, wallCollision, DefaultWallDamping);
      speed := speed.(x := speed.x * frictionCoefficient);
      speed := speed.(y := speed.y * frictionCoefficient);
      assert speed == Scale(bounced, frictionCoefficient);
      assert Step(start.position, start.speed, radius, wallBounds, deltaTime, frictionCoefficient)
          == State(position, Scale(bounced, frictionCoefficient));
    }

    /** Replaces the velocity and nothing else. */
    method SetSpeed(speed: Vec2)
      modifies this
      ensures this.speed == speed
      ensures position == old(position) && wallBounds == old(wallBounds)
    {
      this.speed := speed;
    }

    /** Replaces the wall rectangle and nothing else. */
    method SetWallBounds(wallBounds: WallBounds)
      modifies this
      ensures this.wallBounds == wallBounds
      ensures position == old(position) && speed == old(speed)
    {
      this.wallBounds := wallBounds;
    }
  }

  /** Two equal balls 0.05 apart on the X axis, both of radius 0.03, collide. */
  lemma HeadOnContact()
    ensures InContact(Vec3(0.0, 0.88, 0.0), Vec3(0.05, 0.88, 0.0), 0.06)
  {
    assert SqDist3(Vec3(0.0, 0.88, 0.0), Vec3(0.05, 0.88, 0.0)) == 0.0025;
  }

  /**
   * When the first of them rolls at unit speed into the resting second, along
   * the line of impact their centres define, the first stops and the second
   * takes over its velocity.
   */
  lemma HeadOnSpeeds()
    ensures var d := LineOfImpact(Positions(Vec3(0.0, 0.88, 0.0), Vec3(0.05, 0.88, 0.0)), 0.05);
      ResolveSpeeds(Speeds(Vec2(1.0, 0.0), Vec2(0.0, 0.0)), 0.17, 0.17, d)
        == Speeds(Vec2(0.0, 0.0), Vec2(1.0, 0.0))
  {
    var p := Positions(Vec3(0.0, 0.88, 0.0), Vec3(0.05, 0.88, 0.0));
    assert PlanarSqDist(p.first, p.second) == Sq(0.05);
    HeadOnAlongX(p, 0.05, 0.17, Vec2(1.0, 0.0));
  }

  /**
   * A ball moving along X into an equal ball at rest, whose centre lies
   * `len` further along X at the same depth, stops and hands over its
   * velocity.
   */
  lemma {:induction false} HeadOnAlongX(p: Positions, len: real, m: real, u: Vec2)
    requires 0.0 < len && p.second.x - p.first.x == len && p.second.z == p.first.z
    requires IsRoot(len, PlanarSqDist(p.first, p.second))
    requires m != 0.0 && u.y == 0.0
    ensures ResolveSpeeds(Speeds(u, Vec2(0.0, 0.0)), m, m, LineOfImpact(p, len)) == Speeds(Vec2(0.0, 0.0), u)
  {
    var d := LineOfImpact(p, len);
    AlongX(p, len);
    var v := Speeds(u, Vec2(0.0, 0.0));
    assert Tangent(v.first, d) == 0.0 && Tangent(v.second, d) == 0.0;
    EqualMassesExchange(v, m, d);
  }

  /** Two centres at the same depth, the second `len` further along X, meet along the X axis. */
  lemma AlongX(p: Positions, len: real)
    requires 0.0 < len && p.second.x - p.first.x == len && p.second.z == p.first.z
    requires IsRoot(len, PlanarSqDist(p.first, p.second))
    ensures LineOfImpact(p, len) == Direction(1.0, 0.0)
  {
    var d := LineOfImpact(p, len);
    assert Mul(d.c, len) == len;
    CancelPositive(d.c, len);
    assert Mul(d.s, len) == 0.0;
    ProductZero(d.s, len);
  }
}
