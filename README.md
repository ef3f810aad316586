# Billiard ball physics

A Dafny model of the physics of a ball in a small 3D billiards game
(`src/lib/ball.ts`, class `Ball`).

Each ball has the following state:

- a position in space;
- a planar velocity, whose `x` component moves the ball along world X and
  whose `y` component moves it along world Z;
- a mass and a radius;
- the rectangle of table walls it bounces inside, ±10 on both axes unless
  it is replaced.

The class offers three kinds of physics operations, which a caller is
expected to invoke once per frame:

- `detectCollision` tests a pair of balls for contact.
- `handleCollision` resolves a contact as a two-dimensional elastic
  collision. The normal speeds along the line of impact go through the
  one-dimensional elastic formula and the tangential speeds are kept. Then
  both balls are pushed apart by half the overlap each.
- `updatePlace` advances one ball with an explicit Euler step, bounces it
  off the walls it then overlaps, and applies friction.

The model works over the mathematical reals:

- No angle is computed. The line of impact is the unit vector
  `(dx/len, dz/len)`, which is the cosine and sine of `atan2(dz, dx)`. When
  the two centres coincide in the plane it is `(1, 0)`, because `atan2(0, 0)`
  is 0.
- Lengths are never computed either. The planar distance `len` that the
  collision needs is passed in with the property that defines it:
  `len >= 0` and `len * len == dx * dx + dz * dz`.
- The contact test compares squared distances. It is proved equivalent to
  comparing the distance itself with the sum of the radii.

Modules:

- `planar.dfy` (`Planar`): vectors, the unit direction of impact,
  decomposition into normal and tangential components, and the algebra of
  squares.
- `elastic.dfy` (`Elastic`): the one-dimensional elastic formula and its
  properties.
- `impact.dfy` (`Impact`): a pair of balls, covering contact, exchange of
  velocities and depenetration.
- `walls.dfy` (`Walls`): wall flags, the damped bounce, friction and the
  default constants.
- `ball.dfy` (`Balls`): the `Ball` class, whose methods update its fields in
  place and are specified against the pure functions above, and the
  integration step.

Two behaviours of the code worth noting:

- Depenetration has no "only if the overlap is positive" guard. Balls that
  are farther apart than the sum of their radii are pulled together until
  they touch.
- `handleCollision` takes a `dampingFactor` argument that it never uses.

## Model

| member | source | states |
|---|---|---|
| `Planar.ImpactDirection` | src/lib/ball.ts:69-71 | the line of impact is a unit vector which, scaled by the planar distance, is the vector from the first centre to the second; the distance is zero exactly when the centres coincide in the plane, and then the direction is (1, 0) as with atan2(0, 0) |
| `Planar.Compose` | src/lib/ball.ts:84-87 | the velocity rebuilt from a normal and a tangential speed has exactly those components along the line of impact |
| `Planar.ComposeDecomposed` | src/lib/ball.ts:74-87 | decomposing a velocity along a unit direction and rebuilding it gives the same velocity back |
| `Planar.DecompositionKeepsSpeed` | src/lib/ball.ts:74-77 | the normal and tangential components have the same squared length as the velocity |
| `Planar.DecompositionInjective` | src/lib/ball.ts:74-77 | two velocities with the same normal and tangential components are equal |
| `Elastic.ElasticNormals` | src/lib/ball.ts:80-81 | the elastic formula keeps the pair's momentum and reverses the relative speed of the two balls |
| `Elastic.Determined` | src/lib/ball.ts:80-81 | with a non-zero total mass, momentum and relative speed determine the two speeds uniquely |
| `Elastic.ElasticKeepsEnergy` | src/lib/ball.ts:80-81 | the elastic formula keeps the pair's kinetic energy |
| `Elastic.EqualMassesSwap` | src/lib/ball.ts:80-81 | balls of equal mass exchange their normal speeds |
| `Elastic.ElasticInvolution` | src/lib/ball.ts:80-81 | applying the formula twice restores the original speeds |
| `Elastic.ElasticUnique` | src/lib/ball.ts:80-81 | every outcome that keeps both momentum and energy is either no change or the elastic formula's result |
| `Impact.InContact` | src/lib/ball.ts:49-52 | for every length of the 3D vector between the centres, the squared-distance test holds exactly when that length is strictly below the sum of the radii; balls exactly touching do not collide |
| `Impact.ResolveSpeeds` | src/lib/ball.ts:73-87 | after the impact the normal speeds are the elastic formula applied to the old normal speeds, and both tangential speeds are unchanged |
| `Impact.ResolveKeepsMomentum` | src/lib/ball.ts:73-87 | the impact keeps the pair's total planar momentum as a vector |
| `Impact.ResolveKeepsEnergy` | src/lib/ball.ts:73-87 | the impact keeps the pair's total kinetic energy |
| `Impact.EqualMassesExchange` | src/lib/ball.ts:79-87 | balls of equal mass exchange their normal speeds, and in a head-on impact they exchange their velocities |
| `Impact.ResolveTwiceRestores` | src/lib/ball.ts:73-87 | a second impact along the same line restores both velocities |
| `Impact.LineOfImpact` | src/lib/ball.ts:68-71 | the line of impact of a pair is a unit vector pointing from the first centre to the second |
| `Impact.Separate` | src/lib/ball.ts:89-95 | after depenetration the planar vector between the centres is the sum of the radii times the line of impact; the pair's planar midpoint and both heights are unchanged |
| `Impact.SeparateTouches` | src/lib/ball.ts:89-95 | after depenetration the planar distance between the centres is exactly the sum of the radii, even when the overlap was negative or the centres coincided |
| `Impact.SeparatedNotInContact` | src/lib/ball.ts:89-95 | after depenetration the pair no longer counts as colliding, whatever the heights of the centres |
| `Impact.SeparateAlongX` | src/lib/ball.ts:89-95 | when the line of impact is the X axis, each ball moves along X only, by half the overlap |
| `Impact.SeparateKeepsTouching` | src/lib/ball.ts:89-95 | a pair already exactly one reach apart is not moved |
| `Walls.BounceUnflagged` | src/lib/ball.ts:110-117 | with no wall flagged the velocity is unchanged |
| `Walls.BounceNeverSpeedsUp` | src/lib/ball.ts:110-117 | with a damping between 0 and 1, a bounce never increases the speed |
| `Walls.BounceTurnsAround` | src/lib/ball.ts:110-117 | with a positive damping, a flagged component changes sign, and it is zero afterwards exactly when it was zero before |
| `Walls.FrictionScalesSpeed` | src/lib/ball.ts:157-158 | friction scales the squared speed by the square of the coefficient and keeps the velocity on its line of motion |
| `Walls.FrictionKeepsHeading` | src/lib/ball.ts:157-158 | a positive friction coefficient keeps the sign of each velocity component, so the ball keeps its heading |
| `Walls.FrictionNeverSpeedsUp` | src/lib/ball.ts:157-158 | a friction coefficient between 0 and 1 never increases the speed |
| `Balls.StepAtRest` | src/lib/ball.ts:119-158 | a ball at rest keeps its position and stays at rest |
| `Balls.StepNeverSpeedsUp` | src/lib/ball.ts:119-158 | with a friction coefficient between 0 and 1, one step never increases the speed |
| `Balls.StepInsideWalls` | src/lib/ball.ts:119-158 | a step that ends clear of every wall moves the ball by `dt` times its velocity and only applies friction to the velocity |
| `Balls.StepBouncesBack` | src/lib/ball.ts:119-158 | given a positive friction coefficient, a step that ends over a wall strictly reverses the component across that wall: negative becomes positive, positive becomes negative and zero stays zero, whichever way the ball was heading |
| `Balls.StuckPastWall` | src/lib/ball.ts:101-116 | a ball over the +X wall that is rolling back in but does not clear the wall in one step is turned outward by that step, and the next step carries it further out, still over the wall |
| `Walls.HeadingOutFlags` | src/lib/ball.ts:101-116 | a wall is flagged exactly when the ball overlaps it and the velocity component across it points out of the table |
| `Balls.ReturningStepHeadsIn` | src/lib/ball.ts:119-158 | with the corrected bounce and a positive friction coefficient, a ball over one wall of an axis (and clear of the opposite wall) never ends the step heading further out through it; a ball already heading back in through any of the four walls keeps heading in; and a step ending clear of the walls equals `Step` |
| `Balls.PastWallReturns` | src/lib/ball.ts:119-158 | with the corrected bounce, a ball in the situation of `StuckPastWall` (clear of the opposite wall) keeps rolling in, and its next step moves it back towards the table |
| `Balls.Ball.constructor` | src/lib/ball.ts:17-47 | a new ball has the given position, velocity, mass and radius, and the default walls of ±10 on X and Z |
| `Balls.Ball.DetectCollision` | src/lib/ball.ts:49-52 | the result is true exactly when the 3D distance between the centres is strictly below the sum of the radii; it reads both balls and changes neither |
| `Balls.Ball.HandleCollision` | src/lib/ball.ts:67-96 | for two distinct balls, the new velocities and positions are those of `ResolveSpeeds` and `Separate`; momentum and energy are kept; the centres end exactly one reach apart and no longer collide. A ball resolved against itself is left unchanged. The walls are never changed |
| `Balls.Ball.DetectWallCollision` | src/lib/ball.ts:98-108 | `x` is set exactly when the ball does not fit between the X walls, `y` exactly when it does not fit between the Z walls, and `z` is never set; nothing is changed |
| `Balls.Ball.HandleWallCollision2D` | src/lib/ball.ts:110-117 | each flagged component of the velocity is negated and scaled by the damping; the other component, the position and the walls are unchanged |
| `Balls.Ball.UpdatePlace` | src/lib/ball.ts:119-158 | the new position and velocity are those of one `Step`: an Euler move, a bounce with damping 0.9 off the walls overlapped at the new position, then friction. The walls are unchanged |
| `Balls.Ball.SetSpeed` | src/lib/ball.ts:170-172 | replaces the velocity and leaves the position and the walls alone |
| `Balls.Ball.SetWallBounds` | src/lib/ball.ts:182-184 | replaces the walls and leaves the position and the velocity alone |
| `Balls.HeadOnContact` | src/lib/ball.ts:49-52 | two balls of radius 0.03 whose centres are 0.05 apart collide |
| `Balls.HeadOnSpeeds` | src/lib/ball.ts:67-87 | for the two balls of `HeadOnContact`, along the line of impact derived from their centres: when the first, of mass 0.17, moves at unit speed into the second, an equal ball at rest, the first stops and the second takes over its velocity |
| `Balls.HeadOnAlongX` | src/lib/ball.ts:67-87 | for any non-zero mass, a ball moving along X into an equal ball at rest whose centre lies further along X at the same depth stops and hands over its whole velocity |

## Left out

- Rolling rotation in `updatePlace` (src/lib/ball.ts:129-148): a quaternion update of the mesh's orientation. It has no effect on position or velocity.
- The velocity arrow (src/lib/ball.ts:159-165, 173-175), the `selected` material swap (src/lib/ball.ts:55-62), and the mesh, geometry and shadow set-up (src/lib/ball.ts:19-23, 35): these are rendering through three.js.
- Asynchronous loading of the ball's 3D model (src/lib/ball.ts:38-43): an I/O callback with no effect on the physics.
- `src/lib/settings.ts`: static table layout data, with no behaviour.
- Floating point: the model uses real numbers, so rounding, NaN and infinities are not modelled.
- `Math.atan2`, `Math.cos`, `Math.sin`, `Vector2.length` and `distanceTo`: there is no square root or trigonometry over the reals here. They are replaced by the unit direction and by a length that is characterised by its square.
- Balls.Ball.HandleCollision: takes the planar distance `len` between the centres as an argument, required to be the non-negative square root of the squared planar distance, because the model has no square root to compute it with.
- Balls.Ball.HandleCollision: requires the two masses not to sum to zero. The source divides by that sum, and a zero sum would give NaN or infinity in floating point.
- Reference aliasing of the velocity and of the wall rectangle: the source keeps the caller's object by reference in the constructor, in `setSpeed` and in `setWallBounds` (src/lib/ball.ts:27, 171, 183). A later in-place update of one ball's speed, or a caller's later change to the rectangle it passed in, could then show through another holder of the same object. Velocities and wall rectangles here are values.
- `mass` and `radius` are constant fields. The source declares them public and mutable but never writes them after construction.
- The per-frame loop that pairs balls up and calls these operations is not part of this model.

## Findings

| source | as written | input that shows it | evidently intended | confidence | as-written member | corrected member |
|---|---|---|---|---|---|---|
| src/lib/ball.ts:101-116 | a component across an overlapped wall is reversed whichever way it points, so a ball over a wall that is already heading back in is turned outward again | default walls, radius 0.03, `dt` 0.1, a ball at x = 10.5 with velocity (-1, 0): after one `updatePlace` it is at x = 10.4 moving out at 0.8991, after two at x = 10.48991 | reverse only a component that points out through the overlapped wall, so that a ball over a wall never heads further out through it and one already heading back in keeps heading in | high; not executed | `Balls.StuckPastWall` (on `Balls.Step`) | `Balls.ReturningStep`, with `Balls.ReturningStepHeadsIn` and `Balls.PastWallReturns` |

The `Ball` class keeps the code's own bounce in `UpdatePlace`, so that its
contract describes what the code does. `ReturningStep` is the corrected
step, defined alongside it. It agrees with `Step` whenever the ball ends
clear of the walls. The corrected step does not promise that a ball gets
back inside at all: friction limits how far a ball can still roll, so one
that starts over a wall slowly enough comes to rest there.
