/** The rules both solvers share: integer powers, the linear equation of
    state, the symmetric pressure average, the per-axis clamp-and-reflect
    rule at the walls, and the integration phase of the simulation step.
    Floats are modelled as exact reals. */
module Physics {
  import opened Geometry

  /** `Mathf.PI`, the single-precision value of pi. */
  const PI: real := 3.14159274

  /** `Mathf.Pow` at a whole exponent. */
  function Pow(x: real, n: nat): real
  {
    if n == 0 then 1.0 else x * Pow(x, n - 1)
  }

  lemma {:induction false} PowPositive(x: real, n: nat)
    requires x > 0.0
    ensures Pow(x, n) > 0.0
  {
    if n > 0 {
      PowPositive(x, n - 1);
      MulPositive(x, Pow(x, n - 1));
    }
  }

  /** An even power of a non-zero number is positive, whatever its sign. */
  lemma Pow4Positive(x: real)
    requires x != 0.0
    ensures Pow(x, 4) > 0.0
  {
    var sq := x * x;
    if x > 0.0 {
      MulPositive(x, x);
    } else {
      MulPositive(-x, -x);
      assert (-x) * (-x) == sq;
    }
    assert Pow(x, 1) == x;
    assert Pow(x, 2) == sq;
    assert Pow(x, 4) == x * (x * sq);
    assert x * (x * sq) == sq * sq;
    MulPositive(sq, sq);
  }

  lemma MulPositive(a: real, b: real)
    requires a > 0.0 && b > 0.0
    ensures a * b > 0.0
  {
  }

  lemma MulNonNegative(a: real, b: real)
    ensures 0.0 <= a && 0.0 <= b ==> 0.0 <= a * b
  {
  }

  /** `ConvertDensityToPressure`: the linear equation of state. With a
      positive multiplier, the pressure has the sign of the density error:
      positive above the target density, zero at it, negative below it. */
  function ConvertDensityToPressure(density: real, targetDensity: real,
                                    pressureMultiplier: real): (pressure: real)
    ensures pressureMultiplier > 0.0 ==>
              && (pressure > 0.0 <==> density > targetDensity)
              && (pressure == 0.0 <==> density == targetDensity)
    ensures pressureMultiplier == 0.0 ==> pressure == 0.0
  {
    var densityError := density - targetDensity;
    SignOfProduct(densityError, pressureMultiplier);
    densityError * pressureMultiplier
  }

  lemma SignOfProduct(a: real, b: real)
    ensures b > 0.0 && a > 0.0 ==> a * b > 0.0
    ensures b > 0.0 && a < 0.0 ==> a * b < 0.0
  {
    if b > 0.0 && a > 0.0 {
      MulPositive(a, b);
    } else if b > 0.0 && a < 0.0 {
      MulPositive(-a, b);
    }
  }

  /** `CalculateSharedPressure`: the mean of the two pressures, which is the
      pressure of the mean density. */
  function CalculateSharedPressure(densityA: real, densityB: real, targetDensity: real,
                                   pressureMultiplier: real): (shared: real)
    ensures shared == ((densityA + densityB) / 2.0 - targetDensity) * pressureMultiplier
  {
    var pressureA := ConvertDensityToPressure(densityA, targetDensity, pressureMultiplier);
    var pressureB := ConvertDensityToPressure(densityB, targetDensity, pressureMultiplier);
    (pressureA + pressureB) / 2.0
  }

  /** The shared pressure does not depend on the order of the pair. */
  lemma SharedPressureSymmetric(densityA: real, densityB: real, targetDensity: real,
                                pressureMultiplier: real)
    ensures CalculateSharedPressure(densityA, densityB, targetDensity, pressureMultiplier)
         == CalculateSharedPressure(densityB, densityA, targetDensity, pressureMultiplier)
  {
  }

  /** One axis of `ResolveCollisions`: at or past the wall `half` (in
      absolute value) the coordinate is put on the wall on its own side,
      `Mathf.Sign(0) = 1` counting as the positive side, and the velocity
      is multiplied by `-1 * collisionDamping`; inside, nothing changes. */
  function ResolveAxis(position: real, velocity: real, half: real,
                       collisionDamping: real): (real, real)
  {
    if Abs(position) >= half then (half * Sign(position), velocity * (-1.0 * collisionDamping))
    else (position, velocity)
  }

  /** After resolution the coordinate is within the walls, when the walls
      are not inverted (`boundsSize / 2 >= particleSize`). */
  lemma ResolveAxisContains(position: real, velocity: real, half: real, collisionDamping: real)
    requires half >= 0.0
    ensures Abs(ResolveAxis(position, velocity, half, collisionDamping).0) <= half
    ensures Abs(position) <= half ==> Abs(ResolveAxis(position, velocity, half, collisionDamping).0) == Abs(position)
  {
  }

  /** Damping 0 absorbs the normal velocity of a particle hitting the wall;
      damping 1 reflects it with the same magnitude. */
  lemma ResolveAxisDamping(position: real, velocity: real, half: real)
    requires Abs(position) >= half
    ensures ResolveAxis(position, velocity, half, 0.0).1 == 0.0
    ensures ResolveAxis(position, velocity, half, 1.0).1 == -velocity
    ensures Abs(ResolveAxis(position, velocity, half, 1.0).1) == Abs(velocity)
  {
  }

  /** A particle exactly on the wall counts as hitting it, so resolving on
      the wall reflects its velocity again. */
  lemma ResolveAxisOnWall(velocity: real, half: real, collisionDamping: real)
    requires half > 0.0
    ensures ResolveAxis(half, velocity, half, collisionDamping) == (half, -collisionDamping * velocity)
    ensures ResolveAxis(-half, velocity, half, collisionDamping) == (-half, -collisionDamping * velocity)
  {
  }

  /** `boundsSize / 2 - Vector2.one * particleSize`: the half extents of the
      box the particle centres are kept in. */
  function HalfBoundsSize(boundsSize: Vec2, particleSize: real): Vec2
  {
    Sub(Scale(0.5, boundsSize), Scale(particleSize, One))
  }

  /** `ResolveCollisions(ref position, ref velocity)` against the box
      `[-half.x, half.x] x [-half.y, half.y]`: each axis is resolved on its
      own. The particle ends inside the box, and an axis strictly inside
      it is left untouched. */
  function ResolveCollisions(position: Vec2, velocity: Vec2, halfBoundsSize: Vec2,
                             collisionDamping: real): (resolved: (Vec2, Vec2))
    ensures 0.0 <= halfBoundsSize.x ==> Abs(resolved.0.x) <= halfBoundsSize.x
    ensures 0.0 <= halfBoundsSize.y ==> Abs(resolved.0.y) <= halfBoundsSize.y
    ensures Abs(position.x) < halfBoundsSize.x ==>
              resolved.0.x == position.x && resolved.1.x == velocity.x
    ensures Abs(position.y) < halfBoundsSize.y ==>
              resolved.0.y == position.y && resolved.1.y == velocity.y
  {
    var (x, vx) := ResolveAxis(position.x, velocity.x, halfBoundsSize.x, collisionDamping);
    var (y, vy) := ResolveAxis(position.y, velocity.y, halfBoundsSize.y, collisionDamping);
    (Vec2(x, y), Vec2(vx, vy))
  }

  /** No density is zero: the pressure phase divides by each of them. */
  predicate NonZero(densities: seq<real>)
  {
    forall k :: 0 <= k < |densities| ==> densities[k] != 0.0
  }

  /** `pressureForce / densities[i]`. */
  function PressureAcceleration(pressureForce: Vec2, density: real): Vec2
    requires density != 0.0
  {
    Scale(1.0 / density, pressureForce)
  }

  /** `velocity += gravity * deltaTime * Vector2.down`. */
  function Fall(velocity: Vec2, gravity: real, deltaTime: real): Vec2
  {
    Add(velocity, Scale(gravity * deltaTime, Down))
  }

  /** `velocity += pressureForce / density * deltaTime`. */
  function Push(velocity: Vec2, deltaTime: real, pressureForce: Vec2, density: real): Vec2
    requires density != 0.0
  {
    Add(velocity, Scale(deltaTime, PressureAcceleration(pressureForce, density)))
  }

  /** `position += velocity * deltaTime; ResolveCollisions(ref position,
      ref velocity)`. */
  function Move(position: Vec2, velocity: Vec2, deltaTime: real, halfBoundsSize: Vec2,
                collisionDamping: real): (moved: (Vec2, Vec2))
    ensures 0.0 <= halfBoundsSize.x ==> Abs(moved.0.x) <= halfBoundsSize.x
    ensures 0.0 <= halfBoundsSize.y ==> Abs(moved.0.y) <= halfBoundsSize.y
  {
    ResolveCollisions(Add(position, Scale(deltaTime, velocity)), velocity, halfBoundsSize,
                      collisionDamping)
  }

  /** What one `SimulationStep` does to one particle, given the pressure
      force it feels and its density: gravity, then the pressure
      acceleration, then the move and the wall collision. */
  function Advance(position: Vec2, velocity: Vec2, pressureForce: Vec2, density: real,
                   gravity: real, deltaTime: real, halfBoundsSize: Vec2,
                   collisionDamping: real): (Vec2, Vec2)
    requires density != 0.0
  {
    Move(position, Push(Fall(velocity, gravity, deltaTime), deltaTime, pressureForce, density),
         deltaTime, halfBoundsSize, collisionDamping)
  }

  /** The last phase of `SimulationStep`: move every particle by its
      velocity times the step, then resolve its wall collisions. */
  method IntegratePhase(positions: array<Vec2>, velocities: array<Vec2>, halfBoundsSize: Vec2,
                        collisionDamping: real, deltaTime: real)
    requires positions.Length == velocities.Length && positions != velocities
    modifies positions, velocities
    ensures forall i :: 0 <= i < positions.Length ==>
              (positions[i], velocities[i])
              == Move(old(positions[i]), old(velocities[i]), deltaTime, halfBoundsSize, collisionDamping)
  {
    for i := 0 to positions.Length
      invariant forall k :: 0 <= k < i ==>
                  (positions[k], velocities[k])
                  == Move(old(positions[k]), old(velocities[k]), deltaTime, halfBoundsSize, collisionDamping)
      invariant forall k :: i <= k < positions.Length ==>
                  positions[k] == old(positions[k]) && velocities[k] == old(velocities[k])
    {
      positions[i] := Add(positions[i], Scale(deltaTime, velocities[i]));
      var (position, velocity) := ResolveCollisions(positions[i], velocities[i], halfBoundsSize,
                                                    collisionDamping);
      positions[i] := position;
      velocities[i] := velocity;
    }
  }
}
