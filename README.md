# SPH 2D fluid: spatial hash grid and particle physics

This project is a Dafny model of the core of a small Unity smoothed-particle
hydrodynamics (SPH) fluid solver in two dimensions. It has two solver classes:

- `Simulation2D`, the live solver, whose particles are drawn by `DrawParticle`.
  It predicts positions, rebuilds the grid on the predicted positions, and
  uses a cubic kernel `10/(pi h^5) (h-d)^3`.
- `TestGridAndParticles`, an earlier test harness. It works on the current
  positions, collects neighbour indices into a list, and uses a quadratic
  kernel `6/(pi h^4) (h-d)^2`. Its cell-offset table is filled by a loop that
  stops too early. The model reproduces that table as written.

Both classes share the same spatial hash grid:

1. Every particle is tagged with the key of its cell. The cell is the
   position divided by the smoothing radius and truncated toward zero.
   The key is a `uint` hash with 32-bit wrap-around, reduced modulo the
   particle count.
2. The `Entry` buffer is sorted by key.
3. A first-of-run table `startIndices` is filled. Keys with no run keep
   `int.MaxValue`.
4. A neighbour query scans the key run of each of the nine offsets around the
   query point's cell. It keeps the particles within the squared radius.

Per particle, a simulation step does the following, in order:

1. Apply gravity (the live solver also predicts the position 1/120 s ahead).
2. Rebuild the grid.
3. Compute densities as the sum of kernel times mass over the neighbours.
4. Add the pressure acceleration. Each neighbour other than the particle
   itself contributes a shared-pressure term along the line to it, divided by
   its density.
5. Integrate.
6. Resolve collisions with the box, so a particle is clamped to the wall and
   its velocity reflected and damped.

Modelling choices:

- Module `Geometry` holds `Vec2` over exact reals and Unity's `Abs` and `Sign`.
- Module `CellHash` holds truncation, the `uint` cast, the hash and the key
  reduction.
- Module `SpatialLookup` holds the grid as in-place methods on the arrays the
  solvers own. Beside them are the specification functions `Tagged`,
  `ScanRun` and `Visits`, the predicate `BuiltFrom`, and the soundness and
  completeness lemmas.
- Module `Physics` holds pressure, collisions and integration, shared by both
  classes.
- Modules `Simulation2D` and `TestGrid` each hold their own kernels, density
  and pressure sums, phase loops, and a `class` with the source's arrays as
  fields.
- The shared methods are written once. `HashCell`, `ResolveCollisions` and
  the pressure helpers are textually identical in both C# files, so their
  rows cite `Simulation2D.cs` only. The grid rebuild differs only in where
  its points come from (see "Left out").
- Each class's `SimulationStep` calls its four phase methods through two
  halves: gravity, grid and densities first, then pressure and movement.
  The step's contract states every particle's new state through the
  per-particle functions `Fall`, `Predict`, `Push`, `Move` and their
  composition `Advance`.
- `float` is modelled as `real`. `Vector2.magnitude` (a square root) is a
  function parameter `magnitude`. `GetRandomDir` is a function parameter
  `randomDir`, indexed by the neighbour's particle index.
- Each `Parallel.For` is a sequential loop. Its iterations touch disjoint
  slots.

## Model

| member | source | states |
|---|---|---|
| Geometry.Abs | Assets/Scripts/Simulation2D.cs:276 | `Mathf.Abs`: the result is non-negative and equals `x` or `-x` |
| Geometry.Sign | Assets/Scripts/Simulation2D.cs:278 | `Mathf.Sign`: 1 or -1, and 1 exactly when the argument is non-negative, so a particle at 0 is clamped to the positive wall |
| CellHash.Trunc | Assets/Scripts/Simulation2D.cs:432-433 | the `(int)` cast truncates toward zero: the floor for non-negative values, the ceiling (at most 0) for negative ones |
| CellHash.ToUInt | Assets/Scripts/Simulation2D.cs:439-440 | the unchecked `(uint)` cast is congruent to its argument modulo 2^32 and leaves values in [0, 2^32) unchanged |
| CellHash.GetKeyFromHash | Assets/Scripts/Simulation2D.cs:444-447 | the key is below the table length, and a hash already below it is its own key |
| CellHash.CellKey | Assets/Scripts/Simulation2D.cs:453-454 | the key of a particle's cell always indexes `startIndices` |
| CellHash.HashCellClosedForm | Assets/Scripts/Simulation2D.cs:437-442 | whatever the intermediate `uint` wrapping, the hash is `((x mod 2^32) 15823 + (y mod 2^32) 9737333) mod 2^32` |
| CellHash.HashCellWraps | Assets/Scripts/Simulation2D.cs:477 | shifting either cell coordinate by a multiple of 2^32 (an `int` overflow in `centerX + offsetX`) leaves the hash unchanged |
| CellHash.NegativeCellWraps | Assets/Scripts/Simulation2D.cs:439 | `(uint)(-1)` is `uint.MaxValue`, and cell (-1, 0) hashes to 2^32 - 15823 |
| CellHash.CellZeroIsDoubleWidth | Assets/Scripts/Simulation2D.cs:430-435 | because of truncation, every coordinate strictly between -radius and radius lands in cell 0, which is twice as wide as the others |
| CellHash.CellCoordNear | Assets/Scripts/Simulation2D.cs:430-435 | two coordinates at most one radius apart truncate to cells at most one apart |
| SpatialLookup.Tagged | Assets/Scripts/Simulation2D.cs:451-457 | the tagged buffer has one entry per particle, entry `i` holding index `i` and the key of `points[i]`'s cell; every index and key is below N and no index occurs twice, which is what makes each particle appear exactly once in the rebuilt grid |
| SpatialLookup.ScanRun | Assets/Scripts/Simulation2D.cs:479-490 | every index one key run yields is a valid particle within the squared radius of the centre |
| SpatialLookup.Visits | Assets/Scripts/Simulation2D.cs:470-492 | every index a query over any offset list yields is a valid particle within the squared radius of the centre |
| SpatialLookup.OffsetKey | Assets/Scripts/Simulation2D.cs:477 | the key of an offset cell is below the table length |
| SpatialLookup.FillFullOffsets | Assets/Scripts/Simulation2D.cs:120-124 | the array ends up holding exactly the nine pairs of {-1,0,1}^2, `ox` outer and `oy` inner |
| SpatialLookup.FullOffsetsCover | Assets/Scripts/Simulation2D.cs:120-124 | every pair in {-1,0,1}^2 sits in the live table, at slot `(ex+1)*3 + (ey+1)` |
| SpatialLookup.FillHarnessOffsets | Assets/Scripts/TestGridAndParticles.cs:73-80 | starting from the default `(0, 0)` array, the loops over `i, j < 2` leave exactly slots 0, 1, 3, 4 written and the rest `(0, 0)` |
| SpatialLookup.SortByKey | Assets/Scripts/Simulation2D.cs:459 | `Array.Sort` with `Entry.CompareTo` (key order): the buffer ends sorted by key and is a permutation of what it held |
| SpatialLookup.TagEntries | Assets/Scripts/Simulation2D.cs:451-457 | the buffer becomes `Tagged(points)` and every start slot becomes `int.MaxValue` |
| SpatialLookup.FillStartIndices | Assets/Scripts/Simulation2D.cs:461-466 | on a sorted buffer, every key that occurs maps to the first position holding it and every other key stays `int.MaxValue` |
| SpatialLookup.StartTableStep | Assets/Scripts/Simulation2D.cs:463-465 | one iteration of the first-of-run loop extends the table by one position, writing only when the key differs from the previous one |
| SpatialLookup.UpdateSpatialLookup | Assets/Scripts/Simulation2D.cs:449-467 | after the rebuild, the buffer is a key-sorted permutation of the tagged particles and `startIndices` is its first-of-run table |
| SpatialLookup.BuiltFromWellFormed | Assets/Scripts/Simulation2D.cs:449-467 | after a rebuild, every entry holds a valid particle index and that particle's cell key, and no start slot is negative |
| SpatialLookup.EachIndexOnce | Assets/Scripts/Simulation2D.cs:449-467 | after a rebuild, every particle occupies exactly one slot of the buffer |
| SpatialLookup.ScanCell | Assets/Scripts/Simulation2D.cs:478-490 | the inner loop from `cellStartIndex` until the key changes yields exactly `ScanRun` |
| SpatialLookup.ForeachPointWithinRadius | Assets/Scripts/Simulation2D.cs:470-492 | the indices handed to `action`, in call order, are exactly `Visits` over the offset table |
| SpatialLookup.QuerySound | Assets/Scripts/Simulation2D.cs:470-492 | every index a query yields is a particle within the radius of the query point |
| SpatialLookup.NearCells | Assets/Scripts/Simulation2D.cs:430-435 | a particle within the radius of the query point lies in a cell at most one step away on each axis |
| SpatialLookup.VisitsOrigin | Assets/Scripts/Simulation2D.cs:475-490 | every listed index came from a buffer entry whose key is the key of one of the offsets |
| SpatialLookup.VisitsMultiplicity | Assets/Scripts/Simulation2D.cs:475-490 | a particle in the run of key `k` is listed at least as many times as offsets map to `k`, so colliding keys repeat particles |
| SpatialLookup.QueryComplete | Assets/Scripts/Simulation2D.cs:470-492 | with the nine live offsets, every particle within the radius of the query point is listed |
| SpatialLookup.SelfVisited | Assets/Scripts/Simulation2D.cs:470-492 | with any offset table containing `(0, 0)`, the query around a particle lists that particle |
| Physics.ConvertDensityToPressure | Assets/Scripts/Simulation2D.cs:414-419 | with a positive multiplier, pressure is positive exactly above the target density and zero exactly at it; with a zero multiplier it is zero |
| Physics.CalculateSharedPressure | Assets/Scripts/Simulation2D.cs:421-426 | the mean of the two pressures is the mean density's error times the multiplier |
| Physics.SharedPressureSymmetric | Assets/Scripts/Simulation2D.cs:421-426 | the shared pressure does not depend on the order of the two densities |
| Physics.ResolveAxisContains | Assets/Scripts/Simulation2D.cs:276-280 | after one axis is resolved, the coordinate lies within the half bound, and a coordinate inside keeps its magnitude |
| Physics.ResolveAxisDamping | Assets/Scripts/Simulation2D.cs:276-280 | at or past the wall, damping 0 stops the axis velocity and damping 1 reflects it with its magnitude kept |
| Physics.ResolveAxisOnWall | Assets/Scripts/Simulation2D.cs:276-280 | a particle exactly on either wall stays there, and its velocity is reversed and damped (`>=`, not `>`) |
| Physics.ResolveCollisions | Assets/Scripts/Simulation2D.cs:273-287 | each coordinate ends within its half bound when that bound is non-negative, and an axis strictly inside the bounds keeps its position and velocity |
| Physics.IntegratePhase | Assets/Scripts/Simulation2D.cs:263-267 | every particle moves by `velocity * deltaTime` and is then resolved against the box |
| Physics.Move | Assets/Scripts/Simulation2D.cs:263-267 | after the move and the box collision, the particle lies within each half bound that is non-negative |
| Simulation2D.SmoothingKernel | Assets/Scripts/Simulation2D.cs:309-315 | the cubic kernel is zero at and beyond the radius and positive inside it |
| Simulation2D.SmoothingKernelDerivative | Assets/Scripts/Simulation2D.cs:318-324 | the slope is zero at and beyond the radius and negative inside it |
| Simulation2D.KernelDerivativeMatches | Assets/Scripts/Simulation2D.cs:309-324 | the slope is the derivative of the kernel in the distance: `slope (h - d) = -3 kernel` |
| Simulation2D.DensityOf | Assets/Scripts/Simulation2D.cs:349-353 | a density summed over any neighbour list is non-negative for a positive radius and non-negative mass |
| Simulation2D.DensityPositive | Assets/Scripts/Simulation2D.cs:349-353 | a density is positive once one listed neighbour is strictly inside the radius |
| Simulation2D.SelfInfluence | Assets/Scripts/Simulation2D.cs:349-353 | a density at a particle's own position, over a list containing that particle, is positive |
| Simulation2D.DensityConcat | Assets/Scripts/Simulation2D.cs:336-356 | the density over a concatenation of lists is the sum of the two densities, so densities add up cell by cell |
| Simulation2D.PressureConcat | Assets/Scripts/Simulation2D.cs:376-400 | the pressure force over a concatenation of lists is the sum of the two forces |
| Simulation2D.PressureSkipsSelf | Assets/Scripts/Simulation2D.cs:384 | inserting the particle's own index anywhere in its neighbour list leaves its pressure force unchanged |
| Simulation2D.PressureOfSelfOnly | Assets/Scripts/Simulation2D.cs:384 | a neighbour list holding only the particle itself, however often, gives zero pressure force |
| Simulation2D.PressureRepels | Assets/Scripts/Simulation2D.cs:389-397 | under positive shared pressure, the term from a neighbour strictly inside the radius is a positive multiple of the direction from that neighbour to the particle |
| Simulation2D.SelfDensityPositive | Assets/Scripts/Simulation2D.cs:239-242 | after a rebuild, every particle's density is positive, because its own cell is scanned and it lies at distance 0 from itself |
| Simulation2D.CellDensity | Assets/Scripts/Simulation2D.cs:340-355 | the loop over one key run adds up exactly the density of `ScanRun` |
| Simulation2D.GridDensity | Assets/Scripts/Simulation2D.cs:330-358 | `CalculateDensity` returns the density summed over `Visits` of the offset table |
| Simulation2D.CellPressure | Assets/Scripts/Simulation2D.cs:380-399 | the loop over one key run adds up exactly the pressure force of `ScanRun`, skipping the particle itself |
| Simulation2D.GridPressure | Assets/Scripts/Simulation2D.cs:370-402 | `CalculatePressureForce` returns the pressure force summed over `Visits` of the offset table |
| Simulation2D.PredictPhase | Assets/Scripts/Simulation2D.cs:231-234 | every velocity gains `gravity * deltaTime` downward, and every predicted position is the position plus the new velocity times 1/120 |
| Simulation2D.DensityPhase | Assets/Scripts/Simulation2D.cs:239-242 | every density slot holds that particle's grid density |
| Simulation2D.PressurePhase | Assets/Scripts/Simulation2D.cs:250-259 | every velocity gains `deltaTime` times its pressure force divided by its own density |
| Simulation2D.DrawParticle.constructor | Assets/Scripts/Simulation2D.cs:105-134 | `Start` allocates the arrays, writes the nine live offsets, and copies the spawned positions and velocities |
| Simulation2D.DrawParticle.UpdateSpatialLookup | Assets/Scripts/Simulation2D.cs:449-467 | the grid fields become the grid built from the given points |
| Simulation2D.DrawParticle.ForeachPointWithinRadius | Assets/Scripts/Simulation2D.cs:470-492 | the query over the current positions yields `Visits` of the offset field |
| Simulation2D.DrawParticle.CalculateDensity | Assets/Scripts/Simulation2D.cs:330-358 | the density at a point over the given points, through the grid fields |
| Simulation2D.DrawParticle.CalculatePressureForce | Assets/Scripts/Simulation2D.cs:370-402 | the pressure force on a particle over the given points, through the grid fields |
| Simulation2D.DrawParticle.PredictPositions | Assets/Scripts/Simulation2D.cs:231-234 | gravity and position prediction for every particle |
| Simulation2D.DrawParticle.ComputeDensities | Assets/Scripts/Simulation2D.cs:239-242 | the densities at the predicted positions |
| Simulation2D.DrawParticle.ApplyPressure | Assets/Scripts/Simulation2D.cs:250-259 | the pressure acceleration added to every velocity |
| Simulation2D.DrawParticle.Integrate | Assets/Scripts/Simulation2D.cs:263-267 | the position update and box collision for every particle |
| Simulation2D.DrawParticle.PredictAndMeasure | Assets/Scripts/Simulation2D.cs:230-242 | every velocity gains gravity, every predicted position is the position plus the new velocity times 1/120, the grid is built from the predicted positions, and every density is that particle's grid density and positive |
| Simulation2D.DrawParticle.PushAndMove | Assets/Scripts/Simulation2D.cs:249-267 | every particle's new position and velocity are the old velocity plus its pressure acceleration, then the move and the box collision |
| Simulation2D.DrawParticle.SimulationStep | Assets/Scripts/Simulation2D.cs:225-269 | after a step, the predicted positions are the old positions moved 1/120 along the velocities after gravity; the grid is built from them and every density is that particle's grid density and positive, so every pressure division was defined; every particle's position and velocity are its old ones advanced by gravity, the pressure acceleration of that grid and those densities, the move and the box collision; every particle lies inside the box on each axis whose half bound is non-negative |
| TestGrid.SmoothingKernel | Assets/Scripts/TestGridAndParticles.cs:201-207 | the quadratic kernel is zero at and beyond the radius and positive inside it |
| TestGrid.SmoothingKernelDerivative | Assets/Scripts/TestGridAndParticles.cs:210-216 | the slope is zero at and beyond the radius and negative inside it |
| TestGrid.KernelDerivativeMatches | Assets/Scripts/TestGridAndParticles.cs:201-216 | the slope is the derivative of the quadratic kernel in the distance: `slope (h - d) = -2 kernel` |
| TestGrid.DensityOf | Assets/Scripts/TestGridAndParticles.cs:226-232 | a density summed over any index list is non-negative for non-negative mass |
| TestGrid.DensityPositive | Assets/Scripts/TestGridAndParticles.cs:226-232 | a density is positive once one listed neighbour is strictly inside the radius |
| TestGrid.SelfInfluence | Assets/Scripts/TestGridAndParticles.cs:226-232 | a density at a particle's own position, over a list containing that particle, is positive |
| TestGrid.DensityCountsRepeats | Assets/Scripts/TestGridAndParticles.cs:226-232 | a particle listed `n` times contributes at least `n` copies of its term, so repeated indices are counted again |
| TestGrid.PressureSkipsSelf | Assets/Scripts/TestGridAndParticles.cs:249 | inserting the particle's own index anywhere in its list leaves its pressure force unchanged |
| TestGrid.PressureRepels | Assets/Scripts/TestGridAndParticles.cs:251-258 | under positive shared pressure, the term from a neighbour strictly inside the radius is a positive multiple of the direction from that neighbour to the particle |
| TestGrid.SelfDensityPositive | Assets/Scripts/TestGridAndParticles.cs:161-164 | after a rebuild, every particle's density is positive even with the harness offsets, since they contain `(0, 0)` |
| TestGrid.HarnessCountsCentre | Assets/Scripts/TestGridAndParticles.cs:73-80 | at least six of the nine harness offsets reach the key of the centre cell |
| TestGrid.HarnessRepeatsCentre | Assets/Scripts/TestGridAndParticles.cs:73-80 | a query with the harness offsets lists every in-radius particle of the centre cell at least six times |
| TestGrid.HarnessSelfCount | Assets/Scripts/TestGridAndParticles.cs:329-354 | a particle's own harness query lists it at least six times |
| TestGrid.HarnessSelfDensity | Assets/Scripts/TestGridAndParticles.cs:222-234 | a harness density is at least six times the particle's own kernel value times its mass |
| TestGrid.HarnessMissesNeighbour | Assets/Scripts/TestGridAndParticles.cs:73-80 | in the six-particle layout `MissedExample` with radius 1, particle 1 is 0.7 from particle 0 and the full offsets list it, but the harness query around particle 0 does not |
| TestGrid.HarnessDensitiesPositive | Assets/Scripts/TestGridAndParticles.cs:161-164 | all measured harness densities are non-zero and at least six self-terms |
| TestGrid.SumDensity | Assets/Scripts/TestGridAndParticles.cs:224-233 | the `foreach` over the index list adds up exactly `DensityOf` of the list |
| TestGrid.SumPressure | Assets/Scripts/TestGridAndParticles.cs:244-260 | the `foreach` over the index list, skipping the particle itself, adds up exactly `PressureForceOf` of the list |
| TestGrid.GridDensity | Assets/Scripts/TestGridAndParticles.cs:222-234 | `CalculateDensity` returns the density over `Visits` of the offset table |
| TestGrid.GridPressure | Assets/Scripts/TestGridAndParticles.cs:242-261 | `CalculatePressureForce` returns the pressure force over `Visits` of the offset table |
| TestGrid.GravityPhase | Assets/Scripts/TestGridAndParticles.cs:154-157 | every velocity gains `gravity * deltaTime` downward |
| TestGrid.DensityPhase | Assets/Scripts/TestGridAndParticles.cs:161-164 | every density slot holds that particle's grid density |
| TestGrid.PressurePhase | Assets/Scripts/TestGridAndParticles.cs:168-173 | every velocity gains `deltaTime` times its pressure force divided by its own density |
| TestGrid.TestGridAndParticles.constructor | Assets/Scripts/TestGridAndParticles.cs:66-83 | `Start` allocates the arrays, leaves the as-written offset table, and places the spawned particles at rest |
| TestGrid.TestGridAndParticles.UpdateSpatialLookup | Assets/Scripts/TestGridAndParticles.cs:308-326 | the grid fields become the grid built from the current positions |
| TestGrid.TestGridAndParticles.ForeachPointWithinRadius | Assets/Scripts/TestGridAndParticles.cs:329-354 | the returned list is `Visits` over the harness offsets and the current positions |
| TestGrid.TestGridAndParticles.CalculateDensity | Assets/Scripts/TestGridAndParticles.cs:222-234 | the density at a point through the harness query |
| TestGrid.TestGridAndParticles.CalculatePressureForce | Assets/Scripts/TestGridAndParticles.cs:242-261 | the pressure force on a particle through the harness query |
| TestGrid.TestGridAndParticles.ApplyGravity | Assets/Scripts/TestGridAndParticles.cs:154-157 | gravity added to every velocity |
| TestGrid.TestGridAndParticles.ComputeDensities | Assets/Scripts/TestGridAndParticles.cs:161-164 | the densities at the current positions |
| TestGrid.TestGridAndParticles.ApplyPressure | Assets/Scripts/TestGridAndParticles.cs:168-173 | the pressure acceleration added to every velocity |
| TestGrid.TestGridAndParticles.Integrate | Assets/Scripts/TestGridAndParticles.cs:176-180 | the position update and box collision for every particle |
| TestGrid.TestGridAndParticles.FallAndMeasure | Assets/Scripts/TestGridAndParticles.cs:153-164 | every velocity gains gravity, the grid is built from the current positions, and every density is that particle's harness density, at least six self-terms and positive |
| TestGrid.TestGridAndParticles.PushAndMove | Assets/Scripts/TestGridAndParticles.cs:167-180 | every particle's new position and velocity are the old velocity plus its pressure acceleration, measured on the old positions, then the move and the box collision |
| TestGrid.TestGridAndParticles.SimulationStep | Assets/Scripts/TestGridAndParticles.cs:151-181 | after a step, the grid is built from the positions the step started from; every density is that particle's harness density, at least six self-terms and positive; every particle's position and velocity are its old ones advanced by gravity, the pressure acceleration of that grid and those densities, the move and the box collision; every particle lies inside the box on each axis whose half bound is non-negative |

## Left out

- Unity lifecycle and rendering: `OnEnable`, `OnValidate`, `Update`, the
  draw calls, `CircleRenderer.cs`, `DensityVisualize.cs` and the density
  compute shader are outside the core and are not modelled.
- `InteractionForce` (mouse push and pull) and the mouse lookup in
  `Simulation2D.SimulationStep` depend on input devices. The step is
  modelled with the interaction strength at 0, which is the branch taken
  when no mouse button is held.
- Boundary particles (`CreateBoundaryParticles` and the fields it fills) are
  allocated in `Start` but never used by the step. They are not modelled.
- The particle spawners are not modelled; their output is a constructor
  parameter. `ParticleSpawner.GetSpawnData` (called at
  `Simulation2D.cs:125`) is not part of this model, and
  `SpawnParticlesRandom` (called at `TestGridAndParticles.cs:81`) draws from
  a random generator. `SpawnParticlesGrid` is deterministic, but neither
  `Start` calls it, so no state of either solver comes from it.
- `particleSpacing` and the spawner settings only serve spawning, so they
  are left out with it.
- `Parallel.For` runs each phase as a sequential loop. Each iteration writes
  only its own slot, so the order does not matter, but concurrency is not
  modelled.
- Floating point is modelled as exact reals, with no rounding, overflow to
  infinity or NaN. Where C# would divide by zero, the model requires the
  divisor to be non-zero instead:
  - the smoothing radius inside the kernels;
  - each density in the pressure force.
  `SimulationStep` proves those densities positive.
- Simulation2D.DrawParticle.SimulationStep: does not cover a zero or
  negative smoothing radius or mass, because with exact reals the densities
  could then be zero and the pressure division undefined.
- TestGrid.TestGridAndParticles.SimulationStep: does not cover a zero or
  negative smoothing radius or mass, for the same reason.
- `Vector2.magnitude` is a function parameter. Its only assumed property is
  `magnitude(0) = 0`.
- `GetRandomDir` (used when two particles coincide) is a function parameter
  `randomDir` indexed by the neighbour's particle index.
- Simulation2D.GridPressure: a neighbour listed twice gets the same random
  direction both times, where the source draws a fresh one each time.
- TestGrid.GridPressure: the same holds for the harness, whose query lists
  centre-cell particles at least six times.
- An empty particle set is not covered by the neighbour queries.
  `GetKeyFromHash` reduces modulo the table length, which C# would do with a
  division by zero, so the query methods require at least one particle.
- `Array.Sort` is modelled by an insertion sort. All contracts say only
  "sorted by key and a permutation", which is all that `Array.Sort` with a
  key-only `CompareTo` promises. The order of equal keys is not fixed.
- `TestGridAndParticles` repeats `ResolveCollisions`, `PositionToCellCoord`,
  `HashCell`, `GetKeyFromHash`, `ConvertDensityToPressure` and
  `CalculateSharedPressure` word for word. Each is modelled once, in the
  shared modules, and cited at its `Simulation2D.cs` lines.
- The harness's `UpdateSpatialLookup()` (`TestGridAndParticles.cs:308-312`)
  takes no parameter and always rebuilds from `positions`, where the live
  solver's `UpdateSpatialLookup(Vector2[] points)` (`Simulation2D.cs:449`)
  rebuilds from its argument. The loop bodies are the same, so both call
  the shared `SpatialLookup.UpdateSpatialLookup`: the harness passes
  `positions[..]`, the live solver the points it is given.
- CellHash.Trunc: the `(int)` casts in `PositionToCellCoord`
  (`Simulation2D.cs:432-433`) are modelled by truncation to an unbounded
  integer. A quotient outside the 32-bit range, where C#'s cast gives an
  unspecified value, is not modelled.

## Findings

| source | as written | input that shows it | evidently intended | confidence | as-written member | corrected member |
|---|---|---|---|---|---|---|
| Assets/Scripts/TestGridAndParticles.cs:73-80 | the loops run `i, j < 2`, so only slots 0, 1, 3, 4 of the nine-slot offset table are written, as (-1,-1), (-1,0), (0,-1), (0,0); the other five keep the default (0,0), so the centre cell is scanned six times and the +1 neighbour cells never | `MissedExample` with radius 1: particle 0 at (0.5, 0.5) and particle 1 at (1.2, 0.5) are 0.7 apart, yet the query around particle 0 never lists particle 1, while the nine live offsets do | all nine offsets of {-1,0,1}^2, as the live solver writes them at Simulation2D.cs:120-124 | not executed | TestGrid.HarnessMissesNeighbour | SpatialLookup.QueryComplete |
