/** The live solver, `DrawParticle` in `Simulation2D.cs`: its spiky
    kernels, the density and pressure sums over the neighbour grid, and
    the simulation step. Floats are modelled as exact reals; `sqrt` (the
    `magnitude` of a vector) and the random direction are parameters. */
module Simulation2D {
  import opened Geometry
  import opened CellHash
  import opened SpatialLookup
  import opened Physics

  lemma {:induction false} PowNonZero(x: real, n: nat)
    requires x != 0.0
    ensures Pow(x, n) != 0.0
  {
    if n > 0 {
      PowNonZero(x, n - 1);
    }
  }

  /** `SmoothingKernel`: `(h - d)^3 * 10 / (pi * h^5)` inside the support,
      0 from `d = h` on. It is positive inside the support when `h > 0`. */
  function SmoothingKernel(smoothingRadius: real, dist: real): (influence: real)
    requires dist >= smoothingRadius || smoothingRadius != 0.0
    ensures dist >= smoothingRadius ==> influence == 0.0
    ensures 0.0 < smoothingRadius && dist < smoothingRadius ==> influence > 0.0
  {
    if dist >= smoothingRadius then 0.0
    else
      PowNonZero(smoothingRadius, 5);
      KernelSign(smoothingRadius, dist);
      var volume := 10.0 / (PI * Pow(smoothingRadius, 5));
      Pow(smoothingRadius - dist, 3) * volume
  }

  lemma KernelSign(h: real, d: real)
    requires d < h && h != 0.0
    ensures PI * Pow(h, 5) != 0.0
    ensures 0.0 < h ==> Pow(h - d, 3) * (10.0 / (PI * Pow(h, 5))) > 0.0
    ensures 0.0 < h ==> (h - d) * (h - d) * (-30.0 / (Pow(h, 5) * PI)) < 0.0
  {
    PowNonZero(h, 5);
    if 0.0 < h {
      PowPositive(h, 5);
      PowPositive(h - d, 3);
      var x := PI * Pow(h, 5);
      MulPositive(PI, Pow(h, 5));
      assert 10.0 / x > 0.0;
      MulPositive(Pow(h - d, 3), 10.0 / x);
      MulPositive(h - d, h - d);
      assert Pow(h, 5) * PI == x;
      assert -30.0 / x < 0.0;
      MulPositive((h - d) * (h - d), 30.0 / x);
      assert (h - d) * (h - d) * (-30.0 / x) == -((h - d) * (h - d) * (30.0 / x));
    }
  }

  /** `SmoothingKernelDerivative`: `-30 (h - d)^2 / (h^5 * pi)` inside the
      support, 0 from `d = h` on; negative inside the support when `h > 0`. */
  function SmoothingKernelDerivative(smoothingRadius: real, dist: real): (slope: real)
    requires dist >= smoothingRadius || smoothingRadius != 0.0
    ensures dist >= smoothingRadius ==> slope == 0.0
    ensures 0.0 < smoothingRadius && dist < smoothingRadius ==> slope < 0.0
  {
    if dist >= smoothingRadius then 0.0
    else
      KernelSign(smoothingRadius, dist);
      var scale := -30.0 / (Pow(smoothingRadius, 5) * PI);
      (smoothingRadius - dist) * (smoothingRadius - dist) * scale
  }

  /** The derivative is that of the kernel: for `K = c (h - d)^3` it is
      `-3 c (h - d)^2`, so `K'(d) * (h - d) = -3 K(d)` everywhere. */
  lemma KernelDerivativeMatches(smoothingRadius: real, dist: real)
    requires dist >= smoothingRadius || smoothingRadius != 0.0
    ensures SmoothingKernelDerivative(smoothingRadius, dist) * (smoothingRadius - dist)
            == -3.0 * SmoothingKernel(smoothingRadius, dist)
  {
    if dist < smoothingRadius {
      var h, u := smoothingRadius, smoothingRadius - dist;
      PowNonZero(h, 5);
      var x := PI * Pow(h, 5);
      assert Pow(h, 5) * PI == x;
      assert Pow(u, 1) == u;
      assert Pow(u, 3) == u * (u * u);
      assert -30.0 / x == -3.0 * (10.0 / x);
    }
  }

  // ---------------------------------------------------------------------
  // Density and pressure sums

  /** The sum the inline loop of `CalculateDensity` accumulates, in visit
      order: each visited particle `x` adds `SmoothingKernel(h, |points[x] -
      center|) * mass`. With `h > 0` and a non-negative mass it is never
      negative. */
  function DensityOf(visits: seq<nat>, points: seq<Vec2>, center: Vec2, smoothingRadius: real,
                     mass: real, magnitude: Vec2 -> real): (density: real)
    requires smoothingRadius != 0.0
    requires AllBelow(visits, |points|)
    ensures 0.0 < smoothingRadius && 0.0 <= mass ==> 0.0 <= density
    decreases |visits|
  {
    if visits == [] then 0.0
    else
      var last := visits[|visits| - 1];
      AllBelowSplit(visits, |points|);
      var influence := SmoothingKernel(smoothingRadius, magnitude(Sub(points[last], center)));
      MulNonNegative(influence, mass);
      DensityOf(visits[..|visits| - 1], points, center, smoothingRadius, mass, magnitude)
        + influence * mass
  }

  /** One visited particle strictly inside the kernel's support makes the
      density positive. */
  lemma {:induction false} DensityPositive(visits: seq<nat>, points: seq<Vec2>, center: Vec2,
                                           smoothingRadius: real, mass: real,
                                           magnitude: Vec2 -> real, i: nat)
    requires 0.0 < smoothingRadius && 0.0 < mass
    requires AllBelow(visits, |points|)
    requires i in visits && magnitude(Sub(points[i], center)) < smoothingRadius
    ensures DensityOf(visits, points, center, smoothingRadius, mass, magnitude) > 0.0
    decreases |visits|
  {
    var last := visits[|visits| - 1];
    var init := visits[..|visits| - 1];
    assert visits == init + [last];
    AllBelowSplit(visits, |points|);
    if last == i {
      var influence := SmoothingKernel(smoothingRadius, magnitude(Sub(points[last], center)));
      MulPositive(influence, mass);
    } else {
      assert visits == init + [last];
      DensityPositive(init, points, center, smoothingRadius, mass, magnitude, i);
      var influence := SmoothingKernel(smoothingRadius, magnitude(Sub(points[last], center)));
      MulNonNegative(influence, mass);
    }
  }

  /** The force one neighbour `x` adds in `CalculatePressureForce`: along
      the unit vector from the centre particle to `x` (a random direction
      when they coincide), scaled by the shared pressure, the kernel
      slope, the mass and the inverse of the neighbour's density. */
  function PressureTerm(points: seq<Vec2>, densities: seq<real>, centerIndex: nat, x: nat,
                        smoothingRadius: real, targetDensity: real, pressureMultiplier: real,
                        mass: real, magnitude: Vec2 -> real, randomDir: nat -> Vec2): Vec2
    requires smoothingRadius != 0.0 && |densities| == |points| && NonZero(densities)
    requires centerIndex < |points| && x < |points|
  {
    var offset := Sub(points[x], points[centerIndex]);
    var dist := magnitude(offset);
    var dir := if dist == 0.0 then randomDir(x) else Scale(1.0 / dist, offset);
    var slope := SmoothingKernelDerivative(smoothingRadius, dist);
    var density := densities[x];
    var sharedPressure := CalculateSharedPressure(density, densities[centerIndex], targetDensity,
                                                  pressureMultiplier);
    PressureContribution(sharedPressure, slope, mass, density, dir)
  }

  /** `sharedPressure * slope * mass / density * dir`: one neighbour's
      contribution to the pressure force. */
  function PressureContribution(sharedPressure: real, slope: real, mass: real, density: real,
                                dir: Vec2): Vec2
    requires density != 0.0
  {
    Scale(sharedPressure * slope * mass / density, dir)
  }

  /** The sum the inline loop of `CalculatePressureForce` accumulates, in
      visit order, skipping every visit of the centre particle itself. */
  function PressureForceOf(visits: seq<nat>, points: seq<Vec2>, densities: seq<real>,
                           centerIndex: nat, smoothingRadius: real, targetDensity: real,
                           pressureMultiplier: real, mass: real, magnitude: Vec2 -> real,
                           randomDir: nat -> Vec2): Vec2
    requires smoothingRadius != 0.0 && |densities| == |points| && NonZero(densities)
    requires centerIndex < |points| && AllBelow(visits, |points|)
    decreases |visits|
  {
    if visits == [] then Zero
    else
      var last := visits[|visits| - 1];
      AllBelowSplit(visits, |points|);
      var rest := PressureForceOf(visits[..|visits| - 1], points, densities, centerIndex,
                                  smoothingRadius, targetDensity, pressureMultiplier, mass,
                                  magnitude, randomDir);
      if last == centerIndex then rest
      else Add(rest, PressureTerm(points, densities, centerIndex, last, smoothingRadius,
                                  targetDensity, pressureMultiplier, mass, magnitude, randomDir))
  }

  /** The pressure force ignores a visit of the centre particle itself,
      wherever it falls in the visit order: inserting one changes nothing. */
  lemma {:induction false} PressureSkipsSelf(before: seq<nat>, after: seq<nat>, points: seq<Vec2>,
                                             densities: seq<real>, centerIndex: nat,
                                             smoothingRadius: real, targetDensity: real,
                                             pressureMultiplier: real, mass: real,
                                             magnitude: Vec2 -> real, randomDir: nat -> Vec2)
    requires smoothingRadius != 0.0 && |densities| == |points| && NonZero(densities)
    requires centerIndex < |points| && AllBelow(before + after, |points|)
    ensures AllBelow(before + [centerIndex] + after, |points|)
    ensures PressureForceOf(before + [centerIndex] + after, points, densities, centerIndex,
                            smoothingRadius, targetDensity, pressureMultiplier, mass,
                            magnitude, randomDir)
         == PressureForceOf(before + after, points, densities, centerIndex, smoothingRadius,
                            targetDensity, pressureMultiplier, mass, magnitude, randomDir)
    decreases |after|
  {
    var with := before + [centerIndex] + after;
    AllBelowConcat(before, after, |points|);
    AllBelowConcat(before, [centerIndex], |points|);
    AllBelowConcat(before + [centerIndex], after, |points|);
    if after == [] {
      assert with[..|with| - 1] == before + after;
    } else {
      var init := after[..|after| - 1];
      AllBelowSplit(after, |points|);
      AllBelowConcat(before, init, |points|);
      assert (before + after)[..|before + after| - 1] == before + init;
      PressureSkipsSelf(before, init, points, densities, centerIndex, smoothingRadius,
                        targetDensity, pressureMultiplier, mass, magnitude, randomDir);
      assert with[..|with| - 1] == before + [centerIndex] + init;
    }
  }

  /** A query that visits only the centre particle, any number of times,
      yields no force. */
  lemma {:induction false} PressureOfSelfOnly(n: nat, points: seq<Vec2>, densities: seq<real>,
                                              centerIndex: nat, smoothingRadius: real,
                                              targetDensity: real, pressureMultiplier: real,
                                              mass: real, magnitude: Vec2 -> real,
                                              randomDir: nat -> Vec2)
    requires smoothingRadius != 0.0 && |densities| == |points| && NonZero(densities)
    requires centerIndex < |points|
    ensures AllBelow(seq(n, _ => centerIndex), |points|)
    ensures PressureForceOf(seq(n, _ => centerIndex), points, densities, centerIndex,
                            smoothingRadius, targetDensity, pressureMultiplier, mass,
                            magnitude, randomDir) == Zero
  {
    if n > 0 {
      PressureOfSelfOnly(n - 1, points, densities, centerIndex, smoothingRadius, targetDensity,
                         pressureMultiplier, mass, magnitude, randomDir);
      assert seq(n, _ => centerIndex)[..n - 1] == seq(n - 1, _ => centerIndex);
    }
  }

  /** Pressure is repulsive: a neighbour strictly inside the support of a
      compressed pair (positive shared pressure) pushes the centre particle
      away from itself, along `center - neighbour`. */
  lemma PressureRepels(points: seq<Vec2>, densities: seq<real>, centerIndex: nat, x: nat,
                       smoothingRadius: real, targetDensity: real, pressureMultiplier: real,
                       mass: real, magnitude: Vec2 -> real, randomDir: nat -> Vec2)
    requires 0.0 < smoothingRadius && |densities| == |points| && NonZero(densities)
    requires centerIndex < |points| && x < |points|
    requires 0.0 < mass && 0.0 < densities[x]
    requires CalculateSharedPressure(densities[x], densities[centerIndex], targetDensity,
                                     pressureMultiplier) > 0.0
    requires 0.0 < magnitude(Sub(points[x], points[centerIndex])) < smoothingRadius
    ensures exists c: real :: c > 0.0 &&
              PressureTerm(points, densities, centerIndex, x, smoothingRadius, targetDensity,
                           pressureMultiplier, mass, magnitude, randomDir)
              == Scale(c, Sub(points[centerIndex], points[x]))
  {
    var offset := Sub(points[x], points[centerIndex]);
    var dist := magnitude(offset);
    NegativeQuotient(CalculateSharedPressure(densities[x], densities[centerIndex], targetDensity,
                                             pressureMultiplier),
                     SmoothingKernelDerivative(smoothingRadius, magnitude(Sub(points[x], points[centerIndex]))),
                     mass, densities[x]);
    ScaleTowardCenter(CalculateSharedPressure(densities[x], densities[centerIndex], targetDensity,
                                              pressureMultiplier)
                      * SmoothingKernelDerivative(smoothingRadius, magnitude(Sub(points[x], points[centerIndex])))
                      * mass / densities[x],
                      dist, points[x], points[centerIndex]);
  }

  lemma NegativeQuotient(a: real, b: real, m: real, d: real)
    requires 0.0 < a && b < 0.0 && 0.0 < m && 0.0 < d
    ensures a * b * m / d < 0.0
  {
    MulPositive(a, -b);
    MulPositive(a * -b, m);
    assert a * b * m == -(a * -b * m);
  }

  /** `k` times the unit vector from `c` to `p` is a positive multiple of
      `c - p` when `k` is negative. */
  lemma ScaleTowardCenter(k: real, dist: real, p: Vec2, c: Vec2)
    requires k < 0.0 && 0.0 < dist
    ensures exists e: real :: e > 0.0 && Scale(k, Scale(1.0 / dist, Sub(p, c))) == Scale(e, Sub(c, p))
  {
    var e := -k / dist;
    assert k * (1.0 / dist * (p.x - c.x)) == e * (c.x - p.x);
    assert k * (1.0 / dist * (p.y - c.y)) == e * (c.y - p.y);
    assert Scale(k, Scale(1.0 / dist, Sub(p, c))) == Scale(e, Sub(c, p));
  }


  /** One more visit adds its kernel-weighted mass to the density. */
  lemma DensityAppend(visits: seq<nat>, x: nat, points: seq<Vec2>, center: Vec2,
                      smoothingRadius: real, mass: real, magnitude: Vec2 -> real, influence: real)
    requires smoothingRadius != 0.0 && AllBelow(visits, |points|) && x < |points|
    requires influence == SmoothingKernel(smoothingRadius, magnitude(Sub(points[x], center)))
    ensures AllBelow(visits + [x], |points|)
    ensures DensityOf(visits + [x], points, center, smoothingRadius, mass, magnitude)
         == DensityOf(visits, points, center, smoothingRadius, mass, magnitude) + influence * mass
  {
    AllBelowConcat(visits, [x], |points|);
    assert (visits + [x])[..|visits|] == visits;
  }

  /** One more visit of another particle adds its term to the force. */
  lemma PressureAppend(visits: seq<nat>, x: nat, points: seq<Vec2>, densities: seq<real>,
                       centerIndex: nat, smoothingRadius: real, targetDensity: real,
                       pressureMultiplier: real, mass: real, magnitude: Vec2 -> real,
                       randomDir: nat -> Vec2)
    requires smoothingRadius != 0.0 && |densities| == |points| && NonZero(densities)
    requires centerIndex < |points| && AllBelow(visits, |points|) && x < |points|
    ensures AllBelow(visits + [x], |points|)
    ensures PressureForceOf(visits + [x], points, densities, centerIndex, smoothingRadius,
                            targetDensity, pressureMultiplier, mass, magnitude, randomDir)
         == if x == centerIndex
            then PressureForceOf(visits, points, densities, centerIndex, smoothingRadius,
                                 targetDensity, pressureMultiplier, mass, magnitude, randomDir)
            else Add(PressureForceOf(visits, points, densities, centerIndex, smoothingRadius,
                                     targetDensity, pressureMultiplier, mass, magnitude, randomDir),
                     PressureTerm(points, densities, centerIndex, x, smoothingRadius,
                                  targetDensity, pressureMultiplier, mass, magnitude, randomDir))
  {
    AllBelowConcat(visits, [x], |points|);
    assert (visits + [x])[..|visits|] == visits;
  }

  /** On a grid rebuilt from `points`, the density a query over offsets
      that include (0, 0) computes at a particle's own position is
      positive: the particle visits itself at distance 0. */
  lemma {:induction false} SelfDensityPositive(lookup: seq<Entry>, start: seq<int>,
                                               offsets: seq<Offset>, points: seq<Vec2>,
                                               smoothingRadius: real, mass: real,
                                               magnitude: Vec2 -> real, i: nat, t: nat)
    requires BuiltFrom(lookup, start, points, smoothingRadius) && 0.0 < smoothingRadius
    requires 0.0 < mass && magnitude(Zero) == 0.0 && i < |points|
    requires t < |offsets| && offsets[t] == (0, 0)
    ensures |start| == |lookup| > 0 && StartsNonNegative(start) && IndicesBelow(lookup, |points|)
    ensures DensityOf(Visits(lookup, start, offsets, PositionToCellCoord(points[i], smoothingRadius),
                             points[i], points, Square(smoothingRadius)),
                      points, points[i], smoothingRadius, mass, magnitude) > 0.0
  {
    SelfVisited(lookup, start, offsets, points, smoothingRadius, i, t);
    SelfInfluence(Visits(lookup, start, offsets, PositionToCellCoord(points[i], smoothingRadius),
                         points[i], points, Square(smoothingRadius)),
                  points, smoothingRadius, mass, magnitude, i);
  }

  lemma {:induction false} SelfInfluence(visits: seq<nat>, points: seq<Vec2>, smoothingRadius: real,
                                         mass: real, magnitude: Vec2 -> real, i: nat)
    requires 0.0 < smoothingRadius && 0.0 < mass && magnitude(Zero) == 0.0
    requires AllBelow(visits, |points|) && i in visits
    ensures DensityOf(visits, points, points[i], smoothingRadius, mass, magnitude) > 0.0
  {
    SubSelf(points[i]);
    DensityPositive(visits, points, points[i], smoothingRadius, mass, magnitude, i);
  }

  /** Density is additive over the visit order: the density of two visit
      sequences one after the other is the sum of their densities. */
  lemma {:induction false} DensityConcat(a: seq<nat>, b: seq<nat>, points: seq<Vec2>, center: Vec2,
                                         smoothingRadius: real, mass: real,
                                         magnitude: Vec2 -> real)
    requires smoothingRadius != 0.0 && AllBelow(a, |points|) && AllBelow(b, |points|)
    ensures AllBelow(a + b, |points|)
    ensures DensityOf(a + b, points, center, smoothingRadius, mass, magnitude)
         == DensityOf(a, points, center, smoothingRadius, mass, magnitude)
            + DensityOf(b, points, center, smoothingRadius, mass, magnitude)
    decreases |b|
  {
    AllBelowConcat(a, b, |points|);
    if b == [] {
      assert a + b == a;
    } else {
      var init, last := b[..|b| - 1], b[|b| - 1];
      AllBelowSplit(b, |points|);
      DensityConcat(a, init, points, center, smoothingRadius, mass, magnitude);
      var influence := SmoothingKernel(smoothingRadius, magnitude(Sub(points[last], center)));
      DensityAppend(a + init, last, points, center, smoothingRadius, mass, magnitude, influence);
      DensityAppend(init, last, points, center, smoothingRadius, mass, magnitude, influence);
      assert a + b == (a + init) + [last];
      assert init + [last] == b;
    }
  }

  /** The pressure force is additive over the visit order in the same way. */
  lemma {:induction false} PressureConcat(a: seq<nat>, b: seq<nat>, points: seq<Vec2>,
                                          densities: seq<real>, centerIndex: nat,
                                          smoothingRadius: real, targetDensity: real,
                                          pressureMultiplier: real, mass: real,
                                          magnitude: Vec2 -> real, randomDir: nat -> Vec2)
    requires smoothingRadius != 0.0 && |densities| == |points| && NonZero(densities)
    requires centerIndex < |points| && AllBelow(a, |points|) && AllBelow(b, |points|)
    ensures AllBelow(a + b, |points|)
    ensures PressureForceOf(a + b, points, densities, centerIndex, smoothingRadius, targetDensity,
                            pressureMultiplier, mass, magnitude, randomDir)
         == Add(PressureForceOf(a, points, densities, centerIndex, smoothingRadius, targetDensity,
                                pressureMultiplier, mass, magnitude, randomDir),
                PressureForceOf(b, points, densities, centerIndex, smoothingRadius, targetDensity,
                                pressureMultiplier, mass, magnitude, randomDir))
    decreases |b|
  {
    AllBelowConcat(a, b, |points|);
    if b == [] {
      assert a + b == a;
    } else {
      var init, last := b[..|b| - 1], b[|b| - 1];
      AllBelowSplit(b, |points|);
      PressureConcat(a, init, points, densities, centerIndex, smoothingRadius, targetDensity,
                     pressureMultiplier, mass, magnitude, randomDir);
      PressureAppend(a + init, last, points, densities, centerIndex, smoothingRadius,
                     targetDensity, pressureMultiplier, mass, magnitude, randomDir);
      PressureAppend(init, last, points, densities, centerIndex, smoothingRadius, targetDensity,
                     pressureMultiplier, mass, magnitude, randomDir);
      assert a + b == (a + init) + [last];
      assert init + [last] == b;
    }
  }

  /** One more offset adds the density of that neighbour cell's key run. */
  lemma DensityStep(lookup: seq<Entry>, start: seq<int>, offsets: seq<Offset>, t: nat,
                    cell: (int, int), center: Vec2, points: seq<Vec2>, smoothingRadius: real,
                    mass: real, magnitude: Vec2 -> real)
    requires |start| == |lookup| > 0 && StartsNonNegative(start) && IndicesBelow(lookup, |points|)
    requires smoothingRadius != 0.0 && t < |offsets|
    ensures DensityOf(Visits(lookup, start, offsets[..t + 1], cell, center, points,
                             Square(smoothingRadius)),
                      points, center, smoothingRadius, mass, magnitude)
         == DensityOf(Visits(lookup, start, offsets[..t], cell, center, points,
                             Square(smoothingRadius)),
                      points, center, smoothingRadius, mass, magnitude)
            + DensityOf(ScanRun(lookup, start[OffsetKey(cell, offsets[t], |lookup|)],
                                OffsetKey(cell, offsets[t], |lookup|), center, points,
                                Square(smoothingRadius)),
                        points, center, smoothingRadius, mass, magnitude)
  {
    PrefixStep(offsets, t);
    DensityConcat(Visits(lookup, start, offsets[..t], cell, center, points,
                         Square(smoothingRadius)),
                  ScanRun(lookup, start[OffsetKey(cell, offsets[t], |lookup|)],
                          OffsetKey(cell, offsets[t], |lookup|), center, points,
                          Square(smoothingRadius)),
                  points, center, smoothingRadius, mass, magnitude);
  }

  /** The inner loop of `CalculateDensity` over one cell's key run: from
      `cellStartIndex` while the key matches, add `SmoothingKernel(h, dist)
      * mass` for every particle within squared distance `h^2`. */
  method CellDensity(spatialLookup: array<Entry>, cellStartIndex: int, key: int,
                     centerPoint: Vec2, points: seq<Vec2>, smoothingRadius: real, mass: real,
                     magnitude: Vec2 -> real)
    returns (density: real)
    requires 0 <= cellStartIndex && smoothingRadius != 0.0
    requires IndicesBelow(spatialLookup[..], |points|)
    ensures density == DensityOf(ScanRun(spatialLookup[..], cellStartIndex, key, centerPoint,
                                         points, Square(smoothingRadius)),
                                 points, centerPoint, smoothingRadius, mass, magnitude)
  {
    ghost var lookup := spatialLookup[..];
    var sqrRadius := Square(smoothingRadius);
    ghost var found: seq<nat> := [];
    density := 0.0;
    var i := cellStartIndex;
    while i < spatialLookup.Length
      invariant cellStartIndex <= i
      invariant found + ScanRun(lookup, i, key, centerPoint, points, sqrRadius)
                == ScanRun(lookup, cellStartIndex, key, centerPoint, points, sqrRadius)
      invariant AllBelow(found, |points|)
      invariant density == DensityOf(found, points, centerPoint, smoothingRadius, mass, magnitude)
      decreases spatialLookup.Length - i
    {
      if spatialLookup[i].key != key {
        break;
      }
      var particleIndex := spatialLookup[i].index;
      ScanRunAdvance(lookup, i, key, centerPoint, points, sqrRadius, found);
      var offset := Sub(points[particleIndex], centerPoint);
      var sqrDist := SqrMagnitude(offset);
      if sqrDist <= sqrRadius {
        var dist := magnitude(offset);
        var influence := SmoothingKernel(smoothingRadius, dist);
        DensityAppend(found, particleIndex, points, centerPoint, smoothingRadius, mass, magnitude,
                      influence);
        density := density + influence * mass;
        found := found + [particleIndex];
      }
      i := i + 1;
    }
    assert found + [] == found;
  }

  /** The loops of `CalculateDensity`: for each offset, the key of the
      cell `cell(centerPoint) + offset` and the density of its key run. */
  method GridDensity(spatialLookup: array<Entry>, startIndices: array<int>,
                     cellOffsets: array<Offset>, centerPoint: Vec2, points: seq<Vec2>,
                     smoothingRadius: real, mass: real, magnitude: Vec2 -> real)
    returns (density: real)
    requires spatialLookup.Length == startIndices.Length > 0 && smoothingRadius != 0.0
    requires StartsNonNegative(startIndices[..]) && IndicesBelow(spatialLookup[..], |points|)
    ensures density == DensityOf(Visits(spatialLookup[..], startIndices[..], cellOffsets[..],
                                        PositionToCellCoord(centerPoint, smoothingRadius),
                                        centerPoint, points, Square(smoothingRadius)),
                                 points, centerPoint, smoothingRadius, mass, magnitude)
  {
    ghost var lookup, start, offsets := spatialLookup[..], startIndices[..], cellOffsets[..];
    var cell := PositionToCellCoord(centerPoint, smoothingRadius);
    var (centerX, centerY) := cell;
    density := 0.0;
    for t := 0 to cellOffsets.Length
      invariant density == DensityOf(Visits(lookup, start, offsets[..t], cell, centerPoint, points,
                                            Square(smoothingRadius)),
                                     points, centerPoint, smoothingRadius, mass, magnitude)
    {
      DensityStep(lookup, start, offsets, t, cell, centerPoint, points, smoothingRadius, mass,
                  magnitude);
      var (offsetX, offsetY) := cellOffsets[t];
      var key := GetKeyFromHash(HashCell(centerX + offsetX, centerY + offsetY), spatialLookup.Length);
      OffsetKeyIs(cell, offsets[t], centerX, centerY, offsetX, offsetY, |lookup|);
      var cellStartIndex := startIndices[key];
      var cellDensity := CellDensity(spatialLookup, cellStartIndex, key, centerPoint, points,
                                     smoothingRadius, mass, magnitude);
      assert spatialLookup[..] == lookup && cellStartIndex == start[key];
      density := density + cellDensity;
    }
    assert offsets[..|offsets|] == offsets;
  }

  /** One more offset adds the force of that neighbour cell's key run. */
  lemma PressureStep(lookup: seq<Entry>, start: seq<int>, offsets: seq<Offset>, t: nat,
                     cell: (int, int), points: seq<Vec2>, densities: seq<real>, centerIndex: nat,
                     smoothingRadius: real, targetDensity: real, pressureMultiplier: real,
                     mass: real, magnitude: Vec2 -> real, randomDir: nat -> Vec2)
    requires |start| == |lookup| > 0 && StartsNonNegative(start) && IndicesBelow(lookup, |points|)
    requires smoothingRadius != 0.0 && t < |offsets|
    requires |densities| == |points| && NonZero(densities) && centerIndex < |points|
    ensures PressureForceOf(Visits(lookup, start, offsets[..t + 1], cell, points[centerIndex],
                                   points, Square(smoothingRadius)),
                            points, densities, centerIndex, smoothingRadius, targetDensity,
                            pressureMultiplier, mass, magnitude, randomDir)
         == Add(PressureForceOf(Visits(lookup, start, offsets[..t], cell, points[centerIndex],
                                       points, Square(smoothingRadius)),
                                points, densities, centerIndex, smoothingRadius, targetDensity,
                                pressureMultiplier, mass, magnitude, randomDir),
                PressureForceOf(ScanRun(lookup, start[OffsetKey(cell, offsets[t], |lookup|)],
                                        OffsetKey(cell, offsets[t], |lookup|), points[centerIndex],
                                        points, Square(smoothingRadius)),
                                points, densities, centerIndex, smoothingRadius, targetDensity,
                                pressureMultiplier, mass, magnitude, randomDir))
  {
    PrefixStep(offsets, t);
    var key := OffsetKey(cell, offsets[t], |lookup|);
    var before := Visits(lookup, start, offsets[..t], cell, points[centerIndex], points,
                         Square(smoothingRadius));
    var run := ScanRun(lookup, start[key], key, points[centerIndex], points, Square(smoothingRadius));
    assert Visits(lookup, start, offsets[..t + 1], cell, points[centerIndex], points,
                  Square(smoothingRadius)) == before + run;
    PressureConcat(before, run, points, densities, centerIndex, smoothingRadius, targetDensity,
                   pressureMultiplier, mass, magnitude, randomDir);
  }

  /** The loops of `CalculatePressureForce`: for each offset, the key of
      the cell `cell(points[centerIndex]) + offset` and the force of its key
      run. */
  method GridPressure(spatialLookup: array<Entry>, startIndices: array<int>,
                      cellOffsets: array<Offset>, centerIndex: nat, points: seq<Vec2>,
                      densities: array<real>, smoothingRadius: real, targetDensity: real,
                      pressureMultiplier: real, mass: real, magnitude: Vec2 -> real,
                      randomDir: nat -> Vec2)
    returns (force: Vec2)
    requires spatialLookup.Length == startIndices.Length > 0 && smoothingRadius != 0.0
    requires StartsNonNegative(startIndices[..]) && IndicesBelow(spatialLookup[..], |points|)
    requires densities.Length == |points| && NonZero(densities[..]) && centerIndex < |points|
    ensures force == PressureForceOf(Visits(spatialLookup[..], startIndices[..], cellOffsets[..],
                                            PositionToCellCoord(points[centerIndex], smoothingRadius),
                                            points[centerIndex], points, Square(smoothingRadius)),
                                     points, densities[..], centerIndex, smoothingRadius,
                                     targetDensity, pressureMultiplier, mass, magnitude, randomDir)
  {
    ghost var lookup, start, offsets := spatialLookup[..], startIndices[..], cellOffsets[..];
    ghost var dens := densities[..];
    var centerPoint := points[centerIndex];
    var cell := PositionToCellCoord(centerPoint, smoothingRadius);
    var (centerX, centerY) := cell;
    force := Zero;
    for t := 0 to cellOffsets.Length
      invariant force == PressureForceOf(Visits(lookup, start, offsets[..t], cell, centerPoint,
                                                points, Square(smoothingRadius)),
                                         points, dens, centerIndex, smoothingRadius,
                                         targetDensity, pressureMultiplier, mass, magnitude,
                                         randomDir)
    {
      PressureStep(lookup, start, offsets, t, cell, points, dens, centerIndex, smoothingRadius,
                   targetDensity, pressureMultiplier, mass, magnitude, randomDir);
      var (offsetX, offsetY) := cellOffsets[t];
      var key := GetKeyFromHash(HashCell(centerX + offsetX, centerY + offsetY), spatialLookup.Length);
      OffsetKeyIs(cell, offsets[t], centerX, centerY, offsetX, offsetY, |lookup|);
      var cellStartIndex := startIndices[key];
      var cellForce := CellPressure(spatialLookup, cellStartIndex, key, centerIndex, points,
                                    densities, smoothingRadius, targetDensity, pressureMultiplier,
                                    mass, magnitude, randomDir);
      assert spatialLookup[..] == lookup && densities[..] == dens && cellStartIndex == start[key];
      force := Add(force, cellForce);
    }
    assert offsets[..|offsets|] == offsets;
  }

  /** The inner loop of `CalculatePressureForce` over one cell's key run:
      the centre particle itself is skipped (`continue`) before its
      distance is measured; every other particle within squared distance
      `h^2` adds its pressure term. */
  method CellPressure(spatialLookup: array<Entry>, cellStartIndex: int, key: int,
                      centerIndex: nat, points: seq<Vec2>, densities: array<real>,
                      smoothingRadius: real, targetDensity: real, pressureMultiplier: real,
                      mass: real, magnitude: Vec2 -> real, randomDir: nat -> Vec2)
    returns (force: Vec2)
    requires 0 <= cellStartIndex && smoothingRadius != 0.0 && centerIndex < |points|
    requires densities.Length == |points| && NonZero(densities[..])
    requires IndicesBelow(spatialLookup[..], |points|)
    ensures force == PressureForceOf(ScanRun(spatialLookup[..], cellStartIndex, key,
                                             points[centerIndex], points,
                                             Square(smoothingRadius)),
                                     points, densities[..], centerIndex, smoothingRadius,
                                     targetDensity, pressureMultiplier, mass, magnitude, randomDir)
  {
    ghost var lookup, dens := spatialLookup[..], densities[..];
    var centerPoint := points[centerIndex];
    var sqrRadius := Square(smoothingRadius);
    ghost var found: seq<nat> := [];
    force := Zero;
    var i := cellStartIndex;
    while i < spatialLookup.Length
      invariant cellStartIndex <= i
      invariant found + ScanRun(lookup, i, key, centerPoint, points, sqrRadius)
                == ScanRun(lookup, cellStartIndex, key, centerPoint, points, sqrRadius)
      invariant AllBelow(found, |points|)
      invariant force == PressureForceOf(found, points, dens, centerIndex, smoothingRadius,
                                         targetDensity, pressureMultiplier, mass, magnitude,
                                         randomDir)
      decreases spatialLookup.Length - i
    {
      if spatialLookup[i].key != key {
        break;
      }
      var particleIndex := spatialLookup[i].index;
      ScanRunAdvance(lookup, i, key, centerPoint, points, sqrRadius, found);
      PressureAppend(found, particleIndex, points, dens, centerIndex, smoothingRadius,
                     targetDensity, pressureMultiplier, mass, magnitude, randomDir);
      if particleIndex == centerIndex {
        if SqrMagnitude(Sub(points[particleIndex], centerPoint)) <= sqrRadius {
          found := found + [particleIndex];
        }
        i := i + 1;
        continue;
      }
      var offset := Sub(points[particleIndex], centerPoint);
      var sqrDist := SqrMagnitude(offset);
      if sqrDist <= sqrRadius {
        var currentDensity := densities[centerIndex];
        var dist := magnitude(offset);
        var dir := if dist == 0.0 then randomDir(particleIndex) else Scale(1.0 / dist, offset);
        var slope := SmoothingKernelDerivative(smoothingRadius, dist);
        var density := densities[particleIndex];
        var sharedPressure := CalculateSharedPressure(density, currentDensity, targetDensity,
                                                      pressureMultiplier);
        force := Add(force, PressureContribution(sharedPressure, slope, mass, density, dir));
        found := found + [particleIndex];
      }
      i := i + 1;
    }
    assert found + [] == found;
  }

  /** The density a query over `offsets` yields at particle `k`'s own
      position. */
  function ParticleDensity(lookup: seq<Entry>, start: seq<int>, offsets: seq<Offset>,
                           points: seq<Vec2>, k: nat, smoothingRadius: real, mass: real,
                           magnitude: Vec2 -> real): real
    requires |start| == |lookup| > 0 && StartsNonNegative(start) && IndicesBelow(lookup, |points|)
    requires smoothingRadius != 0.0 && k < |points|
  {
    DensityOf(Visits(lookup, start, offsets, PositionToCellCoord(points[k], smoothingRadius),
                     points[k], points, Square(smoothingRadius)),
              points, points[k], smoothingRadius, mass, magnitude)
  }

  /** The pressure force a query over `offsets` yields on particle `k`. */
  function ParticlePressure(lookup: seq<Entry>, start: seq<int>, offsets: seq<Offset>,
                            points: seq<Vec2>, densities: seq<real>, k: nat,
                            smoothingRadius: real, targetDensity: real, pressureMultiplier: real,
                            mass: real, magnitude: Vec2 -> real, randomDir: nat -> Vec2): Vec2
    requires |start| == |lookup| > 0 && StartsNonNegative(start) && IndicesBelow(lookup, |points|)
    requires smoothingRadius != 0.0 && k < |points|
    requires |densities| == |points| && NonZero(densities)
  {
    PressureForceOf(Visits(lookup, start, offsets, PositionToCellCoord(points[k], smoothingRadius),
                           points[k], points, Square(smoothingRadius)),
                    points, densities, k, smoothingRadius, targetDensity, pressureMultiplier, mass,
                    magnitude, randomDir)
  }

  /** The density phase of `SimulationStep`: every particle's density at
      its own position. */
  method DensityPhase(spatialLookup: array<Entry>, startIndices: array<int>,
                       cellOffsets: array<Offset>, points: array<Vec2>, densities: array<real>,
                       smoothingRadius: real, mass: real, magnitude: Vec2 -> real)
    requires spatialLookup.Length == startIndices.Length == points.Length == densities.Length
    requires smoothingRadius != 0.0
    requires StartsNonNegative(startIndices[..]) && IndicesBelow(spatialLookup[..], points.Length)
    modifies densities
    ensures forall i :: 0 <= i < densities.Length ==>
              densities[i] == ParticleDensity(spatialLookup[..], startIndices[..], cellOffsets[..],
                                              points[..], i, smoothingRadius, mass, magnitude)
  {
    for i := 0 to densities.Length
      invariant forall k :: 0 <= k < i ==>
                  densities[k] == ParticleDensity(spatialLookup[..], startIndices[..], cellOffsets[..],
                                                  points[..], k, smoothingRadius, mass, magnitude)
    {
      var density := GridDensity(spatialLookup, startIndices, cellOffsets, points[i], points[..],
                                 smoothingRadius, mass, magnitude);
      densities[i] := density;
    }
  }

  /** `positions[i] + velocities[i] * predictionFactor`, with the factor
      fixed at `1/120`. */
  function Predict(position: Vec2, velocity: Vec2): Vec2
  {
    Add(position, Scale(1.0 / 120.0, velocity))
  }

  /** The first phase of `SimulationStep`: gravity on every velocity, then
      the position predicted `1/120` ahead with the new velocity. */
  method PredictPhase(positions: array<Vec2>, velocities: array<Vec2>,
                      predictedPositions: array<Vec2>, gravity: real, deltaTime: real)
    requires positions.Length == velocities.Length == predictedPositions.Length
    requires positions != velocities && positions != predictedPositions
    requires velocities != predictedPositions
    modifies velocities, predictedPositions
    ensures forall i :: 0 <= i < velocities.Length ==>
              velocities[i] == Fall(old(velocities[i]), gravity, deltaTime)
    ensures forall i :: 0 <= i < velocities.Length ==>
              predictedPositions[i] == Predict(positions[i], velocities[i])
  {
    for i := 0 to velocities.Length
      invariant forall k :: 0 <= k < i ==>
                  velocities[k] == Fall(old(velocities[k]), gravity, deltaTime)
      invariant forall k :: 0 <= k < i ==>
                  predictedPositions[k] == Predict(positions[k], velocities[k])
      invariant forall k :: i <= k < velocities.Length ==> velocities[k] == old(velocities[k])
    {
      velocities[i] := Fall(velocities[i], gravity, deltaTime);
      predictedPositions[i] := Add(positions[i], Scale(1.0 / 120.0, velocities[i]));
    }
  }

  /** The pressure phase of `SimulationStep` with the mouse interaction
      inactive: each velocity gains the pressure force divided by the
      particle's density, times the step. */
  method PressurePhase(spatialLookup: array<Entry>, startIndices: array<int>,
                       cellOffsets: array<Offset>, points: array<Vec2>, densities: array<real>,
                       velocities: array<Vec2>, smoothingRadius: real, targetDensity: real,
                       pressureMultiplier: real, mass: real, deltaTime: real,
                       magnitude: Vec2 -> real, randomDir: nat -> Vec2)
    requires spatialLookup.Length == startIndices.Length == points.Length == densities.Length
    requires velocities.Length == points.Length && velocities != points
    requires smoothingRadius != 0.0 && NonZero(densities[..])
    requires StartsNonNegative(startIndices[..]) && IndicesBelow(spatialLookup[..], points.Length)
    modifies velocities
    ensures forall i :: 0 <= i < velocities.Length ==>
              velocities[i] == Push(old(velocities[i]), deltaTime,
                                    ParticlePressure(spatialLookup[..], startIndices[..], cellOffsets[..], points[..], densities[..], i, smoothingRadius, targetDensity, pressureMultiplier, mass, magnitude, randomDir),
                                    densities[i])
  {
    for i := 0 to velocities.Length
      invariant forall k :: 0 <= k < i ==>
                  velocities[k] == Push(old(velocities[k]), deltaTime,
                                        ParticlePressure(spatialLookup[..], startIndices[..], cellOffsets[..], points[..], densities[..], k, smoothingRadius, targetDensity, pressureMultiplier, mass, magnitude, randomDir),
                                        densities[k])
      invariant forall k :: i <= k < velocities.Length ==> velocities[k] == old(velocities[k])
    {
      var pressureForce := GridPressure(spatialLookup, startIndices, cellOffsets, i, points[..],
                                        densities, smoothingRadius, targetDensity,
                                        pressureMultiplier, mass, magnitude, randomDir);
      var pressureAcceleration := PressureAcceleration(pressureForce, densities[i]);
      velocities[i] := Add(velocities[i], Scale(deltaTime, pressureAcceleration));
    }
  }

  // ---------------------------------------------------------------------
  // The solver object

  /** `DrawParticle`: the particle arrays, the grid buffers and the
      parameters the inspector sets. */
  class DrawParticle {
    var numParticles: nat
    var particleSize: real
    var smoothingRadius: real
    var targetDensity: real
    var pressureMultiplier: real
    var gravity: real
    var collisionDamping: real
    var boundsSize: Vec2
    var mass: real

    var positions: array<Vec2>
    var velocities: array<Vec2>
    var densities: array<real>
    var predictedPositions: array<Vec2>
    var startIndices: array<int>
    var spatialLookup: array<Entry>
    var cellOffsets: array<Offset>

    /** The state `Start` sets up and every method keeps: one slot per
        particle in each array, the nine neighbour offsets, and a grid
        whose start table and particle indices are in range. */
    predicate Valid()
      reads this, cellOffsets, startIndices, spatialLookup
    {
      && positions.Length == numParticles && velocities.Length == numParticles
      && densities.Length == numParticles && predictedPositions.Length == numParticles
      && startIndices.Length == numParticles && spatialLookup.Length == numParticles
      && numParticles <= IntMax
      && positions != velocities && positions != predictedPositions
      && velocities != predictedPositions
      && cellOffsets[..] == FullOffsets()
      && StartsNonNegative(startIndices[..]) && IndicesBelow(spatialLookup[..], numParticles)
    }

    /** `Start`: allocate the arrays with C#'s default values, write the
        nine cell offsets, and copy the spawner's positions and velocities.
        The inspector fields are the constructor's parameters, and the
        spawner's `Parallel.For` copy is the arrays' initialiser. */
    constructor (numParticles: nat, particleSize: real, smoothingRadius: real,
                 targetDensity: real, pressureMultiplier: real, gravity: real,
                 collisionDamping: real, boundsSize: Vec2, mass: real,
                 spawnPositions: seq<Vec2>, spawnVelocities: seq<Vec2>)
      requires numParticles <= IntMax
      requires numParticles <= |spawnPositions| && numParticles <= |spawnVelocities|
      ensures Valid()
      ensures this.numParticles == numParticles && this.particleSize == particleSize
      ensures this.smoothingRadius == smoothingRadius && this.targetDensity == targetDensity
      ensures this.pressureMultiplier == pressureMultiplier && this.gravity == gravity
      ensures this.collisionDamping == collisionDamping && this.boundsSize == boundsSize
      ensures this.mass == mass
      ensures positions[..] == spawnPositions[..numParticles]
      ensures velocities[..] == spawnVelocities[..numParticles]
      ensures forall i :: 0 <= i < numParticles ==> densities[i] == 0.0
      ensures fresh(positions) && fresh(velocities) && fresh(densities)
      ensures fresh(predictedPositions) && fresh(startIndices) && fresh(spatialLookup)
      ensures fresh(cellOffsets) && cellOffsets[..] == FullOffsets()
    {
      var offsets := new Offset[9](_ => (0, 0));
      FillFullOffsets(offsets);
      this.numParticles := numParticles;
      this.particleSize := particleSize;
      this.smoothingRadius := smoothingRadius;
      this.targetDensity := targetDensity;
      this.pressureMultiplier := pressureMultiplier;
      this.gravity := gravity;
      this.collisionDamping := collisionDamping;
      this.boundsSize := boundsSize;
      this.mass := mass;
      positions := new Vec2[numParticles](i requires 0 <= i < numParticles => spawnPositions[i]);
      velocities := new Vec2[numParticles](i requires 0 <= i < numParticles => spawnVelocities[i]);
      densities := new real[numParticles](_ => 0.0);
      startIndices := new int[numParticles](_ => 0);
      spatialLookup := new Entry[numParticles](_ => Entry(0, 0));
      predictedPositions := new Vec2[numParticles](_ => Zero);
      cellOffsets := offsets;
      new;
      assert positions[..] == spawnPositions[..numParticles];
      assert velocities[..] == spawnVelocities[..numParticles];
    }

    /** `UpdateSpatialLookup(points)`: rebuild the grid from `points`. */
    method UpdateSpatialLookup(points: seq<Vec2>)
      requires Valid() && |points| == numParticles && smoothingRadius != 0.0
      modifies spatialLookup, startIndices
      ensures Valid()
      ensures BuiltFrom(spatialLookup[..], startIndices[..], points, smoothingRadius)
    {
      SpatialLookup.UpdateSpatialLookup(spatialLookup, startIndices, points, smoothingRadius);
      BuiltFromWellFormed(spatialLookup[..], startIndices[..], points, smoothingRadius);
    }

    /** `ForeachPointWithinRadius(centerPoint, action)`: the indices passed
        to `action`, in call order. It scans the grid's cells but measures
        distances on `positions`, whatever the grid was last built from. */
    method ForeachPointWithinRadius(centerPoint: Vec2) returns (visited: seq<nat>)
      requires Valid() && 0 < numParticles && smoothingRadius != 0.0
      ensures visited == Visits(spatialLookup[..], startIndices[..], cellOffsets[..],
                                PositionToCellCoord(centerPoint, smoothingRadius), centerPoint,
                                positions[..], Square(smoothingRadius))
    {
      visited := SpatialLookup.ForeachPointWithinRadius(spatialLookup, startIndices, cellOffsets,
                                                        centerPoint, positions[..], smoothingRadius);
    }

    /** The density the grid yields at `center`, measured on `points`. */
    function DensityAt(center: Vec2, points: seq<Vec2>, magnitude: Vec2 -> real): real
      reads this, cellOffsets, startIndices, spatialLookup
      requires Valid() && 0 < numParticles && smoothingRadius != 0.0
      requires |points| == numParticles
    {
      DensityOf(Visits(spatialLookup[..], startIndices[..], cellOffsets[..],
                       PositionToCellCoord(center, smoothingRadius), center, points,
                       Square(smoothingRadius)),
                points, center, smoothingRadius, mass, magnitude)
    }

    /** `CalculateDensity(centerPoint, points)`: the grid walk written out
        inline, adding `SmoothingKernel(h, dist) * mass` for every particle
        with squared distance at most `h^2`. */
    method CalculateDensity(centerPoint: Vec2, points: seq<Vec2>, magnitude: Vec2 -> real)
      returns (density: real)
      requires Valid() && 0 < numParticles && smoothingRadius != 0.0
      requires |points| == numParticles
      ensures density == DensityAt(centerPoint, points, magnitude)
    {
      density := GridDensity(spatialLookup, startIndices, cellOffsets, centerPoint, points,
                             smoothingRadius, mass, magnitude);
    }

    /** The pressure force the grid yields on particle `centerIndex`,
        measured on `points`. */
    function PressureAt(centerIndex: nat, points: seq<Vec2>, magnitude: Vec2 -> real,
                        randomDir: nat -> Vec2): Vec2
      reads this, cellOffsets, startIndices, spatialLookup, densities
      requires Valid() && 0 < numParticles && smoothingRadius != 0.0
      requires |points| == numParticles && centerIndex < numParticles && NonZero(densities[..])
    {
      PressureForceOf(Visits(spatialLookup[..], startIndices[..], cellOffsets[..],
                             PositionToCellCoord(points[centerIndex], smoothingRadius),
                             points[centerIndex], points, Square(smoothingRadius)),
                      points, densities[..], centerIndex, smoothingRadius, targetDensity,
                      pressureMultiplier, mass, magnitude, randomDir)
    }

    /** `CalculatePressureForce(centerIndex, points)`: the grid walk written
        out inline, skipping the centre particle and adding each other
        neighbour's pressure contribution. */
    method CalculatePressureForce(centerIndex: nat, points: seq<Vec2>, magnitude: Vec2 -> real,
                                  randomDir: nat -> Vec2)
      returns (force: Vec2)
      requires Valid() && 0 < numParticles && smoothingRadius != 0.0
      requires |points| == numParticles && centerIndex < numParticles && NonZero(densities[..])
      ensures force == PressureAt(centerIndex, points, magnitude, randomDir)
    {
      force := GridPressure(spatialLookup, startIndices, cellOffsets, centerIndex, points,
                            densities, smoothingRadius, targetDensity, pressureMultiplier, mass,
                            magnitude, randomDir);
    }

    /** The first phase of `SimulationStep`. */
    method PredictPositions(deltaTime: real)
      requires Valid()
      modifies velocities, predictedPositions
      ensures forall i :: 0 <= i < numParticles ==>
                velocities[i] == Fall(old(velocities[i]), gravity, deltaTime)
      ensures forall i :: 0 <= i < numParticles ==>
                predictedPositions[i] == Predict(positions[i], velocities[i])
    {
      PredictPhase(positions, velocities, predictedPositions, gravity, deltaTime);
    }

    /** The density phase of `SimulationStep`: every particle's density at
        its predicted position, measured on the predicted positions. */
    method ComputeDensities(magnitude: Vec2 -> real)
      requires Valid() && smoothingRadius != 0.0
      modifies densities
      ensures forall i :: 0 <= i < numParticles ==>
                densities[i] == ParticleDensity(spatialLookup[..], startIndices[..], cellOffsets[..],
                                                predictedPositions[..], i, smoothingRadius, mass,
                                                magnitude)
    {
      DensityPhase(spatialLookup, startIndices, cellOffsets, predictedPositions, densities,
                   smoothingRadius, mass, magnitude);
    }

    /** The pressure phase of `SimulationStep`. */
    method ApplyPressure(deltaTime: real, magnitude: Vec2 -> real, randomDir: nat -> Vec2)
      requires Valid() && smoothingRadius != 0.0 && NonZero(densities[..])
      modifies velocities
      ensures forall i :: 0 <= i < numParticles ==>
                velocities[i] == Push(old(velocities[i]), deltaTime,
                                      ParticlePressure(spatialLookup[..], startIndices[..], cellOffsets[..], predictedPositions[..], densities[..], i, smoothingRadius, targetDensity, pressureMultiplier, mass, magnitude, randomDir),
                                      densities[i])
    {
      PressurePhase(spatialLookup, startIndices, cellOffsets, predictedPositions, densities,
                    velocities, smoothingRadius, targetDensity, pressureMultiplier, mass,
                    deltaTime, magnitude, randomDir);
    }

    /** The last phase of `SimulationStep`. */
    method Integrate(deltaTime: real)
      requires Valid()
      modifies positions, velocities
      ensures forall i :: 0 <= i < numParticles ==>
                (positions[i], velocities[i])
                == Move(old(positions[i]), old(velocities[i]), deltaTime, HalfBoundsSize(boundsSize, particleSize), collisionDamping)
    {
      IntegratePhase(positions, velocities, HalfBoundsSize(boundsSize, particleSize),
                     collisionDamping, deltaTime);
    }

    /** The first half of `SimulationStep`: gravity on every velocity and
        the predicted positions, the grid rebuilt from the predicted
        positions, and every density measured on them. Each density is
        positive: each particle finds itself through the offset (0, 0). */
    method PredictAndMeasure(deltaTime: real, magnitude: Vec2 -> real)
      requires Valid() && 0.0 < smoothingRadius && 0.0 < mass && magnitude(Zero) == 0.0
      modifies velocities, predictedPositions, spatialLookup, startIndices, densities
      ensures Valid()
      ensures BuiltFrom(spatialLookup[..], startIndices[..], predictedPositions[..], smoothingRadius)
      ensures forall i :: 0 <= i < numParticles ==>
                densities[i] == ParticleDensity(spatialLookup[..], startIndices[..], cellOffsets[..],
                                                predictedPositions[..], i, smoothingRadius, mass,
                                                magnitude)
                && densities[i] > 0.0
      ensures forall i :: 0 <= i < numParticles ==>
                velocities[i] == Fall(old(velocities[i]), gravity, deltaTime)
      ensures forall i :: 0 <= i < numParticles ==>
                predictedPositions[i] == Predict(positions[i], velocities[i])
    {
      PredictPositions(deltaTime);
      UpdateSpatialLookup(predictedPositions[..]);
      ComputeDensities(magnitude);
      forall i | 0 <= i < numParticles
        ensures densities[i] > 0.0
      {
        SelfDensityPositive(spatialLookup[..], startIndices[..], cellOffsets[..],
                            predictedPositions[..], smoothingRadius, mass, magnitude, i, 4);
      }
    }

    /** The second half of `SimulationStep`: every velocity gains the
        pressure acceleration, then every particle moves and is resolved
        against the walls. */
    method PushAndMove(deltaTime: real, magnitude: Vec2 -> real, randomDir: nat -> Vec2)
      requires Valid() && smoothingRadius != 0.0 && NonZero(densities[..])
      modifies positions, velocities
      ensures forall i :: 0 <= i < numParticles ==>
                (positions[i], velocities[i])
                == Move(old(positions[i]),
                        Push(old(velocities[i]), deltaTime,
                             ParticlePressure(spatialLookup[..], startIndices[..], cellOffsets[..],
                                              predictedPositions[..], densities[..], i,
                                              smoothingRadius, targetDensity, pressureMultiplier,
                                              mass, magnitude, randomDir),
                             densities[i]),
                        deltaTime, HalfBoundsSize(boundsSize, particleSize), collisionDamping)
    {
      ApplyPressure(deltaTime, magnitude, randomDir);
      Integrate(deltaTime);
    }

    /** `SimulationStep(deltaTime)` with the mouse interaction inactive: the
        four phases in order. Afterwards the grid is the one built from the
        predicted positions, which are the old positions moved `1/120`
        along the velocities after gravity; every density is the grid's
        and is positive; every particle has been advanced by gravity, the
        pressure acceleration of that grid and those densities, the move
        and the wall collision; and every particle is inside the box. */
    method SimulationStep(deltaTime: real, magnitude: Vec2 -> real, randomDir: nat -> Vec2)
      requires Valid() && 0.0 < smoothingRadius && 0.0 < mass && magnitude(Zero) == 0.0
      modifies positions, velocities, predictedPositions, spatialLookup, startIndices, densities
      ensures Valid()
      ensures BuiltFrom(spatialLookup[..], startIndices[..], predictedPositions[..], smoothingRadius)
      ensures forall i :: 0 <= i < numParticles ==>
                densities[i] == ParticleDensity(spatialLookup[..], startIndices[..], cellOffsets[..],
                                                predictedPositions[..], i, smoothingRadius, mass,
                                                magnitude)
                && densities[i] > 0.0
      ensures NonZero(densities[..])
      ensures forall i :: 0 <= i < numParticles ==>
                predictedPositions[i]
                == Predict(old(positions[i]), Fall(old(velocities[i]), gravity, deltaTime))
      ensures forall i :: 0 <= i < numParticles ==>
                (positions[i], velocities[i])
                == Advance(old(positions[i]), old(velocities[i]),
                           ParticlePressure(spatialLookup[..], startIndices[..], cellOffsets[..],
                                            predictedPositions[..], densities[..], i,
                                            smoothingRadius, targetDensity, pressureMultiplier,
                                            mass, magnitude, randomDir),
                           densities[i], gravity, deltaTime,
                           HalfBoundsSize(boundsSize, particleSize), collisionDamping)
      ensures forall i :: 0 <= i < numParticles && 0.0 <= HalfBoundsSize(boundsSize, particleSize).x
                ==> Abs(positions[i].x) <= HalfBoundsSize(boundsSize, particleSize).x
      ensures forall i :: 0 <= i < numParticles && 0.0 <= HalfBoundsSize(boundsSize, particleSize).y
                ==> Abs(positions[i].y) <= HalfBoundsSize(boundsSize, particleSize).y
    {
      PredictAndMeasure(deltaTime, magnitude);
      ghost var lookup, start, predicted := spatialLookup[..], startIndices[..], predictedPositions[..];
      ghost var measured := densities[..];
      PushAndMove(deltaTime, magnitude, randomDir);
      assert spatialLookup[..] == lookup && startIndices[..] == start;
      assert densities[..] == measured && predictedPositions[..] == predicted;
    }
  }
}
