/** The earlier test harness, `TestGridAndParticles` in
    `TestGridAndParticles.cs`: the same grid as the live solver, quadratic
    kernels, densities measured on the current positions, and a `Start`
    whose offset loops stop one short, so that only four of the nine cell
    offsets are written. Floats are modelled as exact reals; `sqrt` (the
    `magnitude` of a vector) and the random direction are parameters. */
module TestGrid {
  import opened Geometry
  import opened CellHash
  import opened SpatialLookup
  import opened Physics

  // ---------------------------------------------------------------------
  // Kernels

  /** For `d < h` and `h != 0`, both kernel expressions are well defined
      and have their sign, whatever the sign of `h`: `h^4 > 0` and
      `h - d > 0`. */
  lemma KernelSign(h: real, d: real)
    requires d < h && h != 0.0
    ensures PI * Pow(h, 4) / 6.0 > 0.0 && Pow(h, 4) * PI > 0.0
    ensures (h - d) * (h - d) / (PI * Pow(h, 4) / 6.0) > 0.0
    ensures (d - h) * (12.0 / (Pow(h, 4) * PI)) < 0.0
  {
    Pow4Positive(h);
    MulPositive(PI, Pow(h, 4));
    DivPositive(PI * Pow(h, 4), 6.0);
    SquareOverPositive(h - d, PI * Pow(h, 4) / 6.0);
    var s := 12.0 / (Pow(h, 4) * PI);
    MulPositive(h - d, s);
    assert (d - h) * s == -((h - d) * s);
  }

  lemma SquareOverPositive(u: real, v: real)
    requires 0.0 < u && 0.0 < v
    ensures u * u / v > 0.0
  {
    DivPositive(u, v);
    MulPositive(u / v, u);
    assert u * u / v == u / v * u;
  }

  lemma DivPositive(a: real, b: real)
    requires 0.0 < a && 0.0 < b
    ensures a / b > 0.0
  {
  }

  /** `SmoothingKernel` of the harness: `(h - d)^2 / (pi h^4 / 6)` inside
      the support, 0 from `d = h` on; positive inside the support. */
  function SmoothingKernel(smoothingRadius: real, dist: real): (influence: real)
    requires dist >= smoothingRadius || smoothingRadius != 0.0
    ensures dist >= smoothingRadius ==> influence == 0.0
    ensures dist < smoothingRadius ==> influence > 0.0
  {
    if dist >= smoothingRadius then 0.0
    else
      KernelSign(smoothingRadius, dist);
      var volume := (PI * Pow(smoothingRadius, 4)) / 6.0;
      (smoothingRadius - dist) * (smoothingRadius - dist) / volume
  }

  /** `SmoothingKernelDerivative` of the harness: `(d - h) * 12 / (h^4 pi)`
      inside the support, 0 from `d = h` on; negative inside the support. */
  function SmoothingKernelDerivative(smoothingRadius: real, dist: real): (slope: real)
    requires dist >= smoothingRadius || smoothingRadius != 0.0
    ensures dist >= smoothingRadius ==> slope == 0.0
    ensures dist < smoothingRadius ==> slope < 0.0
  {
    if dist >= smoothingRadius then 0.0
    else
      KernelSign(smoothingRadius, dist);
      var scale := 12.0 / (Pow(smoothingRadius, 4) * PI);
      (dist - smoothingRadius) * scale
  }

  /** The derivative is that of the kernel: for `K = (h - d)^2 / V` it is
      `-2 (h - d) / V`, and `12 / (h^4 pi) = 2 / (pi h^4 / 6)`, so
      `K'(d) * (h - d) = -2 K(d)` everywhere. */
  lemma KernelDerivativeMatches(smoothingRadius: real, dist: real)
    requires dist >= smoothingRadius || smoothingRadius != 0.0
    ensures SmoothingKernelDerivative(smoothingRadius, dist) * (smoothingRadius - dist)
            == -2.0 * SmoothingKernel(smoothingRadius, dist)
  {
    if dist < smoothingRadius {
      var h, u := smoothingRadius, smoothingRadius - dist;
      KernelSign(h, dist);
      var x := PI * Pow(h, 4);
      assert Pow(h, 4) * PI == x;
      assert 12.0 / x == 2.0 / (x / 6.0);
      assert (dist - h) * (12.0 / x) * u == -2.0 * (u * u / (x / 6.0));
    }
  }

  // ---------------------------------------------------------------------
  // Density and pressure over the returned list

  /** The sum the `foreach` of `CalculateDensity` accumulates over the
      list the query returned, duplicates included: each entry `x` adds
      `SmoothingKernel(h, |points[x] - center|) * mass`. With a
      non-negative mass it is never negative. */
  function DensityOf(visits: seq<nat>, points: seq<Vec2>, center: Vec2, smoothingRadius: real,
                     mass: real, magnitude: Vec2 -> real): (density: real)
    requires smoothingRadius != 0.0
    requires AllBelow(visits, |points|)
    ensures 0.0 <= mass ==> 0.0 <= density
    decreases |visits|
  {
    if visits == [] then 0.0
    else
      var last := visits[|visits| - 1];
      AllBelowSplit(visits, |points|);
      var influence := SmoothingKernel(smoothingRadius, magnitude(Sub(points[last], center)));
      MulNonNegative(influence, mass);
      DensityOf(visits[..|visits| - 1], points, center, smoothingRadius, mass, magnitude)
        + influence * mass
  }

  /** One more entry adds its kernel-weighted mass to the density. */
  lemma DensityAppend(visits: seq<nat>, x: nat, points: seq<Vec2>, center: Vec2,
                      smoothingRadius: real, mass: real, magnitude: Vec2 -> real, influence: real)
    requires smoothingRadius != 0.0 && AllBelow(visits, |points|) && x < |points|
    requires influence == SmoothingKernel(smoothingRadius, magnitude(Sub(points[x], center)))
    ensures AllBelow(visits + [x], |points|)
    ensures DensityOf(visits + [x], points, center, smoothingRadius, mass, magnitude)
         == DensityOf(visits, points, center, smoothingRadius, mass, magnitude) + influence * mass
  {
    AllBelowConcat(visits, [x], |points|);
    assert (visits + [x])[..|visits|] == visits;
  }

  /** How many times `x` is listed in `s`. */
  function Occurrences(s: seq<nat>, x: nat): (n: nat)
    ensures n <= |s|
  {
    if s == [] then 0
    else Occurrences(s[..|s| - 1], x) + (if s[|s| - 1] == x then 1 else 0)
  }

  /** `Occurrences` is the multiplicity in the multiset of the list. */
  lemma {:induction false} OccurrencesIsMultiplicity(s: seq<nat>, x: nat)
    ensures Occurrences(s, x) == multiset(s)[x]
    decreases |s|
  {
    if s != [] {
      var init := s[..|s| - 1];
      assert s == init + [s[|s| - 1]];
      OccurrencesIsMultiplicity(init, x);
    }
  }

  /** `n` copies of `term` added up. */
  function RepeatSum(n: nat, term: real): (sum: real)
    ensures 0.0 <= term ==> 0.0 <= sum
  {
    if n == 0 then 0.0 else RepeatSum(n - 1, term) + term
  }

  /** Duplicates count: a particle listed `m` times contributes its term
      `m` times, so the density is at least `m` copies of that term. */
  lemma {:induction false} DensityCountsRepeats(visits: seq<nat>, points: seq<Vec2>, center: Vec2,
                                                smoothingRadius: real, mass: real,
                                                magnitude: Vec2 -> real, i: nat, term: real)
    requires smoothingRadius != 0.0 && 0.0 <= mass
    requires AllBelow(visits, |points|) && i < |points|
    requires term == SmoothingKernel(smoothingRadius, magnitude(Sub(points[i], center))) * mass
    ensures DensityOf(visits, points, center, smoothingRadius, mass, magnitude)
            >= RepeatSum(Occurrences(visits, i), term)
    decreases |visits|
  {
    if visits != [] {
      var last: nat := visits[|visits| - 1];
      var init: seq<nat> := visits[..|visits| - 1];
      AllBelowSplit(visits, |points|);
      DensityCountsRepeats(init, points, center, smoothingRadius, mass, magnitude, i, term);
      var influence := SmoothingKernel(smoothingRadius, magnitude(Sub(points[last], center)));
      MulNonNegative(influence, mass);
      assert visits == init + [last];
      DensityAppend(init, last, points, center, smoothingRadius, mass, magnitude, influence);
      var added := influence * mass;
      if last == i {
        MulEqual(influence, SmoothingKernel(smoothingRadius, magnitude(Sub(points[i], center))),
                 mass);
      }
      assert Occurrences(visits, i) == Occurrences(init, i) + (if last == i then 1 else 0);
      CountStep(DensityOf(init, points, center, smoothingRadius, mass, magnitude),
                Occurrences(init, i), Occurrences(visits, i), term, added, last == i);
    }
  }

  lemma MulEqual(a: real, b: real, c: real)
    requires a == b
    ensures a * c == b * c
  {
  }

  /** The arithmetic step of `DensityCountsRepeats`: adding the counted
      term adds one copy, adding any other non-negative term keeps the
      bound. */
  lemma CountStep(d: real, c: nat, c2: nat, term: real, added: real, same: bool)
    requires d >= RepeatSum(c, term) && 0.0 <= added
    requires c2 == c + (if same then 1 else 0) && (same ==> added == term)
    ensures d + added >= RepeatSum(c2, term)
  {
  }

  /** At least six copies of a non-negative term are at least six times
      the term. */
  lemma {:induction false} RepeatSumAtLeast(n: nat, term: real)
    requires 6 <= n && 0.0 <= term
    ensures RepeatSum(n, term) >= 6.0 * term
  {
    if n > 6 {
      RepeatSumAtLeast(n - 1, term);
    } else {
      assert RepeatSum(6, term) == RepeatSum(5, term) + term;
      assert RepeatSum(5, term) == RepeatSum(4, term) + term;
      assert RepeatSum(4, term) == RepeatSum(3, term) + term;
      assert RepeatSum(3, term) == RepeatSum(2, term) + term;
      assert RepeatSum(2, term) == RepeatSum(1, term) + term;
      assert RepeatSum(1, term) == term;
    }
  }

  /** One listed particle strictly inside the kernel's support makes the
      density positive. */
  lemma {:induction false} DensityPositive(visits: seq<nat>, points: seq<Vec2>, center: Vec2,
                                           smoothingRadius: real, mass: real,
                                           magnitude: Vec2 -> real, i: nat)
    requires smoothingRadius != 0.0 && 0.0 < mass
    requires AllBelow(visits, |points|)
    requires i in visits && magnitude(Sub(points[i], center)) < smoothingRadius
    ensures DensityOf(visits, points, center, smoothingRadius, mass, magnitude) > 0.0
  {
    OccurrencesIsMultiplicity(visits, i);
    DensityCountsRepeats(visits, points, center, smoothingRadius, mass, magnitude, i,
                         SmoothingKernel(smoothingRadius, magnitude(Sub(points[i], center))) * mass);
    MulPositive(SmoothingKernel(smoothingRadius, magnitude(Sub(points[i], center))), mass);
    assert RepeatSum(Occurrences(visits, i),
                     SmoothingKernel(smoothingRadius, magnitude(Sub(points[i], center))) * mass)
        >= SmoothingKernel(smoothingRadius, magnitude(Sub(points[i], center))) * mass;
  }

  /** `PressureCoefficient * dir`: one neighbour's
      contribution to the harness's pressure force. */
  function PressureContribution(sharedPressure: real, slope: real, mass: real, density: real,
                                dir: Vec2): Vec2
    requires density != 0.0
  {
    Scale(PressureCoefficient(sharedPressure, slope, mass, density), dir)
  }

  /** `-sharedPressure * slope * mass / density`. */
  function PressureCoefficient(sharedPressure: real, slope: real, mass: real, density: real): real
    requires density != 0.0
  {
    -sharedPressure * slope * mass / density
  }

  /** The force one listed neighbour `x` adds in `CalculatePressureForce`:
      along the unit vector from `x` to the centre particle (a random
      direction when they coincide), scaled by minus the shared pressure,
      the kernel slope, the mass and the inverse of the neighbour's
      density. */
  function PressureTerm(points: seq<Vec2>, densities: seq<real>, centerIndex: nat, x: nat,
                        smoothingRadius: real, targetDensity: real, pressureMultiplier: real,
                        mass: real, magnitude: Vec2 -> real, randomDir: nat -> Vec2): Vec2
    requires smoothingRadius != 0.0 && |densities| == |points| && NonZero(densities)
    requires centerIndex < |points| && x < |points|
  {
    var offset := Sub(points[centerIndex], points[x]);
    var dist := magnitude(offset);
    var dir := if dist == 0.0 then randomDir(x) else Scale(1.0 / dist, offset);
    var slope := SmoothingKernelDerivative(smoothingRadius, dist);
    var density := densities[x];
    var sharedPressure := CalculateSharedPressure(density, densities[centerIndex], targetDensity,
                                                  pressureMultiplier);
    PressureContribution(sharedPressure, slope, mass, density, dir)
  }

  /** The sum the `foreach` of `CalculatePressureForce` accumulates over
      the returned list, skipping every entry equal to the centre particle
      and adding the term of every other entry, duplicates included. */
  function PressureForceOf(visits: seq<nat>, points: seq<Vec2>, densities: seq<real>,
                           centerIndex: nat, smoothingRadius: real, targetDensity: real,
                           pressureMultiplier: real, mass: real, magnitude: Vec2 -> real,
                           randomDir: nat -> Vec2): Vec2
    requires smoothingRadius != 0.0 && |densities| == |points| && NonZero(densities)
    requires centerIndex < |points| && AllBelow(visits, |points|)
    decreases |visits|
  {
    if visits == [] then Zero
    else
      var last := visits[|visits| - 1];
      AllBelowSplit(visits, |points|);
      var rest := PressureForceOf(visits[..|visits| - 1], points, densities, centerIndex,
                                  smoothingRadius, targetDensity, pressureMultiplier, mass,
                                  magnitude, randomDir);
      if last == centerIndex then rest
      else Add(rest, PressureTerm(points, densities, centerIndex, last, smoothingRadius,
                                  targetDensity, pressureMultiplier, mass, magnitude, randomDir))
  }

  /** One more entry of another particle adds its term to the force; an
      entry of the centre particle adds nothing. */
  lemma PressureAppend(visits: seq<nat>, x: nat, points: seq<Vec2>, densities: seq<real>,
                       centerIndex: nat, smoothingRadius: real, targetDensity: real,
                       pressureMultiplier: real, mass: real, magnitude: Vec2 -> real,
                       randomDir: nat -> Vec2)
    requires smoothingRadius != 0.0 && |densities| == |points| && NonZero(densities)
    requires centerIndex < |points| && AllBelow(visits, |points|) && x < |points|
    ensures AllBelow(visits + [x], |points|)
    ensures PressureForceOf(visits + [x], points, densities, centerIndex, smoothingRadius,
                            targetDensity, pressureMultiplier, mass, magnitude, randomDir)
         == if x == centerIndex
            then PressureForceOf(visits, points, densities, centerIndex, smoothingRadius,
                                 targetDensity, pressureMultiplier, mass, magnitude, randomDir)
            else Add(PressureForceOf(visits, points, densities, centerIndex, smoothingRadius,
                                     targetDensity, pressureMultiplier, mass, magnitude, randomDir),
                     PressureTerm(points, densities, centerIndex, x, smoothingRadius,
                                  targetDensity, pressureMultiplier, mass, magnitude, randomDir))
  {
    AllBelowConcat(visits, [x], |points|);
    assert (visits + [x])[..|visits|] == visits;
  }

  /** The pressure force ignores an entry of the centre particle itself,
      wherever it falls in the list: inserting one changes nothing. */
  lemma {:induction false} PressureSkipsSelf(before: seq<nat>, after: seq<nat>, points: seq<Vec2>,
                                             densities: seq<real>, centerIndex: nat,
                                             smoothingRadius: real, targetDensity: real,
                                             pressureMultiplier: real, mass: real,
                                             magnitude: Vec2 -> real, randomDir: nat -> Vec2)
    requires smoothingRadius != 0.0 && |densities| == |points| && NonZero(densities)
    requires centerIndex < |points| && AllBelow(before + after, |points|)
    ensures AllBelow(before + [centerIndex] + after, |points|)
    ensures PressureForceOf(before + [centerIndex] + after, points, densities, centerIndex,
                            smoothingRadius, targetDensity, pressureMultiplier, mass,
                            magnitude, randomDir)
         == PressureForceOf(before + after, points, densities, centerIndex, smoothingRadius,
                            targetDensity, pressureMultiplier, mass, magnitude, randomDir)
    decreases |after|
  {
    var with := before + [centerIndex] + after;
    AllBelowConcat(before, after, |points|);
    AllBelowConcat(before, [centerIndex], |points|);
    AllBelowConcat(before + [centerIndex], after, |points|);
    if after == [] {
      assert with[..|with| - 1] == before + after;
    } else {
      var init := after[..|after| - 1];
      AllBelowSplit(after, |points|);
      AllBelowConcat(before, init, |points|);
      assert (before + after)[..|before + after| - 1] == before + init;
      PressureSkipsSelf(before, init, points, densities, centerIndex, smoothingRadius,
                        targetDensity, pressureMultiplier, mass, magnitude, randomDir);
      assert with[..|with| - 1] == before + [centerIndex] + init;
    }
  }

  /** The harness's pressure is repulsive too, although it measures the
      offset the other way round and negates the coefficient: a neighbour
      strictly inside the support of a compressed pair pushes the centre
      particle away from itself, along `center - neighbour`. */
  lemma PressureRepels(points: seq<Vec2>, densities: seq<real>, centerIndex: nat, x: nat,
                       smoothingRadius: real, targetDensity: real, pressureMultiplier: real,
                       mass: real, magnitude: Vec2 -> real, randomDir: nat -> Vec2)
    requires smoothingRadius != 0.0 && |densities| == |points| && NonZero(densities)
    requires centerIndex < |points| && x < |points|
    requires 0.0 < mass && 0.0 < densities[x]
    requires CalculateSharedPressure(densities[x], densities[centerIndex], targetDensity,
                                     pressureMultiplier) > 0.0
    requires 0.0 < magnitude(Sub(points[centerIndex], points[x])) < smoothingRadius
    ensures exists c: real :: c > 0.0 &&
              PressureTerm(points, densities, centerIndex, x, smoothingRadius, targetDensity,
                           pressureMultiplier, mass, magnitude, randomDir)
              == Scale(c, Sub(points[centerIndex], points[x]))
  {
    PositiveCoefficient(CalculateSharedPressure(densities[x], densities[centerIndex],
                                                targetDensity, pressureMultiplier),
                        SmoothingKernelDerivative(smoothingRadius,
                                                  magnitude(Sub(points[centerIndex], points[x]))),
                        mass, densities[x]);
    ScaleAlong(PressureCoefficient(CalculateSharedPressure(densities[x], densities[centerIndex],
                                                           targetDensity, pressureMultiplier),
                                   SmoothingKernelDerivative(smoothingRadius,
                                                             magnitude(Sub(points[centerIndex], points[x]))),
                                   mass, densities[x]),
               magnitude(Sub(points[centerIndex], points[x])), Sub(points[centerIndex], points[x]));
  }

  /** Away from coincident particles the term is the contribution along
      the unit offset. */

  lemma PositiveCoefficient(a: real, b: real, m: real, d: real)
    requires 0.0 < a && b < 0.0 && 0.0 < m && 0.0 < d
    ensures PressureCoefficient(a, b, m, d) > 0.0
  {
    MulPositive(a, -b);
    MulPositive(a * -b, m);
    assert -a * b * m == a * -b * m;
  }

  /** A positive multiple of a unit vector along `v` is a positive multiple
      of `v`. */
  lemma ScaleAlong(k: real, dist: real, v: Vec2)
    requires 0.0 < k && 0.0 < dist
    ensures k / dist > 0.0 && Scale(k, Scale(1.0 / dist, v)) == Scale(k / dist, v)
  {
    assert k * (1.0 / dist * v.x) == k / dist * v.x;
    assert k * (1.0 / dist * v.y) == k / dist * v.y;
  }

  // ---------------------------------------------------------------------
  // The grid walk over the harness's offsets

  /** The density the query over `offsets` yields at particle `k`'s own
      position, measured on `points`. */
  function ParticleDensity(lookup: seq<Entry>, start: seq<int>, offsets: seq<Offset>,
                           points: seq<Vec2>, k: nat, smoothingRadius: real, mass: real,
                           magnitude: Vec2 -> real): real
    requires |start| == |lookup| > 0 && StartsNonNegative(start) && IndicesBelow(lookup, |points|)
    requires smoothingRadius != 0.0 && k < |points|
  {
    DensityOf(Visits(lookup, start, offsets, PositionToCellCoord(points[k], smoothingRadius),
                     points[k], points, Square(smoothingRadius)),
              points, points[k], smoothingRadius, mass, magnitude)
  }

  /** The pressure force the query over `offsets` yields on particle `k`. */
  function ParticlePressure(lookup: seq<Entry>, start: seq<int>, offsets: seq<Offset>,
                            points: seq<Vec2>, densities: seq<real>, k: nat,
                            smoothingRadius: real, targetDensity: real, pressureMultiplier: real,
                            mass: real, magnitude: Vec2 -> real, randomDir: nat -> Vec2): Vec2
    requires |start| == |lookup| > 0 && StartsNonNegative(start) && IndicesBelow(lookup, |points|)
    requires smoothingRadius != 0.0 && k < |points|
    requires |densities| == |points| && NonZero(densities)
  {
    PressureForceOf(Visits(lookup, start, offsets, PositionToCellCoord(points[k], smoothingRadius),
                           points[k], points, Square(smoothingRadius)),
                    points, densities, k, smoothingRadius, targetDensity, pressureMultiplier, mass,
                    magnitude, randomDir)
  }

  /** On a grid rebuilt from `points`, the density a query over offsets
      that include (0, 0) computes at a particle's own position is
      positive: the particle lists itself at distance 0. */
  lemma SelfDensityPositive(lookup: seq<Entry>, start: seq<int>, offsets: seq<Offset>,
                            points: seq<Vec2>, smoothingRadius: real, mass: real,
                            magnitude: Vec2 -> real, i: nat, t: nat)
    requires BuiltFrom(lookup, start, points, smoothingRadius) && 0.0 < smoothingRadius
    requires 0.0 < mass && magnitude(Zero) == 0.0 && i < |points|
    requires t < |offsets| && offsets[t] == (0, 0)
    ensures |start| == |lookup| > 0 && StartsNonNegative(start) && IndicesBelow(lookup, |points|)
    ensures ParticleDensity(lookup, start, offsets, points, i, smoothingRadius, mass, magnitude)
            > 0.0
  {
    SelfVisited(lookup, start, offsets, points, smoothingRadius, i, t);
    SelfInfluence(Visits(lookup, start, offsets, PositionToCellCoord(points[i], smoothingRadius),
                         points[i], points, Square(smoothingRadius)),
                  points, smoothingRadius, mass, magnitude, i);
  }

  lemma SelfInfluence(visits: seq<nat>, points: seq<Vec2>, smoothingRadius: real, mass: real,
                      magnitude: Vec2 -> real, i: nat)
    requires 0.0 < smoothingRadius && 0.0 < mass && magnitude(Zero) == 0.0
    requires AllBelow(visits, |points|) && i in visits
    ensures DensityOf(visits, points, points[i], smoothingRadius, mass, magnitude) > 0.0
  {
    SubSelf(points[i]);
    DensityPositive(visits, points, points[i], smoothingRadius, mass, magnitude, i);
  }

  /** Six of the harness's offsets are (0, 0): slots 2 and 4 to 8. */
  lemma HarnessCountsCentre(cell: (int, int), length: nat)
    requires length > 0
    ensures CountKey(HarnessOffsets(), cell, OffsetKey(cell, (0, 0), length), length) >= 6
  {
    var key := OffsetKey(cell, (0, 0), length);
    var s9 := HarnessOffsets();
    var s8 := [(-1, -1), (-1, 0), (0, 0), (0, -1), (0, 0), (0, 0), (0, 0), (0, 0)];
    var s7 := [(-1, -1), (-1, 0), (0, 0), (0, -1), (0, 0), (0, 0), (0, 0)];
    var s6 := [(-1, -1), (-1, 0), (0, 0), (0, -1), (0, 0), (0, 0)];
    var s5 := [(-1, -1), (-1, 0), (0, 0), (0, -1), (0, 0)];
    var s4 := [(-1, -1), (-1, 0), (0, 0), (0, -1)];
    var s3 := [(-1, -1), (-1, 0), (0, 0)];
    assert s9[..8] == s8 && s8[..7] == s7 && s7[..6] == s6 && s6[..5] == s5;
    assert s5[..4] == s4 && s4[..3] == s3;
    assert CountKey(s9, cell, key, length) == CountKey(s8, cell, key, length) + 1;
    assert CountKey(s8, cell, key, length) == CountKey(s7, cell, key, length) + 1;
    assert CountKey(s7, cell, key, length) == CountKey(s6, cell, key, length) + 1;
    assert CountKey(s6, cell, key, length) == CountKey(s5, cell, key, length) + 1;
    assert CountKey(s5, cell, key, length) == CountKey(s4, cell, key, length) + 1;
    assert CountKey(s4, cell, key, length) >= CountKey(s3, cell, key, length);
    assert CountKey(s3, cell, key, length) >= 1;
  }

  /** The as-written query lists every in-radius particle of the centre
      cell's key run at least six times: slots 2 and 4 to 8 of the
      harness's offsets all lead to the centre cell. */
  lemma HarnessRepeatsCentre(lookup: seq<Entry>, start: seq<int>, points: seq<Vec2>,
                             radius: real, center: Vec2, j: nat)
    requires BuiltFrom(lookup, start, points, radius) && j < |points|
    requires SqrMagnitude(Sub(points[j], center)) <= Square(radius)
    requires CellKey(points[j], radius, |points|) == CellKey(center, radius, |points|)
    ensures |start| == |lookup| > 0 && StartsNonNegative(start) && IndicesBelow(lookup, |points|)
    ensures multiset(Visits(lookup, start, HarnessOffsets(), PositionToCellCoord(center, radius),
                            center, points, Square(radius)))[j] >= 6
  {
    var cell := PositionToCellCoord(center, radius);
    var key := CellKey(points[j], radius, |points|);
    RunOfParticle(lookup, start, points, radius, center, Square(radius), j);
    ZeroOffsetKey(center, radius, |points|);
    HarnessCountsCentre(cell, |points|);
    VisitsMultiplicity(lookup, start, HarnessOffsets(), cell, center, points, Square(radius),
                       key, j);
  }

  /** In particular a particle is listed at least six times by the query
      around its own position. */
  lemma HarnessSelfCount(lookup: seq<Entry>, start: seq<int>, points: seq<Vec2>,
                         smoothingRadius: real, i: nat)
    requires BuiltFrom(lookup, start, points, smoothingRadius) && i < |points|
    ensures |start| == |lookup| > 0 && StartsNonNegative(start) && IndicesBelow(lookup, |points|)
    ensures Occurrences(Visits(lookup, start, HarnessOffsets(),
                               PositionToCellCoord(points[i], smoothingRadius), points[i],
                               points, Square(smoothingRadius)), i) >= 6
  {
    SubSelf(points[i]);
    SquareNonNegative(smoothingRadius);
    HarnessRepeatsCentre(lookup, start, points, smoothingRadius, points[i], i);
    OccurrencesIsMultiplicity(Visits(lookup, start, HarnessOffsets(),
                                     PositionToCellCoord(points[i], smoothingRadius), points[i],
                                     points, Square(smoothingRadius)), i);
  }

  /** Consequently the harness's density at a particle's own position
      counts the particle's own term `SmoothingKernel(h, 0) * mass` at
      least six times over. */
  lemma HarnessSelfDensity(lookup: seq<Entry>, start: seq<int>, points: seq<Vec2>,
                           smoothingRadius: real, mass: real, magnitude: Vec2 -> real, i: nat)
    requires BuiltFrom(lookup, start, points, smoothingRadius) && i < |points|
    requires 0.0 <= mass && magnitude(Zero) == 0.0
    ensures |start| == |lookup| > 0 && StartsNonNegative(start) && IndicesBelow(lookup, |points|)
    ensures ParticleDensity(lookup, start, HarnessOffsets(), points, i, smoothingRadius, mass,
                            magnitude)
            >= 6.0 * (SmoothingKernel(smoothingRadius, 0.0) * mass)
  {
    HarnessSelfCount(lookup, start, points, smoothingRadius, i);
    DensityOfRepeated(Visits(lookup, start, HarnessOffsets(),
                             PositionToCellCoord(points[i], smoothingRadius), points[i],
                             points, Square(smoothingRadius)),
                      points, smoothingRadius, mass, magnitude, i);
  }

  /** A particle listed at least six times in the list of its own query
      adds its own term at least six times. */
  lemma DensityOfRepeated(visits: seq<nat>, points: seq<Vec2>, smoothingRadius: real,
                          mass: real, magnitude: Vec2 -> real, i: nat)
    requires smoothingRadius != 0.0 && 0.0 <= mass && magnitude(Zero) == 0.0
    requires AllBelow(visits, |points|) && i < |points| && Occurrences(visits, i) >= 6
    ensures DensityOf(visits, points, points[i], smoothingRadius, mass, magnitude)
            >= 6.0 * (SmoothingKernel(smoothingRadius, 0.0) * mass)
  {
    SubSelf(points[i]);
    MulEqual(SmoothingKernel(smoothingRadius, magnitude(Sub(points[i], points[i]))),
             SmoothingKernel(smoothingRadius, 0.0), mass);
    DensityCountsRepeats(visits, points, points[i], smoothingRadius, mass, magnitude, i,
                         SmoothingKernel(smoothingRadius, 0.0) * mass);
    MulNonNegative(SmoothingKernel(smoothingRadius, 0.0), mass);
    RepeatSumAtLeast(Occurrences(visits, i), SmoothingKernel(smoothingRadius, 0.0) * mass);
  }

  /** Six particles, cell size 1: particle 0 at (0.5, 0.5) in cell (0, 0),
      particle 1 at (1.2, 0.5) in cell (1, 0), the other four on top of
      particle 0. */
  function MissedExample(): seq<Vec2>
  {
    [Vec2(0.5, 0.5), Vec2(1.2, 0.5), Vec2(0.5, 0.5), Vec2(0.5, 0.5), Vec2(0.5, 0.5),
     Vec2(0.5, 0.5)]
  }

  /** The harness's query misses a neighbour: in `MissedExample`, particle
      1 is 0.7 from particle 0, within the radius 1, but its cell (1, 0)
      has key 1 while the harness's offsets from cell (0, 0) only reach
      the keys 4, 3, 0 and 5; so the query at particle 0 never lists it,
      however the grid was sorted. The live solver's nine offsets do list
      it (`QueryComplete`). */
  lemma HarnessMissesNeighbour(lookup: seq<Entry>, start: seq<int>)
    requires BuiltFrom(lookup, start, MissedExample(), 1.0)
    ensures |start| == |lookup| > 0 && StartsNonNegative(start) && IndicesBelow(lookup, 6)
    ensures SqrMagnitude(Sub(MissedExample()[1], MissedExample()[0])) <= Square(1.0)
    ensures 1 !in Visits(lookup, start, HarnessOffsets(),
                         PositionToCellCoord(MissedExample()[0], 1.0), MissedExample()[0],
                         MissedExample(), Square(1.0))
    ensures 1 in Visits(lookup, start, FullOffsets(),
                        PositionToCellCoord(MissedExample()[0], 1.0), MissedExample()[0],
                        MissedExample(), Square(1.0))
  {
    MissedExampleGeometry();
    HarnessSkipsParticleOne(lookup, start);
    QueryComplete(lookup, start, MissedExample(), 1.0, MissedExample()[0], 1);
  }

  /** Particle 0 of `MissedExample` lies in cell (0, 0), particle 1 has
      key 1 in a table of length 6, and the two are 0.7 apart. */
  lemma MissedExampleGeometry()
    ensures PositionToCellCoord(MissedExample()[0], 1.0) == (0, 0)
    ensures CellKey(MissedExample()[1], 1.0, 6) == 1
    ensures SqrMagnitude(Sub(MissedExample()[1], MissedExample()[0])) <= Square(1.0)
  {
    assert PositionToCellCoord(MissedExample()[1], 1.0) == (1, 0);
    assert Sub(MissedExample()[1], MissedExample()[0]) == Vec2(0.7, 0.0);
  }

  /** No cell the harness's offsets reach from cell (0, 0) has key 1. */
  lemma HarnessKeysAvoidOne(t: nat)
    requires t < 9
    ensures OffsetKey((0, 0), HarnessOffsets()[t], 6) != 1
  {
    HarnessKeys();
    assert HarnessOffsets()[t] in [(-1, -1), (-1, 0), (0, -1), (0, 0)];
  }

  /** The harness's query around particle 0 never lists particle 1: it is
      filed under key 1, and no visited cell has that key. */
  lemma HarnessSkipsParticleOne(lookup: seq<Entry>, start: seq<int>)
    requires BuiltFrom(lookup, start, MissedExample(), 1.0)
    ensures |start| == |lookup| > 0 && StartsNonNegative(start) && IndicesBelow(lookup, 6)
    ensures 1 !in Visits(lookup, start, HarnessOffsets(),
                         PositionToCellCoord(MissedExample()[0], 1.0), MissedExample()[0],
                         MissedExample(), Square(1.0))
  {
    BuiltFromWellFormed(lookup, start, MissedExample(), 1.0);
    MissedExampleGeometry();
    if 1 in Visits(lookup, start, HarnessOffsets(), (0, 0), MissedExample()[0], MissedExample(),
                   Square(1.0)) {
      VisitsOrigin(lookup, start, HarnessOffsets(), (0, 0), MissedExample()[0], MissedExample(),
                   Square(1.0), 1);
      var t, p :| 0 <= t < 9 && 0 <= p < |lookup| && lookup[p].index == 1
                  && lookup[p].key == OffsetKey((0, 0), HarnessOffsets()[t], 6);
      HarnessKeysAvoidOne(t);
      assert false;
    }
  }

  /** The keys of the harness's offset cells around cell (0, 0), in a
      table of length 6; negative coordinates wrap under the `uint` cast. */
  lemma HarnessKeys()
    ensures OffsetKey((0, 0), (-1, -1), 6) == 4
    ensures OffsetKey((0, 0), (-1, 0), 6) == 3
    ensures OffsetKey((0, 0), (0, -1), 6) == 5
    ensures OffsetKey((0, 0), (0, 0), 6) == 0
  {
    assert ToUInt(-1) == UIntMax && ToUInt(0) == 0;
    DivModUnique(UIntMax * HashX, 15822, 4294951473, U32);
    DivModUnique(UIntMax * HashY, 9737332, 4285229963, U32);
    DivModUnique(4294951473 + 4285229963, 1, 4285214140, U32);
    DivModUnique(4294951473, 0, 4294951473, U32);
    DivModUnique(4285229963, 0, 4285229963, U32);
    assert HashCell(-1, -1) == 4285214140;
    assert HashCell(-1, 0) == 4294951473;
    assert HashCell(0, -1) == 4285229963;
    DivModUnique(4285214140, 714202356, 4, 6);
    DivModUnique(4294951473, 715825245, 3, 6);
    DivModUnique(4285229963, 714204993, 5, 6);
  }

  /** Every entry of `densities` is the harness's grid density at its
      particle's own position on `points`. */
  predicate MeasuredDensities(lookup: seq<Entry>, start: seq<int>, points: seq<Vec2>,
                              densities: seq<real>, smoothingRadius: real, mass: real,
                              magnitude: Vec2 -> real)
  {
    && |densities| == |points| == |lookup| == |start| && smoothingRadius != 0.0
    && StartsNonNegative(start) && IndicesBelow(lookup, |points|)
    && forall i :: 0 <= i < |points| ==>
         densities[i] == ParticleDensity(lookup, start, HarnessOffsets(), points, i,
                                         smoothingRadius, mass, magnitude)
  }

  /** Every density counts its particle's own term at least six times and
      is positive. */
  predicate SelfCounted(densities: seq<real>, smoothingRadius: real, mass: real)
    requires 0.0 < smoothingRadius
  {
    forall i :: 0 <= i < |densities| ==>
      densities[i] >= 6.0 * (SmoothingKernel(smoothingRadius, 0.0) * mass) && densities[i] > 0.0
  }

  /** The densities the harness's density phase writes on a grid rebuilt
      from the same positions: each counts its own particle's term at
      least six times, so none is zero and the pressure phase may divide
      by them. */
  lemma HarnessDensitiesPositive(lookup: seq<Entry>, start: seq<int>, points: seq<Vec2>,
                                 densities: seq<real>, smoothingRadius: real, mass: real,
                                 magnitude: Vec2 -> real)
    requires BuiltFrom(lookup, start, points, smoothingRadius)
    requires 0.0 < smoothingRadius && 0.0 < mass && magnitude(Zero) == 0.0
    requires MeasuredDensities(lookup, start, points, densities, smoothingRadius, mass, magnitude)
    ensures NonZero(densities) && SelfCounted(densities, smoothingRadius, mass)
  {
    forall i | 0 <= i < |points|
      ensures densities[i] >= 6.0 * (SmoothingKernel(smoothingRadius, 0.0) * mass)
      ensures densities[i] > 0.0
    {
      HarnessSelfDensity(lookup, start, points, smoothingRadius, mass, magnitude, i);
      SelfDensityPositive(lookup, start, HarnessOffsets(), points, smoothingRadius, mass,
                          magnitude, i, 2);
    }
  }

  // ---------------------------------------------------------------------
  // The loops of the harness

  /** The `foreach` of `CalculateDensity` over the list the query
      returned: for each listed index, the kernel of its distance to
      `point` times the mass. */
  method SumDensity(particleIndices: seq<nat>, points: seq<Vec2>, point: Vec2,
                    smoothingRadius: real, mass: real, magnitude: Vec2 -> real)
    returns (density: real)
    requires smoothingRadius != 0.0 && AllBelow(particleIndices, |points|)
    ensures density == DensityOf(particleIndices, points, point, smoothingRadius, mass, magnitude)
  {
    density := 0.0;
    for k := 0 to |particleIndices|
      invariant AllBelow(particleIndices[..k], |points|)
      invariant density == DensityOf(particleIndices[..k], points, point, smoothingRadius, mass,
                                     magnitude)
    {
      var ind := particleIndices[k];
      assert ind in particleIndices;
      var pos := points[ind];
      var dist := magnitude(Sub(pos, point));
      var influence := SmoothingKernel(smoothingRadius, dist);
      DensityAppend(particleIndices[..k], ind, points, point, smoothingRadius, mass, magnitude,
                    influence);
      assert particleIndices[..k + 1] == particleIndices[..k] + [ind];
      density := density + influence * mass;
    }
    assert particleIndices[..|particleIndices|] == particleIndices;
  }

  /** The `foreach` of `CalculatePressureForce` over the list the query
      returned: an entry equal to `particleIndex` is skipped (`continue`),
      every other entry adds its pressure contribution. */
  method SumPressure(particleIndices: seq<nat>, points: seq<Vec2>, densities: seq<real>,
                     particleIndex: nat, smoothingRadius: real, targetDensity: real,
                     pressureMultiplier: real, mass: real, magnitude: Vec2 -> real,
                     randomDir: nat -> Vec2)
    returns (pressureForce: Vec2)
    requires smoothingRadius != 0.0 && |densities| == |points| && NonZero(densities)
    requires particleIndex < |points| && AllBelow(particleIndices, |points|)
    ensures pressureForce == PressureForceOf(particleIndices, points, densities, particleIndex,
                                             smoothingRadius, targetDensity, pressureMultiplier,
                                             mass, magnitude, randomDir)
  {
    pressureForce := Zero;
    var currentDensity := densities[particleIndex];
    for k := 0 to |particleIndices|
      invariant AllBelow(particleIndices[..k], |points|)
      invariant pressureForce == PressureForceOf(particleIndices[..k], points, densities,
                                                 particleIndex, smoothingRadius, targetDensity,
                                                 pressureMultiplier, mass, magnitude, randomDir)
    {
      var i := particleIndices[k];
      assert i in particleIndices;
      PressureAppend(particleIndices[..k], i, points, densities, particleIndex, smoothingRadius,
                     targetDensity, pressureMultiplier, mass, magnitude, randomDir);
      assert particleIndices[..k + 1] == particleIndices[..k] + [i];
      if i == particleIndex {
        continue;
      }
      var offset := Sub(points[particleIndex], points[i]);
      var dist := magnitude(offset);
      var dir := if dist == 0.0 then randomDir(i) else Scale(1.0 / dist, offset);
      var slope := SmoothingKernelDerivative(smoothingRadius, dist);
      var density := densities[i];
      var sharedPressure := CalculateSharedPressure(density, currentDensity, targetDensity,
                                                    pressureMultiplier);
      pressureForce := Add(pressureForce,
                           PressureContribution(sharedPressure, slope, mass, density, dir));
    }
    assert particleIndices[..|particleIndices|] == particleIndices;
  }

  /** `CalculateDensity(point)`: the query's list, then the sum over it. */
  method GridDensity(spatialLookup: array<Entry>, startIndices: array<int>,
                     cellOffsets: array<Offset>, point: Vec2, points: seq<Vec2>,
                     smoothingRadius: real, mass: real, magnitude: Vec2 -> real)
    returns (density: real)
    requires spatialLookup.Length == startIndices.Length == |points| > 0
    requires smoothingRadius != 0.0
    requires StartsNonNegative(startIndices[..]) && IndicesBelow(spatialLookup[..], |points|)
    ensures density == DensityOf(Visits(spatialLookup[..], startIndices[..], cellOffsets[..],
                                        PositionToCellCoord(point, smoothingRadius), point,
                                        points, Square(smoothingRadius)),
                                 points, point, smoothingRadius, mass, magnitude)
  {
    var particleIndices := SpatialLookup.ForeachPointWithinRadius(spatialLookup, startIndices,
                                                                  cellOffsets, point, points,
                                                                  smoothingRadius);
    density := SumDensity(particleIndices, points, point, smoothingRadius, mass, magnitude);
  }

  /** `CalculatePressureForce(particleIndex)`: the query's list around the
      particle, then the sum over it. */
  method GridPressure(spatialLookup: array<Entry>, startIndices: array<int>,
                      cellOffsets: array<Offset>, particleIndex: nat, points: seq<Vec2>,
                      densities: seq<real>, smoothingRadius: real, targetDensity: real,
                      pressureMultiplier: real, mass: real, magnitude: Vec2 -> real,
                      randomDir: nat -> Vec2)
    returns (pressureForce: Vec2)
    requires spatialLookup.Length == startIndices.Length == |points| == |densities|
    requires smoothingRadius != 0.0 && NonZero(densities) && particleIndex < |points|
    requires StartsNonNegative(startIndices[..]) && IndicesBelow(spatialLookup[..], |points|)
    ensures pressureForce == ParticlePressure(spatialLookup[..], startIndices[..], cellOffsets[..],
                                              points, densities, particleIndex, smoothingRadius,
                                              targetDensity, pressureMultiplier, mass, magnitude,
                                              randomDir)
  {
    var particleIndices := SpatialLookup.ForeachPointWithinRadius(spatialLookup, startIndices,
                                                                  cellOffsets, points[particleIndex],
                                                                  points, smoothingRadius);
    pressureForce := SumPressure(particleIndices, points, densities, particleIndex,
                                 smoothingRadius, targetDensity, pressureMultiplier, mass,
                                 magnitude, randomDir);
  }

  /** The gravity phase of `SimulationStep`. */
  method GravityPhase(velocities: array<Vec2>, gravity: real, deltaTime: real)
    modifies velocities
    ensures forall i :: 0 <= i < velocities.Length ==>
              velocities[i] == Fall(old(velocities[i]), gravity, deltaTime)
  {
    for i := 0 to velocities.Length
      invariant forall k :: 0 <= k < i ==>
                  velocities[k] == Fall(old(velocities[k]), gravity, deltaTime)
      invariant forall k :: i <= k < velocities.Length ==> velocities[k] == old(velocities[k])
    {
      velocities[i] := Fall(velocities[i], gravity, deltaTime);
    }
  }

  /** The density phase of `SimulationStep`: every particle's density at
      its current position. */
  method DensityPhase(spatialLookup: array<Entry>, startIndices: array<int>,
                      cellOffsets: array<Offset>, points: array<Vec2>, densities: array<real>,
                      smoothingRadius: real, mass: real, magnitude: Vec2 -> real)
    requires spatialLookup.Length == startIndices.Length == points.Length == densities.Length
    requires smoothingRadius != 0.0
    requires StartsNonNegative(startIndices[..]) && IndicesBelow(spatialLookup[..], points.Length)
    modifies densities
    ensures forall i :: 0 <= i < densities.Length ==>
              densities[i] == ParticleDensity(spatialLookup[..], startIndices[..], cellOffsets[..],
                                              points[..], i, smoothingRadius, mass, magnitude)
  {
    for i := 0 to densities.Length
      invariant forall k :: 0 <= k < i ==>
                  densities[k] == ParticleDensity(spatialLookup[..], startIndices[..], cellOffsets[..],
                                                  points[..], k, smoothingRadius, mass, magnitude)
    {
      var density := GridDensity(spatialLookup, startIndices, cellOffsets, points[i], points[..],
                                 smoothingRadius, mass, magnitude);
      densities[i] := density;
    }
  }

  /** The pressure phase of `SimulationStep`: each velocity gains the
      pressure force divided by the particle's density, times the step. */
  method PressurePhase(spatialLookup: array<Entry>, startIndices: array<int>,
                       cellOffsets: array<Offset>, points: array<Vec2>, densities: array<real>,
                       velocities: array<Vec2>, smoothingRadius: real, targetDensity: real,
                       pressureMultiplier: real, mass: real, deltaTime: real,
                       magnitude: Vec2 -> real, randomDir: nat -> Vec2)
    requires spatialLookup.Length == startIndices.Length == points.Length == densities.Length
    requires velocities.Length == points.Length && velocities != points
    requires smoothingRadius != 0.0 && NonZero(densities[..])
    requires StartsNonNegative(startIndices[..]) && IndicesBelow(spatialLookup[..], points.Length)
    modifies velocities
    ensures forall i :: 0 <= i < velocities.Length ==>
              velocities[i] == Push(old(velocities[i]), deltaTime,
                                    ParticlePressure(spatialLookup[..], startIndices[..], cellOffsets[..], points[..], densities[..], i, smoothingRadius, targetDensity, pressureMultiplier, mass, magnitude, randomDir),
                                    densities[i])
  {
    for i := 0 to velocities.Length
      invariant forall k :: 0 <= k < i ==>
                  velocities[k] == Push(old(velocities[k]), deltaTime,
                                        ParticlePressure(spatialLookup[..], startIndices[..], cellOffsets[..], points[..], densities[..], k, smoothingRadius, targetDensity, pressureMultiplier, mass, magnitude, randomDir),
                                        densities[k])
      invariant forall k :: i <= k < velocities.Length ==> velocities[k] == old(velocities[k])
    {
      var pressureForce := GridPressure(spatialLookup, startIndices, cellOffsets, i, points[..],
                                        densities[..], smoothingRadius, targetDensity,
                                        pressureMultiplier, mass, magnitude, randomDir);
      var pressureAcceleration := PressureAcceleration(pressureForce, densities[i]);
      velocities[i] := Add(velocities[i], Scale(deltaTime, pressureAcceleration));
    }
  }

  // ---------------------------------------------------------------------
  // The harness object

  /** `TestGridAndParticles`: the particle arrays, the grid buffers and
      the parameters the inspector sets. */
  class TestGridAndParticles {
    var numParticles: nat
    var particleSize: real
    var collisionDamping: real
    var gravity: real
    var boundsSize: Vec2
    var smoothingRadius: real
    var mass: real
    var targetDensity: real
    var pressureMultiplier: real

    var positions: array<Vec2>
    var velocities: array<Vec2>
    var densities: array<real>
    var startIndices: array<int>
    var spatialLookup: array<Entry>
    var cellOffsets: array<Offset>

    /** The state `Start` sets up and every method keeps: one slot per
        particle in each array, the four written offsets and five (0, 0)
        defaults, and a grid whose start table and particle indices are in
        range. */
    predicate Valid()
      reads this, cellOffsets, startIndices, spatialLookup
    {
      && positions.Length == numParticles && velocities.Length == numParticles
      && densities.Length == numParticles && startIndices.Length == numParticles
      && spatialLookup.Length == numParticles && numParticles <= IntMax
      && positions != velocities
      && cellOffsets[..] == HarnessOffsets()
      && StartsNonNegative(startIndices[..]) && IndicesBelow(spatialLookup[..], numParticles)
    }

    /** `Start`: allocate the arrays with C#'s default values, run the
        offset loops as written (only `i, j` in {0, 1}), and place the
        particles. The inspector fields are the constructor's parameters
        and the random spawner's positions are `spawnPositions`. */
    constructor (numParticles: nat, particleSize: real, collisionDamping: real, gravity: real,
                 boundsSize: Vec2, smoothingRadius: real, mass: real, targetDensity: real,
                 pressureMultiplier: real, spawnPositions: seq<Vec2>)
      requires numParticles <= IntMax && numParticles <= |spawnPositions|
      ensures Valid()
      ensures this.numParticles == numParticles && this.particleSize == particleSize
      ensures this.collisionDamping == collisionDamping && this.gravity == gravity
      ensures this.boundsSize == boundsSize && this.smoothingRadius == smoothingRadius
      ensures this.mass == mass && this.targetDensity == targetDensity
      ensures this.pressureMultiplier == pressureMultiplier
      ensures positions[..] == spawnPositions[..numParticles]
      ensures forall i :: 0 <= i < numParticles ==> velocities[i] == Zero && densities[i] == 0.0
      ensures fresh(positions) && fresh(velocities) && fresh(densities)
      ensures fresh(startIndices) && fresh(spatialLookup) && fresh(cellOffsets)
    {
      var offsets := new Offset[9](_ => (0, 0));
      FillHarnessOffsets(offsets);
      this.numParticles := numParticles;
      this.particleSize := particleSize;
      this.collisionDamping := collisionDamping;
      this.gravity := gravity;
      this.boundsSize := boundsSize;
      this.smoothingRadius := smoothingRadius;
      this.mass := mass;
      this.targetDensity := targetDensity;
      this.pressureMultiplier := pressureMultiplier;
      positions := new Vec2[numParticles](i requires 0 <= i < numParticles => spawnPositions[i]);
      velocities := new Vec2[numParticles](_ => Zero);
      densities := new real[numParticles](_ => 0.0);
      startIndices := new int[numParticles](_ => 0);
      spatialLookup := new Entry[numParticles](_ => Entry(0, 0));
      cellOffsets := offsets;
      new;
      assert positions[..] == spawnPositions[..numParticles];
    }

    /** `UpdateSpatialLookup()`: rebuild the grid from the current
        positions. */
    method UpdateSpatialLookup()
      requires Valid() && smoothingRadius != 0.0
      modifies spatialLookup, startIndices
      ensures Valid()
      ensures BuiltFrom(spatialLookup[..], startIndices[..], positions[..], smoothingRadius)
    {
      SpatialLookup.UpdateSpatialLookup(spatialLookup, startIndices, positions[..],
                                        smoothingRadius);
      BuiltFromWellFormed(spatialLookup[..], startIndices[..], positions[..], smoothingRadius);
    }

    /** `ForeachPointWithinRadius(centerPoint)`: the list of the indices
        found, in order, duplicates included. */
    method ForeachPointWithinRadius(centerPoint: Vec2) returns (particleIndices: seq<nat>)
      requires Valid() && 0 < numParticles && smoothingRadius != 0.0
      ensures particleIndices == Visits(spatialLookup[..], startIndices[..], HarnessOffsets(),
                                        PositionToCellCoord(centerPoint, smoothingRadius),
                                        centerPoint, positions[..], Square(smoothingRadius))
    {
      particleIndices := SpatialLookup.ForeachPointWithinRadius(spatialLookup, startIndices,
                                                                cellOffsets, centerPoint,
                                                                positions[..], smoothingRadius);
    }

    /** The density the harness's grid yields at `point`. */
    function DensityAt(point: Vec2, magnitude: Vec2 -> real): real
      reads this, positions, cellOffsets, startIndices, spatialLookup
      requires Valid() && 0 < numParticles && smoothingRadius != 0.0
    {
      DensityOf(Visits(spatialLookup[..], startIndices[..], HarnessOffsets(),
                       PositionToCellCoord(point, smoothingRadius), point, positions[..],
                       Square(smoothingRadius)),
                positions[..], point, smoothingRadius, mass, magnitude)
    }

    /** `CalculateDensity(point)`. */
    method CalculateDensity(point: Vec2, magnitude: Vec2 -> real) returns (density: real)
      requires Valid() && 0 < numParticles && smoothingRadius != 0.0
      ensures density == DensityAt(point, magnitude)
    {
      density := GridDensity(spatialLookup, startIndices, cellOffsets, point, positions[..],
                             smoothingRadius, mass, magnitude);
    }

    /** `CalculatePressureForce(particleIndex)`. */
    method CalculatePressureForce(particleIndex: nat, magnitude: Vec2 -> real,
                                  randomDir: nat -> Vec2)
      returns (pressureForce: Vec2)
      requires Valid() && smoothingRadius != 0.0 && particleIndex < numParticles
      requires NonZero(densities[..])
      ensures pressureForce == ParticlePressure(spatialLookup[..], startIndices[..],
                                                HarnessOffsets(), positions[..], densities[..],
                                                particleIndex, smoothingRadius, targetDensity,
                                                pressureMultiplier, mass, magnitude, randomDir)
    {
      pressureForce := GridPressure(spatialLookup, startIndices, cellOffsets, particleIndex,
                                    positions[..], densities[..], smoothingRadius, targetDensity,
                                    pressureMultiplier, mass, magnitude, randomDir);
    }

    /** The gravity phase of `SimulationStep`. */
    method ApplyGravity(deltaTime: real)
      requires Valid()
      modifies velocities
      ensures forall i :: 0 <= i < numParticles ==>
                velocities[i] == Fall(old(velocities[i]), gravity, deltaTime)
    {
      GravityPhase(velocities, gravity, deltaTime);
    }

    /** The density phase of `SimulationStep`: every particle's density at
        its current position. */
    method ComputeDensities(magnitude: Vec2 -> real)
      requires Valid() && smoothingRadius != 0.0
      modifies densities
      ensures forall i :: 0 <= i < numParticles ==>
                densities[i] == ParticleDensity(spatialLookup[..], startIndices[..],
                                                HarnessOffsets(), positions[..], i,
                                                smoothingRadius, mass, magnitude)
    {
      DensityPhase(spatialLookup, startIndices, cellOffsets, positions, densities,
                   smoothingRadius, mass, magnitude);
    }

    /** The pressure phase of `SimulationStep`. */
    method ApplyPressure(deltaTime: real, magnitude: Vec2 -> real, randomDir: nat -> Vec2)
      requires Valid() && smoothingRadius != 0.0 && NonZero(densities[..])
      modifies velocities
      ensures forall i :: 0 <= i < numParticles ==>
                velocities[i] == Push(old(velocities[i]), deltaTime,
                                      ParticlePressure(spatialLookup[..], startIndices[..],
                                                       HarnessOffsets(), positions[..],
                                                       densities[..], i, smoothingRadius,
                                                       targetDensity, pressureMultiplier, mass,
                                                       magnitude, randomDir),
                                      densities[i])
    {
      PressurePhase(spatialLookup, startIndices, cellOffsets, positions, densities, velocities,
                    smoothingRadius, targetDensity, pressureMultiplier, mass, deltaTime,
                    magnitude, randomDir);
    }

    /** The last phase of `SimulationStep`. */
    method Integrate(deltaTime: real)
      requires Valid()
      modifies positions, velocities
      ensures forall i :: 0 <= i < numParticles ==>
                (positions[i], velocities[i])
                == Move(old(positions[i]), old(velocities[i]), deltaTime, HalfBoundsSize(boundsSize, particleSize), collisionDamping)
    {
      IntegratePhase(positions, velocities, HalfBoundsSize(boundsSize, particleSize),
                     collisionDamping, deltaTime);
    }

    /** The first half of `SimulationStep`: gravity on every velocity, the
        grid rebuilt from the positions, and every density measured on
        them; each density counts its own particle's term at least six
        times. */
    method FallAndMeasure(deltaTime: real, magnitude: Vec2 -> real)
      requires Valid() && 0.0 < smoothingRadius && 0.0 < mass && magnitude(Zero) == 0.0
      modifies velocities, spatialLookup, startIndices, densities
      ensures Valid()
      ensures BuiltFrom(spatialLookup[..], startIndices[..], positions[..], smoothingRadius)
      ensures MeasuredDensities(spatialLookup[..], startIndices[..], positions[..],
                                densities[..], smoothingRadius, mass, magnitude)
      ensures NonZero(densities[..]) && SelfCounted(densities[..], smoothingRadius, mass)
      ensures forall i :: 0 <= i < numParticles ==>
                velocities[i] == Fall(old(velocities[i]), gravity, deltaTime)
    {
      ghost var points := positions[..];
      ApplyGravity(deltaTime);
      assert positions[..] == points;
      UpdateSpatialLookup();
      ComputeDensities(magnitude);
      assert MeasuredDensities(spatialLookup[..], startIndices[..], points, densities[..],
                               smoothingRadius, mass, magnitude);
      HarnessDensitiesPositive(spatialLookup[..], startIndices[..], points, densities[..],
                               smoothingRadius, mass, magnitude);
    }

    /** The second half of `SimulationStep`: every velocity gains the
        pressure acceleration, then every particle moves and is resolved
        against the walls. */
    method PushAndMove(deltaTime: real, magnitude: Vec2 -> real, randomDir: nat -> Vec2)
      requires Valid() && smoothingRadius != 0.0 && NonZero(densities[..])
      modifies positions, velocities
      ensures forall i :: 0 <= i < numParticles ==>
                (positions[i], velocities[i])
                == Move(old(positions[i]),
                        Push(old(velocities[i]), deltaTime,
                             ParticlePressure(spatialLookup[..], startIndices[..],
                                              HarnessOffsets(), old(positions[..]),
                                              densities[..], i, smoothingRadius, targetDensity,
                                              pressureMultiplier, mass, magnitude, randomDir),
                             densities[i]),
                        deltaTime, HalfBoundsSize(boundsSize, particleSize), collisionDamping)
    {
      ApplyPressure(deltaTime, magnitude, randomDir);
      Integrate(deltaTime);
    }

    /** `SimulationStep(deltaTime)`: the four phases in order. Afterwards
        the grid is the one built from the positions the step started
        from; every density is the grid's at that position and counts the
        particle's own term at least six times; every particle has been
        advanced by gravity, the pressure acceleration of that grid and
        those densities, the move and the wall collision; and every
        particle is inside the box. */
    method SimulationStep(deltaTime: real, magnitude: Vec2 -> real, randomDir: nat -> Vec2)
      requires Valid() && 0.0 < smoothingRadius && 0.0 < mass && magnitude(Zero) == 0.0
      modifies positions, velocities, spatialLookup, startIndices, densities
      ensures Valid()
      ensures BuiltFrom(spatialLookup[..], startIndices[..], old(positions[..]), smoothingRadius)
      ensures MeasuredDensities(spatialLookup[..], startIndices[..], old(positions[..]),
                                densities[..], smoothingRadius, mass, magnitude)
      ensures NonZero(densities[..]) && SelfCounted(densities[..], smoothingRadius, mass)
      ensures forall i :: 0 <= i < numParticles ==>
                (positions[i], velocities[i])
                == Advance(old(positions[i]), old(velocities[i]),
                           ParticlePressure(spatialLookup[..], startIndices[..], HarnessOffsets(),
                                            old(positions[..]), densities[..], i,
                                            smoothingRadius, targetDensity, pressureMultiplier,
                                            mass, magnitude, randomDir),
                           densities[i], gravity, deltaTime,
                           HalfBoundsSize(boundsSize, particleSize), collisionDamping)
      ensures forall i :: 0 <= i < numParticles && 0.0 <= HalfBoundsSize(boundsSize, particleSize).x
                ==> Abs(positions[i].x) <= HalfBoundsSize(boundsSize, particleSize).x
      ensures forall i :: 0 <= i < numParticles && 0.0 <= HalfBoundsSize(boundsSize, particleSize).y
                ==> Abs(positions[i].y) <= HalfBoundsSize(boundsSize, particleSize).y
    {
      ghost var points := positions[..];
      FallAndMeasure(deltaTime, magnitude);
      assert positions[..] == points;
      ghost var lookup, start, measured := spatialLookup[..], startIndices[..], densities[..];
      PushAndMove(deltaTime, magnitude, randomDir);
      assert spatialLookup[..] == lookup && startIndices[..] == start && densities[..] == measured;
    }
  }
}
