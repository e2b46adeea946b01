/** The sort-based spatial hash grid shared by both solvers: an `Entry`
    buffer sorted by cell key, the first-of-run `startIndices` table, and
    the scan of the key runs of the neighbour cells around a query point.
    The methods work in place on the arrays the solver classes own. */
module SpatialLookup {
  import opened Geometry
  import opened CellHash

  /** One particle's slot in the lookup buffer. */
  datatype Entry = Entry(index: int, key: u32)

  type Offset = (int, int)

  predicate SortedByKey(s: seq<Entry>)
  {
    forall i, j :: 0 <= i < j < |s| ==> s[i].key <= s[j].key
  }

  /** The unsorted buffer the rebuild starts from: particle `i` tagged with
      the key of the cell `points[i]` lies in. Every particle index and
      every key is below N, and no particle index occurs twice. */
  function Tagged(points: seq<Vec2>, radius: real): (t: seq<Entry>)
    requires radius != 0.0
    ensures |t| == |points|
    ensures forall i :: 0 <= i < |t| ==>
              t[i] == Entry(i, CellKey(points[i], radius, |points|))
    ensures IndicesBelow(t, |points|) && KeysBelow(t, |points|)
    ensures forall i, j :: 0 <= i < j < |t| ==> t[i].index != t[j].index
  {
    seq(|points|, i requires 0 <= i < |points| =>
      Entry(i, CellKey(points[i], radius, |points|)))
  }

  /** `start` is the first-of-run table of `lookup`: a key present in the
      buffer maps to the first position holding it, any other key to
      `int.MaxValue`. Only the first `done` positions are taken into
      account, so that the table can be described while it is filled. */
  predicate StartTableUpTo(lookup: seq<Entry>, start: seq<int>, done: int)
    requires 0 <= done <= |lookup|
  {
    && |start| == |lookup|
    && forall k :: 0 <= k < |start| ==>
         || (start[k] == IntMax && forall p :: 0 <= p < done ==> lookup[p].key != k)
         || (&& 0 <= start[k] < done
             && lookup[start[k]].key == k
             && forall q :: 0 <= q < start[k] ==> lookup[q].key != k)
  }

  predicate StartTable(lookup: seq<Entry>, start: seq<int>)
  {
    StartTableUpTo(lookup, start, |lookup|)
  }

  /** What `UpdateSpatialLookup(points)` leaves behind: the buffer is a
      key-sorted permutation of `Tagged(points)` and `start` is its
      first-of-run table. */
  predicate BuiltFrom(lookup: seq<Entry>, start: seq<int>, points: seq<Vec2>, radius: real)
  {
    && radius != 0.0
    && |lookup| == |points|
    && SortedByKey(lookup)
    && multiset(lookup) == multiset(Tagged(points, radius))
    && StartTable(lookup, start)
  }

  /** Every particle index in the buffer is a valid index into `filter`. */
  predicate IndicesBelow(lookup: seq<Entry>, bound: int)
  {
    forall p :: 0 <= p < |lookup| ==> 0 <= lookup[p].index < bound
  }

  predicate KeysBelow(lookup: seq<Entry>, bound: int)
  {
    forall p :: 0 <= p < |lookup| ==> lookup[p].key < bound
  }

  /** Every visited index is below `bound`. */
  predicate AllBelow(s: seq<nat>, bound: int)
  {
    forall x :: x in s ==> x < bound
  }

  /** A non-empty visit sequence splits into its prefix and last visit,
      both below the bound. */
  lemma AllBelowSplit(s: seq<nat>, bound: int)
    requires AllBelow(s, bound) && |s| > 0
    ensures AllBelow(s[..|s| - 1], bound) && s[|s| - 1] < bound
  {
    var init := s[..|s| - 1];
    forall x | x in init ensures x < bound {
      var k :| 0 <= k < |init| && init[k] == x;
      assert s[k] == x && s[k] in s;
    }
    assert s[|s| - 1] in s;
  }

  lemma AllBelowConcat(a: seq<nat>, b: seq<nat>, bound: int)
    ensures AllBelow(a + b, bound) <==> AllBelow(a, bound) && AllBelow(b, bound)
  {
    assert forall x :: x in a + b <==> x in a || x in b;
  }

  predicate StartsNonNegative(start: seq<int>)
  {
    forall k :: 0 <= k < |start| ==> 0 <= start[k]
  }

  /** The indices one key run yields: starting at position `i`, every entry
      while the key still matches, kept when its squared distance from
      `center` (measured on `filter`) is at most `sqrRadius`. */
  function ScanRun(lookup: seq<Entry>, i: int, key: int, center: Vec2,
                   filter: seq<Vec2>, sqrRadius: real): (r: seq<nat>)
    requires 0 <= i && IndicesBelow(lookup, |filter|)
    ensures forall x :: x in r ==>
              x < |filter| && SqrMagnitude(Sub(filter[x], center)) <= sqrRadius
    decreases |lookup| - i
  {
    if i >= |lookup| || lookup[i].key != key then []
    else
      var j := lookup[i].index;
      var rest := ScanRun(lookup, i + 1, key, center, filter, sqrRadius);
      if SqrMagnitude(Sub(filter[j], center)) <= sqrRadius then [j] + rest else rest
  }

  /** The key of the neighbour cell `cell + offset`. */
  function OffsetKey(cell: (int, int), offset: Offset, length: nat): (key: nat)
    requires length > 0
    ensures key < length
  {
    GetKeyFromHash(HashCell(cell.0 + offset.0, cell.1 + offset.1), length)
  }

  /** The key the query loops compute, `GetKeyFromHash(HashCell(centerX +
      offsetX, centerY + offsetY))`, is `OffsetKey`. */
  lemma OffsetKeyIs(cell: (int, int), offset: Offset, centerX: int, centerY: int,
                    offsetX: int, offsetY: int, length: nat)
    requires length > 0 && cell == (centerX, centerY) && offset == (offsetX, offsetY)
    ensures OffsetKey(cell, offset, length) == GetKeyFromHash(HashCell(centerX + offsetX, centerY + offsetY), length)
  {
  }

  /** The sequence of indices a neighbour query visits, in order and with
      repetitions: the key runs of the cells `cell + offsets[t]`, one after
      the other. */
  function Visits(lookup: seq<Entry>, start: seq<int>, offsets: seq<Offset>,
                  cell: (int, int), center: Vec2, filter: seq<Vec2>, sqrRadius: real): (r: seq<nat>)
    requires |start| == |lookup| > 0
    requires StartsNonNegative(start) && IndicesBelow(lookup, |filter|)
    ensures forall x :: x in r ==>
              x < |filter| && SqrMagnitude(Sub(filter[x], center)) <= sqrRadius
    decreases |offsets|
  {
    if offsets == [] then []
    else
      var key := OffsetKey(cell, offsets[|offsets| - 1], |lookup|);
      Visits(lookup, start, offsets[..|offsets| - 1], cell, center, filter, sqrRadius)
        + ScanRun(lookup, start[key], key, center, filter, sqrRadius)
  }

  // ---------------------------------------------------------------------
  // Cell offsets

  /** The nine offsets `Start` of the live solver writes: every pair in
      {-1,0,1}^2, `ox` outer and `oy` inner. */
  function FullOffsets(): seq<Offset>
  {
    [(-1, -1), (-1, 0), (-1, 1), (0, -1), (0, 0), (0, 1), (1, -1), (1, 0), (1, 1)]
  }

  /** The nine offsets the test harness's `Start` leaves: its loops stop at
      2, so only slots 0, 1, 3 and 4 are written; the others keep C#'s
      default `(0, 0)`. */
  function HarnessOffsets(): seq<Offset>
  {
    [(-1, -1), (-1, 0), (0, 0), (0, -1), (0, 0), (0, 0), (0, 0), (0, 0), (0, 0)]
  }

  /** `Start` (live solver): the nested loop over `ox, oy` in -1..1. */
  method FillFullOffsets(offsets: array<Offset>)
    requires offsets.Length == 9
    modifies offsets
    ensures offsets[..] == FullOffsets()
  {
    var idx := 0;
    for ox := -1 to 2
      invariant idx == (ox + 1) * 3
      invariant offsets[..idx] == FullOffsets()[..idx]
    {
      for oy := -1 to 2
        invariant idx == (ox + 1) * 3 + (oy + 1)
        invariant offsets[..idx] == FullOffsets()[..idx]
      {
        offsets[idx] := (ox, oy);
        idx := idx + 1;
      }
    }
  }

  /** `Start` (test harness): `new (int, int)[9]` followed by the loop over
      `i, j < 2` that writes slot `i * 3 + j`. */
  method FillHarnessOffsets(offsets: array<Offset>)
    requires offsets.Length == 9
    requires forall t :: 0 <= t < 9 ==> offsets[t] == (0, 0)
    modifies offsets
    ensures offsets[..] == HarnessOffsets()
  {
    for i := 0 to 2
      invariant forall t :: 0 <= t < 9 ==>
                  offsets[t] == if t % 3 < 2 && t / 3 < i then (t / 3 - 1, t % 3 - 1) else (0, 0)
    {
      for j := 0 to 2
        invariant forall t :: 0 <= t < 9 ==>
                    offsets[t] == if t % 3 < 2 && (t / 3 < i || (t / 3 == i && t % 3 < j))
                                  then (t / 3 - 1, t % 3 - 1) else (0, 0)
      {
        offsets[i * 3 + j] := (i - 1, j - 1);
      }
    }
    assert offsets[..] == HarnessOffsets() by {
      forall t | 0 <= t < 9 ensures offsets[t] == HarnessOffsets()[t] {
      }
    }
  }

  // ---------------------------------------------------------------------
  // Rebuild

  /** While entry `j` sinks towards its place among the sorted `s[..i+1]`:
      every other pair is in order, and `s[j]` is smaller than what lies
      to its right. */
  predicate Sinking(s: seq<Entry>, i: int, j: int)
    requires 0 <= j <= i < |s|
  {
    && (forall p, q :: 0 <= p < q <= i && p != j && q != j ==> s[p].key <= s[q].key)
    && (forall q :: j < q <= i ==> s[j].key < s[q].key)
  }

  function SwapDown(s: seq<Entry>, j: int): seq<Entry>
    requires 0 < j < |s|
  {
    s[j - 1 := s[j]][j := s[j - 1]]
  }

  lemma SinkingStart(s: seq<Entry>, i: int)
    requires 0 <= i < |s| && SortedByKey(s[..i])
    ensures Sinking(s, i, i)
  {
    forall p, q | 0 <= p < q <= i && p != i && q != i ensures s[p].key <= s[q].key {
      assert s[..i][p] == s[p] && s[..i][q] == s[q];
    }
  }

  lemma SinkingStep(s: seq<Entry>, i: int, j: int)
    requires 0 < j <= i < |s| && Sinking(s, i, j) && s[j - 1].key > s[j].key
    ensures Sinking(SwapDown(s, j), i, j - 1)
  {
  }

  lemma SinkingDone(s: seq<Entry>, i: int, j: int)
    requires 0 <= j <= i < |s| && Sinking(s, i, j)
    requires j == 0 || s[j - 1].key <= s[j].key
    ensures SortedByKey(s[..i + 1])
  {
    forall p, q | 0 <= p < q <= i ensures s[p].key <= s[q].key {
      if p == j {
      } else if q == j {
        if p < j - 1 {
          assert s[p].key <= s[j - 1].key;
        }
      } else {
      }
    }
  }

  method SwapAdjacent(a: array<Entry>, j: int)
    requires 0 < j < a.Length
    modifies a
    ensures a[..] == SwapDown(old(a[..]), j)
    ensures multiset(a[..]) == old(multiset(a[..]))
  {
    a[j - 1], a[j] := a[j], a[j - 1];
  }

  /** One pass of the insertion sort: sink `a[i]` into the sorted `a[..i]`. */
  method Insert(a: array<Entry>, i: int)
    requires 0 <= i < a.Length && SortedByKey(a[..i])
    modifies a
    ensures SortedByKey(a[..i + 1])
    ensures multiset(a[..]) == old(multiset(a[..]))
  {
    SinkingStart(a[..], i);
    var j := i;
    while j > 0 && a[j - 1].key > a[j].key
      invariant 0 <= j <= i
      invariant Sinking(a[..], i, j)
      invariant multiset(a[..]) == old(multiset(a[..]))
    {
      SinkingStep(a[..], i, j);
      SwapAdjacent(a, j);
      j := j - 1;
    }
    SinkingDone(a[..], i, j);
  }

  /** `Array.Sort(spatialLookup)` by `Entry.CompareTo`, which compares keys
      only. Modelled as an insertion sort; nothing is promised about the
      order of particle indices within one key, as `Array.Sort` is not
      stable. */
  method SortByKey(a: array<Entry>)
    modifies a
    ensures SortedByKey(a[..])
    ensures multiset(a[..]) == old(multiset(a[..]))
  {
    for i := 0 to a.Length
      invariant SortedByKey(a[..i])
      invariant multiset(a[..]) == old(multiset(a[..]))
    {
      Insert(a, i);
    }
    assert a[..a.Length] == a[..];
  }

  /** An element of a permutation of `Tagged(points)` is some particle tagged
      with its own key. */
  lemma InTagged(lookup: seq<Entry>, points: seq<Vec2>, radius: real, p: int)
    requires radius != 0.0
    requires multiset(lookup) == multiset(Tagged(points, radius))
    requires 0 <= p < |lookup|
    ensures 0 <= lookup[p].index < |points|
    ensures lookup[p] == Entry(lookup[p].index, CellKey(points[lookup[p].index], radius, |points|))
  {
    assert lookup[p] in multiset(lookup);
    assert lookup[p] in Tagged(points, radius);
  }

  /** Recording position `i` keeps the table exact for one more position:
      the first entry of a run is recorded, later entries of the run leave
      the table as it is. */
  lemma StartTableStep(lookup: seq<Entry>, start: seq<int>, i: int)
    requires 0 <= i < |lookup| && SortedByKey(lookup) && KeysBelow(lookup, |start|)
    requires StartTableUpTo(lookup, start, i)
    ensures i == 0 || lookup[i - 1].key != lookup[i].key ==>
              StartTableUpTo(lookup, start[lookup[i].key := i], i + 1)
    ensures i > 0 && lookup[i - 1].key == lookup[i].key ==>
              StartTableUpTo(lookup, start, i + 1)
  {
    var key := lookup[i].key;
    if i == 0 || lookup[i - 1].key != key {
      var start' := start[key := i];
      forall q | 0 <= q < i ensures lookup[q].key != key {
        assert lookup[q].key <= lookup[i - 1].key;
      }
      assert start'[key] == i;
    }
  }

  /** The first phase of `UpdateSpatialLookup`: each slot `i` gets
      `Entry(i, key of points[i])`, and `startIndices[i]` the sentinel. */
  method TagEntries(spatialLookup: array<Entry>, startIndices: array<int>,
                    points: seq<Vec2>, radius: real)
    requires spatialLookup.Length == startIndices.Length == |points|
    requires radius != 0.0
    modifies spatialLookup, startIndices
    ensures spatialLookup[..] == Tagged(points, radius)
    ensures forall k :: 0 <= k < startIndices.Length ==> startIndices[k] == IntMax
  {
    var n := spatialLookup.Length;
    for i := 0 to n
      invariant spatialLookup[..i] == Tagged(points, radius)[..i]
      invariant forall k :: 0 <= k < i ==> startIndices[k] == IntMax
    {
      var (cellx, celly) := PositionToCellCoord(points[i], radius);
      var cellKey := GetKeyFromHash(HashCell(cellx, celly), n);
      spatialLookup[i] := Entry(i, cellKey);
      startIndices[i] := IntMax;
    }
    assert spatialLookup[..n] == spatialLookup[..];
  }

  /** The last phase of `UpdateSpatialLookup`: `startIndices[key] = i` for
      each position whose key differs from its predecessor's. Position 0
      is compared with `uint.MaxValue`, which no key below the table
      length equals, so it is always recorded. */
  method FillStartIndices(spatialLookup: array<Entry>, startIndices: array<int>)
    requires spatialLookup.Length == startIndices.Length <= IntMax
    requires SortedByKey(spatialLookup[..]) && KeysBelow(spatialLookup[..], startIndices.Length)
    requires forall k :: 0 <= k < startIndices.Length ==> startIndices[k] == IntMax
    modifies startIndices
    ensures StartTable(spatialLookup[..], startIndices[..])
  {
    var n := spatialLookup.Length;
    for i := 0 to n
      invariant StartTableUpTo(spatialLookup[..], startIndices[..], i)
    {
      StartTableStep(spatialLookup[..], startIndices[..], i);
      var key := spatialLookup[i].key;
      var keyPrev: u32 := if i == 0 then UIntMax else spatialLookup[i - 1].key;
      if key != keyPrev {
        startIndices[key] := i;
      }
    }
  }

  /** `UpdateSpatialLookup`: tag every particle with its cell key and reset
      `startIndices` to the sentinel, sort the buffer by key, and record the
      start of each key run. The two `Parallel.For` loops write only their
      own slot (or the one start slot of a run's first entry), so they are
      modelled as sequential loops. */
  method UpdateSpatialLookup(spatialLookup: array<Entry>, startIndices: array<int>,
                             points: seq<Vec2>, radius: real)
    requires spatialLookup.Length == startIndices.Length == |points| <= IntMax
    requires radius != 0.0
    modifies spatialLookup, startIndices
    ensures BuiltFrom(spatialLookup[..], startIndices[..], points, radius)
  {
    TagEntries(spatialLookup, startIndices, points, radius);
    SortByKey(spatialLookup);
    forall p | 0 <= p < spatialLookup.Length ensures spatialLookup[p].key < startIndices.Length {
      InTagged(spatialLookup[..], points, radius, p);
    }
    FillStartIndices(spatialLookup, startIndices);
  }

  // ---------------------------------------------------------------------
  // Neighbour query

  /** Slicing a sequence one element further. */
  lemma PrefixStep<T>(s: seq<T>, t: int)
    requires 0 <= t < |s|
    ensures s[..t + 1][..t] == s[..t] && s[..t + 1][t] == s[t]
  {
  }

  /** The inner loop of the neighbour query: from `cellStartIndex`, scan
      while the key matches, stopping at the end of the buffer or at the
      first entry of another key, and keep every particle whose squared
      distance on `filter` is at most `sqrRadius`. A sentinel start
      (`int.MaxValue`) is past the end, so an empty cell scans nothing. */
  method ScanCell(spatialLookup: array<Entry>, cellStartIndex: int, key: int, centerPoint: Vec2,
                  filter: seq<Vec2>, sqrRadius: real)
    returns (found: seq<nat>)
    requires 0 <= cellStartIndex && IndicesBelow(spatialLookup[..], |filter|)
    ensures found == ScanRun(spatialLookup[..], cellStartIndex, key, centerPoint, filter, sqrRadius)
  {
    ghost var lookup := spatialLookup[..];
    found := [];
    var i := cellStartIndex;
    while i < spatialLookup.Length
      invariant cellStartIndex <= i
      invariant found + ScanRun(lookup, i, key, centerPoint, filter, sqrRadius)
                == ScanRun(lookup, cellStartIndex, key, centerPoint, filter, sqrRadius)
      decreases spatialLookup.Length - i
    {
      if spatialLookup[i].key != key {
        break;
      }
      var particleIndex := spatialLookup[i].index;
      var sqrDist := SqrMagnitude(Sub(filter[particleIndex], centerPoint));
      if sqrDist <= sqrRadius {
        found := found + [particleIndex];
      }
      i := i + 1;
    }
  }

  /** `ForeachPointWithinRadius`: for each offset, the key of the cell
      `cell(centerPoint) + offset` and the scan of its run; every particle
      found is passed on (returned here, in call order). */
  method ForeachPointWithinRadius(spatialLookup: array<Entry>, startIndices: array<int>,
                                  cellOffsets: array<Offset>, centerPoint: Vec2,
                                  filter: seq<Vec2>, radius: real)
    returns (visited: seq<nat>)
    requires spatialLookup.Length == startIndices.Length > 0 && radius != 0.0
    requires StartsNonNegative(startIndices[..]) && IndicesBelow(spatialLookup[..], |filter|)
    ensures visited == Visits(spatialLookup[..], startIndices[..], cellOffsets[..],
                              PositionToCellCoord(centerPoint, radius), centerPoint,
                              filter, Square(radius))
  {
    ghost var lookup, start := spatialLookup[..], startIndices[..];
    var cell := PositionToCellCoord(centerPoint, radius);
    var (centerX, centerY) := cell;
    var sqrRadius := Square(radius);
    visited := [];
    for t := 0 to cellOffsets.Length
      invariant visited == Visits(lookup, start, cellOffsets[..t], cell, centerPoint, filter, sqrRadius)
    {
      PrefixStep(cellOffsets[..], t);
      var (offsetX, offsetY) := cellOffsets[t];
      var key := GetKeyFromHash(HashCell(centerX + offsetX, centerY + offsetY), spatialLookup.Length);
      OffsetKeyIs(cell, cellOffsets[t], centerX, centerY, offsetX, offsetY, spatialLookup.Length);
      var found := ScanCell(spatialLookup, startIndices[key], key, centerPoint, filter, sqrRadius);
      visited := visited + found;
    }
    assert cellOffsets[..cellOffsets.Length] == cellOffsets[..];
  }

  // ---------------------------------------------------------------------
  // Properties of a rebuilt grid

  /** A rebuilt buffer is a permutation of the tagged particles: every slot
      holds a particle index below N with that particle's own key, and the
      start table only holds positions or the sentinel. */
  lemma BuiltFromWellFormed(lookup: seq<Entry>, start: seq<int>, points: seq<Vec2>, radius: real)
    requires BuiltFrom(lookup, start, points, radius)
    ensures |start| == |lookup| == |points|
    ensures IndicesBelow(lookup, |points|) && KeysBelow(lookup, |points|)
    ensures StartsNonNegative(start)
    ensures forall p :: 0 <= p < |lookup| ==>
              lookup[p].key == CellKey(points[lookup[p].index], radius, |points|)
  {
    forall p | 0 <= p < |lookup|
      ensures 0 <= lookup[p].index < |points|
      ensures lookup[p].key == CellKey(points[lookup[p].index], radius, |points|)
    {
      InTagged(lookup, points, radius, p);
    }
  }

  /** Every particle lies in the buffer, at some position `q`. */
  lemma ParticleInBuffer(lookup: seq<Entry>, start: seq<int>, points: seq<Vec2>, radius: real, j: int)
      returns (q: int)
    requires BuiltFrom(lookup, start, points, radius) && 0 <= j < |points|
    ensures 0 <= q < |lookup| && lookup[q] == Entry(j, CellKey(points[j], radius, |points|))
  {
    var e := Entry(j, CellKey(points[j], radius, |points|));
    assert Tagged(points, radius)[j] == e;
    assert e in multiset(Tagged(points, radius));
    assert e in lookup;
    q :| 0 <= q < |lookup| && lookup[q] == e;
  }

  /** The multiplicity of an element in a sequence without repetitions is
      at most one. */
  lemma {:induction false} DistinctMultiplicity<T>(s: seq<T>, x: T)
    requires forall a, b :: 0 <= a < b < |s| ==> s[a] != s[b]
    ensures multiset(s)[x] <= 1
    decreases |s|
  {
    if s != [] {
      var init := s[..|s| - 1];
      assert s == init + [s[|s| - 1]];
      DistinctMultiplicity(init, x);
      if x == s[|s| - 1] {
        assert x !in init;
      }
    }
  }

  /** Each particle index appears in exactly one slot of a rebuilt buffer. */
  lemma EachIndexOnce(lookup: seq<Entry>, start: seq<int>, points: seq<Vec2>, radius: real, j: int)
    requires BuiltFrom(lookup, start, points, radius) && 0 <= j < |points|
    ensures exists q :: 0 <= q < |lookup| && lookup[q].index == j
    ensures forall p, q ::
              (0 <= p < |lookup| && 0 <= q < |lookup| && lookup[p].index == j && lookup[q].index == j)
              ==> p == q
  {
    var q0 := ParticleInBuffer(lookup, start, points, radius, j);
    BuiltFromWellFormed(lookup, start, points, radius);
    forall p, q | 0 <= p < q < |lookup| && lookup[p].index == j && lookup[q].index == j
      ensures false
    {
      var e := lookup[p];
      assert lookup[q] == e;
      assert lookup == lookup[..q] + lookup[q..];
      assert lookup[..q][p] == e;
      assert lookup[q..][0] == e;
      assert multiset(lookup)[e] == multiset(lookup[..q])[e] + multiset(lookup[q..])[e];
      DistinctMultiplicity(Tagged(points, radius), e);
    }
  }

  /** A scan from `i` passes position `q` when every key between them
      matches. */
  lemma {:induction false} ScanRunContains(lookup: seq<Entry>, i: int, key: int, center: Vec2,
                                           filter: seq<Vec2>, sqrRadius: real, q: int)
    requires 0 <= i <= q < |lookup| && IndicesBelow(lookup, |filter|)
    requires forall m :: i <= m <= q ==> lookup[m].key == key
    requires SqrMagnitude(Sub(filter[lookup[q].index], center)) <= sqrRadius
    ensures lookup[q].index in ScanRun(lookup, i, key, center, filter, sqrRadius)
    decreases q - i
  {
    if i < q {
      ScanRunGrows(lookup, i, key, center, filter, sqrRadius);
      ScanRunContains(lookup, i + 1, key, center, filter, sqrRadius, q);
    }
  }

  /** One step of a scan: an entry with the key contributes its particle
      when it is within the radius, and the scan goes on from the next
      entry. */
  lemma ScanRunAdvance(lookup: seq<Entry>, i: int, key: int, center: Vec2,
                       filter: seq<Vec2>, sqrRadius: real, found: seq<nat>)
    requires 0 <= i < |lookup| && IndicesBelow(lookup, |filter|) && lookup[i].key == key
    ensures found + ScanRun(lookup, i, key, center, filter, sqrRadius)
         == (if SqrMagnitude(Sub(filter[lookup[i].index], center)) <= sqrRadius
             then found + [lookup[i].index] else found)
            + ScanRun(lookup, i + 1, key, center, filter, sqrRadius)
  {
    var j, rest := lookup[i].index, ScanRun(lookup, i + 1, key, center, filter, sqrRadius);
    assert found + ([j] + rest) == (found + [j]) + rest;
  }

  lemma ScanRunGrows(lookup: seq<Entry>, i: int, key: int, center: Vec2,
                     filter: seq<Vec2>, sqrRadius: real)
    requires 0 <= i < |lookup| && IndicesBelow(lookup, |filter|) && lookup[i].key == key
    ensures forall x :: x in ScanRun(lookup, i + 1, key, center, filter, sqrRadius) ==>
              x in ScanRun(lookup, i, key, center, filter, sqrRadius)
  {
  }

  /** The key run of a particle's own cell, scanned from its start, yields
      the particle when it is within the radius. */
  lemma RunOfParticle(lookup: seq<Entry>, start: seq<int>, points: seq<Vec2>, radius: real,
                      center: Vec2, sqrRadius: real, j: int)
    requires BuiltFrom(lookup, start, points, radius) && 0 <= j < |points|
    requires SqrMagnitude(Sub(points[j], center)) <= sqrRadius
    ensures |start| == |lookup| == |points| && StartsNonNegative(start)
    ensures IndicesBelow(lookup, |points|)
    ensures var key := CellKey(points[j], radius, |points|);
            j in ScanRun(lookup, start[key], key, center, points, sqrRadius)
  {
    BuiltFromWellFormed(lookup, start, points, radius);
    var key := CellKey(points[j], radius, |points|);
    var q := ParticleInBuffer(lookup, start, points, radius, j);
    var p := start[key];
    assert 0 <= p <= q && lookup[p].key == key;
    forall m | p <= m <= q ensures lookup[m].key == key {
      assert lookup[p].key <= lookup[m].key <= lookup[q].key;
    }
    ScanRunContains(lookup, p, key, center, points, sqrRadius, q);
  }

  /** How many of the offsets lead to a cell whose key is `key`. */
  function CountKey(offsets: seq<Offset>, cell: (int, int), key: int, length: nat): (c: nat)
    requires length > 0
    ensures c <= |offsets|
  {
    if offsets == [] then 0
    else CountKey(offsets[..|offsets| - 1], cell, key, length)
         + (if OffsetKey(cell, offsets[|offsets| - 1], length) == key then 1 else 0)
  }

  lemma {:induction false} CountKeyPositive(offsets: seq<Offset>, cell: (int, int), key: int,
                                            length: nat, t: int)
    requires length > 0 && 0 <= t < |offsets| && OffsetKey(cell, offsets[t], length) == key
    ensures CountKey(offsets, cell, key, length) >= 1
    decreases |offsets|
  {
    if t < |offsets| - 1 {
      assert offsets[..|offsets| - 1][t] == offsets[t];
      CountKeyPositive(offsets[..|offsets| - 1], cell, key, length, t);
    }
  }

  /** A visited particle is visited once for every offset cell that shares
      its key run: two neighbour cells with the same key repeat it. */
  lemma {:induction false} VisitsMultiplicity(lookup: seq<Entry>, start: seq<int>, offsets: seq<Offset>,
                                              cell: (int, int), center: Vec2, filter: seq<Vec2>,
                                              sqrRadius: real, key: nat, j: nat)
    requires |start| == |lookup| > 0 && key < |start|
    requires StartsNonNegative(start) && IndicesBelow(lookup, |filter|)
    requires j in ScanRun(lookup, start[key], key, center, filter, sqrRadius)
    ensures multiset(Visits(lookup, start, offsets, cell, center, filter, sqrRadius))[j]
            >= CountKey(offsets, cell, key, |lookup|)
    decreases |offsets|
  {
    if offsets != [] {
      var init := offsets[..|offsets| - 1];
      VisitsMultiplicity(lookup, start, init, cell, center, filter, sqrRadius, key, j);
    }
  }

  /** The step from squared distance to per-axis cell distance. */
  lemma NearCells(a: Vec2, b: Vec2, radius: real)
    requires radius > 0.0 && SqrMagnitude(Sub(a, b)) <= Square(radius)
    ensures -1 <= PositionToCellCoord(a, radius).0 - PositionToCellCoord(b, radius).0 <= 1
    ensures -1 <= PositionToCellCoord(a, radius).1 - PositionToCellCoord(b, radius).1 <= 1
  {
    AxisSquares(a, b, radius);
    CellCoordNear(a.x, b.x, radius);
    CellCoordNear(a.y, b.y, radius);
  }

  lemma AxisSquares(a: Vec2, b: Vec2, radius: real)
    requires SqrMagnitude(Sub(a, b)) <= Square(radius)
    ensures (a.x - b.x) * (a.x - b.x) <= radius * radius
    ensures (a.y - b.y) * (a.y - b.y) <= radius * radius
  {
    SquareNonNegative(a.x - b.x);
    SquareNonNegative(a.y - b.y);
  }

  lemma FullOffsetsCover(ex: int, ey: int)
    requires -1 <= ex <= 1 && -1 <= ey <= 1
    ensures FullOffsets()[(ex + 1) * 3 + (ey + 1)] == (ex, ey)
  {
  }

  /** Soundness of the neighbour query, whatever was built: every visited
      index is a particle within the radius, measured on the positions
      the query filters on. */
  lemma QuerySound(lookup: seq<Entry>, start: seq<int>, offsets: seq<Offset>, center: Vec2,
                   filter: seq<Vec2>, radius: real, x: nat)
    requires |start| == |lookup| > 0 && radius != 0.0
    requires StartsNonNegative(start) && IndicesBelow(lookup, |filter|)
    requires x in Visits(lookup, start, offsets, PositionToCellCoord(center, radius), center,
                         filter, Square(radius))
    ensures x < |filter| && SqrMagnitude(Sub(filter[x], center)) <= Square(radius)
  {
  }

  /** A particle within the radius is visited whenever one of the offsets
      leads to a cell with the particle's key. */
  lemma {:induction false} FoundThroughOffset(lookup: seq<Entry>, start: seq<int>, offsets: seq<Offset>,
                                              points: seq<Vec2>, radius: real, center: Vec2,
                                              sqrRadius: real, j: int, t: int)
    requires BuiltFrom(lookup, start, points, radius) && 0 <= j < |points|
    requires SqrMagnitude(Sub(points[j], center)) <= sqrRadius
    requires 0 <= t < |offsets|
    requires OffsetKey(PositionToCellCoord(center, radius), offsets[t], |points|)
             == CellKey(points[j], radius, |points|)
    ensures |start| == |lookup| > 0 && StartsNonNegative(start) && IndicesBelow(lookup, |points|)
    ensures j in Visits(lookup, start, offsets, PositionToCellCoord(center, radius),
                        center, points, sqrRadius)
  {
    var cell := PositionToCellCoord(center, radius);
    var key := CellKey(points[j], radius, |points|);
    RunOfParticle(lookup, start, points, radius, center, sqrRadius, j);
    CountKeyPositive(offsets, cell, key, |lookup|, t);
    VisitsMultiplicity(lookup, start, offsets, cell, center, points, sqrRadius, key, j);
  }

  /** Completeness of the live solver's query: when the grid was built on
      the positions the query filters on, every particle within the radius
      of the centre is visited at least once. */
  lemma {:induction false} QueryComplete(lookup: seq<Entry>, start: seq<int>, points: seq<Vec2>, radius: real,
                      center: Vec2, j: int)
    requires BuiltFrom(lookup, start, points, radius) && radius > 0.0
    requires 0 <= j < |points| && SqrMagnitude(Sub(points[j], center)) <= Square(radius)
    ensures |start| == |lookup| > 0 && StartsNonNegative(start) && IndicesBelow(lookup, |points|)
    ensures j in Visits(lookup, start, FullOffsets(), PositionToCellCoord(center, radius),
                        center, points, Square(radius))
  {
    var cell := PositionToCellCoord(center, radius);
    var cellJ := PositionToCellCoord(points[j], radius);
    NearCells(points[j], center, radius);
    var t := (cellJ.0 - cell.0 + 1) * 3 + (cellJ.1 - cell.1 + 1);
    FullOffsetsCover(cellJ.0 - cell.0, cellJ.1 - cell.1);
    FoundThroughOffset(lookup, start, FullOffsets(), points, radius, center, Square(radius), j, t);
  }

  /** A query centred on a particle's own position, over offsets that
      include (0, 0), visits that particle. */
  lemma {:induction false} SelfVisited(lookup: seq<Entry>, start: seq<int>, offsets: seq<Offset>, points: seq<Vec2>,
                    radius: real, i: int, t: int)
    requires BuiltFrom(lookup, start, points, radius) && 0 <= i < |points|
    requires 0 <= t < |offsets| && offsets[t] == (0, 0)
    ensures |start| == |lookup| > 0 && StartsNonNegative(start) && IndicesBelow(lookup, |points|)
    ensures i in Visits(lookup, start, offsets, PositionToCellCoord(points[i], radius),
                        points[i], points, Square(radius))
  {
    SubSelf(points[i]);
    SquareNonNegative(radius);
    ZeroOffsetKey(points[i], radius, |points|);
    FoundThroughOffset(lookup, start, offsets, points, radius, points[i], Square(radius), i, t);
  }

  lemma ZeroOffsetKey(p: Vec2, radius: real, length: nat)
    requires radius != 0.0 && length > 0
    ensures OffsetKey(PositionToCellCoord(p, radius), (0, 0), length) == CellKey(p, radius, length)
  {
  }

  lemma SquareNonNegative(x: real)
    ensures x * x >= 0.0
  {
  }

  /** Where a scanned index comes from: a slot at or after `i` holding
      that index under the scanned key. */
  lemma {:induction false} ScanRunOrigin(lookup: seq<Entry>, i: int, key: int, center: Vec2,
                                         filter: seq<Vec2>, sqrRadius: real, x: nat)
    requires 0 <= i && IndicesBelow(lookup, |filter|)
    requires x in ScanRun(lookup, i, key, center, filter, sqrRadius)
    ensures exists p :: i <= p < |lookup| && lookup[p].index == x && lookup[p].key == key
    decreases |lookup| - i
  {
    if x != lookup[i].index {
      ScanRunOrigin(lookup, i + 1, key, center, filter, sqrRadius, x);
    }
  }

  /** Where a visited index comes from: a slot holding it under the key
      of one of the offset cells. */
  lemma {:induction false} VisitsOrigin(lookup: seq<Entry>, start: seq<int>, offsets: seq<Offset>,
                                        cell: (int, int), center: Vec2, filter: seq<Vec2>,
                                        sqrRadius: real, x: nat)
    requires |start| == |lookup| > 0
    requires StartsNonNegative(start) && IndicesBelow(lookup, |filter|)
    requires x in Visits(lookup, start, offsets, cell, center, filter, sqrRadius)
    ensures exists t, p :: 0 <= t < |offsets| && 0 <= p < |lookup| && lookup[p].index == x
                           && lookup[p].key == OffsetKey(cell, offsets[t], |lookup|)
    decreases |offsets|
  {
    var last := |offsets| - 1;
    var init := offsets[..last];
    var key := OffsetKey(cell, offsets[last], |lookup|);
    if x in ScanRun(lookup, start[key], key, center, filter, sqrRadius) {
      ScanRunOrigin(lookup, start[key], key, center, filter, sqrRadius, x);
    } else {
      VisitsOrigin(lookup, start, init, cell, center, filter, sqrRadius, x);
      var t, p :| 0 <= t < |init| && 0 <= p < |lookup| && lookup[p].index == x
                  && lookup[p].key == OffsetKey(cell, init[t], |lookup|);
      assert init[t] == offsets[t];
    }
  }
}
