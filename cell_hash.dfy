/** Mapping a position to its grid cell, hashing a cell with unsigned 32-bit
    wrap-around, and reducing the hash to a table key. */
module CellHash {
  import opened Geometry

  /** 2^32: the modulus of C#'s `uint` arithmetic. */
  const U32: int := 0x1_0000_0000

  type u32 = x: int | 0 <= x < 0x1_0000_0000

  /** `uint.MaxValue`, `int.MaxValue`. */
  const UIntMax: u32 := 0xFFFF_FFFF
  const IntMax: int := 0x7FFF_FFFF

  /** The two multipliers of `HashCell`. */
  const HashX: int := 15823
  const HashY: int := 9737333

  /** C#'s `(int)` cast of a `float`: truncation toward zero (not floor). */
  function Trunc(x: real): (t: int)
    ensures 0.0 <= x ==> t as real <= x < t as real + 1.0
    ensures x < 0.0 ==> t as real - 1.0 < x <= t as real <= 0.0
  {
    if x >= 0.0 then x.Floor else -((-x).Floor)
  }

  /** `PositionToCellCoord`: each coordinate divided by the cell size and
      truncated. */
  function PositionToCellCoord(point: Vec2, radius: real): (int, int)
    requires radius != 0.0
  {
    (Trunc(point.x / radius), Trunc(point.y / radius))
  }

  /** C#'s unchecked `(uint)` cast of an `int`: the two's-complement bits
      read as unsigned, that is, the value modulo 2^32. */
  function ToUInt(x: int): (r: u32)
    ensures (x - r) % U32 == 0
    ensures 0 <= x < U32 ==> r == x
  {
    x % U32
  }

  /** `HashCell`: two `uint` products and a `uint` sum, each wrapping. */
  function HashCell(cellx: int, celly: int): u32
  {
    var a := ToUInt(cellx) * HashX % U32;
    var b := ToUInt(celly) * HashY % U32;
    (a + b) % U32
  }

  /** `GetKeyFromHash`: the hash reduced modulo the table length. */
  function GetKeyFromHash(hash: u32, length: nat): (key: nat)
    requires length > 0
    ensures key < length
    ensures hash < length ==> key == hash
  {
    hash % length
  }

  /** The table key of the cell a position lies in. */
  function CellKey(point: Vec2, radius: real, length: nat): (key: nat)
    requires radius != 0.0 && length > 0
    ensures key < length
  {
    var (cx, cy) := PositionToCellCoord(point, radius);
    GetKeyFromHash(HashCell(cx, cy), length)
  }

  lemma MulAtLeast(k: int, m: int)
    requires m > 0 && k >= 1
    ensures k * m >= m
  {
  }

  /** Euclidean division is unique: a quotient and an in-range remainder
      that rebuild `x` are `x / m` and `x % m`. */
  lemma DivModUnique(x: int, d: int, r: int, m: int)
    requires m > 0 && 0 <= r < m && x == d * m + r
    ensures x % m == r && x / m == d
  {
    var q, s := x / m, x % m;
    assert (d - q) * m == s - r;
    if d > q {
      MulAtLeast(d - q, m);
      assert false;
    } else if d < q {
      MulAtLeast(q - d, m);
      assert false;
    }
  }

  lemma ModShift(x: int, q: int, m: int)
    requires m > 0
    ensures (x + q * m) % m == x % m
  {
    DivModUnique(x + q * m, x / m + q, x % m, m);
  }

  lemma ModAdd(a: int, b: int, m: int)
    requires m > 0
    ensures (a % m + b % m) % m == (a + b) % m
  {
    var qa, qb := a / m, b / m;
    assert a + b == (a % m + b % m) + (qa + qb) * m;
    ModShift(a % m + b % m, qa + qb, m);
  }

  /** The hash in closed form: whatever the intermediate wrapping, it is
      `((x mod 2^32)*15823 + (y mod 2^32)*9737333) mod 2^32`. */
  lemma HashCellClosedForm(cellx: int, celly: int)
    ensures HashCell(cellx, celly) ==
            ((cellx % U32) * HashX + (celly % U32) * HashY) % U32
  {
    ModAdd(ToUInt(cellx) * HashX, ToUInt(celly) * HashY, U32);
  }

  /** Only the residues of the cell coordinates modulo 2^32 matter, so a
      32-bit `int` overflow in `centerX + offsetX` leaves the hash as it
      would be over unbounded integers. */
  lemma HashCellWraps(cellx: int, celly: int, kx: int, ky: int)
    ensures HashCell(cellx + kx * U32, celly + ky * U32) == HashCell(cellx, celly)
  {
    ModShift(cellx, kx, U32);
    ModShift(celly, ky, U32);
  }

  /** Negative coordinates wrap: cell (-1, 0) hashes to 2^32 - 15823. */
  lemma NegativeCellWraps()
    ensures ToUInt(-1) == UIntMax
    ensures HashCell(-1, 0) == U32 - HashX
  {
  }

  /** Truncation makes cell 0 twice as wide as the others: every coordinate
      strictly between -radius and radius lands in it. */
  lemma CellZeroIsDoubleWidth(x: real, radius: real)
    requires radius > 0.0 && -radius < x < radius
    ensures Trunc(x / radius) == 0
  {
    DivBounds(x, radius);
  }

  lemma DivBounds(x: real, radius: real)
    requires radius > 0.0 && -radius < x < radius
    ensures -1.0 < x / radius < 1.0
  {
  }

  lemma DivClosedBounds(x: real, radius: real)
    requires radius > 0.0 && -radius <= x <= radius
    ensures -1.0 <= x / radius <= 1.0
  {
  }

  lemma SquareMonotone(a: real, b: real)
    requires 0.0 <= b
    ensures b < a ==> b * b < a * a
  {
    if b < a {
      calc {
        b * b;
      <=
        b * a;
      <
        a * a;
      }
    }
  }

  lemma SquareBound(d: real, radius: real)
    requires radius > 0.0 && d * d <= radius * radius
    ensures -radius <= d <= radius
  {
    SquareMonotone(d, radius);
    SquareMonotone(-d, radius);
    assert (-d) * (-d) == d * d;
  }

  /** Two reals at most 1 apart truncate to integers at most 1 apart. */
  lemma TruncNear(x: real, y: real)
    requires -1.0 <= x - y <= 1.0
    ensures -1 <= Trunc(x) - Trunc(y) <= 1
  {
  }

  /** Two coordinates at most one cell size apart lie in the same or in
      adjacent cells. */
  lemma CellCoordNear(a: real, b: real, radius: real)
    requires radius > 0.0
    requires (a - b) * (a - b) <= radius * radius
    ensures -1 <= Trunc(a / radius) - Trunc(b / radius) <= 1
  {
    var d := a - b;
    SquareBound(d, radius);
    assert a / radius - b / radius == d / radius;
    DivClosedBounds(d, radius);
    TruncNear(a / radius, b / radius);
  }
}
