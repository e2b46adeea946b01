/** Two-dimensional vectors over exact reals: an exact abstraction of Unity's
    `Vector2` of `float`s, and the two scalar helpers of `UnityEngine.Mathf`
    the solver relies on. */
module Geometry {

  datatype Vec2 = Vec2(x: real, y: real)

  const Zero: Vec2 := Vec2(0.0, 0.0)

  /** `Vector2.down` and `Vector2.one`. */
  const Down: Vec2 := Vec2(0.0, -1.0)
  const One: Vec2 := Vec2(1.0, 1.0)

  function Add(a: Vec2, b: Vec2): Vec2 { Vec2(a.x + b.x, a.y + b.y) }

  function Sub(a: Vec2, b: Vec2): Vec2 { Vec2(a.x - b.x, a.y - b.y) }

  function Scale(s: real, v: Vec2): Vec2 { Vec2(s * v.x, s * v.y) }

  /** `Vector2.sqrMagnitude`. */
  function SqrMagnitude(v: Vec2): real { v.x * v.x + v.y * v.y }

  /** `r * r`, the squared radius neighbour queries compare against. */
  function Square(r: real): real { r * r }

  /** `Mathf.Abs`. */
  function Abs(x: real): (r: real)
    ensures r >= 0.0 && (r == x || r == -x)
  {
    if x >= 0.0 then x else -x
  }

  /** `Mathf.Sign`: 1 for every non-negative argument, zero included. */
  function Sign(x: real): (s: real)
    ensures s == 1.0 || s == -1.0
    ensures s == 1.0 <==> x >= 0.0
  {
    if x >= 0.0 then 1.0 else -1.0
  }

  lemma SubSelf(v: Vec2)
    ensures Sub(v, v) == Zero
  {
  }
}
