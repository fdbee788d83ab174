/** Small value types shared by the three demos: a three-component vector of
    reals standing for `glm::vec3`, and the integer conversions of C++. */
module Geometry {

  datatype Vec3 = Vec3(x: real, y: real, z: real)

  const Zero: Vec3 := Vec3(0.0, 0.0, 0.0)

  function Add(a: Vec3, b: Vec3): (r: Vec3)
    ensures b == Zero ==> r == a
  {
    Vec3(a.x + b.x, a.y + b.y, a.z + b.z)
  }

  function Scale(a: Vec3, k: real): (r: Vec3)
    ensures a == Zero ==> r == Zero
  {
    Vec3(a.x * k, a.y * k, a.z * k)
  }

  /** Squared Euclidean length: `glm::length(v) < c` is `LengthSquared(v) < c * c` for `c >= 0`. */
  function LengthSquared(a: Vec3): (r: real)
    ensures r >= 0.0
  {
    a.x * a.x + a.y * a.y + a.z * a.z
  }

  function DistanceSquared(a: Vec3, b: Vec3): real
  {
    LengthSquared(Vec3(a.x - b.x, a.y - b.y, a.z - b.z))
  }

  /** The number of iterations of `for (int i = 0; i < n; ++i)`. */
  function Count(n: int): nat {
    if n > 0 then n else 0
  }

  /** C++'s float-to-int conversion: truncation toward zero. */
  function Trunc(x: real): (r: int)
    ensures x >= 0.0 ==> r as real <= x < r as real + 1.0
    ensures x < 0.0 ==> r as real - 1.0 < x <= r as real
  {
    if x >= 0.0 then x.Floor else -((-x).Floor)
  }

  /** `fmod(x, 1.0)`: the remainder keeps the sign of `x` and has magnitude below one. */
  function FmodOne(x: real): (r: real)
    ensures x >= 0.0 ==> 0.0 <= r < 1.0
    ensures x < 0.0 ==> -1.0 < r <= 0.0
    ensures 0.0 <= x < 1.0 ==> r == x
    ensures (x - r).Floor as real == x - r
  {
    x - Trunc(x) as real
  }
}
