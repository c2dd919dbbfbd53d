/** Exact-arithmetic model of the three-component vectors the node works on
    (UT_Vector3F positions and centers). Coordinates are reals, so sums,
    divisions and squared distances are exact. */
module Vector {

  datatype Vec3 = Vec3(x: real, y: real, z: real)

  /** The value of a freshly constructed accumulator slot. */
  const Origin: Vec3 := Vec3(0.0, 0.0, 0.0)

  /** Component-wise sum (UT_Vector3F::operator+=). */
  function Add(a: Vec3, b: Vec3): Vec3
  {
    Vec3(a.x + b.x, a.y + b.y, a.z + b.z)
  }

  /** Component-wise division by a positive point count (UT_Vector3F / exint). */
  function Div(v: Vec3, n: int): (r: Vec3)
    requires n >= 1
    ensures n == 1 ==> r == v
  {
    Vec3(v.x / n as real, v.y / n as real, v.z / n as real)
  }

  /** Squared Euclidean distance (UT_Vector3::distance2). */
  function Dist2(a: Vec3, b: Vec3): real
  {
    (a.x - b.x) * (a.x - b.x) + (a.y - b.y) * (a.y - b.y) + (a.z - b.z) * (a.z - b.z)
  }

  /** Sum of a sequence of points, added left to right. */
  function Total(ps: seq<Vec3>): Vec3
  {
    if |ps| == 0 then Origin else Add(Total(ps[..|ps| - 1]), ps[|ps| - 1])
  }

  /** Arithmetic mean of a sequence of points; the origin for no points. */
  function Mean(ps: seq<Vec3>): Vec3
  {
    if |ps| == 0 then Origin else Div(Total(ps), |ps|)
  }
}
