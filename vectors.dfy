/** Positions in the three.js world, as exact reals. */
module Vectors {

  datatype Vec3 = Vec3(x: real, y: real, z: real)

  /** Squared Euclidean distance. `Vector3.distanceTo` is its square root. */
  function Dist2(a: Vec3, b: Vec3): (d: real)
    ensures d >= 0.0
    ensures a == b ==> d == 0.0
  {
    var dx, dy, dz := a.x - b.x, a.y - b.y, a.z - b.z;
    SquareNonNegative(dx);
    SquareNonNegative(dy);
    SquareNonNegative(dz);
    dx * dx + dy * dy + dz * dz
  }

  lemma SquareNonNegative(r: real)
    ensures r * r >= 0.0
  {
    if r < 0.0 {
      assert r * r == (-r) * (-r);
    }
  }

  /** The distance from a to b is the distance from b to a. */
  lemma Dist2Symmetric(a: Vec3, b: Vec3)
    ensures Dist2(a, b) == Dist2(b, a)
  {
  }
}
