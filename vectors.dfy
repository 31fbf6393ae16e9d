/** Three-component vectors (glm::vec3) over the reals.
    Float rounding is not modelled: the camera and material code only adds,
    subtracts and scales these vectors. */
module Vectors {

  datatype Vec3 = Vec3(x: real, y: real, z: real)

  const Zero := Vec3(0.0, 0.0, 0.0)

  /** Component-wise sum (glm `+=`). */
  function Add(a: Vec3, b: Vec3): Vec3
  {
    Vec3(a.x + b.x, a.y + b.y, a.z + b.z)
  }

  /** Component-wise difference (glm `-=`). */
  function Sub(a: Vec3, b: Vec3): (r: Vec3)
    ensures r == Zero <==> a == b
  {
    Vec3(a.x - b.x, a.y - b.y, a.z - b.z)
  }

  /** Scalar multiple (glm `vec3 * float`). */
  function Scale(a: Vec3, k: real): (r: Vec3)
    ensures k == 0.0 ==> r == Zero
    ensures k == 1.0 ==> r == a
  {
    Vec3(a.x * k, a.y * k, a.z * k)
  }

  /** Subtracting what was added gives the starting vector back. */
  lemma SubAddCancel(a: Vec3, b: Vec3)
    ensures Sub(Add(a, b), b) == a
  {
  }
}
