/** Three-component vectors: one row of the N x 3 position, velocity and
    correction matrices of the fluid. */
module Vectors {

  datatype Vec3 = Vec3(x: real, y: real, z: real) {

    /** Component `axis` (0, 1 or 2) of the vector. */
    function At(axis: nat): real
      requires axis < 3
    {
      if axis == 0 then x else if axis == 1 then y else z
    }

    /** The vector with component `axis` replaced by `value`. */
    function With(axis: nat, value: real): (r: Vec3)
      requires axis < 3
      ensures r.At(axis) == value
      ensures forall b :: 0 <= b < 3 && b != axis ==> r.At(b) == At(b)
    {
      if axis == 0 then Vec3(value, y, z)
      else if axis == 1 then Vec3(x, value, z)
      else Vec3(x, y, value)
    }
  }

  const Zero := Vec3(0.0, 0.0, 0.0)

  function Add(a: Vec3, b: Vec3): Vec3 {
    Vec3(a.x + b.x, a.y + b.y, a.z + b.z)
  }

  function Sub(a: Vec3, b: Vec3): Vec3 {
    Vec3(a.x - b.x, a.y - b.y, a.z - b.z)
  }

  function Scale(s: real, a: Vec3): Vec3 {
    Vec3(s * a.x, s * a.y, s * a.z)
  }

  function Div(a: Vec3, s: real): Vec3
    requires s != 0.0
  {
    Vec3(a.x / s, a.y / s, a.z / s)
  }
}
