/**
 * Three-component vectors: `Vec3` is a value (the source's object-spread
 * copies and plain `{x, y, z}` literals), `Vector3` is a mutable object whose
 * components are written in place (the camera's `position` and `target`).
 */
module Vectors {

  datatype Vec3 = Vec3(x: real, y: real, z: real)

  function Add(a: Vec3, b: Vec3): Vec3
  {
    Vec3(a.x + b.x, a.y + b.y, a.z + b.z)
  }

  function Sub(a: Vec3, b: Vec3): Vec3
  {
    Vec3(a.x - b.x, a.y - b.y, a.z - b.z)
  }

  function Scale(v: Vec3, k: real): Vec3
  {
    Vec3(v.x * k, v.y * k, v.z * k)
  }

  /** In exact arithmetic, adding back a difference lands on its minuend: start + (goal - start) == goal. */
  lemma AddSubCancels(start: Vec3, goal: Vec3)
    ensures Add(start, Sub(goal, start)) == goal
  {
  }

  /** A vector whose components the camera overwrites in place. */
  class Vector3 {
    var x: real
    var y: real
    var z: real

    constructor (v: Vec3)
      ensures Value() == v
    {
      x, y, z := v.x, v.y, v.z;
    }

    /** The current components as a value; `{ ...v }` in the source. */
    function Value(): Vec3
      reads this
    {
      Vec3(x, y, z)
    }
  }
}
