/** The glm vector types the camera and the mesh use, over exact reals.
    GLfloat arithmetic is modelled without rounding. */
module Vectors {

  datatype Vec2 = Vec2(x: real, y: real)

  datatype Vec3 = Vec3(x: real, y: real, z: real)

  const Zero3: Vec3 := Vec3(0.0, 0.0, 0.0)

  /** Component-wise sum (glm `a + b`, `a += b`). */
  function Add(a: Vec3, b: Vec3): Vec3 {
    Vec3(a.x + b.x, a.y + b.y, a.z + b.z)
  }

  /** Component-wise difference (glm `a - b`, `a -= b`). */
  function Sub(a: Vec3, b: Vec3): Vec3 {
    Vec3(a.x - b.x, a.y - b.y, a.z - b.z)
  }

  /** Vector times scalar (glm `v * s`). */
  function Scale(v: Vec3, s: real): Vec3 {
    Vec3(v.x * s, v.y * s, v.z * s)
  }

  lemma SubUndoesAdd(p: Vec3, d: Vec3)
    ensures Sub(Add(p, d), d) == p && Add(Sub(p, d), d) == p
  {
  }

  /** Scaling distributes over a sum of scalars: one step by `s + t` is a step by `s` then `t`. */
  lemma ScaleSplits(p: Vec3, v: Vec3, s: real, t: real)
    ensures Add(Add(p, Scale(v, s)), Scale(v, t)) == Add(p, Scale(v, s + t))
    ensures Sub(Sub(p, Scale(v, s)), Scale(v, t)) == Sub(p, Scale(v, s + t))
  {
  }
}
