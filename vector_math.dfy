/**
 * The slice of glm that the camera and the lessons use: 3- and 4-component
 * vectors, 3x3 and 4x4 matrices stored column by column (glm's `m[column][row]`),
 * and the right-handed `lookAt` view matrix. Scalars are exact reals.
 *
 * `normalize` needs a square root, which is not modelled: wherever glm normalises,
 * the normalisation is passed in as a function value.
 */
module VectorMath {

  datatype Vec3 = Vec3(x: real, y: real, z: real)

  datatype Vec4 = Vec4(x: real, y: real, z: real, w: real)

  /** Columns c0, c1, c2: `m[1][1]` in glm is `c1.y` here. */
  datatype Mat3 = Mat3(c0: Vec3, c1: Vec3, c2: Vec3)

  datatype Mat4 = Mat4(c0: Vec4, c1: Vec4, c2: Vec4, c3: Vec4)

  /** The unit-length rescaling of glm::normalize, left abstract. */
  type Normalizer = Vec3 -> Vec3

  const Zero3: Vec3 := Vec3(0.0, 0.0, 0.0)

  /** glm::mat3(1.0f) */
  const Identity3: Mat3 := Mat3(Vec3(1.0, 0.0, 0.0), Vec3(0.0, 1.0, 0.0), Vec3(0.0, 0.0, 1.0))

  function Add(a: Vec3, b: Vec3): Vec3 {
    Vec3(a.x + b.x, a.y + b.y, a.z + b.z)
  }

  function Sub(a: Vec3, b: Vec3): Vec3 {
    Vec3(a.x - b.x, a.y - b.y, a.z - b.z)
  }

  function Scale(v: Vec3, k: real): Vec3 {
    Vec3(v.x * k, v.y * k, v.z * k)
  }

  function Dot(a: Vec3, b: Vec3): real {
    a.x * b.x + a.y * b.y + a.z * b.z
  }

  /** glm::cross: exact, no square root involved. */
  function Cross(a: Vec3, b: Vec3): Vec3 {
    Vec3(a.y * b.z - a.z * b.y, a.z * b.x - a.x * b.z, a.x * b.y - a.y * b.x)
  }

  /** The component `v[i]` of glm's index operator. */
  function Component(v: Vec3, i: nat): real
    requires i < 3
  {
    if i == 0 then v.x else if i == 1 then v.y else v.z
  }

  /** The vector `v` after `v[i] = value`. */
  function WithComponent(v: Vec3, i: nat, value: real): (r: Vec3)
    requires i < 3
    ensures Component(r, i) == value
    ensures forall j :: 0 <= j < 3 && j != i ==> Component(r, j) == Component(v, j)
  {
    if i == 0 then v.(x := value) else if i == 1 then v.(y := value) else v.(z := value)
  }

  /** Matrix times column vector, `m * v`. */
  function MulVec(m: Mat3, v: Vec3): Vec3 {
    Add(Add(Scale(m.c0, v.x), Scale(m.c1, v.y)), Scale(m.c2, v.z))
  }

  function MulVec4(m: Mat4, v: Vec4): Vec4 {
    Vec4(m.c0.x * v.x + m.c1.x * v.y + m.c2.x * v.z + m.c3.x * v.w,
         m.c0.y * v.x + m.c1.y * v.y + m.c2.y * v.z + m.c3.y * v.w,
         m.c0.z * v.x + m.c1.z * v.y + m.c2.z * v.z + m.c3.z * v.w,
         m.c0.w * v.x + m.c1.w * v.y + m.c2.w * v.z + m.c3.w * v.w)
  }

  /** A point in homogeneous coordinates. */
  function Point(p: Vec3): Vec4 {
    Vec4(p.x, p.y, p.z, 1.0)
  }

  /**
   * glm::lookAt (right-handed): f = normalize(center - eye), s = normalize(f x up),
   * u = s x f. Whatever `normalize` returns, the eye is mapped to the origin of
   * view space.
   */
  function LookAt(eye: Vec3, center: Vec3, up: Vec3, normalize: Normalizer): (m: Mat4)
    ensures MulVec4(m, Point(eye)) == Vec4(0.0, 0.0, 0.0, 1.0)
  {
    var f := normalize(Sub(center, eye));
    var s := normalize(Cross(f, up));
    ViewFromAxes(s, Cross(s, f), f, eye)
  }

  /** The view matrix with rows s, u, -f and the translation that takes `eye` to the origin. */
  function ViewFromAxes(s: Vec3, u: Vec3, f: Vec3, eye: Vec3): (m: Mat4)
    ensures MulVec4(m, Point(eye)) == Vec4(0.0, 0.0, 0.0, 1.0)
  {
    var m := Mat4(Vec4(s.x, u.x, -f.x, 0.0),
                  Vec4(s.y, u.y, -f.y, 0.0),
                  Vec4(s.z, u.z, -f.z, 0.0),
                  Vec4(-Dot(s, eye), -Dot(u, eye), Dot(f, eye), 1.0));
    assert MulVec4(m, Point(eye)).z == 0.0 by {
      calc {
        MulVec4(m, Point(eye)).z;
        -f.x * eye.x + -f.y * eye.y + -f.z * eye.z + Dot(f, eye) * 1.0;
        -(f.x * eye.x + f.y * eye.y + f.z * eye.z) + Dot(f, eye);
        0.0;
      }
    }
    m
  }
}
