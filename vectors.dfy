/**
  One lane of the engine's wide vector types, over the reals.

  A `Vector3Wide` holds W independent 3-vectors side by side; every operation the contact
  code uses on it acts lane by lane, so one lane is an ordinary 3-vector. Floating-point
  rounding is not modelled: the components are mathematical reals.
 */
module Vectors {

  datatype Vec3 = Vec3(x: real, y: real, z: real)

  datatype Vec2 = Vec2(x: real, y: real)

  const Zero: Vec3 := Vec3(0.0, 0.0, 0.0)

  function Add(a: Vec3, b: Vec3): Vec3 {
    Vec3(a.x + b.x, a.y + b.y, a.z + b.z)
  }

  function Sub(a: Vec3, b: Vec3): Vec3 {
    Vec3(a.x - b.x, a.y - b.y, a.z - b.z)
  }

  function Scale(v: Vec3, s: real): Vec3 {
    Vec3(v.x * s, v.y * s, v.z * s)
  }

  /** The three components in storage order X, Y, Z. */
  function Components(v: Vec3): seq<real> {
    [v.x, v.y, v.z]
  }

  /** Sum of a sequence of vectors. */
  function Sum(vs: seq<Vec3>): Vec3 {
    if |vs| == 0 then Zero else Add(vs[0], Sum(vs[1..]))
  }

  /** Sum of a sequence of scalars. */
  function SumReals(xs: seq<real>): real {
    if |xs| == 0 then 0.0 else xs[0] + SumReals(xs[1..])
  }

  /** Squared length of a 2-vector (the tangent impulse). */
  function LengthSquared2(v: Vec2): real {
    v.x * v.x + v.y * v.y
  }

  /**
    The distance between two points, as `Vector3Wide.Distance` computes it, is a square root
    that the reals of this model do not provide; callers pass it in as a function, and this
    predicate states what the contact code relies on: it is never negative and a point is at
    distance zero from itself.
   */
  ghost predicate IsDistance(dist: (Vec3, Vec3) -> real) {
    (forall a: Vec3, b: Vec3 :: dist(a, b) >= 0.0) && (forall a: Vec3 :: dist(a, a) == 0.0)
  }
}
