/** Exact real-valued stand-ins for the glm vector types the editor uses
    (glm::vec2, glm::vec3, glm::vec4) and the few operations it applies to them. */
module Vectors {

  datatype Vec2 = Vec2(x: real, y: real)
  datatype Vec3 = Vec3(x: real, y: real, z: real)
  datatype Vec4 = Vec4(x: real, y: real, z: real, w: real)

  const Zero: Vec3 := Vec3(0.0, 0.0, 0.0)

  function Add(a: Vec3, b: Vec3): Vec3 {
    Vec3(a.x + b.x, a.y + b.y, a.z + b.z)
  }

  function Sub(a: Vec3, b: Vec3): Vec3 {
    Vec3(a.x - b.x, a.y - b.y, a.z - b.z)
  }

  function Scale(k: real, a: Vec3): Vec3 {
    Vec3(k * a.x, k * a.y, k * a.z)
  }

  function Dot(a: Vec3, b: Vec3): real {
    a.x * b.x + a.y * b.y + a.z * b.z
  }

  function Cross(a: Vec3, b: Vec3): Vec3 {
    Vec3(a.y * b.z - a.z * b.y, a.z * b.x - a.x * b.z, a.x * b.y - a.y * b.x)
  }

  /** Squared distance between two points. */
  function DistSq(a: Vec3, b: Vec3): real {
    Dot(Sub(a, b), Sub(a, b))
  }

  /** `glm::length(a - b) < threshold`, stated without a square root:
      a length is never negative, so the test holds exactly when the
      threshold is non-negative and the squared distance is below its square. */
  predicate Within(a: Vec3, b: Vec3, threshold: real) {
    0.0 <= threshold && DistSq(a, b) < threshold * threshold
  }

  /** `l` is the Euclidean length of `v`. */
  ghost predicate IsLength(l: real, v: Vec3) {
    0.0 <= l && l * l == Dot(v, v)
  }

  /** Scaling distributes over a sum of factors. */
  lemma ScaleAdd(s: real, w: real, p: Vec3)
    ensures Add(Scale(s, p), Scale(w, p)) == Scale(s + w, p)
  {
  }

  /** Comparing lengths is the same as comparing their squares. */
  lemma SquaresOrdered(a: real, b: real)
    requires 0.0 <= a && 0.0 <= b
    ensures a < b <==> a * a < b * b
  {
    if a < b {
      calc {
        a * a;
      <= a * b;
      <  b * b;
      }
    } else {
      calc {
        b * b;
      <= b * a;
      <= a * a;
      }
    }
  }

  /** `Within` is exactly the source's length test `length(a - b) < threshold`. */
  lemma WithinIsLengthTest(l: real, a: Vec3, b: Vec3, threshold: real)
    requires IsLength(l, Sub(a, b))
    ensures Within(a, b, threshold) <==> l < threshold
  {
    if 0.0 <= threshold {
      SquaresOrdered(l, threshold);
    }
  }

  /** Comparing two lengths (`length(m - p2) < length(m - p1)`) is comparing the squared distances. */
  lemma CloserIsLengthTest(l1: real, l2: real, m: Vec3, p1: Vec3, p2: Vec3)
    requires IsLength(l1, Sub(m, p1)) && IsLength(l2, Sub(m, p2))
    ensures l2 < l1 <==> DistSq(m, p2) < DistSq(m, p1)
  {
    SquaresOrdered(l2, l1);
  }
}
