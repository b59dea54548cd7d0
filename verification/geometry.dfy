/** Exact-real model of the plane helpers of the scene demo: a plane through
    three points (calculatePlane) and the evaluation of a plane equation at a
    point (calculateValue). glm::vec3 becomes Vec3 over `real`; the float
    tuple (a, b, c, d) becomes Plane. */
module Geometry {

  /** A glm::vec3: a point or a direction in world space. */
  datatype Vec3 = Vec3(x: real, y: real, z: real)

  /** The four floats (a, b, c, d) of the equation a*x + b*y + c*z + d = 0. */
  datatype Plane = Plane(a: real, b: real, c: real, d: real) {
    /** The (unnormalised) normal vector (a, b, c). */
    function Normal(): Vec3 { Vec3(a, b, c) }
  }

  const Origin := Vec3(0.0, 0.0, 0.0)

  function Add(u: Vec3, v: Vec3): Vec3 { Vec3(u.x + v.x, u.y + v.y, u.z + v.z) }

  function Sub(u: Vec3, v: Vec3): Vec3 { Vec3(u.x - v.x, u.y - v.y, u.z - v.z) }

  function Scale(k: real, v: Vec3): Vec3 { Vec3(k * v.x, k * v.y, k * v.z) }

  function Dot(u: Vec3, v: Vec3): real { u.x * v.x + u.y * v.y + u.z * v.z }

  /** glm::cross. */
  function Cross(u: Vec3, v: Vec3): Vec3
  {
    Vec3(u.y * v.z - u.z * v.y, u.z * v.x - u.x * v.z, u.x * v.y - u.y * v.x)
  }

  /** calculateValue: the plane equation evaluated at `pos`. Its sign tells
      the side of the plane; zero means `pos` lies on it. */
  function CalculateValue(plane: Plane, pos: Vec3): real
  {
    plane.a * pos.x + plane.b * pos.y + plane.c * pos.z + plane.d
  }

  /** calculatePlane: normal cross(b - a, c - a), not normalised, and the
      offset that makes `a` satisfy the equation. */
  function CalculatePlane(a: Vec3, b: Vec3, c: Vec3): (plane: Plane)
    ensures plane.Normal() == Cross(Sub(b, a), Sub(c, a))
    ensures CalculateValue(plane, a) == 0.0
    ensures CalculateValue(plane, b) == 0.0 && CalculateValue(plane, c) == 0.0
  {
    var ab := Sub(b, a);
    var ac := Sub(c, a);
    var n := Cross(ab, ac);
    Plane(n.x, n.y, n.z, -(a.x * n.x + a.y * n.y + a.z * n.z))
  }

  /** The value of the plane through a, b, c at any point p is the triple
      product of the two edges with p - a: the plane equation is affine in p,
      and its sign says on which side of the oriented triangle p lies. */
  lemma PlaneValue(a: Vec3, b: Vec3, c: Vec3, p: Vec3)
    ensures CalculateValue(CalculatePlane(a, b, c), p) == Dot(Cross(Sub(b, a), Sub(c, a)), Sub(p, a))
  {
  }

  /** calculateValue is affine in the point: along the segment from p to q it
      interpolates linearly between the values at the two ends, so a point
      between two points on the same side of a plane is on that side too. */
  lemma ValueAffine(plane: Plane, p: Vec3, q: Vec3, t: real)
    ensures CalculateValue(plane, Add(p, Scale(t, Sub(q, p))))
         == (1.0 - t) * CalculateValue(plane, p) + t * CalculateValue(plane, q)
  {
    var r := Add(p, Scale(t, Sub(q, p)));
    assert plane.a * r.x == (1.0 - t) * (plane.a * p.x) + t * (plane.a * q.x);
    assert plane.b * r.y == (1.0 - t) * (plane.b * p.y) + t * (plane.b * q.y);
    assert plane.c * r.z == (1.0 - t) * (plane.c * p.z) + t * (plane.c * q.z);
  }

  /** Three points are collinear when they coincide in the first two or the
      third lies on the line through the first two. */
  ghost predicate Collinear(a: Vec3, b: Vec3, c: Vec3)
  {
    a == b || exists t: real :: Sub(c, a) == Scale(t, Sub(b, a))
  }

  /** The degenerate case of calculatePlane: collinear input gives a zero
      normal, so the value is zero everywhere; and a zero normal happens only
      for collinear input. */
  lemma DegeneratePlane(a: Vec3, b: Vec3, c: Vec3)
    ensures CalculatePlane(a, b, c).Normal() == Origin <==> Collinear(a, b, c)
    ensures Collinear(a, b, c) ==> forall p :: CalculateValue(CalculatePlane(a, b, c), p) == 0.0
  {
    var u, v := Sub(b, a), Sub(c, a);
    if Collinear(a, b, c) {
      if a != b {
        var t: real :| v == Scale(t, u);
        assert Cross(u, v) == Origin;
      }
    }
    if Cross(u, v) == Origin && a != b {
      var t := ParallelFactor(u, v);
      assert v == Scale(t, u);
    }
  }

  /** When u is non-zero and cross(u, v) is zero, v is a multiple of u; the
      factor is read off a non-zero coordinate of u. */
  lemma ParallelFactor(u: Vec3, v: Vec3) returns (t: real)
    requires u != Origin && Cross(u, v) == Origin
    ensures v == Scale(t, u)
  {
    if u.x != 0.0 {
      t := v.x / u.x;
      SameRatio(u.x, v.x, u.y, v.y);
      SameRatio(u.x, v.x, u.z, v.z);
    } else if u.y != 0.0 {
      t := v.y / u.y;
      SameRatio(u.y, v.y, u.x, v.x);
      SameRatio(u.y, v.y, u.z, v.z);
    } else {
      t := v.z / u.z;
      SameRatio(u.z, v.z, u.x, v.x);
      SameRatio(u.z, v.z, u.y, v.y);
    }
  }

  /** If p != 0 and the 2x2 determinant p*s - q*r vanishes, (r, s) is the
      multiple q / p of (p, q) coordinate by coordinate. */
  lemma SameRatio(p: real, q: real, r: real, s: real)
    requires p != 0.0 && p * s == r * q
    ensures q / p * p == q && s == q / p * r
  {
    var t := q / p;
    assert t * p == q;
    assert (t * r - s) * p == 0.0;
  }

  /** Rotating the three input points does not change the plane: the
      coefficients depend only on the triangle and its winding. */
  lemma CyclicInvariance(a: Vec3, b: Vec3, c: Vec3)
    ensures CalculatePlane(b, c, a) == CalculatePlane(a, b, c)
  {
    var n := Cross(Sub(b, a), Sub(c, a));
    assert Cross(Sub(c, b), Sub(a, b)) == n;
  }

  /** Reversing the winding negates the value at every point: the side called
      positive depends on the order of the three points. */
  lemma WindingFlip(a: Vec3, b: Vec3, c: Vec3, p: Vec3)
    ensures CalculateValue(CalculatePlane(a, c, b), p) == -CalculateValue(CalculatePlane(a, b, c), p)
  {
    assert Cross(Sub(c, a), Sub(b, a)) == Scale(-1.0, Cross(Sub(b, a), Sub(c, a)));
  }
}
