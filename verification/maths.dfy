/** The 2D half-plane tests of src/lib/maths.ts. */
module Maths {
  import opened Vectors

  /** The dot product; a vector's dot product with itself, its squared
      length, is never negative. */
  function Dot(a: Float2, b: Float2): (r: real)
    ensures a == b ==> r >= 0.0
  {
    a.x * b.x + a.y * b.y
  }

  /** Twice the signed area of the triangle (a, b, p): the 2D cross product
      of p - a with b - a, written out as a reference for the edge test. */
  function EdgeFunction(a: Float2, b: Float2, p: Float2): real {
    (p.x - a.x) * (b.y - a.y) - (p.y - a.y) * (b.x - a.x)
  }

  /** Whether p lies on the right of, or on, the line from a to b. */
  function PointOnRightSideOfLine(a: Float2, b: Float2, p: Float2): (r: bool)
    ensures r <==> EdgeFunction(a, b, p) >= 0.0
  {
    var ap := p.Sub(a);
    var abPerp := b.Sub(a).Perpendicular();
    Dot(ap, abPerp) >= 0.0
  }

  /** Whether p passes the right-side test against all three edges AB, BC, CA. */
  function PointInTriangle(a: Float2, b: Float2, c: Float2, p: Float2): (r: bool)
    ensures r <==> EdgeFunction(a, b, p) >= 0.0 && EdgeFunction(b, c, p) >= 0.0 && EdgeFunction(c, a, p) >= 0.0
  {
    var sideAB := PointOnRightSideOfLine(a, b, p);
    var sideBC := PointOnRightSideOfLine(b, c, p);
    var sideCA := PointOnRightSideOfLine(c, a, p);
    sideAB && sideBC && sideCA
  }

  lemma DotSymmetric(a: Float2, b: Float2)
    ensures Dot(a, b) == Dot(b, a)
  {
  }

  /** The line's own endpoints are on its right side. */
  lemma EndpointsOnRightSide(a: Float2, b: Float2)
    ensures PointOnRightSideOfLine(a, b, a)
    ensures PointOnRightSideOfLine(a, b, b)
  {
    assert EdgeFunction(a, b, b) == 0.0;
  }

  /** A line of zero length puts every point on its right side. */
  lemma DegenerateLineAcceptsAll(a: Float2, p: Float2)
    ensures PointOnRightSideOfLine(a, a, p)
  {
  }

  /** Swapping the ends of an edge negates its edge function. */
  lemma EdgeFunctionAntisymmetric(a: Float2, b: Float2, p: Float2)
    ensures EdgeFunction(b, a, p) == -EdgeFunction(a, b, p)
  {
    var u, v := p.x - a.x, p.y - a.y;
    var dx, dy := b.x - a.x, b.y - a.y;
    assert p.x - b.x == u - dx && p.y - b.y == v - dy;
    calc {
      EdgeFunction(b, a, p);
      (u - dx) * (-dy) - (v - dy) * (-dx);
      -(u * dy) + dx * dy + v * dx - dy * dx;
      -(u * dy - v * dx);
    }
  }

  /** The test does not depend on which vertex is named first. */
  lemma PointInTriangleRotation(a: Float2, b: Float2, c: Float2, p: Float2)
    ensures PointInTriangle(a, b, c, p) == PointInTriangle(b, c, a, p)
  {
  }

  /** Reversing the winding rejects a point that is strictly inside. */
  lemma ReversedWindingRejects(a: Float2, b: Float2, c: Float2, p: Float2)
    requires EdgeFunction(a, b, p) > 0.0 && EdgeFunction(b, c, p) > 0.0 && EdgeFunction(c, a, p) > 0.0
    ensures !PointInTriangle(a, c, b, p)
  {
    EdgeFunctionAntisymmetric(c, a, p);
  }

  /** A triangle whose three corners coincide reports every point inside. */
  lemma DegenerateTriangleAcceptsAll(a: Float2, p: Float2)
    ensures PointInTriangle(a, a, a, p)
  {
  }

  /** A corner is inside its own triangle exactly when the triangle's
      signed area (edge function of the opposite edge) is not negative. */
  lemma CornerInsideIffNonNegativeArea(a: Float2, b: Float2, c: Float2)
    ensures PointInTriangle(a, b, c, a) <==> EdgeFunction(b, c, a) >= 0.0
  {
    assert EdgeFunction(a, b, a) == 0.0;
    assert EdgeFunction(c, a, a) == 0.0;
  }
}
