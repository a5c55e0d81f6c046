/** Plane geometry shared by the five fractal generators.

    Coordinates are exact reals: the source computes with IEEE doubles, and the
    model idealises them (no rounding). The drawing surface has y pointing down. */
module Geometry {

  /** A point, or a displacement, of the drawing plane (the source's `Vec2`). */
  datatype Vec2 = Vec2(x: real, y: real)

  function Plus(p: Vec2, q: Vec2): Vec2 { Vec2(p.x + q.x, p.y + q.y) }

  function Minus(p: Vec2, q: Vec2): Vec2 { Vec2(p.x - q.x, p.y - q.y) }

  function Scaled(t: real, v: Vec2): Vec2 { Vec2(t * v.x, t * v.y) }

  /** The midpoint of `p` and `q`, as a reference definition. */
  function Midpoint(p: Vec2, q: Vec2): Vec2 { Vec2((p.x + q.x) / 2.0, (p.y + q.y) / 2.0) }

  function Dot(u: Vec2, v: Vec2): real { u.x * v.x + u.y * v.y }

  /** The z-component of the cross product: negative when `v` points to the
      negative-y side of `u` (upwards on a y-down surface, for `u` pointing right). */
  function Cross(u: Vec2, v: Vec2): real { u.x * v.y - u.y * v.x }

  function SqNorm(v: Vec2): real { Dot(v, v) }

  /** The squared Euclidean distance between two points. */
  function SqDist(p: Vec2, q: Vec2): real { SqNorm(Minus(q, p)) }

  /** The exact quarter-turn (x, y) |-> (y, -x). */
  function QuarterTurn(v: Vec2): Vec2 { Vec2(v.y, -v.x) }

  /** Scaling a vector by `t` scales its squared length by `t * t`. */
  lemma SqNormScaled(t: real, v: Vec2)
    ensures SqNorm(Scaled(t, v)) == t * t * SqNorm(v)
  {
    calc {
      SqNorm(Scaled(t, v));
      (t * v.x) * (t * v.x) + (t * v.y) * (t * v.y);
      t * t * (v.x * v.x) + t * t * (v.y * v.y);
      t * t * SqNorm(v);
    }
  }

  /** A quarter-turn is perpendicular to the vector it turns and keeps its length. */
  lemma QuarterTurnIsRightAngle(v: Vec2)
    ensures Dot(v, QuarterTurn(v)) == 0.0
    ensures SqNorm(QuarterTurn(v)) == SqNorm(v)
    ensures QuarterTurn(QuarterTurn(v)) == Scaled(-1.0, v)
  {
    assert (-v.x) * (-v.x) == v.x * v.x;
  }

  /** A quadrilateral frame a, b, c, d: top-left, top-right, bottom-right,
      bottom-left when it is an axis-aligned rectangle on a y-down surface. */
  datatype Quad = Quad(a: Vec2, b: Vec2, c: Vec2, d: Vec2)

  /** The frame is an axis-aligned rectangle (top and bottom edges horizontal,
      left and right edges vertical). */
  predicate IsAxisRect(q: Quad)
  {
    q.a.y == q.b.y && q.c.y == q.d.y && q.a.x == q.d.x && q.b.x == q.c.x
  }

  function Width(q: Quad): real { q.b.x - q.a.x }

  function Height(q: Quad): real { q.d.y - q.a.y }

  /** An axis-aligned rectangle of non-negative width and height. */
  predicate IsBox(q: Quad)
  {
    IsAxisRect(q) && Width(q) >= 0.0 && Height(q) >= 0.0
  }

  /** `p` lies in the closed region spanned by the box `q`. */
  predicate Within(p: Vec2, q: Quad)
  {
    q.a.x <= p.x <= q.b.x && q.a.y <= p.y <= q.d.y
  }

  /** Box `inner` lies inside box `outer`. */
  predicate BoxInside(inner: Quad, outer: Quad)
  {
    outer.a.x <= inner.a.x && inner.b.x <= outer.b.x && outer.a.y <= inner.a.y && inner.d.y <= outer.d.y
  }

  /** Containment of boxes carries over to the points they contain. */
  lemma WithinInside(p: Vec2, inner: Quad, outer: Quad)
    requires Within(p, inner) && BoxInside(inner, outer)
    ensures Within(p, outer)
  {
  }
}
