/** The Sierpinski triangle drawn in a quadrilateral frame: every level splits
    its frame into three half-size frames (top-left, top-right, bottom middle)
    and recurses on them; the deepest level strokes the triangle whose corners
    are the midpoints of its frame's top edge and of the two slanted lines from
    the top corners to the middle of the bottom edge. */
module SierpinskiTriangleFractal {
  import opened Geometry
  import opened Drawing

  /** What the generator computes on one frame: the triangle p1, p2, p3 and
      the three child frames in the order it recurses on them. */
  datatype TriangleFrame = TriangleFrame(p1: Vec2, p2: Vec2, p3: Vec2, k1: Quad, k2: Quad, k3: Quad)

  /** The middle of the bottom edge, with the y of corner c. */
  function BottomMiddle(q: Quad): Vec2
  {
    Vec2((q.c.x + q.d.x) * 0.5, q.c.y)
  }

  /** The triangle and the child frames on frame `q` (corners a, b, c, d). */
  function TriangleOf(q: Quad): TriangleFrame
  {
    var a, b, c, d := q.a, q.b, q.c, q.d;
    var p1 := Vec2((a.x + b.x) * 0.5, a.y);
    var z := BottomMiddle(q);
    var p2 := Vec2(a.x + (z.x - a.x) * 0.5, a.y + (z.y - a.y) * 0.5);
    var p3 := Vec2(b.x + (z.x - b.x) * 0.5, b.y + (z.y - b.y) * 0.5);
    TriangleFrame(p1, p2, p3,
                  Quad(a, p1, Vec2(p1.x, (a.y + d.y) * 0.5), Vec2(a.x, (a.y + d.y) * 0.5)),
                  Quad(p1, b, Vec2(b.x, (b.y + c.y) * 0.5), Vec2(p1.x, (b.y + c.y) * 0.5)),
                  Quad(p2, p3, Vec2(p3.x, c.y), Vec2(p2.x, d.y)))
  }

  /** p2 and p3 are the midpoints of the lines from the top corners to the
      middle z of the bottom edge, so p1, p2, p3 is the medial triangle of
      a, b, z: each side is parallel to the opposite side of a, b, z and half
      as long, when the top edge is horizontal (p1 takes a's y); then p1 is
      that edge's midpoint. On an axis-aligned frame z is the bottom edge's midpoint. */
  lemma TriangleMidpoints(q: Quad)
    ensures var t, z := TriangleOf(q), BottomMiddle(q);
            t.p2 == Midpoint(q.a, z) && t.p3 == Midpoint(q.b, z) &&
            Minus(t.p3, t.p2) == Scaled(0.5, Minus(q.b, q.a))
    ensures var t, z := TriangleOf(q), BottomMiddle(q);
            q.a.y == q.b.y ==>
              t.p1 == Midpoint(q.a, q.b) &&
              Minus(t.p2, t.p1) == Scaled(0.5, Minus(z, q.b)) &&
              Minus(t.p1, t.p3) == Scaled(0.5, Minus(q.a, z))
    ensures q.c.y == q.d.y ==> BottomMiddle(q) == Midpoint(q.c, q.d)
  {
  }

  /** On an axis-aligned frame of width w and height h, the children are
      axis-aligned frames of width w/2 and height h/2 with their top-left
      corners at the frame's top-left corner, at the middle of its top edge,
      and a quarter of the width in and half the height down; inside the
      frame when it is a box. */
  lemma TriangleChildren(q: Quad)
    requires IsAxisRect(q)
    ensures var t, w, h := TriangleOf(q), Width(q), Height(q);
            IsAxisRect(t.k1) && IsAxisRect(t.k2) && IsAxisRect(t.k3) &&
            2.0 * Width(t.k1) == w && 2.0 * Width(t.k2) == w && 2.0 * Width(t.k3) == w &&
            2.0 * Height(t.k1) == h && 2.0 * Height(t.k2) == h && 2.0 * Height(t.k3) == h &&
            t.k1.a == q.a && t.k2.a == Vec2(q.a.x + w / 2.0, q.a.y) &&
            t.k3.a == Vec2(q.a.x + w / 4.0, q.a.y + h / 2.0)
    ensures var t := TriangleOf(q);
            IsBox(q) ==> IsBox(t.k1) && IsBox(t.k2) && IsBox(t.k3) &&
                         BoxInside(t.k1, q) && BoxInside(t.k2, q) && BoxInside(t.k3, q)
  {
  }

  /** The stroke drawn at the deepest level: the closed triangle
      p1 -> p2 -> p3 -> p1. */
  function TrianglePath(t: TriangleFrame): seq<Command>
  {
    [BeginPath, MoveTo(t.p1), LineTo(t.p2), LineTo(t.p3), LineTo(t.p1), Stroke, ClosePath]
  }

  /** Everything the generator emits for frame `q` at depth n: nothing at
      depth 0, otherwise one level on the frame's triangle and children. */
  function SierpinskiTriangleLog(q: Quad, n: nat): seq<Command>
    decreases n, 0
  {
    if n == 0 then [] else TriangleLevelLog(TriangleOf(q), n - 1)
  }

  /** One level whose children have depth `m`: the triangle when the children
      draw nothing (m == 0), then the three children in order. */
  function TriangleLevelLog(t: TriangleFrame, m: nat): seq<Command>
    decreases m, 1
  {
    (if m == 0 then TrianglePath(t) else [])
    + SierpinskiTriangleLog(t.k1, m) + SierpinskiTriangleLog(t.k2, m) + SierpinskiTriangleLog(t.k3, m)
  }

  /** Strokes the triangle of `t` as one closed path. */
  method StrokeTriangle(ctx: Context2D, t: TriangleFrame)
    modifies ctx
    ensures ctx.log == old(ctx.log) + TrianglePath(t)
    ensures ctx.transform == old(ctx.transform) && ctx.saved == old(ctx.saved)
  {
    ctx.BeginPath();
    ctx.MoveTo(t.p1);
    ctx.LineTo(t.p2);
    ctx.LineTo(t.p3);
    ctx.LineTo(t.p1);
    ctx.Stroke();
    ctx.ClosePath();
  }

  /** The generator: depth 0 draws nothing; otherwise it computes the triangle
      and the child frames of a, b, c, d and draws one level. */
  method SierpinskiTriangle(ctx: Context2D, a: Vec2, b: Vec2, c: Vec2, d: Vec2, n: nat)
    modifies ctx
    ensures ctx.log == old(ctx.log) + SierpinskiTriangleLog(Quad(a, b, c, d), n)
    ensures ctx.transform == old(ctx.transform) && ctx.saved == old(ctx.saved)
    decreases n, 0
  {
    if n == 0 {
      return;
    }
    var p1 := Vec2((a.x + b.x) * 0.5, a.y);
    var z := Vec2((c.x + d.x) * 0.5, c.y);
    var p2 := Vec2(a.x + (z.x - a.x) * 0.5, a.y + (z.y - a.y) * 0.5);
    var p3 := Vec2(b.x + (z.x - b.x) * 0.5, b.y + (z.y - b.y) * 0.5);
    var a1 := Quad(a, p1, Vec2(p1.x, (a.y + d.y) * 0.5), Vec2(a.x, (a.y + d.y) * 0.5));
    var a2 := Quad(p1, b, Vec2(b.x, (b.y + c.y) * 0.5), Vec2(p1.x, (b.y + c.y) * 0.5));
    var a3 := Quad(p2, p3, Vec2(p3.x, c.y), Vec2(p2.x, d.y));
    var t := TriangleFrame(p1, p2, p3, a1, a2, a3);
    assert t == TriangleOf(Quad(a, b, c, d));
    SierpinskiTriangleLevel(ctx, t, n - 1);
  }

  /** One level of the generator: the triangle when `m` is 0, then the three
      recursive calls with depth `m`. */
  method SierpinskiTriangleLevel(ctx: Context2D, t: TriangleFrame, m: nat)
    modifies ctx
    ensures ctx.log == old(ctx.log) + TriangleLevelLog(t, m)
    ensures ctx.transform == old(ctx.transform) && ctx.saved == old(ctx.saved)
    decreases m, 1
  {
    if m == 0 {
      StrokeTriangle(ctx, t);
    }
    ghost var top := if m == 0 then TrianglePath(t) else [];
    assert ctx.log == old(ctx.log) + top;
    SierpinskiTriangle(ctx, t.k1.a, t.k1.b, t.k1.c, t.k1.d, m);
    SierpinskiTriangle(ctx, t.k2.a, t.k2.b, t.k2.c, t.k2.d, m);
    SierpinskiTriangle(ctx, t.k3.a, t.k3.b, t.k3.c, t.k3.d, m);
    AppendFour(old(ctx.log), top, SierpinskiTriangleLog(t.k1, m), SierpinskiTriangleLog(t.k2, m),
      SierpinskiTriangleLog(t.k3, m));
  }

  /** The triangle strokes once and fills nothing. */
  lemma TrianglePathCounts(t: TriangleFrame)
    ensures Strokes(TrianglePath(t)) == 1 && Fills(TrianglePath(t)) == 0
  {
    var body := [BeginPath, MoveTo(t.p1), LineTo(t.p2), LineTo(t.p3), LineTo(t.p1)];
    assert TrianglePath(t) == body + [Stroke, ClosePath];
    PathCounts(body, [Stroke, ClosePath]);
  }

  /** The counting step: a log made of a top part and three children that
      each stroke s times and fill nothing. */
  lemma CountStep(top: seq<Command>, c1: seq<Command>, c2: seq<Command>, c3: seq<Command>,
                  s: nat)
    requires Fills(top) == 0
    requires Strokes(c1) == s && Strokes(c2) == s && Strokes(c3) == s
    requires Fills(c1) == 0 && Fills(c2) == 0 && Fills(c3) == 0
    ensures Strokes(top + c1 + c2 + c3) == Strokes(top) + 3 * s && Fills(top + c1 + c2 + c3) == 0
  {
    CountConcat5(top, c1, c2, c3, [], Stroke);
    CountConcat5(top, c1, c2, c3, [], Fill);
    assert top + c1 + c2 + c3 + [] == top + c1 + c2 + c3;
  }

  /** Only the deepest level strokes, once per frame, so depth n >= 1 strokes
      3^(n-1) triangles; nothing is filled, and the log is empty exactly at
      depth 0. */
  lemma {:induction false} TriangleCounts(q: Quad, n: nat)
    ensures Strokes(SierpinskiTriangleLog(q, n)) == if n == 0 then 0 else Pow(3, n - 1)
    ensures Fills(SierpinskiTriangleLog(q, n)) == 0
    ensures SierpinskiTriangleLog(q, n) == [] <==> n == 0
    decreases n, 0
  {
    if n > 0 {
      TriangleLevelCounts(TriangleOf(q), n - 1);
    }
  }

  /** The counts of one level: 3^m strokes, no fills, and a non-empty log. */
  lemma {:induction false} TriangleLevelCounts(t: TriangleFrame, m: nat)
    ensures Strokes(TriangleLevelLog(t, m)) == Pow(3, m) && Fills(TriangleLevelLog(t, m)) == 0
    ensures TriangleLevelLog(t, m) != []
    decreases m, 1
  {
    var top: seq<Command> := if m == 0 then TrianglePath(t) else [];
    var c1, c2, c3 := SierpinskiTriangleLog(t.k1, m), SierpinskiTriangleLog(t.k2, m), SierpinskiTriangleLog(t.k3, m);
    assert TriangleLevelLog(t, m) == top + c1 + c2 + c3;
    TriangleCounts(t.k1, m);
    TriangleCounts(t.k2, m);
    TriangleCounts(t.k3, m);
    if m == 0 {
      TrianglePathCounts(t);
    } else {
      assert Fills(top) == 0 && Strokes(top) == 0;
    }
    CountStep(top, c1, c2, c3, if m == 0 then 0 else Pow(3, m - 1));
    assert |top + c1| <= |TriangleLevelLog(t, m)|;
  }

  /** The triangle of a box stays inside the box. */
  lemma TrianglePathWithin(q: Quad)
    requires IsBox(q)
    ensures DrawsWithin(TrianglePath(TriangleOf(q)), q)
  {
    var t := TriangleOf(q);
    assert Within(t.p1, q) && Within(t.p2, q) && Within(t.p3, q);
  }

  /** On a box frame every point the generator moves or draws to lies in the
      frame, at every depth. */
  lemma {:induction false} TriangleWithin(q: Quad, n: nat)
    requires IsBox(q)
    ensures DrawsWithin(SierpinskiTriangleLog(q, n), q)
    decreases n, 0
  {
    if n > 0 {
      TriangleLevelWithin(q, n - 1);
    }
  }

  /** A child box inside the frame draws inside the frame. */
  lemma {:induction false} ChildWithin(k: Quad, q: Quad, m: nat)
    requires IsBox(k) && BoxInside(k, q)
    ensures DrawsWithin(SierpinskiTriangleLog(k, m), q)
    decreases m, 1
  {
    TriangleWithin(k, m);
    DrawsWithinInside(SierpinskiTriangleLog(k, m), k, q);
  }

  /** One level on a box's frame draws inside the box. */
  lemma {:induction false} TriangleLevelWithin(q: Quad, m: nat)
    requires IsBox(q)
    ensures DrawsWithin(TriangleLevelLog(TriangleOf(q), m), q)
    decreases m, 2
  {
    var t := TriangleOf(q);
    var top: seq<Command> := if m == 0 then TrianglePath(t) else [];
    if m == 0 {
      TrianglePathWithin(q);
    }
    TriangleChildren(q);
    ChildWithin(t.k1, q, m);
    ChildWithin(t.k2, q, m);
    ChildWithin(t.k3, q, m);
    var c1, c2, c3 := SierpinskiTriangleLog(t.k1, m), SierpinskiTriangleLog(t.k2, m), SierpinskiTriangleLog(t.k3, m);
    DrawsWithinConcat9(top, c1, c2, c3, [], [], [], [], [], q);
    assert TriangleLevelLog(t, m) == top + c1 + c2 + c3 + [] + [] + [] + [] + [];
  }

  /** Depth 1 on the square of side w with its top-left corner at the origin
      strokes exactly the triangle (w/2, 0), (w/4, w/2), (3w/4, w/2). */
  lemma TriangleDepthOne(w: real)
    ensures SierpinskiTriangleLog(Quad(Vec2(0.0, 0.0), Vec2(w, 0.0), Vec2(w, w), Vec2(0.0, w)), 1)
         == [BeginPath, MoveTo(Vec2(w / 2.0, 0.0)), LineTo(Vec2(w / 4.0, w / 2.0)),
             LineTo(Vec2(3.0 * w / 4.0, w / 2.0)), LineTo(Vec2(w / 2.0, 0.0)), Stroke, ClosePath]
  {
    var q := Quad(Vec2(0.0, 0.0), Vec2(w, 0.0), Vec2(w, w), Vec2(0.0, w));
    var t := TriangleOf(q);
    assert SierpinskiTriangleLog(q, 1) == TriangleLevelLog(t, 0);
    assert TriangleLevelLog(t, 0) == TrianglePath(t) + [] + [] + [];
  }
}
