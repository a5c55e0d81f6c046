/** The Sierpinski carpet: every level cuts its frame into a 3 x 3 grid,
    recurses on the eight outer cells, and the deepest level fills the centre
    cell of its frame, so only the leaves of the recursion draw. */
module SierpinskiCarpetFractal {
  import opened Geometry
  import opened Drawing

  /** What the generator computes on one frame: the centre cell's corners
      p1 (bottom-left), p2 (bottom-right), p3 (top-right), p4 (top-left), and
      the eight outer cells k1 .. k8 in the order it recurses on them. */
  datatype CarpetGrid = CarpetGrid(p1: Vec2, p2: Vec2, p3: Vec2, p4: Vec2,
                                   k1: Quad, k2: Quad, k3: Quad, k4: Quad,
                                   k5: Quad, k6: Quad, k7: Quad, k8: Quad)

  /** The grid on frame `q` (corners a, b, c, d): p1 .. p4 at the 1/3 and 2/3
      fractions of the width and height, s1 .. s8 the trisection points of the
      left, top, right and bottom edges, and the outer cells built from them. */
  function GridOf(q: Quad): CarpetGrid
  {
    var a, b, c, d := q.a, q.b, q.c, q.d;
    var p1 := Vec2(a.x + (b.x - a.x) * (1.0 / 3.0), a.y + (d.y - a.y) * (2.0 / 3.0));
    var p2 := Vec2(a.x + (b.x - a.x) * (2.0 / 3.0), a.y + (d.y - a.y) * (2.0 / 3.0));
    var p3 := Vec2(a.x + (b.x - a.x) * (2.0 / 3.0), a.y + (d.y - a.y) * (1.0 / 3.0));
    var p4 := Vec2(a.x + (b.x - a.x) * (1.0 / 3.0), a.y + (d.y - a.y) * (1.0 / 3.0));
    var s1 := Vec2(a.x, a.y + (d.y - a.y) * (1.0 / 3.0));
    var s2 := Vec2(a.x, a.y + (d.y - a.y) * (2.0 / 3.0));
    var s3 := Vec2(a.x + (b.x - a.x) * (1.0 / 3.0), a.y);
    var s4 := Vec2(a.x + (b.x - a.x) * (2.0 / 3.0), a.y);
    var s5 := Vec2(b.x, a.y + (d.y - a.y) * (2.0 / 3.0));
    var s6 := Vec2(b.x, a.y + (d.y - a.y) * (1.0 / 3.0));
    var s7 := Vec2(a.x + (b.x - a.x) * (1.0 / 3.0), c.y);
    var s8 := Vec2(a.x + (b.x - a.x) * (2.0 / 3.0), c.y);
    CarpetGrid(p1, p2, p3, p4,
               Quad(s2, p1, s7, d), Quad(p1, p2, s8, s7), Quad(p2, s5, c, s8), Quad(p3, s6, s5, p2),
               Quad(s4, b, s6, p3), Quad(s3, s4, p3, p4), Quad(a, s3, p4, s1), Quad(s1, p4, p1, s2))
  }

  /** Cell (col, row) of the 3 x 3 grid on an axis-aligned frame, columns
      counted from the left edge and rows from the top edge: a reference
      definition independent of the generator's formulas. */
  function Cell(q: Quad, col: int, row: int): (k: Quad)
  {
    var x0, y0 := q.a.x, q.a.y;
    var w, h := Width(q) / 3.0, Height(q) / 3.0;
    Quad(Vec2(x0 + (col as real) * w, y0 + (row as real) * h),
         Vec2(x0 + (col as real + 1.0) * w, y0 + (row as real) * h),
         Vec2(x0 + (col as real + 1.0) * w, y0 + (row as real + 1.0) * h),
         Vec2(x0 + (col as real) * w, y0 + (row as real + 1.0) * h))
  }

  /** On an axis-aligned frame the outer cells are the grid's cells in the
      order left column bottom, bottom middle, bottom right, right middle,
      top right, top middle, top left, left middle -- every cell but the
      centre, once each -- and the filled quad p4, p3, p2, p1 is the centre
      cell. */
  lemma GridCells(q: Quad)
    requires IsAxisRect(q)
    ensures var g := GridOf(q);
            g.k1 == Cell(q, 0, 2) && g.k2 == Cell(q, 1, 2) && g.k3 == Cell(q, 2, 2) && g.k4 == Cell(q, 2, 1) &&
            g.k5 == Cell(q, 2, 0) && g.k6 == Cell(q, 1, 0) && g.k7 == Cell(q, 0, 0) && g.k8 == Cell(q, 0, 1) &&
            Quad(g.p4, g.p3, g.p2, g.p1) == Cell(q, 1, 1)
  {
  }

  /** The eight outer cells in the order the generator recurses on them. */
  function Children(g: CarpetGrid): seq<Quad>
  {
    [g.k1, g.k2, g.k3, g.k4, g.k5, g.k6, g.k7, g.k8]
  }

  /** The filled centre quad, with its corners listed top-left first like a
      frame's. */
  function Centre(g: CarpetGrid): Quad
  {
    Quad(g.p4, g.p3, g.p2, g.p1)
  }

  /** The grid column and row of each outer cell, in recursion order. */
  const ChildCols: seq<int> := [0, 1, 2, 2, 2, 1, 0, 0]
  const ChildRows: seq<int> := [2, 2, 2, 1, 0, 0, 0, 1]

  /** Along one axis, the span of index t of a three-way split of the
      interval from x0 to x1 is a third of the interval, and lies inside it
      when x0 <= x1. */
  lemma ThirdSpan(x0: real, x1: real, t: int)
    requires 0 <= t < 3
    ensures var lo, hi := x0 + (t as real) * ((x1 - x0) / 3.0), x0 + (t as real + 1.0) * ((x1 - x0) / 3.0);
            3.0 * (hi - lo) == x1 - x0 && (x0 <= x1 ==> x0 <= lo <= hi <= x1)
  {
    var len := x1 - x0;
    if t == 0 {
      assert (t as real) * (len / 3.0) == 0.0 && (t as real + 1.0) * (len / 3.0) == len / 3.0;
    } else if t == 1 {
      assert (t as real) * (len / 3.0) == len / 3.0 && (t as real + 1.0) * (len / 3.0) == 2.0 * len / 3.0;
    } else {
      assert (t as real) * (len / 3.0) == 2.0 * len / 3.0 && (t as real + 1.0) * (len / 3.0) == len;
    }
  }

  /** A cell of the grid is an axis-aligned rectangle a third as wide and a
      third as high as the frame, and a box inside the frame when the frame
      is a box. */
  lemma CellGeometry(q: Quad, col: int, row: int)
    requires IsAxisRect(q) && 0 <= col < 3 && 0 <= row < 3
    ensures var k := Cell(q, col, row);
            IsAxisRect(k) && 3.0 * Width(k) == Width(q) && 3.0 * Height(k) == Height(q) &&
            (IsBox(q) ==> IsBox(k) && BoxInside(k, q))
  {
    ThirdSpan(q.a.x, q.b.x, col);
    ThirdSpan(q.a.y, q.d.y, row);
  }

  /** Distinct cells of a frame of positive width and height are distinct. */
  lemma CellsDistinct(q: Quad, col: int, row: int, col': int, row': int)
    requires Width(q) > 0.0 && Height(q) > 0.0
    requires col != col' || row != row'
    ensures Cell(q, col, row) != Cell(q, col', row')
  {
    var w, h := Width(q) / 3.0, Height(q) / 3.0;
    if col != col' {
      assert (col as real) * w != (col' as real) * w;
    } else {
      assert (row as real) * h != (row' as real) * h;
    }
  }

  /** On an axis-aligned frame each of the eight children is an axis-aligned
      rectangle a third as wide and a third as high as the frame, inside the
      frame when the frame is a box; when the frame has positive width and
      height the children are eight different cells, none of them the centre. */
  lemma CarpetChildren(q: Quad)
    requires IsAxisRect(q)
    ensures var ks := Children(GridOf(q));
            |ks| == 8 &&
            forall i | 0 <= i < 8 ::
              IsAxisRect(ks[i]) && 3.0 * Width(ks[i]) == Width(q) && 3.0 * Height(ks[i]) == Height(q) &&
              (IsBox(q) ==> IsBox(ks[i]) && BoxInside(ks[i], q))
    ensures var g := GridOf(q);
            Width(q) > 0.0 && Height(q) > 0.0 ==>
              Centre(g) !in Children(g) && forall i, j | 0 <= i < j < 8 :: Children(g)[i] != Children(g)[j]
  {
    var g := GridOf(q);
    var ks := Children(g);
    GridCells(q);
    assert forall i | 0 <= i < 8 :: ks[i] == Cell(q, ChildCols[i], ChildRows[i]);
    forall i | 0 <= i < 8
      ensures IsAxisRect(ks[i]) && 3.0 * Width(ks[i]) == Width(q) && 3.0 * Height(ks[i]) == Height(q)
      ensures IsBox(q) ==> IsBox(ks[i]) && BoxInside(ks[i], q)
    {
      CellGeometry(q, ChildCols[i], ChildRows[i]);
    }
    if Width(q) > 0.0 && Height(q) > 0.0 {
      forall i | 0 <= i < 8
        ensures ks[i] != Centre(g)
      {
        CellsDistinct(q, ChildCols[i], ChildRows[i], 1, 1);
      }
      forall i, j | 0 <= i < j < 8
        ensures ks[i] != ks[j]
      {
        CellsDistinct(q, ChildCols[i], ChildRows[i], ChildCols[j], ChildRows[j]);
      }
    }
  }

  /** The fill drawn at the deepest level: the centre cell p1 -> p2 -> p3 ->
      p4 -> p1, filled. */
  function CentrePath(g: CarpetGrid): seq<Command>
  {
    [BeginPath, MoveTo(g.p1), LineTo(g.p2), LineTo(g.p3), LineTo(g.p4), LineTo(g.p1), Fill, ClosePath]
  }

  /** Everything the generator emits for frame `q` at depth n: nothing at
      depth 0, otherwise one level on the frame's grid. */
  function SierpinskiCarpetLog(q: Quad, n: nat): seq<Command>
    decreases n, 0
  {
    if n == 0 then [] else CarpetLevelLog(GridOf(q), n - 1)
  }

  /** One level on grid `g` whose children have depth `m`: the centre fill
      when the children draw nothing (m == 0), then the eight outer cells in
      order. */
  function CarpetLevelLog(g: CarpetGrid, m: nat): seq<Command>
    decreases m, 1
  {
    (if m == 0 then CentrePath(g) else [])
    + SierpinskiCarpetLog(g.k1, m) + SierpinskiCarpetLog(g.k2, m) + SierpinskiCarpetLog(g.k3, m)
    + SierpinskiCarpetLog(g.k4, m) + SierpinskiCarpetLog(g.k5, m) + SierpinskiCarpetLog(g.k6, m)
    + SierpinskiCarpetLog(g.k7, m) + SierpinskiCarpetLog(g.k8, m)
  }

  /** Fills the centre cell of `g` as one path. */
  method FillCentre(ctx: Context2D, g: CarpetGrid)
    modifies ctx
    ensures ctx.log == old(ctx.log) + CentrePath(g)
    ensures ctx.transform == old(ctx.transform) && ctx.saved == old(ctx.saved)
  {
    ctx.BeginPath();
    ctx.MoveTo(g.p1);
    ctx.LineTo(g.p2);
    ctx.LineTo(g.p3);
    ctx.LineTo(g.p4);
    ctx.LineTo(g.p1);
    ctx.Fill();
    ctx.ClosePath();
  }

  /** The generator: depth 0 draws nothing; otherwise it computes the grid on
      the frame a, b, c, d and draws one level on it. */
  method SierpinskiCarpet(ctx: Context2D, a: Vec2, b: Vec2, c: Vec2, d: Vec2, n: nat)
    modifies ctx
    ensures ctx.log == old(ctx.log) + SierpinskiCarpetLog(Quad(a, b, c, d), n)
    ensures ctx.transform == old(ctx.transform) && ctx.saved == old(ctx.saved)
    decreases n, 0
  {
    if n == 0 {
      return;
    }
    var p1 := Vec2(a.x + (b.x - a.x) * (1.0 / 3.0), a.y + (d.y - a.y) * (2.0 / 3.0));
    var p2 := Vec2(a.x + (b.x - a.x) * (2.0 / 3.0), a.y + (d.y - a.y) * (2.0 / 3.0));
    var p3 := Vec2(a.x + (b.x - a.x) * (2.0 / 3.0), a.y + (d.y - a.y) * (1.0 / 3.0));
    var p4 := Vec2(a.x + (b.x - a.x) * (1.0 / 3.0), a.y + (d.y - a.y) * (1.0 / 3.0));
    var s1 := Vec2(a.x, a.y + (d.y - a.y) * (1.0 / 3.0));
    var s2 := Vec2(a.x, a.y + (d.y - a.y) * (2.0 / 3.0));
    var s3 := Vec2(a.x + (b.x - a.x) * (1.0 / 3.0), a.y);
    var s4 := Vec2(a.x + (b.x - a.x) * (2.0 / 3.0), a.y);
    var s5 := Vec2(b.x, a.y + (d.y - a.y) * (2.0 / 3.0));
    var s6 := Vec2(b.x, a.y + (d.y - a.y) * (1.0 / 3.0));
    var s7 := Vec2(a.x + (b.x - a.x) * (1.0 / 3.0), c.y);
    var s8 := Vec2(a.x + (b.x - a.x) * (2.0 / 3.0), c.y);
    var g := CarpetGrid(p1, p2, p3, p4,
                        Quad(s2, p1, s7, d), Quad(p1, p2, s8, s7), Quad(p2, s5, c, s8), Quad(p3, s6, s5, p2),
                        Quad(s4, b, s6, p3), Quad(s3, s4, p3, p4), Quad(a, s3, p4, s1), Quad(s1, p4, p1, s2));
    assert g == GridOf(Quad(a, b, c, d));
    SierpinskiCarpetLevel(ctx, g, n - 1);
  }

  /** One level of the generator on grid `g`: the centre fill when `m` is 0,
      then the eight recursive calls with depth `m`. */
  method SierpinskiCarpetLevel(ctx: Context2D, g: CarpetGrid, m: nat)
    modifies ctx
    ensures ctx.log == old(ctx.log) + CarpetLevelLog(g, m)
    ensures ctx.transform == old(ctx.transform) && ctx.saved == old(ctx.saved)
    decreases m, 1
  {
    if m == 0 {
      FillCentre(ctx, g);
    }
    ghost var top := if m == 0 then CentrePath(g) else [];
    assert ctx.log == old(ctx.log) + top;
    SierpinskiCarpet(ctx, g.k1.a, g.k1.b, g.k1.c, g.k1.d, m);
    SierpinskiCarpet(ctx, g.k2.a, g.k2.b, g.k2.c, g.k2.d, m);
    SierpinskiCarpet(ctx, g.k3.a, g.k3.b, g.k3.c, g.k3.d, m);
    SierpinskiCarpet(ctx, g.k4.a, g.k4.b, g.k4.c, g.k4.d, m);
    SierpinskiCarpet(ctx, g.k5.a, g.k5.b, g.k5.c, g.k5.d, m);
    SierpinskiCarpet(ctx, g.k6.a, g.k6.b, g.k6.c, g.k6.d, m);
    SierpinskiCarpet(ctx, g.k7.a, g.k7.b, g.k7.c, g.k7.d, m);
    SierpinskiCarpet(ctx, g.k8.a, g.k8.b, g.k8.c, g.k8.d, m);
    AppendNine(old(ctx.log), top, SierpinskiCarpetLog(g.k1, m), SierpinskiCarpetLog(g.k2, m),
      SierpinskiCarpetLog(g.k3, m), SierpinskiCarpetLog(g.k4, m), SierpinskiCarpetLog(g.k5, m),
      SierpinskiCarpetLog(g.k6, m), SierpinskiCarpetLog(g.k7, m), SierpinskiCarpetLog(g.k8, m));
  }

  /** The centre path fills once and strokes nothing. */
  lemma CentrePathCounts(g: CarpetGrid)
    ensures Fills(CentrePath(g)) == 1 && Strokes(CentrePath(g)) == 0
  {
    var body := [BeginPath, MoveTo(g.p1), LineTo(g.p2), LineTo(g.p3), LineTo(g.p4), LineTo(g.p1)];
    assert CentrePath(g) == body + [Fill, ClosePath];
    PathCounts(body, [Fill, ClosePath]);
  }

  /** The counting step: a log made of a top part and eight children that
      each fill f times and stroke nothing. */
  lemma CountStep(top: seq<Command>, c1: seq<Command>, c2: seq<Command>, c3: seq<Command>,
                  c4: seq<Command>, c5: seq<Command>, c6: seq<Command>, c7: seq<Command>, c8: seq<Command>, f: nat)
    requires Strokes(top) == 0
    requires Fills(c1) == f && Fills(c2) == f && Fills(c3) == f && Fills(c4) == f
    requires Fills(c5) == f && Fills(c6) == f && Fills(c7) == f && Fills(c8) == f
    requires Strokes(c1) == 0 && Strokes(c2) == 0 && Strokes(c3) == 0 && Strokes(c4) == 0
    requires Strokes(c5) == 0 && Strokes(c6) == 0 && Strokes(c7) == 0 && Strokes(c8) == 0
    ensures var log := top + c1 + c2 + c3 + c4 + c5 + c6 + c7 + c8;
            Fills(log) == Fills(top) + 8 * f && Strokes(log) == 0
  {
    CountConcat9(top, c1, c2, c3, c4, c5, c6, c7, c8, Fill);
    CountConcat9(top, c1, c2, c3, c4, c5, c6, c7, c8, Stroke);
  }

  /** Only the deepest level fills, once per frame, so depth n >= 1 fills
      8^(n-1) quads; nothing is stroked, and the log is empty exactly at
      depth 0. */
  lemma {:induction false} CarpetCounts(q: Quad, n: nat)
    ensures Fills(SierpinskiCarpetLog(q, n)) == if n == 0 then 0 else Pow(8, n - 1)
    ensures Strokes(SierpinskiCarpetLog(q, n)) == 0
    ensures SierpinskiCarpetLog(q, n) == [] <==> n == 0
    decreases n, 0
  {
    if n > 0 {
      CarpetLevelCounts(GridOf(q), n - 1);
    }
  }

  /** The counts of one level: 8^m fills, no strokes, and a non-empty log. */
  lemma {:induction false} CarpetLevelCounts(g: CarpetGrid, m: nat)
    ensures Fills(CarpetLevelLog(g, m)) == Pow(8, m) && Strokes(CarpetLevelLog(g, m)) == 0
    ensures CarpetLevelLog(g, m) != []
    decreases m, 1
  {
    var top: seq<Command> := if m == 0 then CentrePath(g) else [];
    var c1, c2 := SierpinskiCarpetLog(g.k1, m), SierpinskiCarpetLog(g.k2, m);
    var c3, c4 := SierpinskiCarpetLog(g.k3, m), SierpinskiCarpetLog(g.k4, m);
    var c5, c6 := SierpinskiCarpetLog(g.k5, m), SierpinskiCarpetLog(g.k6, m);
    var c7, c8 := SierpinskiCarpetLog(g.k7, m), SierpinskiCarpetLog(g.k8, m);
    assert CarpetLevelLog(g, m) == top + c1 + c2 + c3 + c4 + c5 + c6 + c7 + c8;
    CarpetCounts(g.k1, m);
    CarpetCounts(g.k2, m);
    CarpetCounts(g.k3, m);
    CarpetCounts(g.k4, m);
    CarpetCounts(g.k5, m);
    CarpetCounts(g.k6, m);
    CarpetCounts(g.k7, m);
    CarpetCounts(g.k8, m);
    var f := if m == 0 then 0 else Pow(8, m - 1);
    if m == 0 {
      CentrePathCounts(g);
    } else {
      assert Fills(top) == 0 && Strokes(top) == 0;
    }
    CountStep(top, c1, c2, c3, c4, c5, c6, c7, c8, f);
    assert |top + c1| <= |CarpetLevelLog(g, m)|;
  }

  /** Depth 1 on the 300 x 300 frame with its top-left corner at the origin
      fills exactly the middle 100 x 100 square, and does nothing else; the
      corners b.y, c and d.x play no part. */
  lemma CarpetDepthOne(b: Vec2, c: Vec2, d: Vec2)
    requires b.x == 300.0 && d.y == 300.0
    ensures SierpinskiCarpetLog(Quad(Vec2(0.0, 0.0), b, c, d), 1)
         == [BeginPath, MoveTo(Vec2(100.0, 200.0)), LineTo(Vec2(200.0, 200.0)), LineTo(Vec2(200.0, 100.0)),
             LineTo(Vec2(100.0, 100.0)), LineTo(Vec2(100.0, 200.0)), Fill, ClosePath]
  {
    var q := Quad(Vec2(0.0, 0.0), b, c, d);
    var g := GridOf(q);
    assert SierpinskiCarpetLog(q, 1) == CarpetLevelLog(g, 0);
    assert CarpetLevelLog(g, 0) == CentrePath(g) + [] + [] + [] + [] + [] + [] + [] + [];
  }

  /** The centre fill of a box's grid stays inside the box. */
  lemma CentreWithin(q: Quad)
    requires IsBox(q)
    ensures DrawsWithin(CentrePath(GridOf(q)), q)
  {
    var g := GridOf(q);
    GridCells(q);
    CellGeometry(q, 1, 1);
    var k := Centre(g);
    WithinInside(g.p1, k, q);
    WithinInside(g.p2, k, q);
    WithinInside(g.p3, k, q);
    WithinInside(g.p4, k, q);
  }

  /** On a box frame every point the generator moves or draws to lies in the
      frame, at every depth. */
  lemma {:induction false} CarpetWithin(q: Quad, n: nat)
    requires IsBox(q)
    ensures DrawsWithin(SierpinskiCarpetLog(q, n), q)
    decreases n, 0
  {
    if n > 0 {
      CarpetLevelWithin(q, n - 1);
    }
  }

  /** A child box inside the frame draws inside the frame. */
  lemma {:induction false} ChildWithin(k: Quad, q: Quad, m: nat)
    requires IsBox(k) && BoxInside(k, q)
    ensures DrawsWithin(SierpinskiCarpetLog(k, m), q)
    decreases m, 1
  {
    CarpetWithin(k, m);
    DrawsWithinInside(SierpinskiCarpetLog(k, m), k, q);
  }

  /** One level on a box's grid draws inside the box. */
  lemma {:induction false} CarpetLevelWithin(q: Quad, m: nat)
    requires IsBox(q)
    ensures DrawsWithin(CarpetLevelLog(GridOf(q), m), q)
    decreases m, 2
  {
    var g := GridOf(q);
    var top: seq<Command> := if m == 0 then CentrePath(g) else [];
    if m == 0 {
      CentreWithin(q);
    }
    CarpetChildren(q);
    var ks := Children(g);
    assert ks[0] == g.k1 && ks[1] == g.k2 && ks[2] == g.k3 && ks[3] == g.k4;
    assert ks[4] == g.k5 && ks[5] == g.k6 && ks[6] == g.k7 && ks[7] == g.k8;
    ChildWithin(g.k1, q, m);
    ChildWithin(g.k2, q, m);
    ChildWithin(g.k3, q, m);
    ChildWithin(g.k4, q, m);
    ChildWithin(g.k5, q, m);
    ChildWithin(g.k6, q, m);
    ChildWithin(g.k7, q, m);
    ChildWithin(g.k8, q, m);
    DrawsWithinConcat9(top, SierpinskiCarpetLog(g.k1, m), SierpinskiCarpetLog(g.k2, m),
      SierpinskiCarpetLog(g.k3, m), SierpinskiCarpetLog(g.k4, m), SierpinskiCarpetLog(g.k5, m),
      SierpinskiCarpetLog(g.k6, m), SierpinskiCarpetLog(g.k7, m), SierpinskiCarpetLog(g.k8, m), q);
  }
}
