/** The Koch curve: every level replaces its segment a -> b by four segments
    a -> p1 -> p2 -> p3 -> b, where p1 and p3 trisect the segment and p2 is
    the apex of an equilateral bump on the middle third; only the deepest
    level draws. Three curves on the sides of a triangle make the snowflake.

    The source finds the apex with a square root, an arc tangent, a cosine
    and a sine: it walks a third of the segment's length from p1 in the
    direction of the segment turned by -60 degrees. Expanding the cosine and
    sine of the difference turns this into the exact formula
    p2 = p1 + ((dx + r * dy) / 6, (dy - r * dx) / 6) for the segment vector
    (dx, dy) and r the square root of 3; the model takes r as a parameter, and
    the lemmas about the apex's geometry require r > 0 and r * r == 3. */
module KochSnowflakeFractal {
  import opened Geometry
  import opened Drawing

  /** `r` is the positive square root of 3. */
  predicate IsRootThree(r: real)
  {
    r > 0.0 && r * r == 3.0
  }

  /** The five points of one bump: the segment's ends a and b, its
      trisection points p1 and p3, and the apex p2. */
  datatype Bump = Bump(a: Vec2, p1: Vec2, p2: Vec2, p3: Vec2, b: Vec2)

  /** The bump the generator computes on segment a -> b. */
  function BumpOf(a: Vec2, b: Vec2, r: real): (s: Bump)
    ensures s.a == a && s.b == b
  {
    var dx, dy := b.x - a.x, b.y - a.y;
    var p1 := Vec2(a.x + dx / 3.0, a.y + dy / 3.0);
    var p3 := Vec2(b.x - dx / 3.0, b.y - dy / 3.0);
    var p2 := Vec2(p1.x + (dx + r * dy) / 6.0, p1.y + (dy - r * dx) / 6.0);
    Bump(a, p1, p2, p3, b)
  }

  /** p1 and p3 cut the segment into three equal thirds. */
  lemma BumpThirds(a: Vec2, b: Vec2, r: real)
    ensures var s := BumpOf(a, b, r);
            Scaled(3.0, Minus(s.p1, a)) == Minus(b, a) &&
            Minus(s.p3, s.p1) == Minus(s.p1, a) && Minus(b, s.p3) == Minus(s.p1, a)
  {
  }

  /** With r the square root of 3, p1, p2, p3 is an equilateral triangle
      whose sides are a third of the segment's length, and the apex lies to
      the left of the direction a -> b as seen on the y-down surface (the
      cross product of b - a and p2 - p1 is negative), which is above the
      segment when it runs left to right, unless the segment is a single
      point. */
  lemma BumpEquilateral(a: Vec2, b: Vec2, r: real)
    requires IsRootThree(r)
    ensures var s := BumpOf(a, b, r);
            9.0 * SqDist(s.p1, s.p2) == SqDist(a, b) && 9.0 * SqDist(s.p2, s.p3) == SqDist(a, b) &&
            9.0 * SqDist(s.p1, s.p3) == SqDist(a, b)
    ensures 6.0 * Cross(Minus(b, a), Minus(BumpOf(a, b, r).p2, BumpOf(a, b, r).p1)) == -r * SqDist(a, b)
  {
    var s := BumpOf(a, b, r);
    var dx, dy := b.x - a.x, b.y - a.y;
    var u := Minus(s.p2, s.p1);
    var v := Minus(s.p3, s.p2);
    assert u == Vec2((dx + r * dy) / 6.0, (dy - r * dx) / 6.0);
    assert v == Vec2((dx - r * dy) / 6.0, (dy + r * dx) / 6.0);
    assert 36.0 * SqNorm(u) == (dx + r * dy) * (dx + r * dy) + (dy - r * dx) * (dy - r * dx);
    assert (dx + r * dy) * (dx + r * dy) + (dy - r * dx) * (dy - r * dx)
        == (1.0 + r * r) * (dx * dx + dy * dy);
    assert 36.0 * SqNorm(v) == (dx - r * dy) * (dx - r * dy) + (dy + r * dx) * (dy + r * dx);
    assert (dx - r * dy) * (dx - r * dy) + (dy + r * dx) * (dy + r * dx)
        == (1.0 + r * r) * (dx * dx + dy * dy);
    assert Minus(s.p3, s.p1) == Vec2(dx / 3.0, dy / 3.0);
    assert 9.0 * SqNorm(Vec2(dx / 3.0, dy / 3.0)) == dx * dx + dy * dy;
    assert 6.0 * Cross(Vec2(dx, dy), u) == dx * (dy - r * dx) - dy * (dx + r * dy);
  }

  /** The polyline drawn at the deepest level: a -> p1 -> p2 -> p3 -> b,
      stroked, with no closing of the path. */
  function BumpPath(s: Bump): seq<Command>
  {
    [BeginPath, MoveTo(s.a), LineTo(s.p1), LineTo(s.p2), LineTo(s.p3), LineTo(s.b), Stroke]
  }

  /** Everything the generator emits for segment a -> b at depth n: nothing
      at depth 0, otherwise one level on the segment's bump. */
  function KochSnowflakeLog(a: Vec2, b: Vec2, r: real, n: nat): seq<Command>
    decreases n, 0
  {
    if n == 0 then [] else BumpLevelLog(BumpOf(a, b, r), r, n - 1)
  }

  /** One level whose children have depth `m`: the bump when the children
      draw nothing (m == 0), then the four child segments in order. */
  function BumpLevelLog(s: Bump, r: real, m: nat): seq<Command>
    decreases m, 1
  {
    (if m == 0 then BumpPath(s) else [])
    + KochSnowflakeLog(s.a, s.p1, r, m) + KochSnowflakeLog(s.p1, s.p2, r, m)
    + KochSnowflakeLog(s.p2, s.p3, r, m) + KochSnowflakeLog(s.p3, s.b, r, m)
  }

  /** Strokes the polyline of bump `s`. */
  method StrokeBump(ctx: Context2D, s: Bump)
    modifies ctx
    ensures ctx.log == old(ctx.log) + BumpPath(s)
    ensures ctx.transform == old(ctx.transform) && ctx.saved == old(ctx.saved)
  {
    ctx.BeginPath();
    ctx.MoveTo(s.a);
    ctx.LineTo(s.p1);
    ctx.LineTo(s.p2);
    ctx.LineTo(s.p3);
    ctx.LineTo(s.b);
    ctx.Stroke();
  }

  /** The generator: depth 0 draws nothing; otherwise it computes the bump on
      a -> b and draws one level on it. */
  method KochSnowFlake(ctx: Context2D, n: nat, a: Vec2, b: Vec2, r: real)
    modifies ctx
    ensures ctx.log == old(ctx.log) + KochSnowflakeLog(a, b, r, n)
    ensures ctx.transform == old(ctx.transform) && ctx.saved == old(ctx.saved)
    decreases n, 0
  {
    if n == 0 {
      return;
    }
    var dx, dy := b.x - a.x, b.y - a.y;
    var p1 := Vec2(a.x + dx / 3.0, a.y + dy / 3.0);
    var p3 := Vec2(b.x - dx / 3.0, b.y - dy / 3.0);
    var p2 := Vec2(p1.x + (dx + r * dy) / 6.0, p1.y + (dy - r * dx) / 6.0);
    var s := Bump(a, p1, p2, p3, b);
    assert s == BumpOf(a, b, r);
    KochSnowFlakeLevel(ctx, s, r, n - 1);
  }

  /** One level of the generator: the bump when `m` is 0, then the four
      recursive calls with depth `m`. */
  method KochSnowFlakeLevel(ctx: Context2D, s: Bump, r: real, m: nat)
    modifies ctx
    ensures ctx.log == old(ctx.log) + BumpLevelLog(s, r, m)
    ensures ctx.transform == old(ctx.transform) && ctx.saved == old(ctx.saved)
    decreases m, 1
  {
    if m == 0 {
      StrokeBump(ctx, s);
    }
    ghost var top := if m == 0 then BumpPath(s) else [];
    assert ctx.log == old(ctx.log) + top;
    KochSnowFlake(ctx, m, s.a, s.p1, r);
    KochSnowFlake(ctx, m, s.p1, s.p2, r);
    KochSnowFlake(ctx, m, s.p2, s.p3, r);
    KochSnowFlake(ctx, m, s.p3, s.b, r);
    AppendFive(old(ctx.log), top, KochSnowflakeLog(s.a, s.p1, r, m), KochSnowflakeLog(s.p1, s.p2, r, m),
      KochSnowflakeLog(s.p2, s.p3, r, m), KochSnowflakeLog(s.p3, s.b, r, m));
  }

  /** The bump strokes once, and neither fills nor closes a path. */
  lemma BumpPathCounts(s: Bump)
    ensures Strokes(BumpPath(s)) == 1 && Fills(BumpPath(s)) == 0 && Count(BumpPath(s), ClosePath) == 0
  {
    var body := [BeginPath, MoveTo(s.a), LineTo(s.p1), LineTo(s.p2), LineTo(s.p3), LineTo(s.b)];
    assert BumpPath(s) == body + [Stroke];
    PathCounts(body, [Stroke]);
    CountZero(BumpPath(s), ClosePath);
  }

  /** The counting step for command `c`: a log made of a top part and four
      children that each hold `c` k times holds it 4 * k times more than the
      top part. */
  lemma CountStep(top: seq<Command>, c1: seq<Command>, c2: seq<Command>, c3: seq<Command>, c4: seq<Command>,
                  c: Command, k: nat)
    requires Count(c1, c) == k && Count(c2, c) == k && Count(c3, c) == k && Count(c4, c) == k
    ensures Count(top + c1 + c2 + c3 + c4, c) == Count(top, c) + 4 * k
  {
    CountConcat5(top, c1, c2, c3, c4, c);
  }

  /** Only the deepest level strokes, once per segment, so depth n >= 1
      strokes 4^(n-1) polylines; nothing is filled, no path is closed, and
      the log is empty exactly at depth 0. */
  lemma {:induction false} SnowflakeCounts(a: Vec2, b: Vec2, r: real, n: nat)
    ensures Strokes(KochSnowflakeLog(a, b, r, n)) == if n == 0 then 0 else Pow(4, n - 1)
    ensures Fills(KochSnowflakeLog(a, b, r, n)) == 0 && Count(KochSnowflakeLog(a, b, r, n), ClosePath) == 0
    ensures KochSnowflakeLog(a, b, r, n) == [] <==> n == 0
    decreases n, 0
  {
    if n > 0 {
      BumpLevelCounts(BumpOf(a, b, r), r, n - 1);
    }
  }

  /** The counts of one level: 4^m strokes, no fills or closings, and a
      non-empty log. */
  lemma {:induction false} BumpLevelCounts(s: Bump, r: real, m: nat)
    ensures Strokes(BumpLevelLog(s, r, m)) == Pow(4, m) && Fills(BumpLevelLog(s, r, m)) == 0
    ensures Count(BumpLevelLog(s, r, m), ClosePath) == 0 && BumpLevelLog(s, r, m) != []
    decreases m, 1
  {
    var top: seq<Command> := if m == 0 then BumpPath(s) else [];
    var c1, c2 := KochSnowflakeLog(s.a, s.p1, r, m), KochSnowflakeLog(s.p1, s.p2, r, m);
    var c3, c4 := KochSnowflakeLog(s.p2, s.p3, r, m), KochSnowflakeLog(s.p3, s.b, r, m);
    assert BumpLevelLog(s, r, m) == top + c1 + c2 + c3 + c4;
    SnowflakeCounts(s.a, s.p1, r, m);
    SnowflakeCounts(s.p1, s.p2, r, m);
    SnowflakeCounts(s.p2, s.p3, r, m);
    SnowflakeCounts(s.p3, s.b, r, m);
    if m == 0 {
      BumpPathCounts(s);
    } else {
      assert Strokes(top) == 0 && Fills(top) == 0 && Count(top, ClosePath) == 0;
    }
    CountStep(top, c1, c2, c3, c4, Stroke, if m == 0 then 0 else Pow(4, m - 1));
    CountStep(top, c1, c2, c3, c4, Fill, 0);
    CountStep(top, c1, c2, c3, c4, ClosePath, 0);
    assert |top + c1| <= |BumpLevelLog(s, r, m)|;
  }

  /** The log is a non-empty run of stroked five-point polylines, the first
      starting at `a`, each starting where the one before it ended, and the
      last ending at `b`: one unbroken curve from a to b. */
  predicate Curve(log: seq<Command>, a: Vec2, b: Vec2)
    decreases |log|
  {
    |log| >= 7 && log[0] == BeginPath && log[1] == MoveTo(a) &&
    log[2].LineTo? && log[3].LineTo? && log[4].LineTo? && log[5].LineTo? && log[6] == Stroke &&
    (if |log| == 7 then log[5].p == b else Curve(log[7..], log[5].p, b))
  }

  /** A curve from a to x followed by a curve from x to b is a curve from a
      to b. */
  lemma {:induction false} CurveConcat(u: seq<Command>, v: seq<Command>, a: Vec2, x: Vec2, b: Vec2)
    requires Curve(u, a, x) && Curve(v, x, b)
    ensures Curve(u + v, a, b)
    decreases |u|
  {
    if |u| == 7 {
      assert (u + v)[7..] == v;
    } else {
      assert (u + v)[7..] == u[7..] + v;
      CurveConcat(u[7..], v, u[5].p, x, b);
    }
  }

  /** At every depth n >= 1 the generator draws one unbroken curve from a to
      b: the four child segments chain a -> p1 -> p2 -> p3 -> b at every
      level. */
  lemma {:induction false} SnowflakeCurve(a: Vec2, b: Vec2, r: real, n: nat)
    requires n >= 1
    ensures Curve(KochSnowflakeLog(a, b, r, n), a, b)
    decreases n, 0
  {
    BumpLevelCurve(BumpOf(a, b, r), r, n - 1);
  }

  /** One level on a bump draws one unbroken curve from its first point to
      its last. */
  lemma {:induction false} BumpLevelCurve(s: Bump, r: real, m: nat)
    ensures Curve(BumpLevelLog(s, r, m), s.a, s.b)
    decreases m, 1
  {
    if m == 0 {
      assert BumpLevelLog(s, r, m) == BumpPath(s) + [] + [] + [] + [];
    } else {
      var c1, c2 := KochSnowflakeLog(s.a, s.p1, r, m), KochSnowflakeLog(s.p1, s.p2, r, m);
      var c3, c4 := KochSnowflakeLog(s.p2, s.p3, r, m), KochSnowflakeLog(s.p3, s.b, r, m);
      assert BumpLevelLog(s, r, m) == c1 + c2 + c3 + c4;
      SnowflakeCurve(s.a, s.p1, r, m);
      SnowflakeCurve(s.p1, s.p2, r, m);
      SnowflakeCurve(s.p2, s.p3, r, m);
      SnowflakeCurve(s.p3, s.b, r, m);
      CurveConcat(c3, c4, s.p2, s.p3, s.b);
      CurveConcat(c2, c3 + c4, s.p1, s.p2, s.b);
      CurveConcat(c1, c2 + (c3 + c4), s.a, s.p1, s.b);
      assert c1 + (c2 + (c3 + c4)) == c1 + c2 + c3 + c4;
    }
  }

  /** Depth 1 on the segment (0, 0) -> (300, 0) strokes exactly the polyline
      (0, 0), (100, 0), (150, -50 r), (200, 0), (300, 0): with r the square
      root of 3 the apex is 50 * sqrt(3), about 86.6, above the segment on
      the y-down surface. */
  lemma SnowflakeDepthOne(r: real)
    ensures KochSnowflakeLog(Vec2(0.0, 0.0), Vec2(300.0, 0.0), r, 1)
         == [BeginPath, MoveTo(Vec2(0.0, 0.0)), LineTo(Vec2(100.0, 0.0)), LineTo(Vec2(150.0, -50.0 * r)),
             LineTo(Vec2(200.0, 0.0)), LineTo(Vec2(300.0, 0.0)), Stroke]
  {
    var s := BumpOf(Vec2(0.0, 0.0), Vec2(300.0, 0.0), r);
    assert KochSnowflakeLog(Vec2(0.0, 0.0), Vec2(300.0, 0.0), r, 1) == BumpLevelLog(s, r, 0);
    assert BumpLevelLog(s, r, 0) == BumpPath(s) + [] + [] + [] + [];
  }
}
