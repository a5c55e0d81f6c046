/** The Koch rectangle curve: every level replaces a segment by a square
    "staircase" of five segments, strokes that staircase, and recurses on each
    of its five segments, so every level of the recursion is drawn. */
module KochRectangleFractal {
  import opened Geometry
  import opened Drawing

  /** cos of `angle` degrees, exact for a multiple of 90 degrees. */
  function CosDeg(angle: int): real
    requires angle % 90 == 0
  {
    var quarter := (angle % 360) / 90;
    if quarter == 0 then 1.0 else if quarter == 2 then -1.0 else 0.0
  }

  /** sin of `angle` degrees, exact for a multiple of 90 degrees. */
  function SinDeg(angle: int): real
    requires angle % 90 == 0
  {
    var quarter := (angle % 360) / 90;
    if quarter == 1 then 1.0 else if quarter == 3 then -1.0 else 0.0
  }

  /** The generator's inner `rotate` helper: turns `p` about `c` by `angle`
      degrees with the source's formula, for the multiples of 90 degrees on
      which cos and sin are exact. */
  function RotatePoint(c: Vec2, p: Vec2, angle: int): Vec2
    requires angle % 90 == 0
  {
    var cos := CosDeg(angle);
    var sin := SinDeg(angle);
    Vec2(cos * (p.x - c.x) + sin * (p.y - c.y) + c.x,
         cos * (p.y - c.y) - sin * (p.x - c.x) + c.y)
  }

  /** Turning by +90 degrees is the exact quarter-turn of the offset from the
      centre, and turning by -90 degrees is its opposite. */
  lemma RotatePointQuarter(c: Vec2, p: Vec2)
    ensures RotatePoint(c, p, 90) == Plus(c, QuarterTurn(Minus(p, c)))
    ensures RotatePoint(c, p, -90) == Minus(c, QuarterTurn(Minus(p, c)))
  {
  }

  /** The opposite angle has the same cosine and the opposite sine, and the
      cosine and sine of a multiple of 90 degrees are 1, 0, -1, 0 or 0, 1, 0, -1. */
  lemma CosSinOpposite(angle: int)
    requires angle % 90 == 0
    ensures CosDeg(-angle) == CosDeg(angle) && SinDeg(-angle) == -SinDeg(angle)
    ensures (CosDeg(angle) == 1.0 && SinDeg(angle) == 0.0) || (CosDeg(angle) == -1.0 && SinDeg(angle) == 0.0)
         || (CosDeg(angle) == 0.0 && SinDeg(angle) == 1.0) || (CosDeg(angle) == 0.0 && SinDeg(angle) == -1.0)
  {
    var r := angle % 360;
    var k := angle / 360;
    assert angle == 360 * k + r && 0 <= r < 360;
    assert r % 90 == 0;
    var q := r / 90;
    assert r == 90 * q && 0 <= q < 4;
    if q == 0 {
      assert -angle == 360 * (-k) + 0;
      assert (-angle) % 360 == 0;
    } else {
      assert -angle == 360 * (-k - 1) + 90 * (4 - q);
      assert (-angle) % 360 == 90 * (4 - q);
      assert ((-angle) % 360) / 90 == 4 - q;
    }
  }

  /** Turning back by the opposite angle undoes a turn. */
  lemma RotatePointUndo(c: Vec2, p: Vec2, angle: int)
    requires angle % 90 == 0
    ensures RotatePoint(c, RotatePoint(c, p, angle), -angle) == p
  {
    CosSinOpposite(angle);
  }

  /** A turn keeps the distance from the centre. */
  lemma RotatePointKeepsDistance(c: Vec2, p: Vec2, angle: int)
    requires angle % 90 == 0
    ensures SqDist(c, RotatePoint(c, p, angle)) == SqDist(c, p)
  {
    CosSinOpposite(angle);
    var u, w := p.x - c.x, p.y - c.y;
    assert SqDist(c, p) == u * u + w * w;
    assert (-u) * (-u) == u * u && (-w) * (-w) == w * w;
  }

  /** The six corners of the staircase drawn for one segment, in drawing
      order: the segment's start p1, the trisection point d1, the two raised
      corners d3 and d4, the trisection point d2 and the segment's end p2. */
  datatype Staircase = Staircase(p1: Vec2, d1: Vec2, d3: Vec2, d4: Vec2, d2: Vec2, p2: Vec2)

  /** The staircase the generator builds on p1 -> p2: d1 and d2 a third and two
      thirds of the way along, d3 is d2 turned +90 degrees about d1 and d4 is
      d1 turned -90 degrees about d2 (the turns written out; see
      `StaircaseTurns`). */
  function StaircaseOf(p1: Vec2, p2: Vec2): (s: Staircase)
    ensures s.p1 == p1 && s.p2 == p2
  {
    var d1 := Vec2(p1.x + (1.0 / 3.0) * (p2.x - p1.x), p1.y + (1.0 / 3.0) * (p2.y - p1.y));
    var d2 := Vec2(p1.x + (2.0 / 3.0) * (p2.x - p1.x), p1.y + (2.0 / 3.0) * (p2.y - p1.y));
    var d3 := Vec2(d1.x + (d2.y - d1.y), d1.y - (d2.x - d1.x));
    var d4 := Vec2(d2.x - (d1.y - d2.y), d2.y + (d1.x - d2.x));
    Staircase(p1, d1, d3, d4, d2, p2)
  }

  /** The raised corners are the generator's `rotate` of one trisection point
      about the other, by +90 and -90 degrees. */
  lemma StaircaseTurns(p1: Vec2, p2: Vec2)
    ensures var s := StaircaseOf(p1, p2);
            s.d3 == RotatePoint(s.d1, s.d2, 90) && s.d4 == RotatePoint(s.d2, s.d1, -90)
  {
  }

  /** The staircase is three equal thirds along the segment with a square
      d1, d3, d4, d2 standing on the middle third: with v the middle third,
      d1 - p1 == v == p2 - d2, d3 - d1 == d4 - d2 is v turned a quarter, and
      d4 - d3 == v. */
  lemma StaircaseIsSquare(p1: Vec2, p2: Vec2)
    ensures var s := StaircaseOf(p1, p2);
            var v := Minus(s.d2, s.d1);
            Minus(p2, p1) == Scaled(3.0, v) &&
            Minus(s.d1, s.p1) == v && Minus(s.p2, s.d2) == v &&
            Minus(s.d3, s.d1) == QuarterTurn(v) && Minus(s.d4, s.d2) == QuarterTurn(v) &&
            Minus(s.d4, s.d3) == v
  {
  }

  /** Each of the five child segments is one third as long as the parent
      segment (squared lengths one ninth). */
  lemma StaircaseThirds(p1: Vec2, p2: Vec2)
    ensures var s := StaircaseOf(p1, p2);
            var whole := SqDist(p1, p2);
            9.0 * SqDist(s.p1, s.d1) == whole && 9.0 * SqDist(s.d1, s.d3) == whole &&
            9.0 * SqDist(s.d3, s.d4) == whole && 9.0 * SqDist(s.d4, s.d2) == whole &&
            9.0 * SqDist(s.d2, s.p2) == whole
  {
    var s := StaircaseOf(p1, p2);
    var v := Minus(s.d2, s.d1);
    StaircaseIsSquare(p1, p2);
    SqNormScaled(3.0, v);
    QuarterTurnIsRightAngle(v);
    assert SqDist(p1, p2) == 9.0 * SqNorm(v);
    assert Minus(s.d2, s.d4) == Scaled(-1.0, QuarterTurn(v));
    SqNormScaled(-1.0, QuarterTurn(v));
  }

  /** The commands one level emits: the staircase as one stroked path. */
  function StaircasePath(s: Staircase): seq<Command>
  {
    [BeginPath, MoveTo(s.p1), LineTo(s.d1), LineTo(s.d3), LineTo(s.d4), LineTo(s.d2), LineTo(s.p2),
     Stroke, ClosePath]
  }

  /** Everything the generator emits for segment p1 -> p2 at depth n: nothing
      at depth 0, otherwise one level on the segment's staircase. */
  function KochRectangleLog(p1: Vec2, p2: Vec2, n: nat): seq<Command>
    decreases n, 0
  {
    if n == 0 then [] else LevelLog(StaircaseOf(p1, p2), n - 1)
  }

  /** One level on staircase `s`: the staircase's path, then its five
      segments in order at depth `m`. */
  function LevelLog(s: Staircase, m: nat): seq<Command>
    decreases m, 1
  {
    StaircasePath(s)
    + KochRectangleLog(s.p1, s.d1, m) + KochRectangleLog(s.d1, s.d3, m) + KochRectangleLog(s.d3, s.d4, m)
    + KochRectangleLog(s.d4, s.d2, m) + KochRectangleLog(s.d2, s.p2, m)
  }

  /** Strokes the staircase `s` as one path (the drawing half of one level). */
  method DrawStaircase(ctx: Context2D, s: Staircase)
    modifies ctx
    ensures ctx.log == old(ctx.log) + StaircasePath(s)
    ensures ctx.transform == old(ctx.transform) && ctx.saved == old(ctx.saved)
  {
    ctx.BeginPath();
    ctx.MoveTo(s.p1);
    ctx.LineTo(s.d1);
    ctx.LineTo(s.d3);
    ctx.LineTo(s.d4);
    ctx.LineTo(s.d2);
    ctx.LineTo(s.p2);
    ctx.Stroke();
    ctx.ClosePath();
  }

  /** The generator: depth 0 draws nothing; otherwise it builds the staircase
      for p1 -> p2 with `rotate` and draws one level on it. */
  method KochRectangle(ctx: Context2D, p1: Vec2, p2: Vec2, n: nat)
    modifies ctx
    ensures ctx.log == old(ctx.log) + KochRectangleLog(p1, p2, n)
    ensures ctx.transform == old(ctx.transform) && ctx.saved == old(ctx.saved)
    decreases n, 0
  {
    if n == 0 {
      return;
    }
    var d1 := Vec2(p1.x + (1.0 / 3.0) * (p2.x - p1.x), p1.y + (1.0 / 3.0) * (p2.y - p1.y));
    var d2 := Vec2(p1.x + (2.0 / 3.0) * (p2.x - p1.x), p1.y + (2.0 / 3.0) * (p2.y - p1.y));
    var d3 := RotatePoint(d1, d2, 90);
    var d4 := RotatePoint(d2, d1, -90);
    var s := Staircase(p1, d1, d3, d4, d2, p2);
    StaircaseTurns(p1, p2);
    assert s == StaircaseOf(p1, p2);
    KochRectangleLevel(ctx, s, n - 1);
  }

  /** One level of the generator on staircase `s`: strokes the staircase, then
      recurses on its five segments, in drawing order, with depth `m`. */
  method KochRectangleLevel(ctx: Context2D, s: Staircase, m: nat)
    modifies ctx
    ensures ctx.log == old(ctx.log) + LevelLog(s, m)
    ensures ctx.transform == old(ctx.transform) && ctx.saved == old(ctx.saved)
    decreases m, 1
  {
    DrawStaircase(ctx, s);
    KochRectangle(ctx, s.p1, s.d1, m);
    KochRectangle(ctx, s.d1, s.d3, m);
    KochRectangle(ctx, s.d3, s.d4, m);
    KochRectangle(ctx, s.d4, s.d2, m);
    KochRectangle(ctx, s.d2, s.p2, m);
    AppendSix(old(ctx.log), StaircasePath(s), KochRectangleLog(s.p1, s.d1, m), KochRectangleLog(s.d1, s.d3, m),
      KochRectangleLog(s.d3, s.d4, m), KochRectangleLog(s.d4, s.d2, m), KochRectangleLog(s.d2, s.p2, m));
  }

  /** The counts of one level's path: one stroke and nothing else. */
  lemma StaircasePathCounts(s: Staircase)
    ensures Strokes(StaircasePath(s)) == 1 && Fills(StaircasePath(s)) == 0
  {
    var body := [BeginPath, MoveTo(s.p1), LineTo(s.d1), LineTo(s.d3), LineTo(s.d4), LineTo(s.d2), LineTo(s.p2)];
    assert StaircasePath(s) == body + [Stroke, ClosePath];
    PathCounts(body, [Stroke, ClosePath]);
  }

  /** The counting step: a log made of one stroked path and five children
      that each satisfy the count for depth m satisfies it for depth m + 1. */
  lemma CountStep(top: seq<Command>, c0: seq<Command>, c1: seq<Command>,
                  c2: seq<Command>, c3: seq<Command>, c4: seq<Command>, p: nat)
    requires Strokes(top) == 1 && Fills(top) == 0
    requires 4 * Strokes(c0) + 1 == p && 4 * Strokes(c1) + 1 == p && 4 * Strokes(c2) + 1 == p
    requires 4 * Strokes(c3) + 1 == p && 4 * Strokes(c4) + 1 == p
    requires Fills(c0) == 0 && Fills(c1) == 0 && Fills(c2) == 0 && Fills(c3) == 0 && Fills(c4) == 0
    ensures 4 * Strokes(top + c0 + c1 + c2 + c3 + c4) + 1 == 5 * p && Fills(top + c0 + c1 + c2 + c3 + c4) == 0
  {
    CountConcat6(top, c0, c1, c2, c3, c4, Stroke);
    CountConcat6(top, c0, c1, c2, c3, c4, Fill);
  }

  /** Every level strokes one staircase, so depth n strokes
      1 + 5 + ... + 5^(n-1) == (5^n - 1) / 4 paths, and fills none; the log is
      empty exactly at depth 0. */
  lemma {:induction false} KochRectangleCounts(p1: Vec2, p2: Vec2, n: nat)
    ensures 4 * Strokes(KochRectangleLog(p1, p2, n)) + 1 == Pow(5, n)
    ensures Fills(KochRectangleLog(p1, p2, n)) == 0
    ensures KochRectangleLog(p1, p2, n) == [] <==> n == 0
    decreases n, 0
  {
    if n > 0 {
      LevelCounts(StaircaseOf(p1, p2), n - 1);
    }
  }

  /** The counts of one level: its staircase plus five children of depth m. */
  lemma {:induction false} LevelCounts(s: Staircase, m: nat)
    ensures 4 * Strokes(LevelLog(s, m)) + 1 == 5 * Pow(5, m)
    ensures Fills(LevelLog(s, m)) == 0 && |LevelLog(s, m)| >= 9
    decreases m, 1
  {
    KochRectangleCounts(s.p1, s.d1, m);
    KochRectangleCounts(s.d1, s.d3, m);
    KochRectangleCounts(s.d3, s.d4, m);
    KochRectangleCounts(s.d4, s.d2, m);
    KochRectangleCounts(s.d2, s.p2, m);
    StaircasePathCounts(s);
    CountStep(StaircasePath(s), KochRectangleLog(s.p1, s.d1, m), KochRectangleLog(s.d1, s.d3, m),
      KochRectangleLog(s.d3, s.d4, m), KochRectangleLog(s.d4, s.d2, m), KochRectangleLog(s.d2, s.p2, m), Pow(5, m));
  }

  /** The log starts with this level's staircase, before any child's commands:
      the top level is drawn underneath its children, and the rest of the log
      holds every stroke but that one. */
  lemma KochRectangleParentFirst(p1: Vec2, p2: Vec2, n: nat)
    requires n >= 1
    ensures var log := KochRectangleLog(p1, p2, n);
            |log| >= 9 && log[..9] == StaircasePath(StaircaseOf(p1, p2)) &&
            Strokes(log[9..]) + 1 == Strokes(log)
  {
    var log := KochRectangleLog(p1, p2, n);
    var s := StaircaseOf(p1, p2);
    var c0, c1, c2, c3, c4 := KochRectangleLog(s.p1, s.d1, n - 1), KochRectangleLog(s.d1, s.d3, n - 1),
      KochRectangleLog(s.d3, s.d4, n - 1), KochRectangleLog(s.d4, s.d2, n - 1), KochRectangleLog(s.d2, s.p2, n - 1);
    var rest := c0 + c1 + c2 + c3 + c4;
    assert log == LevelLog(s, n - 1);
    assert LevelLog(s, n - 1) == StaircasePath(s) + c0 + c1 + c2 + c3 + c4;
    SplitAfterFirst(StaircasePath(s), c0, c1, c2, c3, c4);
    assert log[..9] == StaircasePath(s) && log[9..] == rest;
    assert log == StaircasePath(s) + rest;
    StaircasePathCounts(s);
    CountConcat(StaircasePath(s), rest, Stroke);
  }

  /** Depth 1 on the segment (0, 0) -> (300, 0) strokes exactly one staircase
      whose square stands on the middle third, raised to y == -100 (upwards on
      the y-down surface), and nothing else. */
  lemma KochRectangleDepthOne()
    ensures KochRectangleLog(Vec2(0.0, 0.0), Vec2(300.0, 0.0), 1)
         == [BeginPath, MoveTo(Vec2(0.0, 0.0)), LineTo(Vec2(100.0, 0.0)), LineTo(Vec2(100.0, -100.0)),
             LineTo(Vec2(200.0, -100.0)), LineTo(Vec2(200.0, 0.0)), LineTo(Vec2(300.0, 0.0)), Stroke, ClosePath]
  {
    var s := StaircaseOf(Vec2(0.0, 0.0), Vec2(300.0, 0.0));
    assert KochRectangleLog(Vec2(0.0, 0.0), Vec2(300.0, 0.0), 1) == LevelLog(s, 0);
    assert LevelLog(s, 0) == StaircasePath(s) + [] + [] + [] + [] + [];
  }
}
