# Recursive fractal generators, modelled in Dafny

The repository draws five fractals on an HTML canvas, each with a recursive
function in `src/fractals.ts`:

- the Koch "rectangle" curve, which puts a square staircase on the middle
  third of a segment;
- the Sierpinski carpet;
- the Sierpinski triangle;
- the Koch snowflake curve;
- a binary tree whose branches can be turned by a random angle.

This project models those five generators. It also models the generators'
helpers: the `rotate` function inside `KochRectangle`, the random-turn
helper `rand`, and the `Vec2` point type.

The canvas is modelled as a recording surface, the class
`Drawing.Context2D`. It keeps three things:

- `log`, every call the generators make to it, in order;
- `transform`, the current transform, kept as the word of rotations and
  translations composed onto it;
- `saved`, the stack of transforms that `save` pushes and `restore` pops.

Each generator has three parts:

- **The method.** It follows the source step by step: it computes the same
  points, makes the same canvas calls in the same order and recurses in the
  same order.
- **A specification function.** It gives the log the method appends, as a
  value. The method's contract says it appends exactly that log and leaves
  the transform and the saved stack as it found them. For the tree, it also
  says how many random draws the method takes.
- **Lemmas about that function.** These state what the drawing is:
  - how many strokes and fills the log makes, in closed form;
  - that the drawing stays inside its frame;
  - the geometry of the points each level computes;
  - that saves and restores nest;
  - the exact output at depth 1.

Coordinates are exact reals in `Geometry`. The canvas's y axis points down.

## Model

| member | source | states |
|---|---|---|
| Geometry.QuarterTurnIsRightAngle | src/fractals.ts:12-19 | the quarter turn that `rotate` by 90 degrees reduces to is perpendicular to the vector it turns, keeps its length, and twice applied gives the opposite vector |
| Geometry.SqNormScaled | src/fractals.ts:9-24 | scaling a vector by t scales its squared length by t*t; with t == 3 this gives the ninths of `StaircaseThirds` |
| Drawing.CountConcat | src/fractals.ts:36-40 | the number of times a call occurs in two logs played one after the other is the sum of the two counts; the recursive calls append their logs in sequence |
| Drawing.CountZero | src/fractals.ts:26-34 | a call occurs zero times in a log exactly when it is not in the log |
| Drawing.PathCounts | src/fractals.ts:26-34 | a path built only of beginPath, moveTo and lineTo adds no strokes, fills, saves or restores to what follows it |
| Drawing.WellNestedConcat | src/fractals.ts:164-186 | two logs whose saves and restores pair up like brackets still pair up when played one after the other |
| Drawing.WellNestedWrap | src/fractals.ts:164-174 | a save, then a part with neither save nor restore, then a well-nested part, then a restore, is well nested |
| Drawing.DrawsWithinConcat | src/fractals.ts:74-81 | if two logs only move and draw to points in a box, so does the log of one followed by the other |
| Drawing.DrawsWithinInside | src/fractals.ts:74-81 | a log that draws inside a box draws inside every box that contains it |
| Drawing.Context2D.constructor | src/fractals.ts:6 | a fresh surface has an empty log, the initial transform and nothing saved |
| Drawing.Context2D.BeginPath | src/fractals.ts:26 | `beginPath` is appended to the log; the transform and saved stack do not change |
| Drawing.Context2D.MoveTo | src/fractals.ts:27 | `moveTo(p)` is appended; the transform and saved stack do not change |
| Drawing.Context2D.LineTo | src/fractals.ts:28-32 | `lineTo(p)` is appended; the transform and saved stack do not change |
| Drawing.Context2D.ClosePath | src/fractals.ts:34 | `closePath` is appended; the transform and saved stack do not change |
| Drawing.Context2D.Stroke | src/fractals.ts:33 | `stroke` is appended; the transform and saved stack do not change |
| Drawing.Context2D.Fill | src/fractals.ts:70 | `fill` is appended; the transform and saved stack do not change |
| Drawing.Context2D.Save | src/fractals.ts:164 | `save` is appended and the current transform is pushed onto the saved stack |
| Drawing.Context2D.Restore | src/fractals.ts:174 | `restore` is appended and the most recently saved transform is popped and becomes current; with nothing saved it changes nothing |
| Drawing.Context2D.Rotate | src/fractals.ts:166 | `rotate(a)` is appended and a rotation by a is composed onto the transform |
| Drawing.Context2D.Translate | src/fractals.ts:172 | `translate(dx, dy)` is appended and that translation is composed onto the transform |
| KochRectangleFractal.RotatePoint | src/fractals.ts:12-19 | the `rotate` helper with its own formula, cos and sin taken exactly at multiples of 90 degrees; its meaning is given by `RotatePointQuarter` (a quarter turn about c at ±90), `RotatePointUndo` and `RotatePointKeepsDistance` |
| KochRectangleFractal.RotatePointQuarter | src/fractals.ts:12-19 | `rotate` by +90 degrees about c is c plus the quarter turn of p - c, and by -90 degrees is c minus it |
| KochRectangleFractal.CosSinOpposite | src/fractals.ts:13-15 | for a multiple of 90 degrees, cos and sin are exactly one of (1,0), (0,1), (-1,0), (0,-1), and the opposite angle has the same cos and the opposite sin |
| KochRectangleFractal.RotatePointUndo | src/fractals.ts:12-19 | `rotate` by the opposite angle undoes `rotate` |
| KochRectangleFractal.RotatePointKeepsDistance | src/fractals.ts:12-19 | `rotate` keeps the distance from the centre |
| KochRectangleFractal.StaircaseOf | src/fractals.ts:9-24 | the staircase keeps the segment's ends p1 and p2; `StaircaseTurns` ties d3 and d4 to `rotate`, `StaircaseIsSquare` shows trisection and a square on the middle third, and `StaircaseThirds` shows the five children are a third as long |
| KochRectangleFractal.StaircaseTurns | src/fractals.ts:21-24 | d3 is d2 turned +90 degrees about d1, and d4 is d1 turned -90 degrees about d2, as the helper computes them |
| KochRectangleFractal.StaircaseIsSquare | src/fractals.ts:9-24 | with v = d2 - d1: p2 - p1 == 3v, d1 - p1 == v == p2 - d2, d3 - d1 == d4 - d2 == the quarter turn of v, and d4 - d3 == v; the raised part is a square on the middle third |
| KochRectangleFractal.StaircaseThirds | src/fractals.ts:9-24 | each of the five child segments is a third as long as the parent segment |
| KochRectangleFractal.DrawStaircase | src/fractals.ts:26-34 | appends beginPath, moveTo p1, lineTo d1, d3, d4, d2, p2, stroke, closePath |
| KochRectangleFractal.KochRectangle | src/fractals.ts:6-41 | appends exactly `KochRectangleLog(p1, p2, n)`: nothing at depth 0; otherwise this level's staircase, then the five children p1->d1, d1->d3, d3->d4, d4->d2, d2->p2 at depth n-1, in that order; leaves the transform alone |
| KochRectangleFractal.KochRectangleLevel | src/fractals.ts:26-40 | appends the staircase and then the five children's logs |
| KochRectangleFractal.StaircasePathCounts | src/fractals.ts:26-34 | one level's path strokes once and fills nothing |
| KochRectangleFractal.KochRectangleCounts | src/fractals.ts:6-41 | depth n strokes (5^n - 1)/4 times (1 + 5 + ... + 5^(n-1): every level draws), fills nothing, and is empty exactly when n == 0 |
| KochRectangleFractal.LevelCounts | src/fractals.ts:26-40 | a level with children of depth m strokes (5^(m+1) - 1)/4 times and fills nothing |
| KochRectangleFractal.KochRectangleParentFirst | src/fractals.ts:26-40 | for n >= 1 the log starts with this level's 9-command staircase, drawn before any child, and the rest holds every other stroke |
| KochRectangleFractal.KochRectangleDepthOne | src/fractals.ts:6-41 | depth 1 on (0,0)->(300,0) draws exactly the staircase (0,0), (100,0), (100,-100), (200,-100), (200,0), (300,0) |
| SierpinskiCarpetFractal.GridOf | src/fractals.ts:46-61 | the centre points p1..p4, the edge points s1..s8 and the eight child quads of lines 74-81; `GridCells` identifies them with the cells of an independent 3x3 grid and `CarpetChildren` shows the children are distinct, not the centre, a third of the size and inside the frame |
| SierpinskiCarpetFractal.GridCells | src/fractals.ts:46-61 | on an axis-aligned frame, the eight recursion frames are the grid cells (col,row) = (0,2), (1,2), (2,2), (2,1), (2,0), (1,0), (0,0), (0,1) of the 3x3 grid, and the filled quad p4, p3, p2, p1 is the centre cell (1,1) |
| SierpinskiCarpetFractal.ThirdSpan | src/fractals.ts:46-61 | cell t of a three-way split of an interval is a third of it and lies inside it |
| SierpinskiCarpetFractal.CellGeometry | src/fractals.ts:46-61 | every cell of the grid is an axis-aligned rectangle a third as wide and high as its frame, and inside the frame when the frame is a box |
| SierpinskiCarpetFractal.CellsDistinct | src/fractals.ts:74-81 | different cells of a frame of positive size are different frames |
| SierpinskiCarpetFractal.CarpetChildren | src/fractals.ts:74-81 | the eight children are axis rectangles of a third the width and height, inside a box frame; on a frame of positive size they are eight different cells and none of them is the centre |
| SierpinskiCarpetFractal.FillCentre | src/fractals.ts:63-72 | appends beginPath, moveTo p1, lineTo p2, p3, p4, p1, fill, closePath |
| SierpinskiCarpetFractal.SierpinskiCarpet | src/fractals.ts:43-82 | appends exactly `SierpinskiCarpetLog(q, n)`: nothing at depth 0; the centre fill only at depth 1; then the eight children at depth n-1 in the source's order; leaves the transform alone |
| SierpinskiCarpetFractal.SierpinskiCarpetLevel | src/fractals.ts:63-81 | appends the centre fill when m == 0, then the eight children's logs |
| SierpinskiCarpetFractal.CentrePathCounts | src/fractals.ts:63-72 | the centre path fills once and strokes nothing |
| SierpinskiCarpetFractal.CarpetCounts | src/fractals.ts:43-82 | depth n >= 1 fills 8^(n-1) quads (only the deepest level draws); nothing is stroked; the log is empty exactly when n == 0 |
| SierpinskiCarpetFractal.CarpetLevelCounts | src/fractals.ts:63-81 | a level with children of depth m fills 8^m quads, strokes nothing and is not empty |
| SierpinskiCarpetFractal.CarpetDepthOne | src/fractals.ts:63-72 | depth 1 on a frame at the origin fills exactly the centre quad and nothing else |
| SierpinskiCarpetFractal.CentreWithin | src/fractals.ts:63-72 | on a box, the filled centre lies inside the frame |
| SierpinskiCarpetFractal.CarpetWithin | src/fractals.ts:43-82 | on a box, every point the carpet moves or draws to at any depth lies inside the frame |
| SierpinskiCarpetFractal.ChildWithin | src/fractals.ts:74-81 | a child's drawing lies inside the parent's frame |
| SierpinskiCarpetFractal.CarpetLevelWithin | src/fractals.ts:63-81 | a level's drawing lies inside its frame |
| SierpinskiTriangleFractal.TriangleOf | src/fractals.ts:87-112 | the points p1, z, p2, p3 and the child quads a1, a2, a3; `TriangleMidpoints` shows p1, p2, p3 is the medial triangle of a, b, z, and `TriangleChildren` shows the children are half-size frames inside the frame |
| SierpinskiTriangleFractal.TriangleMidpoints | src/fractals.ts:87-92 | p2 and p3 are the midpoints of a-z and b-z, and p3 - p2 is half of b - a; with a horizontal top edge p1 is its midpoint and p1, p2, p3 is the medial triangle of a, b, z; with a horizontal bottom edge z is its midpoint |
| SierpinskiTriangleFractal.TriangleChildren | src/fractals.ts:104-114 | on an axis-aligned frame the three children are axis-aligned frames of half the width and height, with top-left corners at a, at the middle of the top edge, and a quarter of the width in and half the height down; inside the frame when it is a box |
| SierpinskiTriangleFractal.StrokeTriangle | src/fractals.ts:94-102 | appends beginPath, moveTo p1, lineTo p2, p3, p1, stroke, closePath |
| SierpinskiTriangleFractal.SierpinskiTriangle | src/fractals.ts:84-115 | appends exactly `SierpinskiTriangleLog(q, n)`: nothing at depth 0; the triangle only at depth 1; then the three children a1, a2, a3 at depth n-1; leaves the transform alone |
| SierpinskiTriangleFractal.SierpinskiTriangleLevel | src/fractals.ts:94-114 | appends the triangle when m == 0, then the three children's logs |
| SierpinskiTriangleFractal.TrianglePathCounts | src/fractals.ts:94-102 | the triangle path strokes once and fills nothing |
| SierpinskiTriangleFractal.TriangleCounts | src/fractals.ts:84-115 | depth n >= 1 strokes 3^(n-1) triangles, fills nothing, and is empty exactly when n == 0 |
| SierpinskiTriangleFractal.TriangleLevelCounts | src/fractals.ts:94-114 | a level with children of depth m strokes 3^m triangles and is not empty |
| SierpinskiTriangleFractal.TrianglePathWithin | src/fractals.ts:87-102 | on a box, the triangle's corners lie inside the frame |
| SierpinskiTriangleFractal.TriangleWithin | src/fractals.ts:84-115 | on a box, every point drawn at any depth lies inside the frame |
| SierpinskiTriangleFractal.ChildWithin | src/fractals.ts:104-114 | a child's drawing lies inside the parent's frame |
| SierpinskiTriangleFractal.TriangleLevelWithin | src/fractals.ts:94-114 | a level's drawing lies inside its frame |
| SierpinskiTriangleFractal.TriangleDepthOne | src/fractals.ts:94-102 | depth 1 on the w x w square at the origin strokes exactly the triangle (w/2,0), (w/4,w/2), (3w/4,w/2) |
| KochSnowflakeFractal.BumpOf | src/fractals.ts:121-137 | the bump keeps the segment's ends a and b; `BumpThirds` shows p1 and p3 trisect it and `BumpEquilateral` shows p1, p2, p3 is equilateral with the apex on the side `angle - PI/3` gives |
| KochSnowflakeFractal.BumpThirds | src/fractals.ts:126-133 | p1 and p3 cut the segment a->b into three equal thirds |
| KochSnowflakeFractal.BumpEquilateral | src/fractals.ts:121-137 | with r the square root of 3, p1, p2, p3 is equilateral with sides a third of the segment, and the apex lies to the left of the direction a->b as seen on the y-down canvas (negative cross product of b - a and p2 - p1); above the segment when it runs left to right |
| KochSnowflakeFractal.StrokeBump | src/fractals.ts:139-147 | appends beginPath, moveTo a, lineTo p1, p2, p3, b, stroke (no closePath) |
| KochSnowflakeFractal.KochSnowFlake | src/fractals.ts:117-153 | appends exactly `KochSnowflakeLog(a, b, r, n)`: nothing at depth 0; the bump only at depth 1; then the four children a->p1, p1->p2, p2->p3, p3->b at depth n-1; leaves the transform alone |
| KochSnowflakeFractal.KochSnowFlakeLevel | src/fractals.ts:139-152 | appends the bump when m == 0, then the four children's logs |
| KochSnowflakeFractal.BumpPathCounts | src/fractals.ts:139-147 | the bump strokes once, fills nothing and never closes its path |
| KochSnowflakeFractal.SnowflakeCounts | src/fractals.ts:117-153 | depth n >= 1 strokes 4^(n-1) polylines, fills nothing, never closes a path, and is empty exactly when n == 0 |
| KochSnowflakeFractal.BumpLevelCounts | src/fractals.ts:139-152 | a level with children of depth m strokes 4^m polylines and is not empty |
| KochSnowflakeFractal.CurveConcat | src/fractals.ts:149-152 | a curve a->x followed by a curve x->b is a curve a->b |
| KochSnowflakeFractal.SnowflakeCurve | src/fractals.ts:117-153 | for n >= 1 the log is one unbroken curve: stroked polylines each starting where the previous one ended, from a to b |
| KochSnowflakeFractal.BumpLevelCurve | src/fractals.ts:139-152 | a level's log is an unbroken curve from the segment's start to its end |
| KochSnowflakeFractal.SnowflakeDepthOne | src/fractals.ts:117-147 | depth 1 on (0,0)->(300,0) strokes exactly (0,0), (100,0), (150,-50r), (200,0), (300,0) |
| TreeFractal.Round | src/fractals.ts:156 | `Math.round`: the result is within a half of x, and a half rounds up |
| TreeFractal.Jitter | src/fractals.ts:155-157 | the arithmetic of `rand` on its two draws; `JitterRange` shows that for draws in [0,1) it is minus or plus a whole number of degrees from 0 to 19 |
| TreeFractal.JitterRange | src/fractals.ts:155-157 | for draws u, v in [0,1), `rand` is minus (u below one half) or plus a whole number of degrees from 0 to 19, in radians, so at most 19 degrees either way |
| TreeFractal.DrawnJitter | src/fractals.ts:155-157 | a turn made from two recorded draws in [0,1) is within 19 degrees of zero |
| TreeFractal.RandomSource.constructor | src/fractals.ts:156 | a source over the recorded draws has taken none |
| TreeFractal.RandomSource.Random | src/fractals.ts:156 | returns the next recorded draw and moves one draw on |
| TreeFractal.Rand | src/fractals.ts:155-157 | takes two draws, the sign draw first, and returns the turn they define |
| TreeFractal.Stem | src/fractals.ts:166-172 | the seven calls of one stem; `StemCounts` shows one stroke and no fill, save or restore, and `StemWithin` shows it draws on the segment (0,0)-(0,l) |
| TreeFractal.DrawStem | src/fractals.ts:166-172 | appends rotate(angle), beginPath, moveTo (0,0), lineTo (0,l), stroke, closePath, translate(0,l), and composes that rotation and translation onto the transform |
| TreeFractal.SaveAndStem | src/fractals.ts:164-172 | saves the transform, takes a random turn only when randomized, and draws the stem turned by `turn` plus that turn |
| TreeFractal.Branch | src/fractals.ts:164-174 | appends exactly one branch's log (save, stem, subtree of depth m with length l/k, restore), takes two draws plus the subtree's when randomized, and restores the transform and saved stack |
| TreeFractal.Tree | src/fractals.ts:159-187 | appends exactly `TreeLog(n, l, k, deg, randomize, values, used)`: nothing at depth 0, else the +deg branch then the -deg branch; takes `Draws(n, randomize)` draws; leaves the transform and saved stack as they were |
| TreeFractal.StemCounts | src/fractals.ts:166-172 | a stem strokes once and neither fills, saves nor restores |
| TreeFractal.TreeCounts | src/fractals.ts:159-187 | depth n strokes, saves and restores 2^(n+1) - 2 times each, fills nothing, and is empty exactly when n == 0 |
| TreeFractal.BranchCounts | src/fractals.ts:164-174 | a branch with a subtree of depth m strokes, saves and restores 2^(m+1) - 1 times each |
| TreeFractal.TreeDraws | src/fractals.ts:159-187 | the draws a tree of depth n takes are twice its strokes when randomized and none otherwise; with the closed form of `DrawsClosedForm`, restated here, that is 4*(2^n - 1) draws |
| TreeFractal.DrawsClosedForm | src/fractals.ts:166-178 | the closed form of the number of draws: 4*(2^n - 1) randomized, 0 otherwise |
| TreeFractal.TreeWellNested | src/fractals.ts:159-187 | at every point of the log no more restores than saves have happened, and in total they are equal |
| TreeFractal.BranchWellNested | src/fractals.ts:164-174 | a branch's saves and restores nest |
| TreeFractal.TreeDeterministic | src/fractals.ts:159-187 | without randomization the log does not depend on the random source |
| TreeFractal.BranchDeterministic | src/fractals.ts:164-174 | without randomization a branch does not depend on the random source |
| TreeFractal.TurnsNearConcat | src/fractals.ts:164-186 | logs whose every rotation is within e of +deg or -deg keep that when concatenated |
| TreeFractal.TreeTurns | src/fractals.ts:159-187 | with draws in [0,1), every rotation is within 19 degrees of +deg or -deg, and exactly +deg or -deg when not randomized |
| TreeFractal.BranchTurns | src/fractals.ts:164-174 | the same bound for one branch |
| TreeFractal.TreeStems | src/fractals.ts:159-187 | with k >= 1 and l >= 0 every point drawn, in the stem's local coordinates, lies on the segment from (0,0) to (0,l): stems never grow |
| TreeFractal.BranchStems | src/fractals.ts:164-174 | the same for one branch |
| TreeFractal.ShorterStem | src/fractals.ts:162 | with k >= 1, l/k lies between 0 and l |
| TreeFractal.TreeDepthOne | src/fractals.ts:159-187 | depth 1 without randomization is exactly: save, the stem turned by deg, restore, save, the stem turned by -deg, restore |

## Left out

- The application around the generators is not part of this model. This covers the page that picks a fractal, reads its parameters and sizes the canvas.
- Pixels, colours, line widths, `scale`, and the matrix arithmetic behind the canvas transform are not modelled. The transform is kept as the word of rotations and translations, which is enough to state that `save` and `restore` put it back.
- Doubles are idealised as exact reals. No model claims anything about rounding, and depth is a `nat`. The source's `n == 0` test on a negative or fractional depth would recurse without end.
- KochRectangleFractal.RotatePoint: cos and sin are taken as exact at multiples of 90 degrees, and the generator only ever turns by +90 and -90 degrees. In doubles they are not exact: `Math.cos((Math.PI / 180) * 90)` is about 6.1e-17, not 0. So the exact quarter turn that d3 and d4 are built from is an idealisation of the source's values.
- KochSnowflakeFractal.BumpOf: the source's square root, `atan2`, `cos` and `sin` are replaced by the exact formula they compute, written with a parameter r for the square root of 3. The geometric lemmas require r > 0 and r*r == 3.
- The apex direction: the code turns by `angle - PI/3`. This puts the apex of (0,0)->(300,0) at (150, -50 * sqrt 3), about (150, -86.6), which is above the segment on the y-down canvas.
- TreeFractal.RandomSource: the runtime's `Math.random` is a sequence of recorded draws, taken in order. A draw past the recorded ones reads as 0. The lemmas that bound the turn require every draw to lie in [0,1).
- TreeFractal.Tree: requires k != 0. The source would divide by zero and go on with an infinite or NaN length.
- TreeFractal.Pi is 3.141592653589793, the shortest decimal rendering of the runtime's `Math.PI`. That value is not the double itself, which is 3.14159265358979311599... . MaxJitter is 19 degrees in that unit.
