/** The recursive tree: every level draws two stems of length l from the
    current origin, one turned by +deg and one by -deg (each optionally
    jittered by a random angle), and grows a subtree of depth n - 1 with
    length l / k from the tip of each, inside a save ... restore pair so that
    the transform is back where it was after each branch. The tree draws in
    local coordinates: the stems run along the y axis, and the turns and
    moves live in the transform. */
module TreeFractal {
  import opened Geometry
  import opened Drawing

  /** Pi as 3.141592653589793, the shortest decimal rendering of the
      runtime's `Math.PI`; the double itself is 3.14159265358979311599... */
  const Pi: real := 3.141592653589793

  /** The largest random turn, 19 degrees in radians. */
  const MaxJitter: real := 19.0 * Pi / 180.0

  /** Rounding half-way cases up, as the runtime's `round` does. */
  function Round(x: real): (r: int)
    ensures x - 0.5 < r as real <= x + 0.5
  {
    (x + 0.5).Floor
  }

  /** The random turn computed from two draws u and v of the random source:
      a sign chosen by rounding u (even rounds negative) times a whole number
      of degrees below 20 chosen by v, in radians. */
  function Jitter(u: real, v: real): real
  {
    ((if Round(u) % 2 == 0 then -1.0 else 1.0) * ((v * 20.0).Floor as real) * Pi) / 180.0
  }

  /** Draw i of the recorded draws `values`; a draw past the recorded ones
      reads as 0, itself a possible draw. */
  function Pick(values: seq<real>, i: nat): real
  {
    if i < |values| then values[i] else 0.0
  }

  /** Draws of the random source lie in [0, 1). */
  predicate Uniform(values: seq<real>)
  {
    forall i | 0 <= i < |values| :: 0.0 <= values[i] < 1.0
  }

  /** For draws in [0, 1), the turn is minus (for u below one half) or plus
      (otherwise) a whole number of degrees from 0 to 19, and so lies within
      MaxJitter of zero. */
  lemma JitterRange(u: real, v: real)
    requires 0.0 <= u < 1.0 && 0.0 <= v < 1.0
    ensures var d := (v * 20.0).Floor;
            0 <= d < 20 && Jitter(u, v) == (if u < 0.5 then -1.0 else 1.0) * (d as real) * Pi / 180.0
    ensures -MaxJitter <= Jitter(u, v) <= MaxJitter
  {
    var d := (v * 20.0).Floor;
    assert 0 <= d < 20;
    if u < 0.5 {
      assert Round(u) == 0;
    } else {
      assert Round(u) == 1;
    }
    assert 0.0 <= (d as real) * Pi <= 19.0 * Pi;
  }

  /** The random turn read from recorded draws in [0, 1) from position i on
      is within MaxJitter of zero. */
  lemma DrawnJitter(values: seq<real>, i: nat)
    requires Uniform(values)
    ensures -MaxJitter <= Jitter(Pick(values, i), Pick(values, i + 1)) <= MaxJitter
  {
    JitterRange(Pick(values, i), Pick(values, i + 1));
  }

  /** The source of random numbers: the draws it gives, recorded in order,
      of which `used` have been taken. */
  class RandomSource {
    const values: seq<real>
    var used: nat

    constructor (values: seq<real>)
      ensures this.values == values && used == 0
    {
      this.values := values;
      used := 0;
    }

    /** Takes the next draw. */
    method Random() returns (x: real)
      modifies this
      ensures x == Pick(values, old(used)) && used == old(used) + 1
    {
      x := Pick(values, used);
      used := used + 1;
    }
  }

  /** The random turn: takes two draws, the sign first. */
  method Rand(rng: RandomSource) returns (j: real)
    modifies rng
    ensures j == Jitter(Pick(rng.values, old(rng.used)), Pick(rng.values, old(rng.used) + 1))
    ensures rng.used == old(rng.used) + 2
  {
    var u := rng.Random();
    var v := rng.Random();
    j := ((if Round(u) % 2 == 0 then -1.0 else 1.0) * ((v * 20.0).Floor as real) * Pi) / 180.0;
  }

  /** How many draws a tree of depth n takes: two per stem when randomized. */
  function Draws(n: nat, randomize: bool): nat
  {
    if n == 0 then 0 else (if randomize then 4 else 0) + 2 * Draws(n - 1, randomize)
  }

  /** The commands that turn by `angle`, stroke a stem of length l along the
      y axis, and move the origin to the stem's tip. */
  function Stem(l: real, angle: real): seq<Command>
  {
    [Rotate(angle), BeginPath, MoveTo(Vec2(0.0, 0.0)), LineTo(Vec2(0.0, l)), Stroke, ClosePath, Translate(0.0, l)]
  }

  /** Everything the generator emits for depth n and stem length l, reading
      the random source from draw `start` on: nothing at depth 0, otherwise
      the branch turned by +deg and the branch turned by -deg. */
  function TreeLog(n: nat, l: real, k: real, deg: real, randomize: bool, values: seq<real>, start: nat)
    : seq<Command>
    requires k != 0.0
    decreases n, 0
  {
    if n == 0 then []
    else
      BranchLog(n - 1, l, k, deg, deg, randomize, values, start)
      + BranchLog(n - 1, l, k, deg, -deg, randomize, values, start + BranchDraws(n - 1, randomize))
  }

  /** How many draws one branch with a subtree of depth m takes. */
  function BranchDraws(m: nat, randomize: bool): nat
  {
    (if randomize then 2 else 0) + Draws(m, randomize)
  }

  /** One branch turned by `turn` (plus the random turn when randomized):
      save, the stem, the subtree of depth m and length l / k, restore. */
  function BranchLog(m: nat, l: real, k: real, deg: real, turn: real, randomize: bool, values: seq<real>,
                     start: nat): seq<Command>
    requires k != 0.0
    decreases m, 1
  {
    var j := if randomize then Jitter(Pick(values, start), Pick(values, start + 1)) else 0.0;
    var next := start + (if randomize then 2 else 0);
    [Save] + Stem(l, turn + j) + TreeLog(m, l / k, k, deg, randomize, values, next) + [Restore]
  }

  /** A branch's log, with its random turn `j` named. */
  lemma BranchLogParts(m: nat, l: real, k: real, deg: real, turn: real, randomize: bool, values: seq<real>,
                       start: nat, j: real)
    requires k != 0.0
    requires j == if randomize then Jitter(Pick(values, start), Pick(values, start + 1)) else 0.0
    ensures BranchLog(m, l, k, deg, turn, randomize, values, start)
         == [Save] + Stem(l, turn + j)
            + TreeLog(m, l / k, k, deg, randomize, values, start + (if randomize then 2 else 0)) + [Restore]
  {
  }

  /** Draws and strokes the stem of length l turned by `angle` and moves the
      origin to its tip. */
  method DrawStem(ctx: Context2D, l: real, angle: real)
    modifies ctx
    ensures ctx.log == old(ctx.log) + Stem(l, angle)
    ensures ctx.transform == old(ctx.transform) + [Rotation(angle), Translation(0.0, l)]
    ensures ctx.saved == old(ctx.saved)
  {
    ctx.Rotate(angle);
    ctx.BeginPath();
    ctx.MoveTo(Vec2(0.0, 0.0));
    ctx.LineTo(Vec2(0.0, l));
    ctx.Stroke();
    ctx.ClosePath();
    ctx.Translate(0.0, l);
  }

  /** The generator: depth 0 draws nothing; otherwise it draws the branch
      turned by +deg and then the branch turned by -deg, and leaves the
      transform and the saved stack as it found them. */
  method Tree(ctx: Context2D, rng: RandomSource, n: nat, l: real, k: real, deg: real, randomize: bool)
    requires k != 0.0
    modifies ctx, rng
    ensures ctx.log == old(ctx.log) + TreeLog(n, l, k, deg, randomize, rng.values, old(rng.used))
    ensures rng.used == old(rng.used) + Draws(n, randomize)
    ensures ctx.transform == old(ctx.transform) && ctx.saved == old(ctx.saved)
    decreases n, 0
  {
    if n == 0 {
      return;
    }
    ghost var log0, start := ctx.log, rng.used;
    var modL := l / k;
    Branch(ctx, rng, n - 1, l, modL, k, deg, deg, randomize);
    ghost var left := BranchLog(n - 1, l, k, deg, deg, randomize, rng.values, start);
    assert rng.used == start + BranchDraws(n - 1, randomize);
    Branch(ctx, rng, n - 1, l, modL, k, deg, -deg, randomize);
    ghost var right := BranchLog(n - 1, l, k, deg, -deg, randomize, rng.values, start + BranchDraws(n - 1, randomize));
    assert ctx.log == log0 + left + right;
    assert TreeLog(n, l, k, deg, randomize, rng.values, start) == left + right;
  }

  /** The start of a branch: save, then the turn by `turn` (plus a random
      turn when randomized) and the stem. */
  method SaveAndStem(ctx: Context2D, rng: RandomSource, l: real, turn: real, randomize: bool)
    modifies ctx, rng
    ensures var j := if randomize then Jitter(Pick(rng.values, old(rng.used)), Pick(rng.values, old(rng.used) + 1)) else 0.0;
            ctx.log == old(ctx.log) + [Save] + Stem(l, turn + j) &&
            ctx.transform == old(ctx.transform) + [Rotation(turn + j), Translation(0.0, l)]
    ensures rng.used == old(rng.used) + (if randomize then 2 else 0)
    ensures ctx.saved == old(ctx.saved) + [old(ctx.transform)]
  {
    ctx.Save();
    var j := 0.0;
    if randomize {
      j := Rand(rng);
    }
    DrawStem(ctx, l, turn + j);
  }

  /** One branch: save, turn by `turn` (plus a random turn when randomized),
      the stem, the subtree of depth m and length modL, restore. */
  method Branch(ctx: Context2D, rng: RandomSource, m: nat, l: real, modL: real, k: real, deg: real, turn: real,
                randomize: bool)
    requires k != 0.0 && modL == l / k
    modifies ctx, rng
    ensures ctx.log == old(ctx.log) + BranchLog(m, l, k, deg, turn, randomize, rng.values, old(rng.used))
    ensures rng.used == old(rng.used) + BranchDraws(m, randomize)
    ensures ctx.transform == old(ctx.transform) && ctx.saved == old(ctx.saved)
    decreases m, 1
  {
    ghost var start, log0, t0, s0 := rng.used, ctx.log, ctx.transform, ctx.saved;
    ghost var j := if randomize then Jitter(Pick(rng.values, start), Pick(rng.values, start + 1)) else 0.0;
    SaveAndStem(ctx, rng, l, turn, randomize);
    ghost var next := rng.used;
    Tree(ctx, rng, m, modL, k, deg, randomize);
    ghost var sub := TreeLog(m, l / k, k, deg, randomize, rng.values, next);
    assert ctx.log == log0 + [Save] + Stem(l, turn + j) + sub && ctx.saved == s0 + [t0];
    ctx.Restore();
    assert (s0 + [t0])[..|s0|] == s0;
    AppendFour(log0, [Save], Stem(l, turn + j), sub, [Restore]);
    BranchLogParts(m, l, k, deg, turn, randomize, rng.values, start, j);
  }

  /** A stem strokes once and neither fills, saves nor restores. */
  lemma StemCounts(l: real, angle: real)
    ensures Strokes(Stem(l, angle)) == 1 && Fills(Stem(l, angle)) == 0
    ensures Saves(Stem(l, angle)) == 0 && Restores(Stem(l, angle)) == 0
  {
    StemStrokes(l, angle);
    CountZero(Stem(l, angle), Fill);
    CountZero(Stem(l, angle), Save);
    CountZero(Stem(l, angle), Restore);
  }

  /** A stem strokes once. */
  lemma StemStrokes(l: real, angle: real)
    ensures Strokes(Stem(l, angle)) == 1
  {
    var body := [Rotate(angle), BeginPath, MoveTo(Vec2(0.0, 0.0)), LineTo(Vec2(0.0, l))];
    var tail := [ClosePath, Translate(0.0, l)];
    assert Stem(l, angle) == body + [Stroke] + tail;
    PathCounts(body, [Stroke]);
    CountZero(tail, Stroke);
    CountConcat(body + [Stroke], tail, Stroke);
  }

  /** The counting step of a branch: a stem that strokes once around a
      subtree whose strokes, saves and restores are each p - 2 gives p - 1 of
      each, inside one save ... restore pair. */
  lemma BranchCountStep(stem: seq<Command>, sub: seq<Command>, p: nat)
    requires Strokes(stem) == 1 && Fills(stem) == 0 && Saves(stem) == 0 && Restores(stem) == 0
    requires Strokes(sub) + 2 == p && Saves(sub) + 2 == p && Restores(sub) + 2 == p && Fills(sub) == 0
    ensures var log := [Save] + stem + sub + [Restore];
            Strokes(log) + 1 == p && Saves(log) + 1 == p && Restores(log) + 1 == p && Fills(log) == 0
  {
    assert [Save] + stem + sub + [Restore] + [] == [Save] + stem + sub + [Restore];
    CountConcat5([Save], stem, sub, [Restore], [], Stroke);
    CountConcat5([Save], stem, sub, [Restore], [], Fill);
    CountConcat5([Save], stem, sub, [Restore], [], Save);
    CountConcat5([Save], stem, sub, [Restore], [], Restore);
  }

  /** The counting step of a tree: two branches whose strokes, saves and
      restores are each p - 1 give 2 * p - 2 of each. */
  lemma TreeCountStep(left: seq<Command>, right: seq<Command>, p: nat)
    requires Strokes(left) + 1 == p && Saves(left) + 1 == p && Restores(left) + 1 == p && Fills(left) == 0
    requires Strokes(right) + 1 == p && Saves(right) + 1 == p && Restores(right) + 1 == p && Fills(right) == 0
    ensures Strokes(left + right) + 2 == 2 * p && Saves(left + right) + 2 == 2 * p
    ensures Restores(left + right) + 2 == 2 * p && Fills(left + right) == 0
  {
    CountConcat(left, right, Stroke);
    CountConcat(left, right, Fill);
    CountConcat(left, right, Save);
    CountConcat(left, right, Restore);
  }

  /** Every call of depth n strokes two stems and makes two subtrees, so
      depth n strokes, saves and restores 2 + 4 + ... + 2^n == 2^(n+1) - 2
      times each, and fills nothing; the log is empty exactly at depth 0. */
  lemma {:induction false} TreeCounts(n: nat, l: real, k: real, deg: real, randomize: bool, values: seq<real>,
                                      start: nat)
    requires k != 0.0
    ensures var log := TreeLog(n, l, k, deg, randomize, values, start);
            Strokes(log) + 2 == Pow(2, n + 1) && Saves(log) + 2 == Pow(2, n + 1) &&
            Restores(log) + 2 == Pow(2, n + 1) && Fills(log) == 0
    ensures TreeLog(n, l, k, deg, randomize, values, start) == [] <==> n == 0
    decreases n, 0
  {
    if n > 0 {
      var left := BranchLog(n - 1, l, k, deg, deg, randomize, values, start);
      assert left[0] == Save;
      var right := BranchLog(n - 1, l, k, deg, -deg, randomize, values, start + BranchDraws(n - 1, randomize));
      BranchCounts(n - 1, l, k, deg, deg, randomize, values, start);
      BranchCounts(n - 1, l, k, deg, -deg, randomize, values, start + BranchDraws(n - 1, randomize));
      TreeCountStep(left, right, Pow(2, n));
    }
  }

  /** A branch with a subtree of depth m strokes, saves and restores
      2^(m+1) - 1 times each. */
  lemma {:induction false} BranchCounts(m: nat, l: real, k: real, deg: real, turn: real, randomize: bool,
                                        values: seq<real>, start: nat)
    requires k != 0.0
    ensures var log := BranchLog(m, l, k, deg, turn, randomize, values, start);
            Strokes(log) + 1 == Pow(2, m + 1) && Saves(log) + 1 == Pow(2, m + 1) &&
            Restores(log) + 1 == Pow(2, m + 1) && Fills(log) == 0
    decreases m, 1
  {
    var j := if randomize then Jitter(Pick(values, start), Pick(values, start + 1)) else 0.0;
    var next := start + (if randomize then 2 else 0);
    var sub := TreeLog(m, l / k, k, deg, randomize, values, next);
    BranchLogParts(m, l, k, deg, turn, randomize, values, start, j);
    TreeCounts(m, l / k, k, deg, randomize, values, next);
    StemCounts(l, turn + j);
    BranchCountStep(Stem(l, turn + j), sub, Pow(2, m + 1));
  }

  /** Randomized, a tree of depth n takes two draws for each stem it
      strokes, 4 * (2^n - 1) in all (the closed form of `DrawsClosedForm`,
      restated); otherwise it takes none. */
  lemma {:induction false} TreeDraws(n: nat, l: real, k: real, deg: real, randomize: bool, values: seq<real>,
                                     start: nat)
    requires k != 0.0
    ensures Draws(n, true) + 4 == 4 * Pow(2, n) && Draws(n, false) == 0
    ensures Draws(n, randomize) == if randomize then 2 * Strokes(TreeLog(n, l, k, deg, randomize, values, start)) else 0
  {
    DrawsClosedForm(n);
    TreeCounts(n, l, k, deg, randomize, values, start);
  }

  /** The closed form of the number of draws. */
  lemma {:induction false} DrawsClosedForm(n: nat)
    ensures Draws(n, true) + 4 == 4 * Pow(2, n) && Draws(n, false) == 0
  {
    if n > 0 {
      DrawsClosedForm(n - 1);
    }
  }

  /** Saves and restores pair up like brackets in every tree: each branch
      restores the state it saved, around a well-nested subtree. */
  lemma {:induction false} TreeWellNested(n: nat, l: real, k: real, deg: real, randomize: bool, values: seq<real>,
                                          start: nat)
    requires k != 0.0
    ensures WellNested(TreeLog(n, l, k, deg, randomize, values, start))
    decreases n, 0
  {
    if n == 0 {
      var log := TreeLog(n, l, k, deg, randomize, values, start);
      assert log == [] && log[..0] == [];
    } else {
      BranchWellNested(n - 1, l, k, deg, deg, randomize, values, start);
      BranchWellNested(n - 1, l, k, deg, -deg, randomize, values, start + BranchDraws(n - 1, randomize));
      WellNestedConcat(BranchLog(n - 1, l, k, deg, deg, randomize, values, start),
                       BranchLog(n - 1, l, k, deg, -deg, randomize, values, start + BranchDraws(n - 1, randomize)));
    }
  }

  /** A branch is well nested. */
  lemma {:induction false} BranchWellNested(m: nat, l: real, k: real, deg: real, turn: real, randomize: bool,
                                            values: seq<real>, start: nat)
    requires k != 0.0
    ensures WellNested(BranchLog(m, l, k, deg, turn, randomize, values, start))
    decreases m, 1
  {
    var j := if randomize then Jitter(Pick(values, start), Pick(values, start + 1)) else 0.0;
    var next := start + (if randomize then 2 else 0);
    BranchLogParts(m, l, k, deg, turn, randomize, values, start, j);
    TreeWellNested(m, l / k, k, deg, randomize, values, next);
    WellNestedWrap(Stem(l, turn + j), TreeLog(m, l / k, k, deg, randomize, values, next));
  }

  /** Without randomization the drawing does not depend on the random
      source: any draws, read from any position, give the same log. */
  lemma {:induction false} TreeDeterministic(n: nat, l: real, k: real, deg: real, values: seq<real>, start: nat,
                                             values': seq<real>, start': nat)
    requires k != 0.0
    ensures TreeLog(n, l, k, deg, false, values, start) == TreeLog(n, l, k, deg, false, values', start')
    decreases n, 0
  {
    if n > 0 {
      BranchDeterministic(n - 1, l, k, deg, deg, values, start, values', start');
      BranchDeterministic(n - 1, l, k, deg, -deg, values, start + BranchDraws(n - 1, false),
                          values', start' + BranchDraws(n - 1, false));
    }
  }

  /** A branch without randomization does not depend on the random source. */
  lemma {:induction false} BranchDeterministic(m: nat, l: real, k: real, deg: real, turn: real, values: seq<real>,
                                               start: nat, values': seq<real>, start': nat)
    requires k != 0.0
    ensures BranchLog(m, l, k, deg, turn, false, values, start) == BranchLog(m, l, k, deg, turn, false, values', start')
    decreases m, 1
  {
    TreeDeterministic(m, l / k, k, deg, values, start, values', start');
    BranchLogParts(m, l, k, deg, turn, false, values, start, 0.0);
    BranchLogParts(m, l, k, deg, turn, false, values', start', 0.0);
  }

  /** Every turn in the log is within `e` of +deg or of -deg. */
  predicate TurnsNear(log: seq<Command>, deg: real, e: real)
  {
    forall i | 0 <= i < |log| ::
      log[i].Rotate? ==> (-e <= log[i].radians - deg <= e || -e <= log[i].radians + deg <= e)
  }

  /** Two logs whose turns are near +-deg are so one after the other. */
  lemma TurnsNearConcat(u: seq<Command>, v: seq<Command>, deg: real, e: real)
    requires TurnsNear(u, deg, e) && TurnsNear(v, deg, e)
    ensures TurnsNear(u + v, deg, e)
  {
    forall i | 0 <= i < |u + v| && (u + v)[i].Rotate?
      ensures -e <= (u + v)[i].radians - deg <= e || -e <= (u + v)[i].radians + deg <= e
    {
      if i >= |u| {
        assert (u + v)[i] == v[i - |u|];
      }
    }
  }

  /** A stem turned by +deg or -deg plus a turn of at most `e` turns near
      +-deg. */
  lemma StemTurns(l: real, turn: real, j: real, deg: real, e: real)
    requires (turn == deg || turn == -deg) && -e <= j <= e
    ensures TurnsNear(Stem(l, turn + j), deg, e)
  {
  }

  /** A branch built from a stem and a subtree whose turns are near +-deg
      turns near +-deg. */
  lemma TurnsNearBranch(stem: seq<Command>, sub: seq<Command>, deg: real, e: real)
    requires TurnsNear(stem, deg, e) && TurnsNear(sub, deg, e)
    ensures TurnsNear([Save] + stem + sub + [Restore], deg, e)
  {
    TurnsNearConcat([Save], stem, deg, e);
    TurnsNearConcat([Save] + stem, sub, deg, e);
    TurnsNearConcat([Save] + stem + sub, [Restore], deg, e);
  }

  /** Every turn of the tree is +deg or -deg plus its random turn, so
      without randomization the turns are exactly +deg and -deg, and with
      draws in [0, 1) they are within 19 degrees of them. */
  lemma {:induction false} TreeTurns(n: nat, l: real, k: real, deg: real, randomize: bool, values: seq<real>,
                                     start: nat)
    requires k != 0.0
    requires randomize ==> Uniform(values)
    ensures TurnsNear(TreeLog(n, l, k, deg, randomize, values, start), deg, if randomize then MaxJitter else 0.0)
    decreases n, 0
  {
    if n > 0 {
      var e := if randomize then MaxJitter else 0.0;
      BranchTurns(n - 1, l, k, deg, deg, randomize, values, start);
      BranchTurns(n - 1, l, k, deg, -deg, randomize, values, start + BranchDraws(n - 1, randomize));
      TurnsNearConcat(BranchLog(n - 1, l, k, deg, deg, randomize, values, start),
                      BranchLog(n - 1, l, k, deg, -deg, randomize, values, start + BranchDraws(n - 1, randomize)),
                      deg, e);
    }
  }

  /** A branch turned by +deg or -deg turns only near +-deg. */
  lemma {:induction false} BranchTurns(m: nat, l: real, k: real, deg: real, turn: real, randomize: bool,
                                       values: seq<real>, start: nat)
    requires k != 0.0 && (turn == deg || turn == -deg)
    requires randomize ==> Uniform(values)
    ensures TurnsNear(BranchLog(m, l, k, deg, turn, randomize, values, start), deg,
                      if randomize then MaxJitter else 0.0)
    decreases m, 1
  {
    var e := if randomize then MaxJitter else 0.0;
    var j := if randomize then Jitter(Pick(values, start), Pick(values, start + 1)) else 0.0;
    var next := start + (if randomize then 2 else 0);
    var sub := TreeLog(m, l / k, k, deg, randomize, values, next);
    if randomize {
      DrawnJitter(values, start);
    }
    BranchLogParts(m, l, k, deg, turn, randomize, values, start, j);
    TreeTurns(m, l / k, k, deg, randomize, values, next);
    StemTurns(l, turn, j, deg, e);
    TurnsNearBranch(Stem(l, turn + j), sub, deg, e);
  }

  /** The segment from the local origin to (0, l), as a frame of zero width. */
  function StemBox(l: real): Quad
  {
    Quad(Vec2(0.0, 0.0), Vec2(0.0, 0.0), Vec2(0.0, l), Vec2(0.0, l))
  }

  /** With a shrink factor of at least 1, every point the tree moves or draws
      to, in the local coordinates of its stem, lies on the segment from the
      origin to (0, l): the stems never grow. */
  lemma {:induction false} TreeStems(n: nat, l: real, k: real, deg: real, randomize: bool, values: seq<real>,
                                     start: nat)
    requires k >= 1.0 && l >= 0.0
    ensures DrawsWithin(TreeLog(n, l, k, deg, randomize, values, start), StemBox(l))
    decreases n, 0
  {
    if n > 0 {
      var left := BranchLog(n - 1, l, k, deg, deg, randomize, values, start);
      var right := BranchLog(n - 1, l, k, deg, -deg, randomize, values, start + BranchDraws(n - 1, randomize));
      BranchStems(n - 1, l, k, deg, deg, randomize, values, start);
      BranchStems(n - 1, l, k, deg, -deg, randomize, values, start + BranchDraws(n - 1, randomize));
      DrawsWithinConcat(left, right, StemBox(l));
    }
  }

  /** A branch draws on its stem's segment. */
  lemma {:induction false} BranchStems(m: nat, l: real, k: real, deg: real, turn: real, randomize: bool,
                                       values: seq<real>, start: nat)
    requires k >= 1.0 && l >= 0.0
    ensures DrawsWithin(BranchLog(m, l, k, deg, turn, randomize, values, start), StemBox(l))
    decreases m, 1
  {
    var j := if randomize then Jitter(Pick(values, start), Pick(values, start + 1)) else 0.0;
    var next := start + (if randomize then 2 else 0);
    var sub := TreeLog(m, l / k, k, deg, randomize, values, next);
    assert DrawsWithin(sub, StemBox(l / k)) by {
      ShorterStem(l, k);
      TreeStems(m, l / k, k, deg, randomize, values, next);
    }
    assert DrawsWithin([Save] + Stem(l, turn + j) + sub + [Restore], StemBox(l)) by {
      StemAndSubtreeWithin(l, k, turn + j, sub);
    }
    BranchLogParts(m, l, k, deg, turn, randomize, values, start, j);
  }

  /** A stem of length l followed by a subtree that draws on the segment of
      length l / k, all inside a save ... restore pair, draws on the stem's
      segment. */
  lemma StemAndSubtreeWithin(l: real, k: real, angle: real, sub: seq<Command>)
    requires k >= 1.0 && l >= 0.0
    requires DrawsWithin(sub, StemBox(l / k))
    ensures DrawsWithin([Save] + Stem(l, angle) + sub + [Restore], StemBox(l))
  {
    ShorterStem(l, k);
    DrawsWithinInside(sub, StemBox(l / k), StemBox(l));
    StemWithin(l, angle);
    DrawsWithinBranch(Stem(l, angle), sub, StemBox(l));
  }

  /** A stem draws on its own segment. */
  lemma StemWithin(l: real, angle: real)
    requires l >= 0.0
    ensures DrawsWithin(Stem(l, angle), StemBox(l))
  {
  }

  /** A branch built from a stem and a subtree that draw inside a box draws
      inside it. */
  lemma DrawsWithinBranch(stem: seq<Command>, sub: seq<Command>, q: Quad)
    requires DrawsWithin(stem, q) && DrawsWithin(sub, q)
    ensures DrawsWithin([Save] + stem + sub + [Restore], q)
  {
    DrawsWithinConcat([Save], stem, q);
    DrawsWithinConcat([Save] + stem, sub, q);
    DrawsWithinConcat([Save] + stem + sub, [Restore], q);
  }

  /** Dividing a non-negative length by a factor of at least 1 gives a
      segment inside the original one. */
  lemma ShorterStem(l: real, k: real)
    requires k >= 1.0 && l >= 0.0
    ensures 0.0 <= l / k <= l && BoxInside(StemBox(l / k), StemBox(l))
  {
    assert l / k * k == l;
    assert l / k * (k - 1.0) >= 0.0;
  }

  /** Depth 1 without randomization strokes the two stems of length l, turned
      by +deg and by -deg, each in its own save ... restore pair. */
  lemma TreeDepthOne(l: real, k: real, deg: real, values: seq<real>, start: nat)
    requires k != 0.0
    ensures TreeLog(1, l, k, deg, false, values, start)
         == [Save, Rotate(deg), BeginPath, MoveTo(Vec2(0.0, 0.0)), LineTo(Vec2(0.0, l)), Stroke, ClosePath,
             Translate(0.0, l), Restore,
             Save, Rotate(-deg), BeginPath, MoveTo(Vec2(0.0, 0.0)), LineTo(Vec2(0.0, l)), Stroke, ClosePath,
             Translate(0.0, l), Restore]
  {
    BranchLogParts(0, l, k, deg, deg, false, values, start, 0.0);
    BranchLogParts(0, l, k, deg, -deg, false, values, start, 0.0);
  }
}
