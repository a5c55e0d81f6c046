/** The drawing surface the generators write to (the browser's 2D canvas
    context), reduced to a recorder: the log of every call made to it, and the
    transform state that `save`, `restore`, `rotate` and `translate` act on.
    Pixels, line styles and the matrix arithmetic behind the transform are not
    modelled; the current transform is kept as the word of operations applied
    to it. */
module Drawing {
  import opened Geometry

  /** One affine operation composed onto the current transform. */
  datatype TransformOp = Rotation(radians: real) | Translation(dx: real, dy: real)

  /** One call made to the drawing surface. */
  datatype Command =
    | BeginPath
    | MoveTo(p: Vec2)
    | LineTo(p: Vec2)
    | ClosePath
    | Stroke
    | Fill
    | Save
    | Restore
    | Rotate(radians: real)
    | Translate(dx: real, dy: real)

  /** How many times `c` occurs in `log`. */
  function Count(log: seq<Command>, c: Command): nat
  {
    if log == [] then 0 else (if log[0] == c then 1 else 0) + Count(log[1..], c)
  }

  function Strokes(log: seq<Command>): nat { Count(log, Stroke) }

  function Fills(log: seq<Command>): nat { Count(log, Fill) }

  function Saves(log: seq<Command>): nat { Count(log, Save) }

  function Restores(log: seq<Command>): nat { Count(log, Restore) }

  /** Counting distributes over concatenation. */
  lemma {:induction false} CountConcat(u: seq<Command>, v: seq<Command>, c: Command)
    ensures Count(u + v, c) == Count(u, c) + Count(v, c)
    decreases |u|
  {
    if u != [] {
      assert (u + v)[1..] == u[1..] + v;
      CountConcat(u[1..], v, c);
    } else {
      assert u + v == v;
    }
  }

  /** A command that does not occur is counted zero times, and one that
      occurs is counted at least once. */
  lemma {:induction false} CountZero(log: seq<Command>, c: Command)
    ensures Count(log, c) == 0 <==> c !in log
    decreases |log|
  {
    if log != [] {
      CountZero(log[1..], c);
      assert log == [log[0]] + log[1..];
    }
  }

  /** The counts of a log assembled from five pieces. */
  lemma CountConcat5(a: seq<Command>, b: seq<Command>, d: seq<Command>, e: seq<Command>,
                     f: seq<Command>, c: Command)
    ensures Count(a + b + d + e + f, c) == Count(a, c) + Count(b, c) + Count(d, c) + Count(e, c) + Count(f, c)
  {
    CountConcat(a, b, c);
    CountConcat(a + b, d, c);
    CountConcat(a + b + d, e, c);
    CountConcat(a + b + d + e, f, c);
  }

  /** The counts of a log assembled from six pieces. */
  lemma CountConcat6(a: seq<Command>, b: seq<Command>, d: seq<Command>, e: seq<Command>,
                     f: seq<Command>, g: seq<Command>, c: Command)
    ensures Count(a + b + d + e + f + g, c)
         == Count(a, c) + Count(b, c) + Count(d, c) + Count(e, c) + Count(f, c) + Count(g, c)
  {
    CountConcat(a, b, c);
    CountConcat(a + b, d, c);
    CountConcat(a + b + d, e, c);
    CountConcat(a + b + d + e, f, c);
    CountConcat(a + b + d + e + f, g, c);
  }

  /** Appending six pieces one after the other appends their concatenation. */
  lemma AppendSix(log: seq<Command>, a: seq<Command>, b: seq<Command>, d: seq<Command>,
                  e: seq<Command>, f: seq<Command>, g: seq<Command>)
    ensures log + a + b + d + e + f + g == log + (a + b + d + e + f + g)
  {
  }

  /** Appending four pieces one after the other appends their concatenation. */
  lemma AppendFour(log: seq<Command>, a: seq<Command>, b: seq<Command>, d: seq<Command>, e: seq<Command>)
    ensures log + a + b + d + e == log + (a + b + d + e)
  {
  }

  /** Appending five pieces one after the other appends their concatenation. */
  lemma AppendFive(log: seq<Command>, a: seq<Command>, b: seq<Command>, d: seq<Command>, e: seq<Command>,
                   f: seq<Command>)
    ensures log + a + b + d + e + f == log + (a + b + d + e + f)
  {
  }

  /** The counts of a log assembled from nine pieces. */
  lemma CountConcat9(a: seq<Command>, b: seq<Command>, d: seq<Command>, e: seq<Command>, f: seq<Command>,
                     g: seq<Command>, h: seq<Command>, i: seq<Command>, j: seq<Command>, c: Command)
    ensures Count(a + b + d + e + f + g + h + i + j, c)
         == Count(a, c) + Count(b, c) + Count(d, c) + Count(e, c) + Count(f, c) + Count(g, c)
          + Count(h, c) + Count(i, c) + Count(j, c)
  {
    CountConcat6(a, b, d, e, f, g, c);
    CountConcat(a + b + d + e + f + g, h, c);
    CountConcat(a + b + d + e + f + g + h, i, c);
    CountConcat(a + b + d + e + f + g + h + i, j, c);
  }

  /** Appending nine pieces one after the other appends their concatenation. */
  lemma AppendNine(log: seq<Command>, a: seq<Command>, b: seq<Command>, d: seq<Command>, e: seq<Command>,
                   f: seq<Command>, g: seq<Command>, h: seq<Command>, i: seq<Command>, j: seq<Command>)
    ensures log + a + b + d + e + f + g + h + i + j == log + (a + b + d + e + f + g + h + i + j)
  {
  }

  /** A log assembled from six pieces splits after the first piece into that
      piece and the concatenation of the other five. */
  lemma SplitAfterFirst(a: seq<Command>, b: seq<Command>, d: seq<Command>,
                        e: seq<Command>, f: seq<Command>, g: seq<Command>)
    ensures (a + b + d + e + f + g)[..|a|] == a
    ensures (a + b + d + e + f + g)[|a|..] == b + d + e + f + g
  {
    AppendSix(a, b, d, e, f, g, []);
    assert a + b + d + e + f + g == a + (b + d + e + f + g);
  }

  /** The counts of a path that ends with `last`, and whose other commands
      neither stroke, fill, save nor restore. */
  lemma PathCounts(body: seq<Command>, last: seq<Command>)
    requires Stroke !in body && Fill !in body && Save !in body && Restore !in body
    ensures Strokes(body + last) == Strokes(last) && Fills(body + last) == Fills(last)
    ensures Saves(body + last) == Saves(last) && Restores(body + last) == Restores(last)
  {
    CountZero(body, Stroke);
    CountZero(body, Fill);
    CountZero(body, Save);
    CountZero(body, Restore);
    CountConcat(body, last, Stroke);
    CountConcat(body, last, Fill);
    CountConcat(body, last, Save);
    CountConcat(body, last, Restore);
  }

  /** Every prefix of the log has restored no more states than it saved, and
      the whole log restores exactly what it saves: saves and restores pair up
      like brackets. */
  ghost predicate WellNested(log: seq<Command>)
  {
    Saves(log) == Restores(log) &&
    forall i | 0 <= i <= |log| :: Restores(log[..i]) <= Saves(log[..i])
  }

  /** Every point the log moves or draws to lies in the box `q`. */
  predicate DrawsWithin(log: seq<Command>, q: Quad)
  {
    forall i | 0 <= i < |log| :: (log[i].MoveTo? || log[i].LineTo?) ==> Within(log[i].p, q)
  }

  /** Two logs that stay in a box stay in it one after the other. */
  lemma DrawsWithinConcat(u: seq<Command>, v: seq<Command>, q: Quad)
    requires DrawsWithin(u, q) && DrawsWithin(v, q)
    ensures DrawsWithin(u + v, q)
  {
    forall i | 0 <= i < |u + v| && ((u + v)[i].MoveTo? || (u + v)[i].LineTo?)
      ensures Within((u + v)[i].p, q)
    {
      if i >= |u| {
        assert (u + v)[i] == v[i - |u|];
      }
    }
  }

  /** Nine logs that stay in a box stay in it one after the other. */
  lemma DrawsWithinConcat9(a: seq<Command>, b: seq<Command>, d: seq<Command>, e: seq<Command>, f: seq<Command>,
                           g: seq<Command>, h: seq<Command>, i: seq<Command>, j: seq<Command>, q: Quad)
    requires DrawsWithin(a, q) && DrawsWithin(b, q) && DrawsWithin(d, q) && DrawsWithin(e, q)
    requires DrawsWithin(f, q) && DrawsWithin(g, q) && DrawsWithin(h, q) && DrawsWithin(i, q) && DrawsWithin(j, q)
    ensures DrawsWithin(a + b + d + e + f + g + h + i + j, q)
  {
    DrawsWithinConcat(a, b, q);
    DrawsWithinConcat(a + b, d, q);
    DrawsWithinConcat(a + b + d, e, q);
    DrawsWithinConcat(a + b + d + e, f, q);
    DrawsWithinConcat(a + b + d + e + f, g, q);
    DrawsWithinConcat(a + b + d + e + f + g, h, q);
    DrawsWithinConcat(a + b + d + e + f + g + h, i, q);
    DrawsWithinConcat(a + b + d + e + f + g + h + i, j, q);
  }

  /** A log that stays in a box stays in every box around it. */
  lemma DrawsWithinInside(log: seq<Command>, inner: Quad, outer: Quad)
    requires DrawsWithin(log, inner) && BoxInside(inner, outer)
    ensures DrawsWithin(log, outer)
  {
    forall i | 0 <= i < |log| && (log[i].MoveTo? || log[i].LineTo?)
      ensures Within(log[i].p, outer)
    {
      WithinInside(log[i].p, inner, outer);
    }
  }

  /** `b` to the power `e`, for the command counts. */
  function Pow(b: nat, e: nat): nat
  {
    if e == 0 then 1 else b * Pow(b, e - 1)
  }

  /** Two well-nested logs in sequence are well nested. */
  lemma WellNestedConcat(u: seq<Command>, v: seq<Command>)
    requires WellNested(u) && WellNested(v)
    ensures WellNested(u + v)
  {
    var w := u + v;
    CountConcat(u, v, Save);
    CountConcat(u, v, Restore);
    forall i | 0 <= i <= |w|
      ensures Restores(w[..i]) <= Saves(w[..i])
    {
      if i <= |u| {
        assert w[..i] == u[..i];
      } else {
        assert w[..i] == u + v[..i - |u|];
        assert u[..|u|] == u;
        CountConcat(u, v[..i - |u|], Save);
        CountConcat(u, v[..i - |u|], Restore);
      }
    }
  }

  /** A well-nested log wrapped in a save ... restore pair, with a prefix that
      neither saves nor restores after the save, is well nested. */
  lemma WellNestedWrap(head: seq<Command>, body: seq<Command>)
    requires Save !in head && Restore !in head
    requires WellNested(body)
    ensures WellNested([Save] + head + body + [Restore])
  {
    var w := [Save] + head + body + [Restore];
    var k := 1 + |head|;
    CountZero(head, Save);
    CountZero(head, Restore);
    assert Count([Save], Save) == 1 && Count([Save], Restore) == 0;
    assert Count([Restore], Save) == 0 && Count([Restore], Restore) == 1;
    CountConcat6([Save], head, body, [Restore], [], [], Save);
    CountConcat6([Save], head, body, [Restore], [], [], Restore);
    assert w == [Save] + head + body + [Restore] + [] + [];
    assert body[..|body|] == body;
    forall i | 0 <= i <= |w|
      ensures Restores(w[..i]) <= Saves(w[..i])
    {
      if i == 0 {
        assert w[..i] == [];
      } else if i <= k {
        assert w[..i] == [Save] + head[..i - 1];
        assert Restore !in head[..i - 1];
        CountZero(head[..i - 1], Restore);
        CountConcat([Save], head[..i - 1], Save);
        CountConcat([Save], head[..i - 1], Restore);
      } else if i <= k + |body| {
        assert w[..i] == [Save] + head + body[..i - k];
        CountConcat6([Save], head, body[..i - k], [], [], [], Save);
        CountConcat6([Save], head, body[..i - k], [], [], [], Restore);
        assert w[..i] == [Save] + head + body[..i - k] + [] + [] + [];
      } else {
        assert w[..i] == w;
      }
    }
  }

  /** The recording drawing surface. */
  class Context2D {
    /** Every call made to the surface, oldest first. */
    var log: seq<Command>
    /** The current transform, as the operations composed onto the initial one. */
    var transform: seq<TransformOp>
    /** The stack of saved transforms, innermost last. */
    var saved: seq<seq<TransformOp>>

    constructor ()
      ensures log == [] && transform == [] && saved == []
    {
      log, transform, saved := [], [], [];
    }

    method BeginPath()
      modifies this
      ensures log == old(log) + [Command.BeginPath]
      ensures transform == old(transform) && saved == old(saved)
    {
      log := log + [Command.BeginPath];
    }

    method MoveTo(p: Vec2)
      modifies this
      ensures log == old(log) + [Command.MoveTo(p)]
      ensures transform == old(transform) && saved == old(saved)
    {
      log := log + [Command.MoveTo(p)];
    }

    method LineTo(p: Vec2)
      modifies this
      ensures log == old(log) + [Command.LineTo(p)]
      ensures transform == old(transform) && saved == old(saved)
    {
      log := log + [Command.LineTo(p)];
    }

    method ClosePath()
      modifies this
      ensures log == old(log) + [Command.ClosePath]
      ensures transform == old(transform) && saved == old(saved)
    {
      log := log + [Command.ClosePath];
    }

    method Stroke()
      modifies this
      ensures log == old(log) + [Command.Stroke]
      ensures transform == old(transform) && saved == old(saved)
    {
      log := log + [Command.Stroke];
    }

    method Fill()
      modifies this
      ensures log == old(log) + [Command.Fill]
      ensures transform == old(transform) && saved == old(saved)
    {
      log := log + [Command.Fill];
    }

    /** Pushes the current transform. */
    method Save()
      modifies this
      ensures log == old(log) + [Command.Save]
      ensures transform == old(transform) && saved == old(saved) + [old(transform)]
    {
      log := log + [Command.Save];
      saved := saved + [transform];
    }

    /** Pops the innermost saved transform back into place; with nothing
        saved it changes no state. */
    method Restore()
      modifies this
      ensures log == old(log) + [Command.Restore]
      ensures old(saved) == [] ==> transform == old(transform) && saved == []
      ensures old(saved) != [] ==>
        transform == old(saved)[|old(saved)| - 1] && saved == old(saved)[..|old(saved)| - 1]
    {
      log := log + [Command.Restore];
      if saved != [] {
        transform := saved[|saved| - 1];
        saved := saved[..|saved| - 1];
      }
    }

    method Rotate(radians: real)
      modifies this
      ensures log == old(log) + [Command.Rotate(radians)]
      ensures transform == old(transform) + [Rotation(radians)] && saved == old(saved)
    {
      log := log + [Command.Rotate(radians)];
      transform := transform + [Rotation(radians)];
    }

    method Translate(dx: real, dy: real)
      modifies this
      ensures log == old(log) + [Command.Translate(dx, dy)]
      ensures transform == old(transform) + [Translation(dx, dy)] && saved == old(saved)
    {
      log := log + [Command.Translate(dx, dy)];
      transform := transform + [Translation(dx, dy)];
    }
  }
}
