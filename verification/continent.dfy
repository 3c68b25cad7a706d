/**
 * `drawContinent`: a filled polygon around a random centre. Its vertices go once
 * round the centre at evenly spaced angles, each at its own random distance.
 * The Earth recipe draws seven of them one after the other; because the number of
 * vertices is itself random, the number of draws a continent consumes varies, and
 * the model keeps a cursor into the stream of draws.
 */
module Continents {
  import opened Common
  import opened Canvas2D

  datatype Point = Point(x: real, y: real)

  /** `Math.floor(Math.random() * 10) + 10`. */
  function PointCount(u: Unit): (n: int)
    ensures 10 <= n <= 19
  {
    (u * 10.0).Floor + 10
  }

  /** `Math.random() * 150 + 50`. */
  function MaxRadius(u: Unit): (r: real)
    ensures 50.0 <= r < 200.0
  {
    u * 150.0 + 50.0
  }

  /** `(i / pointCount) * Math.PI * 2`. */
  function VertexAngle(i: nat, n: nat): real
    requires n > 0
  {
    (i as real / n as real) * PI * 2.0
  }

  /** `Math.random() * maxRadius + maxRadius / 2`. */
  function VertexRadius(u: Unit, maxRadius: real): real {
    u * maxRadius + maxRadius / 2.0
  }

  /** Draws a continent starting at draw `c` consumes: centre, vertex count, size, one per vertex. */
  function ContinentDraws(rand: Random, c: nat): nat {
    4 + PointCount(rand(c + 2))
  }

  /** Vertex `i` of the continent whose draws start at `c`. */
  function Vertex(m: MathLib, w: real, h: real, rand: Random, c: nat, i: nat): Point
    requires i < PointCount(rand(c + 2))
  {
    var centerX := rand(c) * w;
    var centerY := rand(c + 1) * h;
    var angle := VertexAngle(i, PointCount(rand(c + 2)));
    var radius := VertexRadius(rand(c + 4 + i), MaxRadius(rand(c + 3)));
    Point(centerX + m.cos(angle) * radius, centerY + m.sin(angle) * radius)
  }

  /** The `continentPoints` array. */
  function Outline(m: MathLib, w: real, h: real, rand: Random, c: nat): (pts: seq<Point>)
    ensures |pts| == PointCount(rand(c + 2))
  {
    seq(PointCount(rand(c + 2)), i requires 0 <= i < PointCount(rand(c + 2)) => Vertex(m, w, h, rand, c, i))
  }

  /** `lineTo` to every vertex after the first, in order. */
  function LineTos(pts: seq<Point>): (ops: seq<Op>)
    requires |pts| > 0
    ensures |ops| == |pts| - 1
  {
    seq(|pts| - 1, j requires 0 <= j < |pts| - 1 => LineTo(pts[j + 1].x, pts[j + 1].y))
  }

  /** A filled closed polygon through `pts`. */
  function PolygonOps(pts: seq<Point>, color: string): seq<Op>
    requires |pts| > 0
  {
    [SetFill(Solid(color)), BeginPath, MoveTo(pts[0].x, pts[0].y)] + LineTos(pts) + [ClosePath, Fill]
  }

  /** The calls `drawContinent` makes. */
  function ContinentOps(m: MathLib, w: real, h: real, color: string, rand: Random, c: nat): seq<Op> {
    PolygonOps(Outline(m, w, h, rand, c), color)
  }

  /** The vertex angles start at 0, strictly increase and stay below a full turn. */
  lemma VertexAnglesIncrease(i: nat, j: nat, n: nat)
    requires i < j < n
    ensures VertexAngle(0, n) == 0.0
    ensures VertexAngle(i, n) < VertexAngle(j, n) < 2.0 * PI
  {
    var a, b := i as real / n as real, j as real / n as real;
    assert a * (n as real) == i as real && b * (n as real) == j as real;
    assert a < b by {
      if a >= b { MulMono(n as real, b, a); }
    }
    assert b < 1.0 by {
      if b >= 1.0 { MulMono(n as real, 1.0, b); }
    }
    assert a * PI * 2.0 < b * PI * 2.0 by {
      assert b * PI * 2.0 - a * PI * 2.0 == (b - a) * (PI * 2.0);
      MulPos(b - a, PI * 2.0);
    }
    assert b * PI * 2.0 < 2.0 * PI by {
      assert 2.0 * PI - b * PI * 2.0 == (1.0 - b) * (PI * 2.0);
      MulPos(1.0 - b, PI * 2.0);
    }
  }

  /** Every vertex distance lies in [maxRadius / 2, 1.5 maxRadius). */
  lemma VertexRadiusRange(u: Unit, maxRadius: real)
    requires maxRadius > 0.0
    ensures maxRadius / 2.0 <= VertexRadius(u, maxRadius) < 1.5 * maxRadius
  {
    assert maxRadius - u * maxRadius == maxRadius * (1.0 - u);
    MulPos(maxRadius, 1.0 - u);
  }

  /**
   * The shape of a continent: 10 to 19 vertices, a size in [50, 200), and vertex i
   * at distance `VertexRadius` in [size / 2, 1.5 size) from the centre, in the
   * direction of `VertexAngle(i)`.
   */
  lemma ContinentShape(m: MathLib, w: real, h: real, rand: Random, c: nat, i: nat)
    requires m.Lawful()
    requires i < PointCount(rand(c + 2))
    ensures 10 <= |Outline(m, w, h, rand, c)| <= 19
    ensures 50.0 <= MaxRadius(rand(c + 3)) < 200.0
    ensures var p := Outline(m, w, h, rand, c)[i];
      var r := VertexRadius(rand(c + 4 + i), MaxRadius(rand(c + 3)));
      && MaxRadius(rand(c + 3)) / 2.0 <= r < 1.5 * MaxRadius(rand(c + 3))
      && (p.x - rand(c) * w) * (p.x - rand(c) * w) + (p.y - rand(c + 1) * h) * (p.y - rand(c + 1) * h) == r * r
  {
    var p := Outline(m, w, h, rand, c)[i];
    var angle := VertexAngle(i, PointCount(rand(c + 2)));
    var r := VertexRadius(rand(c + 4 + i), MaxRadius(rand(c + 3)));
    VertexRadiusRange(rand(c + 4 + i), MaxRadius(rand(c + 3)));
    CircleSquares(m, angle, r, p.x - rand(c) * w, p.y - rand(c + 1) * h);
  }

  /** A continent is `pointCount + 4` calls: fill style, path start, `moveTo`, the `lineTo`s, close and fill. */
  lemma ContinentCalls(m: MathLib, w: real, h: real, color: string, rand: Random, c: nat)
    ensures var ops := ContinentOps(m, w, h, color, rand, c);
      && |ops| == PointCount(rand(c + 2)) + 4
      && ops[0] == SetFill(Solid(color)) && ops[|ops| - 1] == Fill && ops[|ops| - 2] == ClosePath
      && forall k :: 3 <= k < |ops| - 2 ==> ops[k].LineTo?
  {
  }

  /** The vertex loop of `drawContinent`, pushing onto `continentPoints`. */
  method ComputeOutline(m: MathLib, w: real, h: real, rand: Random, c: nat) returns (points: seq<Point>)
    ensures points == Outline(m, w, h, rand, c)
  {
    var centerX := rand(c) * w;
    var centerY := rand(c + 1) * h;
    points := [];
    var pointCount := PointCount(rand(c + 2));
    var maxRadius := MaxRadius(rand(c + 3));
    for i := 0 to pointCount
      invariant |points| == i
      invariant forall k :: 0 <= k < i ==> points[k] == Vertex(m, w, h, rand, c, k)
    {
      var angle := (i as real / pointCount as real) * PI * 2.0;
      var radius := rand(c + 4 + i) * maxRadius + maxRadius / 2.0;
      points := points + [Point(centerX + m.cos(angle) * radius, centerY + m.sin(angle) * radius)];
    }
  }

  /** The drawing half of `drawContinent`: one closed path through the points, filled. */
  method FillPolygon(ctx: Canvas, points: seq<Point>, color: string)
    requires |points| > 0
    modifies ctx
    ensures ctx.ops == old(ctx.ops) + PolygonOps(points, color)
  {
    ghost var start := ctx.ops + [SetFill(Solid(color)), BeginPath, MoveTo(points[0].x, points[0].y)];
    ctx.SetFillStyle(Solid(color));
    ctx.Begin();
    ctx.Move(points[0].x, points[0].y);
    for i := 1 to |points|
      invariant ctx.ops == start + LineTos(points)[..i - 1]
    {
      assert LineTos(points)[..i] == LineTos(points)[..i - 1] + [LineTo(points[i].x, points[i].y)];
      ctx.Line(points[i].x, points[i].y);
    }
    assert LineTos(points)[..|points| - 1] == LineTos(points);
    ctx.Close();
    ctx.FillPath();
  }

  /** Draws the continent whose draws start at `c`; `next` is where the following draws start. */
  method DrawContinent(ctx: Canvas, m: MathLib, w: real, h: real, color: string, rand: Random, c: nat)
    returns (next: nat)
    modifies ctx
    ensures ctx.ops == old(ctx.ops) + ContinentOps(m, w, h, color, rand, c)
    ensures next == c + ContinentDraws(rand, c)
  {
    var points := ComputeOutline(m, w, h, rand, c);
    FillPolygon(ctx, points, color);
    next := c + 4 + |points|;
  }

  /** Where the draws of continent `k` of a sequence of continents start. */
  function ContinentCursor(rand: Random, k: nat): nat {
    if k == 0 then 0 else ContinentCursor(rand, k - 1) + ContinentDraws(rand, ContinentCursor(rand, k - 1))
  }

  /** The first `n` of a sequence of continents drawn one after the other. */
  function ContinentRun(m: MathLib, w: real, h: real, color: string, rand: Random, n: nat): seq<Op> {
    if n == 0 then []
    else ContinentRun(m, w, h, color, rand, n - 1) + ContinentOps(m, w, h, color, rand, ContinentCursor(rand, n - 1))
  }

  /** Continent k uses 14 to 23 draws, and the draws of different continents never overlap. */
  lemma {:induction false} ContinentCursorBounds(rand: Random, k: nat)
    ensures 14 * k <= ContinentCursor(rand, k) <= 23 * k
    ensures ContinentCursor(rand, k + 1) - ContinentCursor(rand, k) == ContinentDraws(rand, ContinentCursor(rand, k))
  {
    if k > 0 {
      ContinentCursorBounds(rand, k - 1);
    }
  }
}
