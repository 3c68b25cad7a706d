/**
 * The "stamp" loops of the texture recipes: a fixed number of filled discs, each at
 * a random point of the canvas with a random radius, filled either with a radial
 * gradient centred on the disc or with a translucent rgba colour. The sun flares,
 * Mercury craters, Venus vortices, cloud puffs, Mars dust, Moon craters, the noise
 * of the default recipe and the dots of the loader's fallback texture are all of
 * this shape and differ only in their constants and in the order of their calls.
 */
module Stamping {
  import opened Common
  import opened Canvas2D

  datatype StampKind =
    | SunFlare
    | MercuryCrater
    | VenusVortex
    | CloudPuff
    | MarsDust
    | MoonCrater
    | Noise
    | FallbackDot

  /** Gradient stamps set their fill before the path; rgba stamps after the arc. */
  predicate GradientFilled(kind: StampKind) {
    kind.SunFlare? || kind.VenusVortex? || kind.CloudPuff?
  }

  /** Draws of `Math.random()` one stamp consumes: x, y, radius and, for rgba stamps, alpha. */
  function Stride(kind: StampKind): nat {
    if GradientFilled(kind) then 3 else 4
  }

  /** Where the draws of stamp `j` of a loop start. */
  function StampCursor(kind: StampKind, j: nat): nat {
    Stride(kind) * j
  }

  /** The smallest radius: the constant added to `Math.random() * span`. */
  function RadiusMin(kind: StampKind): real {
    match kind
    case SunFlare => 10.0
    case MercuryCrater => 1.0
    case VenusVortex => 50.0
    case CloudPuff => 20.0
    case MarsDust => 2.0
    case MoonCrater => 1.0
    case Noise => 0.5
    case FallbackDot => 0.5
  }

  function RadiusSpan(kind: StampKind): real {
    match kind
    case SunFlare => 40.0
    case MercuryCrater => 5.0
    case VenusVortex => 100.0
    case CloudPuff => 50.0
    case MarsDust => 10.0
    case MoonCrater => 8.0
    case Noise => 2.0
    case FallbackDot => 0.5
  }

  /** The inner and outer colour stops of a gradient stamp. */
  function GradientStops(kind: StampKind): seq<ColorStop> {
    match kind
    case SunFlare => [ColorStop(0.0, "rgba(255,255,255,0.8)"), ColorStop(1.0, "rgba(255,200,0,0)")]
    case VenusVortex => [ColorStop(0.0, "rgba(255,215,155,0.7)"), ColorStop(1.0, "rgba(230,202,154,0)")]
    case _ => [ColorStop(0.0, "rgba(255,255,255,0.8)"), ColorStop(1.0, "rgba(255,255,255,0)")]
  }

  /** The rgba fill of an rgba stamp whose fourth draw is `u`. */
  function StampColour(kind: StampKind, u: Unit): Style {
    match kind
    case MercuryCrater => Rgba(80, 80, 80, u * 0.5 + 0.2)
    case MarsDust => Rgba(170, 60, 30, u * 0.5 + 0.2)
    case MoonCrater => Rgba(90, 90, 90, u * 0.6 + 0.2)
    case Noise => Rgba(255, 255, 255, u * 0.2)
    case _ => Rgba(255, 255, 255, (u * 0.3 + 0.7) * 0.2)
  }

  /** The range [AlphaMin, AlphaMax) of the alpha of an rgba stamp. */
  function AlphaMin(kind: StampKind): real {
    match kind
    case MercuryCrater => 0.2
    case MarsDust => 0.2
    case MoonCrater => 0.2
    case FallbackDot => 0.14
    case _ => 0.0
  }

  function AlphaMax(kind: StampKind): real {
    match kind
    case MercuryCrater => 0.7
    case MarsDust => 0.7
    case MoonCrater => 0.8
    case _ => 0.2
  }

  /** The four calls of one stamp whose draws start at `c`. */
  function StampAt(kind: StampKind, w: real, h: real, rand: Random, c: nat): seq<Op> {
    var x := rand(c) * w;
    var y := rand(c + 1) * h;
    var radius := rand(c + 2) * RadiusSpan(kind) + RadiusMin(kind);
    if GradientFilled(kind) then
      [SetFill(Radial(x, y, 0.0, x, y, radius, GradientStops(kind))), BeginPath, Arc(x, y, radius, 0.0, PI * 2.0), Fill]
    else
      [BeginPath, Arc(x, y, radius, 0.0, PI * 2.0), SetFill(StampColour(kind, rand(c + 3))), Fill]
  }

  /** Stamp i of a loop, as a block of calls. */
  function StampBlock(kind: StampKind, w: real, h: real, rand: Random): nat -> seq<Op> {
    (i: nat) => StampAt(kind, w, h, rand, StampCursor(kind, i))
  }

  /** A run of stamps is the run of its stamp blocks. */
  lemma {:induction false} StampRunIsBlocks(kind: StampKind, w: real, h: real, rand: Random, n: nat)
    ensures StampRun(kind, w, h, rand, n) == Blocks(StampBlock(kind, w, h, rand), n)
    decreases n
  {
    if n > 0 {
      var block := StampBlock(kind, w, h, rand);
      StampRunIsBlocks(kind, w, h, rand, n - 1);
      SameConcat(StampRun(kind, w, h, rand, n - 1), Blocks(block, n - 1),
                 StampAt(kind, w, h, rand, StampCursor(kind, n - 1)), block(n - 1));
    }
  }

  /** The first `n` stamps of a loop; stamp i uses the draws from `StampCursor(kind, i)` on. */
  function StampRun(kind: StampKind, w: real, h: real, rand: Random, n: nat): seq<Op> {
    if n == 0 then [] else StampRun(kind, w, h, rand, n - 1) + StampAt(kind, w, h, rand, StampCursor(kind, n - 1))
  }

  /** Where the arc sits among the four calls of a stamp. */
  function ArcIndex(kind: StampKind): nat {
    if GradientFilled(kind) then 2 else 1
  }

  /**
   * One stamp is one filled disc: a full circle lying on the canvas, with its radius
   * in [RadiusMin, RadiusMin + RadiusSpan); a gradient stamp's gradient fades out
   * exactly over that disc, and an rgba stamp's alpha lies in [AlphaMin, AlphaMax).
   */
  lemma StampShape(kind: StampKind, w: real, h: real, rand: Random, c: nat)
    requires w > 0.0 && h > 0.0
    ensures var ops := StampAt(kind, w, h, rand, c);
      && |ops| == 4 && FillCount(ops) == 1 && ArcCount(ops) == 1
      && ops[ArcIndex(kind)].Arc?
      && 0.0 <= ops[ArcIndex(kind)].cx < w && 0.0 <= ops[ArcIndex(kind)].cy < h
      && RadiusMin(kind) <= ops[ArcIndex(kind)].radius < RadiusMin(kind) + RadiusSpan(kind)
      && ops[ArcIndex(kind)].startAngle == 0.0 && ops[ArcIndex(kind)].endAngle == 2.0 * PI
      && (GradientFilled(kind) ==>
           && ops[0].SetFill? && ops[0].style.Radial?
           && ops[0].style.x0 == ops[0].style.x1 == ops[2].cx
           && ops[0].style.y0 == ops[0].style.y1 == ops[2].cy
           && ops[0].style.r0 == 0.0 && ops[0].style.r1 == ops[2].radius)
      && (!GradientFilled(kind) ==>
           && ops[2].SetFill? && ops[2].style.Rgba?
           && AlphaMin(kind) <= ops[2].style.a < AlphaMax(kind))
  {
    StampCounts(kind, w, h, rand, c);
    MulUpper(rand(c), w);
    MulUpper(rand(c + 1), h);
    MulUpper(rand(c + 2), RadiusSpan(kind));
    if !GradientFilled(kind) {
      AlphaRange(kind, rand(c + 3));
    }
  }

  lemma MulUpper(u: Unit, k: real)
    requires k > 0.0
    ensures 0.0 <= u * k < k
  {
    assert k - u * k == k * (1.0 - u);
    MulPos(k, 1.0 - u);
  }

  lemma AlphaRange(kind: StampKind, u: Unit)
    requires !GradientFilled(kind)
    ensures StampColour(kind, u).Rgba?
    ensures AlphaMin(kind) <= StampColour(kind, u).a < AlphaMax(kind)
  {
  }

  /** The number of filled paths in a drawing. */
  function FillCount(ops: seq<Op>): nat {
    if |ops| == 0 then 0 else FillCount(ops[..|ops| - 1]) + (if ops[|ops| - 1].Fill? then 1 else 0)
  }

  lemma {:induction false} FillCountConcat(a: seq<Op>, b: seq<Op>)
    ensures FillCount(a + b) == FillCount(a) + FillCount(b)
  {
    if |b| > 0 {
      FillCountConcat(a, b[..|b| - 1]);
      assert (a + b)[..|a + b| - 1] == a + b[..|b| - 1];
    } else {
      assert a + b == a;
    }
  }

  /** Blocks of calls that each fill once fill once per block. */
  lemma {:induction false} BlocksFills(block: nat -> seq<Op>, n: nat)
    requires forall i :: FillCount(block(i)) == 1
    ensures FillCount(Blocks(block, n)) == n
  {
    if n > 0 {
      BlocksFills(block, n - 1);
      FillCountConcat(Blocks(block, n - 1), block(n - 1));
    }
  }

  /** A drawing without `fill` calls fills nothing. */
  lemma {:induction false} NoFills(ops: seq<Op>)
    requires forall i :: 0 <= i < |ops| ==> !ops[i].Fill?
    ensures FillCount(ops) == 0
  {
    if |ops| > 0 {
      NoFills(ops[..|ops| - 1]);
    }
  }

  /** Each stamp calls `arc` once and `fill` once. */
  lemma StampCounts(kind: StampKind, w: real, h: real, rand: Random, c: nat)
    ensures FillCount(StampAt(kind, w, h, rand, c)) == 1
    ensures ArcCount(StampAt(kind, w, h, rand, c)) == 1
  {
    var ops := StampAt(kind, w, h, rand, c);
    var p3, p2, p1 := ops[..3], ops[..2], ops[..1];
    assert p3[..2] == p2 && p2[..1] == p1 && p1[..0] == [];
    assert FillCount(ops) == FillCount(p3) + (if ops[3].Fill? then 1 else 0);
    assert FillCount(p3) == FillCount(p2) + (if ops[2].Fill? then 1 else 0);
    assert FillCount(p2) == FillCount(p1) + (if ops[1].Fill? then 1 else 0);
    assert ArcCount(ops) == ArcCount(p3) + (if ops[3].Arc? then 1 else 0);
    assert ArcCount(p3) == ArcCount(p2) + (if ops[2].Arc? then 1 else 0);
    assert ArcCount(p2) == ArcCount(p1) + (if ops[1].Arc? then 1 else 0);
  }

  /** A run of `n` stamps is `4n` calls that fill exactly `n` discs. */
  lemma {:induction false} StampRunCounts(kind: StampKind, w: real, h: real, rand: Random, n: nat)
    ensures |StampRun(kind, w, h, rand, n)| == 4 * n
    ensures FillCount(StampRun(kind, w, h, rand, n)) == n
    ensures ArcCount(StampRun(kind, w, h, rand, n)) == n
  {
    if n > 0 {
      StampRunCounts(kind, w, h, rand, n - 1);
      var prev := StampRun(kind, w, h, rand, n - 1);
      var last := StampAt(kind, w, h, rand, StampCursor(kind, n - 1));
      FillCountConcat(prev, last);
      ArcCountConcat(prev, last);
      StampCounts(kind, w, h, rand, StampCursor(kind, n - 1));
    }
  }

  /** In a run of `n` stamps, stamp j occupies calls 4j to 4j + 3 and uses the draws from `Stride * j` on. */
  lemma StampRunSlices(kind: StampKind, w: real, h: real, rand: Random, n: nat, j: nat)
    requires j < n
    ensures 4 * j + 4 <= |StampRun(kind, w, h, rand, n)|
    ensures StampRun(kind, w, h, rand, n)[4 * j .. 4 * j + 4] == StampAt(kind, w, h, rand, StampCursor(kind, j))
  {
    var block := StampBlock(kind, w, h, rand);
    forall i
      ensures |block(i)| == 4
    {
    }
    StampRunIsBlocks(kind, w, h, rand, n);
    BlocksSlices(block, n, j);
  }

  /** Draws the stamp whose draws start at `c`, in the order of calls of its recipe. */
  method DrawStamp(ctx: Canvas, kind: StampKind, w: real, h: real, rand: Random, c: nat)
    modifies ctx
    ensures ctx.ops == old(ctx.ops) + StampAt(kind, w, h, rand, c)
  {
    var x := rand(c) * w;
    var y := rand(c + 1) * h;
    var radius := rand(c + 2) * RadiusSpan(kind) + RadiusMin(kind);
    if GradientFilled(kind) {
      ctx.SetFillStyle(Radial(x, y, 0.0, x, y, radius, GradientStops(kind)));
      ctx.Begin();
      ctx.DrawArc(x, y, radius, 0.0, PI * 2.0);
      ctx.FillPath();
    } else {
      ctx.Begin();
      ctx.DrawArc(x, y, radius, 0.0, PI * 2.0);
      ctx.SetFillStyle(StampColour(kind, rand(c + 3)));
      ctx.FillPath();
    }
  }

  /** The stamp loop `for (let i = 0; i < n; i++) { ... }` of a recipe. */
  method DrawStamps(ctx: Canvas, kind: StampKind, w: real, h: real, rand: Random, n: nat)
    modifies ctx
    ensures ctx.ops == old(ctx.ops) + StampRun(kind, w, h, rand, n)
  {
    var c := 0;
    for i := 0 to n
      invariant c == Stride(kind) * i
      invariant ctx.ops == old(ctx.ops) + StampRun(kind, w, h, rand, i)
    {
      DrawStamp(ctx, kind, w, h, rand, c);
      AppendTwo(old(ctx.ops), StampRun(kind, w, h, rand, i), StampAt(kind, w, h, rand, c));
      c := c + Stride(kind);
    }
  }
}
