/**
 * `createPlanetTexture`: a canvas (512 x 512 unless the options say otherwise), one
 * recipe chosen by the body's tag, and the canvas wrapped as a texture. Each recipe
 * is a fixed sequence of canvas calls driven by `Math.random()`; the model states
 * each recipe as the list of calls it makes and proves the drawing methods make
 * exactly those calls.
 */
module Textures {
  import opened Common
  import opened Canvas2D
  import opened Stamping
  import opened Continents

  /** The options object of `createPlanetTexture`. */
  datatype Options = Options(width: Option<nat>, height: Option<nat>, color: Option<string>)

  const NoOptions: Options := Options(None, None, None)

  /** `value || fallback` on a number: 0 and a missing value are falsy. */
  function OrNumber(value: Option<nat>, fallback: nat): (r: nat)
    ensures value.Some? && value.value != 0 ==> r == value.value
    ensures value.None? || value.value == 0 ==> r == fallback
  {
    if value.Some? && value.value != 0 then value.value else fallback
  }

  /** `value || fallback` on a string: the empty string and a missing value are falsy. */
  function OrColour(value: Option<string>, fallback: string): (r: string)
    ensures value.Some? && value.value != "" ==> r == value.value
    ensures value.None? || value.value == "" ==> r == fallback
  {
    if value.Some? && value.value != "" then value.value else fallback
  }

  /** The recipes the `switch` chooses between. */
  datatype Recipe =
    | SunRecipe | MercuryRecipe | VenusRecipe | EarthRecipe | EarthCloudsRecipe | MarsRecipe
    | JupiterRecipe | SaturnRecipe | SaturnRingsRecipe | UranusRecipe | NeptuneRecipe | MoonRecipe
    | DefaultRecipe(color: string)

  /** The twelve tags with a recipe of their own. */
  const KnownTags: seq<string> :=
    ["sun", "mercury", "venus", "earth", "earthClouds", "mars",
     "jupiter", "saturn", "saturnRings", "uranus", "neptune", "moon"]

  /** The `switch(planet)` of `createPlanetTexture`. */
  function RecipeFor(tag: string, color: Option<string>): Recipe {
    if tag == "sun" then SunRecipe
    else if tag == "mercury" then MercuryRecipe
    else if tag == "venus" then VenusRecipe
    else if tag == "earth" then EarthRecipe
    else if tag == "earthClouds" then EarthCloudsRecipe
    else if tag == "mars" then MarsRecipe
    else if tag == "jupiter" then JupiterRecipe
    else if tag == "saturn" then SaturnRecipe
    else if tag == "saturnRings" then SaturnRingsRecipe
    else if tag == "uranus" then UranusRecipe
    else if tag == "neptune" then NeptuneRecipe
    else if tag == "moon" then MoonRecipe
    else DefaultRecipe(OrColour(color, "#FFFFFF"))
  }

  /** The `case` label of a recipe other than the default one. */
  function TagOf(r: Recipe): string
    requires !r.DefaultRecipe?
  {
    match r
    case SunRecipe => "sun"
    case MercuryRecipe => "mercury"
    case VenusRecipe => "venus"
    case EarthRecipe => "earth"
    case EarthCloudsRecipe => "earthClouds"
    case MarsRecipe => "mars"
    case JupiterRecipe => "jupiter"
    case SaturnRecipe => "saturn"
    case SaturnRingsRecipe => "saturnRings"
    case UranusRecipe => "uranus"
    case NeptuneRecipe => "neptune"
    case MoonRecipe => "moon"
  }

  /**
   * Each of the twelve known tags selects a recipe of its own (the recipe gives the
   * tag back, so no two tags share one); any other tag selects the default recipe
   * with `options.color || '#FFFFFF'`.
   */
  lemma RecipeSelection(tag: string, color: Option<string>)
    ensures tag in KnownTags <==> !RecipeFor(tag, color).DefaultRecipe?
    ensures tag in KnownTags ==> TagOf(RecipeFor(tag, color)) == tag
    ensures tag !in KnownTags ==> RecipeFor(tag, color) == DefaultRecipe(OrColour(color, "#FFFFFF"))
  {
  }

  /** What a recipe that throws reports. */
  const ReferenceError: string := "ReferenceError: Cannot access 'height' before initialization"

  /** The draws a throwing recipe has taken when it throws: the left operand of `Math.random() * height`. */
  const DrawsBeforeThrow: nat := 1

  /** `ctx.fillStyle = style; ctx.fillRect(0, 0, width, height)`. */
  function BaseFill(style: Style, w: real, h: real): seq<Op> {
    [SetFill(style), FillRect(0.0, 0.0, w, h)]
  }

  const FullTurn: real := PI * 2.0

  function SunGradient(w: real, h: real): Style {
    Radial(w / 2.0, h / 2.0, 0.0, w / 2.0, h / 2.0, w / 2.0,
      [ColorStop(0.0, "#FFF3B0"), ColorStop(0.5, "#FDB813"), ColorStop(1.0, "#FF7B00")])
  }

  function JupiterGradient(w: real): Style {
    Linear(0.0, 0.0, w, 0.0,
      [ColorStop(0.0, "#B5975A"), ColorStop(0.2, "#D9C7A0"), ColorStop(0.3, "#B5975A"), ColorStop(0.5, "#A97A47"),
       ColorStop(0.7, "#B5975A"), ColorStop(0.8, "#D9C7A0"), ColorStop(1.0, "#B5975A")])
  }

  function SaturnGradient(w: real): Style {
    Linear(0.0, 0.0, w, 0.0,
      [ColorStop(0.0, "#E9D496"), ColorStop(0.2, "#F0E6B0"), ColorStop(0.3, "#E9D496"), ColorStop(0.5, "#D9BC69"),
       ColorStop(0.7, "#E9D496"), ColorStop(0.8, "#F0E6B0"), ColorStop(1.0, "#E9D496")])
  }

  /** `drawPolarCap`: the full-width band from row `startY * h` to row `endY * h`. */
  function PolarCap(w: real, h: real, startY: real, endY: real, color: string): seq<Op> {
    [SetFill(Solid(color)), FillRect(0.0, startY * h, w, (endY - startY) * h)]
  }

  /** The two caps of the Earth and Mars recipes. */
  function PolarCaps(w: real, h: real): seq<Op> {
    PolarCap(w, h, 0.0, 0.1, "#FFFFFF") + PolarCap(w, h, 0.9, 1.0, "#FFFFFF")
  }

  /** A cap fills full rows from `startY * h` to `endY * h`; the two caps cover [0, 0.1h) and [0.9h, h). */
  lemma PolarCapsCover(w: real, h: real)
    ensures forall startY: real, endY: real, color: string ::
      var r := PolarCap(w, h, startY, endY, color)[1];
      r.FillRect? && r.x == 0.0 && r.w == w && r.y == startY * h && r.y + r.h == endY * h
    ensures var caps := PolarCaps(w, h);
      && |caps| == 4 && caps[0] == caps[2] == SetFill(Solid("#FFFFFF"))
      && caps[1] == FillRect(0.0, 0.0, w, 0.1 * h)
      && caps[3].FillRect? && caps[3].x == 0.0 && caps[3].w == w
      && caps[3].y == 0.9 * h && caps[3].y + caps[3].h == h
  {
    var caps := PolarCaps(w, h);
    assert caps[3].y + caps[3].h == 0.9 * h + (1.0 - 0.9) * h;
  }

  /** One row of the Saturn rings texture: a band of random opacity, then maybe a dark gap. */
  function RingRow(w: real, rand: Random, i: nat): seq<Op> {
    [SetFill(Rgba(230, 220, 180, rand(2 * i) * 0.3 + 0.7)), FillRect(0.0, i as real, w, 1.0)]
    + (if rand(2 * i + 1) < 0.05 then [SetFill(Rgba(0, 0, 0, 0.7)), FillRect(0.0, i as real, w, 1.0)] else [])
  }

  /** The first `n` rows of the rings loop. */
  function RingRows(w: real, rand: Random, n: nat): seq<Op> {
    if n == 0 then [] else RingRows(w, rand, n - 1) + RingRow(w, rand, n - 1)
  }

  /**
   * Row i of the rings gets one full-width band one pixel high with opacity in
   * [0.7, 1.0), followed by a dark band on the same row exactly when its second draw
   * is below 0.05.
   */
  lemma RingRowShape(w: real, rand: Random, i: nat)
    ensures var ops := RingRow(w, rand, i);
      && (|ops| == 2 || |ops| == 4)
      && ops[0].SetFill? && ops[0].style.Rgba? && ops[0].style.r == 230 && ops[0].style.g == 220
      && ops[0].style.b == 180 && 0.7 <= ops[0].style.a < 1.0
      && ops[1] == FillRect(0.0, i as real, w, 1.0)
      && (|ops| == 4 <==> rand(2 * i + 1) < 0.05)
      && (|ops| == 4 ==> ops[2] == SetFill(Rgba(0, 0, 0, 0.7)) && ops[3] == ops[1])
  {
  }

  /** The rings texture has at least two and at most four calls per row, rows in order. */
  lemma {:induction false} RingRowsLength(w: real, rand: Random, n: nat)
    ensures 2 * n <= |RingRows(w, rand, n)| <= 4 * n
    ensures n > 0 ==> RingRows(w, rand, n)[|RingRows(w, rand, n - 1)|..] == RingRow(w, rand, n - 1)
  {
    if n > 0 {
      RingRowsLength(w, rand, n - 1);
      RingRowShape(w, rand, n - 1);
      var prev, row := RingRows(w, rand, n - 1), RingRow(w, rand, n - 1);
      assert (prev + row)[|prev|..] == row;
    }
  }

  /** The bands of the Uranus and Neptune recipes as evidently intended: band i at a random row, of random height. */
  function Band(w: real, h: real, rand: Random, span: real, least: real, style: Style, i: nat): seq<Op> {
    [SetFill(style), FillRect(0.0, rand(2 * i) * h, w, rand(2 * i + 1) * span + least)]
  }

  function BandRun(w: real, h: real, rand: Random, span: real, least: real, style: Style, n: nat): seq<Op> {
    if n == 0 then [] else BandRun(w, h, rand, span, least, style, n - 1) + Band(w, h, rand, span, least, style, n - 1)
  }

  /** An intended band spans the full width, starts on the canvas and has a height in [least, least + span). */
  lemma BandShape(w: real, h: real, rand: Random, span: real, least: real, style: Style, i: nat)
    requires h > 0.0 && span > 0.0
    ensures var ops := Band(w, h, rand, span, least, style, i);
      && ops[0] == SetFill(style)
      && ops[1].FillRect? && ops[1].x == 0.0 && ops[1].w == w
      && 0.0 <= ops[1].y < h && least <= ops[1].h < least + span
  {
    MulUpper(rand(2 * i), h);
    MulUpper(rand(2 * i + 1), span);
  }

  lemma {:induction false} BandRunLength(w: real, h: real, rand: Random, span: real, least: real, style: Style, n: nat)
    ensures |BandRun(w, h, rand, span, least, style, n)| == 2 * n
  {
    if n > 0 {
      BandRunLength(w, h, rand, span, least, style, n - 1);
    }
  }

  /** Band j of a run occupies calls 2j and 2j + 1. */
  lemma {:induction false} BandRunSlices(w: real, h: real, rand: Random, span: real, least: real, style: Style, n: nat, j: nat)
    requires j < n
    ensures 2 * j + 2 <= |BandRun(w, h, rand, span, least, style, n)|
    ensures BandRun(w, h, rand, span, least, style, n)[2 * j .. 2 * j + 2] == Band(w, h, rand, span, least, style, j)
  {
    BandRunLength(w, h, rand, span, least, style, n - 1);
    var prev := BandRun(w, h, rand, span, least, style, n - 1);
    var last := Band(w, h, rand, span, least, style, n - 1);
    var run := BandRun(w, h, rand, span, least, style, n);
    assert run == prev + last;
    if j < n - 1 {
      BandRunSlices(w, h, rand, span, least, style, n - 1, j);
      assert run[2 * j .. 2 * j + 2] == prev[2 * j .. 2 * j + 2];
    } else {
      assert j == n - 1;
      assert run[2 * j .. 2 * j + 2] == last;
    }
  }

  /**
   * Every band of the intended Uranus and Neptune loops spans the full width, starts
   * on the canvas, and has a height in [least, least + span): 5 to 25 pixels for
   * Uranus, 3 to 18 for Neptune.
   */
  lemma BandRunShape(w: real, h: real, rand: Random, span: real, least: real, style: Style, n: nat)
    requires h > 0.0 && span > 0.0
    ensures |BandRun(w, h, rand, span, least, style, n)| == 2 * n
    ensures forall j :: 0 <= j < n ==>
      var ops := BandRun(w, h, rand, span, least, style, n);
      && ops[2 * j] == SetFill(style)
      && ops[2 * j + 1].FillRect? && ops[2 * j + 1].x == 0.0 && ops[2 * j + 1].w == w
      && 0.0 <= ops[2 * j + 1].y < h
      && least <= ops[2 * j + 1].h < least + span
  {
    BandRunLength(w, h, rand, span, least, style, n);
    var ops := BandRun(w, h, rand, span, least, style, n);
    forall j | 0 <= j < n
      ensures && ops[2 * j] == SetFill(style)
        && ops[2 * j + 1].FillRect? && ops[2 * j + 1].x == 0.0 && ops[2 * j + 1].w == w
        && 0.0 <= ops[2 * j + 1].y < h
        && least <= ops[2 * j + 1].h < least + span
    {
      BandRunSlices(w, h, rand, span, least, style, n, j);
      BandShape(w, h, rand, span, least, style, j);
      assert ops[2 * j] == ops[2 * j .. 2 * j + 2][0];
      assert ops[2 * j + 1] == ops[2 * j .. 2 * j + 2][1];
    }
  }

  function SunOps(w: real, h: real, rand: Random): seq<Op> {
    BaseFill(SunGradient(w, h), w, h) + StampRun(SunFlare, w, h, rand, 50)
  }

  function MercuryOps(w: real, h: real, rand: Random): seq<Op> {
    BaseFill(Solid("#B7B7B7"), w, h) + StampRun(MercuryCrater, w, h, rand, 2000)
  }

  function VenusOps(w: real, h: real, rand: Random): seq<Op> {
    BaseFill(Solid("#E6CA9A"), w, h) + StampRun(VenusVortex, w, h, rand, 10)
  }

  /** The number of continents on the Earth. */
  const ContinentCount: nat := 7

  function EarthOps(m: MathLib, w: real, h: real, rand: Random): seq<Op> {
    LandOps(m, w, h, rand, ContinentCount)
  }

  /** The Earth recipe with `n` continents. */
  function LandOps(m: MathLib, w: real, h: real, rand: Random, n: nat): seq<Op> {
    BaseFill(Solid("#2756B2"), w, h) + ContinentRun(m, w, h, "#4EA64E", rand, n) + PolarCaps(w, h)
  }

  function EarthCloudsOps(w: real, h: real, rand: Random): seq<Op> {
    [ClearRect(0.0, 0.0, w, h)] + StampRun(CloudPuff, w, h, rand, 50)
  }

  function MarsOps(w: real, h: real, rand: Random): seq<Op> {
    BaseFill(Solid("#B22E1C"), w, h) + StampRun(MarsDust, w, h, rand, 1000) + PolarCaps(w, h)
  }

  /** The ellipse of the great red spot. */
  function JupiterSpot(w: real, h: real): seq<Op> {
    [BeginPath, Ellipse(w * 0.7, h * 0.4, w * 0.15, h * 0.08, 0.0, 0.0, FullTurn), SetFill(Solid("#CF6B42")), Fill]
  }

  function JupiterOps(w: real, h: real): seq<Op> {
    BaseFill(JupiterGradient(w), w, h) + JupiterSpot(w, h)
  }

  function SaturnOps(w: real, h: real): seq<Op> {
    BaseFill(SaturnGradient(w), w, h)
  }

  function SaturnRingsOps(width: nat, height: nat, rand: Random): seq<Op> {
    [ClearRect(0.0, 0.0, width as real, height as real)] + RingRows(width as real, rand, height)
  }

  function MoonOps(w: real, h: real, rand: Random): seq<Op> {
    BaseFill(Solid("#CCCCCC"), w, h) + StampRun(MoonCrater, w, h, rand, 1000)
  }

  function DefaultOps(w: real, h: real, color: string, rand: Random): seq<Op> {
    BaseFill(Solid(color), w, h) + StampRun(Noise, w, h, rand, 1000)
  }

  /** The dark spot of the Neptune recipe. */
  function NeptuneSpot(w: real, h: real): seq<Op> {
    [BeginPath, Arc(w * 0.3, h * 0.6, w * 0.1, 0.0, FullTurn), SetFill(Solid("#20379C")), Fill]
  }

  /** The Uranus recipe as evidently intended: 20 translucent bands 5 to 25 pixels high. */
  function UranusBandsOps(w: real, h: real, rand: Random): seq<Op> {
    BaseFill(Solid("#CAEAE8"), w, h) + BandRun(w, h, rand, 20.0, 5.0, Rgba(180, 240, 235, 0.3), 20)
  }

  /** The Neptune recipe as evidently intended: the spot, then 30 translucent bands 3 to 18 pixels high. */
  function NeptuneBandsOps(w: real, h: real, rand: Random): seq<Op> {
    BaseFill(Solid("#3D58E5"), w, h) + NeptuneSpot(w, h) + BandRun(w, h, rand, 15.0, 3.0, Rgba(100, 150, 255, 0.3), 30)
  }

  /** The drawing a recipe leaves on a `width` x `height` canvas, or the error it throws. */
  function RecipeOps(m: MathLib, r: Recipe, width: nat, height: nat, rand: Random): Result<seq<Op>, string> {
    var w, h := width as real, height as real;
    match r
    case SunRecipe => Ok(SunOps(w, h, rand))
    case MercuryRecipe => Ok(MercuryOps(w, h, rand))
    case VenusRecipe => Ok(VenusOps(w, h, rand))
    case EarthRecipe => Ok(EarthOps(m, w, h, rand))
    case EarthCloudsRecipe => Ok(EarthCloudsOps(w, h, rand))
    case MarsRecipe => Ok(MarsOps(w, h, rand))
    case JupiterRecipe => Ok(JupiterOps(w, h))
    case SaturnRecipe => Ok(SaturnOps(w, h))
    case SaturnRingsRecipe => Ok(SaturnRingsOps(width, height, rand))
    case UranusRecipe => Err(ReferenceError)
    case NeptuneRecipe => Err(ReferenceError)
    case MoonRecipe => Ok(MoonOps(w, h, rand))
    case DefaultRecipe(color) => Ok(DefaultOps(w, h, color, rand))
  }

  /** `createPlanetTexture(planet, options)`: the texture it returns, or the error it throws. */
  function Generated(m: MathLib, tag: string, options: Options, rand: Random): Result<Texture, string> {
    var width, height := OrNumber(options.width, 512), OrNumber(options.height, 512);
    match RecipeOps(m, RecipeFor(tag, options.color), width, height, rand)
    case Ok(ops) => Ok(Texture(width, height, ops))
    case Err(e) => Err(e)
  }

  /**
   * The canvas is 512 x 512 unless the options give a non-zero width or height, in
   * which case that one is used.
   */
  lemma CanvasSize(m: MathLib, tag: string, options: Options, rand: Random)
    requires Generated(m, tag, options, rand).Ok?
    ensures var t := Generated(m, tag, options, rand).value;
      && (options.width.None? ==> t.width == 512)
      && (options.height.None? ==> t.height == 512)
      && (options.width.Some? && options.width.value > 0 ==> t.width == options.width.value)
      && (options.height.Some? && options.height.value > 0 ==> t.height == options.height.value)
  {
  }

  /**
   * As written, `createPlanetTexture` throws for exactly the tags 'uranus' and
   * 'neptune': their band loops read the loop body's own `const height` before it is
   * initialised. Every other tag yields a texture.
   */
  lemma UranusNeptuneThrow(m: MathLib, tag: string, options: Options, rand: Random)
    ensures Generated(m, tag, options, rand).Err? <==> tag == "uranus" || tag == "neptune"
    ensures Generated(m, tag, options, rand).Err? ==> Generated(m, tag, options, rand).error == ReferenceError
  {
  }

  /** A base fill and the polar caps fill no paths. */
  lemma FlatFills(style: Style, w: real, h: real)
    ensures FillCount(BaseFill(style, w, h)) == 0
    ensures FillCount(PolarCaps(w, h)) == 0
  {
    NoFills(BaseFill(style, w, h));
    NoFills(PolarCaps(w, h));
  }

  /** A filled polygon fills exactly one path. */
  lemma PolygonFills(pts: seq<Point>, color: string)
    requires |pts| > 0
    ensures FillCount(PolygonOps(pts, color)) == 1
  {
    var head := [SetFill(Solid(color)), BeginPath, MoveTo(pts[0].x, pts[0].y)];
    NoFills(head);
    NoFills(LineTos(pts));
    NoFills([ClosePath]);
    FillCountConcat(head, LineTos(pts));
    FillCountConcat(head + LineTos(pts), [ClosePath]);
    FillCountConcat(head + LineTos(pts) + [ClosePath], [Fill]);
    assert [Fill][..0] == [];
    assert PolygonOps(pts, color) == head + LineTos(pts) + [ClosePath] + [Fill];
  }

  lemma ContinentRunFills(m: MathLib, w: real, h: real, color: string, rand: Random, n: nat)
    ensures FillCount(ContinentRun(m, w, h, color, rand, n)) == n
  {
    for k := 0 to n
      invariant FillCount(ContinentRun(m, w, h, color, rand, k)) == k
    {
      var c := ContinentCursor(rand, k);
      ContinentFills(m, w, h, color, rand, c);
      FillCountConcat(ContinentRun(m, w, h, color, rand, k), ContinentOps(m, w, h, color, rand, c));
    }
  }

  /** One continent is one filled path. */
  lemma ContinentFills(m: MathLib, w: real, h: real, color: string, rand: Random, c: nat)
    ensures FillCount(ContinentOps(m, w, h, color, rand, c)) == 1
  {
    PolygonFills(Outline(m, w, h, rand, c), color);
  }

  /**
   * The stamp counts of the recipes, as filled paths: 50 flares on the sun, 2000
   * craters on Mercury, 10 vortices on Venus, 1000 craters on the Moon and 1000
   * noise dots in the default recipe.
   */
  lemma StampCountsOfRecipes(w: real, h: real, rand: Random, color: string)
    ensures FillCount(SunOps(w, h, rand)) == 50
    ensures FillCount(MercuryOps(w, h, rand)) == 2000
    ensures FillCount(VenusOps(w, h, rand)) == 10
    ensures FillCount(MoonOps(w, h, rand)) == 1000
    ensures FillCount(DefaultOps(w, h, color, rand)) == 1000
  {
    StampsAfterBase(SunFlare, SunGradient(w, h), w, h, rand, 50);
    StampsAfterBase(MercuryCrater, Solid("#B7B7B7"), w, h, rand, 2000);
    StampsAfterBase(VenusVortex, Solid("#E6CA9A"), w, h, rand, 10);
    StampsAfterBase(MoonCrater, Solid("#CCCCCC"), w, h, rand, 1000);
    StampsAfterBase(Noise, Solid(color), w, h, rand, 1000);
  }

  /** Mars has 1000 dust marks; its polar caps are rectangles, not paths. */
  lemma MarsStampCount(w: real, h: real, rand: Random)
    ensures FillCount(MarsOps(w, h, rand)) == 1000
  {
    StampsAfterBase(MarsDust, Solid("#B22E1C"), w, h, rand, 1000);
    FlatFills(Solid("#B22E1C"), w, h);
    FillCountConcat(BaseFill(Solid("#B22E1C"), w, h) + StampRun(MarsDust, w, h, rand, 1000), PolarCaps(w, h));
  }

  /** The cloud layer has 50 puffs. */
  lemma CloudStampCount(w: real, h: real, rand: Random)
    ensures FillCount(EarthCloudsOps(w, h, rand)) == 50
  {
    StampRunCounts(CloudPuff, w, h, rand, 50);
    NoFills([ClearRect(0.0, 0.0, w, h)]);
    FillCountConcat([ClearRect(0.0, 0.0, w, h)], StampRun(CloudPuff, w, h, rand, 50));
  }

  /** The Earth has 7 continents. */
  lemma EarthContinentCount(m: MathLib, w: real, h: real, rand: Random)
    ensures FillCount(EarthOps(m, w, h, rand)) == 7
  {
    var base, land := BaseFill(Solid("#2756B2"), w, h), ContinentRun(m, w, h, "#4EA64E", rand, ContinentCount);
    FlatFills(Solid("#2756B2"), w, h);
    ContinentRunFills(m, w, h, "#4EA64E", rand, ContinentCount);
    FillCountConcat(base, land);
    FillCountConcat(base + land, PolarCaps(w, h));
  }

  lemma StampsAfterBase(kind: StampKind, style: Style, w: real, h: real, rand: Random, n: nat)
    ensures FillCount(BaseFill(style, w, h) + StampRun(kind, w, h, rand, n)) == n
  {
    FlatFills(style, w, h);
    StampRunCounts(kind, w, h, rand, n);
    FillCountConcat(BaseFill(style, w, h), StampRun(kind, w, h, rand, n));
  }

  method DrawBase(ctx: Canvas, style: Style, w: real, h: real)
    modifies ctx
    ensures ctx.ops == old(ctx.ops) + BaseFill(style, w, h)
  {
    ctx.SetFillStyle(style);
    ctx.FillRectangle(0.0, 0.0, w, h);
  }

  /** `drawPolarCap(ctx, width, height, startY, endY, color)`. */
  method DrawPolarCap(ctx: Canvas, w: real, h: real, startY: real, endY: real, color: string)
    modifies ctx
    ensures ctx.ops == old(ctx.ops) + PolarCap(w, h, startY, endY, color)
  {
    ctx.SetFillStyle(Solid(color));
    ctx.FillRectangle(0.0, startY * h, w, (endY - startY) * h);
  }

  method DrawPolarCaps(ctx: Canvas, w: real, h: real)
    modifies ctx
    ensures ctx.ops == old(ctx.ops) + PolarCaps(w, h)
  {
    DrawPolarCap(ctx, w, h, 0.0, 0.1, "#FFFFFF");
    DrawPolarCap(ctx, w, h, 0.9, 1.0, "#FFFFFF");
  }

  method DrawSun(ctx: Canvas, w: real, h: real, rand: Random)
    modifies ctx
    ensures ctx.ops == old(ctx.ops) + SunOps(w, h, rand)
  {
    DrawBase(ctx, SunGradient(w, h), w, h);
    DrawStamps(ctx, SunFlare, w, h, rand, 50);
  }

  method DrawMercury(ctx: Canvas, w: real, h: real, rand: Random)
    modifies ctx
    ensures ctx.ops == old(ctx.ops) + MercuryOps(w, h, rand)
  {
    DrawBase(ctx, Solid("#B7B7B7"), w, h);
    DrawStamps(ctx, MercuryCrater, w, h, rand, 2000);
  }

  method DrawVenus(ctx: Canvas, w: real, h: real, rand: Random)
    modifies ctx
    ensures ctx.ops == old(ctx.ops) + VenusOps(w, h, rand)
  {
    DrawBase(ctx, Solid("#E6CA9A"), w, h);
    DrawStamps(ctx, VenusVortex, w, h, rand, 10);
  }

  method DrawEarth(ctx: Canvas, m: MathLib, w: real, h: real, rand: Random)
    modifies ctx
    ensures ctx.ops == old(ctx.ops) + EarthOps(m, w, h, rand)
  {
    DrawLand(ctx, m, w, h, rand, ContinentCount);
  }

  /** The Earth recipe with `n` continents. */
  method DrawLand(ctx: Canvas, m: MathLib, w: real, h: real, rand: Random, n: nat)
    modifies ctx
    ensures ctx.ops == old(ctx.ops) + LandOps(m, w, h, rand, n)
  {
    DrawBase(ctx, Solid("#2756B2"), w, h);
    DrawContinents(ctx, m, w, h, "#4EA64E", rand, n);
    DrawPolarCaps(ctx, w, h);
    AppendThree(old(ctx.ops), BaseFill(Solid("#2756B2"), w, h), ContinentRun(m, w, h, "#4EA64E", rand, n), PolarCaps(w, h));
  }

  /** The continent loop of the Earth recipe. */
  method DrawContinents(ctx: Canvas, m: MathLib, w: real, h: real, color: string, rand: Random, n: nat)
    modifies ctx
    ensures ctx.ops == old(ctx.ops) + ContinentRun(m, w, h, color, rand, n)
  {
    var c := 0;
    for i := 0 to n
      invariant c == ContinentCursor(rand, i)
      invariant ctx.ops == old(ctx.ops) + ContinentRun(m, w, h, color, rand, i)
    {
      var next := DrawContinent(ctx, m, w, h, color, rand, c);
      AppendTwo(old(ctx.ops), ContinentRun(m, w, h, color, rand, i), ContinentOps(m, w, h, color, rand, c));
      c := next;
    }
  }

  method DrawEarthClouds(ctx: Canvas, w: real, h: real, rand: Random)
    modifies ctx
    ensures ctx.ops == old(ctx.ops) + EarthCloudsOps(w, h, rand)
  {
    ctx.ClearRectangle(0.0, 0.0, w, h);
    DrawStamps(ctx, CloudPuff, w, h, rand, 50);
  }

  method DrawMars(ctx: Canvas, w: real, h: real, rand: Random)
    modifies ctx
    ensures ctx.ops == old(ctx.ops) + MarsOps(w, h, rand)
  {
    DrawBase(ctx, Solid("#B22E1C"), w, h);
    DrawStamps(ctx, MarsDust, w, h, rand, 1000);
    DrawPolarCaps(ctx, w, h);
    AppendThree(old(ctx.ops), BaseFill(Solid("#B22E1C"), w, h), StampRun(MarsDust, w, h, rand, 1000), PolarCaps(w, h));
  }

  method DrawJupiter(ctx: Canvas, w: real, h: real)
    modifies ctx
    ensures ctx.ops == old(ctx.ops) + JupiterOps(w, h)
  {
    DrawBase(ctx, JupiterGradient(w), w, h);
    var spotX, spotY := w * 0.7, h * 0.4;
    var spotWidth, spotHeight := w * 0.15, h * 0.08;
    ctx.Begin();
    ctx.DrawEllipse(spotX, spotY, spotWidth, spotHeight, 0.0, 0.0, PI * 2.0);
    ctx.SetFillStyle(Solid("#CF6B42"));
    ctx.FillPath();
  }

  method DrawSaturn(ctx: Canvas, w: real, h: real)
    modifies ctx
    ensures ctx.ops == old(ctx.ops) + SaturnOps(w, h)
  {
    DrawBase(ctx, SaturnGradient(w), w, h);
  }

  method DrawSaturnRings(ctx: Canvas, width: nat, height: nat, rand: Random)
    modifies ctx
    ensures ctx.ops == old(ctx.ops) + SaturnRingsOps(width, height, rand)
  {
    var w := width as real;
    ctx.ClearRectangle(0.0, 0.0, w, height as real);
    ghost var base := ctx.ops;
    for i := 0 to height
      invariant ctx.ops == base + RingRows(w, rand, i)
    {
      ghost var before := ctx.ops;
      var opacity := rand(2 * i) * 0.3 + 0.7;
      ctx.SetFillStyle(Rgba(230, 220, 180, opacity));
      ctx.FillRectangle(0.0, i as real, w, 1.0);
      if rand(2 * i + 1) < 0.05 {
        ctx.SetFillStyle(Rgba(0, 0, 0, 0.7));
        ctx.FillRectangle(0.0, i as real, w, 1.0);
      }
      assert ctx.ops == before + RingRow(w, rand, i);
      AppendTwo(base, RingRows(w, rand, i), RingRow(w, rand, i));
    }
  }

  /**
   * The Uranus recipe as written: the base fill is drawn, then the first iteration of
   * the band loop reads `height` in its temporal dead zone and throws.
   */
  method DrawUranus(ctx: Canvas, w: real, h: real, rand: Random) returns (thrown: string)
    modifies ctx
    ensures ctx.ops == old(ctx.ops) + BaseFill(Solid("#CAEAE8"), w, h)
    ensures thrown == ReferenceError
  {
    DrawBase(ctx, Solid("#CAEAE8"), w, h);
    // `Math.random() * height`: the draw is taken, then reading `height` throws.
    var first := rand(DrawsBeforeThrow - 1);
    thrown := ReferenceError;
  }

  /** The Neptune recipe as written: the base fill and the spot, then the same throw as Uranus. */
  method DrawNeptune(ctx: Canvas, w: real, h: real, rand: Random) returns (thrown: string)
    modifies ctx
    ensures ctx.ops == old(ctx.ops) + BaseFill(Solid("#3D58E5"), w, h) + NeptuneSpot(w, h)
    ensures thrown == ReferenceError
  {
    DrawBase(ctx, Solid("#3D58E5"), w, h);
    DrawNeptuneSpot(ctx, w, h);
    var first := rand(DrawsBeforeThrow - 1);
    thrown := ReferenceError;
  }

  method DrawNeptuneSpot(ctx: Canvas, w: real, h: real)
    modifies ctx
    ensures ctx.ops == old(ctx.ops) + NeptuneSpot(w, h)
  {
    var spotX, spotY, spotRadius := w * 0.3, h * 0.6, w * 0.1;
    ctx.Begin();
    ctx.DrawArc(spotX, spotY, spotRadius, 0.0, PI * 2.0);
    ctx.SetFillStyle(Solid("#20379C"));
    ctx.FillPath();
  }

  /** The band loop as evidently intended, with the band's height in a variable of its own. */
  method DrawBands(ctx: Canvas, w: real, h: real, rand: Random, span: real, least: real, style: Style, n: nat)
    modifies ctx
    ensures ctx.ops == old(ctx.ops) + BandRun(w, h, rand, span, least, style, n)
  {
    for i := 0 to n
      invariant ctx.ops == old(ctx.ops) + BandRun(w, h, rand, span, least, style, i)
    {
      var y := rand(2 * i) * h;
      var bandHeight := rand(2 * i + 1) * span + least;
      ctx.SetFillStyle(style);
      ctx.FillRectangle(0.0, y, w, bandHeight);
      AppendTwo(old(ctx.ops), BandRun(w, h, rand, span, least, style, i), Band(w, h, rand, span, least, style, i));
    }
  }

  method DrawUranusBands(ctx: Canvas, w: real, h: real, rand: Random)
    modifies ctx
    ensures ctx.ops == old(ctx.ops) + UranusBandsOps(w, h, rand)
  {
    DrawBase(ctx, Solid("#CAEAE8"), w, h);
    DrawBands(ctx, w, h, rand, 20.0, 5.0, Rgba(180, 240, 235, 0.3), 20);
  }

  method DrawNeptuneBands(ctx: Canvas, w: real, h: real, rand: Random)
    modifies ctx
    ensures ctx.ops == old(ctx.ops) + NeptuneBandsOps(w, h, rand)
  {
    DrawBase(ctx, Solid("#3D58E5"), w, h);
    DrawNeptuneSpot(ctx, w, h);
    DrawBands(ctx, w, h, rand, 15.0, 3.0, Rgba(100, 150, 255, 0.3), 30);
  }

  /**
   * `createPlanetTexture(tag, options)`: a new canvas, the recipe the tag selects, and
   * the canvas as a texture, or the error the recipe throws.
   */
  method CreatePlanetTexture(m: MathLib, tag: string, options: Options, rand: Random)
    returns (r: Result<Texture, string>)
    ensures r == Generated(m, tag, options, rand)
  {
    var canvas := new Canvas(OrNumber(options.width, 512), OrNumber(options.height, 512));
    ghost var outcome := RecipeOps(m, RecipeFor(tag, options.color), canvas.width, canvas.height, rand);
    var thrown := RunRecipe(canvas, m, RecipeFor(tag, options.color), rand);
    if thrown.Some? {
      r := Err(thrown.value);
      assert outcome.Err?;
    } else {
      assert outcome.Ok?;
      assert canvas.ops == outcome.value;
      r := Ok(Texture(canvas.width, canvas.height, canvas.ops));
    }
  }

  /** Runs the chosen recipe on the canvas; `thrown` is what it throws, if anything. */
  method RunRecipe(canvas: Canvas, m: MathLib, recipe: Recipe, rand: Random) returns (thrown: Option<string>)
    modifies canvas
    ensures RecipeOps(m, recipe, canvas.width, canvas.height, rand).Err? ==>
      thrown == Some(RecipeOps(m, recipe, canvas.width, canvas.height, rand).error)
    ensures RecipeOps(m, recipe, canvas.width, canvas.height, rand).Ok? ==>
      thrown.None? && canvas.ops == old(canvas.ops) + RecipeOps(m, recipe, canvas.width, canvas.height, rand).value
  {
    var w, h := canvas.width as real, canvas.height as real;
    thrown := None;
    match recipe {
      case SunRecipe => DrawSun(canvas, w, h, rand);
      case MercuryRecipe => DrawMercury(canvas, w, h, rand);
      case VenusRecipe => DrawVenus(canvas, w, h, rand);
      case EarthRecipe => DrawEarth(canvas, m, w, h, rand);
      case EarthCloudsRecipe => DrawEarthClouds(canvas, w, h, rand);
      case MarsRecipe => DrawMars(canvas, w, h, rand);
      case JupiterRecipe => DrawJupiter(canvas, w, h);
      case SaturnRecipe => DrawSaturn(canvas, w, h);
      case SaturnRingsRecipe => DrawSaturnRings(canvas, canvas.width, canvas.height, rand);
      case UranusRecipe =>
        var e := DrawUranus(canvas, w, h, rand);
        thrown := Some(e);
      case NeptuneRecipe =>
        var e := DrawNeptune(canvas, w, h, rand);
        thrown := Some(e);
      case MoonRecipe => DrawMoon(canvas, w, h, rand);
      case DefaultRecipe(color) => DrawDefault(canvas, w, h, color, rand);
    }
  }

  method DrawMoon(ctx: Canvas, w: real, h: real, rand: Random)
    modifies ctx
    ensures ctx.ops == old(ctx.ops) + MoonOps(w, h, rand)
  {
    DrawBase(ctx, Solid("#CCCCCC"), w, h);
    DrawStamps(ctx, MoonCrater, w, h, rand, 1000);
  }

  method DrawDefault(ctx: Canvas, w: real, h: real, color: string, rand: Random)
    modifies ctx
    ensures ctx.ops == old(ctx.ops) + DefaultOps(w, h, color, rand)
  {
    DrawBase(ctx, Solid(color), w, h);
    DrawStamps(ctx, Noise, w, h, rand, 1000);
  }
}
