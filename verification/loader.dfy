/**
 * `loadPlanetTextures.js`: every texture is generated; a generator that throws is
 * replaced by a plain fallback texture in the body's colour, and
 * `loadAllPlanetTextures` builds the table of all twelve textures.
 */
module TextureLoader {
  import opened Common
  import opened Canvas2D
  import opened Stamping
  import opened Textures

  /** `Object.keys(planetColors)`, in insertion order. */
  const PlanetColorKeys: seq<string> :=
    ["sun", "mercury", "venus", "earth", "mars", "jupiter", "saturn", "uranus", "neptune", "moon"]

  /** `planetColors`: the colour of each body's fallback texture. */
  const PlanetColors: map<string, string> :=
    map["sun" := "#FDB813", "mercury" := "#B7B7B7", "venus" := "#E6CA9A", "earth" := "#3B8CF2",
        "mars" := "#B22E1C", "jupiter" := "#B5975A", "saturn" := "#E9D496", "uranus" := "#CAEAE8",
        "neptune" := "#3D58E5", "moon" := "#CCCCCC"]

  /** `planetColors[planet] || '#FFFFFF'`. */
  function FallbackColour(planet: string): string {
    if planet in PlanetColors then PlanetColors[planet] else "#FFFFFF"
  }

  /** The size of the fallback canvas. */
  const FallbackSize: nat := 256

  /** The number of dots on the fallback canvas. */
  const FallbackDotCount: nat := 1000

  /** The fallback texture: the colour, then 1000 faint white dots. */
  function FallbackTexture(color: string, rand: Random): Texture {
    var s := FallbackSize as real;
    Texture(FallbackSize, FallbackSize, BaseFill(Solid(color), s, s) + StampRun(FallbackDot, s, s, rand, FallbackDotCount))
  }

  /** `createDefaultTexture(color)` of the loader. */
  method CreateDefaultTexture(color: string, rand: Random) returns (t: Texture)
    ensures t == FallbackTexture(color, rand)
  {
    var canvas := new Canvas(FallbackSize, FallbackSize);
    var s := canvas.width as real;
    DrawBase(canvas, Solid(color), s, s);
    DrawStamps(canvas, FallbackDot, s, s, rand, FallbackDotCount);
    t := Texture(canvas.width, canvas.height, canvas.ops);
  }

  /** The fallback canvas is 256 x 256 and holds its base fill followed by 1000 filled dots. */
  lemma FallbackCanvas(color: string, rand: Random)
    ensures var t := FallbackTexture(color, rand);
      && t.width == 256 && t.height == 256
      && |t.ops| == 4002 && FillCount(t.ops) == 1000
      && t.ops[0] == SetFill(Solid(color)) && t.ops[1] == FillRect(0.0, 0.0, 256.0, 256.0)
  {
    var s := FallbackSize as real;
    var base, dots := BaseFill(Solid(color), s, s), StampRun(FallbackDot, s, s, rand, FallbackDotCount);
    StampRunCounts(FallbackDot, s, s, rand, FallbackDotCount);
    FlatFills(Solid(color), s, s);
    FillCountConcat(base, dots);
  }

  /**
   * Dot j of the fallback canvas is a full circle on the canvas with a radius in
   * [0.5, 1.0), filled white with an alpha in [0.14, 0.2).
   */
  lemma FallbackDots(color: string, rand: Random, j: nat)
    requires j < FallbackDotCount
    ensures var ops := FallbackTexture(color, rand).ops;
      && 4 * j + 4 < |ops|
      && ops[4 * j + 3].Arc?
      && 0.0 <= ops[4 * j + 3].cx < 256.0 && 0.0 <= ops[4 * j + 3].cy < 256.0
      && 0.5 <= ops[4 * j + 3].radius < 1.0
      && ops[4 * j + 3].startAngle == 0.0 && ops[4 * j + 3].endAngle == 2.0 * PI
      && ops[4 * j + 4].SetFill? && ops[4 * j + 4].style.Rgba?
      && ops[4 * j + 4].style.r == ops[4 * j + 4].style.g == ops[4 * j + 4].style.b == 255
      && 0.14 <= ops[4 * j + 4].style.a < 0.2
  {
    var s := FallbackSize as real;
    var base, dots := BaseFill(Solid(color), s, s), StampRun(FallbackDot, s, s, rand, FallbackDotCount);
    StampRunSlices(FallbackDot, s, s, rand, FallbackDotCount, j);
    StampShape(FallbackDot, s, s, rand, StampCursor(FallbackDot, j));
    var dot := dots[4 * j .. 4 * j + 4];
    assert (base + dots)[4 * j + 3] == dot[1];
    assert (base + dots)[4 * j + 4] == dot[2];
  }

  /** `loadPlanetTexture(planet)`: the generated texture, or the fallback when generation throws. */
  function Loaded(m: MathLib, planet: string, rand: Random): Texture {
    match Generated(m, planet, NoOptions, rand)
    case Ok(t) => t
    case Err(_) => FallbackTexture(FallbackColour(planet), Slice(rand, DrawsBeforeThrow))
  }

  method LoadPlanetTexture(m: MathLib, planet: string, rand: Random) returns (t: Texture)
    ensures t == Loaded(m, planet, rand)
  {
    var r := CreatePlanetTexture(m, planet, NoOptions, rand);
    if r.Ok? {
      t := r.value;
    } else {
      t := CreateDefaultTexture(FallbackColour(planet), Slice(rand, DrawsBeforeThrow));
    }
  }

  /**
   * Loading never fails: every body except Uranus and Neptune gets its generated
   * 512 x 512 texture, and those two get the 256 x 256 fallback in their table
   * colours '#CAEAE8' and '#3D58E5'.
   */
  lemma LoadedTextures(m: MathLib, planet: string, rand: Random)
    ensures planet != "uranus" && planet != "neptune" ==>
      Generated(m, planet, NoOptions, rand).Ok?
      && Loaded(m, planet, rand) == Generated(m, planet, NoOptions, rand).value
      && Loaded(m, planet, rand).width == 512 && Loaded(m, planet, rand).height == 512
    ensures Loaded(m, "uranus", rand) == FallbackTexture("#CAEAE8", Slice(rand, DrawsBeforeThrow))
    ensures Loaded(m, "neptune", rand) == FallbackTexture("#3D58E5", Slice(rand, DrawsBeforeThrow))
  {
    UranusNeptuneThrow(m, planet, NoOptions, rand);
    UranusNeptuneThrow(m, "uranus", NoOptions, rand);
    UranusNeptuneThrow(m, "neptune", NoOptions, rand);
  }

  /** The tags `loadAllPlanetTextures` loads after the colour table, in order. */
  const ExtraKeys: seq<string> := ["earthClouds", "saturnRings"]

  /** No key occurs twice. */
  predicate Distinct(keys: seq<string>) {
    forall i, j :: 0 <= i < j < |keys| ==> keys[i] != keys[j]
  }

  /** Every tag `loadAllPlanetTextures` loads, in the order it loads them. */
  const AllKeys: seq<string> := PlanetColorKeys + ExtraKeys

  /**
   * The colour table has ten distinct keys, and neither 'earthClouds' nor
   * 'saturnRings' is among them, so both guards of the loader fire.
   */
  lemma TableKeys()
    ensures Distinct(AllKeys) && |AllKeys| == 12
    ensures PlanetColors.Keys == set k | k in PlanetColorKeys
  {
  }

  /** The `forEach` over the keys: `textures[planet] = loadPlanetTexture(planet)`, call i seeing `draws(i)`. */
  method LoadEach(m: MathLib, keys: seq<string>, draws: nat -> Random) returns (textures: map<string, Texture>)
    requires Distinct(keys)
    ensures forall k :: k in textures <==> k in keys
    ensures forall i :: 0 <= i < |keys| ==> textures[keys[i]] == Loaded(m, keys[i], draws(i))
  {
    textures := map[];
    for i := 0 to |keys|
      invariant forall k :: k in textures <==> k in keys[..i]
      invariant forall j :: 0 <= j < i ==> textures[keys[j]] == Loaded(m, keys[j], draws(j))
    {
      var t := LoadPlanetTexture(m, keys[i], draws(i));
      textures := textures[keys[i] := t];
    }
    assert keys[..|keys|] == keys;
  }

  /**
   * `loadAllPlanetTextures()`: the ten bodies of the colour table, then the cloud and
   * ring textures, because the table has neither key: twelve textures in all, call i
   * of `loadPlanetTexture` seeing the draws `draws(i)`.
   */
  method LoadAllPlanetTextures(m: MathLib, draws: nat -> Random) returns (textures: map<string, Texture>)
    ensures forall k :: k in textures <==> k in AllKeys
    ensures forall i :: 0 <= i < |AllKeys| ==> textures[AllKeys[i]] == Loaded(m, AllKeys[i], draws(i))
  {
    TableKeys();
    textures := LoadTable(m, PlanetColorKeys, ExtraKeys, draws);
  }

  /** The body of `loadAllPlanetTextures` over its key table and its two extra tags. */
  method LoadTable(m: MathLib, keys: seq<string>, extras: seq<string>, draws: nat -> Random)
    returns (textures: map<string, Texture>)
    requires |extras| == 2 && Distinct(keys + extras)
    ensures forall k :: k in textures <==> k in keys + extras
    ensures forall i :: 0 <= i < |keys + extras| ==> textures[(keys + extras)[i]] == Loaded(m, (keys + extras)[i], draws(i))
  {
    ExtrasFresh(keys, extras);
    var table := LoadEach(m, keys, draws);
    textures := LoadExtras(m, keys, extras, table, draws);
  }

  /** The two guarded loads of the extra tags, into the table of the keys. */
  method LoadExtras(m: MathLib, keys: seq<string>, extras: seq<string>, table: map<string, Texture>, draws: nat -> Random)
    returns (textures: map<string, Texture>)
    requires |extras| == 2 && Distinct(keys + extras)
    requires forall k :: k in table <==> k in keys
    requires forall i :: 0 <= i < |keys| ==> table[keys[i]] == Loaded(m, keys[i], draws(i))
    ensures forall k :: k in textures <==> k in keys + extras
    ensures forall i :: 0 <= i < |keys + extras| ==> textures[(keys + extras)[i]] == Loaded(m, (keys + extras)[i], draws(i))
  {
    ExtrasFresh(keys, extras);
    var calls: nat := |keys|;
    var clouds, loaded := LoadIfMissing(m, table, extras[0], draws(calls));
    if loaded {
      calls := calls + 1;
    }
    textures, loaded := LoadIfMissing(m, clouds, extras[1], draws(calls));
    ghost var load := (k, i) => Loaded(m, k, draws(i));
    TableExtended(keys, extras, table, textures, load);
  }

  /** Neither extra key is among the keys, and the two differ. */
  lemma ExtrasFresh(keys: seq<string>, extras: seq<string>)
    requires |extras| == 2 && Distinct(keys + extras)
    ensures Distinct(keys)
    ensures extras[0] !in keys && extras[1] !in keys && extras[0] != extras[1]
  {
    var all := keys + extras;
    assert all[|keys|] == extras[0] && all[|keys| + 1] == extras[1];
    forall i | 0 <= i < |keys|
      ensures keys[i] != extras[0] && keys[i] != extras[1]
    {
      assert all[i] == keys[i];
    }
    forall i, j | 0 <= i < j < |keys|
      ensures keys[i] != keys[j]
    {
      assert all[i] == keys[i] && all[j] == keys[j];
    }
  }

  /**
   * A table holding `load(keys[i], i)` at each of its distinct keys, extended by the two
   * extra keys with the next two values, holds `load(all[i], i)` at every key of the
   * concatenation.
   */
  lemma TableExtended<V>(keys: seq<string>, extras: seq<string>, table: map<string, V>,
                         textures: map<string, V>, load: (string, nat) -> V)
    requires |extras| == 2 && Distinct(keys + extras)
    requires forall k :: k in table <==> k in keys
    requires forall i :: 0 <= i < |keys| ==> table[keys[i]] == load(keys[i], i)
    requires textures == table[extras[0] := load(extras[0], |keys|)][extras[1] := load(extras[1], |keys| + 1)]
    ensures forall k :: k in textures <==> k in keys + extras
    ensures forall i :: 0 <= i < |keys + extras| ==> textures[(keys + extras)[i]] == load((keys + extras)[i], i)
  {
    var all := keys + extras;
    forall i | 0 <= i < |all|
      ensures textures[all[i]] == load(all[i], i)
    {
      if i < |keys| {
        assert all[i] == keys[i] && all[i] != all[|keys|] && all[i] != all[|keys| + 1];
      } else if i == |keys| {
        assert all[i] != all[|keys| + 1];
      }
    }
  }

  /** `if (!textures[key]) { textures[key] = loadPlanetTexture(key); }` */
  method LoadIfMissing(m: MathLib, textures: map<string, Texture>, key: string, rand: Random)
    returns (updated: map<string, Texture>, loaded: bool)
    ensures loaded <==> key !in textures
    ensures updated == if loaded then textures[key := Loaded(m, key, rand)] else textures
  {
    loaded := key !in textures;
    updated := textures;
    if loaded {
      var t := LoadPlanetTexture(m, key, rand);
      updated := textures[key := t];
    }
  }
}
