/**
 * The five channel recipes and the assembly of a generation run. Every channel
 * derives its own seed from the settings' seed by a fixed offset and the Creative
 * Freedom-B transform, fills a 3840 x 2160 noise buffer with its own scale and octave
 * count, and (for three of them) paints a fixed overlay. The canvas and its PNG
 * encoding are not modelled: a map is the raster and the overlay it carries.
 */
module TileablePbr {
  import opened JsArith
  import opened JsString
  import opened GenerationTypes
  import opened CreativeFreedomB
  import opened SeamlessNoise

  const Width: nat := 3840
  const Height: nat := 2160

  datatype Channel = Albedo | Normal | Roughness | Fluid | Metallic

  /** What is added to the settings' seed before the Creative Freedom-B transform. */
  function SeedOffset(c: Channel): (offset: int)
    ensures offset % 1000 == 0 && 0 <= offset <= 4000
  {
    match c
    case Albedo => 0
    case Normal => 1000
    case Roughness => 2000
    case Fluid => 3000
    case Metallic => 4000
  }

  /** The noise scale: a base frequency plus the variation divided by a per-channel constant. */
  function Scale(c: Channel, variation: int): real
  {
    match c
    case Albedo => 4.0 + variation as real / 20.0
    case Normal => 8.0 + variation as real / 15.0
    case Roughness => 6.0 + variation as real / 25.0
    case Fluid => 10.0 + variation as real / 10.0
    case Metallic => 5.0 + variation as real / 30.0
  }

  /** The number of octaves summed per pixel. */
  function OctaveCount(c: Channel): (octaves: nat)
    ensures 3 <= octaves <= 6
  {
    match c
    case Albedo => 6
    case Normal => 5
    case Roughness => 4
    case Fluid => 3
    case Metallic => 3
  }

  /** The seed the channel's noise generator starts from; `random` is the channel's draw. */
  function ChannelSeed(c: Channel, seed: int, variation: int, creativeFreedom: bool, random: real): (derived: int)
    ensures !creativeFreedom ==> derived == seed + SeedOffset(c) + 100 * variation
    ensures creativeFreedom && 0.0 <= random < 1.0 ==>
              seed + SeedOffset(c) + 225 * variation <= derived <= seed + SeedOffset(c) + 225 * variation + 899
  {
    ApplyCreativeFreedomB(seed + SeedOffset(c), variation, creativeFreedom, random)
  }

  /**
   * The overlay painted over the noise. Albedo: a gradient whose hues are
   * `baseSeed % 360` and `(hue + 30) % 360` with JavaScript's remainder, so both lie
   * in [0, 360) for a non-negative seed, while for a negative seed the first lies in
   * (-360, 0] and the second in (-330, 30]. Normal and fluid: fixed tints. Roughness
   * and metallic: none.
   */
  function ChannelOverlay(c: Channel, baseSeed: int): (overlay: Overlay)
    ensures c == Albedo <==> overlay.HueGradient?
    ensures overlay.HueGradient? && baseSeed >= 0 ==>
              0 <= overlay.startHue < 360 && 0 <= overlay.endHue < 360
    ensures overlay.HueGradient? && baseSeed < 0 ==>
              -360 < overlay.startHue <= 0 && -330 < overlay.endHue <= 30
    ensures overlay.HueGradient? && baseSeed >= 0 ==>
              overlay.endHue == (overlay.startHue + 30) % 360
    ensures c == Roughness || c == Metallic <==> overlay == NoOverlay
  {
    match c
    case Albedo =>
      var hue := JsRemainder(baseSeed, 360);
      HueGradient(hue, JsRemainder(hue + 30, 360))
    case Normal => FlatTint(128, 128, 255, 0.5)
    case Fluid => FlatTint(0, 100, 200, 0.2)
    case Roughness => NoOverlay
    case Metallic => NoOverlay
  }

  /** The arguments the channel hands to the noise generator. */
  function ChannelNoise(c: Channel, seed: int, variation: int, creativeFreedom: bool, random: real): (p: NoiseParams)
    ensures p.Valid()
  {
    NoiseParams(Width, Height, ChannelSeed(c, seed, variation, creativeFreedom, random),
                Scale(c, variation), OctaveCount(c))
  }

  /** The map a channel produces, as the generator specifies it. */
  function ChannelMap(c: Channel, seed: int, variation: int, creativeFreedom: bool, random: real, t: Trig): (image: ChannelImage)
    ensures image.width == Width && image.height == Height
    ensures |image.pixels| == 4 * Width * Height
  {
    var p := ChannelNoise(c, seed, variation, creativeFreedom, random);
    ChannelImage(Width, Height, NoiseField(t, p), ChannelOverlay(c, p.seed))
  }

  /**
   * `generateAlbedo`, `generateNormal`, `generateRoughness`, `generateFluid` and
   * `generateMetallic`: derive the seed, run the noise generator, attach the overlay.
   */
  method GenerateChannel(c: Channel, seed: int, variation: int, creativeFreedom: bool, random: real, t: Trig)
    returns (image: ChannelImage)
    ensures image == ChannelMap(c, seed, variation, creativeFreedom, random, t)
  {
    var baseSeed := ApplyCreativeFreedomB(seed + SeedOffset(c), variation, creativeFreedom, random);
    ghost var draws: nat;
    var data: array<byte>;
    data, draws := GenerateSeamlessNoise(Width, Height, baseSeed, Scale(c, variation), OctaveCount(c), t);
    image := ChannelImage(Width, Height, data[..], ChannelOverlay(c, baseSeed));
  }

  /** The run identifier: the clock reading, a dash, and the seed. */
  function RunId(clock: int, seed: int): (id: string)
    ensures |id| > |IntToString(seed)|
    ensures id[|id| - |IntToString(seed)| - 1..] == "-" + IntToString(seed)
  {
    IntToString(clock) + "-" + IntToString(seed)
  }

  /**
   * The run `generateTileablePBR(settings)` resolves to. `random` gives each channel's
   * `Math.random()` draw; `idClock` and `stampClock` are the two `Date.now()` readings.
   */
  function PbrRun(settings: GenerationSettings, random: Channel -> real, t: Trig, idClock: int, stampClock: int): (run: GenerationRun)
    ensures run.category == settings.category && run.seed == settings.seed
    ensures run.variation == settings.variation && run.creativeFreedom == settings.creativeFreedom
    ensures run.description == settings.description && run.timestamp == stampClock
  {
    var s := settings;
    var maps := PBRMapSet(
      ChannelMap(Albedo, s.seed, s.variation, s.creativeFreedom, random(Albedo), t),
      ChannelMap(Normal, s.seed, s.variation, s.creativeFreedom, random(Normal), t),
      ChannelMap(Roughness, s.seed, s.variation, s.creativeFreedom, random(Roughness), t),
      ChannelMap(Fluid, s.seed, s.variation, s.creativeFreedom, random(Fluid), t),
      ChannelMap(Metallic, s.seed, s.variation, s.creativeFreedom, random(Metallic), t));
    GenerationRun(RunId(idClock, s.seed), stampClock, s.category, s.seed, s.variation,
                  s.creativeFreedom, s.description, maps)
  }

  /** `generateTileablePBR(settings)`: the five maps in order albedo, normal, roughness, fluid, metallic. */
  method GenerateTileablePbr(settings: GenerationSettings, random: Channel -> real, t: Trig, idClock: int, stampClock: int)
    returns (run: GenerationRun)
    ensures run == PbrRun(settings, random, t, idClock, stampClock)
  {
    var albedo := GenerateChannel(Albedo, settings.seed, settings.variation, settings.creativeFreedom, random(Albedo), t);
    var normal := GenerateChannel(Normal, settings.seed, settings.variation, settings.creativeFreedom, random(Normal), t);
    var roughness := GenerateChannel(Roughness, settings.seed, settings.variation, settings.creativeFreedom, random(Roughness), t);
    var fluid := GenerateChannel(Fluid, settings.seed, settings.variation, settings.creativeFreedom, random(Fluid), t);
    var metallic := GenerateChannel(Metallic, settings.seed, settings.variation, settings.creativeFreedom, random(Metallic), t);
    var maps := PBRMapSet(albedo, normal, roughness, fluid, metallic);
    run := GenerationRun(RunId(idClock, settings.seed), stampClock, settings.category, settings.seed,
                         settings.variation, settings.creativeFreedom, settings.description, maps);
  }

  // ---------------------------------------------------------------- properties

  /** Every channel's scale grows strictly with the variation. */
  lemma ScaleIncreasing(c: Channel, v1: int, v2: int)
    requires v1 < v2
    ensures Scale(c, v1) < Scale(c, v2)
  {
    var d := (v2 - v1) as real;
    assert d > 0.0;
    match c
    case Albedo => assert Scale(c, v2) - Scale(c, v1) == d / 20.0;
    case Normal => assert Scale(c, v2) - Scale(c, v1) == d / 15.0;
    case Roughness => assert Scale(c, v2) - Scale(c, v1) == d / 25.0;
    case Fluid => assert Scale(c, v2) - Scale(c, v1) == d / 10.0;
    case Metallic => assert Scale(c, v2) - Scale(c, v1) == d / 30.0;
  }

  /**
   * Two different channels never start from the same seed: their offsets are at
   * least 1000 apart, and the random part of the transform stays below 900.
   */
  lemma ChannelSeedsDistinct(c1: Channel, c2: Channel, seed: int, variation: int, creativeFreedom: bool, r1: real, r2: real)
    requires c1 != c2
    requires 0.0 <= r1 < 1.0 && 0.0 <= r2 < 1.0
    ensures ChannelSeed(c1, seed, variation, creativeFreedom, r1) != ChannelSeed(c2, seed, variation, creativeFreedom, r2)
  {
    OffsetsApart(c1, c2);
    var s1 := ApplyCreativeFreedomB(seed + SeedOffset(c1), variation, creativeFreedom, r1);
    var s2 := ApplyCreativeFreedomB(seed + SeedOffset(c2), variation, creativeFreedom, r2);
    if creativeFreedom {
      assert s1 - SeedOffset(c1) - (s2 - SeedOffset(c2)) == Randomness(r1) - Randomness(r2);
    }
  }

  lemma OffsetsApart(c1: Channel, c2: Channel)
    requires c1 != c2
    ensures SeedOffset(c1) - SeedOffset(c2) >= 1000 || SeedOffset(c2) - SeedOffset(c1) >= 1000
  {
  }

  /** The references attached to the settings play no part in the run. */
  lemma RunIgnoresReferences(settings: GenerationSettings, references: seq<ReferenceImage>,
                             random: Channel -> real, t: Trig, idClock: int, stampClock: int)
    ensures PbrRun(settings.(references := references), random, t, idClock, stampClock)
         == PbrRun(settings, random, t, idClock, stampClock)
  {
  }

  /** The run identifier ends in a dash followed by the settings' seed. */
  lemma RunIdEndsWithSeed(settings: GenerationSettings, random: Channel -> real, t: Trig, idClock: int, stampClock: int)
    ensures var run := PbrRun(settings, random, t, idClock, stampClock);
      var tail := "-" + IntToString(settings.seed);
      |run.runId| >= |tail| && run.runId[|run.runId| - |tail|..] == tail
  {
  }

  /**
   * Every map of a run is a full 3840 x 2160 RGBA raster whose pixels are gray
   * (R = G = B) and opaque; with bounded sine and cosine each gray level is the
   * normalised octave sum of that pixel, unclamped.
   */
  lemma MapPixels(c: Channel, seed: int, variation: int, creativeFreedom: bool, random: real, t: Trig, x: nat, y: nat)
    requires x < Width && y < Height
    ensures var image := ChannelMap(c, seed, variation, creativeFreedom, random, t);
      var p := ChannelNoise(c, seed, variation, creativeFreedom, random);
      var i := 4 * PixelIndex(Width, x, y);
      i + 3 < |image.pixels|
      && image.pixels[i] == image.pixels[i + 1] == image.pixels[i + 2]
      && image.pixels[i + 3] == 255
      && (Bounded(t) ==> image.pixels[i] as int == PixelGray(t, p, x, y))
  {
    var p := ChannelNoise(c, seed, variation, creativeFreedom, random);
    PixelBytes(t, p, x, y);
    if Bounded(t) {
      NoClamping(t, p, x, y);
    }
  }
}
