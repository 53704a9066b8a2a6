/**
 * The value types of a generation request and its result. The source keeps each
 * map as an encoded PNG data URL; here a map is the raster the channel drew (its
 * grayscale noise buffer) together with the overlay painted over it, before encoding.
 */
module GenerationTypes {

  /** One element of an 8-bit clamped pixel buffer. */
  newtype byte = b: int | 0 <= b < 256

  /** A colour painted over the noise with the `overlay` composite operation. */
  datatype Overlay =
    | NoOverlay
      /** A diagonal linear gradient from `hsla(startHue, 40%, 45%, 0.3)` to `hsla(endHue, 50%, 55%, 0.3)`. */
    | HueGradient(startHue: int, endHue: int)
      /** A flat `rgba(red, green, blue, alpha)` fill over the whole canvas. */
    | FlatTint(red: int, green: int, blue: int, alpha: real)

  /** One channel's raster: width, height, RGBA bytes of the noise, and its overlay. */
  datatype ChannelImage = ChannelImage(width: nat, height: nat, pixels: seq<byte>, overlay: Overlay)

  datatype PBRMapSet = PBRMapSet(
    albedo: ChannelImage,
    normal: ChannelImage,
    roughness: ChannelImage,
    fluid: ChannelImage,
    metallic: ChannelImage)

  datatype ReferenceImage = ReferenceImage(id: string, url: string, name: string)

  datatype GenerationSettings = GenerationSettings(
    category: string,
    seed: int,
    variation: int,
    creativeFreedom: bool,
    description: string,
    references: seq<ReferenceImage>)

  datatype GenerationRun = GenerationRun(
    runId: string,
    timestamp: int,
    category: string,
    seed: int,
    variation: int,
    creativeFreedom: bool,
    description: string,
    maps: PBRMapSet)
}
