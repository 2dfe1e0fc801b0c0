/** The clear colour of the HDR pass, packed as one 32-bit RGBA word. */
module ClearColor {

  /** Three quantised 8-bit colour channels. */
  datatype Rgb8 = Rgb8(r: bv8, g: bv8, b: bv8)

  /** The neutral grey used while no scene is loaded. */
  const NoSceneClearColor: bv32 := 0x303030FF

  /** Packs red, green and blue bytes and an opaque alpha into one RGBA word:
      red in the most significant byte, then green, then blue, alpha 255 in
      the least significant byte. */
  function PackClearColor(c: Rgb8): (w: bv32)
    ensures w >> 24 == c.r as bv32
    ensures (w >> 16) & 0xFF == c.g as bv32
    ensures (w >> 8) & 0xFF == c.b as bv32
    ensures w & 0xFF == 0xFF
  {
    (c.r as bv32 << 24) | (c.g as bv32 << 16) | (c.b as bv32 << 8) | 0xFF
  }

  /** The colour channels of a packed RGBA word. */
  function ClearColorChannels(w: bv32): Rgb8
  {
    Rgb8((w >> 24) as bv8, ((w >> 16) & 0xFF) as bv8, ((w >> 8) & 0xFF) as bv8)
  }

  /** Unpacking recovers the channels. */
  lemma PackedClearColorRoundTrip(c: Rgb8)
    ensures ClearColorChannels(PackClearColor(c)) == c
  {
  }

  /** Distinct colours pack to distinct words. */
  lemma PackClearColorInjective(c: Rgb8, d: Rgb8)
    requires PackClearColor(c) == PackClearColor(d)
    ensures c == d
  {
    PackedClearColorRoundTrip(c);
    PackedClearColorRoundTrip(d);
  }

  /** Black packs to 0x000000FF, white to 0xFFFFFFFF, and the no-scene grey
      is the packing of (0x30, 0x30, 0x30). */
  lemma PackedClearColorExamples()
    ensures PackClearColor(Rgb8(0, 0, 0)) == 0x0000_00FF
    ensures PackClearColor(Rgb8(255, 255, 255)) == 0xFFFF_FFFF
    ensures PackClearColor(Rgb8(0x30, 0x30, 0x30)) == NoSceneClearColor
  {
  }
}
