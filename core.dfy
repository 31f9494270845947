/**
 * The shared vocabulary of both crates: the option enums, the spec echoed
 * with every converted bitmap, and the compile-time `StaticBitmap` with its
 * `Debug` view.
 */
module GritCore {
  import opened Wrappers

  /** Rust's fixed-width integers, as ranges of the unbounded `int`. */
  type U8 = x: int | 0 <= x < 0x100
  type U16 = x: int | 0 <= x < 0x1_0000
  type I32 = x: int | -0x8000_0000 <= x < 0x8000_0000

  predicate InI32(x: int) {
    -0x8000_0000 <= x < 0x8000_0000
  }

  /** `GfxFormat`; `Bitmap` is the `Default`. */
  datatype GfxFormat = Bitmap | Tile

  /** `Compression`. Its derived `Default` (`Off`) is never consulted: an unset compression leaves the engine's codes alone. */
  datatype Compression = Off | LZ77 | Huffman | RLE | OffHeader

  /** An 8-bit RGB triple, or a packed 5-5-5 colour (bits 0-4 red, 5-9 green, 10-14 blue). */
  datatype Color = RGB(r: U8, g: U8, b: U8) | GBR16(packed: U16)

  datatype Transparency = Disabled | Color(color: Color)

  /** Three engine presets, or a raw bits-per-pixel count. */
  datatype BitDepth = A3I5 | A5I3 | FourByFour | Custom(bits: U8)

  /** What a conversion actually applied; the bit depth stays optional. */
  datatype BitmapSpec = BitmapSpec(bitDepth: Option<BitDepth>, format: GfxFormat, transparency: Transparency)

  /** The constant a compile-time conversion is embedded as (`map` is a Dafny keyword, hence `tileMap`). */
  datatype StaticBitmap = StaticBitmap(gfx: seq<U8>, palette: seq<U8>, tileMap: seq<U8>, meta: seq<U8>, spec: BitmapSpec)

  const DefaultFormat: GfxFormat := Bitmap

  /** `Transparency::default()`: a magenta colour key. */
  const DefaultTransparency: Transparency := Color(RGB(0xFF, 0, 0xFF))

  /** The fields the `Debug` impl of `StaticBitmap` prints: four lengths and the spec. */
  datatype DebugView = DebugView(gfxLen: nat, paletteLen: nat, mapLen: nat, metaLen: nat, spec: BitmapSpec)

  function Debug(sb: StaticBitmap): DebugView {
    DebugView(|sb.gfx|, |sb.palette|, |sb.tileMap|, |sb.meta|, sb.spec)
  }

  /** Two bitmaps print alike exactly when their buffers have equal lengths and their specs agree: byte contents never show. */
  lemma DebugShowsOnlyLengths(a: StaticBitmap, b: StaticBitmap)
    ensures Debug(a) == Debug(b) <==>
      |a.gfx| == |b.gfx| && |a.palette| == |b.palette| && |a.tileMap| == |b.tileMap| && |a.meta| == |b.meta| && a.spec == b.spec
  {
  }
}
