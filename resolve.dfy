/**
 * The pure sub-resolvers `build` applies: bit depth, one axis of the area
 * rectangle, the 5-bit to 8-bit colour expansion and the compression code,
 * together with the native engine's enum constants they produce.
 */
module Resolve {
  import opened Wrappers
  import opened GritCore

  // Values of the native engine's enums (its header is not part of this model).
  // The proofs rely only on their distinctness.
  const TexFmtA3I5: U8 := 1
  const TexFmt4x4: U8 := 5
  const TexFmtA5I3: U8 := 6
  const GfxBmpA: U8 := 2
  const CprsOff: U8 := 0
  const CprsLz77: U8 := 1
  const CprsHuff: U8 := 2
  const CprsRle: U8 := 3
  const CprsHeader: U8 := 4

  /**
   * The match guard `n & (n - 1) == 0 && n > 0 && n < 32` on a `u8`.
   * `n - 1` wraps for n = 0 (255), as release-mode arithmetic does.
   */
  predicate CustomDepthAccepted(n: U8) {
    var v := n as bv8;
    v & (v - 1) == 0 && n > 0 && n < 32
  }

  /** What `build` does to the engine for an optional bit-depth override. */
  datatype DepthDirective = KeepDepth | SetTexMode(mode: U8) | SetBpp(bits: U8) | Reject(bits: U8)

  function ResolveBitDepth(depth: Option<BitDepth>): (d: DepthDirective)
    ensures depth == None <==> d == KeepDepth
    ensures depth == Some(A3I5) <==> d == SetTexMode(TexFmtA3I5)
    ensures depth == Some(A5I3) <==> d == SetTexMode(TexFmtA5I3)
    ensures depth == Some(FourByFour) <==> d == SetTexMode(TexFmt4x4)
    ensures forall n: U8 :: depth == Some(Custom(n)) ==>
      (d == SetBpp(n) <==> n in {1, 2, 4, 8, 16}) && (d == Reject(n) <==> n !in {1, 2, 4, 8, 16})
  {
    match depth
    case None => KeepDepth
    case Some(A3I5) => SetTexMode(TexFmtA3I5)
    case Some(A5I3) => SetTexMode(TexFmtA5I3)
    case Some(FourByFour) => SetTexMode(TexFmt4x4)
    case Some(Custom(n)) => if CustomDepthAccepted(n) then SetBpp(n) else Reject(n)
  }

  /** Two's-complement wrap of an `i32` sum, as release-mode `+` does. */
  function Wrap32(x: int): (r: I32)
    ensures InI32(x) ==> r == x
    ensures (r - x) % 0x1_0000_0000 == 0
  {
    (x + 0x8000_0000) % 0x1_0000_0000 - 0x8000_0000
  }

  /**
   * One axis of the area rectangle: the new right (or bottom) edge, given the
   * resolved left (or top) `origin`, the size and the absolute bound options,
   * and the engine's `current` value. `-1` is the "not given" sentinel.
   */
  function ResolveAxis(origin: I32, size: Option<I32>, bound: Option<I32>, current: I32): (r: I32)
    ensures size == None ==> r == current
    ensures size == Some(-1) ==> r == (if bound.Some? && bound.value != -1 then bound.value else current)
    ensures size.Some? && size.value != -1 && InI32(origin + size.value) ==> r - origin == size.value
    ensures size.Some? && size.value != -1 ==> (r - (origin + size.value)) % 0x1_0000_0000 == 0
  {
    if size == Some(-1) && bound.Some? && bound.value != -1 then bound.value
    else if size.Some? && size.value != -1 then Wrap32(origin + size.value)
    else current
  }

  /** The engine's `RGBQUAD`, in its blue, green, red order. */
  datatype RgbQuad = RgbQuad(blue: U8, green: U8, red: U8, reserved: U8)

  /** `f * 255 / 31` on a 5-bit field: the truncated, not rounded, 8-bit value. */
  function Expand5(f: int): (c: U8)
    requires 0 <= f < 32
    ensures c * 31 <= f * 255 < (c + 1) * 31
    ensures f == 0 <==> c == 0
    ensures f == 31 <==> c == 255
  {
    f * 255 / 31
  }

  lemma Expand5Monotone(f: int, g: int)
    requires 0 <= f < g < 32
    ensures Expand5(f) < Expand5(g)
  {
    assert Expand5(f) * 31 <= f * 255;
    assert (g - f) * 255 >= 255;
  }

  /**
   * A packed `GBR16` colour key as the engine's quad: `clr & 0x1F`,
   * `(clr >> 5) & 0x1F` and `(clr >> 10) & 0x1F` (written here as `%` and `/`
   * on the non-negative value) expanded to red, green and blue.
   */
  function ExpandGbr16(clr: U16): (q: RgbQuad)
    ensures q.red * 31 <= clr % 32 * 255 < (q.red + 1) * 31
    ensures q.green * 31 <= clr / 32 % 32 * 255 < (q.green + 1) * 31
    ensures q.blue * 31 <= clr / 1024 % 32 * 255 < (q.blue + 1) * 31
    ensures q.reserved == 0
  {
    var r := Expand5(clr % 32);
    var g := Expand5(clr / 32 % 32);
    var b := Expand5(clr / 1024 % 32);
    RgbQuad(b, g, r, 0)
  }

  lemma Expand5Injective(f: int, g: int)
    requires 0 <= f < 32 && 0 <= g < 32
    ensures Expand5(f) == Expand5(g) <==> f == g
  {
    if f < g { Expand5Monotone(f, g); }
    if g < f { Expand5Monotone(g, f); }
  }

  /**
   * Bits 0-4 decide red, bits 5-9 green and bits 10-14 blue, each on its own:
   * two keys give the same channel exactly when that channel's field agrees.
   */
  lemma Gbr16FieldsToChannels(a: U16, b: U16)
    ensures ExpandGbr16(a).red == ExpandGbr16(b).red <==> a % 32 == b % 32
    ensures ExpandGbr16(a).green == ExpandGbr16(b).green <==> a / 32 % 32 == b / 32 % 32
    ensures ExpandGbr16(a).blue == ExpandGbr16(b).blue <==> a / 1024 % 32 == b / 1024 % 32
    ensures ExpandGbr16(a).reserved == 0
  {
    Expand5Injective(a % 32, b % 32);
    Expand5Injective(a / 32 % 32, b / 32 % 32);
    Expand5Injective(a / 1024 % 32, b / 1024 % 32);
  }

  /** Bit 15 never reaches the engine. */
  lemma Gbr16IgnoresBit15(clr: U16)
    requires clr < 0x8000
    ensures ExpandGbr16(clr + 0x8000) == ExpandGbr16(clr)
  {
    var hi := clr + 0x8000;
    var q, r := clr / 32, clr % 32;
    assert hi == 32 * (q + 1024) + r;
    assert hi % 32 == r && hi / 32 == q + 1024;
    assert (q + 1024) % 32 == q % 32;
    var q2, r2 := clr / 1024, clr % 1024;
    assert hi == 1024 * (q2 + 32) + r2;
    assert hi / 1024 == q2 + 32;
    assert (q2 + 32) % 32 == q2 % 32;
  }

  /** Full red, black and white keys expand to the extremes exactly. */
  lemma Gbr16Examples()
    ensures ExpandGbr16(0x001F) == RgbQuad(0, 0, 255, 0)
    ensures ExpandGbr16(0) == RgbQuad(0, 0, 0, 0)
    ensures ExpandGbr16(0x7FFF) == RgbQuad(255, 255, 255, 0)
  {
  }

  /** The engine code of a `Compression` value. */
  function CompressionCode(c: Compression): (v: U8)
    ensures c == Off <==> v == CprsOff
    ensures c == LZ77 <==> v == CprsLz77
    ensures c == Huffman <==> v == CprsHuff
    ensures c == RLE <==> v == CprsRle
    ensures c == OffHeader <==> v == CprsHeader
  {
    match c
    case Off => CprsOff
    case LZ77 => CprsLz77
    case Huffman => CprsHuff
    case RLE => CprsRle
    case OffHeader => CprsHeader
  }

  /** Distinct settings reach the engine as distinct codes. */
  lemma CompressionCodeInjective(a: Compression, b: Compression)
    ensures CompressionCode(a) == CompressionCode(b) <==> a == b
  {
  }
}
