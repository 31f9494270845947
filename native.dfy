/**
 * `BitmapBuilder::build` and `RecordExt::read`: the step-by-step writes into
 * the native engine's parameter struct, the loop that copies an output
 * record, and the external engine as an oracle.
 */
module Native {
  import opened Wrappers
  import opened GritCore
  import opened Resolve
  import opened Builder

  datatype Error =
    | BadBitDepth(bits: U8)
    | BadInput
    | InputNotFound(path: string)
    | ConversionError(path: string)

  /** A conversion result (`map` is a Dafny keyword, hence `tileMap`). */
  datatype Bitmap = Bitmap(gfx: seq<U8>, palette: seq<U8>, tileMap: seq<U8>, meta: seq<U8>, spec: BitmapSpec)

  /** The engine parameters `build` writes, as one value. */
  datatype Params = Params(
    tileWidth: U8, tileHeight: U8,
    gfxTexMode: U8, gfxBpp: U8,
    areaLeft: I32, areaTop: I32, areaRight: I32, areaBottom: I32,
    metaWidth: U8, metaHeight: U8,
    gfxMode: U8, gfxHasAlpha: bool, gfxAlphaColor: RgbQuad,
    gfxCompression: U8, palCompression: U8, mapCompression: U8,
    bExport: bool)

  /** An engine output buffer: `height * width` bytes, or a null pointer. */
  datatype RawRecord = RawRecord(width: int, height: int, data: Option<seq<U8>>)

  /** The engine's promise behind the `unsafe` trait: a non-null buffer holds at least `height * width` bytes. */
  type Record = r: RawRecord | r.data.Some? ==> 0 <= r.width && 0 <= r.height && r.width * r.height <= |r.data.value|
    witness RawRecord(0, 0, None)

  /** The bytes a record denotes. */
  function RecordBytes(rec: Record): seq<U8> {
    if rec.data.None? then [] else rec.data.value[..rec.height * rec.width]
  }

  /** `RecordExt::read`: a null buffer reads as empty; otherwise exactly `height * width` bytes, in order. */
  method Read(rec: Record) returns (buf: seq<U8>)
    ensures rec.data.None? ==> buf == []
    ensures rec.data.Some? ==> |buf| == rec.height * rec.width
    ensures rec.data.Some? ==> forall i :: 0 <= i < |buf| ==> buf[i] == rec.data.value[i]
    ensures buf == RecordBytes(rec)
  {
    if rec.data.None? {
      return [];
    }
    var data := rec.data.value;
    var length := rec.height * rec.width;
    buf := [];
    for i := 0 to length
      invariant |buf| == i
      invariant forall k :: 0 <= k < i ==> buf[k] == data[k]
    {
      buf := buf + [data[i]];
    }
  }

  /** A handle to a decoded image. */
  type Dib = nat

  /** What `grit_run` leaves behind: its verdict and the four output records. */
  datatype RunOutput = RunOutput(ok: bool, gfxRec: Record, palRec: Record, mapRec: Record, metaRec: Record)

  /**
   * The native engine, seen only through its interface: the parameters after
   * `grit_alloc`, `grit_clear` and `grit_init`; `cldib_load`; the parameters
   * `grit_init_from_dib` derives from an image; and `grit_run`.
   */
  datatype Engine = Engine(
    defaults: Params,
    load: string -> Option<Dib>,
    initFromDib: (Params, Dib) -> Params,
    run: (Params, Dib) -> RunOutput)

  /** The native `GRIT_REC`, reduced to the fields `build` writes. */
  class GritRec {
    var tileWidth: U8
    var tileHeight: U8
    var gfxTexMode: U8
    var gfxBpp: U8
    var areaLeft: I32
    var areaTop: I32
    var areaRight: I32
    var areaBottom: I32
    var metaWidth: U8
    var metaHeight: U8
    var gfxMode: U8
    var gfxHasAlpha: bool
    var gfxAlphaColor: RgbQuad
    var gfxCompression: U8
    var palCompression: U8
    var mapCompression: U8
    var bExport: bool

    function Snapshot(): Params
      reads this
    {
      Params(tileWidth, tileHeight, gfxTexMode, gfxBpp, areaLeft, areaTop, areaRight, areaBottom,
             metaWidth, metaHeight, gfxMode, gfxHasAlpha, gfxAlphaColor,
             gfxCompression, palCompression, mapCompression, bExport)
    }

    /** `grit_alloc` followed by `grit_clear` and `grit_init`: every field at the engine's default. */
    constructor (p: Params)
      ensures Snapshot() == p
    {
      tileWidth, tileHeight := p.tileWidth, p.tileHeight;
      gfxTexMode, gfxBpp := p.gfxTexMode, p.gfxBpp;
      areaLeft, areaTop, areaRight, areaBottom := p.areaLeft, p.areaTop, p.areaRight, p.areaBottom;
      metaWidth, metaHeight := p.metaWidth, p.metaHeight;
      gfxMode, gfxHasAlpha, gfxAlphaColor := p.gfxMode, p.gfxHasAlpha, p.gfxAlphaColor;
      gfxCompression, palCompression, mapCompression := p.gfxCompression, p.palCompression, p.mapCompression;
      bExport := p.bExport;
    }

    /** Overwrites every field with `p`, one group of fields at a time. */
    method Assign(p: Params)
      modifies this
      ensures Snapshot() == p
    {
      AssignFormat(p);
      AssignArea(p);
      AssignAlpha(p);
      AssignOutput(p);
    }

    method AssignFormat(p: Params)
      modifies this
      ensures Snapshot() == old(Snapshot()).(tileWidth := p.tileWidth, tileHeight := p.tileHeight,
                                             gfxTexMode := p.gfxTexMode, gfxBpp := p.gfxBpp,
                                             metaWidth := p.metaWidth, metaHeight := p.metaHeight)
    {
      tileWidth, tileHeight, gfxTexMode, gfxBpp := p.tileWidth, p.tileHeight, p.gfxTexMode, p.gfxBpp;
      metaWidth, metaHeight := p.metaWidth, p.metaHeight;
    }

    method AssignArea(p: Params)
      modifies this
      ensures Snapshot() == old(Snapshot()).(areaLeft := p.areaLeft, areaTop := p.areaTop,
                                             areaRight := p.areaRight, areaBottom := p.areaBottom)
    {
      areaLeft, areaTop, areaRight, areaBottom := p.areaLeft, p.areaTop, p.areaRight, p.areaBottom;
    }

    method AssignAlpha(p: Params)
      modifies this
      ensures Snapshot() == old(Snapshot()).(gfxMode := p.gfxMode, gfxHasAlpha := p.gfxHasAlpha,
                                             gfxAlphaColor := p.gfxAlphaColor)
    {
      gfxMode, gfxHasAlpha, gfxAlphaColor := p.gfxMode, p.gfxHasAlpha, p.gfxAlphaColor;
    }

    method AssignOutput(p: Params)
      modifies this
      ensures Snapshot() == old(Snapshot()).(gfxCompression := p.gfxCompression, palCompression := p.palCompression,
                                             mapCompression := p.mapCompression, bExport := p.bExport)
    {
      gfxCompression, palCompression, mapCompression, bExport := p.gfxCompression, p.palCompression, p.mapCompression, p.bExport;
    }

    /** `grit_init_from_dib`: the engine re-derives its parameters from the loaded image. */
    method InitFromDib(env: Engine, dib: Dib)
      modifies this
      ensures Snapshot() == env.initFromDib(old(Snapshot()), dib)
    {
      Assign(env.initFromDib(Snapshot(), dib));
    }

    /** The tile step of `build`: an explicit size wins, otherwise 1 for bitmaps and 8 for tiles. */
    method SetTiles(b: BitmapBuilder)
      modifies this
      ensures Snapshot() == ResolveTiles(old(Snapshot()), b)
    {
      match b.format.GetOr(DefaultFormat) {
        case Bitmap =>
          tileWidth := b.tileWidth.GetOr(1);
          tileHeight := b.tileHeight.GetOr(1);
        case Tile =>
          tileWidth := b.tileWidth.GetOr(8);
          tileHeight := b.tileHeight.GetOr(8);
      }
    }

    /** The write an accepted bit-depth override makes. */
    method SetDepth(d: DepthDirective)
      modifies this
      ensures Snapshot() == ApplyDepth(old(Snapshot()), d)
    {
      match d {
        case SetTexMode(m) => gfxTexMode := m;
        case SetBpp(n) => gfxBpp := n;
        case _ =>
      }
    }

    /** The area step: origin first, then each far edge from its size or bound. */
    method SetArea(b: BitmapBuilder)
      modifies this
      ensures Snapshot() == ResolveArea(old(Snapshot()), b)
    {
      areaLeft := b.areaLeft.GetOr(0);
      areaTop := b.areaTop.GetOr(0);
      if b.areaWidth == Some(-1) && b.areaRight.Some? && b.areaRight.value != -1 {
        areaRight := b.areaRight.value;
      } else if b.areaWidth.Some? && b.areaWidth.value != -1 {
        areaRight := Wrap32(areaLeft + b.areaWidth.value);
      }
      if b.areaHeight == Some(-1) && b.areaBottom.Some? && b.areaBottom.value != -1 {
        areaBottom := b.areaBottom.value;
      } else if b.areaHeight.Some? && b.areaHeight.value != -1 {
        areaBottom := Wrap32(areaTop + b.areaHeight.value);
      }
    }

    method SetMeta(b: BitmapBuilder)
      modifies this
      ensures Snapshot() == ResolveMeta(old(Snapshot()), b)
    {
      metaWidth := b.metaWidth.GetOr(1);
      metaHeight := b.metaHeight.GetOr(1);
    }

    method SetTransparency(t: Transparency)
      modifies this
      ensures Snapshot() == ApplyTransparency(old(Snapshot()), t)
    {
      match t {
        case Disabled =>
          gfxMode := GfxBmpA;
        case Color(RGB(red, green, blue)) =>
          gfxHasAlpha := true;
          gfxAlphaColor := RgbQuad(blue, green, red, 0);
        case Color(GBR16(clr)) =>
          gfxHasAlpha := true;
          gfxAlphaColor := ExpandGbr16(clr);
      }
    }

    method SetCompression(c: Option<Compression>)
      modifies this
      ensures Snapshot() == ApplyCompression(old(Snapshot()), c)
    {
      if c.Some? {
        var value := CompressionCode(c.value);
        gfxCompression := value;
        palCompression := value;
        mapCompression := value;
      }
    }
  }

  /** `CString::new` refuses a path with an interior nul byte. */
  predicate HasNul(s: string) {
    '\0' in s
  }

  function DefaultTile(format: GfxFormat): U8 {
    match format
    case Bitmap => 1
    case Tile => 8
  }

  /** The tile step: an explicit size wins, otherwise the format's default. */
  function ResolveTiles(p: Params, b: BitmapBuilder): Params {
    var format := b.format.GetOr(DefaultFormat);
    p.(tileWidth := b.tileWidth.GetOr(DefaultTile(format)), tileHeight := b.tileHeight.GetOr(DefaultTile(format)))
  }

  /** The bit-depth step, for every directive but `Reject`. */
  function ApplyDepth(p: Params, d: DepthDirective): Params {
    match d
    case SetTexMode(m) => p.(gfxTexMode := m)
    case SetBpp(n) => p.(gfxBpp := n)
    case _ => p
  }

  /** The area step: left and top default to 0, right and bottom follow `ResolveAxis`. */
  function ResolveArea(p: Params, b: BitmapBuilder): Params {
    var left := b.areaLeft.GetOr(0);
    var top := b.areaTop.GetOr(0);
    p.(areaLeft := left, areaTop := top,
       areaRight := ResolveAxis(left, b.areaWidth, b.areaRight, p.areaRight),
       areaBottom := ResolveAxis(top, b.areaHeight, b.areaBottom, p.areaBottom))
  }

  /** The meta step: each dimension defaults to 1. */
  function ResolveMeta(p: Params, b: BitmapBuilder): Params {
    p.(metaWidth := b.metaWidth.GetOr(1), metaHeight := b.metaHeight.GetOr(1))
  }

  /** The transparency step: `Disabled` only switches the graphics mode; a colour sets the alpha key. */
  function ApplyTransparency(p: Params, t: Transparency): Params {
    match t
    case Disabled => p.(gfxMode := GfxBmpA)
    case Color(RGB(r, g, b)) => p.(gfxHasAlpha := true, gfxAlphaColor := RgbQuad(b, g, r, 0))
    case Color(GBR16(clr)) => p.(gfxHasAlpha := true, gfxAlphaColor := ExpandGbr16(clr))
  }

  /** The compression step: one code for all three streams, or nothing when unset. */
  function ApplyCompression(p: Params, c: Option<Compression>): Params {
    match c
    case None => p
    case Some(c) =>
      var v := CompressionCode(c);
      p.(gfxCompression := v, palCompression := v, mapCompression := v)
  }

  /** The steps after the bit depth, ending with export switched off. */
  function ResolveRest(p: Params, b: BitmapBuilder): Params {
    var keyed := ApplyTransparency(ResolveMeta(ResolveArea(p, b), b), b.transparency.GetOr(DefaultTransparency));
    ApplyCompression(keyed, b.compression).(bExport := false)
  }

  /** The engine parameters `build` hands to `grit_run`, starting from the engine's own `init`. */
  function ResolveParams(b: BitmapBuilder, init: Params): (r: Result<Params, Error>)
    ensures r.Err? <==>
      b.bitDepthOverride.Some? && b.bitDepthOverride.value.Custom? && b.bitDepthOverride.value.bits !in {1, 2, 4, 8, 16}
    ensures r.Err? ==> r.error == BadBitDepth(b.bitDepthOverride.value.bits)
  {
    var d := ResolveBitDepth(b.bitDepthOverride);
    if d.Reject? then Err(BadBitDepth(d.bits))
    else Ok(ResolveRest(ApplyDepth(ResolveTiles(init, b), d), b))
  }

  /** The spec a successful conversion echoes: the override as given, the format and transparency defaulted. */
  function SpecOf(b: BitmapBuilder): BitmapSpec {
    BitmapSpec(b.bitDepthOverride, b.format.GetOr(DefaultFormat), b.transparency.GetOr(DefaultTransparency))
  }

  /** What `build` returns, as a function of the builder and the engine. */
  function BuildSpec(b: BitmapBuilder, env: Engine): Result<Bitmap, Error> {
    if HasNul(b.input) then Err(BadInput)
    else match env.load(b.input)
      case None => Err(InputNotFound(b.input))
      case Some(dib) =>
        match ResolveParams(b, env.initFromDib(env.defaults, dib))
        case Err(e) => Err(e)
        case Ok(p) =>
          var out := env.run(p, dib);
          if out.ok then
            Ok(Bitmap.Bitmap(RecordBytes(out.gfxRec), RecordBytes(out.palRec), RecordBytes(out.mapRec),
                      RecordBytes(out.metaRec), SpecOf(b)))
          else Err(ConversionError(b.input))
  }

  /** `BitmapBuilder::build`: writes the engine's fields in the source's order and returns early on each error. */
  method Build(b: BitmapBuilder, env: Engine) returns (r: Result<Bitmap, Error>)
    ensures r == BuildSpec(b, env)
  {
    var gr := new GritRec(env.defaults);
    if HasNul(b.input) {
      return Err(BadInput);
    }
    var dib := env.load(b.input);
    if dib.None? {
      return Err(InputNotFound(b.input));
    }
    gr.InitFromDib(env, dib.value);
    ghost var init := gr.Snapshot();

    gr.SetTiles(b);
    var d := ResolveBitDepth(b.bitDepthOverride);
    if d.Reject? {
      return Err(BadBitDepth(d.bits));
    }
    gr.SetDepth(d);
    ghost var depth := gr.Snapshot();
    gr.SetArea(b);
    gr.SetMeta(b);
    gr.SetTransparency(b.transparency.GetOr(DefaultTransparency));
    gr.SetCompression(b.compression);
    gr.bExport := false;
    assert gr.Snapshot() == ResolveRest(depth, b);
    assert ResolveParams(b, init) == Ok(gr.Snapshot());

    var out := env.run(gr.Snapshot(), dib.value);
    var gfx := Read(out.gfxRec);
    var palette := Read(out.palRec);
    var tileMap := Read(out.mapRec);
    var meta := Read(out.metaRec);

    if out.ok {
      r := Ok(Bitmap.Bitmap(gfx, palette, tileMap, meta, SpecOf(b)));
    } else {
      r := Err(ConversionError(b.input));
    }
  }

  // ---- What `build` hands to the engine, stage by stage ----

  /** The steps after the bit depth leave the tile size and the depth fields alone. */
  lemma RestKeepsTilesAndDepth(p: Params, b: BitmapBuilder)
    ensures var q := ResolveRest(p, b);
      && q.tileWidth == p.tileWidth && q.tileHeight == p.tileHeight
      && q.gfxTexMode == p.gfxTexMode && q.gfxBpp == p.gfxBpp
  {
    var sized := ResolveMeta(ResolveArea(p, b), b);
    assert sized.tileWidth == p.tileWidth && sized.tileHeight == p.tileHeight;
    assert sized.gfxTexMode == p.gfxTexMode && sized.gfxBpp == p.gfxBpp;
  }

  /** The area and meta fields are those the area and meta steps wrote. */
  lemma RestKeepsAreaAndMeta(p: Params, b: BitmapBuilder)
    ensures var q, a := ResolveRest(p, b), ResolveArea(p, b);
      && q.areaLeft == a.areaLeft && q.areaTop == a.areaTop
      && q.areaRight == a.areaRight && q.areaBottom == a.areaBottom
      && q.metaWidth == b.metaWidth.GetOr(1) && q.metaHeight == b.metaHeight.GetOr(1)
  {
    var sized := ResolveMeta(ResolveArea(p, b), b);
    assert sized.areaRight == ResolveArea(p, b).areaRight && sized.areaBottom == ResolveArea(p, b).areaBottom;
  }

  /** Tiles: an explicit size wins; otherwise 8 for `Tile` and 1 for `Bitmap` or no format. */
  lemma TileDefaults(b: BitmapBuilder, init: Params)
    requires ResolveParams(b, init).Ok?
    ensures var p := ResolveParams(b, init).value;
      && (b.tileWidth.Some? ==> p.tileWidth == b.tileWidth.value)
      && (b.tileHeight.Some? ==> p.tileHeight == b.tileHeight.value)
      && (b.tileWidth.None? && b.format == Some(Tile) ==> p.tileWidth == 8)
      && (b.tileHeight.None? && b.format == Some(Tile) ==> p.tileHeight == 8)
      && (b.tileWidth.None? && b.format != Some(Tile) ==> p.tileWidth == 1)
      && (b.tileHeight.None? && b.format != Some(Tile) ==> p.tileHeight == 1)
  {
    var tiled := ResolveTiles(init, b);
    var depth := ApplyDepth(tiled, ResolveBitDepth(b.bitDepthOverride));
    assert depth.tileWidth == tiled.tileWidth && depth.tileHeight == tiled.tileHeight;
    RestKeepsTilesAndDepth(depth, b);
    assert ResolveParams(b, init).value == ResolveRest(depth, b);
  }

  /**
   * Bit depth: a preset writes only the texture mode, an accepted custom depth
   * only the bits per pixel, and no override leaves both at the engine's values.
   */
  lemma BitDepthOutcome(b: BitmapBuilder, init: Params)
    requires ResolveParams(b, init).Ok?
    ensures var p := ResolveParams(b, init).value;
      && (b.bitDepthOverride.None? ==> p.gfxTexMode == init.gfxTexMode && p.gfxBpp == init.gfxBpp)
      && (b.bitDepthOverride == Some(A3I5) ==> p.gfxTexMode == TexFmtA3I5 && p.gfxBpp == init.gfxBpp)
      && (b.bitDepthOverride == Some(A5I3) ==> p.gfxTexMode == TexFmtA5I3 && p.gfxBpp == init.gfxBpp)
      && (b.bitDepthOverride == Some(FourByFour) ==> p.gfxTexMode == TexFmt4x4 && p.gfxBpp == init.gfxBpp)
      && (b.bitDepthOverride.Some? && b.bitDepthOverride.value.Custom? ==>
            b.bitDepthOverride.value.bits in {1, 2, 4, 8, 16} &&
            p.gfxBpp == b.bitDepthOverride.value.bits && p.gfxTexMode == init.gfxTexMode)
  {
    var tiled := ResolveTiles(init, b);
    var depth := ApplyDepth(tiled, ResolveBitDepth(b.bitDepthOverride));
    RestKeepsTilesAndDepth(depth, b);
    assert ResolveParams(b, init).value == ResolveRest(depth, b);
  }

  /**
   * Area, horizontal axis: the left edge defaults to 0; a width of -1 with a
   * real right bound takes the bound; any other width is added to the left
   * edge; otherwise the engine's right edge stays, so a right bound alone does nothing.
   */
  lemma AreaHorizontal(b: BitmapBuilder, init: Params)
    requires ResolveParams(b, init).Ok?
    ensures var p := ResolveParams(b, init).value;
      && p.areaLeft == (if b.areaLeft.Some? then b.areaLeft.value else 0)
      && (b.areaWidth == Some(-1) && b.areaRight.Some? && b.areaRight.value != -1 ==> p.areaRight == b.areaRight.value)
      && (b.areaWidth.Some? && b.areaWidth.value != -1 && InI32(p.areaLeft + b.areaWidth.value) ==>
            p.areaRight == p.areaLeft + b.areaWidth.value)
      && (b.areaWidth.None? || (b.areaWidth == Some(-1) && b.areaRight in {None, Some(-1)}) ==> p.areaRight == init.areaRight)
  {
    var depth := ApplyDepth(ResolveTiles(init, b), ResolveBitDepth(b.bitDepthOverride));
    assert depth.areaRight == init.areaRight && depth.areaBottom == init.areaBottom;
    RestKeepsAreaAndMeta(depth, b);
    assert ResolveParams(b, init).value == ResolveRest(depth, b);
  }

  /** Area, vertical axis: the same rules with top, height and bottom. */
  lemma AreaVertical(b: BitmapBuilder, init: Params)
    requires ResolveParams(b, init).Ok?
    ensures var p := ResolveParams(b, init).value;
      && p.areaTop == (if b.areaTop.Some? then b.areaTop.value else 0)
      && (b.areaHeight == Some(-1) && b.areaBottom.Some? && b.areaBottom.value != -1 ==> p.areaBottom == b.areaBottom.value)
      && (b.areaHeight.Some? && b.areaHeight.value != -1 && InI32(p.areaTop + b.areaHeight.value) ==>
            p.areaBottom == p.areaTop + b.areaHeight.value)
      && (b.areaHeight.None? || (b.areaHeight == Some(-1) && b.areaBottom in {None, Some(-1)}) ==> p.areaBottom == init.areaBottom)
  {
    var depth := ApplyDepth(ResolveTiles(init, b), ResolveBitDepth(b.bitDepthOverride));
    assert depth.areaRight == init.areaRight && depth.areaBottom == init.areaBottom;
    RestKeepsAreaAndMeta(depth, b);
    assert ResolveParams(b, init).value == ResolveRest(depth, b);
  }

  /** Meta tiles: each dimension is the given value or 1. */
  lemma MetaDefaults(b: BitmapBuilder, init: Params)
    requires ResolveParams(b, init).Ok?
    ensures var p := ResolveParams(b, init).value;
      && (b.metaWidth.Some? ==> p.metaWidth == b.metaWidth.value)
      && (b.metaHeight.Some? ==> p.metaHeight == b.metaHeight.value)
      && (b.metaWidth.None? ==> p.metaWidth == 1)
      && (b.metaHeight.None? ==> p.metaHeight == 1)
  {
    var depth := ApplyDepth(ResolveTiles(init, b), ResolveBitDepth(b.bitDepthOverride));
    assert depth.areaRight == init.areaRight && depth.areaBottom == init.areaBottom;
    RestKeepsAreaAndMeta(depth, b);
    assert ResolveParams(b, init).value == ResolveRest(depth, b);
  }

  /**
   * Transparency: no setting keys magenta; `Disabled` only switches the
   * graphics mode and leaves the alpha fields alone; an RGB key is stored
   * blue, green, red; a GBR16 key is expanded. A colour key never touches the mode.
   */
  lemma TransparencyOutcome(b: BitmapBuilder, init: Params)
    requires ResolveParams(b, init).Ok?
    ensures var p := ResolveParams(b, init).value;
      && (b.transparency.None? ==>
            p.gfxHasAlpha && p.gfxAlphaColor == RgbQuad(0xFF, 0, 0xFF, 0) && p.gfxMode == init.gfxMode)
      && (b.transparency == Some(Disabled) ==>
            p.gfxMode == GfxBmpA && p.gfxHasAlpha == init.gfxHasAlpha && p.gfxAlphaColor == init.gfxAlphaColor)
      && (b.transparency.Some? && b.transparency.value.Color? ==> p.gfxHasAlpha && p.gfxMode == init.gfxMode)
      && (b.transparency.Some? && b.transparency.value.Color? && b.transparency.value.color.RGB? ==>
            var c := b.transparency.value.color;
            p.gfxAlphaColor == RgbQuad(c.b, c.g, c.r, 0))
      && (b.transparency.Some? && b.transparency.value.Color? && b.transparency.value.color.GBR16? ==>
            p.gfxAlphaColor == ExpandGbr16(b.transparency.value.color.packed))
  {
  }

  /** Compression: one code on all three streams, or all three left as they were; export is always off. */
  lemma CompressionOutcome(b: BitmapBuilder, init: Params)
    requires ResolveParams(b, init).Ok?
    ensures var p := ResolveParams(b, init).value;
      && (b.compression.Some? ==>
            p.gfxCompression == CompressionCode(b.compression.value) &&
            p.palCompression == p.gfxCompression && p.mapCompression == p.gfxCompression)
      && (b.compression.None? ==>
            p.gfxCompression == init.gfxCompression && p.palCompression == init.palCompression &&
            p.mapCompression == init.mapCompression)
      && !p.bExport
  {
    var d := ResolveBitDepth(b.bitDepthOverride);
    var q := ApplyDepth(ResolveTiles(init, b), d);
    assert q.gfxCompression == init.gfxCompression && q.palCompression == init.palCompression;
    assert q.mapCompression == init.mapCompression;
    RestCompression(q, b);
  }

  /** The steps after the bit depth leave the compression codes alone unless a compression is given. */
  lemma RestCompression(p: Params, b: BitmapBuilder)
    ensures var q := ResolveRest(p, b);
      && (b.compression.Some? ==>
            q.gfxCompression == CompressionCode(b.compression.value) &&
            q.palCompression == q.gfxCompression && q.mapCompression == q.gfxCompression)
      && (b.compression.None? ==>
            q.gfxCompression == p.gfxCompression && q.palCompression == p.palCompression &&
            q.mapCompression == p.mapCompression)
      && !q.bExport
  {
    var keyed := ApplyTransparency(ResolveMeta(ResolveArea(p, b), b), b.transparency.GetOr(DefaultTransparency));
    assert keyed.gfxCompression == p.gfxCompression && keyed.palCompression == p.palCompression;
    assert keyed.mapCompression == p.mapCompression;
  }

  // ---- The outcome of `build` ----

  /**
   * Errors come in a fixed order: a nul byte before any load, a failed load
   * whatever the bit depth, a bad depth only after a successful load, and a
   * failed conversion last. Each error arises exactly under its condition, and
   * `build` succeeds exactly when none of them does.
   */
  lemma ErrorOrder(b: BitmapBuilder, env: Engine)
    ensures BuildSpec(b, env) == Err(BadInput) <==> HasNul(b.input)
    ensures BuildSpec(b, env) == Err(InputNotFound(b.input)) <==> !HasNul(b.input) && env.load(b.input).None?
    ensures forall n: U8 :: BuildSpec(b, env) == Err(BadBitDepth(n)) <==>
      !HasNul(b.input) && env.load(b.input).Some? && b.bitDepthOverride == Some(Custom(n)) && n !in {1, 2, 4, 8, 16}
    ensures BuildSpec(b, env) == Err(ConversionError(b.input)) <==>
      !HasNul(b.input) && env.load(b.input).Some? &&
      ResolveParams(b, env.initFromDib(env.defaults, env.load(b.input).value)).Ok? &&
      !env.run(ResolveParams(b, env.initFromDib(env.defaults, env.load(b.input).value)).value, env.load(b.input).value).ok
    ensures BuildSpec(b, env).Ok? <==>
      !HasNul(b.input) && env.load(b.input).Some? &&
      ResolveParams(b, env.initFromDib(env.defaults, env.load(b.input).value)).Ok? &&
      env.run(ResolveParams(b, env.initFromDib(env.defaults, env.load(b.input).value)).value, env.load(b.input).value).ok
  {
  }

  /**
   * A success carries the four output buffers exactly as the engine left them
   * and echoes the override as given, the format or `Bitmap`, and the
   * transparency or the magenta default.
   */
  lemma SuccessEcho(b: BitmapBuilder, env: Engine)
    requires BuildSpec(b, env).Ok?
    ensures var bm := BuildSpec(b, env).value;
      var dib := env.load(b.input).value;
      var out := env.run(ResolveParams(b, env.initFromDib(env.defaults, dib)).value, dib);
      && env.load(b.input).Some? && out.ok
      && bm.gfx == RecordBytes(out.gfxRec) && bm.palette == RecordBytes(out.palRec)
      && bm.tileMap == RecordBytes(out.mapRec) && bm.meta == RecordBytes(out.metaRec)
      && bm.spec.bitDepth == b.bitDepthOverride
      && bm.spec.format == (if b.format.Some? then b.format.value else GfxFormat.Bitmap)
      && bm.spec.transparency == (if b.transparency.Some? then b.transparency.value else Color(RGB(0xFF, 0, 0xFF)))
  {
  }
}
