/**
 * `BitmapBuilder`: the input path and fourteen optional settings. Every
 * `with_*` setter consumes the builder and returns it with one field set,
 * so the builder is a value and the setters are record updates.
 */
module Builder {
  import opened Wrappers
  import opened GritCore

  /** One setter call, with its argument. */
  datatype Setting =
    | SetFormat(format: GfxFormat)
    | SetTileWidth(tileWidth: U8)
    | SetTileHeight(tileHeight: U8)
    | SetMetaWidth(metaWidth: U8)
    | SetMetaHeight(metaHeight: U8)
    | SetBitDepthOverride(bitDepth: BitDepth)
    | SetTransparency(transparency: Transparency)
    | SetCompression(compression: Compression)
    | SetAreaLeft(areaLeft: I32)
    | SetAreaRight(areaRight: I32)
    | SetAreaWidth(areaWidth: I32)
    | SetAreaTop(areaTop: I32)
    | SetAreaBottom(areaBottom: I32)
    | SetAreaHeight(areaHeight: I32)

  /** The optional fields of the builder, by name. */
  datatype Field =
    | FormatField | TileWidthField | TileHeightField | MetaWidthField | MetaHeightField
    | BitDepthField | TransparencyField | CompressionField
    | AreaLeftField | AreaRightField | AreaWidthField | AreaTopField | AreaBottomField | AreaHeightField

  /** The field a setter writes. */
  function FieldOf(s: Setting): Field {
    match s
    case SetFormat(_) => FormatField
    case SetTileWidth(_) => TileWidthField
    case SetTileHeight(_) => TileHeightField
    case SetMetaWidth(_) => MetaWidthField
    case SetMetaHeight(_) => MetaHeightField
    case SetBitDepthOverride(_) => BitDepthField
    case SetTransparency(_) => TransparencyField
    case SetCompression(_) => CompressionField
    case SetAreaLeft(_) => AreaLeftField
    case SetAreaRight(_) => AreaRightField
    case SetAreaWidth(_) => AreaWidthField
    case SetAreaTop(_) => AreaTopField
    case SetAreaBottom(_) => AreaBottomField
    case SetAreaHeight(_) => AreaHeightField
  }

  datatype BitmapBuilder = BitmapBuilder(
    input: string,
    format: Option<GfxFormat>,
    tileWidth: Option<U8>,
    tileHeight: Option<U8>,
    metaWidth: Option<U8>,
    metaHeight: Option<U8>,
    bitDepthOverride: Option<BitDepth>,
    transparency: Option<Transparency>,
    compression: Option<Compression>,
    areaLeft: Option<I32>,
    areaRight: Option<I32>,
    areaWidth: Option<I32>,
    areaTop: Option<I32>,
    areaBottom: Option<I32>,
    areaHeight: Option<I32>)
  {
    /** `BitmapBuilder::new`: the path and nothing else set. */
    static function New(input: string): (b: BitmapBuilder)
      ensures b.input == input
      ensures forall f :: b.Stored(f) == None
    {
      BitmapBuilder(input, None, None, None, None, None, None, None, None, None, None, None, None, None, None)
    }

    /** The setting the builder holds for field `f`, as the setter call that would have put it there. */
    function Stored(f: Field): Option<Setting> {
      match f
      case FormatField => if format.Some? then Some(SetFormat(format.value)) else None
      case TileWidthField => if tileWidth.Some? then Some(SetTileWidth(tileWidth.value)) else None
      case TileHeightField => if tileHeight.Some? then Some(SetTileHeight(tileHeight.value)) else None
      case MetaWidthField => if metaWidth.Some? then Some(SetMetaWidth(metaWidth.value)) else None
      case MetaHeightField => if metaHeight.Some? then Some(SetMetaHeight(metaHeight.value)) else None
      case BitDepthField => if bitDepthOverride.Some? then Some(SetBitDepthOverride(bitDepthOverride.value)) else None
      case TransparencyField => if transparency.Some? then Some(SetTransparency(transparency.value)) else None
      case CompressionField => if compression.Some? then Some(SetCompression(compression.value)) else None
      case AreaLeftField => if areaLeft.Some? then Some(SetAreaLeft(areaLeft.value)) else None
      case AreaRightField => if areaRight.Some? then Some(SetAreaRight(areaRight.value)) else None
      case AreaWidthField => if areaWidth.Some? then Some(SetAreaWidth(areaWidth.value)) else None
      case AreaTopField => if areaTop.Some? then Some(SetAreaTop(areaTop.value)) else None
      case AreaBottomField => if areaBottom.Some? then Some(SetAreaBottom(areaBottom.value)) else None
      case AreaHeightField => if areaHeight.Some? then Some(SetAreaHeight(areaHeight.value)) else None
    }

    /**
     * The `with_*` setter call `s`: its own field now holds `s`, the path and
     * every other field are untouched.
     */
    function Apply(s: Setting): (r: BitmapBuilder)
      ensures r.input == input
      ensures r.Stored(FieldOf(s)) == Some(s)
      ensures forall f :: f != FieldOf(s) ==> r.Stored(f) == Stored(f)
    {
      match s
      case SetFormat(v) => this.(format := Some(v))
      case SetTileWidth(v) => this.(tileWidth := Some(v))
      case SetTileHeight(v) => this.(tileHeight := Some(v))
      case SetMetaWidth(v) => this.(metaWidth := Some(v))
      case SetMetaHeight(v) => this.(metaHeight := Some(v))
      case SetBitDepthOverride(v) => this.(bitDepthOverride := Some(v))
      case SetTransparency(v) => this.(transparency := Some(v))
      case SetCompression(v) => this.(compression := Some(v))
      case SetAreaLeft(v) => this.(areaLeft := Some(v))
      case SetAreaRight(v) => this.(areaRight := Some(v))
      case SetAreaWidth(v) => this.(areaWidth := Some(v))
      case SetAreaTop(v) => this.(areaTop := Some(v))
      case SetAreaBottom(v) => this.(areaBottom := Some(v))
      case SetAreaHeight(v) => this.(areaHeight := Some(v))
    }
  }

  /** A builder is determined by its path and what it stores for each field. */
  lemma Extensionality(a: BitmapBuilder, b: BitmapBuilder)
    requires a.input == b.input
    requires forall f :: a.Stored(f) == b.Stored(f)
    ensures a == b
  {
    assert a.format == b.format by { assert a.Stored(FormatField) == b.Stored(FormatField); }
    assert a.tileWidth == b.tileWidth by { assert a.Stored(TileWidthField) == b.Stored(TileWidthField); }
    assert a.tileHeight == b.tileHeight by { assert a.Stored(TileHeightField) == b.Stored(TileHeightField); }
    assert a.metaWidth == b.metaWidth by { assert a.Stored(MetaWidthField) == b.Stored(MetaWidthField); }
    assert a.metaHeight == b.metaHeight by { assert a.Stored(MetaHeightField) == b.Stored(MetaHeightField); }
    assert a.bitDepthOverride == b.bitDepthOverride by { assert a.Stored(BitDepthField) == b.Stored(BitDepthField); }
    assert a.transparency == b.transparency by { assert a.Stored(TransparencyField) == b.Stored(TransparencyField); }
    assert a.compression == b.compression by { assert a.Stored(CompressionField) == b.Stored(CompressionField); }
    assert a.areaLeft == b.areaLeft by { assert a.Stored(AreaLeftField) == b.Stored(AreaLeftField); }
    assert a.areaRight == b.areaRight by { assert a.Stored(AreaRightField) == b.Stored(AreaRightField); }
    assert a.areaWidth == b.areaWidth by { assert a.Stored(AreaWidthField) == b.Stored(AreaWidthField); }
    assert a.areaTop == b.areaTop by { assert a.Stored(AreaTopField) == b.Stored(AreaTopField); }
    assert a.areaBottom == b.areaBottom by { assert a.Stored(AreaBottomField) == b.Stored(AreaBottomField); }
    assert a.areaHeight == b.areaHeight by { assert a.Stored(AreaHeightField) == b.Stored(AreaHeightField); }
  }

  /** Setters of different fields commute. */
  lemma SettersCommute(b: BitmapBuilder, s: Setting, t: Setting)
    requires FieldOf(s) != FieldOf(t)
    ensures b.Apply(s).Apply(t) == b.Apply(t).Apply(s)
  {
    Extensionality(b.Apply(s).Apply(t), b.Apply(t).Apply(s));
  }

  /** On the same field the later setter wins and the earlier one leaves no trace. */
  lemma LastWriteWins(b: BitmapBuilder, s: Setting, t: Setting)
    requires FieldOf(s) == FieldOf(t)
    ensures b.Apply(s).Apply(t) == b.Apply(t)
  {
    Extensionality(b.Apply(s).Apply(t), b.Apply(t));
  }

  /** A chain of setter calls, applied left to right. */
  function ApplyAll(b: BitmapBuilder, ss: seq<Setting>): BitmapBuilder
    decreases |ss|
  {
    if ss == [] then b else ApplyAll(b.Apply(ss[0]), ss[1..])
  }

  /** The last call in `ss` that writes field `f`, if any. */
  function LastFor(ss: seq<Setting>, f: Field): (r: Option<Setting>)
    ensures r.Some? ==> r.value in ss && FieldOf(r.value) == f
    ensures r.None? ==> forall s :: s in ss ==> FieldOf(s) != f
    decreases |ss|
  {
    if ss == [] then None
    else if FieldOf(ss[|ss| - 1]) == f then Some(ss[|ss| - 1])
    else LastFor(ss[..|ss| - 1], f)
  }

  lemma {:induction false} ApplyAllSnoc(b: BitmapBuilder, ss: seq<Setting>, s: Setting)
    ensures ApplyAll(b, ss + [s]) == ApplyAll(b, ss).Apply(s)
    decreases |ss|
  {
    if ss == [] {
      assert [s][1..] == [];
    } else {
      assert (ss + [s])[1..] == ss[1..] + [s];
      ApplyAllSnoc(b.Apply(ss[0]), ss[1..], s);
    }
  }

  /**
   * After a chain of setter calls every field holds the last call that wrote
   * it, or what it held before when no call did; the path never changes.
   */
  lemma {:induction false} ApplyAllStored(b: BitmapBuilder, ss: seq<Setting>, f: Field)
    ensures ApplyAll(b, ss).input == b.input
    ensures ApplyAll(b, ss).Stored(f) == if LastFor(ss, f).Some? then LastFor(ss, f) else b.Stored(f)
    decreases |ss|
  {
    if ss != [] {
      var init, last := ss[..|ss| - 1], ss[|ss| - 1];
      assert ss == init + [last];
      ApplyAllSnoc(b, init, last);
      ApplyAllStored(b, init, f);
    }
  }
}
