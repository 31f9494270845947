/**
 * The compile-time `grit!` option parser (`impl Parse for Grit`): a string
 * literal path, then optionally a comma and `key = value` entries, each
 * followed by an optional comma; the resulting builder is built at once.
 * The Rust lexer is replaced by a sequence of abstract tokens, and a
 * diagnostic's location by the index of the token it points at (`|toks|`
 * standing for the end of the input).
 */
module Macro {
  import opened Wrappers
  import opened GritCore
  import opened Builder
  import opened Native

  /**
   * The tokens the parser inspects. An integer literal is its digits and
   * whether a `-` stands before them: `syn` reads that sign as part of the
   * literal, so `-0` differs from `0`.
   */
  datatype Token = Str(text: string) | Ident(name: string) | Int(negative: bool, digits: nat) | Comma | Eq
  {
    /** The value of an integer literal, sign included. */
    function Signed(): int
      requires Int?
    {
      if negative then -(digits as int) else digits
    }
  }

  datatype DiagnosticKind =
    | ExpectedStringLiteral
    | ExpectedCommaAfterInput
    | ExpectedIdentifier
    | ExpectedEq
    | ExpectedIntLiteral
    | IntOutOfRange
    | InvalidDigit
    | ExpectedIdentOrLiteral
    | UnknownTransparency
    | UnknownBitDepth
    | UnknownFormat
    | UnknownCompression
    | UnknownAttribute
    | FailedToLoad(path: string, cause: Error)

  /** A compile error and the token it is reported at. */
  datatype Diagnostic = Diagnostic(pos: nat, kind: DiagnosticKind)

  /** What the macro invocation turns into: a bitmap, a compile error, or the `todo!()` panic. */
  datatype Outcome = Expanded(bitmap: Bitmap) | CompileError(diag: Diagnostic) | Todo

  /** The option list alone, before `build`. */
  datatype Parsed = Parsed(builder: BitmapBuilder) | Failed(diag: Diagnostic) | Todo

  /** One value: the setter call it makes, a located error, or `todo!()`. */
  datatype ValueResult = Value(setting: Setting) | ValueError(diag: Diagnostic) | Todo

  /** One entry: the builder and the position after it, a located error, or `todo!()`. */
  datatype Step = Next(builder: BitmapBuilder, pos: nat) | Stop(diag: Diagnostic) | Todo

  /** The key that selects each builder field. */
  function KeyName(f: Field): string {
    match f
    case FormatField => "format"
    case TileWidthField => "tile_width"
    case TileHeightField => "tile_height"
    case MetaWidthField => "meta_width"
    case MetaHeightField => "meta_height"
    case BitDepthField => "bit_depth"
    case TransparencyField => "transparency"
    case CompressionField => "compression"
    case AreaLeftField => "area_left"
    case AreaRightField => "area_right"
    case AreaWidthField => "area_width"
    case AreaTopField => "area_top"
    case AreaBottomField => "area_bottom"
    case AreaHeightField => "area_height"
  }

  const Keys: set<string> := {
    "format", "tile_width", "tile_height", "meta_width", "meta_height", "bit_depth", "transparency",
    "compression", "area_left", "area_right", "area_width", "area_top", "area_bottom", "area_height"}

  /**
   * An integer literal parsed as a `u8`: a literal with a sign, even `-0`,
   * has an invalid digit for the unsigned parse, and one beyond 255 is out of
   * range; both are errors at the literal.
   */
  function ParseU8(toks: seq<Token>, j: nat): (r: Result<U8, Diagnostic>)
    ensures r.Ok? <==> j < |toks| && toks[j].Int? && !toks[j].negative && toks[j].digits < 0x100
    ensures r.Ok? ==> r.value == toks[j].digits
    ensures r.Err? ==> r.error.pos == j
  {
    if j < |toks| && toks[j].Int? then
      if toks[j].negative then Err(Diagnostic(j, InvalidDigit))
      else if toks[j].digits < 0x100 then Ok(toks[j].digits)
      else Err(Diagnostic(j, IntOutOfRange))
    else Err(Diagnostic(j, ExpectedIntLiteral))
  }

  /** An integer literal parsed as an `i32`: out of range is an error at the literal. */
  function ParseI32(toks: seq<Token>, j: nat): (r: Result<I32, Diagnostic>)
    ensures r.Ok? <==> j < |toks| && toks[j].Int? && InI32(toks[j].Signed())
    ensures r.Ok? ==> r.value == toks[j].Signed()
    ensures r.Err? ==> r.error.pos == j
  {
    if j < |toks| && toks[j].Int? then
      if InI32(toks[j].Signed()) then Ok(toks[j].Signed()) else Err(Diagnostic(j, IntOutOfRange))
    else Err(Diagnostic(j, ExpectedIntLiteral))
  }

  /** An identifier, or "expected identifier" at `j`. */
  function ParseIdent(toks: seq<Token>, j: nat): Result<string, Diagnostic> {
    if j < |toks| && toks[j].Ident? then Ok(toks[j].name) else Err(Diagnostic(j, ExpectedIdentifier))
  }

  predicate PeekIdent(toks: seq<Token>, j: nat) {
    j < |toks| && toks[j].Ident?
  }

  predicate PeekInt(toks: seq<Token>, j: nat) {
    j < |toks| && toks[j].Int?
  }

  /** The field a key names, if it is one of the fourteen keys. */
  function KeyOf(name: string): (r: Option<Field>)
    ensures r.Some? <==> name in Keys
    ensures r.Some? ==> KeyName(r.value) == name
  {
    match name
    case "transparency" => Some(TransparencyField)
    case "bit_depth" => Some(BitDepthField)
    case "format" => Some(FormatField)
    case "tile_width" => Some(TileWidthField)
    case "tile_height" => Some(TileHeightField)
    case "meta_width" => Some(MetaWidthField)
    case "meta_height" => Some(MetaHeightField)
    case "area_left" => Some(AreaLeftField)
    case "area_right" => Some(AreaRightField)
    case "area_width" => Some(AreaWidthField)
    case "area_top" => Some(AreaTopField)
    case "area_bottom" => Some(AreaBottomField)
    case "area_height" => Some(AreaHeightField)
    case "compression" => Some(CompressionField)
    case _ => None
  }

  /** Every key is recognised as the field it names. */
  lemma KeyOfKeyName(f: Field)
    ensures KeyOf(KeyName(f)) == Some(f)
  {
  }

  /** The value token at `j` read as field `f` demands. */
  function ValueOf(f: Field, toks: seq<Token>, j: nat): (r: ValueResult)
    ensures r.Value? ==> j < |toks| && FieldOf(r.setting) == f
    ensures r.ValueError? ==> r.diag.pos == j
    ensures r.Todo? <==> f == TransparencyField && PeekInt(toks, j)
  {
    match f
    case TransparencyField =>
      if PeekIdent(toks, j) then
        if toks[j].name == "Disabled" then Value(SetTransparency(Disabled))
        else ValueError(Diagnostic(j, UnknownTransparency))
      else if PeekInt(toks, j) then ValueResult.Todo
      else ValueError(Diagnostic(j, ExpectedIdentOrLiteral))
    case BitDepthField =>
      if PeekIdent(toks, j) then
        (match toks[j].name
         case "A3I5" => Value(SetBitDepthOverride(A3I5))
         case "A5I3" => Value(SetBitDepthOverride(A5I3))
         case "FourByFour" => Value(SetBitDepthOverride(FourByFour))
         case "4x4" => Value(SetBitDepthOverride(FourByFour))
         case _ => ValueError(Diagnostic(j, UnknownBitDepth)))
      else if PeekInt(toks, j) then
        (match ParseU8(toks, j)
         case Ok(n) => Value(SetBitDepthOverride(Custom(n)))
         case Err(e) => ValueError(e))
      else ValueError(Diagnostic(j, ExpectedIdentOrLiteral))
    case FormatField =>
      (match ParseIdent(toks, j)
       case Err(e) => ValueError(e)
       case Ok("Bitmap") => Value(SetFormat(GfxFormat.Bitmap))
       case Ok("Tile") => Value(SetFormat(Tile))
       case Ok(_) => ValueError(Diagnostic(j, UnknownFormat)))
    case TileWidthField =>
      (match ParseU8(toks, j) case Ok(v) => Value(SetTileWidth(v)) case Err(e) => ValueError(e))
    case TileHeightField =>
      (match ParseU8(toks, j) case Ok(v) => Value(SetTileHeight(v)) case Err(e) => ValueError(e))
    case MetaWidthField =>
      (match ParseU8(toks, j) case Ok(v) => Value(SetMetaWidth(v)) case Err(e) => ValueError(e))
    case MetaHeightField =>
      (match ParseU8(toks, j) case Ok(v) => Value(SetMetaHeight(v)) case Err(e) => ValueError(e))
    case AreaLeftField =>
      (match ParseI32(toks, j) case Ok(v) => Value(SetAreaLeft(v)) case Err(e) => ValueError(e))
    case AreaRightField =>
      (match ParseI32(toks, j) case Ok(v) => Value(SetAreaRight(v)) case Err(e) => ValueError(e))
    case AreaWidthField =>
      (match ParseI32(toks, j) case Ok(v) => Value(SetAreaWidth(v)) case Err(e) => ValueError(e))
    case AreaTopField =>
      (match ParseI32(toks, j) case Ok(v) => Value(SetAreaTop(v)) case Err(e) => ValueError(e))
    case AreaBottomField =>
      (match ParseI32(toks, j) case Ok(v) => Value(SetAreaBottom(v)) case Err(e) => ValueError(e))
    case AreaHeightField =>
      (match ParseI32(toks, j) case Ok(v) => Value(SetAreaHeight(v)) case Err(e) => ValueError(e))
    case CompressionField =>
      (match ParseIdent(toks, j)
       case Err(e) => ValueError(e)
       case Ok("Off") => Value(SetCompression(Off))
       case Ok("LZ77") => Value(SetCompression(LZ77))
       case Ok("Huffman") => Value(SetCompression(Huffman))
       case Ok("RLE") => Value(SetCompression(RLE))
       case Ok("OffHeader") => Value(SetCompression(OffHeader))
       case Ok(_) => ValueError(Diagnostic(j, UnknownCompression)))
  }

  /**
   * The value of the entry whose key is at `i` (the `=` at `i + 1` is already
   * checked): an unknown key is reported at the key, otherwise the one token
   * at `i + 2` is read as the key demands.
   */
  function ParseValue(toks: seq<Token>, i: nat): (r: ValueResult)
    requires i + 1 < |toks| && toks[i].Ident? && toks[i + 1] == Eq
    ensures r.Value? ==> i + 2 < |toks| && KeyName(FieldOf(r.setting)) == toks[i].name
    ensures r.ValueError? ==> r.diag.pos == i || r.diag.pos == i + 2
    ensures r == ValueError(Diagnostic(i, UnknownAttribute)) <==> toks[i].name !in Keys
    ensures r.Todo? <==> toks[i].name == "transparency" && PeekInt(toks, i + 2)
  {
    match KeyOf(toks[i].name)
    case None => ValueError(Diagnostic(i, UnknownAttribute))
    case Some(f) => ValueOf(f, toks, i + 2)
  }

  /** One `key = value` entry at `i`, with the comma after it consumed when present. */
  function ParseEntry(toks: seq<Token>, i: nat, b: BitmapBuilder): (r: Step)
    requires i < |toks|
    ensures r.Next? ==> i < r.pos <= |toks| && r.builder.input == b.input
  {
    if !toks[i].Ident? then Stop(Diagnostic(i, ExpectedIdentifier))
    else if i + 1 == |toks| || toks[i + 1] != Eq then Stop(Diagnostic(i + 1, ExpectedEq))
    else match ParseValue(toks, i)
      case ValueError(e) => Stop(e)
      case Todo => Step.Todo
      case Value(s) =>
        var k := i + 3;
        Next(b.Apply(s), if k < |toks| && toks[k] == Comma then k + 1 else k)
  }

  /** The entries from `i` to the end, applied to `b` in order. */
  function ParseEntries(toks: seq<Token>, i: nat, b: BitmapBuilder): (r: Parsed)
    requires i <= |toks|
    ensures r.Parsed? ==> r.builder.input == b.input
    decreases |toks| - i
  {
    if i == |toks| then Parsed(b)
    else match ParseEntry(toks, i, b)
      case Next(b', k) => ParseEntries(toks, k, b')
      case Stop(e) => Failed(e)
      case Todo => Parsed.Todo
  }

  /** The builder a bare path literal is converted with: transparency off, 16 bits per pixel, a bitmap. */
  function BarePath(path: string): (b: BitmapBuilder)
    ensures b.input == path
    ensures b.transparency == Some(Disabled) && b.bitDepthOverride == Some(Custom(16)) && b.format == Some(GfxFormat.Bitmap)
  {
    BitmapBuilder.New(path).Apply(SetTransparency(Disabled)).Apply(SetBitDepthOverride(Custom(16))).Apply(SetFormat(GfxFormat.Bitmap))
  }

  /** The whole option list: a path literal, then nothing, or a comma and entries. */
  function ParseOptions(toks: seq<Token>): (r: Parsed)
    ensures r.Parsed? ==> |toks| > 0 && toks[0].Str? && r.builder.input == toks[0].text
  {
    if |toks| == 0 || !toks[0].Str? then Failed(Diagnostic(0, ExpectedStringLiteral))
    else if |toks| == 1 then Parsed(BarePath(toks[0].text))
    else if toks[1] != Comma then Failed(Diagnostic(1, ExpectedCommaAfterInput))
    else ParseEntries(toks, 2, BitmapBuilder.New(toks[0].text))
  }

  /** The macro's result: a build failure is reported at the path literal. */
  function Expand(toks: seq<Token>, env: Engine): Outcome {
    match ParseOptions(toks)
    case Failed(e) => CompileError(e)
    case Todo => Outcome.Todo
    case Parsed(b) =>
      match BuildSpec(b, env)
      case Ok(bm) => Expanded(bm)
      case Err(e) => CompileError(Diagnostic(0, FailedToLoad(toks[0].text, e)))
  }

  /** `Grit::parse`: a cursor over the tokens, the builder reassigned entry by entry, early exits on errors. */
  method Parse(toks: seq<Token>, env: Engine) returns (r: Outcome)
    ensures r == Expand(toks, env)
  {
    if |toks| == 0 || !toks[0].Str? {
      return CompileError(Diagnostic(0, ExpectedStringLiteral));
    }
    var path := toks[0].text;
    var builder: BitmapBuilder;
    if |toks| == 1 {
      builder := BarePath(path);
    } else {
      if toks[1] != Comma {
        return CompileError(Diagnostic(1, ExpectedCommaAfterInput));
      }
      builder := BitmapBuilder.New(path);
      var pos := 2;
      while pos < |toks|
        invariant 2 <= pos <= |toks|
        invariant builder.input == path
        invariant ParseEntries(toks, pos, builder) == ParseOptions(toks)
        decreases |toks| - pos
      {
        if !toks[pos].Ident? {
          return CompileError(Diagnostic(pos, ExpectedIdentifier));
        }
        if pos + 1 == |toks| || toks[pos + 1] != Eq {
          return CompileError(Diagnostic(pos + 1, ExpectedEq));
        }
        match ParseValue(toks, pos) {
          case ValueError(e) =>
            return CompileError(e);
          case Todo =>
            return Outcome.Todo;
          case Value(s) =>
            builder := builder.Apply(s);
        }
        pos := pos + 3;
        if pos < |toks| && toks[pos] == Comma {
          pos := pos + 1;
        }
      }
    }
    var built := Build(builder, env);
    match built {
      case Ok(bm) => r := Expanded(bm);
      case Err(e) => r := CompileError(Diagnostic(0, FailedToLoad(path, e)));
    }
  }

  // ---- Header: the path literal and what may follow it ----

  /**
   * The first token must be a string literal and the second, if any, a comma;
   * a bare path and a path with a lone comma both parse, with different defaults.
   */
  lemma HeaderRules(toks: seq<Token>, path: string)
    ensures |toks| == 0 || !toks[0].Str? ==> ParseOptions(toks) == Failed(Diagnostic(0, ExpectedStringLiteral))
    ensures |toks| >= 2 && toks[0].Str? && toks[1] != Comma ==> ParseOptions(toks) == Failed(Diagnostic(1, ExpectedCommaAfterInput))
    ensures ParseOptions([Str(path)]) == Parsed(BarePath(path))
    ensures ParseOptions([Str(path), Comma]) == Parsed(BitmapBuilder.New(path))
  {
  }

  /**
   * Besides its three settings a bare path sets nothing, and so it differs
   * from the builder a path followed by a lone comma starts from.
   */
  lemma BarePathSettings(path: string)
    ensures forall f :: f !in {TransparencyField, BitDepthField, FormatField} ==> BarePath(path).Stored(f) == None
    ensures BarePath(path) != BitmapBuilder.New(path)
  {
    var b := BitmapBuilder.New(path);
    assert forall f :: b.Stored(f) == None;
    assert BarePath(path).Stored(TransparencyField) != b.Stored(TransparencyField);
  }

  /** The bare form's depth of 16 always passes the power-of-two check, so it never fails on the bit depth. */
  lemma BarePathNeverBadDepth(path: string, env: Engine)
    ensures forall n: U8 :: Expand([Str(path)], env) != CompileError(Diagnostic(0, FailedToLoad(path, BadBitDepth(n))))
  {
    HeaderRules([Str(path)], path);
    ErrorOrder(BarePath(path), env);
  }

  // ---- One entry ----

  /**
   * An entry must start with an identifier and continue with `=`; a comma after
   * its value is consumed when present and not required, so the next entry may
   * follow directly.
   */
  lemma EntryShape(toks: seq<Token>, i: nat, b: BitmapBuilder)
    requires i < |toks|
    ensures !toks[i].Ident? ==> ParseEntry(toks, i, b) == Stop(Diagnostic(i, ExpectedIdentifier))
    ensures toks[i].Ident? && (i + 1 == |toks| || toks[i + 1] != Eq) ==>
      ParseEntry(toks, i, b) == Stop(Diagnostic(i + 1, ExpectedEq))
    ensures ParseEntry(toks, i, b).Next? ==>
      var s := ParseValue(toks, i).setting;
      && ParseValue(toks, i).Value?
      && ParseEntry(toks, i, b).builder == b.Apply(s)
      && ParseEntry(toks, i, b).pos == (if i + 3 < |toks| && toks[i + 3] == Comma then i + 4 else i + 3)
  {
  }

  /** A key outside the vocabulary is reported at the key, once its `=` has been read. */
  lemma UnknownKeyRejected(toks: seq<Token>, i: nat, b: BitmapBuilder)
    requires i + 1 < |toks| && toks[i].Ident? && toks[i + 1] == Eq
    ensures ParseEntry(toks, i, b) == Stop(Diagnostic(i, UnknownAttribute)) <==> toks[i].name !in Keys
  {
  }

  /**
   * The identifiers each enumerated key accepts and the setting each one
   * gives (`4x4` is a second spelling of `FourByFour`); any other identifier
   * is an error at that identifier, and an integer-valued key rejects
   * identifiers.
   */
  lemma ValueVocabulary(toks: seq<Token>, i: nat)
    requires i + 2 < |toks| && toks[i].Ident? && toks[i + 1] == Eq && toks[i + 2].Ident?
    ensures var key, v, r := toks[i].name, toks[i + 2].name, ParseValue(toks, i);
      && (key == "format" ==>
            (r.Value? <==> v in {"Bitmap", "Tile"}) &&
            (v == "Bitmap" ==> r == Value(SetFormat(GfxFormat.Bitmap))) &&
            (v == "Tile" ==> r == Value(SetFormat(Tile))) &&
            (r == ValueError(Diagnostic(i + 2, UnknownFormat)) <==> v !in {"Bitmap", "Tile"}))
      && (key == "compression" ==>
            (r.Value? <==> v in {"Off", "LZ77", "Huffman", "RLE", "OffHeader"}) &&
            (v == "Off" ==> r == Value(SetCompression(Off))) &&
            (v == "LZ77" ==> r == Value(SetCompression(LZ77))) &&
            (v == "Huffman" ==> r == Value(SetCompression(Huffman))) &&
            (v == "RLE" ==> r == Value(SetCompression(RLE))) &&
            (v == "OffHeader" ==> r == Value(SetCompression(OffHeader))) &&
            (r == ValueError(Diagnostic(i + 2, UnknownCompression)) <==> v !in {"Off", "LZ77", "Huffman", "RLE", "OffHeader"}))
      && (key == "bit_depth" ==>
            (r.Value? <==> v in {"A3I5", "A5I3", "FourByFour", "4x4"}) &&
            (v == "A3I5" ==> r == Value(SetBitDepthOverride(A3I5))) &&
            (v == "A5I3" ==> r == Value(SetBitDepthOverride(A5I3))) &&
            (v in {"FourByFour", "4x4"} ==> r == Value(SetBitDepthOverride(FourByFour))) &&
            (r == ValueError(Diagnostic(i + 2, UnknownBitDepth)) <==> v !in {"A3I5", "A5I3", "FourByFour", "4x4"}))
      && (key == "transparency" ==>
            (r == Value(SetTransparency(Disabled)) <==> v == "Disabled") &&
            (r == ValueError(Diagnostic(i + 2, UnknownTransparency)) <==> v != "Disabled"))
      && (key in Keys - {"format", "compression", "bit_depth", "transparency"} ==>
            r == ValueError(Diagnostic(i + 2, ExpectedIntLiteral)))
  {
  }

  /**
   * An integer literal: a `u8` key accepts 0 to 255 written without a sign
   * (a sign, even on `-0`, is an invalid digit), an area key any `i32` with or
   * without a sign, and each sets its field to that number; otherwise the
   * error is "out of range" at the literal; `transparency`
   * reaches the unimplemented branch and the enumerated keys want an identifier.
   */
  lemma IntValueRange(toks: seq<Token>, i: nat)
    requires i + 2 < |toks| && toks[i].Ident? && toks[i + 1] == Eq && toks[i + 2].Int?
    ensures var key, t, r := toks[i].name, toks[i + 2], ParseValue(toks, i);
      && (key in {"tile_width", "tile_height", "meta_width", "meta_height", "bit_depth"} ==>
            (r.Value? <==> !t.negative && t.digits < 0x100) &&
            (r == ValueError(Diagnostic(i + 2, InvalidDigit)) <==> t.negative) &&
            (r == ValueError(Diagnostic(i + 2, IntOutOfRange)) <==> !t.negative && 0x100 <= t.digits))
      && (key in {"area_left", "area_right", "area_width", "area_top", "area_bottom", "area_height"} ==>
            (r.Value? <==> InI32(t.Signed())) && (r == ValueError(Diagnostic(i + 2, IntOutOfRange)) <==> !InI32(t.Signed())))
      && (!t.negative && t.digits < 0x100 ==>
            && (key == "tile_width" ==> r == Value(SetTileWidth(t.digits)))
            && (key == "tile_height" ==> r == Value(SetTileHeight(t.digits)))
            && (key == "meta_width" ==> r == Value(SetMetaWidth(t.digits)))
            && (key == "meta_height" ==> r == Value(SetMetaHeight(t.digits)))
            && (key == "bit_depth" ==> r == Value(SetBitDepthOverride(Custom(t.digits)))))
      && (InI32(t.Signed()) ==>
            && (key == "area_left" ==> r == Value(SetAreaLeft(t.Signed())))
            && (key == "area_right" ==> r == Value(SetAreaRight(t.Signed())))
            && (key == "area_width" ==> r == Value(SetAreaWidth(t.Signed())))
            && (key == "area_top" ==> r == Value(SetAreaTop(t.Signed())))
            && (key == "area_bottom" ==> r == Value(SetAreaBottom(t.Signed())))
            && (key == "area_height" ==> r == Value(SetAreaHeight(t.Signed()))))
      && (key == "transparency" <==> r.Todo?)
      && (key in {"format", "compression"} ==> r == ValueError(Diagnostic(i + 2, ExpectedIdentifier)))
  {
  }

  // ---- Entries rendered back to tokens ----

  /** A setting the token syntax can spell: every one but a colour key. */
  predicate Expressible(s: Setting) {
    s.SetTransparency? ==> s.transparency == Disabled
  }

  /** The literal that spells `v`: its digits, with a `-` when it is negative. */
  function SignedInt(v: int): (t: Token)
    ensures t.Int? && t.Signed() == v
  {
    if v < 0 then Int(true, -v) else Int(false, v)
  }

  /** The value token that spells a setting's argument. */
  function RenderValue(s: Setting): Token
    requires Expressible(s)
  {
    match s
    case SetFormat(f) => if f.Tile? then Ident("Tile") else Ident("Bitmap")
    case SetTileWidth(v) => Int(false, v)
    case SetTileHeight(v) => Int(false, v)
    case SetMetaWidth(v) => Int(false, v)
    case SetMetaHeight(v) => Int(false, v)
    case SetBitDepthOverride(A3I5) => Ident("A3I5")
    case SetBitDepthOverride(A5I3) => Ident("A5I3")
    case SetBitDepthOverride(FourByFour) => Ident("FourByFour")
    case SetBitDepthOverride(Custom(n)) => Int(false, n)
    case SetTransparency(_) => Ident("Disabled")
    case SetCompression(Off) => Ident("Off")
    case SetCompression(LZ77) => Ident("LZ77")
    case SetCompression(Huffman) => Ident("Huffman")
    case SetCompression(RLE) => Ident("RLE")
    case SetCompression(OffHeader) => Ident("OffHeader")
    case SetAreaLeft(v) => SignedInt(v)
    case SetAreaRight(v) => SignedInt(v)
    case SetAreaWidth(v) => SignedInt(v)
    case SetAreaTop(v) => SignedInt(v)
    case SetAreaBottom(v) => SignedInt(v)
    case SetAreaHeight(v) => SignedInt(v)
  }

  /** One `key = value` entry, with or without its comma. */
  datatype Entry = Entry(setting: Setting, comma: bool)

  predicate AllExpressible(es: seq<Entry>)
    decreases |es|
  {
    es == [] || (Expressible(es[0].setting) && AllExpressible(es[1..]))
  }

  function RenderEntry(e: Entry): seq<Token>
    requires Expressible(e.setting)
  {
    [Ident(KeyName(FieldOf(e.setting))), Eq, RenderValue(e.setting)] + (if e.comma then [Comma] else [])
  }

  function RenderAll(es: seq<Entry>): seq<Token>
    requires AllExpressible(es)
  {
    if es == [] then [] else RenderEntry(es[0]) + RenderAll(es[1..])
  }

  function SettingsOf(es: seq<Entry>): seq<Setting>
  {
    if es == [] then [] else [es[0].setting] + SettingsOf(es[1..])
  }

  /** The value token a setting renders to reads back, under that setting's key, as that setting. */
  lemma ValueOfRendered(toks: seq<Token>, j: nat, s: Setting)
    requires Expressible(s) && j < |toks| && toks[j] == RenderValue(s)
    ensures ValueOf(FieldOf(s), toks, j) == Value(s)
  {
    match s
    case SetFormat(_) =>
    case SetTileWidth(_) =>
    case SetTileHeight(_) =>
    case SetMetaWidth(_) =>
    case SetMetaHeight(_) =>
    case SetBitDepthOverride(_) =>
    case SetTransparency(_) =>
    case SetCompression(_) =>
    case SetAreaLeft(_) =>
    case SetAreaRight(_) =>
    case SetAreaWidth(_) =>
    case SetAreaTop(_) =>
    case SetAreaBottom(_) =>
    case SetAreaHeight(_) =>
  }

  /** The number of tokens an entry renders to. */
  function EntryLength(e: Entry): nat {
    if e.comma then 4 else 3
  }

  function TotalLength(es: seq<Entry>): nat {
    if es == [] then 0 else EntryLength(es[0]) + TotalLength(es[1..])
  }

  /**
   * At position `i` of `toks` stands a key naming `e`'s field, `=`, a value
   * that reads as `e`'s setting and, when `e` has one, a comma; what follows
   * is the end of the input or another key.
   */
  predicate EntryAt(toks: seq<Token>, i: nat, e: Entry) {
    && i + EntryLength(e) <= |toks|
    && toks[i].Ident? && KeyOf(toks[i].name) == Some(FieldOf(e.setting))
    && toks[i + 1] == Eq
    && ValueOf(FieldOf(e.setting), toks, i + 2) == Value(e.setting)
    && (e.comma ==> toks[i + 3] == Comma)
    && (i + EntryLength(e) == |toks| || toks[i + EntryLength(e)].Ident?)
  }

  /** The entries `es` stand one after another from position `i`. */
  predicate EntriesAt(toks: seq<Token>, i: nat, es: seq<Entry>)
    decreases |es|
  {
    es == [] || (EntryAt(toks, i, es[0]) && EntriesAt(toks, i + EntryLength(es[0]), es[1..]))
  }

  /** Such an entry moves the cursor past itself, comma included, and applies its setting. */
  lemma ParseEntryAt(toks: seq<Token>, i: nat, e: Entry, b: BitmapBuilder)
    requires EntryAt(toks, i, e)
    ensures ParseEntries(toks, i, b) == ParseEntries(toks, i + EntryLength(e), b.Apply(e.setting))
  {
    assert ParseValue(toks, i) == Value(e.setting);
    assert ParseEntry(toks, i, b) == Next(b.Apply(e.setting), i + EntryLength(e));
  }

  /** Peeling the first entry off a run: its length and its setter call come first. */
  lemma EntriesCons(b: BitmapBuilder, es: seq<Entry>)
    requires es != []
    ensures TotalLength(es) == EntryLength(es[0]) + TotalLength(es[1..])
    ensures ApplyAll(b, SettingsOf(es)) == ApplyAll(b.Apply(es[0].setting), SettingsOf(es[1..]))
  {
    var ss := SettingsOf(es);
    assert ss[0] == es[0].setting && ss[1..] == SettingsOf(es[1..]);
  }

  /** Spelled-out entries are parsed as the chain of their setter calls. */
  lemma {:induction false} ParseEntriesAt(toks: seq<Token>, i: nat, es: seq<Entry>, b: BitmapBuilder)
      returns (j: nat, c: BitmapBuilder)
    requires EntriesAt(toks, i, es) && i + TotalLength(es) <= |toks|
    ensures j == i + TotalLength(es) && c == ApplyAll(b, SettingsOf(es))
    ensures ParseEntries(toks, i, b) == ParseEntries(toks, j, c)
    decreases |es|
  {
    if es == [] {
      j, c := i, b;
    } else {
      var e, rest := es[0], es[1..];
      var k, b' := i + EntryLength(e), b.Apply(e.setting);
      EntriesCons(b, es);
      ParseEntryAt(toks, i, e, b);
      j, c := ParseEntriesAt(toks, k, rest, b');
    }
  }

  lemma AllExpressibleTail(es: seq<Entry>)
    requires AllExpressible(es) && es != []
    ensures AllExpressible(es[1..])
  {
  }

  /** A rendered entry, followed by the end or another key, is spelled out where it sits. */
  lemma RenderedEntryAt(toks: seq<Token>, pre: seq<Token>, e: Entry, mid: seq<Token>)
    requires Expressible(e.setting)
    requires mid == [] || mid[0].Ident?
    requires toks == pre + RenderEntry(e) + mid
    ensures EntryAt(toks, |pre|, e)
  {
    var i := |pre|;
    var r := RenderEntry(e);
    assert |r| == EntryLength(e);
    assert toks[i] == r[0] && toks[i + 1] == r[1] && toks[i + 2] == r[2];
    KeyOfKeyName(FieldOf(e.setting));
    ValueOfRendered(toks, i + 2, e.setting);
    if e.comma {
      assert toks[i + 3] == r[3];
    }
    if mid != [] {
      assert toks[i + EntryLength(e)] == mid[0];
    }
  }

  /** A non-empty rendering starts with a key. */
  lemma RenderAllStartsWithKey(es: seq<Entry>)
    requires AllExpressible(es)
    ensures RenderAll(es) == [] || RenderAll(es)[0].Ident?
  {
    if es != [] {
      AllExpressibleTail(es);
      assert RenderAll(es) == RenderEntry(es[0]) + RenderAll(es[1..]);
    }
  }

  /** Rendering spells the entries out in place, wherever the rendered tokens sit. */
  lemma {:induction false} RenderedEntriesAt(toks: seq<Token>, pre: seq<Token>, es: seq<Entry>, tail: seq<Token>)
    requires AllExpressible(es)
    requires tail == [] || tail[0].Ident?
    requires toks == pre + RenderAll(es) + tail
    ensures EntriesAt(toks, |pre|, es)
    ensures TotalLength(es) == |RenderAll(es)|
    decreases |es|
  {
    if es != [] {
      var e, rest := es[0], es[1..];
      AllExpressibleTail(es);
      RenderAllStartsWithKey(rest);
      var mid := RenderAll(rest) + tail;
      var pre' := pre + RenderEntry(e);
      assert RenderAll(es) == RenderEntry(e) + RenderAll(rest);
      assert toks == pre + RenderEntry(e) + mid;
      assert toks == pre' + RenderAll(rest) + tail;
      RenderedEntryAt(toks, pre, e, mid);
      RenderedEntriesAt(toks, pre', rest, tail);
    }
  }

  /**
   * Round trip: a path, a comma and any rendered entries (with or without
   * their commas) parse to the builder the same setter chain produces.
   */
  lemma RoundTrip(path: string, es: seq<Entry>)
    requires AllExpressible(es)
    ensures ParseOptions([Str(path), Comma] + RenderAll(es)) == Parsed(ApplyAll(BitmapBuilder.New(path), SettingsOf(es)))
  {
    var toks := [Str(path), Comma] + RenderAll(es);
    AfterRenderedEntries(path, es, []);
    assert toks + [] == toks;
    var c := ApplyAll(BitmapBuilder.New(path), SettingsOf(es));
    assert 2 + |RenderAll(es)| == |toks|;
    assert ParseEntries(toks, |toks|, c) == Parsed(c);
  }

  /** A repeated key overwrites: every field holds the last entry that named it, the rest stay unset. */
  lemma RepeatedKeyLastWins(path: string, es: seq<Entry>, f: Field)
    requires AllExpressible(es)
    ensures var r := ParseOptions([Str(path), Comma] + RenderAll(es));
      && r.Parsed?
      && r.builder.input == path
      && r.builder.Stored(f) == LastFor(SettingsOf(es), f)
  {
    RoundTrip(path, es);
    ApplyAllStored(BitmapBuilder.New(path), SettingsOf(es), f);
  }

  /** Parsing a path, a comma and rendered entries leaves the cursor after them with their setter chain applied. */
  lemma {:induction false} AfterRenderedEntries(path: string, es: seq<Entry>, tail: seq<Token>)
    requires AllExpressible(es)
    requires tail == [] || tail[0].Ident?
    ensures var toks := [Str(path), Comma] + RenderAll(es) + tail;
      ParseOptions(toks) == ParseEntries(toks, 2 + |RenderAll(es)|, ApplyAll(BitmapBuilder.New(path), SettingsOf(es)))
  {
    var toks := [Str(path), Comma] + RenderAll(es) + tail;
    RenderedEntriesAt(toks, [Str(path), Comma], es, tail);
    assert toks[0] == Str(path) && toks[1] == Comma;
    assert ParseOptions(toks) == ParseEntries(toks, 2, BitmapBuilder.New(path));
    var j, c := ParseEntriesAt(toks, 2, es, BitmapBuilder.New(path));
  }

  /** An entry that fails ends the parse with its diagnostic, or with the panic. */
  lemma ParseEntriesStops(toks: seq<Token>, i: nat, b: BitmapBuilder)
    requires i < |toks| && !ParseEntry(toks, i, b).Next?
    ensures ParseEntry(toks, i, b).Stop? ==> ParseEntries(toks, i, b) == Failed(ParseEntry(toks, i, b).diag)
    ensures ParseEntry(toks, i, b).Todo? ==> ParseEntries(toks, i, b) == Parsed.Todo
  {
  }

  /** After any well-formed entries, an unknown key stops the parse at that key and nothing is built. */
  lemma UnknownKeyAfterEntries(path: string, es: seq<Entry>, key: string, rest: seq<Token>, env: Engine)
    requires AllExpressible(es) && key !in Keys
    ensures var toks := [Str(path), Comma] + RenderAll(es) + ([Ident(key), Eq] + rest);
      Expand(toks, env) == CompileError(Diagnostic(2 + |RenderAll(es)|, UnknownAttribute))
  {
    var tail := [Ident(key), Eq] + rest;
    var toks := [Str(path), Comma] + RenderAll(es) + tail;
    var b := ApplyAll(BitmapBuilder.New(path), SettingsOf(es));
    var k := 2 + |RenderAll(es)|;
    AfterRenderedEntries(path, es, tail);
    assert toks[k] == Ident(key) && toks[k + 1] == Eq;
    UnknownKeyRejected(toks, k, b);
    ParseEntriesStops(toks, k, b);
  }

  /** After any well-formed entries, `transparency = <integer>` panics instead of reporting an error. */
  lemma TransparencyLiteralPanics(path: string, es: seq<Entry>, negative: bool, n: nat, rest: seq<Token>, env: Engine)
    requires AllExpressible(es)
    ensures Expand([Str(path), Comma] + RenderAll(es) + ([Ident("transparency"), Eq, Int(negative, n)] + rest), env) == Outcome.Todo
  {
    var tail := [Ident("transparency"), Eq, Int(negative, n)] + rest;
    var toks := [Str(path), Comma] + RenderAll(es) + tail;
    var b := ApplyAll(BitmapBuilder.New(path), SettingsOf(es));
    var k := 2 + |RenderAll(es)|;
    AfterRenderedEntries(path, es, tail);
    assert toks[k] == Ident("transparency") && toks[k + 1] == Eq && toks[k + 2] == Int(negative, n);
    assert ParseValue(toks, k).Todo?;
    ParseEntriesStops(toks, k, b);
  }

  // ---- The build ----

  /**
   * `bit_depth = 17` is a valid `u8`, so the parser accepts it; `build` then
   * rejects it, and the error is reported at the path literal.
   */
  lemma RejectedDepthReportedAtPath(path: string, env: Engine)
    requires !HasNul(path) && env.load(path).Some?
    ensures Expand([Str(path), Comma, Ident("bit_depth"), Eq, Int(false, 17)], env) ==
            CompileError(Diagnostic(0, FailedToLoad(path, BadBitDepth(17))))
  {
    var es := [Entry(SetBitDepthOverride(Custom(17)), false)];
    assert es[1..] == [];
    assert RenderAll(es) == RenderEntry(es[0]) + RenderAll([]);
    assert [Str(path), Comma] + RenderAll(es) == [Str(path), Comma, Ident("bit_depth"), Eq, Int(false, 17)];
    RoundTrip(path, es);
    var b := BitmapBuilder.New(path).Apply(SetBitDepthOverride(Custom(17)));
    assert SettingsOf(es) == [SetBitDepthOverride(Custom(17))];
    assert ApplyAll(BitmapBuilder.New(path), SettingsOf(es)) == ApplyAll(b, []);
    ErrorOrder(b, env);
    assert BuildSpec(b, env) == Err(BadBitDepth(17));
  }

  /** Whatever `build` reports, the macro reports at the path literal, naming the path. */
  lemma BuildErrorsAtPath(toks: seq<Token>, env: Engine)
    requires ParseOptions(toks).Parsed?
    ensures BuildSpec(ParseOptions(toks).builder, env).Err? ==>
      Expand(toks, env).CompileError? && Expand(toks, env).diag.pos == 0 &&
      Expand(toks, env).diag.kind == FailedToLoad(toks[0].text, BuildSpec(ParseOptions(toks).builder, env).error)
    ensures BuildSpec(ParseOptions(toks).builder, env).Ok? <==> Expand(toks, env).Expanded?
  {
  }
}
