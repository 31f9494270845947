# grit / rgrit: the bitmap builder and the `grit!` option parser in Dafny

This project models the core of the `grit` and `rgrit` crates. Both are Rust
wrappers around the native GRIT image converter, which turns a picture into
the graphics, palette, map and meta buffers that Game Boy Advance and
Nintendo DS programs embed.

- **`GritCore`** (`core.dfy`) holds the shared vocabulary. It covers the
  option enums and the defaults `build` uses: format `Bitmap` and a magenta
  colour-key transparency. It also holds `BitmapSpec`,
  `StaticBitmap`, and the `Debug` view of `StaticBitmap`, which prints buffer
  lengths and never contents.
- **`Builder`** (`builder.dfy`) holds `BitmapBuilder`: a path plus fourteen
  optional settings. Every `with_*` setter consumes the builder and returns it
  with one field set, so the builder is a value and a setter call is a
  `Setting` applied to it.
- **`Resolve`** (`resolve.dfy`) holds the pure decisions `build` makes:
  - the bit-depth override, including the power-of-two guard on `Custom(n)`;
  - one axis of the area rectangle, with `-1` as the "not given" sentinel;
  - the expansion of a packed 5-5-5 colour key to 8-bit channels;
  - the compression code.
- **`Native`** (`native.dfy`) models `BitmapBuilder::build` as the source
  writes it.
  - The engine's parameter record is a class, `GritRec`. Its fields are
    written in place, stage by stage, in the source's order, with the
    source's early returns.
  - `RecordExt::read` is a loop that copies an output record.
  - The native engine is an `Engine` value. It exposes the engine's initial
    parameters and three functions: `cldib_load`, `grit_init_from_dib` and
    `grit_run`.
  - `HasNul` is the condition under which `CString::new` refuses the path;
    `ErrorOrder` states what it leads to.
  - `Build` is proved equal to the specification function `BuildSpec`. The
    lemmas then state what each stage hands to the engine and in which order
    the errors come.
- **`Macro`** (`macro.dfy`) models `impl Parse for Grit`, the option parser of
  the `grit!` procedural macro.
  - It works over a sequence of abstract tokens (`Str`, `Ident`, `Int`,
    `Comma`, `Eq`).
  - A diagnostic is located by the index of the token it points at; the index
    `|toks|` means the end of the input.
  - `Parse` is the cursor loop of the source, proved equal to the recursive
    specification `Expand`.
  - The lemmas cover the header rules, the vocabulary of each key, integer
    ranges and the error positions. They also prove a round trip: any
    sequence of spelled-out entries parses to the builder that the same
    setter chain produces, and a repeated key keeps its last value.

The rows below cite the `grit` crates. The `rgrit` crates contain the same
code with other type paths:
- `rgrit-rs/src/lib.rs` has it 163 lines earlier from `impl BitmapBuilder` on
  (`read` is at lines 65-80);
- `rgrit-proc/src/lib.rs` has it 2 lines later;
- `rgrit-core/src/lib.rs` holds the shared types.

The model follows the code in three places where a reader might expect otherwise:
- A comma after an entry is optional (grit-proc/src/lib.rs:173-175). Two
  entries with no comma between them parse, instead of being a syntax error.
- `transparency = <integer>` reaches `todo!()` (grit-proc/src/lib.rs:59-60).
  That is a panic, modelled as the outcome `Todo`, not a diagnostic.
- A failed `build` is reported at the path literal, with the build error
  attached (grit-proc/src/lib.rs:178-181).

`grit-proc/src/lib.rs` uses `Compression::…` (lines 155-160) but does not
import `Compression`, while `rgrit-proc/src/lib.rs:1` does. The model treats
both parsers as the one `rgrit-proc` spells out.

## Model

| member | source | states |
|---|---|---|
| GritCore.DebugShowsOnlyLengths | rgrit-core/src/lib.rs:68-78 | Two static bitmaps print alike exactly when their four buffer lengths and their specs agree; byte contents never show. |
| Resolve.ResolveBitDepth | grit-rs/src/lib.rs:356-375 | No override keeps the depth. Each preset selects its own texture mode. `Custom(n)` sets the bits per pixel iff n is in {1, 2, 4, 8, 16}, and is rejected with n otherwise. This is the guard `n & (n-1) == 0 && 0 < n < 32` with wrapping `n - 1`. |
| Resolve.Wrap32 | grit-rs/src/lib.rs:386-387 | The `i32` sum is the exact sum when that fits in `i32`, and is congruent to it mod 2^32 otherwise (release-mode wrapping). |
| Resolve.ResolveAxis | grit-rs/src/lib.rs:382-400 | No size keeps the engine's edge. Size -1 takes the bound when one is given and is not -1; otherwise the engine's edge stays. Any other size gives origin + size, exactly when that fits in `i32` and modulo 2^32 always. |
| Resolve.Expand5 | grit-rs/src/lib.rs:425-427 | `f * 255 / 31` is the truncated 8-bit value (c*31 <= 255f < (c+1)*31). It is 0 exactly for 0 and 255 exactly for 31. |
| Resolve.Expand5Monotone | grit-rs/src/lib.rs:425-427 | The 5-to-8-bit expansion is strictly increasing. |
| Resolve.Expand5Injective | grit-rs/src/lib.rs:425-427 | Distinct 5-bit fields expand to distinct channel values. |
| Resolve.ExpandGbr16 | grit-rs/src/lib.rs:425-434 | Red, green and blue are the 8-bit expansions of bits 0-4, 5-9 and 10-14 (c*31 <= 255f < (c+1)*31 for each), and the reserved byte is 0. |
| Resolve.Gbr16FieldsToChannels | grit-rs/src/lib.rs:419-435 | Bits 0-4, 5-9 and 10-14 of a packed key decide red, green and blue, each on its own: two keys agree on a channel iff they agree on its field. The reserved byte is 0. |
| Resolve.Gbr16IgnoresBit15 | grit-rs/src/lib.rs:422-427 | Setting bit 15 of a packed key does not change the colour handed to the engine. |
| Resolve.Gbr16Examples | grit-rs/src/lib.rs:419-435 | Packed red 0x001F, black and white 0x7FFF expand to (0,0,255), (0,0,0) and (255,255,255). |
| Resolve.CompressionCode | grit-rs/src/lib.rs:438-446 | Each compression setting maps to its own engine constant and to no other: `Off` iff `GRIT_CPRS_OFF`, `LZ77` iff `GRIT_CPRS_LZ77`, `Huffman` iff `GRIT_CPRS_HUFF`, `RLE` iff `GRIT_CPRS_RLE`, `OffHeader` iff `GRIT_CPRS_HEADER`. |
| Resolve.CompressionCodeInjective | grit-rs/src/lib.rs:439-445 | Distinct compression settings reach the engine as distinct codes. |
| Builder.BitmapBuilder.New | grit-rs/src/lib.rs:246-251 | A new builder holds the path and no setting at all. |
| Builder.BitmapBuilder.Apply | grit-rs/src/lib.rs:253-321 | A setter stores its argument in its own field and leaves the path and the other thirteen fields untouched. One `Apply` case stands for each of the fourteen `with_*` setters. |
| Builder.Extensionality | grit-rs/src/lib.rs:165-183 | A builder is determined by its path and what it stores in each field. |
| Builder.SettersCommute | grit-rs/src/lib.rs:253-321 | Setters of different fields commute. |
| Builder.LastWriteWins | grit-rs/src/lib.rs:253-321 | Of two setters on the same field, the later wins and the earlier leaves no trace. |
| Builder.ApplyAllSnoc | grit-rs/src/lib.rs:253-321 | Applying a chain and then one more setter is applying the extended chain. |
| Builder.ApplyAllStored | grit-rs/src/lib.rs:253-321 | After any chain of setters, each field holds the last setter that wrote it, or its earlier value if none did. The path never changes. |
| Native.Read | grit-rs/src/lib.rs:228-243 | A null record reads as empty. Otherwise the result has exactly `height * width` bytes, equal to the record's data in order. |
| Native.GritRec.constructor | grit-rs/src/lib.rs:324-328 | After allocation, clearing and initialisation, every parameter holds the engine's default. |
| Native.GritRec.InitFromDib | grit-rs/src/lib.rs:341-343 | The parameters become those the engine derives from the loaded image. |
| Native.GritRec.SetTiles | grit-rs/src/lib.rs:345-354 | The tile size becomes the explicit one, or 8 for `Tile` and 1 for `Bitmap`/unset. Every other field is unchanged. |
| Native.GritRec.SetDepth | grit-rs/src/lib.rs:356-370 | A preset writes only the texture mode, an accepted custom depth writes only the bits per pixel, and no override writes nothing. |
| Native.GritRec.SetArea | grit-rs/src/lib.rs:377-400 | Left and top default to 0. Right and bottom follow `ResolveAxis` from the new left and top. Nothing else changes. |
| Native.GritRec.SetMeta | grit-rs/src/lib.rs:402-403 | Each meta dimension becomes the explicit one or 1. Nothing else changes. |
| Native.GritRec.SetTransparency | grit-rs/src/lib.rs:405-436 | `Disabled` sets only the graphics mode. An RGB key sets alpha on, stored as (b, g, r, 0). A packed key stores its expansion. |
| Native.GritRec.SetCompression | grit-rs/src/lib.rs:438-450 | A setting writes one code to all three streams. No setting leaves them as they were. |
| Native.Build | grit-rs/src/lib.rs:323-488 | The method, with its in-place writes and early returns, returns exactly `BuildSpec`, the stage-by-stage specification. |
| Native.ResolveParams | grit-rs/src/lib.rs:345-450 | Resolving the parameters after the load fails iff the override is `Custom(n)` with n outside {1, 2, 4, 8, 16}, and then the error is `BadBitDepth(n)`. |
| Native.TileDefaults | grit-rs/src/lib.rs:345-354 | The tile size reaching the engine is the explicit one, else 8 for `Tile` and 1 otherwise, whatever the other settings. |
| Native.BitDepthOutcome | grit-rs/src/lib.rs:356-375 | The texture mode and bits per pixel that reach the engine, for every kind of override and for none. |
| Native.AreaHorizontal | grit-rs/src/lib.rs:377-390 | Left defaults to 0. A width of -1 with a real right bound gives that bound. A width that fits gives left + width. Otherwise the engine's right edge stays, so a right bound alone does nothing. |
| Native.AreaVertical | grit-rs/src/lib.rs:377-400 | The same rules for top, height and bottom. |
| Native.MetaDefaults | grit-rs/src/lib.rs:402-403 | The meta size reaching the engine is the explicit one or 1. |
| Native.TransparencyOutcome | grit-rs/src/lib.rs:405-436 | No setting keys magenta. `Disabled` switches only the graphics mode. A colour key turns alpha on with the RGB or expanded packed colour. |
| Native.CompressionOutcome | grit-rs/src/lib.rs:438-453 | A compression code goes to all three streams, or all three keep the engine's values. Export is always off. |
| Native.ErrorOrder | grit-rs/src/lib.rs:330-487 | Each error arises exactly under its condition, in a fixed order. `BadInput` iff the path has a nul byte. `InputNotFound` iff there is none but the load fails, whatever the depth. `BadBitDepth(n)` iff the load succeeded and the override is an unaccepted `Custom(n)`. `ConversionError` iff everything before succeeded and the engine run failed. `build` succeeds iff none of these happens. |
| Native.SuccessEcho | grit-rs/src/lib.rs:457-484 | A success carries the four output records' bytes. It echoes the override as given, the format or `Bitmap`, and the transparency or the magenta default. |
| Macro.ParseU8 | grit-proc/src/lib.rs:111-126 | An integer literal is accepted as a `u8` iff it is written without a minus sign and lies in 0..255, so `-0` is refused. Any failure is reported at the value token: a sign as an invalid digit, a value above 255 as out of range. |
| Macro.ParseI32 | grit-proc/src/lib.rs:127-150 | An integer literal is accepted as an `i32` iff it lies in the `i32` range. Any failure is reported at the value token. |
| Macro.KeyOf | grit-proc/src/lib.rs:43-170 | A key names a field iff it is one of the fourteen keys, and then it is that field's own key. |
| Macro.KeyOfKeyName | grit-proc/src/lib.rs:43-170 | Every field's key is recognised as that field. |
| Macro.ValueOf | grit-proc/src/lib.rs:44-169 | A value read for a field sets that field. Its errors sit at the value token. It reaches `todo!()` iff the field is transparency and the value is an integer. |
| Macro.ParseValue | grit-proc/src/lib.rs:43-170 | A value sets the field its key names. An unknown key is reported at the key iff it is outside the fourteen. Other errors sit at the key or the value. |
| Macro.ParseEntry | grit-proc/src/lib.rs:39-175 | A parsed entry moves the cursor forward and keeps the path. |
| Macro.ParseEntries | grit-proc/src/lib.rs:39-176 | Parsing the entries never changes the path. |
| Macro.ParseOptions | grit-proc/src/lib.rs:17-41 | A successful parse starts with a string literal, and the builder's path is its text. |
| Macro.Parse | grit-proc/src/lib.rs:15-186 | The cursor loop, which reassigns the builder entry by entry and exits early on errors, returns exactly `Expand`, the recursive specification. |
| Macro.BarePath | grit-proc/src/lib.rs:20-23 | The bare form builds from the path with transparency `Disabled`, depth `Custom(16)` and format `Bitmap`. |
| Macro.HeaderRules | grit-proc/src/lib.rs:17-35 | A missing path literal is an error at token 0, and a second token that is not a comma is an error at token 1. A bare path and a path with a lone comma both parse. |
| Macro.BarePathSettings | grit-proc/src/lib.rs:19-24 | Besides those three settings a bare path sets nothing. This differs from the builder after a comma. |
| Macro.BarePathNeverBadDepth | grit-proc/src/lib.rs:19-28 | The bare form never fails with a bit-depth error. |
| Macro.EntryShape | grit-proc/src/lib.rs:39-175 | A non-identifier where a key belongs is "expected identifier" there. A missing `=` is reported after the key. A parsed entry applies its value's setter and steps past an optional comma. |
| Macro.UnknownKeyRejected | grit-proc/src/lib.rs:170 | An entry stops with "unknown attribute" at the key iff the key is not one of the fourteen. |
| Macro.ValueVocabulary | grit-proc/src/lib.rs:44-169 | Per key, the exact identifier set it accepts and the setting each identifier gives, `4x4` included as a second spelling of `FourByFour`. Any other identifier is the key's "unknown …" error at the value. Integer keys reject identifiers. |
| Macro.IntValueRange | grit-proc/src/lib.rs:59-150 | Integer literals: the `u8` keys and `bit_depth` accept 0..255 written without a minus sign, and the area keys any `i32`, sign included (`-0` reads as 0). An accepted literal sets its key's field to that number, and `bit_depth` to `Custom` of it. On a `u8` key a minus sign, even on `-0`, is an "invalid digit" error at the literal, as `u8::from_str` reports it; any other refused literal is "out of range" there. `transparency` panics iff given an integer. `format` and `compression` want an identifier. |
| Macro.ValueOfRendered | grit-proc/src/lib.rs:44-169 | The token that spells a setting's value reads back, under its key, as that setting. |
| Macro.ParseEntryAt | grit-proc/src/lib.rs:39-176 | A spelled-out entry advances the cursor past itself and its comma and applies its setter. |
| Macro.ParseEntriesAt | grit-proc/src/lib.rs:39-176 | A run of spelled-out entries is parsed as the chain of their setter calls, and the cursor ends right after them. |
| Macro.RoundTrip | grit-proc/src/lib.rs:37-176 | A path, a comma and any spelled-out entries, each with or without its comma, parse to the builder the same setter chain produces. |
| Macro.RepeatedKeyLastWins | grit-proc/src/lib.rs:37-176 | After such a parse, every field holds the last entry that named it, and fields never named stay unset. |
| Macro.ParseEntriesStops | grit-proc/src/lib.rs:39-176 | A failing entry ends the parse with its diagnostic, or with the panic. |
| Macro.UnknownKeyAfterEntries | grit-proc/src/lib.rs:170 | After any valid entries, an unknown key ends the macro with "unknown attribute" at that key, and nothing is built. |
| Macro.TransparencyLiteralPanics | grit-proc/src/lib.rs:59-60 | After any valid entries, `transparency = <integer>` panics rather than reporting an error. |
| Macro.RejectedDepthReportedAtPath | grit-proc/src/lib.rs:178-181 | `bit_depth = 17` parses, but the build rejects it, and the error is reported at the path literal with `BadBitDepth(17)`. |
| Macro.BuildErrorsAtPath | grit-proc/src/lib.rs:178-183 | Every build error becomes a compile error at the path literal naming the path and the error. The macro expands iff the build succeeds. |

## Left out

- The native engine (`grit_alloc`, `grit_init`, `cldib_load`, `grit_init_from_dib`, `grit_run`) is foreign code. It is a parameter of the model: the initial parameters plus three functions. The model states only what `build` does around it.
- The numeric values of the engine's enum constants come from the native header, which is not part of this model. The values used are placeholders; the proofs rely only on their being distinct.
- The derived `Default` of `Compression` (rgrit-core/src/lib.rs:14-17) is not modelled: neither `build` nor the parser consults it.
- Of the `GRIT_REC` fields, `srcPath`, `srcDib` and `symName` are left out. So are the nulling of pointers before `grit_free` and `grit_free` itself (grit-rs/src/lib.rs:452-471). They affect memory handling, not the parameters or the result.
- The allocation is not freed on the early returns of `build`. That leak is not modelled.
- The `BadInput` error does not carry the `NulError` payload; only the nul-byte condition is modelled.
- Native.Read does not model raw-pointer arithmetic or unaligned reads. Its precondition is the engine's promise behind the `unsafe` trait: a non-null buffer holds at least `height * width` bytes with non-negative dimensions. A negative product cast to `usize` is not modelled.
- Native.GritRec.SetArea and Native.Build follow release-mode arithmetic: `areaLeft + width` wraps modulo 2^32. In a debug build the same overflow panics. That panic is not modelled.
- The same applies to `Custom(0)`. The guard's `n - 1` wraps to 255, so the depth is rejected with `BadBitDepth(0)`; the debug-build overflow panic is not modelled.
- The `ToTokens` impls and the `grit!` entry point (grit-rs/src/lib.rs:83-163, grit-proc/src/lib.rs:188-221) generate code. The model stops at the `Bitmap` that would be embedded.
- Rust lexing by `syn` is replaced by abstract tokens.
  - An integer literal carries its digits and whether a `-` was written, as `syn` folds a leading `-` into the literal. So `-0` stays distinct from `0`, as it is for `u8::from_str`.
  - Literal suffixes, raw identifiers, keywords and spans are not modelled.
  - The `"4x4"` arm is modelled as written, although a real lexer turns `4x4` into the integer literal `4` with suffix `x4`. In the real macro `bit_depth = 4x4` therefore takes the integer arm and gives `Custom(4)`, which the depth guard accepts: a 4-bit custom depth, not `FourByFour`. In the model that is the token `Int(false, 4)`, which `IntValueRange` maps to `Custom(4)`.
- Diagnostic message texts are not modelled. Only their kind and the token they point at are.
- Macro.RoundTrip and Macro.RepeatedKeyLastWins cover only settings the token syntax can spell. A colour transparency has no spelling, because the integer form reaches `todo!()`.
- The `build.rs` scripts of the `-sys` crates compile the native library and are out of scope.
