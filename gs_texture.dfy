// 2D textures: the creation rules of `gs_texture_create` (mipmaps only for
// power-of-two sizes and never for render targets), the decoding of the
// creation flags, and the row and buffer size arithmetic of mapping and
// uploading. GL is an oracle (`ok` tells whether a call succeeds) and a
// per-texture call trace.
module GsTexture {
  import opened Common
  import opened GlApi
  import opened GsSubsystemInfo
  import opened GsDevice

  /** What the format helpers outside this model report: bits per pixel
      (`gs_get_format_bpp`), whether a format is block-compressed
      (`gs_is_compressed_format`) and the full mipmap chain length of a size
      (`gs_get_total_levels`). */
  datatype FormatInfo = FormatInfo(
    bpp: ColorFormat -> uint32,
    compressed: ColorFormat -> bool,
    totalLevels: (uint32, uint32) -> uint32)

  /** `is_pow2`. */
  predicate IsPow2(size: uint32)
  {
    size >= 2 && BitAnd(size, size - 1) == 0
  }

  /** The powers of two from 2 on. */
  predicate PowerOfTwo(n: nat)
  {
    n == 2 || (n > 2 && n % 2 == 0 && PowerOfTwo(n / 2))
  }

  /** `is_pow2` holds exactly for the powers of two other than 1. */
  lemma {:induction false} IsPow2Exactly(n: uint32)
    ensures IsPow2(n) <==> PowerOfTwo(n)
    decreases n
  {
    if n > 2 {
      if n % 2 == 0 {
        IsPow2Exactly(n / 2);
        assert (n - 1) / 2 == n / 2 - 1;
      } else {
        BitAndSelf(n / 2);
        assert (n - 1) / 2 == n / 2;
      }
    }
  }

  /** Whether a request asks for mipmaps: the BUILD_MIPMAPS flag, or a level
      count other than 1. */
  predicate UsesMipmaps(levels: uint32, flags: bv32)
  {
    flags & GS_BUILD_MIPMAPS != 0 || levels != 1
  }

  /** Whether `gs_texture_create` drops a request for mipmaps: the size is
      not a power of two in both directions, or the texture is a render
      target. */
  predicate DropsMipmaps(width: uint32, height: uint32, levels: uint32, flags: bv32)
  {
    UsesMipmaps(levels, flags) && (!(IsPow2(width) && IsPow2(height)) || flags & GS_RENDER_TARGET != 0)
  }

  /** The level count and flags `gs_texture_create` goes on with: a dropped
      request has BUILD_MIPMAPS cleared and one level. */
  function Fallback(width: uint32, height: uint32, levels: uint32, flags: bv32): (r: (uint32, bv32))
  {
    if DropsMipmaps(width, height, levels, flags) then (1, flags & !GS_BUILD_MIPMAPS) else (levels, flags)
  }

  /** What is dropped no longer asks for mipmaps and has one level; what
      is kept is the request unchanged. */
  lemma FallbackCases(width: uint32, height: uint32, levels: uint32, flags: bv32)
    ensures var r := Fallback(width, height, levels, flags);
      if DropsMipmaps(width, height, levels, flags) then !UsesMipmaps(r.0, r.1) && r.0 == 1
      else r == (levels, flags)
  {
    if DropsMipmaps(width, height, levels, flags) {
      MaskClearsMipmaps(flags);
    }
  }

  lemma MaskClearsMipmaps(flags: bv32)
    ensures (flags & !GS_BUILD_MIPMAPS) & GS_BUILD_MIPMAPS == 0
  {
  }

  /** Only the BUILD_MIPMAPS bit of the flags ever changes. */
  lemma FallbackKeepsFlag(width: uint32, height: uint32, levels: uint32, flags: bv32, bit: bv32)
    requires bit & GS_BUILD_MIPMAPS == 0
    ensures Fallback(width, height, levels, flags).1 & bit == flags & bit
  {
    if DropsMipmaps(width, height, levels, flags) {
      MaskKeeps(flags, bit);
    }
  }

  lemma MaskKeeps(flags: bv32, bit: bv32)
    requires bit & GS_BUILD_MIPMAPS == 0
    ensures (flags & !GS_BUILD_MIPMAPS) & bit == flags & bit
  {
  }

  /** After the fallback a request for mipmaps is always on a power-of-two
      size and never on a render target. */
  lemma FallbackMipmapsOnlyPow2(width: uint32, height: uint32, levels: uint32, flags: bv32)
    ensures var r := Fallback(width, height, levels, flags);
      UsesMipmaps(r.0, r.1) ==> PowerOfTwo(width) && PowerOfTwo(height) && r.1 & GS_RENDER_TARGET == 0
  {
    IsPow2Exactly(width);
    IsPow2Exactly(height);
  }

  /** A 100x50 texture asked for 4 levels gets one, a 64x64 one keeps its
      4, and a 64x64 render target gets one. */
  lemma FallbackExamples()
    ensures Fallback(100, 50, 4, 0) == (1, 0)
    ensures Fallback(64, 64, 4, 0) == (4, 0)
    ensures Fallback(64, 64, 4, GS_RENDER_TARGET) == (1, GS_RENDER_TARGET)
  {
    IsPow2Exactly(100);
    IsPow2Exactly(64);
  }

  /** `(x + 3) & 0xFFFFFFFC` in `uint32_t`: the mask clears the two low
      bits, rounding down to a multiple of 4. */
  function Align4(x: uint32): uint32
  {
    U32(x + 3) / 4 * 4
  }

  /** The row length `gs_texture_map` reports: the bytes of one row,
      computed in `uint32_t` and padded to a multiple of 4. */
  function MapLinesize(width: uint32, bpp: uint32): uint32
  {
    Align4(U32(width * bpp) / 8)
  }

  /** The reported row length is the least multiple of 4 that holds a row
      (the row length, a 32-bit value divided by 8, never wraps when
      padded). */
  lemma MapLinesizeBounds(width: uint32, bpp: uint32)
    ensures var row := U32(width * bpp) / 8; var l := MapLinesize(width, bpp);
      l % 4 == 0 && row <= l < row + 4
  {
  }

  /** The size of the pixel unpack buffer, in the 64-bit `GLsizeiptr`: the
      product `width * bpp` is formed in `uint32_t`; uncompressed rows are
      padded as `gs_texture_map` pads them, compressed data is not. */
  function UnpackSize(width: uint32, height: uint32, bpp: uint32, compressed: bool): int
  {
    var size := U32(width * bpp);
    if !compressed then (size / 8 + 3) / 4 * 4 * height
    else size * height / 8
  }

  /** An uncompressed unpack buffer holds exactly `height` mapped rows. */
  lemma UnpackSizeRows(width: uint32, height: uint32, bpp: uint32)
    ensures UnpackSize(width, height, bpp, false) == MapLinesize(width, bpp) * height
  {
  }

  /** The byte count `upload_texture_2d` and the dummy path hand to
      `gl_init_face`, in `uint32_t`. */
  function TexSize(width: uint32, height: uint32, bpp: uint32): uint32
  {
    U32(height * U32(width * bpp)) / 8
  }

  /** The levels `upload_texture_2d` initialises: the stored count, or
      the full chain when that is 0. */
  function UploadLevels(levels: uint32, width: uint32, height: uint32, info: FormatInfo): uint32
  {
    if levels == 0 then info.totalLevels(width, height) else levels
  }

  /** `num_levels - 1` in `uint32_t`, passed on as a `GLint`. */
  function MaxLevel(numLevels: uint32): int
  {
    ToInt32(U32(numLevels - 1))
  }

  /** Once the texture is bound, the upload initialises the stored number
      of levels, or the full chain when that is 0, and sets the maximum
      level to the index of the last of them (an empty chain wraps to the
      bits of -1). */
  lemma UploadLevelCount(w: uint32, h: uint32, f: ColorFormat, lv: uint32, info: FormatInfo, ok: GlCall -> bool)
    requires ok(BindTexture(GL_TEXTURE_2D))
    ensures var c := UploadCalls(w, h, f, lv, info, ok);
      var n := if lv == 0 then info.totalLevels(w, h) else lv;
      |c| == 4 && c[1] == InitFace(n, TexSize(w, h, info.bpp(f)))
      && (1 <= n <= INT32_MAX + 1 ==> c[2] == TexParamMaxLevel(n - 1))
      && (n == 0 ==> c[2] == TexParamMaxLevel(-1))
  {
  }

  class Texture {
    var format: ColorFormat
    var glFormat: int
    var glInternalFormat: int
    var glType: int
    var glTarget: int
    var levels: uint32
    var isDynamic: bool
    var isRenderTarget: bool
    var isDummy: bool
    var genMipmaps: bool
    var width: uint32
    var height: uint32
    /** The size given to the pixel unpack buffer, once it exists. */
    var unpackSize: int
    var trace: seq<GlCall>

    /** A value-initialised `gs_texture_private`. */
    constructor ()
      ensures format == Unknown && glFormat == 0 && glInternalFormat == 0 && glType == 0 && glTarget == 0
      ensures levels == 0 && !isDynamic && !isRenderTarget && !isDummy && !genMipmaps
      ensures width == 0 && height == 0 && unpackSize == 0 && trace == []
    {
      format := Unknown;
      glFormat, glInternalFormat, glType, glTarget := 0, 0, 0, 0;
      levels := 0;
      isDynamic, isRenderTarget, isDummy, genMipmaps := false, false, false, false;
      width, height := 0, 0;
      unpackSize := 0;
      trace := [];
    }

    /** `gs_texture::create`: the description is stored and each flag bit
        decoded on its own, then the GL texture is generated and filled. */
    method Create(w: uint32, h: uint32, f: ColorFormat, lv: uint32, flags: bv32,
                  info: FormatInfo, ok: GlCall -> bool) returns (success: bool)
      modifies this
      ensures format == f && levels == lv && width == w && height == h && glTarget == GL_TEXTURE_2D
      ensures glFormat == ConvertFormat(f) && glInternalFormat == ConvertInternalFormat(f) && glType == GlFormatType(f)
      ensures isDynamic == (flags & GS_DYNAMIC != 0) && isRenderTarget == (flags & GS_RENDER_TARGET != 0)
      ensures isDummy == (flags & GS_GL_DUMMYTEX != 0) && genMipmaps == (flags & GS_BUILD_MIPMAPS != 0)
      ensures trace == old(trace) + CreateCalls(w, h, f, lv, isDynamic, isDummy, info, ok)
      ensures success == CreateOk(w, h, f, lv, isDynamic, isDummy, info, ok)
      ensures unpackSize == if UnpackStored(isDynamic, isDummy, ok)
                            then UnpackSize(w, h, info.bpp(f), info.compressed(f)) else old(unpackSize)
    {
      Describe(w, h, f, lv, flags);
      success := CreateGl(info, ok);
    }

    /** The fields `create` sets before any GL call. */
    method Describe(w: uint32, h: uint32, f: ColorFormat, lv: uint32, flags: bv32)
      modifies this`format, this`levels, this`glFormat, this`glInternalFormat, this`glType, this`glTarget
      modifies this`isDynamic, this`isRenderTarget, this`isDummy, this`genMipmaps, this`width, this`height
      ensures format == f && levels == lv && width == w && height == h && glTarget == GL_TEXTURE_2D
      ensures glFormat == ConvertFormat(f) && glInternalFormat == ConvertInternalFormat(f) && glType == GlFormatType(f)
      ensures isDynamic == (flags & GS_DYNAMIC != 0) && isRenderTarget == (flags & GS_RENDER_TARGET != 0)
      ensures isDummy == (flags & GS_GL_DUMMYTEX != 0) && genMipmaps == (flags & GS_BUILD_MIPMAPS != 0)
    {
      format, levels := f, lv;
      glFormat := ConvertFormat(f);
      glInternalFormat := ConvertInternalFormat(f);
      glType := GlFormatType(f);
      glTarget := GL_TEXTURE_2D;
      isDynamic := flags & GS_DYNAMIC != 0;
      isRenderTarget := flags & GS_RENDER_TARGET != 0;
      isDummy := flags & GS_GL_DUMMYTEX != 0;
      genMipmaps := flags & GS_BUILD_MIPMAPS != 0;
      width, height := w, h;
    }

    /** The GL part of `create`: a dummy texture gets one empty level and
        no unpack buffer; a dynamic one gets its unpack buffer before the
        upload, and a failure there ends the creation. */
    method CreateGl(info: FormatInfo, ok: GlCall -> bool) returns (success: bool)
      modifies this`trace, this`unpackSize
      ensures trace == old(trace) + CreateCalls(width, height, format, levels, isDynamic, isDummy, info, ok)
      ensures success == CreateOk(width, height, format, levels, isDynamic, isDummy, info, ok)
      ensures unpackSize == if UnpackStored(isDynamic, isDummy, ok)
                            then UnpackSize(width, height, info.bpp(format), info.compressed(format))
                            else old(unpackSize)
    {
      trace := trace + [GenTexture];
      if !ok(GenTexture) {
        return false;
      }
      if !isDummy {
        if isDynamic {
          var made := CreatePixelUnpackBuffer(info, ok);
          if !made {
            return false;
          }
        }
        success := UploadTexture2D(info, ok);
      } else {
        success := InitDummy(info, ok);
      }
    }

    /** `create_pixel_unpack_buffer`: the size is stored once the buffer
        is generated and bound, whether or not GL accepts the data. */
    method CreatePixelUnpackBuffer(info: FormatInfo, ok: GlCall -> bool) returns (success: bool)
      modifies this`trace, this`unpackSize
      ensures trace == old(trace) + UnpackCalls(width, height, format, info, ok)
      ensures success == UnpackOk(width, height, format, info, ok)
      ensures unpackSize == if ok(GenBuffer) && ok(BindBuffer(GL_PIXEL_UNPACK_BUFFER))
                            then UnpackSize(width, height, info.bpp(format), info.compressed(format))
                            else old(unpackSize)
    {
      trace := trace + [GenBuffer];
      if !ok(GenBuffer) {
        return false;
      }
      trace := trace + [BindBuffer(GL_PIXEL_UNPACK_BUFFER)];
      if !ok(BindBuffer(GL_PIXEL_UNPACK_BUFFER)) {
        return false;
      }
      var size := UnpackSize(width, height, info.bpp(format), info.compressed(format));
      var data := BufferData(GL_PIXEL_UNPACK_BUFFER, size, GL_DYNAMIC_DRAW);
      trace := trace + [data, UnbindBuffer(GL_PIXEL_UNPACK_BUFFER)];
      success := ok(data) && ok(UnbindBuffer(GL_PIXEL_UNPACK_BUFFER));
      unpackSize := size;
    }

    /** `upload_texture_2d`: once the texture is bound, the face init, the
        maximum level and the unbind are all issued, and any failure among
        them fails the upload. */
    method UploadTexture2D(info: FormatInfo, ok: GlCall -> bool) returns (success: bool)
      modifies this`trace
      ensures trace == old(trace) + UploadCalls(width, height, format, levels, info, ok)
      ensures success == UploadOk(width, height, format, levels, info, ok)
    {
      var numLevels := UploadLevels(levels, width, height, info);
      trace := trace + [BindTexture(GL_TEXTURE_2D)];
      if !ok(BindTexture(GL_TEXTURE_2D)) {
        return false;
      }
      var face := InitFace(numLevels, TexSize(width, height, info.bpp(format)));
      trace := trace + [face];
      success := ok(face);
      trace := trace + [TexParamMaxLevel(MaxLevel(numLevels))];
      if !ok(TexParamMaxLevel(MaxLevel(numLevels))) {
        success := false;
      }
      trace := trace + [UnbindTexture(GL_TEXTURE_2D)];
      if !ok(UnbindTexture(GL_TEXTURE_2D)) {
        success := false;
      }
    }

    /** The dummy branch of `create`: one level of the computed size. The
        result of the face init is overwritten by that of setting the
        maximum level, so only the latter and the unbind decide. */
    method InitDummy(info: FormatInfo, ok: GlCall -> bool) returns (success: bool)
      modifies this`trace
      ensures trace == old(trace) + DummyCalls(width, height, format, info, ok)
      ensures success == DummyOk(ok)
    {
      trace := trace + [BindTexture(GL_TEXTURE_2D)];
      if !ok(BindTexture(GL_TEXTURE_2D)) {
        return false;
      }
      var face := InitFace(1, TexSize(width, height, info.bpp(format)));
      trace := trace + [face, TexParamMaxLevel(0), UnbindTexture(GL_TEXTURE_2D)];
      var didInit := ok(face);
      didInit := ok(TexParamMaxLevel(0));
      var didUnbind := ok(UnbindTexture(GL_TEXTURE_2D));
      success := didInit && didUnbind;
    }

    /** `gs_texture_map`: fails on a texture that is not dynamic; otherwise
        maps the unpack buffer and reports the padded row length. */
    method Map(info: FormatInfo, ok: GlCall -> bool) returns (linesize: Option<uint32>)
      modifies this`trace
      ensures !isDynamic ==> linesize.None? && trace == old(trace)
      ensures isDynamic ==> trace == old(trace) + MapCalls(ok)
      ensures isDynamic ==> linesize == if MapOk(ok) then Some(MapLinesize(width, info.bpp(format))) else None
    {
      if !isDynamic {
        return None;
      }
      trace := trace + [BindBuffer(GL_PIXEL_UNPACK_BUFFER)];
      if !ok(BindBuffer(GL_PIXEL_UNPACK_BUFFER)) {
        return None;
      }
      trace := trace + [MapBuffer(GL_PIXEL_UNPACK_BUFFER)];
      if !ok(MapBuffer(GL_PIXEL_UNPACK_BUFFER)) {
        return None;
      }
      trace := trace + [UnbindBuffer(GL_PIXEL_UNPACK_BUFFER)];
      linesize := Some(MapLinesize(width, info.bpp(format)));
    }
  }

  /** The calls of `create_pixel_unpack_buffer`, up to the first failure of
      generating or binding the buffer. */
  function UnpackCalls(w: uint32, h: uint32, f: ColorFormat, info: FormatInfo, ok: GlCall -> bool): seq<GlCall>
  {
    if !ok(GenBuffer) then [GenBuffer]
    else if !ok(BindBuffer(GL_PIXEL_UNPACK_BUFFER)) then [GenBuffer, BindBuffer(GL_PIXEL_UNPACK_BUFFER)]
    else [GenBuffer, BindBuffer(GL_PIXEL_UNPACK_BUFFER),
          BufferData(GL_PIXEL_UNPACK_BUFFER, UnpackSize(w, h, info.bpp(f), info.compressed(f)), GL_DYNAMIC_DRAW),
          UnbindBuffer(GL_PIXEL_UNPACK_BUFFER)]
  }

  predicate UnpackOk(w: uint32, h: uint32, f: ColorFormat, info: FormatInfo, ok: GlCall -> bool)
  {
    ok(GenBuffer) && ok(BindBuffer(GL_PIXEL_UNPACK_BUFFER))
    && ok(BufferData(GL_PIXEL_UNPACK_BUFFER, UnpackSize(w, h, info.bpp(f), info.compressed(f)), GL_DYNAMIC_DRAW))
    && ok(UnbindBuffer(GL_PIXEL_UNPACK_BUFFER))
  }

  /** The calls of `upload_texture_2d`: nothing after a failed bind. */
  function UploadCalls(w: uint32, h: uint32, f: ColorFormat, lv: uint32, info: FormatInfo, ok: GlCall -> bool): seq<GlCall>
  {
    var n := UploadLevels(lv, w, h, info);
    if !ok(BindTexture(GL_TEXTURE_2D)) then [BindTexture(GL_TEXTURE_2D)]
    else [BindTexture(GL_TEXTURE_2D), InitFace(n, TexSize(w, h, info.bpp(f))),
          TexParamMaxLevel(MaxLevel(n)), UnbindTexture(GL_TEXTURE_2D)]
  }

  predicate UploadOk(w: uint32, h: uint32, f: ColorFormat, lv: uint32, info: FormatInfo, ok: GlCall -> bool)
  {
    var n := UploadLevels(lv, w, h, info);
    ok(BindTexture(GL_TEXTURE_2D)) && ok(InitFace(n, TexSize(w, h, info.bpp(f))))
    && ok(TexParamMaxLevel(MaxLevel(n))) && ok(UnbindTexture(GL_TEXTURE_2D))
  }

  function DummyCalls(w: uint32, h: uint32, f: ColorFormat, info: FormatInfo, ok: GlCall -> bool): seq<GlCall>
  {
    if !ok(BindTexture(GL_TEXTURE_2D)) then [BindTexture(GL_TEXTURE_2D)]
    else [BindTexture(GL_TEXTURE_2D), InitFace(1, TexSize(w, h, info.bpp(f))),
          TexParamMaxLevel(0), UnbindTexture(GL_TEXTURE_2D)]
  }

  predicate DummyOk(ok: GlCall -> bool)
  {
    ok(BindTexture(GL_TEXTURE_2D)) && ok(TexParamMaxLevel(0)) && ok(UnbindTexture(GL_TEXTURE_2D))
  }

  /** The calls of `create` after the description is stored. */
  function CreateCalls(w: uint32, h: uint32, f: ColorFormat, lv: uint32, dynamic: bool, dummy: bool,
                       info: FormatInfo, ok: GlCall -> bool): seq<GlCall>
  {
    [GenTexture]
    + if !ok(GenTexture) then []
      else if dummy then DummyCalls(w, h, f, info, ok)
      else if dynamic && !UnpackOk(w, h, f, info, ok) then UnpackCalls(w, h, f, info, ok)
      else (if dynamic then UnpackCalls(w, h, f, info, ok) else []) + UploadCalls(w, h, f, lv, info, ok)
  }

  /** Whether `create` succeeds. */
  predicate CreateOk(w: uint32, h: uint32, f: ColorFormat, lv: uint32, dynamic: bool, dummy: bool,
                     info: FormatInfo, ok: GlCall -> bool)
  {
    ok(GenTexture)
    && if dummy then DummyOk(ok)
       else (!dynamic || UnpackOk(w, h, f, info, ok)) && UploadOk(w, h, f, lv, info, ok)
  }

  /** Whether `create` gets as far as storing the unpack buffer's size. */
  predicate UnpackStored(dynamic: bool, dummy: bool, ok: GlCall -> bool)
  {
    ok(GenTexture) && !dummy && dynamic && ok(GenBuffer) && ok(BindBuffer(GL_PIXEL_UNPACK_BUFFER))
  }

  function MapCalls(ok: GlCall -> bool): seq<GlCall>
  {
    if !ok(BindBuffer(GL_PIXEL_UNPACK_BUFFER)) then [BindBuffer(GL_PIXEL_UNPACK_BUFFER)]
    else if !ok(MapBuffer(GL_PIXEL_UNPACK_BUFFER)) then [BindBuffer(GL_PIXEL_UNPACK_BUFFER), MapBuffer(GL_PIXEL_UNPACK_BUFFER)]
    else [BindBuffer(GL_PIXEL_UNPACK_BUFFER), MapBuffer(GL_PIXEL_UNPACK_BUFFER), UnbindBuffer(GL_PIXEL_UNPACK_BUFFER)]
  }

  predicate MapOk(ok: GlCall -> bool)
  {
    ok(BindBuffer(GL_PIXEL_UNPACK_BUFFER)) && ok(MapBuffer(GL_PIXEL_UNPACK_BUFFER))
  }

  /** `gs_texture_create`: `null` outside a graphics context (`valid` is
      what `gs_valid` answered) or when `create` fails; otherwise a new
      texture holding the request after the mipmap fallback. */
  method TextureCreate(valid: bool, w: uint32, h: uint32, f: ColorFormat, lv: uint32, flags: bv32,
                       info: FormatInfo, ok: GlCall -> bool) returns (t: Texture?)
    ensures !valid ==> t == null
    ensures t != null ==> fresh(t) && valid
    ensures t != null ==>
      t.levels == Fallback(w, h, lv, flags).0 && t.genMipmaps == (Fallback(w, h, lv, flags).1 & GS_BUILD_MIPMAPS != 0)
      && t.isDynamic == (flags & GS_DYNAMIC != 0) && t.isRenderTarget == (flags & GS_RENDER_TARGET != 0)
      && t.isDummy == (flags & GS_GL_DUMMYTEX != 0) && t.width == w && t.height == h && t.format == f
    ensures t != null ==>
      t.trace == CreateCalls(w, h, f, t.levels, t.isDynamic, t.isDummy, info, ok)
      && t.unpackSize == if UnpackStored(t.isDynamic, t.isDummy, ok)
                         then UnpackSize(w, h, info.bpp(f), info.compressed(f)) else 0
    ensures valid ==>
      (t != null <==> CreateOk(w, h, f, Fallback(w, h, lv, flags).0,
                               flags & GS_DYNAMIC != 0, flags & GS_GL_DUMMYTEX != 0, info, ok))
  {
    if !valid {
      return null;
    }
    var levels, fl := MipmapFallback(w, h, lv, flags);
    FallbackKeepsFlag(w, h, lv, flags, GS_DYNAMIC);
    FallbackKeepsFlag(w, h, lv, flags, GS_RENDER_TARGET);
    FallbackKeepsFlag(w, h, lv, flags, GS_GL_DUMMYTEX);
    t := new Texture();
    var created := t.Create(w, h, f, levels, fl, info, ok);
    if !created {
      return null;
    }
  }

  /** The checks of `gs_texture_create` before the texture is made: a
      request for mipmaps is dropped first for a non-power-of-two size,
      then, if it survived, for a render target. */
  method MipmapFallback(w: uint32, h: uint32, lv: uint32, flags: bv32) returns (levels: uint32, fl: bv32)
    ensures (levels, fl) == Fallback(w, h, lv, flags)
  {
    var pow2tex := IsPow2(w) && IsPow2(h);
    var usesMipmaps := flags & GS_BUILD_MIPMAPS != 0 || lv != 1;
    ghost var drops := DropsMipmaps(w, h, lv, flags);
    assert drops == (usesMipmaps && (!pow2tex || flags & GS_RENDER_TARGET != 0));
    levels, fl := lv, flags;
    if usesMipmaps && !pow2tex {
      usesMipmaps := false;
      fl := fl & !GS_BUILD_MIPMAPS;
      levels := 1;
    }
    if usesMipmaps && fl & GS_RENDER_TARGET != 0 {
      fl := fl & !GS_BUILD_MIPMAPS;
      levels := 1;
    }
  }
}
