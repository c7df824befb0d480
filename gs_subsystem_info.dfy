// The graphics subsystem's constants and its enum-to-GL mapping tables.
module GsSubsystemInfo {
  import opened Common
  import opened GlApi

  const GS_SUCCESS: int := 0
  const GS_ERROR_FAIL: int := -1
  const GS_ERROR_MODULE_NOT_FOUND: int := -2
  const GS_ERROR_NOT_SUPPORTED: int := -3

  /** Texture and buffer creation flags. */
  const GS_BUILD_MIPMAPS: bv32 := 1
  const GS_DYNAMIC: bv32 := 2
  const GS_RENDER_TARGET: bv32 := 4
  const GS_GL_DUMMYTEX: bv32 := 8
  const GS_DUP_BUFFER: bv32 := 16

  const FLAGS: seq<bv32> := [GS_BUILD_MIPMAPS, GS_DYNAMIC, GS_RENDER_TARGET, GS_GL_DUMMYTEX, GS_DUP_BUFFER]

  datatype BlendType =
    | BlendZero | BlendOne | BlendSrcColor | BlendInvSrcColor | BlendSrcAlpha
    | BlendInvSrcAlpha | BlendDstColor | BlendInvDstColor | BlendDstAlpha
    | BlendInvDstAlpha | BlendSrcAlphaSat

  datatype ColorFormat =
    | Unknown | A8 | R8 | RGBA | RGBA16F | RGBA32F | RG16F | RG32F | R16F | R32F | R8G8

  datatype ZStencilFormat = ZsNone | Z16 | Z24S8 | Z32F | Z32FS8X24

  /** `convert_gs_blend_type`. */
  function ConvertBlendType(t: BlendType): int
  {
    match t
    case BlendZero => GL_ZERO
    case BlendOne => GL_ONE
    case BlendSrcColor => GL_SRC_COLOR
    case BlendInvSrcColor => GL_ONE_MINUS_SRC_COLOR
    case BlendSrcAlpha => GL_SRC_ALPHA
    case BlendInvSrcAlpha => GL_ONE_MINUS_SRC_ALPHA
    case BlendDstColor => GL_DST_COLOR
    case BlendInvDstColor => GL_ONE_MINUS_DST_COLOR
    case BlendDstAlpha => GL_DST_ALPHA
    case BlendInvDstAlpha => GL_ONE_MINUS_DST_ALPHA
    case BlendSrcAlphaSat => GL_SRC_ALPHA_SATURATE
  }

  /** The blend factor a GL value names, if any: the inverse table. */
  function BlendTypeOfGl(v: int): Option<BlendType>
  {
    if v == GL_ZERO then Some(BlendZero)
    else if v == GL_ONE then Some(BlendOne)
    else if GL_SRC_COLOR <= v <= GL_SRC_ALPHA_SATURATE then
      Some([BlendSrcColor, BlendInvSrcColor, BlendSrcAlpha, BlendInvSrcAlpha,
            BlendDstAlpha, BlendInvDstAlpha, BlendDstColor, BlendInvDstColor,
            BlendSrcAlphaSat][v - GL_SRC_COLOR])
    else None
  }

  /** `convert_gs_format`: the pixel layout GL is told about. */
  function ConvertFormat(f: ColorFormat): int
  {
    match f
    case A8 => GL_RED
    case R8 => GL_RED
    case RGBA => GL_RGBA
    case RGBA16F => GL_RGBA
    case RGBA32F => GL_RGBA
    case RG16F => GL_RG
    case RG32F => GL_RG
    case R8G8 => GL_RG
    case R16F => GL_RED
    case R32F => GL_RED
    case Unknown => 0
  }

  /** `convert_gs_internal_format`. */
  function ConvertInternalFormat(f: ColorFormat): int
  {
    match f
    case A8 => GL_R8
    case R8 => GL_R8
    case RGBA => GL_RGBA
    case RGBA16F => GL_RGBA16F
    case RGBA32F => GL_RGBA32F
    case RG16F => GL_RG16F
    case RG32F => GL_RG32F
    case R8G8 => GL_RG8
    case R16F => GL_R16F
    case R32F => GL_R32F
    case Unknown => 0
  }

  /** `get_gl_format_type`. */
  function GlFormatType(f: ColorFormat): int
  {
    match f
    case A8 => GL_UNSIGNED_BYTE
    case R8 => GL_UNSIGNED_BYTE
    case RGBA => GL_UNSIGNED_BYTE
    case RGBA16F => GL_UNSIGNED_SHORT
    case RGBA32F => GL_FLOAT
    case RG16F => GL_UNSIGNED_SHORT
    case RG32F => GL_FLOAT
    case R8G8 => GL_UNSIGNED_BYTE
    case R16F => GL_UNSIGNED_SHORT
    case R32F => GL_FLOAT
    case Unknown => 0
  }

  /** Channels per pixel, read off the format's name. */
  function Channels(f: ColorFormat): nat
  {
    match f
    case Unknown => 0
    case A8 | R8 | R16F | R32F => 1
    case RG16F | RG32F | R8G8 => 2
    case RGBA | RGBA16F | RGBA32F => 4
  }

  /** Bits per channel, read off the format's name. */
  function ChannelBits(f: ColorFormat): nat
  {
    match f
    case Unknown => 0
    case A8 | R8 | RGBA | R8G8 => 8
    case RGBA16F | RG16F | R16F => 16
    case RGBA32F | RG32F | R32F => 32
  }

  /** The five flags are single bits, pairwise disjoint. */
  lemma FlagsDisjointBits()
    ensures forall i :: 0 <= i < |FLAGS| ==> FLAGS[i] != 0 && FLAGS[i] & (FLAGS[i] - 1) == 0
    ensures forall i, j :: 0 <= i < j < |FLAGS| ==> FLAGS[i] & FLAGS[j] == 0
  {
  }

  /** Each blend factor maps to a distinct GL factor: the inverse table
      recovers it. */
  lemma BlendTypeRoundTrip(t: BlendType)
    ensures BlendTypeOfGl(ConvertBlendType(t)) == Some(t)
  {
  }

  lemma BlendTypeInjective(a: BlendType, b: BlendType)
    ensures ConvertBlendType(a) == ConvertBlendType(b) ==> a == b
  {
    BlendTypeRoundTrip(a);
    BlendTypeRoundTrip(b);
  }

  /** The GL layout is fixed by the channel count alone. */
  lemma FormatByChannels(f: ColorFormat)
    ensures ConvertFormat(f) == GL_RED <==> Channels(f) == 1
    ensures ConvertFormat(f) == GL_RG <==> Channels(f) == 2
    ensures ConvertFormat(f) == GL_RGBA <==> Channels(f) == 4
    ensures ConvertFormat(f) == 0 <==> f == Unknown
  {
  }

  /** The GL component type is fixed by the bits per channel alone. */
  lemma FormatTypeByBits(f: ColorFormat)
    ensures GlFormatType(f) == GL_UNSIGNED_BYTE <==> ChannelBits(f) == 8
    ensures GlFormatType(f) == GL_UNSIGNED_SHORT <==> ChannelBits(f) == 16
    ensures GlFormatType(f) == GL_FLOAT <==> ChannelBits(f) == 32
    ensures GlFormatType(f) == 0 <==> f == Unknown
  {
  }

  /** Only A8 and R8 share an internal format; every other format has its
      own, and an unknown format maps to 0. */
  lemma InternalFormatDistinct(a: ColorFormat, b: ColorFormat)
    ensures ConvertInternalFormat(a) == ConvertInternalFormat(b) <==>
      a == b || ({a, b} == {A8, R8})
    ensures ConvertInternalFormat(a) == 0 <==> a == Unknown
  {
  }
}
