// The OpenGL enumerant values the core passes to GL (as in the Khronos
// headers), and the GL calls it issues, recorded as events.
module GlApi {

  const GL_ZERO: int := 0
  const GL_ONE: int := 1
  const GL_SRC_COLOR: int := 0x0300
  const GL_ONE_MINUS_SRC_COLOR: int := 0x0301
  const GL_SRC_ALPHA: int := 0x0302
  const GL_ONE_MINUS_SRC_ALPHA: int := 0x0303
  const GL_DST_ALPHA: int := 0x0304
  const GL_ONE_MINUS_DST_ALPHA: int := 0x0305
  const GL_DST_COLOR: int := 0x0306
  const GL_ONE_MINUS_DST_COLOR: int := 0x0307
  const GL_SRC_ALPHA_SATURATE: int := 0x0308

  const GL_FRONT: int := 0x0404
  const GL_BACK: int := 0x0405
  const GL_CULL_FACE: int := 0x0B44
  const GL_DEPTH_TEST: int := 0x0B71
  const GL_BLEND: int := 0x0BE2

  const GL_UNSIGNED_BYTE: int := 0x1401
  const GL_UNSIGNED_SHORT: int := 0x1403
  const GL_FLOAT: int := 0x1406
  const GL_RED: int := 0x1903
  const GL_RGBA: int := 0x1908
  const GL_RG: int := 0x8227
  const GL_R8: int := 0x8229
  const GL_RG8: int := 0x822B
  const GL_R16F: int := 0x822D
  const GL_R32F: int := 0x822E
  const GL_RG16F: int := 0x822F
  const GL_RG32F: int := 0x8230
  const GL_RGBA32F: int := 0x8814
  const GL_RGBA16F: int := 0x881A

  const GL_TEXTURE_2D: int := 0x0DE1
  const GL_TEXTURE_MAX_LEVEL: int := 0x813D
  const GL_ARRAY_BUFFER: int := 0x8892
  const GL_PIXEL_UNPACK_BUFFER: int := 0x88EC
  const GL_STREAM_DRAW: int := 0x88E0
  const GL_STATIC_DRAW: int := 0x88E4
  const GL_DYNAMIC_DRAW: int := 0x88E8
  const GL_FRAMEBUFFER: int := 0x8D40
  const GL_TRIANGLE_STRIP: int := 0x0005

  const GL_VENDOR: int := 0x1F00
  const GL_RENDERER: int := 0x1F01
  const GL_VERSION: int := 0x1F02
  const GL_SHADING_LANGUAGE_VERSION: int := 0x8B8C

  /** One call into GL (or into a GL wrapper of the core), as issued. */
  datatype GlCall =
    | Enable(cap: int)
    | Disable(cap: int)
    | CullFace(face: int)
    | Viewport(x: int, y: int, width: int, height: int)
    | BlendFuncSeparate(srcC: int, dstC: int, srcA: int, dstA: int)
    | BindFramebuffer(name: nat)
    | ResetFboAttachments(fbo: nat)
    | AttachRenderTarget(fbo: nat, tex: nat)
    | AttachZStencil(fbo: nat, zs: int)
      // A string query (`glGetString`), whose answer is only logged
    | GetString(pname: int)
      // Making the device's context current on this thread, and releasing it
    | EnterContext
    | LeaveContext
      // On a shader program object
    | CreateProgram
    | AttachShader(shader: nat)
    | DetachShader(shader: nat)
    | LinkProgram
    | GetLinkStatus
    | PrintLinkErrors
    | GetAttribLocation(attrib: string)
    | GetUniformLocation(uniform: string)
    | ClearTexParams
    | ClearAllParams
      // On a texture and its pixel unpack buffer
    | GenTexture
    | BindTexture(target: int)
    | InitFace(levels: int, texSize: int)
    | TexParamMaxLevel(level: int)
    | UnbindTexture(target: int)
    | GenBuffer
    | BufferData(target: int, bufSize: int, usage: int)
    | BindBuffer(target: int)
    | MapBuffer(target: int)
    | UnbindBuffer(target: int)
      // Buffer objects of a vertex buffer
    | CreateBuffer(target: int, size: int, usage: int)
    | GenVertexArray
}
