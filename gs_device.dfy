// The GL device's bound state: render target, depth-stencil buffer,
// framebuffer object, vertex and index buffers, cull mode and viewport.
// GL itself is an oracle (the booleans passed in) and a call trace.
module GsDevice {
  import opened Common
  import opened GlApi
  import opened GsSubsystemInfo

  /** `gs_cull_mode`, in the order of its declaration: value-initialised to
      GS_BACK. */
  datatype CullMode = CullBack | CullFront | CullNeither

  datatype Rect = Rect(x: int, y: int, cx: int, cy: int)

  /** A texture by identity, with the height it reports. */
  datatype TexRef = TexRef(id: nat, height: uint32)
  datatype ZsRef = ZsRef(id: nat)
  /** An `fbo_info`, with the GL name of its framebuffer. */
  datatype FboRef = FboRef(id: nat, name: nat)
  datatype BufRef = BufRef(id: nat)

  const GS_MAX_TEXTURES: nat := 8
  const INT32_MIN: int := -0x8000_0000
  const INT32_MAX: int := 0x7FFF_FFFF

  /** An unsigned 32-bit value converted to `int` (two's complement). */
  function ToInt32(u: int): (r: int)
    requires 0 <= u < TWO32
    ensures INT32_MIN <= r <= INT32_MAX
    ensures (r - u) % TWO32 == 0
  {
    if u > INT32_MAX then u - TWO32 else u
  }

  /** The GL (bottom-up) y of a top-down viewport: computed in `uint32_t`
      from the target height, and 0 without a target. */
  function GlViewportY(baseHeight: int, y: int, height: int): (r: int)
    requires 0 <= baseHeight < TWO32
    ensures baseHeight == 0 ==> r == 0
    ensures baseHeight != 0 && INT32_MIN <= baseHeight - y - height <= INT32_MAX ==>
      r == baseHeight - y - height && baseHeight - r - height == y
  {
    if baseHeight != 0 then ToInt32(U32(baseHeight - y - height)) else 0
  }

  function FaceOf(m: CullMode): int
  {
    if m == CullFront then GL_FRONT else GL_BACK
  }

  /** Whether GL face culling is on after the calls of `t` (off initially). */
  function CullEnabledIn(t: seq<GlCall>): bool
  {
    if |t| == 0 then false
    else
      var e := t[|t| - 1];
      if e == Enable(GL_CULL_FACE) then true
      else if e == Disable(GL_CULL_FACE) then false
      else CullEnabledIn(t[..|t| - 1])
  }

  /** The face GL culls after the calls of `t` (GL_BACK initially). */
  function CullFaceIn(t: seq<GlCall>): int
  {
    if |t| == 0 then GL_BACK
    else if t[|t| - 1].CullFace? then t[|t| - 1].face
    else CullFaceIn(t[..|t| - 1])
  }

  predicate TouchesCulling(e: GlCall)
  {
    e == Enable(GL_CULL_FACE) || e == Disable(GL_CULL_FACE) || e.CullFace?
  }

  /** A call that is not about culling leaves the culling state as it was. */
  lemma AppendNeutral(t: seq<GlCall>, e: GlCall)
    requires !TouchesCulling(e)
    ensures CullEnabledIn(t + [e]) == CullEnabledIn(t)
    ensures CullFaceIn(t + [e]) == CullFaceIn(t)
  {
    assert (t + [e])[..|t|] == t;
  }

  lemma AppendCull(t: seq<GlCall>, e: GlCall)
    ensures e == Enable(GL_CULL_FACE) ==> CullEnabledIn(t + [e]) && CullFaceIn(t + [e]) == CullFaceIn(t)
    ensures e == Disable(GL_CULL_FACE) ==> !CullEnabledIn(t + [e]) && CullFaceIn(t + [e]) == CullFaceIn(t)
    ensures e.CullFace? ==> CullEnabledIn(t + [e]) == CullEnabledIn(t) && CullFaceIn(t + [e]) == e.face
  {
    assert (t + [e])[..|t|] == t;
  }

  /** The GL calls that switch the cull mode from `from` to `to`: none for
      the same mode; leaving GS_NEITHER first enables culling; then the face
      is chosen, or culling disabled for GS_NEITHER. */
  function CullCalls(from: CullMode, to: CullMode): seq<GlCall>
  {
    if from == to then []
    else
      (if from == CullNeither then [Enable(GL_CULL_FACE)] else [])
      + (if to == CullBack then [CullFace(GL_BACK)]
         else if to == CullFront then [CullFace(GL_FRONT)]
         else [Disable(GL_CULL_FACE)])
  }

  /** Culling is on in GL exactly when the mode is not GS_NEITHER, and then
      GL culls the mode's face. */
  predicate CullAgrees(t: seq<GlCall>, m: CullMode)
  {
    (CullEnabledIn(t) <==> m != CullNeither) && (m != CullNeither ==> CullFaceIn(t) == FaceOf(m))
  }

  /** The calls of a mode switch take GL's culling state from agreeing with
      the old mode to agreeing with the new one. */
  lemma {:induction false} CullCallsAgree(t: seq<GlCall>, from: CullMode, to: CullMode)
    requires CullAgrees(t, from)
    ensures CullAgrees(t + CullCalls(from, to), to)
  {
    if from != to {
      var t1 := t + (if from == CullNeither then [Enable(GL_CULL_FACE)] else []);
      if from == CullNeither {
        AppendCull(t, Enable(GL_CULL_FACE));
      }
      var e := if to == CullBack then CullFace(GL_BACK)
               else if to == CullFront then CullFace(GL_FRONT)
               else Disable(GL_CULL_FACE);
      AppendCull(t1, e);
      assert t + CullCalls(from, to) == t1 + [e];
    } else {
      assert t + CullCalls(from, to) == t;
    }
  }

  /** `get_color_format_bits`. */
  function ColorFormatBits(f: ColorFormat): int
  {
    if f == RGBA then 32 else 0
  }

  /** `get_depth_format_bits`. */
  function DepthFormatBits(f: ZStencilFormat): int
  {
    match f
    case Z16 => 16
    case Z24S8 => 24
    case _ => 0
  }

  /** `get_stencil_format_bits`. */
  function StencilFormatBits(f: ZStencilFormat): int
  {
    if f == Z24S8 then 8 else 0
  }

  /** Only 32-bit RGBA output is supported; its bit count is its channel
      count times its channel width. Of the depth formats, only 16-bit depth
      and 24-bit depth with 8-bit stencil are supported. */
  lemma FormatBitsSupported(f: ColorFormat, z: ZStencilFormat)
    ensures ColorFormatBits(f) != 0 <==> f == RGBA
    ensures ColorFormatBits(f) != 0 ==> ColorFormatBits(f) == Channels(f) * ChannelBits(f)
    ensures DepthFormatBits(z) != 0 <==> z == Z16 || z == Z24S8
    ensures StencilFormatBits(z) != 0 <==> z == Z24S8
    ensures z == Z24S8 ==> DepthFormatBits(z) + StencilFormatBits(z) == 32
  {
  }

  /** The calls `set_current_fbo` makes when `cur` is stored and `fbo` is
      requested. */
  function FboSwitch(cur: Option<FboRef>, fbo: Option<FboRef>, bindOk: bool): seq<GlCall>
  {
    if fbo == cur then []
    else [BindFramebuffer(if fbo.Some? then fbo.value.name else 0)]
         + (if bindOk && cur.Some? then [ResetFboAttachments(cur.value.id)] else [])
  }

  /** With the stored FBO never set, releasing the render target never binds
      framebuffer 0, while every real FBO is bound again on each change and
      never has stale attachments reset. */
  lemma UnstoredFbo(fbo: FboRef, bindOk: bool)
    ensures FboSwitch(None, None, bindOk) == []
    ensures FboSwitch(None, Some(fbo), bindOk) == [BindFramebuffer(fbo.name)]
  {
  }

  /** The calls that binding a render texture makes: none without an FBO;
      otherwise the FBO switch, the colour attach and, when that worked, the
      depth-stencil attach. */
  function TargetCalls(cur: Option<FboRef>, fbo: Option<FboRef>, tex: TexRef, zs: Option<ZsRef>,
                       bindOk: bool, attachRtOk: bool): seq<GlCall>
  {
    if fbo.None? then []
    else
      FboSwitch(cur, fbo, bindOk) + [AttachRenderTarget(fbo.value.id, tex.id)]
      + (if attachRtOk then [AttachZStencil(fbo.value.id, if zs.Some? then zs.value.id else -1)] else [])
  }

  /** The GL calls of a successful `device_create`. */
  const CREATE_CALLS: seq<GlCall> :=
    [GetString(GL_VENDOR), GetString(GL_RENDERER), GetString(GL_VERSION), GetString(GL_SHADING_LANGUAGE_VERSION),
     Enable(GL_CULL_FACE), GenVertexArray, LeaveContext]

  /** After `device_create` GL culls back faces, as a new device's mode says. */
  lemma CreateCallsCull()
    ensures CullAgrees(CREATE_CALLS, CullBack)
  {
    var queries := [GetString(GL_VENDOR), GetString(GL_RENDERER), GetString(GL_VERSION), GetString(GL_SHADING_LANGUAGE_VERSION)];
    var t := [];
    assert !CullEnabledIn(t) && CullFaceIn(t) == GL_BACK;
    for i := 0 to |queries|
      invariant t == queries[..i]
      invariant !CullEnabledIn(t) && CullFaceIn(t) == GL_BACK
    {
      AppendNeutral(t, queries[i]);
      assert queries[..i + 1] == t + [queries[i]];
      t := t + [queries[i]];
    }
    assert t == queries;
    AppendCull(queries, Enable(GL_CULL_FACE));
    AppendNeutral(queries + [Enable(GL_CULL_FACE)], GenVertexArray);
    AppendNeutral(queries + [Enable(GL_CULL_FACE), GenVertexArray], LeaveContext);
    assert queries + [Enable(GL_CULL_FACE)] + [GenVertexArray] == queries + [Enable(GL_CULL_FACE), GenVertexArray];
    assert queries + [Enable(GL_CULL_FACE), GenVertexArray] + [LeaveContext] == CREATE_CALLS;
  }

  class Device {
    var renderTarget: Option<TexRef>
    var zstencil: Option<ZsRef>
    /** The FBO the device believes is bound. No statement ever stores into
        it (`set_current_fbo` assigns a local), so it stays empty. */
    var curFbo: Option<FboRef>
    var textures: seq<Option<TexRef>>
    var vertexBuffer: Option<BufRef>
    var indexBuffer: Option<BufRef>
    var cullMode: CullMode
    var viewport: Rect
    /** The program set on the device, by identity. The device's private
        data shown has no such field; the model assumes the one that
        `gs_device_set_program` and `gs_device_program` share. */
    var program: Option<nat>
    var trace: seq<GlCall>

    /** The device's view of culling agrees with GL's. */
    ghost predicate Valid()
      reads this
    {
      |textures| == GS_MAX_TEXTURES
      && CullAgrees(trace, cullMode)
    }

    /** A device once `device_create` succeeded: everything unbound. GL was
        asked for its vendor, renderer and versions (for the log), culling
        switched on, the empty vertex array generated and the context left
        again. */
    constructor ()
      ensures Valid() && curFbo.None?
      ensures renderTarget.None? && zstencil.None? && vertexBuffer.None? && indexBuffer.None?
      ensures program.None? && cullMode == CullBack && viewport == Rect(0, 0, 0, 0)
      ensures textures == seq(GS_MAX_TEXTURES, _ => None)
      ensures trace == CREATE_CALLS
    {
      renderTarget, zstencil, curFbo := None, None, None;
      textures := seq(GS_MAX_TEXTURES, _ => None);
      vertexBuffer, indexBuffer := None, None;
      cullMode := CullBack;
      viewport := Rect(0, 0, 0, 0);
      program := None;
      trace := CREATE_CALLS;
      new;
      CreateCallsCull();
    }

    /** `get_target_height`: 0 without a render target. */
    function TargetHeight(): (h: uint32)
      reads this
    {
      if renderTarget.None? then 0 else renderTarget.value.height
    }

    /** `can_render`. */
    predicate CanRender(numVerts: int)
      reads this
    {
      !(vertexBuffer.None? && numVerts == 0) && renderTarget.Some?
    }

    method AppendCall(e: GlCall)
      requires Valid() && !TouchesCulling(e)
      modifies this`trace
      ensures Valid() && trace == old(trace) + [e]
    {
      AppendNeutral(trace, e);
      trace := trace + [e];
    }

    /** `set_current_fbo`: binds (framebuffer 0 for none) only when the
        request differs from the stored FBO, then resets the old FBO's
        attachments; the stored FBO itself is never updated. */
    method SetCurrentFbo(fbo: Option<FboRef>, bindOk: bool) returns (ok: bool)
      requires Valid()
      modifies this`trace
      ensures Valid() && curFbo == old(curFbo)
      ensures ok == (fbo == curFbo || bindOk)
      ensures trace == old(trace) + FboSwitch(curFbo, fbo, bindOk)
    {
      var cur := curFbo;
      if cur != fbo {
        var name := if fbo.Some? then fbo.value.name else 0;
        AppendCall(BindFramebuffer(name));
        if !bindOk {
          return false;
        }
        if cur.Some? {
          AppendCall(ResetFboAttachments(cur.value.id));
        }
      }
      ok := true;
    }

    /** The part of `gs_device_set_render_target` after `get_fbo` found the
        texture's FBO: bind it, attach the texture, then the depth-stencil
        buffer (-1 for none), stopping at the first failed attach. */
    method AttachToFbo(fbo: FboRef, tex: TexRef, zs: Option<ZsRef>,
                       bindOk: bool, attachRtOk: bool, attachZsOk: bool) returns (ok: bool)
      requires Valid()
      modifies this`trace
      ensures Valid()
      ensures ok == (attachRtOk && attachZsOk)
      ensures trace == old(trace) + TargetCalls(curFbo, Some(fbo), tex, zs, bindOk, attachRtOk)
    {
      var _ := SetCurrentFbo(Some(fbo), bindOk);
      AppendCall(AttachRenderTarget(fbo.id, tex.id));
      if !attachRtOk {
        return false;
      }
      AppendCall(AttachZStencil(fbo.id, if zs.Some? then zs.value.id else -1));
      ok := attachZsOk;
    }

    /** `gs_device_set_render_target`. The GL outcomes come in as oracles:
        `fboOf` for `get_fbo`, and one boolean each for the framebuffer bind
        and the two attaches. */
    method SetRenderTarget(tex: Option<TexRef>, zs: Option<ZsRef>, fboOf: TexRef -> Option<FboRef>,
                           bindOk: bool, attachRtOk: bool, attachZsOk: bool) returns (ok: bool)
      requires Valid()
      modifies this`renderTarget, this`zstencil, this`trace
      ensures Valid()
      ensures old(renderTarget) == tex && old(zstencil) == zs ==>
        ok && trace == old(trace) && renderTarget == tex && zstencil == zs
      ensures renderTarget == tex && zstencil == zs
      ensures (old(renderTarget) != tex || old(zstencil) != zs) && tex.None? ==>
        ok == (curFbo.None? || bindOk) && trace == old(trace) + FboSwitch(curFbo, None, bindOk)
      ensures (old(renderTarget) != tex || old(zstencil) != zs) && tex.Some? ==>
        ok == (fboOf(tex.value).Some? && attachRtOk && attachZsOk)
        && trace == old(trace) + TargetCalls(curFbo, fboOf(tex.value), tex.value, zs, bindOk, attachRtOk)
    {
      if renderTarget == tex && zstencil == zs {
        return true;
      }
      renderTarget := tex;
      zstencil := zs;
      if tex.None? {
        ok := SetCurrentFbo(None, bindOk);
        return;
      }
      var fbo := fboOf(tex.value);
      if fbo.None? {
        return false;
      }
      ok := AttachToFbo(fbo.value, tex.value, zs, bindOk, attachRtOk, attachZsOk);
    }

    /** `gs_device_set_cull_mode`. */
    method SetCullMode(mode: CullMode)
      requires Valid()
      modifies this`cullMode, this`trace
      ensures Valid() && cullMode == mode
      ensures trace == old(trace) + CullCalls(old(cullMode), mode)
    {
      if cullMode == mode {
        return;
      }
      if cullMode == CullNeither {
        AppendCull(trace, Enable(GL_CULL_FACE));
        trace := trace + [Enable(GL_CULL_FACE)];
      }
      cullMode := mode;
      var e := if mode == CullBack then CullFace(GL_BACK)
               else if mode == CullFront then CullFace(GL_FRONT)
               else Disable(GL_CULL_FACE);
      AppendCull(trace, e);
      trace := trace + [e];
    }

    /** `gs_device_set_viewport`: GL gets the flipped y, the device keeps the
        rectangle as given. */
    method SetViewport(x: int, y: int, width: int, height: int)
      requires Valid()
      modifies this`viewport, this`trace
      ensures Valid() && viewport == Rect(x, y, width, height)
      ensures trace == old(trace) + [Viewport(x, GlViewportY(TargetHeight(), y, height), width, height)]
    {
      var baseHeight := TargetHeight();
      var glY := 0;
      if baseHeight != 0 {
        glY := ToInt32(U32(baseHeight - y - height));
      }
      assert glY == GlViewportY(baseHeight, y, height);
      AppendCall(Viewport(x, glY, width, height));
      viewport := Rect(x, y, width, height);
    }

    /** `gs_device_get_viewport`, which has no definition here: assumed to
        report the viewport `gs_device_set_viewport` stored. */
    function GetViewport(): (r: Rect)
      reads this
    {
      viewport
    }

    method LoadVertexBuffer(vb: Option<BufRef>)
      modifies this`vertexBuffer
      ensures vertexBuffer == vb
    {
      vertexBuffer := vb;
    }

    method LoadIndexBuffer(ib: Option<BufRef>)
      modifies this`indexBuffer
      ensures indexBuffer == ib
    {
      indexBuffer := ib;
    }

    /** `gs_device_draw` as it stands: only a missing vertex buffer stops it,
        and the rest of its body is commented out, so it changes nothing.
        `reached` tells whether it got past the check. */
    method Draw(numVerts: int) returns (reached: bool)
      ensures reached <==> vertexBuffer.Some?
    {
      reached := vertexBuffer.Some?;
    }

    /** `device_blend_function_separate`. */
    method BlendFunctionSeparate(srcC: BlendType, dstC: BlendType, srcA: BlendType, dstA: BlendType)
      requires Valid()
      modifies this`trace
      ensures Valid()
      ensures trace == old(trace) + [BlendFuncSeparate(ConvertBlendType(srcC), ConvertBlendType(dstC),
                                                       ConvertBlendType(srcA), ConvertBlendType(dstA))]
    {
      AppendCall(BlendFuncSeparate(ConvertBlendType(srcC), ConvertBlendType(dstC),
                                   ConvertBlendType(srcA), ConvertBlendType(dstA)));
    }

    /** `gs_device_clear_textures`, which has no definition here: assumed
        to unbind every texture unit, leaving GL untouched, as upstream
        OBS's `device_clear_textures` empties `cur_textures`. */
    method ClearTextures()
      requires Valid()
      modifies this`textures
      ensures Valid() && textures == seq(GS_MAX_TEXTURES, _ => None)
    {
      textures := seq(GS_MAX_TEXTURES, _ => None);
    }

    /** What `gs_technique_end` does with a program set: the program's
        texture and other parameters are cleared, the texture units emptied
        and the program unset. */
    method EndProgram()
      requires Valid()
      modifies this`trace, this`textures, this`program
      ensures Valid() && program.None? && textures == seq(GS_MAX_TEXTURES, _ => None)
      ensures trace == old(trace) + [ClearTexParams, ClearAllParams]
    {
      AppendCall(ClearTexParams);
      AppendCall(ClearAllParams);
      ClearTextures();
      SetProgram(None);
    }

    /** `gs_device_set_program`, which has no definition here: assumed to
        store the program for `gs_device_program` to return, with no GL
        call. */
    method SetProgram(p: Option<nat>)
      modifies this`program
      ensures program == p
    {
      program := p;
    }
  }

  /** Drawing does not consult `can_render`: with a vertex buffer and no
      render target the draw goes ahead though `can_render` says no. */
  lemma DrawIgnoresCanRender(d: Device, numVerts: int)
    requires d.vertexBuffer.Some? && d.renderTarget.None?
    ensures !d.CanRender(numVerts)
  {
  }

  /** `can_render` fails exactly without a render target, or without vertex
      buffer and vertex count. */
  lemma CanRenderCases(d: Device, numVerts: int)
    ensures d.renderTarget.None? ==> !d.CanRender(numVerts) && d.TargetHeight() == 0
    ensures d.vertexBuffer.None? && numVerts == 0 ==> !d.CanRender(numVerts)
    ensures d.renderTarget.Some? && (d.vertexBuffer.Some? || numVerts != 0) ==> d.CanRender(numVerts)
  {
  }
}
