// The graphics subsystem: the effect registry built from the built-in
// shader text, the thread's current-subsystem reference count, the
// viewport and matrix stacks, blend state, and the sprite-draw guard.
module Subsystem {
  import opened Common
  import opened GlApi
  import opened GsSubsystemInfo
  import opened GsDevice
  import opened SubsystemText
  import opened ShaderDescriptor

  /** `n` copies of `c`. */
  function Run(c: char, n: nat): (r: string)
    ensures |r| == n && forall k :: 0 <= k < n ==> r[k] == c
  {
    if n == 0 then [] else Run(c, n - 1) + [c]
  }

  /** The separator between the entries of the effect text: 39 '='. */
  const ENTRY_SEP: string := Run('=', 39)

  /** A 4x4 matrix, by its cells; only identity is ever built here. */
  datatype Mat4 = Mat4(cells: seq<real>)
  const IDENTITY: Mat4 := Mat4([1.0, 0.0, 0.0, 0.0, 0.0, 1.0, 0.0, 0.0, 0.0, 0.0, 1.0, 0.0, 0.0, 0.0, 0.0, 1.0])

  datatype BlendState = BlendState(enabled: bool, srcC: BlendType, destC: BlendType, srcA: BlendType, destA: BlendType)

  /** The blend state `graphics_init` establishes: premultiplied-style alpha
      blending of colour, additive-over for alpha. */
  const INIT_BLEND: BlendState := BlendState(true, BlendSrcAlpha, BlendInvSrcAlpha, BlendOne, BlendInvSrcAlpha)

  /** A linked effect program, registered under its name. */
  datatype Effect = Effect(name: string, vertex: Shader, pixel: Shader)

  /** How a call ended: it returned a value, or an exception escaped it. */
  datatype Completion = Returned(value: bool) | Raised

  /** One (vertex, pixel) entry pair: its program, or how it failed. */
  datatype PairResult = PairOk(effect: Effect) | PairFailed | PairThrew

  /** What reading one shader entry yields, given its text and whether it
      is the vertex shader: `shader_from_string`. */
  type Reader = (string, bool) -> Outcome<Shader>

  /** The reader `init_effect` uses: `ShaderDescriptor.ShaderSpec`, which
      `ShaderDescriptor.ShaderFromString` is proved to compute. */
  function ShaderReader(compiles: ShaderInfo -> bool): Reader
  {
    (entry, vertexShader) => ShaderSpec(entry, vertexShader, compiles)
  }

  /** The body of `init_effect`'s loop for one pair. Both shaders are read
      before either result is looked at, so an exception from either one
      escapes; `links` stands for `gs_program_create`. */
  function PairStep(v: string, p: string, parse: Reader, links: (Shader, Shader) -> bool): PairResult
  {
    var vs := parse(v, true);
    if vs == Failed(Threw) then PairThrew
    else
      var ps := parse(p, false);
      if ps == Failed(Threw) then PairThrew
      else if vs.Made? && ps.Made? && links(vs.value, ps.value) then
        PairOk(Effect(ps.value.name, vs.value, ps.value))
      else PairFailed
  }

  /** `std::map::insert`: an existing key keeps its entry. */
  function Register(m: map<string, Effect>, e: Effect): (r: map<string, Effect>)
    ensures e.name in r && r.Keys == m.Keys + {e.name}
    ensures forall k :: k in m ==> r[k] == m[k]
  {
    if e.name in m then m else m[e.name := e]
  }

  /** The registry and result of `init_effect`'s loop from the pair at
      index `i` on, with registry `m` so far. */
  function InitFrom(strs: seq<string>, i: nat, parse: Reader, links: (Shader, Shader) -> bool,
                    m: map<string, Effect>): (map<string, Effect>, Completion)
    decreases |strs| - i
  {
    if i + 2 > |strs| then (m, Returned(true))
    else
      match PairStep(strs[i], strs[i + 1], parse, links)
      case PairThrew => (m, Raised)
      case PairFailed => (m, Returned(false))
      case PairOk(e) => InitFrom(strs, i + 2, parse, links, Register(m, e))
  }

  /** The entries of the effect text: newlines removed, cut at the entry
      separator. */
  function Entries(total: string): seq<string>
  {
    SplitSpec(Strip(total, '\n'), ENTRY_SEP)
  }

  /** What `init_effect` leaves in the registry, and what it returns. */
  function InitEffectSpec(total: string, parse: Reader, links: (Shader, Shader) -> bool,
                          m0: map<string, Effect>): (map<string, Effect>, Completion)
  {
    InitFrom(Entries(total), 0, parse, links, m0)
  }

  /** Registration never replaces an existing entry, and every new key
      is the name of the program some pair produced. */
  lemma {:induction false} InitKeepsEntries(strs: seq<string>, i: nat, parse: Reader,
                                            links: (Shader, Shader) -> bool, m0: map<string, Effect>)
    ensures var m := InitFrom(strs, i, parse, links, m0).0;
      m0.Keys <= m.Keys && (forall n :: n in m0 ==> m[n] == m0[n])
      && forall n :: n in m && n !in m0 ==>
           n == m[n].name && exists j :: i <= j && j + 1 < |strs| && PairStep(strs[j], strs[j + 1], parse, links) == PairOk(m[n])
    decreases |strs| - i
  {
    if i + 2 <= |strs| {
      var r := PairStep(strs[i], strs[i + 1], parse, links);
      if r.PairOk? {
        var m1 := Register(m0, r.effect);
        InitKeepsEntries(strs, i + 2, parse, links, m1);
        var m := InitFrom(strs, i, parse, links, m0).0;
        forall n | n in m && n !in m0
          ensures n == m[n].name
            && exists j :: i <= j && j + 1 < |strs| && PairStep(strs[j], strs[j + 1], parse, links) == PairOk(m[n])
        {
          if n in m1 {
            assert n == r.effect.name && m[n] == m1[n] == r.effect;
          }
        }
      }
    }
  }

  /** When the loop runs to its end, every pair produced a program and each
      program's name is registered (the first pair of a name keeps it). */
  lemma {:induction false} InitRegistersAll(strs: seq<string>, i: nat, parse: Reader,
                                            links: (Shader, Shader) -> bool, m0: map<string, Effect>)
    requires i % 2 == 0
    requires InitFrom(strs, i, parse, links, m0).1 == Returned(true)
    ensures forall j :: i <= j && j + 1 < |strs| && j % 2 == 0 ==>
      PairStep(strs[j], strs[j + 1], parse, links).PairOk?
      && PairStep(strs[j], strs[j + 1], parse, links).effect.name in InitFrom(strs, i, parse, links, m0).0
    decreases |strs| - i
  {
    if i + 2 <= |strs| {
      var r := PairStep(strs[i], strs[i + 1], parse, links);
      assert r.PairOk?;
      var m1 := Register(m0, r.effect);
      InitRegistersAll(strs, i + 2, parse, links, m1);
      InitKeepsEntries(strs, i + 2, parse, links, m1);
    }
  }

  /** The loop stops at the first pair that fails: what later pairs hold
      makes no difference. */
  lemma StopAtFailure(strs: seq<string>, i: nat, parse: Reader, links: (Shader, Shader) -> bool,
                      m: map<string, Effect>)
    requires i + 2 <= |strs| && !PairStep(strs[i], strs[i + 1], parse, links).PairOk?
    ensures InitFrom(strs, i, parse, links, m).0 == m
    ensures InitFrom(strs, i, parse, links, m).1
         == (if PairStep(strs[i], strs[i + 1], parse, links).PairThrew? then Raised else Returned(false))
  {
  }

  /** A registered program's name is its pixel shader's name, and it holds
      the two shaders read. */
  lemma PairNamedByPixel(v: string, p: string, parse: Reader, links: (Shader, Shader) -> bool)
    requires PairStep(v, p, parse, links).PairOk?
    ensures parse(v, true).Made? && parse(p, false).Made? && links(parse(v, true).value, parse(p, false).value)
    ensures PairStep(v, p, parse, links).effect
         == Effect(parse(p, false).value.name, parse(v, true).value, parse(p, false).value)
  {
  }

  /** An exception from the vertex shader's text means the pair fails with
      it whatever the pixel shader's text says; a missing vertex shader
      does not stop the pixel shader from being read. */
  lemma VertexThrowFirst(v: string, p: string, parse: Reader, links: (Shader, Shader) -> bool)
    ensures parse(v, true) == Failed(Threw) ==> PairStep(v, p, parse, links) == PairThrew
    ensures parse(v, true) == Failed(NullShader) ==>
      PairStep(v, p, parse, links) == (if parse(p, false) == Failed(Threw) then PairThrew else PairFailed)
  {
  }

  /** The loop of `init_effect` over the (vertex, pixel) pairs. */
  method RunPairs(strs: seq<string>, parse: Reader, links: (Shader, Shader) -> bool,
                  m0: map<string, Effect>) returns (m: map<string, Effect>, r: Completion)
    requires |strs| % 2 == 0
    ensures (m, r) == InitFrom(strs, 0, parse, links, m0)
  {
    m := m0;
    var i := 0;
    while i < |strs|
      invariant 0 <= i <= |strs| && i % 2 == 0
      invariant InitFrom(strs, i, parse, links, m) == InitFrom(strs, 0, parse, links, m0)
    {
      var vertexShader := parse(strs[i], true);
      var pixelShader := parse(strs[i + 1], false);
      if vertexShader == Failed(Threw) || pixelShader == Failed(Threw) {
        return m, Raised;
      }
      if vertexShader.Made? && pixelShader.Made? {
        var name := pixelShader.value.name;
        if links(vertexShader.value, pixelShader.value) {
          if name !in m {
            m := m[name := Effect(name, vertexShader.value, pixelShader.value)];
          }
        } else {
          return m, Returned(false);
        }
      } else {
        return m, Returned(false);
      }
      i := i + 2;
    }
    r := Returned(true);
  }

  /** Cutting the effect text into its entries. */
  method ReadEntries(total: string) returns (strs: seq<string>)
    ensures strs == Entries(total)
  {
    var text := Strip(total, '\n');
    strs := Split(text, ENTRY_SEP);
  }

  class GraphicsSubsystem {
    var device: Device?
    var viewportStack: seq<Rect>
    var matrixStack: seq<Mat4>
    var spriteBuffer: Option<BufRef>
    var effects: map<string, Effect>
    var curBlend: BlendState
    /** `ref` of the private data: how many entries into this context are
        outstanding. */
    var ref: nat
    /** The recursive mutex is held and the device context entered. */
    var locked: bool

    constructor ()
      ensures device == null && viewportStack == [] && matrixStack == [] && spriteBuffer.None?
      ensures effects == map[] && ref == 0 && !locked
      ensures curBlend == BlendState(false, BlendZero, BlendZero, BlendZero, BlendZero)
    {
      device := null;
      viewportStack, matrixStack := [], [];
      spriteBuffer := None;
      effects := map[];
      curBlend := BlendState(false, BlendZero, BlendZero, BlendZero, BlendZero);
      ref := 0;
      locked := false;
    }

    /** `gs_get_effect_by_name`. */
    function GetEffectByName(name: string): (r: Option<Effect>)
      reads this
      ensures r.Some? <==> name in effects
      ensures r.Some? ==> r.value == effects[name]
    {
      if name in effects then Some(effects[name]) else None
    }

    /** `init_effect`. The effect text is a parameter; its entries are
        read two at a time, so their count must be even. */
    method InitEffect(total: string, parse: Reader, links: (Shader, Shader) -> bool)
      returns (r: Completion)
      requires |Entries(total)| % 2 == 0
      modifies this`effects
      ensures (effects, r) == InitEffectSpec(total, parse, links, old(effects))
    {
      var strs := ReadEntries(total);
      effects, r := RunPairs(strs, parse, links, effects);
    }

    /** `graphics_init`. `dev` is what `gs_create_device` returned,
        `spriteVb` what `init_sprite_vb` built, and `parse` the shader
        reader, which in the program is `ShaderReader(compiles)` with
        `compiles` what the GL compiler makes of each shader. */
    method GraphicsInit(dev: Device?, spriteVb: Option<BufRef>, total: string,
                        parse: Reader, links: (Shader, Shader) -> bool) returns (r: Completion)
      requires dev != null ==> dev.Valid()
      requires |Entries(total)| % 2 == 0
      modifies this`device, this`matrixStack, this`spriteBuffer, this`effects, this`curBlend, dev
      ensures device == dev
      ensures dev == null ==> r == Returned(false) && unchanged(this`matrixStack, this`spriteBuffer, this`effects, this`curBlend)
      ensures dev != null ==> matrixStack == old(matrixStack) + [IDENTITY]
      ensures dev != null && spriteVb.None? ==>
        r == Returned(false) && spriteBuffer == old(spriteBuffer) && effects == old(effects) && curBlend == old(curBlend)
      ensures dev != null && spriteVb.Some? ==>
        spriteBuffer == spriteVb && (effects, r) == InitEffectSpec(total, parse, links, old(effects))
      ensures dev != null && spriteVb.Some? ==> curBlend == if r == Returned(true) then INIT_BLEND else old(curBlend)
      ensures dev != null ==> dev.Valid() && dev.trace == old(dev.trace) + InitCalls(r)
      ensures dev != null ==>
        unchanged(dev`renderTarget, dev`zstencil, dev`curFbo, dev`textures, dev`vertexBuffer,
                  dev`indexBuffer, dev`cullMode, dev`viewport, dev`program)
    {
      device := dev;
      if dev == null {
        return Returned(false);
      }
      matrixStack := matrixStack + [IDENTITY];
      r := InitWithDevice(dev, spriteVb, total, parse, links);
    }

    /** `graphics_init` once the device exists and the identity is on the
        matrix stack: the rest runs inside the device context, which is
        left again unless an exception escaped. */
    method InitWithDevice(dev: Device, spriteVb: Option<BufRef>, total: string,
                          parse: Reader, links: (Shader, Shader) -> bool) returns (r: Completion)
      requires dev.Valid()
      requires |Entries(total)| % 2 == 0
      modifies this`spriteBuffer, this`effects, this`curBlend, dev`trace
      ensures spriteVb.None? ==>
        r == Returned(false) && spriteBuffer == old(spriteBuffer) && effects == old(effects) && curBlend == old(curBlend)
      ensures spriteVb.Some? ==>
        spriteBuffer == spriteVb && (effects, r) == InitEffectSpec(total, parse, links, old(effects))
      ensures spriteVb.Some? ==> curBlend == if r == Returned(true) then INIT_BLEND else old(curBlend)
      ensures dev.Valid() && dev.trace == old(dev.trace) + InitCalls(r)
    {
      ghost var t0 := dev.trace;
      dev.AppendCall(EnterContext);
      ghost var t1 := dev.trace;
      r := InitInContext(dev, spriteVb, total, parse, links);
      ghost var t2 := dev.trace;
      if r != Raised {
        dev.AppendCall(LeaveContext);
      }
      InitTrace(t0, t1, t2, dev.trace, r);
    }

    /** The part of `graphics_init` run inside the device context: the
        effects are loaded only when the sprite buffer exists. */
    method InitInContext(dev: Device, spriteVb: Option<BufRef>, total: string,
                         parse: Reader, links: (Shader, Shader) -> bool) returns (r: Completion)
      requires dev.Valid()
      requires |Entries(total)| % 2 == 0
      modifies this`spriteBuffer, this`effects, this`curBlend, dev`trace
      ensures spriteVb.None? ==>
        r == Returned(false) && spriteBuffer == old(spriteBuffer) && effects == old(effects) && curBlend == old(curBlend)
      ensures spriteVb.Some? ==>
        spriteBuffer == spriteVb && (effects, r) == InitEffectSpec(total, parse, links, old(effects))
      ensures spriteVb.Some? ==> curBlend == if r == Returned(true) then INIT_BLEND else old(curBlend)
      ensures dev.Valid() && dev.trace == old(dev.trace) + BlendCalls(r)
    {
      r := Returned(false);
      if spriteVb.Some? {
        spriteBuffer := spriteVb;
        r := LoadEffects(dev, total, parse, links);
      }
    }

    /** Loading the effects and, when that succeeds, setting the blend
        function. */
    method LoadEffects(dev: Device, total: string, parse: Reader, links: (Shader, Shader) -> bool)
      returns (r: Completion)
      requires dev.Valid()
      requires |Entries(total)| % 2 == 0
      modifies this`effects, this`curBlend, dev`trace
      ensures (effects, r) == InitEffectSpec(total, parse, links, old(effects))
      ensures curBlend == if r == Returned(true) then INIT_BLEND else old(curBlend)
      ensures dev.Valid() && dev.trace == old(dev.trace) + BlendCalls(r)
    {
      r := InitEffect(total, parse, links);
      SetInitBlend(dev, r);
    }

    /** The blend function `graphics_init` sets once the effects loaded
        with result `r`. */
    method SetInitBlend(dev: Device, r: Completion)
      requires dev.Valid()
      modifies this`curBlend, dev`trace
      ensures curBlend == if r == Returned(true) then INIT_BLEND else old(curBlend)
      ensures dev.Valid() && dev.trace == old(dev.trace) + BlendCalls(r)
      ensures r == Returned(true) ==>
        curBlend.enabled
        && dev.trace == old(dev.trace) + [BlendFuncSeparate(ConvertBlendType(curBlend.srcC), ConvertBlendType(curBlend.destC),
                                                            ConvertBlendType(curBlend.srcA), ConvertBlendType(curBlend.destA))]
    {
      if r == Returned(true) {
        dev.BlendFunctionSeparate(BlendSrcAlpha, BlendInvSrcAlpha, BlendOne, BlendInvSrcAlpha);
        curBlend := INIT_BLEND;
      }
    }

    /** `gs_draw_sprite`: without a texture both sizes must be given.
        `drawn` tells whether the device draw got past its own check. */
    method DrawSprite(tex: Option<TexRef>, flip: int, width: int, height: int) returns (drawn: bool)
      requires device != null && spriteBuffer.Some?
      modifies device`vertexBuffer, device`indexBuffer
      ensures tex.None? && (width == 0 || height == 0) ==>
        !drawn && device.vertexBuffer == old(device.vertexBuffer) && device.indexBuffer == old(device.indexBuffer)
      ensures !(tex.None? && (width == 0 || height == 0)) ==>
        drawn && device.vertexBuffer == spriteBuffer && device.indexBuffer.None?
    {
      if tex.None? && (width == 0 || height == 0) {
        return false;
      }
      device.LoadVertexBuffer(spriteBuffer);
      device.LoadIndexBuffer(None);
      drawn := device.Draw(0);
    }
  }

  /** The blend function `graphics_init` sets once the effects loaded. */
  function BlendCalls(r: Completion): seq<GlCall>
  {
    if r == Returned(true)
    then [BlendFuncSeparate(GL_SRC_ALPHA, GL_ONE_MINUS_SRC_ALPHA, GL_ONE, GL_ONE_MINUS_SRC_ALPHA)]
    else []
  }

  /** The GL calls `graphics_init` issues inside the device context: it
      always enters, sets the blend function only on success, and leaves
      unless an exception escaped. */
  function InitCalls(r: Completion): seq<GlCall>
  {
    [EnterContext] + BlendCalls(r) + (if r == Raised then [] else [LeaveContext])
  }

  /** Entering, the calls made inside, and leaving unless an exception
      escaped add up to `InitCalls`. */
  lemma InitTrace(t0: seq<GlCall>, t1: seq<GlCall>, t2: seq<GlCall>, t3: seq<GlCall>, r: Completion)
    requires t1 == t0 + [EnterContext] && t2 == t1 + BlendCalls(r)
    requires t3 == if r == Raised then t2 else t2 + [LeaveContext]
    ensures t3 == t0 + InitCalls(r)
  {
  }

  /** The calling thread's view of the graphics context: `thread_graphics`
      and the operations that act on it. The recursive mutex is modelled
      by the `locked` flag alone. */
  class ThreadState {
    var current: GraphicsSubsystem?

    /** The current subsystem, if any, is entered at least once, holds its
        lock and has a working device. */
    ghost predicate Valid()
      reads this, current, if current != null then {current.device} else {}
    {
      current != null ==>
        current.ref >= 1 && current.locked && current.device != null && current.device.Valid()
    }

    constructor ()
      ensures current == null && Valid() && !InContext()
    {
      current := null;
    }

    /** `gs_valid`. */
    predicate InContext()
      reads this
    {
      current != null
    }

    /** `gs_leave_context`: a no-op outside a context; otherwise one entry
        fewer, and the last one leaves the device context, unlocks and
        clears the current subsystem. */
    method Leave()
      requires Valid()
      modifies this, current, if current != null then {current.device} else {}
      ensures Valid()
      ensures InContext() <==> old(current) != null && old(current.ref) > 1
      ensures old(current) == null ==> current == null
      ensures old(current) != null ==>
        old(current).ref == old(current.ref) - 1 && old(current).device == old(current.device)
      ensures old(current) != null && old(current.ref) == 1 ==>
        current == null && !old(current).locked
        && old(current.device).trace == old(current.device.trace) + [LeaveContext]
      ensures old(current) != null && old(current.ref) > 1 ==>
        current == old(current) && current.locked && current.device.trace == old(current.device.trace)
      ensures old(current) != null ==>
        var g := old(current);
        unchanged(g`device, g`viewportStack, g`matrixStack, g`spriteBuffer, g`effects, g`curBlend)
        && unchanged(g.device`renderTarget, g.device`zstencil, g.device`curFbo, g.device`textures, g.device`vertexBuffer,
                     g.device`indexBuffer, g.device`cullMode, g.device`viewport, g.device`program)
    {
      if current != null {
        current.ref := current.ref - 1;
        if current.ref == 0 {
          current.device.AppendCall(LeaveContext);
          current.locked := false;
          current := null;
        }
      }
    }

    /** `gs_enter_contex`: entering the current subsystem again only counts
        the entry; entering another one first leaves the current one as
        often as it was entered, then locks and enters the new one. */
    method Enter(g: GraphicsSubsystem)
      requires Valid() && g.device != null && g.device.Valid()
      requires current != g ==> !g.locked
      requires current != null && current != g ==> current.device != g.device
      modifies this, g, g.device, current, if current != null then {current.device} else {}
      ensures Valid() && InContext() && current == g && g.locked && g.device == old(g.device)
      ensures g.ref == old(g.ref) + 1
      ensures old(current) == g ==> g.device.trace == old(g.device.trace)
      ensures old(current) != g ==> g.device.trace == old(g.device.trace) + [EnterContext]
      ensures old(current) != null && old(current) != g ==>
        old(current).ref == 0 && !old(current).locked
        && old(current.device).trace == old(current.device.trace) + [LeaveContext]
      ensures unchanged(g`viewportStack, g`matrixStack, g`spriteBuffer, g`effects, g`curBlend)
      ensures unchanged(g.device`renderTarget, g.device`zstencil, g.device`curFbo, g.device`textures, g.device`vertexBuffer,
                        g.device`indexBuffer, g.device`cullMode, g.device`viewport, g.device`program)
      ensures old(current) != null && old(current) != g ==>
        var o := old(current);
        unchanged(o`device, o`viewportStack, o`matrixStack, o`spriteBuffer, o`effects, o`curBlend)
        && unchanged(o.device`renderTarget, o.device`zstencil, o.device`curFbo, o.device`textures, o.device`vertexBuffer,
                     o.device`indexBuffer, o.device`cullMode, o.device`viewport, o.device`program)
    {
      var isCurrent := current == g;
      if current != null && !isCurrent {
        ghost var other := current;
        ghost var otherDevice := current.device;
        while current != null
          invariant Valid() && (current == null || current == other)
          invariant other.device == otherDevice && g.ref == old(g.ref) && g.device == old(g.device) && !g.locked
          invariant g.device.trace == old(g.device.trace) && g.device.Valid()
          invariant current != null ==> otherDevice.trace == old(otherDevice.trace)
          invariant current == null ==> other.ref == 0 && !other.locked && otherDevice.trace == old(otherDevice.trace) + [LeaveContext]
          invariant unchanged(g`viewportStack, g`matrixStack, g`spriteBuffer, g`effects, g`curBlend)
          invariant unchanged(g.device`renderTarget, g.device`zstencil, g.device`curFbo, g.device`textures, g.device`vertexBuffer,
                              g.device`indexBuffer, g.device`cullMode, g.device`viewport, g.device`program)
          invariant unchanged(other`device, other`viewportStack, other`matrixStack, other`spriteBuffer, other`effects, other`curBlend)
          invariant unchanged(otherDevice`renderTarget, otherDevice`zstencil, otherDevice`curFbo, otherDevice`textures,
                              otherDevice`vertexBuffer, otherDevice`indexBuffer, otherDevice`cullMode, otherDevice`viewport,
                              otherDevice`program)
          decreases if current == null then 0 else current.ref
        {
          Leave();
        }
      }
      if !isCurrent {
        g.locked := true;
        g.device.AppendCall(EnterContext);
        current := g;
      }
      g.ref := g.ref + 1;
    }

    /** `gs_set_render_size`: depth test off, no culling, and a viewport of
        the given size at the origin (the orthographic projection is
        floating point and is not modelled). */
    method SetRenderSize(width: uint32, height: uint32)
      requires Valid()
      modifies if current != null then {current.device} else {}
      ensures Valid()
      ensures current != null ==>
        var d := current.device;
        d.cullMode == CullNeither && d.viewport == Rect(0, 0, ToInt32(width), ToInt32(height))
        && d.trace == old(d.trace) + [Disable(GL_DEPTH_TEST)] + CullCalls(old(d.cullMode), CullNeither)
           + [Viewport(0, GlViewportY(d.TargetHeight(), 0, ToInt32(height)), ToInt32(width), ToInt32(height))]
      ensures current != null ==>
        unchanged(current) && unchanged(current.device`renderTarget, current.device`zstencil, current.device`curFbo, current.device`textures, current.device`vertexBuffer, current.device`indexBuffer, current.device`program)
    {
      if current == null {
        return;
      }
      var d := current.device;
      d.AppendCall(Disable(GL_DEPTH_TEST));
      d.SetCullMode(CullNeither);
      d.SetViewport(0, 0, ToInt32(width), ToInt32(height));
    }

    /** `gs_technique_end`: with a program set on the device, its texture
        and other parameters are cleared, the texture units emptied and the
        program unset. */
    method TechniqueEnd()
      requires Valid()
      modifies if current != null then {current.device} else {}
      ensures Valid()
      ensures current != null && old(current.device.program).None? ==> current.device.trace == old(current.device.trace)
      ensures current != null && old(current.device.program).Some? ==>
        current.device.program.None? && current.device.textures == seq(GS_MAX_TEXTURES, _ => None)
        && current.device.trace == old(current.device.trace) + [ClearTexParams, ClearAllParams]
      ensures current != null && old(current.device.program).None? ==> unchanged(current.device)
      ensures current != null ==>
        unchanged(current) && unchanged(current.device`renderTarget, current.device`zstencil, current.device`curFbo, current.device`vertexBuffer, current.device`indexBuffer, current.device`cullMode, current.device`viewport)
    {
      if current == null {
        return;
      }
      var d := current.device;
      if d.program.None? {
        return;
      }
      d.EndProgram();
    }

    /** `gs_enable_depth_test`. */
    method EnableDepthTest(enable: bool)
      requires Valid()
      modifies if current != null then {current.device} else {}
      ensures Valid()
      ensures current != null ==>
        current.device.trace == old(current.device.trace) + [if enable then Enable(GL_DEPTH_TEST) else Disable(GL_DEPTH_TEST)]
      ensures current != null ==>
        unchanged(current) && unchanged(current.device`renderTarget, current.device`zstencil, current.device`curFbo, current.device`textures, current.device`vertexBuffer, current.device`indexBuffer, current.device`cullMode, current.device`viewport, current.device`program)
    {
      if current != null {
        current.device.AppendCall(if enable then Enable(GL_DEPTH_TEST) else Disable(GL_DEPTH_TEST));
      }
    }

    /** `gs_enable_blending`: the flag is recorded and GL told. */
    method EnableBlending(enable: bool)
      requires Valid()
      modifies current, if current != null then {current.device} else {}
      ensures Valid()
      ensures current != null ==>
        current.curBlend == old(current.curBlend).(enabled := enable)
        && current.device.trace == old(current.device.trace) + [if enable then Enable(GL_BLEND) else Disable(GL_BLEND)]
      ensures current != null ==>
        unchanged(current`device, current`viewportStack, current`matrixStack, current`spriteBuffer, current`effects, current`ref, current`locked)
        && unchanged(current.device`renderTarget, current.device`zstencil, current.device`curFbo, current.device`textures, current.device`vertexBuffer, current.device`indexBuffer, current.device`cullMode, current.device`viewport, current.device`program)
    {
      if current != null {
        current.curBlend := current.curBlend.(enabled := enable);
        current.device.AppendCall(if enable then Enable(GL_BLEND) else Disable(GL_BLEND));
      }
    }

    /** `gs_viewport_push`: the device's viewport goes on the stack. */
    method ViewportPush()
      requires Valid()
      modifies current
      ensures Valid()
      ensures current != null ==> current.viewportStack == old(current.viewportStack) + [current.device.viewport]
      ensures current != null ==>
        unchanged(current`device, current`matrixStack, current`spriteBuffer, current`effects, current`curBlend, current`ref, current`locked) && unchanged(current.device)
    {
      if current != null {
        current.viewportStack := current.viewportStack + [current.device.GetViewport()];
      }
    }

    /** `gs_viewport_pop`: nothing on an empty stack; otherwise the last
        rectangle pushed is removed and applied again. */
    method ViewportPop()
      requires Valid()
      modifies current, if current != null then {current.device} else {}
      ensures Valid()
      ensures current != null && old(current.viewportStack) == [] ==>
        current.viewportStack == [] && current.device.trace == old(current.device.trace)
      ensures current != null && old(current.viewportStack) != [] ==>
        var rect := old(current.viewportStack)[|old(current.viewportStack)| - 1];
        current.viewportStack == old(current.viewportStack)[..|old(current.viewportStack)| - 1]
        && current.device.viewport == rect
        && current.device.trace == old(current.device.trace)
           + [Viewport(rect.x, GlViewportY(current.device.TargetHeight(), rect.y, rect.cy), rect.cx, rect.cy)]
      ensures current != null && old(current.viewportStack) == [] ==> unchanged(current) && unchanged(current.device)
      ensures current != null ==>
        unchanged(current`device, current`matrixStack, current`spriteBuffer, current`effects, current`curBlend, current`ref, current`locked)
        && unchanged(current.device`renderTarget, current.device`zstencil, current.device`curFbo, current.device`textures, current.device`vertexBuffer, current.device`indexBuffer, current.device`cullMode, current.device`program)
    {
      if current == null || current.viewportStack == [] {
        return;
      }
      var stack := current.viewportStack;
      var rect := stack[|stack| - 1];
      current.viewportStack := stack[..|stack| - 1];
      current.device.SetViewport(rect.x, rect.y, rect.cx, rect.cy);
    }

    /** `gs_matrix_push`: the top matrix is duplicated. The stack must not
        be empty, as the source reads its top unchecked. */
    method MatrixPush()
      requires Valid() && (current != null ==> current.matrixStack != [])
      modifies current
      ensures Valid()
      ensures current != null ==>
        current.matrixStack == old(current.matrixStack) + [old(current.matrixStack)[|old(current.matrixStack)| - 1]]
      ensures current != null ==>
        unchanged(current`device, current`viewportStack, current`spriteBuffer, current`effects, current`curBlend, current`ref, current`locked) && unchanged(current.device)
    {
      if current != null {
        var stack := current.matrixStack;
        current.matrixStack := stack + [stack[|stack| - 1]];
      }
    }

    /** `gs_matrix_pop`: an empty stack is left alone. */
    method MatrixPop()
      requires Valid()
      modifies current
      ensures Valid()
      ensures current != null ==>
        current.matrixStack == if old(current.matrixStack) == [] then []
                               else old(current.matrixStack)[..|old(current.matrixStack)| - 1]
      ensures current != null ==>
        unchanged(current`device, current`viewportStack, current`spriteBuffer, current`effects, current`curBlend, current`ref, current`locked) && unchanged(current.device)
    {
      if current != null && current.matrixStack != [] {
        var stack := current.matrixStack;
        current.matrixStack := stack[..|stack| - 1];
      }
    }

    /** `gs_matrix_identity`: the top matrix becomes the identity; an empty
        stack is left alone. */
    method MatrixIdentity()
      requires Valid()
      modifies current
      ensures Valid()
      ensures current != null ==>
        current.matrixStack == if old(current.matrixStack) == [] then []
                               else old(current.matrixStack)[..|old(current.matrixStack)| - 1] + [IDENTITY]
      ensures current != null ==>
        unchanged(current`device, current`viewportStack, current`spriteBuffer, current`effects, current`curBlend, current`ref, current`locked) && unchanged(current.device)
    {
      if current != null && current.matrixStack != [] {
        var stack := current.matrixStack;
        current.matrixStack := stack[..|stack| - 1] + [IDENTITY];
      }
    }
  }

  /** A matrix push followed by a pop leaves the current subsystem as it
      was. */
  method MatrixPushThenPop(ts: ThreadState)
    requires ts.Valid() && (ts.current != null ==> ts.current.matrixStack != [])
    modifies ts.current
    ensures ts.Valid() && ts.current == old(ts.current)
    ensures ts.current != null ==>
      var g := ts.current;
      unchanged(g`device, g`viewportStack, g`matrixStack, g`spriteBuffer, g`effects, g`curBlend, g`ref, g`locked) && unchanged(g.device)
  {
    ghost var before := if ts.current != null then ts.current.matrixStack else [];
    ts.MatrixPush();
    ghost var pushed := if ts.current != null then ts.current.matrixStack else [];
    ts.MatrixPop();
    if ts.current != null {
      assert pushed[..|pushed| - 1] == before;
    }
  }

  /** A viewport push followed by a pop leaves the current subsystem and the
      device's viewport as they were; GL is given the same viewport again. */
  method ViewportPushThenPop(ts: ThreadState)
    requires ts.Valid()
    modifies ts.current, if ts.current != null then {ts.current.device} else {}
    ensures ts.Valid() && ts.current == old(ts.current)
    ensures ts.current != null ==>
      var g := ts.current;
      var d := g.device;
      unchanged(g`device, g`viewportStack, g`matrixStack, g`spriteBuffer, g`effects, g`curBlend, g`ref, g`locked)
      && unchanged(d`renderTarget, d`zstencil, d`curFbo, d`textures, d`vertexBuffer,
                   d`indexBuffer, d`cullMode, d`viewport, d`program)
      && d.trace == old(d.trace) + [Viewport(d.viewport.x, GlViewportY(d.TargetHeight(), d.viewport.y, d.viewport.cy),
                                             d.viewport.cx, d.viewport.cy)]
  {
    ghost var before := if ts.current != null then ts.current.viewportStack else [];
    ts.ViewportPush();
    ghost var pushed := if ts.current != null then ts.current.viewportStack else [];
    ts.ViewportPop();
    if ts.current != null {
      assert pushed[..|pushed| - 1] == before;
    }
  }
}
