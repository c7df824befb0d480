// A GL program object: links a vertex and a pixel shader, resolves the
// vertex shader's attribute locations and both shaders' uniform locations,
// and detaches the shaders again along the unwind path the link took.
module GsProgram {
  import opened Common
  import opened GlApi

  /** A shader parameter; `id` stands for the identity of the shared
      parameter object the program keeps a reference to. */
  datatype ParamRef = ParamRef(id: nat, name: string)

  /** What the program reads of a compiled shader: its GL name, its
      attribute names in declaration order and its parameters. */
  datatype GlShader = GlShader(obj: nat, attribs: seq<string>, params: seq<ParamRef>)

  /** A resolved uniform: its location and the parameter it feeds. */
  datatype ProgramParam = ProgramParam(obj: int, param: ParamRef)

  /** The GL driver as the program sees it: the name `glCreateProgram`
      hands out, whether each call succeeds, the link status and the
      locations the two lookups return (-1 for "not found"). */
  datatype ProgramGl = ProgramGl(
    name: nat,
    ok: GlCall -> bool,
    linked: bool,
    attribLoc: string -> int,
    uniformLoc: string -> int)

  /** The outcome of looking up one item. */
  datatype Lookup<T> = Failed | Skipped | Found(value: T)

  /** The outcome of looking up a list of items in order: what was found,
      whether every lookup went through, and the GL calls issued. */
  datatype Pass<T> = Pass(found: seq<T>, ok: bool, calls: seq<GlCall>)

  /** Looks the items up in order and stops after the first failed lookup. */
  function Resolve<X, T>(items: seq<X>, look: X -> Lookup<T>, call: X -> GlCall): Pass<T>
    decreases |items|
  {
    if |items| == 0 then Pass([], true, [])
    else
      var p := Resolve(items[..|items| - 1], look, call);
      var x := items[|items| - 1];
      if !p.ok then p
      else
        match look(x)
        case Failed => Pass(p.found, false, p.calls + [call(x)])
        case Skipped => Pass(p.found, true, p.calls + [call(x)])
        case Found(v) => Pass(p.found + [v], true, p.calls + [call(x)])
  }

  /** Reference definition: the values found for the items, in order. */
  function FoundValues<X, T>(items: seq<X>, look: X -> Lookup<T>): seq<T>
    decreases |items|
  {
    if |items| == 0 then []
    else
      FoundValues(items[..|items| - 1], look)
      + (match look(items[|items| - 1]) case Found(v) => [v] case _ => [])
  }

  /** Once a prefix has failed, the rest of the items are never looked at. */
  lemma {:induction false} ResolveStops<X, T>(items: seq<X>, k: nat, look: X -> Lookup<T>, call: X -> GlCall)
    requires k <= |items| && !Resolve(items[..k], look, call).ok
    ensures Resolve(items, look, call) == Resolve(items[..k], look, call)
    decreases |items|
  {
    if k < |items| {
      var init := items[..|items| - 1];
      assert init[..k] == items[..k];
      ResolveStops(init, k, look, call);
    } else {
      assert items[..k] == items;
    }
  }

  /** The calls issued are the lookups of a prefix of the items, in order;
      the pass succeeds exactly when no lookup fails, and otherwise it
      stops right after the first failing item. */
  lemma {:induction false} ResolveCalls<X, T>(items: seq<X>, look: X -> Lookup<T>, call: X -> GlCall)
    ensures var p := Resolve(items, look, call);
      && |p.calls| <= |items|
      && (forall j :: 0 <= j < |p.calls| ==> p.calls[j] == call(items[j]))
      && (p.ok <==> |p.calls| == |items| && forall j :: 0 <= j < |items| ==> !look(items[j]).Failed?)
      && (!p.ok ==> 0 < |p.calls| && look(items[|p.calls| - 1]).Failed?)
      && (forall j :: 0 <= j < |p.calls| - 1 ==> !look(items[j]).Failed?)
    decreases |items|
  {
    if |items| > 0 {
      var init := items[..|items| - 1];
      ResolveCalls(init, look, call);
      assert forall j :: 0 <= j < |init| ==> init[j] == items[j];
    }
  }

  /** What a pass found is what the reference definition finds in the
      items it looked at. */
  lemma {:induction false} ResolveFound<X, T>(items: seq<X>, look: X -> Lookup<T>, call: X -> GlCall)
    ensures var p := Resolve(items, look, call);
      |p.calls| <= |items| && p.found == FoundValues(items[..|p.calls|], look)
    decreases |items|
  {
    if |items| > 0 {
      var init := items[..|items| - 1];
      ResolveFound(init, look, call);
      var p := Resolve(init, look, call);
      assert init[..|p.calls|] == items[..|p.calls|];
      if p.ok {
        ResolveCalls(init, look, call);
        assert items[..|p.calls| + 1][..|p.calls|] == init;
        if look(items[|items| - 1]).Failed? {
          assert items[..|p.calls| + 1] == items;
        }
      }
    }
  }

  // --- Attribute and uniform lookups ---

  /** `assign_program_attrib`: a GL error or a missing attribute (-1) fails. */
  function AttribLookup(gl: ProgramGl): string -> Lookup<int>
  {
    (a: string) => if !gl.ok(GetAttribLocation(a)) || gl.attribLoc(a) == -1 then Failed else Found(gl.attribLoc(a))
  }

  /** `assign_program_param`: a GL error fails; a missing uniform (-1) is
      skipped and still counts as success. */
  function ParamLookup(gl: ProgramGl): ParamRef -> Lookup<ProgramParam>
  {
    (p: ParamRef) => if !gl.ok(GetUniformLocation(p.name)) then Failed
         else if gl.uniformLoc(p.name) == -1 then Skipped
         else Found(ProgramParam(gl.uniformLoc(p.name), p))
  }

  function AttribCall(a: string): GlCall { GetAttribLocation(a) }

  function ParamCall(p: ParamRef): GlCall { GetUniformLocation(p.name) }

  /** `assign_program_attribs` over the vertex shader's attribute names. */
  function AttribPass(names: seq<string>, gl: ProgramGl): Pass<int>
  {
    Resolve(names, AttribLookup(gl), AttribCall)
  }

  /** `assign_program_shader_params` over one shader's parameters. */
  function ParamPass(params: seq<ParamRef>, gl: ProgramGl): Pass<ProgramParam>
  {
    Resolve(params, ParamLookup(gl), ParamCall)
  }

  /** When no lookup skips, the values found are those of the items before
      the first failure, in order. */
  lemma {:induction false} ResolveNoSkip<X, T>(items: seq<X>, look: X -> Lookup<T>, call: X -> GlCall)
    requires forall j :: 0 <= j < |items| ==> !look(items[j]).Skipped?
    ensures var p := Resolve(items, look, call);
      && |p.found| <= |items|
      && (forall j :: 0 <= j < |p.found| ==> look(items[j]).Found? && p.found[j] == look(items[j]).value)
      && (p.ok ==> |p.found| == |items|)
      && (!p.ok ==> |p.found| < |items| && look(items[|p.found|]).Failed?)
    decreases |items|
  {
    if |items| > 0 {
      var init := items[..|items| - 1];
      assert forall j :: 0 <= j < |init| ==> init[j] == items[j];
      ResolveNoSkip(init, look, call);
    }
  }

  /** Attribute locations are appended in the attributes' order and the
      pass stops at the first attribute it cannot resolve. */
  lemma AttribsInOrder(names: seq<string>, gl: ProgramGl)
    ensures var p := AttribPass(names, gl);
      && |p.found| <= |names|
      && (forall j :: 0 <= j < |p.found| ==> p.found[j] == gl.attribLoc(names[j]) != -1)
      && (p.ok ==> |p.found| == |names|)
      && (!p.ok ==> |p.found| < |names| && AttribLookup(gl)(names[|p.found|]).Failed?)
  {
    ResolveNoSkip(names, AttribLookup(gl), AttribCall);
  }

  /** The attribute pass succeeds exactly when every attribute resolves. */
  lemma AttribPassOk(names: seq<string>, gl: ProgramGl)
    ensures AttribPass(names, gl).ok <==> forall j :: 0 <= j < |names| ==>
      gl.ok(GetAttribLocation(names[j])) && gl.attribLoc(names[j]) != -1
  {
    ResolveCalls(names, AttribLookup(gl), AttribCall);
  }

  /** An attribute whose location is -1 makes the attribute pass fail. */
  lemma MissingAttribFails(names: seq<string>, gl: ProgramGl, j: nat)
    requires j < |names| && gl.attribLoc(names[j]) == -1
    ensures !AttribPass(names, gl).ok
  {
    AttribPassOk(names, gl);
  }

  /** A uniform whose location is -1 is skipped: the lookup succeeds and
      nothing is appended. */
  lemma MissingUniformSkipped(params: seq<ParamRef>, p: ParamRef, gl: ProgramGl)
    requires ParamPass(params, gl).ok
    requires gl.ok(GetUniformLocation(p.name)) && gl.uniformLoc(p.name) == -1
    ensures ParamPass(params + [p], gl)
         == Pass(ParamPass(params, gl).found, true, ParamPass(params, gl).calls + [GetUniformLocation(p.name)])
  {
    assert (params + [p])[..|params|] == params;
  }

  /** A parameter pass succeeds exactly when every uniform lookup goes
      through, whatever the locations. */
  lemma ParamPassOk(params: seq<ParamRef>, gl: ProgramGl)
    ensures ParamPass(params, gl).ok <==> forall j :: 0 <= j < |params| ==> gl.ok(GetUniformLocation(params[j].name))
  {
    ResolveCalls(params, ParamLookup(gl), ParamCall);
  }

  /** The entries a parameter pass appends are the parameters with a
      location, in order, each with the location found for it, never -1. */
  lemma ParamPassFound(params: seq<ParamRef>, gl: ProgramGl)
    ensures var p := ParamPass(params, gl);
      && (p.ok ==> p.found == FoundValues(params, ParamLookup(gl)))
      && (forall q :: q in p.found ==> q.obj == gl.uniformLoc(q.param.name) != -1)
  {
    var p := ParamPass(params, gl);
    ResolveCalls(params, ParamLookup(gl), ParamCall);
    ResolveFound(params, ParamLookup(gl), ParamCall);
    assert p.ok ==> params[..|p.calls|] == params;
    FoundLocated(params[..|p.calls|], gl);
  }

  lemma {:induction false} FoundLocated(params: seq<ParamRef>, gl: ProgramGl)
    ensures forall q :: q in FoundValues(params, ParamLookup(gl)) ==> q.obj == gl.uniformLoc(q.param.name) != -1
    decreases |params|
  {
    if |params| > 0 {
      FoundLocated(params[..|params| - 1], gl);
    }
  }

  // --- Linking ---

  /** How far the attach steps got before the first failure. */
  datatype Attached = AttachedNone | AttachedVertex | AttachedBoth

  function AttachStage(vs: GlShader, ps: GlShader, gl: ProgramGl): Attached
  {
    if !gl.ok(CreateProgram) || !gl.ok(AttachShader(vs.obj)) then AttachedNone
    else if !gl.ok(AttachShader(ps.obj)) then AttachedVertex
    else AttachedBoth
  }

  function AttachCalls(vs: GlShader, ps: GlShader, gl: ProgramGl): seq<GlCall>
  {
    [CreateProgram]
    + if !gl.ok(CreateProgram) then []
      else [AttachShader(vs.obj)] + if !gl.ok(AttachShader(vs.obj)) then [] else [AttachShader(ps.obj)]
  }

  /** Link, status query, and the error log when the link failed. */
  function LinkCalls(gl: ProgramGl): seq<GlCall>
  {
    [LinkProgram]
    + if !gl.ok(LinkProgram) then []
      else [GetLinkStatus] + if gl.ok(GetLinkStatus) && !gl.linked then [PrintLinkErrors] else []
  }

  predicate LinkOk(gl: ProgramGl)
  {
    gl.ok(LinkProgram) && gl.ok(GetLinkStatus) && gl.linked
  }

  /** The attribute pass, then the vertex and pixel parameter passes, each
      only when the one before succeeded. */
  function AssignCalls(vs: GlShader, ps: GlShader, gl: ProgramGl): seq<GlCall>
  {
    var a := AttribPass(vs.attribs, gl);
    var v := ParamPass(vs.params, gl);
    a.calls + if !a.ok then [] else v.calls + if !v.ok then [] else ParamPass(ps.params, gl).calls
  }

  predicate AssignOk(vs: GlShader, ps: GlShader, gl: ProgramGl)
  {
    AttribPass(vs.attribs, gl).ok && ParamPass(vs.params, gl).ok && ParamPass(ps.params, gl).ok
  }

  predicate CreateOk(vs: GlShader, ps: GlShader, gl: ProgramGl)
  {
    AttachStage(vs, ps, gl) == AttachedBoth && LinkOk(gl) && AssignOk(vs, ps, gl)
  }

  /** The detach calls on the way out: vertex then pixel on success; on a
      failure, the labels fall through from pixel to vertex to nothing. */
  function DetachCalls(vs: GlShader, ps: GlShader, stage: Attached, success: bool): seq<GlCall>
  {
    if success then [DetachShader(vs.obj), DetachShader(ps.obj)]
    else
      match stage
      case AttachedNone => []
      case AttachedVertex => [DetachShader(vs.obj)]
      case AttachedBoth => [DetachShader(ps.obj), DetachShader(vs.obj)]
  }

  /** The parameters the passes append: none when the attribute pass
      fails, and the pixel shader's only after all of the vertex shader's. */
  function AssignedParams(vs: GlShader, ps: GlShader, gl: ProgramGl): seq<ProgramParam>
  {
    var v := ParamPass(vs.params, gl);
    if !AttribPass(vs.attribs, gl).ok then []
    else v.found + if !v.ok then [] else ParamPass(ps.params, gl).found
  }

  /** The attribute locations a create call appends. */
  function CreateAttribs(vs: GlShader, ps: GlShader, gl: ProgramGl): seq<int>
  {
    if AttachStage(vs, ps, gl) == AttachedBoth && LinkOk(gl) then AttribPass(vs.attribs, gl).found else []
  }

  /** The uniform entries a create call appends. */
  function CreateParams(vs: GlShader, ps: GlShader, gl: ProgramGl): seq<ProgramParam>
  {
    if AttachStage(vs, ps, gl) == AttachedBoth && LinkOk(gl) then AssignedParams(vs, ps, gl) else []
  }

  function CreateCalls(vs: GlShader, ps: GlShader, gl: ProgramGl): seq<GlCall>
  {
    var stage := AttachStage(vs, ps, gl);
    AttachCalls(vs, ps, gl)
    + (if stage != AttachedBoth then []
       else LinkCalls(gl) + if !LinkOk(gl) then [] else AssignCalls(vs, ps, gl))
    + DetachCalls(vs, ps, stage, CreateOk(vs, ps, gl))
  }

  /** The trace of a create call, assembled from its steps. */
  lemma CreateTrace(vs: GlShader, ps: GlShader, gl: ProgramGl, stage: Attached, success: bool,
                    t0: seq<GlCall>, t1: seq<GlCall>, t2: seq<GlCall>, t3: seq<GlCall>)
    requires stage == AttachStage(vs, ps, gl) && success == CreateOk(vs, ps, gl)
    requires t1 == t0 + AttachCalls(vs, ps, gl)
    requires t2 == t1 + if stage != AttachedBoth then []
      else LinkCalls(gl) + if !LinkOk(gl) then [] else AssignCalls(vs, ps, gl)
    requires t3 == t2 + DetachCalls(vs, ps, stage, success)
    ensures t3 == t0 + CreateCalls(vs, ps, gl)
  {
  }

  /** The shaders whose attach call appears in a trace and succeeded, in
      trace order. */
  function AttachedShaders(calls: seq<GlCall>, ok: GlCall -> bool): seq<nat>
    decreases |calls|
  {
    if |calls| == 0 then []
    else
      AttachedShaders(calls[..|calls| - 1], ok)
      + match calls[|calls| - 1]
        case AttachShader(s) => if ok(calls[|calls| - 1]) then [s] else []
        case _ => []
  }

  function DetachAll(objs: seq<nat>): seq<GlCall>
    decreases |objs|
  {
    if |objs| == 0 then [] else [DetachShader(objs[0])] + DetachAll(objs[1..])
  }

  function Reversed(s: seq<nat>): seq<nat>
    decreases |s|
  {
    if |s| == 0 then [] else Reversed(s[1..]) + [s[0]]
  }

  /** Every shader attached is detached exactly once: in attach order when
      the program was created, in reverse attach order on a failure; a
      failure before any attach detaches nothing. */
  lemma UnwindMirrorsAttach(vs: GlShader, ps: GlShader, gl: ProgramGl)
    ensures var att := AttachedShaders(AttachCalls(vs, ps, gl), gl.ok);
      var success := CreateOk(vs, ps, gl);
      DetachCalls(vs, ps, AttachStage(vs, ps, gl), success)
        == DetachAll(if success then att else Reversed(att))
  {
    var calls := AttachCalls(vs, ps, gl);
    var c0 := [CreateProgram];
    var c1 := c0 + [AttachShader(vs.obj)];
    assert AttachedShaders(c0, gl.ok) == [] by {
      assert c0[..0] == [];
    }
    if gl.ok(CreateProgram) {
      assert c1[..1] == c0;
      if gl.ok(AttachShader(vs.obj)) {
        assert calls == c1 + [AttachShader(ps.obj)];
        assert calls[..2] == c1;
        if gl.ok(AttachShader(ps.obj)) {
          assert AttachedShaders(calls, gl.ok) == [vs.obj, ps.obj];
          assert Reversed([vs.obj, ps.obj]) == [ps.obj, vs.obj] by {
            assert [vs.obj, ps.obj][1..] == [ps.obj];
            assert Reversed([ps.obj]) == [ps.obj] by { assert [ps.obj][1..] == []; }
          }
          assert DetachAll([ps.obj, vs.obj]) == [DetachShader(ps.obj), DetachShader(vs.obj)] by {
            assert [ps.obj, vs.obj][1..] == [vs.obj];
            assert [vs.obj][1..] == [];
          }
          assert DetachAll([vs.obj, ps.obj]) == [DetachShader(vs.obj), DetachShader(ps.obj)] by {
            assert [vs.obj, ps.obj][1..] == [ps.obj];
            assert [ps.obj][1..] == [];
          }
        } else {
          assert AttachedShaders(calls, gl.ok) == [vs.obj];
          assert Reversed([vs.obj]) == [vs.obj] by { assert [vs.obj][1..] == []; }
          assert DetachAll([vs.obj]) == [DetachShader(vs.obj)] by { assert [vs.obj][1..] == []; }
        }
      } else {
        assert calls == c1;
      }
    } else {
      assert calls == c0;
    }
  }

  /** A program object: its GL name, the two shaders it was linked from,
      and the attribute and uniform locations it resolved. */
  class Program {
    var obj: nat
    var vertexShader: Option<GlShader>
    var pixelShader: Option<GlShader>
    var params: seq<ProgramParam>
    var attribs: seq<int>
    /** The GL calls issued on behalf of this program. */
    var trace: seq<GlCall>

    constructor()
      ensures obj == 0 && vertexShader.None? && pixelShader.None?
      ensures params == [] && attribs == [] && trace == []
    {
      obj := 0;
      vertexShader := None;
      pixelShader := None;
      params := [];
      attribs := [];
      trace := [];
    }

    /** `assign_program_attrib`. */
    method AssignAttrib(a: string, gl: ProgramGl) returns (success: bool)
      modifies this`attribs, this`trace
      ensures trace == old(trace) + [GetAttribLocation(a)]
      ensures success <==> gl.ok(GetAttribLocation(a)) && gl.attribLoc(a) != -1
      ensures attribs == old(attribs) + if success then [gl.attribLoc(a)] else []
    {
      trace := trace + [GetAttribLocation(a)];
      if !gl.ok(GetAttribLocation(a)) {
        return false;
      }
      var loc := gl.attribLoc(a);
      if loc == -1 {
        return false;
      }
      attribs := attribs + [loc];
      return true;
    }

    /** `assign_program_attribs`: the vertex shader's attributes in order. */
    method AssignAttribs(gl: ProgramGl) returns (success: bool)
      requires vertexShader.Some?
      modifies this`attribs, this`trace
      ensures var p := AttribPass(vertexShader.value.attribs, gl);
        success == p.ok && attribs == old(attribs) + p.found && trace == old(trace) + p.calls
    {
      var names := vertexShader.value.attribs;
      for i := 0 to |names|
        invariant AttribPass(names[..i], gl).ok
        invariant attribs == old(attribs) + AttribPass(names[..i], gl).found
        invariant trace == old(trace) + AttribPass(names[..i], gl).calls
      {
        success := AssignAttrib(names[i], gl);
        assert names[..i + 1][..i] == names[..i];
        if !success {
          ResolveStops(names, i + 1, AttribLookup(gl), AttribCall);
          return;
        }
      }
      assert names[..|names|] == names;
      success := true;
    }

    /** `assign_program_param`. */
    method AssignParam(p: ParamRef, gl: ProgramGl) returns (success: bool)
      modifies this`params, this`trace
      ensures trace == old(trace) + [GetUniformLocation(p.name)]
      ensures success == gl.ok(GetUniformLocation(p.name))
      ensures params == old(params)
        + if success && gl.uniformLoc(p.name) != -1 then [ProgramParam(gl.uniformLoc(p.name), p)] else []
    {
      trace := trace + [GetUniformLocation(p.name)];
      var loc := gl.uniformLoc(p.name);
      if !gl.ok(GetUniformLocation(p.name)) {
        return false;
      }
      if loc == -1 {
        return true;
      }
      params := params + [ProgramParam(loc, p)];
      return true;
    }

    /** `assign_program_shader_params`: one shader's parameters in order. */
    method AssignShaderParams(shader: GlShader, gl: ProgramGl) returns (success: bool)
      modifies this`params, this`trace
      ensures var p := ParamPass(shader.params, gl);
        success == p.ok && params == old(params) + p.found && trace == old(trace) + p.calls
    {
      var ps := shader.params;
      for i := 0 to |ps|
        invariant ParamPass(ps[..i], gl).ok
        invariant params == old(params) + ParamPass(ps[..i], gl).found
        invariant trace == old(trace) + ParamPass(ps[..i], gl).calls
      {
        success := AssignParam(ps[i], gl);
        assert ps[..i + 1][..i] == ps[..i];
        if !success {
          ResolveStops(ps, i + 1, ParamLookup(gl), ParamCall);
          return;
        }
      }
      assert ps[..|ps|] == ps;
      success := true;
    }

    /** `assign_program_params`: every vertex-shader parameter before any
        pixel-shader parameter; a failure in the vertex pass skips the
        pixel pass. */
    method AssignParams(vs: GlShader, ps: GlShader, gl: ProgramGl) returns (success: bool)
      requires vertexShader == Some(vs) && pixelShader == Some(ps)
      modifies this`params, this`trace
      ensures var v := ParamPass(vs.params, gl);
        var q := ParamPass(ps.params, gl);
        && success == (v.ok && q.ok)
        && params == old(params) + v.found + (if v.ok then q.found else [])
        && trace == old(trace) + v.calls + (if v.ok then q.calls else [])
    {
      success := AssignShaderParams(vertexShader.value, gl);
      if !success {
        return;
      }
      success := AssignShaderParams(pixelShader.value, gl);
    }

    /** The create and attach steps of `gs_program_create`. */
    method AttachShaders(vs: GlShader, ps: GlShader, gl: ProgramGl) returns (stage: Attached)
      requires vertexShader == Some(vs) && pixelShader == Some(ps)
      modifies this`obj, this`trace
      ensures obj == gl.name
      ensures stage == AttachStage(vs, ps, gl)
      ensures trace == old(trace) + AttachCalls(vs, ps, gl)
    {
      obj := gl.name;
      trace := trace + [CreateProgram];
      if !gl.ok(CreateProgram) {
        return AttachedNone;
      }
      trace := trace + [AttachShader(vertexShader.value.obj)];
      if !gl.ok(AttachShader(vertexShader.value.obj)) {
        return AttachedNone;
      }
      trace := trace + [AttachShader(pixelShader.value.obj)];
      if !gl.ok(AttachShader(pixelShader.value.obj)) {
        return AttachedVertex;
      }
      return AttachedBoth;
    }

    /** Link and link status; the error log is printed when the link
        did not succeed. */
    method Link(gl: ProgramGl) returns (linked: bool)
      modifies this`trace
      ensures linked == LinkOk(gl)
      ensures trace == old(trace) + LinkCalls(gl)
    {
      trace := trace + [LinkProgram];
      if !gl.ok(LinkProgram) {
        return false;
      }
      trace := trace + [GetLinkStatus];
      if !gl.ok(GetLinkStatus) {
        return false;
      }
      if !gl.linked {
        trace := trace + [PrintLinkErrors];
        return false;
      }
      return true;
    }

    /** The attribute pass, then the parameter passes. */
    method AssignAll(vs: GlShader, ps: GlShader, gl: ProgramGl) returns (success: bool)
      requires vertexShader == Some(vs) && pixelShader == Some(ps)
      modifies this`attribs, this`params, this`trace
      ensures success == AssignOk(vs, ps, gl)
      ensures attribs == old(attribs) + AttribPass(vs.attribs, gl).found
      ensures params == old(params) + AssignedParams(vs, ps, gl)
      ensures trace == old(trace) + AssignCalls(vs, ps, gl)
    {
      success := AssignAttribs(gl);
      if !success {
        return;
      }
      success := AssignParams(vs, ps, gl);
    }

    /** The detach labels at the end of `gs_program_create`. */
    method Unwind(vs: GlShader, ps: GlShader, stage: Attached, success: bool)
      requires vertexShader == Some(vs) && pixelShader == Some(ps)
      modifies this`trace
      ensures trace == old(trace) + DetachCalls(vs, ps, stage, success)
    {
      if success {
        trace := trace + [DetachShader(vertexShader.value.obj), DetachShader(pixelShader.value.obj)];
        return;
      }
      if stage == AttachedBoth {
        trace := trace + [DetachShader(pixelShader.value.obj)];
      }
      if stage != AttachedNone {
        trace := trace + [DetachShader(vertexShader.value.obj)];
      }
    }

    /** `gs_program_create`. */
    method ProgramCreate(vs: GlShader, ps: GlShader, gl: ProgramGl) returns (success: bool)
      modifies this
      ensures vertexShader == Some(vs) && pixelShader == Some(ps) && obj == gl.name
      ensures success == CreateOk(vs, ps, gl)
      ensures trace == old(trace) + CreateCalls(vs, ps, gl)
      ensures attribs == old(attribs) + CreateAttribs(vs, ps, gl)
      ensures params == old(params) + CreateParams(vs, ps, gl)
    {
      vertexShader := Some(vs);
      pixelShader := Some(ps);
      ghost var t0 := trace;
      var stage := AttachShaders(vs, ps, gl);
      ghost var t1 := trace;
      success := false;
      if stage == AttachedBoth {
        var linked := Link(gl);
        if linked {
          success := AssignAll(vs, ps, gl);
        }
      }
      ghost var t2 := trace;
      Unwind(vs, ps, stage, success);
      CreateTrace(vs, ps, gl, stage, success, t0, t1, t2, trace);
    }
  }
}
