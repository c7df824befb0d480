// A vertex buffer: one GL array buffer per vertex stream that has data,
// then a vertex array object; the CPU-side data is kept only for dynamic
// buffers.
module GsVertexBuffer {
  import opened Common
  import opened GlApi
  import opened GsSubsystemInfo

  /** One texture-coordinate array: its width in floats per vertex. The
      coordinates themselves go to the GPU and are not modelled. */
  datatype TVertArray = TVertArray(width: nat)

  /** `gs_vb_data`: the vertex count, the element counts of the optional
      streams (their contents are not modelled) and the texture-coordinate
      arrays, `numTex` of which are used. */
  datatype VbData = VbData(
    num: nat,
    normals: nat,
    tangents: nat,
    colors: nat,
    numTex: nat,
    tvarray: seq<TVertArray>)

  /** `create_buffers` reads `tvarray[i]` for every `i < numTex`. */
  predicate WellFormed(d: VbData)
  {
    d.numTex <= |d.tvarray|
  }

  /** The streams a buffer can be created for. */
  datatype Stream = Position | Normal | Tangent | Color | Uv(index: nat)

  /** The GL driver as the buffer sees it: the streams whose buffer it
      creates, the name it hands back for each, and the vertex array
      object. */
  datatype VbGl = VbGl(created: set<Stream>, names: map<Stream, nat>, vaoOk: bool, vao: nat)

  /** The name the driver writes for a stream's buffer; 0 for a stream it
      has no name for. */
  function Name(gl: VbGl, s: Stream): nat
  {
    if s in gl.names then gl.names[s] else 0
  }

  const VEC3_BYTES: nat := 12
  const FLOAT_BYTES: nat := 4
  const COLOR_BYTES: nat := 4

  /** The byte size of a stream's buffer, in `size_t` arithmetic (an
      array past `tvarray` is never asked for; see `WellFormed`). */
  function StreamBytes(d: VbData, s: Stream): nat
  {
    match s
    case Position => U64(d.num * VEC3_BYTES)
    case Normal => U64(d.num * VEC3_BYTES)
    case Tangent => U64(d.num * VEC3_BYTES)
    case Color => U64(d.num * COLOR_BYTES)
    case Uv(i) => if i < |d.tvarray| then U64(d.num * FLOAT_BYTES * d.tvarray[i].width) else 0
  }

  /** The creation call for a stream's buffer. */
  function StreamCall(d: VbData, s: Stream, usage: int): GlCall
  {
    CreateBuffer(GL_ARRAY_BUFFER, StreamBytes(d, s), usage)
  }

  /** The creation calls for a list of streams. */
  function StreamCalls(d: VbData, ss: seq<Stream>, usage: int): (r: seq<GlCall>)
    ensures |r| == |ss|
    decreases |ss|
  {
    if |ss| == 0 then []
    else StreamCalls(d, ss[..|ss| - 1], usage) + [StreamCall(d, ss[|ss| - 1], usage)]
  }

  lemma StreamCallsSnoc(d: VbData, ss: seq<Stream>, s: Stream, usage: int)
    ensures StreamCalls(d, ss + [s], usage) == StreamCalls(d, ss, usage) + [StreamCall(d, s, usage)]
  {
    assert (ss + [s])[..|ss|] == ss;
  }

  lemma {:induction false} StreamCallsAppend(d: VbData, a: seq<Stream>, b: seq<Stream>, usage: int)
    ensures StreamCalls(d, a + b, usage) == StreamCalls(d, a, usage) + StreamCalls(d, b, usage)
    decreases |b|
  {
    if |b| == 0 {
      assert a + b == a;
    } else {
      var bi, last := b[..|b| - 1], b[|b| - 1];
      assert b == bi + [last];
      calc {
        StreamCalls(d, a + b, usage);
        { assert a + b == (a + bi) + [last]; StreamCallsSnoc(d, a + bi, last, usage); }
        StreamCalls(d, a + bi, usage) + [StreamCall(d, last, usage)];
        { StreamCallsAppend(d, a, bi, usage); }
        StreamCalls(d, a, usage) + StreamCalls(d, bi, usage) + [StreamCall(d, last, usage)];
        { StreamCallsSnoc(d, bi, last, usage); }
        StreamCalls(d, a, usage) + StreamCalls(d, b, usage);
      }
    }
  }

  /** The position stream, then each optional stream that has data. */
  function FixedStreams(d: VbData): seq<Stream>
  {
    [Position] + Opt(d.normals > 0, Normal) + Opt(d.tangents > 0, Tangent) + Opt(d.colors > 0, Color)
  }

  function Opt(present: bool, s: Stream): seq<Stream>
  {
    if present then [s] else []
  }

  /** One texture-coordinate stream per used array, in order. */
  function UvStreams(d: VbData): seq<Stream>
  {
    seq(d.numTex, (i: nat) => Uv(i))
  }

  /** The length of the longest prefix of `ss` whose buffers are created. */
  function CreatedPrefix(ss: seq<Stream>, ok: set<Stream>): (r: nat)
    ensures r <= |ss|
    decreases |ss|
  {
    if |ss| == 0 then 0
    else
      var k := CreatedPrefix(ss[..|ss| - 1], ok);
      if k == |ss| - 1 && ss[|ss| - 1] in ok then |ss| else k
  }

  /** The streams tried: the created prefix and the first failure, if any. */
  function Attempted(ss: seq<Stream>, ok: set<Stream>): seq<Stream>
  {
    var k := CreatedPrefix(ss, ok);
    if k == |ss| then ss else ss[..k + 1]
  }

  /** The created prefix is exactly the streams before the first failure. */
  lemma {:induction false} CreatedPrefixExact(ss: seq<Stream>, ok: set<Stream>)
    ensures var k := CreatedPrefix(ss, ok);
      (forall j :: 0 <= j < k ==> (ss[j] in ok)) && (k < |ss| ==> ss[k] !in ok)
    decreases |ss|
  {
    if |ss| > 0 {
      var init := ss[..|ss| - 1];
      CreatedPrefixExact(init, ok);
      assert forall j :: 0 <= j < |init| ==> init[j] == ss[j];
    }
  }

  /** Creating two lists of buffers one after the other. */
  lemma {:induction false} CreatedPrefixAppend(a: seq<Stream>, b: seq<Stream>, ok: set<Stream>)
    ensures CreatedPrefix(a + b, ok)
         == if CreatedPrefix(a, ok) < |a| then CreatedPrefix(a, ok) else |a| + CreatedPrefix(b, ok)
    decreases |b|
  {
    if |b| == 0 {
      assert a + b == a;
    } else {
      var bi := b[..|b| - 1];
      CreatedPrefixAppend(a, bi, ok);
      assert (a + b)[..|a + b| - 1] == a + bi;
    }
  }

  lemma CreatedPrefixSnoc(ss: seq<Stream>, s: Stream, ok: set<Stream>)
    requires CreatedPrefix(ss, ok) == |ss|
    ensures CreatedPrefix(ss + [s], ok) == if s in ok then |ss| + 1 else |ss|
  {
    assert (ss + [s])[..|ss|] == ss;
  }

  /** A failure at position `j` is where the whole list stops. */
  lemma FailureStops(ss: seq<Stream>, j: nat, ok: set<Stream>)
    requires j < |ss| && CreatedPrefix(ss[..j + 1], ok) == j
    ensures CreatedPrefix(ss, ok) == j && Attempted(ss, ok) == ss[..j + 1]
  {
    StopsAfter(ss[..j + 1], ss[j + 1..], ok);
    assert ss == ss[..j + 1] + ss[j + 1..];
  }

  /** A list whose tried part ends in a failure stops there, whatever
      follows it. */
  lemma StopsAfter(tried: seq<Stream>, rest: seq<Stream>, ok: set<Stream>)
    requires |tried| > 0 && CreatedPrefix(tried, ok) == |tried| - 1
    ensures CreatedPrefix(tried + rest, ok) == |tried| - 1 && Attempted(tried + rest, ok) == tried
  {
    CreatedPrefixAppend(tried, rest, ok);
    assert (tried + rest)[..|tried|] == tried;
  }

  /** The streams of a vertex buffer: the position stream always, first;
      the normal, tangent and colour streams exactly when they have data;
      a texture-coordinate stream for each used array. */
  lemma StreamsPresent(d: VbData)
    ensures var ss := FixedStreams(d) + UvStreams(d);
      && ss[0] == Position
      && (Normal in ss <==> d.normals > 0)
      && (Tangent in ss <==> d.tangents > 0)
      && (Color in ss <==> d.colors > 0)
      && (forall i: nat :: Uv(i) in ss <==> i < d.numTex)
  {
    var ss := FixedStreams(d) + UvStreams(d);
    var f := FixedStreams(d);
    assert forall s :: s in f ==> !s.Uv?;
    forall i: nat
      ensures Uv(i) in ss <==> i < d.numTex
    {
      if i < d.numTex {
        assert ss[|f| + i] == Uv(i);
      }
    }
  }

  /** The buffers a create call tries, taken together: every stream in
      order, up to and including the first whose buffer cannot be created. */
  lemma AttemptedInOrder(d: VbData, ok: set<Stream>)
    ensures var f := FixedStreams(d);
      var u := UvStreams(d);
      Attempted(f + u, ok)
        == Attempted(f, ok) + if CreatedPrefix(f, ok) == |f| then Attempted(u, ok) else []
  {
    var f := FixedStreams(d);
    var u := UvStreams(d);
    CreatedPrefixAppend(f, u, ok);
    if CreatedPrefix(f, ok) == |f| {
      var k := CreatedPrefix(u, ok);
      if k < |u| {
        assert (f + u)[..|f| + k + 1] == f + u[..k + 1];
      }
    } else {
      var k := CreatedPrefix(f, ok);
      assert (f + u)[..k + 1] == f[..k + 1];
    }
  }

  /** The fixed streams as the code tries them: the position stream, then
      each optional stream that has data, until one fails. */
  function FixedTried(d: VbData, ok: set<Stream>): seq<Stream>
  {
    [Position] + (if Position !in ok then [] else
      Opt(d.normals > 0, Normal) + (if !OptOk(d.normals > 0, Normal, ok) then [] else
        Opt(d.tangents > 0, Tangent) + (if !OptOk(d.tangents > 0, Tangent, ok) then [] else
          Opt(d.colors > 0, Color))))
  }

  /** An optional stream does not stop the creation: it has no data, or
      its buffer is created. */
  predicate OptOk(present: bool, s: Stream, ok: set<Stream>)
  {
    present ==> s in ok
  }

  predicate FixedOk(d: VbData, ok: set<Stream>)
  {
    Position in ok && OptOk(d.normals > 0, Normal, ok) && OptOk(d.tangents > 0, Tangent, ok)
    && OptOk(d.colors > 0, Color, ok)
  }

  /** Trying a list that starts with `s`: `s` first, then the rest only
      when `s` is created. */
  lemma AttemptedCons(s: Stream, rest: seq<Stream>, ok: set<Stream>)
    ensures Attempted([s] + rest, ok) == [s] + (if s in ok then Attempted(rest, ok) else [])
  {
    CreatedPrefixAppend([s], rest, ok);
    var k := CreatedPrefix(rest, ok);
    if s in ok && k < |rest| {
      assert ([s] + rest)[..k + 2] == [s] + rest[..k + 1];
    }
    if s !in ok {
      assert ([s] + rest)[..1] == [s];
    }
  }

  /** The same for an optional stream, which is skipped when absent. */
  lemma AttemptedOpt(present: bool, s: Stream, rest: seq<Stream>, ok: set<Stream>)
    ensures Attempted(Opt(present, s) + rest, ok)
      == Opt(present, s) + (if OptOk(present, s, ok) then Attempted(rest, ok) else [])
  {
    if present {
      AttemptedCons(s, rest, ok);
    } else {
      assert Opt(present, s) + rest == rest;
    }
  }

  /** A list that starts with `s` is created in full exactly when `s` and
      the rest are. */
  lemma CreatedOpt(present: bool, s: Stream, rest: seq<Stream>, ok: set<Stream>)
    ensures (CreatedPrefix(Opt(present, s) + rest, ok) == |Opt(present, s) + rest|)
      <==> (OptOk(present, s, ok) && CreatedPrefix(rest, ok) == |rest|)
  {
    if present {
      CreatedPrefixAppend([s], rest, ok);
    } else {
      assert Opt(present, s) + rest == rest;
    }
  }

  /** The fixed buffers are the fixed streams tried in order up to the
      first failure. */
  lemma FixedInOrder(d: VbData, ok: set<Stream>)
    ensures FixedTried(d, ok) == Attempted(FixedStreams(d), ok)
  {
    var n, t, c := Opt(d.normals > 0, Normal), Opt(d.tangents > 0, Tangent), Opt(d.colors > 0, Color);
    assert FixedStreams(d) == [Position] + (n + (t + c));
    assert c == c + [];
    AttemptedCons(Position, n + (t + c), ok);
    AttemptedOpt(d.normals > 0, Normal, t + c, ok);
    AttemptedOpt(d.tangents > 0, Tangent, c, ok);
    AttemptedOpt(d.colors > 0, Color, [], ok);
  }

  /** The fixed buffers all succeed exactly when none of the fixed streams
      fails. */
  lemma FixedOkIff(d: VbData, ok: set<Stream>)
    ensures FixedOk(d, ok) <==> CreatedPrefix(FixedStreams(d), ok) == |FixedStreams(d)|
  {
    var f := FixedStreams(d);
    var n, t, c := Opt(d.normals > 0, Normal), Opt(d.tangents > 0, Tangent), Opt(d.colors > 0, Color);
    var nOk, tOk, cOk := OptOk(d.normals > 0, Normal, ok), OptOk(d.tangents > 0, Tangent, ok),
      OptOk(d.colors > 0, Color, ok);
    calc {
      CreatedPrefix(f, ok) == |f|;
      { assert f == Opt(true, Position) + (n + (t + c)); CreatedOpt(true, Position, n + (t + c), ok); }
      Position in ok && CreatedPrefix(n + (t + c), ok) == |n + (t + c)|;
      { CreatedOpt(d.normals > 0, Normal, t + c, ok); }
      Position in ok && nOk && CreatedPrefix(t + c, ok) == |t + c|;
      { CreatedOpt(d.tangents > 0, Tangent, c, ok); }
      Position in ok && nOk && tOk && CreatedPrefix(c, ok) == |c|;
      { assert c == c + []; CreatedOpt(d.colors > 0, Color, [], ok); }
      Position in ok && nOk && tOk && cOk;
    }
  }

  /** The calls for the fixed streams, one group per stream, nested as
      the code returns on each failure. */
  lemma FixedTriedCalls(d: VbData, ok: set<Stream>, usage: int)
    ensures StreamCalls(d, FixedTried(d, ok), usage)
      == [StreamCall(d, Position, usage)] + (if Position !in ok then [] else
        OptCall(d, d.normals > 0, Normal, usage) + (if !OptOk(d.normals > 0, Normal, ok) then [] else
          OptCall(d, d.tangents > 0, Tangent, usage) + (if !OptOk(d.tangents > 0, Tangent, ok) then [] else
            OptCall(d, d.colors > 0, Color, usage))))
  {
    var n, t, c := Opt(d.normals > 0, Normal), Opt(d.tangents > 0, Tangent), Opt(d.colors > 0, Color);
    var r2 := if !OptOk(d.tangents > 0, Tangent, ok) then [] else c;
    var r1 := if !OptOk(d.normals > 0, Normal, ok) then [] else t + r2;
    var r0 := if Position !in ok then [] else n + r1;
    StreamCallsAppend(d, t, r2, usage);
    StreamCallsAppend(d, n, r1, usage);
    StreamCallsAppend(d, [Position], r0, usage);
    assert StreamCalls(d, [Position], usage) == [StreamCall(d, Position, usage)];
    assert FixedTried(d, ok) == [Position] + r0;
    OptCallIs(d, d.normals > 0, Normal, usage);
    OptCallIs(d, d.tangents > 0, Tangent, usage);
    OptCallIs(d, d.colors > 0, Color, usage);
  }

  /** The creation call of an optional stream, when it has data. */
  function OptCall(d: VbData, present: bool, s: Stream, usage: int): seq<GlCall>
  {
    if present then [StreamCall(d, s, usage)] else []
  }

  lemma OptCallIs(d: VbData, present: bool, s: Stream, usage: int)
    ensures OptCall(d, present, s, usage) == StreamCalls(d, Opt(present, s), usage)
  {
    if present {
      assert StreamCalls(d, [s], usage) == StreamCalls(d, [], usage) + [StreamCall(d, s, usage)];
    }
  }

  /** One more texture-coordinate buffer, after `i` were created. */
  lemma UvStep(d: VbData, i: nat, usage: int, ok: set<Stream>)
    requires i < d.numTex && CreatedPrefix(UvStreams(d)[..i], ok) == i
    ensures var u := UvStreams(d);
      && StreamCalls(d, u[..i + 1], usage) == StreamCalls(d, u[..i], usage) + [StreamCall(d, Uv(i), usage)]
      && CreatedPrefix(u[..i + 1], ok) == (if Uv(i) in ok then i + 1 else i)
      && (Uv(i) !in ok ==> CreatedPrefix(u, ok) == i && Attempted(u, ok) == u[..i + 1])
  {
    var u := UvStreams(d);
    assert u[..i + 1] == u[..i] + [Uv(i)];
    StreamCallsSnoc(d, u[..i], Uv(i), usage);
    CreatedPrefixSnoc(u[..i], Uv(i), ok);
    if Uv(i) !in ok {
      FailureStops(u, i, ok);
    }
  }

  /** Every texture-coordinate buffer is created. */
  predicate UvOk(d: VbData, gl: VbGl)
  {
    CreatedPrefix(UvStreams(d), gl.created) == d.numTex
  }

  /** The texture-coordinate buffers and the vertex array object exist. */
  predicate RestOk(d: VbData, gl: VbGl)
  {
    UvOk(d, gl) && gl.vaoOk
  }

  /** The calls after the fixed buffers: the texture-coordinate buffers up
      to the first failure, then the vertex array object if they all
      exist. */
  function RestCalls(d: VbData, usage: int, gl: VbGl): seq<GlCall>
  {
    StreamCalls(d, Attempted(UvStreams(d), gl.created), usage) + (if UvOk(d, gl) then [GenVertexArray] else [])
  }

  /** The two texture-coordinate tables after they are resized to the
      used arrays: entry `i` holds the name and the width of array `i`
      once its buffer is created, and its earlier value otherwise. */
  predicate UvTables(d: VbData, gl: VbGl, buffers0: seq<nat>, sizes0: seq<nat>, buffers: seq<nat>, sizes: seq<nat>)
    requires WellFormed(d)
  {
    var k := CreatedPrefix(UvStreams(d), gl.created);
    && |buffers| == d.numTex && |sizes| == d.numTex
    && (forall i :: 0 <= i < d.numTex ==>
         buffers[i] == if i < k then Name(gl, Uv(i)) else Resize(buffers0, d.numTex, 0)[i])
    && (forall i :: 0 <= i < d.numTex ==>
         sizes[i] == if i < k then d.tvarray[i].width else Resize(sizes0, d.numTex, 0)[i])
  }

  /** The names in the four fixed buffer fields after the fixed buffers
      are created: the position name always, and each optional name when
      its stream has data and every buffer before it was created; an
      optional field keeps its earlier value (`normal0` and so on)
      otherwise. */
  predicate FixedNames(d: VbData, gl: VbGl, normal0: nat, tangent0: nat, color0: nat,
                       vertex: nat, normal: nat, tangent: nat, color: nat)
  {
    var ok := gl.created;
    && vertex == Name(gl, Position)
    && normal == (if d.normals > 0 && Position in ok then Name(gl, Normal) else normal0)
    && tangent == (if d.tangents > 0 && Position in ok && OptOk(d.normals > 0, Normal, ok)
                   then Name(gl, Tangent) else tangent0)
    && color == (if d.colors > 0 && Position in ok && OptOk(d.normals > 0, Normal, ok)
                   && OptOk(d.tangents > 0, Tangent, ok)
                 then Name(gl, Color) else color0)
  }

  /** `create_buffers` as a whole: one creation call for every stream of
      the buffer, in order, up to and including the first that fails, then
      the vertex array object exactly when every stream's buffer exists. */
  lemma BuffersInOrder(d: VbData, usage: int, gl: VbGl)
    ensures var ss := FixedStreams(d) + UvStreams(d);
      var all := CreatedPrefix(ss, gl.created) == |ss|;
      && (FixedOk(d, gl.created) && UvOk(d, gl) <==> all)
      && StreamCalls(d, FixedTried(d, gl.created), usage)
           + (if FixedOk(d, gl.created) then RestCalls(d, usage, gl) else [])
         == StreamCalls(d, Attempted(ss, gl.created), usage) + (if all then [GenVertexArray] else [])
  {
    var f, u, ok := FixedStreams(d), UvStreams(d), gl.created;
    FixedInOrder(d, ok);
    FixedOkIff(d, ok);
    AttemptedInOrder(d, ok);
    CreatedPrefixAppend(f, u, ok);
    StreamCallsAppend(d, Attempted(f, ok), if CreatedPrefix(f, ok) == |f| then Attempted(u, ok) else [], usage);
  }

  /** The usage hint: streamed for dynamic buffers, static otherwise. */
  function Usage(dynamic: bool): int
  {
    if dynamic then GL_STREAM_DRAW else GL_STATIC_DRAW
  }

  /** `gs_vertexbuffer`. */
  class VertexBuffer {
    var vao: nat
    var vertexBuffer: nat
    var normalBuffer: nat
    var tangentBuffer: nat
    var colorBuffer: nat
    var uvBuffers: seq<nat>
    var uvSizes: seq<nat>
    var num: nat
    var dynamic: bool
    /** The CPU-side data; `None` once released. */
    var data: Option<VbData>
    /** The GL calls issued on behalf of this buffer. */
    var trace: seq<GlCall>

    /** Keeps the vertex count and the data; dynamic exactly when the
        GS_DYNAMIC bit is set. */
    constructor(d: VbData, flags: bv32)
      ensures num == d.num && data == Some(d)
      ensures dynamic <==> flags & GS_DYNAMIC != 0
      ensures vao == 0 && vertexBuffer == 0 && normalBuffer == 0 && tangentBuffer == 0 && colorBuffer == 0
      ensures uvBuffers == [] && uvSizes == [] && trace == []
    {
      vao := 0;
      vertexBuffer := 0;
      normalBuffer := 0;
      tangentBuffer := 0;
      colorBuffer := 0;
      uvBuffers := [];
      uvSizes := [];
      num := d.num;
      dynamic := flags & GS_DYNAMIC != 0;
      data := Some(d);
      trace := [];
    }

    /** `gl_create_buffer` for one stream: issues the creation call. */
    method CreateStreamBuffer(d: VbData, s: Stream, usage: int, gl: VbGl) returns (ok: bool)
      modifies this`trace
      ensures ok == (s in gl.created)
      ensures trace == old(trace) + [StreamCall(d, s, usage)]
    {
      trace := trace + [StreamCall(d, s, usage)];
      ok := s in gl.created;
    }

    /** The position, normal, tangent and colour buffers. Each name is
        what the driver leaves in the buffer field, created or not. */
    method CreateFixed(d: VbData, usage: int, gl: VbGl) returns (success: bool)
      modifies this`trace, this`vertexBuffer, this`normalBuffer, this`tangentBuffer, this`colorBuffer
      ensures success == FixedOk(d, gl.created)
      ensures trace == old(trace) + StreamCalls(d, FixedTried(d, gl.created), usage)
      ensures FixedNames(d, gl, old(normalBuffer), old(tangentBuffer), old(colorBuffer),
        vertexBuffer, normalBuffer, tangentBuffer, colorBuffer)
    {
      FixedTriedCalls(d, gl.created, usage);
      success := CreateStreamBuffer(d, Position, usage, gl);
      vertexBuffer := Name(gl, Position);
      if success {
        success := CreateOptionalBuffers(d, usage, gl);
      }
    }

    /** The normal, tangent and colour buffers, each only when its stream
        has data, stopping at the first failure. */
    method CreateOptionalBuffers(d: VbData, usage: int, gl: VbGl) returns (success: bool)
      modifies this`trace, this`normalBuffer, this`tangentBuffer, this`colorBuffer
      ensures var ok := gl.created;
        success == (OptOk(d.normals > 0, Normal, ok) && OptOk(d.tangents > 0, Tangent, ok)
                    && OptOk(d.colors > 0, Color, ok))
      ensures var ok := gl.created;
        trace == old(trace) + OptCall(d, d.normals > 0, Normal, usage)
          + (if !OptOk(d.normals > 0, Normal, ok) then [] else
            OptCall(d, d.tangents > 0, Tangent, usage) + (if !OptOk(d.tangents > 0, Tangent, ok) then [] else
              OptCall(d, d.colors > 0, Color, usage)))
      ensures var ok := gl.created;
        && normalBuffer == (if d.normals > 0 then Name(gl, Normal) else old(normalBuffer))
        && tangentBuffer == (if d.tangents > 0 && OptOk(d.normals > 0, Normal, ok)
                             then Name(gl, Tangent) else old(tangentBuffer))
        && colorBuffer == (if d.colors > 0 && OptOk(d.normals > 0, Normal, ok) && OptOk(d.tangents > 0, Tangent, ok)
                           then Name(gl, Color) else old(colorBuffer))
    {
      success := true;
      if d.normals > 0 {
        success := CreateStreamBuffer(d, Normal, usage, gl);
        normalBuffer := Name(gl, Normal);
        if !success {
          return;
        }
      }
      if d.tangents > 0 {
        success := CreateStreamBuffer(d, Tangent, usage, gl);
        tangentBuffer := Name(gl, Tangent);
        if !success {
          return;
        }
      }
      if d.colors > 0 {
        success := CreateStreamBuffer(d, Color, usage, gl);
        colorBuffer := Name(gl, Color);
      }
    }

    /** The texture-coordinate buffers, in order; entry `i` of both tables
        is written once buffer `i` is created. */
    method CreateUvBuffers(d: VbData, usage: int, gl: VbGl) returns (success: bool)
      requires WellFormed(d) && |uvBuffers| == d.numTex && |uvSizes| == d.numTex
      modifies this`trace, this`uvBuffers, this`uvSizes
      ensures var u := UvStreams(d);
        var k := CreatedPrefix(u, gl.created);
        && success == (k == d.numTex)
        && trace == old(trace) + StreamCalls(d, Attempted(u, gl.created), usage)
        && |uvBuffers| == d.numTex && |uvSizes| == d.numTex
        && (forall i :: 0 <= i < d.numTex ==>
             uvBuffers[i] == if i < k then Name(gl, Uv(i)) else old(uvBuffers[i]))
        && (forall i :: 0 <= i < d.numTex ==>
             uvSizes[i] == if i < k then d.tvarray[i].width else old(uvSizes[i]))
    {
      ghost var u, b0, s0 := UvStreams(d), uvBuffers, uvSizes;
      for i := 0 to d.numTex
        invariant CreatedPrefix(u[..i], gl.created) == i
        invariant trace == old(trace) + StreamCalls(d, u[..i], usage)
        invariant |uvBuffers| == d.numTex && |uvSizes| == d.numTex
        invariant forall j :: 0 <= j < d.numTex ==>
          uvBuffers[j] == if j < i then Name(gl, Uv(j)) else b0[j]
        invariant forall j :: 0 <= j < d.numTex ==>
          uvSizes[j] == if j < i then d.tvarray[j].width else s0[j]
      {
        UvStep(d, i, usage, gl.created);
        var created := CreateStreamBuffer(d, Uv(i), usage, gl);
        if !created {
          return false;
        }
        uvBuffers := uvBuffers[i := Name(gl, Uv(i))];
        uvSizes := uvSizes[i := d.tvarray[i].width];
      }
      assert u[..d.numTex] == u;
      success := true;
    }

    /** `create_buffers`. */
    method CreateBuffers(gl: VbGl) returns (success: bool)
      requires data.Some? && WellFormed(data.value)
      modifies this
      ensures unchanged(this`num, this`dynamic)
      ensures var d := old(data.value);
        var fixedOk := FixedOk(d, gl.created);
        var usage := Usage(dynamic);
        && trace == old(trace) + StreamCalls(d, FixedTried(d, gl.created), usage)
             + (if fixedOk then RestCalls(d, usage, gl) else [])
        && success == (fixedOk && RestOk(d, gl))
        && data == (if fixedOk && UvOk(d, gl) && !dynamic then None else old(data))
        && vao == (if fixedOk && UvOk(d, gl) then gl.vao else old(vao))
      ensures var d := old(data.value);
        if FixedOk(d, gl.created) then UvTables(d, gl, old(uvBuffers), old(uvSizes), uvBuffers, uvSizes)
        else uvBuffers == old(uvBuffers) && uvSizes == old(uvSizes)
      ensures FixedNames(old(data.value), gl, old(normalBuffer), old(tangentBuffer), old(colorBuffer),
        vertexBuffer, normalBuffer, tangentBuffer, colorBuffer)
    {
      var d := data.value;
      var usage := Usage(dynamic);
      success := CreateFixed(d, usage, gl);
      if success {
        success := CreateRest(d, usage, gl);
      }
    }

    /** What `create_buffers` does once the fixed buffers exist: the
        texture-coordinate buffers, then the release of the data of a
        static buffer and the vertex array object. */
    method CreateRest(d: VbData, usage: int, gl: VbGl) returns (success: bool)
      requires WellFormed(d)
      modifies this`trace, this`uvBuffers, this`uvSizes, this`data, this`vao
      ensures success == RestOk(d, gl)
      ensures trace == old(trace) + RestCalls(d, usage, gl)
      ensures UvTables(d, gl, old(uvBuffers), old(uvSizes), uvBuffers, uvSizes)
      ensures data == (if UvOk(d, gl) && !dynamic then None else old(data))
      ensures vao == (if UvOk(d, gl) then gl.vao else old(vao))
    {
      uvBuffers := Resize(uvBuffers, d.numTex, 0);
      uvSizes := Resize(uvSizes, d.numTex, 0);
      success := CreateUvBuffers(d, usage, gl);
      if !success {
        return;
      }
      if !dynamic {
        data := None;
      }
      trace := trace + [GenVertexArray];
      vao := gl.vao;
      success := gl.vaoOk;
    }
  }
}
