// `shader_from_string` from the graphics subsystem: one shader entry of the
// built-in effect text is five sections (name, GLSL source, parameters,
// attributes, samplers) separated by a run of 39 '-'; the list sections hold
// items separated by a run of 39 '+', and each item holds fields separated
// by single spaces.
module ShaderDescriptor {
  import opened Common
  import opened SubsystemText
  import opened DecimalText

  const SECTION_SEP: string := "---------------------------------------"
  const ITEM_SEP: string := "+++++++++++++++++++++++++++++++++++++++"
  const FIELD_SEP: string := " "

  const SAMPLER_STATES: seq<string> := ["Filter", "AddressU", "AddressV"]
  const SAMPLER_VALUES: seq<string> := ["Linear", "Clamp", "Clamp"]

  /** Why no shader came back: a null pointer, or an exception escaping from
      `std::stoi`/`std::stoull`. */
  datatype Failure = NullShader | Threw
  datatype Outcome<T> = Made(value: T) | Failed(why: Failure)

  datatype ShaderType = Vertex | Pixel

  datatype ShaderVar = ShaderVar(typeName: string, name: string, mapping: string, varType: int, samplerId: nat)
  datatype ParserAttrib = ParserAttrib(name: string, mapping: string, input: int)
  datatype ParserSampler = ParserSampler(name: string, states: seq<string>, values: seq<string>)

  /** `gs_shader_info`: what is handed to the shader compiler. */
  datatype ShaderInfo = ShaderInfo(
    source: string, kind: ShaderType,
    vars: seq<ShaderVar>, attribs: seq<ParserAttrib>, samplers: seq<ParserSampler>)

  /** A compiled shader together with the name the parser reports for it. */
  datatype Shader = Shader(name: string, info: ShaderInfo)

  /** The mapping field spells "no mapping" as `null`. */
  function NullToEmpty(m: string): string
  {
    if m == "null" then "" else m
  }

  /** One parameter line: exactly six fields; field 3 is the variable type,
      field 5 the sampler id, field 4 is not read. */
  function ParseParam(line: string): (r: Outcome<ShaderVar>)
  {
    var p := SplitSpec(line, FIELD_SEP);
    if |p| != 6 then Failed(NullShader)
    else
      var varType := StoI(p[3]);
      var id := StoULL(p[5]);
      if varType.None? || id.None? then Failed(Threw)
      else Made(ShaderVar(p[0], p[1], NullToEmpty(p[2]), varType.value, id.value))
  }

  /** One attribute line: exactly three fields. */
  function ParseAttrib(line: string): (r: Outcome<ParserAttrib>)
  {
    var a := SplitSpec(line, FIELD_SEP);
    if |a| != 3 then Failed(NullShader)
    else
      var input := StoI(a[2]);
      if input.None? then Failed(Threw)
      else Made(ParserAttrib(a[0], NullToEmpty(a[1]), input.value))
  }

  /** The first `n` lines parsed in order; the first failure is the result. */
  function ParseUpTo<T>(lines: seq<string>, n: nat, parse: string -> Outcome<T>): Outcome<seq<T>>
    requires n <= |lines|
  {
    if n == 0 then Made([])
    else
      match ParseUpTo(lines, n - 1, parse)
      case Failed(w) => Failed(w)
      case Made(vs) =>
        match parse(lines[n - 1])
        case Failed(w) => Failed(w)
        case Made(v) => Made(vs + [v])
  }

  predicate KnownSampler(s: ParserSampler)
  {
    (s.name == "def_sampler" || s.name == "textureSampler")
    && s.states == SAMPLER_STATES && s.values == SAMPLER_VALUES
  }

  /** The sampler a name stands for; other names stand for none. */
  function SamplerOf(name: string): (r: Option<ParserSampler>)
    ensures r.Some? <==> name == "def_sampler" || name == "textureSampler"
    ensures r.Some? ==> KnownSampler(r.value) && r.value.name == name
  {
    if name == "def_sampler" || name == "textureSampler"
    then Some(ParserSampler(name, SAMPLER_STATES, SAMPLER_VALUES))
    else None
  }

  /** Samplers for the first `n` names, in order, unknown names skipped. */
  function SamplersUpTo(names: seq<string>, n: nat): (r: seq<ParserSampler>)
    requires n <= |names|
    ensures |r| <= n
    ensures forall k :: 0 <= k < |r| ==> KnownSampler(r[k])
  {
    if n == 0 then []
    else
      match SamplerOf(names[n - 1])
      case None => SamplersUpTo(names, n - 1)
      case Some(s) => SamplersUpTo(names, n - 1) + [s]
  }

  function KindOf(vertexShader: bool): ShaderType
  {
    if vertexShader then Vertex else Pixel
  }

  /** The items of a parameter or attribute section, each line read by
      `parse`; an empty section holds none. */
  function ItemsOf<T>(section: string, parse: string -> Outcome<T>): Outcome<seq<T>>
  {
    if |section| > 0 then
      var lines := SplitSpec(section, ITEM_SEP);
      ParseUpTo(lines, |lines|, parse)
    else Made([])
  }

  function SamplersOf(section: string): seq<ParserSampler>
  {
    if |section| > 0 then
      var names := SplitSpec(section, ITEM_SEP);
      SamplersUpTo(names, |names|)
    else []
  }

  /** What `shader_from_string` yields; `compiles` stands for the result of
      `gs_shader_init`, which hands the text to the GL compiler. */
  function ShaderSpec(entry: string, vertexShader: bool, compiles: ShaderInfo -> bool): Outcome<Shader>
  {
    var sections := SplitSpec(entry, SECTION_SEP);
    if |sections| != 5 then Failed(NullShader)
    else
      var vars := ItemsOf(sections[2], ParseParam);
      if vars.Failed? then Failed(vars.why)
      else
        var attribs := ItemsOf(sections[3], ParseAttrib);
        if attribs.Failed? then Failed(attribs.why)
        else
          var info := ShaderInfo(sections[1], KindOf(vertexShader), vars.value, attribs.value,
                                 SamplersOf(sections[4]));
          if compiles(info) then Made(Shader(sections[0], info)) else Failed(NullShader)
  }

  /** Once a line has failed, every longer prefix fails the same way. */
  lemma {:induction false} FailureSticks<T>(lines: seq<string>, i: nat, n: nat, parse: string -> Outcome<T>, w: Failure)
    requires i < n <= |lines|
    requires ParseUpTo(lines, i, parse).Made? && parse(lines[i]) == Failed(w)
    ensures ParseUpTo(lines, n, parse) == Failed(w)
    decreases n - i
  {
    if n > i + 1 {
      FailureSticks(lines, i, n - 1, parse, w);
    }
  }

  /** A prefix parses exactly when each of its lines does, and then the
      result holds each line's value in order. */
  lemma {:induction false} ParseUpToMade<T>(lines: seq<string>, n: nat, parse: string -> Outcome<T>)
    requires n <= |lines|
    ensures ParseUpTo(lines, n, parse).Made? <==> forall k :: 0 <= k < n ==> parse(lines[k]).Made?
    ensures ParseUpTo(lines, n, parse).Made? ==>
      |ParseUpTo(lines, n, parse).value| == n &&
      forall k :: 0 <= k < n ==> ParseUpTo(lines, n, parse).value[k] == parse(lines[k]).value
  {
    if n > 0 {
      ParseUpToMade(lines, n - 1, parse);
    }
  }

  /** A failed prefix reports the failure of its first failing line. */
  lemma {:induction false} ParseUpToFailed<T>(lines: seq<string>, n: nat, parse: string -> Outcome<T>)
    requires n <= |lines| && ParseUpTo(lines, n, parse).Failed?
    ensures exists j :: 0 <= j < n && parse(lines[j]) == Failed(ParseUpTo(lines, n, parse).why)
                     && forall k :: 0 <= k < j ==> parse(lines[k]).Made?
  {
    ParseUpToMade(lines, n - 1, parse);
    if ParseUpTo(lines, n - 1, parse).Failed? {
      ParseUpToFailed(lines, n - 1, parse);
    } else {
      assert parse(lines[n - 1]) == Failed(ParseUpTo(lines, n, parse).why);
    }
  }

  /** Appending one parsed line to a parsed prefix. */
  lemma ParseStep<T>(lines: seq<string>, i: nat, parse: string -> Outcome<T>, vs: seq<T>, v: T)
    requires i < |lines| && ParseUpTo(lines, i, parse) == Made(vs) && parse(lines[i]) == Made(v)
    ensures ParseUpTo(lines, i + 1, parse) == Made(vs + [v])
  {
  }

  /** The item loop that `shader_from_string` runs over the parameter and
      the attribute lines: each line is parsed in turn and the first
      failure ends the loop. */
  method ParseLines<T>(lines: seq<string>, parse: string -> Outcome<T>) returns (r: Outcome<seq<T>>)
    ensures r == ParseUpTo(lines, |lines|, parse)
  {
    var values: seq<T> := [];
    var i := 0;
    while i < |lines|
      invariant 0 <= i <= |lines|
      invariant ParseUpTo(lines, i, parse) == Made(values)
    {
      var v := parse(lines[i]);
      if v.Failed? {
        FailureSticks(lines, i, |lines|, parse, v.why);
        return Failed(v.why);
      }
      ParseStep(lines, i, parse, values, v.value);
      values := values + [v.value];
      i := i + 1;
    }
    r := Made(values);
  }

  /** The parameter or the attribute section of `shader_from_string`: an
      empty section holds no items. */
  method ReadItems<T>(section: string, parse: string -> Outcome<T>) returns (r: Outcome<seq<T>>)
    ensures r == ItemsOf(section, parse)
  {
    r := Made([]);
    if |section| > 0 {
      var lines := Split(section, ITEM_SEP);
      r := ParseLines(lines, parse);
    }
  }

  /** The sampler loop of `shader_from_string`. */
  method ReadSamplers(section: string) returns (samplers: seq<ParserSampler>)
    ensures samplers == SamplersOf(section)
  {
    samplers := [];
    if |section| > 0 {
      var names := Split(section, ITEM_SEP);
      var i := 0;
      while i < |names|
        invariant 0 <= i <= |names|
        invariant SamplersUpTo(names, i) == samplers
      {
        var name := names[i];
        if name == "def_sampler" {
          samplers := samplers + [ParserSampler("def_sampler", SAMPLER_STATES, SAMPLER_VALUES)];
        } else if name == "textureSampler" {
          samplers := samplers + [ParserSampler("textureSampler", SAMPLER_STATES, SAMPLER_VALUES)];
        }
        i := i + 1;
      }
    }
  }

  /** `shader_from_string`. */
  method ShaderFromString(entry: string, vertexShader: bool, compiles: ShaderInfo -> bool)
    returns (r: Outcome<Shader>)
    ensures r == ShaderSpec(entry, vertexShader, compiles)
    ensures CountFrom(entry, SECTION_SEP, 0) != 4 ==> r == Failed(NullShader)
    ensures r.Made? ==> r.value.info.kind == KindOf(vertexShader) && compiles(r.value.info)
  {
    var strings := Split(entry, SECTION_SEP);
    if |strings| != 5 {
      return Failed(NullShader);
    }
    var vars := ReadItems(strings[2], ParseParam);
    if vars.Failed? {
      return Failed(vars.why);
    }
    var attribs := ReadItems(strings[3], ParseAttrib);
    if attribs.Failed? {
      return Failed(attribs.why);
    }
    var samplers := ReadSamplers(strings[4]);
    var info := ShaderInfo(strings[1], KindOf(vertexShader), vars.value, attribs.value, samplers);
    if !compiles(info) {
      return Failed(NullShader);
    }
    r := Made(Shader(strings[0], info));
  }

  // ---- Writing a shader entry back as text, and reading it again ----

  /** An empty mapping is written as `null`. */
  function MappingText(m: string): string
  {
    if m == "" then "null" else m
  }

  /** A field that holds no space. */
  predicate Word(s: string) { ' ' !in s }

  function ParamFields(v: ShaderVar, unread: string): seq<string>
  {
    [v.typeName, v.name, MappingText(v.mapping), IntText(v.varType), unread, NatText(v.samplerId)]
  }

  function ParamLine(v: ShaderVar, unread: string): string
  {
    Join(ParamFields(v, unread), FIELD_SEP)
  }

  function AttribFields(a: ParserAttrib): seq<string>
  {
    [a.name, MappingText(a.mapping), IntText(a.input)]
  }

  function AttribLine(a: ParserAttrib): string
  {
    Join(AttribFields(a), FIELD_SEP)
  }

  /** A parameter that its text form can carry: its words hold no space, a
      real mapping is not spelled `null`, and the numbers are in range. */
  predicate WritableVar(v: ShaderVar)
  {
    Word(v.typeName) && Word(v.name) && Word(v.mapping) && v.mapping != "null"
    && INT_MIN <= v.varType <= INT_MAX && v.samplerId < TWO64
  }

  predicate WritableAttrib(a: ParserAttrib)
  {
    Word(a.name) && Word(a.mapping) && a.mapping != "null" && INT_MIN <= a.input <= INT_MAX
  }

  lemma WordsClean(f: seq<string>)
    requires forall i :: 0 <= i < |f| ==> Word(f[i])
    ensures forall i :: 0 <= i < |f| ==> Clean(f[i], FIELD_SEP)
  {
    forall i | 0 <= i < |f| ensures Clean(f[i], FIELD_SEP) {
      CleanChar(f[i], ' ');
    }
  }

  /** A parameter line reads back as the parameter it was written from. */
  lemma ParamLineRoundTrip(v: ShaderVar, unread: string)
    requires WritableVar(v) && Word(unread)
    ensures ParseParam(ParamLine(v, unread)) == Made(v)
  {
    var f := ParamFields(v, unread);
    IntTextNoSpace(v.varType);
    NatTextNoSpace(v.samplerId);
    WordsClean(f);
    SplitJoin(f, FIELD_SEP);
    StoIIntText(v.varType);
    StoULLNatText(v.samplerId);
  }

  /** Field 4 of a parameter line is never read: any word there gives the
      same result. */
  lemma ParamFieldFourUnread(f: seq<string>, x: string)
    requires |f| == 6 && forall i :: 0 <= i < 6 ==> Word(f[i])
    requires Word(x)
    ensures ParseParam(Join(f[4 := x], FIELD_SEP)) == ParseParam(Join(f, FIELD_SEP))
  {
    var g := f[4 := x];
    WordsClean(f);
    WordsClean(g);
    SplitJoin(f, FIELD_SEP);
    SplitJoin(g, FIELD_SEP);
  }

  /** An attribute line reads back as the attribute it was written from. */
  lemma AttribLineRoundTrip(a: ParserAttrib)
    requires WritableAttrib(a)
    ensures ParseAttrib(AttribLine(a)) == Made(a)
  {
    var f := AttribFields(a);
    IntTextNoSpace(a.input);
    WordsClean(f);
    SplitJoin(f, FIELD_SEP);
    StoIIntText(a.input);
  }

  function ParamLines(vars: seq<ShaderVar>, unread: seq<string>): (r: seq<string>)
    requires |unread| == |vars|
    ensures |r| == |vars|
  {
    seq(|vars|, i requires 0 <= i < |vars| && i < |unread| => ParamLine(vars[i], unread[i]))
  }

  function AttribLines(attribs: seq<ParserAttrib>): (r: seq<string>)
    ensures |r| == |attribs|
  {
    seq(|attribs|, i requires 0 <= i < |attribs| => AttribLine(attribs[i]))
  }

  function SamplerNames(samplers: seq<ParserSampler>): (r: seq<string>)
    ensures |r| == |samplers|
  {
    seq(|samplers|, i requires 0 <= i < |samplers| => samplers[i].name)
  }

  /** The five sections of a shader entry, in order. */
  function Sections(sh: Shader, unread: seq<string>): seq<string>
    requires |unread| == |sh.info.vars|
  {
    [sh.name, sh.info.source,
     Join(ParamLines(sh.info.vars, unread), ITEM_SEP),
     Join(AttribLines(sh.info.attribs), ITEM_SEP),
     Join(SamplerNames(sh.info.samplers), ITEM_SEP)]
  }

  /** The text of a shader entry; `unread` holds field 4 of each parameter. */
  function RenderShader(sh: Shader, unread: seq<string>): string
    requires |unread| == |sh.info.vars|
  {
    Join(Sections(sh, unread), SECTION_SEP)
  }

  /** A shader that its text form can carry. The cleanliness conditions say
      that no separator run starts inside an item or a section. */
  predicate Writable(sh: Shader, unread: seq<string>)
  {
    |unread| == |sh.info.vars|
    && (forall i :: 0 <= i < |sh.info.vars| ==> WritableVar(sh.info.vars[i]) && Word(unread[i]))
    && (forall i :: 0 <= i < |sh.info.attribs| ==> WritableAttrib(sh.info.attribs[i]))
    && (forall i :: 0 <= i < |sh.info.samplers| ==> KnownSampler(sh.info.samplers[i]))
    && (forall i :: 0 <= i < |sh.info.vars| ==> Clean(ParamLine(sh.info.vars[i], unread[i]), ITEM_SEP))
    && (forall i :: 0 <= i < |sh.info.attribs| ==> Clean(AttribLine(sh.info.attribs[i]), ITEM_SEP))
    && (forall i :: 0 <= i < 5 ==> Clean(Sections(sh, unread)[i], SECTION_SEP))
  }

  lemma JoinNonEmpty(tokens: seq<string>, d: string)
    requires |tokens| >= 1 && |tokens[0]| > 0
    ensures |Join(tokens, d)| > 0
  {
  }

  /** A list of lines joined into a section reads back item by item,
      provided no line holds the item separator. */
  lemma ItemsRoundTrip<T>(lines: seq<string>, parse: string -> Outcome<T>, values: seq<T>)
    requires |lines| == |values|
    requires forall k :: 0 <= k < |lines| ==> parse(lines[k]) == Made(values[k])
    requires forall k :: 0 <= k < |lines| ==> Clean(lines[k], ITEM_SEP)
    requires |lines| > 0 ==> |lines[0]| > 0
    ensures ItemsOf(Join(lines, ITEM_SEP), parse) == Made(values)
  {
    if |lines| > 0 {
      JoinNonEmpty(lines, ITEM_SEP);
      SplitJoin(lines, ITEM_SEP);
      ParseUpToMade(lines, |lines|, parse);
      assert ParseUpTo(lines, |lines|, parse).value == values;
    }
  }

  lemma ParamsRoundTrip(sh: Shader, unread: seq<string>)
    requires Writable(sh, unread)
    ensures ItemsOf(Sections(sh, unread)[2], ParseParam) == Made(sh.info.vars)
  {
    var vars := sh.info.vars;
    var lines := ParamLines(vars, unread);
    forall k | 0 <= k < |lines| ensures ParseParam(lines[k]) == Made(vars[k]) {
      ParamLineRoundTrip(vars[k], unread[k]);
    }
    if |vars| > 0 {
      assert lines[0] == Join(ParamFields(vars[0], unread[0]), FIELD_SEP);
    }
    ItemsRoundTrip(lines, ParseParam, vars);
  }

  lemma AttribsRoundTrip(sh: Shader, unread: seq<string>)
    requires Writable(sh, unread)
    ensures ItemsOf(Sections(sh, unread)[3], ParseAttrib) == Made(sh.info.attribs)
  {
    var attribs := sh.info.attribs;
    var lines := AttribLines(attribs);
    forall k | 0 <= k < |lines| ensures ParseAttrib(lines[k]) == Made(attribs[k]) {
      AttribLineRoundTrip(attribs[k]);
    }
    if |attribs| > 0 {
      assert lines[0] == Join(AttribFields(attribs[0]), FIELD_SEP);
    }
    ItemsRoundTrip(lines, ParseAttrib, attribs);
  }

  lemma {:induction false} KnownSamplersKept(samplers: seq<ParserSampler>, n: nat)
    requires n <= |samplers|
    requires forall i :: 0 <= i < |samplers| ==> KnownSampler(samplers[i])
    ensures SamplersUpTo(SamplerNames(samplers), n) == samplers[..n]
  {
    if n > 0 {
      KnownSamplersKept(samplers, n - 1);
      assert SamplerOf(SamplerNames(samplers)[n - 1]) == Some(samplers[n - 1]);
      assert samplers[..n] == samplers[..n - 1] + [samplers[n - 1]];
    }
  }

  lemma SamplersRoundTrip(sh: Shader, unread: seq<string>)
    requires Writable(sh, unread)
    ensures SamplersOf(Sections(sh, unread)[4]) == sh.info.samplers
  {
    var samplers := sh.info.samplers;
    var names := SamplerNames(samplers);
    if |samplers| > 0 {
      assert KnownSampler(samplers[0]);
      JoinNonEmpty(names, ITEM_SEP);
      forall i | 0 <= i < |names| ensures Clean(names[i], ITEM_SEP) {
        assert KnownSampler(samplers[i]);
        CleanWithoutLead(names[i], ITEM_SEP);
      }
      SplitJoin(names, ITEM_SEP);
      KnownSamplersKept(samplers, |samplers|);
      assert samplers[..|samplers|] == samplers;
    }
  }

  /** Reading a written shader entry gives back the shader, provided the
      compiler accepts it. */
  lemma ShaderRoundTrip(sh: Shader, unread: seq<string>, compiles: ShaderInfo -> bool)
    requires Writable(sh, unread) && compiles(sh.info)
    ensures ShaderSpec(RenderShader(sh, unread), sh.info.kind == Vertex, compiles) == Made(sh)
  {
    var sections := Sections(sh, unread);
    SplitJoin(sections, SECTION_SEP);
    ParamsRoundTrip(sh, unread);
    AttribsRoundTrip(sh, unread);
    SamplersRoundTrip(sh, unread);
  }
}
