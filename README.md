# lite-obs core, modelled in Dafny

This project models the core of lite-obs, a trimmed-down OBS capture and encoding library, in Dafny. It covers:

- the graphics subsystem with its thread-local context and matrix and viewport stacks;
- the serialised shader descriptor parser behind `init_effect`;
- the GL device;
- textures, programs and vertex buffers;
- `astrcmpi`;
- the layout and copying of raw video frames;
- the general part of an encoder;
- the core audio state;
- sources;
- the global source registry;
- the core video activity counters.

The OpenGL driver is never modelled as a machine. Every GL call a component issues is appended to that component's `trace: seq<GlCall>`, and every outcome the driver decides comes in as a parameter:

- whether a call succeeds;
- the names it hands out;
- the locations it reports;
- whether a shader compiles or a program links.

The contracts then state which calls are issued in which order under every combination of outcomes. They also state what the object's fields hold afterwards, and which of them stay as they were.

Where the source updates an object in place, the model does too: a `class` with the source's fields, and methods with `modifies` clauses. These are the device, texture, program, vertex buffer, subsystem, thread state, frame, encoder, core audio state, source and registry. The text processing is pure and is modelled as functions and lemmas: `split`, `std::stoi`/`std::stoull`, the descriptor grammar, `astrcmpi`'s comparison and the frame layout. Each loop of the source is a method, proved against a function that specifies it:
- `split`;
- `init_effect`'s pair loop;
- the descriptor's item loops;
- `astrcmpi`;
- the registry's erase loops;
- the audio buffer allocation.

Integer widths are explicit where the source's arithmetic depends on them:
- `uint32_t` products in the frame layout and the texture sizes (`Common.U32`);
- the 64-bit `size_t` in `ALIGN_SIZE`;
- the `uint32_t`-to-`int` conversion of the viewport's y.

## Model

| member | source | states |
|---|---|---|
| SubsystemText.Find | src/graphics/gs_subsystem.cpp:22 | `std::string::find` from a position: a result is an occurrence of the delimiter at or after that position |
| SubsystemText.FindLeast | src/graphics/gs_subsystem.cpp:22 | the occurrence found is the first one: none starts between the position and it, and no result means no occurrence at all |
| SubsystemText.Split | src/graphics/gs_subsystem.cpp:17-30 | the loop yields the reference split, with one token more than there are delimiter occurrences; an empty string splits into one empty token |
| SubsystemText.JoinSplitSpec | src/graphics/gs_subsystem.cpp:17-30 | joining the tokens of a split with the delimiter gives back the original string |
| SubsystemText.SplitCount | src/graphics/gs_subsystem.cpp:17-30 | the number of tokens is the number of non-overlapping occurrences plus one |
| SubsystemText.TokensAvoidDelimiter | src/graphics/gs_subsystem.cpp:17-30 | no token of a split contains the delimiter |
| SubsystemText.SplitJoin | src/graphics/gs_subsystem.cpp:17-30 | splitting a join of tokens that hold no trace of the delimiter gives back exactly those tokens |
| SubsystemText.StripRemoves | src/graphics/gs_subsystem.cpp:116 | erasing every newline leaves none, is no longer than the input, and keeps the count of every other character |
| DecimalText.LeadingSpaces | src/graphics/gs_subsystem.cpp:250 | the whitespace `std::stoi` skips is the longest all-space prefix |
| DecimalText.LeadingDigits | src/graphics/gs_subsystem.cpp:250 | the digits read are the longest all-digit prefix |
| DecimalText.StoI | src/graphics/gs_subsystem.cpp:250 | `std::stoi` returns the signed value read exactly when digits are read and the value lies in the `int` range, and throws otherwise |
| DecimalText.StoULL | src/graphics/gs_subsystem.cpp:251 | `std::stoull` returns a value below 2^64 exactly when digits are read and their magnitude is below 2^64, and that value is congruent to the signed value modulo 2^64, so a minus sign negates it modulo 2^64 |
| DecimalText.StoULLNatText | src/graphics/gs_subsystem.cpp:251 | every decimal rendering of a 64-bit value reads back as that value |
| DecimalText.StoIIntText | src/graphics/gs_subsystem.cpp:250 | every decimal rendering of an `int` reads back as that value |
| DecimalText.ReadIntText | src/graphics/gs_subsystem.cpp:268 | a rendered integer is read as its sign and magnitude |
| DecimalText.IntTextNoSpace | src/graphics/gs_subsystem.cpp:242 | a rendered integer holds no space, so it survives the split of a line into fields |
| ShaderDescriptor.SamplerOf | src/graphics/gs_subsystem.cpp:274-294 | a sampler line yields a sampler exactly for the names `def_sampler` and `textureSampler`; that sampler keeps the name and has known settings |
| ShaderDescriptor.ParseLines | src/graphics/gs_subsystem.cpp:240-255 | the item loop produces the reference parse: the items in order, or the first failure, after which nothing more is read |
| ShaderDescriptor.ParseUpToFailed | src/graphics/gs_subsystem.cpp:240-255 | once a line fails to parse, the whole section fails with that error |
| ShaderDescriptor.ReadItems | src/graphics/gs_subsystem.cpp:237-255 | reading a section gives the reference list of its items |
| ShaderDescriptor.ReadSamplers | src/graphics/gs_subsystem.cpp:274-294 | reading the sampler section gives the reference list of its samplers |
| ShaderDescriptor.ShaderFromString | src/graphics/gs_subsystem.cpp:222-302 | the parse equals the reference parse; any section count other than five is a null shader; a shader is made only of the requested kind and only when it compiles |
| ShaderDescriptor.ParamLineRoundTrip | src/graphics/gs_subsystem.cpp:242-255 | a rendered parameter line parses back to the same parameter |
| ShaderDescriptor.ParamFieldFourUnread | src/graphics/gs_subsystem.cpp:242-252 | the fifth field of a parameter line is never read: any value there gives the same parameter |
| ShaderDescriptor.AttribLineRoundTrip | src/graphics/gs_subsystem.cpp:261-272 | a rendered attribute line parses back to the same attribute |
| ShaderDescriptor.ParamsRoundTrip | src/graphics/gs_subsystem.cpp:237-255 | a rendered parameter section reads back as the same list of parameters |
| ShaderDescriptor.AttribsRoundTrip | src/graphics/gs_subsystem.cpp:257-272 | a rendered attribute section reads back as the same list of attributes |
| ShaderDescriptor.SamplersRoundTrip | src/graphics/gs_subsystem.cpp:274-294 | a rendered sampler section of known samplers reads back as the same list |
| ShaderDescriptor.ShaderRoundTrip | src/graphics/gs_subsystem.cpp:222-302 | a rendered shader parses back to itself when the kind matches and it compiles |
| Subsystem.Register | src/graphics/gs_subsystem.cpp:129 | `std::map::insert` adds the effect's name and never replaces an existing entry |
| Subsystem.InitKeepsEntries | src/graphics/gs_subsystem.cpp:119-139 | loading effects never changes an entry that was already registered, and every new entry is registered under its own name |
| Subsystem.InitRegistersAll | src/graphics/gs_subsystem.cpp:119-139 | a load that returns true has registered a program for every (vertex, pixel) pair |
| Subsystem.StopAtFailure | src/graphics/gs_subsystem.cpp:131-137 | at the first failing pair the loop stops, leaves the registry as it is and returns false or propagates the exception |
| Subsystem.PairNamedByPixel | src/graphics/gs_subsystem.cpp:123-129 | a registered pair had both shaders parse and link, and it is named after its pixel shader |
| Subsystem.VertexThrowFirst | src/graphics/gs_subsystem.cpp:123-126 | an exception or a null shader from the vertex entry decides the pair before the pixel entry matters |
| Subsystem.RunPairs | src/graphics/gs_subsystem.cpp:119-139 | the pair loop leaves the reference registry and result |
| Subsystem.ReadEntries | src/graphics/gs_subsystem.cpp:116-118 | the entries are the effect text with newlines erased, split at the 39-character separator |
| Subsystem.GraphicsSubsystem.constructor | src/graphics/gs_subsystem.cpp:94-97 | a new subsystem holds no device, empty stacks, no effects, no entries into its context and a zero blend state |
| Subsystem.GraphicsSubsystem.GetEffectByName | src/graphics/gs_subsystem.cpp:144-150 | an effect is found exactly when its name is registered, and it is the registered one |
| Subsystem.GraphicsSubsystem.InitEffect | src/graphics/gs_subsystem.cpp:114-142 | the registry and result are those of the reference load of the effect text |
| Subsystem.GraphicsSubsystem.GraphicsInit | src/graphics/gs_subsystem.cpp:173-210 | without a device it fails at once; otherwise the identity is pushed, without a sprite buffer it fails with the old sprite buffer, effects and blend state kept, and otherwise the effects are loaded and the blend state set on success; the device trace is enter, the blend call on success, and leave unless an exception escaped; none of the device's other fields change |
| Subsystem.GraphicsSubsystem.SetInitBlend | src/graphics/gs_subsystem.cpp:192-200 | after a successful load the blend function goes to GL and into the state, blending enabled, and GL's factors are the conversions of the state's; otherwise nothing happens |
| Subsystem.GraphicsSubsystem.DrawSprite | src/graphics/gs_subsystem.cpp:152-171 | without a texture, a zero width or height refuses the draw; otherwise the sprite buffer is loaded and drawn |
| Subsystem.ThreadState.constructor | src/graphics/gs_subsystem.cpp:72-83 | a thread starts with no current subsystem, so `gs_valid` is false |
| Subsystem.ThreadState.Enter | src/graphics/gs_subsystem.cpp:305-320 | entering the current subsystem again only counts; entering another leaves the old one's context, takes the new one's lock and enters its device context; afterwards `gs_valid` holds; the stacks, effects, blend state and device bindings of both subsystems stay as they were |
| Subsystem.ThreadState.Leave | src/graphics/gs_subsystem.cpp:322-333 | a no-op outside a context; otherwise one entry is released, and the last release leaves the device context, unlocks and clears the current subsystem, so `gs_valid` holds afterwards exactly when an entry remains; the stacks, effects, blend state and device bindings stay as they were |
| Subsystem.ThreadState.SetRenderSize | src/graphics/gs_subsystem.cpp:449-459 | depth test off, culling off and a viewport over the whole size, via the device; nothing else in the subsystem or on the device changes |
| Subsystem.ThreadState.TechniqueEnd | src/graphics/gs_subsystem.cpp:499-512 | with a program set, its texture and parameter bindings are cleared, the device's textures are emptied and no program remains; with none, nothing happens; nothing else changes |
| Subsystem.ThreadState.EnableDepthTest | src/graphics/gs_subsystem.cpp:362-371 | GL's depth test is switched on or off as asked, and only GL's trace changes |
| Subsystem.ThreadState.EnableBlending | src/graphics/gs_subsystem.cpp:373-384 | the flag is recorded in the blend state and GL's blending switched accordingly; nothing else changes |
| Subsystem.ThreadState.ViewportPush | src/graphics/gs_subsystem.cpp:522-530 | the device's viewport goes on top of the stack; nothing else changes |
| Subsystem.ThreadState.ViewportPop | src/graphics/gs_subsystem.cpp:532-544 | an empty stack leaves everything unchanged; otherwise the top is removed and given to the device, and nothing else changes |
| Subsystem.ThreadState.MatrixPush | src/graphics/gs_subsystem.cpp:562-569 | the top matrix is duplicated on top of the stack; nothing else changes |
| Subsystem.ThreadState.MatrixPop | src/graphics/gs_subsystem.cpp:571-583 | an empty stack is left alone; otherwise the top is removed; nothing else changes |
| Subsystem.ThreadState.MatrixIdentity | src/graphics/gs_subsystem.cpp:585-597 | the top matrix becomes the identity, and an empty stack is left alone; nothing else changes |
| Subsystem.MatrixPushThenPop | src/graphics/gs_subsystem.cpp:562-583 | a matrix push followed by a pop leaves the current subsystem and its device as they were |
| Subsystem.ViewportPushThenPop | src/graphics/gs_subsystem.cpp:522-544 | a viewport push followed by a pop leaves the subsystem and the device's bindings and viewport as they were, and GL is given that viewport again |
| GsSubsystemInfo.FlagsDisjointBits | src/graphics/gs_subsystem_info.h:17-22 | each creation flag is a single bit and no two share one |
| GsSubsystemInfo.BlendTypeRoundTrip | src/graphics/gs_subsystem_info.h:39-67 | every blend factor is recovered from the GL factor it converts to |
| GsSubsystemInfo.BlendTypeInjective | src/graphics/gs_subsystem_info.h:39-67 | distinct blend factors convert to distinct GL factors |
| GsSubsystemInfo.FormatByChannels | src/graphics/gs_subsystem_info.h:83-111 | the GL pixel layout is decided by the channel count alone, and only the unknown format has none |
| GsSubsystemInfo.InternalFormatDistinct | src/graphics/gs_subsystem_info.h:113-141 | the internal formats differ except for A8 and R8, and only the unknown format has none |
| GsSubsystemInfo.FormatTypeByBits | src/graphics/gs_subsystem_info.h:143-171 | the GL component type is decided by the bits per channel alone |
| GsDevice.ToInt32 | src/graphics/gs_device.cpp:274-278 | a `uint32_t` converted to `int` lies in the `int` range and is congruent to it modulo 2^32 |
| GsDevice.GlViewportY | src/graphics/gs_device.cpp:274-278 | with no target height y is 0; otherwise the bottom-up y is the target height minus y and height, whenever that fits an `int` |
| GsDevice.CullCallsAgree | src/graphics/gs_device.cpp:232-248 | the calls of a cull mode switch keep GL's culling state in agreement with the device's mode |
| GsDevice.FormatBitsSupported | src/graphics/gs_device.cpp:642-672 | only RGBA has colour bits, which are its channels times their bits; Z16 and Z24S8 have depth bits; only Z24S8 has stencil bits, and it has 32 bits in all |
| GsDevice.UnstoredFbo | src/graphics/gs_device.cpp:159-175 | since the current FBO is never stored, releasing the target issues no call and binding issues one |
| GsDevice.Device.constructor | src/graphics/gs_device.cpp:90-116 | a new device has nothing bound and back-face culling; GL is asked for its vendor, renderer, version and shading-language version, then culling is enabled, the vertex array generated and the context left |
| GsDevice.CreateCallsCull | src/graphics/gs_device.cpp:99-113 | after those calls GL's culling state agrees with the device's back-face mode |
| GsDevice.Device.SetCurrentFbo | src/graphics/gs_device.cpp:159-175 | binds only when the FBO differs from the stored one, succeeds when equal or the bind succeeds, and never changes the stored FBO |
| GsDevice.Device.AttachToFbo | src/graphics/gs_device.cpp:218-229 | binds the FBO, then attaches the render target and the depth-stencil buffer; it succeeds only when both attach |
| GsDevice.Device.SetRenderTarget | src/graphics/gs_device.cpp:203-230 | the same target and depth-stencil buffer again issue nothing; otherwise both are stored, a null target releases the FBO, and a texture is attached through its FBO |
| GsDevice.Device.SetCullMode | src/graphics/gs_device.cpp:232-248 | the mode is stored, and GL gets the calls of a switch from the old mode to the new one |
| GsDevice.Device.SetViewport | src/graphics/gs_device.cpp:271-288 | the top-down viewport is stored, and GL gets it with the bottom-up y |
| GsDevice.Device.LoadVertexBuffer | src/graphics/gs_device.cpp:290-293 | the vertex buffer is stored |
| GsDevice.Device.LoadIndexBuffer | src/graphics/gs_device.cpp:295-298 | the index buffer is stored |
| GsDevice.Device.Draw | src/graphics/gs_device.cpp:300-305 | a draw gets past its check exactly when a vertex buffer is loaded |
| GsDevice.Device.BlendFunctionSeparate | src/graphics/gs_device.cpp:146-156 | GL gets the four blend factors converted |
| GsDevice.Device.ClearTextures | src/graphics/gs_subsystem.cpp:510 | the assumed effect of `gs_device_clear_textures`, which has no body here: every one of the `GS_MAX_TEXTURES` units in `cur_textures` is emptied, and nothing else changes |
| GsDevice.Device.EndProgram | src/graphics/gs_subsystem.cpp:508-511 | the program's bindings are cleared, the texture units emptied and no program remains (the last two by the assumed `ClearTextures` and `SetProgram`) |
| GsDevice.Device.SetProgram | src/graphics/gs_subsystem.cpp:482 | the assumed effect of `gs_device_set_program`, which has no body here: the program is stored for `gs_device_program` to read back |
| GsDevice.DrawIgnoresCanRender | src/graphics/gs_device.cpp:300-310 | a draw with a vertex buffer and no render target gets past its check although `can_render` would refuse |
| GsDevice.CanRenderCases | src/graphics/gs_device.cpp:177-201 | `can_render` refuses without a render target, or without a vertex buffer and vertex count, and accepts otherwise |
| GsTexture.IsPow2Exactly | src/graphics/gs_texture.cpp:262-265 | `is_pow2` holds exactly for the powers of two from 2 on |
| GsTexture.FallbackCases | src/graphics/gs_texture.cpp:275-290 | a dropped mipmap request leaves one level and no build flag; otherwise the level count and flags stay |
| GsTexture.FallbackKeepsFlag | src/graphics/gs_texture.cpp:281-288 | the fallback changes no flag bit but the one that builds mipmaps |
| GsTexture.FallbackMipmapsOnlyPow2 | src/graphics/gs_texture.cpp:275-290 | after the fallback, mipmaps are asked for only on power-of-two sizes |
| GsTexture.FallbackExamples | src/graphics/gs_texture.cpp:275-290 | a 100x50 texture asked for 4 levels gets one, a 64x64 one keeps four, and the render-target flag survives |
| GsTexture.MapLinesizeBounds | src/graphics/gs_texture.cpp:136-163 | the row length reported by `map` is the least multiple of 4 that holds a row |
| GsTexture.UnpackSizeRows | src/graphics/gs_texture.cpp:241-249 | an uncompressed unpack buffer holds exactly `height` mapped rows |
| GsTexture.UploadLevelCount | src/graphics/gs_texture.cpp:202-228 | once bound, the upload initialises the stored number of levels, or one, and then sets the maximum level |
| GsTexture.Texture.constructor | src/graphics/gs_texture.cpp:49 | a new texture's fields are all zero, false or unknown, with no calls made |
| GsTexture.Texture.Create | src/graphics/gs_texture.cpp:75-119 | the description is stored with each flag bit decoded; the calls, the success and the stored unpack size follow the reference sequence of the GL path |
| GsTexture.Texture.CreateGl | src/graphics/gs_texture.cpp:90-116 | the GL part of `create`: a dummy texture, the unpack buffer or the upload, with the reference calls and outcome |
| GsTexture.Texture.CreatePixelUnpackBuffer | src/graphics/gs_texture.cpp:230-260 | the calls stop at the first failure, and the size is stored once the buffer is generated and bound |
| GsTexture.Texture.UploadTexture2D | src/graphics/gs_texture.cpp:202-228 | the upload issues the reference calls and succeeds exactly when they do |
| GsTexture.Texture.InitDummy | src/graphics/gs_texture.cpp:98-116 | a dummy texture gets one empty level of the computed size |
| GsTexture.Texture.Map | src/graphics/gs_texture.cpp:136-163 | a texture that is not dynamic fails without a call; otherwise the buffer is mapped and, on success, the row length reported |
| GsTexture.TextureCreate | src/graphics/gs_texture.cpp:267-301 | outside a graphics context the result is null; otherwise a texture is returned exactly when `create` succeeds with the fallback's levels and flags, and it is fresh and holds that request, GL's trace is exactly `create`'s calls and the unpack size is stored when `create` stores it |
| GsTexture.MipmapFallback | src/graphics/gs_texture.cpp:269-290 | the checks before creation give the reference fallback |
| GsProgram.ResolveStops | src/graphics/gs_program.cpp:128-177 | after the first failed lookup no later item is looked at |
| GsProgram.ResolveCalls | src/graphics/gs_program.cpp:128-177 | the calls issued are the lookups of a prefix of the items, in order, ending at the first failure |
| GsProgram.ResolveFound | src/graphics/gs_program.cpp:128-177 | what a pass stores is the reference list of found values over the items it looked up |
| GsProgram.AttribsInOrder | src/graphics/gs_program.cpp:128-138 | attribute locations are appended in the attributes' order, one lookup per attribute tried |
| GsProgram.AttribPassOk | src/graphics/gs_program.cpp:128-138 | the attribute pass succeeds exactly when every attribute lookup succeeds and finds a location |
| GsProgram.MissingAttribFails | src/graphics/gs_program.cpp:116-122 | an attribute at location -1 makes the pass fail |
| GsProgram.MissingUniformSkipped | src/graphics/gs_program.cpp:148-150 | a uniform at location -1 is skipped: the pass goes on and stores nothing for it |
| GsProgram.ParamPassOk | src/graphics/gs_program.cpp:157-167 | a parameter pass succeeds exactly when every uniform lookup does |
| GsProgram.ParamPassFound | src/graphics/gs_program.cpp:157-167 | the entries a parameter pass stores are the parameters with a location, in order |
| GsProgram.FoundLocated | src/graphics/gs_program.cpp:140-155 | every stored entry pairs a parameter with its own location, which is not -1 |
| GsProgram.UnwindMirrorsAttach | src/graphics/gs_program.cpp:60-107 | every shader attached is detached exactly once: in attach order on success, in reverse on failure |
| GsProgram.Program.constructor | src/graphics/gs_program.cpp:23 | a new program holds no GL name, no shaders, no parameters or attributes and no calls |
| GsProgram.Program.AssignAttrib | src/graphics/gs_program.cpp:110-126 | one lookup; success exactly when GL succeeds and the location is not -1, and then the location is appended |
| GsProgram.Program.AssignAttribs | src/graphics/gs_program.cpp:128-138 | the vertex shader's attributes go through the reference attribute pass |
| GsProgram.Program.AssignParam | src/graphics/gs_program.cpp:140-155 | one lookup; success exactly when GL succeeds, with the entry appended when a location is found |
| GsProgram.Program.AssignShaderParams | src/graphics/gs_program.cpp:157-167 | one shader's parameters go through the reference parameter pass |
| GsProgram.Program.AssignParams | src/graphics/gs_program.cpp:169-177 | every vertex-shader parameter is assigned before any pixel-shader one, and the pixel pass runs only after the vertex pass succeeded |
| GsProgram.Program.AttachShaders | src/graphics/gs_program.cpp:60-70 | the program is created and the shaders are attached up to the first failure |
| GsProgram.Program.Link | src/graphics/gs_program.cpp:72-83 | link, status query, and the error log on failure |
| GsProgram.Program.AssignAll | src/graphics/gs_program.cpp:85-88 | the attribute pass, then the parameter passes, each only after the previous one succeeded |
| GsProgram.Program.Unwind | src/graphics/gs_program.cpp:90-107 | the detach calls for how far the attach steps got and for whether creation succeeded |
| GsProgram.Program.ProgramCreate | src/graphics/gs_program.cpp:53-108 | the shaders and GL name are kept; the success and calls are those of the reference create; attributes and parameters are appended as the passes found them |
| GsProgram.CreateTrace | src/graphics/gs_program.cpp:53-108 | the calls of the steps, in order, form the calls of the whole create |
| GsVertexBuffer.CreatedPrefixExact | src/graphics/gs_vertexbuffer.cpp:33-88 | the buffers created are exactly the streams before the first failure |
| GsVertexBuffer.FailureStops | src/graphics/gs_vertexbuffer.cpp:33-88 | a failure at one stream is where the creation of the whole list stops |
| GsVertexBuffer.StreamsPresent | src/graphics/gs_vertexbuffer.cpp:38-78 | the position stream always comes first, each optional stream appears exactly when it has data, and there is one coordinate stream per array |
| GsVertexBuffer.AttemptedInOrder | src/graphics/gs_vertexbuffer.cpp:33-88 | a create tries every stream in order up to and including the first failure |
| GsVertexBuffer.FixedOkIff | src/graphics/gs_vertexbuffer.cpp:38-62 | the fixed buffers all succeed exactly when none of the fixed streams fails |
| GsVertexBuffer.BuffersInOrder | src/graphics/gs_vertexbuffer.cpp:33-88 | `create_buffers` issues one creation call per stream tried, in order, and succeeds exactly when every stream and the vertex array are created |
| GsVertexBuffer.VertexBuffer.constructor | src/graphics/gs_vertexbuffer.cpp:20-26 | the vertex count and data are kept, dynamic exactly when the flag is set, and no GL object exists yet |
| GsVertexBuffer.VertexBuffer.CreateStreamBuffer | src/graphics/gs_vertexbuffer.cpp:38-41 | one creation call, succeeding exactly when the driver creates that stream |
| GsVertexBuffer.VertexBuffer.CreateFixed | src/graphics/gs_vertexbuffer.cpp:38-62 | the fixed buffers are created in order up to the first failure, and each field gets its name |
| GsVertexBuffer.VertexBuffer.CreateOptionalBuffers | src/graphics/gs_vertexbuffer.cpp:43-62 | each optional stream with data is created in turn, and the first failure stops the rest |
| GsVertexBuffer.VertexBuffer.CreateUvBuffers | src/graphics/gs_vertexbuffer.cpp:64-78 | the coordinate buffers are created in order, each entry recording its name and width |
| GsVertexBuffer.VertexBuffer.CreateBuffers | src/graphics/gs_vertexbuffer.cpp:33-88 | the usage follows the dynamic flag; the calls, success, buffer names, coordinate tables, data release and vertex array are those of the reference create |
| GsVertexBuffer.VertexBuffer.CreateRest | src/graphics/gs_vertexbuffer.cpp:64-88 | after the fixed buffers: the coordinate buffers, then the data release for a static buffer, then the vertex array |
| Shaders.Deref | src/graphics/shaders.cpp:161-164 | a null string reads as the empty string |
| Shaders.ToUpper | src/graphics/shaders.cpp:167-168 | upper-casing maps NUL to NUL only, and ASCII to ASCII |
| Shaders.CompareFrom | src/graphics/shaders.cpp:166-176 | the comparison result is -1, 0 or 1 |
| Shaders.Astrcmpi | src/graphics/shaders.cpp:159-177 | the loop computes the reference case-insensitive comparison, with null read as empty |
| Shaders.CompareZero | src/graphics/shaders.cpp:159-177 | the result is 0 exactly when the strings are equal after upper-casing |
| Shaders.CompareAntisymmetric | src/graphics/shaders.cpp:159-177 | swapping the strings negates the result |
| Shaders.CompareBelow | src/graphics/shaders.cpp:159-177 | the result is -1 exactly when, at the first upper-cased difference, the first string's `char` is smaller |
| Shaders.PrefixBelow | src/graphics/shaders.cpp:159-177 | a proper prefix of an ASCII string compares below it |
| Shaders.PrefixAboveWhenSigned | src/graphics/shaders.cpp:166-176 | with a byte of 128 or more, a signed `char` reverses the prefix rule |
| VideoFrame.AlignSizeMask | src/media-io/video_frame.cpp:3 | `ALIGN_SIZE` on a 64-bit size without wrap rounds up to a multiple of 32 |
| VideoFrame.AlignSizeLeast | src/media-io/video_frame.cpp:3 | the aligned size is the least multiple of 32 not below the size |
| VideoFrame.Layout | src/media-io/video_frame.cpp:29-194 | each format has its number of planes, at most four, and every plane size is a `uint32_t` |
| VideoFrame.PlanesFit | src/media-io/video_frame.cpp:29-194 | planes that hold their rows start on multiples of 32, hold their rows inside the buffer, and do not overlap |
| VideoFrame.I420Layout | src/media-io/video_frame.cpp:29-45 | I420: a full luma plane and two quarter-size chroma planes at aligned offsets |
| VideoFrame.NV12Layout | src/media-io/video_frame.cpp:47-58 | NV12: a luma plane and one interleaved chroma plane of row length `width` |
| VideoFrame.I444Layout | src/media-io/video_frame.cpp:89-99 | I444: three full planes at 0, S and 2S in a buffer of 3S |
| VideoFrame.PackedLayout | src/media-io/video_frame.cpp:60-107 | a packed format has one plane whose row is the width times its bytes per pixel |
| VideoFrame.LayoutHolds | src/media-io/video_frame.cpp:29-194 | every plane holds its rows, except NV12's chroma plane with an odd width |
| VideoFrame.NV12OddWidthOverrun | src/media-io/video_frame.cpp:47-58 | as written, a 33x2 NV12 frame's chroma rows end at byte 129 of a 128-byte buffer |
| VideoFrame.IntendedLayoutFits | src/media-io/video_frame.cpp:29-194 | with the chroma plane sized by whole rows, every plane of every format fits |
| VideoFrame.IntendedRows | src/media-io/video_frame.cpp:29-194 | the intended layout has one plane per plane of the format, the 4:2:0 chroma planes have half the rows, and no row length times the height overflows `uint32_t` |
| VideoFrame.LayoutFits | src/media-io/video_frame.cpp:29-194 | as written, every plane lies inside the buffer and before the next one |
| VideoFrame.MemCpy | src/media-io/video_frame.cpp:212 | `memcpy` overwrites exactly its destination range with the source range |
| VideoFrame.CopyLengths | src/media-io/video_frame.cpp:205-256 | one copy length per plane: the row length times `cy`, halved for 4:2:0 chroma |
| VideoFrame.CopyKeeps | src/media-io/video_frame.cpp:205-256 | a byte no copy writes keeps its value |
| VideoFrame.CopyWrites | src/media-io/video_frame.cpp:205-256 | with disjoint destinations, each copied plane holds the source's bytes |
| VideoFrame.CopyWithinPlanes | src/media-io/video_frame.cpp:205-256 | copying `cy` rows between two frames laid out alike stays inside both buffers, and the destinations are disjoint |
| VideoFrame.OddRowsOverrun | src/media-io/video_frame.cpp:211-214 | as written, copying 3 rows of a 128x3 I420 frame writes 96 bytes into a 64-byte chroma plane |
| VideoFrame.IntendedCopyLengths | src/media-io/video_frame.cpp:205-256 | the corrected copy lengths, whole chroma rows, one per plane |
| VideoFrame.IntendedCopyWithinPlanes | src/media-io/video_frame.cpp:205-256 | with whole chroma rows, every `cy` up to the height stays inside the planes of two frames laid out by the intended layout (NV12 chroma `w*(h/2)` bytes), for every format and every width |
| VideoFrame.Frame.constructor | src/media-io/video_frame.cpp:5-8 | eight null pointers, zero row lengths and an empty buffer |
| VideoFrame.Frame.Init | src/media-io/video_frame.cpp:15-196 | the pointer list gets eight entries; for a format, the pointers are the plane starts, the row lengths are the plane rows, and the buffer is resized to the aligned end |
| VideoFrame.Frame.InitPlanar | src/media-io/video_frame.cpp:29-45 | I420 and I422 pointers, row lengths and buffer size |
| VideoFrame.Frame.InitNV12 | src/media-io/video_frame.cpp:47-58 | NV12 pointers, row lengths and buffer size |
| VideoFrame.Frame.InitI444 | src/media-io/video_frame.cpp:89-99 | I444 pointers, row lengths and buffer size |
| VideoFrame.Frame.InitPacked | src/media-io/video_frame.cpp:60-107 | single-plane pointer, row length and buffer size |
| VideoFrame.Frame.InitWithAlpha | src/media-io/video_frame.cpp:127-194 | four-plane pointers, row lengths and buffer size |
| VideoFrame.Frame.Free | src/media-io/video_frame.cpp:198-203 | both buffers empty and every row length 0 |
| VideoFrame.Copy | src/media-io/video_frame.cpp:205-256 | the destination buffer becomes the reference result of the plane copies; its pointers stay |
| LiteEncoder.Encoder.constructor | src/lite_encoder.cpp:82-86 | everything zero or absent but the mixer index and the type |
| LiteEncoder.Encoder.SetScaledSize | src/lite_encoder.cpp:93-105 | only an inactive video encoder takes the size, then scaling is on exactly when a dimension is non-zero and that dimension is reported |
| LiteEncoder.Encoder.SetPreferredVideoFormat | src/lite_encoder.cpp:164-170 | only a video encoder takes the format, which is then what it reports |
| LiteEncoder.Encoder.SetVideo | src/lite_encoder.cpp:187-202 | a video encoder attaches to a non-null output, which `lite_obs_encoder_video` then returns, and its timebase is the inverse of the frame rate |
| LiteEncoder.Encoder.SetAudio | src/lite_encoder.cpp:204-217 | an audio encoder attaches to a non-null output, which `lite_obs_encoder_audio` then returns, and its timebase is one over the sample rate it reports |
| LiteEncoder.ScalingOnlyForVideo | src/lite_encoder.cpp:93-110 | only a video encoder ever has scaling enabled |
| LiteEncoder.UnscaledSize | src/lite_encoder.cpp:112-138 | without scaling a video encoder reports its output's size |
| LiteEncoder.NeverActive | src/lite_encoder.cpp:239-242 | nothing sets the active flag, so `lite_obs_encoder_active` is always false |
| LiteEncoder.OtherKindReportsNothing | src/lite_encoder.cpp:112-237 | an audio encoder reports no size, format or video output, a video encoder no sample rate, frame size or audio output |
| LiteEncoder.AudioReportsOutput | src/lite_encoder.cpp:140-162 | since the stored rate and frame size are never set, an audio encoder reports its output's sample rate (0 without one) and a frame size of 0 |
| CoreAudio.CoreAudioState.constructor | src/lite_obs_core_audio.cpp:25-28 | no output (so `core_audio` is null), an empty queue and zero counters |
| CoreAudio.CoreAudioState.AudioCallbackInternal | src/lite_obs_core_audio.cpp:40-124 | the range asked for is queued and the oldest removed, so the queue length stays; the output timestamp is the oldest start; the output is ready exactly when no buffering tick remains, otherwise one tick is used |
| CoreAudio.CoreAudioState.FreeAudio | src/lite_obs_core_audio.cpp:178-187 | the output, if any, is closed but kept, and the queue and counters are cleared |
| CoreAudio.CoreAudioState.StartAudio | src/lite_obs_core_audio.cpp:135-166 | an active output refuses and nothing changes; otherwise the state is freed, and with settings an output is opened and taken on success, after which `core_audio` returns it |
| CoreAudio.CoreAudioState.StopAudio | src/lite_obs_core_audio.cpp:168-176 | the output is closed and dropped, so `core_audio` is null, and the state is freed |
| CoreAudio.Settings | src/lite_obs_core_audio.cpp:145-151 | an output named "Audio" with planar float samples at the caller's rate and speakers |
| LiteSource.Source.constructor | src/lite_source.cpp:124-141 | the source defaults (volumes 1, balance 0.5, all mixers, enabled); the flags are zero, so it is not an audio source and no buffer is allocated |
| LiteSource.Source.AllocateAudioOutputBuffer | src/lite_source.cpp:204-219 | one zeroed buffer, and every mix's and channel's entry set to the start of its window |
| LiteSource.WindowInside | src/lite_source.cpp:204-219 | every window lies inside the buffer |
| LiteSource.WindowsDisjoint | src/lite_source.cpp:204-219 | two different windows do not overlap |
| LiteSource.WindowsTile | src/lite_source.cpp:204-219 | every sample of the buffer lies in exactly the window its index names |
| LiteSource.WindowsZeroed | src/lite_source.cpp:204-219 | after allocation every window reads as silence |
| LiteSource.AudioFlagBit | src/lite_source.cpp:199-202 | a source is an audio source exactly when the second lowest flag bit is set |
| CoreVideo.NewCoreVideo | src/lite_obs_core_video.cpp:4-15 | both counters start at zero |
| CoreVideo.NewInactive | src/lite_obs_core_video.cpp:12-25 | a new core video is not active |
| CoreVideo.ActiveExactly | src/lite_obs_core_video.cpp:22-25 | active exactly when one of the counters is positive |
| CoreVideo.StopVideo | src/lite_obs_core_video.cpp:27-30 | stopping changes nothing |
| CoreVideo.StopKeepsActivity | src/lite_obs_core_video.cpp:22-30 | stopping leaves the activity as it was |
| LiteObs.EraseFirst | src/lite_obs.cpp:39-54 | the loop erases the first entry equal to the source, and only that one |
| LiteObs.RemoveFirstAt | src/lite_obs.cpp:39-54 | with the first occurrence at `i`, exactly entry `i` goes and the others keep their order |
| LiteObs.RemoveFirstAbsent | src/lite_obs.cpp:39-54 | erasing an absent source changes nothing |
| LiteObs.RemoveFirstMultiset | src/lite_obs.cpp:39-54 | exactly one occurrence goes, and later duplicates stay |
| LiteObs.RemoveFirstAppended | src/lite_obs.cpp:24-56 | removing a source that was added to a list not holding it restores the list |
| LiteObs.Obs.constructor | src/lite_obs.cpp:19-22 | both lists start empty |
| LiteObs.Obs.AddSource | src/lite_obs.cpp:24-33 | the source goes to the back of the sources list, and of the audio sources list when it is one |
| LiteObs.Obs.RemoveSource | src/lite_obs.cpp:35-56 | the first entry equal to the source is erased from each list |
| SourceLifecycle.ObsSourceCreate | src/lite_source.cpp:112-117 | a fresh source is appended to the registry; with no flags it never joins the audio sources |
| SourceLifecycle.ObsSourceDestroy | src/lite_source.cpp:119-122 | the source is removed from both lists |

## Left out

- VideoFrame.LayoutFits: requires an even NV12 width or a height below 2, because the code as written overruns otherwise (see Findings).
- VideoFrame.CopyWithinPlanes: requires an even `cy` for the 4:2:0 formats, because the code as written overruns otherwise (see Findings).
- VideoFrame.I420Layout, VideoFrame.NV12Layout, VideoFrame.PackedLayout, VideoFrame.LayoutHolds, VideoFrame.IntendedLayoutFits, VideoFrame.IntendedRows, VideoFrame.LayoutFits, VideoFrame.CopyWithinPlanes and VideoFrame.IntendedCopyWithinPlanes: require `NoWrap`, that four bytes per pixel of the image fit in `uint32_t`. Beyond that the `uint32_t` products wrap. `Layout` computes the wrapped values, but no property of them is proved.
- Subsystem.GraphicsSubsystem.InitEffect: requires an even number of entries. With an odd count the loop reads past the end of the entry vector, which is undefined behaviour.
- Subsystem.ThreadState.MatrixPush: requires a non-empty matrix stack, because the code reads its last element unchecked.
- Pointers are modelled as offsets into the owning buffer, or by identity. Pointer arithmetic past a buffer, stale pointers and aliasing between frames are not modelled.
- A `weak_ptr` that no longer locks is `None`; when expiry happens is not modelled.
- Audio outputs are recorded as open and close calls only. `audio_output_active` is a parameter of `StartAudio`.
- Floating-point values are stored as `real` or left out, because their arithmetic is GL's or the mixer's. This covers volume and balance, the ortho and clear parameters, and the sprite's texture coordinates.
- Allocation failure is not modelled, and neither is any `malloc` or `new` that the source never checks.
- `lite_obs_encoder_get_extra_data` (src/lite_encoder.cpp:180-185) is left out: it returns true without writing anything.
- The encoder stubs (src/lite_encoder.cpp:244-267) are left out: they have empty bodies, and those declared to return a value never return one.
- The global `obs` object is a parameter of the source lifecycle methods.
- `obs_reset_video` and `obs_init_graphics` (src/lite_obs.cpp:58-135) are left out: they build platform and GL objects outside this model.
- Mutexes, atomics and `thread_local` are not modelled as concurrency. The recursive graphics mutex is a `locked` flag, and the calling thread's context is a `ThreadState` object.
- The commented-out audio rendering in the callback (src/lite_obs_core_audio.cpp:56-112) is not modelled.
- The second `gs_set_render_target` (src/graphics/gs_texture.cpp:308-324) is not modelled.
- The thin `gs_valid`-guarded wrappers in src/graphics/gs_subsystem.cpp are not modelled separately. They forward to a modelled device method, or to floating-point or empty code. They are `gs_set_render_target`, `gs_begin_scene`/`gs_end_scene`, `gs_set_cull_mode`, `gs_ortho`, `gs_set_viewport`, `gs_get_viewport`, `gs_clear`, `gs_load_texture`, `gs_matrix_get`, `gs_set_cur_effect`, `gs_technique_begin`, `gs_draw`, `gs_projection_push`/`gs_projection_pop`, `gs_get_render_target`, `gs_get_zstencil_target` and `gs_flush`.
- `gs_create_graphics_system` and `gs_graphics_subsystem` are left out: they only allocate the subsystem or return the thread's current one, which is `ThreadState.current`.
- GsDevice.Device.ClearTextures: `gs_device_clear_textures` is called (src/graphics/gs_subsystem.cpp:354, 490, 510) but has no definition in the sources modelled. The model assumes it unbinds every texture unit of `cur_textures` and issues no GL call, as upstream OBS does. The only texture-binding body here, `gs_device_load_texture`, is empty, so nothing is ever bound anyway. `TechniqueEnd` and `EndProgram` rest on this assumption.
- GsDevice.Device.SetProgram: `gs_device_set_program` and `gs_device_program` (src/graphics/gs_subsystem.cpp:482, 492, 504, 511) have no definition in the sources modelled, and the device's private data (src/graphics/gs_device.cpp:53-79) has no program field. The model assumes a stored program that the setter writes and the getter reads, with no GL call. `TechniqueEnd` and `EndProgram` rest on this.
- GsDevice.Device.GetViewport: `gs_device_get_viewport` (src/graphics/gs_subsystem.cpp:415) has no definition in the sources modelled. The model assumes it returns `cur_viewport` as `gs_device_set_viewport` stored it. `ViewportPush` and `ViewportPushThenPop` rest on this.
- GsTexture.UnpackSize: assumes a 64-bit `GLsizeiptr` and forms the product with `height` without wrap-around. The `width * bpp` product is wrapped to `uint32_t` as in the source. On targets with a 32-bit `GLsizeiptr`, or for a product beyond the signed 64-bit range, the source's size would wrap where the model's does not.
- Subsystem.GraphicsSubsystem.DrawSprite: `gs_vertexbuffer_get_data`, `build_sprite_norm` and `gs_vertexbuffer_flush` (src/graphics/gs_subsystem.cpp:163-165) have no definition in the sources modelled, so filling the sprite vertices and flushing them to GL are not modelled; the model leaves the sprite buffer's contents untouched.
- `blog` log output (for example src/lite_encoder.cpp:99 and 115, src/lite_obs_core_audio.cpp:153-158, src/graphics/gs_subsystem.cpp:155) is not modelled; only the control flow around each message is.
- `init_sprite_vb` is not modelled. Its result, the sprite vertex buffer or none, is a parameter of `GraphicsInit`.
- The remaining device plumbing is left out. `gs_device_create`'s platform part and the device context enter and leave appear only as trace events, and `gs_device_load_texture` is empty.
- GsDevice.Device.constructor: models `device_create` when `gl_platform_create` succeeds. The `GS_ERROR_FAIL` return without a platform (src/graphics/gs_device.cpp:96-97) is not modelled, as the platform is outside this model. The strings GL returns are only logged, so the trace records the queries and not their answers.
- `gs_get_format_bpp`, `gs_is_compressed_format` and `gs_get_total_levels` are not part of this model. Their results are parameters (`FormatInfo`).
- The GL shader compiler (`gs_shader_init`) and `glCreateProgram` are outcomes passed in as parameters.
- The destructors are not modelled, including the graphics subsystem's teardown and `free_audio` on destruction.
- `MAX_BUFFERING_TICKS` is declared but never used by the code, so it is left out.
- `MAX_AV_PLANES` (8), `AUDIO_OUTPUT_FRAMES` (1024), `MAX_AUDIO_CHANNELS` (8) and `MAX_AUDIO_MIXES` (6) and `GS_MAX_TEXTURES` (8, used at src/graphics/gs_device.cpp:76) are defined in headers that are not part of this model. They take the values of upstream OBS. So does `gs_cull_mode`: its first enumerator is `GS_BACK`, so the value-initialised `cur_cull_mode` (src/graphics/gs_device.cpp:68) is back-face culling.
- `size_t` sums outside `ALIGN_SIZE` are unbounded naturals.

## Findings

| source | as written | input that shows it | evidently intended | confidence | as-written member | corrected member |
|---|---|---|---|---|---|---|
| src/media-io/video_frame.cpp:47-58 | the NV12 chroma plane reserves `(width/2)*(height/2)*2` bytes but has row length `width` and `height/2` rows | a 33x2 NV12 frame: chroma starts at 96 in a 128-byte buffer, and its one row of 33 bytes ends at 129 | reserve `width*(height/2)` bytes, whole rows of the row length | not executed | VideoFrame.NV12OddWidthOverrun | VideoFrame.IntendedLayoutFits |
| src/media-io/video_frame.cpp:211-214 | 4:2:0 chroma planes copy `linesize*cy/2` bytes, half of `cy` rows rounded into a partial row | copying `cy` = 3 rows of a 128x3 I420 frame: plane 2 starts at 448 in a 512-byte buffer with room for 64 bytes, and 96 are copied | copy `cy/2` whole rows, `linesize*(cy/2)` bytes | not executed | VideoFrame.OddRowsOverrun | VideoFrame.IntendedCopyWithinPlanes |
