# MiniEngine renderer core, modelled in Dafny

This project models the CPU-side bookkeeping of the `suplex` OpenGL renderer (MiniEngine). It covers:

- the framebuffer resource layer;
- the bloom mip chain;
- procedural geometry;
- model and mesh import;
- shader loading;
- the render passes and their sequencing in the renderer;
- the YAML scene serializer.

The models prove properties about each of these.

The graphics card is abstracted as a context (`GL.Device`):

- Object names come fresh from a counter. Name 0 is the default framebuffer and "no object".
- Every pipeline call the renderer makes is appended to a log (`trace`).
- Vertex-array and buffer-object calls go to a second log (`geometryTrace`) with their own name counter.
- The pipeline state (bound framebuffer, viewport, program, texture units, blend, stencil, depth and cull settings, fill mode) is computed by folding `GL.Step` over the log (`GL.Run`).
- Floating-point payloads are opaque values or reals.
- The shader files the context can open are a map from path to text (`files`).

Things that only the GPU or outside libraries decide are parameters of the operations that need them:

- framebuffer completeness;
- the pixel a read returns;
- the Assimp scene tree;
- the texture loader;
- the YAML parse result;
- the model loader used by the deserializer.

One Dafny module models each core source file:

| module | file |
|---|---|
| `Textures` | `Texture.hpp` |
| `Buffers` | `Buffer.hpp` |
| `FramebufferSpecs` | `Framebuffer.hpp` |
| `Framebuffers` | `Framebuffer.cpp` |
| `Depthbuffers` | `Depthbuffer.cpp` |
| `HdrFramebuffers` | `HdrFramebuffer.cpp` |
| `Blooms` | `Bloom.hpp` |
| `Shapes` | `Shape.cpp` |
| `Meshes` | `Mesh.hpp` |
| `Models` | `Model.hpp` |
| `Shaders` | `Shader.hpp` |
| `Configs` | `Config.hpp` |
| `RenderPasses` | `RenderPass.hpp` |
| `ForwardPasses` | `ForwardPass.hpp/.cpp` |
| `PrecomputePasses` | `PrecomputePass.hpp` |
| `CubeMapPasses` | `CubeMapPass.hpp` |
| `SsaoPasses` | `SSAOPass.hpp` |
| `PostprocessPasses` | `PostprocessPass.hpp` |
| `Renderers` | `Renderer.hpp/.cpp` |
| `SceneSerialization` | `SceneSerilizer.cpp` |

Small shared modules complete the model:

- `GL`, the context;
- `Wrappers`, `Option` and `Result`;
- `Strings`, last-index search, decimal text, and the stream extraction of an unsigned number;
- `LinearAlgebra`, vectors and 4 x 4 matrices as opaque reals;
- `Entities`, entities as the passes and the serializer see them.

Classes whose fields the source updates in place are Dafny classes: buffers, framebuffers, bloom, meshes, models, passes, the renderer and the serializer. Their methods state their new fields and the calls they append to the log. Pure parts are functions, with lemmas that connect them. Examples of pure parts are spec partitioning, the sphere and grid index layouts, shader naming and the vector encodings.

The renderer source is from an older revision than the render-pass header. It binds passes to framebuffer names and reads `m_Config`. `Renderers.QueuedPass` models the pass interface that `Renderer.cpp` uses. Each file is modelled as written. The renderer runs the precompute bake as written: the pass's shader list ends with slot 0 holding the BRDF shader. `PrecomputePasses.PrecomputePass.Render` is the corrected bake, which leaves the list unchanged; it is listed under Findings and no caller in the model uses it.

## Model

| member | source | states |
|---|---|---|
| Buffers.BindTargetsBuffer | Runtime/src/Render/Buffer/Buffer.hpp:22-26 | after Bind the buffer is the draw framebuffer and the viewport is exactly its width by height |
| Buffers.UnbindRestoresDefault | Runtime/src/Render/Buffer/Buffer.hpp:28 | after Unbind the default framebuffer 0 is the draw target again |
| Buffers.Buffer.constructor | Runtime/src/Render/Buffer/Buffer.hpp:11-15 | one fresh framebuffer name is generated and bound at once; texture, width and height start at 0 |
| Buffers.Buffer.Sized | Runtime/src/Render/Buffer/Buffer.hpp:17 | Buffer(w, h) delegates to Buffer() and its resize request is the base class's no-op, so the size stays 0 by 0 |
| Buffers.Buffer.Bind | Runtime/src/Render/Buffer/Buffer.hpp:22-26 | issues exactly glBindFramebuffer(id) then glViewport(0, 0, width, height), generating no name |
| Buffers.Buffer.Unbind | Runtime/src/Render/Buffer/Buffer.hpp:28 | issues exactly glBindFramebuffer(0) |
| Buffers.Buffer.OnResize | Runtime/src/Render/Buffer/Buffer.hpp:20 | the base class's resize hook changes nothing |
| Depthbuffers.DepthResizeAttachments | Runtime/src/Render/Buffer/Depthbuffer.cpp:19-39 | a resize frees the old depth texture, creates one new texture, attaches it as the depth attachment and switches draw and read buffers off |
| Depthbuffers.DepthResizeLeavesBinding | Runtime/src/Render/Buffer/Depthbuffer.cpp:41-46 | a complete depth buffer ends unbound with the viewport at the new size; an incomplete one stays bound with the viewport unchanged |
| Depthbuffers.Depthbuffer.constructor | Runtime/src/Render/Buffer/Depthbuffer.hpp:8 | Depthbuffer() = default: only the base buffer, one fresh bound framebuffer name |
| Depthbuffers.Depthbuffer.Sized | Runtime/src/Render/Buffer/Depthbuffer.cpp:9 | Depthbuffer(w, h) only runs the base constructor: its resize request reaches the base class's no-op, so the size stays 0 by 0 and no depth texture exists |
| Depthbuffers.Depthbuffer.OnResize | Runtime/src/Render/Buffer/Depthbuffer.cpp:11-47 | nothing happens at the current size; otherwise the size is recorded and the depth texture is replaced by a fresh name, with the calls of DepthResizeCalls |
| Textures.FormatCode | Runtime/src/Render/Texture/Texture.hpp:8 | enumerator values: None is 0, Depth shares DEPTH24STENCIL8's value 5 and RED_INTEGER is 6 |
| Textures.FormatOfCode | Runtime/src/Render/Texture/Texture.hpp:8 | an integer names a format exactly when it lies in 0..6 |
| Textures.FormatCodeRoundTrip | Runtime/src/Render/Texture/Texture.hpp:8 | every format's value names it back, and RED_INTEGER follows Depth |
| Textures.FormatCodeInjective | Runtime/src/Render/Texture/Texture.hpp:8 | two formats share a value only when they are the same format |
| Textures.Texture.constructor | Runtime/src/Render/Texture/Texture.hpp:14-44 | a texture starts with id, size and channels 0, no image data, and empty type and path |
| Textures.Texture.Allocate | Runtime/src/Render/Texture/Texture.hpp:16 | the base allocation hook changes nothing |
| Textures.Texture.AllocateSized | Runtime/src/Render/Texture/Texture.hpp:17 | the sized base allocation hook changes nothing |
| Textures.Texture.LoadData | Runtime/src/Render/Texture/Texture.hpp:19-21 | the base loading hooks change nothing |
| Textures.Texture.SetType | Runtime/src/Render/Texture/Texture.hpp:31 | sets the type and leaves every other field as it was |
| Textures.Texture.SetPath | Runtime/src/Render/Texture/Texture.hpp:33 | sets the path and leaves every other field as it was |
| Configs.ToneMappingCode | Runtime/src/Render/Config/Config.hpp:37 | the integer a cast of a tone-mapping operator gives is below 3 |
| Configs.ToneMappingOfCode | Editor/src/EditorLayer.hpp:359 | an integer is cast back to an operator exactly when it lies in 0..2 |
| Configs.ToneMappingCodeRoundTrip | Editor/src/EditorLayer.hpp:359 | the code of an operator names it back, and only its own code does |
| Configs.FogTypeCode | Runtime/src/Render/Config/Config.hpp:17 | a fog type's integer is its declaration position, below 4 |
| Configs.FogTypeOfCode | Runtime/src/Render/Config/Config.hpp:17 | an integer names a fog type exactly when it lies in 0..3 |
| Configs.FogTypeCodeRoundTrip | Runtime/src/Render/Config/Config.hpp:17 | the code of a fog type names it back, and only its own code does |
| Configs.DefaultLightSetting | Runtime/src/Render/Config/Config.hpp:19-29 | a fresh light setting casts shadows, does not use the environment map, has an orthogonal light camera and intensity 7 |
| Configs.DefaultPostprocessSetting | Runtime/src/Render/Config/Config.hpp:31-52 | the post-processing defaults: every effect on, ACES, exposure 0.8, bloom threshold 2, intensity 0.1, radius 0.005, no fog with density 0.3 |
| Configs.DefaultPBRSetting | Runtime/src/Render/Config/Config.hpp:54-61 | the material defaults: base colour 0.6 grey, metallic 0, roughness 0.1, ambient occlusion 1 |
| Configs.DefaultGraphicsConfig | Runtime/src/Render/Config/Config.hpp:63-72 | a fresh configuration: vsync on, shaded polygons, environment map resolution 2048, and the three default settings |
| Configs.DefaultGraphicsContext | Runtime/src/Render/Config/Config.hpp:74-78 | a fresh context holds a fresh configuration and no selected entity |
| Strings.LastIndexOf | Runtime/src/Render/Shader/Shader.hpp:93 | the position of the last occurrence of a character, or none exactly when it does not occur |
| Strings.BeforeLastSplits | Runtime/src/Render/Shader/Shader.hpp:93 | the cut-off prefix plus the character plus a tail free of it rebuilds the text; text without the character is kept whole |
| Strings.NatToString | Runtime/src/Scene/SceneSerilizer.cpp:144 | decimal text of a non-negative number is all digits |
| Strings.ParseNat | Runtime/src/Scene/SceneSerilizer.cpp:144 | the inverse of std::to_string succeeds exactly on a non-empty run of decimal digits |
| Strings.TrimEnd | Runtime/src/Scene/SceneSerilizer.cpp:188-212 | the text with its trailing white space removed: a prefix ending in no white space, all of whose dropped characters are white space |
| Strings.RadixDigit | Runtime/src/Scene/SceneSerilizer.cpp:188-212 | a digit's value in base 8, 10 or 16 is below the base |
| Strings.StreamUnsigned | Runtime/src/Scene/SceneSerilizer.cpp:188-212 | the unsigned stream extraction refuses text starting with '-' or with white space |
| Strings.DecimalRadixValue | Runtime/src/Scene/SceneSerilizer.cpp:188-212 | decimal digits read in base 10 give their decimal value |
| Strings.StreamUnsignedDecimal | Runtime/src/Scene/SceneSerilizer.cpp:188-212 | decimal digits with no leading zero, or a lone 0, are extracted as their decimal value |
| Strings.NatToStringLead | Runtime/src/Scene/SceneSerilizer.cpp:144 | std::to_string writes no leading zero |
| Strings.NatToStringExtracts | Runtime/src/Scene/SceneSerilizer.cpp:144-212 | the stream extraction reads back what std::to_string writes |
| Strings.StreamUnsignedRadix | Runtime/src/Scene/SceneSerilizer.cpp:188-212 | the base follows the prefix: 0x1F is 31, 017 is 15, 08 and a bare 0x are refused |
| Strings.StreamUnsignedSigns | Runtime/src/Scene/SceneSerilizer.cpp:188-212 | +42 and "42 " read as 42; " 42" and -1 are refused |
| Strings.NatToStringRoundTrip | Runtime/src/Scene/SceneSerilizer.cpp:144-212 | reading the decimal text of a number gives the number back |
| FramebufferSpecs.ColorSpecs | Runtime/src/Render/Buffer/Framebuffer.cpp:20-28 | the colour specifications are the non-depth entries of the list, in list order |
| FramebufferSpecs.DepthSpecs | Runtime/src/Render/Buffer/Framebuffer.cpp:20-23 | the depth entries of the list |
| FramebufferSpecs.PartitionIsPermutation | Runtime/src/Render/Buffer/Framebuffer.cpp:20-28 | every entry lands in exactly one of the colour and depth lists (as multisets) |
| FramebufferSpecs.ColorSpecsAppend | Runtime/src/Render/Buffer/Framebuffer.cpp:20-28 | the colour list of a concatenation is the colour lists of its parts in turn, so relative order is kept |
| FramebufferSpecs.DepthSpecIsLastDepth | Runtime/src/Render/Buffer/Framebuffer.cpp:21-23 | the depth specification is the last depth entry, or the default when there is none |
| Framebuffers.FilterParam | Runtime/src/Render/Buffer/Framebuffer.cpp:48-56 | the filter parameter is nearest exactly for a nearest specification and linear exactly for a linear one |
| Framebuffers.WrapParam | Runtime/src/Render/Buffer/Framebuffer.cpp:58-76 | each wrap mode maps to its own GL wrap parameter and back |
| Framebuffers.StorageFormat | Runtime/src/Render/Buffer/Framebuffer.cpp:78-89 | R32I exactly for RED_INTEGER, RGBA16F exactly for RGBA, and RGB16F for every other format including the default branch |
| Framebuffers.ColorList | Runtime/src/Render/Buffer/Framebuffer.cpp:96-99 | the draw-buffer list is GL_COLOR_ATTACHMENT0 .. n-1 in order, as std::iota fills it |
| Framebuffers.ReplaceColorTexture | Runtime/src/Render/Buffer/Framebuffer.cpp:43-93 | one colour attachment: the old texture freed, one fresh name made, set up by its specification (with a white border colour when it clamps to its border) and attached at its index |
| Framebuffers.ReplaceDepthTexture | Runtime/src/Render/Buffer/Framebuffer.cpp:103-122 | the depth texture: old one freed, one fresh depth-component texture with nearest filtering, clamping to a white border, attached to this framebuffer |
| Framebuffers.ReplaceRenderbuffer | Runtime/src/Render/Buffer/Framebuffer.cpp:124-136 | the renderbuffer name is always replaced, but only a swap-chain target gives it storage and attaches it |
| Framebuffers.RecreateColorTextures | Runtime/src/Render/Buffer/Framebuffer.cpp:42-94 | the colour loop in specification order: attachment i gets the i-th fresh name, and the calls are ColorCalls', border colours included |
| Framebuffers.PartitionAttachments | Runtime/src/Render/Buffer/Framebuffer.cpp:18-29 | the constructor's loop: the colour specifications are ColorSpecs of the list, each with name 0, and the depth specification is DepthSpecOf the list |
| Framebuffers.RecreateAttachments | Runtime/src/Render/Buffer/Framebuffer.cpp:39-136 | everything between the size check and the completeness check, ending in the state Resized describes |
| Framebuffers.Resized | Runtime/src/Render/Buffer/Framebuffer.cpp:35-136 | the state a resize leaves keeps its well-formedness: one colour name per colour specification |
| Framebuffers.ColorCalls | Runtime/src/Render/Buffer/Framebuffer.cpp:42-94 | seven calls per colour attachment, plus the border colour for each one that clamps to its border |
| Framebuffers.ColorCallsShape | Runtime/src/Render/Buffer/Framebuffer.cpp:42-94 | the colour loop binds no framebuffer, never sets the viewport and never picks draw buffers |
| Framebuffers.ColorCallsPrefix | Runtime/src/Render/Buffer/Framebuffer.cpp:42-94 | the calls for the first j attachments are a prefix of those for the first k, for j <= k |
| Framebuffers.ColorCallsSlice | Runtime/src/Render/Buffer/Framebuffer.cpp:42-94 | attachment i's calls come right after those of the attachments before it, whatever their lengths |
| Framebuffers.ColorCallsAllocate | Runtime/src/Render/Buffer/Framebuffer.cpp:65-92 | attachment i's storage upload, its attachment at GL_COLOR_ATTACHMENT0+i, and its white border colour when it clamps to its border are among the calls |
| Framebuffers.AttachmentCallsAllocate | Runtime/src/Render/Buffer/Framebuffer.cpp:65-92 | one attachment's calls upload its storage and attach it, and set the white border colour exactly when it clamps to its border |
| Framebuffers.ColorCallsBorders | Runtime/src/Render/Buffer/Framebuffer.cpp:65-68 | every border-colour call of the colour loop sets white and belongs to an attachment that clamps to its border |
| Framebuffers.ResizeBordersFromClamps | Runtime/src/Render/Buffer/Framebuffer.cpp:42-136 | every border colour a resize sets is white, and one is set only when there is a depth attachment or a clamp-to-border colour attachment |
| Framebuffers.ResizeSetsBorders | Runtime/src/Render/Buffer/Framebuffer.cpp:65-117 | a resize with a depth attachment or a clamp-to-border colour attachment sets a white border colour |
| Framebuffers.ResizeAllocatesEachColor | Runtime/src/Render/Buffer/Framebuffer.cpp:42-94 | every colour specification gets its storage and is attached at its own index during a resize |
| Framebuffers.ResizedColorName | Runtime/src/Render/Buffer/Framebuffer.cpp:44 | after a resize colour attachment i holds the i-th new name |
| Framebuffers.ResizeBodyShape | Runtime/src/Render/Buffer/Framebuffer.cpp:39-136 | before the completeness check a resize binds no framebuffer but its own and never sets the viewport |
| Framebuffers.TailPicksNoDrawBuffers | Runtime/src/Render/Buffer/Framebuffer.cpp:102-136 | nothing after glDrawBuffers picks draw buffers again |
| Framebuffers.ResizeDrawBuffers | Runtime/src/Render/Buffer/Framebuffer.cpp:96-100 | glDrawBuffers is issued exactly when there are colour attachments, and lists all of them in order |
| Framebuffers.ResizeLeavesBinding | Runtime/src/Render/Buffer/Framebuffer.cpp:138-144 | a complete framebuffer ends unbound with the viewport at the new size; an incomplete one stays bound with the viewport unchanged |
| Framebuffers.ResizedNamesAreFresh | Runtime/src/Render/Buffer/Framebuffer.cpp:44-126 | the new colour, depth and renderbuffer names are pairwise distinct and come from this resize's range |
| Framebuffers.Framebuffer.Default | Runtime/src/Render/Buffer/Framebuffer.hpp:48 | Framebuffer() = default: a bound framebuffer name and nothing attached |
| Framebuffers.Framebuffer.Sized | Runtime/src/Render/Buffer/Framebuffer.cpp:16 | Framebuffer(w, h): the size request reaches only the base class's no-op, so it stays 0 by 0 with nothing attached |
| Framebuffers.Framebuffer.constructor | Runtime/src/Render/Buffer/Framebuffer.cpp:18-29 | Framebuffer(spec): colour specifications are the non-depth entries in order, each with a 0 name, the depth specification is the last depth entry, and the swap-chain flag is copied |
| Framebuffers.Framebuffer.OnResize | Runtime/src/Render/Buffer/Framebuffer.cpp:31-145 | nothing happens at the current size; otherwise the size is recorded, the state becomes Resized and the calls are ResizeCalls (border colours included), the completeness verdict deciding the ending |
| Framebuffers.Framebuffer.ReadPixel | Runtime/src/Render/Buffer/Framebuffer.cpp:148-160 | an index past the colour attachments answers -1 with no GL call; otherwise the buffer is bound, that attachment read and the pixel returned |
| Framebuffers.Framebuffer.Bind | Runtime/src/Render/Buffer/Buffer.hpp:22-26 | binds the framebuffer and sets the viewport to its size |
| HdrFramebuffers.HdrColorLoop | Runtime/src/Render/Buffer/HdrFramebuffer.cpp:25-42 | six calls per pass of the colour loop |
| HdrFramebuffers.HdrColorbufferCallsShape | Runtime/src/Render/Buffer/HdrFramebuffer.cpp:22-42 | the colour part frees the two old textures, creates two new ones and attaches each at its own colour attachment, and nothing else |
| HdrFramebuffers.HdrColorCallsShape | Runtime/src/Render/Buffer/HdrFramebuffer.cpp:29-41 | one pass attaches its texture and creates, frees and binds no framebuffer |
| HdrFramebuffers.HdrRenderbufferCallsShape | Runtime/src/Render/Buffer/HdrFramebuffer.cpp:45-52 | the renderbuffer part frees the old one, creates and attaches the new one as depth attachment, and binds only this framebuffer |
| HdrFramebuffers.HdrResizeReplacesNames | Runtime/src/Render/Buffer/HdrFramebuffer.cpp:22-46 | a resize frees exactly the two old textures and the old renderbuffer and creates exactly two textures and one renderbuffer |
| HdrFramebuffers.HdrResizeAttachments | Runtime/src/Render/Buffer/HdrFramebuffer.cpp:37-52 | the new textures are attached at colour attachments 0 and 1, no other texture is attached, and the renderbuffer is the depth attachment |
| HdrFramebuffers.HdrResizeDrawBuffers | Runtime/src/Render/Buffer/HdrFramebuffer.cpp:55-61 | the draw-buffer list is set only for a complete framebuffer, and then names exactly the two colour attachments |
| HdrFramebuffers.HdrResizeLeavesBinding | Runtime/src/Render/Buffer/HdrFramebuffer.cpp:55-64 | a complete framebuffer ends unbound; an incomplete one stays bound |
| HdrFramebuffers.HdrResizeFreesWhatItHolds | Runtime/src/Render/Buffer/HdrFramebuffer.cpp:22 | glDeleteTextures receives the two names the array holds, whatever they are |
| HdrFramebuffers.UninitialisedColorbuffersDeleteLiveTexture | Runtime/src/Render/Buffer/HdrFramebuffer.hpp:23 | with the array left uninitialised and holding a live texture's name, the first resize destroys that texture |
| HdrFramebuffers.ZeroedColorbuffersDeleteNothing | Runtime/src/Render/Buffer/HdrFramebuffer.hpp:23 | with the array zeroed the first resize frees only name 0, which GL ignores |
| HdrFramebuffers.RecreateColorbuffers | Runtime/src/Render/Buffer/HdrFramebuffer.cpp:22-42 | both textures freed and regenerated in one call each, then set up and attached one by one; the array ends with the two fresh names |
| HdrFramebuffers.RecreateRenderbuffer | Runtime/src/Render/Buffer/HdrFramebuffer.cpp:45-52 | the depth renderbuffer replaced by one fresh name with depth storage, attached to this framebuffer |
| HdrFramebuffers.HdrFramebuffer.constructor | Runtime/src/Render/Buffer/HdrFramebuffer.hpp:9 | HdrFramebuffer() value-initialised through std::make_shared: array {0, 0}, one bound framebuffer name |
| HdrFramebuffers.HdrFramebuffer.Sized | Runtime/src/Render/Buffer/HdrFramebuffer.cpp:9-12 | HdrFramebuffer(w, h): size 0 by 0 (the resize reaches the base no-op) and the colour array holds whatever it held |
| HdrFramebuffers.HdrFramebuffer.SizedZeroed | Runtime/src/Render/Buffer/HdrFramebuffer.cpp:9-12 | HdrFramebuffer(w, h) with the colour array zeroed |
| HdrFramebuffers.HdrFramebuffer.OnResize | Runtime/src/Render/Buffer/HdrFramebuffer.cpp:14-65 | nothing at the current size; otherwise size recorded, both colour textures and the renderbuffer replaced, draw buffers set only when complete |
| Shaders.BoolInt | Runtime/src/Render/Shader/Shader.hpp:109-113 | the integer SetInt uploads for a flag is 1 exactly when the flag is set, else 0 |
| Shaders.ShaderPath | Runtime/src/Render/Shader/Shader.hpp:18-31 | a shader file is opened under the fixed prefix followed by its own name |
| Shaders.ShaderNameRule | Runtime/src/Render/Shader/Shader.hpp:93 | an explicit name wins; otherwise the fragment file name up to its last dot, or the whole name when it has no dot |
| Shaders.StageCallsShape | Runtime/src/Render/Shader/Shader.hpp:64-91 | the two stages are compiled from the read text into two fresh shader names, linked into the next name and exactly those two shaders are deleted |
| Shaders.LoadCompilesAndFrees | Runtime/src/Render/Shader/Shader.hpp:28-94 | a load compiles both files' text (empty text when a file cannot be opened), links them into the new program and then frees the two stages |
| Shaders.CompileStages | Runtime/src/Render/Shader/Shader.hpp:67-91 | issues the stage calls; the program is the third fresh name |
| Shaders.LoadFromFile | Runtime/src/Render/Shader/Shader.hpp:28-94 | the shader's program is the third fresh name, its name follows ShaderNameRule and the calls are LoadCalls |
| Shaders.New | Runtime/src/Render/Shader/Shader.hpp:26 | Shader(vert, frag) loads with no explicit name, so the name is the fragment file name before its last dot |
| Shaders.SamplerTarget | Runtime/src/Render/Shader/Shader.hpp:105 | a cube-map sampler binds the cube-map target and a 2D sampler the 2D target |
| Shaders.BindTextureBindsUnit | Runtime/src/Render/Shader/Shader.hpp:102-107 | after BindTexture the unit is active, holds the texture on the sampler's target, and the sampler uniform is set to the unit |
| Shaders.BindTextureTo | Runtime/src/Render/Shader/Shader.hpp:102-107 | issues the three calls of BindTexture |
| Shaders.Bind | Runtime/src/Render/Shader/Shader.hpp:96 | the shader's program becomes current |
| Shaders.Unbind | Runtime/src/Render/Shader/Shader.hpp:97 | no program is current |
| Shaders.SetUniformValue | Runtime/src/Render/Shader/Shader.hpp:109-137 | SetInt, SetFloat, SetFloat2, SetFloat3 and SetMaterix4: one upload to the named uniform of this program |
| Shaders.BindTexturesRun | Runtime/src/Render/Shader/Shader.hpp:102-107 | binding textures in turn leaves the units as BoundUnits says, keeps framebuffer and viewport, and sets each sampler to its unit |
| Shaders.BindTexturesEvents | Runtime/src/Render/Shader/Shader.hpp:102-107 | binding textures only activates units, binds textures and sets samplers |
| Shaders.BoundUnitsAt | Runtime/src/Render/Shader/Shader.hpp:102-107 | with pairwise distinct units, every texture is still on its unit after all are bound |
| Shapes.QuadCoversScreen | Runtime/src/Render/Geometry/Shape/Shape.cpp:19-23 | the quad's 20 floats place its four corners at ±1 in x and y with z 0, and each corner's texture coordinate is its position mapped from [-1, 1] onto [0, 1] |
| Shapes.SphereCountsAgree | Runtime/src/Render/Geometry/Shape/Shape.cpp:134-168 | 65 by 65 vertices and 64 rows of 130 indices |
| Shapes.SphereGridAt | Runtime/src/Render/Geometry/Shape/Shape.cpp:137-149 | vertex 65·x + y is the point of segment (x, y): every (x, y) in 0..64, x-major |
| Shapes.SphereVertices | Runtime/src/Render/Geometry/Shape/Shape.cpp:137-149 | the vertex loop builds the x-major grid of 4225 points, normals equal to positions and each texture coordinate the segment over 64 |
| Shapes.EvenRowAt | Runtime/src/Render/Geometry/Shape/Shape.cpp:153-159 | even rows pair (y·65 + x, (y+1)·65 + x) for x ascending |
| Shapes.OddRowAt | Runtime/src/Render/Geometry/Shape/Shape.cpp:160-165 | odd rows pair ((y+1)·65 + x, y·65 + x) for x descending from 64 |
| Shapes.RowBounded | Runtime/src/Render/Geometry/Shape/Shape.cpp:155-164 | every index of a row lies in rows y and y + 1 |
| Shapes.StripRowBounded | Runtime/src/Render/Geometry/Shape/Shape.cpp:153-166 | a strip row has 130 indices, all below row y + 2 |
| Shapes.SphereIndicesBounded | Runtime/src/Render/Geometry/Shape/Shape.cpp:152-167 | after k rows there are 130·k indices, each naming one of the first 65·(k + 1) vertices |
| Shapes.SphereIndicesValid | Runtime/src/Render/Geometry/Shape/Shape.cpp:152-168 | the sphere's index list never names a vertex outside the 4225 it built |
| Shapes.SphereIndexTotal | Runtime/src/Render/Geometry/Shape/Shape.cpp:168 | the index count stored for drawing is 8320 |
| Shapes.PushEvenRow | Runtime/src/Render/Geometry/Shape/Shape.cpp:155-158 | an even row appends EvenRow's pairs, x ascending |
| Shapes.PushOddRow | Runtime/src/Render/Geometry/Shape/Shape.cpp:161-164 | an odd row appends OddRow's pairs, x descending |
| Shapes.SphereIndexLoop | Runtime/src/Render/Geometry/Shape/Shape.cpp:151-167 | the row loop with its parity flag builds exactly the alternating strip SphereIndices |
| Shapes.InterleavedAt | Runtime/src/Render/Geometry/Shape/Shape.cpp:170-184 | vertex i's eight floats (position, normal, texture coordinate) sit at 8·i .. 8·i + 8 |
| Shapes.Interleave | Runtime/src/Render/Geometry/Shape/Shape.cpp:170-184 | the interleaving loop, whose guarded normal and texture pushes always fire, yields Interleaved: 8 floats per vertex |
| Shapes.GridCountsAgree | Runtime/src/Render/Geometry/Shape/Shape.cpp:207-253 | 101 by 101 vertices, 100·100·2 four-index entries and a draw length of four per entry |
| Shapes.GridPointsAt | Runtime/src/Render/Geometry/Shape/Shape.cpp:215-223 | vertex 101·j + i is the grid point (i, j), scaled into the 1000-unit square around the origin |
| Shapes.GridRowBounded | Runtime/src/Render/Geometry/Shape/Shape.cpp:226-232 | a row of cells has two entries per cell, each naming vertices of rows j and j + 1 |
| Shapes.GridIndicesBounded | Runtime/src/Render/Geometry/Shape/Shape.cpp:225-233 | after m rows there are 200·m entries, each naming vertices of the first m + 1 rows |
| Shapes.GridIndicesValid | Runtime/src/Render/Geometry/Shape/Shape.cpp:225-233 | the grid never names a vertex outside the 10201 it built |
| Shapes.GridIndexTotal | Runtime/src/Render/Geometry/Shape/Shape.cpp:253 | the stored length is four times the number of entries, 80000 |
| Shapes.GridVertices | Runtime/src/Render/Geometry/Shape/Shape.cpp:215-223 | the vertex loop builds GridPoints, row j after row j - 1 |
| Shapes.GridIndexLoop | Runtime/src/Render/Geometry/Shape/Shape.cpp:225-233 | the index loop builds GridIndices |
| Shapes.ShapeCache.constructor | Runtime/src/Render/Geometry/Shape/Shape.cpp:13-206 | the function-local statics start zeroed: nothing is built |
| Shapes.ShapeCache.RenderQuad | Runtime/src/Render/Geometry/Shape/Shape.cpp:11-38 | binds the shader and draws 4 vertices as a strip; the vertex array is built only on the first call and kept after |
| Shapes.ShapeCache.RenderCube | Runtime/src/Render/Geometry/Shape/Shape.cpp:40-114 | binds the shader and draws 36 vertices as triangles; built only on the first call |
| Shapes.ShapeCache.RenderSphere | Runtime/src/Render/Geometry/Shape/Shape.cpp:116-201 | binds the shader and draws the 8320-index strip; built only on the first call, which records the index count |
| Shapes.ShapeCache.RenderGrid | Runtime/src/Render/Geometry/Shape/Shape.cpp:203-258 | draws 80000 line indices with whatever program is current (the shader argument is unused); built only on the first call |
| Shapes.GenerateSphere | Runtime/src/Render/Geometry/Shape/Shape.cpp:129-184 | the vertex buffer has 8 floats per vertex and the index list 8320 entries |
| Shapes.BuildSphere | Runtime/src/Render/Geometry/Shape/Shape.cpp:122-197 | the first-call setup: a fresh vertex array and the 8320 index count, leaving the pipeline trace alone |
| Shapes.GenerateGrid | Runtime/src/Render/Geometry/Shape/Shape.cpp:212-233 | 10201 vertices and an index list of draw length 80000 |
| Shapes.BuildGrid | Runtime/src/Render/Geometry/Shape/Shape.cpp:211-254 | the first-call setup: fresh vertex array and vertex buffer names and the draw length 80000 |
| Meshes.FillSlots | Runtime/src/Render/Geometry/Mesh.hpp:35-54 | the shared four-slot loop: all four bone slots hold the given (id, weight) and the geometry is untouched |
| Meshes.NewVertex | Runtime/src/Render/Geometry/Mesh.hpp:24-39 | Vertex(): every vector zero and every slot (-1, 0) |
| Meshes.Reset | Runtime/src/Render/Geometry/Mesh.hpp:41-47 | all four slots back to (-1, 0), the rest untouched |
| Meshes.SetBoneData | Runtime/src/Render/Geometry/Mesh.hpp:49-55 | all four slots overwritten with the one bone, no free slot looked for |
| Meshes.WithBone | Runtime/src/Render/Geometry/Mesh.hpp:49-55 | SetBoneData's result as a value: same geometry, every slot the given bone and weight |
| Meshes.SlotsDetermineVertex | Runtime/src/Render/Geometry/Mesh.hpp:49-55 | a vertex with the same geometry and all slots equal to (bone, weight) is exactly the SetBoneData result |
| Meshes.LastBoneWins | Runtime/src/Render/Geometry/Mesh.hpp:49-55 | a later SetBoneData wipes out an earlier one completely |
| Meshes.CreateBuffers | Runtime/src/Render/Geometry/Mesh.hpp:80-122 | three fresh names (vertex array, vertex buffer, index buffer) then the uploads and the seven attribute layouts |
| Meshes.CountOfType | Runtime/src/Render/Geometry/Mesh.hpp:137-152 | the count of textures of one role never exceeds the list |
| Meshes.NumbersIncreaseWithinType | Runtime/src/Render/Geometry/Mesh.hpp:137-152 | within one of the four roles the numbers start at 1 and a later texture of the role has a larger number |
| Meshes.TexturesOnTheirUnits | Runtime/src/Render/Geometry/Mesh.hpp:141-160 | after the texture loop texture i sits on unit i, and no unit at or beyond the texture count changed |
| Meshes.TextureBindCallsShape | Runtime/src/Render/Geometry/Mesh.hpp:141-160 | the texture loop draws nothing, binds no framebuffer and uses only the mesh's shader |
| Meshes.RenderCallsShape | Runtime/src/Render/Geometry/Mesh.hpp:132-167 | one Render makes exactly one draw, binds no framebuffer and switches to no program but the given shader |
| Meshes.Mesh.constructor | Runtime/src/Render/Geometry/Mesh.hpp:62-69 | keeps the three lists and uploads them with fresh names |
| Meshes.Mesh.BindBuffer | Runtime/src/Render/Geometry/Mesh.hpp:80-122 | fresh names for the vertex array and both buffers, then the uploads |
| Meshes.Mesh.Unbind | Runtime/src/Render/Geometry/Mesh.hpp:73-78 | deletes the three names, the fields keeping them |
| Meshes.Mesh.Render | Runtime/src/Render/Geometry/Mesh.hpp:132-167 | uploads on first use with three fresh consecutive names, keeping the names afterwards; binds texture i on unit i with its per-role running number, draws all indices as triangles |
| Meshes.BindTextures | Runtime/src/Render/Geometry/Mesh.hpp:137-160 | the texture loop with four per-role counters starting at 1: texture i gets TextureNumber(i) |
| Meshes.BindOne | Runtime/src/Render/Geometry/Mesh.hpp:158-159 | one turn: the shader bound, then texture i on unit i under its role's sampler name |
| Models.WeightGuardAsWrittenAdmitsPastEnd | Runtime/src/Render/Geometry/Model.hpp:250 | the written guard `vertexId <= vertices.size()` lets the id one past the last vertex through, which the intended guard refuses |
| Models.ConvertMatrixTransposes | Runtime/src/Render/Geometry/Model.hpp:36-57 | ConvertMatrixToGLMFormat moves entry (row r, column c) of the assimp matrix to column r, row c of the result, for all sixteen entries |
| Models.ConvertMatrixInvolution | Runtime/src/Render/Geometry/Model.hpp:36-57 | converting twice gives the original matrix back |
| Models.RegisterKeepsTable | Runtime/src/Render/Geometry/Model.hpp:230-242 | a new bone name gets the current counter as id and the counter grows by one; a known name keeps its id and the counter; every other entry is unchanged; the table stays valid (ids below the counter, one id per name) |
| Models.TableAfterKeepsTable | Runtime/src/Render/Geometry/Model.hpp:229-242 | after a whole run of bones the table is valid, every earlier entry is kept and the counter never goes down |
| Models.TableAfterNamesBones | Runtime/src/Render/Geometry/Model.hpp:229-242 | after a run of bones every bone of the run has an entry |
| Models.ApplyWeights | Runtime/src/Render/Geometry/Model.hpp:247-252 | one bone's weight loop keeps the vertex count |
| Models.ApplyWeightsLastWins | Runtime/src/Render/Geometry/Model.hpp:247-252 | a vertex named by no weight is unchanged; otherwise it carries the bone in every slot with the weight of the last entry naming it |
| Models.VerticesAfter | Runtime/src/Render/Geometry/Model.hpp:229-253 | the bone loop keeps the vertex count |
| Models.ApplyBoneWeights | Runtime/src/Render/Geometry/Model.hpp:247-252 | the weight loop computes ApplyWeights |
| Models.BaseVertex | Runtime/src/Render/Geometry/Model.hpp:162-196 | vertex i takes its position, every bone slot reset to (-1, 0); without normals the normal is zero; without texture coordinates the coordinates, tangent and bitangent are zero |
| Models.BaseVertices | Runtime/src/Render/Geometry/Model.hpp:161-197 | the vertex loop yields one vertex per position, vertex i being BaseVertex(i) |
| Models.BaseVertexList | Runtime/src/Render/Geometry/Model.hpp:161-197 | the vertex list is as long as the position list |
| Models.FlattenKeepsFaces | Runtime/src/Render/Geometry/Model.hpp:201-206 | every index of face k lies, unchanged and contiguous, at the face's start offset in the index list |
| Models.FlattenFaces | Runtime/src/Render/Geometry/Model.hpp:201-206 | the face loop concatenates the faces' indices in order |
| Models.TypedTextures | Runtime/src/Render/Geometry/Model.hpp:258-284 | one texture per name of the material's list |
| Models.TypedTexturesAt | Runtime/src/Render/Geometry/Model.hpp:261-280 | texture k carries the role name and was loaded from the embedded texture when the scene has one by that name, otherwise from directory + "/" + name |
| Models.LoadMaterialTextures | Runtime/src/Render/Geometry/Model.hpp:258-284 | the loop computes TypedTextures |
| Models.MaterialTexturesBlocks | Runtime/src/Render/Geometry/Model.hpp:208-221 | the mesh's textures come in four blocks, DiffuseMap, SpecularMap, NormalMap (assimp's HEIGHT slot) and HeightMap (the AMBIENT slot), each as long as its name list |
| Models.TableAfterMeshesAppend | Runtime/src/Render/Geometry/Model.hpp:135-151 | the bone table after two runs of meshes is the table after the first, threaded into the second |
| Models.Jobs | Runtime/src/Render/Geometry/Model.hpp:138-145 | one ProcessMesh call per listed mesh, each naming a scene mesh |
| Models.JobsAt | Runtime/src/Render/Geometry/Model.hpp:138-145 | call k processes mesh ids[k] with the bone table the meshes before it left |
| Models.JobsAppend | Runtime/src/Render/Geometry/Model.hpp:135-151 | the calls of two runs are the first run's calls followed by the second's, started from the table the first left |
| Models.PreOrderRefs | Runtime/src/Render/Geometry/Model.hpp:135-151 | every mesh reference reached from a well-formed node names a scene mesh |
| Models.ChildrenOrderRefs | Runtime/src/Render/Geometry/Model.hpp:148-150 | the references reached through the first n children all name scene meshes |
| Models.Extend | Runtime/src/Render/Geometry/Model.hpp:144 | appending meshes keeps those built before, and the meshes built by two runs of calls are those of the concatenated run |
| Models.MeshStep | Runtime/src/Render/Geometry/Model.hpp:138-145 | one more mesh of a run adds exactly one call, made with the table the earlier meshes left |
| Models.AppendRun | Runtime/src/Render/Geometry/Model.hpp:135-151 | the meshes built by a node's own meshes followed by those of its children are the meshes built for the whole pre-order run |
| Models.ImportKeepsTable | Runtime/src/Render/Geometry/Model.hpp:229-242 | importing any run of meshes keeps the bone table valid and every earlier entry |
| Models.Model.constructor | Runtime/src/Render/Geometry/Model.hpp:82-88 | the path stored, material index 0; a loadable scene yields its meshes in pre-order from an empty bone table; otherwise no meshes and one logged assimp error |
| Models.Model.SetMaterialIndex | Runtime/src/Render/Geometry/Model.hpp:101 | only the material index changes |
| Models.Model.LoadModel | Runtime/src/Render/Geometry/Model.hpp:105-126 | succeeds exactly when the scene is present, complete and rooted; on failure the meshes are cleared and the assimp error is logged; on success the directory is the path before its last '/' and the meshes are those built for the pre-order walk of the root |
| Models.Model.ProcessNode | Runtime/src/Render/Geometry/Model.hpp:135-151 | the node's own meshes then each child's, in pre-order, appended after the existing meshes, with the bone table threaded through |
| Models.Model.ProcessChildren | Runtime/src/Render/Geometry/Model.hpp:148-150 | the children processed left to right, their meshes appended in that order |
| Models.Model.ProcessMeshes | Runtime/src/Render/Geometry/Model.hpp:138-145 | one mesh appended per listed scene mesh, in order |
| Models.Model.ProcessMesh | Runtime/src/Render/Geometry/Model.hpp:153-225 | a new Mesh from the base vertices with bone weights applied, the flattened face indices and the material's textures; the bone table advances by the mesh's bones |
| Models.Model.ProcessBoneWeight | Runtime/src/Render/Geometry/Model.hpp:227-254 | the table after the bones is TableAfter and the vertices are VerticesAfter, each bone's id resolved as the table stands when it is reached |
| RenderPasses.LoadShaders | Runtime/src/Render/RenderPass/RenderPass.hpp:106 | shaders loaded in list order, the k-th receiving program name n + 3k + 2, the GL calls being each shader's load calls in turn |
| RenderPasses.MeshCallsShape | Runtime/src/Render/RenderPass/RenderPass.hpp:139-140 | rendering a mesh list draws exactly once per mesh, binds no framebuffer, uses no program but the shader's and leaves the stencil state alone |
| RenderPasses.DrawMeshes | Runtime/src/Render/RenderPass/RenderPass.hpp:139-140 | the mesh loop issues MeshCalls and creates no GL name |
| RenderPasses.RenderPass.constructor | Runtime/src/Render/RenderPass/RenderPass.hpp:88-92 | a pass starts running, with no shaders and no framebuffer |
| RenderPasses.RenderPass.OnEnable | Runtime/src/Render/RenderPass/RenderPass.hpp:67 | the pass runs afterwards; shaders and framebuffer unchanged |
| RenderPasses.RenderPass.OnDisable | Runtime/src/Render/RenderPass/RenderPass.hpp:68 | the pass is stopped afterwards; shaders and framebuffer unchanged |
| RenderPasses.RenderPass.Awake | Runtime/src/Render/RenderPass/RenderPass.hpp:70 | the running flag takes the given value; nothing else changes |
| RenderPasses.RenderPass.BindFramebuffer | Runtime/src/Render/RenderPass/RenderPass.hpp:72 | the pass draws into the given framebuffer afterwards; nothing else changes |
| RenderPasses.RenderPass.UnbindFramebuffer | Runtime/src/Render/RenderPass/RenderPass.hpp:74 | the pass has no framebuffer afterwards; nothing else changes |
| RenderPasses.RenderPass.PushShader | Runtime/src/Render/RenderPass/RenderPass.hpp:78 | the shader is appended after the existing ones and returned |
| RenderPasses.PrecomputeSpecificationSplits | Runtime/src/Render/RenderPass/RenderPass.hpp:37-43 | the precompute framebuffer's specification has colour attachments RGBA, RGBA, RED_INTEGER in that order, the Depth entry as depth attachment, and is no swap-chain target |
| RenderPasses.PrecomputeContext.constructor | Runtime/src/Render/RenderPass/RenderPass.hpp:35-45 | a fresh framebuffer built from that specification: three colour entries with no textures yet, the depth entry, one framebuffer object generated and bound |
| RenderPasses.DepthPassSpecificationSplits | Runtime/src/Render/RenderPass/RenderPass.hpp:99-101 | the depth pass's specification has colour attachments RGBA, RGB, the Depth entry as depth attachment, and is no swap-chain target |
| RenderPasses.DepthPassInitialState | Runtime/src/Render/RenderPass/RenderPass.hpp:99-102 | the depth pass's framebuffer before its resize is well formed |
| RenderPasses.DepthUniforms | Runtime/src/Render/RenderPass/RenderPass.hpp:127-131 | the light camera's uniforms draw nothing, bind no framebuffer and use only the depth shader |
| RenderPasses.EntitiesCallsShape | Runtime/src/Render/RenderPass/RenderPass.hpp:133-141 | the entity loop draws once per mesh of every mesh-renderer entity, binds no framebuffer and uses only the depth shader |
| RenderPasses.EntitiesCallsSetModels | Runtime/src/Render/RenderPass/RenderPass.hpp:135-137 | every entity of the view has its own model matrix uploaded |
| RenderPasses.DepthDrawCallsShape | Runtime/src/Render/RenderPass/RenderPass.hpp:126-143 | while the target is bound: one draw per mesh, every draw with the depth shader bound whatever the state before |
| RenderPasses.DepthPassDrawsEveryMesh | Runtime/src/Render/RenderPass/RenderPass.hpp:109-147 | the depth pass draws exactly once per mesh of every entity in the view, every draw into the pass's framebuffer with the depth shader |
| RenderPasses.DepthPassEnds | Runtime/src/Render/RenderPass/RenderPass.hpp:143-146 | after the pass the default framebuffer is bound and no program is in use |
| RenderPasses.DepthPassSetsModels | Runtime/src/Render/RenderPass/RenderPass.hpp:134-137 | the pass uploads each entity's own model matrix |
| RenderPasses.DrawDepth | Runtime/src/Render/RenderPass/RenderPass.hpp:126-143 | the drawing while the target is bound issues DepthDrawCalls and creates no GL name |
| RenderPasses.DrawEntities | Runtime/src/Render/RenderPass/RenderPass.hpp:133-141 | the entity loop issues EntitiesCalls over the whole view |
| RenderPasses.NewDepthPassTarget | Runtime/src/Render/RenderPass/RenderPass.hpp:99-102 | a fresh, valid framebuffer in the initial depth-pass state, not yet at the shadow resolution, one framebuffer object generated and bound |
| RenderPasses.NewDepthPassFramebuffer | Runtime/src/Render/RenderPass/RenderPass.hpp:99-103 | that framebuffer resized to 2048 x 2048 with its attachments regenerated, five GL names used |
| RenderPasses.NewDepthPassParts | Runtime/src/Render/RenderPass/RenderPass.hpp:97-107 | the resized depth target first, then the depth shader named seven past the first name, eight names used in all |
| RenderPasses.DepthRenderPass.constructor | Runtime/src/Render/RenderPass/RenderPass.hpp:97-107 | a running pass whose framebuffer is the resized depth target and whose only shader is depth.vert/depth.frag, loaded after the framebuffer |
| RenderPasses.DepthRenderPass.Render | Runtime/src/Render/RenderPass/RenderPass.hpp:109-147 | front-face culling, bind and clear the 2048 x 2048 target, upload the light camera, draw every entity's meshes with its model matrix, then unbind the shader and return to framebuffer 0 |
| ForwardPasses.IndexedNameInjective | Runtime/src/Render/RenderPass/ForwardPass.cpp:47-52 | the element names "prefix[i]" built from std::to_string are equal exactly when the indices are |
| ForwardPasses.LightUniformsShape | Runtime/src/Render/RenderPass/ForwardPass.cpp:46-49 | two uploads per light: light i's position at 2i and its colour at 2i+1 |
| ForwardPasses.BoneUniformsShape | Runtime/src/Render/RenderPass/ForwardPass.cpp:51-53 | bones 0 to 99 set in order, each to the identity matrix |
| ForwardPasses.EnvironmentSamplersQuiet | Runtime/src/Render/RenderPass/ForwardPass.cpp:37-43 | the four samplers are set to units 15, 14, 13, 12 and nothing is drawn, bound as framebuffer or switched as capability |
| ForwardPasses.EnvironmentSamplersBind | Runtime/src/Render/RenderPass/ForwardPass.cpp:37-43 | unit 15 holds the light-space depth map, 14 the irradiance map, 13 the prefilter map and 12 the BRDF table afterwards |
| ForwardPasses.EnvironmentSamplersKeepOthers | Runtime/src/Render/RenderPass/ForwardPass.cpp:37-43 | every texture unit other than 12 to 15 keeps its binding |
| ForwardPasses.ShaderBindCallsQuiet | Runtime/src/Render/RenderPass/ForwardPass.cpp:33-55 | one shader's bind only selects programs and textures and uploads uniforms |
| ForwardPasses.ShaderBindCallsShape | Runtime/src/Render/RenderPass/ForwardPass.cpp:33-55 | after one shader's bind units 15 to 12 hold the environment and no program is current |
| ForwardPasses.ShadersBindSetsSamplers | Runtime/src/Render/RenderPass/ForwardPass.cpp:31-56 | every shader of the list gets its four environment samplers set |
| ForwardPasses.ShadersBindQuiet | Runtime/src/Render/RenderPass/ForwardPass.cpp:31-56 | binding the shader list draws nothing, binds no framebuffer and switches no capability |
| ForwardPasses.ShadersBindUnits | Runtime/src/Render/RenderPass/ForwardPass.cpp:31-56 | once any shader is bound, units 15 to 12 hold the environment |
| ForwardPasses.ForwardBindState | Runtime/src/Render/RenderPass/ForwardPass.cpp:23-57 | after Bind the pass's framebuffer is bound, back faces are the culled ones, no capability changed, and with any shader the environment is in units 15 to 12 |
| ForwardPasses.ForwardBindQuiet | Runtime/src/Render/RenderPass/ForwardPass.cpp:23-57 | Bind draws nothing, binds no framebuffer but the pass's own, and sets every shader's environment samplers |
| ForwardPasses.BindShader | Runtime/src/Render/RenderPass/ForwardPass.cpp:33-55 | one turn of the shader loop issues ShaderBindCalls |
| ForwardPasses.BindEnvironment | Runtime/src/Render/RenderPass/ForwardPass.cpp:37-43 | the four sampler bindings in order |
| ForwardPasses.BindMaterials | Runtime/src/Render/RenderPass/ForwardPass.cpp:28-56 | back-face culling, then every shader's bind in list order |
| ForwardPasses.UploadLights | Runtime/src/Render/RenderPass/ForwardPass.cpp:46-49 | the light loop issues the four lights' position and colour uploads |
| ForwardPasses.UploadBones | Runtime/src/Render/RenderPass/ForwardPass.cpp:51-53 | the bone loop issues the hundred identity uploads |
| ForwardPasses.BindShaders | Runtime/src/Render/RenderPass/ForwardPass.cpp:31-56 | the shader loop issues every shader's bind in list order |
| ForwardPasses.EntityUniformsShape | Runtime/src/Render/RenderPass/ForwardPass.hpp:75-104 | the DrawEntity uniforms are plain uploads that include the entity's id and its model matrix |
| ForwardPasses.DrawEntityCallsShape | Runtime/src/Render/RenderPass/ForwardPass.hpp:71-109 | DrawEntity draws once per mesh of the entity, touches no capability or framebuffer, and tells the shader the entity's id |
| ForwardPasses.DrawEntityUses | Runtime/src/Render/RenderPass/ForwardPass.hpp:71-109 | every draw of DrawEntity uses the chosen shader |
| ForwardPasses.StencilWriteEffect | Runtime/src/Render/RenderPass/ForwardPass.hpp:116-120 | after the stencil preamble the test is on and every fragment writes 1; the framebuffer is unchanged |
| ForwardPasses.ActiveFirstDrawing | Runtime/src/Render/RenderPass/ForwardPass.hpp:115-123 | the selected entity's first drawing runs with the stencil writing 1, and the test is off again afterwards with capabilities and framebuffer as before |
| ForwardPasses.PlainDrawing | Runtime/src/Render/RenderPass/ForwardPass.hpp:124 | the ordinary drawing runs with the stencil test off and keeps capabilities and framebuffer |
| ForwardPasses.EntryStencil | Runtime/src/Render/RenderPass/ForwardPass.hpp:112-125 | the selected entity is drawn first writing the stencil, then with the test off; any other entity only with the test off; the entry leaves capabilities and framebuffer as it found them |
| ForwardPasses.EntryCount | Runtime/src/Render/RenderPass/ForwardPass.hpp:112-125 | an entry draws the entity's meshes twice when it is the selected entity, once otherwise |
| ForwardPasses.EntryBindsNothing | Runtime/src/Render/RenderPass/ForwardPass.hpp:112-125 | an entry binds no framebuffer |
| ForwardPasses.EntryCallsShape | Runtime/src/Render/RenderPass/ForwardPass.hpp:112-125 | with the material shader from the mesh renderer's index: one or two drawings of the meshes, no framebuffer bound |
| ForwardPasses.EntryCallsKeep | Runtime/src/Render/RenderPass/ForwardPass.hpp:112-125 | one entry leaves the capabilities and framebuffer as it found them |
| ForwardPasses.ViewCallsCount | Runtime/src/Render/RenderPass/ForwardPass.hpp:111-125 | the entity loop draws each entity's meshes once, the selected entity's twice |
| ForwardPasses.ViewCallsBindNothing | Runtime/src/Render/RenderPass/ForwardPass.hpp:111-125 | the entity loop binds no framebuffer |
| ForwardPasses.ViewCallsKeep | Runtime/src/Render/RenderPass/ForwardPass.hpp:111-125 | the entity loop leaves capabilities and framebuffer as it found them |
| ForwardPasses.ViewEntryStencil | Runtime/src/Render/RenderPass/ForwardPass.hpp:111-125 | entity k of the loop is drawn with its material shader, told its id, under the stencil state its selection calls for |
| ForwardPasses.IconCallsShape | Runtime/src/Render/RenderPass/ForwardPass.cpp:100-105 | one light icon is a single draw with pipeline calls only |
| ForwardPasses.IconsCallsShape | Runtime/src/Render/RenderPass/ForwardPass.cpp:96-106 | the icon loop makes one draw per icon |
| ForwardPasses.SunCallsShape | Runtime/src/Render/RenderPass/ForwardPass.cpp:70-92 | the directional light's sphere is a single draw |
| ForwardPasses.LightBodyShape | Runtime/src/Render/RenderPass/ForwardPass.cpp:66-107 | the sun then the four icons: 1 + 4 draws |
| ForwardPasses.BlendedEffect | Runtime/src/Render/RenderPass/ForwardPass.cpp:63-110 | between culling off/blending on and blending off/culling on, the body runs with alpha blending; the framebuffer stays |
| ForwardPasses.LightCallsShape | Runtime/src/Render/RenderPass/ForwardPass.cpp:59-111 | RenderLight draws 1 + 4 times, binds no framebuffer, ends with blending off and culling on and leaves the alpha blend function set |
| ForwardPasses.OutlineDrawCallsShape | Runtime/src/Render/RenderPass/ForwardPass.cpp:125-138 | the outline's meshes drawn once each with the outline shader only, given the entity id and the scaled model matrix |
| ForwardPasses.MaskedEffect | Runtime/src/Render/RenderPass/ForwardPass.cpp:121-125 | after enabling the test with NOTEQUAL 1 and a zero write mask, the body's draws are masked by the stencil |
| ForwardPasses.MaskedBody | Runtime/src/Render/RenderPass/ForwardPass.cpp:126-138 | a plain body drawn under the mask keeps it and uses only the outline program |
| ForwardPasses.OutlineCallsShape | Runtime/src/Render/RenderPass/ForwardPass.cpp:113-144 | no selected entity: nothing; otherwise one draw per mesh of the selected entity, each masked by the stencil with the outline shader, and the test off and mask restored at the end |
| ForwardPasses.ClearEffect | Runtime/src/Render/RenderPass/ForwardPass.hpp:46-53 | clearing binds the target, turns the stencil test off and culling on, and changes nothing else |
| ForwardPasses.ClearShape | Runtime/src/Render/RenderPass/ForwardPass.hpp:46-53 | clearing draws nothing and binds only the target |
| ForwardPasses.GridShape | Runtime/src/Render/RenderPass/ForwardPass.hpp:64-68 | the grid is one draw with the grid shader |
| ForwardPasses.AfterViewShape | Runtime/src/Render/RenderPass/ForwardPass.hpp:127-130 | after the entities: 1 + 4 light draws plus the outline's draws, no framebuffer bound |
| ForwardPasses.AfterViewState | Runtime/src/Render/RenderPass/ForwardPass.hpp:127-130 | after the entities the stencil test, blending and culling are off and the framebuffer is as it was |
| ForwardPasses.SceneCount | Runtime/src/Render/RenderPass/ForwardPass.hpp:46-130 | after Bind: the grid, one or two drawings per entity, the sun, four icons and the outline |
| ForwardPasses.SceneBinds | Runtime/src/Render/RenderPass/ForwardPass.hpp:46-130 | the scene opens by binding the target, the only framebuffer it binds |
| ForwardPasses.SceneState | Runtime/src/Render/RenderPass/ForwardPass.hpp:46-130 | at the end the target stays bound with the stencil test, blending and culling off; other capabilities as before |
| ForwardPasses.ForwardPassDrawCount | Runtime/src/Render/RenderPass/ForwardPass.hpp:35-131 | the whole pass draws 2 + the entity drawings + 4 + the outline's meshes |
| ForwardPasses.ForwardPassTarget | Runtime/src/Render/RenderPass/ForwardPass.hpp:35-131 | every draw of the pass goes into the target framebuffer, which is still bound at the end |
| ForwardPasses.ForwardPassCapabilities | Runtime/src/Render/RenderPass/ForwardPass.hpp:35-131 | the pass ends with the stencil test, blending and culling off and every other capability as it found it |
| ForwardPasses.OutlineScalesAgree | Runtime/src/Render/RenderPass/ForwardPass.cpp:132 | the forward pass multiplies the scale by 1.01 while the outline pass (ForwardPass.hpp:176) sets it to 1.01: the two agree exactly when the scale is 1 |
| ForwardPasses.OutlinePassShape | Runtime/src/Render/RenderPass/ForwardPass.hpp:155-188 | one draw per mesh of the selected entity with the outline shader, masked when the test was on; it always leaves the test off, writes enabled and NOTEQUAL 1 set |
| ForwardPasses.ClearTarget | Runtime/src/Render/RenderPass/ForwardPass.hpp:46-53 | Render's opening issues ClearCalls |
| ForwardPasses.DrawGrid | Runtime/src/Render/RenderPass/ForwardPass.hpp:64-68 | the grid drawing issues GridCalls and keeps the shape cache valid |
| ForwardPasses.DrawEntity | Runtime/src/Render/RenderPass/ForwardPass.hpp:71-109 | the DrawEntity lambda issues DrawEntityCalls |
| ForwardPasses.DrawEntry | Runtime/src/Render/RenderPass/ForwardPass.hpp:113-124 | one turn of the entity loop issues EntryCalls |
| ForwardPasses.DrawView | Runtime/src/Render/RenderPass/ForwardPass.hpp:111-125 | the entity loop issues ViewCalls over the whole view |
| ForwardPasses.RenderSun | Runtime/src/Render/RenderPass/ForwardPass.cpp:70-92 | the sun drawing issues SunCalls |
| ForwardPasses.RenderIcons | Runtime/src/Render/RenderPass/ForwardPass.cpp:96-106 | the icon loop issues four icon drawings |
| ForwardPasses.RenderLight | Runtime/src/Render/RenderPass/ForwardPass.cpp:59-111 | RenderLight issues LightCalls |
| ForwardPasses.DrawOutline | Runtime/src/Render/RenderPass/ForwardPass.cpp:128-138 | the outline body issues OutlineDrawCalls |
| ForwardPasses.RenderOutline | Runtime/src/Render/RenderPass/ForwardPass.cpp:113-144 | RenderOutline issues OutlineCalls |
| ForwardPasses.ForwardRenderPass.constructor | Runtime/src/Render/RenderPass/ForwardPass.hpp:27-33 | the member shaders (grid, outline, icon) load first, then pbr, phong, toon and light are pushed in that order as material shaders 0 to 3 |
| ForwardPasses.ForwardRenderPass.Bind | Runtime/src/Render/RenderPass/ForwardPass.cpp:23-57 | Bind issues ForwardBindCalls for the pass's framebuffer and shaders |
| ForwardPasses.ForwardRenderPass.Render | Runtime/src/Render/RenderPass/ForwardPass.hpp:35-131 | Render issues Bind's calls and then the scene's; its draw count, target and final state are the lemmas above |
| ForwardPasses.RenderScene | Runtime/src/Render/RenderPass/ForwardPass.hpp:46-130 | everything after Bind issues SceneCalls |
| ForwardPasses.OutlineRenderPass.constructor | Runtime/src/Render/RenderPass/ForwardPass.hpp:154 | the outline shader loaded from common.vert and outline.frag; no shaders in the pass's list |
| ForwardPasses.OutlineRenderPass.Render | Runtime/src/Render/RenderPass/ForwardPass.hpp:155-188 | the stand-alone outline pass issues OutlinePassCalls |
| PrecomputePasses.PrefilterMipSizeExact | Runtime/src/Render/RenderPass/PrecomputePass.hpp:91-95 | level mip's size times 2^mip is the base resolution 128, so 128 * 0.5^mip converts to an integer without loss |
| PrecomputePasses.PrefilterMipSizesHalve | Runtime/src/Render/RenderPass/PrecomputePass.hpp:91-95 | each prefilter level is half the size of the one before; level 0 is 128 and level 5 is 4 |
| PrecomputePasses.RoughnessRange | Runtime/src/Render/RenderPass/PrecomputePass.hpp:103 | roughness mip / 5 lies in [0, 1], is 0 exactly at the base level and 1 exactly at the last |
| PrecomputePasses.FaceCallsShape | Runtime/src/Render/RenderPass/PrecomputePass.hpp:106-114 | one face: a single draw with the stage's shader, no framebuffer bound |
| PrecomputePasses.FacesCallsShape | Runtime/src/Render/RenderPass/PrecomputePass.hpp:106-114 | the face loop draws once per face with the stage's shader only and binds no framebuffer |
| PrecomputePasses.FacesCallsAt | Runtime/src/Render/RenderPass/PrecomputePass.hpp:106-114 | face f occupies calls 5f to 5f + 4 of the loop: its view, its own cube face at the loop's level, a clear, then the draw |
| PrecomputePasses.TargetCallsShape | Runtime/src/Render/RenderPass/PrecomputePass.hpp:97-101 | re-targeting the capture framebuffer draws nothing, binds only it and switches to no program |
| PrecomputePasses.MipCallsShape | Runtime/src/Render/RenderPass/PrecomputePass.hpp:96-115 | a prefilter level is 35 calls: six draws, only the capture framebuffer bound, only the stage's program |
| PrecomputePasses.MipsCallsShape | Runtime/src/Render/RenderPass/PrecomputePass.hpp:92-115 | the level loop makes 35 calls and six draws per level with the capture framebuffer and the stage's shader only |
| PrecomputePasses.MipsCallsAt | Runtime/src/Render/RenderPass/PrecomputePass.hpp:92-115 | level m occupies calls 35m to 35m + 34 of the level loop |
| PrecomputePasses.MipCallsAt | Runtime/src/Render/RenderPass/PrecomputePass.hpp:97-114 | within level mip the viewport is the level's size, the roughness uniform is mip / 5, and face f is the f-th draw, cleared first |
| PrecomputePasses.EnvironmentStageShape | Runtime/src/Render/RenderPass/PrecomputePass.hpp:40-59 | stage 1 opens by binding the capture framebuffer, binds no other, and draws six times with its own shader |
| PrecomputePasses.IrradianceStageShape | Runtime/src/Render/RenderPass/PrecomputePass.hpp:61-82 | stage 2 draws six times with its own shader, only the capture framebuffer bound |
| PrecomputePasses.PrefilterStageShape | Runtime/src/Render/RenderPass/PrecomputePass.hpp:84-116 | stage 3 draws six times per level, 36 in all, with its own shader |
| PrecomputePasses.BrdfStageShape | Runtime/src/Render/RenderPass/PrecomputePass.hpp:118-133 | stage 4 draws one screen quad with its own shader |
| PrecomputePasses.BakeDrawCount | Runtime/src/Render/RenderPass/PrecomputePass.hpp:35-137 | the whole bake draws 6 + 6 + 36 + 1 = 49 times |
| PrecomputePasses.StagesBindOnly | Runtime/src/Render/RenderPass/PrecomputePass.hpp:40-133 | every stage binds only the capture framebuffer |
| PrecomputePasses.BakeTarget | Runtime/src/Render/RenderPass/PrecomputePass.hpp:35-137 | every draw of the bake goes into the capture framebuffer, and framebuffer 0 is bound at the end |
| PrecomputePasses.RenderFaces | Runtime/src/Render/RenderPass/PrecomputePass.hpp:106-114 | the face loop issues FacesCalls over the six faces |
| PrecomputePasses.RenderMips | Runtime/src/Render/RenderPass/PrecomputePass.hpp:92-115 | the level loop issues MipsCalls over the six levels |
| PrecomputePasses.RenderEnvironment | Runtime/src/Render/RenderPass/PrecomputePass.hpp:40-59 | stage 1 issues EnvironmentStage |
| PrecomputePasses.RenderIrradiance | Runtime/src/Render/RenderPass/PrecomputePass.hpp:61-82 | stage 2 issues IrradianceStage |
| PrecomputePasses.RenderPrefilter | Runtime/src/Render/RenderPass/PrecomputePass.hpp:84-116 | stage 3 issues PrefilterStage |
| PrecomputePasses.RenderBrdf | Runtime/src/Render/RenderPass/PrecomputePass.hpp:118-133 | stage 4 issues BrdfStage |
| PrecomputePasses.ShadersAfterBakeAsWritten | Runtime/src/Render/RenderPass/PrecomputePass.hpp:45-118 | with `auto& shader = m_Shaders[0]` each later assignment writes slot 0: the list keeps its length and slots 1 onwards |
| PrecomputePasses.SlotZeroOverwritten | Runtime/src/Render/RenderPass/PrecomputePass.hpp:45-118 | after one bake as written slot 0 holds the BRDF shader, so with distinct shaders the list differs from the one pushed |
| PrecomputePasses.SecondBakeAsWrittenDiffers | Runtime/src/Render/RenderPass/PrecomputePass.hpp:45-61 | a second bake as written draws the environment map's faces with the BRDF program instead of the equirectangular-to-cube program |
| PrecomputePasses.PrecomputePass.constructor | Runtime/src/Render/RenderPass/PrecomputePass.hpp:33 | a pass with no constructor of its own: running, no shaders, no framebuffer |
| PrecomputePasses.PrecomputePass.RenderAsWritten | Runtime/src/Render/RenderPass/PrecomputePass.hpp:35-137 | the four stages with shaders 0 to 3 then framebuffer 0, and slot 0 of the shader list left holding shader 3 |
| PrecomputePasses.PrecomputePass.Render | Runtime/src/Render/RenderPass/PrecomputePass.hpp:35-137 | the same calls with a local shader handle; the shader list is not modified |
| CubeMapPasses.RotationOnly | Runtime/src/Render/RenderPass/CubeMapPass.hpp:24 | mat4(mat3(view)) keeps the upper-left 3x3 block, zeroes the translation column and bottom row and puts 1 at [3][3] |
| CubeMapPasses.RotationOnlyFixedPoints | Runtime/src/Render/RenderPass/CubeMapPass.hpp:24 | dropping the translation leaves a view unchanged exactly when it already has no translation part |
| CubeMapPasses.RotationOnlyIdempotent | Runtime/src/Render/RenderPass/CubeMapPass.hpp:24 | dropping the translation twice is dropping it once; the identity view is unchanged |
| CubeMapPasses.SkyboxUploads | Runtime/src/Render/RenderPass/CubeMapPass.hpp:29-30 | the camera's two uploads are plain uniform uploads |
| CubeMapPasses.SkyboxSetupQuiet | Runtime/src/Render/RenderPass/CubeMapPass.hpp:17-30 | the set-up neither draws nor clears (the clear is commented out) |
| CubeMapPasses.SkyboxSetupState | Runtime/src/Render/RenderPass/CubeMapPass.hpp:17-30 | after the set-up the pass's framebuffer, the skybox shader and LEQUAL are in force |
| CubeMapPasses.SkyboxTeardownQuiet | Runtime/src/Render/RenderPass/CubeMapPass.hpp:35-39 | the teardown neither draws nor clears |
| CubeMapPasses.SkyboxTeardownState | Runtime/src/Render/RenderPass/CubeMapPass.hpp:35-39 | the teardown restores LESS, no program and framebuffer 0 |
| CubeMapPasses.SkyboxPass | Runtime/src/Render/RenderPass/CubeMapPass.hpp:10-40 | one cube drawn into the pass's framebuffer with shader 0 under LEQUAL, no clear, and LESS, no program and framebuffer 0 afterwards |
| CubeMapPasses.CubeMapPass.constructor | Runtime/src/Render/RenderPass/CubeMapPass.hpp:9 | a pass with no constructor of its own: running, no shaders, no framebuffer |
| CubeMapPasses.CubeMapPass.Render | Runtime/src/Render/RenderPass/CubeMapPass.hpp:10-40 | Render issues SkyboxCalls for the pass's framebuffer and shader 0 |
| SsaoPasses.KernelUploadsIndexed | Runtime/src/Render/RenderPass/SSAOPass.hpp:23-24 | sample i goes to samples[i], in index order, each exactly once, and only uniforms are touched |
| SsaoPasses.UploadKernel | Runtime/src/Render/RenderPass/SSAOPass.hpp:23-24 | the loop issues the 64 kernel uploads |
| SsaoPasses.SsaoUniforms | Runtime/src/Render/RenderPass/SSAOPass.hpp:37-38 | the projection and the SSAO switch are plain uploads |
| SsaoPasses.SsaoUnitsDistinct | Runtime/src/Render/RenderPass/SSAOPass.hpp:39-42 | the four sampler units 15, 14, 13, 12 are pairwise distinct |
| SsaoPasses.SsaoBeforeDrawQuiet | Runtime/src/Render/RenderPass/SSAOPass.hpp:32-44 | nothing is drawn before the quad, and the call just before it clears colour and depth |
| SsaoPasses.SsaoBeforeDrawTarget | Runtime/src/Render/RenderPass/SSAOPass.hpp:32-44 | when the quad is drawn the pass's framebuffer is bound with the viewport at its size and the shader is in use |
| SsaoPasses.SsaoTexturesAt | Runtime/src/Render/RenderPass/SSAOPass.hpp:39-42 | binding the four samplers leaves gPosition on 15, gNormal on 14, the noise on 13 and the scene image on 12 |
| SsaoPasses.SsaoDrawTextures | Runtime/src/Render/RenderPass/SSAOPass.hpp:32-45 | at the draw those four textures sit on units 15 to 12 whatever the units held before |
| SsaoPasses.SsaoDraw | Runtime/src/Render/RenderPass/SSAOPass.hpp:27-48 | Render draws exactly one quad, into the pass's framebuffer, with the pass's last shader |
| SsaoPasses.BindSsaoTextures | Runtime/src/Render/RenderPass/SSAOPass.hpp:39-42 | the four BindTexture calls in order |
| SsaoPasses.RenderSsao | Runtime/src/Render/RenderPass/SSAOPass.hpp:27-48 | Render's calls issued on values: SsaoCalls |
| SsaoPasses.SsaoPass.constructor | Runtime/src/Render/RenderPass/SSAOPass.hpp:13-25 | ssao.frag pushed as the only shader, bound, and given the 64 kernel samples; no framebuffer yet |
| SsaoPasses.SsaoPass.Render | Runtime/src/Render/RenderPass/SSAOPass.hpp:27-48 | Render issues SsaoCalls for the pass's framebuffer, its last shader and the noise map |
| SsaoPasses.SsaoPass.OnResize | Runtime/src/Render/RenderPass/SSAOPass.hpp:50-54 | the framebuffer resized as Framebuffer::OnResize does (nothing at the same size), then the viewport set to the new size |
| PostprocessPasses.MergeUniforms | Runtime/src/Render/RenderPass/PostprocessPass.hpp:51-74 | the merge shader's camera, tone-mapping, bloom, FXAA, fog, depth-of-field and SSAO settings are plain uniform uploads |
| PostprocessPasses.MergeUnitsDistinct | Runtime/src/Render/RenderPass/PostprocessPass.hpp:71-78 | the six merge samplers read six different units |
| PostprocessPasses.MergeTexturesRun | Runtime/src/Render/RenderPass/PostprocessPass.hpp:71-78 | the merge's texture calls leave the units as the six bindings made in turn leave them |
| PostprocessPasses.MergeTexturesAt | Runtime/src/Render/RenderPass/PostprocessPass.hpp:71-78 | afterwards unit 0 holds the scene, 1 the bloom result, 2 the depth map, 3 gPosition, 4 gNormal and 5 the noise texture |
| PostprocessPasses.ClearedOutput | Runtime/src/Render/RenderPass/PostprocessPass.hpp:81-82 | binding the output framebuffer, clearing it and binding the shader leaves that framebuffer, its size and that shader in force and the units as they were |
| PostprocessPasses.MergeDrawState | Runtime/src/Render/RenderPass/PostprocessPass.hpp:49-84 | when the merge quad is drawn the output framebuffer is bound at its size, the merge shader is in use and units 0 to 5 hold its six inputs |
| PostprocessPasses.MergeBeforeDrawQuiet | Runtime/src/Render/RenderPass/PostprocessPass.hpp:49-82 | nothing is drawn before the merge quad, and the call just before it clears the output's colour and depth |
| PostprocessPasses.MergeDraw | Runtime/src/Render/RenderPass/PostprocessPass.hpp:49-86 | the merge draws exactly one quad, into the output framebuffer, with the merge shader |
| PostprocessPasses.BloomFeedsMerge | Runtime/src/Render/RenderPass/PostprocessPass.hpp:47-84 | the last texture the bloom's upsampling writes is mip 0, the texture the merge reads as bloomBlur, and the merge adds exactly one draw, into the output framebuffer |
| PostprocessPasses.BindMergeTextures | Runtime/src/Render/RenderPass/PostprocessPass.hpp:71-78 | the merge's texture calls in order |
| PostprocessPasses.PrepareMerge | Runtime/src/Render/RenderPass/PostprocessPass.hpp:49-78 | the merge shader bound, then its uploads and texture bindings |
| PostprocessPasses.DrawMerge | Runtime/src/Render/RenderPass/PostprocessPass.hpp:81-86 | the output bound and cleared, the quad drawn, the shader unbound |
| PostprocessPasses.RenderMerge | Runtime/src/Render/RenderPass/PostprocessPass.hpp:49-86 | the whole merge issues MergeCalls |
| PostprocessPasses.CreateMergeShader | Runtime/src/Render/RenderPass/PostprocessPass.hpp:17-33 | the merge shader loaded from quad.vert and postprocess.frag, bound and given the 64 kernel samples |
| PostprocessPasses.OutputSpecificationSplits | Runtime/src/Render/RenderPass/PostprocessPass.hpp:18-24 | the output framebuffer's colour attachments are RGBA, RGBA and a Nearest-filtered integer, in that order, with the clamped depth entry as depth attachment |
| PostprocessPasses.NewOutputFramebuffer | Runtime/src/Render/RenderPass/PostprocessPass.hpp:36 | a fresh, valid framebuffer with those attachments, not yet sized, one framebuffer object generated and bound |
| PostprocessPasses.PostprocessPass.constructor | Runtime/src/Render/RenderPass/PostprocessPass.hpp:14-37 | a 1920 by 1080 bloom with 5 mips, then the merge shader with its kernel, then the output framebuffer, each taking its GL names in that order |
| PostprocessPasses.PostprocessPass.Render | Runtime/src/Render/RenderPass/PostprocessPass.hpp:39-88 | nothing when post-processing is off; otherwise the bloom on the input's attachment 1 with the configured radius, then the merge into the output reading the input's attachment 0 |
| PostprocessPasses.PostprocessPass.OnResize | Runtime/src/Render/RenderPass/PostprocessPass.hpp:90-94 | only the output framebuffer is resized, as Framebuffer::OnResize does, then the viewport is set to the new size |
| Blooms.HalvedIsDivision | Runtime/src/Render/Postprocess/Bloom.hpp:34-40 | halving the integer size k times with `/= 2` is dividing once by 2^k |
| Blooms.MipChainAt | Runtime/src/Render/Postprocess/Bloom.hpp:36-54 | the chain has one mip per level; mip i has the i-th fresh texture name and the size divided by 2^(i+1), never wider than the mip before |
| Blooms.CreateMips | Runtime/src/Render/Postprocess/Bloom.hpp:36-54 | the mip loop creates n textures, each a fresh name, sized by integer halving, with their allocation and parameter calls |
| Blooms.ChainCallsPrefix | Runtime/src/Render/Postprocess/Bloom.hpp:36-54 | the calls for the first n mips depend only on those mips |
| Blooms.Textures | Runtime/src/Render/Postprocess/Bloom.hpp:165 | the mips' textures in chain order |
| Blooms.DownsampleOrder | Runtime/src/Render/Postprocess/Bloom.hpp:111-123 | downsampling renders into mip 0, 1, ..., i - 1 in that order |
| Blooms.DownsampleReads | Runtime/src/Render/Postprocess/Bloom.hpp:107-123 | when step i begins, unit 0 is active and holds the source image (step 0) or mip i - 1 |
| Blooms.ReversedTextures | Runtime/src/Render/Postprocess/Bloom.hpp:138-152 | the mip textures last to first, the order the upsample loop writes them |
| Blooms.UpsampleOrder | Runtime/src/Render/Postprocess/Bloom.hpp:138-152 | upsampling writes mip n-2, n-3, ..., down to mip 0; a one-mip chain has no step |
| Blooms.UpsampleEndsAtResult | Runtime/src/Render/Postprocess/Bloom.hpp:138-161 | after the whole upsample loop the last mip written is mip 0, the one GetResultID reports |
| Blooms.UpsampleHeaderBlends | Runtime/src/Render/Postprocess/Bloom.hpp:130-136 | the header turns additive blending (ONE, ONE) on |
| Blooms.UpsampleBlends | Runtime/src/Render/Postprocess/Bloom.hpp:134-152 | additive blending with (ONE, ONE) is on for every upsample draw |
| Blooms.FooterRestores | Runtime/src/Render/Postprocess/Bloom.hpp:155-156 | whatever came before, the footer turns blending off and puts back (ONE, ONE_MINUS_SRC_ALPHA) |
| Blooms.UpsampleRestoresBlending | Runtime/src/Render/Postprocess/Bloom.hpp:128-159 | once upsampling is over blending is off and the blend function is (ONE, ONE_MINUS_SRC_ALPHA) |
| Blooms.UpsampleLoopKeepsBlending | Runtime/src/Render/Postprocess/Bloom.hpp:138-152 | no call of the upsample loop touches the blending state |
| Blooms.Bloom.constructor | Runtime/src/Render/Postprocess/Bloom.hpp:24-80 | the size stored, the framebuffer generated first, then the mip chain; an incomplete framebuffer is logged and leaves both shaders absent; otherwise the two shaders are loaded and their srcTexture set to 0 |
| Blooms.Bloom.Render | Runtime/src/Render/Postprocess/Bloom.hpp:92-98 | bind the bloom framebuffer at full size, then the downsample and the upsample passes |
| Blooms.Bloom.RenderDownsample | Runtime/src/Render/Postprocess/Bloom.hpp:100-126 | the downsample pass issues DownsampleCalls over the whole chain |
| Blooms.Bloom.RenderUpsample | Runtime/src/Render/Postprocess/Bloom.hpp:128-159 | the upsample pass issues UpsampleCalls over the whole chain |
| Blooms.Bloom.Destroy | Runtime/src/Render/Postprocess/Bloom.hpp:82-90 | every mip texture deleted and its name cleared, then the framebuffer deleted and its name cleared; nothing else changes |
| Blooms.CreateFramebuffer | Runtime/src/Render/Postprocess/Bloom.hpp:30-56 | the framebuffer takes the first fresh name and the n mips the next n |
| Blooms.CreateShaders | Runtime/src/Render/Postprocess/Bloom.hpp:72-79 | the downsample then the upsample shader loaded, each bound and given srcTexture 0 |
| Blooms.SetUp | Runtime/src/Render/Postprocess/Bloom.hpp:24-80 | the constructor's calls on values, with the shaders present exactly when the framebuffer is complete |
| Renderers.PassRunsMember | Runtime/src/Render/Renderer.cpp:88-162 | a pass is invoked by a run of calls exactly when it is among the run's pass invocations |
| Renderers.BloomPassFree | Runtime/src/Render/Renderer.cpp:138 | the bloom invokes no render pass |
| Renderers.LightingCallsSetupOnly | Runtime/src/Render/Renderer.cpp:102-122 | one forward shader's set-up only selects programs and textures and uploads uniforms |
| Renderers.LightingCallsLit | Runtime/src/Render/Renderer.cpp:102-122 | one shader's set-up sets its four environment samplers and its useEnvMap switch |
| Renderers.LightingLoopSetupOnly | Runtime/src/Render/Renderer.cpp:99-123 | the whole lighting loop only selects programs and textures and uploads uniforms |
| Renderers.AllLitConcat | Runtime/src/Render/Renderer.cpp:99-123 | when every part sets up its own shader, the joined parts set them all up |
| Renderers.LightingParts | Runtime/src/Render/Renderer.cpp:100-123 | one set-up per forward shader |
| Renderers.LightingPartsAt | Runtime/src/Render/Renderer.cpp:100-123 | part k is shader k's set-up |
| Renderers.LightingLoopConcat | Runtime/src/Render/Renderer.cpp:100-123 | the lighting loop is its per-shader parts joined in list order |
| Renderers.LightingLoopLit | Runtime/src/Render/Renderer.cpp:99-123 | the lighting loop sets up every shader of the forward list |
| Renderers.DepthStagePasses | Runtime/src/Render/Renderer.cpp:93-95 | the depth stage invokes the depth pass only |
| Renderers.ForwardStagePasses | Runtime/src/Render/Renderer.cpp:97-124 | the forward stage invokes the forward pass only |
| Renderers.SkyboxStagePasses | Runtime/src/Render/Renderer.cpp:126-135 | the skybox stage invokes the environment-map pass exactly when the environment map is in use |
| Renderers.PostStagePasses | Runtime/src/Render/Renderer.cpp:137-159 | post-processing invokes no render pass |
| Renderers.FramePassOrder | Runtime/src/Render/Renderer.cpp:88-162 | a frame invokes the depth pass, then the forward pass, then the skybox pass exactly when the environment map is in use |
| Renderers.FramePasses | Runtime/src/Render/Renderer.cpp:88-162 | the skybox pass is part of a frame exactly when the environment map is in use, and the UI pass never is |
| Renderers.DepthPassState | Runtime/src/Render/Renderer.cpp:93-94 | the depth pass runs with the 2048 x 2048 viewport and front faces culled, in whatever framebuffer was bound |
| Renderers.ForwardPassState | Runtime/src/Render/Renderer.cpp:97-123 | the forward pass runs into the main framebuffer at its size with back faces culled and capabilities unchanged |
| Renderers.ForwardShadersLit | Runtime/src/Render/Renderer.cpp:99-124 | every forward shader has its samplers and switch set before the forward pass runs |
| Renderers.SkyboxPassState | Runtime/src/Render/Renderer.cpp:127-132 | the skybox pass finds the environment cube map on unit 0, no program in use and the framebuffer unchanged |
| Renderers.MergeSetupState | Runtime/src/Render/Renderer.cpp:140-151 | after the merge set-up the scene texture is on unit 0 and the bloom result on unit 1 |
| Renderers.MergeDrawState | Runtime/src/Render/Renderer.cpp:150-156 | the merge quad is drawn into the main framebuffer at the viewport size with the merge shader, reading the scene on unit 0 and the bloom result on unit 1 |
| Renderers.FrameSplitsAtMerge | Runtime/src/Render/Renderer.cpp:88-162 | with post-processing on, the frame is everything before the merge followed by the merge |
| Renderers.FrameEndsWithMerge | Runtime/src/Render/Renderer.cpp:137-159 | with post-processing on, the frame's last draw is the merge quad into the main framebuffer, reading the scene and the bloom result |
| Renderers.NoPostprocessNoDraws | Runtime/src/Render/Renderer.cpp:88-162 | without post-processing the renderer itself draws nothing: every draw of the frame belongs to a pass |
| Renderers.LightShader | Runtime/src/Render/Renderer.cpp:102-122 | one turn of the lighting loop issues LightingCalls |
| Renderers.BindLighting | Runtime/src/Render/Renderer.cpp:99-123 | the lighting loop issues the set-ups of the forward shaders in list order |
| Renderers.BindSkybox | Runtime/src/Render/Renderer.cpp:127-132 | the skybox shader given the environment cube map on unit 0 |
| Renderers.UploadMergeSettings | Runtime/src/Render/Renderer.cpp:142-148 | the merge shader's five settings |
| Renderers.MergeBloom | Runtime/src/Render/Renderer.cpp:140-158 | the bloom merge issues MergeCalls into the main framebuffer at the viewport size |
| Renderers.QueuedPass.constructor | Runtime/src/Render/RenderPass/RenderPass.hpp:88-92 | a queued pass starts running, bound to no framebuffer, with the shaders its own constructor loaded |
| Renderers.QueuedPass.Awake | Runtime/src/Render/RenderPass/RenderPass.hpp:70 | only the running flag changes |
| Renderers.QueuedPass.PushShader | Runtime/src/Render/RenderPass/RenderPass.hpp:78 | the shader is appended and returned |
| Renderers.QueuedPass.BindFramebuffer | Runtime/src/Render/RenderPass/RenderPass.hpp:72 | only the bound framebuffer name changes |
| Renderers.ConstructDepthPass | Runtime/src/Render/Renderer.cpp:226 | DepthRenderPass's constructor leaves the depth shader as its only shader |
| Renderers.LoadDepthPassShaders | Runtime/src/Render/Renderer.cpp:225-228 | the depth pass's constructor shader, then the depth shader loaded again, with names n+7 and n+10 and the calls of DepthQueueCalls |
| Renderers.QueueDepthPass | Runtime/src/Render/Renderer.cpp:225-228 | the depth pass queued with the depth shader pushed a second time and bound to the shadow depthbuffer |
| Renderers.ForwardIdsSpaced | Runtime/src/Render/Renderer.cpp:232-236 | the forward pass's eight program names are its constructor's four then the four pushed, all three apart |
| Renderers.LoadForwardShaders | Runtime/src/Render/Renderer.cpp:231-236 | the main framebuffer bound, then the constructor's shaders and the four pushed loaded |
| Renderers.QueueForwardPass | Runtime/src/Render/Renderer.cpp:230-238 | the forward pass queued with pbr, phong, toon and light pushed after its own four and bound to the main framebuffer |
| Renderers.QueueSkyboxPass | Runtime/src/Render/Renderer.cpp:240-244 | the skybox pass queued with the cube-map shader and bound to the main framebuffer |
| Renderers.QueueDrawPasses | Runtime/src/Render/Renderer.cpp:230-244 | the forward and skybox passes, distinct, both running and bound to the main framebuffer |
| Renderers.BindRenderPasses | Runtime/src/Render/Renderer.cpp:223-253 | the depth, forward and skybox passes queued in that order, and a UI pass kept out of the queue |
| Renderers.BakeSizesMatchStages | Runtime/src/Render/Renderer.cpp:196-207 | the bake allocates the irradiance map at 32, the prefilter map at 128, the BRDF table at 512 x 512 and the environment map at the configured resolution: the sizes the precompute stages render at, with the default 2048 |
| Renderers.ResizeForBake | Runtime/src/Render/Renderer.cpp:191-199 | culling off, then the precompute framebuffer resized to the configured resolution |
| Renderers.NewBakePass | Runtime/src/Render/Renderer.cpp:210-217 | a precompute pass bound to the context's framebuffer with the environment, irradiance, prefilter and BRDF shaders pushed in that order |
| Renderers.RunBake | Runtime/src/Render/Renderer.cpp:219-220 | the bake as written with the four pushed shaders, then culling on again; the pass's list ends as ShadersAfterBakeAsWritten of the pushed one |
| Renderers.BakeWithNewPass | Runtime/src/Render/Renderer.cpp:210-220 | the pass built, its four shaders loaded with names three apart and pushed, the bake run as written, culling on again; the list ends with slot 0 overwritten |
| Renderers.BakeEnvironmentLight | Runtime/src/Render/Renderer.cpp:188-221 | the whole bake: allocations at BakeAllocations, the framebuffer resized, the four-stage bake as written, culling restored; the pass's list ends with slot 0 overwritten |
| Renderers.ShadowAndForward | Runtime/src/Render/Renderer.cpp:93-124 | the depth stage, then the forward stage with every forward shader lit |
| Renderers.BloomAndMerge | Runtime/src/Render/Renderer.cpp:137-159 | the bloom on the main framebuffer's texture 1, then the merge into the main framebuffer |
| Renderers.FillModeOf | Runtime/src/Render/Renderer.cpp:173-177 | shaded selects filled polygons and wire-frame selects lines, and only those |
| Renderers.UpdateState | Runtime/src/Render/Renderer.cpp:166-178 | OnUpdate changes only the fill mode, to the one the configured polygon mode selects |
| Renderers.BuildTargets | Runtime/src/Render/Renderer.cpp:56-57 | the main framebuffer at 1920 x 1080 and the depthbuffer at 2048 x 2048, created in that order |
| Renderers.BuildBake | Runtime/src/Render/Renderer.cpp:60-63 | the precompute context, then the bake at the configured resolution, after which slot 0 of the pass's list holds the same shader as slot 3 |
| Renderers.BuildPasses | Runtime/src/Render/Renderer.cpp:66 | the render passes queued and apart, over the depthbuffer and the main framebuffer |
| Renderers.BuildPostprocess | Runtime/src/Render/Renderer.cpp:68-69 | the 1920 x 1080 bloom with 5 mips, then the merge shader |
| Renderers.Renderer.constructor | Runtime/src/Render/Renderer.cpp:47-77 | the default configuration and viewport, the targets, the bake (leaving slot 0 of the bake pass's list equal to slot 3), the queued passes, all running, and the bloom, created in that order with increasing names |
| Renderers.Renderer.RenderShadowAndForward | Runtime/src/Render/Renderer.cpp:93-124 | the depth stage then the forward stage for the renderer's current view |
| Renderers.Renderer.RenderSkybox | Runtime/src/Render/Renderer.cpp:126-135 | the skybox stage for the current view |
| Renderers.Renderer.RenderPostprocess | Runtime/src/Render/Renderer.cpp:137-159 | the post-processing stage for the current view |
| Renderers.Renderer.DrawFrame | Runtime/src/Render/Renderer.cpp:93-159 | a frame's calls for the current view |
| Renderers.Renderer.Render | Runtime/src/Render/Renderer.cpp:88-162 | the camera becomes the active camera and the frame's calls are issued; configuration and viewport are unchanged |
| Renderers.Renderer.OnUIRender | Runtime/src/Render/Renderer.cpp:164 | the UI pass is run, and nothing else |
| Renderers.Renderer.OnUpdate | Runtime/src/Render/Renderer.cpp:166-178 | the swap interval and the fill mode from the configuration |
| Renderers.Renderer.OnResize | Runtime/src/Render/Renderer.cpp:180-186 | nothing at the current viewport size; otherwise the size is recorded and the main framebuffer, and only it, resized |
| Renderers.Renderer.OnAwake | Runtime/src/Render/Renderer.hpp:35-38 | every queued pass's running flag set to the value; the UI pass, outside the queue, keeps its own |
| Renderers.Renderer.SetGraphicsConfig | Runtime/src/Render/Renderer.hpp:46 | the configuration replaced; viewport and camera unchanged |
| Renderers.Renderer.FramebufferImageID | Runtime/src/Render/Renderer.hpp:41 | the main framebuffer's colour texture 0, the scene texture a frame merges from |
| Renderers.Renderer.GetShadersList | Runtime/src/Render/Renderer.hpp:49 | the forward pass's eight shaders, the list every frame lights |
| Renderers.PushShaders | Runtime/src/Render/Renderer.cpp:233-236 | a queued pass's shader list extended by the given shaders in order, with its running flag and framebuffer unchanged |
| Renderers.PushPassShaders | Runtime/src/Render/Renderer.cpp:214-217 | the precompute pass's shader list extended by the given shaders in order, with its running flag and framebuffer unchanged |
| SceneSerialization.Find | Runtime/src/Scene/SceneSerilizer.cpp:185-206 | a mapping lookup finds nothing exactly when no entry has the key, and otherwise one of its entries under that key |
| SceneSerialization.Get | Runtime/src/Scene/SceneSerilizer.cpp:183-212 | subscripting a scalar throws; a null node or a sequence has no entry; a mapping is searched |
| SceneSerialization.FindPast | Runtime/src/Scene/SceneSerilizer.cpp:185-206 | entries without the key do not change a lookup in what follows them |
| SceneSerialization.AsString | Runtime/src/Scene/SceneSerilizer.cpp:183 | reading text succeeds exactly on a found text scalar, giving its text, or a found null node, giving "null"; a missing entry is a conversion error and a bad subscript propagates |
| SceneSerialization.AsFloat | Runtime/src/Scene/SceneSerilizer.cpp:31-32 | reading a float succeeds exactly on a float node and gives its value |
| SceneSerialization.AsUnsigned | Runtime/src/Scene/SceneSerilizer.cpp:188 | reading an unsigned number succeeds exactly on a found scalar the stream extracts a number from, below the type's limit, and gives that number; a missing entry is a conversion error and a bad subscript propagates |
| SceneSerialization.AsUnsignedReadsDecimal | Runtime/src/Scene/SceneSerilizer.cpp:144-212 | the decimal text std::to_string writes reads back as the number, below the limit |
| SceneSerialization.EncodeVec2 | Runtime/src/Scene/SceneSerilizer.cpp:18-25 | a vec2 is written as a two-item sequence |
| SceneSerialization.EncodeVec3 | Runtime/src/Scene/SceneSerilizer.cpp:40-48 | a vec3 is written as a three-item sequence |
| SceneSerialization.EncodeVec4 | Runtime/src/Scene/SceneSerilizer.cpp:64-73 | a vec4 is written as a four-item sequence |
| SceneSerialization.DecodeVec2 | Runtime/src/Scene/SceneSerilizer.cpp:27-34 | refused exactly when the node is not a two-item sequence; decoded exactly when both items are floats, as x then y |
| SceneSerialization.DecodeVec3 | Runtime/src/Scene/SceneSerilizer.cpp:50-58 | refused exactly when the node is not a three-item sequence; decoded exactly when all three items are floats, as x, y, z |
| SceneSerialization.DecodeVec4 | Runtime/src/Scene/SceneSerilizer.cpp:75-84 | refused exactly when the node is not a four-item sequence; decoded items x, y, z, w by position |
| SceneSerialization.VectorRoundTrips | Runtime/src/Scene/SceneSerilizer.cpp:15-84 | decoding an encoded vec2, vec3 or vec4 gives it back |
| SceneSerialization.VectorArityChecked | Runtime/src/Scene/SceneSerilizer.cpp:15-84 | an encoded vector is refused by the decoders of the other two arities |
| SceneSerialization.AsVec3 | Runtime/src/Scene/SceneSerilizer.cpp:201-203 | reading a vec3 succeeds exactly when the entry is found and decodes; a refused decode is a bad conversion |
| SceneSerialization.EntityNode | Runtime/src/Scene/SceneSerilizer.cpp:111-149 | a written entity is a mapping of one to four entries, the first the fixed Entity key |
| SceneSerialization.Live | Runtime/src/Scene/SceneSerilizer.cpp:158-163 | the entities written are exactly the registry's entities with a non-null handle, in registry order |
| SceneSerialization.EntityNodes | Runtime/src/Scene/SceneSerilizer.cpp:158-163 | one entity node per entity written |
| SceneSerialization.LiveNodesStep | Runtime/src/Scene/SceneSerilizer.cpp:158-163 | visiting one more registry entity adds its node exactly when its handle is live |
| SceneSerialization.ReadEntity | Runtime/src/Scene/SceneSerilizer.cpp:187-215 | reading an entity either creates one with the next handle and a transform, or throws before creating it |
| SceneSerialization.ReadComponents | Runtime/src/Scene/SceneSerilizer.cpp:197-214 | once created, the entity keeps its handle and tag and always has a transform, whatever throws later |
| SceneSerialization.ReadEntities | Runtime/src/Scene/SceneSerilizer.cpp:186-216 | the loop only appends, with consecutive handles, one per creation, and either finishes or throws |
| SceneSerialization.Deserialized | Runtime/src/Scene/SceneSerilizer.cpp:171-218 | reading a document only appends entities, and a false return leaves the scene as it was |
| SceneSerialization.Scene.constructor | Runtime/src/Scene/Scene.cpp:10-17 | a new scene has no entities and hands out handles from 0 |
| SceneSerialization.Scene.CreateEntity | Runtime/src/Scene/Scene.cpp:10-17 | a new entity with the next handle, the tag and the default transform is appended, and the handle counter advances |
| SceneSerialization.Scene.SetTransform | Runtime/src/Scene/SceneSerilizer.cpp:197-204 | only that entity's transform is replaced |
| SceneSerialization.Scene.SetMeshRenderer | Runtime/src/Scene/SceneSerilizer.cpp:206-214 | only that entity's mesh renderer is set |
| SceneSerialization.SceneSerializer.constructor | Runtime/src/Scene/SceneSerilizer.hpp:12 | the serializer refers to the given scene |
| SceneSerialization.SceneSerializer.SetContext | Runtime/src/Scene/SceneSerilizer.hpp:18 | the serializer refers to the new scene |
| SceneSerialization.SceneSerializer.Serialize | Runtime/src/Scene/SceneSerilizer.cpp:151-169 | the document written is the scene's document: the fixed name, then the live entities' nodes in order |
| SceneSerialization.SceneSerializer.Deserialize | Runtime/src/Scene/SceneSerilizer.cpp:171-218 | the scene afterwards is what Deserialized gives from the scene before, and the result is its return value |
| SceneSerialization.SceneSerializer.ReadAll | Runtime/src/Scene/SceneSerilizer.cpp:186-216 | the loop's effect on the scene is ReadEntities' |
| SceneSerialization.SceneSerializer.ReadInto | Runtime/src/Scene/SceneSerilizer.cpp:187-215 | one loop turn's effect on the scene is ReadEntity's |
| SceneSerialization.SceneSerializer.ReadComponentsInto | Runtime/src/Scene/SceneSerilizer.cpp:197-214 | the transform and mesh renderer reading's effect on the scene is ReadComponents' |
| SceneSerialization.DeserializeFalse | Runtime/src/Scene/SceneSerilizer.cpp:171-181 | a file that does not parse, or has no Scene entry, returns false and leaves the scene unchanged |
| SceneSerialization.EntityKeyIgnored | Runtime/src/Scene/SceneSerilizer.cpp:188 | the Entity value is read and dropped: any key the stream reads as a number in 64-bit range gives the same entity |
| SceneSerialization.EntityKeyParses | Runtime/src/Scene/SceneSerilizer.cpp:114 | the fixed key written reads as a number that fits 64 bits |
| SceneSerialization.DigitsBelow | Runtime/src/Scene/SceneSerilizer.cpp:188 | a run of n digits is worth less than ten to the n |
| SceneSerialization.Restored | Runtime/src/Scene/SceneSerilizer.cpp:171-218 | one restored entity per written entity |
| SceneSerialization.TagSection | Runtime/src/Scene/SceneSerilizer.cpp:116-124 | the tag section of a written entity is found under its key exactly when the entity has a tag |
| SceneSerialization.TransformSection | Runtime/src/Scene/SceneSerilizer.cpp:126-136 | the transform section of a written entity is found under its key exactly when the entity has a transform |
| SceneSerialization.MeshRendererSection | Runtime/src/Scene/SceneSerilizer.cpp:138-147 | the mesh renderer section of a written entity is found under its key exactly when the entity has one |
| SceneSerialization.FindThree | Runtime/src/Scene/SceneSerilizer.cpp:126-147 | each key of a three-entry section with distinct keys finds its own value |
| SceneSerialization.TransformRoundTrip | Runtime/src/Scene/SceneSerilizer.cpp:126-136 | a written transform reads back as the same transform, with nothing thrown |
| SceneSerialization.MeshRendererRoundTrip | Runtime/src/Scene/SceneSerilizer.cpp:138-147 | a written mesh renderer reads back as its path and material index, with the loader's meshes for that path |
| SceneSerialization.EntityRoundTrip | Runtime/src/Scene/SceneSerilizer.cpp:111-149 | reading a written entity creates its restored copy with the given handle and throws nothing |
| SceneSerialization.ReadEntitiesClean | Runtime/src/Scene/SceneSerilizer.cpp:186-216 | an entity read without an exception is appended and the loop goes on with the next handle |
| SceneSerialization.ReadsAsTail | Runtime/src/Scene/SceneSerilizer.cpp:186-216 | reading cleanly item by item carries over to the rest of the items |
| SceneSerialization.AppendHead | Runtime/src/Scene/SceneSerilizer.cpp:186-216 | appending the head and then the tail appends the whole sequence |
| SceneSerialization.ReadsCleanly | Runtime/src/Scene/SceneSerilizer.cpp:186-216 | when every item reads cleanly, the loop appends what each creates, with consecutive handles, and returns true |
| SceneSerialization.ReadsBack | Runtime/src/Scene/SceneSerilizer.cpp:186-216 | a node equal to an entity's written node reads back as that entity's restored copy |
| SceneSerialization.EntitiesRoundTrip | Runtime/src/Scene/SceneSerilizer.cpp:186-216 | the loop over written entities appends their restored copies with consecutive handles and returns true |
| SceneSerialization.LiveIndicesFit | Runtime/src/Scene/SceneSerilizer.cpp:158-163 | the live entities of a scene whose material indices fit 32 bits fit too |
| SceneSerialization.ListedEntities | Runtime/src/Scene/SceneSerilizer.cpp:181-187 | with a text scene name and a sequence of entities, reading the document is the entity loop over that sequence |
| SceneSerialization.SceneRoundTrip | Runtime/src/Scene/SceneSerilizer.cpp:151-218 | reading back a written scene returns true and appends restored copies of its live entities: tags, transforms, mesh paths and material indices survive |

## Left out

- Pixel results are not modelled: shader outputs, image contents, bloom energy, and picking through rendered pixels. Framebuffer completeness and the value `glReadPixels` returns are parameters.
- Shader compile and link verdicts are not modelled. The source only prints them, so a load always yields a program name.
- Floating-point numerics are not modelled, because their values are reals or opaque here:
  - camera view and projection maths;
  - transform matrix composition;
  - sphere vertex trigonometry (the counts and index layout are kept);
  - the Bloom's float mip sizes (the integer sizes are kept).
- The Animator is not modelled. The 100 bone matrices the forward pass uploads are identity, as the source writes them.
- The SSAO kernel and noise (`Noise.hpp`) depend on a random source that is not part of this model. The 64 kernel uploads are modelled with opaque values.
- Image decoding and texture upload (`Texture2D.hpp`, `CubeMap.hpp`) are not part of this model. The loader is a function parameter that returns texture names.
- Assimp's file reading is not modelled. `LoadModel` takes the imported scene tree as a value.
- The YAML text layer is not modelled: emitter layout, parsing, and float text formatting. Documents are node trees, and a parse failure is an outcome of the parse parameter.
- SceneSerialization.AsString: a scalar written from a float converts to its text in the source; here it is refused, because float text formatting is not modelled.
- SceneSerialization.AsUnsigned: a scalar written from a float is read from its text in the source; here it is refused, for the same reason.
- Strings.StreamUnsigned: locale-specific digit grouping is not modelled; the classic locale has none.
- `Serialize` returns the document; writing its text to the file is not modelled.
- Entity-registry iteration follows creation order here. EnTT may visit entities in another order or recycle handles, and `Scene.cpp` and `Entity.hpp` are modelled only as far as the serializer and the forward pass use them: the handle, the components, and the comparison with the selected entity.
- The IDComponent's UUID is not modelled, because the serializer never reads it back.
- The pipeline log and the geometry log are separate. The relative order of a vertex-array call and a pipeline call is not recorded.
- `Renderer::PostProcess` is declared at `Renderer.hpp:31` but has no definition, so it is not modelled.
- The ImGui render pass, windowing, input and the editor are not part of this model. `OnUIRender` is recorded as one pass invocation.
- The Renderer constructor's white fallback texture, the scene it creates, and the frame timer are not modelled.
- Renderers.Renderer.constructor: states the names, sizes and kinds of what it builds, not its whole call log, because the full log made every caller's proof too large.
- ForwardPasses.ForwardRenderPass.Render: requires every drawn entity's material index to be below the pass's shader count (MaterialsFit). The source indexes `m_Shaders` with it unchecked (ForwardPass.hpp:74), and a scene file can supply any 32-bit index (SceneSerilizer.cpp:212). A larger index is undefined behaviour, which the model does not describe.
- ForwardPasses.RenderScene: the same material-index requirement, for the same reason.
- ForwardPasses.DrawView: the same material-index requirement, for the same reason. ViewCalls, SceneCalls, ForwardPassCalls and the lemmas about them carry it too.
- Renderers.Renderer.Render: requires the bloom's two shaders to exist when post-processing is on. An incomplete bloom framebuffer makes the Bloom constructor return early (Bloom.hpp:63-67) and leaves both shaders null (Bloom.hpp:166-167). The source's frame would then dereference null, which the model does not describe.
- Renderers.BloomAndMerge: the same bloom-shader requirement, for the same reason.
- PostprocessPasses.PostprocessPass.Render: the same bloom-shader requirement, for the same reason.
- Blooms.Bloom.Render: requires both bloom shaders, for the same reason.
- Blooms.Bloom.RenderDownsample: requires the downsample shader, for the same reason.
- Blooms.Bloom.RenderUpsample: requires the upsample shader, for the same reason.
- ForwardPasses.IsActive: `entity == graphicsContext->activeEntity` (ForwardPass.hpp:115) is read as the same registry handle. `Entity.hpp` declares no `operator==`, only a non-explicit `operator bool` (Entity.hpp:44), so a literal reading compares liveness: with any entity selected, every live entity would get the stencil-writing second drawing. The model takes handle identity because that `Entity.hpp` cannot be the one its callers were built against (its users write `Entity{}`, which it has no constructor for), and selection outlining only makes sense per entity. EntryCount, ViewCallsCount, SceneCount and ForwardPassDrawCount count the selected entity's meshes twice under this reading.
- ForwardPasses.ActiveDrawable: requires the selected entity to have a transform and a mesh renderer, where the outline reads them. `Entity::GetComponent` asserts `HasComponent<T>()` (Entity.hpp:20), so the source demands the same; OutlineCalls, AfterViewCalls, RenderOutline and the forward-pass lemmas carry it.
- GL names: textures, framebuffers, renderbuffers, shaders and programs are all drawn from one counter, `Device.nextName`, whereas GL keeps a name space per object kind and may hand out equal names to objects of different kinds. The ordering and distinctness of names across kinds (for example in Blooms.CreateFramebuffer, Renderers.BuildTargets, the Renderer constructor and Framebuffers.ResizedNamesAreFresh) hold of this allocation, not of every GL driver.
- The bloom keeps its 1920 x 1080 size after `Renderer::OnResize`, because the source does not resize it.
- Fields the passes read that the configuration header lacks are extra state of the configuration and context records. Examples are `fogStart`, `enableSSAO` and `gPosition`.
- `HdrFramebuffer::ReadPixel` is declared but not defined, so it is not modelled.
- Plain getters that return a field (`GetID`, `GetType`, `GetVertexNum`, `GetFramebufferImage`) are read as fields and carry no contract of their own.

## Findings

| source | as written | input that shows it | evidently intended | confidence | as-written member | corrected member |
|---|---|---|---|---|---|---|
| Runtime/src/Render/Geometry/Model.hpp:250 | the bone-weight assert admits `vertexId <= vertices.size()` | a weight whose vertexId equals the mesh's vertex count passes the assert and indexes one past the end | `vertexId < vertices.size()` | high, not executed | Models.WeightGuardAsWrittenAdmitsPastEnd | Models.Model.ProcessBoneWeight |
| Runtime/src/Render/RenderPass/PrecomputePass.hpp:45-118 | `auto& shader = m_Shaders[0]` is a reference, so each stage's `shader = m_Shaders[k]` overwrites slot 0 | four distinct shaders: after one bake slot 0 holds the BRDF shader, and a second bake draws the environment map with it | a local copy of the stage shader, with the shader list unchanged | high, not executed | PrecomputePasses.SecondBakeAsWrittenDiffers | PrecomputePasses.PrecomputePass.Render |
| Runtime/src/Render/Buffer/HdrFramebuffer.hpp:23 | `m_Colorbuffer[2]` has no initialiser, and `HdrFramebuffer(w, h)` leaves it indeterminate | an array that happens to hold a live texture's name: the first `OnResize` deletes that texture | the array zero-initialised like the other name fields | medium, not executed | HdrFramebuffers.UninitialisedColorbuffersDeleteLiveTexture | HdrFramebuffers.HdrFramebuffer.SizedZeroed |
