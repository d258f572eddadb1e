// PostprocessPass (PostprocessPass.hpp): bloom and the final merge. When
// post-processing is on, the bloom runs on the input framebuffer's second
// colour attachment (the bright parts), then the merge shader combines the
// scene, the bloom result, the depth map, the G-buffer and the noise texture
// (units 0 to 5) in one full-screen quad drawn into the pass's own output
// framebuffer. When it is off the pass makes no call at all.
module PostprocessPasses {
  import opened GL
  import opened Shaders
  import opened Shapes
  import opened Buffers
  import opened Textures
  import opened FramebufferSpecs
  import opened Framebuffers
  import opened Configs
  import opened Blooms
  import opened RenderPasses
  import opened SsaoPasses

  /** The bloom's size and mip count. */
  const BloomWidth: nat := 1920
  const BloomHeight: nat := 1080
  const BloomMips: nat := 5

  /** The merge shader's uploads: the camera, then every post-processing
      setting, flags and enumerations as the integers of their casts. The
      camera position is not part of the camera model and goes as an opaque
      value. */
  function MergeUniforms(m: Shader, cam: Camera, ps: PostprocessSetting): (r: seq<Event>)
    ensures Uploads(r)
  {
    [SetUniform(m.id, "projection", MatrixValue(cam.projection)),
     SetUniform(m.id, "viewPos", Opaque),
     SetUniform(m.id, "nearClip", FloatValue(cam.nearClip)),
     SetUniform(m.id, "farClip", FloatValue(cam.farClip)),
     SetUniform(m.id, "tonemappingType", IntValue(ToneMappingCode(ps.tonemappingType))),
     SetUniform(m.id, "exposure", FloatValue(ps.exposure)),
     SetUniform(m.id, "enableBloom", IntValue(BoolInt(ps.enableBloom))),
     SetUniform(m.id, "bloomIntensity", FloatValue(ps.bloomIntensity)),
     SetUniform(m.id, "enableFXAA", IntValue(BoolInt(ps.enableFXAA))),
     SetUniform(m.id, "fogType", IntValue(FogTypeCode(ps.fogType))),
     SetUniform(m.id, "fogDensity", FloatValue(ps.fogDensity)),
     SetUniform(m.id, "fogStart", FloatValue(ps.fogStart)),
     SetUniform(m.id, "fogEnd", FloatValue(ps.fogEnd)),
     SetUniform(m.id, "enableDoF", IntValue(BoolInt(ps.enableDoF)))]
  }

  /** The scene image on unit 0 and the bloom result on unit 1. */
  function SceneSamplers(scene: Name, bloomResult: Name): seq<SamplerBinding>
  {
    [SamplerBinding("scene", scene, 0), SamplerBinding("bloomBlur", bloomResult, 1)]
  }

  /** The depth map, the G-buffer and the noise texture on units 2 to 5. */
  function ContextSamplers(ctx: GraphicsContext, noise: Name): seq<SamplerBinding>
  {
    [SamplerBinding("DepthMap", ctx.depthMap, 2), SamplerBinding("gPosition", ctx.gPosition, 3),
     SamplerBinding("gNormal", ctx.gNormal, 4), SamplerBinding("ssaoNoise", noise, 5)]
  }

  /** The texture calls of the merge, with the SSAO switch between the two groups. */
  function MergeTextures(m: Shader, ctx: GraphicsContext, scene: Name, bloomResult: Name, noise: Name): seq<Event>
  {
    BindTexturesCalls(m, SceneSamplers(scene, bloomResult))
    + [SetUniform(m.id, "enableSSAO", IntValue(BoolInt(ctx.config.postprocessSetting.enableSSAO)))]
    + BindTexturesCalls(m, ContextSamplers(ctx, noise))
  }

  /** The merge's calls up to its draw: bind the merge shader and upload,
      bind the textures, bind the output framebuffer (with its viewport),
      clear it, and the quad's own shader bind. */
  function MergeBeforeDraw(m: Shader, cam: Camera, ctx: GraphicsContext, scene: Name, bloomResult: Name, noise: Name,
                           out: Name, w: nat, h: nat): seq<Event>
  {
    ([UseProgram(m.id)] + MergeUniforms(m, cam, ctx.config.postprocessSetting))
    + MergeTextures(m, ctx, scene, bloomResult, noise)
    + (BindCalls(out, w, h) + [Clear(true, true, false), UseProgram(m.id)])
  }

  /** The merge: everything up to the draw, one full-screen quad, the shader unbound. */
  function MergeCalls(m: Shader, cam: Camera, ctx: GraphicsContext, scene: Name, bloomResult: Name, noise: Name,
                      out: Name, w: nat, h: nat): seq<Event>
  {
    MergeBeforeDraw(m, cam, ctx, scene, bloomResult, noise, out, w, h)
    + [DrawArrays(TriangleStrip, QuadVertexCount), UseProgram(0)]
  }

  /** The six merge samplers read six different units. */
  lemma MergeUnitsDistinct(scene: Name, bloomResult: Name, ctx: GraphicsContext, noise: Name)
    ensures DistinctUnits(SceneSamplers(scene, bloomResult) + ContextSamplers(ctx, noise))
  {
    var all := SceneSamplers(scene, bloomResult) + ContextSamplers(ctx, noise);
    assert forall i | 0 <= i < |all| :: all[i].unit == i;
  }

  /** The merge's texture calls leave the units as the six bindings made in
      turn leave them, and keep the bound framebuffer. */
  lemma MergeTexturesRun(s: State, m: Shader, ctx: GraphicsContext, scene: Name, bloomResult: Name, noise: Name)
    ensures Run(s, MergeTextures(m, ctx, scene, bloomResult, noise)).units
            == BoundUnits(s.units, SceneSamplers(scene, bloomResult) + ContextSamplers(ctx, noise))
  {
    var t1 := BindTexturesCalls(m, SceneSamplers(scene, bloomResult));
    var mid := [SetUniform(m.id, "enableSSAO", IntValue(BoolInt(ctx.config.postprocessSetting.enableSSAO)))];
    var t2 := BindTexturesCalls(m, ContextSamplers(ctx, noise));
    BindTexturesRun(s, m, SceneSamplers(scene, bloomResult));
    UploadsRun(Run(s, t1), mid);
    BindTexturesRun(Run(Run(s, t1), mid), m, ContextSamplers(ctx, noise));
    RunThreeParts(s, t1, mid, t2);
    BoundUnitsAppend(s.units, SceneSamplers(scene, bloomResult), ContextSamplers(ctx, noise));
  }

  /** After the six bindings, unit k holds the k-th merge input. */
  lemma MergeTexturesAt(mp: map<nat, (TexTarget, Name)>, scene: Name, bloomResult: Name, ctx: GraphicsContext, noise: Name)
    ensures var units := BoundUnits(mp, SceneSamplers(scene, bloomResult) + ContextSamplers(ctx, noise));
      && 0 in units && units[0] == (Texture2D, scene)
      && 1 in units && units[1] == (Texture2D, bloomResult)
      && 2 in units && units[2] == (Texture2D, ctx.depthMap)
      && 3 in units && units[3] == (Texture2D, ctx.gPosition)
      && 4 in units && units[4] == (Texture2D, ctx.gNormal)
      && 5 in units && units[5] == (Texture2D, noise)
  {
    var all := SceneSamplers(scene, bloomResult) + ContextSamplers(ctx, noise);
    MergeUnitsDistinct(scene, bloomResult, ctx, noise);
    BoundUnitsAt(mp, all, 0);
    BoundUnitsAt(mp, all, 1);
    BoundUnitsAt(mp, all, 2);
    BoundUnitsAt(mp, all, 3);
    BoundUnitsAt(mp, all, 4);
    BoundUnitsAt(mp, all, 5);
  }

  /** Binding a framebuffer, clearing it and binding a shader leaves that
      framebuffer, its size and that shader in force, and the units as they were. */
  lemma ClearedOutput(s: State, fb: Name, w: nat, h: nat, p: Name)
    ensures Run(s, BindCalls(fb, w, h) + [Clear(true, true, false), UseProgram(p)]).framebuffer == fb
    ensures Run(s, BindCalls(fb, w, h) + [Clear(true, true, false), UseProgram(p)]).viewport == (w, h)
    ensures Run(s, BindCalls(fb, w, h) + [Clear(true, true, false), UseProgram(p)]).program == p
    ensures Run(s, BindCalls(fb, w, h) + [Clear(true, true, false), UseProgram(p)]).units == s.units
  {
    var tail := [Clear(true, true, false), UseProgram(p)];
    BindTargetsBuffer(s, fb, w, h);
    RunTwo(Run(s, BindCalls(fb, w, h)), Clear(true, true, false), UseProgram(p));
    RunAppend(s, BindCalls(fb, w, h), tail);
    assert forall e | e in BindCalls(fb, w, h) + tail :: KeepsUnits(e);
    RunKeepsUnits(s, BindCalls(fb, w, h) + tail);
  }

  /** When the merge quad is drawn, the output framebuffer is bound at its
      size, the merge shader is in use, and units 0 to 5 hold the scene, the
      bloom result, the depth map, gPosition, gNormal and the noise texture. */
  lemma MergeDrawState(s: State, m: Shader, cam: Camera, ctx: GraphicsContext, scene: Name, bloomResult: Name, noise: Name,
                       out: Name, w: nat, h: nat)
    ensures var st := Run(s, MergeBeforeDraw(m, cam, ctx, scene, bloomResult, noise, out, w, h));
      && st.framebuffer == out && st.viewport == (w, h) && st.program == m.id
      && 0 in st.units && st.units[0] == (Texture2D, scene)
      && 1 in st.units && st.units[1] == (Texture2D, bloomResult)
      && 2 in st.units && st.units[2] == (Texture2D, ctx.depthMap)
      && 3 in st.units && st.units[3] == (Texture2D, ctx.gPosition)
      && 4 in st.units && st.units[4] == (Texture2D, ctx.gNormal)
      && 5 in st.units && st.units[5] == (Texture2D, noise)
  {
    var head := [UseProgram(m.id)] + MergeUniforms(m, cam, ctx.config.postprocessSetting);
    var textures := MergeTextures(m, ctx, scene, bloomResult, noise);
    var tail := BindCalls(out, w, h) + [Clear(true, true, false), UseProgram(m.id)];
    assert forall e | e in head :: KeepsUnits(e);
    RunKeepsUnits(s, head);
    MergeTexturesRun(Run(s, head), m, ctx, scene, bloomResult, noise);
    ClearedOutput(Run(Run(s, head), textures), out, w, h, m.id);
    RunThreeParts(s, head, textures, tail);
    MergeTexturesAt(s.units, scene, bloomResult, ctx, noise);
  }

  /** Nothing is drawn before the merge quad, and the call just before the
      quad is the clear of the output's colour and depth. */
  lemma MergeBeforeDrawQuiet(m: Shader, cam: Camera, ctx: GraphicsContext, scene: Name, bloomResult: Name, noise: Name,
                             out: Name, w: nat, h: nat)
    ensures NoDraws(MergeBeforeDraw(m, cam, ctx, scene, bloomResult, noise, out, w, h))
    ensures var pre := MergeBeforeDraw(m, cam, ctx, scene, bloomResult, noise, out, w, h);
            |pre| >= 2 && pre[|pre| - 2] == Clear(true, true, false)
  {
    var head := [UseProgram(m.id)] + MergeUniforms(m, cam, ctx.config.postprocessSetting);
    var textures := MergeTextures(m, ctx, scene, bloomResult, noise);
    var tail := BindCalls(out, w, h) + [Clear(true, true, false), UseProgram(m.id)];
    BindTexturesEvents(m, SceneSamplers(scene, bloomResult));
    BindTexturesEvents(m, ContextSamplers(ctx, noise));
    assert NoDraws(head) && NoDraws(textures) && NoDraws(tail);
    JoinConditions(head, textures, 0, 0);
    JoinConditions(head + textures, tail, 0, 0);
  }

  /** The merge draws once: one quad, into the output framebuffer, with
      the merge shader. */
  lemma MergeDraw(s: State, m: Shader, cam: Camera, ctx: GraphicsContext, scene: Name, bloomResult: Name, noise: Name,
                  out: Name, w: nat, h: nat)
    ensures DrawCount(MergeCalls(m, cam, ctx, scene, bloomResult, noise, out, w, h)) == 1
    ensures DrawsInto(s, MergeCalls(m, cam, ctx, scene, bloomResult, noise, out, w, h), out)
    ensures DrawsUsing(s, MergeCalls(m, cam, ctx, scene, bloomResult, noise, out, w, h), m.id)
  {
    var pre := MergeBeforeDraw(m, cam, ctx, scene, bloomResult, noise, out, w, h);
    var draw := DrawArrays(TriangleStrip, QuadVertexCount);
    MergeBeforeDrawQuiet(m, cam, ctx, scene, bloomResult, noise, out, w, h);
    MergeDrawState(s, m, cam, ctx, scene, bloomResult, noise, out, w, h);
    SingleDraw(s, pre, draw, [UseProgram(0)], out, m.id);
    assert MergeCalls(m, cam, ctx, scene, bloomResult, noise, out, w, h) == pre + [draw] + [UseProgram(0)];
  }

  /** The bloom feeds the merge: with two mips or more, the last texture
      the bloom's upsampling renders into is mip 0's, the one the merge
      samples on unit 1; and the whole pass makes the bloom's draws, then
      exactly one more, the merge quad into the output framebuffer. */
  lemma BloomFeedsMerge(s: State, bloomCalls: seq<Event>, up: Shader, mips: seq<Mip>,
                        m: Shader, cam: Camera, ctx: GraphicsContext, scene: Name, noise: Name, out: Name, w: nat, h: nat)
    requires |mips| >= 2
    ensures var written := Attached(UpsampleLoop(up, mips, |mips| - 1));
            |written| >= 1 && written[|written| - 1] == mips[0].texture
    ensures var merge := MergeCalls(m, cam, ctx, scene, mips[0].texture, noise, out, w, h);
            && DrawCount(bloomCalls + merge) == DrawCount(bloomCalls) + 1
            && DrawsInto(Run(s, bloomCalls), merge, out)
  {
    UpsampleEndsAtResult(up, mips);
    var merge := MergeCalls(m, cam, ctx, scene, mips[0].texture, noise, out, w, h);
    MergeDraw(Run(s, bloomCalls), m, cam, ctx, scene, mips[0].texture, noise, out, w, h);
    DrawCountAppend(bloomCalls, merge);
  }

  /** The merge's texture calls. */
  method BindMergeTextures(dev: Device, m: Shader, ctx: GraphicsContext, scene: Name, bloomResult: Name, noise: Name)
    modifies dev
    ensures dev.trace == old(dev.trace) + MergeTextures(m, ctx, scene, bloomResult, noise)
    ensures dev.nextName == old(dev.nextName)
  {
    ghost var t0 := dev.trace;
    BindTextureTo(dev, m, "scene", scene, 0, Sampler2D);
    BindTextureTo(dev, m, "bloomBlur", bloomResult, 1, Sampler2D);
    BindTexturesTwo(m, SamplerBinding("scene", scene, 0), SamplerBinding("bloomBlur", bloomResult, 1));
    assert dev.trace == t0 + BindTexturesCalls(m, SceneSamplers(scene, bloomResult));
    dev.Emit([SetUniform(m.id, "enableSSAO", IntValue(BoolInt(ctx.config.postprocessSetting.enableSSAO)))]);
    ghost var t1 := dev.trace;
    BindTextureTo(dev, m, "DepthMap", ctx.depthMap, 2, Sampler2D);
    BindTextureTo(dev, m, "gPosition", ctx.gPosition, 3, Sampler2D);
    BindTextureTo(dev, m, "gNormal", ctx.gNormal, 4, Sampler2D);
    BindTextureTo(dev, m, "ssaoNoise", noise, 5, Sampler2D);
    var cs := ContextSamplers(ctx, noise);
    BindTexturesFour(m, cs[0], cs[1], cs[2], cs[3]);
    assert cs == [cs[0], cs[1], cs[2], cs[3]];
    assert dev.trace == t1 + BindTexturesCalls(m, cs);
  }

  /** The merge's calls before the output framebuffer is bound: the shader
      bound, the uploads and the textures. */
  method PrepareMerge(dev: Device, m: Shader, cam: Camera, ctx: GraphicsContext, scene: Name, bloomResult: Name, noise: Name)
    modifies dev
    ensures dev.nextName == old(dev.nextName)
    ensures dev.trace == old(dev.trace) + ([UseProgram(m.id)] + MergeUniforms(m, cam, ctx.config.postprocessSetting))
                         + MergeTextures(m, ctx, scene, bloomResult, noise)
  {
    ghost var t0 := dev.trace;
    Bind(dev, m);
    dev.Emit(MergeUniforms(m, cam, ctx.config.postprocessSetting));
    ghost var t1 := dev.trace;
    BindMergeTextures(dev, m, ctx, scene, bloomResult, noise);
  }

  /** The merge's calls from the output framebuffer's bind on: bind, clear,
      the quad, the shader unbound. */
  method DrawMerge(dev: Device, cache: ShapeCache, m: Shader, out: Name, w: nat, h: nat)
    requires cache.Valid()
    modifies dev, cache
    ensures cache.Valid() && dev.nextName == old(dev.nextName)
    ensures dev.trace == old(dev.trace) + (BindCalls(out, w, h) + [Clear(true, true, false), UseProgram(m.id)])
                         + [DrawArrays(TriangleStrip, QuadVertexCount), UseProgram(0)]
  {
    dev.Emit(BindCalls(out, w, h));
    dev.Emit([Clear(true, true, false)]);
    cache.RenderQuad(dev, m);
    Unbind(dev);
  }

  /** The merge on values: the merge shader, the camera, the context, the
      scene image, the bloom result, the noise texture and the output
      framebuffer's name and size. */
  method RenderMerge(dev: Device, cache: ShapeCache, m: Shader, cam: Camera, ctx: GraphicsContext,
                     scene: Name, bloomResult: Name, noise: Name, out: Name, w: nat, h: nat)
    requires cache.Valid()
    modifies dev, cache
    ensures cache.Valid() && dev.nextName == old(dev.nextName)
    ensures dev.trace == old(dev.trace) + MergeCalls(m, cam, ctx, scene, bloomResult, noise, out, w, h)
  {
    PrepareMerge(dev, m, cam, ctx, scene, bloomResult, noise);
    DrawMerge(dev, cache, m, out, w, h);
  }

  /** The merge shader: loaded, bound, and given the kernel samples. */
  method CreateMergeShader(dev: Device, vert: string, frag: string) returns (m: Shader)
    modifies dev
    ensures m.id == old(dev.nextName) + 2 && dev.nextName == m.id + 1
    ensures dev.trace == old(dev.trace) + LoadCalls(dev.files, vert, frag, old(dev.nextName))
                         + ([UseProgram(m.id)] + KernelUploads(m, KernelSize()))
  {
    ghost var t0 := dev.trace;
    m := LoadShader(dev, vert, frag);
    Bind(dev, m);
    UploadKernel(dev, m);
  }

  /** The output framebuffer's attachments: those of the precompute
      framebuffer, except that the integer colour is filtered Nearest. */
  function OutputSpecification(): FramebufferSpecification
  {
    WithAttachments([FromFormat(RGBA), FromFormat(RGBA), FromFormat(Depth, TextureFilter.Linear, ClampToBorder),
                     FromFormat(RED_INTEGER, TextureFilter.Nearest)])
  }

  /** The output framebuffer has three colour attachments (RGBA, RGBA and a
      Nearest-filtered integer) in that order and the depth entry as its
      depth attachment. */
  lemma OutputSpecificationSplits()
    ensures ColorSpecs(OutputSpecification().attachments)
            == [FromFormat(RGBA), FromFormat(RGBA), FromFormat(RED_INTEGER, TextureFilter.Nearest)]
    ensures DepthSpecOf(OutputSpecification().attachments, DefaultTextureSpecification)
            == FromFormat(Depth, TextureFilter.Linear, ClampToBorder)
    ensures !OutputSpecification().swapChainTarget
  {
    var a3 := [FromFormat(RGBA), FromFormat(RGBA), FromFormat(Depth, TextureFilter.Linear, ClampToBorder)];
    var last := FromFormat(RED_INTEGER, TextureFilter.Nearest);
    assert OutputSpecification().attachments == a3 + [last];
    PrecomputeColorPrefix(a3);
    assert (a3 + [last])[..3] == a3;
    assert ColorSpecs(a3 + [last]) == ColorSpecs(a3) + [last];
  }

  /** The output framebuffer, built from OutputSpecification, not yet sized. */
  method NewOutputFramebuffer(dev: Device) returns (out: Framebuffer)
    modifies dev
    ensures fresh(out) && fresh(out.buffer) && out.Valid()
    ensures out.buffer.id == old(dev.nextName) && dev.nextName == out.buffer.id + 1
    ensures out.buffer.width == 0 && out.buffer.height == 0
    ensures out.colorSpecs == [FromFormat(RGBA), FromFormat(RGBA), FromFormat(RED_INTEGER, TextureFilter.Nearest)]
    ensures out.colorAttachments == [0, 0, 0]
    ensures out.depthSpec == FromFormat(Depth, TextureFilter.Linear, ClampToBorder) && !out.isSwapChainTarget
    ensures dev.trace == old(dev.trace) + [Generate(FramebufferObject, out.buffer.id), BindFramebuffer(out.buffer.id)]
  {
    OutputSpecificationSplits();
    out := new Framebuffer(dev, OutputSpecification());
  }

  class PostprocessPass {
    const base: RenderPass
    const bloom: Bloom
    const mergeShader: Shader
    const output: Framebuffer
    /** The noise texture, made from the random noise values outside this model. */
    const noiseMap: Name

    /** PostprocessPass(): a 1920 by 1080 bloom with 5 mips (its framebuffer
        is `complete` or not), the merge shader, bound and given the 64
        kernel samples, and the output framebuffer, whose attachments are
        RGBA, RGBA, depth and a Nearest-filtered integer colour. */
    constructor (dev: Device, noiseMap: Name, complete: bool)
      modifies dev
      ensures fresh(base) && fresh(bloom) && fresh(output) && fresh(output.buffer)
      ensures base.running && base.shaders == [] && base.framebuffer == null && this.noiseMap == noiseMap
      ensures bloom.width == BloomWidth && bloom.height == BloomHeight && bloom.framebuffer == old(dev.nextName)
      ensures bloom.mips == MipChain(BloomWidth, BloomHeight, bloom.framebuffer + 1, BloomMips)
      ensures complete <==> bloom.downsampleShader.Some? && bloom.upsampleShader.Some?
      ensures mergeShader.id == bloom.framebuffer + BloomMips + BloomNames(complete) + 2
      ensures output.buffer.id == mergeShader.id + 1 && dev.nextName == output.buffer.id + 1
      ensures output.Valid() && output.colorAttachments == [0, 0, 0] && !output.isSwapChainTarget
      ensures output.colorSpecs == [FromFormat(RGBA), FromFormat(RGBA), FromFormat(RED_INTEGER, TextureFilter.Nearest)]
      ensures output.depthSpec == FromFormat(Depth, TextureFilter.Linear, ClampToBorder)
      ensures dev.trace == old(dev.trace)
        + SetupCalls(dev.files, BloomWidth, BloomHeight, BloomMips, complete, old(dev.nextName))
        + LoadCalls(dev.files, "quad.vert", "postprocess.frag", mergeShader.id - 2)
        + ([UseProgram(mergeShader.id)] + KernelUploads(mergeShader, KernelSize()))
        + [Generate(FramebufferObject, output.buffer.id), BindFramebuffer(output.buffer.id)]
    {
      base := new RenderPass();
      var b := new Bloom(dev, BloomWidth, BloomHeight, BloomMips, complete);
      var m := CreateMergeShader(dev, "quad.vert", "postprocess.frag");
      var out := NewOutputFramebuffer(dev);
      bloom, mergeShader, output := b, m, out;
      this.noiseMap := noiseMap;
    }

    /** Render: nothing when post-processing is off; otherwise the bloom on
        the input framebuffer's attachment 1 with the configured filter
        radius, then the merge into the output framebuffer, reading the
        input's attachment 0 as the scene. */
    method Render(dev: Device, cache: ShapeCache, cam: Camera, ctx: GraphicsContext)
      requires cache.Valid()
      requires ctx.config.postprocessSetting.enablePostprocess ==>
        base.framebuffer != null && |base.framebuffer.colorAttachments| >= 2
        && |bloom.mips| >= 1 && bloom.downsampleShader.Some? && bloom.upsampleShader.Some?
      modifies dev, cache
      ensures cache.Valid() && dev.nextName == old(dev.nextName)
      ensures !ctx.config.postprocessSetting.enablePostprocess ==> dev.trace == old(dev.trace)
      ensures ctx.config.postprocessSetting.enablePostprocess ==>
        dev.trace == old(dev.trace)
          + RenderCalls(bloom.framebuffer, bloom.width, bloom.height, bloom.downsampleShader.value,
                        bloom.upsampleShader.value, base.framebuffer.colorAttachments[1],
                        ctx.config.postprocessSetting.bloomFilterRadius, bloom.mips)
          + MergeCalls(mergeShader, cam, ctx, base.framebuffer.colorAttachments[0], bloom.mips[0].texture, noiseMap,
                       output.buffer.id, output.buffer.width, output.buffer.height)
    {
      if ctx.config.postprocessSetting.enablePostprocess {
        var input := base.framebuffer;
        bloom.Render(dev, cache, input.GetColorAttachmentID(1), ctx.config.postprocessSetting.bloomFilterRadius);
        RenderMerge(dev, cache, mergeShader, cam, ctx, input.GetColorAttachmentID(0), bloom.GetResultID(), noiseMap,
                    output.buffer.id, output.buffer.width, output.buffer.height);
      }
    }

    /** OnResize: only the output framebuffer is resized, as
        Framebuffer::OnResize does, then the viewport is set to the new size. */
    method OnResize(dev: Device, w: nat, h: nat, complete: bool)
      requires output.Valid()
      modifies output, output.buffer, dev
      ensures output.Valid()
      ensures w == old(output.buffer.width) && h == old(output.buffer.height) ==>
        output.Snapshot() == old(output.Snapshot()) && dev.nextName == old(dev.nextName)
        && dev.trace == old(dev.trace) + [Viewport(w, h)]
      ensures !(w == old(output.buffer.width) && h == old(output.buffer.height)) ==>
        output.Snapshot() == Resized(old(output.Snapshot()), w, h, old(dev.nextName))
        && dev.nextName == old(dev.nextName) + old(output.Snapshot()).NamesUsed()
        && dev.trace == old(dev.trace) + ResizeCalls(old(output.Snapshot()), w, h, old(dev.nextName), complete)
                        + [Viewport(w, h)]
    {
      output.OnResize(dev, w, h, complete);
      dev.Emit([Viewport(w, h)]);
    }

    /** The pass's image: the output framebuffer's colour attachment 0. */
    function GetFramebufferImage(): Name
      reads output
      requires |output.colorAttachments| >= 1
    {
      output.GetColorAttachmentID(0)
    }
  }
}
