// SSAOPass (SSAOPass.hpp): screen-space ambient occlusion. The constructor
// loads the SSAO shader and uploads its 64 hemisphere kernel samples; each
// frame one full-screen quad is drawn into the pass's framebuffer with the
// G-buffer, the noise texture and the scene image on units 15 down to 12.
// The random kernel and noise values are not followed: an upload is
// recorded with an opaque payload, and the noise texture is a name the
// caller supplies.
module SsaoPasses {
  import opened GL
  import opened Shaders
  import opened Shapes
  import opened Buffers
  import opened Framebuffers
  import opened Configs
  import opened RenderPasses

  /** The number of hemisphere kernel samples a shader receives. */
  function KernelSize(): nat { 64 }

  /** The uploads of the first n kernel samples, `samples[0]` onwards. */
  function KernelUploads(sh: Shader, n: nat): seq<Event>
    decreases n
  {
    if n == 0 then [] else KernelUploads(sh, n - 1) + [SetUniformElement(sh.id, "samples", n - 1, Opaque)]
  }

  /** Sample i goes to `samples[i]`, in index order, each exactly once, and
      nothing but uniforms is touched. */
  lemma {:induction false} KernelUploadsIndexed(sh: Shader, n: nat)
    ensures |KernelUploads(sh, n)| == n && Uploads(KernelUploads(sh, n))
    ensures forall i | 0 <= i < n :: KernelUploads(sh, n)[i] == SetUniformElement(sh.id, "samples", i, Opaque)
    decreases n
  {
    if n > 0 {
      KernelUploadsIndexed(sh, n - 1);
    }
  }

  /** The upload loop of the SSAO and post-processing constructors. */
  method UploadKernel(dev: Device, sh: Shader)
    modifies dev
    ensures dev.trace == old(dev.trace) + KernelUploads(sh, KernelSize())
    ensures dev.nextName == old(dev.nextName) && dev.geometryTrace == old(dev.geometryTrace)
    ensures dev.nextGeometryName == old(dev.nextGeometryName)
  {
    for i := 0 to KernelSize()
      invariant dev.trace == old(dev.trace) + KernelUploads(sh, i)
      invariant dev.nextName == old(dev.nextName) && dev.geometryTrace == old(dev.geometryTrace)
      invariant dev.nextGeometryName == old(dev.nextGeometryName)
    {
      dev.Emit([SetUniformElement(sh.id, "samples", i, Opaque)]);
    }
  }

  /** The samplers of the SSAO shader and the units they read. */
  function SsaoSamplers(ctx: GraphicsContext, noise: Name): seq<SamplerBinding>
  {
    [SamplerBinding("gPosition", ctx.gPosition, 15), SamplerBinding("gNormal", ctx.gNormal, 14),
     SamplerBinding("ssaoNoise", noise, 13), SamplerBinding("mainImage", ctx.mainImage, 12)]
  }

  /** The projection and the SSAO switch. */
  function SsaoUniforms(sh: Shader, cam: Camera, ctx: GraphicsContext): (r: seq<Event>)
    ensures Uploads(r)
  {
    [SetUniform(sh.id, "projection", MatrixValue(cam.projection)),
     SetUniform(sh.id, "enableSSAO", IntValue(BoolInt(ctx.config.postprocessSetting.enableSSAO)))]
  }

  /** Render's calls up to the draw: bind the pass's framebuffer (and its
      viewport), bind the shader, upload, bind the textures, clear, and the
      quad's own shader bind. */
  function SsaoBeforeDraw(fb: Name, w: nat, h: nat, sh: Shader, cam: Camera, ctx: GraphicsContext, noise: Name): seq<Event>
  {
    BindCalls(fb, w, h) + ([UseProgram(sh.id)] + SsaoUniforms(sh, cam, ctx))
    + BindTexturesCalls(sh, SsaoSamplers(ctx, noise)) + [Clear(true, true, false), UseProgram(sh.id)]
  }

  /** SSAOPass::Render's calls: everything up to the draw, one full-screen
      quad, and the shader unbound. */
  function SsaoCalls(fb: Name, w: nat, h: nat, sh: Shader, cam: Camera, ctx: GraphicsContext, noise: Name): seq<Event>
  {
    SsaoBeforeDraw(fb, w, h, sh, cam, ctx, noise) + [DrawArrays(TriangleStrip, QuadVertexCount), UseProgram(0)]
  }

  /** The four units are pairwise distinct. */
  lemma SsaoUnitsDistinct(ctx: GraphicsContext, noise: Name)
    ensures DistinctUnits(SsaoSamplers(ctx, noise))
  {
  }

  /** Nothing is drawn before the quad, and the call just before the quad
      is the clear of colour and depth. */
  lemma SsaoBeforeDrawQuiet(fb: Name, w: nat, h: nat, sh: Shader, cam: Camera, ctx: GraphicsContext, noise: Name)
    ensures NoDraws(SsaoBeforeDraw(fb, w, h, sh, cam, ctx, noise))
    ensures var pre := SsaoBeforeDraw(fb, w, h, sh, cam, ctx, noise);
            |pre| >= 2 && pre[|pre| - 2] == Clear(true, true, false)
  {
    var samplers := SsaoSamplers(ctx, noise);
    var textures := BindTexturesCalls(sh, samplers);
    BindTexturesFour(sh, samplers[0], samplers[1], samplers[2], samplers[3]);
    assert samplers == [samplers[0], samplers[1], samplers[2], samplers[3]];
    assert NoDraws(textures);
    var up := [UseProgram(sh.id)] + SsaoUniforms(sh, cam, ctx);
    assert NoDraws(up);
    JoinConditions(BindCalls(fb, w, h), up, 0, 0);
    JoinConditions(BindCalls(fb, w, h) + up, textures, 0, 0);
    JoinConditions(BindCalls(fb, w, h) + up + textures, [Clear(true, true, false), UseProgram(sh.id)], 0, 0);
  }

  /** A pass that binds a framebuffer, binds its shader, uploads uniforms,
      binds textures, clears and binds the shader again draws next into
      that framebuffer, at its size, with that shader. */
  lemma ClearedTarget(s: State, fb: Name, w: nat, h: nat, p: Name, u: seq<Event>, t: seq<Event>)
    requires Uploads(u)
    requires forall e | e in t :: e.ActiveTexture? || e.BindTexture? || e.SetUniform?
    ensures Run(s, BindCalls(fb, w, h) + ([UseProgram(p)] + u) + t + [Clear(true, true, false), UseProgram(p)]).framebuffer == fb
    ensures Run(s, BindCalls(fb, w, h) + ([UseProgram(p)] + u) + t + [Clear(true, true, false), UseProgram(p)]).viewport == (w, h)
    ensures Run(s, BindCalls(fb, w, h) + ([UseProgram(p)] + u) + t + [Clear(true, true, false), UseProgram(p)]).program == p
  {
    var p1 := BindCalls(fb, w, h);
    var p2 := [UseProgram(p)] + u;
    var p4 := [Clear(true, true, false), UseProgram(p)];
    var s1 := Run(s, p1);
    BindTargetsBuffer(s, fb, w, h);
    RunAppend(s1, [UseProgram(p)], u);
    RunSingle(s1, UseProgram(p));
    UploadsRun(Step(s1, UseProgram(p)), u);
    var s2 := Run(s1, p2);
    RunKeepsFramebuffer(s2, t);
    RunKeepsViewport(s2, t);
    RunTwo(Run(s2, t), Clear(true, true, false), UseProgram(p));
    RunFourParts(s, p1, p2, t, p4);
  }

  /** In such a pass the units at the draw are those the texture bindings
      leave. */
  lemma ClearedUnits(s: State, fb: Name, w: nat, h: nat, sh: Shader, u: seq<Event>, bs: seq<SamplerBinding>)
    requires Uploads(u)
    ensures Run(s, BindCalls(fb, w, h) + ([UseProgram(sh.id)] + u) + BindTexturesCalls(sh, bs)
                   + [Clear(true, true, false), UseProgram(sh.id)]).units == BoundUnits(s.units, bs)
  {
    var head := BindCalls(fb, w, h) + ([UseProgram(sh.id)] + u);
    var t := BindTexturesCalls(sh, bs);
    var tail := [Clear(true, true, false), UseProgram(sh.id)];
    assert forall e | e in [UseProgram(sh.id)] + u :: KeepsUnits(e);
    assert forall e | e in BindCalls(fb, w, h) :: KeepsUnits(e);
    RunKeepsUnits(s, head);
    BindTexturesRun(Run(s, head), sh, bs);
    assert forall e | e in tail :: KeepsUnits(e);
    RunKeepsUnits(Run(Run(s, head), t), tail);
    RunThreeParts(s, head, t, tail);
  }

  /** When the quad is drawn, the pass's framebuffer is bound with the
      viewport at its size and the shader is in use. */
  lemma SsaoBeforeDrawTarget(s: State, fb: Name, w: nat, h: nat, sh: Shader, cam: Camera, ctx: GraphicsContext, noise: Name)
    ensures Run(s, SsaoBeforeDraw(fb, w, h, sh, cam, ctx, noise)).framebuffer == fb
    ensures Run(s, SsaoBeforeDraw(fb, w, h, sh, cam, ctx, noise)).viewport == (w, h)
    ensures Run(s, SsaoBeforeDraw(fb, w, h, sh, cam, ctx, noise)).program == sh.id
  {
    BindTexturesEvents(sh, SsaoSamplers(ctx, noise));
    ClearedTarget(s, fb, w, h, sh.id, SsaoUniforms(sh, cam, ctx), BindTexturesCalls(sh, SsaoSamplers(ctx, noise)));
  }

  /** Binding the four samplers in turn leaves each texture on its unit:
      the units differ, so no binding overwrites another. */
  lemma SsaoTexturesAt(m: map<nat, (TexTarget, Name)>, ctx: GraphicsContext, noise: Name)
    ensures 15 in BoundUnits(m, SsaoSamplers(ctx, noise)) && BoundUnits(m, SsaoSamplers(ctx, noise))[15] == (Texture2D, ctx.gPosition)
    ensures 14 in BoundUnits(m, SsaoSamplers(ctx, noise)) && BoundUnits(m, SsaoSamplers(ctx, noise))[14] == (Texture2D, ctx.gNormal)
    ensures 13 in BoundUnits(m, SsaoSamplers(ctx, noise)) && BoundUnits(m, SsaoSamplers(ctx, noise))[13] == (Texture2D, noise)
    ensures 12 in BoundUnits(m, SsaoSamplers(ctx, noise)) && BoundUnits(m, SsaoSamplers(ctx, noise))[12] == (Texture2D, ctx.mainImage)
  {
    SsaoUnitsDistinct(ctx, noise);
    BoundUnitsAt(m, SsaoSamplers(ctx, noise), 0);
    BoundUnitsAt(m, SsaoSamplers(ctx, noise), 1);
    BoundUnitsAt(m, SsaoSamplers(ctx, noise), 2);
    BoundUnitsAt(m, SsaoSamplers(ctx, noise), 3);
  }

  /** At the draw gPosition, gNormal, the noise and the scene image sit on
      units 15, 14, 13 and 12, whatever the units held before. */
  lemma SsaoDrawTextures(s: State, fb: Name, w: nat, h: nat, sh: Shader, cam: Camera, ctx: GraphicsContext, noise: Name)
    ensures var units := Run(s, SsaoBeforeDraw(fb, w, h, sh, cam, ctx, noise)).units;
      && 15 in units && units[15] == (Texture2D, ctx.gPosition)
      && 14 in units && units[14] == (Texture2D, ctx.gNormal)
      && 13 in units && units[13] == (Texture2D, noise)
      && 12 in units && units[12] == (Texture2D, ctx.mainImage)
  {
    ClearedUnits(s, fb, w, h, sh, SsaoUniforms(sh, cam, ctx), SsaoSamplers(ctx, noise));
    SsaoTexturesAt(s.units, ctx, noise);
  }

  /** Render draws once: one quad, into the pass's framebuffer, with the last
      shader of the pass. */
  lemma SsaoDraw(s: State, fb: Name, w: nat, h: nat, sh: Shader, cam: Camera, ctx: GraphicsContext, noise: Name)
    ensures DrawCount(SsaoCalls(fb, w, h, sh, cam, ctx, noise)) == 1
    ensures DrawsInto(s, SsaoCalls(fb, w, h, sh, cam, ctx, noise), fb)
    ensures DrawsUsing(s, SsaoCalls(fb, w, h, sh, cam, ctx, noise), sh.id)
  {
    var pre := SsaoBeforeDraw(fb, w, h, sh, cam, ctx, noise);
    var draw := DrawArrays(TriangleStrip, QuadVertexCount);
    SsaoBeforeDrawQuiet(fb, w, h, sh, cam, ctx, noise);
    SsaoBeforeDrawTarget(s, fb, w, h, sh, cam, ctx, noise);
    SingleDraw(s, pre, draw, [UseProgram(0)], fb, sh.id);
    assert SsaoCalls(fb, w, h, sh, cam, ctx, noise) == pre + [draw] + [UseProgram(0)];
  }

  /** The four BindTexture calls of Render. */
  method BindSsaoTextures(dev: Device, sh: Shader, ctx: GraphicsContext, noise: Name)
    modifies dev
    ensures dev.trace == old(dev.trace) + BindTexturesCalls(sh, SsaoSamplers(ctx, noise))
    ensures dev.nextName == old(dev.nextName)
  {
    var samplers := SsaoSamplers(ctx, noise);
    BindTextureTo(dev, sh, "gPosition", ctx.gPosition, 15, Sampler2D);
    BindTextureTo(dev, sh, "gNormal", ctx.gNormal, 14, Sampler2D);
    BindTextureTo(dev, sh, "ssaoNoise", noise, 13, Sampler2D);
    BindTextureTo(dev, sh, "mainImage", ctx.mainImage, 12, Sampler2D);
    BindTexturesFour(sh, samplers[0], samplers[1], samplers[2], samplers[3]);
    assert samplers == [samplers[0], samplers[1], samplers[2], samplers[3]];
  }

  /** Render's calls on values: the framebuffer's name and size, the shader,
      the camera, the context and the noise texture. */
  method RenderSsao(dev: Device, cache: ShapeCache, fb: Name, w: nat, h: nat, sh: Shader, cam: Camera,
                    ctx: GraphicsContext, noise: Name)
    requires cache.Valid()
    modifies dev, cache
    ensures cache.Valid() && dev.nextName == old(dev.nextName)
    ensures dev.trace == old(dev.trace) + SsaoCalls(fb, w, h, sh, cam, ctx, noise)
  {
    ghost var t0 := dev.trace;
    dev.Emit(BindCalls(fb, w, h));
    Bind(dev, sh);
    dev.Emit(SsaoUniforms(sh, cam, ctx));
    BindSsaoTextures(dev, sh, ctx, noise);
    dev.Emit([Clear(true, true, false)]);
    cache.RenderQuad(dev, sh);
    Unbind(dev);
    ghost var head := BindCalls(fb, w, h) + ([UseProgram(sh.id)] + SsaoUniforms(sh, cam, ctx));
    assert dev.trace == t0 + head + BindTexturesCalls(sh, SsaoSamplers(ctx, noise))
                        + [Clear(true, true, false)] + [UseProgram(sh.id), DrawArrays(TriangleStrip, QuadVertexCount)] + [UseProgram(0)];
  }

  class SsaoPass {
    const base: RenderPass
    /** The noise texture, made from the random noise values outside this model. */
    const noiseMap: Name

    /** SSAOPass(): the SSAO shader is pushed as the pass's only shader, bound,
        and given the 64 kernel samples. The framebuffer is bound later. */
    constructor (dev: Device, noiseMap: Name)
      modifies dev
      ensures fresh(base) && base.running && base.framebuffer == null && this.noiseMap == noiseMap
      ensures |base.shaders| == 1 && base.shaders[0].id == old(dev.nextName) + 2
      ensures dev.nextName == old(dev.nextName) + 3
      ensures dev.trace == old(dev.trace) + LoadCalls(dev.files, "quad.vert", "ssao.frag", old(dev.nextName))
                           + [UseProgram(base.shaders[0].id)] + KernelUploads(base.shaders[0], KernelSize())
    {
      var pass := new RenderPass();
      var sh := LoadShader(dev, "quad.vert", "ssao.frag");
      var pushed := pass.PushShader(sh);
      Bind(dev, pushed);
      UploadKernel(dev, pushed);
      base := pass;
      this.noiseMap := noiseMap;
    }

    method Render(dev: Device, cache: ShapeCache, cam: Camera, ctx: GraphicsContext)
      requires base.framebuffer != null && |base.shaders| >= 1 && cache.Valid()
      modifies dev, cache
      ensures cache.Valid() && dev.nextName == old(dev.nextName)
      ensures dev.trace == old(dev.trace)
        + SsaoCalls(base.framebuffer.buffer.id, base.framebuffer.buffer.width, base.framebuffer.buffer.height,
                    base.shaders[|base.shaders| - 1], cam, ctx, noiseMap)
    {
      var fb := base.framebuffer;
      RenderSsao(dev, cache, fb.buffer.id, fb.buffer.width, fb.buffer.height, base.shaders[|base.shaders| - 1], cam, ctx, noiseMap);
    }

    /** OnResize: the framebuffer is resized as Framebuffer::OnResize does,
        then the viewport is set to the new size. */
    method OnResize(dev: Device, w: nat, h: nat, complete: bool)
      requires base.framebuffer != null && base.framebuffer.Valid()
      modifies base.framebuffer, base.framebuffer.buffer, dev
      ensures base.framebuffer.Valid()
      ensures w == old(base.framebuffer.buffer.width) && h == old(base.framebuffer.buffer.height) ==>
        base.framebuffer.Snapshot() == old(base.framebuffer.Snapshot()) && dev.nextName == old(dev.nextName)
        && dev.trace == old(dev.trace) + [Viewport(w, h)]
      ensures !(w == old(base.framebuffer.buffer.width) && h == old(base.framebuffer.buffer.height)) ==>
        base.framebuffer.Snapshot() == Resized(old(base.framebuffer.Snapshot()), w, h, old(dev.nextName))
        && dev.nextName == old(dev.nextName) + old(base.framebuffer.Snapshot()).NamesUsed()
        && dev.trace == old(dev.trace) + ResizeCalls(old(base.framebuffer.Snapshot()), w, h, old(dev.nextName), complete)
                        + [Viewport(w, h)]
    {
      base.framebuffer.OnResize(dev, w, h, complete);
      dev.Emit([Viewport(w, h)]);
    }
  }
}
