// The renderer (Renderer.hpp, Renderer.cpp). It owns the main HDR
// framebuffer, the shadow depthbuffer, the configuration, the baked
// environment lighting, the queue of render passes, the bloom chain and the
// bloom merge shader. Renderer.cpp belongs to an older revision of the pass
// interface than the pass headers: it binds a pass to a framebuffer by GL
// name, so the passes it queues are modelled here as QueuedPass objects
// holding that name, their running flag and their shader list. Each frame
// records the invocation of a queued pass as a RunPass event; what each
// pass draws is modelled in the pass's own module.
module Renderers {
  import opened Wrappers
  import opened GL
  import opened Shaders
  import opened Configs
  import opened RenderPasses
  import Buffers
  import HdrFramebuffers
  import Depthbuffers
  import Framebuffers
  import ForwardPasses
  import PrecomputePasses
  import Blooms
  import Shapes
  import CubeMapPasses

  /** The default viewport. */
  const ViewportWidth := 1920
  const ViewportHeight := 1080

  /** The bloom chain's length. */
  const BloomMipChainLength := 5

  // ------------------------------------------------------------ pass runs

  /** The passes a run of calls invokes, in order. */
  function PassRuns(es: seq<Event>): (r: seq<PassKind>)
    ensures |r| <= |es|
    decreases |es|
  {
    if es == [] then []
    else PassRuns(es[..|es| - 1]) + (if es[|es| - 1].RunPass? then [es[|es| - 1].pass] else [])
  }

  /** Calls that invoke no pass. */
  predicate PassFree(es: seq<Event>)
  {
    forall e | e in es :: !e.RunPass?
  }

  lemma {:induction false} PassRunsAppend(a: seq<Event>, b: seq<Event>)
    ensures PassRuns(a + b) == PassRuns(a) + PassRuns(b)
    decreases |b|
  {
    if b == [] {
      assert a + b == a;
    } else {
      assert (a + b)[..|a + b| - 1] == a + b[..|b| - 1];
      PassRunsAppend(a, b[..|b| - 1]);
    }
  }

  lemma {:induction false} PassRunsNone(es: seq<Event>)
    requires PassFree(es)
    ensures PassRuns(es) == []
    decreases |es|
  {
    if es != [] {
      assert es[..|es| - 1] <= es;
      PassRunsNone(es[..|es| - 1]);
    }
  }

  /** A pass is invoked by the calls exactly when it is among their pass runs. */
  lemma {:induction false} PassRunsMember(es: seq<Event>, k: PassKind)
    ensures RunPass(k) in es <==> k in PassRuns(es)
    decreases |es|
  {
    if es != [] {
      var init := es[..|es| - 1];
      PassRunsMember(init, k);
      assert es == init + [es[|es| - 1]];
    }
  }

  lemma SetupOnlyPassFree(es: seq<Event>)
    requires SetupOnly(es)
    ensures PassFree(es)
  {
  }

  // ------------------------------------------------------------ bloom runs no pass

  lemma {:induction false} DownsampleLoopPassFree(sh: Shader, mips: seq<Blooms.Mip>, i: nat)
    requires i <= |mips|
    ensures PassFree(Blooms.DownsampleLoop(sh, mips, i))
  {
    if i > 0 {
      DownsampleLoopPassFree(sh, mips, i - 1);
    }
  }

  lemma {:induction false} UpsampleLoopPassFree(sh: Shader, mips: seq<Blooms.Mip>, k: nat)
    requires k < |mips|
    ensures PassFree(Blooms.UpsampleLoop(sh, mips, k))
  {
    if k > 0 {
      UpsampleLoopPassFree(sh, mips, k - 1);
    }
  }

  /** The bloom invokes no render pass. */
  lemma BloomPassFree(fb: Name, w: nat, h: nat, down: Shader, up: Shader, src: Name, radius: real, mips: seq<Blooms.Mip>)
    requires |mips| >= 1
    ensures PassFree(Blooms.RenderCalls(fb, w, h, down, up, src, radius, mips))
  {
    DownsampleLoopPassFree(down, mips, |mips|);
    UpsampleLoopPassFree(up, mips, |mips| - 1);
  }

  // ------------------------------------------------------------ one frame

  /** The bloom's part of a frame: its framebuffer and size, its two
      shaders and its mip chain. */
  datatype BloomView = BloomView(framebuffer: Name, width: nat, height: nat, down: Shader, up: Shader, mips: seq<Blooms.Mip>)

  /** Everything Render reads: the main framebuffer (name, size, scene and
      bright-part textures), the viewport, the shadow map, the forward
      pass's shaders, the skybox shader, the baked textures, the
      configuration, the bloom (absent when its shaders were never built)
      and the merge shader. */
  datatype FrameView = FrameView(
    target: Name, targetWidth: nat, targetHeight: nat,
    viewportWidth: nat, viewportHeight: nat,
    scene: Name, bright: Name, depthMap: Name,
    forward: seq<Shader>, skybox: Shader, textures: PrecomputeTextures,
    config: GraphicsConfig, bloom: Option<BloomView>, merge: Shader)

  /** Post-processing needs a built bloom. */
  predicate Renderable(v: FrameView)
  {
    v.config.postprocessSetting.enablePostprocess ==> v.bloom.Some? && |v.bloom.value.mips| >= 1
  }

  /** Before the depth pass: the shadow map's square viewport and front
      faces culled. */
  function DepthSetup(): seq<Event>
  {
    [Viewport(ShadowResolution, ShadowResolution), Event.CullFace(Front)]
  }

  function DepthStage(): seq<Event>
  {
    DepthSetup() + [RunPass(DepthPass)]
  }

  /** One forward shader's set-up: bound, told whether to sample the
      environment, given the shadow map and the three baked textures, given
      the four lights, unbound. */
  function LightingCalls(sh: Shader, useEnvMap: bool, depthMap: Name, t: PrecomputeTextures): seq<Event>
  {
    [UseProgram(sh.id), SetUniform(sh.id, "useEnvMap", IntValue(BoolInt(useEnvMap)))]
    + ForwardPasses.EnvironmentSamplers(sh, depthMap, t)
    + ForwardPasses.LightUniforms(sh, ForwardPasses.LightCount())
    + [UseProgram(0)]
  }

  /** The set-up of the first n forward shaders, in list order. */
  function LightingLoop(shaders: seq<Shader>, useEnvMap: bool, depthMap: Name, t: PrecomputeTextures, n: nat): seq<Event>
    requires n <= |shaders|
  {
    if n == 0 then []
    else LightingLoop(shaders, useEnvMap, depthMap, t, n - 1) + LightingCalls(shaders[n - 1], useEnvMap, depthMap, t)
  }

  /** Before the forward pass: the main framebuffer bound at its size, back
      faces culled, every forward shader set up. */
  function ForwardSetup(v: FrameView): seq<Event>
  {
    Buffers.BindCalls(v.target, v.targetWidth, v.targetHeight) + [Event.CullFace(Back)]
    + LightingLoop(v.forward, v.config.lightSetting.useEnvMap, v.depthMap, v.textures, |v.forward|)
  }

  function ForwardStage(v: FrameView): seq<Event>
  {
    ForwardSetup(v) + [RunPass(ForwardPass)]
  }

  /** Before the skybox pass: the environment cube map on unit 0 for the
      skybox shader. */
  function EnvironmentBinding(sh: Shader, environment: Name): seq<Event>
  {
    [UseProgram(sh.id), ActiveTexture(0), BindTexture(CubeMap, environment),
     SetUniform(sh.id, "EnvironmentMap", IntValue(0)), UseProgram(0)]
  }

  function SkyboxStage(v: FrameView): seq<Event>
  {
    if v.config.lightSetting.useEnvMap then EnvironmentBinding(v.skybox, v.textures.environmentMap) + [RunPass(EnvironmentMapPass)]
    else []
  }

  /** The merge shader's settings: tone-mapping operator, exposure, bloom
      switch and intensity, FXAA switch. */
  function BloomMergeUniforms(m: Shader, p: PostprocessSetting): seq<Event>
  {
    [SetUniform(m.id, "tonemappingType", IntValue(ToneMappingCode(p.tonemappingType))),
     SetUniform(m.id, "exposure", FloatValue(p.exposure)),
     SetUniform(m.id, "enableBloom", IntValue(BoolInt(p.enableBloom))),
     SetUniform(m.id, "bloomIntensity", FloatValue(p.bloomIntensity)),
     SetUniform(m.id, "enableFXAA", IntValue(BoolInt(p.enableFXAA)))]
  }

  /** The merge shader bound and set, the scene on unit 0, the bloom result on unit 1. */
  function MergeSetup(m: Shader, p: PostprocessSetting, scene: Name, blur: Name): seq<Event>
  {
    [UseProgram(m.id)] + BloomMergeUniforms(m, p)
    + BindTextureCalls(m, "scene", scene, 0, Sampler2D) + BindTextureCalls(m, "bloomBlur", blur, 1, Sampler2D)
  }

  /** The merge quad: into `target` at the viewport size, then the shader unbound. */
  function MergeDraw(m: Shader, target: Name, w: nat, h: nat): seq<Event>
  {
    [BindFramebuffer(target), Viewport(w, h), UseProgram(m.id), DrawArrays(TriangleStrip, Shapes.QuadVertexCount), UseProgram(0)]
  }

  function MergeCalls(m: Shader, p: PostprocessSetting, scene: Name, blur: Name, target: Name, w: nat, h: nat): seq<Event>
  {
    MergeSetup(m, p, scene, blur) + MergeDraw(m, target, w, h)
  }

  /** The bloom from the bright-part texture, then the merge. */
  function PostStage(v: FrameView): seq<Event>
    requires Renderable(v)
  {
    var p := v.config.postprocessSetting;
    if p.enablePostprocess then
      var b := v.bloom.value;
      Blooms.RenderCalls(b.framebuffer, b.width, b.height, b.down, b.up, v.bright, p.bloomFilterRadius, b.mips)
      + MergeCalls(v.merge, p, v.scene, b.mips[0].texture, v.target, v.viewportWidth, v.viewportHeight)
    else []
  }

  /** Render's calls: depth, forward, skybox, post-processing. */
  function FrameCalls(v: FrameView): seq<Event>
    requires Renderable(v)
  {
    DepthStage() + ForwardStage(v) + SkyboxStage(v) + PostStage(v)
  }

  // ------------------------------------------------------------ frame properties

  /** One shader's set-up only selects programs and textures and uploads uniforms. */
  lemma LightingCallsSetupOnly(sh: Shader, useEnvMap: bool, depthMap: Name, t: PrecomputeTextures)
    ensures SetupOnly(LightingCalls(sh, useEnvMap, depthMap, t))
  {
    var head := [UseProgram(sh.id), SetUniform(sh.id, "useEnvMap", IntValue(BoolInt(useEnvMap)))];
    var env := ForwardPasses.EnvironmentSamplers(sh, depthMap, t);
    var lights := ForwardPasses.LightUniforms(sh, ForwardPasses.LightCount());
    ForwardPasses.EnvironmentSamplersQuiet(sh, depthMap, t);
    ForwardPasses.LightUniformsShape(sh, ForwardPasses.LightCount());
    assert SetupOnly(head) && SetupOnly([UseProgram(0)]);
    SetupOnlyJoin(head, env);
    SetupOnlyJoin(head + env, lights);
    SetupOnlyJoin(head + env + lights, [UseProgram(0)]);
  }

  /** `es` gives shader `sh` its samplers on units 15 to 12 and its
      useEnvMap switch. */
  predicate ShaderLit(es: seq<Event>, sh: Shader, useEnvMap: bool)
  {
    ForwardPasses.SetsEnvironmentSamplers(es, sh)
    && SetUniform(sh.id, "useEnvMap", IntValue(BoolInt(useEnvMap))) in es
  }

  lemma ShaderLitExtend(a: seq<Event>, b: seq<Event>, sh: Shader, useEnvMap: bool)
    ensures ShaderLit(a, sh, useEnvMap) ==> ShaderLit(a + b, sh, useEnvMap)
    ensures ShaderLit(b, sh, useEnvMap) ==> ShaderLit(a + b, sh, useEnvMap)
  {
    ForwardPasses.SetsEnvironmentSamplersExtend(a, b, sh);
  }

  /** One shader's set-up sets its four samplers and its useEnvMap switch. */
  lemma LightingCallsLit(sh: Shader, useEnvMap: bool, depthMap: Name, t: PrecomputeTextures)
    ensures ShaderLit(LightingCalls(sh, useEnvMap, depthMap, t), sh, useEnvMap)
  {
    var head := [UseProgram(sh.id), SetUniform(sh.id, "useEnvMap", IntValue(BoolInt(useEnvMap)))];
    var env := ForwardPasses.EnvironmentSamplers(sh, depthMap, t);
    var rest := ForwardPasses.LightUniforms(sh, ForwardPasses.LightCount()) + [UseProgram(0)];
    ForwardPasses.EnvironmentSamplersQuiet(sh, depthMap, t);
    assert LightingCalls(sh, useEnvMap, depthMap, t) == head + env + rest;
    ForwardPasses.SetsEnvironmentSamplersExtend(head, env, sh);
    ForwardPasses.SetsEnvironmentSamplersExtend(head + env, rest, sh);
  }

  /** Every one of the first n shaders is lit by `es`. */
  predicate AllLit(es: seq<Event>, shaders: seq<Shader>, useEnvMap: bool, n: nat)
    requires n <= |shaders|
  {
    forall k | 0 <= k < n :: ShaderLit(es, shaders[k], useEnvMap)
  }

  lemma AllLitStep(before: seq<Event>, last: seq<Event>, shaders: seq<Shader>, useEnvMap: bool, n: nat)
    requires 0 < n <= |shaders| && AllLit(before, shaders, useEnvMap, n - 1)
    requires ShaderLit(last, shaders[n - 1], useEnvMap)
    ensures AllLit(before + last, shaders, useEnvMap, n)
  {
    forall k | 0 <= k < n
      ensures ShaderLit(before + last, shaders[k], useEnvMap)
    {
      ShaderLitExtend(before, last, shaders[k], useEnvMap);
    }
  }

  lemma AllLitExtend(before: seq<Event>, after: seq<Event>, shaders: seq<Shader>, useEnvMap: bool, n: nat)
    requires n <= |shaders| && AllLit(after, shaders, useEnvMap, n)
    ensures AllLit(before + after, shaders, useEnvMap, n)
  {
    forall k | 0 <= k < n
      ensures ShaderLit(before + after, shaders[k], useEnvMap)
    {
      ShaderLitExtend(before, after, shaders[k], useEnvMap);
    }
  }

  /** The forward set-up only selects programs and textures and uploads uniforms. */
  lemma {:induction false} LightingLoopSetupOnly(shaders: seq<Shader>, useEnvMap: bool, depthMap: Name, t: PrecomputeTextures, n: nat)
    requires n <= |shaders|
    ensures SetupOnly(LightingLoop(shaders, useEnvMap, depthMap, t, n))
  {
    if n > 0 {
      LightingLoopSetupOnly(shaders, useEnvMap, depthMap, t, n - 1);
      LightingCallsSetupOnly(shaders[n - 1], useEnvMap, depthMap, t);
      SetupOnlyJoin(LightingLoop(shaders, useEnvMap, depthMap, t, n - 1), LightingCalls(shaders[n - 1], useEnvMap, depthMap, t));
    }
  }

  /** The parts of a run of calls, joined in order. */
  function Concat(parts: seq<seq<Event>>): (r: seq<Event>)
  {
    if parts == [] then [] else Concat(parts[..|parts| - 1]) + parts[|parts| - 1]
  }

  /** If every part lights its own shader, the joined parts light them all. */
  lemma {:induction false} AllLitConcat(parts: seq<seq<Event>>, shaders: seq<Shader>, useEnvMap: bool)
    requires |parts| <= |shaders|
    requires forall k | 0 <= k < |parts| :: ShaderLit(parts[k], shaders[k], useEnvMap)
    ensures AllLit(Concat(parts), shaders, useEnvMap, |parts|)
  {
    if parts != [] {
      var n := |parts|;
      AllLitConcat(parts[..n - 1], shaders, useEnvMap);
      AllLitStep(Concat(parts[..n - 1]), parts[n - 1], shaders, useEnvMap, n);
    }
  }

  /** The per-shader set-ups of the first n forward shaders. */
  function LightingParts(shaders: seq<Shader>, useEnvMap: bool, depthMap: Name, t: PrecomputeTextures, n: nat): (r: seq<seq<Event>>)
    requires n <= |shaders|
    ensures |r| == n
  {
    if n == 0 then [] else LightingParts(shaders, useEnvMap, depthMap, t, n - 1) + [LightingCalls(shaders[n - 1], useEnvMap, depthMap, t)]
  }

  lemma {:induction false} LightingPartsAt(shaders: seq<Shader>, useEnvMap: bool, depthMap: Name, t: PrecomputeTextures, n: nat, k: nat)
    requires k < n <= |shaders|
    ensures LightingParts(shaders, useEnvMap, depthMap, t, n)[k] == LightingCalls(shaders[k], useEnvMap, depthMap, t)
  {
    if k < n - 1 {
      LightingPartsAt(shaders, useEnvMap, depthMap, t, n - 1, k);
    }
  }

  lemma {:induction false} LightingLoopConcat(shaders: seq<Shader>, useEnvMap: bool, depthMap: Name, t: PrecomputeTextures, n: nat)
    requires n <= |shaders|
    ensures LightingLoop(shaders, useEnvMap, depthMap, t, n) == Concat(LightingParts(shaders, useEnvMap, depthMap, t, n))
  {
    if n > 0 {
      var parts := LightingParts(shaders, useEnvMap, depthMap, t, n);
      assert parts[..n - 1] == LightingParts(shaders, useEnvMap, depthMap, t, n - 1);
      LightingLoopConcat(shaders, useEnvMap, depthMap, t, n - 1);
    }
  }

  /** The forward set-up sets up every shader of the list. */
  lemma LightingLoopLit(shaders: seq<Shader>, useEnvMap: bool, depthMap: Name, t: PrecomputeTextures, n: nat)
    requires n <= |shaders|
    ensures AllLit(LightingLoop(shaders, useEnvMap, depthMap, t, n), shaders, useEnvMap, n)
  {
    var parts := LightingParts(shaders, useEnvMap, depthMap, t, n);
    forall k | 0 <= k < n
      ensures ShaderLit(parts[k], shaders[k], useEnvMap)
    {
      LightingPartsAt(shaders, useEnvMap, depthMap, t, n, k);
      LightingCallsLit(shaders[k], useEnvMap, depthMap, t);
    }
    AllLitConcat(parts, shaders, useEnvMap);
    LightingLoopConcat(shaders, useEnvMap, depthMap, t, n);
  }

  lemma DepthStagePasses()
    ensures PassRuns(DepthStage()) == [DepthPass]
  {
    PassRunsNone(DepthSetup());
    PassRunsAppend(DepthSetup(), [RunPass(DepthPass)]);
    assert PassRuns([RunPass(DepthPass)]) == [DepthPass];
  }

  lemma ForwardStagePasses(v: FrameView)
    ensures PassRuns(ForwardStage(v)) == [ForwardPass]
  {
    var loop := LightingLoop(v.forward, v.config.lightSetting.useEnvMap, v.depthMap, v.textures, |v.forward|);
    var head := Buffers.BindCalls(v.target, v.targetWidth, v.targetHeight) + [Event.CullFace(Back)];
    LightingLoopSetupOnly(v.forward, v.config.lightSetting.useEnvMap, v.depthMap, v.textures, |v.forward|);
    assert PassFree(head + loop);
    PassRunsNone(head + loop);
    PassRunsAppend(head + loop, [RunPass(ForwardPass)]);
    assert PassRuns([RunPass(ForwardPass)]) == [ForwardPass];
  }

  lemma SkyboxStagePasses(v: FrameView)
    ensures PassRuns(SkyboxStage(v)) == if v.config.lightSetting.useEnvMap then [EnvironmentMapPass] else []
  {
    var env := EnvironmentBinding(v.skybox, v.textures.environmentMap);
    PassRunsNone(env);
    PassRunsAppend(env, [RunPass(EnvironmentMapPass)]);
    assert PassRuns([RunPass(EnvironmentMapPass)]) == [EnvironmentMapPass];
  }

  lemma PostStagePasses(v: FrameView)
    requires Renderable(v)
    ensures PassRuns(PostStage(v)) == []
  {
    var p := v.config.postprocessSetting;
    if p.enablePostprocess {
      var b := v.bloom.value;
      var bloom := Blooms.RenderCalls(b.framebuffer, b.width, b.height, b.down, b.up, v.bright, p.bloomFilterRadius, b.mips);
      var merge := MergeCalls(v.merge, p, v.scene, b.mips[0].texture, v.target, v.viewportWidth, v.viewportHeight);
      BloomPassFree(b.framebuffer, b.width, b.height, b.down, b.up, v.bright, p.bloomFilterRadius, b.mips);
      assert PassFree(merge);
      assert PassFree(bloom + merge);
    }
    PassRunsNone(PostStage(v));
  }

  /** A frame invokes the depth pass, then the forward pass, then the
      skybox pass exactly when the environment map is in use. */
  lemma FramePassOrder(v: FrameView)
    requires Renderable(v)
    ensures PassRuns(FrameCalls(v))
            == [DepthPass, ForwardPass] + (if v.config.lightSetting.useEnvMap then [EnvironmentMapPass] else [])
  {
    DepthStagePasses();
    ForwardStagePasses(v);
    SkyboxStagePasses(v);
    PostStagePasses(v);
    PassRunsFour(DepthStage(), ForwardStage(v), SkyboxStage(v), PostStage(v));
  }

  lemma PassRunsFour(a: seq<Event>, b: seq<Event>, c: seq<Event>, d: seq<Event>)
    ensures PassRuns(a + b + c + d) == PassRuns(a) + PassRuns(b) + PassRuns(c) + PassRuns(d)
  {
    PassRunsAppend(a, b);
    PassRunsAppend(a + b, c);
    PassRunsAppend(a + b + c, d);
  }

  /** The skybox pass is part of a frame exactly when the environment map
      is in use, and the UI pass is never part of it. */
  lemma FramePasses(v: FrameView)
    requires Renderable(v)
    ensures RunPass(EnvironmentMapPass) in FrameCalls(v) <==> v.config.lightSetting.useEnvMap
    ensures RunPass(InterfacePass) !in FrameCalls(v)
  {
    var f := FrameCalls(v);
    FramePassOrder(v);
    PassRunsMember(f, EnvironmentMapPass);
    PassRunsMember(f, InterfacePass);
  }

  /** The depth pass runs with the shadow map's square viewport and front
      faces culled, in whatever framebuffer was bound. */
  lemma DepthPassState(s: State)
    ensures Run(s, DepthSetup()).viewport == (ShadowResolution, ShadowResolution)
    ensures Run(s, DepthSetup()).cullFace == Front
    ensures Run(s, DepthSetup()).framebuffer == s.framebuffer
  {
    RunTwo(s, Viewport(ShadowResolution, ShadowResolution), Event.CullFace(Front));
  }

  /** The forward pass runs into the main framebuffer, at its size, with
      back faces culled again. */
  lemma ForwardPassState(s: State, v: FrameView)
    ensures Run(s, ForwardSetup(v)).framebuffer == v.target
    ensures Run(s, ForwardSetup(v)).viewport == (v.targetWidth, v.targetHeight)
    ensures Run(s, ForwardSetup(v)).cullFace == Back
    ensures Run(s, ForwardSetup(v)).enabled == s.enabled
  {
    var head := Buffers.BindCalls(v.target, v.targetWidth, v.targetHeight) + [Event.CullFace(Back)];
    var loop := LightingLoop(v.forward, v.config.lightSetting.useEnvMap, v.depthMap, v.textures, |v.forward|);
    LightingLoopSetupOnly(v.forward, v.config.lightSetting.useEnvMap, v.depthMap, v.textures, |v.forward|);
    assert head == [BindFramebuffer(v.target), Viewport(v.targetWidth, v.targetHeight), Event.CullFace(Back)];
    RunThree(s, BindFramebuffer(v.target), Viewport(v.targetWidth, v.targetHeight), Event.CullFace(Back));
    RunAppend(s, head, loop);
    SetupOnlyRun(Run(s, head), loop);
  }

  /** Every forward shader is given the shadow map and the baked textures
      on units 15 to 12 and the configuration's useEnvMap switch before the
      forward pass runs. */
  lemma ForwardShadersLit(v: FrameView)
    ensures AllLit(ForwardSetup(v), v.forward, v.config.lightSetting.useEnvMap, |v.forward|)
  {
    var head := Buffers.BindCalls(v.target, v.targetWidth, v.targetHeight) + [Event.CullFace(Back)];
    var loop := LightingLoop(v.forward, v.config.lightSetting.useEnvMap, v.depthMap, v.textures, |v.forward|);
    LightingLoopLit(v.forward, v.config.lightSetting.useEnvMap, v.depthMap, v.textures, |v.forward|);
    AllLitExtend(head, loop, v.forward, v.config.lightSetting.useEnvMap, |v.forward|);
  }

  /** A texture bound to unit 0 between selecting a program and unbinding
      it, with one uniform upload in between. */
  lemma UnitZeroBinding(s: State, p: Name, target: TexTarget, tex: Name, upload: Event)
    requires upload.SetUniform?
    ensures var st := Run(s, [UseProgram(p), ActiveTexture(0), BindTexture(target, tex), upload, UseProgram(0)]);
            0 in st.units && st.units[0] == (target, tex) && st.program == 0 && st.framebuffer == s.framebuffer
  {
    var head := [UseProgram(p), ActiveTexture(0), BindTexture(target, tex)];
    assert [UseProgram(p), ActiveTexture(0), BindTexture(target, tex), upload, UseProgram(0)] == head + [upload, UseProgram(0)];
    RunAppend(s, head, [upload, UseProgram(0)]);
    UnitZeroHead(s, p, target, tex);
    UniformThenUnbind(Run(s, head), upload);
  }

  lemma UnitZeroHead(s: State, p: Name, target: TexTarget, tex: Name)
    ensures var st := Run(s, [UseProgram(p), ActiveTexture(0), BindTexture(target, tex)]);
            0 in st.units && st.units[0] == (target, tex) && st.framebuffer == s.framebuffer
  {
    RunThree(s, UseProgram(p), ActiveTexture(0), BindTexture(target, tex));
  }

  lemma UniformThenUnbind(s: State, upload: Event)
    requires upload.SetUniform?
    ensures Run(s, [upload, UseProgram(0)]) == s.(program := 0)
  {
    RunTwo(s, upload, UseProgram(0));
  }

  /** The skybox pass finds the environment cube map on unit 0, no program
      in use and the framebuffer unchanged. */
  lemma SkyboxPassState(s: State, sh: Shader, environment: Name)
    ensures 0 in Run(s, EnvironmentBinding(sh, environment)).units
    ensures Run(s, EnvironmentBinding(sh, environment)).units[0] == (CubeMap, environment)
    ensures Run(s, EnvironmentBinding(sh, environment)).program == 0
    ensures Run(s, EnvironmentBinding(sh, environment)).framebuffer == s.framebuffer
  {
    UnitZeroBinding(s, sh.id, CubeMap, environment, SetUniform(sh.id, "EnvironmentMap", IntValue(0)));
  }

  /** After the merge set-up the scene texture is on unit 0 and the bloom
      result on unit 1. */
  lemma MergeSetupState(s: State, m: Shader, p: PostprocessSetting, scene: Name, blur: Name)
    ensures 0 in Run(s, MergeSetup(m, p, scene, blur)).units && 1 in Run(s, MergeSetup(m, p, scene, blur)).units
    ensures Run(s, MergeSetup(m, p, scene, blur)).units[0] == (Texture2D, scene)
    ensures Run(s, MergeSetup(m, p, scene, blur)).units[1] == (Texture2D, blur)
  {
    var head := [UseProgram(m.id)] + BloomMergeUniforms(m, p);
    var a := BindTextureCalls(m, "scene", scene, 0, Sampler2D);
    var b := BindTextureCalls(m, "bloomBlur", blur, 1, Sampler2D);
    RunAppend(s, head + a, b);
    RunAppend(s, head, a);
    BindTextureBindsUnit(Run(s, head), m, "scene", scene, 0, Sampler2D);
    BindTextureBindsUnit(Run(s, head + a), m, "bloomBlur", blur, 1, Sampler2D);
  }

  /** The merge quad is drawn into `target` at the viewport size with the
      merge shader, reading the scene on unit 0 and the bloom result on unit 1. */
  lemma MergeDrawState(s: State, m: Shader, p: PostprocessSetting, scene: Name, blur: Name, target: Name, w: nat, h: nat)
    ensures var pre := MergeSetup(m, p, scene, blur) + MergeDraw(m, target, w, h)[..3];
            && MergeCalls(m, p, scene, blur, target, w, h) == pre + [DrawArrays(TriangleStrip, Shapes.QuadVertexCount), UseProgram(0)]
            && Run(s, pre).framebuffer == target && Run(s, pre).viewport == (w, h) && Run(s, pre).program == m.id
            && 0 in Run(s, pre).units && Run(s, pre).units[0] == (Texture2D, scene)
            && 1 in Run(s, pre).units && Run(s, pre).units[1] == (Texture2D, blur)
  {
    var setup := MergeSetup(m, p, scene, blur);
    var tail := [BindFramebuffer(target), Viewport(w, h), UseProgram(m.id)];
    assert MergeDraw(m, target, w, h)[..3] == tail;
    assert MergeCalls(m, p, scene, blur, target, w, h)
        == setup + tail + [DrawArrays(TriangleStrip, Shapes.QuadVertexCount), UseProgram(0)];
    MergeSetupState(s, m, p, scene, blur);
    RunAppend(s, setup, tail);
    RunThree(Run(s, setup), BindFramebuffer(target), Viewport(w, h), UseProgram(m.id));
  }

  lemma SplitLastTwo(a: seq<Event>, x: Event, y: Event)
    ensures var f := a + [x, y]; |f| >= 2 && f[..|f| - 2] == a && f[|f| - 2] == x && f[|f| - 1] == y
  {
  }

  /** Everything a frame issues before the merge. */
  function BeforeMerge(v: FrameView): seq<Event>
    requires Renderable(v) && v.config.postprocessSetting.enablePostprocess
  {
    var p := v.config.postprocessSetting;
    var b := v.bloom.value;
    DepthStage() + ForwardStage(v) + SkyboxStage(v)
    + Blooms.RenderCalls(b.framebuffer, b.width, b.height, b.down, b.up, v.bright, p.bloomFilterRadius, b.mips)
  }

  lemma FrameSplitsAtMerge(v: FrameView)
    requires Renderable(v) && v.config.postprocessSetting.enablePostprocess
    ensures FrameCalls(v) == BeforeMerge(v) + MergeCalls(v.merge, v.config.postprocessSetting, v.scene,
                                                        v.bloom.value.mips[0].texture, v.target, v.viewportWidth, v.viewportHeight)
  {
  }

  /** When post-processing is on, the frame ends with the merge quad, drawn
      into the main framebuffer at the viewport size from the scene texture
      and the bloom result. */
  lemma FrameEndsWithMerge(s: State, v: FrameView)
    requires Renderable(v) && v.config.postprocessSetting.enablePostprocess
    ensures var f := FrameCalls(v);
            var st := Run(s, f[..|f| - 2]);
            && |f| >= 2 && f[|f| - 2] == DrawArrays(TriangleStrip, Shapes.QuadVertexCount) && f[|f| - 1] == UseProgram(0)
            && st.framebuffer == v.target && st.viewport == (v.viewportWidth, v.viewportHeight)
            && st.program == v.merge.id
            && 0 in st.units && st.units[0] == (Texture2D, v.scene)
            && 1 in st.units && st.units[1] == (Texture2D, v.bloom.value.mips[0].texture)
  {
    var p := v.config.postprocessSetting;
    var blur := v.bloom.value.mips[0].texture;
    var before := BeforeMerge(v);
    var pre := MergeSetup(v.merge, p, v.scene, blur) + MergeDraw(v.merge, v.target, v.viewportWidth, v.viewportHeight)[..3];
    MergeDrawState(Run(s, before), v.merge, p, v.scene, blur, v.target, v.viewportWidth, v.viewportHeight);
    FrameSplitsAtMerge(v);
    assert FrameCalls(v) == (before + pre) + [DrawArrays(TriangleStrip, Shapes.QuadVertexCount), UseProgram(0)];
    SplitLastTwo(before + pre, DrawArrays(TriangleStrip, Shapes.QuadVertexCount), UseProgram(0));
    RunAppend(s, before, pre);
  }

  /** Without post-processing the renderer itself draws nothing: every draw
      of the frame belongs to a pass. */
  lemma NoPostprocessNoDraws(v: FrameView)
    requires Renderable(v) && !v.config.postprocessSetting.enablePostprocess
    ensures NoDraws(FrameCalls(v))
  {
    LightingLoopSetupOnly(v.forward, v.config.lightSetting.useEnvMap, v.depthMap, v.textures, |v.forward|);
    assert NoDraws(Buffers.BindCalls(v.target, v.targetWidth, v.targetHeight) + [Event.CullFace(Back)]);
    assert NoDraws(EnvironmentBinding(v.skybox, v.textures.environmentMap) + [RunPass(EnvironmentMapPass)]);
  }

  // ------------------------------------------------------------ frame methods

  /** One forward shader's set-up, as Render's loop body issues it. */
  method LightShader(dev: Device, sh: Shader, useEnvMap: bool, depthMap: Name, t: PrecomputeTextures)
    modifies dev
    ensures dev.trace == old(dev.trace) + LightingCalls(sh, useEnvMap, depthMap, t)
    ensures dev.nextName == old(dev.nextName)
  {
    ghost var t0 := dev.trace;
    var head := [UseProgram(sh.id), SetUniform(sh.id, "useEnvMap", IntValue(BoolInt(useEnvMap)))];
    Bind(dev, sh);
    SetUniformValue(dev, sh, "useEnvMap", IntValue(BoolInt(useEnvMap)));
    assert dev.trace == t0 + head;
    ForwardPasses.BindEnvironment(dev, sh, depthMap, t);
    ForwardPasses.UploadLights(dev, sh);
    Unbind(dev);
    RegroupFour(t0, head, ForwardPasses.EnvironmentSamplers(sh, depthMap, t),
                ForwardPasses.LightUniforms(sh, ForwardPasses.LightCount()), [UseProgram(0)]);
  }

  /** Render's loop over the forward pass's shaders, in list order. */
  method BindLighting(dev: Device, shaders: seq<Shader>, useEnvMap: bool, depthMap: Name, t: PrecomputeTextures)
    modifies dev
    ensures dev.trace == old(dev.trace) + LightingLoop(shaders, useEnvMap, depthMap, t, |shaders|)
    ensures dev.nextName == old(dev.nextName)
  {
    for i := 0 to |shaders|
      invariant dev.trace == old(dev.trace) + LightingLoop(shaders, useEnvMap, depthMap, t, i)
      invariant dev.nextName == old(dev.nextName)
    {
      LightShader(dev, shaders[i], useEnvMap, depthMap, t);
      RegroupTwo(old(dev.trace), LightingLoop(shaders, useEnvMap, depthMap, t, i), LightingCalls(shaders[i], useEnvMap, depthMap, t));
    }
  }

  /** The skybox shader given the environment cube map on unit 0. */
  method BindSkybox(dev: Device, sh: Shader, environment: Name)
    modifies dev
    ensures dev.trace == old(dev.trace) + EnvironmentBinding(sh, environment)
    ensures dev.nextName == old(dev.nextName)
  {
    ghost var t0 := dev.trace;
    Bind(dev, sh);
    dev.Emit([ActiveTexture(0), BindTexture(CubeMap, environment)]);
    SetUniformValue(dev, sh, "EnvironmentMap", IntValue(0));
    Unbind(dev);
    assert [UseProgram(sh.id)] + [ActiveTexture(0), BindTexture(CubeMap, environment)]
           + [SetUniform(sh.id, "EnvironmentMap", IntValue(0))] + [UseProgram(0)] == EnvironmentBinding(sh, environment);
    RegroupFour(t0, [UseProgram(sh.id)], [ActiveTexture(0), BindTexture(CubeMap, environment)],
                [SetUniform(sh.id, "EnvironmentMap", IntValue(0))], [UseProgram(0)]);
  }

  /** The merge shader's five settings. */
  method UploadMergeSettings(dev: Device, m: Shader, p: PostprocessSetting)
    modifies dev
    ensures dev.trace == old(dev.trace) + BloomMergeUniforms(m, p)
    ensures dev.nextName == old(dev.nextName)
  {
    ghost var t0 := dev.trace;
    SetUniformValue(dev, m, "tonemappingType", IntValue(ToneMappingCode(p.tonemappingType)));
    SetUniformValue(dev, m, "exposure", FloatValue(p.exposure));
    SetUniformValue(dev, m, "enableBloom", IntValue(BoolInt(p.enableBloom)));
    SetUniformValue(dev, m, "bloomIntensity", FloatValue(p.bloomIntensity));
    SetUniformValue(dev, m, "enableFXAA", IntValue(BoolInt(p.enableFXAA)));
    assert dev.trace == t0 + BloomMergeUniforms(m, p);
  }

  /** The bloom merge: the scene and the bloom result combined, tone mapped
      and drawn as one quad into `target` at (w, h). */
  method MergeBloom(dev: Device, cache: Shapes.ShapeCache, m: Shader, p: PostprocessSetting,
                    scene: Name, blur: Name, target: Name, w: nat, h: nat)
    requires cache.Valid()
    modifies dev, cache
    ensures cache.Valid() && dev.nextName == old(dev.nextName)
    ensures dev.trace == old(dev.trace) + MergeCalls(m, p, scene, blur, target, w, h)
  {
    ghost var t0 := dev.trace;
    Bind(dev, m);
    UploadMergeSettings(dev, m, p);
    BindTextureTo(dev, m, "scene", scene, 0, Sampler2D);
    BindTextureTo(dev, m, "bloomBlur", blur, 1, Sampler2D);
    assert dev.trace == t0 + MergeSetup(m, p, scene, blur);
    ghost var t1 := dev.trace;
    dev.Emit([BindFramebuffer(target), Viewport(w, h)]);
    cache.RenderQuad(dev, m);
    Unbind(dev);
    assert dev.trace == t1 + MergeDraw(m, target, w, h);
  }

  // ------------------------------------------------------------ queued passes

  /** A pass in the renderer's queue, through the base-class interface the
      renderer uses: a running flag, a shader list and the GL name of the
      framebuffer it is bound to. */
  class QueuedPass {
    const kind: PassKind
    var running: bool
    var shaders: seq<Shader>
    var framebufferId: Name

    /** A pass starts running, bound to no framebuffer, with the shaders its
        own constructor loaded. */
    constructor (kind: PassKind, shaders: seq<Shader>)
      ensures this.kind == kind && running && this.shaders == shaders && framebufferId == 0
    {
      this.kind := kind;
      running := true;
      this.shaders := shaders;
      framebufferId := 0;
    }

    method Awake(value: bool)
      modifies this
      ensures running == value && shaders == old(shaders) && framebufferId == old(framebufferId)
    {
      running := value;
    }

    /** PushShader: the shader goes at the end and is returned. */
    method PushShader(sh: Shader) returns (r: Shader)
      modifies this
      ensures shaders == old(shaders) + [sh] && r == sh
      ensures running == old(running) && framebufferId == old(framebufferId)
    {
      shaders := shaders + [sh];
      r := sh;
    }

    method BindFramebuffer(id: Name)
      modifies this
      ensures framebufferId == id && running == old(running) && shaders == old(shaders)
    {
      framebufferId := id;
    }
  }

  /** The shaders BindRenderPass pushes onto the forward pass. */
  function RendererForwardFiles(): seq<(string, string)>
  {
    [("common.vert", "pbr.frag"), ("phong.vert", "phong.frag"), ("toon.vert", "toon.frag"), ("common.vert", "light.frag")]
  }

  /** The shader files BindRenderPass loads for the depth and skybox passes. */
  function DepthShaderFiles(): (string, string) { ("depth.vert", "depth.frag") }
  function SkyboxShaderFiles(): (string, string) { ("cubemap.vert", "cubemap.frag") }

  /** The depth pass's set-up, names from `n`: its constructor, then the
      depth shader the renderer pushes. */
  function DepthQueueCalls(files: map<string, string>, n: Name, complete: bool): seq<Event>
  {
    RenderPasses.DepthPassConstruction(files, n, complete) + LoadCalls(files, DepthShaderFiles().0, DepthShaderFiles().1, n + 8)
  }

  /** The skybox pass's set-up, names from `n`: the main framebuffer bound,
      the cube-map shader loaded. */
  function SkyboxQueueCalls(files: map<string, string>, n: Name, target: Name, w: nat, h: nat): seq<Event>
  {
    Buffers.BindCalls(target, w, h) + LoadCalls(files, SkyboxShaderFiles().0, SkyboxShaderFiles().1, n)
  }

  /** DepthRenderPass's constructor, for the shader list it leaves. */
  method ConstructDepthPass(dev: Device, complete: bool) returns (shaders: seq<Shader>)
    modifies dev
    ensures |shaders| == 1 && shaders[0].id == old(dev.nextName) + 7 && dev.nextName == old(dev.nextName) + 8
    ensures dev.trace == old(dev.trace) + RenderPasses.DepthPassConstruction(dev.files, old(dev.nextName), complete)
  {
    var pass := new DepthRenderPass(dev, complete);
    shaders := pass.base.shaders;
  }

  /** The depth pass's GL work: its constructor's shader, then the depth
      shader loaded a second time for the renderer to push. */
  method LoadDepthPassShaders(dev: Device, complete: bool) returns (own: seq<Shader>, sh: Shader)
    modifies dev
    ensures var n := old(dev.nextName);
            |own| == 1 && own[0].id == n + 7 && sh.id == n + 10 && dev.nextName == n + 11
    ensures dev.trace == old(dev.trace) + DepthQueueCalls(dev.files, old(dev.nextName), complete)
  {
    ghost var t, n := dev.trace, dev.nextName;
    ghost var built := RenderPasses.DepthPassConstruction(dev.files, n, complete);
    ghost var loaded := LoadCalls(dev.files, DepthShaderFiles().0, DepthShaderFiles().1, n + 8);
    own := ConstructDepthPass(dev, complete);
    assert dev.trace == t + built;
    sh := LoadShader(dev, DepthShaderFiles().0, DepthShaderFiles().1);
    assert dev.trace == t + built + loaded;
    RegroupTwo(t, built, loaded);
  }

  /** The depth pass, queued with the depth shader pushed a second time and
      bound to the shadow depthbuffer's name. */
  method QueueDepthPass(dev: Device, depthbuffer: Name, complete: bool) returns (q: QueuedPass)
    modifies dev
    ensures fresh(q) && q.kind == DepthPass && q.running && q.framebufferId == depthbuffer
    ensures var n := old(dev.nextName);
            |q.shaders| == 2 && q.shaders[0].id == n + 7 && q.shaders[1].id == n + 10 && dev.nextName == n + 11
    ensures dev.trace == old(dev.trace) + DepthQueueCalls(dev.files, old(dev.nextName), complete)
  {
    var own, sh := LoadDepthPassShaders(dev, complete);
    q := new QueuedPass(DepthPass, own);
    var _ := q.PushShader(sh);
    q.BindFramebuffer(depthbuffer);
  }

  /** Each shader of the list pushed in turn. */
  method PushShaders(q: QueuedPass, pushed: seq<Shader>)
    modifies q
    ensures q.shaders == old(q.shaders) + pushed
    ensures q.running == old(q.running) && q.framebufferId == old(q.framebufferId)
  {
    for i := 0 to |pushed|
      invariant q.shaders == old(q.shaders) + pushed[..i]
      invariant q.running == old(q.running) && q.framebufferId == old(q.framebufferId)
    {
      var _ := q.PushShader(pushed[i]);
      assert pushed[..i + 1] == pushed[..i] + [pushed[i]];
    }
    assert pushed[..|pushed|] == pushed;
  }

  /** The forward pass's eight program names: the constructor's four, then
      the four pushed, all three apart. */
  lemma ForwardIdsSpaced(own: seq<Shader>, pushed: seq<Shader>, n: Name)
    requires |own| == 4 && own[0].id == n + 11 && own[1].id == n + 14 && own[2].id == n + 17 && own[3].id == n + 20
    requires |pushed| == 4 && forall k | 0 <= k < 4 :: pushed[k].id == n + 21 + 3 * k + 2
    ensures SpacedIds(own + pushed, n + 9)
  {
  }

  /** The forward pass's shaders: those its constructor loads, once the
      main framebuffer is bound, and the four the renderer loads to push. */
  method LoadForwardShaders(dev: Device, target: Buffers.Buffer, lightIcon: Name) returns (own: seq<Shader>, pushed: seq<Shader>)
    modifies dev
    ensures |own + pushed| == 8 && SpacedIds(own + pushed, old(dev.nextName) + 9) && dev.nextName == old(dev.nextName) + 33
    ensures dev.trace == old(dev.trace) + Buffers.BindCalls(target.id, target.width, target.height)
                         + LoadsFrom(dev.files, ForwardPasses.MemberShaderFiles(), old(dev.nextName))
                         + LoadsFrom(dev.files, ForwardPasses.MaterialShaderFiles(), old(dev.nextName) + 9)
                         + LoadsFrom(dev.files, RendererForwardFiles(), old(dev.nextName) + 21)
  {
    ghost var n := dev.nextName;
    target.Bind(dev);
    var pass := new ForwardPasses.ForwardRenderPass(dev, lightIcon);
    own := pass.base.shaders;
    pushed := LoadShaders(dev, RendererForwardFiles());
    ForwardIdsSpaced(own, pushed, n);
  }

  /** The forward pass, queued with the PBR, Phong, toon and light shaders
      pushed after its own and bound to the main framebuffer's name. */
  method QueueForwardPass(dev: Device, target: Buffers.Buffer, lightIcon: Name) returns (q: QueuedPass)
    modifies dev
    ensures fresh(q) && q.kind == ForwardPass && q.running && q.framebufferId == target.id
    ensures |q.shaders| == 8 && SpacedIds(q.shaders, old(dev.nextName) + 9) && dev.nextName == old(dev.nextName) + 33
    ensures dev.trace == old(dev.trace) + Buffers.BindCalls(target.id, target.width, target.height)
                         + LoadsFrom(dev.files, ForwardPasses.MemberShaderFiles(), old(dev.nextName))
                         + LoadsFrom(dev.files, ForwardPasses.MaterialShaderFiles(), old(dev.nextName) + 9)
                         + LoadsFrom(dev.files, RendererForwardFiles(), old(dev.nextName) + 21)
  {
    var own, pushed := LoadForwardShaders(dev, target, lightIcon);
    q := new QueuedPass(ForwardPass, own);
    PushShaders(q, pushed);
    q.BindFramebuffer(target.id);
  }

  /** The skybox pass, queued with the cube-map shader and bound to the main
      framebuffer's name. */
  method QueueSkyboxPass(dev: Device, target: Buffers.Buffer) returns (q: QueuedPass)
    modifies dev
    ensures fresh(q) && q.kind == EnvironmentMapPass && q.running && q.framebufferId == target.id
    ensures |q.shaders| == 1 && q.shaders[0].id == old(dev.nextName) + 2 && dev.nextName == old(dev.nextName) + 3
    ensures dev.trace == old(dev.trace) + SkyboxQueueCalls(dev.files, old(dev.nextName), target.id, target.width, target.height)
  {
    target.Bind(dev);
    var pass := new CubeMapPasses.CubeMapPass();
    q := new QueuedPass(EnvironmentMapPass, pass.base.shaders);
    var sh := LoadShader(dev, SkyboxShaderFiles().0, SkyboxShaderFiles().1);
    var _ := q.PushShader(sh);
    q.BindFramebuffer(target.id);
  }

  /** The two passes that draw into the main framebuffer. */
  method QueueDrawPasses(dev: Device, target: Buffers.Buffer, lightIcon: Name) returns (forward: QueuedPass, skybox: QueuedPass)
    modifies dev
    ensures fresh(forward) && fresh(skybox) && forward != skybox
    ensures forward.kind == ForwardPass && skybox.kind == EnvironmentMapPass && forward.running && skybox.running
    ensures forward.framebufferId == target.id && skybox.framebufferId == target.id
    ensures var n := old(dev.nextName);
            && |forward.shaders| == 8 && SpacedIds(forward.shaders, n + 9)
            && |skybox.shaders| == 1 && skybox.shaders[0].id == n + 35 && dev.nextName == n + 36
    ensures dev.trace == old(dev.trace) + Buffers.BindCalls(target.id, target.width, target.height)
                         + LoadsFrom(dev.files, ForwardPasses.MemberShaderFiles(), old(dev.nextName))
                         + LoadsFrom(dev.files, ForwardPasses.MaterialShaderFiles(), old(dev.nextName) + 9)
                         + LoadsFrom(dev.files, RendererForwardFiles(), old(dev.nextName) + 21)
                         + SkyboxQueueCalls(dev.files, old(dev.nextName) + 33, target.id, target.width, target.height)
  {
    forward := QueueForwardPass(dev, target, lightIcon);
    skybox := QueueSkyboxPass(dev, target);
  }

  /** BindRenderPass: the depth, forward and skybox passes queued in that
      order, and the UI pass, which is kept out of the queue. */
  method BindRenderPasses(dev: Device, depthbuffer: Name, target: Buffers.Buffer, lightIcon: Name, complete: bool)
    returns (depth: QueuedPass, forward: QueuedPass, skybox: QueuedPass, ui: QueuedPass)
    modifies dev
    ensures fresh(depth) && fresh(forward) && fresh(skybox) && fresh(ui)
    ensures depth != forward && depth != skybox && forward != skybox
    ensures ui != depth && ui != forward && ui != skybox
    ensures depth.kind == DepthPass && forward.kind == ForwardPass && skybox.kind == EnvironmentMapPass && ui.kind == InterfacePass
    ensures depth.running && forward.running && skybox.running && ui.running
    ensures depth.framebufferId == depthbuffer && forward.framebufferId == target.id && skybox.framebufferId == target.id
    ensures var n := old(dev.nextName);
            && |depth.shaders| == 2 && depth.shaders[0].id == n + 7 && depth.shaders[1].id == n + 10
            && |forward.shaders| == 8 && SpacedIds(forward.shaders, n + 20)
            && |skybox.shaders| == 1 && skybox.shaders[0].id == n + 46
            && ui.shaders == [] && dev.nextName == n + 47
    ensures dev.trace == old(dev.trace) + DepthQueueCalls(dev.files, old(dev.nextName), complete)
                         + Buffers.BindCalls(target.id, target.width, target.height)
                         + LoadsFrom(dev.files, ForwardPasses.MemberShaderFiles(), old(dev.nextName) + 11)
                         + LoadsFrom(dev.files, ForwardPasses.MaterialShaderFiles(), old(dev.nextName) + 20)
                         + LoadsFrom(dev.files, RendererForwardFiles(), old(dev.nextName) + 32)
                         + SkyboxQueueCalls(dev.files, old(dev.nextName) + 44, target.id, target.width, target.height)
  {
    depth := QueueDepthPass(dev, depthbuffer, complete);
    forward, skybox := QueueDrawPasses(dev, target, lightIcon);
    ui := new QueuedPass(InterfacePass, []);
  }

  // ------------------------------------------------------------ environment bake

  /** The sizes the bake allocates its textures at: the environment cube map
      at the configured resolution, the irradiance cube map at 32, the
      prefilter cube map's base level at 128 and the BRDF table at 512 by
      512. The texture classes that allocate them are not part of this model. */
  datatype BakeAllocation = BakeAllocation(environment: nat, irradiance: nat, prefilter: nat, brdfWidth: nat, brdfHeight: nat)

  function BakeAllocations(resolution: nat): BakeAllocation
  {
    BakeAllocation(resolution, 32, 128, 512, 512)
  }

  /** The irradiance, prefilter and BRDF textures are allocated at the sizes
      the bake's stages draw at; the environment cube map matches its stage,
      which always draws at 2048, exactly when the configured resolution is
      2048, as the default configuration's is. */
  lemma BakeSizesMatchStages(resolution: nat)
    ensures BakeAllocations(resolution).irradiance == PrecomputePasses.IrradianceResolution
    ensures BakeAllocations(resolution).prefilter == PrecomputePasses.PrefilterMipSize(0)
    ensures BakeAllocations(resolution).brdfWidth == BakeAllocations(resolution).brdfHeight == PrecomputePasses.BrdfResolution
    ensures BakeAllocations(resolution).environment == PrecomputePasses.EnvironmentResolution
            <==> resolution == PrecomputePasses.EnvironmentResolution
    ensures BakeAllocations(DefaultGraphicsConfig().environmentMapResolution).environment == PrecomputePasses.EnvironmentResolution
  {
    PrecomputePasses.PrefilterMipSizesHalve(0);
  }

  /** The bake's shaders: environment, irradiance, prefilter, BRDF. */
  function BakeShaderFiles(): seq<(string, string)>
  {
    [("equirectangularMap.vert", "equirectangularMap.frag"), ("equirectangularMap.vert", "diffuse_integration.frag"),
     ("prefilter.vert", "prefilter.frag"), ("brdf_integration.vert", "brdf_integration.frag")]
  }

  /** A framebuffer's resize calls: none when it already has the size. */
  function ResizeIfNeeded(st: Framebuffers.FramebufferState, w: nat, h: nat, base: Name, complete: bool): seq<Event>
    requires st.WellFormed()
  {
    if st.width == w && st.height == h then [] else Framebuffers.ResizeCalls(st, w, h, base, complete)
  }

  /** The names such a resize takes. */
  function NamesIfResized(st: Framebuffers.FramebufferState, w: nat, h: nat): nat
  {
    if st.width == w && st.height == h then 0 else st.NamesUsed()
  }

  /** Each shader of the list pushed onto a pass in turn. */
  method PushPassShaders(pass: RenderPass, pushed: seq<Shader>)
    modifies pass
    ensures pass.shaders == old(pass.shaders) + pushed
    ensures pass.running == old(pass.running) && pass.framebuffer == old(pass.framebuffer)
  {
    for i := 0 to |pushed|
      invariant pass.shaders == old(pass.shaders) + pushed[..i]
      invariant pass.running == old(pass.running) && pass.framebuffer == old(pass.framebuffer)
    {
      var _ := pass.PushShader(pushed[i]);
      assert pushed[..i + 1] == pushed[..i] + [pushed[i]];
    }
    assert pushed[..|pushed|] == pushed;
  }

  /** The bake's first steps: culling off, then the precompute framebuffer
      resized to the configured resolution. */
  method ResizeForBake(dev: Device, fb: Framebuffers.Framebuffer, resolution: nat, complete: bool)
    requires fb.Valid()
    modifies dev, fb, fb.buffer
    ensures fb.Valid() && fb.buffer.id == old(fb.buffer.id)
    ensures var st := old(fb.Snapshot());
            && fb.Snapshot() == (if st.width == resolution && st.height == resolution then st
                                 else Framebuffers.Resized(st, resolution, resolution, old(dev.nextName)))
            && dev.nextName == old(dev.nextName) + NamesIfResized(st, resolution, resolution)
    ensures dev.trace == old(dev.trace) + [Disable(Capability.CullFace)]
                         + ResizeIfNeeded(old(fb.Snapshot()), resolution, resolution, old(dev.nextName), complete)
  {
    dev.Emit([Disable(Capability.CullFace)]);
    fb.OnResize(dev, resolution, resolution, complete);
  }

  /** A precompute pass bound to the framebuffer, with the environment,
      irradiance, prefilter and BRDF shaders pushed in that order. */
  method NewBakePass(dev: Device, fb: Framebuffers.Framebuffer) returns (pass: PrecomputePasses.PrecomputePass)
    modifies dev
    ensures fresh(pass) && fresh(pass.base) && pass.base.running && pass.base.framebuffer == fb
    ensures |pass.base.shaders| == 4 && SpacedIds(pass.base.shaders, old(dev.nextName)) && dev.nextName == old(dev.nextName) + 12
    ensures dev.trace == old(dev.trace) + LoadsFrom(dev.files, BakeShaderFiles(), old(dev.nextName))
  {
    pass := new PrecomputePasses.PrecomputePass();
    pass.base.BindFramebuffer(fb);
    var shaders := LoadShaders(dev, BakeShaderFiles());
    PushPassShaders(pass.base, shaders);
  }

  /** The bake itself, as the source runs it, then culling on again: the
      pass's shader list ends with slot 0 holding the BRDF shader. */
  method RunBake(dev: Device, cache: Shapes.ShapeCache, pass: PrecomputePasses.PrecomputePass, ctx: PrecomputeContext)
    requires pass.base.framebuffer == ctx.framebuffer && |pass.base.shaders| == 4 && cache.Valid()
    modifies dev, cache, pass.base
    ensures cache.Valid() && dev.nextName == old(dev.nextName)
    ensures pass.base.shaders == PrecomputePasses.ShadersAfterBakeAsWritten(old(pass.base.shaders))
    ensures pass.base.running == old(pass.base.running) && pass.base.framebuffer == old(pass.base.framebuffer)
    ensures var sh := old(pass.base.shaders);
            dev.trace == old(dev.trace) + PrecomputePasses.BakeCalls(ctx.framebuffer.buffer.id, ctx.framebuffer.GetRenderbufferID(),
                                                                    sh[0], sh[1], sh[2], sh[3], ctx.textures)
                         + [Enable(Capability.CullFace)]
  {
    pass.RenderAsWritten(dev, cache, ctx);
    dev.Emit([Enable(Capability.CullFace)]);
  }

  /** A precompute pass over the context's framebuffer, its four shaders
      loaded and pushed (`pushed`), the bake, culling on again. */
  method BakeWithNewPass(dev: Device, cache: Shapes.ShapeCache, ctx: PrecomputeContext)
    returns (pass: PrecomputePasses.PrecomputePass, pushed: seq<Shader>)
    requires cache.Valid()
    modifies dev, cache
    ensures cache.Valid()
    ensures fresh(pass) && fresh(pass.base) && pass.base.running && pass.base.framebuffer == ctx.framebuffer
    ensures |pushed| == 4 && SpacedIds(pushed, old(dev.nextName)) && dev.nextName == old(dev.nextName) + 12
    ensures pass.base.shaders == PrecomputePasses.ShadersAfterBakeAsWritten(pushed)
    ensures dev.trace == old(dev.trace) + LoadsFrom(dev.files, BakeShaderFiles(), old(dev.nextName))
                         + PrecomputePasses.BakeCalls(ctx.framebuffer.buffer.id, ctx.framebuffer.GetRenderbufferID(),
                                                      pushed[0], pushed[1], pushed[2], pushed[3], ctx.textures)
                         + [Enable(Capability.CullFace)]
  {
    pass := NewBakePass(dev, ctx.framebuffer);
    pushed := pass.base.shaders;
    RunBake(dev, cache, pass, ctx);
  }

  /** BakeEnvironmentLight: culling off, the precompute framebuffer resized
      to the configured resolution, a precompute pass bound to it with its
      four shaders, the bake, culling on again. */
  method BakeEnvironmentLight(dev: Device, cache: Shapes.ShapeCache, ctx: PrecomputeContext, resolution: nat, complete: bool)
    returns (pass: PrecomputePasses.PrecomputePass, pushed: seq<Shader>, sizes: BakeAllocation)
    requires ctx.framebuffer.Valid() && cache.Valid()
    modifies dev, cache, ctx.framebuffer, ctx.framebuffer.buffer
    ensures cache.Valid() && ctx.framebuffer.Valid() && ctx.framebuffer.buffer.id == old(ctx.framebuffer.buffer.id)
    ensures sizes == BakeAllocations(resolution)
    ensures fresh(pass) && fresh(pass.base) && pass.base.running && pass.base.framebuffer == ctx.framebuffer
    ensures var st := old(ctx.framebuffer.Snapshot());
            ctx.framebuffer.Snapshot()
            == if st.width == resolution && st.height == resolution then st else Framebuffers.Resized(st, resolution, resolution, old(dev.nextName))
    ensures var m := old(dev.nextName) + NamesIfResized(old(ctx.framebuffer.Snapshot()), resolution, resolution);
            |pushed| == 4 && SpacedIds(pushed, m) && dev.nextName == m + 12
    ensures pass.base.shaders == PrecomputePasses.ShadersAfterBakeAsWritten(pushed)
    ensures var m := old(dev.nextName) + NamesIfResized(old(ctx.framebuffer.Snapshot()), resolution, resolution);
            dev.trace == old(dev.trace) + [Disable(Capability.CullFace)]
                         + ResizeIfNeeded(old(ctx.framebuffer.Snapshot()), resolution, resolution, old(dev.nextName), complete)
                         + LoadsFrom(dev.files, BakeShaderFiles(), m)
                         + PrecomputePasses.BakeCalls(ctx.framebuffer.buffer.id, ctx.framebuffer.GetRenderbufferID(),
                                                      pushed[0], pushed[1], pushed[2], pushed[3], ctx.textures)
                         + [Enable(Capability.CullFace)]
  {
    ResizeForBake(dev, ctx.framebuffer, resolution, complete);
    sizes := BakeAllocations(resolution);
    pass, pushed := BakeWithNewPass(dev, cache, ctx);
  }

  /** The depth pass, then the forward pass into `target` with every
      forward shader lit. */
  method ShadowAndForward(dev: Device, target: Buffers.Buffer, shaders: seq<Shader>, useEnvMap: bool,
                          depthMap: Name, t: PrecomputeTextures)
    modifies dev
    ensures dev.nextName == old(dev.nextName)
    ensures dev.trace == old(dev.trace) + DepthStage()
      + (Buffers.BindCalls(target.id, target.width, target.height) + [Event.CullFace(Back)]
         + LightingLoop(shaders, useEnvMap, depthMap, t, |shaders|) + [RunPass(ForwardPass)])
  {
    ghost var t0 := dev.trace;
    dev.Emit(DepthSetup());
    dev.Emit([RunPass(DepthPass)]);
    ghost var t1 := dev.trace;
    target.Bind(dev);
    dev.Emit([Event.CullFace(Back)]);
    BindLighting(dev, shaders, useEnvMap, depthMap, t);
    dev.Emit([RunPass(ForwardPass)]);
    RegroupFour(t1, Buffers.BindCalls(target.id, target.width, target.height), [Event.CullFace(Back)],
                LightingLoop(shaders, useEnvMap, depthMap, t, |shaders|), [RunPass(ForwardPass)]);
  }

  /** Post-processing's two steps: the bloom from the bright-part texture,
      then the merge of the scene with the bloom's first mip into the
      target. */
  method BloomAndMerge(dev: Device, cache: Shapes.ShapeCache, bloom: Blooms.Bloom, p: PostprocessSetting,
                       scene: Name, bright: Name, merge: Shader, target: Name, w: nat, h: nat)
    requires cache.Valid() && |bloom.mips| >= 1 && bloom.downsampleShader.Some? && bloom.upsampleShader.Some?
    modifies dev, cache
    ensures cache.Valid() && dev.nextName == old(dev.nextName)
    ensures dev.trace == old(dev.trace)
      + Blooms.RenderCalls(bloom.framebuffer, bloom.width, bloom.height, bloom.downsampleShader.value,
                           bloom.upsampleShader.value, bright, p.bloomFilterRadius, bloom.mips)
      + MergeCalls(merge, p, scene, bloom.mips[0].texture, target, w, h)
  {
    bloom.Render(dev, cache, bright, p.bloomFilterRadius);
    MergeBloom(dev, cache, merge, p, scene, bloom.mips[0].texture, target, w, h);
  }

  // ------------------------------------------------------------ per-frame settings

  /** The fill mode a polygon mode selects: shaded draws filled, wire-frame
      draws lines. */
  function FillModeOf(m: PolygonMode): (r: FillMode)
    ensures r == Fill <==> m == Shaded
    ensures r == Line <==> m == WireFrame
  {
    match m
    case Shaded => Fill
    case WireFrame => Line
  }

  /** OnUpdate's calls: the swap interval from the vsync flag, then the fill mode. */
  function UpdateCalls(c: GraphicsConfig): seq<Event>
  {
    [SwapInterval(BoolInt(c.vsync)), PolygonMode(FillModeOf(c.polygonMode))]
  }

  /** After OnUpdate the pipeline fills polygons exactly when the
      configuration asks for shaded polygons, and nothing else of the
      pipeline state has changed. */
  lemma UpdateState(s: State, c: GraphicsConfig)
    ensures Run(s, UpdateCalls(c)) == s.(fillMode := FillModeOf(c.polygonMode))
    ensures Run(s, UpdateCalls(c)).fillMode == Fill <==> c.polygonMode == Shaded
  {
    RunTwo(s, SwapInterval(BoolInt(c.vsync)), PolygonMode(FillModeOf(c.polygonMode)));
  }

  // ------------------------------------------------------------ construction steps

  /** The renderer's first steps: its main framebuffer and shadow
      depthbuffer, depth testing, face culling, multisampling and seamless
      cube maps on, the framebuffer sized to the default viewport and the
      depthbuffer to the shadow resolution. */
  method BuildTargets(dev: Device, complete: bool) returns (fb: HdrFramebuffers.HdrFramebuffer, db: Depthbuffers.Depthbuffer)
    modifies dev
    ensures fresh(fb) && fresh(fb.buffer) && fresh(fb.colorbuffers) && fresh(db) && fresh(db.buffer)
    ensures fb.Valid() && fb.buffer.width == ViewportWidth && fb.buffer.height == ViewportHeight
    ensures db.buffer.width == ShadowResolution && db.buffer.height == ShadowResolution
    ensures old(dev.nextName) <= fb.buffer.id < db.buffer.id < dev.nextName
    ensures old(dev.trace)
              + [Generate(FramebufferObject, fb.buffer.id), BindFramebuffer(fb.buffer.id)]
              + [Generate(FramebufferObject, db.buffer.id), BindFramebuffer(db.buffer.id)]
              + [Enable(DepthTest), Enable(Capability.CullFace), Enable(Multisample), Enable(SeamlessCubeMap)]
            <= dev.trace
  {
    fb := new HdrFramebuffers.HdrFramebuffer(dev);
    db := new Depthbuffers.Depthbuffer(dev);
    dev.Emit([Enable(DepthTest), Enable(Capability.CullFace), Enable(Multisample), Enable(SeamlessCubeMap)]);
    fb.OnResize(dev, ViewportWidth, ViewportHeight, complete);
    db.OnResize(dev, ShadowResolution, ShadowResolution, complete);
  }

  /** The precompute context over the baked textures and the bake at the
      given resolution. */
  method BuildBake(dev: Device, cache: Shapes.ShapeCache, textures: PrecomputeTextures, resolution: nat, complete: bool)
    returns (ctx: PrecomputeContext, pass: PrecomputePasses.PrecomputePass, sizes: BakeAllocation)
    requires cache.Valid()
    modifies dev, cache
    ensures cache.Valid() && fresh(ctx) && fresh(pass) && fresh(pass.base)
    ensures ctx.textures == textures && sizes == BakeAllocations(resolution)
    ensures pass.base.framebuffer == ctx.framebuffer && |pass.base.shaders| == 4
    ensures pass.base.shaders[0] == pass.base.shaders[3]
    ensures old(dev.nextName) <= ctx.framebuffer.buffer.id < pass.base.shaders[0].id < dev.nextName
  {
    ctx := new PrecomputeContext(dev, textures);
    var pushed;
    pass, pushed, sizes := BakeEnvironmentLight(dev, cache, ctx, resolution, complete);
  }

  /** The render passes, queued and apart, over the given depthbuffer and
      main framebuffer. */
  method BuildPasses(dev: Device, depthbuffer: Name, target: Buffers.Buffer, lightIcon: Name, complete: bool)
    returns (depth: QueuedPass, forward: QueuedPass, skybox: QueuedPass, ui: QueuedPass)
    modifies dev
    ensures fresh(depth) && fresh(forward) && fresh(skybox) && fresh(ui)
    ensures depth != forward && depth != skybox && forward != skybox
    ensures ui != depth && ui != forward && ui != skybox
    ensures depth.kind == DepthPass && forward.kind == ForwardPass && skybox.kind == EnvironmentMapPass && ui.kind == InterfacePass
    ensures depth.running && forward.running && skybox.running
    ensures depth.framebufferId == depthbuffer && forward.framebufferId == target.id && skybox.framebufferId == target.id
    ensures |depth.shaders| == 2 && |forward.shaders| == 8 && |skybox.shaders| == 1
    ensures old(dev.nextName) <= depth.shaders[0].id < forward.shaders[0].id < skybox.shaders[0].id < dev.nextName
  {
    depth, forward, skybox, ui := BindRenderPasses(dev, depthbuffer, target, lightIcon, complete);
  }

  /** The bloom at the default viewport with its mip chain, and the merge
      shader. */
  method BuildPostprocess(dev: Device, complete: bool) returns (b: Blooms.Bloom, merge: Shader)
    modifies dev
    ensures fresh(b) && b.width == ViewportWidth && b.height == ViewportHeight && |b.mips| == BloomMipChainLength
    ensures complete <==> b.downsampleShader.Some? && b.upsampleShader.Some?
    ensures old(dev.nextName) <= b.framebuffer < merge.id < dev.nextName
  {
    b := new Blooms.Bloom(dev, ViewportWidth, ViewportHeight, BloomMipChainLength, complete);
    Blooms.MipChainAt(ViewportWidth, ViewportHeight, b.framebuffer + 1, BloomMipChainLength, 0);
    merge := LoadShader(dev, "quad.vert", "postprocess.frag");
  }

  // ------------------------------------------------------------ the renderer

  /** The renderer. The scene, the white fallback texture and the frame
      timer are not part of this model. */
  class Renderer {
    var viewportWidth: nat
    var viewportHeight: nat
    const framebuffer: HdrFramebuffers.HdrFramebuffer
    const depthbuffer: Depthbuffers.Depthbuffer
    var config: GraphicsConfig
    const precompute: PrecomputeContext
    const precomputePass: PrecomputePasses.PrecomputePass
    const bakeAllocation: BakeAllocation
    const passQueue: seq<QueuedPass>
    const depthPass: QueuedPass
    const forwardPass: QueuedPass
    const envMapPass: QueuedPass
    const uiPass: QueuedPass
    const bloom: Blooms.Bloom
    const mergeShader: Shader
    var activeCamera: Option<Camera>

    /** The main framebuffer keeps the viewport's size; the queue holds the
        depth, forward and environment-map passes, in that order, and not
        the UI pass; the forward pass has its eight shaders and the
        environment-map pass its cube-map shader; the bloom chain is not
        empty. */
    ghost predicate Valid()
      reads this, framebuffer, framebuffer.buffer, forwardPass, envMapPass, bloom
    {
      && framebuffer.Valid()
      && framebuffer.buffer.width == viewportWidth && framebuffer.buffer.height == viewportHeight
      && passQueue == [depthPass, forwardPass, envMapPass]
      && depthPass != forwardPass && depthPass != envMapPass && forwardPass != envMapPass
      && uiPass !in passQueue
      && |forwardPass.shaders| == 8 && |envMapPass.shaders| >= 1
      && |bloom.mips| >= 1
    }

    /** What Render reads, gathered from the fields. The bloom is present
        when both its shaders were built. */
    function View(): FrameView
      requires Valid()
      reads this, framebuffer, framebuffer.buffer, framebuffer.colorbuffers, depthbuffer.buffer
      reads forwardPass, envMapPass, precompute, bloom
    {
      FrameView(
        framebuffer.buffer.id, framebuffer.buffer.width, framebuffer.buffer.height,
        viewportWidth, viewportHeight,
        framebuffer.GetTextureID0(), framebuffer.GetTextureID1(), depthbuffer.buffer.textureId,
        forwardPass.shaders, envMapPass.shaders[0], precompute.textures, config,
        if bloom.downsampleShader.Some? && bloom.upsampleShader.Some?
        then Some(BloomView(bloom.framebuffer, bloom.width, bloom.height,
                            bloom.downsampleShader.value, bloom.upsampleShader.value, bloom.mips))
        else Option.None,
        mergeShader)
    }

    /** Renderer(): the main framebuffer and the shadow depthbuffer as
        members, four capabilities on, the main framebuffer at the default
        viewport and the depthbuffer at 2048 by 2048, the default
        configuration, the precompute context, the bake, the passes, the
        bloom at 1920 by 1080 with five mips and the merge shader. The
        framebuffer completeness answer is `complete` throughout; the baked
        textures' names and the light icon's texture come from texture
        classes outside this model. Names are handed out in construction
        order, so the objects' names increase in that order. */
    constructor (dev: Device, cache: Shapes.ShapeCache, textures: PrecomputeTextures, lightIcon: Name, complete: bool)
      requires cache.Valid()
      modifies dev, cache
      ensures Valid() && cache.Valid()
      ensures viewportWidth == ViewportWidth && viewportHeight == ViewportHeight && activeCamera == Option.None
      ensures config == DefaultGraphicsConfig() && precompute.textures == textures
      ensures depthbuffer.buffer.width == ShadowResolution && depthbuffer.buffer.height == ShadowResolution
      ensures bakeAllocation == BakeAllocations(config.environmentMapResolution)
      ensures |precomputePass.base.shaders| == 4 && precomputePass.base.framebuffer == precompute.framebuffer
      ensures precomputePass.base.shaders[0] == precomputePass.base.shaders[3]
      ensures depthPass.kind == DepthPass && forwardPass.kind == ForwardPass && envMapPass.kind == EnvironmentMapPass
      ensures uiPass.kind == InterfacePass && |depthPass.shaders| == 2
      ensures forall q | q in passQueue :: q.running
      ensures depthPass.framebufferId == depthbuffer.buffer.id
      ensures forwardPass.framebufferId == framebuffer.buffer.id && envMapPass.framebufferId == framebuffer.buffer.id
      ensures bloom.width == ViewportWidth && bloom.height == ViewportHeight && |bloom.mips| == BloomMipChainLength
      ensures complete <==> bloom.downsampleShader.Some? && bloom.upsampleShader.Some?
      ensures framebuffer.buffer.id < depthbuffer.buffer.id < precompute.framebuffer.buffer.id
              < precomputePass.base.shaders[0].id < depthPass.shaders[0].id < forwardPass.shaders[0].id
              < envMapPass.shaders[0].id < bloom.framebuffer < mergeShader.id
    {
      var fb, db := BuildTargets(dev, complete);
      var cfg := DefaultGraphicsConfig();
      var ctx, pre, sizes := BuildBake(dev, cache, textures, cfg.environmentMapResolution, complete);
      var depth, forward, skybox, ui := BuildPasses(dev, db.buffer.id, fb.buffer, lightIcon, complete);
      var b, merge := BuildPostprocess(dev, complete);
      viewportWidth, viewportHeight := ViewportWidth, ViewportHeight;
      framebuffer, depthbuffer := fb, db;
      config := cfg;
      precompute, precomputePass, bakeAllocation := ctx, pre, sizes;
      passQueue := [depth, forward, skybox];
      depthPass, forwardPass, envMapPass, uiPass := depth, forward, skybox, ui;
      bloom, mergeShader := b, merge;
      activeCamera := Option.None;
    }

    /** Render, before the environment map and post-processing: the depth
        pass at the shadow resolution with front faces culled, then the main
        framebuffer bound, back faces culled, every forward shader lit and
        the forward pass. */
    method RenderShadowAndForward(dev: Device)
      requires Valid()
      modifies dev
      ensures dev.nextName == old(dev.nextName)
      ensures dev.trace == old(dev.trace) + DepthStage() + ForwardStage(View())
    {
      ShadowAndForward(dev, framebuffer.buffer, forwardPass.shaders, config.lightSetting.useEnvMap,
                       depthbuffer.buffer.textureId, precompute.textures);
    }

    /** The environment-map pass, with its shader given the environment cube
        map, when the configuration uses the environment map. */
    method RenderSkybox(dev: Device)
      requires Valid()
      modifies dev
      ensures dev.nextName == old(dev.nextName)
      ensures dev.trace == old(dev.trace) + SkyboxStage(View())
    {
      if config.lightSetting.useEnvMap {
        var cubemapShader := envMapPass.shaders[0];
        BindSkybox(dev, cubemapShader, precompute.textures.environmentMap);
        dev.Emit([RunPass(EnvironmentMapPass)]);
      }
    }

    /** The bloom from the bright-part texture and the merge into the main
        framebuffer at the viewport size, when post-processing is on. */
    method RenderPostprocess(dev: Device, cache: Shapes.ShapeCache)
      requires Valid() && cache.Valid() && Renderable(View())
      modifies dev, cache
      ensures cache.Valid() && dev.nextName == old(dev.nextName)
      ensures dev.trace == old(dev.trace) + PostStage(View())
    {
      ghost var v := View();
      var p := config.postprocessSetting;
      if p.enablePostprocess {
        assert v.bloom == Some(BloomView(bloom.framebuffer, bloom.width, bloom.height,
                                         bloom.downsampleShader.value, bloom.upsampleShader.value, bloom.mips));
        BloomAndMerge(dev, cache, bloom, p, framebuffer.GetTextureID0(), framebuffer.GetTextureID1(), mergeShader,
                      framebuffer.buffer.id, viewportWidth, viewportHeight);
      }
      assert dev.trace == old(dev.trace) + PostStage(v);
    }

    /** A frame's calls for the current view: depth, forward, skybox and
        post-processing stages, in that order. */
    method DrawFrame(dev: Device, cache: Shapes.ShapeCache)
      requires Valid() && cache.Valid() && Renderable(View())
      modifies dev, cache
      ensures cache.Valid() && dev.nextName == old(dev.nextName)
      ensures dev.trace == old(dev.trace) + FrameCalls(View())
    {
      ghost var t0 := dev.trace;
      RenderShadowAndForward(dev);
      RenderSkybox(dev);
      RenderPostprocess(dev, cache);
      RegroupFour(t0, DepthStage(), ForwardStage(View()), SkyboxStage(View()), PostStage(View()));
    }

    /** Render(camera): the camera becomes the active one and the frame's
        calls are issued. Post-processing needs the bloom's shaders, which
        an incomplete bloom framebuffer leaves unbuilt. */
    method Render(dev: Device, cache: Shapes.ShapeCache, camera: Camera)
      requires Valid() && cache.Valid()
      requires config.postprocessSetting.enablePostprocess ==> bloom.downsampleShader.Some? && bloom.upsampleShader.Some?
      modifies this, dev, cache
      ensures Valid() && cache.Valid() && activeCamera == Some(camera) && View() == old(View())
      ensures config == old(config) && viewportWidth == old(viewportWidth) && viewportHeight == old(viewportHeight)
      ensures Renderable(View()) && dev.nextName == old(dev.nextName)
      ensures dev.trace == old(dev.trace) + FrameCalls(View())
    {
      activeCamera := Some(camera);
      DrawFrame(dev, cache);
    }

    /** OnUIRender: the UI pass, which no frame runs. */
    method OnUIRender(dev: Device)
      modifies dev
      ensures dev.trace == old(dev.trace) + [RunPass(uiPass.kind)] && dev.nextName == old(dev.nextName)
    {
      dev.Emit([RunPass(uiPass.kind)]);
    }

    /** OnUpdate: the swap interval and the fill mode from the configuration. */
    method OnUpdate(dev: Device)
      modifies dev
      ensures dev.trace == old(dev.trace) + UpdateCalls(config) && dev.nextName == old(dev.nextName)
    {
      dev.Emit([SwapInterval(BoolInt(config.vsync))]);
      match config.polygonMode
      case Shaded => dev.Emit([PolygonMode(Fill)]);
      case WireFrame => dev.Emit([PolygonMode(Line)]);
    }

    /** OnResize(w, h): nothing at the current viewport size; otherwise the
        size is recorded and the main framebuffer, and only it, resized. */
    method OnResize(dev: Device, w: nat, h: nat, complete: bool)
      requires Valid()
      modifies this, framebuffer, framebuffer.buffer, framebuffer.colorbuffers, dev
      ensures Valid() && viewportWidth == w && viewportHeight == h
      ensures config == old(config) && activeCamera == old(activeCamera)
      ensures framebuffer.buffer.id == old(framebuffer.buffer.id)
      ensures w == old(viewportWidth) && h == old(viewportHeight) ==>
        unchanged(framebuffer, framebuffer.buffer, framebuffer.colorbuffers) && dev.trace == old(dev.trace)
      ensures !(w == old(viewportWidth) && h == old(viewportHeight)) ==>
        dev.trace == old(dev.trace) + HdrFramebuffers.HdrResizeCalls(framebuffer.buffer.id, old(framebuffer.colorbuffers[..]),
                                                                     old(framebuffer.depthAttachmentId), old(dev.nextName), w, h, complete)
    {
      if viewportWidth == w && viewportHeight == h {
        return;
      }
      viewportWidth, viewportHeight := w, h;
      framebuffer.OnResize(dev, w, h, complete);
    }

    /** OnAwake(value): every queued pass's running flag set to `value`; the
        UI pass, outside the queue, keeps its own. */
    method OnAwake(value: bool)
      requires Valid()
      modifies passQueue
      ensures Valid()
      ensures forall q | q in passQueue :: q.running == value && q.shaders == old(q.shaders) && q.framebufferId == old(q.framebufferId)
      ensures uiPass.running == old(uiPass.running)
    {
      for i := 0 to |passQueue|
        invariant forall k | 0 <= k < i :: passQueue[k].running == value
        invariant forall q | q in passQueue :: q.shaders == old(q.shaders) && q.framebufferId == old(q.framebufferId)
      {
        passQueue[i].Awake(value);
      }
    }

    /** The configuration as the editor changes it through GetGraphicsConfig. */
    method SetGraphicsConfig(c: GraphicsConfig)
      requires Valid()
      modifies this
      ensures Valid() && config == c
      ensures viewportWidth == old(viewportWidth) && viewportHeight == old(viewportHeight) && activeCamera == old(activeCamera)
    {
      config := c;
    }

    /** FramebufferImageID: the main framebuffer's colour texture 0, which is
        the scene texture a frame merges from. */
    function FramebufferImageID(): (r: Name)
      requires Valid()
      reads this, framebuffer, framebuffer.buffer, framebuffer.colorbuffers, depthbuffer.buffer
      reads forwardPass, envMapPass, precompute, bloom
      ensures r == View().scene
    {
      framebuffer.GetTextureID0()
    }

    /** GetShadersList: the forward pass's eight shaders, the list every
        frame lights. */
    function GetShadersList(): (r: seq<Shader>)
      requires Valid()
      reads this, framebuffer, framebuffer.buffer, framebuffer.colorbuffers, depthbuffer.buffer
      reads forwardPass, envMapPass, precompute, bloom
      ensures |r| == 8 && r == View().forward
    {
      forwardPass.shaders
    }
  }
}
