// ForwardPass.hpp and ForwardPass.cpp: the main scene pass. Bind gives every
// material shader the shadow map, the baked environment textures, the point
// lights and identity bone matrices; Render clears the target, draws the grid,
// then every mesh-renderer entity (the selected one twice, the first time
// writing the stencil), the light sphere and icons, and the selection outline.
module ForwardPasses {
  import opened Wrappers
  import opened LinearAlgebra
  import opened GL
  import opened Strings
  import opened Buffers
  import opened Framebuffers
  import opened Shaders
  import opened Meshes
  import opened Entities
  import opened Configs
  import opened Shapes
  import opened RenderPasses

  /** The point lights (lightPositions / lightColors) and the bone slots. */
  function LightCount(): nat { 4 }
  function BoneCount(): nat { 100 }

  /** How a uniform array element is spelled: `prefix + "[" + std::to_string(i) + "]"`.
      Element uploads are recorded by array and index; this lemma's
      injectivity is what makes the two descriptions equivalent. */
  function IndexedName(prefix: string, i: nat): string
  {
    prefix + "[" + NatToString(i) + "]"
  }

  /** Distinct indices name distinct elements of the same array. */
  lemma IndexedNameInjective(prefix: string, i: nat, j: nat)
    ensures IndexedName(prefix, i) == IndexedName(prefix, j) <==> i == j
  {
    if IndexedName(prefix, i) == IndexedName(prefix, j) {
      var a, b := IndexedName(prefix, i), IndexedName(prefix, j);
      assert a[|prefix| + 1 .. |a| - 1] == NatToString(i);
      assert b[|prefix| + 1 .. |b| - 1] == NatToString(j);
      NatToStringRoundTrip(i);
      NatToStringRoundTrip(j);
    }
  }

  // ------------------------------------------------------------ Bind

  /** The first `n` point lights: position then colour of each, in order.
      Both are float vectors. */
  function LightUniforms(sh: Shader, n: nat): seq<Event>
  {
    seq(2 * n, j requires 0 <= j < 2 * n =>
      SetUniformElement(sh.id, if j % 2 == 0 then "lightPositions" else "lightColors", j / 2, Opaque))
  }

  /** Bone slots 0 to n-1 each set to the identity matrix. */
  function BoneUniforms(sh: Shader, n: nat): seq<Event>
  {
    seq(n, i requires 0 <= i < n => SetUniformElement(sh.id, "boneTransform", i, MatrixValue(Identity())))
  }

  /** Two uploads per light, position then colour of light i at 2i and 2i+1. */
  lemma LightUniformsShape(sh: Shader, n: nat)
    ensures |LightUniforms(sh, n)| == 2 * n && Uploads(LightUniforms(sh, n))
    ensures forall i | 0 <= i < n ::
              LightUniforms(sh, n)[2 * i] == SetUniformElement(sh.id, "lightPositions", i, Opaque)
              && LightUniforms(sh, n)[2 * i + 1] == SetUniformElement(sh.id, "lightColors", i, Opaque)
  {
    var lights := LightUniforms(sh, n);
    forall e | e in lights
      ensures e.SetUniformElement?
    {
      var j :| 0 <= j < |lights| && lights[j] == e;
    }
    forall i | 0 <= i < n
      ensures lights[2 * i] == SetUniformElement(sh.id, "lightPositions", i, Opaque)
      ensures lights[2 * i + 1] == SetUniformElement(sh.id, "lightColors", i, Opaque)
    {
      assert (2 * i) % 2 == 0 && (2 * i) / 2 == i;
      assert (2 * i + 1) % 2 == 1 && (2 * i + 1) / 2 == i;
    }
  }

  lemma LightUniformsStep(sh: Shader, i: nat)
    ensures LightUniforms(sh, i + 1)
            == LightUniforms(sh, i) + [SetUniformElement(sh.id, "lightPositions", i, Opaque),
                                       SetUniformElement(sh.id, "lightColors", i, Opaque)]
  {
    var longer, shorter := LightUniforms(sh, i + 1), LightUniforms(sh, i);
    assert forall j | 0 <= j < 2 * i :: longer[j] == shorter[j];
  }

  /** The bone uploads set bones 0 to n-1, in order, each to the identity. */
  lemma BoneUniformsShape(sh: Shader, n: nat)
    ensures |BoneUniforms(sh, n)| == n && Uploads(BoneUniforms(sh, n))
    ensures forall i | 0 <= i < n :: BoneUniforms(sh, n)[i] == SetUniformElement(sh.id, "boneTransform", i, MatrixValue(Identity()))
  {
    var bones := BoneUniforms(sh, n);
    forall e | e in bones
      ensures e.SetUniformElement?
    {
      var i :| 0 <= i < |bones| && bones[i] == e;
    }
  }

  /** The four environment samplers: the shadow map on unit 15, the
      irradiance and prefilter cube maps on 14 and 13, the BRDF table on 12. */
  function EnvironmentSamplers(sh: Shader, depthMap: Name, t: PrecomputeTextures): seq<Event>
  {
    BindTextureCalls(sh, "DepthMap", depthMap, 15, Sampler2D)
    + BindTextureCalls(sh, "IrradianceMap", t.irradianceMap, 14, SamplerCubeMap)
    + BindTextureCalls(sh, "PrefilterMap", t.prefilterMap, 13, SamplerCubeMap)
    + BindTextureCalls(sh, "BRDF_LUT", t.brdfLut, 12, Sampler2D)
  }

  /** Units 15 to 12 hold the shadow map and the three baked textures. */
  predicate EnvironmentBound(units: map<nat, (TexTarget, Name)>, depthMap: Name, t: PrecomputeTextures)
  {
    15 in units && units[15] == (Texture2D, depthMap)
    && 14 in units && units[14] == (CubeMap, t.irradianceMap)
    && 13 in units && units[13] == (CubeMap, t.prefilterMap)
    && 12 in units && units[12] == (Texture2D, t.brdfLut)
  }

  lemma BindTextureCallsQuiet(sh: Shader, sampler: string, texture: Name, index: nat, t: SamplerType)
    ensures SetupOnly(BindTextureCalls(sh, sampler, texture, index, t))
    ensures SetUniform(sh.id, sampler, IntValue(index)) in BindTextureCalls(sh, sampler, texture, index, t)
  {
  }

  /** The environment samplers set each sampler to its unit, and neither
      draw, bind a framebuffer nor switch a capability. */
  lemma EnvironmentSamplersQuiet(sh: Shader, depthMap: Name, t: PrecomputeTextures)
    ensures SetupOnly(EnvironmentSamplers(sh, depthMap, t))
    ensures SetUniform(sh.id, "DepthMap", IntValue(15)) in EnvironmentSamplers(sh, depthMap, t)
    ensures SetUniform(sh.id, "IrradianceMap", IntValue(14)) in EnvironmentSamplers(sh, depthMap, t)
    ensures SetUniform(sh.id, "PrefilterMap", IntValue(13)) in EnvironmentSamplers(sh, depthMap, t)
    ensures SetUniform(sh.id, "BRDF_LUT", IntValue(12)) in EnvironmentSamplers(sh, depthMap, t)
  {
    var a := BindTextureCalls(sh, "DepthMap", depthMap, 15, Sampler2D);
    var b := BindTextureCalls(sh, "IrradianceMap", t.irradianceMap, 14, SamplerCubeMap);
    var c := BindTextureCalls(sh, "PrefilterMap", t.prefilterMap, 13, SamplerCubeMap);
    var d := BindTextureCalls(sh, "BRDF_LUT", t.brdfLut, 12, Sampler2D);
    BindTextureCallsQuiet(sh, "DepthMap", depthMap, 15, Sampler2D);
    BindTextureCallsQuiet(sh, "IrradianceMap", t.irradianceMap, 14, SamplerCubeMap);
    BindTextureCallsQuiet(sh, "PrefilterMap", t.prefilterMap, 13, SamplerCubeMap);
    BindTextureCallsQuiet(sh, "BRDF_LUT", t.brdfLut, 12, Sampler2D);
    SetupOnlyJoin(a, b);
    SetupOnlyJoin(a + b, c);
    SetupOnlyJoin(a + b + c, d);
  }

  /** The environment samplers bind units 15 to 12 and change no other unit. */
  lemma EnvironmentSamplersBind(s: State, sh: Shader, depthMap: Name, t: PrecomputeTextures)
    ensures Run(s, EnvironmentSamplers(sh, depthMap, t)).units
            == s.units[15 := (Texture2D, depthMap)][14 := (CubeMap, t.irradianceMap)]
                      [13 := (CubeMap, t.prefilterMap)][12 := (Texture2D, t.brdfLut)]
  {
    var a := BindTextureCalls(sh, "DepthMap", depthMap, 15, Sampler2D);
    var b := BindTextureCalls(sh, "IrradianceMap", t.irradianceMap, 14, SamplerCubeMap);
    var c := BindTextureCalls(sh, "PrefilterMap", t.prefilterMap, 13, SamplerCubeMap);
    var d := BindTextureCalls(sh, "BRDF_LUT", t.brdfLut, 12, Sampler2D);
    RunAppend(s, a + b + c, d);
    RunAppend(s, a + b, c);
    RunAppend(s, a, b);
    BindTextureBindsUnit(s, sh, "DepthMap", depthMap, 15, Sampler2D);
    BindTextureBindsUnit(Run(s, a), sh, "IrradianceMap", t.irradianceMap, 14, SamplerCubeMap);
    BindTextureBindsUnit(Run(s, a + b), sh, "PrefilterMap", t.prefilterMap, 13, SamplerCubeMap);
    BindTextureBindsUnit(Run(s, a + b + c), sh, "BRDF_LUT", t.brdfLut, 12, Sampler2D);
  }

  /** Hence units 15 to 12 hold the environment afterwards, and every other
      unit keeps its binding. */
  lemma EnvironmentSamplersKeepOthers(s: State, sh: Shader, depthMap: Name, t: PrecomputeTextures)
    ensures EnvironmentBound(Run(s, EnvironmentSamplers(sh, depthMap, t)).units, depthMap, t)
    ensures forall u | u in s.units && !(12 <= u <= 15) ::
              u in Run(s, EnvironmentSamplers(sh, depthMap, t)).units
              && Run(s, EnvironmentSamplers(sh, depthMap, t)).units[u] == s.units[u]
  {
    EnvironmentSamplersBind(s, sh, depthMap, t);
  }

  /** The calls Bind makes for one shader, ending with the program unbound. */
  function ShaderBindCalls(sh: Shader, useEnvMap: bool, depthMap: Name, t: PrecomputeTextures): seq<Event>
  {
    [UseProgram(sh.id), SetUniform(sh.id, "useEnvMap", IntValue(BoolInt(useEnvMap)))]
    + EnvironmentSamplers(sh, depthMap, t)
    + LightUniforms(sh, LightCount())
    + BoneUniforms(sh, BoneCount())
    + [UseProgram(0)]
  }

  /** One shader's bind only selects programs and textures and uploads
      uniforms: it neither draws, binds a framebuffer nor switches a capability. */
  lemma ShaderBindCallsQuiet(sh: Shader, useEnvMap: bool, depthMap: Name, t: PrecomputeTextures)
    ensures SetupOnly(ShaderBindCalls(sh, useEnvMap, depthMap, t))
  {
    var head := [UseProgram(sh.id), SetUniform(sh.id, "useEnvMap", IntValue(BoolInt(useEnvMap)))];
    var env := EnvironmentSamplers(sh, depthMap, t);
    var lights, bones := LightUniforms(sh, LightCount()), BoneUniforms(sh, BoneCount());
    LightUniformsShape(sh, LightCount());
    BoneUniformsShape(sh, BoneCount());
    EnvironmentSamplersQuiet(sh, depthMap, t);
    assert SetupOnly(head) && SetupOnly([UseProgram(0)]);
    SetupOnlyJoin(head, env);
    SetupOnlyJoin(head + env, lights);
    SetupOnlyJoin(head + env + lights, bones);
    SetupOnlyJoin(head + env + lights + bones, [UseProgram(0)]);
  }

  /** One shader's bind leaves units 15 to 12 holding the environment and
      no program current. */
  lemma ShaderBindCallsShape(s: State, sh: Shader, useEnvMap: bool, depthMap: Name, t: PrecomputeTextures)
    ensures EnvironmentBound(Run(s, ShaderBindCalls(sh, useEnvMap, depthMap, t)).units, depthMap, t)
    ensures Run(s, ShaderBindCalls(sh, useEnvMap, depthMap, t)).program == 0
  {
    var head := [UseProgram(sh.id), SetUniform(sh.id, "useEnvMap", IntValue(BoolInt(useEnvMap)))];
    var env := EnvironmentSamplers(sh, depthMap, t);
    LightUniformsShape(sh, LightCount());
    BoneUniformsShape(sh, BoneCount());
    RunUploadsThenUnbind(s, head + env, LightUniforms(sh, LightCount()), BoneUniforms(sh, BoneCount()));
    EnvironmentSamplersKeepOthers(Run(s, head), sh, depthMap, t);
    RunAppend(s, head, env);
  }

  lemma ShaderBindCallsContain(sh: Shader, useEnvMap: bool, depthMap: Name, t: PrecomputeTextures)
    ensures forall e | e in EnvironmentSamplers(sh, depthMap, t) :: e in ShaderBindCalls(sh, useEnvMap, depthMap, t)
  {
    var head := [UseProgram(sh.id), SetUniform(sh.id, "useEnvMap", IntValue(BoolInt(useEnvMap)))];
    assert ShaderBindCalls(sh, useEnvMap, depthMap, t)
        == head + EnvironmentSamplers(sh, depthMap, t) + (LightUniforms(sh, LightCount()) + BoneUniforms(sh, BoneCount()) + [UseProgram(0)]);
  }

  /** Bind's loop over the first `n` shaders of the list. */
  function ShadersBindCalls(shaders: seq<Shader>, useEnvMap: bool, depthMap: Name, t: PrecomputeTextures, n: nat): seq<Event>
    requires n <= |shaders|
  {
    if n == 0 then []
    else ShadersBindCalls(shaders, useEnvMap, depthMap, t, n - 1) + ShaderBindCalls(shaders[n - 1], useEnvMap, depthMap, t)
  }

  /** The calls set the shader's four environment samplers to units 15 to 12. */
  predicate SetsEnvironmentSamplers(es: seq<Event>, sh: Shader)
  {
    SetUniform(sh.id, "DepthMap", IntValue(15)) in es
    && SetUniform(sh.id, "IrradianceMap", IntValue(14)) in es
    && SetUniform(sh.id, "PrefilterMap", IntValue(13)) in es
    && SetUniform(sh.id, "BRDF_LUT", IntValue(12)) in es
  }

  lemma SetsEnvironmentSamplersExtend(a: seq<Event>, b: seq<Event>, sh: Shader)
    ensures SetsEnvironmentSamplers(a, sh) ==> SetsEnvironmentSamplers(a + b, sh)
    ensures SetsEnvironmentSamplers(b, sh) ==> SetsEnvironmentSamplers(a + b, sh)
  {
  }

  lemma SetsEnvironmentSamplersStep(all: seq<Event>, before: seq<Event>, last: seq<Event>, shaders: seq<Shader>, n: nat)
    requires 0 < n <= |shaders| && all == before + last
    requires forall k | 0 <= k < n - 1 :: SetsEnvironmentSamplers(before, shaders[k])
    requires SetsEnvironmentSamplers(last, shaders[n - 1])
    ensures forall k | 0 <= k < n :: SetsEnvironmentSamplers(all, shaders[k])
  {
    forall k | 0 <= k < n
      ensures SetsEnvironmentSamplers(all, shaders[k])
    {
      SetsEnvironmentSamplersExtend(before, last, shaders[k]);
    }
  }

  lemma ShaderBindSetsSamplers(sh: Shader, useEnvMap: bool, depthMap: Name, t: PrecomputeTextures)
    ensures SetsEnvironmentSamplers(ShaderBindCalls(sh, useEnvMap, depthMap, t), sh)
  {
    EnvironmentSamplersQuiet(sh, depthMap, t);
    ShaderBindCallsContain(sh, useEnvMap, depthMap, t);
  }

  /** The calls set the samplers of each of the first `n` shaders of the list. */
  predicate AllSetEnvironmentSamplers(es: seq<Event>, shaders: seq<Shader>, n: nat)
    requires n <= |shaders|
  {
    forall k | 0 <= k < n :: SetsEnvironmentSamplers(es, shaders[k])
  }

  /** One more shader: its own bind sets its samplers, the earlier ones
      stay set. */
  lemma ShadersBindSetsSamplersStep(shaders: seq<Shader>, useEnvMap: bool, depthMap: Name,
                                    t: PrecomputeTextures, n: nat)
    requires 0 < n <= |shaders|
    requires AllSetEnvironmentSamplers(ShadersBindCalls(shaders, useEnvMap, depthMap, t, n - 1), shaders, n - 1)
    ensures AllSetEnvironmentSamplers(ShadersBindCalls(shaders, useEnvMap, depthMap, t, n), shaders, n)
  {
    var before := ShadersBindCalls(shaders, useEnvMap, depthMap, t, n - 1);
    var last := ShaderBindCalls(shaders[n - 1], useEnvMap, depthMap, t);
    ShaderBindSetsSamplers(shaders[n - 1], useEnvMap, depthMap, t);
    SetsEnvironmentSamplersStep(ShadersBindCalls(shaders, useEnvMap, depthMap, t, n), before, last, shaders, n);
  }

  /** Every shader of the list gets its four samplers set to units 15 to 12. */
  lemma {:induction false} ShadersBindSetsSamplers(shaders: seq<Shader>, useEnvMap: bool, depthMap: Name,
                                                   t: PrecomputeTextures, n: nat)
    requires n <= |shaders|
    ensures AllSetEnvironmentSamplers(ShadersBindCalls(shaders, useEnvMap, depthMap, t, n), shaders, n)
  {
    if n > 0 {
      ShadersBindSetsSamplers(shaders, useEnvMap, depthMap, t, n - 1);
      ShadersBindSetsSamplersStep(shaders, useEnvMap, depthMap, t, n);
    } else {
      assert ShadersBindCalls(shaders, useEnvMap, depthMap, t, n) == [];
    }
  }

  /** Binding the shader list draws nothing, binds no framebuffer and
      switches no capability. */
  lemma {:induction false} ShadersBindQuiet(shaders: seq<Shader>, useEnvMap: bool, depthMap: Name,
                                            t: PrecomputeTextures, n: nat)
    requires n <= |shaders|
    ensures SetupOnly(ShadersBindCalls(shaders, useEnvMap, depthMap, t, n))
  {
    if n > 0 {
      ShadersBindQuiet(shaders, useEnvMap, depthMap, t, n - 1);
      ShaderBindCallsQuiet(shaders[n - 1], useEnvMap, depthMap, t);
      SetupOnlyJoin(ShadersBindCalls(shaders, useEnvMap, depthMap, t, n - 1), ShaderBindCalls(shaders[n - 1], useEnvMap, depthMap, t));
    }
  }

  /** Once any shader is bound, units 15 to 12 hold the environment. */
  lemma ShadersBindUnits(s: State, shaders: seq<Shader>, useEnvMap: bool, depthMap: Name, t: PrecomputeTextures, n: nat)
    requires 0 < n <= |shaders|
    ensures EnvironmentBound(Run(s, ShadersBindCalls(shaders, useEnvMap, depthMap, t, n)).units, depthMap, t)
  {
    var before := ShadersBindCalls(shaders, useEnvMap, depthMap, t, n - 1);
    ShaderBindCallsShape(Run(s, before), shaders[n - 1], useEnvMap, depthMap, t);
    RunAppend(s, before, ShaderBindCalls(shaders[n - 1], useEnvMap, depthMap, t));
  }

  /** The calls of ForwardRenderPass::Bind: the pass's framebuffer bound,
      back faces culled, then every shader of the list bound in order. */
  function ForwardBindCalls(fb: Name, w: nat, h: nat, shaders: seq<Shader>, useEnvMap: bool, depthMap: Name,
                            t: PrecomputeTextures): seq<Event>
  {
    BindCalls(fb, w, h) + [Event.CullFace(Back)] + ShadersBindCalls(shaders, useEnvMap, depthMap, t, |shaders|)
  }

  /** Bind leaves the pass's framebuffer bound, back faces culled, the
      capabilities as they were and, for a nonempty list, units 15 to 12
      holding the environment. */
  lemma ForwardBindState(s: State, fb: Name, w: nat, h: nat, shaders: seq<Shader>, useEnvMap: bool, depthMap: Name,
                         t: PrecomputeTextures)
    ensures Run(s, ForwardBindCalls(fb, w, h, shaders, useEnvMap, depthMap, t)).framebuffer == fb
    ensures Run(s, ForwardBindCalls(fb, w, h, shaders, useEnvMap, depthMap, t)).cullFace == Back
    ensures Run(s, ForwardBindCalls(fb, w, h, shaders, useEnvMap, depthMap, t)).enabled == s.enabled
    ensures |shaders| > 0 ==>
              EnvironmentBound(Run(s, ForwardBindCalls(fb, w, h, shaders, useEnvMap, depthMap, t)).units, depthMap, t)
  {
    var head := BindCalls(fb, w, h) + [Event.CullFace(Back)];
    var body := ShadersBindCalls(shaders, useEnvMap, depthMap, t, |shaders|);
    ShadersBindQuiet(shaders, useEnvMap, depthMap, t, |shaders|);
    if |shaders| > 0 {
      ShadersBindUnits(Run(s, head), shaders, useEnvMap, depthMap, t, |shaders|);
    }
    BindThenSetup(s, fb, w, h, Back, body);
  }

  /** The framebuffer bind and cull-face call, then setup calls. */
  lemma BindThenSetup(s: State, fb: Name, w: nat, h: nat, face: Face, body: seq<Event>)
    requires SetupOnly(body)
    ensures Run(s, BindCalls(fb, w, h) + [Event.CullFace(face)] + body)
            == Run(Run(s, BindCalls(fb, w, h) + [Event.CullFace(face)]), body)
    ensures Run(s, BindCalls(fb, w, h) + [Event.CullFace(face)] + body).framebuffer == fb
    ensures Run(s, BindCalls(fb, w, h) + [Event.CullFace(face)] + body).cullFace == face
    ensures Run(s, BindCalls(fb, w, h) + [Event.CullFace(face)] + body).enabled == s.enabled
  {
    var head := BindCalls(fb, w, h) + [Event.CullFace(face)];
    assert head == [BindFramebuffer(fb)] + [Viewport(w, h)] + [Event.CullFace(face)];
    RunLast(s, [BindFramebuffer(fb)] + [Viewport(w, h)], Event.CullFace(face));
    RunLast(s, [BindFramebuffer(fb)], Viewport(w, h));
    RunSingle(s, BindFramebuffer(fb));
    RunAppend(s, head, body);
    SetupOnlyRun(Run(s, head), body);
  }

  /** Bind draws nothing, binds no framebuffer but the pass's own, and sets
      every shader's environment samplers. */
  lemma ForwardBindQuiet(fb: Name, w: nat, h: nat, shaders: seq<Shader>, useEnvMap: bool, depthMap: Name,
                         t: PrecomputeTextures)
    ensures NoDraws(ForwardBindCalls(fb, w, h, shaders, useEnvMap, depthMap, t))
    ensures BindsOnly(ForwardBindCalls(fb, w, h, shaders, useEnvMap, depthMap, t), fb)
    ensures forall k | 0 <= k < |shaders| ::
              SetsEnvironmentSamplers(ForwardBindCalls(fb, w, h, shaders, useEnvMap, depthMap, t), shaders[k])
  {
    var head := BindCalls(fb, w, h) + [Event.CullFace(Back)];
    var body := ShadersBindCalls(shaders, useEnvMap, depthMap, t, |shaders|);
    ShadersBindQuiet(shaders, useEnvMap, depthMap, t, |shaders|);
    SetupOnlyQuiet(body);
    ShadersBindSetsSamplers(shaders, useEnvMap, depthMap, t, |shaders|);
    forall k | 0 <= k < |shaders|
      ensures SetsEnvironmentSamplers(head + body, shaders[k])
    {
      SetsEnvironmentSamplersExtend(head, body, shaders[k]);
    }
    assert NoDraws(head) && BindsOnly(head, fb);
    QuietRun(Initial, body, fb, 0);
    JoinConditions(head, body, fb, 0);
  }

  /** Bind's work for one shader. */
  method BindShader(dev: Device, sh: Shader, useEnvMap: bool, depthMap: Name, t: PrecomputeTextures)
    modifies dev
    ensures dev.trace == old(dev.trace) + ShaderBindCalls(sh, useEnvMap, depthMap, t)
    ensures dev.nextName == old(dev.nextName)
  {
    ghost var t0 := dev.trace;
    ghost var head := [UseProgram(sh.id), SetUniform(sh.id, "useEnvMap", IntValue(BoolInt(useEnvMap)))];
    Bind(dev, sh);
    SetUniformValue(dev, sh, "useEnvMap", IntValue(BoolInt(useEnvMap)));
    assert dev.trace == t0 + head;
    BindEnvironment(dev, sh, depthMap, t);
    UploadLights(dev, sh);
    UploadBones(dev, sh);
    Unbind(dev);
    Regroup(t0, head, EnvironmentSamplers(sh, depthMap, t), LightUniforms(sh, LightCount()),
            BoneUniforms(sh, BoneCount()), [UseProgram(0)]);
  }

  /** The four environment samplers, in Bind's order. */
  method BindEnvironment(dev: Device, sh: Shader, depthMap: Name, t: PrecomputeTextures)
    modifies dev
    ensures dev.trace == old(dev.trace) + EnvironmentSamplers(sh, depthMap, t)
    ensures dev.nextName == old(dev.nextName)
  {
    BindTextureTo(dev, sh, "DepthMap", depthMap, 15, Sampler2D);
    BindTextureTo(dev, sh, "IrradianceMap", t.irradianceMap, 14, SamplerCubeMap);
    BindTextureTo(dev, sh, "PrefilterMap", t.prefilterMap, 13, SamplerCubeMap);
    BindTextureTo(dev, sh, "BRDF_LUT", t.brdfLut, 12, Sampler2D);
  }

  /** Bind after the framebuffer: back faces culled, then every shader of the list. */
  method BindMaterials(dev: Device, shaders: seq<Shader>, useEnvMap: bool, depthMap: Name, t: PrecomputeTextures)
    modifies dev
    ensures dev.trace == old(dev.trace) + [Event.CullFace(Back)] + ShadersBindCalls(shaders, useEnvMap, depthMap, t, |shaders|)
    ensures dev.nextName == old(dev.nextName)
  {
    dev.Emit([Event.CullFace(Back)]);
    BindShaders(dev, shaders, useEnvMap, depthMap, t);
  }

  /** `for (i = 0; i < 4; ++i)`: each light's position, then its colour. */
  method UploadLights(dev: Device, sh: Shader)
    modifies dev
    ensures dev.trace == old(dev.trace) + LightUniforms(sh, LightCount())
    ensures dev.nextName == old(dev.nextName)
  {
    for i := 0 to LightCount()
      invariant dev.trace == old(dev.trace) + LightUniforms(sh, i)
      invariant dev.nextName == old(dev.nextName)
    {
      dev.Emit([SetUniformElement(sh.id, "lightPositions", i, Opaque), SetUniformElement(sh.id, "lightColors", i, Opaque)]);
      LightUniformsStep(sh, i);
    }
  }

  /** `for (i = 0; i < 100; ++i)`: each bone slot set to the identity. */
  method UploadBones(dev: Device, sh: Shader)
    modifies dev
    ensures dev.trace == old(dev.trace) + BoneUniforms(sh, BoneCount())
    ensures dev.nextName == old(dev.nextName)
  {
    for i := 0 to BoneCount()
      invariant dev.trace == old(dev.trace) + BoneUniforms(sh, i)
      invariant dev.nextName == old(dev.nextName)
    {
      dev.Emit([SetUniformElement(sh.id, "boneTransform", i, MatrixValue(Identity()))]);
      assert BoneUniforms(sh, i + 1) == BoneUniforms(sh, i) + [SetUniformElement(sh.id, "boneTransform", i, MatrixValue(Identity()))];
    }
  }

  /** Bind's loop over the shader list. */
  method BindShaders(dev: Device, shaders: seq<Shader>, useEnvMap: bool, depthMap: Name, t: PrecomputeTextures)
    modifies dev
    ensures dev.trace == old(dev.trace) + ShadersBindCalls(shaders, useEnvMap, depthMap, t, |shaders|)
    ensures dev.nextName == old(dev.nextName)
  {
    for i := 0 to |shaders|
      invariant dev.trace == old(dev.trace) + ShadersBindCalls(shaders, useEnvMap, depthMap, t, i)
      invariant dev.nextName == old(dev.nextName)
    {
      ghost var before := ShadersBindCalls(shaders, useEnvMap, depthMap, t, i);
      BindShader(dev, shaders[i], useEnvMap, depthMap, t);
      RegroupTwo(old(dev.trace), before, ShaderBindCalls(shaders[i], useEnvMap, depthMap, t));
    }
  }

  // ------------------------------------------------------------ Render

  /** What Render reads besides the scene: the camera, the shared context,
      the baked environment and the plain white texture every entity gets as
      its diffuse map. */
  datatype Frame = Frame(cam: Camera, ctx: GraphicsContext, env: PrecomputeTextures, white: Name)

  /** The pass's shaders: the material list, its own grid, outline and icon
      shaders, and the light icon's texture. */
  datatype PassShaders = PassShaders(materials: seq<Shader>, grid: Shader, outline: Shader, icon: Shader, lightIcon: Name)

  /** The pass's target: the framebuffer's name and size, and colour
      attachment 2, which receives entity ids. */
  datatype Target = Target(fb: Name, width: nat, height: nat, idTexture: Name)

  /** Target bound, colour, depth and stencil cleared, the id attachment
      filled with -1, stencil test off, face culling on. */
  function ClearCalls(target: Target): seq<Event>
  {
    [BindFramebuffer(target.fb), Clear(true, true, true), ClearTexImage(target.idTexture, -1),
     Disable(StencilTest), Enable(Capability.CullFace)]
  }

  /** The grid with the grid shader; RenderGird itself binds no program. */
  function GridCalls(grid: Shader, cam: Camera): seq<Event>
  {
    [UseProgram(grid.id)] + MatrixUniforms(grid, "view", "proj", cam) + [DrawElements(Lines, GridDrawLength), UseProgram(0)]
  }

  /** `entity == graphicsContext->activeEntity`, read as the same registry
      handle rather than as a comparison of liveness. */
  predicate IsActive(e: Entity, ctx: GraphicsContext)
  {
    ctx.activeEntity.Some? && ctx.activeEntity.value.id == e.id
  }

  /** The selected entity, when there is one, has the components the
      outline reads. */
  predicate ActiveDrawable(ctx: GraphicsContext)
  {
    ctx.activeEntity.Some? ==> Drawable(ctx.activeEntity.value)
  }

  /** Every entity's material index selects a shader of the list. */
  predicate MaterialsFit(view: seq<Entity>, count: nat)
  {
    forall k | 0 <= k < |view| :: view[k].renderer.Some? ==> view[k].renderer.value.materialIndex < count
  }

  /** The uniforms DrawEntity sets, in order. Vectors reach the shader as
      values this model does not follow. */
  function EntityUniforms(sh: Shader, e: Entity, f: Frame): seq<Event>
    requires Drawable(e)
  {
    var light := f.ctx.config.lightSetting;
    var pbr := f.ctx.config.pbrSetting;
    [SetUniform(sh.id, "entityID", IntValue(e.id)),
     SetUniform(sh.id, "lightDirection", Opaque), SetUniform(sh.id, "lightPosition", Opaque),
     SetUniform(sh.id, "lightIntensity", FloatValue(light.lightIntensity)), SetUniform(sh.id, "lightColor", Opaque),
     SetUniform(sh.id, "bloomThreshold", FloatValue(f.ctx.config.postprocessSetting.bloomThreshold)),
     SetUniform(sh.id, "viewPos", Opaque),
     SetUniform(sh.id, "model", ModelValue(e.transform.value))]
    + MatrixUniforms(sh, "view", "proj", f.cam)
    + [SetUniform(sh.id, "mvpLS", Opaque),
       SetUniform(sh.id, "baseF", FloatValue(pbr.baseF)), SetUniform(sh.id, "baseColor", Opaque),
       SetUniform(sh.id, "metallic", FloatValue(pbr.metallic)), SetUniform(sh.id, "roughness", FloatValue(pbr.roughness)),
       SetUniform(sh.id, "ao", FloatValue(pbr.ao)), SetUniform(sh.id, "kullaConty", IntValue(BoolInt(pbr.enableKullaConty)))]
  }

  /** DrawEntity: the shader bound, the uniforms, the white diffuse map on
      unit 0, every mesh, the shader unbound. */
  function DrawEntityCalls(sh: Shader, e: Entity, f: Frame): seq<Event>
    requires Drawable(e)
  {
    [UseProgram(sh.id)] + EntityUniforms(sh, e, f) + BindTextureCalls(sh, "DiffuseMap", f.white, 0, Sampler2D)
    + MeshCalls(sh, e.renderer.value.meshes) + [UseProgram(0)]
  }

  /** Stencil on, replace on depth pass, writes on, ALWAYS 1: what precedes
      the selected entity's first drawing. */
  const StencilWriteCalls: seq<Event> :=
    [Enable(StencilTest), StencilOp(Keep, Keep, Replace), StencilMask(0), StencilFunc(Always, 1, 0xFF), StencilMask(0xFF)]

  function MaterialShader(materials: seq<Shader>, e: Entity): Shader
    requires e.renderer.Some? && e.renderer.value.materialIndex < |materials|
  {
    materials[e.renderer.value.materialIndex]
  }

  /** One entity of the view: the selected one first with the stencil
      written and the test switched off after it, then every entity drawn
      normally. */
  function EntryCalls(materials: seq<Shader>, e: Entity, f: Frame): seq<Event>
    requires Drawable(e) && e.renderer.value.materialIndex < |materials|
  {
    var d := DrawEntityCalls(MaterialShader(materials, e), e, f);
    (if IsActive(e, f.ctx) then StencilWriteCalls + d + [Disable(StencilTest)] else []) + d
  }

  /** The first `n` entities of the view, in view order. */
  function ViewCalls(materials: seq<Shader>, view: seq<Entity>, f: Frame, n: nat): seq<Event>
    requires n <= |view| && AllDrawable(view) && MaterialsFit(view, |materials|)
  {
    if n == 0 then [] else ViewCalls(materials, view, f, n - 1) + EntryCalls(materials, view[n - 1], f)
  }

  /** The directional light's sphere, drawn with the light shader. */
  function SunCalls(sh: Shader, f: Frame): seq<Event>
  {
    [UseProgram(sh.id), SetUniform(sh.id, "lightDirection", Opaque), SetUniform(sh.id, "lightPosition", Opaque),
     SetUniform(sh.id, "lightIntensity", FloatValue(f.ctx.config.lightSetting.lightIntensity)),
     SetUniform(sh.id, "lightColor", Opaque), SetUniform(sh.id, "viewPos", Opaque), SetUniform(sh.id, "model", Opaque)]
    + MatrixUniforms(sh, "view", "proj", f.cam)
    + [UseProgram(sh.id), DrawElements(TriangleStrip, SphereIndexCount), UseProgram(0)]
  }

  /** One point light's icon: a textured quad. */
  function IconCalls(icon: Shader, texture: Name, cam: Camera): seq<Event>
  {
    [SetUniform(icon.id, "model", Opaque)] + MatrixUniforms(icon, "view", "proj", cam)
    + BindTextureCalls(icon, "albedo", texture, 0, Sampler2D) + [UseProgram(icon.id), DrawArrays(TriangleStrip, QuadVertexCount)]
  }

  function IconsCalls(icon: Shader, texture: Name, cam: Camera, n: nat): seq<Event>
  {
    if n == 0 then [] else IconsCalls(icon, texture, cam, n - 1) + IconCalls(icon, texture, cam)
  }

  /** RenderLight: culling off and alpha blending on, the sun with material
      shader 3, the icon shader bound and one icon per point light, then
      blending off and culling on. The icon shader stays bound. */
  function LightCalls(fs: PassShaders, f: Frame): seq<Event>
    requires |fs.materials| > 3
  {
    [Disable(Capability.CullFace), Enable(Blend), BlendFunc(SrcAlpha, OneMinusSrcAlpha)]
    + SunCalls(fs.materials[3], f)
    + [UseProgram(fs.icon.id)] + IconsCalls(fs.icon, fs.lightIcon, f.cam, LightCount())
    + [Disable(Blend), Enable(Capability.CullFace)]
  }

  /** RenderOutline scales a copy of the transform by 1.01. */
  function OutlineTransform(t: Transform): Transform
  {
    t.(scale := Scale(t.scale, 1.01))
  }

  /** The outline shader's uniforms and the entity's meshes, with the given
      model transform. */
  function OutlineDrawCalls(outline: Shader, e: Entity, t: Transform, cam: Camera): seq<Event>
    requires e.renderer.Some?
  {
    [SetUniform(outline.id, "entityID", IntValue(e.id)), SetUniform(outline.id, "model", ModelValue(t))]
    + MatrixUniforms(outline, "view", "proj", cam) + MeshCalls(outline, e.renderer.value.meshes)
  }

  /** RenderOutline: nothing without a selected entity; otherwise its meshes
      where the stencil is not 1, writing no stencil, then the mask restored
      and the test switched off. */
  function OutlineCalls(outline: Shader, f: Frame): seq<Event>
    requires ActiveDrawable(f.ctx)
  {
    if f.ctx.activeEntity.None? then []
    else
      var e := f.ctx.activeEntity.value;
      [Enable(StencilTest), StencilFunc(NotEqual, 1, 0xFF), StencilMask(0), UseProgram(outline.id)]
      + OutlineDrawCalls(outline, e, OutlineTransform(e.transform.value), f.cam)
      + [UseProgram(0), StencilMask(0xFF), Disable(StencilTest)]
  }

  /** What follows the entities: the lights, the outline, culling off. */
  function AfterViewCalls(fs: PassShaders, f: Frame): seq<Event>
    requires |fs.materials| > 3 && ActiveDrawable(f.ctx)
  {
    LightCalls(fs, f) + OutlineCalls(fs.outline, f) + [Disable(Capability.CullFace)]
  }

  /** Everything Render does after Bind. */
  function SceneCalls(target: Target, fs: PassShaders, f: Frame, view: seq<Entity>): seq<Event>
    requires |fs.materials| > 3 && AllDrawable(view) && MaterialsFit(view, |fs.materials|) && ActiveDrawable(f.ctx)
  {
    ClearCalls(target) + GridCalls(fs.grid, f.cam) + ViewCalls(fs.materials, view, f, |view|) + AfterViewCalls(fs, f)
  }

  /** ForwardRenderPass::Render, whole. */
  function ForwardPassCalls(target: Target, fs: PassShaders, f: Frame, view: seq<Entity>): seq<Event>
    requires |fs.materials| > 3 && AllDrawable(view) && MaterialsFit(view, |fs.materials|) && ActiveDrawable(f.ctx)
  {
    ForwardBindCalls(target.fb, target.width, target.height, fs.materials, f.ctx.config.lightSetting.useEnvMap,
                     f.ctx.depthMapLS, f.env)
    + SceneCalls(target, fs, f, view)
  }

  // ------------------------------------------------------------ one entity

  /** The uniforms are plain uploads naming the entity's id and transform. */
  lemma EntityUniformsShape(sh: Shader, e: Entity, f: Frame)
    requires Drawable(e)
    ensures Uploads(EntityUniforms(sh, e, f))
    ensures SetUniform(sh.id, "entityID", IntValue(e.id)) in EntityUniforms(sh, e, f)
    ensures SetUniform(sh.id, "model", ModelValue(e.transform.value)) in EntityUniforms(sh, e, f)
  {
    assert EntityUniforms(sh, e, f)[0] == SetUniform(sh.id, "entityID", IntValue(e.id));
    assert EntityUniforms(sh, e, f)[7] == SetUniform(sh.id, "model", ModelValue(e.transform.value));
  }

  /** Calls that touch neither the capabilities, the stencil settings nor
      the framebuffer binding. */
  predicate Plain(es: seq<Event>)
  {
    forall x | x in es :: KeepsStencil(x) && !x.BindFramebuffer?
  }

  lemma PlainJoin(a: seq<Event>, b: seq<Event>)
    ensures Plain(a) && Plain(b) ==> Plain(a + b)
  {
  }

  lemma SetupOnlyPlain(es: seq<Event>)
    requires SetupOnly(es)
    ensures Plain(es) && NoDraws(es)
  {
  }

  lemma UploadsPlain(es: seq<Event>)
    requires Uploads(es)
    ensures Plain(es) && NoDraws(es) && SetupOnly(es)
  {
  }

  /** DrawEntity draws once per mesh of the entity, touches neither the
      capabilities, the stencil settings nor the framebuffer, and tells the
      shader the entity's id. */
  lemma DrawEntityCallsShape(sh: Shader, e: Entity, f: Frame)
    requires Drawable(e)
    ensures DrawCount(DrawEntityCalls(sh, e, f)) == |e.renderer.value.meshes|
    ensures Plain(DrawEntityCalls(sh, e, f))
    ensures SetUniform(sh.id, "entityID", IntValue(e.id)) in DrawEntityCalls(sh, e, f)
  {
    var u := EntityUniforms(sh, e, f);
    var b := BindTextureCalls(sh, "DiffuseMap", f.white, 0, Sampler2D);
    var m := MeshCalls(sh, e.renderer.value.meshes);
    EntityUniformsShape(sh, e, f);
    MeshCallsShape(sh, e.renderer.value.meshes);
    UploadsPlain(u);
    BindTextureCallsQuiet(sh, "DiffuseMap", f.white, 0, Sampler2D);
    SetupOnlyPlain(b);
    var head := [UseProgram(sh.id)];
    var tail := [UseProgram(0)];
    assert Plain(head) && NoDraws(head) && Plain(tail) && NoDraws(tail);
    assert Plain(m);
    JoinConditions(head, u, 0, 0);
    JoinConditions(head + u, b, 0, 0);
    PlainJoin(head, u);
    PlainJoin(head + u, b);
    PlainJoin(head + u + b, m);
    PlainJoin(head + u + b + m, tail);
    NoDrawCount(head + u + b);
    NoDrawCount(tail);
    DrawCountAppend(head + u + b, m);
    DrawCountAppend(head + u + b + m, tail);
    assert u[0] in head + u + b + m + tail;
  }

  /** Every draw of DrawEntity uses the entity's shader. */
  lemma DrawEntityUses(s: State, sh: Shader, e: Entity, f: Frame)
    requires Drawable(e)
    ensures DrawsUsing(s, DrawEntityCalls(sh, e, f), sh.id)
  {
    var u := EntityUniforms(sh, e, f);
    var b := BindTextureCalls(sh, "DiffuseMap", f.white, 0, Sampler2D);
    var m := MeshCalls(sh, e.renderer.value.meshes);
    EntityUniformsShape(sh, e, f);
    MeshCallsShape(sh, e.renderer.value.meshes);
    var body := u + b + m;
    assert UsesOnly(body, sh.id);
    DrawsUsingAfterUse(s, [], sh.id, body);
    assert [] + [UseProgram(sh.id)] + body == [UseProgram(sh.id)] + u + b + m;
    assert NoDraws([UseProgram(0)]);
    ThenNoDraws(s, [] + [UseProgram(sh.id)] + body, [UseProgram(0)], 0, sh.id);
  }

  /** The stencil-writing preamble. */
  lemma StencilWriteRun(s: State)
    ensures Run(s, StencilWriteCalls)
            == s.(enabled := s.enabled + {StencilTest}, stencilFunc := (Always, 1, 0xFF), stencilMask := 0xFF)
  {
    RunFive(s, Enable(StencilTest), StencilOp(Keep, Keep, Replace), StencilMask(0), StencilFunc(Always, 1, 0xFF), StencilMask(0xFF));
    StencilSetupSteps(s, StencilOp(Keep, Keep, Replace), 0, Always, 1, 0xFF, 0xFF);
  }

  /** After the preamble the stencil test is on and writes 1, and nothing
      else that matters here has changed. */
  lemma StencilWriteEffect(s: State)
    ensures Run(s, StencilWriteCalls).enabled == s.enabled + {StencilTest}
    ensures Run(s, StencilWriteCalls).framebuffer == s.framebuffer
    ensures StencilHolds(Run(s, StencilWriteCalls), StencilWriting(1))
  {
    StencilWriteRun(s);
  }

  /** The selected entity's entry up to its second drawing, for any
      preamble `w` that switches the test on to write 1: the first drawing
      writes stencil value 1 wherever it draws, and afterwards the test is
      off again with the capabilities and framebuffer as before. */
  lemma ActiveFirstDrawing(s: State, w: seq<Event>, d: seq<Event>)
    requires StencilTest !in s.enabled
    requires Run(s, w).enabled == s.enabled + {StencilTest} && Run(s, w).framebuffer == s.framebuffer
    requires StencilHolds(Run(s, w), StencilWriting(1))
    requires Plain(d)
    ensures DrawsUnder(Run(s, w), d, StencilWriting(1))
    ensures Run(s, w + d + [Disable(StencilTest)]).enabled == s.enabled
    ensures Run(s, w + d + [Disable(StencilTest)]).framebuffer == s.framebuffer
  {
    var s1 := Run(s, w);
    StencilKept(s1, d, StencilWriting(1));
    RunKeepsCapabilities(s1, d) by { forall x | x in d ensures KeepsCapabilities(x) { } }
    RunKeepsFramebuffer(s1, d) by { forall x | x in d ensures KeepsFramebuffer(x) { } }
    RunAppend(s, w, d);
    RunLast(s, w + d, Disable(StencilTest));
  }

  /** Calls that keep the stencil settings and bind no framebuffer, from a
      state with the test off: their draws run with the test off, and the
      capabilities and framebuffer stay. */
  lemma PlainDrawing(s: State, d: seq<Event>)
    requires StencilTest !in s.enabled
    requires Plain(d)
    ensures DrawsUnder(s, d, StencilOff)
    ensures Run(s, d).enabled == s.enabled && Run(s, d).framebuffer == s.framebuffer
  {
    StencilKept(s, d, StencilOff);
    RunKeepsCapabilities(s, d) by { forall x | x in d ensures KeepsCapabilities(x) { } }
    RunKeepsFramebuffer(s, d) by { forall x | x in d ensures KeepsFramebuffer(x) { } }
  }

  /** One view entry, from a state with the stencil test off: the selected
      entity's first drawing writes stencil value 1 everywhere it draws, its
      second drawing and every other entity's drawing run with the test off,
      and the entry leaves the capabilities and framebuffer as it found them. */
  lemma EntryStencil(s: State, d: seq<Event>, active: bool)
    requires StencilTest !in s.enabled
    requires Plain(d)
    ensures active ==> DrawsUnder(Run(s, StencilWriteCalls), d, StencilWriting(1))
    ensures active ==> DrawsUnder(Run(s, StencilWriteCalls + d + [Disable(StencilTest)]), d, StencilOff)
    ensures !active ==> DrawsUnder(s, d, StencilOff)
    ensures Run(s, (if active then StencilWriteCalls + d + [Disable(StencilTest)] else []) + d).enabled == s.enabled
    ensures Run(s, (if active then StencilWriteCalls + d + [Disable(StencilTest)] else []) + d).framebuffer == s.framebuffer
  {
    var pre := if active then StencilWriteCalls + d + [Disable(StencilTest)] else [];
    if active {
      StencilWriteEffect(s);
      ActiveFirstDrawing(s, StencilWriteCalls, d);
    }
    assert Run(s, pre).enabled == s.enabled && Run(s, pre).framebuffer == s.framebuffer;
    PlainDrawing(Run(s, pre), d);
    RunAppend(s, pre, d);
  }

  /** The selected entity is drawn twice, every other entity once. */
  lemma EntryCount(d: seq<Event>, active: bool)
    ensures DrawCount((if active then StencilWriteCalls + d + [Disable(StencilTest)] else []) + d)
            == (if active then 2 else 1) * DrawCount(d)
  {
    var pre := if active then StencilWriteCalls + d + [Disable(StencilTest)] else [];
    if active {
      assert NoDraws(StencilWriteCalls) && NoDraws([Disable(StencilTest)]);
      NoDrawCount(StencilWriteCalls);
      NoDrawCount([Disable(StencilTest)]);
      DrawCountAppend(StencilWriteCalls, d);
      DrawCountAppend(StencilWriteCalls + d, [Disable(StencilTest)]);
    } else {
      assert pre + d == d;
    }
    DrawCountAppend(pre, d);
  }

  /** An entry binds no framebuffer. */
  lemma EntryBindsNothing(d: seq<Event>, active: bool)
    requires Plain(d)
    ensures forall x | x in (if active then StencilWriteCalls + d + [Disable(StencilTest)] else []) + d :: !x.BindFramebuffer?
  {
  }

  /** One entry draws the entity's meshes once, or twice for the selected
      entity, and binds no framebuffer. */
  lemma EntryCallsShape(materials: seq<Shader>, e: Entity, f: Frame)
    requires Drawable(e) && e.renderer.value.materialIndex < |materials|
    ensures DrawCount(EntryCalls(materials, e, f)) == (if IsActive(e, f.ctx) then 2 else 1) * |e.renderer.value.meshes|
    ensures forall x | x in EntryCalls(materials, e, f) :: !x.BindFramebuffer?
  {
    var d := DrawEntityCalls(MaterialShader(materials, e), e, f);
    DrawEntityCallsShape(MaterialShader(materials, e), e, f);
    EntryCount(d, IsActive(e, f.ctx));
    EntryBindsNothing(d, IsActive(e, f.ctx));
  }

  /** From a state with the stencil test off, one entry leaves the
      capabilities and the framebuffer as it found them. */
  lemma EntryCallsKeep(s: State, materials: seq<Shader>, e: Entity, f: Frame)
    requires Drawable(e) && e.renderer.value.materialIndex < |materials|
    requires StencilTest !in s.enabled
    ensures Run(s, EntryCalls(materials, e, f)).enabled == s.enabled
    ensures Run(s, EntryCalls(materials, e, f)).framebuffer == s.framebuffer
  {
    DrawEntityCallsShape(MaterialShader(materials, e), e, f);
    EntryStencil(s, DrawEntityCalls(MaterialShader(materials, e), e, f), IsActive(e, f.ctx));
  }

  /** How many draws the entity loop makes over the first `n` entities. */
  function ViewDrawTotal(view: seq<Entity>, ctx: GraphicsContext, n: nat): nat
    requires n <= |view| && AllDrawable(view)
  {
    if n == 0 then 0
    else ViewDrawTotal(view, ctx, n - 1) + (if IsActive(view[n - 1], ctx) then 2 else 1) * |view[n - 1].renderer.value.meshes|
  }

  /** Each entity's meshes are drawn once, the selected entity's twice. */
  lemma {:induction false} ViewCallsCount(materials: seq<Shader>, view: seq<Entity>, f: Frame, n: nat)
    requires n <= |view| && AllDrawable(view) && MaterialsFit(view, |materials|)
    ensures DrawCount(ViewCalls(materials, view, f, n)) == ViewDrawTotal(view, f.ctx, n)
  {
    if n > 0 {
      ViewCallsCount(materials, view, f, n - 1);
      EntryCallsShape(materials, view[n - 1], f);
      DrawCountAppend(ViewCalls(materials, view, f, n - 1), EntryCalls(materials, view[n - 1], f));
    }
  }

  /** The entity loop binds no framebuffer. */
  lemma {:induction false} ViewCallsBindNothing(materials: seq<Shader>, view: seq<Entity>, f: Frame, n: nat)
    requires n <= |view| && AllDrawable(view) && MaterialsFit(view, |materials|)
    ensures forall x | x in ViewCalls(materials, view, f, n) :: !x.BindFramebuffer?
  {
    if n > 0 {
      ViewCallsBindNothing(materials, view, f, n - 1);
      EntryCallsShape(materials, view[n - 1], f);
    }
  }

  /** From a state with the stencil test off, the entity loop leaves the
      capabilities and the framebuffer as it found them. */
  lemma {:induction false} ViewCallsKeep(s: State, materials: seq<Shader>, view: seq<Entity>, f: Frame, n: nat)
    requires n <= |view| && AllDrawable(view) && MaterialsFit(view, |materials|)
    requires StencilTest !in s.enabled
    ensures Run(s, ViewCalls(materials, view, f, n)).enabled == s.enabled
    ensures Run(s, ViewCalls(materials, view, f, n)).framebuffer == s.framebuffer
  {
    if n > 0 {
      var before := ViewCalls(materials, view, f, n - 1);
      ViewCallsKeep(s, materials, view, f, n - 1);
      EntryCallsKeep(Run(s, before), materials, view[n - 1], f);
      RunAppend(s, before, EntryCalls(materials, view[n - 1], f));
    }
  }

  /** Entity `k` of the view, drawn from the state the loop reaches: if it
      is the selected entity, its first drawing writes stencil value 1 and
      its second runs with the test off; any other entity is drawn with the
      test off. Its shader is its material's, told the entity's id. */
  lemma ViewEntryStencil(s: State, materials: seq<Shader>, view: seq<Entity>, f: Frame, k: nat)
    requires k < |view| && AllDrawable(view) && MaterialsFit(view, |materials|)
    requires StencilTest !in s.enabled
    ensures ViewCalls(materials, view, f, k + 1) == ViewCalls(materials, view, f, k) + EntryCalls(materials, view[k], f)
    ensures var sk := Run(s, ViewCalls(materials, view, f, k));
            var d := DrawEntityCalls(MaterialShader(materials, view[k]), view[k], f);
            && (IsActive(view[k], f.ctx) ==> DrawsUnder(Run(sk, StencilWriteCalls), d, StencilWriting(1)))
            && (IsActive(view[k], f.ctx) ==>
                  DrawsUnder(Run(sk, StencilWriteCalls + d + [Disable(StencilTest)]), d, StencilOff))
            && (!IsActive(view[k], f.ctx) ==> DrawsUnder(sk, d, StencilOff))
            && DrawsUsing(sk, d, MaterialShader(materials, view[k]).id)
            && SetUniform(MaterialShader(materials, view[k]).id, "entityID", IntValue(view[k].id)) in d
  {
    var e := view[k];
    var sk := Run(s, ViewCalls(materials, view, f, k));
    ViewCallsKeep(s, materials, view, f, k);
    DrawEntityCallsShape(MaterialShader(materials, e), e, f);
    DrawEntityUses(sk, MaterialShader(materials, e), e, f);
    EntryStencil(sk, DrawEntityCalls(MaterialShader(materials, e), e, f), IsActive(e, f.ctx));
  }

  // ------------------------------------------------------------ lights and outline

  /** Calls that only select programs and textures, upload and draw. */
  predicate PipelineOnly(es: seq<Event>)
  {
    forall x | x in es :: KeepsPipeline(x)
  }

  lemma PipelineOnlyJoin(a: seq<Event>, b: seq<Event>)
    ensures PipelineOnly(a) && PipelineOnly(b) ==> PipelineOnly(a + b)
  {
  }

  /** One icon: a single draw, pipeline calls only. */
  lemma IconCallsShape(icon: Shader, texture: Name, cam: Camera)
    ensures DrawCount(IconCalls(icon, texture, cam)) == 1
    ensures PipelineOnly(IconCalls(icon, texture, cam))
  {
    var pre := [SetUniform(icon.id, "model", Opaque)] + MatrixUniforms(icon, "view", "proj", cam)
               + BindTextureCalls(icon, "albedo", texture, 0, Sampler2D) + [UseProgram(icon.id)];
    assert NoDraws(pre);
    NoDrawCount(pre);
    assert IconCalls(icon, texture, cam) == pre + [DrawArrays(TriangleStrip, QuadVertexCount)];
    DrawCountAppend(pre, [DrawArrays(TriangleStrip, QuadVertexCount)]);
    assert [DrawArrays(TriangleStrip, QuadVertexCount)][..0] == [];
  }

  /** `n` icons make `n` draws. */
  lemma {:induction false} IconsCallsShape(icon: Shader, texture: Name, cam: Camera, n: nat)
    ensures DrawCount(IconsCalls(icon, texture, cam, n)) == n
    ensures PipelineOnly(IconsCalls(icon, texture, cam, n))
  {
    if n > 0 {
      IconsCallsShape(icon, texture, cam, n - 1);
      IconCallsShape(icon, texture, cam);
      DrawCountAppend(IconsCalls(icon, texture, cam, n - 1), IconCalls(icon, texture, cam));
      PipelineOnlyJoin(IconsCalls(icon, texture, cam, n - 1), IconCalls(icon, texture, cam));
    }
  }

  /** The sun: a single draw, pipeline calls only. */
  lemma SunCallsShape(sh: Shader, f: Frame)
    ensures DrawCount(SunCalls(sh, f)) == 1
    ensures PipelineOnly(SunCalls(sh, f))
  {
    var pre := [UseProgram(sh.id), SetUniform(sh.id, "lightDirection", Opaque), SetUniform(sh.id, "lightPosition", Opaque),
                SetUniform(sh.id, "lightIntensity", FloatValue(f.ctx.config.lightSetting.lightIntensity)),
                SetUniform(sh.id, "lightColor", Opaque), SetUniform(sh.id, "viewPos", Opaque), SetUniform(sh.id, "model", Opaque)]
               + MatrixUniforms(sh, "view", "proj", f.cam) + [UseProgram(sh.id)];
    assert NoDraws(pre);
    NoDrawCount(pre);
    assert SunCalls(sh, f) == pre + [DrawElements(TriangleStrip, SphereIndexCount)] + [UseProgram(0)];
    DrawCountAppend(pre, [DrawElements(TriangleStrip, SphereIndexCount)]);
    assert [DrawElements(TriangleStrip, SphereIndexCount)][..0] == [];
    assert NoDraws([UseProgram(0)]);
    NoDrawCount([UseProgram(0)]);
    DrawCountAppend(pre + [DrawElements(TriangleStrip, SphereIndexCount)], [UseProgram(0)]);
  }

  /** What the lights draw between switching blending on and off. */
  function LightBody(fs: PassShaders, f: Frame): seq<Event>
    requires |fs.materials| > 3
  {
    SunCalls(fs.materials[3], f) + [UseProgram(fs.icon.id)] + IconsCalls(fs.icon, fs.lightIcon, f.cam, LightCount())
  }

  lemma LightBodyShape(fs: PassShaders, f: Frame)
    requires |fs.materials| > 3
    ensures DrawCount(LightBody(fs, f)) == 1 + LightCount()
    ensures PipelineOnly(LightBody(fs, f))
    ensures LightCalls(fs, f)
            == [Disable(Capability.CullFace), Enable(Blend), BlendFunc(SrcAlpha, OneMinusSrcAlpha)] + LightBody(fs, f)
               + [Disable(Blend), Enable(Capability.CullFace)]
  {
    var sun := SunCalls(fs.materials[3], f);
    var icons := IconsCalls(fs.icon, fs.lightIcon, f.cam, LightCount());
    SunCallsShape(fs.materials[3], f);
    IconsCallsShape(fs.icon, fs.lightIcon, f.cam, LightCount());
    assert NoDraws([UseProgram(fs.icon.id)]) && PipelineOnly([UseProgram(fs.icon.id)]);
    NoDrawCount([UseProgram(fs.icon.id)]);
    DrawCountAppend(sun, [UseProgram(fs.icon.id)]);
    DrawCountAppend(sun + [UseProgram(fs.icon.id)], icons);
    PipelineOnlyJoin(sun, [UseProgram(fs.icon.id)]);
    PipelineOnlyJoin(sun + [UseProgram(fs.icon.id)], icons);
  }

  /** Blending switched on around pipeline calls, with culling off: at the
      end blending is off again, culling on, and the blend function is alpha
      blending; the framebuffer stays. */
  lemma BlendedEffect(s: State, body: seq<Event>)
    requires PipelineOnly(body)
    ensures var r := Run(s, [Disable(Capability.CullFace), Enable(Blend), BlendFunc(SrcAlpha, OneMinusSrcAlpha)] + body
                            + [Disable(Blend), Enable(Capability.CullFace)]);
            r.enabled == s.enabled - {Blend} + {Capability.CullFace} && r.blend == (SrcAlpha, OneMinusSrcAlpha)
            && r.framebuffer == s.framebuffer
  {
    var head := [Disable(Capability.CullFace), Enable(Blend), BlendFunc(SrcAlpha, OneMinusSrcAlpha)];
    var tail := [Disable(Blend), Enable(Capability.CullFace)];
    RunThree(s, Disable(Capability.CullFace), Enable(Blend), BlendFunc(SrcAlpha, OneMinusSrcAlpha));
    BlendSetupSteps(s, SrcAlpha, OneMinusSrcAlpha);
    var s1 := Run(s, head);
    KeepsPipelineRun(s1, body);
    var s2 := Run(s1, body);
    RunTwo(s2, Disable(Blend), Enable(Capability.CullFace));
    BlendTeardownSteps(s2);
    RunAppend(s, head, body);
    RunAppend(s, head + body, tail);
  }

  /** RenderLight draws the sun and one icon per point light, binds no
      framebuffer, and leaves blending off, culling on and alpha blending
      as the blend function. */
  lemma LightCallsShape(s: State, fs: PassShaders, f: Frame)
    requires |fs.materials| > 3
    ensures DrawCount(LightCalls(fs, f)) == 1 + LightCount()
    ensures forall x | x in LightCalls(fs, f) :: !x.BindFramebuffer?
    ensures Run(s, LightCalls(fs, f)).enabled == s.enabled - {Blend} + {Capability.CullFace}
    ensures Run(s, LightCalls(fs, f)).blend == (SrcAlpha, OneMinusSrcAlpha)
    ensures Run(s, LightCalls(fs, f)).framebuffer == s.framebuffer
  {
    var head := [Disable(Capability.CullFace), Enable(Blend), BlendFunc(SrcAlpha, OneMinusSrcAlpha)];
    var tail := [Disable(Blend), Enable(Capability.CullFace)];
    var body := LightBody(fs, f);
    LightBodyShape(fs, f);
    BlendedEffect(s, body);
    assert NoDraws(head) && NoDraws(tail);
    NoDrawCount(head);
    NoDrawCount(tail);
    DrawCountAppend(head, body);
    DrawCountAppend(head + body, tail);
  }

  /** The selected entity's meshes, if any: what both outline passes draw. */
  function OutlineDrawTotal(ctx: GraphicsContext): nat
    requires ActiveDrawable(ctx)
  {
    if ctx.activeEntity.Some? then |ctx.activeEntity.value.renderer.value.meshes| else 0
  }

  /** The outline's uniforms and meshes: one draw per mesh, with the outline
      shader only, keeping the stencil settings. */
  lemma OutlineDrawCallsShape(outline: Shader, e: Entity, t: Transform, cam: Camera)
    requires e.renderer.Some?
    ensures DrawCount(OutlineDrawCalls(outline, e, t, cam)) == |e.renderer.value.meshes|
    ensures Plain(OutlineDrawCalls(outline, e, t, cam)) && UsesOnly(OutlineDrawCalls(outline, e, t, cam), outline.id)
    ensures SetUniform(outline.id, "entityID", IntValue(e.id)) in OutlineDrawCalls(outline, e, t, cam)
    ensures SetUniform(outline.id, "model", ModelValue(t)) in OutlineDrawCalls(outline, e, t, cam)
  {
    var u := [SetUniform(outline.id, "entityID", IntValue(e.id)), SetUniform(outline.id, "model", ModelValue(t))]
             + MatrixUniforms(outline, "view", "proj", cam);
    var m := MeshCalls(outline, e.renderer.value.meshes);
    MeshCallsShape(outline, e.renderer.value.meshes);
    assert NoDraws(u) && Plain(u) && UsesOnly(u, outline.id);
    NoDrawCount(u);
    DrawCountAppend(u, m);
    assert Plain(m);
    PlainJoin(u, m);
    JoinConditions(u, m, 0, outline.id);
    assert u[0] in u + m && u[1] in u + m;
  }

  /** The outline frame: stencil test on with NOTEQUAL 1 and writes off, the
      shader bound, the body, then the shader unbound, writes back on and the
      test off. Every draw of the body is masked and uses the shader; at the
      end the stencil test is off, the write mask 0xFF, and nothing else
      among capabilities and framebuffer has moved. */
  lemma MaskedEffect(s: State, prog: Name, body: seq<Event>)
    requires Plain(body) && UsesOnly(body, prog)
    ensures var calls := [Enable(StencilTest), StencilFunc(NotEqual, 1, 0xFF), StencilMask(0), UseProgram(prog)] + body
                         + [UseProgram(0), StencilMask(0xFF), Disable(StencilTest)];
            && DrawsUnder(s, calls, StencilMasked(1)) && DrawsUsing(s, calls, prog)
            && Run(s, calls).enabled == s.enabled - {StencilTest} && Run(s, calls).stencilMask == 0xFF
            && Run(s, calls).framebuffer == s.framebuffer
  {
    var head := [Enable(StencilTest), StencilFunc(NotEqual, 1, 0xFF), StencilMask(0), UseProgram(prog)];
    var tail := [UseProgram(0), StencilMask(0xFF), Disable(StencilTest)];
    MaskedHead(s, prog);
    var s1 := Run(s, head);
    MaskedBody(s1, prog, body);
    var s2 := Run(s1, body);
    RunThree(s2, UseProgram(0), StencilMask(0xFF), Disable(StencilTest));
    MaskTeardownSteps(s2, 0xFF);
    assert NoDraws(tail);
    NoDrawsUnder(s2, tail, StencilMasked(1));
    NoDrawsAnywhere(s2, tail, 0, prog);
    DrawsUnderAppend(s, head, body, StencilMasked(1));
    DrawsUnderAppend(s, head + body, tail, StencilMasked(1));
    DrawsUsingAppend(s, head, body, prog);
    DrawsUsingAppend(s, head + body, tail, prog);
    RunAppend(s, head, body);
    RunAppend(s, head + body, tail);
  }

  lemma MaskedHead(s: State, prog: Name)
    ensures var head := [Enable(StencilTest), StencilFunc(NotEqual, 1, 0xFF), StencilMask(0), UseProgram(prog)];
            && StencilHolds(Run(s, head), StencilMasked(1)) && Run(s, head).program == prog
            && Run(s, head).enabled == s.enabled + {StencilTest} && Run(s, head).framebuffer == s.framebuffer
            && DrawsUnder(s, head, StencilMasked(1)) && DrawsUsing(s, head, prog)
  {
    var head := [Enable(StencilTest), StencilFunc(NotEqual, 1, 0xFF), StencilMask(0), UseProgram(prog)];
    RunFour(s, Enable(StencilTest), StencilFunc(NotEqual, 1, 0xFF), StencilMask(0), UseProgram(prog));
    MaskSetupSteps(s, NotEqual, 1, 0xFF, 0, prog);
    assert NoDraws(head);
    NoDrawsUnder(s, head, StencilMasked(1));
    NoDrawsAnywhere(s, head, 0, prog);
  }

  lemma MaskedBody(s: State, prog: Name, body: seq<Event>)
    requires Plain(body) && UsesOnly(body, prog)
    requires StencilHolds(s, StencilMasked(1)) && s.program == prog
    ensures DrawsUnder(s, body, StencilMasked(1)) && DrawsUsing(s, body, prog)
    ensures Run(s, body).enabled == s.enabled && Run(s, body).framebuffer == s.framebuffer
  {
    StencilKept(s, body, StencilMasked(1));
    UsesOnlyDrawsUsing(s, body, prog);
    RunKeepsCapabilities(s, body);
    RunKeepsFramebuffer(s, body) by { forall x | x in body ensures KeepsFramebuffer(x) { } }
  }

  /** RenderOutline: nothing without a selection; otherwise the selected
      entity's meshes, once each, with the outline shader, only where the
      stencil is not 1 and without writing it, the model scaled by 1.01 and
      the entity's id passed on; afterwards the test is off and the write
      mask restored. */
  lemma OutlineCallsShape(s: State, outline: Shader, f: Frame)
    requires ActiveDrawable(f.ctx)
    ensures f.ctx.activeEntity.None? ==> OutlineCalls(outline, f) == []
    ensures DrawCount(OutlineCalls(outline, f)) == OutlineDrawTotal(f.ctx)
    ensures forall x | x in OutlineCalls(outline, f) :: !x.BindFramebuffer?
    ensures DrawsUnder(s, OutlineCalls(outline, f), StencilMasked(1)) && DrawsUsing(s, OutlineCalls(outline, f), outline.id)
    ensures f.ctx.activeEntity.Some? ==>
              var e := f.ctx.activeEntity.value;
              && SetUniform(outline.id, "entityID", IntValue(e.id)) in OutlineCalls(outline, f)
              && SetUniform(outline.id, "model", ModelValue(OutlineTransform(e.transform.value))) in OutlineCalls(outline, f)
              && Run(s, OutlineCalls(outline, f)).enabled == s.enabled - {StencilTest}
              && Run(s, OutlineCalls(outline, f)).stencilMask == 0xFF
    ensures Run(s, OutlineCalls(outline, f)).framebuffer == s.framebuffer
  {
    if f.ctx.activeEntity.Some? {
      var e := f.ctx.activeEntity.value;
      var head := [Enable(StencilTest), StencilFunc(NotEqual, 1, 0xFF), StencilMask(0), UseProgram(outline.id)];
      var tail := [UseProgram(0), StencilMask(0xFF), Disable(StencilTest)];
      var body := OutlineDrawCalls(outline, e, OutlineTransform(e.transform.value), f.cam);
      OutlineDrawCallsShape(outline, e, OutlineTransform(e.transform.value), f.cam);
      MaskedEffect(s, outline.id, body);
      assert NoDraws(head) && NoDraws(tail);
      NoDrawCount(head);
      NoDrawCount(tail);
      DrawCountAppend(head, body);
      DrawCountAppend(head + body, tail);
    } else {
      NoDrawsUnder(s, [], StencilMasked(1));
    }
  }

  // ------------------------------------------------------------ the whole pass

  /** Clearing binds the target, turns the stencil test off and culling on. */
  lemma ClearEffect(s: State, target: Target)
    ensures Run(s, ClearCalls(target)) == s.(framebuffer := target.fb,
                                             enabled := s.enabled - {StencilTest} + {Capability.CullFace})
  {
    RunFive(s, BindFramebuffer(target.fb), Clear(true, true, true), ClearTexImage(target.idTexture, -1),
            Disable(StencilTest), Enable(Capability.CullFace));
    ClearSetupSteps(s, target.fb, Clear(true, true, true), ClearTexImage(target.idTexture, -1));
  }

  lemma ClearShape(target: Target)
    ensures NoDraws(ClearCalls(target)) && BindsOnly(ClearCalls(target), target.fb)
  {
  }

  /** The grid: one draw of GridDrawLength line indices, pipeline calls
      only. */
  lemma GridShape(grid: Shader, cam: Camera)
    ensures DrawCount(GridCalls(grid, cam)) == 1 && PipelineOnly(GridCalls(grid, cam))
  {
    var pre := [UseProgram(grid.id)] + MatrixUniforms(grid, "view", "proj", cam);
    var draw := [DrawElements(Lines, GridDrawLength)];
    assert NoDraws(pre) && NoDraws([UseProgram(0)]);
    NoDrawCount(pre);
    NoDrawCount([UseProgram(0)]);
    assert draw[..0] == [];
    DrawCountAppend(pre, draw);
    DrawCountAppend(pre + draw, [UseProgram(0)]);
    assert GridCalls(grid, cam) == pre + draw + [UseProgram(0)];
  }

  /** After the view: the lights, the outline and culling switched off. */
  lemma AfterViewShape(fs: PassShaders, f: Frame)
    requires |fs.materials| > 3 && ActiveDrawable(f.ctx)
    ensures DrawCount(AfterViewCalls(fs, f)) == 1 + LightCount() + OutlineDrawTotal(f.ctx)
    ensures forall x | x in AfterViewCalls(fs, f) :: !x.BindFramebuffer?
  {
    var z := [Disable(Capability.CullFace)];
    LightCallsShape(Initial, fs, f);
    OutlineCallsShape(Initial, fs.outline, f);
    assert NoDraws(z);
    NoDrawCount(z);
    DrawCountThree(LightCalls(fs, f), OutlineCalls(fs.outline, f), z);
  }

  /** From a state with the stencil test off, everything after the view
      leaves the stencil test, blending and culling off and the
      framebuffer as it was. */
  lemma AfterViewState(s: State, fs: PassShaders, f: Frame)
    requires |fs.materials| > 3 && ActiveDrawable(f.ctx)
    requires StencilTest !in s.enabled
    ensures Run(s, AfterViewCalls(fs, f)).enabled == s.enabled - {StencilTest, Blend, Capability.CullFace}
    ensures Run(s, AfterViewCalls(fs, f)).framebuffer == s.framebuffer
  {
    var l := LightCalls(fs, f);
    var o := OutlineCalls(fs.outline, f);
    var z := [Disable(Capability.CullFace)];
    LightCallsShape(s, fs, f);
    var s1 := Run(s, l);
    OutlineCallsShape(s1, fs.outline, f);
    RunThreeParts(s, l, o, z);
    RunSingle(Run(s1, o), z[0]);
  }

  /** Everything after Bind: the clear, the grid, one or two drawings per
      entity, the sun and the light icons and the outline. */
  lemma SceneCount(target: Target, fs: PassShaders, f: Frame, view: seq<Entity>)
    requires |fs.materials| > 3 && AllDrawable(view) && MaterialsFit(view, |fs.materials|) && ActiveDrawable(f.ctx)
    ensures DrawCount(SceneCalls(target, fs, f, view))
            == 1 + ViewDrawTotal(view, f.ctx, |view|) + 1 + LightCount() + OutlineDrawTotal(f.ctx)
  {
    var c := ClearCalls(target);
    ClearShape(target);
    GridShape(fs.grid, f.cam);
    ViewCallsCount(fs.materials, view, f, |view|);
    AfterViewShape(fs, f);
    NoDrawCount(c);
    DrawCountFour(c, GridCalls(fs.grid, f.cam), ViewCalls(fs.materials, view, f, |view|), AfterViewCalls(fs, f));
  }

  /** The scene opens by binding the target, the only framebuffer it binds. */
  lemma SceneBinds(target: Target, fs: PassShaders, f: Frame, view: seq<Entity>)
    requires |fs.materials| > 3 && AllDrawable(view) && MaterialsFit(view, |fs.materials|) && ActiveDrawable(f.ctx)
    ensures BindsOnly(SceneCalls(target, fs, f, view), target.fb)
    ensures |SceneCalls(target, fs, f, view)| > 0 && SceneCalls(target, fs, f, view)[0] == BindFramebuffer(target.fb)
  {
    var c := ClearCalls(target);
    var g := GridCalls(fs.grid, f.cam);
    var v := ViewCalls(fs.materials, view, f, |view|);
    var a := AfterViewCalls(fs, f);
    ClearShape(target);
    GridShape(fs.grid, f.cam);
    ViewCallsBindNothing(fs.materials, view, f, |view|);
    AfterViewShape(fs, f);
    assert BindsOnly(g, target.fb) by { forall x | x in g ensures KeepsPipeline(x) { } }
    JoinConditions(c, g, target.fb, 0);
    JoinConditions(c + g, v, target.fb, 0);
    JoinConditions(c + g + v, a, target.fb, 0);
  }

  /** At the end of the scene the target stays bound and the stencil test,
      blending and culling are off; other capabilities are as before. */
  lemma SceneState(s: State, target: Target, fs: PassShaders, f: Frame, view: seq<Entity>)
    requires |fs.materials| > 3 && AllDrawable(view) && MaterialsFit(view, |fs.materials|) && ActiveDrawable(f.ctx)
    ensures Run(s, SceneCalls(target, fs, f, view)).enabled == s.enabled - {StencilTest, Blend, Capability.CullFace}
    ensures Run(s, SceneCalls(target, fs, f, view)).framebuffer == target.fb
  {
    var c := ClearCalls(target);
    var g := GridCalls(fs.grid, f.cam);
    var v := ViewCalls(fs.materials, view, f, |view|);
    var a := AfterViewCalls(fs, f);
    ClearEffect(s, target);
    var s1 := Run(s, c);
    GridShape(fs.grid, f.cam);
    KeepsPipelineRun(s1, g);
    var s2 := Run(s1, g);
    ViewCallsKeep(s2, fs.materials, view, f, |view|);
    var s3 := Run(s2, v);
    AfterViewState(s3, fs, f);
    RunFourParts(s, c, g, v, a);
  }

  /** ForwardRenderPass::Render makes one draw for the grid, one per mesh of
      every entity (two for the selected one), one for the sun, one per
      point light, and one per mesh of the selected entity's outline. */
  lemma ForwardPassDrawCount(target: Target, fs: PassShaders, f: Frame, view: seq<Entity>)
    requires |fs.materials| > 3 && AllDrawable(view) && MaterialsFit(view, |fs.materials|) && ActiveDrawable(f.ctx)
    ensures DrawCount(ForwardPassCalls(target, fs, f, view))
            == 2 + ViewDrawTotal(view, f.ctx, |view|) + LightCount() + OutlineDrawTotal(f.ctx)
  {
    var b := ForwardBindCalls(target.fb, target.width, target.height, fs.materials, f.ctx.config.lightSetting.useEnvMap,
                              f.ctx.depthMapLS, f.env);
    ForwardBindQuiet(target.fb, target.width, target.height, fs.materials, f.ctx.config.lightSetting.useEnvMap,
                     f.ctx.depthMapLS, f.env);
    NoDrawCount(b);
    SceneCount(target, fs, f, view);
    DrawCountAppend(b, SceneCalls(target, fs, f, view));
  }

  /** Every draw of the pass goes into the target framebuffer, which is
      still bound at the end. */
  lemma ForwardPassTarget(s: State, target: Target, fs: PassShaders, f: Frame, view: seq<Entity>)
    requires |fs.materials| > 3 && AllDrawable(view) && MaterialsFit(view, |fs.materials|) && ActiveDrawable(f.ctx)
    ensures DrawsInto(s, ForwardPassCalls(target, fs, f, view), target.fb)
    ensures Run(s, ForwardPassCalls(target, fs, f, view)).framebuffer == target.fb
  {
    var b := ForwardBindCalls(target.fb, target.width, target.height, fs.materials, f.ctx.config.lightSetting.useEnvMap,
                              f.ctx.depthMapLS, f.env);
    var sc := SceneCalls(target, fs, f, view);
    ForwardBindQuiet(target.fb, target.width, target.height, fs.materials, f.ctx.config.lightSetting.useEnvMap,
                     f.ctx.depthMapLS, f.env);
    SceneBinds(target, fs, f, view);
    NoDrawsAnywhere(s, b, target.fb, 0);
    DrawsIntoOpening(s, b, target.fb, sc);
  }

  /** After the pass the stencil test, blending and face culling are off,
      whatever they were before; every other capability is as it was. */
  lemma ForwardPassCapabilities(s: State, target: Target, fs: PassShaders, f: Frame, view: seq<Entity>)
    requires |fs.materials| > 3 && AllDrawable(view) && MaterialsFit(view, |fs.materials|) && ActiveDrawable(f.ctx)
    ensures Run(s, ForwardPassCalls(target, fs, f, view)).enabled
            == s.enabled - {StencilTest, Blend, Capability.CullFace}
  {
    var b := ForwardBindCalls(target.fb, target.width, target.height, fs.materials, f.ctx.config.lightSetting.useEnvMap,
                              f.ctx.depthMapLS, f.env);
    ForwardBindState(s, target.fb, target.width, target.height, fs.materials, f.ctx.config.lightSetting.useEnvMap,
                     f.ctx.depthMapLS, f.env);
    SceneState(Run(s, b), target, fs, f, view);
    RunAppend(s, b, SceneCalls(target, fs, f, view));
  }

  // ------------------------------------------------------------ the stand-alone outline pass

  /** OutlineRenderPass::Render sets the stencil function and mask and binds
      its shader whether or not an entity is selected, and sets the scale
      to 1.01 outright; it does not enable the stencil test itself. */
  function OutlinePassCalls(outline: Shader, f: Frame): seq<Event>
    requires ActiveDrawable(f.ctx)
  {
    [StencilFunc(NotEqual, 1, 0xFF), StencilMask(0), UseProgram(outline.id)]
    + (if f.ctx.activeEntity.None? then []
       else
         var e := f.ctx.activeEntity.value;
         OutlineDrawCalls(outline, e, e.transform.value.(scale := Vec3(1.01, 1.01, 1.01)), f.cam))
    + [UseProgram(0), StencilMask(0xFF), Disable(StencilTest)]
  }

  /** The two outline code paths give the same model matrix exactly when the
      selected entity is at unit scale: RenderOutline multiplies the scale by
      1.01, OutlineRenderPass replaces it by 1.01. */
  lemma OutlineScalesAgree(t: Transform)
    ensures OutlineTransform(t) == t.(scale := Vec3(1.01, 1.01, 1.01)) <==> t.scale == Vec3(1.0, 1.0, 1.0)
  {
    if OutlineTransform(t) == t.(scale := Vec3(1.01, 1.01, 1.01)) {
      assert t.scale.x * 1.01 == 1.01;
      assert t.scale.y * 1.01 == 1.01;
      assert t.scale.z * 1.01 == 1.01;
    }
  }

  /** The stand-alone outline pass draws the selected entity's meshes with
      its shader, masked by stencil value 1 when the test was already on;
      it always leaves the test off, writes enabled and NOTEQUAL 1 set. */
  lemma OutlinePassShape(s: State, outline: Shader, f: Frame)
    requires ActiveDrawable(f.ctx)
    ensures DrawCount(OutlinePassCalls(outline, f)) == OutlineDrawTotal(f.ctx)
    ensures DrawsUsing(s, OutlinePassCalls(outline, f), outline.id)
    ensures StencilTest in s.enabled ==> DrawsUnder(s, OutlinePassCalls(outline, f), StencilMasked(1))
    ensures Run(s, OutlinePassCalls(outline, f)).enabled == s.enabled - {StencilTest}
    ensures Run(s, OutlinePassCalls(outline, f)).stencilMask == 0xFF
    ensures Run(s, OutlinePassCalls(outline, f)).stencilFunc == (NotEqual, 1, 0xFF)
    ensures Run(s, OutlinePassCalls(outline, f)).framebuffer == s.framebuffer
  {
    var head := [StencilFunc(NotEqual, 1, 0xFF), StencilMask(0), UseProgram(outline.id)];
    var tail := [UseProgram(0), StencilMask(0xFF), Disable(StencilTest)];
    var body := if f.ctx.activeEntity.None? then [] else
      var e := f.ctx.activeEntity.value;
      OutlineDrawCalls(outline, e, e.transform.value.(scale := Vec3(1.01, 1.01, 1.01)), f.cam);
    if f.ctx.activeEntity.Some? {
      var e := f.ctx.activeEntity.value;
      OutlineDrawCallsShape(outline, e, e.transform.value.(scale := Vec3(1.01, 1.01, 1.01)), f.cam);
    }
    assert Plain(body) && UsesOnly(body, outline.id);
    OutlineFrame(s, outline.id, head, body, tail);
    assert DrawCount(body) == OutlineDrawTotal(f.ctx);
  }

  /** The frame of the stand-alone pass, over any plain body: the state it
      leaves. */
  lemma OutlineFrame(s: State, prog: Name, head: seq<Event>, body: seq<Event>, tail: seq<Event>)
    requires head == [StencilFunc(NotEqual, 1, 0xFF), StencilMask(0), UseProgram(prog)]
    requires tail == [UseProgram(0), StencilMask(0xFF), Disable(StencilTest)]
    requires Plain(body) && UsesOnly(body, prog)
    ensures DrawCount(head + body + tail) == DrawCount(body)
    ensures DrawsUsing(s, head + body + tail, prog)
    ensures StencilTest in s.enabled ==> DrawsUnder(s, head + body + tail, StencilMasked(1))
    ensures Run(s, head + body + tail).enabled == s.enabled - {StencilTest}
    ensures Run(s, head + body + tail).stencilMask == 0xFF
    ensures Run(s, head + body + tail).stencilFunc == (NotEqual, 1, 0xFF)
    ensures Run(s, head + body + tail).framebuffer == s.framebuffer
  {
    RunThree(s, StencilFunc(NotEqual, 1, 0xFF), StencilMask(0), UseProgram(prog));
    var s1 := Run(s, head);
    MaskOnlySteps(s, NotEqual, 1, 0xFF, 0, prog);
    OutlineFrameBody(s1, prog, body);
    var s2 := Run(s1, body);
    RunThree(s2, UseProgram(0), StencilMask(0xFF), Disable(StencilTest));
    MaskTeardownSteps(s2, 0xFF);
    RunThreeParts(s, head, body, tail);
    OutlineFrameJoin(s, prog, head, body, tail);
  }

  lemma OutlineFrameBody(s1: State, prog: Name, body: seq<Event>)
    requires Plain(body) && UsesOnly(body, prog) && s1.program == prog
    ensures DrawsUsing(s1, body, prog)
    ensures StencilHolds(s1, StencilMasked(1)) ==> DrawsUnder(s1, body, StencilMasked(1))
    ensures Run(s1, body).enabled == s1.enabled && Run(s1, body).framebuffer == s1.framebuffer
    ensures Run(s1, body).stencilMask == s1.stencilMask && Run(s1, body).stencilFunc == s1.stencilFunc
  {
    UsesOnlyDrawsUsing(s1, body, prog);
    RunKeepsCapabilities(s1, body);
    RunKeepsFramebuffer(s1, body) by { forall x | x in body ensures KeepsFramebuffer(x) { } }
    if StencilHolds(s1, StencilMasked(1)) {
      StencilKept(s1, body, StencilMasked(1));
    }
    StencilSettingsKept(s1, body);
  }

  lemma {:induction false} StencilSettingsKept(s: State, es: seq<Event>)
    requires forall x | x in es :: KeepsStencil(x)
    ensures Run(s, es).stencilMask == s.stencilMask && Run(s, es).stencilFunc == s.stencilFunc
    decreases |es|
  {
    if es != [] {
      assert es[0] in es;
      assert forall x | x in es[1..] :: x in es;
      StencilSettingsKept(Step(s, es[0]), es[1..]);
    }
  }

  /** The draws of the stand-alone pass are all in its body. */
  lemma OutlineFrameJoin(s: State, prog: Name, head: seq<Event>, body: seq<Event>, tail: seq<Event>)
    requires NoDraws(head) && NoDraws(tail)
    requires Run(s, head).program == prog && DrawsUsing(Run(s, head), body, prog)
    requires StencilTest in s.enabled ==>
               StencilHolds(Run(s, head), StencilMasked(1)) && DrawsUnder(Run(s, head), body, StencilMasked(1))
    ensures DrawCount(head + body + tail) == DrawCount(body)
    ensures DrawsUsing(s, head + body + tail, prog)
    ensures StencilTest in s.enabled ==> DrawsUnder(s, head + body + tail, StencilMasked(1))
  {
    var s2 := Run(Run(s, head), body);
    NoDrawCount(head);
    NoDrawCount(tail);
    DrawCountThree(head, body, tail);
    NoDrawsAnywhere(s, head, 0, prog);
    NoDrawsAnywhere(s2, tail, 0, prog);
    RunAppend(s, head, body);
    DrawsUsingAppend(s, head, body, prog);
    DrawsUsingAppend(s, head + body, tail, prog);
    if StencilTest in s.enabled {
      NoDrawsUnder(s, head, StencilMasked(1));
      NoDrawsUnder(s2, tail, StencilMasked(1));
      DrawsUnderAppend(s, head, body, StencilMasked(1));
      DrawsUnderAppend(s, head + body, tail, StencilMasked(1));
    }
  }

  // ------------------------------------------------------------ the pass's code

  /** Render's opening: the target bound and cleared, the entity-id
      attachment reset to -1, the stencil test off and culling on. */
  method ClearTarget(dev: Device, target: Target)
    modifies dev
    ensures dev.trace == old(dev.trace) + ClearCalls(target)
    ensures dev.nextName == old(dev.nextName)
  {
    dev.Emit([BindFramebuffer(target.fb)]);
    dev.Emit([Clear(true, true, true)]);
    dev.Emit([ClearTexImage(target.idTexture, -1)]);
    dev.Emit([Disable(StencilTest)]);
    dev.Emit([Enable(Capability.CullFace)]);
  }

  /** The grid, drawn with the grid shader. */
  method DrawGrid(dev: Device, shapes: ShapeCache, grid: Shader, cam: Camera)
    requires shapes.Valid()
    modifies dev, shapes
    ensures shapes.Valid()
    ensures dev.trace == old(dev.trace) + GridCalls(grid, cam)
    ensures dev.nextName == old(dev.nextName)
  {
    ghost var t0 := dev.trace;
    Bind(dev, grid);
    SetUniformValue(dev, grid, "view", MatrixValue(cam.view));
    SetUniformValue(dev, grid, "proj", MatrixValue(cam.projection));
    shapes.RenderGrid(dev, grid);
    Unbind(dev);
    assert dev.trace == t0 + ([UseProgram(grid.id)] + MatrixUniforms(grid, "view", "proj", cam)
                              + [DrawElements(Lines, GridDrawLength), UseProgram(0)]);
  }

  /** The DrawEntity lambda of Render. */
  method DrawEntity(dev: Device, sh: Shader, e: Entity, f: Frame)
    requires Drawable(e)
    modifies dev, set m | m in e.renderer.value.meshes
    ensures dev.trace == old(dev.trace) + DrawEntityCalls(sh, e, f)
    ensures dev.nextName == old(dev.nextName)
  {
    ghost var t0 := dev.trace;
    Bind(dev, sh);
    dev.Emit(EntityUniforms(sh, e, f));
    BindTextureTo(dev, sh, "DiffuseMap", f.white, 0, Sampler2D);
    DrawMeshes(dev, sh, e.renderer.value.meshes);
    Unbind(dev);
    Regroup(t0, [UseProgram(sh.id)], EntityUniforms(sh, e, f), BindTextureCalls(sh, "DiffuseMap", f.white, 0, Sampler2D),
            MeshCalls(sh, e.renderer.value.meshes), [UseProgram(0)]);
  }

  /** One turn of the entity loop. */
  method DrawEntry(dev: Device, materials: seq<Shader>, e: Entity, f: Frame)
    requires Drawable(e) && e.renderer.value.materialIndex < |materials|
    modifies dev, set m | m in e.renderer.value.meshes
    ensures dev.trace == old(dev.trace) + EntryCalls(materials, e, f)
    ensures dev.nextName == old(dev.nextName)
  {
    var sh := MaterialShader(materials, e);
    ghost var t1 := dev.trace;
    ghost var pre: seq<Event> := [];
    if IsActive(e, f.ctx) {
      dev.Emit(StencilWriteCalls);
      DrawEntity(dev, sh, e, f);
      dev.Emit([Disable(StencilTest)]);
      pre := StencilWriteCalls + DrawEntityCalls(sh, e, f) + [Disable(StencilTest)];
    }
    assert dev.trace == t1 + pre;
    DrawEntity(dev, sh, e, f);
    EntryCallsSplit(materials, e, f, pre);
    RegroupTwo(t1, pre, DrawEntityCalls(sh, e, f));
  }

  lemma EntryCallsSplit(materials: seq<Shader>, e: Entity, f: Frame, pre: seq<Event>)
    requires Drawable(e) && e.renderer.value.materialIndex < |materials|
    requires pre == if IsActive(e, f.ctx)
                    then StencilWriteCalls + DrawEntityCalls(MaterialShader(materials, e), e, f) + [Disable(StencilTest)]
                    else []
    ensures EntryCalls(materials, e, f) == pre + DrawEntityCalls(MaterialShader(materials, e), e, f)
  {
  }

  /** The loop over the mesh-renderer entities. */
  method DrawView(dev: Device, materials: seq<Shader>, view: seq<Entity>, f: Frame)
    requires AllDrawable(view) && MaterialsFit(view, |materials|)
    modifies dev, MeshSet(view)
    ensures dev.trace == old(dev.trace) + ViewCalls(materials, view, f, |view|)
    ensures dev.nextName == old(dev.nextName)
  {
    for i := 0 to |view|
      invariant dev.trace == old(dev.trace) + ViewCalls(materials, view, f, i)
      invariant dev.nextName == old(dev.nextName)
    {
      EntryMeshesInView(view, i);
      DrawEntry(dev, materials, view[i], f);
      ViewCallsStep(materials, view, f, i, old(dev.trace));
    }
  }

  lemma EntryMeshesInView(view: seq<Entity>, i: nat)
    requires i < |view| && AllDrawable(view)
    ensures (set m | m in view[i].renderer.value.meshes) <= MeshSet(view)
  {
  }

  lemma ViewCallsStep(materials: seq<Shader>, view: seq<Entity>, f: Frame, i: nat, t: seq<Event>)
    requires i < |view| && AllDrawable(view) && MaterialsFit(view, |materials|)
    ensures t + ViewCalls(materials, view, f, i + 1) == t + ViewCalls(materials, view, f, i) + EntryCalls(materials, view[i], f)
  {
  }

  /** The directional light's sphere. */
  method RenderSun(dev: Device, shapes: ShapeCache, sh: Shader, f: Frame)
    requires shapes.Valid()
    modifies dev, shapes
    ensures shapes.Valid()
    ensures dev.trace == old(dev.trace) + SunCalls(sh, f)
    ensures dev.nextName == old(dev.nextName)
  {
    ghost var t0 := dev.trace;
    Bind(dev, sh);
    SetUniformValue(dev, sh, "lightDirection", Opaque);
    SetUniformValue(dev, sh, "lightPosition", Opaque);
    SetUniformValue(dev, sh, "lightIntensity", FloatValue(f.ctx.config.lightSetting.lightIntensity));
    SetUniformValue(dev, sh, "lightColor", Opaque);
    SetUniformValue(dev, sh, "viewPos", Opaque);
    SetUniformValue(dev, sh, "model", Opaque);
    SetUniformValue(dev, sh, "view", MatrixValue(f.cam.view));
    SetUniformValue(dev, sh, "proj", MatrixValue(f.cam.projection));
    shapes.RenderSphere(dev, sh);
    Unbind(dev);
    assert dev.trace == t0 + SunCalls(sh, f);
  }

  /** The point-light icons, one textured quad each. */
  method RenderIcons(dev: Device, shapes: ShapeCache, icon: Shader, texture: Name, cam: Camera)
    requires shapes.Valid()
    modifies dev, shapes
    ensures shapes.Valid()
    ensures dev.trace == old(dev.trace) + IconsCalls(icon, texture, cam, LightCount())
    ensures dev.nextName == old(dev.nextName)
  {
    for i := 0 to LightCount()
      invariant shapes.Valid()
      invariant dev.trace == old(dev.trace) + IconsCalls(icon, texture, cam, i)
      invariant dev.nextName == old(dev.nextName)
    {
      ghost var t1 := dev.trace;
      SetUniformValue(dev, icon, "model", Opaque);
      SetUniformValue(dev, icon, "view", MatrixValue(cam.view));
      SetUniformValue(dev, icon, "proj", MatrixValue(cam.projection));
      BindTextureTo(dev, icon, "albedo", texture, 0, Sampler2D);
      shapes.RenderQuad(dev, icon);
      assert dev.trace == t1 + IconCalls(icon, texture, cam);
    }
  }

  /** RenderLight. */
  method RenderLight(dev: Device, shapes: ShapeCache, fs: PassShaders, f: Frame)
    requires |fs.materials| > 3 && shapes.Valid()
    modifies dev, shapes
    ensures shapes.Valid()
    ensures dev.trace == old(dev.trace) + LightCalls(fs, f)
    ensures dev.nextName == old(dev.nextName)
  {
    ghost var t0 := dev.trace;
    dev.Emit([Disable(Capability.CullFace), Enable(Blend), BlendFunc(SrcAlpha, OneMinusSrcAlpha)]);
    RenderSun(dev, shapes, fs.materials[3], f);
    Bind(dev, fs.icon);
    RenderIcons(dev, shapes, fs.icon, fs.lightIcon, f.cam);
    dev.Emit([Disable(Blend), Enable(Capability.CullFace)]);
    Regroup(t0, [Disable(Capability.CullFace), Enable(Blend), BlendFunc(SrcAlpha, OneMinusSrcAlpha)],
            SunCalls(fs.materials[3], f), [UseProgram(fs.icon.id)], IconsCalls(fs.icon, fs.lightIcon, f.cam, LightCount()),
            [Disable(Blend), Enable(Capability.CullFace)]);
  }

  /** The selected entity's meshes, if any. */
  ghost function OutlineMeshes(ctx: GraphicsContext): set<Mesh>
  {
    if ctx.activeEntity.Some? && ctx.activeEntity.value.renderer.Some?
    then set m | m in ctx.activeEntity.value.renderer.value.meshes
    else {}
  }

  /** The outline's uniforms and meshes. */
  method DrawOutline(dev: Device, outline: Shader, e: Entity, t: Transform, cam: Camera)
    requires e.renderer.Some?
    modifies dev, set m | m in e.renderer.value.meshes
    ensures dev.trace == old(dev.trace) + OutlineDrawCalls(outline, e, t, cam)
    ensures dev.nextName == old(dev.nextName)
  {
    ghost var t0 := dev.trace;
    SetUniformValue(dev, outline, "entityID", IntValue(e.id));
    SetUniformValue(dev, outline, "model", ModelValue(t));
    SetUniformValue(dev, outline, "view", MatrixValue(cam.view));
    SetUniformValue(dev, outline, "proj", MatrixValue(cam.projection));
    DrawMeshes(dev, outline, e.renderer.value.meshes);
    assert dev.trace == t0 + (([SetUniform(outline.id, "entityID", IntValue(e.id)), SetUniform(outline.id, "model", ModelValue(t))]
                               + MatrixUniforms(outline, "view", "proj", cam)) + MeshCalls(outline, e.renderer.value.meshes));
  }

  /** RenderOutline. */
  method RenderOutline(dev: Device, outline: Shader, f: Frame)
    requires ActiveDrawable(f.ctx)
    modifies dev, OutlineMeshes(f.ctx)
    ensures dev.trace == old(dev.trace) + OutlineCalls(outline, f)
    ensures dev.nextName == old(dev.nextName)
  {
    match f.ctx.activeEntity
    case None =>
    case Some(e) =>
      ghost var t0 := dev.trace;
      var t := e.transform.value;
      t := t.(scale := Scale(t.scale, 1.01));
      dev.Emit([Enable(StencilTest), StencilFunc(NotEqual, 1, 0xFF), StencilMask(0)]);
      Bind(dev, outline);
      DrawOutline(dev, outline, e, t, f.cam);
      Unbind(dev);
      dev.Emit([StencilMask(0xFF), Disable(StencilTest)]);
      assert dev.trace == t0 + ([Enable(StencilTest), StencilFunc(NotEqual, 1, 0xFF), StencilMask(0), UseProgram(outline.id)]
                                + OutlineDrawCalls(outline, e, t, f.cam) + [UseProgram(0), StencilMask(0xFF), Disable(StencilTest)]);
  }

  /** The pass's target: its framebuffer, with colour attachment 2 as the
      entity-id image. */
  function TargetOf(fb: Framebuffer): Target
    reads fb, fb.buffer
    requires |fb.colorAttachments| > 2
  {
    Target(fb.buffer.id, fb.buffer.width, fb.buffer.height, fb.GetColorAttachmentID(2))
  }

  /** The member initialisers' shaders: grid, outline, icon. */
  function MemberShaderFiles(): seq<(string, string)>
  {
    [("line.vert", "line.frag"), ("common.vert", "outline.frag"), ("quad.vert", "quad.frag")]
  }

  /** The constructor's material shaders: pbr, phong, toon, light. */
  function MaterialShaderFiles(): seq<(string, string)>
  {
    [("common.vert", "pbr.frag"), ("common.vert", "phong.frag"), ("toon.vert", "toon.frag"), ("common.vert", "light.frag")]
  }

  class ForwardRenderPass {
    const base: RenderPass
    const grid: Shader
    const outline: Shader
    const icon: Shader
    /** The light icon's texture; loading the image is not part of this model. */
    const lightIcon: Name

    /** The member initialisers load the grid, outline and icon shaders; the
        constructor then pushes the pbr, phong, toon and light shaders, in
        that order, as the material shaders. */
    constructor (dev: Device, lightIcon: Name)
      modifies dev
      ensures fresh(base) && base.running && base.framebuffer == null && this.lightIcon == lightIcon
      ensures var n := old(dev.nextName);
              && grid.id == n + 2 && outline.id == n + 5 && icon.id == n + 8
              && |base.shaders| == 4 && base.shaders[0].id == n + 11 && base.shaders[1].id == n + 14
              && base.shaders[2].id == n + 17 && base.shaders[3].id == n + 20
              && dev.nextName == n + 21
      ensures dev.trace == old(dev.trace) + LoadsFrom(dev.files, MemberShaderFiles(), old(dev.nextName))
                           + LoadsFrom(dev.files, MaterialShaderFiles(), old(dev.nextName) + 9)
    {
      var pass := new RenderPass();
      var members := LoadShaders(dev, MemberShaderFiles());
      grid, outline, icon := members[0], members[1], members[2];
      this.lightIcon := lightIcon;
      var materials := LoadShaders(dev, MaterialShaderFiles());
      pass.shaders := materials;
      base := pass;
    }

    /** The shaders Render uses. */
    function Shaders(): PassShaders
      reads this, base
    {
      PassShaders(base.shaders, grid, outline, icon, lightIcon)
    }

    /** Bind: the framebuffer, back-face culling, then every material shader
        given the shadow map, the environment, the lights and the bones. */
    method Bind(dev: Device, f: Frame)
      requires base.framebuffer != null
      modifies dev
      ensures dev.trace == old(dev.trace)
        + ForwardBindCalls(base.framebuffer.buffer.id, base.framebuffer.buffer.width, base.framebuffer.buffer.height,
                           base.shaders, f.ctx.config.lightSetting.useEnvMap, f.ctx.depthMapLS, f.env)
      ensures dev.nextName == old(dev.nextName)
    {
      ghost var t0 := dev.trace;
      ghost var head := BindCalls(base.framebuffer.buffer.id, base.framebuffer.buffer.width, base.framebuffer.buffer.height);
      base.framebuffer.Bind(dev);
      BindMaterials(dev, base.shaders, f.ctx.config.lightSetting.useEnvMap, f.ctx.depthMapLS, f.env);
      RegroupThree(t0, head, [Event.CullFace(Back)],
                   ShadersBindCalls(base.shaders, f.ctx.config.lightSetting.useEnvMap, f.ctx.depthMapLS, f.env, |base.shaders|));
    }

    /** Render: the whole pass, as ForwardPassCalls states it, and so with the
        properties proved of that sequence (ForwardPassDrawCount,
        ForwardPassTarget, ForwardPassCapabilities, ViewEntryStencil,
        OutlineCallsShape). */
    method Render(dev: Device, shapes: ShapeCache, view: seq<Entity>, f: Frame)
      requires base.framebuffer != null && |base.framebuffer.colorAttachments| > 2 && |base.shaders| > 3
      requires AllDrawable(view) && MaterialsFit(view, |base.shaders|) && ActiveDrawable(f.ctx) && shapes.Valid()
      modifies dev, shapes, MeshSet(view), OutlineMeshes(f.ctx)
      ensures shapes.Valid()
      ensures dev.trace == old(dev.trace) + ForwardPassCalls(TargetOf(base.framebuffer), Shaders(), f, view)
      ensures dev.nextName == old(dev.nextName)
    {
      var target := TargetOf(base.framebuffer);
      var fs := Shaders();
      ghost var t0 := dev.trace;
      Bind(dev, f);
      ghost var bind := ForwardBindCalls(target.fb, target.width, target.height, fs.materials,
                                         f.ctx.config.lightSetting.useEnvMap, f.ctx.depthMapLS, f.env);
      assert dev.trace == t0 + bind;
      RenderScene(dev, shapes, target, fs, view, f);
      RegroupTwo(t0, bind, SceneCalls(target, fs, f, view));
      assert target == TargetOf(base.framebuffer) && fs == Shaders();
    }
  }

  /** Everything Render does after Bind. */
  method RenderScene(dev: Device, shapes: ShapeCache, target: Target, fs: PassShaders, view: seq<Entity>, f: Frame)
    requires |fs.materials| > 3 && AllDrawable(view) && MaterialsFit(view, |fs.materials|) && ActiveDrawable(f.ctx)
    requires shapes.Valid()
    modifies dev, shapes, MeshSet(view), OutlineMeshes(f.ctx)
    ensures shapes.Valid()
    ensures dev.trace == old(dev.trace) + SceneCalls(target, fs, f, view)
    ensures dev.nextName == old(dev.nextName)
  {
    ghost var t0 := dev.trace;
    ClearTarget(dev, target);
    DrawGrid(dev, shapes, fs.grid, f.cam);
    DrawView(dev, fs.materials, view, f);
    RenderLight(dev, shapes, fs, f);
    RenderOutline(dev, fs.outline, f);
    dev.Emit([Disable(Capability.CullFace)]);
    RegroupSix(t0, ClearCalls(target), GridCalls(fs.grid, f.cam), ViewCalls(fs.materials, view, f, |view|),
               LightCalls(fs, f), OutlineCalls(fs.outline, f), [Disable(Capability.CullFace)]);
  }

  class OutlineRenderPass {
    const base: RenderPass
    const outline: Shader

    constructor (dev: Device)
      modifies dev
      ensures fresh(base) && base.running && base.framebuffer == null && base.shaders == []
      ensures outline.id == old(dev.nextName) + 2 && dev.nextName == old(dev.nextName) + 3
      ensures dev.trace == old(dev.trace) + LoadCalls(dev.files, "common.vert", "outline.frag", old(dev.nextName))
    {
      base := new RenderPass();
      var o := LoadShader(dev, "common.vert", "outline.frag");
      outline := o;
    }

    /** Render: the stencil function and mask, the shader bound, the
        selected entity's meshes at scale 1.01 if there is one, then the
        shader unbound, the mask restored and the test off. */
    method Render(dev: Device, f: Frame)
      requires ActiveDrawable(f.ctx)
      modifies dev, OutlineMeshes(f.ctx)
      ensures dev.trace == old(dev.trace) + OutlinePassCalls(outline, f)
      ensures dev.nextName == old(dev.nextName)
    {
      ghost var t0 := dev.trace;
      dev.Emit([StencilFunc(NotEqual, 1, 0xFF), StencilMask(0)]);
      Shaders.Bind(dev, outline);
      ghost var t1 := dev.trace;
      ghost var body: seq<Event> := [];
      match f.ctx.activeEntity {
        case None =>
        case Some(e) =>
          var t := e.transform.value;
          t := t.(scale := Vec3(1.01, 1.01, 1.01));
          DrawOutline(dev, outline, e, t, f.cam);
          body := OutlineDrawCalls(outline, e, t, f.cam);
      }
      Unbind(dev);
      dev.Emit([StencilMask(0xFF), Disable(StencilTest)]);
      assert dev.trace == t0 + ([StencilFunc(NotEqual, 1, 0xFF), StencilMask(0), UseProgram(outline.id)] + body
                                + [UseProgram(0), StencilMask(0xFF), Disable(StencilTest)]);
    }
  }
}
