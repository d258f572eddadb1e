// PrecomputePass.hpp: the image-based-lighting bake. Four stages draw into
// the precompute framebuffer: the HDR picture onto the six faces of the
// environment cube map, the irradiance cube map, the prefilter cube map at
// six mip levels of falling size and rising roughness, and the BRDF lookup
// table as one full-screen quad. Each stage draws with its own shader from
// the pass's list.
module PrecomputePasses {
  import opened GL
  import opened Shaders
  import opened Shapes
  import opened Framebuffers
  import opened RenderPasses
  import Blooms

  function CubeFaces(): nat { 6 }
  const EnvironmentResolution := 2048
  const IrradianceResolution := 32
  const PrefilterResolution := 128
  function MaxMipLevels(): nat { 6 }
  const BrdfResolution := 512

  lemma {:induction false} Pow2Add(a: nat, b: nat)
    ensures Blooms.Pow2(a + b) == Blooms.Pow2(a) * Blooms.Pow2(b)
    decreases a
  {
    if a > 0 {
      Pow2Add(a - 1, b);
      assert Blooms.Pow2(a + b) == 2 * Blooms.Pow2(a - 1 + b);
    }
  }

  /** `128 * pow(0.5, mip)` as an unsigned integer. For the levels the bake
      uses the product is exact: a power of two. */
  function PrefilterMipSize(mip: nat): nat
    requires mip < MaxMipLevels()
  {
    Blooms.Pow2(7 - mip)
  }

  /** Each level's size times 2^mip is the base resolution, 128. */
  lemma PrefilterMipSizeExact(mip: nat)
    requires mip < MaxMipLevels()
    ensures PrefilterMipSize(mip) * Blooms.Pow2(mip) == PrefilterResolution
  {
    Pow2Add(7 - mip, mip);
  }

  /** Each prefilter level is half the size of the one before, and the
      last is 4 by 4. */
  lemma PrefilterMipSizesHalve(mip: nat)
    requires mip + 1 < MaxMipLevels()
    ensures 2 * PrefilterMipSize(mip + 1) == PrefilterMipSize(mip)
    ensures PrefilterMipSize(0) == PrefilterResolution && PrefilterMipSize(MaxMipLevels() - 1) == 4
  {
    assert 7 - mip == (7 - (mip + 1)) + 1;
  }

  /** The roughness the prefilter shader gets at `mip`: mip / (levels - 1). */
  function Roughness(mip: nat): real
    requires mip < MaxMipLevels()
  {
    (mip as real) / ((MaxMipLevels() - 1) as real)
  }

  /** Roughness runs from 0 at the base level to 1 at the last. */
  lemma RoughnessRange(mip: nat)
    requires mip < MaxMipLevels()
    ensures 0.0 <= Roughness(mip) <= 1.0
    ensures Roughness(mip) == 0.0 <==> mip == 0
    ensures Roughness(mip) == 1.0 <==> mip == MaxMipLevels() - 1
  {
  }

  // ------------------------------------------------------------ face loops

  /** One face of a capture: that face's view, the face of `cube` at `level`
      as colour target, the clear, then the cube drawn. */
  function FaceCalls(sh: Shader, cube: Name, level: nat, face: nat): seq<Event>
  {
    [SetUniform(sh.id, "view", CaptureView(face)), AttachTexture(Color(0), CubeFace(face), cube, level),
     Clear(true, true, false), UseProgram(sh.id), DrawArrays(Triangles, CubeVertexCount)]
  }

  /** Faces 0 to n - 1 in turn. */
  function FacesCalls(sh: Shader, cube: Name, level: nat, n: nat): seq<Event>
  {
    if n == 0 then [] else FacesCalls(sh, cube, level, n - 1) + FaceCalls(sh, cube, level, n - 1)
  }

  lemma FaceCallsShape(sh: Shader, cube: Name, level: nat, face: nat)
    ensures DrawCount(FaceCalls(sh, cube, level, face)) == 1
    ensures UsesOnly(FaceCalls(sh, cube, level, face), sh.id)
    ensures forall e | e in FaceCalls(sh, cube, level, face) :: !e.BindFramebuffer?
  {
    var head := FaceCalls(sh, cube, level, face)[..4];
    assert NoDraws(head);
    NoDrawCount(head);
    assert FaceCalls(sh, cube, level, face) == head + [DrawArrays(Triangles, CubeVertexCount)];
    DrawCountAppend(head, [DrawArrays(Triangles, CubeVertexCount)]);
  }

  /** The face loop draws once per face, with the given shader only, and
      binds no framebuffer. */
  lemma {:induction false} FacesCallsShape(sh: Shader, cube: Name, level: nat, n: nat)
    ensures |FacesCalls(sh, cube, level, n)| == 5 * n
    ensures DrawCount(FacesCalls(sh, cube, level, n)) == n
    ensures UsesOnly(FacesCalls(sh, cube, level, n), sh.id)
    ensures forall e | e in FacesCalls(sh, cube, level, n) :: !e.BindFramebuffer?
  {
    if n > 0 {
      FacesCallsShape(sh, cube, level, n - 1);
      FaceCallsShape(sh, cube, level, n - 1);
      DrawCountAppend(FacesCalls(sh, cube, level, n - 1), FaceCalls(sh, cube, level, n - 1));
    }
  }

  lemma {:induction false} FacesCallsLength(sh: Shader, cube: Name, level: nat, n: nat)
    ensures |FacesCalls(sh, cube, level, n)| == 5 * n
  {
    if n > 0 {
      FacesCallsLength(sh, cube, level, n - 1);
    }
  }

  /** Face f occupies calls 5f to 5f + 4 of the loop: its own attachment
      at the loop's level, cleared before its draw. */
  lemma {:induction false} FacesCallsAt(sh: Shader, cube: Name, level: nat, n: nat, f: nat)
    requires f < n
    ensures |FacesCalls(sh, cube, level, n)| == 5 * n
    ensures FacesCalls(sh, cube, level, n)[5 * f .. 5 * f + 5] == FaceCalls(sh, cube, level, f)
  {
    var a := FacesCalls(sh, cube, level, n - 1);
    FacesCallsLength(sh, cube, level, n - 1);
    FacesCallsLength(sh, cube, level, n);
    if f < n - 1 {
      FacesCallsAt(sh, cube, level, n - 1, f);
      assert (a + FaceCalls(sh, cube, level, n - 1))[5 * f .. 5 * f + 5] == a[5 * f .. 5 * f + 5];
    } else {
      assert (a + FaceCalls(sh, cube, level, n - 1))[5 * f .. 5 * f + 5] == FaceCalls(sh, cube, level, n - 1);
    }
  }

  // ------------------------------------------------------------ stages

  /** The capture framebuffer bound, its depth storage resized and the
      viewport set to `size` by `size`. */
  function TargetCalls(fb: Name, rb: Name, size: nat): seq<Event>
  {
    [BindFramebuffer(fb), BindRenderbuffer(rb), RenderbufferStorage(Depth24Stencil8, size, size), Viewport(size, size)]
  }

  /** Stage 1: the HDR picture on unit 0, six faces of the environment map at 2048. */
  function EnvironmentStage(fb: Name, rb: Name, sh: Shader, t: PrecomputeTextures): seq<Event>
  {
    TargetCalls(fb, rb, EnvironmentResolution)
    + [UseProgram(sh.id), SetUniform(sh.id, "proj", CaptureProjection), ActiveTexture(0), BindTexture(Texture2D, t.hdrEnvironment)]
    + FacesCalls(sh, t.environmentMap, 0, CubeFaces())
  }

  /** Stage 2: the same picture, six faces of the irradiance map at 32. */
  function IrradianceStage(fb: Name, rb: Name, sh: Shader, t: PrecomputeTextures): seq<Event>
  {
    [UseProgram(sh.id), SetUniform(sh.id, "proj", CaptureProjection), ActiveTexture(0), BindTexture(Texture2D, t.hdrEnvironment)]
    + TargetCalls(fb, rb, IrradianceResolution)
    + FacesCalls(sh, t.irradianceMap, 0, CubeFaces())
    + [UseProgram(0)]
  }

  /** One prefilter level: the target at that level's size, its roughness,
      then six faces written at that level. */
  function MipCalls(fb: Name, rb: Name, sh: Shader, cube: Name, mip: nat): seq<Event>
    requires mip < MaxMipLevels()
  {
    TargetCalls(fb, rb, PrefilterMipSize(mip))
    + [SetUniform(sh.id, "roughness", FloatValue(Roughness(mip)))]
    + FacesCalls(sh, cube, mip, CubeFaces())
  }

  /** Levels 0 to n - 1 in turn. */
  function MipsCalls(fb: Name, rb: Name, sh: Shader, cube: Name, n: nat): seq<Event>
    requires n <= MaxMipLevels()
  {
    if n == 0 then [] else MipsCalls(fb, rb, sh, cube, n - 1) + MipCalls(fb, rb, sh, cube, n - 1)
  }

  /** Stage 3: the environment map on unit 0, then every prefilter level. */
  function PrefilterStage(fb: Name, rb: Name, sh: Shader, t: PrecomputeTextures): seq<Event>
  {
    [UseProgram(sh.id), ActiveTexture(0), BindTexture(CubeMap, t.environmentMap), SetUniform(sh.id, "proj", CaptureProjection)]
    + MipsCalls(fb, rb, sh, t.prefilterMap, MaxMipLevels())
    + [UseProgram(0)]
  }

  /** Stage 4: the lookup table as the colour target at 512, one quad. */
  function BrdfStage(fb: Name, rb: Name, sh: Shader, t: PrecomputeTextures): seq<Event>
  {
    [UseProgram(sh.id), ActiveTexture(0), BindTexture(Texture2D, t.brdfLut),
     BindFramebuffer(fb), BindRenderbuffer(rb), RenderbufferStorage(Depth24Stencil8, BrdfResolution, BrdfResolution),
     AttachTexture(Color(0), Texture2D, t.brdfLut, 0), Viewport(BrdfResolution, BrdfResolution),
     Clear(true, true, false), UseProgram(sh.id), DrawArrays(TriangleStrip, QuadVertexCount), UseProgram(0)]
  }

  /** The whole bake with the four stage shaders, then the default
      framebuffer rebound. */
  function BakeCalls(fb: Name, rb: Name, s0: Shader, s1: Shader, s2: Shader, s3: Shader, t: PrecomputeTextures): seq<Event>
  {
    EnvironmentStage(fb, rb, s0, t) + IrradianceStage(fb, rb, s1, t) + PrefilterStage(fb, rb, s2, t) + BrdfStage(fb, rb, s3, t)
    + [BindFramebuffer(0)]
  }

  // ------------------------------------------------------------ stage properties

  lemma TargetCallsShape(fb: Name, rb: Name, size: nat)
    ensures NoDraws(TargetCalls(fb, rb, size)) && BindsOnly(TargetCalls(fb, rb, size), fb)
    ensures UsesOnly(TargetCalls(fb, rb, size), 0)
  {
  }

  /** A prefilter level is 35 calls long. */
  lemma MipCallsLength(fb: Name, rb: Name, sh: Shader, cube: Name, mip: nat)
    requires mip < MaxMipLevels()
    ensures |MipCalls(fb, rb, sh, cube, mip)| == 35
  {
    FacesCallsLength(sh, cube, mip, CubeFaces());
  }

  /** A prefilter level binds only the capture framebuffer and switches to
      no program but the stage's. */
  lemma MipCallsOnly(fb: Name, rb: Name, sh: Shader, cube: Name, mip: nat)
    requires mip < MaxMipLevels()
    ensures BindsOnly(MipCalls(fb, rb, sh, cube, mip), fb) && UsesOnly(MipCalls(fb, rb, sh, cube, mip), sh.id)
  {
    var head := TargetCalls(fb, rb, PrefilterMipSize(mip)) + [SetUniform(sh.id, "roughness", FloatValue(Roughness(mip)))];
    FacesCallsShape(sh, cube, mip, CubeFaces());
    JoinConditions(head, FacesCalls(sh, cube, mip, CubeFaces()), fb, sh.id);
  }

  /** A prefilter level draws six times, binds only the capture framebuffer
      and switches to no program but the stage's. */
  lemma MipCallsShape(fb: Name, rb: Name, sh: Shader, cube: Name, mip: nat)
    requires mip < MaxMipLevels()
    ensures |MipCalls(fb, rb, sh, cube, mip)| == 35
    ensures DrawCount(MipCalls(fb, rb, sh, cube, mip)) == 6
    ensures BindsOnly(MipCalls(fb, rb, sh, cube, mip), fb) && UsesOnly(MipCalls(fb, rb, sh, cube, mip), sh.id)
  {
    var head := TargetCalls(fb, rb, PrefilterMipSize(mip)) + [SetUniform(sh.id, "roughness", FloatValue(Roughness(mip)))];
    FacesCallsShape(sh, cube, mip, CubeFaces());
    assert NoDraws(head);
    NoDrawCount(head);
    DrawCountAppend(head, FacesCalls(sh, cube, mip, CubeFaces()));
  }

  /** The level loop is the previous levels followed by level n - 1. */
  lemma MipsCallsUnfold(fb: Name, rb: Name, sh: Shader, cube: Name, n: nat)
    requires 0 < n <= MaxMipLevels()
    ensures MipsCalls(fb, rb, sh, cube, n) == MipsCalls(fb, rb, sh, cube, n - 1) + MipCalls(fb, rb, sh, cube, n - 1)
  {
  }

  /** The level loop makes 35 calls per level. */
  lemma {:induction false} MipsCallsLength(fb: Name, rb: Name, sh: Shader, cube: Name, n: nat)
    requires n <= MaxMipLevels()
    ensures |MipsCalls(fb, rb, sh, cube, n)| == 35 * n
  {
    if n > 0 {
      MipsCallsLength(fb, rb, sh, cube, n - 1);
      MipCallsLength(fb, rb, sh, cube, n - 1);
      MipsCallsUnfold(fb, rb, sh, cube, n);
    } else {
      assert MipsCalls(fb, rb, sh, cube, 0) == [];
    }
  }

  /** The level loop draws six times per level. */
  lemma {:induction false} MipsCallsDraws(fb: Name, rb: Name, sh: Shader, cube: Name, n: nat)
    requires n <= MaxMipLevels()
    ensures DrawCount(MipsCalls(fb, rb, sh, cube, n)) == 6 * n
  {
    if n > 0 {
      var a := MipsCalls(fb, rb, sh, cube, n - 1);
      var b := MipCalls(fb, rb, sh, cube, n - 1);
      MipsCallsDraws(fb, rb, sh, cube, n - 1);
      MipCallsShape(fb, rb, sh, cube, n - 1);
      MipsCallsUnfold(fb, rb, sh, cube, n);
      DrawCountAppend(a, b);
    } else {
      assert MipsCalls(fb, rb, sh, cube, 0) == [];
    }
  }

  /** The level loop binds only the capture framebuffer. */
  lemma {:induction false} MipsCallsBinds(fb: Name, rb: Name, sh: Shader, cube: Name, n: nat)
    requires n <= MaxMipLevels()
    ensures BindsOnly(MipsCalls(fb, rb, sh, cube, n), fb)
  {
    if n > 0 {
      var a := MipsCalls(fb, rb, sh, cube, n - 1);
      var b := MipCalls(fb, rb, sh, cube, n - 1);
      MipsCallsBinds(fb, rb, sh, cube, n - 1);
      MipCallsOnly(fb, rb, sh, cube, n - 1);
      MipsCallsUnfold(fb, rb, sh, cube, n);
      BindsJoin(a, b, fb);
    } else {
      assert MipsCalls(fb, rb, sh, cube, 0) == [];
    }
  }

  /** The level loop switches to no program but the stage's. */
  lemma {:induction false} MipsCallsUses(fb: Name, rb: Name, sh: Shader, cube: Name, n: nat)
    requires n <= MaxMipLevels()
    ensures UsesOnly(MipsCalls(fb, rb, sh, cube, n), sh.id)
  {
    if n > 0 {
      var a := MipsCalls(fb, rb, sh, cube, n - 1);
      var b := MipCalls(fb, rb, sh, cube, n - 1);
      MipsCallsUses(fb, rb, sh, cube, n - 1);
      MipCallsOnly(fb, rb, sh, cube, n - 1);
      MipsCallsUnfold(fb, rb, sh, cube, n);
      UsesJoin(a, b, sh.id);
    } else {
      assert MipsCalls(fb, rb, sh, cube, 0) == [];
    }
  }

  /** The level loop: 35 calls and six draws per level, the capture
      framebuffer and the stage's shader only. */
  lemma MipsCallsShape(fb: Name, rb: Name, sh: Shader, cube: Name, n: nat)
    requires n <= MaxMipLevels()
    ensures |MipsCalls(fb, rb, sh, cube, n)| == 35 * n
    ensures DrawCount(MipsCalls(fb, rb, sh, cube, n)) == 6 * n
    ensures BindsOnly(MipsCalls(fb, rb, sh, cube, n), fb) && UsesOnly(MipsCalls(fb, rb, sh, cube, n), sh.id)
  {
    MipsCallsLength(fb, rb, sh, cube, n);
    MipsCallsDraws(fb, rb, sh, cube, n);
    MipsCallsBinds(fb, rb, sh, cube, n);
    MipsCallsUses(fb, rb, sh, cube, n);
  }

  /** Level m occupies calls 35m to 35m + 34 of the level loop. */
  lemma {:induction false} MipsCallsAt(fb: Name, rb: Name, sh: Shader, cube: Name, n: nat, m: nat)
    requires m < n <= MaxMipLevels()
    ensures |MipsCalls(fb, rb, sh, cube, n)| == 35 * n
    ensures MipsCalls(fb, rb, sh, cube, n)[35 * m .. 35 * m + 35] == MipCalls(fb, rb, sh, cube, m)
  {
    var a := MipsCalls(fb, rb, sh, cube, n - 1);
    var b := MipCalls(fb, rb, sh, cube, n - 1);
    MipsCallsLength(fb, rb, sh, cube, n - 1);
    MipCallsLength(fb, rb, sh, cube, n - 1);
    MipsCallsUnfold(fb, rb, sh, cube, n);
    if m < n - 1 {
      MipsCallsAt(fb, rb, sh, cube, n - 1, m);
      assert (a + b)[35 * m .. 35 * m + 35] == a[35 * m .. 35 * m + 35];
    } else {
      assert (a + b)[35 * m .. 35 * m + 35] == b;
    }
  }

  /** Within a prefilter level: the level's size as viewport, its roughness,
      and face f of the cube at this level as the target of the level's
      f-th draw, cleared first. */
  lemma MipCallsAt(fb: Name, rb: Name, sh: Shader, cube: Name, mip: nat, f: nat)
    requires mip < MaxMipLevels() && f < CubeFaces()
    ensures |MipCalls(fb, rb, sh, cube, mip)| == 35
    ensures MipCalls(fb, rb, sh, cube, mip)[3] == Viewport(PrefilterMipSize(mip), PrefilterMipSize(mip))
    ensures MipCalls(fb, rb, sh, cube, mip)[4] == SetUniform(sh.id, "roughness", FloatValue(Roughness(mip)))
    ensures MipCalls(fb, rb, sh, cube, mip)[5 + 5 * f .. 10 + 5 * f] == FaceCalls(sh, cube, mip, f)
  {
    MipCallsShape(fb, rb, sh, cube, mip);
    FacesCallsAt(sh, cube, mip, CubeFaces(), f);
    var head := TargetCalls(fb, rb, PrefilterMipSize(mip)) + [SetUniform(sh.id, "roughness", FloatValue(Roughness(mip)))];
    assert MipCalls(fb, rb, sh, cube, mip) == head + FacesCalls(sh, cube, mip, CubeFaces());
    assert MipCalls(fb, rb, sh, cube, mip)[5 + 5 * f .. 10 + 5 * f] == FacesCalls(sh, cube, mip, CubeFaces())[5 * f .. 5 * f + 5];
  }

  /** Stage 1 opens by binding the capture framebuffer, binds no other,
      and draws six times with its own shader whatever was in use before. */
  lemma EnvironmentStageShape(s: State, fb: Name, rb: Name, sh: Shader, t: PrecomputeTextures)
    ensures DrawCount(EnvironmentStage(fb, rb, sh, t)) == 6
    ensures BindsOnly(EnvironmentStage(fb, rb, sh, t), fb) && EnvironmentStage(fb, rb, sh, t)[0] == BindFramebuffer(fb)
    ensures DrawsUsing(s, EnvironmentStage(fb, rb, sh, t), sh.id)
  {
    var mid := [SetUniform(sh.id, "proj", CaptureProjection), ActiveTexture(0), BindTexture(Texture2D, t.hdrEnvironment)];
    var faces := FacesCalls(sh, t.environmentMap, 0, CubeFaces());
    FacesCallsShape(sh, t.environmentMap, 0, CubeFaces());
    assert EnvironmentStage(fb, rb, sh, t) == TargetCalls(fb, rb, EnvironmentResolution) + [UseProgram(sh.id)] + (mid + faces) + [];
    StageShape(s, fb, sh.id, TargetCalls(fb, rb, EnvironmentResolution), mid, faces, []);
  }

  /** Stage 2: six draws with its own shader, only the capture framebuffer bound. */
  lemma IrradianceStageShape(s: State, fb: Name, rb: Name, sh: Shader, t: PrecomputeTextures)
    ensures DrawCount(IrradianceStage(fb, rb, sh, t)) == 6
    ensures BindsOnly(IrradianceStage(fb, rb, sh, t), fb)
    ensures DrawsUsing(s, IrradianceStage(fb, rb, sh, t), sh.id)
  {
    var mid := [SetUniform(sh.id, "proj", CaptureProjection), ActiveTexture(0), BindTexture(Texture2D, t.hdrEnvironment)]
               + TargetCalls(fb, rb, IrradianceResolution);
    var faces := FacesCalls(sh, t.irradianceMap, 0, CubeFaces());
    FacesCallsShape(sh, t.irradianceMap, 0, CubeFaces());
    assert IrradianceStage(fb, rb, sh, t) == [] + [UseProgram(sh.id)] + (mid + faces) + [UseProgram(0)];
    StageShape(s, fb, sh.id, [], mid, faces, [UseProgram(0)]);
  }

  /** Stage 3: six draws per level, 36 in all, with its own shader. */
  lemma PrefilterStageShape(s: State, fb: Name, rb: Name, sh: Shader, t: PrecomputeTextures)
    ensures DrawCount(PrefilterStage(fb, rb, sh, t)) == 36
    ensures BindsOnly(PrefilterStage(fb, rb, sh, t), fb)
    ensures DrawsUsing(s, PrefilterStage(fb, rb, sh, t), sh.id)
  {
    var mid := [ActiveTexture(0), BindTexture(CubeMap, t.environmentMap), SetUniform(sh.id, "proj", CaptureProjection)];
    var mips := MipsCalls(fb, rb, sh, t.prefilterMap, MaxMipLevels());
    assert NoDraws(mid) && BindsOnly(mid, fb) && UsesOnly(mid, sh.id);
    MipsCallsDraws(fb, rb, sh, t.prefilterMap, MaxMipLevels());
    MipsCallsBinds(fb, rb, sh, t.prefilterMap, MaxMipLevels());
    MipsCallsUses(fb, rb, sh, t.prefilterMap, MaxMipLevels());
    assert PrefilterStage(fb, rb, sh, t) == [] + [UseProgram(sh.id)] + (mid + mips) + [UseProgram(0)];
    StageShape(s, fb, sh.id, [], mid, mips, [UseProgram(0)]);
  }

  /** Stage 4: one quad with its own shader. */
  lemma BrdfStageShape(s: State, fb: Name, rb: Name, sh: Shader, t: PrecomputeTextures)
    ensures DrawCount(BrdfStage(fb, rb, sh, t)) == 1
    ensures BindsOnly(BrdfStage(fb, rb, sh, t), fb)
    ensures DrawsUsing(s, BrdfStage(fb, rb, sh, t), sh.id)
  {
    var b := BrdfStage(fb, rb, sh, t);
    var quad := [UseProgram(sh.id), DrawArrays(TriangleStrip, QuadVertexCount)];
    assert b == [] + [UseProgram(sh.id)] + (b[1..9] + quad) + [UseProgram(0)];
    assert NoDraws([UseProgram(sh.id)]);
    NoDrawCount([UseProgram(sh.id)]);
    DrawCountAppend([UseProgram(sh.id)], [DrawArrays(TriangleStrip, QuadVertexCount)]);
    assert quad == [UseProgram(sh.id)] + [DrawArrays(TriangleStrip, QuadVertexCount)];
    StageShape(s, fb, sh.id, [], b[1..9], quad, [UseProgram(0)]);
  }

  /** The bake draws 6 + 6 + 36 + 1 = 49 times. */
  lemma BakeDrawCount(fb: Name, rb: Name, s0: Shader, s1: Shader, s2: Shader, s3: Shader, t: PrecomputeTextures)
    ensures DrawCount(BakeCalls(fb, rb, s0, s1, s2, s3, t)) == 49
  {
    var a := EnvironmentStage(fb, rb, s0, t);
    var b := IrradianceStage(fb, rb, s1, t);
    var c := PrefilterStage(fb, rb, s2, t);
    var d := BrdfStage(fb, rb, s3, t);
    EnvironmentStageShape(Initial, fb, rb, s0, t);
    IrradianceStageShape(Initial, fb, rb, s1, t);
    PrefilterStageShape(Initial, fb, rb, s2, t);
    BrdfStageShape(Initial, fb, rb, s3, t);
    DrawCountFour(a, b, c, d);
    assert NoDraws([BindFramebuffer(0)]);
    NoDrawCount([BindFramebuffer(0)]);
    DrawCountAppend(a + b + c + d, [BindFramebuffer(0)]);
  }

  /** Every stage binds only the capture framebuffer. */
  lemma StagesBindOnly(fb: Name, rb: Name, s0: Shader, s1: Shader, s2: Shader, s3: Shader, t: PrecomputeTextures)
    ensures BindsOnly(EnvironmentStage(fb, rb, s0, t) + IrradianceStage(fb, rb, s1, t)
                      + PrefilterStage(fb, rb, s2, t) + BrdfStage(fb, rb, s3, t), fb)
  {
    var a := EnvironmentStage(fb, rb, s0, t);
    var b := IrradianceStage(fb, rb, s1, t);
    var c := PrefilterStage(fb, rb, s2, t);
    EnvironmentStageShape(Initial, fb, rb, s0, t);
    IrradianceStageShape(Initial, fb, rb, s1, t);
    PrefilterStageShape(Initial, fb, rb, s2, t);
    BrdfStageShape(Initial, fb, rb, s3, t);
    JoinConditions(a, b, fb, 0);
    JoinConditions(a + b, c, fb, 0);
    JoinConditions(a + b + c, BrdfStage(fb, rb, s3, t), fb, 0);
  }

  /** Whatever the state before, every draw of the bake goes into the
      capture framebuffer, and the bake ends with the default framebuffer
      bound. */
  lemma BakeTarget(s: State, fb: Name, rb: Name, s0: Shader, s1: Shader, s2: Shader, s3: Shader, t: PrecomputeTextures)
    ensures DrawsInto(s, BakeCalls(fb, rb, s0, s1, s2, s3, t), fb)
    ensures Run(s, BakeCalls(fb, rb, s0, s1, s2, s3, t)).framebuffer == 0
  {
    var stages := EnvironmentStage(fb, rb, s0, t) + IrradianceStage(fb, rb, s1, t)
                  + PrefilterStage(fb, rb, s2, t) + BrdfStage(fb, rb, s3, t);
    StagesBindOnly(fb, rb, s0, s1, s2, s3, t);
    assert stages[0] == BindFramebuffer(fb);
    DrawsIntoOpening(s, [], fb, stages);
    assert [] + stages == stages;
    ThenNoDraws(s, stages, [BindFramebuffer(0)], fb, 0);
    RunLast(s, stages, BindFramebuffer(0));
  }

  // ------------------------------------------------------------ loops

  method RenderFaces(dev: Device, cache: ShapeCache, sh: Shader, cube: Name, level: nat)
    requires cache.Valid()
    modifies dev, cache
    ensures cache.Valid() && dev.nextName == old(dev.nextName)
    ensures dev.trace == old(dev.trace) + FacesCalls(sh, cube, level, CubeFaces())
  {
    for i := 0 to CubeFaces()
      invariant cache.Valid() && dev.nextName == old(dev.nextName)
      invariant dev.trace == old(dev.trace) + FacesCalls(sh, cube, level, i)
    {
      dev.Emit([SetUniform(sh.id, "view", CaptureView(i)), AttachTexture(Color(0), CubeFace(i), cube, level),
                Clear(true, true, false)]);
      cache.RenderCube(dev, sh);
    }
  }

  method RenderMips(dev: Device, cache: ShapeCache, fb: Name, rb: Name, sh: Shader, cube: Name)
    requires cache.Valid()
    modifies dev, cache
    ensures cache.Valid() && dev.nextName == old(dev.nextName)
    ensures dev.trace == old(dev.trace) + MipsCalls(fb, rb, sh, cube, MaxMipLevels())
  {
    for mip := 0 to MaxMipLevels()
      invariant cache.Valid() && dev.nextName == old(dev.nextName)
      invariant dev.trace == old(dev.trace) + MipsCalls(fb, rb, sh, cube, mip)
    {
      ghost var before := dev.trace;
      var size := PrefilterMipSize(mip);
      var head := TargetCalls(fb, rb, size) + [SetUniform(sh.id, "roughness", FloatValue(Roughness(mip)))];
      dev.Emit(head);
      RenderFaces(dev, cache, sh, cube, mip);
      RegroupTwo(before, head, FacesCalls(sh, cube, mip, CubeFaces()));
      MipsCallsUnfold(fb, rb, sh, cube, mip + 1);
      RegroupTwo(old(dev.trace), MipsCalls(fb, rb, sh, cube, mip), MipCalls(fb, rb, sh, cube, mip));
    }
  }

  method RenderEnvironment(dev: Device, cache: ShapeCache, fb: Name, rb: Name, sh: Shader, t: PrecomputeTextures)
    requires cache.Valid()
    modifies dev, cache
    ensures cache.Valid() && dev.nextName == old(dev.nextName)
    ensures dev.trace == old(dev.trace) + EnvironmentStage(fb, rb, sh, t)
  {
    dev.Emit(TargetCalls(fb, rb, EnvironmentResolution)
             + [UseProgram(sh.id), SetUniform(sh.id, "proj", CaptureProjection), ActiveTexture(0), BindTexture(Texture2D, t.hdrEnvironment)]);
    RenderFaces(dev, cache, sh, t.environmentMap, 0);
  }

  method RenderIrradiance(dev: Device, cache: ShapeCache, fb: Name, rb: Name, sh: Shader, t: PrecomputeTextures)
    requires cache.Valid()
    modifies dev, cache
    ensures cache.Valid() && dev.nextName == old(dev.nextName)
    ensures dev.trace == old(dev.trace) + IrradianceStage(fb, rb, sh, t)
  {
    dev.Emit([UseProgram(sh.id), SetUniform(sh.id, "proj", CaptureProjection), ActiveTexture(0), BindTexture(Texture2D, t.hdrEnvironment)]);
    dev.Emit(TargetCalls(fb, rb, IrradianceResolution));
    RenderFaces(dev, cache, sh, t.irradianceMap, 0);
    dev.Emit([UseProgram(0)]);
  }

  method RenderPrefilter(dev: Device, cache: ShapeCache, fb: Name, rb: Name, sh: Shader, t: PrecomputeTextures)
    requires cache.Valid()
    modifies dev, cache
    ensures cache.Valid() && dev.nextName == old(dev.nextName)
    ensures dev.trace == old(dev.trace) + PrefilterStage(fb, rb, sh, t)
  {
    dev.Emit([UseProgram(sh.id), ActiveTexture(0), BindTexture(CubeMap, t.environmentMap), SetUniform(sh.id, "proj", CaptureProjection)]);
    RenderMips(dev, cache, fb, rb, sh, t.prefilterMap);
    dev.Emit([UseProgram(0)]);
  }

  method RenderBrdf(dev: Device, cache: ShapeCache, fb: Name, rb: Name, sh: Shader, t: PrecomputeTextures)
    requires cache.Valid()
    modifies dev, cache
    ensures cache.Valid() && dev.nextName == old(dev.nextName)
    ensures dev.trace == old(dev.trace) + BrdfStage(fb, rb, sh, t)
  {
    dev.Emit([UseProgram(sh.id), ActiveTexture(0), BindTexture(Texture2D, t.brdfLut),
              BindFramebuffer(fb), BindRenderbuffer(rb), RenderbufferStorage(Depth24Stencil8, BrdfResolution, BrdfResolution),
              AttachTexture(Color(0), Texture2D, t.brdfLut, 0), Viewport(BrdfResolution, BrdfResolution),
              Clear(true, true, false)]);
    cache.RenderQuad(dev, sh);
    dev.Emit([UseProgram(0)]);
  }

  // ------------------------------------------------------------ the pass

  /** The shader list after Render as written: `shader` is a reference to
      slot 0, so each stage's assignment overwrites slot 0, and the list
      ends with slot 0 holding the BRDF shader. */
  function ShadersAfterBakeAsWritten(shaders: seq<Shader>): (r: seq<Shader>)
    requires |shaders| >= 4
    ensures |r| == |shaders| && r[1..] == shaders[1..]
  {
    shaders[0 := shaders[1]][0 := shaders[2]][0 := shaders[3]]
  }

  /** After one bake as written, slot 0 holds the BRDF shader; with four
      distinct programs the list differs from the one pushed. */
  lemma SlotZeroOverwritten(shaders: seq<Shader>)
    requires |shaders| >= 4
    ensures ShadersAfterBakeAsWritten(shaders)[0] == shaders[3]
    ensures shaders[0] != shaders[3] ==> ShadersAfterBakeAsWritten(shaders) != shaders
  {
    if shaders[0] != shaders[3] {
      assert ShadersAfterBakeAsWritten(shaders)[0] != shaders[0];
    }
  }

  /** A second bake as written renders the environment stage with the BRDF
      shader: the environment map's faces are drawn by program s3, not s0. */
  lemma SecondBakeAsWrittenDiffers(s: State, fb: Name, rb: Name, shaders: seq<Shader>, t: PrecomputeTextures)
    requires |shaders| >= 4 && shaders[0].id != shaders[3].id
    ensures DrawsUsing(s, EnvironmentStage(fb, rb, ShadersAfterBakeAsWritten(shaders)[0], t), shaders[3].id)
    ensures !DrawsUsing(s, EnvironmentStage(fb, rb, ShadersAfterBakeAsWritten(shaders)[0], t), shaders[0].id)
  {
    SlotZeroOverwritten(shaders);
    var stage := EnvironmentStage(fb, rb, shaders[3], t);
    EnvironmentStageShape(s, fb, rb, shaders[3], t);
    if DrawsUsing(s, stage, shaders[0].id) {
      DrawsUsingUnique(s, stage, shaders[3].id, shaders[0].id);
    }
  }

  /** PrecomputePass: a render pass with no constructor of its own; the
      renderer pushes its four stage shaders and binds its framebuffer. */
  class PrecomputePass {
    const base: RenderPass

    constructor ()
      ensures fresh(base) && base.running && base.shaders == [] && base.framebuffer == null
    {
      base := new RenderPass();
    }

    /** Render as the source writes it: the stages draw with shaders 0 to
        3, and slot 0 is overwritten by each later stage's shader. */
    method RenderAsWritten(dev: Device, cache: ShapeCache, ctx: PrecomputeContext)
      requires base.framebuffer != null && |base.shaders| >= 4 && cache.Valid()
      modifies dev, cache, base
      ensures cache.Valid() && dev.nextName == old(dev.nextName)
      ensures base.shaders == ShadersAfterBakeAsWritten(old(base.shaders))
      ensures base.running == old(base.running) && base.framebuffer == old(base.framebuffer)
      ensures dev.trace == old(dev.trace)
        + BakeCalls(base.framebuffer.buffer.id, base.framebuffer.GetRenderbufferID(),
                    old(base.shaders[0]), old(base.shaders[1]), old(base.shaders[2]), old(base.shaders[3]), ctx.textures)
    {
      var fb := base.framebuffer.buffer.id;
      var rb := base.framebuffer.GetRenderbufferID();
      var t := ctx.textures;
      ghost var t0 := dev.trace;
      // `shader` names slot 0 of the list; each stage's assignment writes there
      var slots := base.shaders;
      RenderEnvironment(dev, cache, fb, rb, slots[0], t);
      slots := slots[0 := slots[1]];
      RenderIrradiance(dev, cache, fb, rb, slots[0], t);
      slots := slots[0 := slots[2]];
      RenderPrefilter(dev, cache, fb, rb, slots[0], t);
      slots := slots[0 := slots[3]];
      RenderBrdf(dev, cache, fb, rb, slots[0], t);
      dev.Emit([BindFramebuffer(0)]);
      base.shaders := slots;
      ghost var s0, s1, s2, s3 := old(base.shaders[0]), old(base.shaders[1]), old(base.shaders[2]), old(base.shaders[3]);
      Regroup(t0, EnvironmentStage(fb, rb, s0, t), IrradianceStage(fb, rb, s1, t),
              PrefilterStage(fb, rb, s2, t), BrdfStage(fb, rb, s3, t), [BindFramebuffer(0)]);
    }

    /** Render with `shader` as a local handle: the same calls, and the
        shader list is left as it was. */
    method Render(dev: Device, cache: ShapeCache, ctx: PrecomputeContext)
      requires base.framebuffer != null && |base.shaders| >= 4 && cache.Valid()
      modifies dev, cache
      ensures cache.Valid() && dev.nextName == old(dev.nextName)
      ensures dev.trace == old(dev.trace)
        + BakeCalls(base.framebuffer.buffer.id, base.framebuffer.GetRenderbufferID(),
                    base.shaders[0], base.shaders[1], base.shaders[2], base.shaders[3], ctx.textures)
    {
      var fb := base.framebuffer.buffer.id;
      var rb := base.framebuffer.GetRenderbufferID();
      var t := ctx.textures;
      ghost var t0 := dev.trace;
      var shader := base.shaders[0];
      RenderEnvironment(dev, cache, fb, rb, shader, t);
      shader := base.shaders[1];
      RenderIrradiance(dev, cache, fb, rb, shader, t);
      shader := base.shaders[2];
      RenderPrefilter(dev, cache, fb, rb, shader, t);
      shader := base.shaders[3];
      RenderBrdf(dev, cache, fb, rb, shader, t);
      dev.Emit([BindFramebuffer(0)]);
      Regroup(t0, EnvironmentStage(fb, rb, base.shaders[0], t), IrradianceStage(fb, rb, base.shaders[1], t),
              PrefilterStage(fb, rb, base.shaders[2], t), BrdfStage(fb, rb, base.shaders[3], t), [BindFramebuffer(0)]);
    }
  }
}
