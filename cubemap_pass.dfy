// CubeMapPass (CubeMapPass.hpp): the skybox. One cube is drawn into the
// pass's framebuffer with the camera's rotation only, under a depth test
// that lets the skybox pass where the depth buffer still holds the far
// plane; the depth test and the default framebuffer are restored after.
module CubeMapPasses {
  import opened LinearAlgebra
  import opened GL
  import opened Shaders
  import opened Shapes
  import opened Framebuffers
  import opened RenderPasses

  /** mat4(mat3(m)): the upper-left 3x3 block is kept, the translation and
      the bottom row are dropped, and [3][3] is 1. */
  function RotationOnly(m: Mat4): (r: Mat4)
    ensures forall i, j | 0 <= i < 3 && 0 <= j < 3 :: r[i][j] == m[i][j]
    ensures forall i | 0 <= i < 3 :: r[i][3] == 0.0 && r[3][i] == 0.0
    ensures r[3][3] == 1.0
  {
    [[m[0][0], m[0][1], m[0][2], 0.0],
     [m[1][0], m[1][1], m[1][2], 0.0],
     [m[2][0], m[2][1], m[2][2], 0.0],
     [0.0, 0.0, 0.0, 1.0]]
  }

  /** A matrix with no translation part and an identity bottom-right corner. */
  predicate IsRotationOnly(m: Mat4)
  {
    (forall i | 0 <= i < 3 :: m[i][3] == 0.0 && m[3][i] == 0.0) && m[3][3] == 1.0
  }

  /** Two matrices that agree entry by entry are equal. */
  lemma MatrixEquality(a: Mat4, b: Mat4)
    requires forall i, j | 0 <= i < 4 && 0 <= j < 4 :: a[i][j] == b[i][j]
    ensures a == b
  {
    forall i | 0 <= i < 4
      ensures a[i] == b[i]
    {
      assert |a[i]| == 4 && |b[i]| == 4;
      assert forall j | 0 <= j < 4 :: a[i][j] == b[i][j];
    }
  }

  /** RotationOnly leaves a matrix alone exactly when the matrix already has
      no translation part: its fixed points are the rotation-only matrices. */
  lemma RotationOnlyFixedPoints(m: Mat4)
    ensures RotationOnly(m) == m <==> IsRotationOnly(m)
  {
    var r := RotationOnly(m);
    if IsRotationOnly(m) {
      forall i, j | 0 <= i < 4 && 0 <= j < 4
        ensures r[i][j] == m[i][j]
      {
        if i == 3 && j < 3 {
          assert m[3][j] == 0.0;
        }
      }
      MatrixEquality(r, m);
    }
  }

  /** Dropping the translation twice is dropping it once, and the identity
      view is unchanged. */
  lemma RotationOnlyIdempotent(m: Mat4)
    ensures RotationOnly(RotationOnly(m)) == RotationOnly(m)
    ensures RotationOnly(Identity()) == Identity()
  {
    RotationOnlyFixedPoints(RotationOnly(m));
    RotationOnlyFixedPoints(Identity());
  }

  /** The camera uploads: the rotation-only view and the projection. */
  function SkyboxUploads(sh: Shader, cam: Camera): (r: seq<Event>)
    ensures Uploads(r)
  {
    [SetUniform(sh.id, "view", MatrixValue(RotationOnly(cam.view))),
     SetUniform(sh.id, "proj", MatrixValue(cam.projection))]
  }

  /** The calls before the skybox draw: bind the pass's framebuffer, relax
      the depth test to LEQUAL, bind shader `sh`, upload the camera. */
  function SkyboxSetup(fb: Name, sh: Shader, cam: Camera): seq<Event>
  {
    [BindFramebuffer(fb), DepthFunc(LEqual), UseProgram(sh.id)] + SkyboxUploads(sh, cam) + [UseProgram(sh.id)]
  }

  /** The calls after the draw: unbind the shader, restore LESS, bind the
      default framebuffer. */
  const SkyboxTeardown: seq<Event> := [UseProgram(0), DepthFunc(Less), BindFramebuffer(0)]

  /** The calls CubeMapPass::Render makes: the set-up, one cube, the teardown. */
  function SkyboxCalls(fb: Name, sh: Shader, cam: Camera): seq<Event>
  {
    SkyboxSetup(fb, sh, cam) + [DrawArrays(Triangles, CubeVertexCount)] + SkyboxTeardown
  }

  /** The set-up neither draws nor clears. */
  lemma SkyboxSetupQuiet(fb: Name, sh: Shader, cam: Camera)
    ensures NoDraws(SkyboxSetup(fb, sh, cam))
    ensures forall e | e in SkyboxSetup(fb, sh, cam) :: !e.Clear?
  {
    var u := SkyboxUploads(sh, cam);
    assert forall e | e in u :: e.SetUniform?;
  }

  /** After the set-up the pass's framebuffer, shader `sh` and LEQUAL are in force. */
  lemma SkyboxSetupState(s: State, fb: Name, sh: Shader, cam: Camera)
    ensures Run(s, SkyboxSetup(fb, sh, cam)).framebuffer == fb
    ensures Run(s, SkyboxSetup(fb, sh, cam)).program == sh.id
    ensures Run(s, SkyboxSetup(fb, sh, cam)).depthFunc == LEqual
  {
    var a := [BindFramebuffer(fb), DepthFunc(LEqual), UseProgram(sh.id)];
    var u := SkyboxUploads(sh, cam);
    RunThree(s, BindFramebuffer(fb), DepthFunc(LEqual), UseProgram(sh.id));
    UploadsRun(Run(s, a), u);
    RunThreeParts(s, a, u, [UseProgram(sh.id)]);
    RunSingle(Run(s, a), UseProgram(sh.id));
  }

  /** The teardown neither draws nor clears. */
  lemma SkyboxTeardownQuiet()
    ensures NoDraws(SkyboxTeardown)
    ensures forall e | e in SkyboxTeardown :: !e.Clear?
  {
  }

  /** The teardown leaves LESS, no program and the default framebuffer. */
  lemma SkyboxTeardownState(s: State)
    ensures Run(s, SkyboxTeardown).depthFunc == Less
    ensures Run(s, SkyboxTeardown).framebuffer == 0
    ensures Run(s, SkyboxTeardown).program == 0
  {
    RunThree(s, UseProgram(0), DepthFunc(Less), BindFramebuffer(0));
  }

  /** The skybox is one draw, made into the pass's framebuffer with shader
      `sh` while the depth test is LEQUAL; nothing is cleared, and the pass
      ends with LESS restored, no program in use and the default
      framebuffer bound. */
  lemma SkyboxPass(s: State, fb: Name, sh: Shader, cam: Camera)
    ensures DrawCount(SkyboxCalls(fb, sh, cam)) == 1
    ensures DrawsInto(s, SkyboxCalls(fb, sh, cam), fb)
    ensures DrawsUsing(s, SkyboxCalls(fb, sh, cam), sh.id)
    ensures Run(s, SkyboxSetup(fb, sh, cam)).depthFunc == LEqual
    ensures forall e | e in SkyboxCalls(fb, sh, cam) :: !e.Clear?
    ensures Run(s, SkyboxCalls(fb, sh, cam)).depthFunc == Less
    ensures Run(s, SkyboxCalls(fb, sh, cam)).framebuffer == 0
    ensures Run(s, SkyboxCalls(fb, sh, cam)).program == 0
  {
    var setup := SkyboxSetup(fb, sh, cam);
    var draw := DrawArrays(Triangles, CubeVertexCount);
    SkyboxSetupQuiet(fb, sh, cam);
    SkyboxSetupState(s, fb, sh, cam);
    SkyboxTeardownQuiet();
    SkyboxTeardownState(Step(Run(s, setup), draw));
    SingleDraw(s, setup, draw, SkyboxTeardown, fb, sh.id);
    RunLast(s, setup, draw);
    RunAppend(s, setup + [draw], SkyboxTeardown);
  }

  /** CubeMapPass: a render pass with no constructor of its own; the renderer
      pushes the skybox shader and binds the framebuffer. */
  class CubeMapPass {
    const base: RenderPass

    constructor ()
      ensures fresh(base) && base.running && base.shaders == [] && base.framebuffer == null
    {
      base := new RenderPass();
    }

    method Render(dev: Device, cache: ShapeCache, cam: Camera)
      requires base.framebuffer != null && |base.shaders| >= 1 && cache.Valid()
      modifies dev, cache
      ensures cache.Valid() && dev.nextName == old(dev.nextName)
      ensures dev.trace == old(dev.trace) + SkyboxCalls(base.framebuffer.buffer.id, base.shaders[0], cam)
    {
      ghost var t0 := dev.trace;
      var sh := base.shaders[0];
      dev.Emit([BindFramebuffer(base.framebuffer.buffer.id), DepthFunc(LEqual), UseProgram(sh.id)]);
      dev.Emit(SkyboxUploads(sh, cam));
      cache.RenderCube(dev, sh);
      dev.Emit(SkyboxTeardown);
    }
  }
}
