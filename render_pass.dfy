// RenderPass.hpp: the state every render pass keeps (its running flag, its
// shader list and the framebuffer it draws into), the precompute context the
// environment-lighting bake fills, and the shadow-map depth pass, which draws
// every mesh of every mesh-renderer entity from the light's point of view.
module RenderPasses {
  import opened Wrappers
  import opened LinearAlgebra
  import opened GL
  import opened Textures
  import opened FramebufferSpecs
  import opened Framebuffers
  import opened Shaders
  import opened Meshes
  import opened Entities

  /** What a pass reads from a camera: its matrices and clip planes. The
      camera's position and direction only reach shaders as vectors. */
  datatype Camera = Camera(view: Mat4, projection: Mat4, nearClip: real, farClip: real)

  /** The uniform uploads of a camera's two matrices under the given names. */
  function MatrixUniforms(sh: Shader, viewName: string, projName: string, cam: Camera): seq<Event>
  {
    [SetUniform(sh.id, viewName, MatrixValue(cam.view)), SetUniform(sh.id, projName, MatrixValue(cam.projection))]
  }

  /** A shader loaded from two files whose names the caller passes in. */
  method LoadShader(dev: Device, vert: string, frag: string) returns (sh: Shader)
    modifies dev
    ensures sh.id == old(dev.nextName) + 2 && dev.nextName == sh.id + 1
    ensures dev.trace == old(dev.trace) + LoadCalls(dev.files, vert, frag, old(dev.nextName))
    ensures dev.geometryTrace == old(dev.geometryTrace) && dev.nextGeometryName == old(dev.nextGeometryName)
  {
    sh := New(dev, vert, frag);
  }

  /** Loading shaders from the given (vertex, fragment) file pairs, in
      order, with names handed out from `n` on: three per shader. */
  function LoadsFrom(files: map<string, string>, pairs: seq<(string, string)>, n: Name): seq<Event>
  {
    if pairs == [] then []
    else LoadsFrom(files, pairs[..|pairs| - 1], n) + LoadCalls(files, pairs[|pairs| - 1].0, pairs[|pairs| - 1].1, n + 3 * (|pairs| - 1))
  }

  /** Program names three apart, the first `n + 2`. */
  predicate SpacedIds(shaders: seq<Shader>, n: Name)
  {
    forall k | 0 <= k < |shaders| :: shaders[k].id == n + 3 * k + 2
  }

  lemma SpacedIdsExtend(shaders: seq<Shader>, sh: Shader, n: Name)
    requires SpacedIds(shaders, n) && sh.id == n + 3 * |shaders| + 2
    ensures SpacedIds(shaders + [sh], n)
  {
  }

  lemma LoadsFromStep(files: map<string, string>, pairs: seq<(string, string)>, n: Name, i: nat, t: seq<Event>)
    requires i < |pairs|
    ensures t + LoadsFrom(files, pairs[..i + 1], n) == t + LoadsFrom(files, pairs[..i], n) + LoadCalls(files, pairs[i].0, pairs[i].1, n + 3 * i)
  {
    assert pairs[..i + 1][..i] == pairs[..i];
  }

  /** Shaders loaded one after the other: the `k`th gets program name
      `n + 3k + 2`. */
  method LoadShaders(dev: Device, pairs: seq<(string, string)>) returns (shaders: seq<Shader>)
    modifies dev
    ensures |shaders| == |pairs| && dev.nextName == old(dev.nextName) + 3 * |pairs|
    ensures forall k | 0 <= k < |pairs| :: shaders[k].id == old(dev.nextName) + 3 * k + 2
    ensures dev.trace == old(dev.trace) + LoadsFrom(dev.files, pairs, old(dev.nextName))
    ensures dev.geometryTrace == old(dev.geometryTrace)
  {
    shaders := [];
    for i := 0 to |pairs|
      invariant |shaders| == i && dev.nextName == old(dev.nextName) + 3 * i
      invariant SpacedIds(shaders, old(dev.nextName))
      invariant dev.trace == old(dev.trace) + LoadsFrom(dev.files, pairs[..i], old(dev.nextName))
      invariant dev.geometryTrace == old(dev.geometryTrace)
    {
      LoadsFromStep(dev.files, pairs, old(dev.nextName), i, old(dev.trace));
      var sh := LoadShader(dev, pairs[i].0, pairs[i].1);
      SpacedIdsExtend(shaders, sh, old(dev.nextName));
      shaders := shaders + [sh];
    }
    assert pairs[..|pairs|] == pairs;
  }

  // ------------------------------------------------------------ mesh drawing

  /** The calls of Render on each mesh in turn. */
  function MeshCalls(sh: Shader, ms: seq<Mesh>): seq<Event>
    decreases |ms|
  {
    if ms == [] then []
    else MeshCalls(sh, ms[..|ms| - 1]) + RenderCalls(sh, ms[|ms| - 1].textures, |ms[|ms| - 1].indices|)
  }

  /** Rendering a mesh list draws once per mesh, binds no framebuffer and
      switches to no program but the given shader's. */
  lemma {:induction false} MeshCallsShape(sh: Shader, ms: seq<Mesh>)
    ensures DrawCount(MeshCalls(sh, ms)) == |ms|
    ensures BindsOnly(MeshCalls(sh, ms), 0) && (forall e | e in MeshCalls(sh, ms) :: !e.BindFramebuffer?)
    ensures UsesOnly(MeshCalls(sh, ms), sh.id)
    ensures forall e | e in MeshCalls(sh, ms) :: KeepsStencil(e)
    decreases |ms|
  {
    if ms != [] {
      var last := ms[|ms| - 1];
      MeshCallsShape(sh, ms[..|ms| - 1]);
      RenderCallsShape(sh, last.textures, |last.indices|);
      DrawCountAppend(MeshCalls(sh, ms[..|ms| - 1]), RenderCalls(sh, last.textures, |last.indices|));
    }
  }

  /** `for (auto& mesh : meshes) mesh.Render(shader)`. */
  method DrawMeshes(dev: Device, sh: Shader, ms: seq<Mesh>)
    modifies dev, set m | m in ms
    ensures dev.trace == old(dev.trace) + MeshCalls(sh, ms)
    ensures dev.nextName == old(dev.nextName)
  {
    for i := 0 to |ms|
      invariant dev.trace == old(dev.trace) + MeshCalls(sh, ms[..i])
      invariant dev.nextName == old(dev.nextName)
    {
      assert ms[..i + 1][..i] == ms[..i];
      var numbers := ms[i].Render(dev, sh);
    }
    assert ms[..|ms|] == ms;
  }

  /** Every mesh some entity of the view renders. */
  ghost function MeshSet(view: seq<Entity>): set<Mesh>
  {
    set k, m | 0 <= k < |view| && view[k].renderer.Some? && m in view[k].renderer.value.meshes :: m
  }

  /** How many meshes the entities of a view render, all told. */
  function MeshTotal(view: seq<Entity>): nat
    decreases |view|
  {
    if view == [] then 0
    else MeshTotal(view[..|view| - 1])
         + (if view[|view| - 1].renderer.Some? then |view[|view| - 1].renderer.value.meshes| else 0)
  }

  // ------------------------------------------------------------ base pass

  /** The state every pass shares. The framebuffer is a shared pointer in
      the source and may be null. */
  class RenderPass {
    var running: bool
    var shaders: seq<Shader>
    var framebuffer: Framebuffer?

    /** A pass starts running, with no shaders and no framebuffer. */
    constructor ()
      ensures running && shaders == [] && framebuffer == null
    {
      running := true;
      shaders := [];
      framebuffer := null;
    }

    method OnEnable()
      modifies this
      ensures running && shaders == old(shaders) && framebuffer == old(framebuffer)
    {
      running := true;
    }

    method OnDisable()
      modifies this
      ensures !running && shaders == old(shaders) && framebuffer == old(framebuffer)
    {
      running := false;
    }

    method Awake(value: bool)
      modifies this
      ensures running == value && shaders == old(shaders) && framebuffer == old(framebuffer)
    {
      running := value;
    }

    method BindFramebuffer(fb: Framebuffer?)
      modifies this
      ensures framebuffer == fb && running == old(running) && shaders == old(shaders)
    {
      framebuffer := fb;
    }

    method UnbindFramebuffer()
      modifies this
      ensures framebuffer == null && running == old(running) && shaders == old(shaders)
    {
      framebuffer := null;
    }

    /** PushShader: the shader goes at the end, earlier entries stay, and
        the pushed shader is returned. */
    method PushShader(sh: Shader) returns (r: Shader)
      modifies this
      ensures shaders == old(shaders) + [sh] && r == sh
      ensures running == old(running) && framebuffer == old(framebuffer)
    {
      shaders := shaders + [sh];
      r := sh;
    }

    /** The pass's image: colour attachment 0 of its framebuffer. */
    function GetFramebufferImage(): Name
      reads this, framebuffer
      requires framebuffer != null && |framebuffer.colorAttachments| >= 1
    {
      framebuffer.GetColorAttachmentID(0)
    }

    function GetDepthMapID(): Name
      reads this, framebuffer
      requires framebuffer != null
    {
      framebuffer.GetDepthAttachmentID()
    }
  }

  // ------------------------------------------------------------ precompute context

  /** The names of the bake's textures: the HDR environment picture, the
      environment, irradiance and prefilter cube maps and the BRDF table.
      The texture classes that create them are not part of this model. */
  datatype PrecomputeTextures = PrecomputeTextures(
    hdrEnvironment: Name, environmentMap: Name, irradianceMap: Name, prefilterMap: Name, brdfLut: Name)

  /** The precompute framebuffer's attachments: two RGBA colours, a depth
      attachment clamped to its border and an integer colour. */
  function PrecomputeSpecification(): FramebufferSpecification
  {
    WithAttachments([FromFormat(RGBA), FromFormat(RGBA), FromFormat(Depth, Linear, ClampToBorder), FromFormat(RED_INTEGER)])
  }

  /** The precompute framebuffer has three colour attachments (RGBA, RGBA,
      integer) in that order and the depth entry as its depth attachment. */
  lemma PrecomputeSpecificationSplits()
    ensures ColorSpecs(PrecomputeSpecification().attachments)
            == [FromFormat(RGBA), FromFormat(RGBA), FromFormat(RED_INTEGER)]
    ensures DepthSpecOf(PrecomputeSpecification().attachments, DefaultTextureSpecification)
            == FromFormat(Depth, Linear, ClampToBorder)
    ensures !PrecomputeSpecification().swapChainTarget
  {
    var a3 := [FromFormat(RGBA), FromFormat(RGBA), FromFormat(Depth, Linear, ClampToBorder)];
    assert PrecomputeSpecification().attachments == a3 + [FromFormat(RED_INTEGER)];
    PrecomputeColorPrefix(a3);
    assert (a3 + [FromFormat(RED_INTEGER)])[..3] == a3;
    assert ColorSpecs(a3 + [FromFormat(RED_INTEGER)]) == ColorSpecs(a3) + [FromFormat(RED_INTEGER)];
  }

  /** The colour entries of the first three precompute attachments. */
  lemma PrecomputeColorPrefix(a3: seq<TextureSpecification>)
    requires a3 == [FromFormat(RGBA), FromFormat(RGBA), FromFormat(Depth, Linear, ClampToBorder)]
    ensures ColorSpecs(a3) == [FromFormat(RGBA), FromFormat(RGBA)]
  {
    var a1 := [FromFormat(RGBA)];
    var a2 := a1 + [FromFormat(RGBA)];
    assert a1[..0] == [] && a2[..1] == a1 && a3[..2] == a2;
    assert ColorSpecs(a1) == [FromFormat(RGBA)];
    assert ColorSpecs(a2) == [FromFormat(RGBA), FromFormat(RGBA)];
  }

  class PrecomputeContext {
    var textures: PrecomputeTextures
    const framebuffer: Framebuffer

    constructor (dev: Device, textures: PrecomputeTextures)
      modifies dev
      ensures this.textures == textures && fresh(framebuffer) && fresh(framebuffer.buffer) && framebuffer.Valid()
      ensures framebuffer.colorSpecs == [FromFormat(RGBA), FromFormat(RGBA), FromFormat(RED_INTEGER)]
      ensures framebuffer.colorAttachments == [0, 0, 0]
      ensures framebuffer.depthSpec == FromFormat(Depth, Linear, ClampToBorder) && !framebuffer.isSwapChainTarget
      ensures framebuffer.buffer.id == old(dev.nextName) && dev.nextName == old(dev.nextName) + 1
      ensures dev.trace == old(dev.trace) + [Generate(FramebufferObject, framebuffer.buffer.id), BindFramebuffer(framebuffer.buffer.id)]
    {
      this.textures := textures;
      PrecomputeSpecificationSplits();
      framebuffer := new Framebuffer(dev, PrecomputeSpecification());
    }
  }

  // ------------------------------------------------------------ depth pass

  /** The shadow map's fixed resolution. */
  const ShadowResolution := 2048

  /** The depth pass's attachments: depth, RGBA and RGB. */
  function DepthPassSpecification(): FramebufferSpecification
  {
    WithAttachments([FromFormat(Depth), FromFormat(RGBA), FromFormat(RGB)])
  }

  /** Two colour attachments (RGBA, RGB) and the depth entry, not a swap-chain target. */
  lemma DepthPassSpecificationSplits()
    ensures ColorSpecs(DepthPassSpecification().attachments) == [FromFormat(RGBA), FromFormat(RGB)]
    ensures DepthSpecOf(DepthPassSpecification().attachments, DefaultTextureSpecification) == FromFormat(Depth)
    ensures !DepthPassSpecification().swapChainTarget
  {
    var atts := DepthPassSpecification().attachments;
    assert atts[..2][..1][..0] == [];
    assert ColorSpecs(atts[..2][..1]) == [];
    assert ColorSpecs(atts[..2]) == [FromFormat(RGBA)];
    assert DepthSpecOf(atts[..2][..1], DefaultTextureSpecification) == FromFormat(Depth);
    assert DepthSpecOf(atts[..2], DefaultTextureSpecification) == FromFormat(Depth);
  }

  /** The framebuffer the depth pass's constructor builds, before its resize. */
  function DepthPassInitialState(id: Name): (st: FramebufferState)
    ensures st.WellFormed()
  {
    FramebufferState(id, 0, 0, [FromFormat(RGBA), FromFormat(RGB)], [0, 0], FromFormat(Depth), 0, false, 0)
  }

  /** The depth pass's constructor, names from `n`: its framebuffer resized
      to the shadow resolution, then its depth shader. */
  function DepthPassConstruction(files: map<string, string>, n: Name, complete: bool): seq<Event>
  {
    DepthFramebufferCalls(n, complete) + LoadCalls(files, "depth.vert", "depth.frag", n + 5)
  }

  /** The depth pass's framebuffer, names from `n`: created, bound and
      resized to the shadow resolution. */
  function DepthFramebufferCalls(n: Name, complete: bool): seq<Event>
  {
    [Generate(FramebufferObject, n), BindFramebuffer(n)]
    + ResizeCalls(DepthPassInitialState(n), ShadowResolution, ShadowResolution, n + 1, complete)
  }

  /** After the target is bound: the viewport at the shadow resolution and the clear. */
  function DepthTargetSetup(): seq<Event>
  {
    [Viewport(ShadowResolution, ShadowResolution), Clear(true, true, false)]
  }

  /** The light camera's matrices and clip planes. */
  function DepthUniforms(sh: Shader, cam: Camera): (r: seq<Event>)
    ensures NoDraws(r) && UsesOnly(r, sh.id) && BindsOnly(r, 0) && forall e | e in r :: !e.BindFramebuffer?
  {
    MatrixUniforms(sh, "viewLS", "projLS", cam)
    + [SetUniform(sh.id, "farClip", FloatValue(cam.farClip)), SetUniform(sh.id, "nearClip", FloatValue(cam.nearClip))]
  }

  /** One entity: its model matrix, then each of its meshes. */
  function EntityCalls(sh: Shader, e: Entity): seq<Event>
    requires Drawable(e)
  {
    [SetUniform(sh.id, "model", ModelValue(e.transform.value))] + MeshCalls(sh, e.renderer.value.meshes)
  }

  /** The first `n` entities of the view, in view order. */
  function EntitiesCalls(sh: Shader, view: seq<Entity>, n: nat): seq<Event>
    requires n <= |view| && AllDrawable(view)
  {
    if n == 0 then [] else EntitiesCalls(sh, view, n - 1) + EntityCalls(sh, view[n - 1])
  }

  /** The whole pass: front faces culled and the pass's framebuffer bound,
      the drawing, then the shader and the framebuffer unbound. */
  function DepthPassCalls(fb: Name, sh: Shader, cam: Camera, view: seq<Entity>): seq<Event>
    requires AllDrawable(view)
  {
    [Event.CullFace(Front), BindFramebuffer(fb)] + DepthDrawCalls(sh, cam, view) + [UseProgram(0), BindFramebuffer(0)]
  }

  /** The entity loop draws once per mesh, binds no framebuffer and uses
      only the given shader. */
  lemma {:induction false} EntitiesCallsShape(sh: Shader, view: seq<Entity>, n: nat)
    requires n <= |view| && AllDrawable(view)
    ensures DrawCount(EntitiesCalls(sh, view, n)) == MeshTotal(view[..n])
    ensures forall e | e in EntitiesCalls(sh, view, n) :: !e.BindFramebuffer?
    ensures UsesOnly(EntitiesCalls(sh, view, n), sh.id)
  {
    if n > 0 {
      var e := view[n - 1];
      EntitiesCallsShape(sh, view, n - 1);
      MeshCallsShape(sh, e.renderer.value.meshes);
      var one := [SetUniform(sh.id, "model", ModelValue(e.transform.value))];
      assert NoDraws(one);
      NoDrawCount(one);
      DrawCountAppend(one, MeshCalls(sh, e.renderer.value.meshes));
      DrawCountAppend(EntitiesCalls(sh, view, n - 1), EntityCalls(sh, e));
      assert view[..n][..n - 1] == view[..n - 1];
    }
  }

  /** Every entity of the view has its own model matrix uploaded. */
  lemma {:induction false} EntitiesCallsSetModels(sh: Shader, view: seq<Entity>, n: nat, k: nat)
    requires n <= |view| && AllDrawable(view) && k < n
    ensures SetUniform(sh.id, "model", ModelValue(view[k].transform.value)) in EntitiesCalls(sh, view, n)
  {
    if k == n - 1 {
      assert EntityCalls(sh, view[k])[0] == SetUniform(sh.id, "model", ModelValue(view[k].transform.value));
      assert EntitiesCalls(sh, view, n)[|EntitiesCalls(sh, view, n - 1)|] == EntityCalls(sh, view[k])[0];
    } else {
      EntitiesCallsSetModels(sh, view, n - 1, k);
    }
  }

  /** Everything drawn while the depth target is bound. */
  function DepthDrawCalls(sh: Shader, cam: Camera, view: seq<Entity>): seq<Event>
    requires AllDrawable(view)
  {
    DepthTargetSetup() + [UseProgram(sh.id)] + (DepthUniforms(sh, cam) + EntitiesCalls(sh, view, |view|))
  }

  /** While the target is bound: one draw per mesh, each with the depth
      shader, whatever the state before; no framebuffer is bound. */
  lemma DepthDrawCallsShape(s: State, sh: Shader, cam: Camera, view: seq<Entity>)
    requires AllDrawable(view)
    ensures DrawCount(DepthDrawCalls(sh, cam, view)) == MeshTotal(view)
    ensures DrawsUsing(s, DepthDrawCalls(sh, cam, view), sh.id)
    ensures forall e | e in DepthDrawCalls(sh, cam, view) :: !e.BindFramebuffer?
  {
    var pre := DepthTargetSetup();
    var rest := DepthUniforms(sh, cam) + EntitiesCalls(sh, view, |view|);
    EntitiesCallsShape(sh, view, |view|);
    assert view[..|view|] == view;
    JoinConditions(DepthUniforms(sh, cam), EntitiesCalls(sh, view, |view|), 0, sh.id);
    DrawsUsingAfterUse(s, pre, sh.id, rest);
    assert NoDraws(pre + [UseProgram(sh.id)]);
    NoDrawCount(DepthUniforms(sh, cam));
    DrawCountAppend(DepthUniforms(sh, cam), EntitiesCalls(sh, view, |view|));
    NoDrawCount(pre + [UseProgram(sh.id)]);
    DrawCountAppend(pre + [UseProgram(sh.id)], rest);
  }

  /** The depth pass draws exactly once per mesh of every entity in the
      view, every draw into the pass's framebuffer with the depth shader. */
  lemma DepthPassDrawsEveryMesh(s: State, fb: Name, sh: Shader, cam: Camera, view: seq<Entity>)
    requires AllDrawable(view)
    ensures DrawCount(DepthPassCalls(fb, sh, cam, view)) == MeshTotal(view)
    ensures DrawsInto(s, DepthPassCalls(fb, sh, cam, view), fb)
    ensures DrawsUsing(s, DepthPassCalls(fb, sh, cam, view), sh.id)
  {
    var a := [Event.CullFace(Front)];
    var head := [Event.CullFace(Front), BindFramebuffer(fb)];
    var draw := DepthDrawCalls(sh, cam, view);
    var tail := [UseProgram(0), BindFramebuffer(0)];
    assert head == a + [BindFramebuffer(fb)];
    assert NoDraws(a) && NoDraws(head) && NoDraws(tail);
    DepthDrawCallsShape(Run(s, head), sh, cam, view);
    DrawsIntoAfterBind(s, a, fb, draw);
    ThenNoDraws(s, head + draw, tail, fb, sh.id);
    DrawsUsingAppend(s, head, draw, sh.id);
    NoDrawsAnywhere(s, head, fb, sh.id);
    NoDrawCount(head);
    DrawCountAppend(head, draw);
  }

  /** After the pass the default framebuffer is bound and no program is in use. */
  lemma DepthPassEnds(s: State, fb: Name, sh: Shader, cam: Camera, view: seq<Entity>)
    requires AllDrawable(view)
    ensures Run(s, DepthPassCalls(fb, sh, cam, view)).framebuffer == 0
    ensures Run(s, DepthPassCalls(fb, sh, cam, view)).program == 0
  {
    var upTo := [Event.CullFace(Front), BindFramebuffer(fb)] + DepthDrawCalls(sh, cam, view);
    assert DepthPassCalls(fb, sh, cam, view) == upTo + [UseProgram(0)] + [BindFramebuffer(0)];
    RunLast(s, upTo + [UseProgram(0)], BindFramebuffer(0));
    RunLast(s, upTo, UseProgram(0));
  }

  /** The pass uploads each entity's own model matrix. */
  lemma DepthPassSetsModels(fb: Name, sh: Shader, cam: Camera, view: seq<Entity>, k: nat)
    requires AllDrawable(view) && k < |view|
    ensures SetUniform(sh.id, "model", ModelValue(view[k].transform.value)) in DepthPassCalls(fb, sh, cam, view)
  {
    EntitiesCallsSetModels(sh, view, |view|, k);
  }

  /** The drawing while the depth target is bound. */
  method DrawDepth(dev: Device, sh: Shader, cam: Camera, view: seq<Entity>)
    requires AllDrawable(view)
    modifies dev, MeshSet(view)
    ensures dev.trace == old(dev.trace) + DepthDrawCalls(sh, cam, view)
    ensures dev.nextName == old(dev.nextName)
  {
    ghost var t0 := dev.trace;
    dev.Emit(DepthTargetSetup());
    Bind(dev, sh);
    dev.Emit(DepthUniforms(sh, cam));
    DrawEntities(dev, sh, view);
    RegroupTwo(t0 + DepthTargetSetup() + [UseProgram(sh.id)], DepthUniforms(sh, cam), EntitiesCalls(sh, view, |view|));
  }

  /** The entity loop of the depth pass. */
  method DrawEntities(dev: Device, sh: Shader, view: seq<Entity>)
    requires AllDrawable(view)
    modifies dev, MeshSet(view)
    ensures dev.trace == old(dev.trace) + EntitiesCalls(sh, view, |view|)
    ensures dev.nextName == old(dev.nextName)
  {
    for i := 0 to |view|
      invariant dev.trace == old(dev.trace) + EntitiesCalls(sh, view, i)
      invariant dev.nextName == old(dev.nextName)
    {
      var e := view[i];
      ghost var t1 := dev.trace;
      SetUniformValue(dev, sh, "model", ModelValue(e.transform.value));
      DrawMeshes(dev, sh, e.renderer.value.meshes);
      RegroupTwo(t1, [SetUniform(sh.id, "model", ModelValue(e.transform.value))], MeshCalls(sh, e.renderer.value.meshes));
    }
  }

  /** The depth pass's framebuffer as created, before its first resize. */
  method NewDepthPassTarget(dev: Device) returns (fb: Framebuffer)
    modifies dev
    ensures fresh(fb) && fresh(fb.buffer) && fb.Valid()
    ensures fb.Snapshot() == DepthPassInitialState(old(dev.nextName)) && fb.buffer.width != ShadowResolution
    ensures dev.nextName == old(dev.nextName) + 1
    ensures dev.trace == old(dev.trace) + [Generate(FramebufferObject, old(dev.nextName)), BindFramebuffer(old(dev.nextName))]
  {
    DepthPassSpecificationSplits();
    fb := new Framebuffer(dev, DepthPassSpecification());
  }

  /** The depth pass's framebuffer: built from its specification, then
      resized to the shadow resolution. */
  method NewDepthPassFramebuffer(dev: Device, complete: bool) returns (fb: Framebuffer)
    modifies dev
    ensures fresh(fb) && fresh(fb.buffer) && fb.Valid()
    ensures fb.Snapshot()
            == Resized(DepthPassInitialState(old(dev.nextName)), ShadowResolution, ShadowResolution, old(dev.nextName) + 1)
    ensures dev.nextName == old(dev.nextName) + 5
    ensures dev.trace == old(dev.trace) + DepthFramebufferCalls(old(dev.nextName), complete)
  {
    ghost var t, n := dev.trace, dev.nextName;
    fb := NewDepthPassTarget(dev);
    ghost var st := fb.Snapshot();
    assert st.NamesUsed() == 4;
    fb.OnResize(dev, ShadowResolution, ShadowResolution, complete);
    RegroupTwo(t, [Generate(FramebufferObject, n), BindFramebuffer(n)],
               ResizeCalls(DepthPassInitialState(n), ShadowResolution, ShadowResolution, n + 1, complete));
  }

  /** The depth pass's framebuffer, then its depth shader. */
  method NewDepthPassParts(dev: Device, complete: bool) returns (fb: Framebuffer, sh: Shader)
    modifies dev
    ensures fresh(fb) && fresh(fb.buffer) && fb.Valid()
    ensures fb.Snapshot()
            == Resized(DepthPassInitialState(old(dev.nextName)), ShadowResolution, ShadowResolution, old(dev.nextName) + 1)
    ensures sh.id == old(dev.nextName) + 7 && dev.nextName == old(dev.nextName) + 8
    ensures dev.trace == old(dev.trace) + DepthPassConstruction(dev.files, old(dev.nextName), complete)
  {
    ghost var t, n := dev.trace, dev.nextName;
    fb := NewDepthPassFramebuffer(dev, complete);
    ghost var built := dev.trace;
    sh := LoadShader(dev, "depth.vert", "depth.frag");
    ghost var target, loads := DepthFramebufferCalls(n, complete), LoadCalls(dev.files, "depth.vert", "depth.frag", n + 5);
    assert built == t + target && dev.trace == built + loads;
    RegroupTwo(t, target, loads);
    assert DepthPassConstruction(dev.files, n, complete) == target + loads;
  }

  class DepthRenderPass {
    const base: RenderPass

    /** DepthRenderPass(): a framebuffer from {Depth, RGBA, RGB}, resized to
        the shadow resolution, and the depth shader as the only shader. */
    constructor (dev: Device, complete: bool)
      modifies dev
      ensures fresh(base) && base.running && base.framebuffer != null && fresh(base.framebuffer)
      ensures fresh(base.framebuffer.buffer) && base.framebuffer.Valid()
      ensures base.framebuffer.Snapshot()
              == Resized(DepthPassInitialState(old(dev.nextName)), ShadowResolution, ShadowResolution, old(dev.nextName) + 1)
      ensures |base.shaders| == 1 && base.shaders[0].id == old(dev.nextName) + 7
      ensures dev.nextName == old(dev.nextName) + 8
      ensures dev.trace == old(dev.trace) + DepthPassConstruction(dev.files, old(dev.nextName), complete)
    {
      var fb, sh := NewDepthPassParts(dev, complete);
      var pass := new RenderPass();
      pass.framebuffer := fb;
      pass.shaders := [sh];
      base := pass;
    }

    /** Render: every mesh of every entity in the view, in view order, with
        that entity's model matrix. */
    method Render(dev: Device, cam: Camera, view: seq<Entity>)
      requires base.framebuffer != null && |base.shaders| >= 1 && AllDrawable(view)
      modifies dev, MeshSet(view)
      ensures dev.trace == old(dev.trace) + DepthPassCalls(base.framebuffer.buffer.id, base.shaders[0], cam, view)
      ensures dev.nextName == old(dev.nextName)
    {
      var sh := base.shaders[0];
      var fb := base.framebuffer.buffer.id;
      ghost var t0 := dev.trace;
      dev.Emit([Event.CullFace(Front), BindFramebuffer(fb)]);
      DrawDepth(dev, sh, cam, view);
      Unbind(dev);
      dev.Emit([BindFramebuffer(0)]);
      assert dev.trace == t0 + ([Event.CullFace(Front), BindFramebuffer(fb)] + DepthDrawCalls(sh, cam, view)
                                + [UseProgram(0), BindFramebuffer(0)]);
    }

    /** The depth pass's image is its depth attachment. */
    function GetFramebufferImage(): Name
      reads this, base, base.framebuffer
      requires base.framebuffer != null
    {
      base.framebuffer.GetDepthAttachmentID()
    }
  }
}
