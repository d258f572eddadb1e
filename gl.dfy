// The OpenGL context the renderer drives, as the renderer sees it: object
// names handed out fresh from a counter, every call the renderer makes
// recorded as an event, and the pipeline state (bound framebuffer,
// viewport, program, texture units, blend/stencil/depth/cull settings)
// computed from the recorded calls. Pixel results are not modelled.
module GL {
  import opened Wrappers
  import opened LinearAlgebra

  /** An OpenGL object name. Name 0 is the default framebuffer and "no object". */
  type Name = nat

  /** A name the context can still hand out: GL never returns 0 from a glGen* call. */
  type FreshName = n: nat | n >= 1 witness 1

  datatype ObjectKind =
    | FramebufferObject | TextureObject | RenderbufferObject
    | VertexArrayObject | BufferObject | ProgramObject | ShaderObject

  datatype Capability = Blend | CullFace | StencilTest | DepthTest | Multisample | SeamlessCubeMap
  datatype BlendFactor = Zero | One | SrcAlpha | OneMinusSrcAlpha
  datatype CompareFunc = Always | Less | LEqual | NotEqual
  datatype Face = Front | Back
  datatype FillMode = Fill | Line
  datatype StencilAction = Keep | Replace

  /** A texture binding point; CubeFace(i) is GL_TEXTURE_CUBE_MAP_POSITIVE_X + i. */
  datatype TexTarget = Texture2D | CubeMap | CubeFace(face: nat)

  /** A framebuffer attachment point; Color(i) is GL_COLOR_ATTACHMENT0 + i. */
  datatype Attachment = Color(index: nat) | DepthAttachment | DepthStencilAttachment

  datatype InternalFormat =
    | RGB16F | RGBA16F | R32I | R11FG11FB10F | RG16F
    | DepthComponent | DepthComponent24 | Depth24Stencil8

  datatype ParamFilter = FilterNearest | FilterLinear | FilterLinearMipmapLinear
  datatype ParamWrap = WrapClampToEdge | WrapClampToBorder | WrapRepeat
  datatype Primitive = Triangles | TriangleStrip | Lines
  datatype BufferTarget = ArrayBuffer | ElementArrayBuffer
  datatype ShaderStage = VertexStage | FragmentStage

  /** A render pass the renderer invokes; its own calls are modelled in its module. */
  datatype PassKind = DepthPass | ForwardPass | EnvironmentMapPass | InterfacePass

  /** The payload of a glUniform* call. A matrix or vector whose value the model
      does not follow is Opaque; a model matrix is named by the transform it is
      composed from. */
  datatype UniformValue =
    | IntValue(i: int)
    | FloatValue(r: real)
    | MatrixValue(m: Mat4)
    | ModelValue(t: Transform)
    // the bake's fixed 90-degree capture projection and its six face views
    | CaptureProjection
    | CaptureView(face: nat)
    | Opaque

  datatype Event =
    | Generate(kind: ObjectKind, name: Name)
    | Delete(kind: ObjectKind, name: Name)
    | BindFramebuffer(framebuffer: Name)
    | BindRenderbuffer(renderbuffer: Name)
    | Viewport(width: int, height: int)
    | ActiveTexture(unit: nat)
    | BindTexture(target: TexTarget, texture: Name)
    | TexImage(target: TexTarget, level: nat, format: InternalFormat, width: int, height: int)
    | TexParameters(filter: ParamFilter, wrap: ParamWrap)
    | TexBorderColor(border: Vec4)
    | GenerateMipmap(target: TexTarget)
    | AttachTexture(attachment: Attachment, target: TexTarget, texture: Name, level: nat)
    | RenderbufferStorage(format: InternalFormat, width: int, height: int)
    | AttachRenderbuffer(attachment: Attachment, renderbuffer: Name)
    | DrawBuffers(buffers: seq<Attachment>)
    | DrawBufferNone
    | ReadBuffer(source: Option<Attachment>)
    | ReadPixels(x: int, y: int)
    | Clear(color: bool, depth: bool, stencil: bool)
    | ClearTexImage(texture: Name, clearValue: int)
    | Enable(cap: Capability)
    | Disable(cap: Capability)
    | BlendFunc(src: BlendFactor, dst: BlendFactor)
    | BlendEquationAdd
    | DepthFunc(func: CompareFunc)
    | CullFace(face: Face)
    | StencilOp(sfail: StencilAction, dpfail: StencilAction, dppass: StencilAction)
    | StencilFunc(func: CompareFunc, ref: int, mask: int)
    | StencilMask(mask: int)
    | PolygonMode(mode: FillMode)
    | SwapInterval(interval: int)
    | CompileShader(stage: ShaderStage, shader: Name, code: string)
    | LinkProgram(program: Name, vertex: Name, fragment: Name)
    | DeleteShader(shader: Name)
    | UseProgram(program: Name)
    | SetUniform(program: Name, uniform: string, value: UniformValue)
    // an upload to element `index` of a uniform array, named `array[index]`
    | SetUniformElement(program: Name, array: string, index: nat, value: UniformValue)
    | BindVertexArray(vertexArray: Name)
    | BindBuffer(bufferTarget: BufferTarget, buffer: Name)
    | BufferData(bufferTarget: BufferTarget, length: nat)
    | VertexAttrib(index: nat, size: nat, stride: nat, offset: nat)
    | DrawArrays(primitive: Primitive, count: nat)
    | DrawElements(primitive: Primitive, count: nat)
    | External(call: string)
    | RunPass(pass: PassKind)
    | LogError(message: string)

  /** Vertex-array and buffer-object names: the lazily built geometry caches
      ask for these, and their calls are kept in a log of their own. */
  predicate IsGeometryKind(kind: ObjectKind)
  {
    kind == VertexArrayObject || kind == BufferObject
  }

  predicate IsDraw(e: Event)
  {
    e.DrawArrays? || e.DrawElements?
  }

  /** The pipeline state the renderer's calls change. `units` maps a texture
      unit to what is bound on it. */
  datatype State = State(
    framebuffer: Name,
    renderbuffer: Name,
    viewport: (int, int),
    program: Name,
    activeUnit: nat,
    units: map<nat, (TexTarget, Name)>,
    enabled: set<Capability>,
    blend: (BlendFactor, BlendFactor),
    depthFunc: CompareFunc,
    cullFace: Face,
    stencilFunc: (CompareFunc, int, int),
    stencilMask: int,
    fillMode: FillMode)

  /** A fresh context: default framebuffer, GL's documented initial settings. */
  const Initial := State(0, 0, (0, 0), 0, 0, map[], {Multisample}, (One, Zero), Less, Back,
                         (Always, 0, 0xFF), 0xFF, Fill)

  function Step(s: State, e: Event): State
  {
    match e
    case BindFramebuffer(fb) => s.(framebuffer := fb)
    case BindRenderbuffer(rb) => s.(renderbuffer := rb)
    case Viewport(w, h) => s.(viewport := (w, h))
    case UseProgram(p) => s.(program := p)
    case ActiveTexture(u) => s.(activeUnit := u)
    case BindTexture(target, tex) => s.(units := s.units[s.activeUnit := (target, tex)])
    case Enable(cap) => s.(enabled := s.enabled + {cap})
    case Disable(cap) => s.(enabled := s.enabled - {cap})
    case BlendFunc(src, dst) => s.(blend := (src, dst))
    case DepthFunc(f) => s.(depthFunc := f)
    case CullFace(face) => s.(cullFace := face)
    case StencilFunc(f, r, m) => s.(stencilFunc := (f, r, m))
    case StencilMask(m) => s.(stencilMask := m)
    case PolygonMode(mode) => s.(fillMode := mode)
    case _ => s
  }

  /** The state after issuing `es` from `s`. */
  function Run(s: State, es: seq<Event>): State
    decreases |es|
  {
    if es == [] then s else Run(Step(s, es[0]), es[1..])
  }

  /** Issuing two runs of calls one after the other is issuing their concatenation. */
  lemma {:induction false} RunAppend(s: State, a: seq<Event>, b: seq<Event>)
    ensures Run(s, a + b) == Run(Run(s, a), b)
    decreases |a|
  {
    if a == [] {
      assert a + b == b;
    } else {
      assert (a + b)[0] == a[0];
      assert (a + b)[1..] == a[1..] + b;
      RunAppend(Step(s, a[0]), a[1..], b);
    }
  }

  lemma RunSingle(s: State, e: Event)
    ensures Run(s, [e]) == Step(s, e)
  {
    assert [e][1..] == [];
  }

  /** The state a run ends in, for a run ending with a given call. */
  lemma RunLast(s: State, a: seq<Event>, e: Event)
    ensures Run(s, a + [e]) == Step(Run(s, a), e)
  {
    RunAppend(s, a, [e]);
    RunSingle(Run(s, a), e);
  }

  /** Runs of two to five calls, call by call. */
  lemma RunTwo(s: State, e0: Event, e1: Event)
    ensures Run(s, [e0, e1]) == Step(Step(s, e0), e1)
  {
    assert [e0, e1] == [e0] + [e1];
    RunLast(s, [e0], e1);
    RunSingle(s, e0);
  }

  lemma RunThree(s: State, e0: Event, e1: Event, e2: Event)
    ensures Run(s, [e0, e1, e2]) == Step(Step(Step(s, e0), e1), e2)
  {
    assert [e0, e1, e2] == [e0, e1] + [e2];
    RunLast(s, [e0, e1], e2);
    RunTwo(s, e0, e1);
  }

  lemma RunFour(s: State, e0: Event, e1: Event, e2: Event, e3: Event)
    ensures Run(s, [e0, e1, e2, e3]) == Step(Step(Step(Step(s, e0), e1), e2), e3)
  {
    assert [e0, e1, e2, e3] == [e0, e1, e2] + [e3];
    RunLast(s, [e0, e1, e2], e3);
    RunThree(s, e0, e1, e2);
  }

  lemma RunFive(s: State, e0: Event, e1: Event, e2: Event, e3: Event, e4: Event)
    ensures Run(s, [e0, e1, e2, e3, e4]) == Step(Step(Step(Step(Step(s, e0), e1), e2), e3), e4)
  {
    assert [e0, e1, e2, e3, e4] == [e0, e1, e2, e3] + [e4];
    RunLast(s, [e0, e1, e2, e3], e4);
    RunFour(s, e0, e1, e2, e3);
  }

  /** The stencil set-up sequence: test on, an operation, a mask, a
      function, a mask. Only the test, the function and the last mask stay. */
  lemma StencilSetupSteps(s: State, op: Event, m1: int, f: CompareFunc, r: int, k: int, m2: int)
    requires op.StencilOp?
    ensures Step(Step(Step(Step(Step(s, Enable(StencilTest)), op), StencilMask(m1)), StencilFunc(f, r, k)), StencilMask(m2))
            == s.(enabled := s.enabled + {StencilTest}, stencilFunc := (f, r, k), stencilMask := m2)
  {
  }

  lemma MaskSetupSteps(s: State, f: CompareFunc, r: int, k: int, m: int, p: Name)
    ensures Step(Step(Step(Step(s, Enable(StencilTest)), StencilFunc(f, r, k)), StencilMask(m)), UseProgram(p))
            == s.(enabled := s.enabled + {StencilTest}, stencilFunc := (f, r, k), stencilMask := m, program := p)
  {
  }

  lemma MaskOnlySteps(s: State, f: CompareFunc, r: int, k: int, m: int, p: Name)
    ensures Step(Step(Step(s, StencilFunc(f, r, k)), StencilMask(m)), UseProgram(p))
            == s.(stencilFunc := (f, r, k), stencilMask := m, program := p)
  {
  }

  lemma MaskTeardownSteps(s: State, m: int)
    ensures Step(Step(Step(s, UseProgram(0)), StencilMask(m)), Disable(StencilTest))
            == s.(enabled := s.enabled - {StencilTest}, stencilMask := m, program := 0)
  {
  }

  lemma BlendSetupSteps(s: State, src: BlendFactor, dst: BlendFactor)
    ensures Step(Step(Step(s, Disable(Capability.CullFace)), Enable(Blend)), BlendFunc(src, dst))
            == s.(enabled := s.enabled - {Capability.CullFace} + {Blend}, blend := (src, dst))
  {
  }

  lemma BlendTeardownSteps(s: State)
    ensures Step(Step(s, Disable(Blend)), Enable(Capability.CullFace))
            == s.(enabled := s.enabled - {Blend} + {Capability.CullFace})
  {
  }

  lemma ClearSetupSteps(s: State, fb: Name, c: Event, t: Event)
    requires c.Clear? && t.ClearTexImage?
    ensures Step(Step(Step(Step(Step(s, BindFramebuffer(fb)), c), t), Disable(StencilTest)), Enable(Capability.CullFace))
            == s.(framebuffer := fb, enabled := s.enabled - {StencilTest} + {Capability.CullFace})
  {
  }

  /** Which framebuffer is bound after a run. */
  function BoundFramebufferAfter(s: State, es: seq<Event>): Name
  {
    Run(s, es).framebuffer
  }

  /** A call that cannot change which capabilities are enabled. */
  predicate KeepsCapabilities(e: Event)
  {
    !e.Enable? && !e.Disable?
  }

  lemma {:induction false} RunKeepsCapabilities(s: State, es: seq<Event>)
    requires forall e | e in es :: KeepsCapabilities(e)
    ensures Run(s, es).enabled == s.enabled
    decreases |es|
  {
    if es != [] {
      assert es[0] in es && KeepsCapabilities(es[0]);
      assert Step(s, es[0]).enabled == s.enabled;
      RunKeepsCapabilities(Step(s, es[0]), es[1..]);
    }
  }

  /** A call that changes neither the capabilities nor the stencil test's
      function and write mask. */
  predicate KeepsStencil(e: Event)
  {
    KeepsCapabilities(e) && !e.StencilFunc? && !e.StencilMask?
  }

  /** What the stencil stage does to a draw: nothing (test off); pass every
      fragment and write `ref` (ALWAYS, mask 0xFF); or pass only where the
      buffer differs from `ref`, writing nothing (NOTEQUAL, mask 0). */
  datatype StencilMode = StencilOff | StencilWriting(ref: int) | StencilMasked(ref: int)

  predicate StencilHolds(s: State, mode: StencilMode)
  {
    match mode
    case StencilOff => StencilTest !in s.enabled
    case StencilWriting(r) => StencilTest in s.enabled && s.stencilFunc == (Always, r, 0xFF) && s.stencilMask == 0xFF
    case StencilMasked(r) => StencilTest in s.enabled && s.stencilFunc == (NotEqual, r, 0xFF) && s.stencilMask == 0
  }

  /** Every draw call of `es`, issued from `s`, meets the stencil mode. */
  predicate DrawsUnder(s: State, es: seq<Event>, mode: StencilMode)
    decreases |es|
  {
    es == [] || ((IsDraw(es[0]) ==> StencilHolds(s, mode)) && DrawsUnder(Step(s, es[0]), es[1..], mode))
  }

  /** Calls that leave the stencil settings alone keep a stencil mode, and
      all their draws meet it. */
  lemma {:induction false} StencilKept(s: State, es: seq<Event>, mode: StencilMode)
    requires StencilHolds(s, mode) && forall e | e in es :: KeepsStencil(e)
    ensures DrawsUnder(s, es, mode) && StencilHolds(Run(s, es), mode)
    decreases |es|
  {
    if es != [] {
      assert es[0] in es && KeepsStencil(es[0]);
      assert StencilHolds(Step(s, es[0]), mode);
      StencilKept(Step(s, es[0]), es[1..], mode);
    }
  }

  lemma {:induction false} DrawsUnderAppend(s: State, a: seq<Event>, b: seq<Event>, mode: StencilMode)
    ensures DrawsUnder(s, a + b, mode) <==> DrawsUnder(s, a, mode) && DrawsUnder(Run(s, a), b, mode)
    decreases |a|
  {
    if a == [] {
      assert a + b == b;
    } else {
      assert (a + b)[0] == a[0];
      assert (a + b)[1..] == a[1..] + b;
      DrawsUnderAppend(Step(s, a[0]), a[1..], b, mode);
    }
  }

  /** Calls without draws meet every stencil mode. */
  lemma {:induction false} NoDrawsUnder(s: State, es: seq<Event>, mode: StencilMode)
    requires NoDraws(es)
    ensures DrawsUnder(s, es, mode)
    decreases |es|
  {
    if es != [] {
      assert es[0] in es;
      assert NoDraws(es[1..]) by {
        forall e | e in es[1..] ensures !IsDraw(e) {
          assert e in es;
        }
      }
      NoDrawsUnder(Step(s, es[0]), es[1..], mode);
    }
  }

  /** A call that cannot change the bound framebuffer. */
  predicate KeepsFramebuffer(e: Event)
  {
    !e.BindFramebuffer?
  }

  lemma {:induction false} RunKeepsFramebuffer(s: State, es: seq<Event>)
    requires forall e | e in es :: KeepsFramebuffer(e)
    ensures Run(s, es).framebuffer == s.framebuffer
    decreases |es|
  {
    if es != [] {
      assert es[0] in es && KeepsFramebuffer(es[0]);
      assert Step(s, es[0]).framebuffer == s.framebuffer;
      RunKeepsFramebuffer(Step(s, es[0]), es[1..]);
    }
  }

  /** The calls bind no framebuffer other than `fb`. */
  predicate BindsOnly(es: seq<Event>, fb: Name)
  {
    forall e | e in es :: e.BindFramebuffer? ==> e.framebuffer == fb
  }

  lemma {:induction false} RunBindsOnly(s: State, es: seq<Event>, fb: Name)
    requires s.framebuffer == fb && BindsOnly(es, fb)
    ensures Run(s, es).framebuffer == fb
    decreases |es|
  {
    if es != [] {
      assert es[0] in es;
      RunBindsOnly(Step(s, es[0]), es[1..], fb);
    }
  }

  /** A call that cannot change the viewport. */
  predicate KeepsViewport(e: Event)
  {
    !e.Viewport?
  }

  lemma {:induction false} RunKeepsViewport(s: State, es: seq<Event>)
    requires forall e | e in es :: KeepsViewport(e)
    ensures Run(s, es).viewport == s.viewport
    decreases |es|
  {
    if es != [] {
      assert es[0] in es && KeepsViewport(es[0]);
      assert Step(s, es[0]).viewport == s.viewport;
      RunKeepsViewport(Step(s, es[0]), es[1..]);
    }
  }

  /** A call that changes neither the blend function nor the enabled capabilities. */
  predicate KeepsBlending(e: Event)
  {
    !e.BlendFunc? && !e.Enable? && !e.Disable?
  }

  lemma {:induction false} RunKeepsBlending(s: State, es: seq<Event>)
    requires forall e | e in es :: KeepsBlending(e)
    ensures Run(s, es).blend == s.blend && Run(s, es).enabled == s.enabled
    decreases |es|
  {
    if es != [] {
      assert es[0] in es && KeepsBlending(es[0]);
      RunKeepsBlending(Step(s, es[0]), es[1..]);
    }
  }

  /** A call that changes neither the active texture unit nor any unit's binding. */
  predicate KeepsUnits(e: Event)
  {
    !e.ActiveTexture? && !e.BindTexture?
  }

  lemma {:induction false} RunKeepsUnits(s: State, es: seq<Event>)
    requires forall e | e in es :: KeepsUnits(e)
    ensures Run(s, es).units == s.units && Run(s, es).activeUnit == s.activeUnit
    decreases |es|
  {
    if es != [] {
      assert es[0] in es && KeepsUnits(es[0]);
      RunKeepsUnits(Step(s, es[0]), es[1..]);
    }
  }

  /** Regrouping a trace extended by two runs of calls. */
  lemma RegroupTwo<T>(t: seq<T>, a: seq<T>, b: seq<T>)
    ensures t + (a + b) == t + a + b
  {
  }

  /** Regrouping a trace extended by five runs of calls. */
  lemma Regroup<T>(t: seq<T>, a: seq<T>, b: seq<T>, c: seq<T>, d: seq<T>, e: seq<T>)
    ensures t + (a + b + c + d + e) == t + a + b + c + d + e
  {
  }

  lemma RegroupThree<T>(t: seq<T>, a: seq<T>, b: seq<T>, c: seq<T>)
    ensures t + (a + b + c) == t + a + b + c
  {
  }

  lemma RegroupFour<T>(t: seq<T>, a: seq<T>, b: seq<T>, c: seq<T>, d: seq<T>)
    ensures t + (a + b + c + d) == t + a + b + c + d
  {
  }

  lemma RegroupSix<T>(t: seq<T>, a: seq<T>, b: seq<T>, c: seq<T>, d: seq<T>, e: seq<T>, f: seq<T>)
    ensures t + (a + b + c + (d + e + f)) == t + a + b + c + d + e + f
  {
  }

  /** How many draw calls a run of calls makes. */
  function DrawCount(es: seq<Event>): nat
    decreases |es|
  {
    if es == [] then 0 else DrawCount(es[..|es| - 1]) + (if IsDraw(es[|es| - 1]) then 1 else 0)
  }

  lemma {:induction false} DrawCountAppend(a: seq<Event>, b: seq<Event>)
    ensures DrawCount(a + b) == DrawCount(a) + DrawCount(b)
    decreases |b|
  {
    if b == [] {
      assert a + b == a;
    } else {
      assert (a + b)[..|a + b| - 1] == a + b[..|b| - 1];
      DrawCountAppend(a, b[..|b| - 1]);
    }
  }

  /** Runs and draw counts of three or four runs issued one after another. */
  lemma RunThreeParts(s: State, a: seq<Event>, b: seq<Event>, c: seq<Event>)
    ensures Run(s, a + b + c) == Run(Run(Run(s, a), b), c)
  {
    RunAppend(s, a, b);
    RunAppend(s, a + b, c);
  }

  lemma RunFourParts(s: State, a: seq<Event>, b: seq<Event>, c: seq<Event>, d: seq<Event>)
    ensures Run(s, a + b + c + d) == Run(Run(Run(Run(s, a), b), c), d)
  {
    RunThreeParts(s, a, b, c);
    RunAppend(s, a + b + c, d);
  }

  lemma DrawCountThree(a: seq<Event>, b: seq<Event>, c: seq<Event>)
    ensures DrawCount(a + b + c) == DrawCount(a) + DrawCount(b) + DrawCount(c)
  {
    DrawCountAppend(a, b);
    DrawCountAppend(a + b, c);
  }

  lemma DrawCountFour(a: seq<Event>, b: seq<Event>, c: seq<Event>, d: seq<Event>)
    ensures DrawCount(a + b + c + d) == DrawCount(a) + DrawCount(b) + DrawCount(c) + DrawCount(d)
  {
    DrawCountThree(a, b, c);
    DrawCountAppend(a + b + c, d);
  }

  /** Every draw call of `es`, issued from `s`, is issued while `fb` is the
      bound framebuffer. */
  predicate DrawsInto(s: State, es: seq<Event>, fb: Name)
    decreases |es|
  {
    es == [] || ((IsDraw(es[0]) ==> s.framebuffer == fb) && DrawsInto(Step(s, es[0]), es[1..], fb))
  }

  /** Every draw call of `es`, issued from `s`, is issued while `prog` is the
      program in use. */
  predicate DrawsUsing(s: State, es: seq<Event>, prog: Name)
    decreases |es|
  {
    es == [] || ((IsDraw(es[0]) ==> s.program == prog) && DrawsUsing(Step(s, es[0]), es[1..], prog))
  }

  /** The calls switch to no program other than `prog`. */
  predicate UsesOnly(es: seq<Event>, prog: Name)
  {
    forall e | e in es :: e.UseProgram? ==> e.program == prog
  }

  predicate NoDraws(es: seq<Event>)
  {
    forall e | e in es :: !IsDraw(e)
  }

  lemma {:induction false} DrawsIntoAppend(s: State, a: seq<Event>, b: seq<Event>, fb: Name)
    ensures DrawsInto(s, a + b, fb) <==> DrawsInto(s, a, fb) && DrawsInto(Run(s, a), b, fb)
    decreases |a|
  {
    if a == [] {
      assert a + b == b;
    } else {
      assert (a + b)[0] == a[0];
      assert (a + b)[1..] == a[1..] + b;
      DrawsIntoAppend(Step(s, a[0]), a[1..], b, fb);
    }
  }

  lemma {:induction false} DrawsUsingAppend(s: State, a: seq<Event>, b: seq<Event>, prog: Name)
    ensures DrawsUsing(s, a + b, prog) <==> DrawsUsing(s, a, prog) && DrawsUsing(Run(s, a), b, prog)
    decreases |a|
  {
    if a == [] {
      assert a + b == b;
    } else {
      assert (a + b)[0] == a[0];
      assert (a + b)[1..] == a[1..] + b;
      DrawsUsingAppend(Step(s, a[0]), a[1..], b, prog);
    }
  }

  /** Calls that bind only `fb`, issued while `fb` is bound, draw into `fb`. */
  lemma {:induction false} BindsOnlyDrawsInto(s: State, es: seq<Event>, fb: Name)
    requires s.framebuffer == fb && BindsOnly(es, fb)
    ensures DrawsInto(s, es, fb) && Run(s, es).framebuffer == fb
    decreases |es|
  {
    if es != [] {
      assert es[0] in es;
      assert BindsOnly(es[1..], fb) by {
        forall e | e in es[1..] ensures e.BindFramebuffer? ==> e.framebuffer == fb {
          assert e in es;
        }
      }
      BindsOnlyDrawsInto(Step(s, es[0]), es[1..], fb);
    }
  }

  /** Calls that switch only to `prog`, issued while `prog` is in use, draw with `prog`. */
  lemma {:induction false} UsesOnlyDrawsUsing(s: State, es: seq<Event>, prog: Name)
    requires s.program == prog && UsesOnly(es, prog)
    ensures DrawsUsing(s, es, prog) && Run(s, es).program == prog
    decreases |es|
  {
    if es != [] {
      assert es[0] in es;
      assert UsesOnly(es[1..], prog) by {
        forall e | e in es[1..] ensures e.UseProgram? ==> e.program == prog {
          assert e in es;
        }
      }
      UsesOnlyDrawsUsing(Step(s, es[0]), es[1..], prog);
    }
  }

  /** Calls without draws satisfy any draw condition. */
  lemma {:induction false} NoDrawsAnywhere(s: State, es: seq<Event>, fb: Name, prog: Name)
    requires NoDraws(es)
    ensures DrawsInto(s, es, fb) && DrawsUsing(s, es, prog) && DrawCount(es) == 0
    decreases |es|
  {
    if es != [] {
      assert es[0] in es;
      assert NoDraws(es[1..]) by {
        forall e | e in es[1..] ensures !IsDraw(e) {
          assert e in es;
        }
      }
      NoDrawsAnywhere(Step(s, es[0]), es[1..], fb, prog);
      NoDrawCount(es);
    }
  }

  lemma {:induction false} NoDrawCount(es: seq<Event>)
    requires NoDraws(es)
    ensures DrawCount(es) == 0
    decreases |es|
  {
    if es != [] {
      assert es[|es| - 1] in es;
      assert NoDraws(es[..|es| - 1]) by {
        forall e | e in es[..|es| - 1] ensures !IsDraw(e) {
          assert e in es;
        }
      }
      NoDrawCount(es[..|es| - 1]);
    }
  }

  /** A run that draws at least once draws with at most one program. */
  lemma {:induction false} DrawsUsingUnique(s: State, es: seq<Event>, p: Name, q: Name)
    requires DrawCount(es) > 0 && DrawsUsing(s, es, p) && DrawsUsing(s, es, q)
    ensures p == q
    decreases |es|
  {
    assert es == [es[0]] + es[1..];
    DrawCountAppend([es[0]], es[1..]);
    assert [es[0]][..0] == [];
    if !IsDraw(es[0]) {
      DrawsUsingUnique(Step(s, es[0]), es[1..], p, q);
    }
  }

  /** Calls that draw nothing, a bind of `fb`, then calls that bind nothing
      else: every draw goes to `fb`, and `fb` is still bound at the end. */
  lemma DrawsIntoAfterBind(s: State, a: seq<Event>, fb: Name, b: seq<Event>)
    requires NoDraws(a) && BindsOnly(b, fb)
    ensures DrawsInto(s, a + [BindFramebuffer(fb)] + b, fb)
    ensures Run(s, a + [BindFramebuffer(fb)] + b).framebuffer == fb
  {
    var head := a + [BindFramebuffer(fb)];
    DrawsIntoAppend(s, head, b, fb);
    DrawsIntoAppend(s, a, [BindFramebuffer(fb)], fb);
    NoDrawsAnywhere(s, a, fb, 0);
    assert NoDraws([BindFramebuffer(fb)]);
    NoDrawsAnywhere(Run(s, a), [BindFramebuffer(fb)], fb, 0);
    RunLast(s, a, BindFramebuffer(fb));
    RunAppend(s, head, b);
    BindsOnlyDrawsInto(Run(s, head), b, fb);
  }

  /** Calls that draw nothing, a switch to `prog`, then calls that switch to
      no other program: every draw uses `prog`, still in use at the end. */
  /** The same, when the binding call opens the second run. */
  lemma DrawsIntoOpening(s: State, a: seq<Event>, fb: Name, b: seq<Event>)
    requires NoDraws(a) && BindsOnly(b, fb) && |b| > 0 && b[0] == BindFramebuffer(fb)
    ensures DrawsInto(s, a + b, fb)
    ensures Run(s, a + b).framebuffer == fb
  {
    assert BindsOnly(b[1..], fb) by {
      forall x | x in b[1..] ensures x in b { }
    }
    DrawsIntoAfterBind(s, a, fb, b[1..]);
    assert a + b == a + [BindFramebuffer(fb)] + b[1..];
  }

  lemma DrawsUsingAfterUse(s: State, a: seq<Event>, prog: Name, b: seq<Event>)
    requires NoDraws(a) && UsesOnly(b, prog)
    ensures DrawsUsing(s, a + [UseProgram(prog)] + b, prog)
    ensures Run(s, a + [UseProgram(prog)] + b).program == prog
  {
    var head := a + [UseProgram(prog)];
    DrawsUsingAppend(s, head, b, prog);
    DrawsUsingAppend(s, a, [UseProgram(prog)], prog);
    NoDrawsAnywhere(s, a, 0, prog);
    assert NoDraws([UseProgram(prog)]);
    NoDrawsAnywhere(Run(s, a), [UseProgram(prog)], 0, prog);
    RunLast(s, a, UseProgram(prog));
    RunAppend(s, head, b);
    UsesOnlyDrawsUsing(Run(s, head), b, prog);
  }

  /** Calls without draws after a run change neither the draw conditions
      nor the draw count. */
  lemma ThenNoDraws(s: State, a: seq<Event>, c: seq<Event>, fb: Name, prog: Name)
    requires NoDraws(c)
    ensures DrawsInto(s, a + c, fb) <==> DrawsInto(s, a, fb)
    ensures DrawsUsing(s, a + c, prog) <==> DrawsUsing(s, a, prog)
    ensures DrawCount(a + c) == DrawCount(a)
  {
    DrawsIntoAppend(s, a, c, fb);
    DrawsUsingAppend(s, a, c, prog);
    NoDrawsAnywhere(Run(s, a), c, fb, prog);
    DrawCountAppend(a, c);
  }

  /** The draw-condition predicates of a concatenation, from its parts. */
  lemma JoinConditions(a: seq<Event>, b: seq<Event>, fb: Name, prog: Name)
    ensures NoDraws(a) && NoDraws(b) ==> NoDraws(a + b)
    ensures BindsOnly(a, fb) && BindsOnly(b, fb) ==> BindsOnly(a + b, fb)
    ensures UsesOnly(a, prog) && UsesOnly(b, prog) ==> UsesOnly(a + b, prog)
  {
  }

  lemma BindsJoin(a: seq<Event>, b: seq<Event>, fb: Name)
    requires BindsOnly(a, fb) && BindsOnly(b, fb)
    ensures BindsOnly(a + b, fb)
  {
  }

  lemma UsesJoin(a: seq<Event>, b: seq<Event>, prog: Name)
    requires UsesOnly(a, prog) && UsesOnly(b, prog)
    ensures UsesOnly(a + b, prog)
  {
  }

  /** Calls that neither draw, bind a framebuffer, nor switch a capability. */
  predicate Quiet(es: seq<Event>)
  {
    forall e | e in es :: !IsDraw(e) && !e.BindFramebuffer? && KeepsCapabilities(e)
  }

  lemma QuietJoin(a: seq<Event>, b: seq<Event>)
    ensures Quiet(a) && Quiet(b) ==> Quiet(a + b)
  {
  }

  /** Quiet calls keep the bound framebuffer and the capabilities, and draw nothing. */
  lemma QuietRun(s: State, es: seq<Event>, fb: Name, prog: Name)
    requires Quiet(es)
    ensures Run(s, es).framebuffer == s.framebuffer && Run(s, es).enabled == s.enabled
    ensures NoDraws(es) && BindsOnly(es, fb) && DrawCount(es) == 0
    ensures DrawsInto(s, es, fb) && DrawsUsing(s, es, prog)
  {
    RunKeepsFramebuffer(s, es);
    RunKeepsCapabilities(s, es);
    NoDrawsAnywhere(s, es, fb, prog);
  }

  /** Calls that only upload uniform values. */
  predicate Uploads(es: seq<Event>)
  {
    forall e | e in es :: e.SetUniform? || e.SetUniformElement?
  }

  /** Uniform uploads leave the pipeline state as it was. */
  lemma {:induction false} UploadsRun(s: State, es: seq<Event>)
    requires Uploads(es)
    ensures Run(s, es) == s && Quiet(es)
    decreases |es|
  {
    if es != [] {
      assert es[0] in es;
      UploadsRun(Step(s, es[0]), es[1..]);
    }
  }

  lemma UploadsQuiet(es: seq<Event>)
    requires Uploads(es)
    ensures Quiet(es)
  {
  }

  lemma QuietFive(a: seq<Event>, b: seq<Event>, c: seq<Event>, d: seq<Event>, e: seq<Event>)
    requires Quiet(a) && Quiet(b) && Quiet(c) && Quiet(d) && Quiet(e)
    ensures Quiet(a + b + c + d + e)
  {
  }

  /** Calls that only select programs and textures and upload uniforms. */
  predicate SetupOnly(es: seq<Event>)
  {
    forall e | e in es :: e.UseProgram? || e.SetUniform? || e.SetUniformElement? || e.ActiveTexture? || e.BindTexture?
  }

  /** Such calls change nothing but the program, the active unit and the
      texture bindings. */
  lemma {:induction false} SetupOnlyRun(s: State, es: seq<Event>)
    requires SetupOnly(es)
    ensures Run(s, es).(program := s.program, activeUnit := s.activeUnit, units := s.units) == s
    decreases |es|
  {
    if es != [] {
      assert es[0] in es;
      SetupOnlyRun(Step(s, es[0]), es[1..]);
    }
  }

  /** Calls that select programs and textures, upload uniforms or draw. */
  predicate KeepsPipeline(e: Event)
  {
    e.UseProgram? || e.SetUniform? || e.SetUniformElement? || e.ActiveTexture? || e.BindTexture? || IsDraw(e)
  }

  /** Such calls change nothing but the program, the active unit and the
      texture bindings. */
  lemma {:induction false} KeepsPipelineRun(s: State, es: seq<Event>)
    requires forall e | e in es :: KeepsPipeline(e)
    ensures Run(s, es).(program := s.program, activeUnit := s.activeUnit, units := s.units) == s
    decreases |es|
  {
    if es != [] {
      assert es[0] in es;
      KeepsPipelineRun(Step(s, es[0]), es[1..]);
    }
  }

  lemma SetupOnlyQuiet(es: seq<Event>)
    requires SetupOnly(es)
    ensures Quiet(es)
  {
  }

  lemma SetupOnlyJoin(a: seq<Event>, b: seq<Event>)
    ensures SetupOnly(a) && SetupOnly(b) ==> SetupOnly(a + b)
  {
  }

  /** Calls, uploads, then the program unbound: the calls' state with no program. */
  lemma RunUploadsThenUnbind(s: State, a: seq<Event>, u1: seq<Event>, u2: seq<Event>)
    requires Uploads(u1) && Uploads(u2)
    ensures Run(s, a + u1 + u2 + [UseProgram(0)]) == Run(s, a).(program := 0)
  {
    RunThenUploads(s, a, u1);
    RunThenUploads(s, a + u1, u2);
    RunLast(s, a + u1 + u2, UseProgram(0));
  }

  /** Uploads after some calls leave the state those calls left. */
  lemma RunThenUploads(s: State, a: seq<Event>, u: seq<Event>)
    requires Uploads(u)
    ensures Run(s, a + u) == Run(s, a)
  {
    RunAppend(s, a, u);
    UploadsRun(Run(s, a), u);
  }

  /** The textures a run of calls attaches to a framebuffer, in order. */
  function Attached(es: seq<Event>): seq<Name>
  {
    if es == [] then []
    else (if es[0].AttachTexture? then [es[0].texture] else []) + Attached(es[1..])
  }

  lemma {:induction false} AttachedAppend(a: seq<Event>, b: seq<Event>)
    ensures Attached(a + b) == Attached(a) + Attached(b)
    decreases |a|
  {
    if a == [] {
      assert a + b == b;
    } else {
      assert (a + b)[0] == a[0];
      assert (a + b)[1..] == a[1..] + b;
      AttachedAppend(a[1..], b);
    }
  }

  /** The context: name counters and the record of every call made. Vertex
      array and buffer object setup (the geometry caches' uploads) is recorded
      in `geometryTrace`, apart from the pipeline calls in `trace`; vertex
      arrays and buffers are named from a counter of their own, and every
      other kind of object (textures, framebuffers, renderbuffers, shaders,
      programs) from the one shared `nextName`. The files the renderer can
      open are part of the environment it runs in. */
  class Device {
    var nextName: FreshName
    var nextGeometryName: FreshName
    var trace: seq<Event>
    var geometryTrace: seq<Event>
    const files: map<string, string>

    constructor (files: map<string, string>)
      ensures nextName == 1 && nextGeometryName == 1 && trace == [] && geometryTrace == []
      ensures this.files == files
    {
      nextName := 1;
      nextGeometryName := 1;
      trace := [];
      geometryTrace := [];
      this.files := files;
    }

    /** The pipeline state the recorded calls leave the context in. */
    function Current(): State
      reads this
    {
      Run(Initial, trace)
    }

    /** Issue pipeline calls. */
    method Emit(es: seq<Event>)
      modifies this
      ensures trace == old(trace) + es && nextName == old(nextName) && geometryTrace == old(geometryTrace)
      ensures nextGeometryName == old(nextGeometryName)
    {
      trace := trace + es;
    }

    /** Issue geometry setup calls. */
    method EmitGeometry(es: seq<Event>)
      modifies this
      ensures geometryTrace == old(geometryTrace) + es && nextName == old(nextName) && trace == old(trace)
      ensures nextGeometryName == old(nextGeometryName)
    {
      geometryTrace := geometryTrace + es;
    }

    /** A glGen or glCreate call for a pipeline object: the next unused name, recorded. */
    method NewName(kind: ObjectKind) returns (n: FreshName)
      requires !IsGeometryKind(kind)
      modifies this
      ensures n == old(nextName) && nextName == n + 1
      ensures trace == old(trace) + [Generate(kind, n)] && geometryTrace == old(geometryTrace)
      ensures nextGeometryName == old(nextGeometryName)
    {
      n := nextName;
      nextName := nextName + 1;
      trace := trace + [Generate(kind, n)];
    }

    /** A glGenVertexArrays or glGenBuffers call. */
    method NewGeometryName(kind: ObjectKind) returns (n: FreshName)
      requires IsGeometryKind(kind)
      modifies this
      ensures n == old(nextGeometryName) && nextGeometryName == n + 1 && nextName == old(nextName)
      ensures geometryTrace == old(geometryTrace) + [Generate(kind, n)] && trace == old(trace)
    {
      n := nextGeometryName;
      nextGeometryName := nextGeometryName + 1;
      geometryTrace := geometryTrace + [Generate(kind, n)];
    }
  }

  /** The shape every stage has: calls that draw nothing, the stage's
      program, set-up calls, the drawing, and calls that draw nothing. Such
      a stage draws what its drawing draws, all of it with its program,
      whatever was in use before. */
  lemma StageShape(s: State, fb: Name, prog: Name, pre: seq<Event>, mid: seq<Event>, body: seq<Event>, tail: seq<Event>)
    requires NoDraws(pre) && BindsOnly(pre, fb)
    requires NoDraws(mid) && BindsOnly(mid, fb) && UsesOnly(mid, prog)
    requires BindsOnly(body, fb) && UsesOnly(body, prog)
    requires NoDraws(tail) && BindsOnly(tail, fb)
    ensures DrawCount(pre + [UseProgram(prog)] + (mid + body) + tail) == DrawCount(body)
    ensures BindsOnly(pre + [UseProgram(prog)] + (mid + body) + tail, fb)
    ensures DrawsUsing(s, pre + [UseProgram(prog)] + (mid + body) + tail, prog)
  {
    var head := pre + [UseProgram(prog)] + mid;
    assert pre + [UseProgram(prog)] + (mid + body) == head + body;
    assert NoDraws(head);
    NoDrawCount(head);
    DrawCountAppend(head, body);
    DrawsUsingAfterUse(s, pre, prog, mid + body);
    ThenNoDraws(s, head + body, tail, fb, prog);
  }

  /** A run with exactly one draw, between calls that draw nothing: the
      draw goes where the calls before it left the framebuffer and program. */
  lemma SingleDraw(s: State, a: seq<Event>, d: Event, b: seq<Event>, fb: Name, prog: Name)
    requires NoDraws(a) && IsDraw(d) && NoDraws(b)
    ensures DrawCount(a + [d] + b) == 1
    ensures DrawsInto(s, a + [d] + b, fb) <==> Run(s, a).framebuffer == fb
    ensures DrawsUsing(s, a + [d] + b, prog) <==> Run(s, a).program == prog
  {
    assert [d][..0] == [] && [d][1..] == [];
    NoDrawCount(a);
    NoDrawCount(b);
    DrawCountThree(a, [d], b);
    NoDrawsAnywhere(s, a, fb, prog);
    ThenNoDraws(s, a + [d], b, fb, prog);
    DrawsIntoAppend(s, a, [d], fb);
    DrawsUsingAppend(s, a, [d], prog);
  }
}
