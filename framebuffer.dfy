// Framebuffer.hpp / Framebuffer.cpp: a framebuffer built from a
// specification. The constructor sorts the attachment list into colour and
// depth attachments; OnResize (re)creates every attachment at the new size,
// in a fixed order of GL calls, and ReadPixel reads one integer texel.
module Framebuffers {
  import opened Wrappers
  import opened LinearAlgebra
  import opened GL
  import opened Textures
  import opened FramebufferSpecs
  import opened Buffers

  function FilterParam(f: TextureFilter): (p: ParamFilter)
    ensures p == FilterNearest <==> f == Nearest
    ensures p == FilterLinear <==> f == Linear
  {
    match f
    case Linear => FilterLinear
    case Nearest => FilterNearest
  }

  function WrapParam(w: TextureWrap): (p: ParamWrap)
    ensures p == WrapClampToEdge <==> w == ClampToEdge
    ensures p == WrapClampToBorder <==> w == ClampToBorder
    ensures p == WrapRepeat <==> w == Repeat
  {
    match w
    case ClampToEdge => WrapClampToEdge
    case ClampToBorder => WrapClampToBorder
    case Repeat => WrapRepeat
  }

  /** The storage a colour attachment gets: 16-bit float RGB or RGBA, 32-bit
      integer for RED_INTEGER, and 16-bit float RGB for every other format. */
  function StorageFormat(f: TextureFormat): (r: InternalFormat)
    ensures r == R32I <==> f == RED_INTEGER
    ensures r == RGBA16F <==> f == RGBA
    ensures r == RGB16F <==> f != RED_INTEGER && f != RGBA
  {
    match f
    case RGB => RGB16F
    case RGBA => RGBA16F
    case RED_INTEGER => R32I
    case _ => RGB16F
  }

  const IncompleteMessage := "ERROR::FRAMEBUFFER:: Framebuffer is not complete!"

  /** The border colour a clamp-to-border texture is given: opaque white. */
  const BorderWhite := Vec4(1.0, 1.0, 1.0, 1.0)
  const OutOfBoundMessage := "out of bound"

  /** GL_COLOR_ATTACHMENT0 .. GL_COLOR_ATTACHMENT0 + n - 1, as std::iota fills them. */
  function ColorList(n: nat): (r: seq<Attachment>)
    ensures |r| == n && forall i :: 0 <= i < n ==> r[i] == Color(i)
  {
    seq(n, i requires 0 <= i < n => Color(i))
  }

  /** `n` consecutive names starting at `base`. */
  function FreshNames(base: Name, n: nat): (r: seq<Name>)
    ensures |r| == n && forall i :: 0 <= i < n ==> r[i] == base + i
  {
    seq(n, i => base + i)
  }

  /** One pass of OnResize's colour loop: drop the old texture, make a new one
      of the new size with the specification's storage and sampling, and
      attach it as colour attachment `i`. */
  method ReplaceColorTexture(dev: Device, i: nat, spec: TextureSpecification, prev: Name, w: nat, h: nat)
    returns (tex: Name)
    modifies dev
    ensures tex == old(dev.nextName) && dev.nextName == tex + 1
    ensures dev.trace == old(dev.trace) + ColorAttachmentCalls(i, spec, prev, tex, w, h)
  {
    dev.Emit([Delete(TextureObject, prev)]);
    tex := dev.NewName(TextureObject);
    dev.Emit([BindTexture(Texture2D, tex), TexParameters(FilterParam(spec.filter), WrapParam(spec.wrap))]);
    if spec.wrap == ClampToBorder {
      dev.Emit([TexBorderColor(BorderWhite)]);
    }
    dev.Emit([TexImage(Texture2D, 0, StorageFormat(spec.format), w, h),
              AttachTexture(Color(i), Texture2D, tex, 0), BindTexture(Texture2D, 0)]);
  }

  /** OnResize's depth texture: drop the old one, make a new depth-component
      texture of the new size and attach it to framebuffer `fbo`. */
  method ReplaceDepthTexture(dev: Device, fbo: Name, prev: Name, w: nat, h: nat) returns (tex: Name)
    modifies dev
    ensures tex == old(dev.nextName) && dev.nextName == tex + 1
    ensures dev.trace == old(dev.trace) + DepthCalls(fbo, prev, tex, w, h)
  {
    dev.Emit([Delete(TextureObject, prev)]);
    tex := dev.NewName(TextureObject);
    dev.Emit([BindTexture(Texture2D, tex), TexImage(Texture2D, 0, DepthComponent, w, h),
              TexParameters(FilterNearest, WrapClampToBorder), TexBorderColor(BorderWhite), BindTexture(Texture2D, 0),
              BindFramebuffer(fbo), AttachTexture(DepthAttachment, Texture2D, tex, 0)]);
  }

  /** OnResize's renderbuffer: always replaced by a new name, but given
      depth-stencil storage and attached only for a swap-chain target. */
  method ReplaceRenderbuffer(dev: Device, fbo: Name, swapChainTarget: bool, prev: Name, w: nat, h: nat) returns (rb: Name)
    modifies dev
    ensures rb == old(dev.nextName) && dev.nextName == rb + 1
    ensures dev.trace == old(dev.trace) + RenderbufferCalls(fbo, swapChainTarget, prev, rb, w, h)
  {
    dev.Emit([Delete(RenderbufferObject, prev)]);
    rb := dev.NewName(RenderbufferObject);
    if swapChainTarget {
      dev.Emit([BindFramebuffer(fbo), BindRenderbuffer(rb), RenderbufferStorage(Depth24Stencil8, w, h), BindRenderbuffer(0),
                AttachRenderbuffer(DepthStencilAttachment, rb), BindFramebuffer(fbo)]);
    }
  }

  /** OnResize's colour loop over the attachment specifications, in order. */
  method RecreateColorTextures(dev: Device, specs: seq<TextureSpecification>, prevs: seq<Name>, w: nat, h: nat)
    returns (names: seq<Name>)
    requires |specs| == |prevs|
    modifies dev
    ensures names == FreshNames(old(dev.nextName), |specs|)
    ensures dev.nextName == old(dev.nextName) + |specs|
    ensures dev.trace == old(dev.trace) + ColorCalls(specs, prevs, w, h, old(dev.nextName), |specs|)
  {
    ghost var t0 := dev.trace;
    var base := dev.nextName;
    var n := |specs|;
    names := [];
    var i := 0;
    while i < n
      invariant 0 <= i <= n
      invariant names == FreshNames(base, i)
      invariant dev.nextName == base + i
      invariant dev.trace == t0 + ColorCalls(specs, prevs, w, h, base, i)
    {
      // attachment i still holds prevs[i] here: the loop replaces them in order
      ghost var before := dev.trace;
      var tex := ReplaceColorTexture(dev, i, specs[i], prevs[i], w, h);
      ColorCallsStep(specs, prevs, w, h, base, i, t0, before, dev.trace);
      names := names + [tex];
      i := i + 1;
    }
  }

  /** Everything OnResize does between the size check and the completeness
      check, for a framebuffer in state `st`: the attachments it ends with. */
  method RecreateAttachments(dev: Device, st: FramebufferState, w: nat, h: nat) returns (r: FramebufferState)
    requires st.WellFormed()
    modifies dev
    ensures r == Resized(st, w, h, old(dev.nextName))
    ensures dev.nextName == old(dev.nextName) + st.NamesUsed()
    ensures dev.trace == old(dev.trace) + ResizeBody(st, w, h, old(dev.nextName))
  {
    ghost var t0 := dev.trace;
    var base := dev.nextName;
    var n := |st.colorSpecs|;
    dev.Emit([BindFramebuffer(st.id)]);
    var names := RecreateColorTextures(dev, st.colorSpecs, st.colorAttachments, w, h);
    ghost var t1 := dev.trace;
    if n > 0 {
      dev.Emit([DrawBuffers(ColorList(n))]);
    } else {
      assert t1 + DrawBufferCalls(n) == t1;
    }
    ghost var t2 := dev.trace;
    assert t2 == t1 + DrawBufferCalls(n);
    var depth := st.depthAttachment;
    if st.depthSpec.format != TextureFormat.None {
      depth := ReplaceDepthTexture(dev, st.id, st.depthAttachment, w, h);
    } else {
      assert t2 + DepthAttachmentCalls(st, w, h, base) == t2;
    }
    ghost var t3 := dev.trace;
    assert t3 == t2 + DepthAttachmentCalls(st, w, h, base);
    var rb := ReplaceRenderbuffer(dev, st.id, st.swapChainTarget, st.depthRenderbuffer, w, h);
    AppendAssociates(t0, [BindFramebuffer(st.id)], ColorCalls(st.colorSpecs, st.colorAttachments, w, h, base, n),
                     DrawBufferCalls(n), DepthAttachmentCalls(st, w, h, base),
                     RenderbufferCalls(st.id, st.swapChainTarget, st.depthRenderbuffer, rb, w, h));
    r := st.(width := w, height := h, colorAttachments := names, depthAttachment := depth, depthRenderbuffer := rb);
  }

  lemma AppendAssociates<T>(t: seq<T>, a: seq<T>, b: seq<T>, c: seq<T>, d: seq<T>, e: seq<T>)
    ensures t + a + b + c + d + e == t + (a + b + c + d + e)
  {
  }

  /** The constructor's loop over the attachment list: non-depth entries are
      appended as colour attachments with name 0, the last depth entry wins. */
  method PartitionAttachments(atts: seq<TextureSpecification>)
    returns (colors: seq<TextureSpecification>, names: seq<Name>, depth: TextureSpecification)
    ensures colors == ColorSpecs(atts)
    ensures names == seq(|colors|, _ => 0)
    ensures depth == DepthSpecOf(atts, DefaultTextureSpecification)
  {
    colors, names, depth := [], [], DefaultTextureSpecification;
    var k := 0;
    while k < |atts|
      invariant 0 <= k <= |atts|
      invariant colors == ColorSpecs(atts[..k])
      invariant names == seq(|colors|, _ => 0)
      invariant depth == DepthSpecOf(atts[..k], DefaultTextureSpecification)
    {
      assert atts[..k + 1][..k] == atts[..k];
      if atts[k].format == Depth {
        depth := atts[k];
      } else {
        colors := colors + [atts[k]];
        names := names + [0];
      }
      k := k + 1;
    }
    assert atts[..k] == atts;
  }

  /** Everything a Framebuffer object holds. */
  datatype FramebufferState = FramebufferState(
    id: Name, width: nat, height: nat,
    colorSpecs: seq<TextureSpecification>, colorAttachments: seq<Name>,
    depthSpec: TextureSpecification, depthAttachment: Name,
    swapChainTarget: bool, depthRenderbuffer: Name)
  {
    predicate WellFormed()
    {
      |colorSpecs| == |colorAttachments|
    }

    predicate HasDepth()
    {
      depthSpec.format != TextureFormat.None
    }

    /** How many names one resize asks the context for. */
    function NamesUsed(): nat
    {
      |colorSpecs| + (if HasDepth() then 1 else 0) + 1
    }
  }

  /** The state a resize to (w, h) leaves, when the names it is given start at `base`:
      colour textures first, then the depth texture if there is one, then the renderbuffer. */
  function Resized(st: FramebufferState, w: nat, h: nat, base: Name): (r: FramebufferState)
    requires st.WellFormed()
    ensures r.WellFormed()
  {
    st.(width := w, height := h,
        colorAttachments := FreshNames(base, |st.colorSpecs|),
        depthAttachment := if st.HasDepth() then DepthTextureName(st, base) else st.depthAttachment,
        depthRenderbuffer := RenderbufferName(st, base))
  }

  /** The name a resize gives the depth texture: the one after the colour textures. */
  function DepthTextureName(st: FramebufferState, base: Name): Name
  {
    base + |st.colorSpecs|
  }

  /** The name a resize gives the renderbuffer: the last one it asks for. */
  function RenderbufferName(st: FramebufferState, base: Name): Name
  {
    base + |st.colorSpecs| + (if st.HasDepth() then 1 else 0)
  }

  /** The calls that replace colour attachment `i` (old texture `prev`, new texture `tex`);
      a texture that clamps to its border also gets the border colour. */
  function ColorAttachmentCalls(i: nat, spec: TextureSpecification, prev: Name, tex: Name, w: nat, h: nat): seq<Event>
  {
    if spec.wrap == ClampToBorder then
      [Delete(TextureObject, prev), Generate(TextureObject, tex), BindTexture(Texture2D, tex),
       TexParameters(FilterParam(spec.filter), WrapParam(spec.wrap)), TexBorderColor(BorderWhite),
       TexImage(Texture2D, 0, StorageFormat(spec.format), w, h),
       AttachTexture(Color(i), Texture2D, tex, 0), BindTexture(Texture2D, 0)]
    else
      [Delete(TextureObject, prev), Generate(TextureObject, tex), BindTexture(Texture2D, tex),
       TexParameters(FilterParam(spec.filter), WrapParam(spec.wrap)),
       TexImage(Texture2D, 0, StorageFormat(spec.format), w, h),
       AttachTexture(Color(i), Texture2D, tex, 0), BindTexture(Texture2D, 0)]
  }

  /** How many of the first `k` specifications clamp to their border. */
  function BorderCount(specs: seq<TextureSpecification>, k: nat): nat
    requires k <= |specs|
  {
    if k == 0 then 0 else BorderCount(specs, k - 1) + (if specs[k - 1].wrap == ClampToBorder then 1 else 0)
  }

  /** The calls for the first `k` colour attachments: seven per attachment,
      and an eighth, the border colour, for each one that clamps to its border. */
  function ColorCalls(specs: seq<TextureSpecification>, prevs: seq<Name>, w: nat, h: nat, base: Name, k: nat): (r: seq<Event>)
    requires k <= |specs| && k <= |prevs|
    ensures |r| == 7 * k + BorderCount(specs, k)
  {
    if k == 0 then []
    else ColorCalls(specs, prevs, w, h, base, k - 1) + ColorAttachmentCalls(k - 1, specs[k - 1], prevs[k - 1], base + k - 1, w, h)
  }

  /** The trace after attachment `i` is the trace before it followed by that
      attachment's calls. */
  lemma ColorCallsStep(specs: seq<TextureSpecification>, prevs: seq<Name>, w: nat, h: nat, base: Name, i: nat,
                       t0: seq<Event>, before: seq<Event>, after: seq<Event>)
    requires i < |specs| && i < |prevs|
    requires before == t0 + ColorCalls(specs, prevs, w, h, base, i)
    requires after == before + ColorAttachmentCalls(i, specs[i], prevs[i], base + i, w, h)
    ensures after == t0 + ColorCalls(specs, prevs, w, h, base, i + 1)
  {
    var chunk := ColorAttachmentCalls(i, specs[i], prevs[i], base + i, w, h);
    assert ColorCalls(specs, prevs, w, h, base, i + 1) == ColorCalls(specs, prevs, w, h, base, i) + chunk;
    RegroupTwo(t0, ColorCalls(specs, prevs, w, h, base, i), chunk);
  }

  function DepthCalls(id: Name, prev: Name, tex: Name, w: nat, h: nat): seq<Event>
  {
    [Delete(TextureObject, prev), Generate(TextureObject, tex), BindTexture(Texture2D, tex),
     TexImage(Texture2D, 0, DepthComponent, w, h), TexParameters(FilterNearest, WrapClampToBorder),
     TexBorderColor(BorderWhite), BindTexture(Texture2D, 0), BindFramebuffer(id),
     AttachTexture(DepthAttachment, Texture2D, tex, 0)]
  }

  function RenderbufferCalls(id: Name, swapChainTarget: bool, prev: Name, rb: Name, w: nat, h: nat): seq<Event>
  {
    [Delete(RenderbufferObject, prev), Generate(RenderbufferObject, rb)]
    + if swapChainTarget then
        [BindFramebuffer(id), BindRenderbuffer(rb), RenderbufferStorage(Depth24Stencil8, w, h), BindRenderbuffer(0),
         AttachRenderbuffer(DepthStencilAttachment, rb), BindFramebuffer(id)]
      else []
  }

  /** A complete framebuffer gets the viewport and is unbound; an incomplete one is only reported. */
  function CompletionCalls(complete: bool, w: nat, h: nat): seq<Event>
  {
    if complete then [Viewport(w, h), BindFramebuffer(0)] else [LogError(IncompleteMessage)]
  }

  function DrawBufferCalls(n: nat): seq<Event>
  {
    if n > 0 then [DrawBuffers(ColorList(n))] else []
  }

  function DepthAttachmentCalls(st: FramebufferState, w: nat, h: nat, base: Name): seq<Event>
    requires st.WellFormed()
  {
    if st.HasDepth() then DepthCalls(st.id, st.depthAttachment, DepthTextureName(st, base), w, h) else []
  }

  /** The calls OnResize makes before the completeness check: bind, colour
      attachments, draw buffers, depth texture, renderbuffer. */
  function ResizeBody(st: FramebufferState, w: nat, h: nat, base: Name): seq<Event>
    requires st.WellFormed()
  {
    [BindFramebuffer(st.id)]
    + ColorCalls(st.colorSpecs, st.colorAttachments, w, h, base, |st.colorSpecs|)
    + DrawBufferCalls(|st.colorSpecs|)
    + DepthAttachmentCalls(st, w, h, base)
    + RenderbufferCalls(st.id, st.swapChainTarget, st.depthRenderbuffer, RenderbufferName(st, base), w, h)
  }

  /** Every call OnResize makes when the size changes. */
  function ResizeCalls(st: FramebufferState, w: nat, h: nat, base: Name, complete: bool): seq<Event>
    requires st.WellFormed()
  {
    ResizeBody(st, w, h, base) + CompletionCalls(complete, w, h)
  }

  /** The colour-attachment calls neither bind a framebuffer, set the viewport nor pick draw buffers. */
  lemma {:induction false} ColorCallsShape(specs: seq<TextureSpecification>, prevs: seq<Name>, w: nat, h: nat, base: Name, k: nat)
    requires k <= |specs| && k <= |prevs|
    ensures forall e | e in ColorCalls(specs, prevs, w, h, base, k) :: !e.BindFramebuffer? && !e.Viewport? && !e.DrawBuffers?
  {
    if k > 0 {
      ColorCallsShape(specs, prevs, w, h, base, k - 1);
    }
  }

  /** The calls for fewer attachments are a prefix of the calls for more. */
  lemma {:induction false} ColorCallsPrefix(specs: seq<TextureSpecification>, prevs: seq<Name>, w: nat, h: nat, base: Name, j: nat, k: nat)
    requires j <= k <= |specs| && k <= |prevs|
    ensures ColorCalls(specs, prevs, w, h, base, j) <= ColorCalls(specs, prevs, w, h, base, k)
  {
    if j < k {
      ColorCallsPrefix(specs, prevs, w, h, base, j, k - 1);
    }
  }

  /** Attachment i's calls come right after those of the attachments before it. */
  lemma {:induction false} ColorCallsSlice(specs: seq<TextureSpecification>, prevs: seq<Name>, w: nat, h: nat, base: Name, k: nat, i: nat)
    requires k <= |specs| && k <= |prevs| && i < k
    ensures ColorCalls(specs, prevs, w, h, base, i) + ColorAttachmentCalls(i, specs[i], prevs[i], base + i, w, h)
            <= ColorCalls(specs, prevs, w, h, base, k)
  {
    var chunk := ColorAttachmentCalls(i, specs[i], prevs[i], base + i, w, h);
    assert ColorCalls(specs, prevs, w, h, base, i + 1) == ColorCalls(specs, prevs, w, h, base, i) + chunk;
    ColorCallsPrefix(specs, prevs, w, h, base, i + 1, k);
  }

  /** Attachment i's texture upload and attachment are among the colour calls. */
  lemma ColorCallsAllocate(specs: seq<TextureSpecification>, prevs: seq<Name>, w: nat, h: nat, base: Name, k: nat, i: nat)
    requires k <= |specs| && k <= |prevs| && i < k
    ensures TexImage(Texture2D, 0, StorageFormat(specs[i].format), w, h) in ColorCalls(specs, prevs, w, h, base, k)
    ensures AttachTexture(Color(i), Texture2D, base + i, 0) in ColorCalls(specs, prevs, w, h, base, k)
    ensures specs[i].wrap == ClampToBorder ==> TexBorderColor(BorderWhite) in ColorCalls(specs, prevs, w, h, base, k)
  {
    var before := ColorCalls(specs, prevs, w, h, base, i);
    var chunk := ColorAttachmentCalls(i, specs[i], prevs[i], base + i, w, h);
    var all := ColorCalls(specs, prevs, w, h, base, k);
    ColorCallsSlice(specs, prevs, w, h, base, k, i);
    AttachmentCallsAllocate(i, specs[i], prevs[i], base + i, w, h);
    InMiddle(TexImage(Texture2D, 0, StorageFormat(specs[i].format), w, h), before, chunk, all);
    InMiddle(AttachTexture(Color(i), Texture2D, base + i, 0), before, chunk, all);
    if specs[i].wrap == ClampToBorder {
      InMiddle(TexBorderColor(BorderWhite), before, chunk, all);
    }
  }

  /** What occurs in a run that, after some prefix, begins a sequence occurs in the sequence. */
  lemma InMiddle<T>(x: T, p: seq<T>, c: seq<T>, all: seq<T>)
    requires p + c <= all && x in c
    ensures x in all
  {
    var j :| 0 <= j < |c| && c[j] == x;
    assert all[|p| + j] == (p + c)[|p| + j] == x;
  }

  /** One attachment's calls allocate its storage, attach it, and set the
      border colour when it clamps to its border. */
  lemma AttachmentCallsAllocate(i: nat, spec: TextureSpecification, prev: Name, tex: Name, w: nat, h: nat)
    ensures TexImage(Texture2D, 0, StorageFormat(spec.format), w, h) in ColorAttachmentCalls(i, spec, prev, tex, w, h)
    ensures AttachTexture(Color(i), Texture2D, tex, 0) in ColorAttachmentCalls(i, spec, prev, tex, w, h)
    ensures spec.wrap == ClampToBorder <==> TexBorderColor(BorderWhite) in ColorAttachmentCalls(i, spec, prev, tex, w, h)
  {
    var c := ColorAttachmentCalls(i, spec, prev, tex, w, h);
    assert c[|c| - 3] == TexImage(Texture2D, 0, StorageFormat(spec.format), w, h);
    assert c[|c| - 2] == AttachTexture(Color(i), Texture2D, tex, 0);
    if spec.wrap == ClampToBorder {
      assert c[4] == TexBorderColor(BorderWhite);
    }
  }

  /** The whole resize is the binding, the colour calls, and the rest. */
  lemma ResizeCallsSplit(st: FramebufferState, w: nat, h: nat, base: Name, complete: bool)
    requires st.WellFormed()
    ensures ResizeCalls(st, w, h, base, complete)
         == [BindFramebuffer(st.id)] + ColorCalls(st.colorSpecs, st.colorAttachments, w, h, base, |st.colorSpecs|)
            + DrawBufferCalls(|st.colorSpecs|)
            + (DepthAttachmentCalls(st, w, h, base)
               + RenderbufferCalls(st.id, st.swapChainTarget, st.depthRenderbuffer, RenderbufferName(st, base), w, h)
               + CompletionCalls(complete, w, h))
  {
  }

  /** A resize allocates colour attachment i as a new texture of the new size,
      in the storage its specification asks for, and attaches it at
      GL_COLOR_ATTACHMENT0 + i; `base + i` is the name the attachment then
      holds (ResizedColorName). */
  lemma ResizeAllocatesEachColor(st: FramebufferState, w: nat, h: nat, base: Name, complete: bool, i: nat)
    requires st.WellFormed() && i < |st.colorSpecs|
    ensures TexImage(Texture2D, 0, StorageFormat(st.colorSpecs[i].format), w, h) in ResizeCalls(st, w, h, base, complete)
    ensures AttachTexture(Color(i), Texture2D, base + i, 0) in ResizeCalls(st, w, h, base, complete)
  {
    ColorCallsAllocate(st.colorSpecs, st.colorAttachments, w, h, base, |st.colorSpecs|, i);
    ColorCallInResize(st, w, h, base, complete, TexImage(Texture2D, 0, StorageFormat(st.colorSpecs[i].format), w, h));
    ColorCallInResize(st, w, h, base, complete, AttachTexture(Color(i), Texture2D, base + i, 0));
  }

  /** A call of the colour loop is a call of the resize. */
  lemma ColorCallInResize(st: FramebufferState, w: nat, h: nat, base: Name, complete: bool, e: Event)
    requires st.WellFormed()
    requires e in ColorCalls(st.colorSpecs, st.colorAttachments, w, h, base, |st.colorSpecs|)
    ensures e in ResizeCalls(st, w, h, base, complete)
  {
    var colors := ColorCalls(st.colorSpecs, st.colorAttachments, w, h, base, |st.colorSpecs|);
    var rest := DepthAttachmentCalls(st, w, h, base)
                + RenderbufferCalls(st.id, st.swapChainTarget, st.depthRenderbuffer, RenderbufferName(st, base), w, h)
                + CompletionCalls(complete, w, h);
    ResizeCallsSplit(st, w, h, base, complete);
    InsideJoin(e, [BindFramebuffer(st.id)], colors, DrawBufferCalls(|st.colorSpecs|), rest);
  }

  /** Every border colour call of the colour loop sets white, for an
      attachment that clamps to its border. */
  lemma {:induction false} ColorCallsBorders(specs: seq<TextureSpecification>, prevs: seq<Name>, w: nat, h: nat, base: Name, k: nat)
    requires k <= |specs| && k <= |prevs|
    ensures forall e | e in ColorCalls(specs, prevs, w, h, base, k) && e.TexBorderColor? ::
      e.border == BorderWhite && exists i :: 0 <= i < k && specs[i].wrap == ClampToBorder
  {
    if k > 0 {
      ColorCallsBorders(specs, prevs, w, h, base, k - 1);
    }
  }

  /** A border colour call of a resize sets white, for the depth texture or
      for a colour attachment that clamps to its border. */
  lemma ResizeBordersFromClamps(st: FramebufferState, w: nat, h: nat, base: Name, complete: bool)
    requires st.WellFormed()
    ensures forall e | e in ResizeCalls(st, w, h, base, complete) && e.TexBorderColor? ::
      e.border == BorderWhite && (st.HasDepth() || exists i :: 0 <= i < |st.colorSpecs| && st.colorSpecs[i].wrap == ClampToBorder)
  {
    ColorCallsBorders(st.colorSpecs, st.colorAttachments, w, h, base, |st.colorSpecs|);
  }

  /** A resize sets the border colour of the depth texture, and of every
      colour attachment that clamps to its border. */
  lemma ResizeSetsBorders(st: FramebufferState, w: nat, h: nat, base: Name, complete: bool)
    requires st.WellFormed()
    ensures st.HasDepth() || (exists i :: 0 <= i < |st.colorSpecs| && st.colorSpecs[i].wrap == ClampToBorder)
            ==> TexBorderColor(BorderWhite) in ResizeCalls(st, w, h, base, complete)
  {
    if st.HasDepth() {
      var depth := DepthAttachmentCalls(st, w, h, base);
      assert depth[5] == TexBorderColor(BorderWhite);
    } else if i :| 0 <= i < |st.colorSpecs| && st.colorSpecs[i].wrap == ClampToBorder {
      ColorCallsAllocate(st.colorSpecs, st.colorAttachments, w, h, base, |st.colorSpecs|, i);
      ColorCallInResize(st, w, h, base, complete, TexBorderColor(BorderWhite));
    }
  }

  /** After a resize colour attachment i holds the i-th new name. */
  lemma ResizedColorName(st: FramebufferState, w: nat, h: nat, base: Name, i: nat)
    requires st.WellFormed() && i < |st.colorSpecs|
    ensures Resized(st, w, h, base).colorAttachments[i] == base + i
  {
  }

  /** A call of the second part is a call of the whole. */
  lemma InsideJoin(e: Event, a: seq<Event>, b: seq<Event>, c: seq<Event>, d: seq<Event>)
    requires e in b
    ensures e in a + b + c + d
  {
  }

  /** Before the completeness check a resize binds no framebuffer but this one
      and never sets the viewport. */
  lemma ResizeBodyShape(st: FramebufferState, w: nat, h: nat, base: Name)
    requires st.WellFormed()
    ensures BindsOnly(ResizeBody(st, w, h, base), st.id)
    ensures forall e | e in ResizeBody(st, w, h, base) :: KeepsViewport(e)
  {
    ColorCallsShape(st.colorSpecs, st.colorAttachments, w, h, base, |st.colorSpecs|);
  }

  /** No call after glDrawBuffers picks draw buffers again. */
  lemma TailPicksNoDrawBuffers(st: FramebufferState, w: nat, h: nat, base: Name, complete: bool)
    requires st.WellFormed()
    ensures forall e | e in DepthAttachmentCalls(st, w, h, base)
                          + RenderbufferCalls(st.id, st.swapChainTarget, st.depthRenderbuffer, RenderbufferName(st, base), w, h)
                          + CompletionCalls(complete, w, h) :: !e.DrawBuffers?
  {
  }

  /** glDrawBuffers is issued exactly when there are colour attachments, and
      then lists all of them in order. */
  lemma ResizeDrawBuffers(st: FramebufferState, w: nat, h: nat, base: Name, complete: bool)
    requires st.WellFormed()
    ensures (exists e :: e in ResizeCalls(st, w, h, base, complete) && e.DrawBuffers?) <==> |st.colorSpecs| > 0
    ensures forall e | e in ResizeCalls(st, w, h, base, complete) && e.DrawBuffers? :: e.buffers == ColorList(|st.colorSpecs|)
  {
    var n := |st.colorSpecs|;
    ColorCallsShape(st.colorSpecs, st.colorAttachments, w, h, base, n);
    TailPicksNoDrawBuffers(st, w, h, base, complete);
    ResizeCallsSplit(st, w, h, base, complete);
    if n > 0 {
      var calls := ResizeCalls(st, w, h, base, complete);
      assert calls[1 + |ColorCalls(st.colorSpecs, st.colorAttachments, w, h, base, n)|] == DrawBuffers(ColorList(n));
    }
  }

  /** A complete framebuffer ends unbound with the viewport at the new size; an
      incomplete one stays bound and the viewport is left as it was. */
  lemma ResizeLeavesBinding(s: State, st: FramebufferState, w: nat, h: nat, base: Name, complete: bool)
    requires st.WellFormed()
    ensures complete ==> Run(s, ResizeCalls(st, w, h, base, complete)).framebuffer == 0
    ensures complete ==> Run(s, ResizeCalls(st, w, h, base, complete)).viewport == (w, h)
    ensures !complete ==> Run(s, ResizeCalls(st, w, h, base, complete)).framebuffer == st.id
    ensures !complete ==> Run(s, ResizeCalls(st, w, h, base, complete)).viewport == s.viewport
  {
    var body := ResizeBody(st, w, h, base);
    RunAppend(s, body, CompletionCalls(complete, w, h));
    var mid := Run(s, body);
    if complete {
      assert CompletionCalls(complete, w, h) == [Viewport(w, h)] + [BindFramebuffer(0)];
      RunAppend(mid, [Viewport(w, h)], [BindFramebuffer(0)]);
      RunSingle(mid, Viewport(w, h));
      RunSingle(Step(mid, Viewport(w, h)), BindFramebuffer(0));
    } else {
      ResizeBodyShape(st, w, h, base);
      assert body == [BindFramebuffer(st.id)] + body[1..];
      RunAppend(s, [BindFramebuffer(st.id)], body[1..]);
      RunSingle(s, BindFramebuffer(st.id));
      assert BindsOnly(body[1..], st.id);
      RunBindsOnly(Step(s, BindFramebuffer(st.id)), body[1..], st.id);
      RunKeepsViewport(s, body);
      RunSingle(mid, LogError(IncompleteMessage));
    }
  }

  /** The new names are pairwise distinct and all come from this resize's range. */
  lemma ResizedNamesAreFresh(st: FramebufferState, w: nat, h: nat, base: Name)
    requires st.WellFormed()
    ensures var r := Resized(st, w, h, base);
      (forall i, j :: 0 <= i < j < |r.colorAttachments| ==> r.colorAttachments[i] != r.colorAttachments[j])
      && (forall i :: 0 <= i < |r.colorAttachments| ==> base <= r.colorAttachments[i] < base + st.NamesUsed())
      && r.depthRenderbuffer == base + st.NamesUsed() - 1
      && (st.HasDepth() ==> r.depthAttachment !in r.colorAttachments && r.depthAttachment != r.depthRenderbuffer)
  {
  }

  class Framebuffer {
    const buffer: Buffer
    var colorSpecs: seq<TextureSpecification>
    var colorAttachments: seq<Name>
    var depthSpec: TextureSpecification
    var depthAttachmentId: Name
    var isSwapChainTarget: bool
    var depthRenderbufferId: Name

    ghost predicate Valid()
      reads this
    {
      |colorSpecs| == |colorAttachments|
    }

    function Snapshot(): (st: FramebufferState)
      reads this, buffer
      ensures Valid() ==> st.WellFormed()
    {
      FramebufferState(buffer.id, buffer.width, buffer.height, colorSpecs, colorAttachments,
                       depthSpec, depthAttachmentId, isSwapChainTarget, depthRenderbufferId)
    }

    /** Framebuffer() = default: a bound framebuffer name and nothing attached. */
    constructor Default(dev: Device)
      modifies dev
      ensures Valid() && fresh(buffer)
      ensures Snapshot() == FramebufferState(old(dev.nextName), 0, 0, [], [], DefaultTextureSpecification, 0, false, 0)
      ensures dev.nextName == old(dev.nextName) + 1
      ensures dev.trace == old(dev.trace) + [Generate(FramebufferObject, buffer.id), BindFramebuffer(buffer.id)]
    {
      buffer := new Buffer(dev);
      colorSpecs, colorAttachments := [], [];
      depthSpec := DefaultTextureSpecification;
      depthAttachmentId := 0;
      isSwapChainTarget := false;
      depthRenderbufferId := 0;
    }

    /** Framebuffer(w, h): the requested size never reaches this class's
        OnResize (see Buffer.Sized), so the framebuffer stays 0 by 0. */
    constructor Sized(dev: Device, w: nat, h: nat)
      modifies dev
      ensures Valid() && fresh(buffer)
      ensures Snapshot() == FramebufferState(old(dev.nextName), 0, 0, [], [], DefaultTextureSpecification, 0, false, 0)
      ensures dev.nextName == old(dev.nextName) + 1
      ensures dev.trace == old(dev.trace) + [Generate(FramebufferObject, buffer.id), BindFramebuffer(buffer.id)]
    {
      buffer := new Buffer.Sized(dev, w, h);
      colorSpecs, colorAttachments := [], [];
      depthSpec := DefaultTextureSpecification;
      depthAttachmentId := 0;
      isSwapChainTarget := false;
      depthRenderbufferId := 0;
    }

    /** Framebuffer(spec): non-depth entries become colour attachments (name 0
        until the first resize), the last depth entry becomes the depth
        attachment; the specification's size and sample count are not used. */
    constructor (dev: Device, spec: FramebufferSpecification)
      modifies dev
      ensures Valid() && fresh(buffer)
      ensures Snapshot() == FramebufferState(old(dev.nextName), 0, 0, ColorSpecs(spec.attachments),
                                             seq(|ColorSpecs(spec.attachments)|, _ => 0),
                                             DepthSpecOf(spec.attachments, DefaultTextureSpecification), 0,
                                             spec.swapChainTarget, 0)
      ensures dev.nextName == old(dev.nextName) + 1
      ensures dev.trace == old(dev.trace) + [Generate(FramebufferObject, buffer.id), BindFramebuffer(buffer.id)]
    {
      buffer := new Buffer(dev);
      var colors, names, depth := PartitionAttachments(spec.attachments);
      colorSpecs, colorAttachments := colors, names;
      depthSpec := depth;
      depthAttachmentId := 0;
      isSwapChainTarget := spec.swapChainTarget;
      depthRenderbufferId := 0;
    }

    /** The colour attachment at `index`; the source does not check the index. */
    function GetColorAttachmentID(index: nat): Name
      reads this
      requires index < |colorAttachments|
    {
      colorAttachments[index]
    }

    function GetDepthAttachmentID(): Name
      reads this
    {
      depthAttachmentId
    }

    function GetRenderbufferID(): Name
      reads this
    {
      depthRenderbufferId
    }

    /** Resize to (w, h): nothing happens at the current size; otherwise every
        attachment is recreated at the new size and the size is recorded even
        if the framebuffer then turns out incomplete. */
    method OnResize(dev: Device, w: nat, h: nat, complete: bool)
      requires Valid()
      modifies this, buffer, dev
      ensures Valid()
      ensures w == old(buffer.width) && h == old(buffer.height) ==>
        Snapshot() == old(Snapshot()) && dev.trace == old(dev.trace) && dev.nextName == old(dev.nextName)
      ensures !(w == old(buffer.width) && h == old(buffer.height)) ==>
        Snapshot() == Resized(old(Snapshot()), w, h, old(dev.nextName))
        && dev.nextName == old(dev.nextName) + old(Snapshot()).NamesUsed()
        && dev.trace == old(dev.trace) + ResizeCalls(old(Snapshot()), w, h, old(dev.nextName), complete)
    {
      if w == buffer.width && h == buffer.height {
        return;
      }
      var st := Snapshot();
      ghost var t0 := dev.trace;
      buffer.width, buffer.height := w, h;
      var r := RecreateAttachments(dev, st, w, h);
      colorAttachments, depthAttachmentId, depthRenderbufferId := r.colorAttachments, r.depthAttachment, r.depthRenderbuffer;
      ghost var body := ResizeBody(st, w, h, old(dev.nextName));
      if !complete {
        dev.Emit([LogError(IncompleteMessage)]);
        RegroupTwo(t0, body, CompletionCalls(complete, w, h));
        return;
      }
      dev.Emit([Viewport(w, h), BindFramebuffer(0)]);
      RegroupTwo(t0, body, CompletionCalls(complete, w, h));
    }

    /** Read the integer texel at (x, y) of colour attachment `attachmentIndex`;
        `pixel` is what the GPU returns. An index past the attachments is
        reported and answered with -1 before any GL call. */
    method ReadPixel(dev: Device, attachmentIndex: nat, x: int, y: int, pixel: int) returns (r: int)
      modifies dev
      ensures attachmentIndex >= |colorAttachments| ==>
        r == -1 && dev.trace == old(dev.trace) + [LogError(OutOfBoundMessage)]
      ensures attachmentIndex < |colorAttachments| ==>
        r == pixel
        && dev.trace == old(dev.trace) + BindCalls(buffer.id, buffer.width, buffer.height)
                        + [ReadBuffer(Some(Color(attachmentIndex))), ReadPixels(x, y)]
      ensures dev.nextName == old(dev.nextName)
    {
      if attachmentIndex >= |colorAttachments| {
        dev.Emit([LogError(OutOfBoundMessage)]);
        return -1;
      }
      buffer.Bind(dev);
      dev.Emit([ReadBuffer(Some(Color(attachmentIndex))), ReadPixels(x, y)]);
      return pixel;
    }

    method Bind(dev: Device)
      modifies dev
      ensures dev.trace == old(dev.trace) + BindCalls(buffer.id, buffer.width, buffer.height)
      ensures dev.nextName == old(dev.nextName)
    {
      buffer.Bind(dev);
    }
  }
}
