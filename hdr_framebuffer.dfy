// HdrFramebuffer.hpp / HdrFramebuffer.cpp: the renderer's main target, a
// framebuffer with two 16-bit float colour textures (the scene and its
// bright part) and a depth renderbuffer.
module HdrFramebuffers {
  import opened Wrappers
  import opened GL
  import opened Buffers

  const HdrIncompleteMessage := "ERROR::FRAMEBUFFER:: HdrFramebuffer is not complete!"

  /** The calls that set up colour texture `i` (name `tex`) at the new size. */
  function HdrColorCalls(i: nat, tex: Name, w: nat, h: nat): seq<Event>
  {
    [BindTexture(Texture2D, tex), TexImage(Texture2D, 0, RGB16F, w, h),
     TexParameters(FilterLinear, WrapClampToEdge), AttachTexture(Color(i), Texture2D, tex, 0),
     GenerateMipmap(Texture2D), BindTexture(Texture2D, 0)]
  }

  /** The calls of the first `k` passes of the colour loop. */
  function HdrColorLoop(names: seq<Name>, k: nat, w: nat, h: nat): (r: seq<Event>)
    requires k <= |names|
    ensures |r| == 6 * k
  {
    if k == 0 then [] else HdrColorLoop(names, k - 1, w, h) + HdrColorCalls(k - 1, names[k - 1], w, h)
  }

  /** Everything a resize does before the completeness check: the old colour
      textures `prevs` and renderbuffer `prevRb` are freed, and the new names
      are `base`, `base + 1` (colour) and `base + 2` (depth renderbuffer). */
  function HdrResizeBody(id: Name, prevs: seq<Name>, prevRb: Name, base: Name, w: nat, h: nat): seq<Event>
    requires |prevs| == 2
  {
    [BindFramebuffer(id)] + HdrColorbufferCalls(prevs, base, w, h) + HdrRenderbufferCalls(id, prevRb, base + 2, w, h)
  }

  /** Both colour textures freed, two new names, then the colour loop. */
  function HdrColorbufferCalls(prevs: seq<Name>, base: Name, w: nat, h: nat): seq<Event>
    requires |prevs| == 2
  {
    [Delete(TextureObject, prevs[0]), Delete(TextureObject, prevs[1])]
    + [Generate(TextureObject, base)] + [Generate(TextureObject, base + 1)]
    + HdrColorLoop([base, base + 1], 2, w, h)
  }

  /** The depth renderbuffer replaced by `rb`, with 24-bit depth storage. */
  function HdrRenderbufferCalls(id: Name, prevRb: Name, rb: Name, w: nat, h: nat): seq<Event>
  {
    [Delete(RenderbufferObject, prevRb)] + [Generate(RenderbufferObject, rb)]
    + [BindFramebuffer(id), BindRenderbuffer(rb), RenderbufferStorage(DepthComponent24, w, h),
       BindRenderbuffer(0), AttachRenderbuffer(DepthAttachment, rb)]
  }

  lemma HdrColorLoopUnrolled(base: Name, w: nat, h: nat)
    ensures HdrColorLoop([base, base + 1], 2, w, h) == HdrColorCalls(0, base, w, h) + HdrColorCalls(1, base + 1, w, h)
  {
    assert HdrColorLoop([base, base + 1], 1, w, h) == [] + HdrColorCalls(0, base, w, h);
  }

  /** A complete framebuffer draws into both colour attachments, gets the
      viewport and is unbound; an incomplete one is only reported. */
  function HdrCompletionCalls(complete: bool, w: nat, h: nat): seq<Event>
  {
    if complete then [DrawBuffers([Color(0), Color(1)]), Viewport(w, h), BindFramebuffer(0)]
    else [LogError(HdrIncompleteMessage)]
  }

  function HdrResizeCalls(id: Name, prevs: seq<Name>, prevRb: Name, base: Name, w: nat, h: nat, complete: bool): seq<Event>
    requires |prevs| == 2
  {
    HdrResizeBody(id, prevs, prevRb, base, w, h) + HdrCompletionCalls(complete, w, h)
  }

  /** The colour part frees the two old textures, creates the two new ones
      and attaches each at its own colour attachment, and nothing else. */
  lemma HdrColorbufferCallsShape(prevs: seq<Name>, base: Name, w: nat, h: nat)
    requires |prevs| == 2
    ensures var cs := HdrColorbufferCalls(prevs, base, w, h);
      (forall e | e in cs && e.Delete? :: e == Delete(TextureObject, prevs[0]) || e == Delete(TextureObject, prevs[1]))
      && (forall e | e in cs && e.Generate? :: e == Generate(TextureObject, base) || e == Generate(TextureObject, base + 1))
      && (forall e | e in cs && e.AttachTexture? :: e == AttachTexture(Color(0), Texture2D, base, 0) || e == AttachTexture(Color(1), Texture2D, base + 1, 0))
      && AttachTexture(Color(0), Texture2D, base, 0) in cs && AttachTexture(Color(1), Texture2D, base + 1, 0) in cs
      && (forall e | e in cs :: !e.DrawBuffers? && !e.BindFramebuffer?)
  {
    var cs := HdrColorbufferCalls(prevs, base, w, h);
    var made := [Delete(TextureObject, prevs[0]), Delete(TextureObject, prevs[1])]
                 + [Generate(TextureObject, base)] + [Generate(TextureObject, base + 1)];
    var c0, c1 := HdrColorCalls(0, base, w, h), HdrColorCalls(1, base + 1, w, h);
    HdrColorLoopUnrolled(base, w, h);
    assert cs == made + (c0 + c1);
    HdrColorCallsShape(0, base, w, h);
    HdrColorCallsShape(1, base + 1, w, h);
    forall e | e in cs
      ensures e in made || e in c0 || e in c1
    {
    }
  }

  /** One pass of the colour loop attaches its texture and nothing else, and
      frees, creates and binds no framebuffer object. */
  lemma HdrColorCallsShape(i: nat, tex: Name, w: nat, h: nat)
    ensures var cs := HdrColorCalls(i, tex, w, h);
      (forall e | e in cs :: !e.Delete? && !e.Generate? && !e.DrawBuffers? && !e.BindFramebuffer?)
      && (forall e | e in cs && e.AttachTexture? :: e == AttachTexture(Color(i), Texture2D, tex, 0))
      && AttachTexture(Color(i), Texture2D, tex, 0) in cs
  {
    assert HdrColorCalls(i, tex, w, h)[3] == AttachTexture(Color(i), Texture2D, tex, 0);
  }

  /** The renderbuffer part frees the old renderbuffer, creates and attaches
      the new one as depth attachment, and binds no framebuffer but this one. */
  lemma HdrRenderbufferCallsShape(id: Name, prevRb: Name, rb: Name, w: nat, h: nat)
    ensures var rs := HdrRenderbufferCalls(id, prevRb, rb, w, h);
      (forall e | e in rs && e.Delete? :: e == Delete(RenderbufferObject, prevRb))
      && (forall e | e in rs && e.Generate? :: e == Generate(RenderbufferObject, rb))
      && (forall e | e in rs :: !e.AttachTexture? && !e.DrawBuffers?)
      && AttachRenderbuffer(DepthAttachment, rb) in rs
      && BindsOnly(rs, id)
  {
    assert HdrRenderbufferCalls(id, prevRb, rb, w, h)[6] == AttachRenderbuffer(DepthAttachment, rb);
  }

  /** A resize frees exactly the two old colour textures and the old
      renderbuffer, and creates exactly two textures and one renderbuffer. */
  lemma HdrResizeReplacesNames(id: Name, prevs: seq<Name>, prevRb: Name, base: Name, w: nat, h: nat, complete: bool)
    requires |prevs| == 2
    ensures var calls := HdrResizeCalls(id, prevs, prevRb, base, w, h, complete);
      (forall e | e in calls && e.Delete? :: e == Delete(TextureObject, prevs[0]) || e == Delete(TextureObject, prevs[1]) || e == Delete(RenderbufferObject, prevRb))
      && (forall e | e in calls && e.Generate? :: e == Generate(TextureObject, base) || e == Generate(TextureObject, base + 1) || e == Generate(RenderbufferObject, base + 2))
  {
    HdrColorbufferCallsShape(prevs, base, w, h);
    HdrRenderbufferCallsShape(id, prevRb, base + 2, w, h);
  }

  /** The new textures are attached at GL_COLOR_ATTACHMENT0 and 1 and no
      other texture is attached; the renderbuffer is the depth attachment. */
  lemma HdrResizeAttachments(id: Name, prevs: seq<Name>, prevRb: Name, base: Name, w: nat, h: nat, complete: bool)
    requires |prevs| == 2
    ensures var calls := HdrResizeCalls(id, prevs, prevRb, base, w, h, complete);
      (forall e | e in calls && e.AttachTexture? :: e == AttachTexture(Color(0), Texture2D, base, 0) || e == AttachTexture(Color(1), Texture2D, base + 1, 0))
      && AttachTexture(Color(0), Texture2D, base, 0) in calls && AttachTexture(Color(1), Texture2D, base + 1, 0) in calls
      && AttachRenderbuffer(DepthAttachment, base + 2) in calls
  {
    HdrColorbufferCallsShape(prevs, base, w, h);
    HdrRenderbufferCallsShape(id, prevRb, base + 2, w, h);
  }

  /** The draw-buffer list is set only when the framebuffer is complete, and
      then names exactly the two colour attachments. */
  lemma HdrResizeDrawBuffers(id: Name, prevs: seq<Name>, prevRb: Name, base: Name, w: nat, h: nat, complete: bool)
    requires |prevs| == 2
    ensures var calls := HdrResizeCalls(id, prevs, prevRb, base, w, h, complete);
      (DrawBuffers([Color(0), Color(1)]) in calls <==> complete)
      && (forall e | e in calls && e.DrawBuffers? :: e.buffers == [Color(0), Color(1)])
  {
    HdrColorbufferCallsShape(prevs, base, w, h);
    HdrRenderbufferCallsShape(id, prevRb, base + 2, w, h);
  }

  /** A complete framebuffer ends unbound; an incomplete one stays bound. */
  lemma HdrResizeLeavesBinding(s: State, id: Name, prevs: seq<Name>, prevRb: Name, base: Name, w: nat, h: nat, complete: bool)
    requires |prevs| == 2
    ensures complete ==> Run(s, HdrResizeCalls(id, prevs, prevRb, base, w, h, complete)).framebuffer == 0
    ensures !complete ==> Run(s, HdrResizeCalls(id, prevs, prevRb, base, w, h, complete)).framebuffer == id
  {
    var cs := HdrColorbufferCalls(prevs, base, w, h);
    var rs := HdrRenderbufferCalls(id, prevRb, base + 2, w, h);
    HdrColorbufferCallsShape(prevs, base, w, h);
    HdrRenderbufferCallsShape(id, prevRb, base + 2, w, h);
    var body := HdrResizeBody(id, prevs, prevRb, base, w, h);
    var tail := HdrCompletionCalls(complete, w, h);
    RunAppend(s, body, tail);
    RunAppend(s, [BindFramebuffer(id)], cs + rs);
    assert body == [BindFramebuffer(id)] + (cs + rs);
    RunSingle(s, BindFramebuffer(id));
    assert BindsOnly(cs + rs, id);
    RunBindsOnly(Step(s, BindFramebuffer(id)), cs + rs, id);
    if complete {
      assert tail == [DrawBuffers([Color(0), Color(1)]), Viewport(w, h)] + [BindFramebuffer(0)];
      RunLast(Run(s, body), [DrawBuffers([Color(0), Color(1)]), Viewport(w, h)], BindFramebuffer(0));
    } else {
      RunSingle(Run(s, body), LogError(HdrIncompleteMessage));
    }
  }

  /** Passing the colour-texture names to glDeleteTextures frees those very
      names, whatever they hold. */
  lemma HdrResizeFreesWhatItHolds(id: Name, prevs: seq<Name>, prevRb: Name, base: Name, w: nat, h: nat, complete: bool)
    requires |prevs| == 2
    ensures Delete(TextureObject, prevs[0]) in HdrResizeCalls(id, prevs, prevRb, base, w, h, complete)
    ensures Delete(TextureObject, prevs[1]) in HdrResizeCalls(id, prevs, prevRb, base, w, h, complete)
  {
    assert HdrResizeCalls(id, prevs, prevRb, base, w, h, complete)[1] == Delete(TextureObject, prevs[0]);
    assert HdrResizeCalls(id, prevs, prevRb, base, w, h, complete)[2] == Delete(TextureObject, prevs[1]);
  }

  /** As written, HdrFramebuffer(w, h) leaves the colour-texture array
      without a value, and the first resize hands it to glDeleteTextures: if
      it happens to hold the name of a live texture (here texture `live`,
      say another buffer's depth texture), that texture is destroyed. */
  lemma UninitialisedColorbuffersDeleteLiveTexture(id: Name, live: Name, prevRb: Name, base: Name, w: nat, h: nat, complete: bool)
    requires live != 0
    ensures Delete(TextureObject, live) in HdrResizeCalls(id, [live, live], prevRb, base, w, h, complete)
  {
    HdrResizeFreesWhatItHolds(id, [live, live], prevRb, base, w, h, complete);
  }

  /** With the array zeroed, the first resize frees only texture name 0,
      which glDeleteTextures ignores. */
  lemma ZeroedColorbuffersDeleteNothing(id: Name, prevRb: Name, base: Name, w: nat, h: nat, complete: bool)
    ensures forall e | e in HdrResizeCalls(id, [0, 0], prevRb, base, w, h, complete) && e.Delete? && e.kind == TextureObject :: e.name == 0
  {
    HdrResizeReplacesNames(id, [0, 0], prevRb, base, w, h, complete);
  }

  /** OnResize's colour part: both textures freed and regenerated in one
      call each, then the loop that sets each one up and attaches it. */
  method RecreateColorbuffers(dev: Device, colorbuffers: array<Name>, w: nat, h: nat)
    requires colorbuffers.Length == 2
    modifies dev, colorbuffers
    ensures colorbuffers[..] == [old(dev.nextName), old(dev.nextName) + 1] && dev.nextName == old(dev.nextName) + 2
    ensures dev.trace == old(dev.trace) + HdrColorbufferCalls(old(colorbuffers[..]), old(dev.nextName), w, h)
  {
    ghost var t0 := dev.trace;
    ghost var prevs := colorbuffers[..];
    var base := dev.nextName;
    dev.Emit([Delete(TextureObject, colorbuffers[0]), Delete(TextureObject, colorbuffers[1])]);
    colorbuffers[0] := dev.NewName(TextureObject);
    colorbuffers[1] := dev.NewName(TextureObject);
    ghost var t1 := dev.trace;
    var i := 0;
    while i < 2
      invariant 0 <= i <= 2
      invariant colorbuffers[..] == [base, base + 1]
      invariant dev.nextName == base + 2
      invariant dev.trace == t1 + HdrColorLoop([base, base + 1], i, w, h)
    {
      var tex := colorbuffers[i];
      dev.Emit([BindTexture(Texture2D, tex), TexImage(Texture2D, 0, RGB16F, w, h),
                TexParameters(FilterLinear, WrapClampToEdge), AttachTexture(Color(i), Texture2D, tex, 0),
                GenerateMipmap(Texture2D), BindTexture(Texture2D, 0)]);
      i := i + 1;
    }
  }

  /** OnResize's depth renderbuffer. */
  method RecreateRenderbuffer(dev: Device, id: Name, prevRb: Name, w: nat, h: nat) returns (rb: Name)
    modifies dev
    ensures rb == old(dev.nextName) && dev.nextName == rb + 1
    ensures dev.trace == old(dev.trace) + HdrRenderbufferCalls(id, prevRb, rb, w, h)
  {
    dev.Emit([Delete(RenderbufferObject, prevRb)]);
    rb := dev.NewName(RenderbufferObject);
    dev.Emit([BindFramebuffer(id), BindRenderbuffer(rb), RenderbufferStorage(DepthComponent24, w, h),
              BindRenderbuffer(0), AttachRenderbuffer(DepthAttachment, rb)]);
  }

  class HdrFramebuffer {
    const buffer: Buffer
    const colorbuffers: array<Name>
    var depthAttachmentId: Name
    var redIntegerBuffer: Name

    ghost predicate Valid()
      reads this
    {
      colorbuffers.Length == 2
    }

    /** HdrFramebuffer(), created through std::make_shared and so
        value-initialised: the colour-texture array starts as {0, 0}. */
    constructor (dev: Device)
      modifies dev
      ensures Valid() && fresh(buffer) && fresh(colorbuffers)
      ensures colorbuffers[..] == [0, 0] && depthAttachmentId == 0 && redIntegerBuffer == 0
      ensures buffer.id == old(dev.nextName) && dev.nextName == buffer.id + 1
      ensures buffer.textureId == 0 && buffer.width == 0 && buffer.height == 0
      ensures dev.trace == old(dev.trace) + [Generate(FramebufferObject, buffer.id), BindFramebuffer(buffer.id)]
    {
      buffer := new Buffer(dev);
      colorbuffers := new Name[2](_ => 0);
      depthAttachmentId := 0;
      redIntegerBuffer := 0;
      new;
      assert colorbuffers[..] == [colorbuffers[0], colorbuffers[1]];
    }

    /** HdrFramebuffer(w, h) as written: the size never reaches this class's
        OnResize, and the colour-texture array is left without a value; the
        value it happens to hold is `indeterminate`. */
    constructor Sized(dev: Device, w: nat, h: nat, indeterminate: seq<Name>)
      requires |indeterminate| == 2
      modifies dev
      ensures Valid() && fresh(buffer) && fresh(colorbuffers)
      ensures colorbuffers[..] == indeterminate && depthAttachmentId == 0 && redIntegerBuffer == 0
      ensures buffer.id == old(dev.nextName) && dev.nextName == buffer.id + 1
      ensures buffer.textureId == 0 && buffer.width == 0 && buffer.height == 0
      ensures dev.trace == old(dev.trace) + [Generate(FramebufferObject, buffer.id), BindFramebuffer(buffer.id)]
    {
      buffer := new Buffer.Sized(dev, w, h);
      colorbuffers := new Name[2](i requires 0 <= i < 2 => indeterminate[i]);
      depthAttachmentId := 0;
      redIntegerBuffer := 0;
    }

    /** HdrFramebuffer(w, h) with the array initialised to {0, 0}, as the
        other name fields are. */
    constructor SizedZeroed(dev: Device, w: nat, h: nat)
      modifies dev
      ensures Valid() && fresh(buffer) && fresh(colorbuffers)
      ensures colorbuffers[..] == [0, 0] && depthAttachmentId == 0 && redIntegerBuffer == 0
      ensures buffer.id == old(dev.nextName) && dev.nextName == buffer.id + 1
      ensures buffer.width == 0 && buffer.height == 0
      ensures dev.trace == old(dev.trace) + [Generate(FramebufferObject, buffer.id), BindFramebuffer(buffer.id)]
    {
      buffer := new Buffer.Sized(dev, w, h);
      colorbuffers := new Name[2](_ => 0);
      depthAttachmentId := 0;
      redIntegerBuffer := 0;
      new;
      assert colorbuffers[..] == [colorbuffers[0], colorbuffers[1]];
    }

    /** The scene colour texture (GetTextureID and GetTextureID0). */
    function GetTextureID0(): Name
      requires Valid()
      reads this, colorbuffers
    {
      colorbuffers[0]
    }

    /** The bright-part colour texture. */
    function GetTextureID1(): Name
      requires Valid()
      reads this, colorbuffers
    {
      colorbuffers[1]
    }

    function GetTextureID2(): Name
      reads this
    {
      redIntegerBuffer
    }

    function GetRenderbufferID(): Name
      reads this
    {
      depthAttachmentId
    }

    /** Resize to (w, h): nothing at the current size; otherwise the size is
        recorded first, both colour textures and the depth renderbuffer are
        replaced, and only a complete framebuffer gets its draw buffers. */
    method OnResize(dev: Device, w: nat, h: nat, complete: bool)
      requires Valid()
      modifies this, buffer, colorbuffers, dev
      ensures Valid() && buffer.id == old(buffer.id) && redIntegerBuffer == old(redIntegerBuffer)
      ensures w == old(buffer.width) && h == old(buffer.height) ==>
        unchanged(this) && unchanged(buffer) && unchanged(colorbuffers)
        && dev.trace == old(dev.trace) && dev.nextName == old(dev.nextName)
      ensures !(w == old(buffer.width) && h == old(buffer.height)) ==>
        buffer.width == w && buffer.height == h
        && colorbuffers[..] == [old(dev.nextName), old(dev.nextName) + 1]
        && depthAttachmentId == old(dev.nextName) + 2 && dev.nextName == old(dev.nextName) + 3
        && dev.trace == old(dev.trace) + HdrResizeCalls(buffer.id, old(colorbuffers[..]), old(depthAttachmentId),
                                                       old(dev.nextName), w, h, complete)
    {
      if w == buffer.width && h == buffer.height {
        return;
      }
      buffer.width, buffer.height := w, h;
      var id := buffer.id;
      ghost var t0 := dev.trace;
      ghost var prevs := colorbuffers[..];
      var base := dev.nextName;
      dev.Emit([BindFramebuffer(id)]);
      RecreateColorbuffers(dev, colorbuffers, w, h);
      var prevRb := depthAttachmentId;
      depthAttachmentId := RecreateRenderbuffer(dev, id, prevRb, w, h);
      ghost var body := HdrResizeBody(id, prevs, prevRb, base, w, h);
      assert dev.trace == t0 + body;
      if !complete {
        dev.Emit([LogError(HdrIncompleteMessage)]);
        RegroupTwo(t0, body, HdrCompletionCalls(complete, w, h));
        return;
      }
      dev.Emit([DrawBuffers([Color(0), Color(1)]), Viewport(w, h), BindFramebuffer(0)]);
      RegroupTwo(t0, body, HdrCompletionCalls(complete, w, h));
    }
  }
}
