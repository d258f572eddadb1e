// Depthbuffer.hpp / Depthbuffer.cpp: a framebuffer with a single depth
// texture and no colour output, used for the shadow map.
module Depthbuffers {
  import opened Wrappers
  import opened LinearAlgebra
  import opened GL
  import opened Buffers

  const IncompleteMessage := "ERROR::FRAMEBUFFER:: Framebuffer is not complete!"

  /** The calls a resize makes before the completeness check, when the old
      depth texture is `prev` and the new one `tex`. */
  function DepthResizeBody(id: Name, prev: Name, tex: Name, w: nat, h: nat): seq<Event>
  {
    [BindFramebuffer(id), Delete(TextureObject, prev)] + [Generate(TextureObject, tex)] +
    [BindTexture(Texture2D, tex), TexImage(Texture2D, 0, DepthComponent, w, h),
     TexParameters(FilterNearest, WrapClampToBorder), TexBorderColor(Vec4(1.0, 1.0, 1.0, 1.0)),
     BindTexture(Texture2D, 0), BindFramebuffer(id), AttachTexture(DepthAttachment, Texture2D, tex, 0),
     DrawBufferNone, ReadBuffer(None)]
  }

  /** Every call a resize to a new size makes. */
  function DepthResizeCalls(id: Name, prev: Name, tex: Name, w: nat, h: nat, complete: bool): seq<Event>
  {
    DepthResizeBody(id, prev, tex, w, h)
    + if complete then [Viewport(w, h), BindFramebuffer(0)] else [LogError(IncompleteMessage)]
  }

  /** A resize frees exactly the old depth texture, creates exactly one new
      texture, and attaches that one as the depth attachment and nothing as
      colour: draw and read buffers are both switched off. */
  lemma DepthResizeAttachments(id: Name, prev: Name, tex: Name, w: nat, h: nat, complete: bool)
    ensures var calls := DepthResizeCalls(id, prev, tex, w, h, complete);
      (forall e | e in calls && e.Delete? :: e == Delete(TextureObject, prev))
      && (forall e | e in calls && e.Generate? :: e == Generate(TextureObject, tex))
      && (forall e | e in calls && e.AttachTexture? :: e == AttachTexture(DepthAttachment, Texture2D, tex, 0))
      && !(exists e :: e in calls && e.DrawBuffers?)
      && DrawBufferNone in calls && ReadBuffer(None) in calls
  {
    var calls := DepthResizeCalls(id, prev, tex, w, h, complete);
    assert calls[10] == DrawBufferNone && calls[11] == ReadBuffer(None);
  }

  /** A complete depth buffer ends unbound with the viewport at its size; an
      incomplete one stays bound and leaves the viewport as it was. */
  lemma DepthResizeLeavesBinding(s: State, id: Name, prev: Name, tex: Name, w: nat, h: nat, complete: bool)
    ensures complete ==> Run(s, DepthResizeCalls(id, prev, tex, w, h, complete)).framebuffer == 0
    ensures complete ==> Run(s, DepthResizeCalls(id, prev, tex, w, h, complete)).viewport == (w, h)
    ensures !complete ==> Run(s, DepthResizeCalls(id, prev, tex, w, h, complete)).framebuffer == id
    ensures !complete ==> Run(s, DepthResizeCalls(id, prev, tex, w, h, complete)).viewport == s.viewport
  {
    var body := DepthResizeBody(id, prev, tex, w, h);
    var tail := if complete then [Viewport(w, h), BindFramebuffer(0)] else [LogError(IncompleteMessage)];
    RunAppend(s, body, tail);
    var mid := Run(s, body);
    if complete {
      assert tail == [Viewport(w, h)] + [BindFramebuffer(0)];
      RunAppend(mid, [Viewport(w, h)], [BindFramebuffer(0)]);
      RunSingle(mid, Viewport(w, h));
      RunSingle(Step(mid, Viewport(w, h)), BindFramebuffer(0));
    } else {
      assert body == body[..8] + [BindFramebuffer(id)] + body[9..];
      RunAppend(s, body[..8] + [BindFramebuffer(id)], body[9..]);
      RunLast(s, body[..8], BindFramebuffer(id));
      assert BindsOnly(body[9..], id);
      RunBindsOnly(Run(s, body[..8] + [BindFramebuffer(id)]), body[9..], id);
      RunKeepsViewport(s, body);
      RunSingle(mid, LogError(IncompleteMessage));
    }
  }

  class Depthbuffer {
    const buffer: Buffer

    /** Depthbuffer(): the base buffer only. */
    constructor (dev: Device)
      modifies dev
      ensures buffer.id == old(dev.nextName) && dev.nextName == buffer.id + 1
      ensures buffer.textureId == 0 && buffer.width == 0 && buffer.height == 0
      ensures dev.trace == old(dev.trace) + [Generate(FramebufferObject, buffer.id), BindFramebuffer(buffer.id)]
      ensures fresh(buffer)
    {
      buffer := new Buffer(dev);
    }

    /** Depthbuffer(w, h): the base constructor's resize is the base class's
        no-op, so no depth texture exists and the size is 0 by 0. */
    constructor Sized(dev: Device, w: nat, h: nat)
      modifies dev
      ensures buffer.id == old(dev.nextName) && dev.nextName == buffer.id + 1
      ensures buffer.textureId == 0 && buffer.width == 0 && buffer.height == 0
      ensures dev.trace == old(dev.trace) + [Generate(FramebufferObject, buffer.id), BindFramebuffer(buffer.id)]
      ensures fresh(buffer)
    {
      buffer := new Buffer.Sized(dev, w, h);
    }

    /** Resize to (w, h): nothing at the current size; otherwise the size is
        recorded first and the depth texture replaced by a fresh one. */
    method OnResize(dev: Device, w: nat, h: nat, complete: bool)
      modifies buffer, dev
      ensures buffer.id == old(buffer.id)
      ensures w == old(buffer.width) && h == old(buffer.height) ==>
        unchanged(buffer) && dev.trace == old(dev.trace) && dev.nextName == old(dev.nextName)
      ensures !(w == old(buffer.width) && h == old(buffer.height)) ==>
        buffer.width == w && buffer.height == h
        && buffer.textureId == old(dev.nextName) && dev.nextName == buffer.textureId + 1
        && dev.trace == old(dev.trace) + DepthResizeCalls(buffer.id, old(buffer.textureId), buffer.textureId, w, h, complete)
    {
      if w == buffer.width && h == buffer.height {
        return;
      }
      buffer.width, buffer.height := w, h;
      var id := buffer.id;
      var prev := buffer.textureId;
      ghost var t0 := dev.trace;
      dev.Emit([BindFramebuffer(id), Delete(TextureObject, prev)]);
      var tex := dev.NewName(TextureObject);
      buffer.textureId := tex;
      dev.Emit([BindTexture(Texture2D, tex), TexImage(Texture2D, 0, DepthComponent, w, h),
                TexParameters(FilterNearest, WrapClampToBorder), TexBorderColor(Vec4(1.0, 1.0, 1.0, 1.0)),
                BindTexture(Texture2D, 0), BindFramebuffer(id), AttachTexture(DepthAttachment, Texture2D, tex, 0),
                DrawBufferNone, ReadBuffer(None)]);
      assert dev.trace == t0 + DepthResizeBody(id, prev, tex, w, h);
      if !complete {
        dev.Emit([LogError(IncompleteMessage)]);
        return;
      }
      dev.Emit([Viewport(w, h), BindFramebuffer(0)]);
    }
  }
}
