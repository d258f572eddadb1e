// Buffer.hpp: the framebuffer base class. Constructing one creates and binds
// a framebuffer object; binding it also sets the viewport to its size.
// Framebuffer, Depthbuffer and HdrFramebuffer each hold one of these as
// their base part.
module Buffers {
  import opened GL

  /** The calls Bind makes for a framebuffer of the given name and size. */
  function BindCalls(id: Name, width: nat, height: nat): seq<Event>
  {
    [BindFramebuffer(id), Viewport(width, height)]
  }

  /** After Bind the buffer is the draw target and the viewport covers it exactly. */
  lemma BindTargetsBuffer(s: State, id: Name, width: nat, height: nat)
    ensures Run(s, BindCalls(id, width, height)).framebuffer == id
    ensures Run(s, BindCalls(id, width, height)).viewport == (width, height)
  {
    RunAppend(s, [BindFramebuffer(id)], [Viewport(width, height)]);
    RunSingle(s, BindFramebuffer(id));
    RunSingle(Step(s, BindFramebuffer(id)), Viewport(width, height));
    assert BindCalls(id, width, height) == [BindFramebuffer(id)] + [Viewport(width, height)];
  }

  /** After Unbind the default framebuffer is the draw target again. */
  lemma UnbindRestoresDefault(s: State)
    ensures Run(s, [BindFramebuffer(0)]).framebuffer == 0
  {
    RunSingle(s, BindFramebuffer(0));
  }

  class Buffer {
    var id: Name
    var textureId: Name
    var width: nat
    var height: nat

    /** Buffer(): a fresh framebuffer name, bound at once; no size yet. */
    constructor (dev: Device)
      modifies dev
      ensures id == old(dev.nextName) && dev.nextName == id + 1
      ensures textureId == 0 && width == 0 && height == 0
      ensures dev.trace == old(dev.trace) + [Generate(FramebufferObject, id), BindFramebuffer(id)]
    {
      var n := dev.NewName(FramebufferObject);
      dev.Emit([BindFramebuffer(n)]);
      id := n;
      textureId := 0;
      width, height := 0, 0;
    }

    /** Buffer(w, h): the resize it requests runs while only the base part
        exists, so it is the base class's no-op and the size stays 0 by 0. */
    constructor Sized(dev: Device, w: nat, h: nat)
      modifies dev
      ensures id == old(dev.nextName) && dev.nextName == id + 1
      ensures textureId == 0 && width == 0 && height == 0
      ensures dev.trace == old(dev.trace) + [Generate(FramebufferObject, id), BindFramebuffer(id)]
    {
      var n := dev.NewName(FramebufferObject);
      dev.Emit([BindFramebuffer(n)]);
      id := n;
      textureId := 0;
      width, height := 0, 0;
      new;
      OnResize(w, h);
    }

    /** The base class's resize hook does nothing. */
    method OnResize(w: nat, h: nat)
      ensures unchanged(this)
    {
    }

    method Bind(dev: Device)
      modifies dev
      ensures dev.trace == old(dev.trace) + BindCalls(id, width, height)
      ensures dev.nextName == old(dev.nextName)
    {
      dev.Emit(BindCalls(id, width, height));
    }

    method Unbind(dev: Device)
      modifies dev
      ensures dev.trace == old(dev.trace) + [BindFramebuffer(0)]
      ensures dev.nextName == old(dev.nextName)
    {
      dev.Emit([BindFramebuffer(0)]);
    }
  }
}
