// Bloom.hpp: the bloom post-effect. A framebuffer and a chain of
// half-resolution textures ("mips"); downsampling renders the source image
// into mip 0, mip 0 into mip 1 and so on, then upsampling with additive
// blending walks back up the chain, so that mip 0 ends up holding the
// result.
module Blooms {
  import opened Wrappers
  import opened GL
  import opened Shaders
  import opened Shapes

  const BloomIncompleteMessage := "gbuffer FBO error, status: "

  /** One mip: its texture and its size. The source also keeps the size as
      a float, halved exactly; every use truncates it back to an integer,
      which gives the integer size below for any size a float holds
      exactly. */
  datatype Mip = Mip(texture: Name, width: nat, height: nat)

  /** `x` halved with integer division `k` times. */
  function Halved(x: nat, k: nat): nat
  {
    if k == 0 then x else Halved(x, k - 1) / 2
  }

  function Pow2(k: nat): (r: nat)
    ensures r >= 1
  {
    if k == 0 then 1 else 2 * Pow2(k - 1)
  }

  lemma MulAtLeast(p: nat, d: nat)
    requires d >= 1
    ensures p * d >= p
  {
  }

  /** Quotient and remainder are the only pair with x == p * q + r, r < p. */
  lemma DivUnique(x: nat, p: nat, q: nat, r: nat)
    requires p >= 1 && r < p && x == p * q + r
    ensures x / p == q
  {
    var q' := x / p;
    var r' := x % p;
    assert x == p * q' + r';
    if q' < q {
      MulAtLeast(p, q - q');
      assert false;
    } else if q' > q {
      MulAtLeast(p, q' - q);
      assert false;
    }
  }

  lemma DivMod(x: nat, d: nat) returns (q: nat, r: nat)
    requires d >= 1
    ensures x == d * q + r && r < d && q == x / d
  {
    q, r := x / d, x % d;
  }

  lemma DivTwice(x: nat, p: nat)
    requires p >= 1
    ensures (x / p) / 2 == x / (2 * p)
  {
    var q, r := DivMod(x, 2 * p);
    var y := x / p;
    if r < p {
      assert x == p * (2 * q) + r;
      DivUnique(x, p, 2 * q, r);
      assert y == 2 * q;
      DivUnique(y, 2, q, 0);
    } else {
      assert x == p * (2 * q + 1) + (r - p);
      DivUnique(x, p, 2 * q + 1, r - p);
      assert y == 2 * q + 1;
      DivUnique(y, 2, q, 1);
    }
  }

  /** Halving k times is dividing once by 2^k: mip i's size is the full
      size over 2^(i+1). */
  lemma {:induction false} HalvedIsDivision(x: nat, k: nat)
    ensures Halved(x, k) == x / Pow2(k)
  {
    if k > 0 {
      HalvedIsDivision(x, k - 1);
      DivTwice(x, Pow2(k - 1));
    }
  }

  /** The first n mips of a chain for a w by h image, textures named from
      `base` on. */
  function MipChain(w: nat, h: nat, base: Name, n: nat): seq<Mip>
  {
    if n == 0 then [] else MipChain(w, h, base, n - 1) + [Mip(base + n - 1, Halved(w, n), Halved(h, n))]
  }

  /** Mip i has texture base + i and the image size halved i + 1 times, so
      mip 0 is already at half resolution, and each mip is no larger than
      the one before. */
  lemma {:induction false} MipChainAt(w: nat, h: nat, base: Name, n: nat, i: nat)
    ensures |MipChain(w, h, base, n)| == n
    ensures i < n ==> MipChain(w, h, base, n)[i] == Mip(base + i, Halved(w, i + 1), Halved(h, i + 1))
    ensures 0 < i < n ==> MipChain(w, h, base, n)[i].width <= MipChain(w, h, base, n)[i - 1].width
                          && MipChain(w, h, base, n)[i].height <= MipChain(w, h, base, n)[i - 1].height
  {
    if n > 0 {
      MipChainAt(w, h, base, n - 1, i);
      if 0 < i < n {
        MipChainAt(w, h, base, n - 1, i - 1);
      }
    }
  }

  /** The calls creating mip i's texture. */
  function MipCalls(m: Mip): seq<Event>
  {
    [Generate(TextureObject, m.texture)]
    + [BindTexture(Texture2D, m.texture), TexImage(Texture2D, 0, R11FG11FB10F, m.width, m.height),
       TexParameters(FilterLinear, WrapClampToEdge)]
  }

  /** The calls creating the first n mips. */
  function ChainCalls(mips: seq<Mip>, n: nat): seq<Event>
    requires n <= |mips|
  {
    if n == 0 then [] else ChainCalls(mips, n - 1) + MipCalls(mips[n - 1])
  }

  /** The constructor's mip loop: n textures, each a fresh name, sized by
      integer halving. */
  method CreateMips(dev: Device, w: nat, h: nat, n: nat) returns (mips: seq<Mip>)
    modifies dev
    ensures |mips| == n && mips == MipChain(w, h, old(dev.nextName), n)
    ensures dev.nextName == old(dev.nextName) + n
    ensures dev.trace == old(dev.trace) + ChainCalls(mips, n)
    ensures dev.geometryTrace == old(dev.geometryTrace)
  {
    ghost var t0 := dev.trace;
    ghost var base := dev.nextName;
    mips := [];
    var iw, ih := w, h;
    var i := 0;
    while i < n
      invariant 0 <= i <= n
      invariant |mips| == i && mips == MipChain(w, h, base, i) && iw == Halved(w, i) && ih == Halved(h, i)
      invariant dev.nextName == base + i
      invariant dev.trace == t0 + ChainCalls(mips, i)
      invariant dev.geometryTrace == old(dev.geometryTrace)
    {
      MipChainAt(w, h, base, i, 0);
      iw, ih := iw / 2, ih / 2;
      var tex := dev.NewName(TextureObject);
      dev.Emit([BindTexture(Texture2D, tex), TexImage(Texture2D, 0, R11FG11FB10F, iw, ih),
                TexParameters(FilterLinear, WrapClampToEdge)]);
      ghost var prev := mips;
      mips := mips + [Mip(tex, iw, ih)];
      assert mips[..i] == prev;
      ChainCallsPrefix(prev, mips, i);
      i := i + 1;
    }
  }

  /** The calls for the first n mips depend only on those mips. */
  lemma {:induction false} ChainCallsPrefix(a: seq<Mip>, b: seq<Mip>, n: nat)
    requires n <= |a| && n <= |b| && a[..n] == b[..n]
    ensures ChainCalls(a, n) == ChainCalls(b, n)
  {
    if n > 0 {
      assert a[n - 1] == a[..n][n - 1] == b[..n][n - 1] == b[n - 1];
      assert a[..n - 1] == a[..n][..n - 1];
      assert b[..n - 1] == b[..n][..n - 1];
      ChainCallsPrefix(a, b, n - 1);
    }
  }

  // ---------------------------------------------------------- downsample

  /** The calls before the downsample loop: target the bloom framebuffer,
      use the downsample program, put the source image on unit 0. */
  function DownsampleHeader(fb: Name, sh: Shader, src: Name): seq<Event>
  {
    [BindFramebuffer(fb), UseProgram(sh.id), SetUniform(sh.id, "resolution", Opaque),
     ActiveTexture(0), BindTexture(Texture2D, src)]
  }

  /** One downsample step into mip m: viewport and attachment set to the
      mip, a full-screen quad, then the mip becomes the next step's input. */
  function DownsampleStep(sh: Shader, m: Mip): seq<Event>
  {
    [Viewport(m.width, m.height), AttachTexture(Color(0), Texture2D, m.texture, 0)]
    + [UseProgram(sh.id), DrawArrays(TriangleStrip, QuadVertexCount)]
    + [SetUniform(sh.id, "resolution", Opaque), BindTexture(Texture2D, m.texture)]
  }

  /** The first i downsample steps. */
  function DownsampleLoop(sh: Shader, mips: seq<Mip>, i: nat): seq<Event>
    requires i <= |mips|
  {
    if i == 0 then [] else DownsampleLoop(sh, mips, i - 1) + DownsampleStep(sh, mips[i - 1])
  }

  function DownsampleCalls(fb: Name, sh: Shader, src: Name, mips: seq<Mip>): seq<Event>
  {
    DownsampleHeader(fb, sh, src) + DownsampleLoop(sh, mips, |mips|) + [UseProgram(0)]
  }

  /** What the downsample into mip i reads: the source image for mip 0,
      the previous mip otherwise. */
  function DownsampleSource(src: Name, mips: seq<Mip>, i: nat): Name
    requires i < |mips|
  {
    if i == 0 then src else mips[i - 1].texture
  }

  /** The mips' textures, in chain order. */
  function Textures(mips: seq<Mip>): (r: seq<Name>)
    ensures |r| == |mips| && forall k | 0 <= k < |mips| :: r[k] == mips[k].texture
  {
    if mips == [] then [] else Textures(mips[..|mips| - 1]) + [mips[|mips| - 1].texture]
  }

  /** Downsampling renders into mip 0, 1, ..., i - 1 in that order. */
  lemma {:induction false} DownsampleOrder(sh: Shader, mips: seq<Mip>, i: nat)
    requires i <= |mips|
    ensures Attached(DownsampleLoop(sh, mips, i)) == Textures(mips[..i])
  {
    if i > 0 {
      DownsampleOrder(sh, mips, i - 1);
      var m := mips[i - 1];
      var step := DownsampleStep(sh, m);
      AttachedAppend(DownsampleLoop(sh, mips, i - 1), step);
      AttachedAppend([Viewport(m.width, m.height)], [AttachTexture(Color(0), Texture2D, m.texture, 0)] + step[2..]);
      assert step == [Viewport(m.width, m.height)] + ([AttachTexture(Color(0), Texture2D, m.texture, 0)] + step[2..]);
      AttachedAppend([AttachTexture(Color(0), Texture2D, m.texture, 0)], step[2..]);
      AttachedNone(step[2..]);
      assert mips[..i][..i - 1] == mips[..i - 1];
    }
  }

  /** Calls with no attachment attach nothing. */
  lemma {:induction false} AttachedNone(es: seq<Event>)
    requires forall e | e in es :: !e.AttachTexture?
    ensures Attached(es) == []
    decreases |es|
  {
    if es != [] {
      assert es[0] in es;
      AttachedNone(es[1..]);
    }
  }

  /** Each downsample step reads the right input: when step i begins, unit
      0 is active and holds the source image (step 0) or mip i - 1. */
  lemma {:induction false} DownsampleReads(s: State, fb: Name, sh: Shader, src: Name, mips: seq<Mip>, i: nat)
    requires i < |mips|
    ensures Run(s, DownsampleHeader(fb, sh, src) + DownsampleLoop(sh, mips, i)).activeUnit == 0
    ensures 0 in Run(s, DownsampleHeader(fb, sh, src) + DownsampleLoop(sh, mips, i)).units
    ensures Run(s, DownsampleHeader(fb, sh, src) + DownsampleLoop(sh, mips, i)).units[0]
            == (Texture2D, DownsampleSource(src, mips, i))
  {
    var header := DownsampleHeader(fb, sh, src);
    if i == 0 {
      var h3 := [BindFramebuffer(fb), UseProgram(sh.id), SetUniform(sh.id, "resolution", Opaque)];
      assert header == h3 + [ActiveTexture(0)] + [BindTexture(Texture2D, src)];
      assert header + DownsampleLoop(sh, mips, 0) == header;
      RunLast(s, h3 + [ActiveTexture(0)], BindTexture(Texture2D, src));
      RunLast(s, h3, ActiveTexture(0));
    } else {
      DownsampleReads(s, fb, sh, src, mips, i - 1);
      var m := mips[i - 1];
      var before := header + DownsampleLoop(sh, mips, i - 1);
      var step := DownsampleStep(sh, m);
      var front := step[..5];
      assert step == front + [BindTexture(Texture2D, m.texture)];
      assert header + DownsampleLoop(sh, mips, i) == (before + front) + [BindTexture(Texture2D, m.texture)];
      RunLast(s, before + front, BindTexture(Texture2D, m.texture));
      RunAppend(s, before, front);
      RunKeepsUnits(Run(s, before), front);
    }
  }

  // ------------------------------------------------------------ upsample

  /** The calls before the upsample loop: the upsample program and
      additive blending. */
  function UpsampleHeader(sh: Shader, radius: real): seq<Event>
  {
    [UseProgram(sh.id), SetUniform(sh.id, "filterRadius", FloatValue(radius)),
     Enable(Blend), BlendFunc(One, One), BlendEquationAdd]
  }

  /** One upsample step: read mip m on unit 0, render into the next larger
      mip `next` at its size. */
  function UpsampleStep(sh: Shader, m: Mip, next: Mip): seq<Event>
  {
    [ActiveTexture(0), BindTexture(Texture2D, m.texture), Viewport(next.width, next.height),
     AttachTexture(Color(0), Texture2D, next.texture, 0)]
    + [UseProgram(sh.id), DrawArrays(TriangleStrip, QuadVertexCount)]
  }

  /** The first k upsample steps, from the smallest mip upwards: step j
      reads mip n-1-j and writes mip n-2-j. */
  function UpsampleLoop(sh: Shader, mips: seq<Mip>, k: nat): seq<Event>
    requires k < |mips|
  {
    if k == 0 then []
    else UpsampleLoop(sh, mips, k - 1) + UpsampleStep(sh, mips[|mips| - k], mips[|mips| - k - 1])
  }

  /** The calls after the loop: the usual alpha blending back, blending off. */
  const UpsampleFooter := [BlendFunc(One, OneMinusSrcAlpha), Disable(Blend), UseProgram(0)]

  function UpsampleCalls(sh: Shader, radius: real, mips: seq<Mip>): seq<Event>
    requires |mips| >= 1
  {
    UpsampleHeader(sh, radius) + UpsampleLoop(sh, mips, |mips| - 1) + UpsampleFooter
  }

  /** The mip textures last to first: the write order of the upsample loop. */
  function ReversedTextures(mips: seq<Mip>): (r: seq<Name>)
    ensures |r| == |mips| && forall k | 0 <= k < |mips| :: r[k] == mips[|mips| - 1 - k].texture
  {
    if mips == [] then [] else ReversedTextures(mips[1..]) + [mips[0].texture]
  }

  /** Upsampling writes mip n-2, n-3, ..., n-1-k in that order; a one-mip
      chain has no step. */
  lemma {:induction false} UpsampleOrder(sh: Shader, mips: seq<Mip>, k: nat)
    requires k < |mips|
    ensures Attached(UpsampleLoop(sh, mips, k)) == ReversedTextures(mips[|mips| - 1 - k .. |mips| - 1])
  {
    var n := |mips|;
    if k > 0 {
      UpsampleOrder(sh, mips, k - 1);
      var next := mips[n - k - 1];
      var step := UpsampleStep(sh, mips[n - k], next);
      var attach := [AttachTexture(Color(0), Texture2D, next.texture, 0)];
      AttachedAppend(UpsampleLoop(sh, mips, k - 1), step);
      assert step == step[..3] + attach + step[4..];
      AttachedAppend(step[..3] + attach, step[4..]);
      AttachedAppend(step[..3], attach);
      AttachedNone(step[..3]);
      AttachedNone(step[4..]);
      var win := mips[n - 1 - k .. n - 1];
      assert win[1..] == mips[n - k .. n - 1];
    }
  }

  /** After the whole upsample loop the last mip written is mip 0, the one
      GetResultID reports. */
  lemma UpsampleEndsAtResult(sh: Shader, mips: seq<Mip>)
    requires |mips| >= 2
    ensures var written := Attached(UpsampleLoop(sh, mips, |mips| - 1));
            |written| == |mips| - 1 && written[|written| - 1] == mips[0].texture
  {
    UpsampleOrder(sh, mips, |mips| - 1);
  }

  /** Enabling blending with (ONE, ONE) and the add equation, after any
      calls, leaves additive blending on. */
  lemma BlendingOnAfter(s: State, pre: seq<Event>)
    ensures Blend in Run(s, pre + [Enable(Blend), BlendFunc(One, One), BlendEquationAdd]).enabled
    ensures Run(s, pre + [Enable(Blend), BlendFunc(One, One), BlendEquationAdd]).blend == (One, One)
  {
    var on := pre + [Enable(Blend)];
    var factors := on + [BlendFunc(One, One)];
    assert pre + [Enable(Blend), BlendFunc(One, One), BlendEquationAdd] == factors + [BlendEquationAdd];
    RunLast(s, pre, Enable(Blend));
    RunLast(s, on, BlendFunc(One, One));
    RunLast(s, factors, BlendEquationAdd);
  }

  /** The header turns additive blending on. */
  lemma UpsampleHeaderBlends(s: State, sh: Shader, radius: real)
    ensures Blend in Run(s, UpsampleHeader(sh, radius)).enabled
    ensures Run(s, UpsampleHeader(sh, radius)).blend == (One, One)
  {
    var pre := [UseProgram(sh.id), SetUniform(sh.id, "filterRadius", FloatValue(radius))];
    assert UpsampleHeader(sh, radius) == pre + [Enable(Blend), BlendFunc(One, One), BlendEquationAdd];
    BlendingOnAfter(s, pre);
  }

  /** Additive blending is on, with factors (ONE, ONE), for every upsample
      draw. */
  lemma UpsampleBlends(s: State, sh: Shader, radius: real, mips: seq<Mip>, k: nat)
    requires k < |mips|
    ensures Blend in Run(s, UpsampleHeader(sh, radius) + UpsampleLoop(sh, mips, k)).enabled
    ensures Run(s, UpsampleHeader(sh, radius) + UpsampleLoop(sh, mips, k)).blend == (One, One)
  {
    var header := UpsampleHeader(sh, radius);
    UpsampleHeaderBlends(s, sh, radius);
    UpsampleLoopKeepsBlending(sh, mips, k);
    RunAppend(s, header, UpsampleLoop(sh, mips, k));
    RunKeepsBlending(Run(s, header), UpsampleLoop(sh, mips, k));
  }

  /** Whatever came before, the footer turns blending off and puts back
      (ONE, ONE_MINUS_SRC_ALPHA). */
  lemma FooterRestores(s: State, pre: seq<Event>)
    ensures Blend !in Run(s, pre + UpsampleFooter).enabled
    ensures Run(s, pre + UpsampleFooter).blend == (One, OneMinusSrcAlpha)
  {
    var factors := pre + [BlendFunc(One, OneMinusSrcAlpha)];
    var off := factors + [Disable(Blend)];
    assert pre + UpsampleFooter == off + [UseProgram(0)];
    RunLast(s, pre, BlendFunc(One, OneMinusSrcAlpha));
    RunLast(s, factors, Disable(Blend));
    RunLast(s, off, UseProgram(0));
  }

  /** Once upsampling is over blending is off again and the blend function
      is back to (ONE, ONE_MINUS_SRC_ALPHA). */
  lemma UpsampleRestoresBlending(s: State, sh: Shader, radius: real, mips: seq<Mip>)
    requires |mips| >= 1
    ensures Blend !in Run(s, UpsampleCalls(sh, radius, mips)).enabled
    ensures Run(s, UpsampleCalls(sh, radius, mips)).blend == (One, OneMinusSrcAlpha)
  {
    FooterRestores(s, UpsampleHeader(sh, radius) + UpsampleLoop(sh, mips, |mips| - 1));
  }

  lemma {:induction false} UpsampleLoopKeepsBlending(sh: Shader, mips: seq<Mip>, k: nat)
    requires k < |mips|
    ensures forall e | e in UpsampleLoop(sh, mips, k) :: KeepsBlending(e)
  {
    if k > 0 {
      UpsampleLoopKeepsBlending(sh, mips, k - 1);
    }
  }

  /** The names a bloom takes besides its mips: the framebuffer, and the
      six of its two shaders when the framebuffer is complete. */
  function BloomNames(complete: bool): nat
  {
    if complete then 7 else 1
  }

  /** Bloom::Render's calls: the bloom framebuffer bound at the bloom's
      size, the downsample chain from `src`, the upsample chain back. */
  function RenderCalls(fb: Name, w: nat, h: nat, down: Shader, up: Shader, src: Name, radius: real, mips: seq<Mip>): seq<Event>
    requires |mips| >= 1
  {
    [BindFramebuffer(fb), Viewport(w, h)] + DownsampleCalls(fb, down, src, mips) + UpsampleCalls(up, radius, mips)
  }

  class Bloom {
    var framebuffer: Name
    var mips: seq<Mip>
    var downsampleShader: Option<Shader>
    var upsampleShader: Option<Shader>
    var width: nat
    var height: nat

    /** Bloom(w, h, mipChainsLength). Mip 0 is attached unconditionally, so
        the chain must not be empty. When the framebuffer is incomplete the
        error is logged and construction stops before the shaders exist. */
    constructor (dev: Device, w: nat, h: nat, mipChainsLength: nat, complete: bool)
      requires mipChainsLength >= 1
      modifies dev
      ensures width == w && height == h
      ensures framebuffer == old(dev.nextName)
      ensures mips == MipChain(w, h, framebuffer + 1, mipChainsLength)
      ensures complete ==> downsampleShader.Some? && downsampleShader.value.id == framebuffer + mipChainsLength + 3
                           && upsampleShader.Some? && upsampleShader.value.id == framebuffer + mipChainsLength + 6
      ensures !complete ==> downsampleShader.None? && upsampleShader.None?
      ensures dev.trace == old(dev.trace) + SetupCalls(dev.files, w, h, mipChainsLength, complete, framebuffer)
      ensures dev.nextName == framebuffer + mipChainsLength + BloomNames(complete)
    {
      width, height := w, h;
      var fb, ms, down, up := SetUp(dev, w, h, mipChainsLength, complete);
      framebuffer, mips := fb, ms;
      downsampleShader, upsampleShader := down, up;
    }

    /** The mip that holds the result. */
    function GetResultID(): Name
      reads this
      requires |mips| >= 1
    {
      mips[0].texture
    }

    /** Render(src, radius): both passes into the bloom framebuffer. */
    method Render(dev: Device, cache: ShapeCache, src: Name, radius: real)
      requires |mips| >= 1 && downsampleShader.Some? && upsampleShader.Some? && cache.Valid()
      modifies dev, cache
      ensures cache.Valid() && dev.nextName == old(dev.nextName)
      ensures dev.trace == old(dev.trace)
        + RenderCalls(framebuffer, width, height, downsampleShader.value, upsampleShader.value, src, radius, mips)
    {
      ghost var t0 := dev.trace;
      dev.Emit([BindFramebuffer(framebuffer), Viewport(width, height)]);
      RenderDownsample(dev, cache, src);
      RenderUpsample(dev, cache, radius);
      RegroupThree(t0, [BindFramebuffer(framebuffer), Viewport(width, height)],
                   DownsampleCalls(framebuffer, downsampleShader.value, src, mips),
                   UpsampleCalls(upsampleShader.value, radius, mips));
    }

    method RenderDownsample(dev: Device, cache: ShapeCache, src: Name)
      requires downsampleShader.Some? && cache.Valid()
      modifies dev, cache
      ensures cache.Valid() && dev.nextName == old(dev.nextName)
      ensures dev.trace == old(dev.trace) + DownsampleCalls(framebuffer, downsampleShader.value, src, mips)
    {
      var sh := downsampleShader.value;
      ghost var t0 := dev.trace;
      dev.Emit([BindFramebuffer(framebuffer), UseProgram(sh.id), SetUniform(sh.id, "resolution", Opaque),
                ActiveTexture(0), BindTexture(Texture2D, src)]);
      var i := 0;
      while i < |mips|
        invariant 0 <= i <= |mips|
        invariant cache.Valid() && dev.nextName == old(dev.nextName)
        invariant dev.trace == t0 + DownsampleHeader(framebuffer, sh, src) + DownsampleLoop(sh, mips, i)
      {
        ghost var before := dev.trace;
        var m := mips[i];
        dev.Emit([Viewport(m.width, m.height), AttachTexture(Color(0), Texture2D, m.texture, 0)]);
        cache.RenderQuad(dev, sh);
        dev.Emit([SetUniform(sh.id, "resolution", Opaque), BindTexture(Texture2D, m.texture)]);
        RegroupThree(before, [Viewport(m.width, m.height), AttachTexture(Color(0), Texture2D, m.texture, 0)],
                     [UseProgram(sh.id), DrawArrays(TriangleStrip, QuadVertexCount)],
                     [SetUniform(sh.id, "resolution", Opaque), BindTexture(Texture2D, m.texture)]);
        RegroupTwo(t0 + DownsampleHeader(framebuffer, sh, src), DownsampleLoop(sh, mips, i), DownsampleStep(sh, m));
        i := i + 1;
      }
      dev.Emit([UseProgram(0)]);
    }

    method RenderUpsample(dev: Device, cache: ShapeCache, radius: real)
      requires |mips| >= 1 && upsampleShader.Some? && cache.Valid()
      modifies dev, cache
      ensures cache.Valid() && dev.nextName == old(dev.nextName)
      ensures dev.trace == old(dev.trace) + UpsampleCalls(upsampleShader.value, radius, mips)
    {
      var sh := upsampleShader.value;
      ghost var t0 := dev.trace;
      dev.Emit([UseProgram(sh.id), SetUniform(sh.id, "filterRadius", FloatValue(radius)),
                Enable(Blend), BlendFunc(One, One), BlendEquationAdd]);
      var i := |mips| - 1;
      while i > 0
        invariant 0 <= i <= |mips| - 1
        invariant cache.Valid() && dev.nextName == old(dev.nextName)
        invariant dev.trace == t0 + UpsampleHeader(sh, radius) + UpsampleLoop(sh, mips, |mips| - 1 - i)
      {
        var m := mips[i];
        var next := mips[i - 1];
        dev.Emit([ActiveTexture(0), BindTexture(Texture2D, m.texture), Viewport(next.width, next.height),
                  AttachTexture(Color(0), Texture2D, next.texture, 0)]);
        cache.RenderQuad(dev, sh);
        i := i - 1;
      }
      dev.Emit([BlendFunc(One, OneMinusSrcAlpha), Disable(Blend), UseProgram(0)]);
    }

    /** ~Bloom: every mip texture deleted and its name cleared, then the
        framebuffer deleted and its name cleared. */
    method Destroy(dev: Device)
      modifies this, dev
      ensures framebuffer == 0 && |mips| == |old(mips)|
      ensures forall i | 0 <= i < |mips| ::
        mips[i] == old(mips[i]).(texture := 0)
      ensures dev.trace == old(dev.trace) + DeleteCalls(old(mips)) + [Delete(FramebufferObject, old(framebuffer))]
      ensures dev.nextName == old(dev.nextName)
      ensures downsampleShader == old(downsampleShader) && upsampleShader == old(upsampleShader)
      ensures width == old(width) && height == old(height)
    {
      ghost var t0 := dev.trace;
      ghost var ms := mips;
      var i := 0;
      while i < |mips|
        invariant 0 <= i <= |mips| == |ms|
        invariant forall j | 0 <= j < |mips| :: mips[j] == if j < i then ms[j].(texture := 0) else ms[j]
        invariant dev.trace == t0 + DeleteCalls(ms[..i]) && dev.nextName == old(dev.nextName)
        invariant framebuffer == old(framebuffer) && width == old(width) && height == old(height)
        invariant downsampleShader == old(downsampleShader) && upsampleShader == old(upsampleShader)
      {
        dev.Emit([Delete(TextureObject, mips[i].texture)]);
        assert ms[..i + 1] == ms[..i] + [ms[i]];
        DeleteCallsAppend(ms[..i], ms[i]);
        mips := mips[i := mips[i].(texture := 0)];
        i := i + 1;
      }
      assert ms[..i] == ms;
      dev.Emit([Delete(FramebufferObject, framebuffer)]);
      framebuffer := 0;
    }
  }

  /** The deletions of the destructor's loop. */
  function DeleteCalls(mips: seq<Mip>): seq<Event>
  {
    if mips == [] then [] else [Delete(TextureObject, mips[0].texture)] + DeleteCalls(mips[1..])
  }

  lemma {:induction false} DeleteCallsAppend(mips: seq<Mip>, m: Mip)
    ensures DeleteCalls(mips + [m]) == DeleteCalls(mips) + [Delete(TextureObject, m.texture)]
    decreases |mips|
  {
    if mips == [] {
      assert DeleteCalls([m]) == [Delete(TextureObject, m.texture)] + DeleteCalls([]);
    } else {
      assert (mips + [m])[1..] == mips[1..] + [m];
      DeleteCallsAppend(mips[1..], m);
    }
  }

  /** The calls that create the two shaders and point their samplers at
      unit 0; program names are counted from `base`. */
  function ShaderSetupCalls(files: map<string, string>, vert: string, downFrag: string, upFrag: string, base: Name): seq<Event>
  {
    [BindFramebuffer(0)]
    + LoadCalls(files, vert, downFrag, base)
    + LoadCalls(files, vert, upFrag, base + 3)
    + [UseProgram(base + 2), SetUniform(base + 2, "srcTexture", IntValue(0))]
    + [UseProgram(base + 5), SetUniform(base + 5, "srcTexture", IntValue(0))]
  }

  /** The framebuffer's calls: generated as `base`, bound, n mips created
      after it, mip 0 attached as the only colour target. */
  function FramebufferCalls(w: nat, h: nat, n: nat, base: Name): seq<Event>
  {
    MipChainAt(w, h, base + 1, n, 0);
    [Generate(FramebufferObject, base)] + [BindFramebuffer(base)] + ChainCalls(MipChain(w, h, base + 1, n), n)
    + [AttachTexture(Color(0), Texture2D, base + 1, 0), DrawBuffers([Color(0)])]
  }

  /** The shader files the constructor loads. */
  function QuadVertexShader(): string { "quad.vert" }
  function DownsampleFragmentShader(): string { "bloom_downsample.frag" }
  function UpsampleFragmentShader(): string { "bloom_upsample.frag" }

  /** The constructor's calls: the framebuffer, then either the error path
      or the shaders. */
  function SetupCalls(files: map<string, string>, w: nat, h: nat, n: nat, complete: bool, base: Name): seq<Event>
  {
    FramebufferCalls(w, h, n, base)
    + (if complete then ShaderSetupCalls(files, QuadVertexShader(), DownsampleFragmentShader(), UpsampleFragmentShader(), base + n + 1)
       else [LogError(BloomIncompleteMessage), BindFramebuffer(0)])
  }

  method CreateFramebuffer(dev: Device, w: nat, h: nat, n: nat) returns (fb: Name, mips: seq<Mip>)
    requires n >= 1
    modifies dev
    ensures fb == old(dev.nextName) && dev.nextName == fb + n + 1
    ensures mips == MipChain(w, h, fb + 1, n)
    ensures dev.trace == old(dev.trace) + FramebufferCalls(w, h, n, fb)
    ensures dev.geometryTrace == old(dev.geometryTrace)
  {
    ghost var t0 := dev.trace;
    fb := dev.NewName(FramebufferObject);
    dev.Emit([BindFramebuffer(fb)]);
    ghost var t1 := dev.trace;
    mips := CreateMips(dev, w, h, n);
    MipChainAt(w, h, fb + 1, n, 0);
    var tail := [AttachTexture(Color(0), Texture2D, mips[0].texture, 0), DrawBuffers([Color(0)])];
    assert tail == [AttachTexture(Color(0), Texture2D, fb + 1, 0), DrawBuffers([Color(0)])];
    dev.Emit(tail);
    assert dev.trace == t0 + [Generate(FramebufferObject, fb)] + [BindFramebuffer(fb)] + ChainCalls(mips, n) + tail;
  }

  method CreateShaders(dev: Device, vert: string, downFrag: string, upFrag: string) returns (down: Shader, up: Shader)
    modifies dev
    ensures down.id == old(dev.nextName) + 2
    ensures up.id == old(dev.nextName) + 5
    ensures dev.nextName == old(dev.nextName) + 6
    ensures dev.trace == old(dev.trace) + ShaderSetupCalls(dev.files, vert, downFrag, upFrag, old(dev.nextName))
    ensures dev.geometryTrace == old(dev.geometryTrace)
  {
    ghost var t0 := dev.trace;
    ghost var base := dev.nextName;
    dev.Emit([BindFramebuffer(0)]);
    ghost var loadDown := LoadCalls(dev.files, vert, downFrag, base);
    ghost var loadUp := LoadCalls(dev.files, vert, upFrag, base + 3);
    down := New(dev, vert, downFrag);
    assert dev.trace == t0 + [BindFramebuffer(0)] + loadDown;
    up := New(dev, vert, upFrag);
    assert dev.trace == t0 + [BindFramebuffer(0)] + loadDown + loadUp;
    var downBound := [UseProgram(down.id), SetUniform(down.id, "srcTexture", IntValue(0))];
    var upBound := [UseProgram(up.id), SetUniform(up.id, "srcTexture", IntValue(0))];
    dev.Emit(downBound);
    dev.Emit(upBound);
    Regroup(t0, [BindFramebuffer(0)], LoadCalls(dev.files, vert, downFrag, base),
            LoadCalls(dev.files, vert, upFrag, base + 3), downBound, upBound);
  }

  /** The constructor's calls, on values: returns the framebuffer, the mips
      and, when the framebuffer is complete, the two shaders. */
  method SetUp(dev: Device, w: nat, h: nat, n: nat, complete: bool)
    returns (fb: Name, mips: seq<Mip>, down: Option<Shader>, up: Option<Shader>)
    requires n >= 1
    modifies dev
    ensures fb == old(dev.nextName)
    ensures mips == MipChain(w, h, fb + 1, n)
    ensures complete ==> down.Some? && down.value.id == fb + n + 3 && up.Some? && up.value.id == fb + n + 6
    ensures !complete ==> down.None? && up.None?
    ensures dev.trace == old(dev.trace) + SetupCalls(dev.files, w, h, n, complete, fb)
    ensures dev.geometryTrace == old(dev.geometryTrace)
    ensures dev.nextName == fb + n + BloomNames(complete)
  {
    ghost var t0 := dev.trace;
    fb, mips := CreateFramebuffer(dev, w, h, n);
    if !complete {
      dev.Emit([LogError(BloomIncompleteMessage), BindFramebuffer(0)]);
      down, up := None, None;
      RegroupTwo(t0, FramebufferCalls(w, h, n, fb), [LogError(BloomIncompleteMessage), BindFramebuffer(0)]);
      return;
    }
    ghost var made := FramebufferCalls(w, h, n, fb);
    assert dev.trace == t0 + made;
    var d, u := CreateShaders(dev, QuadVertexShader(), DownsampleFragmentShader(), UpsampleFragmentShader());
    down, up := Some(d), Some(u);
    ghost var shaders := ShaderSetupCalls(dev.files, QuadVertexShader(), DownsampleFragmentShader(), UpsampleFragmentShader(), fb + n + 1);
    assert dev.trace == t0 + made + shaders;
    assert SetupCalls(dev.files, w, h, n, complete, fb) == made + shaders;
    RegroupTwo(t0, made, shaders);
  }
}
