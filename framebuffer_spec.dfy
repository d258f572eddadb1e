// The specification records of Framebuffer.hpp and the way the Framebuffer
// constructor splits an attachment list into colour attachments (in list
// order) and one depth attachment (the last depth entry wins).
module FramebufferSpecs {
  import opened Textures

  /** FramebufferTextureSpecification. */
  datatype TextureSpecification = TextureSpecification(format: TextureFormat, filter: TextureFilter, wrap: TextureWrap)

  /** The default-constructed specification: no format, linear, clamp to edge. */
  const DefaultTextureSpecification := TextureSpecification(TextureFormat.None, Linear, ClampToEdge)

  /** The constructor from a format, whose filter and wrap default to linear and clamp to edge. */
  function FromFormat(format: TextureFormat, filter: TextureFilter := Linear, wrap: TextureWrap := ClampToEdge): TextureSpecification
  {
    TextureSpecification(format, filter, wrap)
  }

  /** FramebufferSpecification; `attachments` is FramebufferAttachmentSpecification's list. */
  datatype FramebufferSpecification = FramebufferSpecification(
    width: nat, height: nat, attachments: seq<TextureSpecification>, samples: nat, swapChainTarget: bool)

  /** A specification with the given attachments and every other field at its default. */
  function WithAttachments(attachments: seq<TextureSpecification>): FramebufferSpecification
  {
    FramebufferSpecification(0, 0, attachments, 1, false)
  }

  predicate IsDepth(s: TextureSpecification)
  {
    s.format == Depth
  }

  /** The colour attachment specifications, in list order. */
  function ColorSpecs(atts: seq<TextureSpecification>): (r: seq<TextureSpecification>)
    ensures |r| <= |atts|
    ensures forall s | s in r :: s in atts && !IsDepth(s)
    decreases |atts|
  {
    if atts == [] then []
    else ColorSpecs(atts[..|atts| - 1]) + (if IsDepth(atts[|atts| - 1]) then [] else [atts[|atts| - 1]])
  }

  /** The depth attachment entries, in list order. */
  function DepthSpecs(atts: seq<TextureSpecification>): (r: seq<TextureSpecification>)
    ensures forall s | s in r :: IsDepth(s)
    decreases |atts|
  {
    if atts == [] then []
    else DepthSpecs(atts[..|atts| - 1]) + (if IsDepth(atts[|atts| - 1]) then [atts[|atts| - 1]] else [])
  }

  /** The depth attachment specification the constructor ends with, starting from `initial`. */
  function DepthSpecOf(atts: seq<TextureSpecification>, initial: TextureSpecification): TextureSpecification
    decreases |atts|
  {
    if atts == [] then initial
    else if IsDepth(atts[|atts| - 1]) then atts[|atts| - 1]
    else DepthSpecOf(atts[..|atts| - 1], initial)
  }

  /** Every entry lands in exactly one of the two lists. */
  lemma {:induction false} PartitionIsPermutation(atts: seq<TextureSpecification>)
    ensures multiset(ColorSpecs(atts)) + multiset(DepthSpecs(atts)) == multiset(atts)
    ensures |ColorSpecs(atts)| + |DepthSpecs(atts)| == |atts|
    decreases |atts|
  {
    if atts != [] {
      var n := |atts| - 1;
      PartitionIsPermutation(atts[..n]);
      assert atts == atts[..n] + [atts[n]];
      assert multiset(atts) == multiset(atts[..n]) + multiset{atts[n]};
    }
  }

  /** The colour list keeps the relative order of the non-depth entries: the
      colour entries of a concatenation are those of each part in turn. */
  lemma {:induction false} ColorSpecsAppend(a: seq<TextureSpecification>, b: seq<TextureSpecification>)
    ensures ColorSpecs(a + b) == ColorSpecs(a) + ColorSpecs(b)
    decreases |b|
  {
    if b == [] {
      assert a + b == a;
    } else {
      var n := |b| - 1;
      assert (a + b)[..|a + b| - 1] == a + b[..n];
      assert (a + b)[|a + b| - 1] == b[n];
      ColorSpecsAppend(a, b[..n]);
    }
  }

  /** The depth specification is the last depth entry of the list, or the
      initial one when the list has none. */
  lemma {:induction false} DepthSpecIsLastDepth(atts: seq<TextureSpecification>, initial: TextureSpecification)
    ensures DepthSpecs(atts) == [] ==> DepthSpecOf(atts, initial) == initial
    ensures DepthSpecs(atts) != [] ==> DepthSpecOf(atts, initial) == DepthSpecs(atts)[|DepthSpecs(atts)| - 1]
    decreases |atts|
  {
    if atts != [] {
      DepthSpecIsLastDepth(atts[..|atts| - 1], initial);
    }
  }
}
