// Texture.hpp: the texture enumerations shared by framebuffers and loaders,
// and the texture base class, whose allocation and loading hooks do nothing
// (the concrete Texture2D and CubeMap classes are not part of this model).
module Textures {
  import opened Wrappers
  import opened GL

  /** TextureFormat. `Depth` is an alias of DEPTH24STENCIL8, not a value of its own. */
  datatype TextureFormat = None | RED | RGB | RGBA | RGBA32F | DEPTH24STENCIL8 | RED_INTEGER

  const Depth: TextureFormat := DEPTH24STENCIL8

  datatype TextureWrap = ClampToEdge | ClampToBorder | Repeat
  datatype TextureFilter = Nearest | Linear

  /** The enumerator's integer value: None is 0 and the rest count up, with
      Depth sharing DEPTH24STENCIL8's value so RED_INTEGER follows it. */
  function FormatCode(f: TextureFormat): (code: nat)
    ensures code <= 6
    ensures code == 0 <==> f == TextureFormat.None
  {
    match f
    case None => 0
    case RED => 1
    case RGB => 2
    case RGBA => 3
    case RGBA32F => 4
    case DEPTH24STENCIL8 => 5
    case RED_INTEGER => 6
  }

  /** The enumerator a value names, if any. */
  function FormatOfCode(code: int): (f: Option<TextureFormat>)
    ensures f.Some? <==> 0 <= code <= 6
  {
    if code == 0 then Some(TextureFormat.None)
    else if code == 1 then Some(RED)
    else if code == 2 then Some(RGB)
    else if code == 3 then Some(RGBA)
    else if code == 4 then Some(RGBA32F)
    else if code == 5 then Some(DEPTH24STENCIL8)
    else if code == 6 then Some(RED_INTEGER)
    else Option.None
  }

  /** Every format has its own value (so Depth and DEPTH24STENCIL8 are one format). */
  lemma FormatCodeRoundTrip(f: TextureFormat)
    ensures FormatOfCode(FormatCode(f)) == Some(f)
    ensures FormatCode(Depth) == 5 && FormatCode(RED_INTEGER) == FormatCode(Depth) + 1
  {
  }

  lemma FormatCodeInjective(f: TextureFormat, g: TextureFormat)
    ensures FormatCode(f) == FormatCode(g) <==> f == g
  {
    FormatCodeRoundTrip(f);
    FormatCodeRoundTrip(g);
  }

  /** The texture base class: a GL name, a size, a channel count, optional
      decoded pixels, a material role string and a file path. */
  class Texture {
    var id: Name
    var width: int
    var height: int
    var channels: int
    var hasImageData: bool
    var textureType: string
    var path: string

    constructor ()
      ensures id == 0 && width == 0 && height == 0 && channels == 0
      ensures !hasImageData && textureType == "" && path == ""
    {
      id := 0;
      width, height, channels := 0, 0, 0;
      hasImageData := false;
      textureType := "";
      path := "";
    }

    /** The base class's allocation hook does nothing. */
    method Allocate()
      ensures unchanged(this)
    {
    }

    /** The base class's sized allocation hook does nothing either. */
    method AllocateSized(w: nat, h: nat)
      ensures unchanged(this)
    {
    }

    /** The base class's loading hook ignores its input. */
    method LoadData(source: string, format: TextureFormat)
      ensures unchanged(this)
    {
    }

    method SetType(t: string)
      modifies this
      ensures textureType == t
      ensures id == old(id) && width == old(width) && height == old(height)
      ensures channels == old(channels) && hasImageData == old(hasImageData) && path == old(path)
    {
      textureType := t;
    }

    method SetPath(p: string)
      modifies this
      ensures path == p
      ensures id == old(id) && width == old(width) && height == old(height)
      ensures channels == old(channels) && hasImageData == old(hasImageData)
      ensures textureType == old(textureType)
    {
      path := p;
    }
  }
}
