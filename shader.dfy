// Shader.hpp: a GLSL program built from a vertex and a fragment file under
// a fixed asset prefix, named after its fragment file, plus the uniform and
// sampler setters the passes use. A Shader is a value: only loading writes
// its program name and display name.
module Shaders {
  import opened Wrappers
  import opened Strings
  import opened GL

  /** The directory every shader file name is resolved against. */
  const Prefix := "../Assets/Shaders/"

  /** The message logged when either file cannot be opened or read. */
  const ReadErrorMessage := "ERROR::SHADER::FILE_NOT_SUCCESSFULLY_READ: "

  /** The display name a Shader has before any load. */
  const DefaultName := "New Material"

  /** Which texture target a sampler uniform reads from. */
  datatype SamplerType = Sampler2D | SamplerCubeMap

  datatype Shader = Shader(id: Name, name: string)

  /** `(int)` of a bool: what SetInt uploads for a flag. */
  function BoolInt(b: bool): (r: int)
    ensures 0 <= r <= 1 && (r == 1 <==> b)
  {
    if b then 1 else 0
  }

  /** The path a shader file name is opened under. */
  function ShaderPath(file: string): (p: string)
    ensures |p| == |Prefix| + |file| && p[..|Prefix|] == Prefix && p[|Prefix|..] == file
  {
    Prefix + file
  }

  /** The explicit name when there is one, otherwise the fragment file name
      cut before its last '.'. */
  function ShaderName(frag: string, shaderName: string): string
  {
    if shaderName != [] then shaderName else BeforeLast(frag, '.')
  }

  /** The name rule: an explicit name wins; otherwise the name followed by the
      last extension gives back the fragment file, and a file without '.'
      is its own name. */
  lemma ShaderNameRule(frag: string, shaderName: string)
    ensures shaderName != [] ==> ShaderName(frag, shaderName) == shaderName
    ensures shaderName == [] && '.' in frag ==>
      exists ext :: frag == ShaderName(frag, shaderName) + "." + ext && '.' !in ext
    ensures shaderName == [] && '.' !in frag ==> ShaderName(frag, shaderName) == frag
  {
    BeforeLastSplits(frag, '.');
  }

  /** The source text loading reads for the two stages: both files, or,
      when either cannot be opened, empty text for both, since the read is
      abandoned at the first failure and nothing has been stored yet. */
  function StageSources(files: map<string, string>, vert: string, frag: string): (string, string)
  {
    if Readable(files, vert, frag)
    then (files[ShaderPath(vert)], files[ShaderPath(frag)])
    else ("", "")
  }

  /** Whether both stage files can be opened. */
  predicate Readable(files: map<string, string>, vert: string, frag: string)
  {
    ShaderPath(vert) in files && ShaderPath(frag) in files
  }

  /** The calls that compile the two stages from the given text, link them
      and delete them, when the names handed out start at `base`: vertex
      shader `base`, fragment shader `base + 1`, program `base + 2`. */
  function StageCalls(vcode: string, fcode: string, base: Name): seq<Event>
  {
    [Generate(ShaderObject, base)] + [CompileShader(VertexStage, base, vcode)]
    + [Generate(ShaderObject, base + 1)] + [CompileShader(FragmentStage, base + 1, fcode)]
    + [Generate(ProgramObject, base + 2)] + [LinkProgram(base + 2, base, base + 1)]
    + [DeleteShader(base), DeleteShader(base + 1)]
  }

  /** The calls LoadFromFile makes: the read error when a file cannot be
      read, then the stages. */
  function LoadCalls(files: map<string, string>, vert: string, frag: string, base: Name): seq<Event>
  {
    (if Readable(files, vert, frag) then [] else [LogError(ReadErrorMessage)])
    + StageCalls(StageSources(files, vert, frag).0, StageSources(files, vert, frag).1, base)
  }

  /** The stages compile the given text into `base` and `base + 1`, link
      them into `base + 2` and delete exactly those two shaders. */
  lemma StageCallsShape(vcode: string, fcode: string, base: Name)
    ensures var calls := StageCalls(vcode, fcode, base);
      CompileShader(VertexStage, base, vcode) in calls
      && CompileShader(FragmentStage, base + 1, fcode) in calls
      && LinkProgram(base + 2, base, base + 1) in calls
      && (forall e | e in calls && e.DeleteShader? :: e.shader == base || e.shader == base + 1)
      && (forall e | e in calls && e.CompileShader? :: e.shader == base || e.shader == base + 1)
      && (forall e | e in calls && e.LinkProgram? :: e.program == base + 2)
      && !(exists e :: e in calls && e.LogError?)
  {
    var calls := StageCalls(vcode, fcode, base);
    assert calls[1] == CompileShader(VertexStage, base, vcode);
    assert calls[3] == CompileShader(FragmentStage, base + 1, fcode);
    assert calls[5] == LinkProgram(base + 2, base, base + 1);
  }

  /** Loading compiles each stage from its own file when both can be read and
      from empty text (after logging the read error) otherwise; it links the
      two stages into the new program and then deletes exactly those two. */
  lemma LoadCompilesAndFrees(files: map<string, string>, vert: string, frag: string, base: Name)
    ensures var calls := LoadCalls(files, vert, frag, base);
      (Readable(files, vert, frag) ==>
        CompileShader(VertexStage, base, files[ShaderPath(vert)]) in calls
        && CompileShader(FragmentStage, base + 1, files[ShaderPath(frag)]) in calls
        && LogError(ReadErrorMessage) !in calls)
      && (!Readable(files, vert, frag) ==>
        CompileShader(VertexStage, base, "") in calls
        && CompileShader(FragmentStage, base + 1, "") in calls
        && LogError(ReadErrorMessage) in calls)
      && LinkProgram(base + 2, base, base + 1) in calls
      && (forall e | e in calls && e.DeleteShader? :: e.shader == base || e.shader == base + 1)
      && (forall e | e in calls && e.CompileShader? :: e.shader == base || e.shader == base + 1)
  {
    var src := StageSources(files, vert, frag);
    var stages := StageCalls(src.0, src.1, base);
    StageCallsShape(src.0, src.1, base);
    if Readable(files, vert, frag) {
      assert LoadCalls(files, vert, frag, base) == stages;
    } else {
      assert LoadCalls(files, vert, frag, base) == [LogError(ReadErrorMessage)] + stages;
      assert LoadCalls(files, vert, frag, base)[0] == LogError(ReadErrorMessage);
    }
  }

  /** The stage calls, issued. */
  method CompileStages(dev: Device, vcode: string, fcode: string) returns (program: Name)
    modifies dev
    ensures program == old(dev.nextName) + 2 && dev.nextName == program + 1
    ensures dev.trace == old(dev.trace) + StageCalls(vcode, fcode, old(dev.nextName))
    ensures dev.geometryTrace == old(dev.geometryTrace)
    ensures dev.nextGeometryName == old(dev.nextGeometryName)
  {
    var vertex := dev.NewName(ShaderObject);
    dev.Emit([CompileShader(VertexStage, vertex, vcode)]);
    var fragment := dev.NewName(ShaderObject);
    dev.Emit([CompileShader(FragmentStage, fragment, fcode)]);
    program := dev.NewName(ProgramObject);
    dev.Emit([LinkProgram(program, vertex, fragment)]);
    dev.Emit([DeleteShader(vertex), DeleteShader(fragment)]);
  }

  /** LoadFromFile(vert, frag, shaderName), returning the loaded shader. A
      read failure is logged and compiling goes on with empty text; compile
      and link failures are only reported, so a program name is always
      produced. */
  method LoadFromFile(dev: Device, vert: string, frag: string, shaderName: string) returns (sh: Shader)
    modifies dev
    ensures sh.id == old(dev.nextName) + 2 && dev.nextName == sh.id + 1
    ensures sh.name == ShaderName(frag, shaderName)
    ensures dev.trace == old(dev.trace) + LoadCalls(dev.files, vert, frag, old(dev.nextName))
    ensures dev.geometryTrace == old(dev.geometryTrace)
    ensures dev.nextGeometryName == old(dev.nextGeometryName)
  {
    var vertPath := Prefix + vert;
    var fragPath := Prefix + frag;
    var vertexCode, fragmentCode := "", "";
    if vertPath in dev.files && fragPath in dev.files {
      vertexCode, fragmentCode := dev.files[vertPath], dev.files[fragPath];
    } else {
      dev.Emit([LogError(ReadErrorMessage)]);
    }
    var program := CompileStages(dev, vertexCode, fragmentCode);
    var name := if shaderName != [] then shaderName else BeforeLast(frag, '.');
    sh := Shader(program, name);
  }

  /** Shader(vert, frag): a load with no explicit name. */
  method New(dev: Device, vert: string, frag: string) returns (sh: Shader)
    modifies dev
    ensures sh.id == old(dev.nextName) + 2 && dev.nextName == sh.id + 1
    ensures sh.name == BeforeLast(frag, '.')
    ensures dev.trace == old(dev.trace) + LoadCalls(dev.files, vert, frag, old(dev.nextName))
    ensures dev.geometryTrace == old(dev.geometryTrace)
    ensures dev.nextGeometryName == old(dev.nextGeometryName)
  {
    sh := LoadFromFile(dev, vert, frag, "");
  }

  /** The texture target a sampler type binds. */
  function SamplerTarget(t: SamplerType): (r: TexTarget)
    ensures r == CubeMap <==> t == SamplerCubeMap
    ensures r == Texture2D <==> t == Sampler2D
  {
    match t
    case Sampler2D => Texture2D
    case SamplerCubeMap => CubeMap
  }

  /** The calls BindTexture makes. */
  function BindTextureCalls(sh: Shader, sampler: string, texture: Name, index: nat, t: SamplerType): seq<Event>
  {
    [ActiveTexture(index), BindTexture(SamplerTarget(t), texture), SetUniform(sh.id, sampler, IntValue(index))]
  }

  /** After BindTexture, unit `index` is active and holds the texture on the
      target the sampler type selects, no other unit changes, and the sampler
      is set to that unit. */
  lemma BindTextureBindsUnit(s: State, sh: Shader, sampler: string, texture: Name, index: nat, t: SamplerType)
    ensures Run(s, BindTextureCalls(sh, sampler, texture, index, t)).activeUnit == index
    ensures Run(s, BindTextureCalls(sh, sampler, texture, index, t)).units == s.units[index := (SamplerTarget(t), texture)]
    ensures SetUniform(sh.id, sampler, IntValue(index)) in BindTextureCalls(sh, sampler, texture, index, t)
  {
    var calls := BindTextureCalls(sh, sampler, texture, index, t);
    assert calls == [ActiveTexture(index)] + [BindTexture(SamplerTarget(t), texture)]
                    + [SetUniform(sh.id, sampler, IntValue(index))];
    RunLast(s, [ActiveTexture(index)] + [BindTexture(SamplerTarget(t), texture)],
            SetUniform(sh.id, sampler, IntValue(index)));
    RunLast(s, [ActiveTexture(index)], BindTexture(SamplerTarget(t), texture));
    RunSingle(s, ActiveTexture(index));
    assert [ActiveTexture(index)] + [BindTexture(SamplerTarget(t), texture)] + [SetUniform(sh.id, sampler, IntValue(index))]
        == ([ActiveTexture(index)] + [BindTexture(SamplerTarget(t), texture)]) + [SetUniform(sh.id, sampler, IntValue(index))];
  }

  method BindTextureTo(dev: Device, sh: Shader, sampler: string, texture: Name, index: nat, t: SamplerType)
    modifies dev
    ensures dev.trace == old(dev.trace) + BindTextureCalls(sh, sampler, texture, index, t)
    ensures dev.nextName == old(dev.nextName) && dev.geometryTrace == old(dev.geometryTrace)
    ensures dev.nextGeometryName == old(dev.nextGeometryName)
  {
    dev.Emit([ActiveTexture(index), BindTexture(if t == Sampler2D then Texture2D else CubeMap, texture),
              SetUniform(sh.id, sampler, IntValue(index))]);
  }

  /** Bind: the shader's program becomes the current one. */
  method Bind(dev: Device, sh: Shader)
    modifies dev
    ensures dev.trace == old(dev.trace) + [UseProgram(sh.id)]
    ensures dev.nextName == old(dev.nextName) && dev.geometryTrace == old(dev.geometryTrace)
    ensures dev.nextGeometryName == old(dev.nextGeometryName)
  {
    dev.Emit([UseProgram(sh.id)]);
  }

  /** Unbind: no program is current. */
  method Unbind(dev: Device)
    modifies dev
    ensures dev.trace == old(dev.trace) + [UseProgram(0)]
    ensures dev.nextName == old(dev.nextName) && dev.geometryTrace == old(dev.geometryTrace)
    ensures dev.nextGeometryName == old(dev.nextGeometryName)
  {
    dev.Emit([UseProgram(0)]);
  }

  /** SetInt, SetFloat, SetFloat2, SetFloat3 and SetMaterix4: one uniform
      upload, looked up by name in this shader's program. */
  method SetUniformValue(dev: Device, sh: Shader, uniform: string, value: UniformValue)
    modifies dev
    ensures dev.trace == old(dev.trace) + [SetUniform(sh.id, uniform, value)]
    ensures dev.nextName == old(dev.nextName) && dev.geometryTrace == old(dev.geometryTrace)
    ensures dev.nextGeometryName == old(dev.nextGeometryName)
  {
    dev.Emit([SetUniform(sh.id, uniform, value)]);
  }

  // ------------------------------------------------------------ several samplers

  /** One 2D sampler of a pass: the uniform's name, the texture and the unit. */
  datatype SamplerBinding = SamplerBinding(sampler: string, texture: Name, unit: nat)

  /** The calls of BindTexture for each binding in turn, all on TEXTURE_2D. */
  function BindTexturesCalls(sh: Shader, bs: seq<SamplerBinding>): seq<Event>
    decreases |bs|
  {
    if bs == [] then []
    else BindTexturesCalls(sh, bs[..|bs| - 1])
         + BindTextureCalls(sh, bs[|bs| - 1].sampler, bs[|bs| - 1].texture, bs[|bs| - 1].unit, Sampler2D)
  }

  /** What the units hold once each binding has been made in turn: a later
      binding on the same unit replaces an earlier one. */
  function BoundUnits(m: map<nat, (TexTarget, Name)>, bs: seq<SamplerBinding>): map<nat, (TexTarget, Name)>
    decreases |bs|
  {
    if bs == [] then m
    else BoundUnits(m, bs[..|bs| - 1])[bs[|bs| - 1].unit := (Texture2D, bs[|bs| - 1].texture)]
  }

  predicate DistinctUnits(bs: seq<SamplerBinding>)
  {
    forall i, j | 0 <= i < j < |bs| :: bs[i].unit != bs[j].unit
  }

  lemma BindTexturesTwo(sh: Shader, b0: SamplerBinding, b1: SamplerBinding)
    ensures BindTexturesCalls(sh, [b0, b1])
            == BindTextureCalls(sh, b0.sampler, b0.texture, b0.unit, Sampler2D)
               + BindTextureCalls(sh, b1.sampler, b1.texture, b1.unit, Sampler2D)
  {
    assert [b0, b1][..1] == [b0];
    assert [b0][..0] == [];
    var c0 := BindTextureCalls(sh, b0.sampler, b0.texture, b0.unit, Sampler2D);
    assert BindTexturesCalls(sh, [b0]) == [] + c0 == c0;
  }

  /** Four bindings in a row are the four BindTexture calls in a row. */
  lemma BindTexturesFour(sh: Shader, b0: SamplerBinding, b1: SamplerBinding, b2: SamplerBinding, b3: SamplerBinding)
    ensures BindTexturesCalls(sh, [b0, b1, b2, b3])
            == BindTextureCalls(sh, b0.sampler, b0.texture, b0.unit, Sampler2D)
               + BindTextureCalls(sh, b1.sampler, b1.texture, b1.unit, Sampler2D)
               + BindTextureCalls(sh, b2.sampler, b2.texture, b2.unit, Sampler2D)
               + BindTextureCalls(sh, b3.sampler, b3.texture, b3.unit, Sampler2D)
  {
    assert [b0, b1, b2, b3][..3] == [b0, b1, b2];
    BindTexturesTwo(sh, b0, b1);
    assert [b0, b1, b2][..2] == [b0, b1];
    assert BindTexturesCalls(sh, [b0, b1, b2])
           == BindTexturesCalls(sh, [b0, b1]) + BindTextureCalls(sh, b2.sampler, b2.texture, b2.unit, Sampler2D);
  }

  /** Binding the textures in turn leaves the units as BoundUnits says and
      keeps the framebuffer and the viewport; each sampler is set to its unit. */
  lemma {:induction false} BindTexturesRun(s: State, sh: Shader, bs: seq<SamplerBinding>)
    ensures Run(s, BindTexturesCalls(sh, bs)).units == BoundUnits(s.units, bs)
    ensures Run(s, BindTexturesCalls(sh, bs)).framebuffer == s.framebuffer
    ensures Run(s, BindTexturesCalls(sh, bs)).viewport == s.viewport
    ensures forall i | 0 <= i < |bs| :: SetUniform(sh.id, bs[i].sampler, IntValue(bs[i].unit)) in BindTexturesCalls(sh, bs)
    decreases |bs|
  {
    if bs != [] {
      var init := bs[..|bs| - 1];
      var b := bs[|bs| - 1];
      var head := BindTexturesCalls(sh, init);
      var last := BindTextureCalls(sh, b.sampler, b.texture, b.unit, Sampler2D);
      BindTexturesRun(s, sh, init);
      RunAppend(s, head, last);
      BindTextureBindsUnit(Run(s, head), sh, b.sampler, b.texture, b.unit, Sampler2D);
      RunKeepsFramebuffer(Run(s, head), last);
      RunKeepsViewport(Run(s, head), last);
      forall i | 0 <= i < |bs|
        ensures SetUniform(sh.id, bs[i].sampler, IntValue(bs[i].unit)) in head + last
      {
        if i < |bs| - 1 {
          assert bs[i] == init[i];
        }
      }
    }
  }

  /** Binding textures only activates units, binds textures and sets samplers. */
  lemma {:induction false} BindTexturesEvents(sh: Shader, bs: seq<SamplerBinding>)
    ensures forall e | e in BindTexturesCalls(sh, bs) :: e.ActiveTexture? || e.BindTexture? || e.SetUniform?
    decreases |bs|
  {
    if bs != [] {
      BindTexturesEvents(sh, bs[..|bs| - 1]);
    }
  }

  /** With pairwise distinct units, every texture is still on its unit once
      all are bound: no binding overwrites another. */
  lemma {:induction false} BoundUnitsAt(m: map<nat, (TexTarget, Name)>, bs: seq<SamplerBinding>, i: nat)
    requires DistinctUnits(bs) && i < |bs|
    ensures bs[i].unit in BoundUnits(m, bs) && BoundUnits(m, bs)[bs[i].unit] == (Texture2D, bs[i].texture)
    decreases |bs|
  {
    var init := bs[..|bs| - 1];
    if i < |bs| - 1 {
      assert init[i] == bs[i];
      assert DistinctUnits(init);
      BoundUnitsAt(m, init, i);
    }
  }

  lemma {:induction false} BoundUnitsAppend(m: map<nat, (TexTarget, Name)>, a: seq<SamplerBinding>, b: seq<SamplerBinding>)
    ensures BoundUnits(m, a + b) == BoundUnits(BoundUnits(m, a), b)
    decreases |b|
  {
    if b == [] {
      assert a + b == a;
    } else {
      assert (a + b)[..|a + b| - 1] == a + b[..|b| - 1];
      BoundUnitsAppend(m, a, b[..|b| - 1]);
    }
  }
}
