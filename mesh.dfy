// Mesh.hpp: the vertex record with its four bone slots, and the mesh that
// owns a vertex list, an index list and its textures, uploads them into a
// vertex array and draws them with the textures bound unit by unit.
module Meshes {
  import opened GL
  import opened LinearAlgebra
  import opened Shaders

  /** MAX_BONE_INFLUENCE. */
  const MaxBoneInfluence := 4

  /** The four bone slots of a vertex: ids, and weights alongside. */
  type BoneIds = s: seq<int> | |s| == MaxBoneInfluence witness [-1, -1, -1, -1]
  type BoneWeights = s: seq<real> | |s| == MaxBoneInfluence witness [0.0, 0.0, 0.0, 0.0]

  const NoBone := -1

  datatype Vertex = Vertex(
    position: Vec3,
    normal: Vec3,
    texCoord: Vec2,
    tangent: Vec3,
    bitangent: Vec3,
    boneIds: BoneIds,
    weights: BoneWeights)

  const Origin := Vec3(0.0, 0.0, 0.0)

  /** Every slot holds the same bone and weight. */
  predicate AllSlots(v: Vertex, id: int, weight: real)
  {
    forall i | 0 <= i < MaxBoneInfluence :: v.boneIds[i] == id && v.weights[i] == weight
  }

  /** Two vertices that differ at most in their bone slots. */
  predicate SameGeometry(a: Vertex, b: Vertex)
  {
    a.position == b.position && a.normal == b.normal && a.texCoord == b.texCoord
    && a.tangent == b.tangent && a.bitangent == b.bitangent
  }

  /** Fill all four slots with (id, weight): the shared loop of the
      constructor, Reset and SetBoneData. */
  method FillSlots(v: Vertex, id: int, weight: real) returns (r: Vertex)
    ensures SameGeometry(r, v) && AllSlots(r, id, weight)
  {
    var ids := v.boneIds;
    var ws := v.weights;
    for i := 0 to MaxBoneInfluence
      invariant |ids| == MaxBoneInfluence && |ws| == MaxBoneInfluence
      invariant forall k | 0 <= k < i :: ids[k] == id && ws[k] == weight
    {
      ids := ids[i := id];
      ws := ws[i := weight];
    }
    r := v.(boneIds := ids, weights := ws);
  }

  /** Vertex(): every vector zero, every slot (-1, 0). */
  method NewVertex() returns (v: Vertex)
    ensures v.position == Origin && v.normal == Origin && v.texCoord == Vec2(0.0, 0.0)
    ensures v.tangent == Origin && v.bitangent == Origin
    ensures AllSlots(v, NoBone, 0.0)
  {
    var blank := Vertex(Origin, Origin, Vec2(0.0, 0.0), Origin, Origin, [-1, -1, -1, -1], [0.0, 0.0, 0.0, 0.0]);
    v := FillSlots(blank, NoBone, 0.0);
  }

  /** Reset: all four slots back to (-1, 0), the rest untouched. */
  method Reset(v: Vertex) returns (r: Vertex)
    ensures SameGeometry(r, v) && AllSlots(r, NoBone, 0.0)
  {
    r := FillSlots(v, NoBone, 0.0);
  }

  /** SetBoneData: all four slots overwritten with the one bone; no free
      slot is looked for, so only the last call on a vertex is kept. */
  method SetBoneData(v: Vertex, boneId: int, weight: real) returns (r: Vertex)
    ensures SameGeometry(r, v) && AllSlots(r, boneId, weight)
  {
    r := FillSlots(v, boneId, weight);
  }

  /** What SetBoneData leaves, as a value. */
  function WithBone(v: Vertex, boneId: int, weight: real): (r: Vertex)
    ensures SameGeometry(r, v) && AllSlots(r, boneId, weight)
  {
    v.(boneIds := [boneId, boneId, boneId, boneId], weights := [weight, weight, weight, weight])
  }

  /** The slots are determined by the bone and weight alone: a vertex with
      its geometry and all slots equal is the SetBoneData result. */
  lemma SlotsDetermineVertex(v: Vertex, r: Vertex, boneId: int, weight: real)
    requires SameGeometry(r, v) && AllSlots(r, boneId, weight)
    ensures r == WithBone(v, boneId, weight)
  {
    assert r.boneIds == [boneId, boneId, boneId, boneId];
    assert r.weights == [weight, weight, weight, weight];
  }

  /** A later SetBoneData wipes out an earlier one completely. */
  lemma LastBoneWins(v: Vertex, a: int, wa: real, b: int, wb: real)
    ensures WithBone(WithBone(v, a, wa), b, wb) == WithBone(v, b, wb)
  {
  }

  // ---------------------------------------------------------------- mesh

  /** A mesh texture: its material role (DiffuseMap, SpecularMap, NormalMap
      or HeightMap) and its GL name, both set by the loader. */
  datatype MeshTexture = MeshTexture(textureType: string, id: Name)

  /** sizeof(Vertex): 14 floats of geometry, 4 int bone ids, 4 float weights. */
  const VertexBytes := 88
  const IndexBytes := 4

  /** BindBuffer's calls: a vertex array, a vertex buffer and an index
      buffer, both uploaded, and the seven vertex attributes at their
      offsets within Vertex. */
  function MeshSetupCalls(vao: Name, vbo: Name, ebo: Name, vertexCount: nat, indexCount: nat): seq<Event>
  {
    [Generate(VertexArrayObject, vao), Generate(BufferObject, vbo), Generate(BufferObject, ebo)]
    + [BindVertexArray(vao), BindBuffer(ArrayBuffer, vbo), BufferData(ArrayBuffer, vertexCount * VertexBytes),
       BindBuffer(ElementArrayBuffer, ebo), BufferData(ElementArrayBuffer, indexCount * IndexBytes),
       VertexAttrib(0, 3, VertexBytes, 0), VertexAttrib(1, 3, VertexBytes, 12), VertexAttrib(2, 2, VertexBytes, 24),
       VertexAttrib(3, 3, VertexBytes, 32), VertexAttrib(4, 3, VertexBytes, 44), VertexAttrib(5, 4, VertexBytes, 56),
       VertexAttrib(6, 4, VertexBytes, 72), BindVertexArray(0)]
  }

  /** BindBuffer on values: three fresh names, then the uploads. */
  method CreateBuffers(dev: Device, vertexCount: nat, indexCount: nat) returns (vao: FreshName, vbo: FreshName, ebo: FreshName)
    modifies dev
    ensures vao == old(dev.nextGeometryName) && vbo == vao + 1 && ebo == vao + 2 && dev.nextGeometryName == vao + 3
    ensures dev.geometryTrace == old(dev.geometryTrace) + MeshSetupCalls(vao, vbo, ebo, vertexCount, indexCount)
    ensures dev.trace == old(dev.trace) && dev.nextName == old(dev.nextName)
  {
    vao := dev.NewGeometryName(VertexArrayObject);
    vbo := dev.NewGeometryName(BufferObject);
    ebo := dev.NewGeometryName(BufferObject);
    dev.EmitGeometry([BindVertexArray(vao), BindBuffer(ArrayBuffer, vbo), BufferData(ArrayBuffer, vertexCount * VertexBytes),
                      BindBuffer(ElementArrayBuffer, ebo), BufferData(ElementArrayBuffer, indexCount * IndexBytes),
                      VertexAttrib(0, 3, VertexBytes, 0), VertexAttrib(1, 3, VertexBytes, 12), VertexAttrib(2, 2, VertexBytes, 24),
                      VertexAttrib(3, 3, VertexBytes, 32), VertexAttrib(4, 3, VertexBytes, 44), VertexAttrib(5, 4, VertexBytes, 56),
                      VertexAttrib(6, 4, VertexBytes, 72), BindVertexArray(0)]);
  }

  /** The material roles that carry a running number. */
  predicate Numbered(textureType: string)
  {
    textureType == "DiffuseMap" || textureType == "SpecularMap" || textureType == "NormalMap" || textureType == "HeightMap"
  }

  /** How many of the textures have the given role. */
  function CountOfType(texs: seq<MeshTexture>, textureType: string): (c: nat)
    ensures c <= |texs|
  {
    if texs == [] then 0
    else CountOfType(texs[..|texs| - 1], textureType) + (if texs[|texs| - 1].textureType == textureType then 1 else 0)
  }

  lemma CountStep(texs: seq<MeshTexture>, i: nat, t: string)
    requires i < |texs|
    ensures CountOfType(texs[..i + 1], t) == CountOfType(texs[..i], t) + if texs[i].textureType == t then 1 else 0
  {
    assert texs[..i + 1][..i] == texs[..i];
  }

  /** The number Render gives texture i (the N of diffuse_textureN): one
      more than the textures of the same role before it; 0 stands for the
      empty string an unnumbered role gets. */
  function TextureNumber(texs: seq<MeshTexture>, i: nat): nat
    requires i < |texs|
  {
    if Numbered(texs[i].textureType) then CountOfType(texs[..i], texs[i].textureType) + 1 else 0
  }

  /** Within one role the numbers run 1, 2, 3, ... in texture order: they
      start at 1, and a later texture of the role has a larger number. */
  lemma {:induction false} NumbersIncreaseWithinType(texs: seq<MeshTexture>, i: nat, j: nat)
    requires i < j < |texs| && Numbered(texs[i].textureType) && texs[i].textureType == texs[j].textureType
    ensures 1 <= TextureNumber(texs, i) < TextureNumber(texs, j)
  {
    CountPrefixGrows(texs, i, j, texs[i].textureType);
  }

  lemma {:induction false} CountPrefixGrows(texs: seq<MeshTexture>, i: nat, j: nat, t: string)
    requires i < j <= |texs| && texs[i].textureType == t
    ensures CountOfType(texs[..i], t) < CountOfType(texs[..j], t)
    decreases j
  {
    assert texs[..j][..j - 1] == texs[..j - 1];
    if j - 1 > i {
      CountPrefixGrows(texs, i, j - 1, t);
    } else {
      assert j - 1 == i;
    }
  }

  /** Texture i of Render: the shader bound, then the texture on unit i
      under its bare role name. */
  function BindStep(sh: Shader, tex: MeshTexture, i: nat): seq<Event>
  {
    [UseProgram(sh.id)] + BindTextureCalls(sh, tex.textureType, tex.id, i, Sampler2D)
  }

  function TextureBindCalls(sh: Shader, texs: seq<MeshTexture>, n: nat): seq<Event>
    requires n <= |texs|
  {
    if n == 0 then [] else TextureBindCalls(sh, texs, n - 1) + BindStep(sh, texs[n - 1], n - 1)
  }

  lemma BindStepBinds(s: State, sh: Shader, tex: MeshTexture, i: nat)
    ensures Run(s, BindStep(sh, tex, i)).units == s.units[i := (Texture2D, tex.id)]
  {
    RunAppend(s, [UseProgram(sh.id)], BindTextureCalls(sh, tex.textureType, tex.id, i, Sampler2D));
    RunSingle(s, UseProgram(sh.id));
    BindTextureBindsUnit(Step(s, UseProgram(sh.id)), sh, tex.textureType, tex.id, i, Sampler2D);
  }

  /** After the texture loop, texture i sits on unit i for every i, and no
      unit at or beyond the texture count has changed. */
  lemma {:induction false} TexturesOnTheirUnits(s: State, sh: Shader, texs: seq<MeshTexture>, n: nat)
    requires n <= |texs|
    ensures forall i | 0 <= i < n :: i in Run(s, TextureBindCalls(sh, texs, n)).units
                                     && Run(s, TextureBindCalls(sh, texs, n)).units[i] == (Texture2D, texs[i].id)
    ensures forall u | u >= n :: (u in Run(s, TextureBindCalls(sh, texs, n)).units <==> u in s.units)
    ensures forall u | u >= n && u in s.units :: Run(s, TextureBindCalls(sh, texs, n)).units[u] == s.units[u]
  {
    if n > 0 {
      TexturesOnTheirUnits(s, sh, texs, n - 1);
      RunAppend(s, TextureBindCalls(sh, texs, n - 1), BindStep(sh, texs[n - 1], n - 1));
      BindStepBinds(Run(s, TextureBindCalls(sh, texs, n - 1)), sh, texs[n - 1], n - 1);
    }
  }

  /** Render's pipeline calls: the texture loop, the draw of every index,
      and unit 0 made active again. */
  function RenderCalls(sh: Shader, texs: seq<MeshTexture>, indexCount: nat): seq<Event>
  {
    TextureBindCalls(sh, texs, |texs|) + [DrawElements(Triangles, indexCount), ActiveTexture(0)]
  }

  /** The texture loop draws nothing, binds no framebuffer and uses only the
      mesh's shader. */
  lemma {:induction false} TextureBindCallsShape(sh: Shader, texs: seq<MeshTexture>, n: nat)
    requires n <= |texs|
    ensures forall e | e in TextureBindCalls(sh, texs, n) ::
              !IsDraw(e) && !e.BindFramebuffer? && KeepsStencil(e) && (e.UseProgram? ==> e.program == sh.id)
  {
    if n > 0 {
      TextureBindCallsShape(sh, texs, n - 1);
      var step := BindStep(sh, texs[n - 1], n - 1);
      assert step == [UseProgram(sh.id), ActiveTexture(n - 1), BindTexture(Texture2D, texs[n - 1].id),
                      SetUniform(sh.id, texs[n - 1].textureType, IntValue(n - 1))];
    }
  }

  /** One Render makes exactly one draw, binds no framebuffer and switches
      to no program but the mesh's shader. */
  lemma RenderCallsShape(sh: Shader, texs: seq<MeshTexture>, indexCount: nat)
    ensures DrawCount(RenderCalls(sh, texs, indexCount)) == 1
    ensures forall e | e in RenderCalls(sh, texs, indexCount) ::
              !e.BindFramebuffer? && KeepsStencil(e) && (e.UseProgram? ==> e.program == sh.id)
  {
    var loop := TextureBindCalls(sh, texs, |texs|);
    TextureBindCallsShape(sh, texs, |texs|);
    NoDrawCount(loop);
    DrawCountAppend(loop, [DrawElements(Triangles, indexCount), ActiveTexture(0)]);
    var tail := [DrawElements(Triangles, indexCount), ActiveTexture(0)];
    assert tail[..1] == [DrawElements(Triangles, indexCount)] && tail[..1][..0] == [];
    assert DrawCount(tail[..1]) == 1;
    assert DrawCount(tail) == 1;
  }

  class Mesh {
    /** The vertex, index and texture lists are fixed once the mesh is built. */
    const vertices: seq<Vertex>
    const indices: seq<nat>
    const textures: seq<MeshTexture>
    var vao: Name
    var vbo: Name
    var ebo: Name

    /** Mesh(vs, ids, texs): keeps the three lists and uploads them. */
    constructor (dev: Device, vs: seq<Vertex>, ids: seq<nat>, texs: seq<MeshTexture>)
      modifies dev
      ensures vertices == vs && indices == ids && textures == texs
      ensures GetVertexNum() == |vs|
      ensures vao == old(dev.nextGeometryName) && vbo == vao + 1 && ebo == vao + 2 && dev.nextGeometryName == vao + 3
      ensures dev.geometryTrace == old(dev.geometryTrace) + MeshSetupCalls(vao, vbo, ebo, |vs|, |ids|)
      ensures dev.trace == old(dev.trace) && dev.nextName == old(dev.nextName)
    {
      vertices, indices, textures := vs, ids, texs;
      var a, b, e := CreateBuffers(dev, |vs|, |ids|);
      vao, vbo, ebo := a, b, e;
    }

    function GetVertexNum(): nat
    {
      |vertices|
    }

    /** BindBuffer: fresh names for the vertex array and both buffers. */
    method BindBuffer(dev: Device)
      modifies this, dev
      ensures vao == old(dev.nextGeometryName) && vbo == vao + 1 && ebo == vao + 2 && dev.nextGeometryName == vao + 3
      ensures dev.geometryTrace == old(dev.geometryTrace) + MeshSetupCalls(vao, vbo, ebo, |vertices|, |indices|)
      ensures dev.trace == old(dev.trace) && dev.nextName == old(dev.nextName)
    {
      var a, b, e := CreateBuffers(dev, |vertices|, |indices|);
      vao, vbo, ebo := a, b, e;
    }

    /** Unbind: the three names are deleted (the fields keep them). */
    method Unbind(dev: Device)
      modifies dev
      ensures dev.geometryTrace == old(dev.geometryTrace)
        + [Delete(VertexArrayObject, vao), Delete(BufferObject, vbo), Delete(BufferObject, ebo)]
      ensures dev.trace == old(dev.trace) && dev.nextName == old(dev.nextName)
    {
      dev.EmitGeometry([Delete(VertexArrayObject, vao), Delete(BufferObject, vbo), Delete(BufferObject, ebo)]);
    }

    /** Render(shader): upload on first use, bind texture i on unit i with
        a per-role running number, draw all indices. Returns the numbers. */
    method Render(dev: Device, sh: Shader) returns (numbers: seq<nat>)
      modifies this, dev
      ensures |numbers| == |textures| && forall i | 0 <= i < |textures| :: numbers[i] == TextureNumber(textures, i)
      ensures dev.trace == old(dev.trace) + RenderCalls(sh, textures, |indices|)
      ensures dev.nextName == old(dev.nextName) && vao != 0
      ensures old(vao) != 0 ==>
                vao == old(vao) && vbo == old(vbo) && ebo == old(ebo) && dev.nextGeometryName == old(dev.nextGeometryName)
                && dev.geometryTrace == old(dev.geometryTrace) + [BindVertexArray(vao), BindVertexArray(0)]
      ensures old(vao) == 0 ==>
                vao == old(dev.nextGeometryName) && vbo == vao + 1 && ebo == vao + 2 && dev.nextGeometryName == vao + 3
                && dev.geometryTrace == old(dev.geometryTrace) + MeshSetupCalls(vao, vbo, ebo, |vertices|, |indices|)
                   + [BindVertexArray(vao), BindVertexArray(0)]
    {
      if vao == 0 {
        BindBuffer(dev);
      }
      numbers := BindTextures(dev, sh, textures);
      dev.EmitGeometry([BindVertexArray(vao)]);
      dev.Emit([DrawElements(Triangles, |indices|)]);
      dev.EmitGeometry([BindVertexArray(0)]);
      dev.Emit([ActiveTexture(0)]);
    }
  }

  /** Render's texture loop on values: four per-role counters starting at 1. */
  method BindTextures(dev: Device, sh: Shader, texs: seq<MeshTexture>) returns (numbers: seq<nat>)
    modifies dev
    ensures |numbers| == |texs| && forall i | 0 <= i < |texs| :: numbers[i] == TextureNumber(texs, i)
    ensures dev.trace == old(dev.trace) + TextureBindCalls(sh, texs, |texs|)
    ensures dev.geometryTrace == old(dev.geometryTrace) && dev.nextName == old(dev.nextName)
    ensures dev.nextGeometryName == old(dev.nextGeometryName)
  {
    var diffuseNr, specularNr, normalNr, heightNr := 1, 1, 1, 1;
    numbers := [];
    for i := 0 to |texs|
      invariant |numbers| == i && forall k | 0 <= k < i :: numbers[k] == TextureNumber(texs, k)
      invariant diffuseNr == CountOfType(texs[..i], "DiffuseMap") + 1
      invariant specularNr == CountOfType(texs[..i], "SpecularMap") + 1
      invariant normalNr == CountOfType(texs[..i], "NormalMap") + 1
      invariant heightNr == CountOfType(texs[..i], "HeightMap") + 1
      invariant dev.trace == old(dev.trace) + TextureBindCalls(sh, texs, i)
      invariant dev.geometryTrace == old(dev.geometryTrace) && dev.nextName == old(dev.nextName)
      invariant dev.nextGeometryName == old(dev.nextGeometryName)
    {
      var name := texs[i].textureType;
      var number := 0;
      if name == "DiffuseMap" {
        number := diffuseNr;
        diffuseNr := diffuseNr + 1;
      } else if name == "SpecularMap" {
        number := specularNr;
        specularNr := specularNr + 1;
      } else if name == "NormalMap" {
        number := normalNr;
        normalNr := normalNr + 1;
      } else if name == "HeightMap" {
        number := heightNr;
        heightNr := heightNr + 1;
      }
      assert number == TextureNumber(texs, i);
      CountStep(texs, i, "DiffuseMap");
      CountStep(texs, i, "SpecularMap");
      CountStep(texs, i, "NormalMap");
      CountStep(texs, i, "HeightMap");
      numbers := numbers + [number];
      BindOne(dev, sh, texs[i], i);
      assert TextureBindCalls(sh, texs, i + 1) == TextureBindCalls(sh, texs, i) + BindStep(sh, texs[i], i);
    }
  }

  /** One turn of the texture loop: the shader bound, the texture on unit i. */
  method BindOne(dev: Device, sh: Shader, tex: MeshTexture, i: nat)
    modifies dev
    ensures dev.trace == old(dev.trace) + BindStep(sh, tex, i)
    ensures dev.geometryTrace == old(dev.geometryTrace) && dev.nextName == old(dev.nextName)
    ensures dev.nextGeometryName == old(dev.nextGeometryName)
  {
    dev.Emit([UseProgram(sh.id)]);
    BindTextureTo(dev, sh, tex.textureType, tex.id, i, Sampler2D);
  }
}
