// Model.hpp: importing an Assimp scene into meshes. The scene arrives as a
// value (the file reader is not modelled); the model walks its node tree,
// turns each referenced mesh into a Mesh, numbers the bones it meets in a
// name -> id table, and writes each bone's weights into the vertices.
module Models {
  import opened Wrappers
  import opened GL
  import opened LinearAlgebra
  import opened Strings
  import opened Meshes

  // ------------------------------------------------------------ the input

  datatype AiWeight = AiWeight(vertexId: nat, weight: real)

  /** A bone: its name, its offset matrix (rows outermost, as assimp stores
      it) and the vertices it influences. */
  datatype AiBone = AiBone(name: string, offset: Mat4, weights: seq<AiWeight>)

  /** Tangents and bitangents come with the first texture-coordinate set
      (the importer is asked to compute them). */
  datatype AiMesh = AiMesh(
    positions: seq<Vec3>,
    normals: Option<seq<Vec3>>,
    texCoords: Option<seq<Vec2>>,
    tangents: seq<Vec3>,
    bitangents: seq<Vec3>,
    bones: seq<AiBone>,
    faces: seq<seq<nat>>,
    materialIndex: nat)

  /** The texture file names of a material, per assimp texture type. */
  datatype AiMaterial = AiMaterial(diffuse: seq<string>, specular: seq<string>, height: seq<string>, ambient: seq<string>)

  datatype AiNode = AiNode(meshes: seq<nat>, children: seq<AiNode>)

  /** An imported scene; `embedded` holds the texture names the scene
      carries itself (GetEmbeddedTexture succeeds on them). */
  datatype AiScene = AiScene(
    incomplete: bool,
    root: Option<AiNode>,
    meshes: seq<AiMesh>,
    materials: seq<AiMaterial>,
    embedded: set<string>)

  /** The guard of the bone-weight loop as written: it lets vertexId equal
      the vertex count through. */
  predicate WeightGuardAsWritten(vertexId: nat, vertexCount: nat)
  {
    vertexId <= vertexCount
  }

  /** The guard as intended: vertexId names an existing vertex. */
  predicate WeightGuard(vertexId: nat, vertexCount: nat)
  {
    vertexId < vertexCount
  }

  /** The id one past the last vertex passes the written guard although
      vertices[vertexId] does not exist; the intended guard refuses it. */
  lemma WeightGuardAsWrittenAdmitsPastEnd(vertices: seq<Vertex>)
    ensures WeightGuardAsWritten(|vertices|, |vertices|)
    ensures !WeightGuard(|vertices|, |vertices|)
  {
  }

  predicate WeightsFit(ws: seq<AiWeight>, vertexCount: nat)
  {
    forall k | 0 <= k < |ws| :: WeightGuard(ws[k].vertexId, vertexCount)
  }

  predicate BonesFit(bones: seq<AiBone>, vertexCount: nat)
  {
    forall b | 0 <= b < |bones| :: WeightsFit(bones[b].weights, vertexCount)
  }

  /** What assimp guarantees of a mesh: per-vertex arrays as long as the
      vertex list, and a material index the scene has. */
  predicate ValidMesh(m: AiMesh, materialCount: nat)
  {
    && ValidArrays(m)
    && BonesFit(m.bones, |m.positions|)
    && m.materialIndex < materialCount
  }

  predicate ValidArrays(m: AiMesh)
  {
    && (m.normals.Some? ==> |m.normals.value| == |m.positions|)
    && (m.texCoords.Some? ==>
          |m.texCoords.value| == |m.positions| && |m.tangents| == |m.positions| && |m.bitangents| == |m.positions|)
  }

  predicate NodeRefsOk(node: AiNode, meshCount: nat)
    decreases node
  {
    && (forall i | 0 <= i < |node.meshes| :: node.meshes[i] < meshCount)
    && (forall c | 0 <= c < |node.children| :: NodeRefsOk(node.children[c], meshCount))
  }

  predicate ValidScene(scene: AiScene)
  {
    && (forall i | 0 <= i < |scene.meshes| :: ValidMesh(scene.meshes[i], |scene.materials|))
    && (scene.root.Some? ==> NodeRefsOk(scene.root.value, |scene.meshes|))
  }

  // ------------------------------------------------------- the matrices

  /** ConvertMatrixToGLMFormat: assimp's row r, column c lands in glm's
      column c, row r. */
  function ConvertMatrix(from: Mat4): Mat4
  {
    [[from[0][0], from[1][0], from[2][0], from[3][0]],
     [from[0][1], from[1][1], from[2][1], from[3][1]],
     [from[0][2], from[1][2], from[2][2], from[3][2]],
     [from[0][3], from[1][3], from[2][3], from[3][3]]]
  }

  /** The conversion is the transpose: every entry moves to the mirrored
      position and nothing else changes. */
  lemma ConvertMatrixTransposes(from: Mat4)
    ensures forall r, c | 0 <= r < 4 && 0 <= c < 4 :: ConvertMatrix(from)[c][r] == from[r][c]
  {
  }

  /** Converting twice gives the matrix back: no entry is lost or moved twice. */
  lemma ConvertMatrixInvolution(m: Mat4)
    ensures ConvertMatrix(ConvertMatrix(m)) == m
  {
    var t := ConvertMatrix(ConvertMatrix(m));
    ConvertMatrixTransposes(m);
    ConvertMatrixTransposes(ConvertMatrix(m));
    forall r | 0 <= r < 4
      ensures t[r] == m[r]
    {
      assert forall c | 0 <= c < 4 :: t[r][c] == m[r][c];
    }
  }

  // ------------------------------------------------------ the bone table

  datatype BoneInfo = BoneInfo(id: nat, offset: Mat4)

  /** m_BoneInfoMap with m_BoneCounter. */
  datatype BoneTable = BoneTable(info: map<string, BoneInfo>, counter: nat)

  const EmptyTable := BoneTable(map[], 0)

  /** One id per name, the ids exactly 0 .. counter-1. */
  predicate ValidTable(t: BoneTable)
  {
    && |t.info| == t.counter
    && (forall n | n in t.info :: t.info[n].id < t.counter)
    && (forall a, b | a in t.info && b in t.info && a != b :: t.info[a].id != t.info[b].id)
  }

  /** The id a bone gets, and the table after: a new name takes the
      counter, a known one keeps its id. */
  function Register(t: BoneTable, bone: AiBone): (BoneTable, nat)
  {
    if bone.name in t.info then (t, t.info[bone.name].id)
    else (BoneTable(t.info[bone.name := BoneInfo(t.counter, ConvertMatrix(bone.offset))], t.counter + 1), t.counter)
  }

  /** Registering keeps the table valid, files the bone under the id it
      returns, leaves every earlier entry alone, and moves the counter by
      one exactly when the name is new. */
  lemma RegisterKeepsTable(t: BoneTable, bone: AiBone)
    requires ValidTable(t)
    ensures ValidTable(Register(t, bone).0)
    ensures bone.name in Register(t, bone).0.info && Register(t, bone).0.info[bone.name].id == Register(t, bone).1
    ensures forall n | n in t.info :: n in Register(t, bone).0.info && Register(t, bone).0.info[n] == t.info[n]
    ensures Register(t, bone).0.counter == t.counter + (if bone.name in t.info then 0 else 1)
    ensures bone.name !in t.info ==> Register(t, bone).1 == t.counter
  {
    if bone.name !in t.info {
      var t' := Register(t, bone).0;
      assert t'.info.Keys == t.info.Keys + {bone.name};
    }
  }

  function TableAfter(t: BoneTable, bones: seq<AiBone>): BoneTable
  {
    if bones == [] then t else Register(TableAfter(t, bones[..|bones| - 1]), bones[|bones| - 1]).0
  }

  /** After any run of bones the table is still valid, every earlier name
      keeps its id, and every bone of the run has an entry. */
  lemma {:induction false} TableAfterKeepsTable(t: BoneTable, bones: seq<AiBone>)
    requires ValidTable(t)
    ensures ValidTable(TableAfter(t, bones))
    ensures forall n | n in t.info :: n in TableAfter(t, bones).info && TableAfter(t, bones).info[n] == t.info[n]
    ensures t.counter <= TableAfter(t, bones).counter
  {
    if bones != [] {
      var init := bones[..|bones| - 1];
      TableAfterKeepsTable(t, init);
      var t1 := TableAfter(t, init);
      RegisterKeepsTable(t1, bones[|bones| - 1]);
      assert TableAfter(t, bones) == Register(t1, bones[|bones| - 1]).0;
    }
  }

  /** Every bone of the run has an entry afterwards. */
  lemma {:induction false} TableAfterNamesBones(t: BoneTable, bones: seq<AiBone>)
    requires ValidTable(t)
    ensures forall b | 0 <= b < |bones| :: bones[b].name in TableAfter(t, bones).info
  {
    if bones != [] {
      var init := bones[..|bones| - 1];
      TableAfterNamesBones(t, init);
      TableAfterKeepsTable(t, init);
      var t1 := TableAfter(t, init);
      RegisterKeepsTable(t1, bones[|bones| - 1]);
      assert TableAfter(t, bones) == Register(t1, bones[|bones| - 1]).0;
      forall b | 0 <= b < |bones| ensures bones[b].name in TableAfter(t, bones).info {
        if b < |init| {
          assert init[b] == bones[b];
        }
      }
    }
  }

  // ---------------------------------------------------------- the weights

  /** The vertices after one bone's weights, each applied with SetBoneData
      in turn. */
  function ApplyWeights(vs: seq<Vertex>, boneId: int, ws: seq<AiWeight>): (r: seq<Vertex>)
    requires WeightsFit(ws, |vs|)
    ensures |r| == |vs|
  {
    if ws == [] then vs
    else
      var prev := ApplyWeights(vs, boneId, ws[..|ws| - 1]);
      var w := ws[|ws| - 1];
      prev[w.vertexId := WithBone(prev[w.vertexId], boneId, w.weight)]
  }

  /** The weight of the last entry naming vertex v, if any. */
  function LastWeightFor(ws: seq<AiWeight>, v: nat): Option<real>
  {
    if ws == [] then None
    else if ws[|ws| - 1].vertexId == v then Some(ws[|ws| - 1].weight)
    else LastWeightFor(ws[..|ws| - 1], v)
  }

  /** Since SetBoneData overwrites every slot, a vertex ends up with the
      bone and the LAST weight naming it; a vertex no weight names is left
      as it was. The geometry is never touched. */
  lemma {:induction false} ApplyWeightsLastWins(vs: seq<Vertex>, boneId: int, ws: seq<AiWeight>, v: nat)
    requires WeightsFit(ws, |vs|) && v < |vs|
    ensures LastWeightFor(ws, v).None? ==> ApplyWeights(vs, boneId, ws)[v] == vs[v]
    ensures LastWeightFor(ws, v).Some? ==>
              ApplyWeights(vs, boneId, ws)[v] == WithBone(vs[v], boneId, LastWeightFor(ws, v).value)
  {
    if ws != [] {
      var init := ws[..|ws| - 1];
      assert WeightsFit(init, |vs|);
      ApplyWeightsLastWins(vs, boneId, init, v);
      if ws[|ws| - 1].vertexId == v && LastWeightFor(init, v).Some? {
        LastBoneWins(vs[v], boneId, LastWeightFor(init, v).value, boneId, ws[|ws| - 1].weight);
      }
    }
  }

  /** The vertices after a run of bones, each bone's id resolved against
      the table as it stands when the bone is reached. */
  function VerticesAfter(vs: seq<Vertex>, t: BoneTable, bones: seq<AiBone>): (r: seq<Vertex>)
    requires BonesFit(bones, |vs|)
    ensures |r| == |vs|
  {
    if bones == [] then vs
    else
      var init := bones[..|bones| - 1];
      var last := bones[|bones| - 1];
      assert BonesFit(init, |vs|);
      ApplyWeights(VerticesAfter(vs, t, init), Register(TableAfter(t, init), last).1, last.weights)
  }

  /** One bone's weight loop. */
  method ApplyBoneWeights(vs: seq<Vertex>, boneId: int, ws: seq<AiWeight>) returns (r: seq<Vertex>)
    requires WeightsFit(ws, |vs|)
    ensures r == ApplyWeights(vs, boneId, ws)
  {
    r := vs;
    for w := 0 to |ws|
      invariant WeightsFit(ws[..w], |vs|)
      invariant r == ApplyWeights(vs, boneId, ws[..w])
    {
      assert ws[..w + 1][..w] == ws[..w];
      var id := ws[w].vertexId;
      var v := SetBoneData(r[id], boneId, ws[w].weight);
      SlotsDetermineVertex(r[id], v, boneId, ws[w].weight);
      r := r[id := v];
    }
    assert ws[..|ws|] == ws;
  }

  // --------------------------------------------------- vertices and faces

  /** ProcessMesh's vertex i before any bone: reset slots, the position,
      the normal if the mesh has normals, the UV with tangent and bitangent
      if it has texture coordinates, zero otherwise. */
  function BaseVertex(m: AiMesh, i: nat): (v: Vertex)
    requires ValidArrays(m) && i < |m.positions|
    ensures v.position == m.positions[i] && AllSlots(v, NoBone, 0.0)
    ensures m.texCoords.None? ==> v.texCoord == Vec2(0.0, 0.0) && v.tangent == Origin && v.bitangent == Origin
    ensures m.normals.None? ==> v.normal == Origin
  {
    Vertex(m.positions[i],
           if m.normals.Some? then m.normals.value[i] else Origin,
           if m.texCoords.Some? then m.texCoords.value[i] else Vec2(0.0, 0.0),
           if m.texCoords.Some? then m.tangents[i] else Origin,
           if m.texCoords.Some? then m.bitangents[i] else Origin,
           [NoBone, NoBone, NoBone, NoBone], [0.0, 0.0, 0.0, 0.0])
  }

  /** The vertex loop of ProcessMesh. */
  method BaseVertices(m: AiMesh) returns (vs: seq<Vertex>)
    requires ValidArrays(m)
    ensures |vs| == |m.positions| && forall i | 0 <= i < |vs| :: vs[i] == BaseVertex(m, i)
  {
    vs := [];
    for i := 0 to |m.positions|
      invariant |vs| == i && forall k | 0 <= k < i :: vs[k] == BaseVertex(m, k)
    {
      var vertex := NewVertex();
      vertex := Reset(vertex);
      vertex := vertex.(position := m.positions[i]);
      if m.normals.Some? {
        vertex := vertex.(normal := m.normals.value[i]);
      }
      if m.texCoords.Some? {
        vertex := vertex.(texCoord := m.texCoords.value[i], tangent := m.tangents[i], bitangent := m.bitangents[i]);
      } else {
        vertex := vertex.(texCoord := Vec2(0.0, 0.0));
      }
      assert vertex.boneIds == [NoBone, NoBone, NoBone, NoBone] && vertex.weights == [0.0, 0.0, 0.0, 0.0];
      vs := vs + [vertex];
    }
  }

  /** The faces' indices one after another. */
  function Flatten(faces: seq<seq<nat>>): (r: seq<nat>)
  {
    if faces == [] then [] else Flatten(faces[..|faces| - 1]) + faces[|faces| - 1]
  }

  /** Where face k starts in the flattened list. */
  function FaceStart(faces: seq<seq<nat>>, k: nat): nat
    requires k <= |faces|
  {
    |Flatten(faces[..k])|
  }

  /** Face k's indices sit unchanged and contiguous at FaceStart(k). */
  lemma {:induction false} FlattenKeepsFaces(faces: seq<seq<nat>>, k: nat, j: nat)
    requires k < |faces| && j < |faces[k]|
    ensures FaceStart(faces, k) + j < |Flatten(faces)|
    ensures Flatten(faces)[FaceStart(faces, k) + j] == faces[k][j]
    decreases |faces|
  {
    var n := |faces| - 1;
    assert faces[..n + 1] == faces;
    if k < n {
      assert faces[..n][..k] == faces[..k];
      FlattenKeepsFaces(faces[..n], k, j);
    }
  }

  /** The face loop of ProcessMesh. */
  method FlattenFaces(faces: seq<seq<nat>>) returns (indices: seq<nat>)
    ensures indices == Flatten(faces)
  {
    indices := [];
    for i := 0 to |faces|
      invariant indices == Flatten(faces[..i])
    {
      assert faces[..i + 1][..i] == faces[..i];
      for j := 0 to |faces[i]|
        invariant indices == Flatten(faces[..i]) + faces[i][..j]
      {
        assert faces[i][..j + 1] == faces[i][..j] + [faces[i][j]];
        indices := indices + [faces[i][j]];
      }
    }
    assert faces[..|faces|] == faces;
  }

  // ------------------------------------------------------------- textures

  /** Where a material texture is read from: the scene itself, or the file
      of that name next to the model. */
  datatype TextureSource = Embedded(key: string) | File(path: string)

  function SourceOf(name: string, embedded: set<string>, directory: string): TextureSource
  {
    if name in embedded then Embedded(name) else File(directory + "/" + name)
  }

  /** LoadMaterialTextures's result: one texture per name, in order, tagged
      with the role; `load` stands for Texture2D::LoadData. */
  function TypedTextures(names: seq<string>, typeName: string, embedded: set<string>, directory: string,
                         load: TextureSource -> Name): (r: seq<MeshTexture>)
    ensures |r| == |names|
  {
    if names == [] then []
    else TypedTextures(names[..|names| - 1], typeName, embedded, directory, load)
         + [MeshTexture(typeName, load(SourceOf(names[|names| - 1], embedded, directory)))]
  }

  lemma {:induction false} TypedTexturesAt(names: seq<string>, typeName: string, embedded: set<string>, directory: string,
                                           load: TextureSource -> Name, k: nat)
    requires k < |names|
    ensures TypedTextures(names, typeName, embedded, directory, load)[k]
            == MeshTexture(typeName, load(SourceOf(names[k], embedded, directory)))
    decreases |names|
  {
    if k < |names| - 1 {
      TypedTexturesAt(names[..|names| - 1], typeName, embedded, directory, load, k);
    }
  }

  method LoadMaterialTextures(names: seq<string>, typeName: string, embedded: set<string>, directory: string,
                              load: TextureSource -> Name) returns (textures: seq<MeshTexture>)
    ensures textures == TypedTextures(names, typeName, embedded, directory, load)
  {
    textures := [];
    for i := 0 to |names|
      invariant textures == TypedTextures(names[..i], typeName, embedded, directory, load)
    {
      assert names[..i + 1][..i] == names[..i];
      var source := if names[i] in embedded then Embedded(names[i]) else File(directory + "/" + names[i]);
      textures := textures + [MeshTexture(typeName, load(source))];
    }
    assert names[..|names|] == names;
  }

  /** The four roles in ProcessMesh's order: diffuse, specular, the HEIGHT
      slot read as normal maps, the AMBIENT slot read as height maps. */
  function MaterialTextures(mat: AiMaterial, embedded: set<string>, directory: string, load: TextureSource -> Name): seq<MeshTexture>
  {
    TypedTextures(mat.diffuse, "DiffuseMap", embedded, directory, load)
    + TypedTextures(mat.specular, "SpecularMap", embedded, directory, load)
    + TypedTextures(mat.height, "NormalMap", embedded, directory, load)
    + TypedTextures(mat.ambient, "HeightMap", embedded, directory, load)
  }

  /** The roles come in blocks: all diffuse maps, then specular, normal and
      height maps, each block as long as its name list. */
  lemma MaterialTexturesBlocks(mat: AiMaterial, embedded: set<string>, directory: string, load: TextureSource -> Name)
    ensures var r := MaterialTextures(mat, embedded, directory, load);
            var a, b, c := |mat.diffuse|, |mat.specular|, |mat.height|;
            && |r| == a + b + c + |mat.ambient|
            && (forall k | 0 <= k < a :: r[k].textureType == "DiffuseMap")
            && (forall k | a <= k < a + b :: r[k].textureType == "SpecularMap")
            && (forall k | a + b <= k < a + b + c :: r[k].textureType == "NormalMap")
            && (forall k | a + b + c <= k < |r| :: r[k].textureType == "HeightMap")
  {
    var d := TypedTextures(mat.diffuse, "DiffuseMap", embedded, directory, load);
    var s := TypedTextures(mat.specular, "SpecularMap", embedded, directory, load);
    var n := TypedTextures(mat.height, "NormalMap", embedded, directory, load);
    var h := TypedTextures(mat.ambient, "HeightMap", embedded, directory, load);
    forall k | 0 <= k < |d| ensures d[k].textureType == "DiffuseMap" {
      TypedTexturesAt(mat.diffuse, "DiffuseMap", embedded, directory, load, k);
    }
    forall k | 0 <= k < |s| ensures s[k].textureType == "SpecularMap" {
      TypedTexturesAt(mat.specular, "SpecularMap", embedded, directory, load, k);
    }
    forall k | 0 <= k < |n| ensures n[k].textureType == "NormalMap" {
      TypedTexturesAt(mat.height, "NormalMap", embedded, directory, load, k);
    }
    forall k | 0 <= k < |h| ensures h[k].textureType == "HeightMap" {
      TypedTexturesAt(mat.ambient, "HeightMap", embedded, directory, load, k);
    }
  }

  // ---------------------------------------------------------- whole meshes

  /** What ProcessMesh hands to the Mesh constructor. */
  datatype MeshData = MeshData(vertices: seq<Vertex>, indices: seq<nat>, textures: seq<MeshTexture>)

  ghost function BaseVertexList(m: AiMesh): (r: seq<Vertex>)
    requires ValidArrays(m)
    ensures |r| == |m.positions|
  {
    seq(|m.positions|, i requires 0 <= i < |m.positions| => BaseVertex(m, i))
  }

  /** The mesh ProcessMesh builds from `m` with the bone table at `t`. */
  ghost function MeshDataFor(scene: AiScene, m: AiMesh, t: BoneTable, directory: string, load: TextureSource -> Name): MeshData
    requires ValidMesh(m, |scene.materials|)
  {
    MeshData(VerticesAfter(BaseVertexList(m), t, m.bones), Flatten(m.faces),
             MaterialTextures(scene.materials[m.materialIndex], scene.embedded, directory, load))
  }

  predicate Matches(mesh: Mesh, d: MeshData)
  {
    mesh.vertices == d.vertices && mesh.indices == d.indices && mesh.textures == d.textures
  }

  /** Every reference names a scene mesh. */
  predicate RefsIn(ids: seq<nat>, meshCount: nat)
  {
    forall k | 0 <= k < |ids| :: ids[k] < meshCount
  }

  /** The bone table after a run of meshes, in order. */
  function TableAfterMeshes(scene: AiScene, t: BoneTable, ids: seq<nat>): BoneTable
    requires RefsIn(ids, |scene.meshes|)
  {
    if ids == [] then t
    else TableAfter(TableAfterMeshes(scene, t, ids[..|ids| - 1]), scene.meshes[ids[|ids| - 1]].bones)
  }

  lemma {:induction false} TableAfterMeshesAppend(scene: AiScene, t: BoneTable, a: seq<nat>, b: seq<nat>)
    requires RefsIn(a, |scene.meshes|) && RefsIn(b, |scene.meshes|)
    ensures RefsIn(a + b, |scene.meshes|)
    ensures TableAfterMeshes(scene, t, a + b) == TableAfterMeshes(scene, TableAfterMeshes(scene, t, a), b)
    decreases |b|
  {
    if b == [] {
      assert a + b == a;
    } else {
      assert (a + b)[..|a + b| - 1] == a + b[..|b| - 1];
      TableAfterMeshesAppend(scene, t, a, b[..|b| - 1]);
    }
  }

  /** One call of ProcessMesh: which scene mesh, with the bone table as
      it stands when that mesh is reached. */
  datatype Job = Job(mesh: nat, table: BoneTable)

  predicate JobsIn(jobs: seq<Job>, meshCount: nat)
  {
    forall k | 0 <= k < |jobs| :: jobs[k].mesh < meshCount
  }

  /** The ProcessMesh calls a run of scene meshes makes, in order, the bone
      table threaded through from `t`. */
  function Jobs(scene: AiScene, ids: seq<nat>, t: BoneTable): (r: seq<Job>)
    requires RefsIn(ids, |scene.meshes|)
    ensures |r| == |ids| && JobsIn(r, |scene.meshes|)
  {
    if ids == [] then []
    else
      var init := ids[..|ids| - 1];
      Jobs(scene, init, t) + [Job(ids[|ids| - 1], TableAfterMeshes(scene, t, init))]
  }

  /** Call k processes scene mesh ids[k] with the table the meshes before
      it left behind. */
  lemma {:induction false} JobsAt(scene: AiScene, ids: seq<nat>, t: BoneTable, k: nat)
    requires RefsIn(ids, |scene.meshes|) && k < |ids|
    ensures Jobs(scene, ids, t)[k] == Job(ids[k], TableAfterMeshes(scene, t, ids[..k]))
    decreases |ids|
  {
    var init := ids[..|ids| - 1];
    if k < |init| {
      assert init[..k] == ids[..k];
      JobsAt(scene, init, t, k);
    }
  }

  lemma {:induction false} JobsAppend(scene: AiScene, a: seq<nat>, b: seq<nat>, t: BoneTable)
    requires RefsIn(a, |scene.meshes|) && RefsIn(b, |scene.meshes|)
    ensures RefsIn(a + b, |scene.meshes|)
    ensures Jobs(scene, a + b, t) == Jobs(scene, a, t) + Jobs(scene, b, TableAfterMeshes(scene, t, a))
    decreases |b|
  {
    if b == [] {
      assert a + b == a;
    } else {
      var init := b[..|b| - 1];
      assert (a + b)[..|a + b| - 1] == a + init;
      JobsAppend(scene, a, init, t);
      TableAfterMeshesAppend(scene, t, a, init);
    }
  }

  /** The node's mesh references in the order ProcessNode visits them: its
      own first, then each child's subtree, left to right. */
  function PreOrder(node: AiNode): seq<nat>
    decreases node, 1
  {
    node.meshes + ChildrenOrder(node.children, |node.children|)
  }

  function ChildrenOrder(children: seq<AiNode>, n: nat): seq<nat>
    requires n <= |children|
    decreases children, 0, n
  {
    if n == 0 then [] else ChildrenOrder(children, n - 1) + PreOrder(children[n - 1])
  }

  /** Every reference of a well-formed tree names a scene mesh. */
  lemma {:induction false} PreOrderRefs(node: AiNode, meshCount: nat)
    requires NodeRefsOk(node, meshCount)
    ensures RefsIn(PreOrder(node), meshCount)
    decreases node, 1
  {
    ChildrenOrderRefs(node.children, |node.children|, meshCount);
  }

  lemma {:induction false} ChildrenOrderRefs(children: seq<AiNode>, n: nat, meshCount: nat)
    requires n <= |children| && forall c | 0 <= c < |children| :: NodeRefsOk(children[c], meshCount)
    ensures RefsIn(ChildrenOrder(children, n), meshCount)
    decreases children, 0, n
  {
    if n > 0 {
      ChildrenOrderRefs(children, n - 1, meshCount);
      PreOrderRefs(children[n - 1], meshCount);
    }
  }

  /** Mesh objects `ms` are what the calls `jobs` build, one for one. */
  ghost predicate Built(ms: seq<Mesh>, scene: AiScene, jobs: seq<Job>, directory: string, load: TextureSource -> Name)
    requires ValidScene(scene) && JobsIn(jobs, |scene.meshes|)
  {
    && |ms| == |jobs|
    && forall k | 0 <= k < |ms| ::
         Matches(ms[k], MeshDataFor(scene, scene.meshes[jobs[k].mesh], jobs[k].table, directory, load))
  }

  /** Growing the mesh list: what was built before stays, and the appended
      meshes extend it. */
  lemma Extend(before: seq<Mesh>, after: seq<Mesh>, base: nat, scene: AiScene, d1: seq<Job>, d2: seq<Job>,
               directory: string, load: TextureSource -> Name)
    requires ValidScene(scene) && JobsIn(d1, |scene.meshes|) && JobsIn(d2, |scene.meshes|)
    requires base <= |before| <= |after| && after[..|before|] == before
    requires Built(before[base..], scene, d1, directory, load) && Built(after[|before|..], scene, d2, directory, load)
    ensures after[..base] == before[..base]
    ensures JobsIn(d1 + d2, |scene.meshes|)
    ensures Built(after[base..], scene, d1 + d2, directory, load)
  {
    assert after[base..] == before[base..] + after[|before|..];
  }

  /** One mesh further along a run: the table and the calls both grow
      by that mesh. */
  lemma MeshStep(scene: AiScene, ids: seq<nat>, i: nat, t: BoneTable)
    requires RefsIn(ids, |scene.meshes|) && i < |ids|
    ensures RefsIn(ids[..i], |scene.meshes|) && RefsIn(ids[..i + 1], |scene.meshes|)
    ensures TableAfterMeshes(scene, t, ids[..i + 1])
            == TableAfter(TableAfterMeshes(scene, t, ids[..i]), scene.meshes[ids[i]].bones)
    ensures Jobs(scene, ids[..i + 1], t) == Jobs(scene, ids[..i], t) + [Job(ids[i], TableAfterMeshes(scene, t, ids[..i]))]
  {
    assert ids[..i + 1][..i] == ids[..i];
  }

  /** Two runs one after the other: the meshes built for the second,
      appended after those of the first, are the meshes built for both. */
  lemma AppendRun(before: seq<Mesh>, after: seq<Mesh>, base: nat, scene: AiScene, a: seq<nat>, b: seq<nat>, t: BoneTable,
                  directory: string, load: TextureSource -> Name)
    requires ValidScene(scene) && RefsIn(a, |scene.meshes|) && RefsIn(b, |scene.meshes|)
    requires base <= |before| <= |after| && after[..|before|] == before
    requires Built(before[base..], scene, Jobs(scene, a, t), directory, load)
    requires Built(after[|before|..], scene, Jobs(scene, b, TableAfterMeshes(scene, t, a)), directory, load)
    ensures after[..base] == before[..base] && RefsIn(a + b, |scene.meshes|)
    ensures Built(after[base..], scene, Jobs(scene, a + b, t), directory, load)
    ensures TableAfterMeshes(scene, t, a + b) == TableAfterMeshes(scene, TableAfterMeshes(scene, t, a), b)
  {
    Extend(before, after, base, scene, Jobs(scene, a, t), Jobs(scene, b, TableAfterMeshes(scene, t, a)), directory, load);
    JobsAppend(scene, a, b, t);
    TableAfterMeshesAppend(scene, t, a, b);
  }

  // ---------------------------------------------------------------- Model

  const AssimpErrorPrefix := "ERROR::ASSIMP:: "

  /** The scene LoadModel accepts: present, complete, with a root. */
  predicate Loaded(scene: Option<AiScene>)
  {
    scene.Some? && !scene.value.incomplete && scene.value.root.Some?
  }

  class Model {
    var boneInfoMap: map<string, BoneInfo>
    var boneCounter: nat
    var meshes: seq<Mesh>
    var directory: string
    var filePath: string
    var materialIndex: nat

    function Table(): BoneTable
      reads this
    {
      BoneTable(boneInfoMap, boneCounter)
    }

    /** Model(path): the path stored, then LoadModel. */
    constructor (dev: Device, path: string, scene: Option<AiScene>, errorString: string, load: TextureSource -> Name)
      requires scene.Some? ==> ValidScene(scene.value)
      modifies dev
      ensures filePath == path && materialIndex == 0
      ensures Loaded(scene) ==> directory == BeforeLast(path, '/') && dev.trace == old(dev.trace)
      ensures Loaded(scene) ==> RefsIn(PreOrder(scene.value.root.value), |scene.value.meshes|)
      ensures Loaded(scene) ==> Built(meshes, scene.value, Jobs(scene.value, PreOrder(scene.value.root.value), EmptyTable), directory, load)
      ensures !Loaded(scene) ==> meshes == [] && Table() == EmptyTable
                                 && dev.trace == old(dev.trace) + [LogError(AssimpErrorPrefix + errorString)]
    {
      boneInfoMap := map[];
      boneCounter := 0;
      meshes := [];
      directory := "";
      filePath := path;
      materialIndex := 0;
      new;
      var _ := LoadModel(dev, scene, errorString, load);
    }

    /** SetMaterialIndex: the material index replaced, nothing else touched. */
    method SetMaterialIndex(index: nat)
      modifies this
      ensures materialIndex == index
      ensures Table() == old(Table()) && meshes == old(meshes)
      ensures directory == old(directory) && filePath == old(filePath)
    {
      materialIndex := index;
    }

    /** LoadModel: clear the meshes; refuse a missing, incomplete or rootless
        scene with a logged error; otherwise remember the directory and
        import the tree. */
    method LoadModel(dev: Device, scene: Option<AiScene>, errorString: string, load: TextureSource -> Name) returns (ok: bool)
      requires scene.Some? ==> ValidScene(scene.value)
      modifies this, dev
      ensures ok <==> Loaded(scene)
      ensures filePath == old(filePath) && materialIndex == old(materialIndex)
      ensures !ok ==> meshes == [] && Table() == old(Table()) && directory == old(directory)
                      && dev.trace == old(dev.trace) + [LogError(AssimpErrorPrefix + errorString)]
      ensures ok ==> directory == BeforeLast(filePath, '/') && dev.trace == old(dev.trace)
      ensures ok ==> RefsIn(PreOrder(scene.value.root.value), |scene.value.meshes|)
      ensures ok ==> Built(meshes, scene.value, Jobs(scene.value, PreOrder(scene.value.root.value), old(Table())), directory, load)
      ensures ok ==> Table() == TableAfterMeshes(scene.value, old(Table()), PreOrder(scene.value.root.value))
    {
      meshes := [];
      if !Loaded(scene) {
        dev.Emit([LogError(AssimpErrorPrefix + errorString)]);
        return false;
      }
      directory := BeforeLast(filePath, '/');
      var root := scene.value.root.value;
      ProcessNode(dev, scene.value, root, load);
      assert meshes[0..] == meshes;
      ok := true;
    }

    /** ProcessNode: the node's meshes in listed order, then each child. */
    method ProcessNode(dev: Device, scene: AiScene, node: AiNode, load: TextureSource -> Name)
      requires ValidScene(scene) && NodeRefsOk(node, |scene.meshes|)
      modifies this, dev
      decreases node, 1
      ensures RefsIn(PreOrder(node), |scene.meshes|)
      ensures |meshes| >= |old(meshes)| && meshes[..|old(meshes)|] == old(meshes)
      ensures Built(meshes[|old(meshes)|..], scene, Jobs(scene, PreOrder(node), old(Table())), directory, load)
      ensures Table() == TableAfterMeshes(scene, old(Table()), PreOrder(node))
      ensures directory == old(directory) && filePath == old(filePath) && materialIndex == old(materialIndex)
      ensures dev.trace == old(dev.trace)
    {
      var base := |meshes|;
      ghost var t0 := Table();
      ProcessMeshes(dev, scene, node.meshes, load);
      ghost var before := meshes;
      ProcessChildren(dev, scene, node, load);
      AppendRun(before, meshes, base, scene, node.meshes, ChildrenOrder(node.children, |node.children|), t0, directory, load);
    }

    /** The child loop of ProcessNode: each child processed in turn. */
    method ProcessChildren(dev: Device, scene: AiScene, node: AiNode, load: TextureSource -> Name)
      requires ValidScene(scene) && NodeRefsOk(node, |scene.meshes|)
      modifies this, dev
      decreases node, 0
      ensures RefsIn(ChildrenOrder(node.children, |node.children|), |scene.meshes|)
      ensures |meshes| >= |old(meshes)| && meshes[..|old(meshes)|] == old(meshes)
      ensures Built(meshes[|old(meshes)|..], scene, Jobs(scene, ChildrenOrder(node.children, |node.children|), old(Table())), directory, load)
      ensures Table() == TableAfterMeshes(scene, old(Table()), ChildrenOrder(node.children, |node.children|))
      ensures directory == old(directory) && filePath == old(filePath) && materialIndex == old(materialIndex)
      ensures dev.trace == old(dev.trace)
    {
      var base := |meshes|;
      ghost var t0 := Table();
      assert meshes[base..] == [];
      for c := 0 to |node.children|
        invariant |meshes| >= base && meshes[..base] == old(meshes)
        invariant RefsIn(ChildrenOrder(node.children, c), |scene.meshes|)
        invariant Built(meshes[base..], scene, Jobs(scene, ChildrenOrder(node.children, c), t0), directory, load)
        invariant Table() == TableAfterMeshes(scene, t0, ChildrenOrder(node.children, c))
        invariant directory == old(directory) && filePath == old(filePath) && materialIndex == old(materialIndex)
        invariant dev.trace == old(dev.trace)
      {
        ghost var before := meshes;
        ProcessNode(dev, scene, node.children[c], load);
        AppendRun(before, meshes, base, scene, ChildrenOrder(node.children, c), PreOrder(node.children[c]), t0, directory, load);
      }
    }

    /** The mesh loop of ProcessNode: each listed scene mesh processed and
        appended, in order. */
    method ProcessMeshes(dev: Device, scene: AiScene, ids: seq<nat>, load: TextureSource -> Name)
      requires ValidScene(scene) && RefsIn(ids, |scene.meshes|)
      modifies this, dev
      ensures |meshes| == |old(meshes)| + |ids| && meshes[..|old(meshes)|] == old(meshes)
      ensures Built(meshes[|old(meshes)|..], scene, Jobs(scene, ids, old(Table())), directory, load)
      ensures Table() == TableAfterMeshes(scene, old(Table()), ids)
      ensures directory == old(directory) && filePath == old(filePath) && materialIndex == old(materialIndex)
      ensures dev.trace == old(dev.trace)
    {
      var base := |meshes|;
      ghost var t0 := Table();
      for i := 0 to |ids|
        invariant |meshes| == base + i && meshes[..base] == old(meshes)
        invariant Built(meshes[base..], scene, Jobs(scene, ids[..i], t0), directory, load)
        invariant Table() == TableAfterMeshes(scene, t0, ids[..i])
        invariant directory == old(directory) && filePath == old(filePath) && materialIndex == old(materialIndex)
        invariant dev.trace == old(dev.trace)
      {
        ghost var before := meshes;
        MeshStep(scene, ids, i, t0);
        var mesh := ProcessMesh(dev, scene, scene.meshes[ids[i]], ids[i], load);
        meshes := meshes + [mesh];
        Extend(before, meshes, base, scene, Jobs(scene, ids[..i], t0), [Job(ids[i], TableAfterMeshes(scene, t0, ids[..i]))],
               directory, load);
      }
      assert ids[..|ids|] == ids;
    }

    /** ProcessMesh: vertices, bone weights, indices, then the material's
        textures, handed to a new Mesh. */
    method ProcessMesh(dev: Device, scene: AiScene, m: AiMesh, ghost id: nat, load: TextureSource -> Name)
      returns (mesh: Mesh)
      requires ValidScene(scene) && id < |scene.meshes| && m == scene.meshes[id]
      modifies this, dev
      ensures fresh(mesh)
      ensures Built([mesh], scene, [Job(id, old(Table()))], directory, load)
      ensures Table() == TableAfter(old(Table()), m.bones)
      ensures meshes == old(meshes) && directory == old(directory) && filePath == old(filePath)
      ensures materialIndex == old(materialIndex) && dev.trace == old(dev.trace)
    {
      var vertices := BaseVertices(m);
      assert vertices == BaseVertexList(m);
      vertices := ProcessBoneWeight(vertices, m.bones);
      var indices := FlattenFaces(m.faces);
      var material := scene.materials[m.materialIndex];
      var diffuse := LoadMaterialTextures(material.diffuse, "DiffuseMap", scene.embedded, directory, load);
      var specular := LoadMaterialTextures(material.specular, "SpecularMap", scene.embedded, directory, load);
      var normal := LoadMaterialTextures(material.height, "NormalMap", scene.embedded, directory, load);
      var height := LoadMaterialTextures(material.ambient, "HeightMap", scene.embedded, directory, load);
      mesh := new Mesh(dev, vertices, indices, diffuse + specular + normal + height);
      assert Matches(mesh, MeshDataFor(scene, m, old(Table()), directory, load));
    }

    /** ProcessBoneWeight: each bone resolved against the table (added if
        new), then each of its weights written into its vertex. */
    method ProcessBoneWeight(vertices: seq<Vertex>, bones: seq<AiBone>) returns (r: seq<Vertex>)
      requires BonesFit(bones, |vertices|)
      modifies this
      ensures Table() == TableAfter(old(Table()), bones)
      ensures r == VerticesAfter(vertices, old(Table()), bones)
      ensures meshes == old(meshes) && directory == old(directory) && filePath == old(filePath)
      ensures materialIndex == old(materialIndex)
    {
      r := vertices;
      for b := 0 to |bones|
        invariant BonesFit(bones[..b], |vertices|) && |r| == |vertices|
        invariant Table() == TableAfter(old(Table()), bones[..b])
        invariant r == VerticesAfter(vertices, old(Table()), bones[..b])
        invariant meshes == old(meshes) && directory == old(directory) && filePath == old(filePath)
        invariant materialIndex == old(materialIndex)
      {
        assert bones[..b + 1][..b] == bones[..b];
        var name := bones[b].name;
        var boneId := 0;
        if name !in boneInfoMap {
          boneInfoMap := boneInfoMap[name := BoneInfo(boneCounter, ConvertMatrix(bones[b].offset))];
          boneId := boneCounter;
          boneCounter := boneCounter + 1;
        } else {
          boneId := boneInfoMap[name].id;
        }
        r := ApplyBoneWeights(r, boneId, bones[b].weights);
      }
      assert bones[..|bones|] == bones;
    }
  }

  /** Importing into an empty table numbers the bones 0, 1, 2, ... with one
      id per name: the table stays valid whatever the scene. */
  lemma {:induction false} ImportKeepsTable(scene: AiScene, t: BoneTable, ids: seq<nat>)
    requires ValidTable(t) && RefsIn(ids, |scene.meshes|)
    ensures ValidTable(TableAfterMeshes(scene, t, ids))
    ensures forall n | n in t.info :: n in TableAfterMeshes(scene, t, ids).info
                                      && TableAfterMeshes(scene, t, ids).info[n] == t.info[n]
  {
    if ids != [] {
      var init := ids[..|ids| - 1];
      ImportKeepsTable(scene, t, init);
      TableAfterKeepsTable(TableAfterMeshes(scene, t, init), scene.meshes[ids[|ids| - 1]].bones);
    }
  }
}
