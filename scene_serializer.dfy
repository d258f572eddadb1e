// Scene files: the YAML document SceneSerializer writes for a scene and the
// way Deserialize rebuilds a scene from one. The YAML text layer (the
// emitter's layout and the parser) is not modelled: a document is the tree
// of nodes the text stands for.
module SceneSerialization {
  import opened Wrappers
  import opened LinearAlgebra
  import opened Entities
  import Strings
  import Meshes

  // ------------------------------------------------------------ YAML nodes

  /** A YAML node: null, a text scalar, a scalar written from a float, a
      sequence, or a mapping from keys to nodes in document order. */
  datatype Node =
    | Null
    | Scalar(text: string)
    | Float(value: real)
    | Sequence(items: seq<Node>)
    | Mapping(entries: seq<(string, Node)>)

  /** The yaml-cpp exceptions the reader can meet: a file that cannot be
      opened, a subscript on a scalar, an invalid node (iterating a
      non-empty mapping as entities), a conversion the node does not
      support. */
  datatype YamlError = BadFile | BadSubscript | InvalidNode | BadConversion

  /** What `node[key]` gives: no such entry, the entry's node, or the
      exception a scalar throws. */
  datatype Lookup = Missing | Found(node: Node) | Failed

  /** The first entry under `key`. */
  function Find(entries: seq<(string, Node)>, key: string): (r: Lookup)
    ensures !r.Failed?
    ensures r.Missing? <==> forall i | 0 <= i < |entries| :: entries[i].0 != key
    ensures r.Found? ==> exists i | 0 <= i < |entries| :: entries[i] == (key, r.node)
                                                    && forall j | 0 <= j < i :: entries[j].0 != key
    decreases |entries|
  {
    if entries == [] then Missing
    else if entries[0].0 == key then Found(entries[0].1)
    else
      var r := Find(entries[1..], key);
      assert forall i | 1 <= i < |entries| :: entries[i] == entries[1..][i - 1];
      if r.Found? then
        var k :| 0 <= k < |entries[1..]| && entries[1..][k] == (key, r.node) && forall j | 0 <= j < k :: entries[1..][j].0 != key;
        assert entries[k + 1] == (key, r.node);
        r
      else r
  }

  /** `node[key]` on a non-const node: a mapping is searched; a null node or
      a sequence has no such entry; a scalar throws. */
  function Get(n: Node, key: string): (r: Lookup)
    ensures r.Failed? <==> n.Scalar? || n.Float?
    ensures n.Mapping? ==> r == Find(n.entries, key)
    ensures n.Null? || n.Sequence? ==> r.Missing?
  {
    match n
    case Scalar(_) => Failed
    case Float(_) => Failed
    case Mapping(entries) => Find(entries, key)
    case _ => Missing
  }

  /** Looking a key up in entries that do not hold it, followed by more. */
  lemma {:induction false} FindPast(a: seq<(string, Node)>, b: seq<(string, Node)>, key: string)
    requires forall i | 0 <= i < |a| :: a[i].0 != key
    ensures Find(a + b, key) == Find(b, key)
    decreases |a|
  {
    if a == [] {
      assert a + b == b;
    } else {
      assert (a + b)[1..] == a[1..] + b;
      FindPast(a[1..], b, key);
    }
  }

  // ------------------------------------------------------------ conversions

  const UInt32Limit: nat := 0x1_0000_0000
  const UInt64Limit: nat := 0x1_0000_0000_0000_0000

  /** The exception converting an entry that is not there throws: the
      subscript's own on a scalar; otherwise the non-const subscript has
      made an undefined node, which no conversion accepts. */
  function LookupError(l: Lookup): YamlError
    requires !l.Found?
  {
    if l.Failed? then BadSubscript else BadConversion
  }

  /** `as<std::string>()`: the text of a text scalar, "null" for a null node. */
  function AsString(l: Lookup): (r: Result<string, YamlError>)
    ensures r.Success? <==> l.Found? && (l.node.Scalar? || l.node.Null?)
    ensures r.Success? && l.node.Scalar? ==> r.value == l.node.text
    ensures r.Success? && l.node.Null? ==> r.value == "null"
    ensures l.Missing? ==> r == Failure(BadConversion)
    ensures l.Failed? ==> r == Failure(BadSubscript)
  {
    if !l.Found? then Failure(LookupError(l))
    else if l.node.Scalar? then Success(l.node.text)
    else if l.node.Null? then Success("null")
    else Failure(BadConversion)
  }

  /** `as<float>()` on a sequence element. */
  function AsFloat(n: Node): (r: Result<real, YamlError>)
    ensures r.Success? <==> n.Float?
    ensures r.Success? ==> r.value == n.value
  {
    if n.Float? then Success(n.value) else Failure(BadConversion)
  }

  /** `as<uint32_t>()` and `as<uint64_t>()`: a scalar the stream extracts
      an unsigned number from, below the type's limit (a larger one sets
      the stream's fail bit). */
  function AsUnsigned(l: Lookup, limit: nat): (r: Result<nat, YamlError>)
    ensures r.Success? <==> l.Found? && l.node.Scalar? && Strings.StreamUnsigned(l.node.text).Some?
                             && Strings.StreamUnsigned(l.node.text).value < limit
    ensures r.Success? ==> Strings.StreamUnsigned(l.node.text) == Some(r.value) && r.value < limit
    ensures l.Missing? ==> r == Failure(BadConversion)
    ensures l.Failed? ==> r == Failure(BadSubscript)
  {
    if !l.Found? then Failure(LookupError(l))
    else if !l.node.Scalar? then Failure(BadConversion)
    else
      match Strings.StreamUnsigned(l.node.text)
      case Some(v) => if v < limit then Success(v) else Failure(BadConversion)
      case None => Failure(BadConversion)
  }

  /** The number std::to_string wrote reads back, below the limit. */
  lemma AsUnsignedReadsDecimal(n: nat, limit: nat)
    requires n < limit
    ensures AsUnsigned(Found(Scalar(Strings.NatToString(n))), limit) == Success(n)
  {
    Strings.NatToStringExtracts(n);
  }

  // ------------------------------------------------------------ vectors

  /** What a `convert<glm::vecN>::decode` call ends in: the vector, `false`
      (the node is not a sequence of exactly N items), or the exception an
      element's float conversion throws. */
  datatype Decoded<T> = Decoded(value: T) | Refused | Threw(error: YamlError)

  /** encode(vec2) and the emitter's vec2 output: x then y. */
  function EncodeVec2(v: Vec2): (n: Node)
    ensures n.Sequence? && |n.items| == 2
  {
    Sequence([Float(v.x), Float(v.y)])
  }

  function EncodeVec3(v: Vec3): (n: Node)
    ensures n.Sequence? && |n.items| == 3
  {
    Sequence([Float(v.x), Float(v.y), Float(v.z)])
  }

  function EncodeVec4(v: Vec4): (n: Node)
    ensures n.Sequence? && |n.items| == 4
  {
    Sequence([Float(v.x), Float(v.y), Float(v.z), Float(v.w)])
  }

  /** decode(vec2): refused unless a sequence of exactly two items; the
      items are then read by position. */
  function DecodeVec2(n: Node): (r: Decoded<Vec2>)
    ensures r.Refused? <==> !(n.Sequence? && |n.items| == 2)
    ensures r.Decoded? <==> n.Sequence? && |n.items| == 2 && n.items[0].Float? && n.items[1].Float?
    ensures r.Decoded? ==> r.value == Vec2(n.items[0].value, n.items[1].value)
  {
    if !n.Sequence? || |n.items| != 2 then Refused
    else
      match (AsFloat(n.items[0]), AsFloat(n.items[1]))
      case (Success(x), Success(y)) => Decoded(Vec2(x, y))
      case (Failure(e), _) => Threw(e)
      case (_, Failure(e)) => Threw(e)
  }

  function DecodeVec3(n: Node): (r: Decoded<Vec3>)
    ensures r.Refused? <==> !(n.Sequence? && |n.items| == 3)
    ensures r.Decoded? <==> n.Sequence? && |n.items| == 3 && n.items[0].Float? && n.items[1].Float? && n.items[2].Float?
    ensures r.Decoded? ==> r.value == Vec3(n.items[0].value, n.items[1].value, n.items[2].value)
  {
    if !n.Sequence? || |n.items| != 3 then Refused
    else
      match (AsFloat(n.items[0]), AsFloat(n.items[1]), AsFloat(n.items[2]))
      case (Success(x), Success(y), Success(z)) => Decoded(Vec3(x, y, z))
      case (Failure(e), _, _) => Threw(e)
      case (_, Failure(e), _) => Threw(e)
      case (_, _, Failure(e)) => Threw(e)
  }

  function DecodeVec4(n: Node): (r: Decoded<Vec4>)
    ensures r.Refused? <==> !(n.Sequence? && |n.items| == 4)
    ensures r.Decoded? <==> n.Sequence? && |n.items| == 4 && n.items[0].Float? && n.items[1].Float?
                            && n.items[2].Float? && n.items[3].Float?
    ensures r.Decoded? ==> r.value == Vec4(n.items[0].value, n.items[1].value, n.items[2].value, n.items[3].value)
  {
    if !n.Sequence? || |n.items| != 4 then Refused
    else
      match (AsFloat(n.items[0]), AsFloat(n.items[1]), AsFloat(n.items[2]), AsFloat(n.items[3]))
      case (Success(x), Success(y), Success(z), Success(w)) => Decoded(Vec4(x, y, z, w))
      case (Failure(e), _, _, _) => Threw(e)
      case (_, Failure(e), _, _) => Threw(e)
      case (_, _, Failure(e), _) => Threw(e)
      case (_, _, _, Failure(e)) => Threw(e)
  }

  /** Decoding an encoded vector gives it back, for every arity. */
  lemma VectorRoundTrips(a: Vec2, b: Vec3, c: Vec4)
    ensures DecodeVec2(EncodeVec2(a)) == Decoded(a)
    ensures DecodeVec3(EncodeVec3(b)) == Decoded(b)
    ensures DecodeVec4(EncodeVec4(c)) == Decoded(c)
  {
  }

  /** An encoded vector is refused by the decoder of every other arity. */
  lemma VectorArityChecked(a: Vec2, b: Vec3, c: Vec4)
    ensures DecodeVec3(EncodeVec2(a)).Refused? && DecodeVec4(EncodeVec2(a)).Refused?
    ensures DecodeVec2(EncodeVec3(b)).Refused? && DecodeVec4(EncodeVec3(b)).Refused?
    ensures DecodeVec2(EncodeVec4(c)).Refused? && DecodeVec3(EncodeVec4(c)).Refused?
  {
  }

  /** `as<glm::vec3>()`: a missing entry or a refused decode throws. */
  function AsVec3(l: Lookup): (r: Result<Vec3, YamlError>)
    ensures r.Success? <==> l.Found? && DecodeVec3(l.node).Decoded?
    ensures r.Success? ==> r.value == DecodeVec3(l.node).value
    ensures l.Found? && DecodeVec3(l.node).Refused? ==> r == Failure(BadConversion)
  {
    if !l.Found? then Failure(LookupError(l))
    else
      match DecodeVec3(l.node)
      case Decoded(v) => Success(v)
      case Refused => Failure(BadConversion)
      case Threw(e) => Failure(e)
  }

  // ------------------------------------------------------------ writing

  /** The value SerializeEntity writes under "Entity" for every entity. */
  const EntityKey := "1270230219381"

  /** entt::null for the registry's 32-bit entity handles. */
  const NullHandle: nat := 0xFFFF_FFFF

  function TagEntries(e: Entity): seq<(string, Node)>
  {
    if e.tag.Some? then [("TagComponent", Mapping([("Tag", Scalar(e.tag.value))]))] else []
  }

  function TransformNode(t: Transform): Node
  {
    Mapping([("Translation", EncodeVec3(t.translation)), ("Rotation", EncodeVec3(t.rotation)), ("Scale", EncodeVec3(t.scale))])
  }

  function TransformEntries(e: Entity): seq<(string, Node)>
  {
    if e.transform.Some? then [("TransformComponent", TransformNode(e.transform.value))] else []
  }

  function MeshRendererNode(m: MeshRenderer): Node
  {
    Mapping([("Filepath", Scalar(m.filePath)), ("MaterialIndex", Scalar(Strings.NatToString(m.materialIndex)))])
  }

  function MeshEntries(e: Entity): seq<(string, Node)>
  {
    if e.renderer.Some? then [("MeshRendererComponent", MeshRendererNode(e.renderer.value))] else []
  }

  /** SerializeEntity: the fixed Entity key, then a section for each of the
      tag, transform and mesh renderer the entity has, in that order. */
  function EntityNode(e: Entity): (n: Node)
    ensures n.Mapping? && 1 <= |n.entries| <= 4 && n.entries[0] == ("Entity", Scalar(EntityKey))
  {
    Mapping([("Entity", Scalar(EntityKey))] + TagEntries(e) + TransformEntries(e) + MeshEntries(e))
  }

  /** The entities Serialize visits: those whose handle is not null, in
      registry order. */
  function Live(es: seq<Entity>): (r: seq<Entity>)
    ensures |r| <= |es|
    ensures forall e | e in r :: e in es && e.id != NullHandle
    ensures forall e | e in es && e.id != NullHandle :: e in r
    decreases |es|
  {
    if es == [] then []
    else
      var last := es[|es| - 1];
      assert es == es[..|es| - 1] + [last];
      Live(es[..|es| - 1]) + (if last.id != NullHandle then [last] else [])
  }

  function EntityNodes(es: seq<Entity>): (r: seq<Node>)
    ensures |r| == |es|
  {
    seq(|es|, i requires 0 <= i < |es| => EntityNode(es[i]))
  }

  /** One more entity of the registry visited: its node is added when its
      handle is live. */
  lemma LiveNodesStep(es: seq<Entity>, i: nat)
    requires i < |es|
    ensures EntityNodes(Live(es[..i + 1]))
            == EntityNodes(Live(es[..i])) + (if es[i].id != NullHandle then [EntityNode(es[i])] else [])
  {
    assert es[..i + 1] == es[..i] + [es[i]];
    assert es[..i + 1][..i] == es[..i];
    var before := Live(es[..i]);
    if es[i].id != NullHandle {
      assert Live(es[..i + 1]) == before + [es[i]];
      assert EntityNodes(before + [es[i]]) == EntityNodes(before) + [EntityNode(es[i])];
    } else {
      assert Live(es[..i + 1]) == before;
    }
  }

  /** Serialize's document: the scene name "Untitled" and the sequence of
      live entities. */
  function SceneDocument(es: seq<Entity>): Node
  {
    Mapping([("Scene", Scalar("Untitled")), ("Entities", Sequence(EntityNodes(Live(es))))])
  }

  // ------------------------------------------------------------ reading

  /** A scene's new entity: the given tag, a transform at the origin with no
      rotation and unit scale, no mesh renderer. */
  function NewEntity(id: nat, name: string): Entity
  {
    Entity(id, Some(name), Some(DefaultTransform()), None)
  }

  function DefaultTransform(): Transform
  {
    Transform(Vec3(0.0, 0.0, 0.0), Vec3(0.0, 0.0, 0.0), Vec3(1.0, 1.0, 1.0))
  }

  /** A value built up field by field, with the exception that stopped it,
      if any. */
  datatype Partial<T> = Partial(value: T, error: Option<YamlError>)

  /** The transform section: translation, rotation and scale, each read and
      then stored; an exception leaves the fields stored so far. */
  function ReadTransform(n: Node, t: Transform): Partial<Transform>
  {
    match AsVec3(Get(n, "Translation"))
    case Failure(e) => Partial(t, Some(e))
    case Success(translation) =>
      var t1 := t.(translation := translation);
      match AsVec3(Get(n, "Rotation"))
      case Failure(e) => Partial(t1, Some(e))
      case Success(rotation) =>
        var t2 := t1.(rotation := rotation);
        match AsVec3(Get(n, "Scale"))
        case Failure(e) => Partial(t2, Some(e))
        case Success(scale) => Partial(t2.(scale := scale), None)
  }

  /** The mesh renderer section: a default component added, its path read
      and stored, its material index read and stored, the model loaded. */
  function ReadMeshRenderer(n: Node, load: string -> seq<Meshes.Mesh>): Partial<MeshRenderer>
  {
    var m0 := MeshRenderer("", 0, []);
    match AsString(Get(n, "Filepath"))
    case Failure(e) => Partial(m0, Some(e))
    case Success(path) =>
      var m1 := m0.(filePath := path);
      match AsUnsigned(Get(n, "MaterialIndex"), UInt32Limit)
      case Failure(e) => Partial(m1, Some(e))
      case Success(index) => Partial(m1.(materialIndex := index, meshes := load(path)), None)
  }

  /** One entity's reading: the entity it adds to the scene, in the state
      reached, and the exception that stopped it, if any. */
  datatype EntityRead = EntityRead(created: Option<Entity>, error: Option<YamlError>)

  /** The tag an entity node names: its tag section's text, or empty. */
  function ReadName(n: Node): Result<string, YamlError>
  {
    var tag := Get(n, "TagComponent");
    if tag.Found? then AsString(Get(tag.node, "Tag")) else Success("")
  }

  /** Deserialize's loop body: the Entity key converted to a 64-bit number
      and dropped, the entity created with its tag, then its transform and
      its mesh renderer read in. */
  function ReadEntity(n: Node, id: nat, load: string -> seq<Meshes.Mesh>): (r: EntityRead)
    ensures r.created.None? ==> r.error.Some?
    ensures r.created.Some? ==> r.created.value.id == id && r.created.value.transform.Some?
  {
    match AsUnsigned(Get(n, "Entity"), UInt64Limit)
    case Failure(e) => EntityRead(None, Some(e))
    case Success(_) =>
      match ReadName(n)
      case Failure(e) => EntityRead(None, Some(e))
      case Success(name) => ReadComponents(n, NewEntity(id, name), load)
  }

  /** The rest of the loop body, once the entity exists: its transform, then
      its mesh renderer, each stored as far as it was read. */
  function ReadComponents(n: Node, e0: Entity, load: string -> seq<Meshes.Mesh>): (r: EntityRead)
    ensures r.created.Some? && r.created.value.id == e0.id && r.created.value.tag == e0.tag
    ensures r.created.value.transform.Some?
  {
    var transform := Get(n, "TransformComponent");
    var t := if transform.Found? then ReadTransform(transform.node, DefaultTransform()) else Partial(DefaultTransform(), None);
    var e1 := e0.(transform := Some(t.value));
    if t.error.Some? then EntityRead(Some(e1), t.error)
    else
      var mesh := Get(n, "MeshRendererComponent");
      if mesh.Found? then
        var m := ReadMeshRenderer(mesh.node, load);
        EntityRead(Some(e1.(renderer := Some(m.value))), m.error)
      else EntityRead(Some(e1), None)
  }

  /** What Deserialize returns: `false` or `true`, or an exception that
      escapes it. */
  datatype Outcome = Returned(loaded: bool) | Raised(error: YamlError)

  /** The scene after reading: the outcome, the entities and the next
      handle the registry hands out. */
  datatype SceneRead = SceneRead(outcome: Outcome, entities: seq<Entity>, nextHandle: nat)

  /** The entity loop from a given scene: entities are added in document
      order until one throws. */
  function ReadEntities(items: seq<Node>, acc: seq<Entity>, next: nat, load: string -> seq<Meshes.Mesh>): (r: SceneRead)
    ensures acc <= r.entities && |r.entities| - |acc| == r.nextHandle - next
    ensures r.outcome == Returned(true) || r.outcome.Raised?
    ensures forall k | |acc| <= k < |r.entities| :: r.entities[k].id == next + (k - |acc|)
    decreases |items|
  {
    if items == [] then SceneRead(Returned(true), acc, next)
    else
      var one := ReadEntity(items[0], next, load);
      var acc' := acc + (if one.created.Some? then [one.created.value] else []);
      var next' := if one.created.Some? then next + 1 else next;
      if one.error.Some? then SceneRead(Raised(one.error.value), acc', next')
      else ReadEntities(items[1..], acc', next', load)
  }

  /** What LoadFile gives: no file to open, text the parser rejects, or a
      document. */
  datatype FileContents = Unreadable | Malformed | Document(root: Node)

  /** Deserialize: a parse error or a document without a Scene entry
      returns false; the scene name must be text; the entities, when the
      document lists any, are read in order. */
  function Deserialized(file: FileContents, es: seq<Entity>, next: nat, load: string -> seq<Meshes.Mesh>): (r: SceneRead)
    ensures r.outcome == Returned(false) ==> r.entities == es && r.nextHandle == next
    ensures es <= r.entities
  {
    match file
    case Unreadable => SceneRead(Raised(BadFile), es, next)
    case Malformed => SceneRead(Returned(false), es, next)
    case Document(root) =>
      var scene := Get(root, "Scene");
      if scene.Failed? then SceneRead(Raised(BadSubscript), es, next)
      else if scene.Missing? then SceneRead(Returned(false), es, next)
      else
        match AsString(scene)
        case Failure(e) => SceneRead(Raised(e), es, next)
        case Success(_) =>
          var entities := Get(root, "Entities");
          if !entities.Found? then SceneRead(Returned(true), es, next)
          else
            match entities.node
            case Sequence(items) => ReadEntities(items, es, next, load)
            case Mapping(entries) =>
              if entries == [] then SceneRead(Returned(true), es, next) else SceneRead(Raised(InvalidNode), es, next)
            case _ => SceneRead(Returned(true), es, next)
  }

  // ------------------------------------------------------------ the scene and the serializer

  /** The scene's registry as the serializer uses it: its entities, in the
      order the registry visits them, and the handle it creates next. */
  class Scene {
    var entities: seq<Entity>
    var nextHandle: nat

    constructor ()
      ensures entities == [] && nextHandle == 0
    {
      entities, nextHandle := [], 0;
    }

    /** CreateEntity(name): a new handle with the tag and a default transform. */
    method CreateEntity(name: string) returns (index: nat)
      modifies this
      ensures index == |old(entities)| && entities == old(entities) + [NewEntity(old(nextHandle), name)]
      ensures nextHandle == old(nextHandle) + 1
    {
      index := |entities|;
      entities := entities + [NewEntity(nextHandle, name)];
      nextHandle := nextHandle + 1;
    }

    /** The entity's transform component replaced. */
    method SetTransform(index: nat, t: Transform)
      requires index < |entities|
      modifies this
      ensures entities == old(entities)[index := old(entities)[index].(transform := Some(t))]
      ensures nextHandle == old(nextHandle)
    {
      entities := entities[index := entities[index].(transform := Some(t))];
    }

    /** The entity's mesh renderer component added or replaced. */
    method SetMeshRenderer(index: nat, m: MeshRenderer)
      requires index < |entities|
      modifies this
      ensures entities == old(entities)[index := old(entities)[index].(renderer := Some(m))]
      ensures nextHandle == old(nextHandle)
    {
      entities := entities[index := entities[index].(renderer := Some(m))];
    }
  }

  class SceneSerializer {
    var scene: Scene

    constructor (scene: Scene)
      ensures this.scene == scene
    {
      this.scene := scene;
    }

    method SetContext(scene: Scene)
      modifies this
      ensures this.scene == scene
    {
      this.scene := scene;
    }

    /** Serialize: the document written for the scene; writing its text to
        the file is not part of this model. */
    method Serialize() returns (doc: Node)
      ensures doc == SceneDocument(scene.entities)
    {
      var es := scene.entities;
      var items: seq<Node> := [];
      for i := 0 to |es|
        invariant items == EntityNodes(Live(es[..i]))
      {
        LiveNodesStep(es, i);
        if es[i].id != NullHandle {
          items := items + [EntityNode(es[i])];
        }
      }
      assert es[..|es|] == es;
      doc := Mapping([("Scene", Scalar("Untitled")), ("Entities", Sequence(items))]);
    }

    /** Deserialize: the file's entities added to the scene. */
    method Deserialize(file: FileContents, load: string -> seq<Meshes.Mesh>) returns (r: Outcome)
      modifies scene
      ensures SceneRead(r, scene.entities, scene.nextHandle)
              == Deserialized(file, old(scene.entities), old(scene.nextHandle), load)
    {
      match file
      case Unreadable => return Raised(BadFile);
      case Malformed => return Returned(false);
      case Document(root) =>
        var name := Get(root, "Scene");
        if name.Failed? {
          return Raised(BadSubscript);
        }
        if name.Missing? {
          return Returned(false);
        }
        var sceneName := AsString(name);
        if sceneName.Failure? {
          return Raised(sceneName.error);
        }
        var entities := Get(root, "Entities");
        if !entities.Found? {
          return Returned(true);
        }
        match entities.node
        case Sequence(items) =>
          r := ReadAll(items, load);
        case Mapping(entries) =>
          r := if entries == [] then Returned(true) else Raised(InvalidNode);
        case _ =>
          r := Returned(true);
    }

    /** The entity loop: each item read in turn until one throws. */
    method ReadAll(items: seq<Node>, load: string -> seq<Meshes.Mesh>) returns (r: Outcome)
      modifies scene
      ensures SceneRead(r, scene.entities, scene.nextHandle)
              == ReadEntities(items, old(scene.entities), old(scene.nextHandle), load)
    {
      for i := 0 to |items|
        invariant ReadEntities(items[i..], scene.entities, scene.nextHandle, load)
                  == ReadEntities(items, old(scene.entities), old(scene.nextHandle), load)
      {
        assert items[i..][0] == items[i] && items[i..][1..] == items[i + 1..];
        var error := ReadInto(items[i], load);
        if error.Some? {
          return Raised(error.value);
        }
      }
      return Returned(true);
    }

    /** One entity node read into the scene. */
    method ReadInto(n: Node, load: string -> seq<Meshes.Mesh>) returns (error: Option<YamlError>)
      modifies scene
      ensures var one := ReadEntity(n, old(scene.nextHandle), load);
              && error == one.error
              && scene.entities == old(scene.entities) + (if one.created.Some? then [one.created.value] else [])
              && scene.nextHandle == if one.created.Some? then old(scene.nextHandle) + 1 else old(scene.nextHandle)
    {
      var uuid := AsUnsigned(Get(n, "Entity"), UInt64Limit);
      if uuid.Failure? {
        return Some(uuid.error);
      }
      var name := ReadName(n);
      if name.Failure? {
        return Some(name.error);
      }
      var index := scene.CreateEntity(name.value);
      error := ReadComponentsInto(index, n, load);
    }

    /** The transform and mesh renderer of a node read into the entity the
        scene created last. */
    method ReadComponentsInto(index: nat, n: Node, load: string -> seq<Meshes.Mesh>) returns (error: Option<YamlError>)
      requires index + 1 == |scene.entities|
      modifies scene
      ensures var one := ReadComponents(n, old(scene.entities)[index], load);
              && error == one.error
              && scene.entities == old(scene.entities)[..index] + [one.created.value]
              && scene.nextHandle == old(scene.nextHandle)
    {
      ghost var e0 := scene.entities[index];
      ghost var before := scene.entities[..index];
      assert scene.entities == before + [e0];
      var transform := Get(n, "TransformComponent");
      var t := if transform.Found? then ReadTransform(transform.node, DefaultTransform()) else Partial(DefaultTransform(), None);
      scene.SetTransform(index, t.value);
      assert scene.entities == before + [e0.(transform := Some(t.value))];
      if t.error.Some? {
        return t.error;
      }
      var mesh := Get(n, "MeshRendererComponent");
      if mesh.Found? {
        var m := ReadMeshRenderer(mesh.node, load);
        scene.SetMeshRenderer(index, m.value);
        return m.error;
      }
      return None;
    }
  }

  // ------------------------------------------------------------ properties

  /** Deserialize returns false exactly for a parse error and for a
      document, null or a non-scalar, without a Scene entry; a scene is
      then left as it was. */
  lemma DeserializeFalse(file: FileContents, es: seq<Entity>, next: nat, load: string -> seq<Meshes.Mesh>)
    ensures Deserialized(file, es, next, load).outcome == Returned(false)
            <==> file.Malformed? || (file.Document? && Get(file.root, "Scene").Missing?)
    ensures Deserialized(file, es, next, load).outcome == Returned(false)
            ==> Deserialized(file, es, next, load) == SceneRead(Returned(false), es, next)
  {
    if file.Document? && Get(file.root, "Scene").Found? && AsString(Get(file.root, "Scene")).Success? {
      var entities := Get(file.root, "Entities");
      if entities.Found? && entities.node.Sequence? {
        var r := ReadEntities(entities.node.items, es, next, load);
        assert r.outcome == Returned(true) || r.outcome.Raised?;
      }
    }
  }

  /** The Entity value is read and dropped: any key a 64-bit number can be
      read from gives the same entity as the constant one. */
  lemma EntityKeyIgnored(k: string, rest: seq<(string, Node)>, id: nat, load: string -> seq<Meshes.Mesh>)
    requires Strings.StreamUnsigned(k).Some? && Strings.StreamUnsigned(k).value < UInt64Limit
    ensures ReadEntity(Mapping([("Entity", Scalar(k))] + rest), id, load)
            == ReadEntity(Mapping([("Entity", Scalar(EntityKey))] + rest), id, load)
  {
    EntityKeyParses();
    var a := [("Entity", Scalar(k))] + rest;
    var b := [("Entity", Scalar(EntityKey))] + rest;
    assert a[1..] == rest && b[1..] == rest;
    assert Get(Mapping(a), "Entity") == Found(Scalar(k));
    assert Get(Mapping(a), "TagComponent") == Get(Mapping(b), "TagComponent");
    assert ReadName(Mapping(a)) == ReadName(Mapping(b));
    assert Get(Mapping(a), "TransformComponent") == Get(Mapping(b), "TransformComponent");
    assert Get(Mapping(a), "MeshRendererComponent") == Get(Mapping(b), "MeshRendererComponent");
    assert forall e0 :: ReadComponents(Mapping(a), e0, load) == ReadComponents(Mapping(b), e0, load);
  }

  lemma EntityKeyParses()
    ensures Strings.StreamUnsigned(EntityKey).Some? && Strings.StreamUnsigned(EntityKey).value < UInt64Limit
  {
    assert Strings.IsDigits(EntityKey) && EntityKey[0] != '0';
    Strings.StreamUnsignedDecimal(EntityKey);
    DigitsBelow(EntityKey);
    assert |EntityKey| == 13;
    assert Pow10(13) == 10_000_000_000_000;
  }

  function Pow10(n: nat): nat
  {
    if n == 0 then 1 else 10 * Pow10(n - 1)
  }

  /** A run of n digits is worth less than 10 to the n. */
  lemma {:induction false} DigitsBelow(s: string)
    requires Strings.IsDigits(s)
    ensures Strings.DigitsValue(s) < Pow10(|s|)
    decreases |s|
  {
    if |s| > 1 {
      assert Strings.IsDigits(s[..|s| - 1]);
      DigitsBelow(s[..|s| - 1]);
    }
  }

  // ------------------------------------------------------------ round trip

  /** The entity Deserialize makes of one that Serialize wrote: a new
      handle, its tag or an empty one, its transform or the default one,
      and its mesh renderer's path and material index with the meshes the
      loader gives for that path. */
  function Restore(e: Entity, id: nat, load: string -> seq<Meshes.Mesh>): Entity
  {
    Entity(id,
           Some(if e.tag.Some? then e.tag.value else ""),
           Some(if e.transform.Some? then e.transform.value else DefaultTransform()),
           if e.renderer.Some? then Some(MeshRenderer(e.renderer.value.filePath, e.renderer.value.materialIndex,
                                                      load(e.renderer.value.filePath)))
           else None)
  }

  function Restored(es: seq<Entity>, next: nat, load: string -> seq<Meshes.Mesh>): (r: seq<Entity>)
    ensures |r| == |es|
  {
    seq(|es|, i requires 0 <= i < |es| => Restore(es[i], next + i, load))
  }

  /** Every material index fits the source's 32-bit field. */
  predicate IndicesFit(es: seq<Entity>)
  {
    forall k | 0 <= k < |es| :: es[k].renderer.Some? ==> es[k].renderer.value.materialIndex < UInt32Limit
  }

  /** The tag section of a written entity is found under its key. */
  lemma TagSection(e: Entity)
    ensures Get(EntityNode(e), "TagComponent")
            == if e.tag.Some? then Found(Mapping([("Tag", Scalar(e.tag.value))])) else Missing
  {
    var head := [("Entity", Scalar(EntityKey))];
    var rest := TransformEntries(e) + MeshEntries(e);
    assert EntityNode(e).entries == head + (TagEntries(e) + rest);
    FindPast(head, TagEntries(e) + rest, "TagComponent");
    if e.tag.None? {
      assert TagEntries(e) + rest == rest;
      FindPast(TransformEntries(e), MeshEntries(e), "TagComponent");
    }
  }

  /** The transform section of a written entity is found under its key. */
  lemma TransformSection(e: Entity)
    ensures Get(EntityNode(e), "TransformComponent")
            == if e.transform.Some? then Found(TransformNode(e.transform.value)) else Missing
  {
    var head := [("Entity", Scalar(EntityKey))];
    var rest := TransformEntries(e) + MeshEntries(e);
    assert EntityNode(e).entries == head + (TagEntries(e) + rest);
    FindPast(head, TagEntries(e) + rest, "TransformComponent");
    FindPast(TagEntries(e), rest, "TransformComponent");
    if e.transform.None? {
      assert rest == MeshEntries(e);
    }
  }

  /** The mesh renderer section of a written entity is found under its key. */
  lemma MeshRendererSection(e: Entity)
    ensures Get(EntityNode(e), "MeshRendererComponent")
            == if e.renderer.Some? then Found(MeshRendererNode(e.renderer.value)) else Missing
  {
    var head := [("Entity", Scalar(EntityKey))];
    var rest := TransformEntries(e) + MeshEntries(e);
    assert EntityNode(e).entries == head + (TagEntries(e) + rest);
    FindPast(head, TagEntries(e) + rest, "MeshRendererComponent");
    FindPast(TagEntries(e), rest, "MeshRendererComponent");
    FindPast(TransformEntries(e), MeshEntries(e), "MeshRendererComponent");
  }

  /** Lookups in a three-entry mapping with distinct keys. */
  lemma FindThree(k0: string, n0: Node, k1: string, n1: Node, k2: string, n2: Node)
    requires k0 != k1 && k0 != k2 && k1 != k2
    ensures Find([(k0, n0), (k1, n1), (k2, n2)], k0) == Found(n0)
    ensures Find([(k0, n0), (k1, n1), (k2, n2)], k1) == Found(n1)
    ensures Find([(k0, n0), (k1, n1), (k2, n2)], k2) == Found(n2)
  {
    var es := [(k0, n0), (k1, n1), (k2, n2)];
    var tail := [(k1, n1), (k2, n2)];
    assert es[1..] == tail && tail[1..] == [(k2, n2)];
    assert Find(tail, k1) == Found(n1);
    assert Find(tail, k2) == Find([(k2, n2)], k2) == Found(n2);
  }

  /** A written transform section reads back as the transform. */
  lemma TransformRoundTrip(t: Transform, start: Transform)
    ensures ReadTransform(TransformNode(t), start) == Partial(t, None)
  {
    FindThree("Translation", EncodeVec3(t.translation), "Rotation", EncodeVec3(t.rotation), "Scale", EncodeVec3(t.scale));
    VectorRoundTrips(Vec2(0.0, 0.0), t.translation, Vec4(0.0, 0.0, 0.0, 0.0));
    VectorRoundTrips(Vec2(0.0, 0.0), t.rotation, Vec4(0.0, 0.0, 0.0, 0.0));
    VectorRoundTrips(Vec2(0.0, 0.0), t.scale, Vec4(0.0, 0.0, 0.0, 0.0));
  }

  /** A written mesh renderer section reads back as its path and 32-bit
      material index, with the loader's meshes for the path. */
  lemma MeshRendererRoundTrip(m: MeshRenderer, load: string -> seq<Meshes.Mesh>)
    requires m.materialIndex < UInt32Limit
    ensures ReadMeshRenderer(MeshRendererNode(m), load)
            == Partial(MeshRenderer(m.filePath, m.materialIndex, load(m.filePath)), None)
  {
    var digits := Strings.NatToString(m.materialIndex);
    var entries := [("Filepath", Scalar(m.filePath)), ("MaterialIndex", Scalar(digits))];
    FindPast([entries[0]], [entries[1]], "MaterialIndex");
    assert entries == [entries[0]] + [entries[1]];
    assert Get(MeshRendererNode(m), "MaterialIndex") == Found(Scalar(digits));
    AsUnsignedReadsDecimal(m.materialIndex, UInt32Limit);
  }

  /** Reading a written entity creates its restored copy and throws nothing. */
  lemma EntityRoundTrip(e: Entity, id: nat, load: string -> seq<Meshes.Mesh>)
    requires e.renderer.Some? ==> e.renderer.value.materialIndex < UInt32Limit
    ensures ReadEntity(EntityNode(e), id, load) == EntityRead(Some(Restore(e, id, load)), None)
  {
    EntityKeyParses();
    TagSection(e);
    TransformSection(e);
    MeshRendererSection(e);
    if e.transform.Some? {
      TransformRoundTrip(e.transform.value, DefaultTransform());
    }
    if e.renderer.Some? {
      MeshRendererRoundTrip(e.renderer.value, load);
    }
  }

  /** An entity read without an exception is added and the loop goes on. */
  lemma ReadEntitiesClean(items: seq<Node>, acc: seq<Entity>, next: nat, x: Entity, load: string -> seq<Meshes.Mesh>)
    requires items != [] && ReadEntity(items[0], next, load) == EntityRead(Some(x), None)
    ensures ReadEntities(items, acc, next, load) == ReadEntities(items[1..], acc + [x], next + 1, load)
  {
  }

  /** Every item reads without an exception, creating the matching entity. */
  predicate ReadsAs(items: seq<Node>, xs: seq<Entity>, next: nat, load: string -> seq<Meshes.Mesh>)
  {
    |items| == |xs| &&
    forall k | 0 <= k < |items| :: ReadEntity(items[k], next + k, load) == EntityRead(Some(xs[k]), None)
  }

  /** ReadsAs holds of the tails once the first item is read. */
  lemma ReadsAsTail(items: seq<Node>, xs: seq<Entity>, next: nat, load: string -> seq<Meshes.Mesh>)
    requires items != [] && ReadsAs(items, xs, next, load)
    ensures ReadEntity(items[0], next, load) == EntityRead(Some(xs[0]), None)
    ensures ReadsAs(items[1..], xs[1..], next + 1, load)
  {
    assert ReadEntity(items[0], next + 0, load) == EntityRead(Some(xs[0]), None);
    forall k | 0 <= k < |items[1..]|
      ensures ReadEntity(items[1..][k], next + 1 + k, load) == EntityRead(Some(xs[1..][k]), None)
    {
      assert ReadEntity(items[k + 1], next + (k + 1), load) == EntityRead(Some(xs[k + 1]), None);
    }
  }

  /** Appending the head, then the tail, appends the whole sequence. */
  lemma AppendHead<T>(acc: seq<T>, xs: seq<T>)
    requires xs != []
    ensures acc + [xs[0]] + xs[1..] == acc + xs
  {
    assert [xs[0]] + xs[1..] == xs;
  }

  /** When every item reads without an exception, the entity loop adds what
      each one creates, with consecutive handles, and returns normally. */
  lemma {:induction false} ReadsCleanly(items: seq<Node>, xs: seq<Entity>, acc: seq<Entity>, next: nat,
                                        load: string -> seq<Meshes.Mesh>)
    requires ReadsAs(items, xs, next, load)
    ensures ReadEntities(items, acc, next, load) == SceneRead(Returned(true), acc + xs, next + |items|)
    decreases |items|
  {
    if items == [] {
      assert acc + xs == acc;
    } else {
      ReadsAsTail(items, xs, next, load);
      ReadEntitiesClean(items, acc, next, xs[0], load);
      ReadsCleanly(items[1..], xs[1..], acc + [xs[0]], next + 1, load);
      AppendHead(acc, xs);
    }
  }

  /** The entity loop over written entities adds their restored copies, with
      consecutive handles, and returns normally. */
  lemma EntitiesRoundTrip(es: seq<Entity>, acc: seq<Entity>, next: nat, load: string -> seq<Meshes.Mesh>)
    requires IndicesFit(es)
    ensures ReadEntities(EntityNodes(es), acc, next, load)
            == SceneRead(Returned(true), acc + Restored(es, next, load), next + |es|)
  {
    var items := EntityNodes(es);
    var xs := Restored(es, next, load);
    forall k | 0 <= k < |items|
      ensures ReadEntity(items[k], next + k, load) == EntityRead(Some(xs[k]), None)
    {
      ReadsBack(es[k], items[k], xs[k], next + k, load);
    }
    ReadsCleanly(items, xs, acc, next, load);
  }

  /** EntityRoundTrip for a node and an entity known only by equations. */
  lemma ReadsBack(e: Entity, n: Node, x: Entity, id: nat, load: string -> seq<Meshes.Mesh>)
    requires e.renderer.Some? ==> e.renderer.value.materialIndex < UInt32Limit
    requires n == EntityNode(e) && x == Restore(e, id, load)
    ensures ReadEntity(n, id, load) == EntityRead(Some(x), None)
  {
    EntityRoundTrip(e, id, load);
  }

  /** The live entities of a scene whose indices fit 32 bits fit too. */
  lemma LiveIndicesFit(es: seq<Entity>)
    requires IndicesFit(es)
    ensures IndicesFit(Live(es))
  {
    var live := Live(es);
    forall k | 0 <= k < |live| && live[k].renderer.Some?
      ensures live[k].renderer.value.materialIndex < UInt32Limit
    {
      assert live[k] in live;
      var j :| 0 <= j < |es| && es[j] == live[k];
    }
  }

  /** A document with a text scene name and a sequence of entities: reading
      it is the entity loop over that sequence. */
  lemma ListedEntities(name: string, items: seq<Node>, before: seq<Entity>, next: nat, load: string -> seq<Meshes.Mesh>)
    ensures Deserialized(Document(Mapping([("Scene", Scalar(name)), ("Entities", Sequence(items))])), before, next, load)
            == ReadEntities(items, before, next, load)
  {
    FindPast([("Scene", Scalar(name))], [("Entities", Sequence(items))], "Entities");
    assert [("Scene", Scalar(name)), ("Entities", Sequence(items))] == [("Scene", Scalar(name))] + [("Entities", Sequence(items))];
  }

  /** Reading back what Serialize wrote returns true and adds a restored
      copy of every live entity, in order, with fresh consecutive handles:
      tags, transforms, mesh paths and material indices survive the trip. */
  lemma SceneRoundTrip(es: seq<Entity>, before: seq<Entity>, next: nat, load: string -> seq<Meshes.Mesh>)
    requires IndicesFit(es)
    ensures Deserialized(Document(SceneDocument(es)), before, next, load)
            == SceneRead(Returned(true), before + Restored(Live(es), next, load), next + |Live(es)|)
  {
    ListedEntities("Untitled", EntityNodes(Live(es)), before, next, load);
    LiveIndicesFit(es);
    EntitiesRoundTrip(Live(es), before, next, load);
  }
}
