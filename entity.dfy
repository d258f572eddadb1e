// An entity as the render passes and the scene serializer see it: a handle
// id and the components they read. The entity-component registry itself is
// not part of this model; a scene is handed to them as a sequence of entities
// in the registry's iteration order.
module Entities {
  import opened Wrappers
  import opened LinearAlgebra
  import opened Meshes

  /** MeshRendererComponent: the model's file path, material index and the
      meshes it loaded. */
  datatype MeshRenderer = MeshRenderer(filePath: string, materialIndex: nat, meshes: seq<Mesh>)

  datatype Entity = Entity(
    id: nat,
    tag: Option<string>,
    transform: Option<Transform>,
    renderer: Option<MeshRenderer>)

  /** What the passes' view of MeshRendererComponent entities holds: every
      entity the scene creates carries a transform, and the view selects
      those with a mesh renderer. */
  predicate Drawable(e: Entity)
  {
    e.transform.Some? && e.renderer.Some?
  }

  predicate AllDrawable(view: seq<Entity>)
  {
    forall k | 0 <= k < |view| :: Drawable(view[k])
  }
}
