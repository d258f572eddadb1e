// The glm/assimp value types the renderer moves around. Float payloads are
// modelled as reals; no arithmetic on them is modelled except where a
// component is copied, scaled or zeroed.
module LinearAlgebra {
  datatype Vec2 = Vec2(x: real, y: real)
  datatype Vec3 = Vec3(x: real, y: real, z: real)
  datatype Vec4 = Vec4(x: real, y: real, z: real, w: real)

  /** assimp's aiQuaternion and glm::quat, both by their named parts. */
  datatype Quat = Quat(w: real, x: real, y: real, z: real)

  /** A 4x4 matrix as four vectors of four reals. Whether the outer index is a
      row (assimp's aiMatrix4x4) or a column (glm::mat4) is up to the user. */
  type Mat4 = m: seq<seq<real>> | IsSquare4(m) witness Identity()

  predicate IsSquare4(m: seq<seq<real>>)
  {
    |m| == 4 && forall i :: 0 <= i < 4 ==> |m[i]| == 4
  }

  function Identity(): (m: seq<seq<real>>)
    ensures IsSquare4(m)
  {
    [[1.0, 0.0, 0.0, 0.0], [0.0, 1.0, 0.0, 0.0], [0.0, 0.0, 1.0, 0.0], [0.0, 0.0, 0.0, 1.0]]
  }

  /** TransformComponent (Component.hpp): translation, Euler rotation and scale. */
  datatype Transform = Transform(translation: Vec3, rotation: Vec3, scale: Vec3)

  function Scale(v: Vec3, k: real): Vec3
  {
    Vec3(v.x * k, v.y * k, v.z * k)
  }
}
