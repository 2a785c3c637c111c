/** Vectors, vertices and model matrices. Float components are carried as
    `real` labels that are copied, never computed on; a matrix is the symbolic
    term of the GLM calls that built it. */
module Geometry {

  datatype Vec2 = Vec2(x: real, y: real)
  datatype Vec3 = Vec3(x: real, y: real, z: real)
  datatype Vec4 = Vec4(x: real, y: real, z: real, w: real)

  /** `glm::vec3(v)`. */
  function Splat3(v: real): Vec3 { Vec3(v, v, v) }

  /** `glm::vec4(v)`. */
  function Splat4(v: real): Vec4 { Vec4(v, v, v, v) }

  /** `glm::vec4(v, w)`. */
  function Extend(v: Vec3, w: real): Vec4 { Vec4(v.x, v.y, v.z, w) }

  /** The mesh vertex (`Vertex` of Renderer/include/Mesh.hpp). */
  datatype Vertex = Vertex(pos: Vec3, color: Vec3, texCoord: Vec2, normal: Vec3)

  /** One `glm::translate` / `glm::rotate` / `glm::scale` step. */
  datatype TransformOp =
    | TranslateBy(offset: Vec3)
    | RotateBy(degrees: real, axis: Vec3)
    | ScaleBy(factors: Vec3)

  /** A 4x4 matrix as the term that produced it. `Projection` is the
      perspective matrix built from a swap extent; `Indeterminate` is a matrix
      member that no code has written yet. */
  datatype Mat4 =
    | Identity
    | Compose(base: Mat4, op: TransformOp)
    | Projection(width: nat, height: nat)
    | Indeterminate

  /** Applies `ops` left to right on top of `m`. */
  function ComposeAll(m: Mat4, ops: seq<TransformOp>): Mat4
    decreases |ops|
  {
    if |ops| == 0 then m else ComposeAll(Compose(m, ops[0]), ops[1..])
  }

  /** `BasicUBO`: the per-object uniform block. */
  datatype BasicUbo = BasicUbo(model: Mat4, view: Mat4, proj: Mat4)

  /** A `BasicUBO` member that was never assigned. */
  const UNSET_UBO: BasicUbo := BasicUbo(Indeterminate, Indeterminate, Indeterminate)
}
