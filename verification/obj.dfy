/** The OBJ flattening step of `Mesh::Mesh(std::string)`
    (Renderer/src/Mesh.cpp): every index record of every shape becomes one
    vertex, and the k-th vertex gets index k. The loader itself is outside the
    model; its output is the tiny attribute record below. */
module Obj {
  import opened Types
  import opened Geometry

  /** `tinyobj::index_t`. */
  datatype ObjIndex = ObjIndex(vertexIndex: int, normalIndex: int, texcoordIndex: int)

  /** The three arrays of `tinyobj::attrib_t` the constructor reads. */
  datatype ObjAttrib = ObjAttrib(vertices: seq<real>, normals: seq<real>, texcoords: seq<real>)

  /** A `tinyobj::shape_t`, reduced to its index records. */
  datatype Shape = Shape(indices: seq<ObjIndex>)

  /** What `tinyobj::LoadObj` reports: failure with its warning and error
      text, or the parsed attributes and shapes. */
  datatype ObjLoad = LoadFailed(warn: string, err: string) | Loaded(attrib: ObjAttrib, shapes: seq<Shape>)

  /** Every array slot the record designates exists (the source indexes
      without checking). */
  predicate InBounds(a: ObjAttrib, r: ObjIndex)
  {
    && 0 <= r.vertexIndex && 3 * r.vertexIndex + 2 < |a.vertices|
    && 0 <= r.normalIndex && 3 * r.normalIndex + 2 < |a.normals|
    && 0 <= r.texcoordIndex && 2 * r.texcoordIndex + 1 < |a.texcoords|
  }

  predicate RecordsInBounds(a: ObjAttrib, rs: seq<ObjIndex>)
  {
    forall k :: 0 <= k < |rs| ==> InBounds(a, rs[k])
  }

  predicate ShapesInBounds(a: ObjAttrib, shapes: seq<Shape>)
  {
    forall s, j :: 0 <= s < |shapes| && 0 <= j < |shapes[s].indices| ==> InBounds(a, shapes[s].indices[j])
  }

  /** `1.0f - v`: the texture V axis is flipped (float rounding is not
      modelled). */
  function FlipV(v: real): real { 1.0 - v }

  /** The vertex built from one index record: position and normal are the
      three consecutive floats the record points at, the texture coordinate
      is the pair with V flipped, and the colour is white. */
  function VertexOf(a: ObjAttrib, r: ObjIndex): (vx: Vertex)
    requires InBounds(a, r)
    ensures vx.pos == Vec3(a.vertices[3 * r.vertexIndex], a.vertices[3 * r.vertexIndex + 1], a.vertices[3 * r.vertexIndex + 2])
    ensures vx.normal == Vec3(a.normals[3 * r.normalIndex], a.normals[3 * r.normalIndex + 1], a.normals[3 * r.normalIndex + 2])
    ensures vx.texCoord.x == a.texcoords[2 * r.texcoordIndex]
    ensures vx.texCoord.y + a.texcoords[2 * r.texcoordIndex + 1] == 1.0
    ensures vx.color == Vec3(1.0, 1.0, 1.0)
  {
    var v := 3 * r.vertexIndex;
    var n := 3 * r.normalIndex;
    var t := 2 * r.texcoordIndex;
    Vertex(
      Vec3(a.vertices[v], a.vertices[v + 1], a.vertices[v + 2]),
      Splat3(1.0),
      Vec2(a.texcoords[t], FlipV(a.texcoords[t + 1])),
      Vec3(a.normals[n], a.normals[n + 1], a.normals[n + 2]))
  }

  /** All index records, shape after shape, each shape's in its own order. */
  function Records(shapes: seq<Shape>): (rs: seq<ObjIndex>)
    decreases |shapes|
  {
    if |shapes| == 0 then [] else Records(shapes[..|shapes| - 1]) + shapes[|shapes| - 1].indices
  }

  /** The flattened geometry: one vertex per record, in record order, and
      the identity index list (each index cast to 32 bits). */
  predicate Flattened(a: ObjAttrib, shapes: seq<Shape>, vertices: seq<Vertex>, indices: seq<U32>)
  {
    && |vertices| == |Records(shapes)|
    && |indices| == |vertices|
    && RecordsInBounds(a, Records(shapes))
    && (forall k :: 0 <= k < |vertices| ==> vertices[k] == VertexOf(a, Records(shapes)[k]))
    && (forall k :: 0 <= k < |indices| ==> indices[k] == ToU32(k))
  }

  /** The two nested loops of the OBJ constructor. */
  method Flatten(a: ObjAttrib, shapes: seq<Shape>) returns (vertices: seq<Vertex>, indices: seq<U32>)
    requires ShapesInBounds(a, shapes)
    ensures Flattened(a, shapes, vertices, indices)
    ensures |indices| <= TWO_POW_32 ==> forall k :: 0 <= k < |indices| ==> indices[k] == k
  {
    vertices := [];
    indices := [];
    ghost var done: seq<ObjIndex> := [];
    var s := 0;
    while s < |shapes|
      invariant 0 <= s <= |shapes|
      invariant done == Records(shapes[..s])
      invariant RecordsInBounds(a, done)
      invariant |vertices| == |done| && |indices| == |done|
      invariant forall k :: 0 <= k < |vertices| ==> vertices[k] == VertexOf(a, done[k])
      invariant forall k :: 0 <= k < |indices| ==> indices[k] == ToU32(k)
    {
      var shapeIndices := shapes[s].indices;
      var j := 0;
      while j < |shapeIndices|
        invariant 0 <= j <= |shapeIndices|
        invariant done == Records(shapes[..s]) + shapeIndices[..j]
        invariant RecordsInBounds(a, done)
        invariant |vertices| == |done| && |indices| == |done|
        invariant forall k :: 0 <= k < |vertices| ==> vertices[k] == VertexOf(a, done[k])
        invariant forall k :: 0 <= k < |indices| ==> indices[k] == ToU32(k)
      {
        var index := shapeIndices[j];
        assert InBounds(a, shapes[s].indices[j]);
        vertices := vertices + [VertexOf(a, index)];
        indices := indices + [ToU32(|indices|)];
        assert shapeIndices[..j + 1] == shapeIndices[..j] + [index];
        done := done + [index];
        j := j + 1;
      }
      assert shapeIndices[..j] == shapeIndices;
      assert shapes[..s + 1][..s] == shapes[..s];
      s := s + 1;
    }
    assert shapes[..s] == shapes;
  }

  /** The flattened mesh has exactly as many vertices as the shapes have index
      records in total. */
  lemma {:induction false} RecordsLength(shapes: seq<Shape>)
    ensures |Records(shapes)| == SumIndexCounts(shapes)
    decreases |shapes|
  {
    if |shapes| > 0 {
      RecordsLength(shapes[..|shapes| - 1]);
    }
  }

  /** Total number of index records over all shapes. */
  function SumIndexCounts(shapes: seq<Shape>): nat
    decreases |shapes|
  {
    if |shapes| == 0 then 0 else SumIndexCounts(shapes[..|shapes| - 1]) + |shapes[|shapes| - 1].indices|
  }
}
