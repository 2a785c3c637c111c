/** Vertex input descriptions: the single binding and the three attribute
    tables of Renderer/include/Mesh.hpp, and the older three-entry table of
    Renderer/include/Renderer.hpp. Offsets are kept symbolic as the field they
    name (`offsetof(Vertex, field)`). */
module VertexLayout {
  import opened Vk

  /** The vertex layout variants a pipeline is built for. */
  datatype VertexData = PosCol | PosColTex | PosColTexNorm

  datatype VertexField = Pos | Color | TexCoord | Normal

  datatype Format = R32G32Sfloat | R32G32B32Sfloat

  datatype InputRate = PerVertex | PerInstance

  datatype BindingDescription = BindingDescription(binding: nat, stride: StructSize, inputRate: InputRate)

  /** `VkVertexInputAttributeDescription`; `offset` is the field it points at. */
  datatype AttributeDescription = AttributeDescription(binding: nat, location: nat, format: Format, offset: VertexField)

  /** Number of 32-bit float components a format reads. */
  function Components(f: Format): nat
  {
    match f
    case R32G32Sfloat => 2
    case R32G32B32Sfloat => 3
  }

  /** Number of float components the field holds (`vec2` or `vec3`). */
  function Width(f: VertexField): nat
  {
    match f
    case TexCoord => 2
    case _ => 3
  }

  /** The order in which the fields appear in every table. */
  const FIELD_ORDER: seq<VertexField> := [Pos, Color, TexCoord, Normal]

  /** Number of attributes a variant feeds to the vertex shader. */
  function AttributeCount(v: VertexData): nat
  {
    match v
    case PosCol => 2
    case PosColTex => 3
    case PosColTexNorm => 4
  }

  /** A table with `k` entries: entry i sits at location i of binding 0, points
      at the i-th field, and reads exactly as many components as that field
      holds. */
  predicate WellFormedTable(t: seq<AttributeDescription>, k: nat)
  {
    && k <= |FIELD_ORDER|
    && |t| == k
    && forall i :: 0 <= i < |t| ==>
         && t[i].binding == 0
         && t[i].location == i
         && t[i].offset == FIELD_ORDER[i]
         && Components(t[i].format) == Width(t[i].offset)
  }

  /** `Vertex::getBindingDescription`. */
  function GetBindingDescription(): (b: BindingDescription)
    ensures b.binding == 0 && b.inputRate == PerVertex
    ensures b.stride == SizeofVertex
  {
    BindingDescription(0, SizeofVertex, PerVertex)
  }

  function PosAttribute(): AttributeDescription { AttributeDescription(0, 0, R32G32B32Sfloat, Pos) }
  function ColorAttribute(): AttributeDescription { AttributeDescription(0, 1, R32G32B32Sfloat, Color) }
  function TexAttribute(): AttributeDescription { AttributeDescription(0, 2, R32G32Sfloat, TexCoord) }
  function NormalAttribute(): AttributeDescription { AttributeDescription(0, 3, R32G32B32Sfloat, Normal) }

  /** `Vertex::getAttributeDescriptionsPosCol`. */
  function AttributesPosCol(): (t: seq<AttributeDescription>)
    ensures WellFormedTable(t, AttributeCount(PosCol))
  {
    [PosAttribute(), ColorAttribute()]
  }

  /** `Vertex::getAttributeDescriptionsPosColTex`. */
  function AttributesPosColTex(): (t: seq<AttributeDescription>)
    ensures WellFormedTable(t, AttributeCount(PosColTex))
  {
    [PosAttribute(), ColorAttribute(), TexAttribute()]
  }

  /** `Vertex::getAttributeDescriptionsPosColTexNormal`. */
  function AttributesPosColTexNormal(): (t: seq<AttributeDescription>)
    ensures WellFormedTable(t, AttributeCount(PosColTexNorm))
  {
    [PosAttribute(), ColorAttribute(), TexAttribute(), NormalAttribute()]
  }

  /** The table a variant selects. */
  function AttributesFor(v: VertexData): seq<AttributeDescription>
  {
    match v
    case PosCol => AttributesPosCol()
    case PosColTex => AttributesPosColTex()
    case PosColTexNorm => AttributesPosColTexNormal()
  }

  /** Each longer table extends the shorter one: the shared entries are
      identical, so a shader written for fewer attributes reads the same
      locations. */
  lemma TablesArePrefixes()
    ensures AttributesPosCol() == AttributesPosColTex()[..2]
    ensures AttributesPosColTex() == AttributesPosColTexNormal()[..3]
  {
  }

  /** Every attribute of every variant reads binding 0, the one binding the
      binding description declares, and all variants are well formed. */
  lemma AttributesMatchBinding(v: VertexData)
    ensures WellFormedTable(AttributesFor(v), AttributeCount(v))
    ensures forall i :: 0 <= i < |AttributesFor(v)| ==> AttributesFor(v)[i].binding == GetBindingDescription().binding
  {
  }

  /** `Vertex::getAttributeDescription` of Renderer/include/Renderer.hpp, as
      written: three entries, with `texCoord` declared as a 3-component
      format. */
  function RendererAttributes(): (t: seq<AttributeDescription>)
    ensures |t| == 3
    ensures forall i :: 0 <= i < 3 ==> t[i].binding == 0 && t[i].location == i && t[i].offset == FIELD_ORDER[i]
    ensures forall i :: 0 <= i < 3 ==> t[i].format == R32G32B32Sfloat
  {
    [PosAttribute(), ColorAttribute(), AttributeDescription(0, 2, R32G32B32Sfloat, TexCoord)]
  }

  /** `Vertex::getBindingDescriptor` of Renderer/include/Renderer.hpp. */
  function RendererBindingDescription(): (b: BindingDescription)
    ensures b.binding == 0 && b.inputRate == PerVertex
    ensures b.stride == SizeofRendererVertex
  {
    BindingDescription(0, SizeofRendererVertex, PerVertex)
  }

  /** The Renderer.hpp table reads three floats from a two-float field: its
      texture-coordinate entry is not well formed. */
  lemma RendererTexCoordOverreads()
    ensures Components(RendererAttributes()[2].format) == Width(TexCoord) + 1
    ensures !WellFormedTable(RendererAttributes(), 3)
  {
    assert RendererAttributes()[2].offset == TexCoord;
  }

  /** The Mesh.hpp table with the same three fields is the corrected
      declaration: it agrees with the Renderer.hpp table everywhere except the
      texture-coordinate format, and it is well formed. */
  lemma CorrectedTexCoordTable()
    ensures WellFormedTable(AttributesPosColTex(), 3)
    ensures AttributesPosColTex()[..2] == RendererAttributes()[..2]
    ensures AttributesPosColTex()[2] == RendererAttributes()[2].(format := R32G32Sfloat)
  {
  }
}
