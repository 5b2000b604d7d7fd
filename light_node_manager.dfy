/** The light-node bookkeeping of the ThesisPeter extension: the vertex attribute accessor
    that stores each vertex's light-node index, the attribute that tags a node with its
    light-node ID, and the records of the light graph. */
module LightNodeManager {
  import opened Wrappers
  import opened Numeric
  import opened Geometry

  // ---------------------------------------------------------------------------------------
  // Vertex data and the light-node index accessor

  /** One entry of a vertex description: how many values the attribute holds per vertex. */
  datatype VertexAttribute = VertexAttribute(numValues: nat)

  /** The exceptions of the accessor: `std::invalid_argument` from the factory (attribute
      missing, or not one value per vertex) and the range error of an index check. */
  datatype AccessorError =
    | NoAttribute(name: string)
    | UnimplementedFormat(name: string)
    | IndexOutOfRange(index: nat)

  /** Vertex data: a description of its attributes and, per attribute, its values stored
      vertex after vertex as floats. */
  class MeshVertexData {
    const description: map<string, VertexAttribute>
    const vertexCount: nat
    const values: map<string, array<real>>

    ghost predicate Valid()
      reads this
    {
      forall name :: name in description ==>
        name in values && values[name].Length == vertexCount * description[name].numValues
    }

    constructor (description: map<string, VertexAttribute>, vertexCount: nat, values: map<string, array<real>>)
      requires forall name :: name in description ==>
        name in values && values[name].Length == vertexCount * description[name].numValues
      ensures Valid()
      ensures this.description == description && this.vertexCount == vertexCount && this.values == values
    {
      this.description, this.vertexCount, this.values := description, vertexCount, values;
    }
  }

  /** The checks of the factory: the attribute must be non-empty, that is in the description
      with at least one value per vertex (an absent attribute reads as an empty one), and hold
      exactly one value per vertex. */
  function CheckAttribute(description: map<string, VertexAttribute>, name: string): (r: Result<VertexAttribute, AccessorError>)
    ensures r.Success? <==> name in description && description[name].numValues == 1
    ensures r.Success? ==> r.value == description[name]
    ensures name !in description ==> r == Failure(NoAttribute(name))
    ensures name in description && description[name].numValues == 0 ==> r == Failure(NoAttribute(name))
    ensures name in description && description[name].numValues > 1 ==> r == Failure(UnimplementedFormat(name))
  {
    if name !in description || description[name].numValues == 0 then Failure(NoAttribute(name))
    else if description[name].numValues == 1 then Success(description[name])
    else Failure(UnimplementedFormat(name))
  }

  /** The largest value an `unsigned int` holds, plus one. */
  const UnsignedLimit: real := Uint32Modulus as real

  /** Reading a stored float as `unsigned int`: truncation toward zero, defined whenever the
      truncated value fits, that is for every float above -1 and below 2^32. */
  function ReadIndex(stored: real): (index: nat)
    requires -1.0 < stored < UnsignedLimit
    ensures stored >= 0.0 ==> index as real <= stored < index as real + 1.0
    ensures stored < 0.0 ==> index == 0
  {
    if stored < 0.0 then 0 else stored.Floor
  }

  /** A whole number stored as a float reads back as itself. */
  lemma WholeIndexReadsBack(v: nat)
    requires (v as real) < UnsignedLimit
    ensures ReadIndex(v as real) == v
  {
  }

  /** The light-node index of each vertex, one float per vertex, in `vData`'s buffer for the
      attribute. */
  class LightNodeIndexAttributeAccessor {
    const vData: MeshVertexData
    const buffer: array<real>

    ghost predicate Valid()
      reads this, vData
    {
      buffer.Length == vData.vertexCount
    }

    constructor (vData: MeshVertexData, buffer: array<real>)
      requires buffer.Length == vData.vertexCount
      ensures Valid() && this.vData == vData && this.buffer == buffer
    {
      this.vData, this.buffer := vData, buffer;
    }

    /** The factory: an accessor for the attribute `name` when it exists and holds one value
        per vertex, otherwise the error the factory throws. */
    static method Create(vData: MeshVertexData, name: string) returns (r: Result<LightNodeIndexAttributeAccessor, AccessorError>)
      requires vData.Valid()
      ensures r.Success? <==> name in vData.description && vData.description[name].numValues == 1
      ensures r.Failure? ==> r == Failure(CheckAttribute(vData.description, name).error)
      ensures r.Success? ==> r.value.Valid() && r.value.vData == vData && r.value.buffer == vData.values[name]
    {
      var attr := CheckAttribute(vData.description, name);
      if attr.Failure? {
        return Failure(attr.error);
      }
      var accessor := new LightNodeIndexAttributeAccessor(vData, vData.values[name]);
      return Success(accessor);
    }

    /** `getLightNodeIndex`: the stored float of vertex `index`, truncated, once the index is
        known to be in range. Converting a float whose truncation does not fit an
        `unsigned int` is undefined, so the stored value must lie above -1 and below 2^32. */
    function GetLightNodeIndex(index: nat): (r: Result<nat, AccessorError>)
      reads this, vData, buffer
      requires Valid()
      requires index < buffer.Length ==> -1.0 < buffer[index] < UnsignedLimit
      ensures r.Success? <==> index < vData.vertexCount
      ensures r.Failure? ==> r.error == IndexOutOfRange(index)
      ensures r.Success? && buffer[index] >= 0.0 ==> r.value as real <= buffer[index] < r.value as real + 1.0
      ensures r.Success? && buffer[index] < 0.0 ==> r.value == 0
    {
      if index >= vData.vertexCount then Failure(IndexOutOfRange(index))
      else Success(ReadIndex(buffer[index]))
    }

    /** `setLightNodeIndex`: stores `value` for vertex `index` once the index is known to be
        in range; no other vertex changes. */
    method SetLightNodeIndex(index: nat, value: real) returns (r: Result<(), AccessorError>)
      requires Valid()
      modifies buffer
      ensures r.Success? <==> index < vData.vertexCount
      ensures r.Failure? ==> r.error == IndexOutOfRange(index) && buffer[..] == old(buffer[..])
      ensures r.Success? ==> buffer[..] == old(buffer[..])[index := value]
      ensures r.Success? && -1.0 < value < UnsignedLimit ==> GetLightNodeIndex(index) == Success(ReadIndex(value))
    {
      if index >= vData.vertexCount {
        return Failure(IndexOutOfRange(index));
      }
      buffer[index] := value;
      r := Success(());
    }
  }

  // ---------------------------------------------------------------------------------------
  // Light-node information attached to scene nodes

  /** The attribute that tags a geometry node with its light-node ID and whether it is
      static. */
  class LightInfoAttribute {
    var lightNodeID: uint32
    var staticNode: bool

    constructor (lightNodeID: uint32, staticNode: bool)
      ensures this.lightNodeID == lightNodeID && this.staticNode == staticNode
    {
      this.lightNodeID, this.staticNode := lightNodeID, staticNode;
    }

    /** A new attribute with the same ID and static flag. */
    method Clone() returns (copy: LightInfoAttribute)
      ensures fresh(copy)
      ensures copy.lightNodeID == lightNodeID && copy.staticNode == staticNode
    {
      copy := new LightInfoAttribute(lightNodeID, staticNode);
    }
  }

  // ---------------------------------------------------------------------------------------
  // Records of the light graph. Pointers between them become indices into the arenas of a
  // `LightGraph`; scene nodes are referred to by an index the scene assigns.

  /** The state of one level of the edge-filtering octree walk. */
  datatype FilterEdgeState = FilterEdgeState(childID: int, nodeOffset: int, t0: Vec3, t1: Vec3, tm: Vec3)

  /** A sampled surface point; `id` locates its values in the node textures. */
  datatype LightNode = LightNode(position: Vec3, normal: Vec3, color: Color4, id: uint32)

  /** A weighted connection between two light nodes (indices into `LightGraph.nodes`). */
  datatype LightEdge = LightEdge(source: nat, target: nat, weight: Vec3)

  /** The edges between two light-node maps (indices into `LightGraph.maps`). */
  datatype LightNodeMapConnection = LightNodeMapConnection(edges: seq<nat>, map1: nat, map2: nat)

  /** The light nodes of one geometry node with its internal edges and its static and
      dynamic connections to other maps. */
  datatype LightNodeMap = LightNodeMap(
    lightNodes: seq<nat>,
    internalLightEdges: seq<nat>,
    externalLightEdgesStatic: seq<nat>,
    externalLightEdgesDynamic: seq<nat>,
    geometryNode: nat,
    staticNode: bool)

  /** A light source as a light node, the scene's light node it stands for, and its edges. */
  datatype LightNodeLightMap = LightNodeLightMap(light: LightNode, lightNode: nat, edges: seq<nat>)

  /** The cube the lighting works in. */
  datatype LightingArea = LightingArea(extend: real, center: Vec3)

  /** The arenas the records refer into. */
  datatype LightGraph = LightGraph(
    nodes: seq<LightNode>,
    edges: seq<LightEdge>,
    connections: seq<LightNodeMapConnection>,
    maps: seq<LightNodeMap>,
    lights: seq<LightNodeLightMap>)
}
