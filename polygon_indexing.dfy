/** The polygon indexing pass of the ThesisStanislaw extension: a scene-graph visitor that
    rewrites every mesh so that each vertex carries a polygon ID from a 32-bit counter in an
    `sg_PolygonID` attribute, de-indexing indexed meshes on the way. The IDs are not exactly
    one per triangle: the indexed branch stamps before it increments, so its first four
    vertices share an ID (`IncrementsClosedForm`), and no branch increments after the last
    triangle, so the next mesh starts on the same ID (`NextMeshStartsAtLastId`). */
module PolygonIndexing {
  import opened Numeric
  import opened Geometry

  // ---------------------------------------------------------------------------------------
  // The polygon-ID counter

  /** `currentID++` on the `uint32_t` counter: wraps to 0 after 2^32 - 1. */
  function Increment(id: uint32): (r: uint32)
    ensures r as int == (id as int + 1) % Uint32Modulus
  {
    if id == 0xFFFF_FFFF then 0 else id + 1
  }

  /** The value of a 32-bit counter that started at `start` after `k` increments. */
  function Advance(start: uint32, k: nat): (id: uint32)
  {
    ((start as int + k) % Uint32Modulus) as uint32
  }

  /** Both loops of `enter` increment the counter while handling entry `i` exactly when
      `i % 3 == 0 && i != 0`. */
  predicate IncrementsAt(i: nat)
  {
    i % 3 == 0 && i != 0
  }

  /** The number of increments `enter` performs while handling entries `0 .. n-1`,
      counted entry by entry. */
  function Increments(n: nat): (count: nat)
  {
    if n == 0 then 0 else Increments(n - 1) + (if IncrementsAt(n - 1) then 1 else 0)
  }

  lemma AdvanceStep(start: uint32, k: nat)
    ensures Advance(start, k + 1) == Increment(Advance(start, k))
  {
    var s := start as int + k;
    if s % Uint32Modulus == Uint32Modulus - 1 {
      assert (s + 1) % Uint32Modulus == 0;
    } else {
      assert (s + 1) % Uint32Modulus == s % Uint32Modulus + 1;
    }
  }

  /** One entry of either loop: the counter moves on by one increment exactly when the entry
      is one where `enter` increments. */
  lemma CounterStep(start: uint32, i: nat)
    ensures Advance(start, Increments(i + 1))
         == if IncrementsAt(i) then Increment(Advance(start, Increments(i))) else Advance(start, Increments(i))
  {
    AdvanceStep(start, Increments(i));
  }

  /** Closed form of the counting definition: `n` entries advance the counter by
      `(n - 1) / 3` (and an empty mesh not at all); entries 0 to 3 are all handled before the
      first increment. */
  lemma {:induction false} IncrementsClosedForm(n: nat)
    ensures Increments(n) == if n == 0 then 0 else (n - 1) / 3
    ensures n <= 3 ==> Increments(n) == 0
  {
    if n > 0 {
      IncrementsClosedForm(n - 1);
      if n >= 2 {
        var q, r := (n - 2) / 3, (n - 2) % 3;
        assert n - 2 == 3 * q + r && 0 <= r < 3;
        if r == 2 {
          assert n - 1 == 3 * (q + 1);
        } else {
          assert n - 1 == 3 * q + (r + 1);
        }
      }
    }
  }

  /** The increment counts are non-decreasing and grow by at most one per entry. */
  lemma {:induction false} IncrementsMonotone(i: nat, j: nat)
    requires i <= j
    ensures Increments(i) <= Increments(j)
    ensures Increments(i + 1) <= Increments(i) + 1
  {
    if i < j {
      IncrementsMonotone(i, j - 1);
    }
  }

  /** On a mesh of whole triangles the counter stops at the ID of the last triangle: the
      indexed branch stamps the last entry with the count the counter ends on, so the next
      mesh's first vertex (which gets the counter unchanged in both branches) repeats the
      previous mesh's last ID. The non-indexed branch stamps entry `i` with `Increments(i + 1)`
      and therefore always ends on its last stamp. */
  lemma NextMeshStartsAtLastId(n: nat)
    requires n >= 1 && n % 3 == 0
    ensures Increments(n - 1) == Increments(n)
  {
    assert !IncrementsAt(n - 1);
  }

  /** Without wrap-around the stamps of one mesh are non-decreasing in vertex order and
      consecutive stamps differ by at most one, in both branches. */
  lemma StampsNonDecreasing(start: uint32, n: nat, i: nat, j: nat)
    requires start as int + Increments(n) < Uint32Modulus
    requires i <= j <= n
    ensures Advance(start, Increments(i)) <= Advance(start, Increments(j))
    ensures i < n ==> Advance(start, Increments(i + 1)) as int <= Advance(start, Increments(i)) as int + 1
  {
    IncrementsMonotone(i, j);
    IncrementsMonotone(j, n);
    if i < n {
      IncrementsMonotone(i + 1, n);
    }
  }

  // ---------------------------------------------------------------------------------------
  // Meshes and scene nodes

  /** Vertex accessor range checks of the rendering library: an out-of-range write throws. */
  datatype Outcome = ContinueTraversal | AccessorRangeError(index: nat)

  /** A mesh and its vertex data, reduced to what the pass reads and writes. */
  class Mesh {
    var positions: array<Vec3>
    var normals: array<Vec3>
    var colors: array<Color4>
    /** The `sg_PolygonID` attribute, one unsigned value per vertex. */
    var polygonIds: array<uint32>
    var useIndexData: bool
    var indices: seq<nat>
    /** What the owning geometry node reports as its triangle count. */
    const triangleCount: nat

    ghost predicate Valid()
      reads this
    {
      && positions.Length == normals.Length == colors.Length == polygonIds.Length
      && positions != normals
    }

    constructor (positions: array<Vec3>, normals: array<Vec3>, colors: array<Color4>,
                 polygonIds: array<uint32>, useIndexData: bool, indices: seq<nat>, triangleCount: nat)
      requires positions.Length == normals.Length == colors.Length == polygonIds.Length
      requires positions != normals
      ensures Valid()
      ensures this.positions == positions && this.normals == normals && this.colors == colors
      ensures this.polygonIds == polygonIds && this.useIndexData == useIndexData
      ensures this.indices == indices && this.triangleCount == triangleCount
    {
      this.positions, this.normals, this.colors := positions, normals, colors;
      this.polygonIds, this.useIndexData := polygonIds, useIndexData;
      this.indices, this.triangleCount := indices, triangleCount;
    }
  }

  /** What the visitor is shown: a `GeometryNode` (whose mesh may be absent) or any other
      node. */
  datatype SceneNode = GeometryNode(mesh: Mesh?) | OtherNode
  {
    predicate HasMesh() { GeometryNode? && mesh != null }

    function Meshes(): set<Mesh>
    {
      if HasMesh() then {mesh} else {}
    }
  }

  /** An index buffer the de-indexing copy can follow: every index names an old vertex. */
  predicate IndicesInRange(indices: seq<nat>, vertexCount: nat)
  {
    forall i :: 0 <= i < |indices| ==> indices[i] < vertexCount
  }

  /** How many entries the indexed branch handles before it finishes or the write into the
      freshly allocated `3 * triangleCount` vertices fails. */
  function DeindexedCount(indexCount: nat, triangleCount: nat): (n: nat)
    ensures n <= indexCount && n <= 3 * triangleCount
    ensures n == indexCount || n == 3 * triangleCount
  {
    Min(indexCount, 3 * triangleCount)
  }

  /** The state the indexed branch leaves: index data switched off, `3 * triangleCount`
      vertices, and the first `n` of them copied from old vertex `indices[i]` and stamped
      with the counter as it stood before entry `i` was handled. */
  ghost predicate Deindexed(m: Mesh, pos: seq<Vec3>, nor: seq<Vec3>, col: seq<Color4>,
                            indices: seq<nat>, start: uint32, n: nat)
    reads m, m.positions, m.normals, m.colors, m.polygonIds
  {
    && m.Valid()
    && !m.useIndexData
    && m.positions.Length == 3 * m.triangleCount
    && n <= |indices| && n <= m.positions.Length
    && (forall i :: 0 <= i < n ==> indices[i] < |pos| == |nor| == |col|)
    && (forall i :: 0 <= i < n ==>
          m.positions[i] == pos[indices[i]] && m.normals[i] == nor[indices[i]] && m.colors[i] == col[indices[i]])
    && (forall i :: 0 <= i < n ==> m.polygonIds[i] == Advance(start, Increments(i)))
  }

  /** The state the non-indexed branch leaves: vertex data kept, and vertex `i` stamped with
      the counter after it was incremented for entry `i`. */
  ghost predicate Stamped(m: Mesh, pos: seq<Vec3>, nor: seq<Vec3>, col: seq<Color4>, start: uint32)
    reads m, m.positions, m.normals, m.colors, m.polygonIds
  {
    && m.Valid()
    && m.positions[..] == pos && m.normals[..] == nor && m.colors[..] == col
    && (forall i :: 0 <= i < m.polygonIds.Length ==> m.polygonIds[i] == Advance(start, Increments(i + 1)))
  }

  // ---------------------------------------------------------------------------------------
  // The visitor

  class IndexingVisitor {
    var currentId: uint32
    var outputDebug: bool

    constructor ()
      ensures currentId == 0 && !outputDebug
    {
      currentId := 0;
      outputDebug := false;
    }

    method GetCurrentId() returns (id: uint32)
      ensures id == currentId
    {
      id := currentId;
    }

    method ResetCurrentId()
      modifies this
      ensures currentId == 0 && outputDebug == old(outputDebug)
    {
      currentId := 0;
    }

    method SetDebug(v: bool)
      modifies this
      ensures outputDebug == v && currentId == old(currentId)
    {
      outputDebug := v;
    }

    /** Visits one node: a geometry node with a mesh is rewritten (indexed meshes are
        de-indexed first), any other node is left alone; traversal continues unless a vertex
        write is out of range. */
    method Enter(node: SceneNode) returns (outcome: Outcome)
      requires node.HasMesh() ==> node.mesh.Valid()
      requires node.HasMesh() && node.mesh.useIndexData ==>
                 IndicesInRange(node.mesh.indices, node.mesh.positions.Length)
      modifies this, node.Meshes()
      ensures outputDebug == old(outputDebug)
      ensures node.HasMesh() ==> node.mesh.indices == old(node.mesh.indices)
      ensures !node.HasMesh() ==> outcome == ContinueTraversal && currentId == old(currentId)
      ensures node.HasMesh() && old(node.mesh.useIndexData) ==>
        var n := DeindexedCount(|old(node.mesh.indices)|, node.mesh.triangleCount);
        && Deindexed(node.mesh, old(node.mesh.positions[..]), old(node.mesh.normals[..]),
                     old(node.mesh.colors[..]), old(node.mesh.indices), old(currentId), n)
        && currentId == Advance(old(currentId), Increments(n))
        && outcome == (if n < |old(node.mesh.indices)| then AccessorRangeError(n) else ContinueTraversal)
      ensures node.HasMesh() && !old(node.mesh.useIndexData) ==>
        && Stamped(node.mesh, old(node.mesh.positions[..]), old(node.mesh.normals[..]),
                   old(node.mesh.colors[..]), old(currentId))
        && node.mesh.useIndexData == old(node.mesh.useIndexData)
        && currentId == Advance(old(currentId), Increments(node.mesh.positions.Length))
        && outcome == ContinueTraversal
    {
      if node.HasMesh() {
        var mesh := node.mesh;
        if mesh.useIndexData {
          outcome := DeindexAndStamp(mesh);
        } else {
          StampVertices(mesh);
          outcome := ContinueTraversal;
        }
      } else {
        outcome := ContinueTraversal;
      }
    }

    /** The indexed branch: copy the old vertices, reallocate `3 * triangleCount` vertices
        and write entry `i` from old vertex `indices[i]`, stamping before incrementing. */
    method DeindexAndStamp(m: Mesh) returns (outcome: Outcome)
      requires m.Valid() && m.useIndexData
      requires IndicesInRange(m.indices, m.positions.Length)
      modifies this, m
      ensures outputDebug == old(outputDebug)
      ensures m.indices == old(m.indices)
      ensures var n := DeindexedCount(|old(m.indices)|, m.triangleCount);
        && Deindexed(m, old(m.positions[..]), old(m.normals[..]), old(m.colors[..]), old(m.indices), old(currentId), n)
        && currentId == Advance(old(currentId), Increments(n))
        && outcome == (if n < |old(m.indices)| then AccessorRangeError(n) else ContinueTraversal)
    {
      var vertexCount := m.positions.Length;
      var indices := m.indices;
      var indexCount := |indices|;
      m.useIndexData := false;

      var oldPos, oldNormal, oldColor := CopyVertices(m);

      var newCount := m.triangleCount * 3;
      var pos := new Vec3[newCount];
      var nor := new Vec3[newCount];
      var col := new Color4[newCount];
      var ids := new uint32[newCount];
      m.positions, m.normals, m.colors, m.polygonIds := pos, nor, col, ids;
      outcome := CopyAndStamp(pos, nor, col, ids, oldPos, oldNormal, oldColor, indices);
    }

    /** The write loop of the indexed branch over the freshly allocated vertex buffers:
        entry `i` takes old vertex `indices[i]` and the counter value before the increment
        that entry `i` may cause; writing past the buffers stops the loop with an error. */
    method CopyAndStamp(pos: array<Vec3>, nor: array<Vec3>, col: array<Color4>, ids: array<uint32>,
                        oldPos: seq<Vec3>, oldNormal: seq<Vec3>, oldColor: seq<Color4>, indices: seq<nat>)
      returns (outcome: Outcome)
      requires pos.Length == nor.Length == col.Length == ids.Length && pos != nor
      requires |oldPos| == |oldNormal| == |oldColor| && IndicesInRange(indices, |oldPos|)
      modifies this`currentId, pos, nor, col, ids
      ensures var n := Min(|indices|, pos.Length);
        && currentId == Advance(old(currentId), Increments(n))
        && outcome == (if n < |indices| then AccessorRangeError(n) else ContinueTraversal)
        && (forall k :: 0 <= k < n ==>
              pos[k] == oldPos[indices[k]] && nor[k] == oldNormal[indices[k]] && col[k] == oldColor[indices[k]])
        && (forall k :: 0 <= k < n ==> ids[k] == Advance(old(currentId), Increments(k)))
    {
      ghost var start := currentId;
      // The source loops over all `indices`; its write at entry `pos.Length` (if it gets that
      // far) is refused by the accessor's range check before anything is written.
      var n := Min(|indices|, pos.Length);
      for i := 0 to n
        invariant currentId == Advance(start, Increments(i))
        invariant forall k :: 0 <= k < i ==>
          pos[k] == oldPos[indices[k]] && nor[k] == oldNormal[indices[k]] && col[k] == oldColor[indices[k]]
        invariant forall k :: 0 <= k < i ==> ids[k] == Advance(start, Increments(k))
      {
        WriteVertex(pos, nor, col, ids, i, oldPos[indices[i]], oldNormal[indices[i]], oldColor[indices[i]], currentId);
        CounterStep(start, i);
        if i % 3 == 0 && i != 0 {
          currentId := Increment(currentId);
        }
      }
      outcome := if n < |indices| then AccessorRangeError(n) else ContinueTraversal;
    }

    /** One entry of the write loop: vertex `i` gets a position, normal, colour and polygon
        ID; every other vertex keeps its values. */
    static method WriteVertex(pos: array<Vec3>, nor: array<Vec3>, col: array<Color4>, ids: array<uint32>,
                              i: nat, p: Vec3, n: Vec3, c: Color4, id: uint32)
      requires i < pos.Length == nor.Length == col.Length == ids.Length && pos != nor
      modifies pos, nor, col, ids
      ensures pos[..] == old(pos[..])[i := p] && nor[..] == old(nor[..])[i := n]
      ensures col[..] == old(col[..])[i := c] && ids[..] == old(ids[..])[i := id]
    {
      pos[i] := p;
      nor[i] := n;
      col[i] := c;
      ids[i] := id;
    }

    /** The copy of the old vertex data the indexed branch takes before reallocating. */
    static method CopyVertices(m: Mesh) returns (oldPos: seq<Vec3>, oldNormal: seq<Vec3>, oldColor: seq<Color4>)
      requires m.Valid()
      ensures oldPos == m.positions[..] && oldNormal == m.normals[..] && oldColor == m.colors[..]
    {
      oldPos, oldNormal, oldColor := [], [], [];
      for i := 0 to m.positions.Length
        invariant oldPos == m.positions[..i] && oldNormal == m.normals[..i] && oldColor == m.colors[..i]
      {
        oldPos := oldPos + [m.positions[i]];
        oldNormal := oldNormal + [m.normals[i]];
        oldColor := oldColor + [m.colors[i]];
      }
    }

    /** The non-indexed branch: the vertex data is converted to the layout with an
        `sg_PolygonID` attribute (same vertices), then vertex `i` is stamped after the
        counter was incremented for it. */
    method StampVertices(m: Mesh)
      requires m.Valid() && !m.useIndexData
      modifies this, m
      ensures outputDebug == old(outputDebug)
      ensures m.useIndexData == old(m.useIndexData) && m.indices == old(m.indices)
      ensures Stamped(m, old(m.positions[..]), old(m.normals[..]), old(m.colors[..]), old(currentId))
      ensures currentId == Advance(old(currentId), Increments(m.positions.Length))
    {
      var vertexCount := m.positions.Length;
      var ids := new uint32[vertexCount];
      m.polygonIds := ids;
      ghost var start := currentId;
      for i := 0 to vertexCount
        invariant m.polygonIds == ids && m.useIndexData == old(m.useIndexData) && outputDebug == old(outputDebug)
        invariant m.indices == old(m.indices)
        invariant m.positions == old(m.positions) && m.normals == old(m.normals) && m.colors == old(m.colors)
        invariant currentId == Advance(start, Increments(i))
        invariant forall k :: 0 <= k < i ==> ids[k] == Advance(start, Increments(k + 1))
      {
        CounterStep(start, i);
        if i % 3 == 0 && i != 0 {
          currentId := Increment(currentId);
        }
        ids[i] := currentId;
      }
    }
  }
}
