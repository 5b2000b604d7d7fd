# Polygon indexing, surfel packing and light-node bookkeeping (MinSG extensions)

This project models three pieces of the MinSG scene-graph library's extensions in Dafny and
proves properties of the model.

- **Polygon indexing** (ThesisStanislaw). A scene-graph visitor walks the geometry nodes. It
  rewrites each mesh so that every vertex carries a polygon ID from a 32-bit counter, in an
  `sg_PolygonID` attribute. The counter runs across meshes. An indexed mesh is first
  de-indexed: vertex `i` of the new buffer copies old vertex `index[i]`. The IDs are not
  exactly one per triangle:
  - the counter moves on at vertex `i` when `i % 3 == 0 && i != 0`;
  - the indexed branch writes the ID before that increment, so vertices 0 to 3 share one ID
    and vertex `3k` (for `k >= 1`) carries the ID of triangle `k-1`;
  - the non-indexed branch increments first, so its triangles do get one ID each;
  - neither branch moves the counter on after the last triangle, so a mesh's first triangle
    reuses the previous mesh's last ID.

  The visitor is the class `IndexingVisitor`. A mesh is the class `Mesh`, whose vertex
  attributes are arrays that the pass reallocates and writes.
- **Surfel analysis** (BlueSurfels). Three nearest-neighbour distance scans over a mesh's
  vertices: the progressive running minimum, the minimal vertex distances and the median of
  the n-th closest neighbours. Also the surfel packing estimate and its lookup in a node's
  attribute map. The lookup migrates two older attributes and caches the result. The
  scans are methods with loops, each proved against a specification function. The lookup is
  the function `PackingCascade` plus the method `GetSurfelPacking`, which updates the node.
- **Light-node bookkeeping** (ThesisPeter). The vertex attribute accessor that stores one
  light-node index per vertex, with its validating factory and range-checked get and set.
  Also the light-info attribute and its clone, and the records of the light graph. The records
  are datatypes whose pointers become indices into arenas.

Single-precision floats are modelled as reals. The point octree's k-nearest query and
`Vec3::distance` are parameters: `ClosestPoints` and `Metric`. The query is assumed to return
`min(k, stored)` samples, each one of the stored points.

## Model

| member | source | states |
|---|---|---|
| `PolygonIndexing.Increment` | Ext/ThesisStanislaw/PolygonIndexing.h:93 | `currentID++` on the `uint32_t` counter wraps modulo 2^32 |
| `PolygonIndexing.IncrementsClosedForm` | Ext/ThesisStanislaw/PolygonIndexing.h:87-104 | handling `n` entries increments the counter `(n-1)/3` times (0 for an empty mesh); entries 0 to 3 are all handled before the first increment |
| `PolygonIndexing.IncrementsMonotone` | Ext/ThesisStanislaw/PolygonIndexing.h:91-93 | the increment count never decreases along the entries and grows by at most one per entry |
| `PolygonIndexing.CounterStep` | Ext/ThesisStanislaw/PolygonIndexing.h:87-104 | one entry moves the counter on by exactly one increment when `i % 3 == 0 && i != 0`, otherwise leaves it |
| `PolygonIndexing.NextMeshStartsAtLastId` | Ext/ThesisStanislaw/PolygonIndexing.h:91-93 | on whole triangles the counter ends on the ID of the last entry, so the next mesh's first vertex repeats the previous mesh's last ID |
| `PolygonIndexing.StampsNonDecreasing` | Ext/ThesisStanislaw/PolygonIndexing.h:91-103 | without wrap-around, stamped IDs are non-decreasing in vertex order and consecutive IDs differ by at most one |
| `PolygonIndexing.DeindexedCount` | Ext/ThesisStanislaw/PolygonIndexing.h:79-94 | the indexed branch handles `min(indexCount, 3*triangleCount)` entries: all of them, or as many as the reallocated buffer holds |
| `PolygonIndexing.IndexingVisitor.constructor` | Ext/ThesisStanislaw/PolygonIndexing.h:39 | the counter starts at 0 and debug output is off |
| `PolygonIndexing.IndexingVisitor.GetCurrentId` | Ext/ThesisStanislaw/PolygonIndexing.h:121 | returns the counter |
| `PolygonIndexing.IndexingVisitor.ResetCurrentId` | Ext/ThesisStanislaw/PolygonIndexing.h:122 | the counter is 0 again; nothing else changes |
| `PolygonIndexing.IndexingVisitor.SetDebug` | Ext/ThesisStanislaw/PolygonIndexing.h:123 | sets the debug flag, leaves the counter |
| `PolygonIndexing.IndexingVisitor.Enter` | Ext/ThesisStanislaw/PolygonIndexing.h:43-119 | a node that is not a geometry node with a mesh is untouched and traversal continues; an indexed mesh ends de-indexed (see `DeindexAndStamp`); any other mesh keeps its vertices and is stamped (see `StampVertices`); the counter ends at `start + Increments(n)` in both branches; the mesh's index data itself is never changed |
| `PolygonIndexing.IndexingVisitor.DeindexAndStamp` | Ext/ThesisStanislaw/PolygonIndexing.h:59-95 | index data is switched off but its entries are kept; the buffer holds exactly `3*triangleCount` vertices; for every handled `i`, vertex `i` has the position, normal and colour of old vertex `index[i]` and ID `start + Increments(i)` (written before the increment); an index count over `3*triangleCount` ends in the accessor's range error |
| `PolygonIndexing.IndexingVisitor.CopyVertices` | Ext/ThesisStanislaw/PolygonIndexing.h:65-77 | the copied vectors equal the old positions, normals and colours |
| `PolygonIndexing.IndexingVisitor.CopyAndStamp` | Ext/ThesisStanislaw/PolygonIndexing.h:81-95 | entry `k` takes old vertex `indices[k]` and ID `start + Increments(k)`; the counter ends at `start + Increments(n)` |
| `PolygonIndexing.IndexingVisitor.StampVertices` | Ext/ThesisStanislaw/PolygonIndexing.h:96-105 | positions, normals, colours and index data are kept; vertex `i` gets ID `start + Increments(i+1)` (written after the increment); the counter ends at `start + Increments(vertexCount)` |
| `SurfelAnalysis.ProgressiveDistancesShape` | Ext/BlueSurfels/SurfelAnalysis.cpp:118-133 | the emitted running minima never increase and never exceed the enlarged bounding-box diameter; every vertex after the first finds a neighbour and emits one, so `n` vertices emit `n-1` values |
| `SurfelAnalysis.ProgressiveMinimalDistances` | Ext/BlueSurfels/SurfelAnalysis.cpp:101-136 | a mesh without vertices ends in `std::length_error` from `reserve(endIndex-1)`; otherwise the result is the scan `ProgressiveDistances` describes, `vertexCount - 1` non-increasing values bounded by the diameter |
| `SurfelAnalysis.SampledCount` | Ext/BlueSurfels/SurfelAnalysis.cpp:161 | a positive prefix length is clamped to the vertex count (the smaller of the two); 0 selects every vertex |
| `SurfelAnalysis.MinimalVertexDistances` | Ext/BlueSurfels/SurfelAnalysis.cpp:138-201 | samples the first `SampledCount` vertices; each reports the distance to whichever of its two nearest stored points is not itself; at most that many distances, exactly that many when at least two are sampled |
| `SurfelAnalysis.MedianGuardAsWrittenAdmitsShortScan` | Ext/BlueSurfels/SurfelAnalysis.cpp:204-238 | with the as-written guard and `prefixLength <= nThNeighbour`, every query yields at most `nThNeighbour` neighbours, so `distances[nThNeighbour]` is out of range |
| `SurfelAnalysis.MedianGuardAsWrittenCounterexample` | Ext/BlueSurfels/SurfelAnalysis.cpp:204-238 | 10 vertices, prefix 1, neighbour 1: the guard passes and the neighbour list has one entry |
| `SurfelAnalysis.MedianGuardKeepsScanInRange` | Ext/BlueSurfels/SurfelAnalysis.cpp:204-238 | past the corrected guard every query yields `nThNeighbour + 1` neighbours |
| `SurfelAnalysis.InsertPrefix` | Ext/BlueSurfels/SurfelAnalysis.cpp:220-221 | after the loop the octree holds exactly the first `endIndex` vertices, each with its own index |
| `SurfelAnalysis.DistancesTo` | Ext/BlueSurfels/SurfelAnalysis.cpp:234-235 | one distance per returned neighbour, in the query's order |
| `SurfelAnalysis.MedianOfNthClosestNeighbours` | Ext/BlueSurfels/SurfelAnalysis.cpp:203-243 | 0 when the scanned vertices are too few; otherwise the median (entry `size/2` of the sorted values) of each scanned vertex's n-th closest distance, and one of those values |
| `Sorting.SortAscending` | Ext/BlueSurfels/SurfelAnalysis.cpp:237-241 | `std::sort` yields an ascending permutation of its input |
| `SurfelAnalysis.PackingOfSamples` | Ext/BlueSurfels/SurfelAnalysis.cpp:312-313 | the squared mean distance times the sample count is never negative |
| `SurfelAnalysis.ComputeSurfelPackingAsWritten` | Ext/BlueSurfels/SurfelAnalysis.cpp:306-314 | as written, the result is NaN exactly for a mesh without vertices |
| `SurfelAnalysis.ComputeSurfelPacking` | Ext/BlueSurfels/SurfelAnalysis.cpp:306-314 | 0 for an absent or empty mesh, never negative, and equal to the as-written result wherever that is a number |
| `SurfelAnalysis.PackingSamplesClampedCount` | Ext/BlueSurfels/SurfelAnalysis.cpp:308-310 | the estimate samples exactly `min(1000, vertexCount)` vertices |
| `SurfelAnalysis.GetSurfels` | Ext/BlueSurfels/SurfelAnalysis.cpp:350-353 | the node's own `surfels` attribute decides when it has one (a mesh only if it is a mesh reference); otherwise an instance sees its prototype's; the mesh returned is the referenced one |
| `SurfelAnalysis.PackingCascade` | Ext/BlueSurfels/SurfelAnalysis.cpp:316-348 | afterwards `surfelPacking` is stored and reads as the returned value |
| `SurfelAnalysis.StoredPackingIsKept` | Ext/BlueSurfels/SurfelAnalysis.cpp:322-324 | a stored `surfelPacking` is returned and the attributes are unchanged |
| `SurfelAnalysis.SurfaceIsMigrated` | Ext/BlueSurfels/SurfelAnalysis.cpp:326-332 | with only `surfelSurface`: its value is returned, it is removed, and the value is stored as `surfelPacking` |
| `SurfelAnalysis.MedianIsMigrated` | Ext/BlueSurfels/SurfelAnalysis.cpp:335-343 | with only `surfelMedianDist`: the result is `min(1000, vertexCount) * median^2`, the median is removed and the result stored as `surfelPacking` |
| `SurfelAnalysis.PackingIsComputed` | Ext/BlueSurfels/SurfelAnalysis.cpp:345-347 | with none of the three: the computed packing is returned and cached |
| `SurfelAnalysis.CascadeTouchesOnlyPackingKeys` | Ext/BlueSurfels/SurfelAnalysis.cpp:316-348 | no attribute other than the packing, surface and median ones is added, removed or changed |
| `SurfelAnalysis.PackingCascadeIdempotent` | Ext/BlueSurfels/SurfelAnalysis.cpp:319-347 | a second lookup returns the same value and changes nothing |
| `SurfelAnalysis.GetSurfelPacking` | Ext/BlueSurfels/SurfelAnalysis.cpp:316-348 | 0 with no attribute touched for an absent surfel mesh; otherwise the attributes of the node (of its prototype, for an instance) end as `PackingCascade` says and its value is returned |
| `LightNodeManager.CheckAttribute` | Ext/ThesisPeter/LightNodeManager.h:46-62 | succeeds exactly when the attribute holds one value per vertex; an empty attribute (absent, or with no values) gives the no-attribute `invalid_argument`, any other value count the unimplemented-format one |
| `LightNodeManager.LightNodeIndexAttributeAccessor.Create` | Ext/ThesisPeter/LightNodeManager.h:56-63 | an accessor over the attribute's values exactly when the checks pass, otherwise the check's error |
| `LightNodeManager.ReadIndex` | Ext/ThesisPeter/LightNodeManager.h:69-70 | reading a stored float as `unsigned int` truncates toward zero: down for non-negative values, to 0 for values in (-1, 0) |
| `LightNodeManager.WholeIndexReadsBack` | Ext/ThesisPeter/LightNodeManager.h:67-77 | a whole number stored as the index reads back as itself |
| `LightNodeManager.LightNodeIndexAttributeAccessor.GetLightNodeIndex` | Ext/ThesisPeter/LightNodeManager.h:67-71 | the index is range-checked before the buffer is read; in range, the stored value truncated toward zero |
| `LightNodeManager.LightNodeIndexAttributeAccessor.SetLightNodeIndex` | Ext/ThesisPeter/LightNodeManager.h:73-77 | the index is range-checked before the buffer is written; in range, only slot `i` changes, to `v`, and a following get returns `v` truncated |
| `LightNodeManager.LightInfoAttribute.Clone` | Ext/ThesisPeter/LightNodeManager.h:140-145 | a fresh attribute with the same `lightNodeID` and `staticNode` |

## Left out

- The class `LightNodeManager` itself (`LightNodeManager.h:175-302`) is left out. Its light-node creation, edge building and filtering, voxel octree, texture helpers and light propagation are only declared in that header. Their bodies are not part of this model. The same holds for the visitors `NodeCreaterVisitor` and `NodeRenderVisitor` (`LightNodeManager.h:148-173`). The light graph records are modelled as datatypes only.
- `getDiff` with geodesics (`SurfelAnalysis.cpp:63`) is floating-point trigonometry and is left out. So is the geodesic path of `getMinimalVertexDistances` (`SurfelAnalysis.cpp:144-156`, `164-182`), which needs normals and tangents.
- `SurfelAnalysis.ProgressiveMinimalDistances`, `SurfelAnalysis.MinimalVertexDistances`, `SurfelAnalysis.MedianOfNthClosestNeighbours` and `SurfelAnalysis.ComputeSurfelPacking` take the vertex positions as a sequence. `PositionAttributeAccessor::create` (`SurfelAnalysis.cpp:103`, `140`, `207`) throws `invalid_argument` for a mesh without a position attribute, and that error is not modelled.
- `SurfelAnalysis.MinimalVertexDistances`: models the non-geodesic path only. There `getDiff(...).length()` is the plain distance between the two points, because every sample has weight 1.
- `differentialDomainAnalysis`, `getRadialMeanVariance` and `computeRelPixelSize` (`SurfelAnalysis.cpp:245-304`, `357-527`) are left out: they are float image analysis and camera/frustum computation.
- `PointOctree` is a foreign library. It is the `ClosestPoints` parameter, assumed to return `min(k, stored)` samples, each one of the stored points. Which of them it returns, and in which order, is not modelled. `Vec3::distance` is the `Metric` parameter.
- The mesh bounding box and its enlarged diameter are foreign computations. The diameter is a parameter.
- All single-precision float rounding is left out: values are reals.
- `LightNodeManager.LightNodeIndexAttributeAccessor.SetLightNodeIndex`: the round trip is stated for the stored real. An `unsigned int` index above 2^24 passed through the `float` parameter is rounded in the source, and that rounding is not modelled.
- `LightNodeManager.LightNodeIndexAttributeAccessor.GetLightNodeIndex`: requires the stored float to lie above -1 and below 2^32. Converting a float whose truncation does not fit an `unsigned int` is undefined behaviour. `LightNodeManager.ReadIndex` has the same requirement.
- The accessor's stride and offset inside interleaved vertex data are not modelled. Each attribute's values are one array.
- `LightNodeManager.LightNodeIndexAttributeAccessor.Create`: the data-type test in `create` is commented out (`LightNodeManager.h:58`). So the source accepts any one-value attribute and reads and writes it as `float`. The model assumes the attribute is stored as floats.
- `MeshUtils::convertVertices` is foreign. It is assumed to keep every vertex's position, normal and colour.
- `PolygonIndexing.IndexingVisitor.DeindexAndStamp`: the reallocated vertex data uses the three-channel float colour layout of `PolygonIndexing.h:56` (allocated at line 79, written at line 90). The model keeps four-channel colours, so colour alpha is not dropped in the model.
- `PolygonIndexing.IndexingVisitor.CopyAndStamp`: colours are copied as `Color4f` values. The conversion into the new layout's three-channel float colour attribute, which drops alpha, is not modelled.
- `PolygonIndexing.IndexingVisitor.StampVertices`: the mesh keeps its positions, normals and four-channel colours. In the source, `convertVertices` converts into the layout built at `PolygonIndexing.h:53-57`. That conversion drops colour alpha and every attribute other than position, normal, colour and `sg_PolygonID`, and is not modelled.
- `PolygonIndexing.IndexingVisitor.Enter`: in both branches the rewritten vertex data keeps four-channel colours and says nothing about other attributes, for the two reasons above.
- `PolygonIndexing.IndexingVisitor.Enter`: requires every index of an indexed mesh to name an old vertex. The source reads `oldPos[index[i]]` unchecked, which is undefined behaviour otherwise.
- `PolygonIndexing.IndexingVisitor.Enter`: a mesh is assumed to have position, normal and colour attributes. The accessor factories' exceptions for missing ones are not modelled.
- `GeometryNode::getTriangleCount` is foreign. It is the mesh's `triangleCount` field.
- The debug printing of `enter` (`PolygonIndexing.h:107-116`) has no effect on the model.
- `Node::findAttribute` is `SurfelAnalysis.FindAttribute`: the node's own attribute, else, for an instance, its prototype's. `GenericAttribute::toFloat` of a non-numeric attribute is taken as 0.
- `SurfelAnalysis.GetSurfelPacking`: the lookups on the prototype read its own attribute map. A prototype is assumed not to be an instance itself, so `findAttribute` has nothing to fall back to.
- `SurfelAnalysis.PackingCascade` and `SurfelAnalysis.GetSurfelPacking` use the corrected `ComputeSurfelPacking`. For a surfel mesh without vertices they return and cache 0 where the source caches NaN (`SurfelAnalysis.cpp:345-346`; see Findings).
- The rest of the repository is not part of this model: exporters, evaluators, behaviours, animation, waypoints, state wrappers and the `PolygonIndexingState` renderer.

## Findings

| source | as written | input that shows it | evidently intended | confidence | as-written member | corrected member |
|---|---|---|---|---|---|---|
| Ext/BlueSurfels/SurfelAnalysis.cpp:204-238 | returns early only when `vertexCount <= nThNeighbour`, but scans `min(vertexCount, prefixLength)` vertices and reads `distances[nThNeighbour]` | 10 vertices, `prefixLength` 1, `nThNeighbour` 1: the octree holds one point, each query yields one neighbour, and `distances[1]` is read from a one-element vector. `prefixLength` 0 also gets through and indexes an empty vector | return 0 when `min(vertexCount, prefixLength) <= nThNeighbour` | high, not executed | `SurfelAnalysis.MedianGuardAsWrittenCounterexample` | `SurfelAnalysis.MedianOfNthClosestNeighbours` |
| Ext/BlueSurfels/SurfelAnalysis.cpp:306-313 | guards only the null mesh, then divides the summed distances by `count` | a surfel mesh with 0 vertices: `0.0 / 0` is NaN, and `getSurfelPacking` caches it as `surfelPacking` (lines 345-346) | 0, as for an absent mesh | medium, not executed | `SurfelAnalysis.ComputeSurfelPackingAsWritten` | `SurfelAnalysis.ComputeSurfelPacking` |
