/** The surfel analysis helpers of the BlueSurfels extension: nearest-neighbour distance scans
    over a mesh's vertices, the surfel packing estimate derived from them, and the lookup of
    that estimate in a node's attributes, including the migration of two older attributes. */
module SurfelAnalysis {
  import opened Wrappers
  import opened Numeric
  import opened Geometry
  import opened Sorting

  // ---------------------------------------------------------------------------------------
  // The point octree, as an oracle

  /** A point stored in the octree, with the index of the vertex it came from. */
  datatype Sample = Sample(i: nat, p: Vec3)

  /** What is assumed of `PointOctree::getClosestPoints(pos, k, out)`: it yields `k` of the
      stored points, or all of them when fewer are stored. Which points, and in which order,
      is left to the oracle. */
  ghost predicate YieldsAvailableCount(query: (seq<Sample>, Vec3, nat) -> seq<Sample>)
  {
    forall stored, p, k ::
      && |query(stored, p, k)| == Min(k, |stored|)
      && forall s :: s in query(stored, p, k) ==> s in stored
  }

  /** The k-nearest-neighbour query of the octree over the samples inserted so far. */
  type ClosestPoints = query: (seq<Sample>, Vec3, nat) -> seq<Sample> | YieldsAvailableCount(query)
    witness (stored: seq<Sample>, p: Vec3, k: nat) => stored[..Min(k, |stored|)]

  /** `Vec3::distance`. */
  type Metric = (Vec3, Vec3) -> real

  /** The octree after the first `n` vertices were inserted, in insertion order. */
  function Stored(positions: seq<Vec3>, n: nat): (s: seq<Sample>)
    requires n <= |positions|
    ensures |s| == n
    ensures forall j :: 0 <= j < n ==> s[j] == Sample(j, positions[j])
  {
    seq(n, j requires 0 <= j < n => Sample(j, positions[j]))
  }

  // ---------------------------------------------------------------------------------------
  // Progressive closest distances

  /** The running minimum of the progressive scan after the emitted distances `emitted`: the
      last one emitted, or the enlarged bounding box's diameter it starts from. */
  function CurrentClosest(emitted: seq<real>, diameter: real): (current: real)
  {
    if emitted == [] then diameter else emitted[|emitted| - 1]
  }

  /** What the progressive scan emits for the first `n` vertices: vertex `v` is looked up
      among vertices `0 .. v-1` and, when a neighbour is found, the running minimum, lowered
      to its distance if that is smaller, is emitted. */
  function ProgressiveDistances(positions: seq<Vec3>, n: nat, diameter: real,
                                closest: ClosestPoints, dist: Metric): (emitted: seq<real>)
    requires n <= |positions|
  {
    if n == 0 then []
    else
      var emitted := ProgressiveDistances(positions, n - 1, diameter, closest, dist);
      var found := closest(Stored(positions, n - 1), positions[n - 1], 1);
      if found == [] then emitted
      else
        var d := dist(positions[n - 1], found[0].p);
        var current := CurrentClosest(emitted, diameter);
        emitted + [if d < current then d else current]
  }

  /** The emitted distances never increase and never exceed the starting diameter; every
      vertex after the first finds a neighbour among the ones before it and emits one. */
  lemma {:induction false} ProgressiveDistancesShape(positions: seq<Vec3>, n: nat, diameter: real,
                                                     closest: ClosestPoints, dist: Metric)
    requires n <= |positions|
    ensures var emitted := ProgressiveDistances(positions, n, diameter, closest, dist);
      && |emitted| == (if n == 0 then 0 else n - 1)
      && (forall k :: 0 < k < |emitted| ==> emitted[k] <= emitted[k - 1])
      && (forall k :: 0 <= k < |emitted| ==> emitted[k] <= diameter)
  {
    if n > 0 {
      ProgressiveDistancesShape(positions, n - 1, diameter, closest, dist);
      var emitted := ProgressiveDistances(positions, n - 1, diameter, closest, dist);
      assert |closest(Stored(positions, n - 1), positions[n - 1], 1)| == Min(1, n - 1);
      assert emitted != [] ==> CurrentClosest(emitted, diameter) == emitted[|emitted| - 1];
    }
  }

  /** The exception `std::vector::reserve` throws for a request beyond `max_size()`. */
  datatype ReserveError = LengthError

  /** `getProgressiveMinimalMinimalVertexDistances`: for every vertex in order, the smallest
      nearest-neighbour distance seen so far. `boxDiameter` is the diameter of the mesh's
      bounding box enlarged by 1%. The output vector reserves `vertexCount - 1` entries up
      front; for a mesh without vertices that `size_t` wraps to its maximum and the
      reservation throws before the scan starts. */
  method ProgressiveMinimalDistances(positions: seq<Vec3>, boxDiameter: real,
                                     closest: ClosestPoints, dist: Metric)
    returns (r: Result<seq<real>, ReserveError>)
    ensures r.Failure? <==> |positions| == 0
    ensures r.Success? ==> r.value == ProgressiveDistances(positions, |positions|, boxDiameter, closest, dist)
    ensures r.Success? ==> |r.value| == |positions| - 1
    ensures r.Success? ==> forall k :: 0 < k < |r.value| ==> r.value[k] <= r.value[k - 1]
    ensures r.Success? ==> forall k :: 0 <= k < |r.value| ==> r.value[k] <= boxDiameter
  {
    var endIndex := |positions|;
    if endIndex == 0 {
      return Failure(LengthError);
    }
    var octree: seq<Sample> := [];
    var currentClosestDistance := boxDiameter;
    var distances: seq<real> := [];
    for vIndex := 0 to endIndex
      invariant octree == Stored(positions, vIndex)
      invariant distances == ProgressiveDistances(positions, vIndex, boxDiameter, closest, dist)
      invariant currentClosestDistance == CurrentClosest(distances, boxDiameter)
    {
      var pos := positions[vIndex];
      var closestNeighbors := closest(octree, pos, 1);
      if closestNeighbors != [] {
        var d := dist(pos, closestNeighbors[0].p);
        if d < currentClosestDistance {
          currentClosestDistance := d;
        }
        distances := distances + [currentClosestDistance];
      }
      octree := octree + [Sample(vIndex, pos)];
    }
    ProgressiveDistancesShape(positions, endIndex, boxDiameter, closest, dist);
    r := Success(distances);
  }

  // ---------------------------------------------------------------------------------------
  // Minimal vertex distances

  /** How many vertices `getMinimalVertexDistances` samples: a positive `prefixLength`
      clamped to the vertex count, or every vertex when it is 0. */
  function SampledCount(prefixLength: nat, vertexCount: nat): (n: nat)
    ensures n <= vertexCount
    ensures prefixLength > 0 ==> n <= prefixLength && (n == prefixLength || n == vertexCount)
    ensures prefixLength == 0 ==> n == vertexCount
  {
    if prefixLength > 0 then Min(prefixLength, vertexCount) else vertexCount
  }

  /** The distance reported for sample `s`: the two stored points closest to it are asked
      for and, when two come back, the distance to the one that is not `s` itself (by vertex
      index) is reported. */
  function OtherNeighbourDistance(stored: seq<Sample>, s: Sample, closest: ClosestPoints, dist: Metric): (d: Option<real>)
  {
    var neighbors := closest(stored, s.p, 2);
    if |neighbors| == 2 then
      Some(dist(s.p, (if neighbors[0].i == s.i then neighbors[1] else neighbors[0]).p))
    else None
  }

  /** What `getMinimalVertexDistances` reports for the first `k` stored samples. */
  function MinimalDistances(stored: seq<Sample>, k: nat, closest: ClosestPoints, dist: Metric): (distances: seq<real>)
    requires k <= |stored|
  {
    if k == 0 then []
    else
      var earlier := MinimalDistances(stored, k - 1, closest, dist);
      match OtherNeighbourDistance(stored, stored[k - 1], closest, dist)
      case Some(d) => earlier + [d]
      case None => earlier
  }

  /** `getMinimalVertexDistances` without geodesics: the first `SampledCount` vertices are
      inserted into the octree, then each of them reports the distance to its nearest other
      sample. With one sample there is no other point, so nothing is reported. */
  method MinimalVertexDistances(positions: seq<Vec3>, prefixLength: nat, closest: ClosestPoints, dist: Metric)
    returns (closestDistances: seq<real>)
    ensures var n := SampledCount(prefixLength, |positions|);
      && closestDistances == MinimalDistances(Stored(positions, n), n, closest, dist)
      && |closestDistances| == (if n >= 2 then n else 0)
  {
    var n := if prefixLength > 0 then Min(prefixLength, |positions|) else |positions|;
    var samples: seq<Sample> := [];
    for i := 0 to n
      invariant samples == Stored(positions, i)
    {
      samples := samples + [Sample(i, positions[i])];
    }
    closestDistances := [];
    for k := 0 to |samples|
      invariant closestDistances == MinimalDistances(samples, k, closest, dist)
      invariant |closestDistances| == (if n >= 2 then k else 0)
    {
      var s1 := samples[k];
      var neighbors := closest(samples, s1.p, 2);
      if |neighbors| == 2 {
        var other := if neighbors[0].i == s1.i then neighbors[1] else neighbors[0];
        closestDistances := closestDistances + [dist(s1.p, other.p)];
      }
    }
  }

  // ---------------------------------------------------------------------------------------
  // Median of the n-th closest neighbours

  /** The early return of `getMedianOfNthClosestNeighbours` as written: it compares the
      vertex count, not the number of vertices the scan covers, with `nThNeighbour`. */
  predicate MedianReturnsEarlyAsWritten(vertexCount: nat, nth: nat)
  {
    vertexCount <= nth
  }

  /** The corrected early return: the scan covers `min(vertexCount, prefixLength)` vertices
      and needs more than `nth` of them to read an `nth` closest distance. */
  predicate MedianReturnsEarly(vertexCount: nat, prefixLength: nat, nth: nat)
  {
    Min(vertexCount, prefixLength) <= nth
  }

  /** The as-written guard lets a scan through whose neighbour lists are too short: with
      `prefixLength <= nth` every query yields at most `nth` neighbours, so reading entry
      `nth` of the sorted distances is out of range. */
  lemma MedianGuardAsWrittenAdmitsShortScan(vertexCount: nat, prefixLength: nat, nth: nat,
                                            closest: ClosestPoints, p: Vec3, positions: seq<Vec3>)
    requires !MedianReturnsEarlyAsWritten(vertexCount, nth) && prefixLength <= nth
    requires |positions| == vertexCount
    ensures MedianReturnsEarly(vertexCount, prefixLength, nth)
    ensures |closest(Stored(positions, Min(vertexCount, prefixLength)), p, nth + 1)| <= nth
  {
  }

  /** Concretely: ten vertices, a prefix of one, the first neighbour. */
  lemma MedianGuardAsWrittenCounterexample(closest: ClosestPoints, p: Vec3, positions: seq<Vec3>)
    requires |positions| == 10
    ensures !MedianReturnsEarlyAsWritten(10, 1)
    ensures |closest(Stored(positions, Min(10, 1)), p, 2)| == 1
  {
  }

  /** Past the corrected guard every query yields `nth + 1` neighbours, so entry `nth` of
      the sorted distances exists. */
  lemma MedianGuardKeepsScanInRange(vertexCount: nat, prefixLength: nat, nth: nat,
                                    closest: ClosestPoints, p: Vec3, positions: seq<Vec3>)
    requires !MedianReturnsEarly(vertexCount, prefixLength, nth)
    requires |positions| == vertexCount
    ensures |closest(Stored(positions, Min(vertexCount, prefixLength)), p, nth + 1)| == nth + 1
  {
  }

  /** The distances from `pos` to each of `neighbours`. */
  function NeighbourDistances(neighbours: seq<Sample>, pos: Vec3, dist: Metric): (r: seq<real>)
    ensures |r| == |neighbours|
  {
    seq(|neighbours|, j requires 0 <= j < |neighbours| => dist(neighbours[j].p, pos))
  }

  /** The `nth` smallest distance (counting from 0) from `pos` to the `nth + 1` stored points
      nearest to it. */
  function NthClosestDistance(stored: seq<Sample>, pos: Vec3, nth: nat, closest: ClosestPoints, dist: Metric): (d: real)
    requires nth < |stored|
  {
    SortAscending(NeighbourDistances(closest(stored, pos, nth + 1), pos, dist))[nth]
  }

  /** The `nth` closest distances of the first `count` stored samples. */
  function NthClosestDistances(stored: seq<Sample>, count: nat, nth: nat, closest: ClosestPoints, dist: Metric): (r: seq<real>)
    requires count <= |stored| && nth < |stored|
    ensures |r| == count
  {
    if count == 0 then []
    else NthClosestDistances(stored, count - 1, nth, closest, dist)
         + [NthClosestDistance(stored, stored[count - 1].p, nth, closest, dist)]
  }

  /** The median the source picks: entry `size * 0.5`, truncated, of the sorted values. */
  function Median(s: seq<real>): (median: real)
    requires |s| > 0
  {
    SortAscending(s)[|s| / 2]
  }

  /** The octree after inserting the first `count` vertices, one after another. */
  method InsertPrefix(positions: seq<Vec3>, count: nat) returns (octree: seq<Sample>)
    requires count <= |positions|
    ensures octree == Stored(positions, count)
  {
    octree := [];
    for vIndex := 0 to count
      invariant octree == Stored(positions, vIndex)
    {
      octree := octree + [Sample(vIndex, positions[vIndex])];
    }
  }

  /** The distance of each neighbour to `pos`, in the order the query returned them. */
  method DistancesTo(neighbours: seq<Sample>, pos: Vec3, dist: Metric) returns (distances: seq<real>)
    ensures distances == NeighbourDistances(neighbours, pos, dist)
  {
    distances := [];
    for j := 0 to |neighbours|
      invariant distances == NeighbourDistances(neighbours[..j], pos, dist)
    {
      distances := distances + [dist(neighbours[j].p, pos)];
    }
    assert neighbours[..|neighbours|] == neighbours;
  }

  /** `getMedianOfNthClosestNeighbours` with the corrected early return: 0 when the scan
      covers too few vertices, otherwise the median over the scanned vertices of their
      `nth` closest distance (the point itself, found at distance 0, counts as one of the
      neighbours). */
  method MedianOfNthClosestNeighbours(positions: seq<Vec3>, prefixLength: nat, nth: nat,
                                      closest: ClosestPoints, dist: Metric)
    returns (median: real)
    ensures MedianReturnsEarly(|positions|, prefixLength, nth) ==> median == 0.0
    ensures !MedianReturnsEarly(|positions|, prefixLength, nth) ==>
      var endIndex := Min(|positions|, prefixLength);
      var values := NthClosestDistances(Stored(positions, endIndex), endIndex, nth, closest, dist);
      median == Median(values) && median in values
  {
    if Min(|positions|, prefixLength) <= nth {
      return 0.0;
    }
    var endIndex := Min(|positions|, prefixLength);
    var octree := InsertPrefix(positions, endIndex);
    var nThClosestDistances: seq<real> := [];
    for vIndex := 0 to endIndex
      invariant nThClosestDistances == NthClosestDistances(octree, vIndex, nth, closest, dist)
    {
      var pos := positions[vIndex];
      var closestNeighbours := closest(octree, pos, nth + 1);
      var distances := DistancesTo(closestNeighbours, pos, dist);
      distances := SortAscending(distances);
      nThClosestDistances := nThClosestDistances + [distances[nth]];
    }
    var sorted := SortAscending(nThClosestDistances);
    median := sorted[|nThClosestDistances| / 2];
    assert median in multiset(sorted);
  }

  // ---------------------------------------------------------------------------------------
  // Surfel packing

  /** At most this many surfels enter a packing estimate. */
  const MaxPackingSamples: nat := 1000

  /** A surfel mesh, reduced to its vertex positions. */
  datatype SurfelMesh = SurfelMesh(positions: seq<Vec3>)

  function Sum(s: seq<real>): (total: real)
  {
    if s == [] then 0.0 else Sum(s[..|s| - 1]) + s[|s| - 1]
  }

  /** The packing of `count` sampled surfels whose nearest-neighbour distances are
      `distances`: the square of their mean distance (summed distances over `count`) times
      `count`. */
  function PackingOfSamples(distances: seq<real>, count: nat): (packing: real)
    requires count > 0
    ensures packing >= 0.0
  {
    var r := Sum(distances) / (count as real);
    assert r * r >= 0.0;
    r * r * (count as real)
  }

  /** `computeSurfelPacking` as written: for a mesh without vertices it divides an empty sum
      by a count of 0, which in floating point is NaN (`None` here); that NaN is then what
      the packing lookup caches. */
  function ComputeSurfelPackingAsWritten(mesh: Option<SurfelMesh>, closest: ClosestPoints, dist: Metric): (packing: Option<real>)
    ensures packing.None? <==> mesh.Some? && |mesh.value.positions| == 0
  {
    if mesh.None? then Some(0.0)
    else
      var count := Min(MaxPackingSamples, |mesh.value.positions|);
      if count == 0 then None
      else
        var n := SampledCount(count, |mesh.value.positions|);
        Some(PackingOfSamples(MinimalDistances(Stored(mesh.value.positions, n), n, closest, dist), count))
  }

  /** `computeSurfelPacking` with the empty mesh treated like the absent one: 0 without
      samples, otherwise the packing of the first `min(1000, vertexCount)` surfels. */
  function ComputeSurfelPacking(mesh: Option<SurfelMesh>, closest: ClosestPoints, dist: Metric): (packing: real)
    ensures packing >= 0.0
    ensures mesh.None? || |mesh.value.positions| == 0 ==> packing == 0.0
    ensures ComputeSurfelPackingAsWritten(mesh, closest, dist).Some? ==>
              ComputeSurfelPackingAsWritten(mesh, closest, dist).value == packing
  {
    if mesh.None? then 0.0
    else
      var count := Min(MaxPackingSamples, |mesh.value.positions|);
      if count == 0 then 0.0
      else
        var n := SampledCount(count, |mesh.value.positions|);
        PackingOfSamples(MinimalDistances(Stored(mesh.value.positions, n), n, closest, dist), count)
  }

  /** The packing estimate samples exactly `min(1000, vertexCount)` surfels. */
  lemma PackingSamplesClampedCount(vertexCount: nat)
    ensures SampledCount(Min(MaxPackingSamples, vertexCount), vertexCount) == Min(MaxPackingSamples, vertexCount)
    ensures Min(MaxPackingSamples, vertexCount) <= MaxPackingSamples
  {
  }

  // ---------------------------------------------------------------------------------------
  // Packing lookup on a node's attributes

  const SurfelsKey: string := "surfels"
  const SurfelPackingKey: string := "surfelPacking"
  const SurfelSurfaceKey: string := "surfelSurface"
  const SurfelMedianKey: string := "surfelMedianDist"

  /** A generic attribute: a number, or a reference to a surfel mesh. */
  datatype Attribute = Number(value: real) | MeshReference(mesh: SurfelMesh)

  /** `GenericAttribute::toFloat`; a non-numeric attribute reads as 0. */
  function ToFloat(a: Attribute): (v: real)
  {
    match a
    case Number(v) => v
    case MeshReference(_) => 0.0
  }

  /** A scene node with its attribute map; an instance refers to its prototype. */
  class SceneNode {
    var attributes: map<string, Attribute>
    const prototype: SceneNode?

    constructor (attributes: map<string, Attribute>, prototype: SceneNode?)
      ensures this.attributes == attributes && this.prototype == prototype
    {
      this.attributes, this.prototype := attributes, prototype;
    }
  }

  /** The node whose attributes hold the packing: the prototype of an instance. */
  function PackingOwner(node: SceneNode): (owner: SceneNode)
  {
    if node.prototype != null then node.prototype else node
  }

  /** `Node::findAttribute`: the node's own attribute under `key` or, when it has none and
      is an instance, its prototype's. */
  function FindAttribute(node: SceneNode, key: string): (r: Option<Attribute>)
    reads node, node.prototype
  {
    if key in node.attributes then Some(node.attributes[key])
    else if node.prototype != null && key in node.prototype.attributes then Some(node.prototype.attributes[key])
    else None
  }

  /** `getSurfels`: the surfel mesh a node refers to under `surfels`, if any. An instance
      without its own `surfels` attribute sees its prototype's; an own attribute that is not a
      mesh reference hides the prototype's. */
  function GetSurfels(node: SceneNode): (r: Option<SurfelMesh>)
    reads node, node.prototype
    ensures SurfelsKey in node.attributes ==>
      && (r.Some? <==> node.attributes[SurfelsKey].MeshReference?)
      && (r.Some? ==> node.attributes[SurfelsKey] == MeshReference(r.value))
    ensures SurfelsKey !in node.attributes && node.prototype == null ==> r.None?
    ensures SurfelsKey !in node.attributes && node.prototype != null ==>
      && (r.Some? <==> SurfelsKey in node.prototype.attributes && node.prototype.attributes[SurfelsKey].MeshReference?)
      && (r.Some? ==> node.prototype.attributes[SurfelsKey] == MeshReference(r.value))
  {
    var attr := FindAttribute(node, SurfelsKey);
    if attr.Some? && attr.value.MeshReference? then Some(attr.value.mesh) else None
  }

  /** The migrated packing of the deprecated median attribute. */
  function MedianPacking(vertexCount: nat, median: real): (packing: real)
  {
    (Min(MaxPackingSamples, vertexCount) as real) * median * median
  }

  datatype PackingLookup = PackingLookup(packing: real, attributes: map<string, Attribute>)

  /** The packing of a node with `attributes` and surfel mesh `surfels`, with the attributes
      it leaves: a stored packing wins, then a stored surface value, then the deprecated
      median distance, and only then is the packing computed; whichever is used ends up
      stored as the packing and the older attribute is dropped. */
  function PackingCascade(attributes: map<string, Attribute>, surfels: SurfelMesh,
                          closest: ClosestPoints, dist: Metric): (r: PackingLookup)
    ensures SurfelPackingKey in r.attributes && ToFloat(r.attributes[SurfelPackingKey]) == r.packing
  {
    if SurfelPackingKey in attributes then
      PackingLookup(ToFloat(attributes[SurfelPackingKey]), attributes)
    else if SurfelSurfaceKey in attributes then
      var packing := ToFloat(attributes[SurfelSurfaceKey]);
      PackingLookup(packing, (attributes - {SurfelSurfaceKey})[SurfelPackingKey := Number(packing)])
    else if SurfelMedianKey in attributes then
      var packing := MedianPacking(|surfels.positions|, ToFloat(attributes[SurfelMedianKey]));
      PackingLookup(packing, (attributes - {SurfelMedianKey})[SurfelPackingKey := Number(packing)])
    else
      var packing := ComputeSurfelPacking(Some(surfels), closest, dist);
      PackingLookup(packing, attributes[SurfelPackingKey := Number(packing)])
  }

  /** A stored packing is returned as it is and nothing changes. */
  lemma StoredPackingIsKept(attributes: map<string, Attribute>, surfels: SurfelMesh,
                            closest: ClosestPoints, dist: Metric)
    requires SurfelPackingKey in attributes
    ensures PackingCascade(attributes, surfels, closest, dist)
         == PackingLookup(ToFloat(attributes[SurfelPackingKey]), attributes)
  {
  }

  /** A surface value is returned, moved under the packing key and removed. */
  lemma SurfaceIsMigrated(attributes: map<string, Attribute>, surfels: SurfelMesh,
                          closest: ClosestPoints, dist: Metric)
    requires SurfelPackingKey !in attributes && SurfelSurfaceKey in attributes
    ensures var r := PackingCascade(attributes, surfels, closest, dist);
      && r.packing == ToFloat(attributes[SurfelSurfaceKey])
      && SurfelSurfaceKey !in r.attributes
      && r.attributes[SurfelPackingKey] == Number(r.packing)
  {
  }

  /** A median distance is converted to `min(1000, vertexCount) * median^2`, stored as the
      packing and removed. */
  lemma MedianIsMigrated(attributes: map<string, Attribute>, surfels: SurfelMesh,
                         closest: ClosestPoints, dist: Metric)
    requires SurfelPackingKey !in attributes && SurfelSurfaceKey !in attributes
    requires SurfelMedianKey in attributes
    ensures var r := PackingCascade(attributes, surfels, closest, dist);
      var median := ToFloat(attributes[SurfelMedianKey]);
      && r.packing == (Min(MaxPackingSamples, |surfels.positions|) as real) * median * median
      && SurfelMedianKey !in r.attributes
      && r.attributes[SurfelPackingKey] == Number(r.packing)
  {
  }

  /** Without any of the three attributes the packing is computed and cached. */
  lemma PackingIsComputed(attributes: map<string, Attribute>, surfels: SurfelMesh,
                          closest: ClosestPoints, dist: Metric)
    requires SurfelPackingKey !in attributes && SurfelSurfaceKey !in attributes
    requires SurfelMedianKey !in attributes
    ensures var r := PackingCascade(attributes, surfels, closest, dist);
      && r.packing == ComputeSurfelPacking(Some(surfels), closest, dist)
      && r.attributes == attributes[SurfelPackingKey := Number(r.packing)]
  {
  }

  /** Only the packing, surface and median attributes can change. */
  lemma CascadeTouchesOnlyPackingKeys(attributes: map<string, Attribute>, surfels: SurfelMesh,
                                      closest: ClosestPoints, dist: Metric, key: string)
    requires key != SurfelPackingKey && key != SurfelSurfaceKey && key != SurfelMedianKey
    ensures var r := PackingCascade(attributes, surfels, closest, dist);
      (key in r.attributes <==> key in attributes)
      && (key in attributes ==> r.attributes[key] == attributes[key])
  {
  }

  /** A second lookup returns the same packing and changes nothing. */
  lemma PackingCascadeIdempotent(attributes: map<string, Attribute>, surfels: SurfelMesh,
                                 closest: ClosestPoints, dist: Metric)
    ensures var r := PackingCascade(attributes, surfels, closest, dist);
      PackingCascade(r.attributes, surfels, closest, dist) == r
  {
    var r := PackingCascade(attributes, surfels, closest, dist);
    StoredPackingIsKept(r.attributes, surfels, closest, dist);
  }

  /** `getSurfelPacking`: 0 for an absent surfel mesh; otherwise the packing of the node (of
      its prototype, for an instance), migrating or computing it as `PackingCascade` says. */
  method GetSurfelPacking(node: SceneNode, surfels: Option<SurfelMesh>, closest: ClosestPoints, dist: Metric)
    returns (packing: real)
    modifies PackingOwner(node)
    ensures surfels.None? ==> packing == 0.0 && unchanged(PackingOwner(node))
    ensures surfels.Some? ==>
      var r := PackingCascade(old(PackingOwner(node).attributes), surfels.value, closest, dist);
      packing == r.packing && PackingOwner(node).attributes == r.attributes
  {
    if surfels.None? {
      return 0.0;
    }
    var owner := node;
    if node.prototype != null {
      owner := node.prototype;
    }

    if SurfelPackingKey in owner.attributes {
      return ToFloat(owner.attributes[SurfelPackingKey]);
    }

    if SurfelSurfaceKey in owner.attributes {
      packing := ToFloat(owner.attributes[SurfelSurfaceKey]);
      owner.attributes := owner.attributes - {SurfelSurfaceKey};
      owner.attributes := owner.attributes[SurfelPackingKey := Number(packing)];
      return;
    }

    if SurfelMedianKey in owner.attributes {
      var medianCount := Min(MaxPackingSamples, |surfels.value.positions|);
      var median := ToFloat(owner.attributes[SurfelMedianKey]);
      packing := (medianCount as real) * median * median;
      owner.attributes := owner.attributes - {SurfelMedianKey};
      owner.attributes := owner.attributes[SurfelPackingKey := Number(packing)];
      return;
    }

    packing := ComputeSurfelPacking(surfels, closest, dist);
    owner.attributes := owner.attributes[SurfelPackingKey := Number(packing)];
  }
}
