/**
 * The snapping decisions of the vector layer: snapToGeometry (which match of
 * one geometry is kept), snapWithContext (which geometries are examined and
 * what the call reports) and snapPoint (moving a point onto the nearest
 * vertex).  The geometry algorithms closestVertex, closestSegmentWithContext
 * and vertexAt are not part of the model: their answers for each candidate
 * geometry are inputs.  Results are keyed by squared distance; the layer keys
 * them by its square root, which orders them the same way.
 */
module Snapping {
  import opened Common

  type FeatureId = int

  /** QgsPoint. */
  datatype Point = Point(x: real, y: real)

  /** A default-constructed QgsPoint. */
  const Origin := Point(0.0, 0.0)

  /** QgsSnapper::SnappingType. */
  datatype SnappingType = SnapToVertex | SnapToSegment | SnapToVertexAndSegment

  /** The answer of QgsGeometry::closestVertex: the vertex, its number, its neighbours' numbers (-1 for none) and the squared distance. */
  datatype VertexHit = VertexHit(point: Point, atVertex: int, beforeVertex: int, afterVertex: int, sqrDist: real)

  /** The answer of closestSegmentWithContext: the closest point, the number of the vertex after it and the squared distance. */
  datatype SegmentHit = SegmentHit(point: Point, afterVertex: int, sqrDist: real)

  /** What the geometry algorithms answer for one geometry; the segment search depends on the epsilon it is given. */
  datatype GeometryAnswers = GeometryAnswers(
    closestVertex: VertexHit,
    closestSegment: real -> SegmentHit,
    vertexAt: int -> Point)

  /** A geometry examined by snapWithContext: the feature it belongs to, and the geometry (None for a null geometry). */
  datatype Candidate = Candidate(feature: FeatureId, geometry: Option<GeometryAnswers>)

  /** QgsSnappingResult, without the layer reference. */
  datatype SnappingResult = SnappingResult(
    snappedVertex: Point, snappedVertexNr: int,
    beforeVertex: Point, beforeVertexNr: int,
    afterVertex: Point, afterVertexNr: int,
    snappedAtGeometry: FeatureId)

  /** One entry of the result multimap. */
  datatype Entry = Entry(key: real, result: SnappingResult)

  /** The order a QMultiMap iterates in: ascending keys. */
  predicate Sorted(m: seq<Entry>)
  {
    forall i, j :: 0 <= i < j < |m| ==> m[i].key <= m[j].key
  }

  /**
   * QMultiMap::insert: the new entry goes after the entries with smaller
   * keys and before all others, so among equal keys the newest comes first.
   */
  function Insert(m: seq<Entry>, e: Entry): (r: seq<Entry>)
    ensures |r| == |m| + 1
    ensures multiset(r) == multiset(m) + multiset{e}
    ensures r[0] == e || (m != [] && r[0] == m[0])
  {
    if m == [] || e.key <= m[0].key then [e] + m
    else
      assert m == [m[0]] + m[1..];
      [m[0]] + Insert(m[1..], e)
  }

  /** Inserting into a sorted map keeps it sorted. */
  lemma {:induction false} InsertKeepsSorted(m: seq<Entry>, e: Entry)
    requires Sorted(m)
    ensures Sorted(Insert(m, e))
  {
    if m != [] && e.key > m[0].key {
      var tail := Insert(m[1..], e);
      InsertKeepsSorted(m[1..], e);
      var r := Insert(m, e);
      assert r == [m[0]] + tail;
      forall i, j | 0 <= i < j < |r|
        ensures r[i].key <= r[j].key
      {
        var x := tail[j - 1];
        assert r[j] == x;
        if i == 0 {
          assert x in multiset(tail);
          if x != e {
            assert x in multiset(m[1..]);
            var k :| 0 <= k < |m[1..]| && m[1..][k] == x;
            assert m[k + 1] == x;
          }
        } else {
          assert r[i] == tail[i - 1];
        }
      }
    }
  }

  /** The number of leading entries Insert steps over: those with a smaller key. */
  function InsertIndex(m: seq<Entry>, e: Entry): (k: nat)
    ensures k <= |m|
  {
    if m == [] || e.key <= m[0].key then 0 else 1 + InsertIndex(m[1..], e)
  }

  /** Insert places the new entry at InsertIndex and keeps the others in their order around it. */
  lemma {:induction false} InsertSplits(m: seq<Entry>, e: Entry)
    ensures Insert(m, e) == m[..InsertIndex(m, e)] + [e] + m[InsertIndex(m, e)..]
  {
    if m == [] || e.key <= m[0].key {
      assert m[..0] == [] && m[0..] == m;
    } else {
      var k := InsertIndex(m[1..], e);
      InsertSplits(m[1..], e);
      assert m == [m[0]] + m[1..];
      ConsSplit(m[0], m[1..], k, e);
    }
  }

  /** Putting an element in front commutes with splitting a sequence around an inserted one. */
  lemma ConsSplit<T>(x: T, s: seq<T>, k: nat, e: T)
    requires k <= |s|
    ensures [x] + (s[..k] + [e] + s[k..]) == ([x] + s)[..k + 1] + [e] + ([x] + s)[k + 1..]
  {
    assert ([x] + s)[..k + 1] == [x] + s[..k];
    assert ([x] + s)[k + 1..] == s[k..];
  }

  /**
   * In a sorted map the new entry goes behind every entry with a smaller
   * key and ahead of every other, so among equal keys it comes first.
   */
  lemma {:induction false} InsertIndexSeparatesKeys(m: seq<Entry>, e: Entry)
    requires Sorted(m)
    ensures forall i :: 0 <= i < InsertIndex(m, e) ==> m[i].key < e.key
    ensures forall i :: InsertIndex(m, e) <= i < |m| ==> e.key <= m[i].key
  {
    if m != [] && e.key > m[0].key {
      InsertIndexSeparatesKeys(m[1..], e);
      forall i | 1 <= i < |m|
        ensures m[i] == m[1..][i - 1]
      {
      }
    }
  }

  /** The neighbour vertex, or a default point when the number is -1. */
  function Neighbour(g: GeometryAnswers, nr: int): Point
  {
    if nr != -1 then g.vertexAt(nr) else Origin
  }

  /** The result recorded for a vertex match. */
  function VertexResult(feature: FeatureId, g: GeometryAnswers): SnappingResult
  {
    var v := g.closestVertex;
    SnappingResult(v.point, v.atVertex, Neighbour(g, v.beforeVertex), v.beforeVertex,
                   Neighbour(g, v.afterVertex), v.afterVertex, feature)
  }

  /** The result recorded for a segment match: no vertex number, the segment's two ends as neighbours. */
  function SegmentResult(feature: FeatureId, g: GeometryAnswers, s: SegmentHit): SnappingResult
  {
    SnappingResult(s.point, -1, g.vertexAt(s.afterVertex - 1), s.afterVertex - 1,
                   g.vertexAt(s.afterVertex), s.afterVertex, feature)
  }

  /** The epsilon handed to the segment search: 1e-12 for geographic coordinates, 1e-8 otherwise. */
  function SegmentEpsilon(geographic: bool): (eps: real)
    ensures 0.0 < eps < 0.00000001 || eps == 0.00000001
  {
    if geographic then 0.000000000001 else 0.00000001
  }

  /** The geometry's closest vertex lies strictly within the squared tolerance. */
  predicate VertexWithin(c: Candidate, sqrTolerance: real)
  {
    c.geometry.Some? && c.geometry.value.closestVertex.sqrDist < sqrTolerance
  }

  /** The entry a vertex match of candidate c adds. */
  function VertexEntry(c: Candidate): Entry
    requires c.geometry.Some?
  {
    Entry(c.geometry.value.closestVertex.sqrDist, VertexResult(c.feature, c.geometry.value))
  }

  /**
   * snapToGeometry: a vertex match strictly inside the tolerance is inserted
   * and ends the search; otherwise, unless the layer holds points, a
   * segment match strictly inside the tolerance is inserted.
   */
  function SnapToGeometry(c: Candidate, sqrTolerance: real, snapTo: SnappingType,
                          pointLayer: bool, geographic: bool, results: seq<Entry>): (r: seq<Entry>)
    ensures |results| <= |r| <= |results| + 1
    ensures snapTo != SnapToSegment && VertexWithin(c, sqrTolerance) ==> r == Insert(results, VertexEntry(c))
    ensures (snapTo == SnapToVertex || pointLayer) && !VertexWithin(c, sqrTolerance) ==> r == results
    ensures c.geometry.None? ==> r == results
  {
    match c.geometry
    case None => results
    case Some(g) =>
      var v := g.closestVertex;
      if snapTo != SnapToSegment && v.sqrDist < sqrTolerance then
        Insert(results, Entry(v.sqrDist, VertexResult(c.feature, g)))
      else if snapTo != SnapToVertex && !pointLayer then
        var s := g.closestSegment(SegmentEpsilon(geographic));
        if s.sqrDist < sqrTolerance then Insert(results, Entry(s.sqrDist, SegmentResult(c.feature, g, s)))
        else results
      else results
  }

  /** The results after snapping to each of the candidates in turn. */
  function SnapAll(candidates: seq<Candidate>, sqrTolerance: real, snapTo: SnappingType,
                   pointLayer: bool, geographic: bool, results: seq<Entry>): (r: seq<Entry>)
    ensures |results| <= |r| <= |results| + |candidates|
  {
    if candidates == [] then results
    else
      var before := SnapAll(candidates[..|candidates| - 1], sqrTolerance, snapTo, pointLayer, geographic, results);
      SnapToGeometry(candidates[|candidates| - 1], sqrTolerance, snapTo, pointLayer, geographic, before)
  }

  /** Snapping keeps the result map in ascending key order. */
  lemma {:induction false} SnapAllKeepsSorted(candidates: seq<Candidate>, sqrTolerance: real, snapTo: SnappingType,
                                              pointLayer: bool, geographic: bool, results: seq<Entry>)
    requires Sorted(results)
    ensures Sorted(SnapAll(candidates, sqrTolerance, snapTo, pointLayer, geographic, results))
  {
    if candidates != [] {
      var n := |candidates|;
      var c := candidates[n - 1];
      var before := SnapAll(candidates[..n - 1], sqrTolerance, snapTo, pointLayer, geographic, results);
      SnapAllKeepsSorted(candidates[..n - 1], sqrTolerance, snapTo, pointLayer, geographic, results);
      if c.geometry.Some? {
        var g := c.geometry.value;
        InsertKeepsSorted(before, Entry(g.closestVertex.sqrDist, VertexResult(c.feature, g)));
        var s := g.closestSegment(SegmentEpsilon(geographic));
        InsertKeepsSorted(before, Entry(s.sqrDist, SegmentResult(c.feature, g, s)));
      }
    }
  }

  /**
   * snapWithContext: 1 when the layer has no geometry type, the tolerance is
   * not positive or there is no provider; otherwise every candidate geometry
   * is snapped to, and the answer is 2 when there was none, 0 otherwise.
   */
  method SnapWithContext(hasGeometryType: bool, tolerance: real, hasProvider: bool, candidates: seq<Candidate>,
                         snapTo: SnappingType, pointLayer: bool, geographic: bool, results: seq<Entry>)
    returns (code: int, r: seq<Entry>)
    ensures code == 1 <==> !hasGeometryType || tolerance <= 0.0 || !hasProvider
    ensures code == 2 <==> code != 1 && |candidates| == 0
    ensures code == 0 <==> code != 1 && |candidates| > 0
    ensures code == 1 ==> r == results
    ensures code != 1 ==> r == SnapAll(candidates, tolerance * tolerance, snapTo, pointLayer, geographic, results)
  {
    if !hasGeometryType {
      return 1, results;
    }
    if tolerance <= 0.0 || !hasProvider {
      return 1, results;
    }
    var sqrTolerance := tolerance * tolerance;
    var n := 0;
    r := results;
    while n < |candidates|
      invariant n <= |candidates|
      invariant r == SnapAll(candidates[..n], sqrTolerance, snapTo, pointLayer, geographic, results)
    {
      assert candidates[..n + 1][..n] == candidates[..n];
      r := SnapToGeometry(candidates[n], sqrTolerance, snapTo, pointLayer, geographic, r);
      n := n + 1;
    }
    assert candidates[..n] == candidates;
    code := if n == 0 then 2 else 0;
  }

  /** The vertex entries of the candidates whose closest vertex lies strictly within the squared tolerance. */
  function CloseVertexEntries(candidates: seq<Candidate>, sqrTolerance: real): multiset<Entry>
  {
    if candidates == [] then multiset{}
    else
      var c := candidates[|candidates| - 1];
      CloseVertexEntries(candidates[..|candidates| - 1], sqrTolerance)
        + (if VertexWithin(c, sqrTolerance) then multiset{VertexEntry(c)} else multiset{})
  }

  /** An entry is one of the close vertex entries exactly when it is the vertex entry of a close candidate. */
  lemma {:induction false} CloseVertexEntriesMembership(candidates: seq<Candidate>, sqrTolerance: real, e: Entry)
    ensures e in CloseVertexEntries(candidates, sqrTolerance) <==>
      exists i :: 0 <= i < |candidates| && VertexWithin(candidates[i], sqrTolerance) && e == VertexEntry(candidates[i])
  {
    if candidates != [] {
      var n := |candidates|;
      var front := candidates[..n - 1];
      var last := candidates[n - 1];
      CloseVertexEntriesMembership(front, sqrTolerance, e);
      if e in CloseVertexEntries(candidates, sqrTolerance) {
        if e in CloseVertexEntries(front, sqrTolerance) {
          var i :| 0 <= i < |front| && VertexWithin(front[i], sqrTolerance) && e == VertexEntry(front[i]);
          assert front[i] == candidates[i];
        } else {
          assert VertexWithin(last, sqrTolerance) && e == VertexEntry(last);
        }
      }
      if exists i :: 0 <= i < n && VertexWithin(candidates[i], sqrTolerance) && e == VertexEntry(candidates[i]) {
        var i :| 0 <= i < n && VertexWithin(candidates[i], sqrTolerance) && e == VertexEntry(candidates[i]);
        if i < n - 1 {
          assert front[i] == candidates[i];
        }
      }
    }
  }

  /**
   * When segments are not searched (vertex-only snapping, or a point layer),
   * snapping adds exactly the close vertex entries, or nothing at all in
   * segment-only mode.
   */
  lemma {:induction false} VertexOnlySnaps(candidates: seq<Candidate>, sqrTolerance: real, snapTo: SnappingType,
                                           pointLayer: bool, geographic: bool, results: seq<Entry>)
    requires snapTo == SnapToVertex || pointLayer
    ensures multiset(SnapAll(candidates, sqrTolerance, snapTo, pointLayer, geographic, results)) ==
      multiset(results) + (if snapTo == SnapToSegment then multiset{} else CloseVertexEntries(candidates, sqrTolerance))
  {
    if candidates != [] {
      VertexOnlySnaps(candidates[..|candidates| - 1], sqrTolerance, snapTo, pointLayer, geographic, results);
    }
  }

  /** Candidate i's closest vertex is within the squared tolerance and no other close vertex is nearer. */
  predicate NearestCloseVertex(candidates: seq<Candidate>, sqrTolerance: real, i: int)
  {
    0 <= i < |candidates| && VertexWithin(candidates[i], sqrTolerance) &&
    forall j :: 0 <= j < |candidates| && VertexWithin(candidates[j], sqrTolerance) ==>
      candidates[i].geometry.value.closestVertex.sqrDist <= candidates[j].geometry.value.closestVertex.sqrDist
  }

  /**
   * snapPoint: false when the layer has no geometry type, when
   * snapWithContext does not report 0, or when nothing was found; otherwise
   * the point moves onto the first (nearest) vertex found.
   */
  method SnapPoint(hasGeometryType: bool, hasProvider: bool, point: Point, tolerance: real,
                   candidates: seq<Candidate>, pointLayer: bool, geographic: bool)
    returns (ok: bool, snapped: Point)
    ensures !ok ==> snapped == point
    ensures ok <==> (hasGeometryType && hasProvider && tolerance > 0.0 &&
      exists i :: 0 <= i < |candidates| && VertexWithin(candidates[i], tolerance * tolerance))
    ensures ok ==> exists i :: NearestCloseVertex(candidates, tolerance * tolerance, i) &&
                              snapped == candidates[i].geometry.value.closestVertex.point
  {
    snapped := point;
    if !hasGeometryType {
      return false, point;
    }
    var result, snapResults := SnapWithContext(hasGeometryType, tolerance, hasProvider, candidates,
                                               SnapToVertex, pointLayer, geographic, []);
    if result != 0 {
      return false, point;
    }
    var sqrTolerance := tolerance * tolerance;
    VertexOnlySnaps(candidates, sqrTolerance, SnapToVertex, pointLayer, geographic, []);
    SnapAllKeepsSorted(candidates, sqrTolerance, SnapToVertex, pointLayer, geographic, []);
    assert multiset(snapResults) == CloseVertexEntries(candidates, sqrTolerance);
    forall j | 0 <= j < |candidates| && VertexWithin(candidates[j], sqrTolerance)
      ensures VertexEntry(candidates[j]) in snapResults
    {
      CloseVertexEntriesMembership(candidates, sqrTolerance, VertexEntry(candidates[j]));
    }
    if |snapResults| < 1 {
      return false, point;
    }
    var first := snapResults[0];
    snapped := first.result.snappedVertex;
    ok := true;
    assert first in multiset(snapResults);
    CloseVertexEntriesMembership(candidates, sqrTolerance, first);
    var i :| 0 <= i < |candidates| && VertexWithin(candidates[i], sqrTolerance) && first == VertexEntry(candidates[i]);
    forall j | 0 <= j < |candidates| && VertexWithin(candidates[j], sqrTolerance)
      ensures candidates[i].geometry.value.closestVertex.sqrDist <= candidates[j].geometry.value.closestVertex.sqrDist
    {
      var k :| 0 <= k < |snapResults| && snapResults[k] == VertexEntry(candidates[j]);
      assert snapResults[0].key <= snapResults[k].key;
    }
    assert NearestCloseVertex(candidates, sqrTolerance, i);
  }

  /** Every entry snapping adds lies strictly within the squared tolerance. */
  lemma {:induction false} SnapsLieWithinTolerance(candidates: seq<Candidate>, sqrTolerance: real, snapTo: SnappingType,
                                                   pointLayer: bool, geographic: bool, results: seq<Entry>)
    ensures var r := SnapAll(candidates, sqrTolerance, snapTo, pointLayer, geographic, results);
      forall e :: e in multiset(r) ==> e in multiset(results) || e.key < sqrTolerance
  {
    if candidates != [] {
      var n := |candidates|;
      SnapsLieWithinTolerance(candidates[..n - 1], sqrTolerance, snapTo, pointLayer, geographic, results);
    }
  }
}
