/**
 * The Well-Known Binary walker of the vector layer renderer (section 8.2 of
 * OGC 06-103r4, Simple Feature Access Part 1, plus the non-standard "25D"
 * type codes whose high bit announces an 8-byte Z after every x and y).
 *
 * A geometry starts with a one-byte order flag and a four-byte type code;
 * counts are four-byte integers and coordinates eight-byte doubles.  The
 * walkers read counts in the host's (little-endian) order, ignore the order
 * flag, never check the buffer's length, and return the offset just past the
 * geometry so that the parts of a multi-geometry chain.  Here the buffer is a
 * byte sequence, coordinates stay opaque eight-byte chunks (transforming,
 * clipping and painting them are not modelled), and "the buffer is long
 * enough" is a precondition.
 */
module Wkb {
  import opened Common

  /** An octet of the buffer. */
  newtype byte = x: int | 0 <= x < 0x100

  type Bytes = seq<byte>

  const WKB_POINT: nat := 1
  const WKB_LINESTRING: nat := 2
  const WKB_POLYGON: nat := 3
  const WKB_MULTIPOINT: nat := 4
  const WKB_MULTILINESTRING: nat := 5
  const WKB_MULTIPOLYGON: nat := 6
  const WKB_POINT_25D: nat := 0x8000_0001
  const WKB_LINESTRING_25D: nat := 0x8000_0002
  const WKB_POLYGON_25D: nat := 0x8000_0003
  const WKB_MULTIPOINT_25D: nat := 0x8000_0004
  const WKB_MULTILINESTRING_25D: nat := 0x8000_0005
  const WKB_MULTIPOLYGON_25D: nat := 0x8000_0006
  const WKB_NO_GEOMETRY: nat := 100

  /** The number whose little-endian base-256 digits are b0, b1, b2, b3. */
  function LittleEndian(b0: nat, b1: nat, b2: nat, b3: nat): (r: nat)
    requires b0 < 256 && b1 < 256 && b2 < 256 && b3 < 256
    ensures r < 0x1_0000_0000
  {
    var high := b2 + 256 * b3;
    assert high < 0x1_0000;
    var middle := b1 + 256 * high;
    assert middle < 0x100_0000;
    b0 + 256 * middle
  }

  /** An unsigned 32-bit integer stored little-endian at offset p. */
  function U32At(b: Bytes, p: nat): (r: nat)
    requires p + 4 <= |b|
    ensures r < 0x1_0000_0000
  {
    LittleEndian(b[p] as nat, b[p + 1] as nat, b[p + 2] as nat, b[p + 3] as nat)
  }

  /** The same four bytes read as a two's-complement signed integer. */
  function I32At(b: Bytes, p: nat): (r: int)
    requires p + 4 <= |b|
    ensures -0x8000_0000 <= r < 0x8000_0000
    ensures r >= 0 ==> r == U32At(b, p)
  {
    var u := U32At(b, p);
    if u >= 0x8000_0000 then u - 0x1_0000_0000 else u
  }

  /** A decoded vertex: its x and y doubles, kept as raw eight-byte chunks. */
  datatype Coord = Coord(x: Bytes, y: Bytes)

  function CoordAt(b: Bytes, p: nat): (c: Coord)
    requires p + 16 <= |b|
    ensures |c.x| == 8 && |c.y| == 8
  {
    Coord(b[p..p + 8], b[p + 8..p + 16])
  }

  /** A signed point count as a loop `for (i = 0; i < n; ++i)` uses it. */
  function PointCount(n: int): (r: nat)
    ensures n >= 0 ==> r == n
    ensures n < 0 ==> r == 0
  {
    if n < 0 then 0 else n
  }

  /** Bytes per vertex: x and y, plus z for a 25D geometry. */
  function Stride(hasZ: bool): (r: nat)
    ensures r >= 16
  {
    if hasZ then 24 else 16
  }

  /**
   * The vertices of n points laid out from q, each behind a header of `skip`
   * bytes (the part header of a multipoint; none for lines and rings) and
   * taking `stride` bytes itself.
   */
  function PointsAt(b: Bytes, q: nat, n: nat, skip: nat, stride: nat): (r: seq<Coord>)
    requires stride >= 16 && q + Span(n, skip + stride) <= |b|
    ensures |r| == n
  {
    if n == 0 then []
    else PointsAt(b, q, n - 1, skip, stride) + [CoordAt(b, q + Span(n - 1, skip + stride) + skip)]
  }

  /** The bytes taken by n vertices of `stride` bytes each. */
  function Span(n: nat, stride: nat): (r: nat)
    ensures n == 0 ==> r == 0
  {
    if n == 0 then 0 else Span(n - 1, stride) + stride
  }

  lemma {:induction false} SpanIsProduct(n: nat, stride: nat)
    ensures Span(n, stride) == n * stride
  {
    if n > 0 {
      SpanIsProduct(n - 1, stride);
      assert (n - 1) * stride + stride == n * stride;
    }
  }

  lemma {:induction false} SpanGrows(i: nat, n: nat, stride: nat)
    requires i <= n
    ensures Span(i, stride) <= Span(n, stride)
    decreases n - i
  {
    if i < n {
      SpanGrows(i, n - 1, stride);
    }
  }

  // ---------------------------------------------------------------- LineString

  function LineStringStride(b: Bytes, p: nat): (r: nat)
    requires p + 5 <= |b|
    ensures r == 24 <==> U32At(b, p + 1) == WKB_LINESTRING_25D
    ensures r == 16 <==> U32At(b, p + 1) != WKB_LINESTRING_25D
  {
    Stride(U32At(b, p + 1) == WKB_LINESTRING_25D)
  }

  function LineStringCount(b: Bytes, p: nat): nat
    requires p + 9 <= |b|
  {
    PointCount(I32At(b, p + 5))
  }

  /** The buffer holds the whole line string that starts at p. */
  predicate LineStringFits(b: Bytes, p: nat)
  {
    p + 9 <= |b| && p + 9 + Span(LineStringCount(b, p), LineStringStride(b, p)) <= |b|
  }

  function LineStringEnd(b: Bytes, p: nat): nat
    requires LineStringFits(b, p)
  {
    p + 9 + Span(LineStringCount(b, p), LineStringStride(b, p))
  }

  function LineStringPoints(b: Bytes, p: nat): seq<Coord>
    requires LineStringFits(b, p)
  {
    PointsAt(b, p + 9, LineStringCount(b, p), 0, LineStringStride(b, p))
  }

  /**
   * The vertex loop shared by the walkers: n vertices from q, each behind a
   * `skip`-byte header, an x and a y chunk, and a z chunk to step over when
   * the geometry is 25D.  A negative count runs the loop zero times.
   */
  method ReadPoints(b: Bytes, q: nat, nPoints: int, skip: nat, hasZValue: bool) returns (end: nat, points: seq<Coord>)
    requires q + Span(PointCount(nPoints), skip + Stride(hasZValue)) <= |b|
    ensures end == q + Span(PointCount(nPoints), skip + Stride(hasZValue))
    ensures points == PointsAt(b, q, PointCount(nPoints), skip, Stride(hasZValue))
  {
    ghost var stride := Stride(hasZValue);
    ghost var n := PointCount(nPoints);
    var ptr := q;
    points := [];
    var i := 0;
    while i < nPoints
      invariant 0 <= i <= n
      invariant Span(i, skip + stride) <= Span(n, skip + stride)
      invariant ptr == q + Span(i, skip + stride)
      invariant points == PointsAt(b, q, i, skip, stride)
    {
      SpanGrows(i + 1, n, skip + stride);
      var c;
      ptr, c := ReadPoint(b, ptr, skip, hasZValue);
      PointsAtStep(b, q, i, skip, stride, c);
      points := points + [c];
      i := i + 1;
    }
    end := ptr;
  }

  /** One vertex of the loop: the header is skipped, x and y are read, and z is stepped over when present. */
  method ReadPoint(b: Bytes, p: nat, skip: nat, hasZValue: bool) returns (next: nat, c: Coord)
    requires p + skip + Stride(hasZValue) <= |b|
    ensures next == p + skip + Stride(hasZValue)
    ensures c == CoordAt(b, p + skip)
  {
    var ptr := p + skip;
    var x := b[ptr..ptr + 8];
    ptr := ptr + 8;
    var y := b[ptr..ptr + 8];
    ptr := ptr + 8;
    if hasZValue {
      ptr := ptr + 8;
    }
    next, c := ptr, Coord(x, y);
  }

  lemma PointsAtStep(b: Bytes, q: nat, i: nat, skip: nat, stride: nat, c: Coord)
    requires stride >= 16 && q + Span(i + 1, skip + stride) <= |b|
    requires c == CoordAt(b, q + Span(i, skip + stride) + skip)
    ensures PointsAt(b, q, i + 1, skip, stride) == PointsAt(b, q, i, skip, stride) + [c]
  {
  }

  /**
   * drawLineString: the type is at p+1 and the point count at p+5, the points
   * start at p+9, and the walk returns the offset just past the last point.
   */
  method DrawLineString(b: Bytes, p: nat) returns (end: nat, points: seq<Coord>)
    requires LineStringFits(b, p)
    ensures end == p + 9 + PointCount(I32At(b, p + 5)) * (if U32At(b, p + 1) == WKB_LINESTRING_25D then 24 else 16)
    ensures end == LineStringEnd(b, p) && end <= |b|
    ensures |points| == PointCount(I32At(b, p + 5))
    ensures points == LineStringPoints(b, p)
  {
    var wkbType := U32At(b, p + 1);
    var nPoints := I32At(b, p + 5);
    var hasZValue := wkbType == WKB_LINESTRING_25D;
    end, points := ReadPoints(b, p + 9, nPoints, 0, hasZValue);
    SpanIsProduct(PointCount(nPoints), Stride(hasZValue));
  }

  // ------------------------------------------------------------------- Polygon

  function PolygonStride(b: Bytes, p: nat): (r: nat)
    requires p + 5 <= |b|
    ensures r == 24 <==> U32At(b, p + 1) == WKB_POLYGON_25D
  {
    Stride(U32At(b, p + 1) == WKB_POLYGON_25D)
  }

  /** Where the ring walk stands: the offset reached and the rings kept so far. */
  datatype RingWalk = RingWalk(end: nat, kept: seq<seq<Coord>>)

  /**
   * One more ring read at w.end: its point count, then its vertices.  A ring
   * with fewer than one point advances past its count only and is not kept.
   * None when the buffer is too short for it.
   */
  function NextRing(b: Bytes, w: RingWalk, stride: nat): (r: Option<RingWalk>)
    requires stride >= 16
    ensures r.Some? ==> w.end + 4 <= r.value.end <= |b|
  {
    if w.end + 4 > |b| then None
    else
      var n := I32At(b, w.end);
      var end := w.end + 4 + Span(PointCount(n), stride);
      if end > |b| then None
      else if n < 1 then Some(RingWalk(end, w.kept))
      else Some(RingWalk(end, w.kept + [PointsAt(b, w.end + 4, n, 0, stride)]))
  }

  /** The walk over the first k rings laid out from q; None if they do not fit. */
  function WalkRings(b: Bytes, q: nat, k: nat, stride: nat): (r: Option<RingWalk>)
    requires stride >= 16
    ensures r.Some? ==> q <= r.value.end <= |b|
  {
    if k == 0 then (if q <= |b| then Some(RingWalk(q, [])) else None)
    else
      var w := WalkRings(b, q, k - 1, stride);
      if w.None? then None else NextRing(b, w.value, stride)
  }

  predicate PolygonFits(b: Bytes, p: nat)
  {
    p + 9 <= |b| && WalkRings(b, p + 9, U32At(b, p + 5), PolygonStride(b, p)).Some?
  }

  function PolygonEnd(b: Bytes, p: nat): nat
    requires PolygonFits(b, p)
  {
    WalkRings(b, p + 9, U32At(b, p + 5), PolygonStride(b, p)).value.end
  }

  /** The rings drawPolygon draws: those with at least one point, in order. */
  function PolygonRings(b: Bytes, p: nat): seq<seq<Coord>>
    requires PolygonFits(b, p)
  {
    WalkRings(b, p + 9, U32At(b, p + 5), PolygonStride(b, p)).value.kept
  }

  /**
   * drawPolygon: the ring count is at p+5; with no rings the walk returns
   * p+9 at once.  Each ring is a point count followed by its points; a ring
   * with fewer than one point only advances past its count and is not drawn.
   */
  method DrawPolygon(b: Bytes, p: nat) returns (end: nat, rings: seq<seq<Coord>>)
    requires PolygonFits(b, p)
    ensures U32At(b, p + 5) == 0 ==> end == p + 9 && rings == []
    ensures end == PolygonEnd(b, p) && end <= |b|
    ensures rings == PolygonRings(b, p)
  {
    var numRings := U32At(b, p + 5);
    if numRings == 0 {
      return p + 9, [];
    }
    var wkbType := U32At(b, p + 1);
    var hasZValue := wkbType == WKB_POLYGON_25D;
    end, rings := ReadRings(b, p + 9, numRings, hasZValue);
  }

  /** The ring loop of drawPolygon, one NextRing step per ring. */
  method ReadRings(b: Bytes, q: nat, numRings: nat, hasZValue: bool) returns (end: nat, rings: seq<seq<Coord>>)
    requires WalkRings(b, q, numRings, Stride(hasZValue)).Some?
    ensures WalkRings(b, q, numRings, Stride(hasZValue)) == Some(RingWalk(end, rings))
  {
    ghost var stride := Stride(hasZValue);
    var walk := RingWalk(q, []);
    var idx := 0;
    while idx < numRings
      invariant 0 <= idx <= numRings
      invariant WalkRings(b, q, idx, stride) == Some(walk)
    {
      WalkRingsPrefix(b, q, idx + 1, numRings, stride);
      walk := ReadRing(b, walk, hasZValue);
      idx := idx + 1;
    }
    end, rings := walk.end, walk.kept;
  }

  /**
   * One pass of the ring loop: the point count at the current offset, then
   * the vertices; the ring is kept for drawing only if it has a point.
   */
  method ReadRing(b: Bytes, walk: RingWalk, hasZValue: bool) returns (next: RingWalk)
    requires NextRing(b, walk, Stride(hasZValue)).Some?
    ensures NextRing(b, walk, Stride(hasZValue)) == Some(next)
  {
    var ptr := walk.end;
    var nPoints := I32At(b, ptr);
    var end, ring := ReadPoints(b, ptr + 4, nPoints, 0, hasZValue);
    if nPoints >= 1 {
      next := RingWalk(end, walk.kept + [ring]);
    } else {
      next := RingWalk(end, walk.kept);
    }
  }

  /** A walk over k rings that fits also fits over its first j rings. */
  lemma {:induction false} WalkRingsPrefix(b: Bytes, q: nat, j: nat, k: nat, stride: nat)
    requires stride >= 16 && j <= k && WalkRings(b, q, k, stride).Some?
    ensures WalkRings(b, q, j, stride).Some?
  {
    if j < k {
      assert WalkRings(b, q, k - 1, stride).Some?;
      WalkRingsPrefix(b, q, j, k - 1, stride);
    }
  }

  // --------------------------------------------------------- Multi-geometries

  /** Where a walk over chained parts stands: the offset reached and the parts read. */
  datatype PartsWalk<T> = PartsWalk(end: nat, parts: seq<T>)

  /**
   * The walk over the first k line strings chained from q, each starting
   * where the previous one's walk ended; None if they do not fit.
   */
  function WalkLines(b: Bytes, q: nat, k: nat): (r: Option<PartsWalk<seq<Coord>>>)
    ensures r.Some? ==> q <= r.value.end <= |b| && |r.value.parts| == k
  {
    if k == 0 then (if q <= |b| then Some(PartsWalk(q, [])) else None)
    else
      var w := WalkLines(b, q, k - 1);
      if w.None? then None else NextLine(b, w.value)
  }

  /** One more line string, walked from where the last one ended. */
  function NextLine(b: Bytes, w: PartsWalk<seq<Coord>>): (r: Option<PartsWalk<seq<Coord>>>)
    ensures r.Some? ==> w.end < r.value.end <= |b| && |r.value.parts| == |w.parts| + 1
  {
    if !LineStringFits(b, w.end) then None
    else Some(PartsWalk(LineStringEnd(b, w.end), w.parts + [LineStringPoints(b, w.end)]))
  }

  /** The same walk over chained polygons. */
  function WalkPolygons(b: Bytes, q: nat, k: nat): (r: Option<PartsWalk<seq<seq<Coord>>>>)
    ensures r.Some? ==> q <= r.value.end <= |b| && |r.value.parts| == k
  {
    if k == 0 then (if q <= |b| then Some(PartsWalk(q, [])) else None)
    else
      var w := WalkPolygons(b, q, k - 1);
      if w.None? then None else NextPolygon(b, w.value)
  }

  /** One more polygon, walked from where the last one ended. */
  function NextPolygon(b: Bytes, w: PartsWalk<seq<seq<Coord>>>): (r: Option<PartsWalk<seq<seq<Coord>>>>)
    ensures r.Some? ==> w.end < r.value.end <= |b| && |r.value.parts| == |w.parts| + 1
  {
    if !PolygonFits(b, w.end) then None
    else Some(PartsWalk(PolygonEnd(b, w.end), w.parts + [PolygonRings(b, w.end)]))
  }

  lemma {:induction false} WalkLinesPrefix(b: Bytes, q: nat, j: nat, k: nat)
    requires j <= k && WalkLines(b, q, k).Some?
    ensures WalkLines(b, q, j).Some?
  {
    if j < k {
      assert WalkLines(b, q, k - 1).Some?;
      WalkLinesPrefix(b, q, j, k - 1);
    }
  }

  lemma {:induction false} WalkPolygonsPrefix(b: Bytes, q: nat, j: nat, k: nat)
    requires j <= k && WalkPolygons(b, q, k).Some?
    ensures WalkPolygons(b, q, j).Some?
  {
    if j < k {
      assert WalkPolygons(b, q, k - 1).Some?;
      WalkPolygonsPrefix(b, q, j, k - 1);
    }
  }

  /** A multipoint's vertex stride comes from the outer type code alone. */
  function MultiPointStride(wkbType: nat): (r: nat)
    ensures r == 24 <==> wkbType == WKB_MULTIPOINT_25D
  {
    Stride(wkbType == WKB_MULTIPOINT_25D)
  }

  predicate MultiPointFits(wkbType: nat, b: Bytes)
  {
    9 <= |b| && 9 + Span(U32At(b, 5), 5 + MultiPointStride(wkbType)) <= |b|
  }

  function MultiPointCoords(wkbType: nat, b: Bytes): seq<Coord>
    requires MultiPointFits(wkbType, b)
  {
    PointsAt(b, 9, U32At(b, 5), 5, MultiPointStride(wkbType))
  }

  /**
   * The multipoint branch of drawFeature: the point count (unsigned) is at
   * offset 5, and each point skips its own five-byte header before x and y.
   */
  method DrawMultiPoint(wkbType: nat, b: Bytes) returns (points: seq<Coord>)
    requires MultiPointFits(wkbType, b)
    ensures |points| == U32At(b, 5)
    ensures points == MultiPointCoords(wkbType, b)
  {
    var nPoints := U32At(b, 5);
    var end;
    end, points := ReadPoints(b, 9, nPoints, 5, wkbType == WKB_MULTIPOINT_25D);
  }

  /** The multi line string branch: the part count (unsigned) is at offset 5. */
  method DrawMultiLineString(b: Bytes) returns (lines: seq<seq<Coord>>)
    requires 9 <= |b| && WalkLines(b, 9, U32At(b, 5)).Some?
    ensures lines == WalkLines(b, 9, U32At(b, 5)).value.parts
  {
    var numLineStrings := U32At(b, 5);
    var ptr: nat := 9;
    lines := [];
    var jdx := 0;
    while jdx < numLineStrings
      invariant 0 <= jdx <= numLineStrings
      invariant WalkLines(b, 9, jdx) == Some(PartsWalk(ptr, lines))
    {
      WalkLinesPrefix(b, 9, jdx + 1, numLineStrings);
      var points;
      ptr, points := DrawLineString(b, ptr);
      lines := lines + [points];
      jdx := jdx + 1;
    }
  }

  /** The multi polygon branch: the part count (unsigned) is at offset 5. */
  method DrawMultiPolygon(b: Bytes) returns (polygons: seq<seq<seq<Coord>>>)
    requires 9 <= |b| && WalkPolygons(b, 9, U32At(b, 5)).Some?
    ensures polygons == WalkPolygons(b, 9, U32At(b, 5)).value.parts
  {
    var numPolygons := U32At(b, 5);
    var ptr: nat := 9;
    polygons := [];
    var kdx := 0;
    while kdx < numPolygons
      invariant 0 <= kdx <= numPolygons
      invariant WalkPolygons(b, 9, kdx) == Some(PartsWalk(ptr, polygons))
    {
      WalkPolygonsPrefix(b, 9, kdx + 1, numPolygons);
      var rings;
      ptr, rings := DrawPolygon(b, ptr);
      polygons := polygons + [rings];
      kdx := kdx + 1;
    }
  }

  // ------------------------------------------------------------------ Features

  /** A feature's geometry: its type code and its WKB buffer. */
  datatype Geometry = Geometry(wkbType: nat, wkb: Bytes)

  /** What drawFeature hands to the painter, before transformation and clipping. */
  datatype Drawing =
    | NothingDrawn
    | Markers(points: seq<Coord>)
    | Lines(lines: seq<seq<Coord>>)
    | Polygons(polygons: seq<seq<seq<Coord>>>)

  predicate IsPointType(t: nat) { t == WKB_POINT || t == WKB_POINT_25D }
  predicate IsMultiPointType(t: nat) { t == WKB_MULTIPOINT || t == WKB_MULTIPOINT_25D }
  predicate IsLineStringType(t: nat) { t == WKB_LINESTRING || t == WKB_LINESTRING_25D }
  predicate IsMultiLineStringType(t: nat) { t == WKB_MULTILINESTRING || t == WKB_MULTILINESTRING_25D }
  predicate IsPolygonType(t: nat) { t == WKB_POLYGON || t == WKB_POLYGON_25D }
  predicate IsMultiPolygonType(t: nat) { t == WKB_MULTIPOLYGON || t == WKB_MULTIPOLYGON_25D }

  /** The buffer is long enough for the walk its type code selects. */
  predicate FeatureFits(g: Geometry)
  {
    var t, b := g.wkbType, g.wkb;
    if IsPointType(t) then 21 <= |b|
    else if IsMultiPointType(t) then MultiPointFits(t, b)
    else if IsLineStringType(t) then LineStringFits(b, 0)
    else if IsMultiLineStringType(t) then 9 <= |b| && WalkLines(b, 9, U32At(b, 5)).Some?
    else if IsPolygonType(t) then PolygonFits(b, 0)
    else if IsMultiPolygonType(t) then 9 <= |b| && WalkPolygons(b, 9, U32At(b, 5)).Some?
    else true
  }

  /** What drawFeature draws for a feature with the given validity and geometry. */
  function FeatureDrawing(valid: bool, geometry: Option<Geometry>): (d: Drawing)
    requires valid && geometry.Some? ==> FeatureFits(geometry.value)
    ensures !valid || geometry.None? ==> d == NothingDrawn
    ensures d.Markers? <==> valid && geometry.Some? && (IsPointType(geometry.value.wkbType) || IsMultiPointType(geometry.value.wkbType))
    ensures d.Lines? <==> valid && geometry.Some? && (IsLineStringType(geometry.value.wkbType) || IsMultiLineStringType(geometry.value.wkbType))
    ensures d.Polygons? <==> valid && geometry.Some? && (IsPolygonType(geometry.value.wkbType) || IsMultiPolygonType(geometry.value.wkbType))
    ensures valid && geometry.Some? && IsPointType(geometry.value.wkbType) ==> d == Markers([CoordAt(geometry.value.wkb, 5)])
    ensures valid && geometry.Some? && IsLineStringType(geometry.value.wkbType) ==> |d.lines| == 1
    ensures valid && geometry.Some? && IsPolygonType(geometry.value.wkbType) ==> |d.polygons| == 1
    ensures valid && geometry.Some? && (IsMultiLineStringType(geometry.value.wkbType) || IsMultiPolygonType(geometry.value.wkbType) || IsMultiPointType(geometry.value.wkbType))
            ==> var count := U32At(geometry.value.wkb, 5);
                (d.Markers? ==> |d.points| == count) && (d.Lines? ==> |d.lines| == count) && (d.Polygons? ==> |d.polygons| == count)
  {
    if !valid || geometry.None? then NothingDrawn
    else
      var t, b := geometry.value.wkbType, geometry.value.wkb;
      if IsPointType(t) then Markers([CoordAt(b, 5)])
      else if IsMultiPointType(t) then Markers(MultiPointCoords(t, b))
      else if IsLineStringType(t) then Lines([LineStringPoints(b, 0)])
      else if IsMultiLineStringType(t) then Lines(WalkLines(b, 9, U32At(b, 5)).value.parts)
      else if IsPolygonType(t) then Polygons([PolygonRings(b, 0)])
      else if IsMultiPolygonType(t) then Polygons(WalkPolygons(b, 9, U32At(b, 5)).value.parts)
      else NothingDrawn
  }

  /**
   * drawFeature: nothing for an invalid feature or one without geometry;
   * otherwise the walk its type code selects.  A type code outside the
   * twelve handled ones draws nothing.
   */
  method DrawFeature(valid: bool, geometry: Option<Geometry>) returns (d: Drawing)
    requires valid && geometry.Some? ==> FeatureFits(geometry.value)
    ensures d == FeatureDrawing(valid, geometry)
  {
    if !valid {
      return NothingDrawn;
    }
    if geometry.None? {
      return NothingDrawn;
    }
    var feature := geometry.value.wkb;
    var wkbType := geometry.value.wkbType;
    if wkbType == WKB_POINT || wkbType == WKB_POINT_25D {
      var x := feature[5..13];
      var y := feature[13..21];
      d := Markers([Coord(x, y)]);
    } else if wkbType == WKB_MULTIPOINT || wkbType == WKB_MULTIPOINT_25D {
      var points := DrawMultiPoint(wkbType, feature);
      d := Markers(points);
    } else if wkbType == WKB_LINESTRING || wkbType == WKB_LINESTRING_25D {
      var end, points := DrawLineString(feature, 0);
      d := Lines([points]);
    } else if wkbType == WKB_MULTILINESTRING || wkbType == WKB_MULTILINESTRING_25D {
      var lines := DrawMultiLineString(feature);
      d := Lines(lines);
    } else if wkbType == WKB_POLYGON || wkbType == WKB_POLYGON_25D {
      var end, rings := DrawPolygon(feature, 0);
      d := Polygons([rings]);
    } else if wkbType == WKB_MULTIPOLYGON || wkbType == WKB_MULTIPOLYGON_25D {
      var polygons := DrawMultiPolygon(feature);
      d := Polygons(polygons);
    } else {
      d := NothingDrawn;
    }
  }
}
