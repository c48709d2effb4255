/**
 * Properties of the WKB walkers: where each vertex is read from, how the
 * parts of a multi-geometry chain, and that walking a line string written in
 * the layout the walker expects gives back its vertices and stops exactly at
 * its end.
 */
module WkbFacts {
  import opened Common
  import opened Wkb

  /** The i-th of the vertices laid out from q. */
  lemma {:induction false} PointsAtIndex(b: Bytes, q: nat, n: nat, skip: nat, stride: nat, i: nat)
    requires stride >= 16 && q + Span(n, skip + stride) <= |b| && i < n
    ensures q + Span(i, skip + stride) + skip + 16 <= |b|
    ensures PointsAt(b, q, n, skip, stride)[i] == CoordAt(b, q + Span(i, skip + stride) + skip)
  {
    SpanGrows(i + 1, n, skip + stride);
    if i < n - 1 {
      PointsAtIndex(b, q, n - 1, skip, stride, i);
    }
  }

  /**
   * A line string's i-th vertex is read at p + 9 + i*stride, the stride
   * being 24 exactly when the line string's own type code is 25D.
   */
  lemma LineStringVertex(b: Bytes, p: nat, i: nat)
    requires LineStringFits(b, p) && i < LineStringCount(b, p)
    ensures var stride := if U32At(b, p + 1) == WKB_LINESTRING_25D then 24 else 16;
            p + 9 + i * stride + 16 <= |b| &&
            LineStringPoints(b, p)[i] == CoordAt(b, p + 9 + i * stride)
  {
    var stride := LineStringStride(b, p);
    PointsAtIndex(b, p + 9, LineStringCount(b, p), 0, stride, i);
    SpanIsProduct(i, stride);
  }

  /**
   * A multipoint's i-th vertex sits behind its own five-byte header at
   * 9 + i*(5 + stride) + 5; the stride is 24 exactly when the OUTER type is
   * MultiPoint25D, whatever type the point's own header carries.
   */
  lemma MultiPointVertex(t: nat, b: Bytes, i: nat)
    requires MultiPointFits(t, b) && i < U32At(b, 5)
    ensures var stride := if t == WKB_MULTIPOINT_25D then 24 else 16;
            9 + i * (5 + stride) + 5 + 16 <= |b| &&
            MultiPointCoords(t, b)[i] == CoordAt(b, 9 + i * (5 + stride) + 5)
  {
    var stride := MultiPointStride(t);
    PointsAtIndex(b, 9, U32At(b, 5), 5, stride, i);
    SpanIsProduct(i, 5 + stride);
  }

  /**
   * The parts of a multi line string chain: part i is walked from where part
   * i-1's walk ended, each from its own header (type code and count).
   */
  lemma {:induction false} LinesChain(b: Bytes, q: nat, k: nat, i: nat)
    requires WalkLines(b, q, k).Some? && i < k
    ensures WalkLines(b, q, i).Some? && WalkLines(b, q, i + 1).Some?
    ensures LineStringFits(b, WalkLines(b, q, i).value.end)
    ensures WalkLines(b, q, i + 1).value.end == LineStringEnd(b, WalkLines(b, q, i).value.end)
    ensures WalkLines(b, q, k).value.parts[i] == LineStringPoints(b, WalkLines(b, q, i).value.end)
  {
    assert WalkLines(b, q, k - 1).Some?;
    if i < k - 1 {
      LinesChain(b, q, k - 1, i);
    }
  }

  /** The same chaining for the parts of a multi polygon. */
  lemma {:induction false} PolygonsChain(b: Bytes, q: nat, k: nat, i: nat)
    requires WalkPolygons(b, q, k).Some? && i < k
    ensures WalkPolygons(b, q, i).Some? && WalkPolygons(b, q, i + 1).Some?
    ensures PolygonFits(b, WalkPolygons(b, q, i).value.end)
    ensures WalkPolygons(b, q, i + 1).value.end == PolygonEnd(b, WalkPolygons(b, q, i).value.end)
    ensures WalkPolygons(b, q, k).value.parts[i] == PolygonRings(b, WalkPolygons(b, q, i).value.end)
  {
    assert WalkPolygons(b, q, k - 1).Some?;
    if i < k - 1 {
      PolygonsChain(b, q, k - 1, i);
    }
  }

  /** A ring with no points (or a negative count) takes just its four count bytes and is not kept. */
  lemma EmptyRingTakesFourBytes(b: Bytes, w: RingWalk, stride: nat)
    requires stride >= 16 && w.end + 4 <= |b| && I32At(b, w.end) < 1
    ensures NextRing(b, w, stride) == Some(RingWalk(w.end + 4, w.kept))
  {
  }

  /** A ring with n >= 1 points takes 4 + n*stride bytes and is kept with its vertices. */
  lemma RingTakesItsPoints(b: Bytes, w: RingWalk, stride: nat)
    requires stride >= 16 && w.end + 4 <= |b| && I32At(b, w.end) >= 1
    requires NextRing(b, w, stride).Some?
    ensures var n := I32At(b, w.end);
            NextRing(b, w, stride) == Some(RingWalk(w.end + 4 + n * stride, w.kept + [PointsAt(b, w.end + 4, n, 0, stride)]))
  {
    SpanIsProduct(I32At(b, w.end), stride);
  }
}
