/**
 * A writer for the line-string layout the walker reads (order byte, type
 * code, point count, then x, y and, for 25D, a z chunk per vertex), and the
 * round trip: walking what was written, wherever it sits in a buffer, gives
 * back the vertices and stops exactly where the line string ends.
 */
module WkbRoundTrip {
  import opened Wkb

  /** The bytes w sit in b from offset q on. */
  predicate WrittenAt(b: Bytes, q: nat, w: Bytes)
  {
    q + |w| <= |b| && b[q..q + |w|] == w
  }

  /** n written as four little-endian bytes. */
  function Le32(n: nat): (r: Bytes)
    requires n < 0x1_0000_0000
    ensures |r| == 4
  {
    var n1 := n / 256;
    var n2 := n1 / 256;
    var n3 := n2 / 256;
    [(n % 256) as byte, (n1 % 256) as byte, (n2 % 256) as byte, n3 as byte]
  }

  /** Four bytes written by Le32 read back as the same count, signed or not. */
  lemma Le32Reads(n: nat, b: Bytes, p: nat)
    requires n < 0x1_0000_0000 && WrittenAt(b, p, Le32(n))
    ensures U32At(b, p) == n
    ensures n < 0x8000_0000 ==> I32At(b, p) == n
  {
    var w := Le32(n);
    assert b[p..p + 4][0] == w[0] && b[p..p + 4][1] == w[1];
    assert b[p..p + 4][2] == w[2] && b[p..p + 4][3] == w[3];
  }

  /** A vertex whose x and y are whole doubles. */
  predicate WellFormed(c: Coord)
  {
    |c.x| == 8 && |c.y| == 8
  }

  predicate AllWellFormed(points: seq<Coord>)
  {
    forall i :: 0 <= i < |points| ==> WellFormed(points[i])
  }

  const ZeroChunk: Bytes := [0, 0, 0, 0, 0, 0, 0, 0]

  function VertexBytes(c: Coord, hasZ: bool): (r: Bytes)
    requires WellFormed(c)
    ensures |r| == Stride(hasZ)
    ensures r[0..8] == c.x && r[8..16] == c.y
  {
    c.x + c.y + (if hasZ then ZeroChunk else [])
  }

  function VerticesBytes(points: seq<Coord>, hasZ: bool): (r: Bytes)
    requires AllWellFormed(points)
    ensures |r| == Span(|points|, Stride(hasZ))
  {
    if points == [] then []
    else VerticesBytes(points[..|points| - 1], hasZ) + VertexBytes(points[|points| - 1], hasZ)
  }

  /** The nine-byte header: order byte, type code, count. */
  function Header(t: nat, n: nat): (r: Bytes)
    requires t < 0x1_0000_0000 && n < 0x1_0000_0000
    ensures |r| == 9
  {
    [1] + Le32(t) + Le32(n)
  }

  /** The line string with the given vertices, 25D when hasZ. */
  function EncodeLineString(points: seq<Coord>, hasZ: bool): (r: Bytes)
    requires AllWellFormed(points)
    requires |points| < 0x8000_0000
    ensures |r| == 9 + Span(|points|, Stride(hasZ))
  {
    Header(if hasZ then WKB_LINESTRING_25D else WKB_LINESTRING, |points|) + VerticesBytes(points, hasZ)
  }

  /** The two halves of a concatenation written into a buffer. */
  lemma SplitWindow(b: Bytes, q: nat, front: Bytes, back: Bytes)
    requires WrittenAt(b, q, front + back)
    ensures WrittenAt(b, q, front) && WrittenAt(b, q + |front|, back)
  {
    var whole := front + back;
    forall m | 0 <= m < |front|
      ensures b[q..q + |front|][m] == front[m]
    {
      assert b[q..q + |whole|][m] == whole[m];
    }
    forall m | 0 <= m < |back|
      ensures b[q + |front|..q + |front| + |back|][m] == back[m]
    {
      assert b[q..q + |whole|][|front| + m] == whole[|front| + m];
    }
  }

  /** A vertex written at p is read back from p. */
  lemma VertexReadBack(b: Bytes, p: nat, c: Coord, hasZ: bool)
    requires WellFormed(c) && WrittenAt(b, p, VertexBytes(c, hasZ))
    ensures p + 16 <= |b|
    ensures CoordAt(b, p) == c
  {
    var v := VertexBytes(c, hasZ);
    forall m | 0 <= m < 8
      ensures b[p..p + 8][m] == c.x[m] && b[p + 8..p + 16][m] == c.y[m]
    {
      assert b[p..p + |v|][m] == v[m];
      assert b[p..p + |v|][8 + m] == v[8 + m];
      assert v[0..8][m] == v[m] && v[8..16][m] == v[8 + m];
    }
  }

  lemma SplitLast<T>(s: seq<T>)
    requires s != []
    ensures s == s[..|s| - 1] + [s[|s| - 1]]
  {
  }

  /** The last vertex read back after the ones before it. */
  lemma ReadBackStep(b: Bytes, q: nat, points: seq<Coord>, stride: nat)
    requires stride >= 16 && points != [] && q + Span(|points|, stride) <= |b|
    requires PointsAt(b, q, |points| - 1, 0, stride) == points[..|points| - 1]
    requires CoordAt(b, q + Span(|points| - 1, stride)) == points[|points| - 1]
    ensures PointsAt(b, q, |points|, 0, stride) == points
  {
    var n := |points|;
    PointsAtStep(b, q, n - 1, 0, stride, points[n - 1]);
    SplitLast(points);
  }

  /** Walking the written vertex block gives back the vertices. */
  lemma {:induction false} VerticesReadBack(points: seq<Coord>, hasZ: bool, b: Bytes, q: nat)
    requires AllWellFormed(points) && WrittenAt(b, q, VerticesBytes(points, hasZ))
    ensures q + Span(|points|, Stride(hasZ)) <= |b|
    ensures PointsAt(b, q, |points|, 0, Stride(hasZ)) == points
    decreases |points|
  {
    if points != [] {
      var n := |points|;
      var front := points[..n - 1];
      var fb := VerticesBytes(front, hasZ);
      var vb := VertexBytes(points[n - 1], hasZ);
      assert VerticesBytes(points, hasZ) == fb + vb;
      SplitWindow(b, q, fb, vb);
      VerticesReadBack(front, hasZ, b, q);
      VertexReadBack(b, q + |fb|, points[n - 1], hasZ);
      ReadBackStep(b, q, points, Stride(hasZ));
    }
  }

  /** Bytes written in the middle of a buffer sit right after what precedes them. */
  lemma WrittenBetween(before: Bytes, w: Bytes, after: Bytes)
    ensures WrittenAt(before + w + after, |before|, w)
  {
    var b := before + w + after;
    forall m | 0 <= m < |w|
      ensures b[|before|..|before| + |w|][m] == w[m]
    {
    }
  }

  /** A written header reads back as its type code and count. */
  lemma HeaderReadBack(b: Bytes, p: nat, t: nat, n: nat)
    requires t < 0x1_0000_0000 && n < 0x8000_0000 && WrittenAt(b, p, Header(t, n))
    ensures p + 9 <= |b|
    ensures U32At(b, p + 1) == t && I32At(b, p + 5) == n
  {
    SplitWindow(b, p, [1] + Le32(t), Le32(n));
    SplitWindow(b, p, [1], Le32(t));
    Le32Reads(t, b, p + 1);
    Le32Reads(n, b, p + 5);
  }

  /**
   * Walking a written line string, placed anywhere in a buffer, reads its
   * type and count back, returns its vertices, and ends just past it.
   */
  lemma LineStringRoundTrip(points: seq<Coord>, hasZ: bool, before: Bytes, after: Bytes)
    requires AllWellFormed(points)
    requires |points| < 0x8000_0000
    ensures var b := before + EncodeLineString(points, hasZ) + after;
            LineStringFits(b, |before|) &&
            LineStringEnd(b, |before|) == |before| + |EncodeLineString(points, hasZ)| &&
            LineStringPoints(b, |before|) == points
  {
    var t := if hasZ then WKB_LINESTRING_25D else WKB_LINESTRING;
    var header := Header(t, |points|);
    var vertices := VerticesBytes(points, hasZ);
    var b := before + EncodeLineString(points, hasZ) + after;
    var p := |before|;
    WrittenBetween(before, header + vertices, after);
    SplitWindow(b, p, header, vertices);
    HeaderReadBack(b, p, t, |points|);
    VerticesReadBack(points, hasZ, b, p + 9);
    assert LineStringStride(b, p) == Stride(hasZ);
    assert LineStringCount(b, p) == |points|;
  }
}
