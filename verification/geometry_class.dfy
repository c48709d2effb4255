/**
 * QgsVectorLayer::geometryType and hasGeometryType: the class of geometry a
 * layer holds, read from the WKB type code its data provider reports.
 */
module GeometryClass {
  import opened Common
  import opened Wkb

  /** QGis::GeometryType. */
  datatype GeometryClass = Point | Line | Polygon | UnknownGeometry | NoGeometry

  /** The type code names one of the six WKB geometry types, flat or 25D. */
  predicate IsKnownWkbType(t: nat)
  {
    IsPointType(t) || IsMultiPointType(t) || IsLineStringType(t) ||
    IsMultiLineStringType(t) || IsPolygonType(t) || IsMultiPolygonType(t)
  }

  /**
   * geometryType: the provider's WKB type code (None when the layer has no
   * provider) classified as Point, Line or Polygon, a multi type sharing
   * the class of its single type and a 25D code the class of its flat code.
   */
  function GeometryType(providerType: Option<nat>): (g: GeometryClass)
    ensures g == Point <==>
      providerType.Some? && (IsPointType(providerType.value) || IsMultiPointType(providerType.value))
    ensures g == Line <==>
      providerType.Some? && (IsLineStringType(providerType.value) || IsMultiLineStringType(providerType.value))
    ensures g == Polygon <==>
      providerType.Some? && (IsPolygonType(providerType.value) || IsMultiPolygonType(providerType.value))
    ensures g == NoGeometry <==> providerType == Some(WKB_NO_GEOMETRY)
    ensures g == UnknownGeometry <==>
      providerType.None? || (!IsKnownWkbType(providerType.value) && providerType.value != WKB_NO_GEOMETRY)
  {
    match providerType
    case None => UnknownGeometry
    case Some(t) =>
      if IsPointType(t) || IsMultiPointType(t) then Point
      else if IsLineStringType(t) || IsMultiLineStringType(t) then Line
      else if IsPolygonType(t) || IsMultiPolygonType(t) then Polygon
      else if t == WKB_NO_GEOMETRY then NoGeometry
      else UnknownGeometry
  }

  /** hasGeometryType: the layer holds points, lines or polygons. */
  predicate HasGeometryType(providerType: Option<nat>)
  {
    var g := GeometryType(providerType);
    g != NoGeometry && g != UnknownGeometry
  }

  /** A layer has a geometry type exactly when its provider reports one of the twelve WKB geometry codes. */
  lemma HasGeometryTypeIffKnownCode(providerType: Option<nat>)
    ensures HasGeometryType(providerType) <==> providerType.Some? && IsKnownWkbType(providerType.value)
  {
  }

  /** A 25D code falls in the same class as its flat code, and a multi code in the class of its single code. */
  lemma ClassIgnoresZAndMulti(t: nat)
    requires 1 <= t <= 6
    ensures GeometryType(Some(t + 0x8000_0000)) == GeometryType(Some(t))
    ensures t >= 4 ==> GeometryType(Some(t)) == GeometryType(Some(t - 3))
  {
  }

  /**
   * The class agrees with the way drawFeature draws a feature of that type:
   * points as markers, line strings as lines, polygons as polygons.
   */
  lemma ClassMatchesDrawing(t: nat, wkb: Bytes)
    requires FeatureFits(Geometry(t, wkb))
    ensures FeatureDrawing(true, Some(Geometry(t, wkb))).Markers? <==> GeometryType(Some(t)) == Point
    ensures FeatureDrawing(true, Some(Geometry(t, wkb))).Lines? <==> GeometryType(Some(t)) == Line
    ensures FeatureDrawing(true, Some(Geometry(t, wkb))).Polygons? <==> GeometryType(Some(t)) == Polygon
  {
  }
}
