# QGIS vector layer and composer legend: a verified model

This project models three parts of QGIS (the 1.x/2.0 code base) in Dafny and proves properties of them.

- **The composer legend's layout engine** (`QgsComposerLegend`):
  - `createAtomList` flattens the legend tree of groups, layers and symbol entries into *atoms*, the indivisible layout units. Each atom is made of *nucleons*, one per item it draws.
  - `spaceAboveAtom` picks the gap above an atom.
  - The measuring side of `drawTitle`, `drawGroupItemTitle`, `drawLayerItemTitle`, `drawSymbolItem` and `drawSymbolV2` is modelled as sizes in millimetres, using font metrics given as parameters.
  - `setColumns` distributes the atoms over columns greedily and aligns the symbol labels of each (layer, column) pair. It works in place on an array.
  - `paintAndDetermineSize` walks a cursor over the placed atoms to find the legend's size.
  - `splitStringForWrapping` and the defaults and clamp of `readXML`.
- **The vector layer** (`QgsVectorLayer`):
  - The WKB walkers of `drawFeature`, `drawLineString` and `drawPolygon`. They advance a byte offset over a little-endian buffer and return the vertices they would draw.
  - `geometryType` and `hasGeometryType`.
  - Symbol levels in `drawRendererV2Levels`: features are put into buckets per symbol, symbol layers are ordered into levels by rendering pass, and the drawing phase runs level by level. It shares the `drawMarker` decision with `drawRendererV2`.
  - Snapping: `snapPoint`, `snapWithContext` and `snapToGeometry`, over a result multimap kept as a sorted sequence.
  - A `Layer` class whose methods update the selection, the edit session, the per-field settings, the display field and the overlays in place.
- **`QgsTip`**: a title and a content with getters and setters.

Modules:
- `Common`: Option, max and picking a set member.
- `Strings`: `indexOf`, `split`/`join`, case-insensitive compare.
- `Tips`.
- The legend:
  - `LegendModel`: the data, settings, `readXML`, wrapping and `spaceAboveAtom`.
  - `LegendMeasure`: the item sizes.
  - `LegendAtoms`: `createAtomList`.
  - `LegendColumns`: the `setColumns` passes and their specifications.
  - `LegendColumnFacts`: the column and alignment guarantees.
  - `LegendPaint`: `drawAtom` heights and `paintAndDetermineSize`.
- The vector layer:
  - `Wkb`, `WkbFacts` and `WkbRoundTrip`: the walkers, vertex positions, and a writer whose output the walker reads back.
  - `GeometryClass`.
  - `SymbolLevels`.
  - `Snapping`.
  - `LayerSpecs`: reference definitions for the layer's bookkeeping.
  - `VectorLayer`: the `Layer` class.

Where the code does something other than what its comments or the surrounding design suggest, the model follows the code:
- `spaceAboveAtom` gives no gap to an atom that starts with an item of the old symbology, even though `drawAtom` does add one.
- Title lines are always followed by the line spacing, the last line included. This is because `part != lines.end()` is always true inside those loops.
- `readXML` falls back to defaults that differ from the constructor's: group and layer space 3, symbol height 14.
- `setDisplayField` passes `false` where `QString::indexOf` expects a start position. The search therefore starts at 0 and is case sensitive.
- `deleteSelectedFeatures` never returns when the edit buffer refuses to delete a selected feature.

## Model

| member | source | states |
|---|---|---|
| LegendModel.NewLegendSettings | src/core/composer/qgscomposerlegend.cpp:33-63 | a new legend has one column, no split layers or equal widths, gaps of 2 mm, a 7x4 mm symbol box and 1.5 mm line spacing |
| LegendModel.ReadXml | src/core/composer/qgscomposerlegend.cpp:745-823 | a null element is refused and changes nothing. Otherwise the column count is at least 1 (an attribute below 1 becomes 1). The split and equal-width flags are set exactly when the attribute is 1. Every other attribute's value is taken when present. When absent, the group and layer space fall back to 3 mm, the box, column, symbol and icon-label space to 2 mm, the symbol width to 7 mm and the symbol height to 14 mm. The line spacing and the composer map are kept |
| LegendModel.EmptyElementDiffersFromNewLegend | src/core/composer/qgscomposerlegend.cpp:39-57 | reading an element with no attributes does not give back a new legend's group space, layer space or symbol height |
| LegendModel.SplitForWrapping | src/core/composer/qgscomposerlegend.cpp:843-852 | at least one line, and the whole text when there is no wrap character |
| LegendModel.WrappingLosesNothing | src/core/composer/qgscomposerlegend.cpp:843-852 | the wrapped lines joined with the wrap character give back the text, and no line contains the wrap character |
| LegendModel.SpaceAboveAtom | src/core/composer/qgscomposerlegend.cpp:980-1006 | 0 for an atom with no nucleons or a null item. Group space for a group, layer space for a layer, symbol space for new-symbology and raster entries, and 0 for an old-symbology entry |
| LegendMeasure.MaxLineWidthIsMaximum | src/core/composer/qgscomposerlegend.cpp:212-231 | the measured width is at least 0 and at least every line's width, and it equals one of them or 0 |
| LegendMeasure.SymbolV2Box | src/core/composer/qgscomposerlegend.cpp:450-530 | a marker smaller than the standard box is centred with equal offsets on both sides, so its box is never smaller than the standard box. Other symbols take the standard box |
| LegendMeasure.SymbolAfterDraw | src/core/composer/qgscomposerlegend.cpp:486-530 | as written: a marker sized in map units, with a composer map, is left scaled by the map's millimetres per map unit after a pass without a painter, and unchanged after a pass with one. Every other symbol is left unchanged |
| LegendMeasure.RepeatedMeasureCompounds | src/core/composer/qgscomposerlegend.cpp:486-496 | as written, the measure after a measure without a painter sees the marker scaled twice by the map's factor |
| LegendMeasure.PaintCallRescalesMarker | src/core/composer/qgscomposerlegend.cpp:95-141 | one paintAndDetermineSize call (a measure in createAtomList, then drawAtom with the call's painter) leaves such a marker scaled once with a painter and twice without |
| LegendMeasure.SecondMeasureDiffers | src/core/composer/qgscomposerlegend.cpp:486-530 | a 10-unit marker at 2 mm per map unit measures 20x20 mm, and 40x40 mm on the next measure |
| LegendMeasure.RestoredDrawIsRepeatable | src/core/composer/qgscomposerlegend.cpp:486-530 | with the size put back whatever the painter, drawing leaves the symbol as it was, so every later measure gives the same box |
| LegendMeasure.SymbolBox | src/core/composer/qgscomposerlegend.cpp:345-379 | raster entries take the standard box. Entries with a symbol are at least the standard box. Entries without a symbol take the standard box with an icon and nothing otherwise |
| LegendMeasure.SymbolNucleon | src/core/composer/qgscomposerlegend.cpp:302-420 | a symbol entry's nucleon refers to its layer. Its width is the symbol box plus the label, and its height is the taller of the two |
| LegendMeasure.DrawTitle | src/core/composer/qgscomposerlegend.cpp:201-235 | the title loop measures the title as TitleSize: every line 1 mm wider than its text, every line followed by the line spacing, nothing for an empty title |
| LegendMeasure.DrawGroupItemTitle | src/core/composer/qgscomposerlegend.cpp:238-261 | the group title loop measures one ascent and one line spacing per wrapped line, as wide as the widest line |
| LegendMeasure.DrawLayerItemTitle | src/core/composer/qgscomposerlegend.cpp:263-290 | as for groups with the layer font; an empty layer title measures (0, 0) |
| LegendMeasure.DrawSymbolItem | src/core/composer/qgscomposerlegend.cpp:302-420 | the nucleon measured with a label offset differs from the unshifted one only in its width, which grows by the offset |
| LegendMeasure.TrailingSpacingDifference | src/core/composer/qgscomposerlegend.cpp:247-259 | with equal line heights, a group title of n lines is one line spacing taller than a label of n lines: titles keep the trailing spacing that labels (n-1 spacings, line 389) do not |
| LegendAtoms.PrependGroupTitle | src/core/composer/qgscomposerlegend.cpp:878-886 | the group title goes in front of the first child atom. That atom grows by the gap it would have had above it plus the title height, and is at least as wide as both |
| LegendAtoms.AtomItemsAppend | src/core/composer/qgscomposerlegend.cpp:854-942 | the items of two atom lists appended are the items of the first followed by those of the second |
| LegendAtoms.LayerStepItems | src/core/composer/qgscomposerlegend.cpp:911-936 | one pass of the layer loop adds the entry's item after all items so far, whether it joins the layer atom or opens an atom of its own |
| LegendAtoms.LayerFoldFresh | src/core/composer/qgscomposerlegend.cpp:911-936 | the layer loop keeps the layer atom non-empty in column 0, and each split-off entry is a one-nucleon atom in column 0 |
| LegendAtoms.AtomsKeepTreeOrder | src/core/composer/qgscomposerlegend.cpp:854-942 | the nucleons of the flattened atoms, read in order, are exactly the tree's group titles, layer titles and legend entries in depth-first order. Nothing is lost or repeated |
| LegendAtoms.NodeAtomsKeepTreeOrder | src/core/composer/qgscomposerlegend.cpp:868-937 | the same for one group or layer node |
| LegendAtoms.LayerFoldItems | src/core/composer/qgscomposerlegend.cpp:911-936 | the layer loop keeps every legend entry once, after the layer title, in child order, whether or not layers are split |
| LegendAtoms.AtomsAreFreshAndNonEmpty | src/core/composer/qgscomposerlegend.cpp:854-942 | every atom of the list holds at least one nucleon and starts in column 0 |
| LegendAtoms.NodeAtomsAreFreshAndNonEmpty | src/core/composer/qgscomposerlegend.cpp:868-937 | the same for the atoms of one node |
| LegendAtoms.UnsplitLayerHeight | src/core/composer/qgscomposerlegend.cpp:905-925 | without split layers a layer is one atom: its title and all its entries, as tall as the title plus, per entry, the symbol space and the entry's height |
| LegendAtoms.SplitLayerAtoms | src/core/composer/qgscomposerlegend.cpp:918-936 | with split layers the layer atom keeps at most child 0, and every other legend entry is an atom of its own that follows it |
| LegendColumns.MaxAtomHeightBounds | src/core/composer/qgscomposerlegend.cpp:1013-1025 | the tallest-atom height is at least 0 and at least every atom's height |
| LegendColumns.Totals | src/core/composer/qgscomposerlegend.cpp:1013-1025 | the first pass computes the stacked height (the gap above every atom but the first) and the tallest atom |
| LegendColumns.PlaceAtom | src/core/composer/qgscomposerlegend.cpp:1042-1072 | one step of the greedy packer, with the source's running heights, agrees with the packer's state function |
| LegendColumns.AssignColumns | src/core/composer/qgscomposerlegend.cpp:1033-1073 | the in-place loop gives every atom the column of the packer and changes nothing else |
| LegendColumns.CollectSymbolWidths | src/core/composer/qgscomposerlegend.cpp:1075-1092 | the map it builds holds, per (layer, column) pair, the widest symbol box of that pair |
| LegendColumns.AlignLabels | src/core/composer/qgscomposerlegend.cpp:1093-1109 | the in-place loop moves each symbol label to its pair's widest box plus the icon-label space and leaves other nucleons alone |
| LegendColumns.SetColumns | src/core/composer/qgscomposerlegend.cpp:1008-1110 | a column count of 0 leaves the list untouched; otherwise the list becomes the laid-out list (packed, then aligned) |
| LegendColumnFacts.PackAdvancesByOne | src/core/composer/qgscomposerlegend.cpp:1052-1067 | a packer step keeps the column or moves to the next one. It moves only when the open column holds an atom, a later column exists, and the column with this atom would be taller than the tallest atom and than every column so far |
| LegendColumnFacts.FirstAtomInFirstColumn | src/core/composer/qgscomposerlegend.cpp:1034-1068 | the first atom lands in column 0 |
| LegendColumnFacts.AssignedColumns | src/core/composer/qgscomposerlegend.cpp:1033-1073 | after packing, every column is within [0, count-1], the first atom is in column 0, and each atom is in its predecessor's column or the next, so no column is skipped |
| LegendColumnFacts.LayoutColumns | src/core/composer/qgscomposerlegend.cpp:1008-1110 | the same guarantees hold for the list setColumns leaves, since alignment keeps columns |
| LegendColumnFacts.AlignedKeepsAtoms | src/core/composer/qgscomposerlegend.cpp:1093-1109 | alignment keeps every atom's column and size, the number and items of its nucleons, and every non-symbol nucleon unchanged |
| LegendColumnFacts.LayoutKeepsAtomSizes | src/core/composer/qgscomposerlegend.cpp:1008-1110 | setColumns keeps atom order and sizes and each atom's nucleon items (atom sizes are never refitted) |
| LegendColumnFacts.SymbolWidthsBound | src/core/composer/qgscomposerlegend.cpp:1075-1092 | every entry of the widths map is at least 0 and at least every symbol width with that key |
| LegendColumnFacts.AbsorbNucleonsGrows | src/core/composer/qgscomposerlegend.cpp:1080-1089 | recording an atom's symbol widths never lowers an entry of the map |
| LegendColumnFacts.AbsorbNucleonsBound | src/core/composer/qgscomposerlegend.cpp:1080-1089 | after an atom's nucleons are recorded, each entry is at least the symbol width of every such nucleon with that key |
| LegendColumnFacts.AbsorbNucleonsAttained | src/core/composer/qgscomposerlegend.cpp:1080-1089 | an entry after recording is its old value or the symbol width of one of the recorded nucleons with that key |
| LegendColumnFacts.SymbolWidthsAttained | src/core/composer/qgscomposerlegend.cpp:1075-1092 | every entry of the widths map is 0 or the symbol width of some nucleon with that key, so the map holds the maximum |
| LegendColumnFacts.AlignedAlignsLabels | src/core/composer/qgscomposerlegend.cpp:1093-1109 | against a non-negative map that bounds every symbol width, every symbol nucleon gets the offset "map entry of its pair plus icon-label space", at least its own box plus that space, and the width "offset plus label". Nucleons of one pair share the offset |
| LegendColumnFacts.LayoutAlignsLabels | src/core/composer/qgscomposerlegend.cpp:1075-1109 | after setColumns, each symbol label's offset is its pair's entry in the widths map of the packed atoms plus the icon-label space. All labels of one (layer, column) pair share it, it lies right of each nucleon's own box plus that space, and each such nucleon's width is the offset plus its label width |
| LegendColumnFacts.LayoutOffsetIsWidestBox | src/core/composer/qgscomposerlegend.cpp:1075-1109 | after setColumns, a symbol label's offset less the icon-label space is the widest symbol box of its pair: non-negative, at least every box of the pair, and equal to one of them or to 0 (an absent entry) |
| LegendColumnFacts.ThreeAtomsInTwoColumns | src/core/composer/qgscomposerlegend.cpp:1033-1073 | atoms 10, 10 and 30 mm high with no gaps, in two columns: the first two share column 0 and the tall one opens column 1 |
| LegendPaint.NucleonGap | src/core/composer/qgscomposerlegend.cpp:953-974 | drawAtom's gap above a nucleon agrees with spaceAboveAtom for every kind except old-symbology entries |
| LegendPaint.DrawnAppend | src/core/composer/qgscomposerlegend.cpp:944-978 | drawing one more nucleon advances by its gap and its height |
| LegendPaint.DrawnAppendAfterFirst | src/core/composer/qgscomposerlegend.cpp:953-974 | in the middle of an atom, one more nucleon advances by its kind's gap and its height |
| LegendPaint.AtomsDrawnAsMeasured | src/core/composer/qgscomposerlegend.cpp:854-978 | drawAtom advances over every atom of the flattened legend by exactly the height createAtomList measured for it, and each node's first atom starts with a title |
| LegendPaint.NodeAtomsDrawnAsMeasured | src/core/composer/qgscomposerlegend.cpp:868-978 | the same for the atoms of one node |
| LegendPaint.LayerFoldDrawnAsMeasured | src/core/composer/qgscomposerlegend.cpp:911-978 | the same for the atoms of one layer |
| LegendPaint.FinalSize | src/core/composer/qgscomposerlegend.cpp:149-174 | the legend is a box space taller than the column top plus the tallest column, at least as wide as the last column plus a box space, and, with a title, at least the title plus two box spaces |
| LegendPaint.LegendHeightFromWalk | src/core/composer/qgscomposerlegend.cpp:110-151 | the legend's height is the column top, the tallest column and a box space |
| LegendPaint.WidestAtom | src/core/composer/qgscomposerlegend.cpp:99-106 | the equal-width loop finds the widest atom |
| LegendPaint.WalkAtoms | src/core/composer/qgscomposerlegend.cpp:112-148 | the cursor loop ends where the cursor step function does |
| LegendPaint.PlaceAtoms | src/core/composer/qgscomposerlegend.cpp:95-97 | the atoms are laid out by setColumns |
| LegendPaint.FinishSize | src/core/composer/qgscomposerlegend.cpp:149-174 | the closing lines give the legend's final size |
| LegendPaint.PaintAndDetermineSize | src/core/composer/qgscomposerlegend.cpp:82-199 | the size computed is that of the flattened, laid-out legend under its measured title |
| LegendPaint.SingleColumnWalk | src/core/composer/qgscomposerlegend.cpp:117-148 | with every atom in column 0 the cursor goes straight down by the stacked height. The column is as wide as the widest atom, and with non-negative gaps its height is the stacked height |
| LegendPaint.OneColumnPlacement | src/core/composer/qgscomposerlegend.cpp:1008-1073 | with one column every atom lands in column 0 with its size, keeping the stacked height |
| LegendPaint.OneColumnLegendHeight | src/core/composer/qgscomposerlegend.cpp:82-151 | a one-column legend with non-negative gaps is as tall as its atoms stacked with their gaps, plus the title, the group space under it and a box space above and below |
| LegendPaint.SingleColumnLegendHeight | src/core/composer/qgscomposerlegend.cpp:110-151 | the same for any atoms already in column 0 |
| LegendPaint.TotalHeightFollowsSizes | src/core/composer/qgscomposerlegend.cpp:1013-1025 | the stacked height depends only on atom sizes and gaps |
| Strings.IndexOfIsFirstOccurrence | src/core/qgsvectorlayer.cpp:264-280 | indexOf answers the first occurrence, and -1 exactly when there is none |
| Strings.SplitJoin | src/core/composer/qgscomposerlegend.cpp:843-852 | joining a split with its separator gives back the string |
| Strings.SplitPiecesFree | src/core/composer/qgscomposerlegend.cpp:843-852 | no piece of a split contains the separator |
| Wkb.U32At | src/core/qgsvectorlayer.cpp:3653-3655 | a little-endian 32-bit count is below 2^32 |
| Wkb.LittleEndian | src/core/qgsvectorlayer.cpp:3653-3655 | four bytes read least significant first give a value below 2^32 |
| Wkb.I32At | src/core/qgsvectorlayer.cpp:406-409 | the same bytes read as a signed int lie in [-2^31, 2^31) and agree with the unsigned reading when non-negative |
| Wkb.PointCount | src/core/qgsvectorlayer.cpp:418 | a signed loop bound runs max(n, 0) times |
| Wkb.SpanIsProduct | src/core/qgsvectorlayer.cpp:418-428 | n vertices of a stride take n times the stride |
| Wkb.LineStringStride | src/core/qgsvectorlayer.cpp:410-428 | a line string's vertex stride is 24 exactly when its own type is LineString25D, 16 otherwise |
| Wkb.ReadPoints | src/core/qgsvectorlayer.cpp:418-428 | the vertex loop returns exactly the vertices laid out from the start and ends just past them |
| Wkb.ReadPoint | src/core/qgsvectorlayer.cpp:419-427 | one pass of the vertex loop reads the vertex behind the header and moves past its x, y and, when present, z |
| Wkb.DrawLineString | src/core/qgsvectorlayer.cpp:403-494 | the type is read at p+1 and the count at p+5. The walk returns the count's vertices and ends at p + 9 + count × stride |
| Wkb.PolygonStride | src/core/qgsvectorlayer.cpp:510-515 | a polygon's stride is 24 exactly when its own type is Polygon25D |
| Wkb.NextRing | src/core/qgsvectorlayer.cpp:523-545 | each ring moves the offset forward by at least its four count bytes, within the buffer |
| Wkb.WalkRings | src/core/qgsvectorlayer.cpp:521-545 | the ring walk stays within the buffer |
| Wkb.DrawPolygon | src/core/qgsvectorlayer.cpp:496-717 | with no rings the walk returns p+9 at once. Otherwise it returns the rings with at least one point, in order, and ends just past the last ring |
| Wkb.ReadRings | src/core/qgsvectorlayer.cpp:521-545 | the ring loop agrees with the ring walk |
| Wkb.ReadRing | src/core/qgsvectorlayer.cpp:525-545 | one pass of the ring loop agrees with one ring step |
| Wkb.WalkRingsPrefix | src/core/qgsvectorlayer.cpp:521-545 | a ring walk that fits also fits over its first rings |
| Wkb.WalkLines | src/core/qgsvectorlayer.cpp:3697-3704 | chaining line strings stays in the buffer and yields one part per line |
| Wkb.WalkPolygons | src/core/qgsvectorlayer.cpp:3716-3721 | chaining polygons stays in the buffer and yields one part per polygon |
| Wkb.WalkLinesPrefix | src/core/qgsvectorlayer.cpp:3701-3704 | a line chain that fits also fits over its first parts |
| Wkb.WalkPolygonsPrefix | src/core/qgsvectorlayer.cpp:3719-3720 | a polygon chain that fits also fits over its first parts |
| Wkb.MultiPointStride | src/core/qgsvectorlayer.cpp:3657-3671 | a multipoint's stride is 24 exactly when the outer type is MultiPoint25D |
| Wkb.DrawMultiPoint | src/core/qgsvectorlayer.cpp:3650-3686 | the multipoint branch returns as many vertices as the unsigned count at offset 5, each read behind its own five-byte header |
| Wkb.DrawMultiLineString | src/core/qgsvectorlayer.cpp:3694-3705 | the multi line string branch walks the line strings chained from offset 9 |
| Wkb.DrawMultiPolygon | src/core/qgsvectorlayer.cpp:3713-3721 | the multi polygon branch walks the polygons chained from offset 9 |
| Wkb.FeatureDrawing | src/core/qgsvectorlayer.cpp:3600-3729 | nothing is drawn for an invalid feature or one without geometry. Otherwise points and multipoints become markers (a point: its vertex at offset 5), line types become lines and polygon types become polygons; other codes draw nothing |
| Wkb.DrawFeature | src/core/qgsvectorlayer.cpp:3600-3729 | drawFeature's dispatch agrees with FeatureDrawing |
| WkbFacts.PointsAtIndex | src/core/qgsvectorlayer.cpp:418-428 | vertex i is read at the start plus i strides plus the header |
| WkbFacts.LineStringVertex | src/core/qgsvectorlayer.cpp:409-428 | a line string's vertex i is at p + 9 + i × stride |
| WkbFacts.MultiPointVertex | src/core/qgsvectorlayer.cpp:3653-3671 | a multipoint's vertex i is at 9 + i × (5 + stride) + 5, whatever type its own header carries |
| WkbFacts.LinesChain | src/core/qgsvectorlayer.cpp:3697-3704 | part i of a multi line string is the line string that starts where part i-1 ended |
| WkbFacts.PolygonsChain | src/core/qgsvectorlayer.cpp:3716-3721 | part i of a multi polygon is the polygon that starts where part i-1 ended |
| WkbFacts.EmptyRingTakesFourBytes | src/core/qgsvectorlayer.cpp:525-533 | a ring with fewer than one point takes its four count bytes and is not drawn |
| WkbFacts.RingTakesItsPoints | src/core/qgsvectorlayer.cpp:525-545 | a ring with n ≥ 1 points takes 4 + n × stride bytes and is kept with its vertices |
| WkbRoundTrip.Le32Reads | src/core/qgsvectorlayer.cpp:406-409 | a count written as four little-endian bytes is read back, signed or unsigned |
| WkbRoundTrip.VertexReadBack | src/core/qgsvectorlayer.cpp:420-423 | a written vertex is read back from its offset |
| WkbRoundTrip.VerticesReadBack | src/core/qgsvectorlayer.cpp:418-428 | a written vertex block is read back whole by the vertex loop |
| WkbRoundTrip.HeaderReadBack | src/core/qgsvectorlayer.cpp:406-409 | a written header reads back as its type and count |
| WkbRoundTrip.LineStringRoundTrip | src/core/qgsvectorlayer.cpp:403-494 | walking an encoded line string placed anywhere in a buffer returns its vertices and ends just past it |
| WkbRoundTrip.EncodeLineString | src/core/qgsvectorlayer.cpp:403-428 | an encoded line string takes its nine header bytes plus one stride per vertex, the length the walker steps over |
| GeometryClass.GeometryType | src/core/qgsvectorlayer.cpp:1356-1404 | Point, Line or Polygon exactly for the single and multi codes of that class, flat or 25D. NoGeometry exactly for code 100. Unknown without a provider or for any other code |
| GeometryClass.HasGeometryTypeIffKnownCode | src/core/qgsvectorlayer.cpp:1407-1410 | a layer has a geometry type exactly when its provider reports one of the twelve geometry codes |
| GeometryClass.ClassIgnoresZAndMulti | src/core/qgsvectorlayer.cpp:1356-1404 | a 25D code falls in its flat code's class, and a multi code in its single code's class |
| GeometryClass.ClassMatchesDrawing | src/core/qgsvectorlayer.cpp:3600-3729 | drawFeature draws markers, lines or polygons exactly for point, line or polygon classes |
| SymbolLevels.DrawMarkerCases | src/core/qgsvectorlayer.cpp:767-768 | markers are drawn only while editing. Then they are drawn for every feature, or only for selected ones with the marker-only-for-selection setting |
| SymbolLevels.BucketFeatures | src/core/qgsvectorlayer.cpp:837-886 | buckets exist exactly for symbols resolved for some feature with a geometry. Each holds those features' ids in fetch order |
| SymbolLevels.AddToBucket | src/core/qgsvectorlayer.cpp:853-863 | one fetched feature extends at most its symbol's bucket, creating it on first use |
| SymbolLevels.BucketMembership | src/core/qgsvectorlayer.cpp:837-863 | an id is in a symbol's bucket exactly when some fetched feature with that id has a geometry and resolved to that symbol |
| SymbolLevels.BucketKeepsFetchOrder | src/core/qgsvectorlayer.cpp:837-863 | the bucket of a fetch split in two is the first half's bucket followed by the second half's |
| SymbolLevels.BucketKeysAreNonEmptyBuckets | src/core/qgsvectorlayer.cpp:859-863 | a symbol has a bucket exactly when that bucket is non-empty |
| SymbolLevels.PlaceItem | src/core/qgsvectorlayer.cpp:899-902 | empty levels are appended up to the pass, and the item goes at the end of its level |
| SymbolLevels.BuildLevels | src/core/qgsvectorlayer.cpp:889-904 | there are one-past-the-highest-valid-pass levels, and each level holds the items of that pass in symbol and layer order |
| SymbolLevels.LevelOfBeyondCount | src/core/qgsvectorlayer.cpp:896-902 | no item lies on a level at or above the count |
| SymbolLevels.LevelOfSplit | src/core/qgsvectorlayer.cpp:891-904 | splitting the items splits each level the same way |
| SymbolLevels.ItemsSplit | src/core/qgsvectorlayer.cpp:891-904 | the items of a split symbol list are the first part's followed by the second's |
| SymbolLevels.LevelsFollowSymbolOrder | src/core/qgsvectorlayer.cpp:891-904 | within each level, a symbol's items come before those of every later symbol |
| SymbolLevels.LevelFollowsLayerOrder | src/core/qgsvectorlayer.cpp:894-903 | within a level, one symbol's items come in increasing layer order |
| SymbolLevels.LayerItemsMembership | src/core/qgsvectorlayer.cpp:894-902 | a symbol's layer is placed exactly when its pass is in [0, 1000), on that pass |
| SymbolLevels.ItemsMembership | src/core/qgsvectorlayer.cpp:891-904 | a placed item comes from a listed symbol having that layer with that valid pass |
| SymbolLevels.LevelOfMembership | src/core/qgsvectorlayer.cpp:899-902 | an item is on level l exactly when it was placed with pass l |
| SymbolLevels.LevelsHoldValidLayers | src/core/qgsvectorlayer.cpp:889-904 | the levels hold layer j of a symbol on level l exactly when the symbol is listed, has layer j, and that layer's pass is l in [0, 1000) |
| SymbolLevels.LevelCountIsOnePastTopPass | src/core/qgsvectorlayer.cpp:900-901 | every placed pass is below the level count, and the top level is occupied |
| SymbolLevels.FeatureCalls | src/core/qgsvectorlayer.cpp:924-954 | one render call per bucket feature |
| SymbolLevels.DrawItem | src/core/qgsvectorlayer.cpp:912-954 | an item without a bucket is skipped; otherwise each feature of the bucket is rendered with the item's layer |
| SymbolLevels.DrawLevel | src/core/qgsvectorlayer.cpp:910-955 | the items of a level are drawn in order |
| SymbolLevels.DrawLevels | src/core/qgsvectorlayer.cpp:907-956 | the levels are drawn in order |
| SymbolLevels.FeatureCallsMembership | src/core/qgsvectorlayer.cpp:937-943 | each call carries a bucket feature, the item's layer, its selection state and the matching marker decision |
| SymbolLevels.LevelCallsMembership | src/core/qgsvectorlayer.cpp:910-955 | a level makes a call exactly when one of its items has a bucket the call belongs to |
| SymbolLevels.LevelsCallsMembership | src/core/qgsvectorlayer.cpp:907-956 | a call is made exactly when some level holds an item whose bucket the call belongs to |
| Snapping.Insert | src/core/qgsvectorlayer.cpp:3543 | inserting into the result multimap adds exactly the new entry |
| Snapping.InsertKeepsSorted | src/core/qgsvectorlayer.cpp:3543 | insertion keeps the multimap in ascending key order |
| Snapping.InsertSplits | src/core/qgsvectorlayer.cpp:3543 | the others keep their order around the new entry |
| Snapping.InsertIndexSeparatesKeys | src/core/qgsvectorlayer.cpp:3543 | the new entry goes after smaller keys and before all others, so among equal keys the newest comes first |
| Snapping.SegmentEpsilon | src/core/qgsvectorlayer.cpp:3550-3552 | the segment search epsilon is positive and at most 1e-8 |
| Snapping.SnapToGeometry | src/core/qgsvectorlayer.cpp:3506-3567 | a vertex strictly inside the tolerance is inserted and ends the search. Vertex-only snapping and point layers add nothing else. A null geometry adds nothing. At most one entry is added |
| Snapping.SnapAll | src/core/qgsvectorlayer.cpp:3480-3501 | each candidate adds at most one entry |
| Snapping.SnapAllKeepsSorted | src/core/qgsvectorlayer.cpp:3480-3501 | snapping keeps the result map sorted |
| Snapping.SnapWithContext | src/core/qgsvectorlayer.cpp:3454-3504 | 1 exactly without a geometry type, with a non-positive tolerance or without a provider (results untouched). Otherwise 2 exactly when no candidate was examined, else 0, with every candidate snapped |
| Snapping.CloseVertexEntriesMembership | src/core/qgsvectorlayer.cpp:3521-3540 | an entry is a close vertex entry exactly when it is the vertex entry of a candidate strictly inside the tolerance |
| Snapping.VertexOnlySnaps | src/core/qgsvectorlayer.cpp:3526-3548 | without segment search (vertex mode or a point layer), snapping adds exactly the close vertex entries; in segment-only mode it adds none |
| Snapping.SnapPoint | src/core/qgsvectorlayer.cpp:3429-3452 | succeeds exactly with a geometry type, a provider, a positive tolerance and some close vertex, and then snaps to a nearest close vertex. Otherwise the point is unchanged |
| Snapping.SnapsLieWithinTolerance | src/core/qgsvectorlayer.cpp:3521-3560 | every added entry lies strictly within the squared tolerance |
| LayerSpecs.Ids | src/core/qgsvectorlayer.cpp:1214-1230 | the id set holds exactly the listed ids |
| LayerSpecs.OfKindIsNonEmpty | src/core/qgsvectorlayer.cpp:264-282 | a name-like or id-like field name is never empty |
| LayerSpecs.FirstOfKindIsFirst | src/core/qgsvectorlayer.cpp:264-282 | the remembered field is the first of its kind, and empty exactly when none is |
| LayerSpecs.DisplayFieldChoiceIsPreferredField | src/core/qgsvectorlayer.cpp:247-322 | without a requested name the display field is a field: the first name-like one, else the first id-like one, else the first |
| LayerSpecs.ToggleAllIsSymmetricDifference | src/core/qgsvectorlayer.cpp:1262-1289 | toggling distinct ids gives the symmetric difference with the old selection |
| LayerSpecs.ToggleTwiceRestores | src/core/qgsvectorlayer.cpp:1262-1289 | toggling the same distinct ids twice restores the selection |
| LayerSpecs.WithoutMembership | src/core/qgsvectorlayer.cpp:3923-3932 | an overlay survives removal exactly when it was there with another type name |
| LayerSpecs.WithoutKeepsOthers | src/core/qgsvectorlayer.cpp:3923-3932 | removal keeps a list with no overlay of the type name intact |
| LayerSpecs.WithoutIsIdempotent | src/core/qgsvectorlayer.cpp:3923-3932 | removing a type name twice equals removing it once |
| LayerSpecs.FirstOfType | src/core/qgsvectorlayer.cpp:3939-3951 | the first index with the type name, no earlier one has it, or the length when none does |
| LayerSpecs.NothingFoundAfterRemoval | src/core/qgsvectorlayer.cpp:3923-3951 | after removal no overlay of the type name is found |
| VectorLayer.Layer.constructor | src/core/qgsvectorlayer.cpp:88-178 | a new layer is not editing, not read-only, and has nothing selected or configured |
| VectorLayer.Layer.Select | src/core/qgsvectorlayer.cpp:1180-1191 | adds the id to the selection |
| VectorLayer.Layer.Deselect | src/core/qgsvectorlayer.cpp:1193-1204 | removes the id from the selection |
| VectorLayer.Layer.RemoveSelection | src/core/qgsvectorlayer.cpp:1291-1304 | empties the selection |
| VectorLayer.Layer.SetSelectedFeatures | src/core/qgsvectorlayer.cpp:3367-3376 | the selection becomes exactly the ids |
| VectorLayer.Layer.SelectEach | src/core/qgsvectorlayer.cpp:1223-1226 | selecting each listed feature adds exactly the listed ids |
| VectorLayer.Layer.DeselectEach | src/core/qgsvectorlayer.cpp:1251-1254 | deselecting each id of a set removes exactly those ids |
| VectorLayer.Layer.SelectInRectangle | src/core/qgsvectorlayer.cpp:1206-1232 | the rectangle's features are added to the selection with the lock and replace it without |
| VectorLayer.Layer.InvertSelection | src/core/qgsvectorlayer.cpp:1234-1260 | the selection becomes every feature not previously selected |
| VectorLayer.Layer.InvertSelectionInRectangle | src/core/qgsvectorlayer.cpp:1262-1289 | each feature in the rectangle is toggled in turn (the symmetric difference for distinct ids) |
| VectorLayer.Layer.StartEditing | src/core/qgsvectorlayer.cpp:2204-2246 | succeeds exactly with an editable provider, not read-only and not already editing, and then opens an empty session whose pending feature count is the provider's; otherwise the session is untouched |
| VectorLayer.Layer.SetReadOnly | src/core/qgsvectorlayer.cpp:3798-3806 | refused exactly when locking during an edit session; otherwise sets the flag |
| VectorLayer.Layer.CommitChanges | src/core/qgsvectorlayer.cpp:3291-3328 | succeeds exactly with a provider, a session and a committing buffer, and then ends the session, so the pending feature count is the provider's. Without a provider or outside a session exactly one fixed error is recorded; otherwise the buffer's errors |
| VectorLayer.Layer.RollBack | src/core/qgsvectorlayer.cpp:3335-3365 | refused outside a session; otherwise the pending changes go, so the pending feature count is the provider's again, and the session ends only when the buffer is deleted |
| VectorLayer.Layer.PendingFeatureCount | src/core/qgsvectorlayer.cpp:3285-3289 | outside a session the provider's count; in a session it differs from the provider's count by the added less the deleted features. The session methods and VectorLayer.EditSessionLifecycle show it equals the provider's count whenever a session is opened, emptied or ended |
| VectorLayer.Layer.DelegatedEdit | src/core/qgsvectorlayer.cpp:1957-2036 | these edits succeed only when editable, and then answer as the buffer does (also lines 3169-3195, 3237-3243) |
| VectorLayer.Layer.AddRing | src/core/qgsvectorlayer.cpp:2072-2079 | 6 when not editable, the editor's code otherwise |
| VectorLayer.Layer.AddPart | src/core/qgsvectorlayer.cpp:2081-2101 | 7 when not editable. Otherwise 4 with no selected feature, 5 with several, and the editor's code for exactly one |
| VectorLayer.Layer.DelegatedEditCode | src/core/qgsvectorlayer.cpp:2104-2180 | -1 when not editable, the editor's code otherwise (translateFeature, splitFeatures, addTopologicalPoints) |
| VectorLayer.Layer.DeleteFeature | src/core/qgsvectorlayer.cpp:3245-3255 | succeeds exactly in a session with the buffer's consent, and a deleted feature leaves the selection |
| VectorLayer.Layer.AddFeatures | src/core/qgsvectorlayer.cpp:3406-3427 | false when not editable. Otherwise the buffer's answer, and when asked the selection becomes the added ids |
| VectorLayer.Layer.DeleteSelectedFeatures | src/core/qgsvectorlayer.cpp:2039-2070 | false, changing nothing, without the delete capability or outside a session. Otherwise it never returns exactly when the buffer refuses some selected feature, and returns true with the selection emptied when it does return |
| VectorLayer.Layer.GetEditType | src/core/qgsvectorlayer.cpp:3813-3820 | the stored edit type of the field's name, LineEdit when none or the index is out of range |
| VectorLayer.Layer.SetEditType | src/core/qgsvectorlayer.cpp:3822-3827 | every field with that name reads the type back, and all others are unchanged |
| VectorLayer.Layer.GetCheckedState | src/core/qgsvectorlayer.cpp:4011-4018 | the stored pair for the field's name, ("1", "0") by default |
| VectorLayer.Layer.SetCheckedState | src/core/qgsvectorlayer.cpp:4004-4009 | the pair is stored under the field's name and read back |
| VectorLayer.Layer.FieldEditable | src/core/qgsvectorlayer.cpp:3902-3909 | false for an index out of range or a field without an edit type. Otherwise the stored flag, inserted as false when missing |
| VectorLayer.Layer.SetFieldEditable | src/core/qgsvectorlayer.cpp:3911-3916 | the flag is stored only for a valid field with an edit type |
| VectorLayer.Layer.AttributeAlias | src/core/qgsvectorlayer.cpp:3213-3221 | the alias stored for the field's name, "" when none or out of range |
| VectorLayer.Layer.AddAttributeAlias | src/core/qgsvectorlayer.cpp:3197-3206 | the alias is stored under the field's name and read back |
| VectorLayer.Layer.AttributeDisplayName | src/core/qgsvectorlayer.cpp:3223-3235 | the alias when non-empty, otherwise the field's name, or "" out of range |
| VectorLayer.Layer.FieldNameIndex | src/core/qgsvectorlayer.cpp:4020-4032 | the first index whose name equals the argument ignoring case, -1 exactly when none does |
| VectorLayer.Layer.SetDisplayField | src/core/qgsvectorlayer.cpp:247-322 | a layer without a geometry type is unchanged. Otherwise the requested name, or the preferred field found by the one-pass scan |
| VectorLayer.Layer.AddOverlay | src/core/qgsvectorlayer.cpp:3918-3921 | the overlay is appended |
| VectorLayer.Layer.RemoveOverlay | src/core/qgsvectorlayer.cpp:3923-3932 | the backward loop removes every overlay of the type name and keeps the others in order |
| VectorLayer.Layer.FindOverlayByType | src/core/qgsvectorlayer.cpp:3939-3951 | the first overlay of the type name; None exactly when there is none |
| VectorLayer.EditSessionLifecycle | src/core/qgsvectorlayer.cpp:2204-3328 | on an editable provider a session starts. A second start is refused, locking while editing is refused, a committing buffer ends the session, and the layer is no longer editable afterwards. The pending feature count is the provider's right after the start and after the commit |
| VectorLayer.RemoveThenFind | src/core/qgsvectorlayer.cpp:3923-3951 | after removing a type name it is no longer found, while another type is found exactly when it was there |
| VectorLayer.FirstOfTypeIsTheFirst | src/core/qgsvectorlayer.cpp:3939-3951 | an index that is the first with the type name, or the length when none has it, is the one the lookup finds |
| Tips.Tip.constructor | src/app/qgstip.h:34 | a new tip has an empty title and content |
| Tips.Tip.SetTitle | src/app/qgstip.h:49 | sets the title and leaves the content alone |
| Tips.Tip.SetContent | src/app/qgstip.h:51 | sets the content and leaves the title alone |
| Tips.Tip.Title | src/app/qgstip.h:41 | returns the title |
| Tips.Tip.Content | src/app/qgstip.h:43 | returns the content |
| Tips.SetThenRead | src/app/qgstip.h:41-51 | setting a title and a content and reading them back returns what was set |

## Findings

| source | as written | input that shows it | evidently intended | confidence | as-written member | corrected member |
|---|---|---|---|---|---|---|
| src/core/composer/qgscomposerlegend.cpp:491-524 | `drawSymbolV2` stores the scaled size on a map-unit marker (`setSize( width )`) and puts the old size back only inside `if ( p )`, so a pass without a painter rescales the legend item's own symbol for good | a marker of size 10 in map units, a composer map at 2 mm per map unit, default 7x4 box: the first measure gives a 20x20 mm box and the next 40x40 mm; every paintAndDetermineSize call measures once without a painter (createAtomList) before drawing | the size put back whatever the painter, so every measure of an unchanged legend gives the same box | medium, not executed | LegendMeasure.SecondMeasureDiffers | LegendMeasure.RestoredDrawIsRepeatable |

## Left out

- Painting: QPainter calls, vertex markers, symbol images, colours, the frame and selection boxes. Sizes are computed as if no painter were given.
- LegendMeasure.SymbolV2Box: measures the symbol as it is given and leaves it unchanged, which is the corrected behaviour. The lasting `setSize` of a pass without a painter is modelled only by LegendMeasure.SymbolAfterDraw (see Findings). The legend tree is a value, so LegendPaint.PaintAndDetermineSize does not hand back rescaled symbols for a later call.
- Coordinate transforms and clipping (`transformPoint`, `QgsClipper::trimFeature`). They are floating-point and foreign, so vertices are kept as raw eight-byte chunks.
- The byte-order flag of a WKB header is never consulted, as in the source: counts and type codes are read little-endian.
- Geometry algorithms (`closestVertex`, `closestSegmentWithContext`) and the provider's feature iterator are not modelled. Their answers are inputs: candidate geometries, fetched features and id lists.
- Snapping.SnapWithContext: whether candidates come from the cached geometries or from a provider iterator is not modelled; the candidates are a parameter.
- Snapping.Insert: multimap keys are squared distances, not their square roots. The order is the same, and `sqrt` on reals is not available.
- Snapping.Neighbour: a missing neighbour is the default point (0, 0).
- `renderingStopped`, `processEvents`, signals and QSettings lookups. The marker-only-for-selection setting is a parameter.
- The edit buffer's internals are not part of this model. Its answers are parameters, and its counts are only opened and emptied by the session methods, never updated by the edit wrappers.
- VectorLayer.Layer.RollBack: rolling back is modelled as emptying the pending changes, without the undo stack or the buffer's own rollback steps.
- VectorLayer.Layer.PendingFeatureCount and VectorLayer.Layer.DeleteSelectedFeatures require a provider, because the source dereferences it without a check.
- VectorLayer.Layer.DeleteSelectedFeatures: the loop that never ends is modelled as the outcome NeverReturns instead of a non-terminating method.
- `updateFields`, extents, `featureCount` and the undo stack are left out: they are provider and UI bookkeeping.
- Strings.EqualsIgnoringCase: case folding covers ASCII letters only, not Unicode.
- VectorLayer.EditType: only LineEdit, the default, is named; the other edit types are carried as codes.
- XML serialisation beyond the legend's own attribute defaults and clamp: the attribute parsing (toInt, toDouble) is represented by already-converted values, and fonts, colours, the map reference and the legend model are not read.
- LegendModel.ReadXml: the composer map named by the `map` attribute is looked up in the composition, which is not modelled, so the map stays as it was. readXML does not read the line spacing either.
- LegendPaint.PaintAndDetermineSize: the early return for a missing root item is not modelled, since the legend tree is always present here.
