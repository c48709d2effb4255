/**
 * The data the composer legend lays out: its settings, the legend tree it
 * draws (groups, layers and their symbol entries), the font metrics it
 * measures text with, and the atoms and nucleons the layout is made of.
 * Lengths are millimetres, as reals.
 */
module LegendModel {
  import opened Common
  import Strings

  /** A width and a height (QSizeF). */
  datatype Size = Size(width: real, height: real)

  const ZeroSize := Size(0.0, 0.0)

  /** The layout settings of one legend. */
  datatype Settings = Settings(
    title: string,
    boxSpace: real,
    columnSpace: real,
    groupSpace: real,
    layerSpace: real,
    symbolSpace: real,
    iconLabelSpace: real,
    symbolWidth: real,
    symbolHeight: real,
    lineSpacing: real,
    wrapChar: string,
    columnCount: int,
    splitLayer: bool,
    equalColumnWidth: bool,
    /** Millimetres per map unit of the linked composer map, when there is one. */
    composerMap: Option<real>)

  /** The settings of a freshly constructed legend (title untranslated). */
  function NewLegendSettings(): (s: Settings)
    ensures s.columnCount == 1 && !s.splitLayer && !s.equalColumnWidth
    ensures s.groupSpace == s.layerSpace == s.symbolSpace == 2.0
    ensures s.symbolWidth == 7.0 && s.symbolHeight == 4.0 && s.lineSpacing == 1.5
  {
    Settings("Legend", 2.0, 2.0, 2.0, 2.0, 2.0, 2.0, 7.0, 4.0, 1.5, "", 1, false, false, None)
  }

  /**
   * The attributes of a saved ComposerLegend element, already converted:
   * None when the attribute is absent. An integer attribute that does not
   * parse is represented as Some(0), the value QString::toInt gives it.
   */
  datatype LegendElement = LegendElement(
    title: Option<string>,
    columnCount: Option<int>,
    splitLayer: Option<int>,
    equalColumnWidth: Option<int>,
    boxSpace: Option<real>,
    columnSpace: Option<real>,
    groupSpace: Option<real>,
    layerSpace: Option<real>,
    symbolSpace: Option<real>,
    iconLabelSpace: Option<real>,
    symbolWidth: Option<real>,
    symbolHeight: Option<real>,
    wrapChar: Option<string>)

  function IntOr(v: Option<int>, d: int): int { if v.Some? then v.value else d }
  function RealOr(v: Option<real>, d: real): real { if v.Some? then v.value else d }
  function StringOr(v: Option<string>, d: string): string { if v.Some? then v.value else d }

  /** A setting read from an attribute: the attribute's value when it is present, the default when it is absent. */
  predicate ReadOr<T(==)>(attribute: Option<T>, setting: T, default: T)
  {
    match attribute
    case Some(v) => setting == v
    case None => setting == default
  }

  /**
   * readXML: a null element is refused and the settings stay as they were;
   * otherwise every setting is taken from the element, with the reader's own
   * defaults for absent attributes, and a column count below one becomes one.
   * The line spacing is not read; the composer map named by the `map`
   * attribute is looked up in the composition, which is not modelled, so it
   * stays as it was.
   */
  function ReadXml(current: Settings, element: Option<LegendElement>): (r: (bool, Settings))
    ensures element.None? <==> !r.0
    ensures element.None? ==> r.1 == current
    ensures r.0 ==> r.1.columnCount >= 1
    ensures r.0 && element.value.columnCount.Some? && element.value.columnCount.value >= 1
      ==> r.1.columnCount == element.value.columnCount.value
    ensures r.0 && element.value.columnCount.Some? && element.value.columnCount.value < 1
      ==> r.1.columnCount == 1
    ensures r.0 ==> (r.1.splitLayer <==> element.value.splitLayer == Some(1))
    ensures r.0 ==> (r.1.equalColumnWidth <==> element.value.equalColumnWidth == Some(1))
    ensures r.0 ==> ReadOr(element.value.title, r.1.title, "") && ReadOr(element.value.wrapChar, r.1.wrapChar, "")
    ensures r.0 ==> ReadOr(element.value.boxSpace, r.1.boxSpace, 2.0) && ReadOr(element.value.columnSpace, r.1.columnSpace, 2.0)
    ensures r.0 ==> ReadOr(element.value.groupSpace, r.1.groupSpace, 3.0) && ReadOr(element.value.layerSpace, r.1.layerSpace, 3.0)
    ensures r.0 ==> ReadOr(element.value.symbolSpace, r.1.symbolSpace, 2.0) && ReadOr(element.value.iconLabelSpace, r.1.iconLabelSpace, 2.0)
    ensures r.0 ==> ReadOr(element.value.symbolWidth, r.1.symbolWidth, 7.0) && ReadOr(element.value.symbolHeight, r.1.symbolHeight, 14.0)
    ensures r.0 ==> r.1.lineSpacing == current.lineSpacing && r.1.composerMap == current.composerMap
  {
    match element
    case None => (false, current)
    case Some(e) =>
      var columns := IntOr(e.columnCount, 1);
      (true, current.(
        title := StringOr(e.title, ""),
        columnCount := if columns < 1 then 1 else columns,
        splitLayer := IntOr(e.splitLayer, 0) == 1,
        equalColumnWidth := IntOr(e.equalColumnWidth, 0) == 1,
        boxSpace := RealOr(e.boxSpace, 2.0),
        columnSpace := RealOr(e.columnSpace, 2.0),
        groupSpace := RealOr(e.groupSpace, 3.0),
        layerSpace := RealOr(e.layerSpace, 3.0),
        symbolSpace := RealOr(e.symbolSpace, 2.0),
        iconLabelSpace := RealOr(e.iconLabelSpace, 2.0),
        symbolWidth := RealOr(e.symbolWidth, 7.0),
        symbolHeight := RealOr(e.symbolHeight, 14.0),
        wrapChar := StringOr(e.wrapChar, "")))
  }

  /**
   * An element without any attribute does not give back a new legend's
   * settings: the reader's defaults for group space, layer space and symbol
   * height differ from the constructor's.
   */
  lemma EmptyElementDiffersFromNewLegend()
    ensures var empty := LegendElement(None, None, None, None, None, None, None, None, None, None, None, None, None);
      var r := ReadXml(NewLegendSettings(), Some(empty)).1;
      && r.groupSpace != NewLegendSettings().groupSpace
      && r.layerSpace != NewLegendSettings().layerSpace
      && r.symbolHeight != NewLegendSettings().symbolHeight
      && r.columnCount == NewLegendSettings().columnCount
  {
  }

  /** splitStringForWrapping: no wrap character keeps the string whole, otherwise split on it. */
  function SplitForWrapping(text: string, wrapChar: string): (lines: seq<string>)
    ensures |lines| >= 1
    ensures |wrapChar| == 0 ==> lines == [text]
  {
    if |wrapChar| == 0 then [text] else Strings.Split(text, wrapChar)
  }

  /** The wrapped lines joined back with the wrap character give the original text, and none holds it. */
  lemma WrappingLosesNothing(text: string, wrapChar: string)
    ensures |wrapChar| > 0 ==> Strings.Join(SplitForWrapping(text, wrapChar), wrapChar) == text
    ensures |wrapChar| > 0 ==> forall k :: 0 <= k < |SplitForWrapping(text, wrapChar)| ==>
      !Strings.Contains(SplitForWrapping(text, wrapChar)[k], wrapChar)
  {
    if |wrapChar| > 0 {
      Strings.SplitJoin(text, wrapChar);
      Strings.SplitPiecesFree(text, wrapChar);
    }
  }

  /** Text measurements of the four legend fonts (the text measurement service). */
  datatype Metrics = Metrics(
    titleWidth: string -> real,
    titleAscent: real,
    titleDescent: real,
    groupWidth: string -> real,
    groupAscent: real,
    layerWidth: string -> real,
    layerAscent: real,
    itemWidth: string -> real,
    /** Height of the digit '0' in the item font. */
    itemDigitHeight: real)

  /** A symbol of the old symbology. Only its kind and point size affect the layout. */
  datatype SymbolV1 = PointSymbol(pointSize: real) | LineSymbol | PolygonSymbol

  /** A symbol of the new symbology: a marker with its size, or a line or fill symbol. */
  datatype SymbolV2 = MarkerSymbol(size: real, sizeInMapUnits: bool) | OtherSymbolV2

  /** A symbol entry below a layer in the legend tree. */
  datatype SymbolEntry =
    | SymbolItem(text: string, symbol: Option<SymbolV1>, iconIsNull: bool)
    | SymbolV2Item(text: string, symbolV2: Option<SymbolV2>, iconIsNull: bool)
    | RasterSymbolItem(text: string)

  /**
   * A child of the legend tree. `NonLegend` is a model row that is not a
   * legend item; `Entry` is a symbol entry placed directly in a group.
   * A layer's children are symbol entries, or None for a non-legend row.
   * A layer's `id` stands for the identity of its legend item (the source
   * groups symbols for label alignment by the address of their parent item),
   * so distinct layer nodes of one tree carry distinct ids.
   */
  datatype Node =
    | Group(text: string, children: seq<Node>)
    | Layer(id: nat, text: string, symbols: seq<Option<SymbolEntry>>)
    | Entry(entry: SymbolEntry)
    | NonLegend

  /** The kind of the legend item a nucleon was measured from. */
  datatype ItemKind = GroupKind | LayerKind | SymbologyKind | SymbologyV2Kind | RasterSymbolKind

  /** The item a nucleon came from; `parent` is the id of the layer a symbol entry belongs to, standing for that layer item's identity. */
  datatype ItemRef = ItemRef(kind: ItemKind, parent: nat)

  predicate IsSymbolKind(k: ItemKind)
  {
    k == SymbologyKind || k == SymbologyV2Kind || k == RasterSymbolKind
  }

  function EntryKind(e: SymbolEntry): ItemKind
  {
    match e
    case SymbolItem(_, _, _) => SymbologyKind
    case SymbolV2Item(_, _, _) => SymbologyV2Kind
    case RasterSymbolItem(_) => RasterSymbolKind
  }

  /** One measured sub-item of an atom. */
  datatype Nucleon = Nucleon(
    item: Option<ItemRef>,
    symbolSize: Size,
    labelSize: Size,
    size: Size,
    labelXOffset: real)

  /** An indivisible layout unit and the column it is placed in. */
  datatype Atom = Atom(nucleons: seq<Nucleon>, size: Size, column: int)

  /**
   * spaceAboveAtom: the gap before an atom that is not first in its column,
   * chosen by the kind of its first nucleon. A symbol item of the old
   * symbology gets no gap.
   */
  function SpaceAboveAtom(a: Atom, s: Settings): (r: real)
    ensures |a.nucleons| == 0 || a.nucleons[0].item.None? ==> r == 0.0
    ensures |a.nucleons| > 0 && a.nucleons[0].item.Some? ==>
      match a.nucleons[0].item.value.kind
      case GroupKind => r == s.groupSpace
      case LayerKind => r == s.layerSpace
      case SymbologyV2Kind => r == s.symbolSpace
      case RasterSymbolKind => r == s.symbolSpace
      case SymbologyKind => r == 0.0
  {
    if |a.nucleons| == 0 then 0.0
    else match a.nucleons[0].item
      case None => 0.0
      case Some(item) =>
        match item.kind
        case GroupKind => s.groupSpace
        case LayerKind => s.layerSpace
        case SymbologyV2Kind => s.symbolSpace
        case RasterSymbolKind => s.symbolSpace
        case SymbologyKind => 0.0
  }
}
