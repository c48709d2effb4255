/**
 * The measuring half of the legend's drawing routines: with no painter they
 * only compute the size a title, a group title, a layer title or a symbol
 * entry will take. Each routine walks the wrapped lines of its text; the
 * methods below keep that walk and are proved against closed forms.
 */
module LegendMeasure {
  import opened Common
  import opened LegendModel

  /** The widest of the lines, each measured by `width` plus `extra`; 0 for no lines. */
  function MaxLineWidth(lines: seq<string>, width: string -> real, extra: real): real
  {
    if |lines| == 0 then 0.0
    else Max(width(lines[|lines| - 1]) + extra, MaxLineWidth(lines[..|lines| - 1], width, extra))
  }

  /** MaxLineWidth is the maximum: at least every line's width and 0, and equal to one of them or 0. */
  lemma {:induction false} MaxLineWidthIsMaximum(lines: seq<string>, width: string -> real, extra: real)
    ensures MaxLineWidth(lines, width, extra) >= 0.0
    ensures forall k :: 0 <= k < |lines| ==> MaxLineWidth(lines, width, extra) >= width(lines[k]) + extra
    ensures MaxLineWidth(lines, width, extra) == 0.0
      || exists k :: 0 <= k < |lines| && MaxLineWidth(lines, width, extra) == width(lines[k]) + extra
  {
    if |lines| > 0 {
      var front := lines[..|lines| - 1];
      MaxLineWidthIsMaximum(front, width, extra);
      var m := MaxLineWidth(lines, width, extra);
      if m != 0.0 && m != width(lines[|lines| - 1]) + extra {
        var k :| 0 <= k < |front| && MaxLineWidth(front, width, extra) == width(front[k]) + extra;
        assert lines[k] == front[k];
      }
    }
  }

  /**
   * Size of the legend title: every wrapped line is one millimetre
   * wider than its text, and every line, the last one included, is followed
   * by the line spacing. An empty title takes no room.
   */
  function TitleSize(s: Settings, m: Metrics): Size
  {
    if |s.title| == 0 then ZeroSize
    else
      var lines := SplitForWrapping(s.title, s.wrapChar);
      Size(MaxLineWidth(lines, m.titleWidth, 1.0),
           (|lines| as real) * (m.titleAscent + m.titleDescent + s.lineSpacing))
  }

  /** Size of a group title: each line takes the group font's ascent and the line spacing. */
  function GroupTitleSize(text: string, s: Settings, m: Metrics): Size
  {
    var lines := SplitForWrapping(text, s.wrapChar);
    Size(MaxLineWidth(lines, m.groupWidth, 0.0), (|lines| as real) * (m.groupAscent + s.lineSpacing))
  }

  /** Size of a layer title; an empty layer title is omitted and takes no room. */
  function LayerTitleSize(text: string, s: Settings, m: Metrics): Size
  {
    if |text| == 0 then ZeroSize
    else
      var lines := SplitForWrapping(text, s.wrapChar);
      Size(MaxLineWidth(lines, m.layerWidth, 0.0), (|lines| as real) * (m.layerAscent + s.lineSpacing))
  }

  /**
   * Size of a symbol entry's label: n lines of the digit height with the
   * line spacing only between them.
   */
  function LabelSize(text: string, s: Settings, m: Metrics): Size
  {
    var lines := SplitForWrapping(text, s.wrapChar);
    Size(MaxLineWidth(lines, m.itemWidth, 0.0),
         (|lines| as real) * m.itemDigitHeight + ((|lines| - 1) as real) * s.lineSpacing)
  }

  /** The width and height a marker of the new symbology is drawn at. */
  function MarkerExtent(sym: SymbolV2, s: Settings): real
    requires sym.MarkerSymbol?
  {
    if s.composerMap.Some? && sym.sizeInMapUnits then sym.size * s.composerMap.value else sym.size
  }

  /**
   * drawSymbolV2 without a painter: the horizontal advance and the height of
   * the symbol box. A marker smaller than the standard box is centred in it,
   * with equal offsets on both sides; other symbols take the standard box.
   */
  function SymbolV2Box(sym: SymbolV2, s: Settings): (r: Size)
    ensures sym.MarkerSymbol? ==>
      r == Size(Max(MarkerExtent(sym, s), s.symbolWidth), Max(MarkerExtent(sym, s), s.symbolHeight))
    ensures !sym.MarkerSymbol? ==> r == Size(s.symbolWidth, s.symbolHeight)
  {
    var width := if sym.MarkerSymbol? then MarkerExtent(sym, s) else s.symbolWidth;
    var height := if sym.MarkerSymbol? then MarkerExtent(sym, s) else s.symbolHeight;
    var widthOffset := if sym.MarkerSymbol? && width < s.symbolWidth then (s.symbolWidth - width) / 2.0 else 0.0;
    var heightOffset := if sym.MarkerSymbol? && height < s.symbolHeight then (s.symbolHeight - height) / 2.0 else 0.0;
    Size(width + 2.0 * widthOffset, height + 2.0 * heightOffset)
  }

  /** The marker is one whose size drawSymbolV2 rescales by the composer map's millimetres per map unit. */
  predicate RescaledMarker(sym: SymbolV2, s: Settings)
  {
    sym.MarkerSymbol? && s.composerMap.Some? && sym.sizeInMapUnits
  }

  /**
   * The symbol drawSymbolV2 leaves behind, as written: a rescaled marker is
   * given its scaled size, and only a pass with a painter puts the size it
   * read back; a pass without one keeps the scaled size for good.
   */
  function SymbolAfterDraw(sym: SymbolV2, s: Settings, painted: bool): (r: SymbolV2)
    ensures painted || !RescaledMarker(sym, s) ==> r == sym
    ensures !painted && RescaledMarker(sym, s) ==>
      r.MarkerSymbol? && r.sizeInMapUnits && r.size == sym.size * s.composerMap.value
  {
    var scaled := if RescaledMarker(sym, s) then sym.(size := MarkerExtent(sym, s)) else sym;
    if RescaledMarker(sym, s) && painted then scaled.(size := sym.size) else scaled
  }

  /**
   * As written, a measure without a painter changes what the next measure
   * sees: the rescaled marker is scaled by the map's factor a second time.
   */
  lemma RepeatedMeasureCompounds(sym: SymbolV2, s: Settings)
    requires RescaledMarker(sym, s)
    ensures MarkerExtent(SymbolAfterDraw(sym, s, false), s) == sym.size * s.composerMap.value * s.composerMap.value
  {
  }

  /**
   * One paintAndDetermineSize call measures every entry in createAtomList
   * (no painter) and then draws it with the call's painter: a rescaled
   * marker ends up scaled once by a painted call and twice by a measuring one.
   */
  lemma PaintCallRescalesMarker(sym: SymbolV2, s: Settings, painted: bool)
    requires RescaledMarker(sym, s)
    ensures var after := SymbolAfterDraw(SymbolAfterDraw(sym, s, false), s, painted);
      after.MarkerSymbol? &&
      after.size == if painted then sym.size * s.composerMap.value
                    else sym.size * s.composerMap.value * s.composerMap.value
  {
    var once := SymbolAfterDraw(sym, s, false);
    assert RescaledMarker(once, s);
  }

  /**
   * A 10-unit marker with a map at 2 mm per map unit and the default 7x4 box:
   * the first measure gives a 20 mm box, the next one a 40 mm box.
   */
  lemma SecondMeasureDiffers()
    ensures var s := NewLegendSettings().(composerMap := Some(2.0));
      var sym := MarkerSymbol(10.0, true);
      SymbolV2Box(sym, s) == Size(20.0, 20.0) &&
      SymbolV2Box(SymbolAfterDraw(sym, s, false), s) == Size(40.0, 40.0)
  {
  }

  /**
   * drawSymbolV2 with the size put back whatever the painter: the restore
   * taken out of the painter branch.
   */
  function SymbolAfterDrawRestored(sym: SymbolV2, s: Settings, painted: bool): SymbolV2
  {
    var scaled := if RescaledMarker(sym, s) then sym.(size := MarkerExtent(sym, s)) else sym;
    if RescaledMarker(sym, s) then scaled.(size := sym.size) else scaled
  }

  /**
   * With the restore, drawing leaves the symbol as it was, so every later
   * measure gives the box SymbolV2Box gives now.
   */
  lemma RestoredDrawIsRepeatable(sym: SymbolV2, s: Settings, painted: bool)
    ensures SymbolAfterDrawRestored(sym, s, painted) == sym
    ensures SymbolV2Box(SymbolAfterDrawRestored(sym, s, painted), s) == SymbolV2Box(sym, s)
  {
  }

  /**
   * The symbol box of a symbol entry: never smaller than the standard box
   * when the entry has a symbol, a raster swatch or an icon; empty otherwise.
   */
  function SymbolBox(e: SymbolEntry, s: Settings): (r: Size)
    ensures e.RasterSymbolItem? ==> r == Size(s.symbolWidth, s.symbolHeight)
    ensures (e.SymbolItem? && e.symbol.Some?) || (e.SymbolV2Item? && e.symbolV2.Some?) ==>
      r.width >= s.symbolWidth && r.height >= s.symbolHeight
    ensures (e.SymbolItem? && e.symbol.None?) || (e.SymbolV2Item? && e.symbolV2.None?) ==>
      r == (if e.iconIsNull then ZeroSize else Size(s.symbolWidth, s.symbolHeight))
  {
    match e
    case SymbolItem(_, Some(sym), _) =>
      (match sym
       case PointSymbol(ps) => Size(Max(ps, s.symbolWidth), Max(ps, s.symbolHeight))
       case LineSymbol => Size(Max(s.symbolWidth, s.symbolWidth), Max(s.symbolHeight, s.symbolHeight))
       case PolygonSymbol => Size(Max(s.symbolWidth, s.symbolWidth), Max(s.symbolHeight, s.symbolHeight)))
    case SymbolV2Item(_, Some(sym), _) =>
      var box := SymbolV2Box(sym, s);
      Size(Max(box.width, s.symbolWidth), Max(box.height, s.symbolHeight))
    case RasterSymbolItem(_) => Size(s.symbolWidth, s.symbolHeight)
    case SymbolItem(_, None, iconIsNull) =>
      if iconIsNull then ZeroSize else Size(s.symbolWidth, s.symbolHeight)
    case SymbolV2Item(_, None, iconIsNull) =>
      if iconIsNull then ZeroSize else Size(s.symbolWidth, s.symbolHeight)
  }

  function EntryText(e: SymbolEntry): string
  {
    match e
    case SymbolItem(t, _, _) => t
    case SymbolV2Item(t, _, _) => t
    case RasterSymbolItem(t) => t
  }

  /**
   * The nucleon of a symbol entry of layer `layer`, measured with no label
   * offset: the symbol box beside the label, as tall as the taller of the two.
   */
  function SymbolNucleon(e: SymbolEntry, layer: nat, s: Settings, m: Metrics): (n: Nucleon)
    ensures n.item == Some(ItemRef(EntryKind(e), layer))
    ensures n.symbolSize == SymbolBox(e, s) && n.labelSize == LabelSize(EntryText(e), s, m)
    ensures n.size.width == n.symbolSize.width + n.labelSize.width
    ensures n.size.height >= n.symbolSize.height && n.size.height >= n.labelSize.height
    ensures n.size.height == n.symbolSize.height || n.size.height == n.labelSize.height
    ensures n.labelXOffset == 0.0
  {
    var symbol := SymbolBox(e, s);
    var labelBox := LabelSize(EntryText(e), s, m);
    Nucleon(Some(ItemRef(EntryKind(e), layer)), symbol, labelBox,
            Size(symbol.width + 0.0 + labelBox.width, Max(symbol.height, labelBox.height)), 0.0)
  }

  /** drawTitle without a painter: the loop over the wrapped title lines. */
  method DrawTitle(s: Settings, m: Metrics) returns (size: Size)
    ensures size == TitleSize(s, m)
  {
    size := ZeroSize;
    if |s.title| == 0 {
      return;
    }
    var lines := SplitForWrapping(s.title, s.wrapChar);
    var y := 0.0;
    var i := 0;
    while i < |lines|
      invariant 0 <= i <= |lines|
      invariant size.width == MaxLineWidth(lines[..i], m.titleWidth, 1.0)
      invariant y == (i as real) * (m.titleAscent + m.titleDescent + s.lineSpacing)
    {
      var width := m.titleWidth(lines[i]) + 1.0;
      var height := m.titleAscent + m.titleDescent;
      assert lines[..i + 1][..i] == lines[..i];
      size := size.(width := Max(width, size.width));
      y := y + height;
      y := y + s.lineSpacing;
      i := i + 1;
    }
    assert lines[..i] == lines;
    size := size.(height := y);
  }

  /** drawGroupItemTitle without a painter. */
  method DrawGroupItemTitle(text: string, s: Settings, m: Metrics) returns (size: Size)
    ensures size == GroupTitleSize(text, s, m)
  {
    size := ZeroSize;
    var lines := SplitForWrapping(text, s.wrapChar);
    var y := 0.0;
    var i := 0;
    while i < |lines|
      invariant 0 <= i <= |lines|
      invariant size.width == MaxLineWidth(lines[..i], m.groupWidth, 0.0)
      invariant y == (i as real) * (m.groupAscent + s.lineSpacing)
    {
      y := y + m.groupAscent;
      var width := m.groupWidth(lines[i]);
      assert lines[..i + 1][..i] == lines[..i];
      size := size.(width := Max(width, size.width));
      y := y + s.lineSpacing;
      i := i + 1;
    }
    assert lines[..i] == lines;
    size := size.(height := y);
  }

  /** drawLayerItemTitle without a painter. */
  method DrawLayerItemTitle(text: string, s: Settings, m: Metrics) returns (size: Size)
    ensures size == LayerTitleSize(text, s, m)
  {
    size := ZeroSize;
    if |text| == 0 {
      return;
    }
    var lines := SplitForWrapping(text, s.wrapChar);
    var y := 0.0;
    var i := 0;
    while i < |lines|
      invariant 0 <= i <= |lines|
      invariant size.width == MaxLineWidth(lines[..i], m.layerWidth, 0.0)
      invariant y == (i as real) * (m.layerAscent + s.lineSpacing)
    {
      y := y + m.layerAscent;
      var width := m.layerWidth(lines[i]);
      assert lines[..i + 1][..i] == lines[..i];
      size := size.(width := Max(width, size.width));
      y := y + s.lineSpacing;
      i := i + 1;
    }
    assert lines[..i] == lines;
    size := size.(height := y);
  }

  /** drawSymbolItem without a painter, for an entry of layer `layer` and a label offset. */
  method DrawSymbolItem(e: SymbolEntry, layer: nat, s: Settings, m: Metrics, labelXOffset: real)
    returns (n: Nucleon)
    ensures n == SymbolNucleon(e, layer, s, m).(size := n.size)
    ensures n.size.width == n.symbolSize.width + labelXOffset + n.labelSize.width
    ensures n.size.height == SymbolNucleon(e, layer, s, m).size.height
  {
    var textHeight := m.itemDigitHeight;
    var lines := SplitForWrapping(EntryText(e), s.wrapChar);
    var symbolSize := SymbolBox(e, s);
    var labelSize := Size(0.0, (|lines| as real) * textHeight + ((|lines| - 1) as real) * s.lineSpacing);
    var i := 0;
    while i < |lines|
      invariant 0 <= i <= |lines|
      invariant labelSize.height == LabelSize(EntryText(e), s, m).height
      invariant labelSize.width == MaxLineWidth(lines[..i], m.itemWidth, 0.0)
    {
      assert lines[..i + 1][..i] == lines[..i];
      labelSize := labelSize.(width := Max(m.itemWidth(lines[i]), labelSize.width));
      i := i + 1;
    }
    assert lines[..i] == lines;
    var width := symbolSize.width + labelXOffset + labelSize.width;
    var height := Max(symbolSize.height, labelSize.height);
    n := Nucleon(Some(ItemRef(EntryKind(e), layer)), symbolSize, labelSize, Size(width, height), 0.0);
  }

  /** n lines of height a each followed by spacing l: the last spacing split off. */
  lemma DistributeSpacing(n: real, a: real, l: real)
    ensures n * (a + l) == n * a + (n - 1.0) * l + l
  {
  }

  /**
   * A title line and a group or layer title line end with the line spacing,
   * a symbol label does not: with the same line height, n wrapped lines of a
   * group title are one line spacing taller than a label of n lines.
   */
  lemma TrailingSpacingDifference(text: string, s: Settings, m: Metrics)
    requires m.groupAscent == m.itemDigitHeight
    ensures GroupTitleSize(text, s, m).height == LabelSize(text, s, m).height + s.lineSpacing
  {
    var lines := SplitForWrapping(text, s.wrapChar);
    var n := |lines| as real;
    assert ((|lines| - 1) as real) == n - 1.0;
    DistributeSpacing(n, m.itemDigitHeight, s.lineSpacing);
  }
}
