/**
 * The measuring walk of paintAndDetermineSize and the vertical advance of
 * drawAtom. With no painter, paintAndDetermineSize flattens the tree,
 * packs the atoms into columns and walks them with a cursor to find the
 * legend's size; drawAtom steps down through the nucleons of one atom.
 */
module LegendPaint {
  import opened Common
  import opened LegendModel
  import opened LegendMeasure
  import opened LegendAtoms
  import opened LegendColumns
  import LegendColumnFacts

  /** The gap drawAtom puts above a nucleon that is not the first drawn in its atom. */
  function NucleonGap(kind: ItemKind, s: Settings): (r: real)
    ensures kind != SymbologyKind ==> r == SpaceAboveAtom(Atom([Nucleon(Some(ItemRef(kind, 0)), ZeroSize, ZeroSize, ZeroSize, 0.0)], ZeroSize, 0), s)
  {
    match kind
    case GroupKind => s.groupSpace
    case LayerKind => s.layerSpace
    case _ => s.symbolSpace
  }

  /**
   * How far drawAtom moves down over nucleons `ns`: nucleons without an
   * item are skipped, every other one adds its height, and the gap of its
   * kind unless it is the first one drawn.
   */
  function Drawn(ns: seq<Nucleon>, first: bool, s: Settings): real
  {
    if |ns| == 0 then 0.0
    else if ns[0].item.None? then Drawn(ns[1..], first, s)
    else (if first then 0.0 else NucleonGap(ns[0].item.value.kind, s)) + ns[0].size.height + Drawn(ns[1..], false, s)
  }

  predicate AllHaveItems(ns: seq<Nucleon>)
  {
    forall i :: 0 <= i < |ns| ==> ns[i].item.Some?
  }

  lemma {:induction false} DrawnAppend(ns: seq<Nucleon>, n: Nucleon, s: Settings)
    requires |ns| > 0 && AllHaveItems(ns) && n.item.Some?
    ensures Drawn(ns + [n], true, s) == Drawn(ns, true, s) + NucleonGap(n.item.value.kind, s) + n.size.height
  {
    DrawnAppendAfterFirst(ns[1..], n, s);
    assert (ns + [n])[1..] == ns[1..] + [n];
  }

  lemma {:induction false} DrawnAppendAfterFirst(ns: seq<Nucleon>, n: Nucleon, s: Settings)
    requires AllHaveItems(ns) && n.item.Some?
    ensures Drawn(ns + [n], false, s) == Drawn(ns, false, s) + NucleonGap(n.item.value.kind, s) + n.size.height
  {
    if |ns| == 0 {
      assert [] + [n] == [n];
    } else {
      DrawnAppendAfterFirst(ns[1..], n, s);
      assert (ns + [n])[1..] == ns[1..] + [n];
    }
  }

  /** An atom drawAtom draws to exactly its measured height. */
  predicate DrawnAsMeasured(a: Atom, s: Settings)
  {
    |a.nucleons| >= 1 && AllHaveItems(a.nucleons) && Drawn(a.nucleons, true, s) == a.size.height
  }

  predicate StartsWithTitle(atoms: seq<Atom>)
  {
    |atoms| > 0 ==>
      (|atoms[0].nucleons| > 0 && atoms[0].nucleons[0].item.Some?
       && atoms[0].nucleons[0].item.value.kind in {GroupKind, LayerKind})
  }

  lemma {:induction false} LayerFoldDrawnAsMeasured(symbols: seq<Option<SymbolEntry>>, k: nat, start: Atom, id: nat, s: Settings, m: Metrics)
    requires k <= |symbols| && DrawnAsMeasured(start, s)
    ensures var r := LayerFold(symbols, k, start, id, s, m);
      && DrawnAsMeasured(r.0, s)
      && r.0.nucleons[0] == start.nucleons[0]
      && forall a :: a in r.1 ==> DrawnAsMeasured(a, s)
  {
    if k > 0 {
      LayerFoldDrawnAsMeasured(symbols, k - 1, start, id, s, m);
      var acc := LayerFold(symbols, k - 1, start, id, s, m);
      if symbols[k - 1].Some? {
        var n := SymbolNucleon(symbols[k - 1].value, id, s, m);
        if !s.splitLayer || k - 1 == 0 {
          DrawnAppend(acc.0.nucleons, n, s);
        } else {
          assert Drawn([n], true, s) == n.size.height by {
            assert [n][1..] == [];
          }
        }
      }
    }
  }

  /**
   * drawAtom advances over every atom of the flattened legend by exactly
   * the height createAtomList measured for it, and the first atom of a node
   * starts with a group or layer title.
   */
  lemma {:induction false} AtomsDrawnAsMeasured(nodes: seq<Node>, s: Settings, m: Metrics)
    ensures forall a :: a in AtomsOfNodes(nodes, s, m) ==> DrawnAsMeasured(a, s)
    ensures StartsWithTitle(AtomsOfNodes(nodes, s, m))
    decreases nodes
  {
    if |nodes| > 0 {
      NodeAtomsDrawnAsMeasured(nodes[0], s, m);
      AtomsDrawnAsMeasured(nodes[1..], s, m);
      var head := AtomsOfNode(nodes[0], s, m);
      var tail := AtomsOfNodes(nodes[1..], s, m);
      if |head| == 0 {
        assert AtomsOfNodes(nodes, s, m) == tail;
      } else {
        assert AtomsOfNodes(nodes, s, m)[0] == head[0];
      }
    }
  }

  lemma {:induction false} NodeAtomsDrawnAsMeasured(node: Node, s: Settings, m: Metrics)
    ensures forall a :: a in AtomsOfNode(node, s, m) ==> DrawnAsMeasured(a, s)
    ensures StartsWithTitle(AtomsOfNode(node, s, m))
    decreases node
  {
    match node
    case Group(text, children) =>
      AtomsDrawnAsMeasured(children, s, m);
      var groupAtoms := AtomsOfNodes(children, s, m);
      var title := GroupTitleNucleon(text, s, m);
      if |groupAtoms| > 0 {
        var child := groupAtoms[0];
        assert DrawnAsMeasured(child, s);
        var merged := PrependGroupTitle(title, child, s);
        assert merged.nucleons[1..] == child.nucleons;
        assert Drawn(child.nucleons, false, s) == NucleonGap(child.nucleons[0].item.value.kind, s) + Drawn(child.nucleons, true, s);
        assert NucleonGap(child.nucleons[0].item.value.kind, s) == SpaceAboveAtom(child, s);
        assert DrawnAsMeasured(merged, s);
        forall a | a in AtomsOfNode(node, s, m)
          ensures DrawnAsMeasured(a, s)
        {
          if a != merged {
            assert a in groupAtoms[1..];
          }
        }
      } else {
        var a := AtomsOfNode(node, s, m)[0];
        assert a.nucleons[1..] == [];
        assert Drawn(a.nucleons, true, s) == title.size.height + Drawn([], false, s);
        assert AtomsOfNode(node, s, m) == [a];
      }
    case Layer(id, text, symbols) =>
      var title := LayerTitleNucleon(text, s, m);
      var start := Atom([title], title.size, 0);
      assert start.nucleons[1..] == [];
      LayerFoldDrawnAsMeasured(symbols, |symbols|, start, id, s, m);
    case Entry(_) =>
    case NonLegend =>
  }

  // ---------------------------------------------------------------------
  // The cursor walk.

  /** The cursor of paintAndDetermineSize. */
  datatype Cursor = Cursor(x: real, y: real, firstInColumn: bool, columnMaxHeight: real, columnWidth: real, column: int)

  /** The cursor after placing atom `a`. */
  function WalkStep(c: Cursor, a: Atom, columnTop: real, maxColumnWidth: real, s: Settings): Cursor
  {
    var c1 :=
      if a.column > c.column then
        Cursor(c.x + s.columnSpace + (if s.equalColumnWidth then maxColumnWidth else c.columnWidth),
               columnTop, true, c.columnMaxHeight, 0.0, c.column + 1)
      else c;
    var y := (if !c1.firstInColumn then c1.y + SpaceAboveAtom(a, s) else c1.y) + a.size.height;
    Cursor(c1.x, y, false, Max(y - columnTop, c1.columnMaxHeight), Max(a.size.width, c1.columnWidth), c1.column)
  }

  /** The cursor after the first `k` atoms. */
  function Walk(atoms: seq<Atom>, k: nat, columnTop: real, maxColumnWidth: real, s: Settings): Cursor
    requires k <= |atoms|
  {
    if k == 0 then Cursor(s.boxSpace, columnTop, true, 0.0, 0.0, 0)
    else WalkStep(Walk(atoms, k - 1, columnTop, maxColumnWidth, s), atoms[k - 1], columnTop, maxColumnWidth, s)
  }

  /** The width of the widest atom, or 0. */
  function MaxAtomWidth(atoms: seq<Atom>): real
  {
    if |atoms| == 0 then 0.0 else Max(atoms[|atoms| - 1].size.width, MaxAtomWidth(atoms[..|atoms| - 1]))
  }

  /**
   * The legend's size once the cursor has passed every atom: the last
   * column and a box space to the right, the tallest column and a box
   * space below. A title is centred when there are several columns and it
   * fits; otherwise it is left-aligned and may widen the legend.
   */
  function FinalSize(c: Cursor, columnTop: real, s: Settings, title: Size): (r: Size)
    ensures |s.title| > 0 ==> r.width >= title.width + 2.0 * s.boxSpace
    ensures r.height == columnTop + c.columnMaxHeight + s.boxSpace
    ensures r.width >= c.x + c.columnWidth + s.boxSpace
  {
    var size := Size(c.x + c.columnWidth + s.boxSpace, columnTop + c.columnMaxHeight + s.boxSpace);
    if |s.title| > 0 && !(s.columnCount > 1 && title.width + 2.0 * s.boxSpace < size.width) then
      size.(width := Max(title.width + 2.0 * s.boxSpace, size.width))
    else size
  }

  /** The size of a legend whose atoms are `atoms` (already in their columns) and whose title measures `title`. */
  function LegendSize(atoms: seq<Atom>, s: Settings, title: Size): Size
  {
    var maxColumnWidth := if s.equalColumnWidth then MaxAtomWidth(atoms) else 0.0;
    var columnTop := s.boxSpace + title.height + s.groupSpace;
    FinalSize(Walk(atoms, |atoms|, columnTop, maxColumnWidth, s), columnTop, s, title)
  }

  /** The legend's height: the column top, the tallest column and a box space. */
  lemma LegendHeightFromWalk(atoms: seq<Atom>, s: Settings, title: Size)
    ensures var top := s.boxSpace + title.height + s.groupSpace;
      LegendSize(atoms, s, title).height
        == top + Walk(atoms, |atoms|, top, if s.equalColumnWidth then MaxAtomWidth(atoms) else 0.0, s).columnMaxHeight + s.boxSpace
  {
  }

  /** The atoms as setColumns leaves them. */
  function Placed(atoms: seq<Atom>, s: Settings): seq<Atom>
  {
    if s.columnCount == 0 then atoms else Layout(atoms, s)
  }

  /** The widest atom, as paintAndDetermineSize finds it for equal column widths. */
  method WidestAtom(atoms: seq<Atom>) returns (maxColumnWidth: real)
    ensures maxColumnWidth == MaxAtomWidth(atoms)
  {
    maxColumnWidth := 0.0;
    var i := 0;
    while i < |atoms|
      invariant 0 <= i <= |atoms|
      invariant maxColumnWidth == MaxAtomWidth(atoms[..i])
    {
      assert atoms[..i + 1][..i] == atoms[..i];
      maxColumnWidth := Max(atoms[i].size.width, maxColumnWidth);
      i := i + 1;
    }
    assert atoms[..i] == atoms;
  }

  /** The cursor walk of paintAndDetermineSize over atoms already in their columns. */
  method WalkAtoms(atoms: seq<Atom>, columnTop: real, maxColumnWidth: real, s: Settings) returns (c: Cursor)
    ensures c == Walk(atoms, |atoms|, columnTop, maxColumnWidth, s)
  {
    var x := s.boxSpace;
    var y := columnTop;
    var firstInColumn := true;
    var columnMaxHeight := 0.0;
    var columnWidth := 0.0;
    var column := 0;
    var i := 0;
    while i < |atoms|
      invariant 0 <= i <= |atoms|
      invariant Cursor(x, y, firstInColumn, columnMaxHeight, columnWidth, column)
                == Walk(atoms, i, columnTop, maxColumnWidth, s)
    {
      var atom := atoms[i];
      if atom.column > column {
        if s.equalColumnWidth {
          x := x + s.columnSpace + maxColumnWidth;
        } else {
          x := x + s.columnSpace + columnWidth;
        }
        y := columnTop;
        columnWidth := 0.0;
        column := column + 1;
        firstInColumn := true;
      }
      if !firstInColumn {
        y := y + SpaceAboveAtom(atom, s);
      }
      columnWidth := Max(atom.size.width, columnWidth);
      y := y + atom.size.height;
      columnMaxHeight := Max(y - columnTop, columnMaxHeight);
      firstInColumn := false;
      i := i + 1;
    }
    c := Cursor(x, y, firstInColumn, columnMaxHeight, columnWidth, column);
  }

  /** paintAndDetermineSize without a painter. */
  method PaintAndDetermineSize(tree: seq<Node>, s: Settings, m: Metrics) returns (size: Size)
    ensures size == LegendSize(Placed(AtomsOfNodes(tree, s, m), s), s, TitleSize(s, m))
  {
    var placed := PlaceAtoms(AtomsOfNodes(tree, s, m), s);
    var maxColumnWidth := 0.0;
    if s.equalColumnWidth {
      maxColumnWidth := WidestAtom(placed);
    }
    var titleSize := DrawTitle(s, m);
    var columnTop := s.boxSpace + titleSize.height + s.groupSpace;
    var c := WalkAtoms(placed, columnTop, maxColumnWidth, s);
    size := FinishSize(c, columnTop, s, titleSize);
  }

  /** The atoms are copied into a list that setColumns rearranges in place. */
  method PlaceAtoms(atomList: seq<Atom>, s: Settings) returns (placed: seq<Atom>)
    ensures placed == Placed(atomList, s)
  {
    var atoms := new Atom[|atomList|](i requires 0 <= i < |atomList| => atomList[i]);
    assert atoms[..] == atomList;
    SetColumns(atoms, s);
    placed := atoms[..];
  }

  /** The last lines of paintAndDetermineSize: the box around the last column, widened for the title when needed. */
  method FinishSize(c: Cursor, columnTop: real, s: Settings, titleSize: Size) returns (size: Size)
    ensures size == FinalSize(c, columnTop, s, titleSize)
  {
    var x := c.x + c.columnWidth + s.boxSpace;
    size := Size(x, columnTop + c.columnMaxHeight + s.boxSpace);
    if |s.title| > 0 {
      if s.columnCount > 1 && titleSize.width + 2.0 * s.boxSpace < size.width {
        // centred over the columns: the width stays
      } else {
        size := size.(width := Max(titleSize.width + 2.0 * s.boxSpace, size.width));
      }
    }
  }

  // ---------------------------------------------------------------------
  // A single column.

  predicate NonNegativeGaps(s: Settings)
  {
    s.groupSpace >= 0.0 && s.layerSpace >= 0.0 && s.symbolSpace >= 0.0
  }

  /**
   * When every atom is in column 0 the cursor goes straight down: it stands
   * the stacked height of the atoms below the column top, the column is as
   * wide as the widest atom, and with non-negative heights and gaps the
   * column's height is the stacked height.
   */
  lemma {:induction false} SingleColumnWalk(atoms: seq<Atom>, k: nat, columnTop: real, maxColumnWidth: real, s: Settings)
    requires k <= |atoms|
    requires forall i :: 0 <= i < |atoms| ==> atoms[i].column == 0
    ensures var c := Walk(atoms, k, columnTop, maxColumnWidth, s);
      && c.column == 0 && c.x == s.boxSpace
      && c.y == columnTop + TotalHeight(atoms[..k], s)
      && c.columnWidth == MaxAtomWidth(atoms[..k])
      && (k == 0 <==> c.firstInColumn)
      && ((NonNegativeGaps(s) && forall i :: 0 <= i < |atoms| ==> atoms[i].size.height >= 0.0) ==>
            c.columnMaxHeight == TotalHeight(atoms[..k], s))
  {
    if k > 0 {
      SingleColumnWalk(atoms, k - 1, columnTop, maxColumnWidth, s);
      assert atoms[..k][..k - 1] == atoms[..k - 1];
      assert atoms[..k][k - 1] == atoms[k - 1];
      if NonNegativeGaps(s) && (forall i :: 0 <= i < |atoms| ==> atoms[i].size.height >= 0.0) {
        assert SpaceAboveAtom(atoms[k - 1], s) >= 0.0;
        assert TotalHeight(atoms[..k], s) >= TotalHeight(atoms[..k - 1], s);
      }
    }
  }

  /** In a one-column legend setColumns puts every atom in column 0 and keeps the stacked height. */
  lemma OneColumnPlacement(atoms: seq<Atom>, s: Settings)
    requires s.columnCount == 1
    ensures var placed := Placed(atoms, s);
      && |placed| == |atoms|
      && (forall i :: 0 <= i < |placed| ==> placed[i].column == 0 && placed[i].size == atoms[i].size)
      && TotalHeight(placed, s) == TotalHeight(atoms, s)
  {
    var placed := Placed(atoms, s);
    LegendColumnFacts.LayoutColumns(atoms, s);
    LegendColumnFacts.LayoutKeepsAtomSizes(atoms, s);
    forall i | 0 <= i < |atoms|
      ensures SpaceAboveAtom(atoms[i], s) == SpaceAboveAtom(placed[i], s)
    {
      if |atoms[i].nucleons| > 0 {
        assert placed[i].nucleons[0].item == atoms[i].nucleons[0].item;
      }
    }
    TotalHeightFollowsSizes(atoms, placed, s);
  }

  /**
   * A one-column legend with non-negative gaps and heights is as tall as
   * its atoms stacked with their gaps, plus the title, the space under the
   * title and a box space above and below.
   */
  lemma OneColumnLegendHeight(atoms: seq<Atom>, s: Settings, title: Size)
    requires s.columnCount == 1 && NonNegativeGaps(s)
    requires forall i :: 0 <= i < |atoms| ==> atoms[i].size.height >= 0.0
    ensures LegendSize(Placed(atoms, s), s, title).height
      == s.boxSpace + title.height + s.groupSpace + TotalHeight(atoms, s) + s.boxSpace
  {
    OneColumnPlacement(atoms, s);
    SingleColumnLegendHeight(Placed(atoms, s), s, title);
  }

  /** The height of a legend whose atoms all sit in column 0. */
  lemma SingleColumnLegendHeight(placed: seq<Atom>, s: Settings, title: Size)
    requires NonNegativeGaps(s)
    requires forall i :: 0 <= i < |placed| ==> placed[i].size.height >= 0.0 && placed[i].column == 0
    ensures LegendSize(placed, s, title).height
      == s.boxSpace + title.height + s.groupSpace + TotalHeight(placed, s) + s.boxSpace
  {
    var top := s.boxSpace + title.height + s.groupSpace;
    var widest := if s.equalColumnWidth then MaxAtomWidth(placed) else 0.0;
    SingleColumnWalk(placed, |placed|, top, widest, s);
    assert placed[..|placed|] == placed;
    LegendHeightFromWalk(placed, s, title);
  }

  /** Stacked height depends only on sizes and first nucleons, which layout keeps. */
  lemma {:induction false} TotalHeightFollowsSizes(a: seq<Atom>, b: seq<Atom>, s: Settings)
    requires |a| == |b|
    requires forall i :: 0 <= i < |a| ==> a[i].size == b[i].size && SpaceAboveAtom(a[i], s) == SpaceAboveAtom(b[i], s)
    ensures TotalHeight(a, s) == TotalHeight(b, s)
  {
    if |a| > 0 {
      TotalHeightFollowsSizes(a[..|a| - 1], b[..|b| - 1], s);
    }
  }
}
