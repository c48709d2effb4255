/**
 * What the legend's column packer and label alignment guarantee: columns
 * are in range, start at 0 and never skip one; a column only closes under
 * the packer's conditions; atoms keep their sizes, order and nucleons; and
 * every symbol label of a (layer, column) pair starts at the same offset,
 * right of the widest symbol box of the pair.
 */
module LegendColumnFacts {
  import opened Common
  import opened LegendModel
  import opened LegendColumns

  /**
   * One packer step keeps the column or moves to the next one, and it moves
   * only when the open column already holds an atom, a later column exists,
   * and the column with this atom would be taller than the tallest atom and
   * than every column so far.
   */
  lemma PackAdvancesByOne(atoms: seq<Atom>, k: nat, total: real, maxAtom: real, s: Settings)
    requires s.columnCount != 0 && k < |atoms|
    ensures var before := Pack(atoms, k, total, maxAtom, s);
      var after := Pack(atoms, k + 1, total, maxAtom, s);
      && (after.column == before.column || after.column == before.column + 1)
      && (after.column == before.column + 1 ==>
            && k >= 1
            && before.column < s.columnCount - 1
            && CurrentHeight(before, atoms[k], s) > maxAtom
            && CurrentHeight(before, atoms[k], s) > before.maxColumnHeight)
  {
  }

  /** The first atom always lands in column 0. */
  lemma FirstAtomInFirstColumn(atoms: seq<Atom>, s: Settings)
    requires s.columnCount != 0 && |atoms| > 0
    ensures ColumnOf(atoms, 0, s) == 0
  {
    assert Pack(atoms, 0, TotalHeight(atoms, s), MaxAtomHeight(atoms), s) == PackStart;
  }

  /** Alignment does not move atoms between columns, resize them, or change what they hold. */
  lemma AlignedKeepsAtoms(atoms: seq<Atom>, widths: map<Key, real>, s: Settings)
    ensures var r := Aligned(atoms, widths, s);
      forall i :: 0 <= i < |atoms| ==>
        && r[i].column == atoms[i].column
        && r[i].size == atoms[i].size
        && |r[i].nucleons| == |atoms[i].nucleons|
        && forall j :: 0 <= j < |atoms[i].nucleons| ==>
             && r[i].nucleons[j].item == atoms[i].nucleons[j].item
             && r[i].nucleons[j].symbolSize == atoms[i].nucleons[j].symbolSize
             && r[i].nucleons[j].labelSize == atoms[i].nucleons[j].labelSize
             && (KeyOf(atoms[i].nucleons[j], atoms[i].column).None? ==> r[i].nucleons[j] == atoms[i].nucleons[j])
  {
  }

  /**
   * The columns of a laid-out legend: within [0, count-1] (all 0 for a
   * negative count), the first atom in column 0, and each atom in the
   * column of the atom before it or the next one, so no column is skipped.
   */
  lemma LayoutColumns(atoms: seq<Atom>, s: Settings)
    requires s.columnCount != 0
    ensures var r := Layout(atoms, s);
      && (forall i :: 0 <= i < |r| ==> ColumnInRange(r[i].column, s))
      && (|r| > 0 ==> r[0].column == 0)
      && (forall i :: 0 <= i < |r| - 1 ==> r[i + 1].column == r[i].column || r[i + 1].column == r[i].column + 1)
  {
    var placed := Assigned(atoms, s);
    AssignedColumns(atoms, s);
    AlignedKeepsAtoms(placed, SymbolWidths(placed), s);
  }

  /** The same guarantees for the columns the packer assigns, before alignment. */
  lemma AssignedColumns(atoms: seq<Atom>, s: Settings)
    requires s.columnCount != 0
    ensures var r := Assigned(atoms, s);
      && (forall i :: 0 <= i < |r| ==> ColumnInRange(r[i].column, s))
      && (|r| > 0 ==> r[0].column == 0)
      && (forall i :: 0 <= i < |r| - 1 ==> r[i + 1].column == r[i].column || r[i + 1].column == r[i].column + 1)
  {
    var placed := Assigned(atoms, s);
    if |atoms| > 0 {
      FirstAtomInFirstColumn(atoms, s);
    }
    forall i | 0 <= i < |atoms| - 1
      ensures placed[i + 1].column == placed[i].column || placed[i + 1].column == placed[i].column + 1
    {
      PackAdvancesByOne(atoms, i + 1, TotalHeight(atoms, s), MaxAtomHeight(atoms), s);
    }
  }

  /** Layout keeps the atoms in order with their sizes: setColumns never resizes an atom. */
  lemma LayoutKeepsAtomSizes(atoms: seq<Atom>, s: Settings)
    requires s.columnCount != 0
    ensures var r := Layout(atoms, s);
      forall i :: 0 <= i < |atoms| ==>
        && r[i].size == atoms[i].size
        && |r[i].nucleons| == |atoms[i].nucleons|
        && forall j :: 0 <= j < |atoms[i].nucleons| ==> r[i].nucleons[j].item == atoms[i].nucleons[j].item
  {
    AlignedKeepsAtoms(Assigned(atoms, s), SymbolWidths(Assigned(atoms, s)), s);
  }

  // ---------------------------------------------------------------------
  // The widths map.

  /** Absorbing nucleons never lowers an entry. */
  lemma {:induction false} AbsorbNucleonsGrows(widths: map<Key, real>, ns: seq<Nucleon>, column: int, k: Key)
    ensures Lookup(AbsorbNucleons(widths, ns, column), k) >= Lookup(widths, k)
  {
    if |ns| > 0 {
      AbsorbNucleonsGrows(widths, ns[..|ns| - 1], column, k);
    }
  }

  /** After absorbing nucleons, each entry is at least the symbol width of every nucleon with that key. */
  lemma {:induction false} AbsorbNucleonsBound(widths: map<Key, real>, ns: seq<Nucleon>, column: int)
    ensures forall j :: 0 <= j < |ns| && KeyOf(ns[j], column).Some? ==>
      Lookup(AbsorbNucleons(widths, ns, column), KeyOf(ns[j], column).value) >= ns[j].symbolSize.width
  {
    if |ns| > 0 {
      var front := ns[..|ns| - 1];
      AbsorbNucleonsBound(widths, front, column);
      var w := AbsorbNucleons(widths, front, column);
      forall j | 0 <= j < |ns| && KeyOf(ns[j], column).Some?
        ensures Lookup(AbsorbNucleons(widths, ns, column), KeyOf(ns[j], column).value) >= ns[j].symbolSize.width
      {
        var k := KeyOf(ns[j], column).value;
        if j < |ns| - 1 {
          assert front[j] == ns[j];
          assert Lookup(w, k) >= ns[j].symbolSize.width;
        }
      }
    }
  }

  /** Every entry of the widths map is at least 0, and at least every symbol width with its key. */
  lemma {:induction false} SymbolWidthsBound(atoms: seq<Atom>)
    ensures forall k: Key :: Lookup(SymbolWidths(atoms), k) >= 0.0
    ensures forall i, j :: 0 <= i < |atoms| && 0 <= j < |atoms[i].nucleons| && KeyOf(atoms[i].nucleons[j], atoms[i].column).Some? ==>
      Lookup(SymbolWidths(atoms), KeyOf(atoms[i].nucleons[j], atoms[i].column).value) >= atoms[i].nucleons[j].symbolSize.width
  {
    if |atoms| > 0 {
      var front := atoms[..|atoms| - 1];
      var last := atoms[|atoms| - 1];
      SymbolWidthsBound(front);
      var w := SymbolWidths(front);
      AbsorbNucleonsBound(w, last.nucleons, last.column);
      forall k: Key
        ensures Lookup(SymbolWidths(atoms), k) >= 0.0
      {
        AbsorbNucleonsGrows(w, last.nucleons, last.column, k);
      }
      forall i, j | 0 <= i < |atoms| && 0 <= j < |atoms[i].nucleons| && KeyOf(atoms[i].nucleons[j], atoms[i].column).Some?
        ensures Lookup(SymbolWidths(atoms), KeyOf(atoms[i].nucleons[j], atoms[i].column).value) >= atoms[i].nucleons[j].symbolSize.width
      {
        if i < |atoms| - 1 {
          assert front[i] == atoms[i];
          AbsorbNucleonsGrows(w, last.nucleons, last.column, KeyOf(atoms[i].nucleons[j], atoms[i].column).value);
        }
      }
    }
  }

  /** The nucleon `n` is a symbol with key `k` and the symbol width `width`, somewhere among the atoms. */
  predicate HasSymbolWidth(atoms: seq<Atom>, k: Key, width: real)
  {
    exists i, j :: 0 <= i < |atoms| && 0 <= j < |atoms[i].nucleons|
      && KeyOf(atoms[i].nucleons[j], atoms[i].column) == Some(k)
      && atoms[i].nucleons[j].symbolSize.width == width
  }

  lemma {:induction false} AbsorbNucleonsAttained(widths: map<Key, real>, ns: seq<Nucleon>, column: int, k: Key)
    ensures var r := Lookup(AbsorbNucleons(widths, ns, column), k);
      r == Lookup(widths, k) || exists j :: 0 <= j < |ns| && KeyOf(ns[j], column) == Some(k) && ns[j].symbolSize.width == r
  {
    if |ns| > 0 {
      var front := ns[..|ns| - 1];
      AbsorbNucleonsAttained(widths, front, column, k);
      var r := Lookup(AbsorbNucleons(widths, ns, column), k);
      if r != Lookup(AbsorbNucleons(widths, front, column), k) {
        assert KeyOf(ns[|ns| - 1], column) == Some(k) && ns[|ns| - 1].symbolSize.width == r;
      } else if r != Lookup(widths, k) {
        var j :| 0 <= j < |front| && KeyOf(front[j], column) == Some(k) && front[j].symbolSize.width == r;
        assert ns[j] == front[j];
      }
    }
  }

  /** Every entry of the widths map is 0 or the symbol width of some nucleon with that key. */
  lemma {:induction false} SymbolWidthsAttained(atoms: seq<Atom>, k: Key)
    ensures Lookup(SymbolWidths(atoms), k) == 0.0 || HasSymbolWidth(atoms, k, Lookup(SymbolWidths(atoms), k))
  {
    if |atoms| > 0 {
      var front := atoms[..|atoms| - 1];
      var last := atoms[|atoms| - 1];
      SymbolWidthsAttained(front, k);
      var r := Lookup(SymbolWidths(atoms), k);
      AbsorbNucleonsAttained(SymbolWidths(front), last.nucleons, last.column, k);
      if r != Lookup(SymbolWidths(front), k) {
        var j :| 0 <= j < |last.nucleons| && KeyOf(last.nucleons[j], last.column) == Some(k) && last.nucleons[j].symbolSize.width == r;
        assert HasSymbolWidth(atoms, k, r) by {
          assert atoms[|atoms| - 1] == last;
        }
      } else if r != 0.0 {
        var i, j :| 0 <= i < |front| && 0 <= j < |front[i].nucleons|
          && KeyOf(front[i].nucleons[j], front[i].column) == Some(k) && front[i].nucleons[j].symbolSize.width == r;
        assert atoms[i] == front[i];
      }
    }
  }

  /**
   * After setColumns every symbol nucleon of a (layer, column) pair has the
   * same label offset: the widest symbol box of that pair plus the
   * icon-label gap. Its width is that offset plus its label width, so its
   * label starts right of its own symbol box.
   */
  lemma LayoutAlignsLabels(atoms: seq<Atom>, s: Settings)
    requires s.columnCount != 0
    ensures var r := Layout(atoms, s);
      && (forall i, j :: 0 <= i < |r| && 0 <= j < |r[i].nucleons| && KeyOf(r[i].nucleons[j], r[i].column).Some? ==>
            && r[i].nucleons[j].labelXOffset
                 == Lookup(SymbolWidths(Assigned(atoms, s)), KeyOf(r[i].nucleons[j], r[i].column).value) + s.iconLabelSpace
            && r[i].nucleons[j].size.width == r[i].nucleons[j].labelXOffset + r[i].nucleons[j].labelSize.width
            && r[i].nucleons[j].labelXOffset >= r[i].nucleons[j].symbolSize.width + s.iconLabelSpace
            && r[i].nucleons[j].labelXOffset >= s.iconLabelSpace)
      && (forall i, j, i', j' ::
            && 0 <= i < |r| && 0 <= j < |r[i].nucleons| && 0 <= i' < |r| && 0 <= j' < |r[i'].nucleons|
            && KeyOf(r[i].nucleons[j], r[i].column).Some?
            && KeyOf(r[i].nucleons[j], r[i].column) == KeyOf(r[i'].nucleons[j'], r[i'].column)
            ==> r[i].nucleons[j].labelXOffset == r[i'].nucleons[j'].labelXOffset)
  {
    var placed := Assigned(atoms, s);
    SymbolWidthsBound(placed);
    AlignedAlignsLabels(placed, SymbolWidths(placed), s);
  }

  /** Alignment against any widths map that is non-negative and bounds every symbol width of its key. */
  lemma AlignedAlignsLabels(atoms: seq<Atom>, widths: map<Key, real>, s: Settings)
    requires forall k: Key :: Lookup(widths, k) >= 0.0
    requires forall i, j :: 0 <= i < |atoms| && 0 <= j < |atoms[i].nucleons| && KeyOf(atoms[i].nucleons[j], atoms[i].column).Some? ==>
      Lookup(widths, KeyOf(atoms[i].nucleons[j], atoms[i].column).value) >= atoms[i].nucleons[j].symbolSize.width
    ensures var r := Aligned(atoms, widths, s);
      && (forall i, j :: 0 <= i < |r| && 0 <= j < |r[i].nucleons| && KeyOf(r[i].nucleons[j], r[i].column).Some? ==>
            && r[i].nucleons[j].labelXOffset == Lookup(widths, KeyOf(r[i].nucleons[j], r[i].column).value) + s.iconLabelSpace
            && r[i].nucleons[j].size.width == r[i].nucleons[j].labelXOffset + r[i].nucleons[j].labelSize.width
            && r[i].nucleons[j].labelXOffset >= r[i].nucleons[j].symbolSize.width + s.iconLabelSpace
            && r[i].nucleons[j].labelXOffset >= s.iconLabelSpace)
      && (forall i, j, i', j' ::
            && 0 <= i < |r| && 0 <= j < |r[i].nucleons| && 0 <= i' < |r| && 0 <= j' < |r[i'].nucleons|
            && KeyOf(r[i].nucleons[j], r[i].column).Some?
            && KeyOf(r[i].nucleons[j], r[i].column) == KeyOf(r[i'].nucleons[j'], r[i'].column)
            ==> r[i].nucleons[j].labelXOffset == r[i'].nucleons[j'].labelXOffset)
  {
    var r := Aligned(atoms, widths, s);
    forall i, j | 0 <= i < |r| && 0 <= j < |r[i].nucleons|
      ensures r[i].column == atoms[i].column && j < |atoms[i].nucleons|
      ensures r[i].nucleons[j] == AlignNucleon(atoms[i].nucleons[j], atoms[i].column, widths, s)
    {
    }
  }

  /**
   * The label offset of a symbol nucleon after setColumns, less the
   * icon-label gap, is the widest symbol box of its (layer, column) pair:
   * at least every box of the pair, and equal to one of them (or 0, the
   * value an absent map entry reads as).
   */
  lemma LayoutOffsetIsWidestBox(atoms: seq<Atom>, s: Settings, i: nat, j: nat)
    requires s.columnCount != 0
    requires i < |atoms| && j < |Layout(atoms, s)[i].nucleons|
    requires KeyOf(Layout(atoms, s)[i].nucleons[j], Layout(atoms, s)[i].column).Some?
    ensures var r := Layout(atoms, s);
      var k := KeyOf(r[i].nucleons[j], r[i].column).value;
      var widest := r[i].nucleons[j].labelXOffset - s.iconLabelSpace;
      && widest >= 0.0
      && (forall i', j' :: 0 <= i' < |r| && 0 <= j' < |r[i'].nucleons| && KeyOf(r[i'].nucleons[j'], r[i'].column) == Some(k) ==>
            widest >= r[i'].nucleons[j'].symbolSize.width)
      && (widest == 0.0 || HasSymbolWidth(r, k, widest))
  {
    var placed := Assigned(atoms, s);
    var widths := SymbolWidths(placed);
    var r := Layout(atoms, s);
    SymbolWidthsBound(placed);
    AlignedAlignsLabels(placed, widths, s);
    AlignedKeepsAtoms(placed, widths, s);
    var k := KeyOf(r[i].nucleons[j], r[i].column).value;
    var widest := r[i].nucleons[j].labelXOffset - s.iconLabelSpace;
    assert widest == Lookup(widths, k);
    forall i', j' | 0 <= i' < |r| && 0 <= j' < |r[i'].nucleons| && KeyOf(r[i'].nucleons[j'], r[i'].column) == Some(k)
      ensures widest >= r[i'].nucleons[j'].symbolSize.width
    {
      assert KeyOf(placed[i'].nucleons[j'], placed[i'].column) == Some(k);
    }
    SymbolWidthsAttained(placed, k);
    if widest != 0.0 {
      var i', j' :| 0 <= i' < |placed| && 0 <= j' < |placed[i'].nucleons|
        && KeyOf(placed[i'].nucleons[j'], placed[i'].column) == Some(k)
        && placed[i'].nucleons[j'].symbolSize.width == widest;
      assert KeyOf(r[i'].nucleons[j'], r[i'].column) == Some(k);
    }
  }

  /**
   * Three atoms 10, 10 and 30 high with no gaps, in two columns: the first
   * two share column 0 and the tall one opens column 1, so no column is empty.
   */
  lemma ThreeAtomsInTwoColumns(s: Settings)
    requires s.columnCount == 2
    ensures var atoms := [Atom([], Size(1.0, 10.0), 0), Atom([], Size(1.0, 10.0), 0), Atom([], Size(1.0, 30.0), 0)];
      && ColumnOf(atoms, 0, s) == 0 && ColumnOf(atoms, 1, s) == 0 && ColumnOf(atoms, 2, s) == 1
  {
    var atoms := [Atom([], Size(1.0, 10.0), 0), Atom([], Size(1.0, 10.0), 0), Atom([], Size(1.0, 30.0), 0)];
    assert atoms[..2][..1] == atoms[..1] && atoms[..1][..0] == [] && atoms[..|atoms| - 1] == atoms[..2];
    assert atoms[..2][..|atoms[..2]| - 1] == atoms[..1];
    assert TotalHeight(atoms[..1], s) == 10.0 && MaxAtomHeight(atoms[..1]) == 10.0;
    assert TotalHeight(atoms[..2], s) == 20.0 && MaxAtomHeight(atoms[..2]) == 10.0;
    assert TotalHeight(atoms, s) == 50.0;
    assert MaxAtomHeight(atoms) == 30.0;
  }
}
