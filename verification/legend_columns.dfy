/**
 * setColumns: the greedy column packer of the legend and the alignment of
 * symbol labels that follows it. The packer walks the atoms once, closing
 * a column when the current atom's middle would pass the average height
 * left for the remaining columns; then, for every (layer, column) pair,
 * the labels of that layer's symbols are moved right to the widest symbol
 * box of the pair plus the icon-label gap.
 */
module LegendColumns {
  import opened Common
  import opened LegendModel

  /** Stacked height of atoms: every atom but the first adds the gap above it. */
  function TotalHeight(atoms: seq<Atom>, s: Settings): real
  {
    if |atoms| == 0 then 0.0
    else
      var last := atoms[|atoms| - 1];
      TotalHeight(atoms[..|atoms| - 1], s) + (if |atoms| > 1 then SpaceAboveAtom(last, s) else 0.0) + last.size.height
  }

  /** The height of the tallest atom, or 0. */
  function MaxAtomHeight(atoms: seq<Atom>): real
  {
    if |atoms| == 0 then 0.0
    else Max(atoms[|atoms| - 1].size.height, MaxAtomHeight(atoms[..|atoms| - 1]))
  }

  lemma {:induction false} MaxAtomHeightBounds(atoms: seq<Atom>)
    ensures MaxAtomHeight(atoms) >= 0.0
    ensures forall i :: 0 <= i < |atoms| ==> MaxAtomHeight(atoms) >= atoms[i].size.height
  {
    if |atoms| > 0 {
      MaxAtomHeightBounds(atoms[..|atoms| - 1]);
      assert forall i :: 0 <= i < |atoms| - 1 ==> atoms[..|atoms| - 1][i] == atoms[i];
    }
  }

  /** The running state of the packer. */
  datatype PackState = PackState(
    column: int,
    atomCount: int,
    columnHeight: real,
    maxColumnHeight: real,
    closedHeight: real,
    first: bool)

  const PackStart := PackState(0, 0, 0.0, 0.0, 0.0, true)

  /** A column index the packer can be at: below the column count, or 0 when the count is negative. */
  predicate ColumnInRange(column: int, s: Settings)
  {
    0 <= column && (if s.columnCount > 0 then column < s.columnCount else column == 0)
  }

  /** The height of the open column once `a` is added to it. */
  function CurrentHeight(st: PackState, a: Atom, s: Settings): real
  {
    st.columnHeight + (if st.first then 0.0 else SpaceAboveAtom(a, s)) + a.size.height
  }

  /** The packer's test for starting a new column with atom `a`. */
  predicate OpensColumn(st: PackState, a: Atom, total: real, maxAtom: real, s: Settings)
    requires s.columnCount != 0 && ColumnInRange(st.column, s)
  {
    var current := CurrentHeight(st, a, s);
    var average := (total - st.closedHeight) / ((s.columnCount - st.column) as real);
    && current - average > a.size.height / 2.0
    && st.atomCount > 0
    && current > maxAtom
    && current > st.maxColumnHeight
    && st.column < s.columnCount - 1
  }

  function PackStep(st: PackState, a: Atom, total: real, maxAtom: real, s: Settings): PackState
    requires s.columnCount != 0 && ColumnInRange(st.column, s)
  {
    if OpensColumn(st, a, total, maxAtom, s) then
      PackState(st.column + 1, 1, a.size.height, Max(a.size.height, st.maxColumnHeight),
                st.closedHeight + st.columnHeight, false)
    else
      var current := CurrentHeight(st, a, s);
      PackState(st.column, st.atomCount + 1, current, Max(current, st.maxColumnHeight), st.closedHeight, false)
  }

  /** The packer's state after the first `k` atoms. */
  function Pack(atoms: seq<Atom>, k: nat, total: real, maxAtom: real, s: Settings): (st: PackState)
    requires s.columnCount != 0 && k <= |atoms|
    ensures ColumnInRange(st.column, s)
    ensures k == 0 <==> st.first
    ensures k > 0 ==> st.atomCount > 0
    ensures k == 0 ==> st == PackStart
  {
    if k == 0 then PackStart
    else PackStep(Pack(atoms, k - 1, total, maxAtom, s), atoms[k - 1], total, maxAtom, s)
  }

  /** The column the packer gives to atom `i`. */
  function ColumnOf(atoms: seq<Atom>, i: nat, s: Settings): int
    requires s.columnCount != 0 && i < |atoms|
  {
    Pack(atoms, i + 1, TotalHeight(atoms, s), MaxAtomHeight(atoms), s).column
  }

  /** The atoms with the packer's columns. */
  function Assigned(atoms: seq<Atom>, s: Settings): (r: seq<Atom>)
    requires s.columnCount != 0
    ensures |r| == |atoms|
  {
    seq(|atoms|, i requires 0 <= i < |atoms| => atoms[i].(column := ColumnOf(atoms, i, s)))
  }

  // ---------------------------------------------------------------------
  // Label alignment.

  /** A (layer, column) pair; symbols of one layer in one column share their label offset. */
  type Key = (nat, int)

  /** The alignment key of a symbol nucleon in column `column`; None for titles and null items. */
  function KeyOf(n: Nucleon, column: int): Option<Key>
  {
    if n.item.Some? && IsSymbolKind(n.item.value.kind) then Some((n.item.value.parent, column)) else None
  }

  /** A map lookup that reads an absent key as 0, as QMap::operator[] does for doubles. */
  function Lookup(widths: map<Key, real>, k: Key): real
  {
    if k in widths then widths[k] else 0.0
  }

  function Absorb(widths: map<Key, real>, n: Nucleon, column: int): map<Key, real>
  {
    match KeyOf(n, column)
    case None => widths
    case Some(k) => widths[k := Max(n.symbolSize.width, Lookup(widths, k))]
  }

  function AbsorbNucleons(widths: map<Key, real>, ns: seq<Nucleon>, column: int): map<Key, real>
  {
    if |ns| == 0 then widths
    else Absorb(AbsorbNucleons(widths, ns[..|ns| - 1], column), ns[|ns| - 1], column)
  }

  /** The widest symbol box of every (layer, column) pair among the atoms. */
  function SymbolWidths(atoms: seq<Atom>): map<Key, real>
  {
    if |atoms| == 0 then map[]
    else
      var last := atoms[|atoms| - 1];
      AbsorbNucleons(SymbolWidths(atoms[..|atoms| - 1]), last.nucleons, last.column)
  }

  /** A symbol nucleon's label moved to its pair's widest symbol box plus the icon-label gap. */
  function AlignNucleon(n: Nucleon, column: int, widths: map<Key, real>, s: Settings): Nucleon
  {
    match KeyOf(n, column)
    case None => n
    case Some(k) =>
      n.(labelXOffset := Lookup(widths, k) + s.iconLabelSpace,
         size := n.size.(width := Lookup(widths, k) + s.iconLabelSpace + n.labelSize.width))
  }

  function AlignNucleons(ns: seq<Nucleon>, column: int, widths: map<Key, real>, s: Settings): (r: seq<Nucleon>)
    ensures |r| == |ns|
  {
    seq(|ns|, j requires 0 <= j < |ns| => AlignNucleon(ns[j], column, widths, s))
  }

  function Aligned(atoms: seq<Atom>, widths: map<Key, real>, s: Settings): (r: seq<Atom>)
    ensures |r| == |atoms|
  {
    seq(|atoms|, i requires 0 <= i < |atoms| => atoms[i].(nucleons := AlignNucleons(atoms[i].nucleons, atoms[i].column, widths, s)))
  }

  /** What setColumns makes of a list of atoms, for a non-zero column count. */
  function Layout(atoms: seq<Atom>, s: Settings): (r: seq<Atom>)
    requires s.columnCount != 0
    ensures |r| == |atoms|
  {
    var placed := Assigned(atoms, s);
    Aligned(placed, SymbolWidths(placed), s)
  }

  // ---------------------------------------------------------------------
  // The imperative passes.

  /** The first pass of setColumns: total stacked height and tallest atom. */
  method Totals(atoms: seq<Atom>, s: Settings) returns (totalHeight: real, maxAtomHeight: real)
    ensures totalHeight == TotalHeight(atoms, s) && maxAtomHeight == MaxAtomHeight(atoms)
  {
    totalHeight := 0.0;
    maxAtomHeight := 0.0;
    var first := true;
    var i := 0;
    while i < |atoms|
      invariant 0 <= i <= |atoms|
      invariant first <==> i == 0
      invariant totalHeight == TotalHeight(atoms[..i], s)
      invariant maxAtomHeight == MaxAtomHeight(atoms[..i])
    {
      assert atoms[..i + 1][..i] == atoms[..i];
      if !first {
        totalHeight := totalHeight + SpaceAboveAtom(atoms[i], s);
      }
      totalHeight := totalHeight + atoms[i].size.height;
      maxAtomHeight := Max(atoms[i].size.height, maxAtomHeight);
      first := false;
      i := i + 1;
    }
    assert atoms[..i] == atoms;
  }

  /** The third pass: the widest symbol box of every (layer, column) pair. */
  method CollectSymbolWidths(atoms: seq<Atom>) returns (widths: map<Key, real>)
    ensures widths == SymbolWidths(atoms)
  {
    widths := map[];
    var i := 0;
    while i < |atoms|
      invariant 0 <= i <= |atoms|
      invariant widths == SymbolWidths(atoms[..i])
    {
      assert atoms[..i + 1][..i] == atoms[..i];
      var ns := atoms[i].nucleons;
      ghost var before := widths;
      var j := 0;
      while j < |ns|
        invariant 0 <= j <= |ns|
        invariant widths == AbsorbNucleons(before, ns[..j], atoms[i].column)
      {
        assert ns[..j + 1][..j] == ns[..j];
        var n := ns[j];
        if n.item.Some? && IsSymbolKind(n.item.value.kind) {
          var key := (n.item.value.parent, atoms[i].column);
          widths := widths[key := Max(n.symbolSize.width, Lookup(widths, key))];
        }
        j := j + 1;
      }
      assert ns[..j] == ns;
      i := i + 1;
    }
    assert atoms[..i] == atoms;
  }

  /** The last pass: every symbol label of a pair starts at the same offset. */
  method AlignLabels(atoms: array<Atom>, widths: map<Key, real>, s: Settings)
    modifies atoms
    ensures atoms[..] == Aligned(old(atoms[..]), widths, s)
  {
    ghost var original := atoms[..];
    var i := 0;
    while i < atoms.Length
      invariant 0 <= i <= atoms.Length
      invariant forall k :: 0 <= k < i ==>
        atoms[k] == original[k].(nucleons := AlignNucleons(original[k].nucleons, original[k].column, widths, s))
      invariant forall k :: i <= k < atoms.Length ==> atoms[k] == original[k]
    {
      var ns := atoms[i].nucleons;
      var j := 0;
      while j < |ns|
        invariant 0 <= j <= |ns| && |ns| == |atoms[i].nucleons|
        invariant forall t :: 0 <= t < j ==> ns[t] == AlignNucleon(atoms[i].nucleons[t], atoms[i].column, widths, s)
        invariant forall t :: j <= t < |ns| ==> ns[t] == atoms[i].nucleons[t]
      {
        var n := ns[j];
        if n.item.Some? && IsSymbolKind(n.item.value.kind) {
          var key := (n.item.value.parent, atoms[i].column);
          n := n.(labelXOffset := Lookup(widths, key) + s.iconLabelSpace);
          n := n.(size := n.size.(width := Lookup(widths, key) + s.iconLabelSpace + n.labelSize.width));
        }
        ns := ns[j := n];
        j := j + 1;
      }
      assert ns == AlignNucleons(atoms[i].nucleons, atoms[i].column, widths, s);
      atoms[i] := atoms[i].(nucleons := ns);
      i := i + 1;
    }
    assert atoms[..] == Aligned(original, widths, s);
  }

  /**
   * One step of the greedy walk: atom `atom` either opens the next column
   * or is stacked under the open one, and the running heights follow.
   */
  method PlaceAtom(st: PackState, atom: Atom, totalHeight: real, maxAtomHeight: real, s: Settings)
    returns (next: PackState)
    requires s.columnCount != 0 && ColumnInRange(st.column, s)
    ensures next == PackStep(st, atom, totalHeight, maxAtomHeight, s)
  {
    var currentColumn := st.column;
    var currentColumnAtomCount := st.atomCount;
    var currentColumnHeight := st.columnHeight;
    var maxColumnHeight := st.maxColumnHeight;
    var closedColumnsHeight := st.closedHeight;
    var currentHeight := currentColumnHeight;
    if !st.first {
      currentHeight := currentHeight + SpaceAboveAtom(atom, s);
    }
    currentHeight := currentHeight + atom.size.height;
    assert currentHeight == CurrentHeight(st, atom, s);
    var avgColumnHeight := (totalHeight - closedColumnsHeight) / ((s.columnCount - currentColumn) as real);
    if currentHeight - avgColumnHeight > atom.size.height / 2.0
      && currentColumnAtomCount > 0
      && currentHeight > maxAtomHeight
      && currentHeight > maxColumnHeight
      && currentColumn < s.columnCount - 1
    {
      assert OpensColumn(st, atom, totalHeight, maxAtomHeight, s);
      currentColumn := currentColumn + 1;
      currentColumnAtomCount := 0;
      closedColumnsHeight := closedColumnsHeight + currentColumnHeight;
      currentColumnHeight := atom.size.height;
    } else {
      assert !OpensColumn(st, atom, totalHeight, maxAtomHeight, s);
      currentColumnHeight := currentHeight;
    }
    currentColumnAtomCount := currentColumnAtomCount + 1;
    maxColumnHeight := Max(currentColumnHeight, maxColumnHeight);
    next := PackState(currentColumn, currentColumnAtomCount, currentColumnHeight, maxColumnHeight,
                      closedColumnsHeight, false);
  }

  /** The second pass: the greedy walk that gives every atom its column. */
  method AssignColumns(atoms: array<Atom>, s: Settings, totalHeight: real, maxAtomHeight: real)
    requires s.columnCount != 0
    requires totalHeight == TotalHeight(atoms[..], s) && maxAtomHeight == MaxAtomHeight(atoms[..])
    modifies atoms
    ensures atoms[..] == Assigned(old(atoms[..]), s)
  {
    ghost var original := atoms[..];
    ghost var placed := Assigned(original, s);
    var st := PackStart;
    var i := 0;
    while i < atoms.Length
      invariant 0 <= i <= atoms.Length
      invariant st == Pack(original, i, totalHeight, maxAtomHeight, s)
      invariant forall k :: 0 <= k < i ==> atoms[k] == placed[k]
      invariant forall k :: i <= k < atoms.Length ==> atoms[k] == original[k]
    {
      var atom := atoms[i];
      st := PlaceAtom(st, atom, totalHeight, maxAtomHeight, s);
      AssignedAt(original, s, i, st);
      atoms[i] := atom.(column := st.column);
      i := i + 1;
    }
    assert atoms[..] == placed;
  }

  /** The packer's state after atom i gives atom i its place in Assigned. */
  lemma AssignedAt(atoms: seq<Atom>, s: Settings, i: nat, st: PackState)
    requires s.columnCount != 0 && i < |atoms|
    requires st == Pack(atoms, i + 1, TotalHeight(atoms, s), MaxAtomHeight(atoms), s)
    ensures Assigned(atoms, s)[i] == atoms[i].(column := st.column)
  {
  }

  /** setColumns: assign columns, then align the symbol labels of each (layer, column) pair. */
  method SetColumns(atoms: array<Atom>, s: Settings)
    modifies atoms
    ensures s.columnCount == 0 ==> atoms[..] == old(atoms[..])
    ensures s.columnCount != 0 ==> atoms[..] == Layout(old(atoms[..]), s)
  {
    if s.columnCount == 0 {
      return;
    }
    var totalHeight, maxAtomHeight := Totals(atoms[..], s);
    AssignColumns(atoms, s, totalHeight, maxAtomHeight);
    var widths := CollectSymbolWidths(atoms[..]);
    AlignLabels(atoms, widths, s);
  }
}
