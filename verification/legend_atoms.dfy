/**
 * createAtomList: the legend tree flattened, depth first, into atoms. A
 * group title joins the first atom of its children; a layer title and its
 * symbol entries form one atom, or with split layers only the first entry
 * stays with the title and every further entry is an atom of its own.
 */
module LegendAtoms {
  import opened Common
  import opened LegendModel
  import opened LegendMeasure

  /** The nucleon of a group title. */
  function GroupTitleNucleon(text: string, s: Settings, m: Metrics): Nucleon
  {
    Nucleon(Some(ItemRef(GroupKind, 0)), ZeroSize, ZeroSize, GroupTitleSize(text, s, m), 0.0)
  }

  /** The nucleon of a layer title. */
  function LayerTitleNucleon(text: string, s: Settings, m: Metrics): Nucleon
  {
    Nucleon(Some(ItemRef(LayerKind, 0)), ZeroSize, ZeroSize, LayerTitleSize(text, s, m), 0.0)
  }

  /** The atoms of a sequence of sibling nodes, in order. */
  function AtomsOfNodes(nodes: seq<Node>, s: Settings, m: Metrics): seq<Atom>
    decreases nodes
  {
    if |nodes| == 0 then [] else AtomsOfNode(nodes[0], s, m) + AtomsOfNodes(nodes[1..], s, m)
  }

  /** The atoms of one node: a group, a layer, or nothing for anything else. */
  function AtomsOfNode(node: Node, s: Settings, m: Metrics): seq<Atom>
    decreases node
  {
    match node
    case Group(text, children) =>
      var groupAtoms := AtomsOfNodes(children, s, m);
      var title := GroupTitleNucleon(text, s, m);
      if |groupAtoms| > 0 then
        [PrependGroupTitle(title, groupAtoms[0], s)] + groupAtoms[1..]
      else
        var width := 0.0 + title.size.width;
        [Atom([title], Size(Max(title.size.width, width), 0.0 + title.size.height), 0)]
    case Layer(id, text, symbols) =>
      var title := LayerTitleNucleon(text, s, m);
      var r := LayerFold(symbols, |symbols|, Atom([title], title.size, 0), id, s, m);
      [r.0] + r.1
    case Entry(_) => []
    case NonLegend => []
  }

  /**
   * A group title put in front of the first atom of its children: the atom
   * grows by the gap that atom would have had above it and by the title.
   */
  function PrependGroupTitle(title: Nucleon, first: Atom, s: Settings): (r: Atom)
    ensures r.nucleons == [title] + first.nucleons && r.column == first.column
    ensures r.size.height == first.size.height + SpaceAboveAtom(first, s) + title.size.height
    ensures r.size.width >= first.size.width && r.size.width >= title.size.width
  {
    var height := first.size.height + SpaceAboveAtom(first, s);
    Atom([title] + first.nucleons,
         Size(Max(title.size.width, first.size.width), height + title.size.height),
         first.column)
  }

  /**
   * One symbol entry of a layer, the `j`-th child: kept with the layer atom
   * unless layers are split and it is not the first child.
   */
  function LayerStep(acc: (Atom, seq<Atom>), j: nat, entry: Option<SymbolEntry>, id: nat, s: Settings, m: Metrics)
    : (Atom, seq<Atom>)
  {
    match entry
    case None => acc
    case Some(e) =>
      var n := SymbolNucleon(e, id, s, m);
      if !s.splitLayer || j == 0 then
        var atom := acc.0;
        var height := atom.size.height + s.symbolSpace;
        (Atom(atom.nucleons + [n], Size(Max(n.size.width, atom.size.width), height + n.size.height), atom.column), acc.1)
      else
        (acc.0, acc.1 + [Atom([n], n.size, 0)])
  }

  /** The layer atom and the split-off atoms after the first `k` children of a layer. */
  function LayerFold(symbols: seq<Option<SymbolEntry>>, k: nat, start: Atom, id: nat, s: Settings, m: Metrics)
    : (Atom, seq<Atom>)
    requires k <= |symbols|
  {
    if k == 0 then (start, [])
    else LayerStep(LayerFold(symbols, k - 1, start, id, s, m), k - 1, symbols[k - 1], id, s, m)
  }

  // ---------------------------------------------------------------------
  // An independent account of which items the legend shows, in tree order.

  function NucleonItems(ns: seq<Nucleon>): seq<Option<ItemRef>>
  {
    seq(|ns|, i requires 0 <= i < |ns| => ns[i].item)
  }

  /** The items of all nucleons of a list of atoms, in order. */
  function AtomItems(atoms: seq<Atom>): seq<Option<ItemRef>>
  {
    if |atoms| == 0 then [] else NucleonItems(atoms[0].nucleons) + AtomItems(atoms[1..])
  }

  /** The symbol entries of a layer that are legend items, as item references. */
  function EntryItems(symbols: seq<Option<SymbolEntry>>, id: nat): seq<Option<ItemRef>>
  {
    if |symbols| == 0 then []
    else
      var last := symbols[|symbols| - 1];
      EntryItems(symbols[..|symbols| - 1], id) + (if last.Some? then [Some(ItemRef(EntryKind(last.value), id))] else [])
  }

  /** The items a legend tree shows, depth first: group titles, layer titles and their entries. */
  function TreeItems(nodes: seq<Node>): seq<Option<ItemRef>>
    decreases nodes
  {
    if |nodes| == 0 then [] else NodeItems(nodes[0]) + TreeItems(nodes[1..])
  }

  function NodeItems(node: Node): seq<Option<ItemRef>>
    decreases node
  {
    match node
    case Group(_, children) => [Some(ItemRef(GroupKind, 0))] + TreeItems(children)
    case Layer(id, _, symbols) => [Some(ItemRef(LayerKind, 0))] + EntryItems(symbols, id)
    case Entry(_) => []
    case NonLegend => []
  }

  lemma {:induction false} AtomItemsAppend(a: seq<Atom>, b: seq<Atom>)
    ensures AtomItems(a + b) == AtomItems(a) + AtomItems(b)
  {
    if |a| > 0 {
      assert (a + b)[1..] == a[1..] + b;
      AtomItemsAppend(a[1..], b);
    } else {
      assert a + b == b;
    }
  }

  /** One step of the layer fold adds the entry's item, if any, at the end of the items. */
  lemma LayerStepItems(acc: (Atom, seq<Atom>), j: nat, entry: Option<SymbolEntry>, id: nat, s: Settings, m: Metrics)
    requires entry.Some? && (!s.splitLayer || j == 0) ==> acc.1 == []
    ensures var r := LayerStep(acc, j, entry, id, s, m);
      NucleonItems(r.0.nucleons) + AtomItems(r.1)
        == NucleonItems(acc.0.nucleons) + AtomItems(acc.1)
           + (if entry.Some? then [Some(ItemRef(EntryKind(entry.value), id))] else [])
  {
    var r := LayerStep(acc, j, entry, id, s, m);
    if entry.Some? {
      var n := SymbolNucleon(entry.value, id, s, m);
      if !s.splitLayer || j == 0 {
        assert r.0.nucleons == acc.0.nucleons + [n] && r.1 == [] && acc.1 == [];
        assert NucleonItems(acc.0.nucleons + [n]) == NucleonItems(acc.0.nucleons) + [n.item];
      } else {
        var single := Atom([n], n.size, 0);
        AtomItemsAppend(acc.1, [single]);
        assert AtomItems([single]) == NucleonItems(single.nucleons) + AtomItems([]);
        assert r.0 == acc.0 && r.1 == acc.1 + [single];
      }
    }
  }

  /** The layer fold keeps every legend entry exactly once, after the title, in order. */
  lemma {:induction false} LayerFoldItems(symbols: seq<Option<SymbolEntry>>, k: nat, start: Atom, id: nat, s: Settings, m: Metrics)
    requires k <= |symbols|
    ensures var r := LayerFold(symbols, k, start, id, s, m);
      NucleonItems(r.0.nucleons) + AtomItems(r.1) == NucleonItems(start.nucleons) + EntryItems(symbols[..k], id)
  {
    if k > 0 {
      LayerFoldItems(symbols, k - 1, start, id, s, m);
      var acc := LayerFold(symbols, k - 1, start, id, s, m);
      if !s.splitLayer {
        UnsplitLayerHeight(symbols, k - 1, start, id, s, m);
      }
      LayerStepItems(acc, k - 1, symbols[k - 1], id, s, m);
      assert symbols[..k][..k - 1] == symbols[..k - 1];
    }
  }

  /**
   * Flattening keeps every item of the tree exactly once and in depth-first
   * order: the nucleons of the atoms, read in order, are the tree's items.
   */
  lemma {:induction false} AtomsKeepTreeOrder(nodes: seq<Node>, s: Settings, m: Metrics)
    ensures AtomItems(AtomsOfNodes(nodes, s, m)) == TreeItems(nodes)
    decreases nodes
  {
    if |nodes| > 0 {
      NodeAtomsKeepTreeOrder(nodes[0], s, m);
      AtomsKeepTreeOrder(nodes[1..], s, m);
      AtomItemsAppend(AtomsOfNode(nodes[0], s, m), AtomsOfNodes(nodes[1..], s, m));
    }
  }

  lemma {:induction false} NodeAtomsKeepTreeOrder(node: Node, s: Settings, m: Metrics)
    ensures AtomItems(AtomsOfNode(node, s, m)) == NodeItems(node)
    decreases node
  {
    match node
    case Group(text, children) =>
      AtomsKeepTreeOrder(children, s, m);
      var groupAtoms := AtomsOfNodes(children, s, m);
      var title := GroupTitleNucleon(text, s, m);
      if |groupAtoms| > 0 {
        var first := PrependGroupTitle(title, groupAtoms[0], s);
        assert NucleonItems(first.nucleons) == [title.item] + NucleonItems(groupAtoms[0].nucleons);
        assert AtomItems([first] + groupAtoms[1..]) == NucleonItems(first.nucleons) + AtomItems(groupAtoms[1..]);
      } else {
        var atom := AtomsOfNode(node, s, m)[0];
        assert AtomItems([atom]) == NucleonItems(atom.nucleons) + AtomItems([]);
      }
    case Layer(id, text, symbols) =>
      var title := LayerTitleNucleon(text, s, m);
      var start := Atom([title], title.size, 0);
      LayerFoldItems(symbols, |symbols|, start, id, s, m);
      assert symbols[..|symbols|] == symbols;
      var r := LayerFold(symbols, |symbols|, start, id, s, m);
      assert AtomItems([r.0] + r.1) == NucleonItems(r.0.nucleons) + AtomItems(r.1);
    case Entry(_) =>
    case NonLegend =>
  }

  /** Every atom holds at least one nucleon and starts in column 0. */
  lemma {:induction false} AtomsAreFreshAndNonEmpty(nodes: seq<Node>, s: Settings, m: Metrics)
    ensures forall a :: a in AtomsOfNodes(nodes, s, m) ==> |a.nucleons| >= 1 && a.column == 0
    decreases nodes
  {
    if |nodes| > 0 {
      NodeAtomsAreFreshAndNonEmpty(nodes[0], s, m);
      AtomsAreFreshAndNonEmpty(nodes[1..], s, m);
    }
  }

  lemma {:induction false} NodeAtomsAreFreshAndNonEmpty(node: Node, s: Settings, m: Metrics)
    ensures forall a :: a in AtomsOfNode(node, s, m) ==> |a.nucleons| >= 1 && a.column == 0
    decreases node
  {
    match node
    case Group(_, children) =>
      AtomsAreFreshAndNonEmpty(children, s, m);
    case Layer(id, text, symbols) =>
      var title := LayerTitleNucleon(text, s, m);
      LayerFoldFresh(symbols, |symbols|, Atom([title], title.size, 0), id, s, m);
    case Entry(_) =>
    case NonLegend =>
  }

  lemma {:induction false} LayerFoldFresh(symbols: seq<Option<SymbolEntry>>, k: nat, start: Atom, id: nat, s: Settings, m: Metrics)
    requires k <= |symbols|
    requires |start.nucleons| >= 1 && start.column == 0
    ensures var r := LayerFold(symbols, k, start, id, s, m);
      |r.0.nucleons| >= 1 && r.0.column == 0 && forall a :: a in r.1 ==> |a.nucleons| == 1 && a.column == 0
  {
    if k > 0 {
      LayerFoldFresh(symbols, k - 1, start, id, s, m);
    }
  }

  /** The sum, over the legend entries of a layer, of the symbol space and the entry's height. */
  function EntriesHeight(symbols: seq<Option<SymbolEntry>>, id: nat, s: Settings, m: Metrics): real
  {
    if |symbols| == 0 then 0.0
    else
      var last := symbols[|symbols| - 1];
      EntriesHeight(symbols[..|symbols| - 1], id, s, m)
        + (if last.Some? then s.symbolSpace + SymbolNucleon(last.value, id, s, m).size.height else 0.0)
  }

  /**
   * Without split layers a layer is a single atom: its title followed by all
   * its entries, as tall as the title plus, per entry, the symbol space and
   * the entry's height.
   */
  lemma {:induction false} UnsplitLayerHeight(symbols: seq<Option<SymbolEntry>>, k: nat, start: Atom, id: nat, s: Settings, m: Metrics)
    requires k <= |symbols| && !s.splitLayer
    ensures var r := LayerFold(symbols, k, start, id, s, m);
      && r.1 == []
      && r.0.size.height == start.size.height + EntriesHeight(symbols[..k], id, s, m)
      && r.0.size.width >= start.size.width
  {
    if k > 0 {
      UnsplitLayerHeight(symbols, k - 1, start, id, s, m);
      assert symbols[..k][..k - 1] == symbols[..k - 1];
    }
  }

  /**
   * With split layers the layer atom holds the title and at most the first
   * child, and every further legend entry is an atom of its own.
   */
  lemma {:induction false} SplitLayerAtoms(symbols: seq<Option<SymbolEntry>>, k: nat, start: Atom, id: nat, s: Settings, m: Metrics)
    requires k <= |symbols| && s.splitLayer
    ensures var r := LayerFold(symbols, k, start, id, s, m);
      && |start.nucleons| <= |r.0.nucleons| <= |start.nucleons| + 1
      && r.0.nucleons[..|start.nucleons|] == start.nucleons
      && (k > 0 && symbols[0].Some? <==> |r.0.nucleons| == |start.nucleons| + 1)
      && forall a :: a in r.1 ==> |a.nucleons| == 1
  {
    if k > 0 {
      SplitLayerAtoms(symbols, k - 1, start, id, s, m);
    }
  }
}
