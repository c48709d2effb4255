/**
 * drawRendererV2Levels: the fetched features are put into one bucket per
 * symbol the renderer resolves for them, the layers of the renderer's
 * symbols are ordered into rendering levels by their rendering pass, and
 * the features are then drawn level by level, item by item, bucket by
 * bucket.  Also the drawMarker decision shared with drawRendererV2.
 */
module SymbolLevels {
  import opened Common

  /** QgsFeatureId. */
  type FeatureId = int

  /** The identity of a QgsSymbolV2 object (the key of the bucket hash). */
  type SymbolId = nat

  /** A fetched feature: its id, whether it carries a geometry, and the symbol the renderer resolves for it. */
  datatype Fetched = Fetched(id: FeatureId, hasGeometry: bool, symbol: Option<SymbolId>)

  /** A symbol of the renderer: its identity and the rendering pass of each of its symbol layers. */
  datatype Symbol = Symbol(id: SymbolId, passes: seq<int>)

  /** QgsSymbolV2LevelItem: a symbol and the index of one of its layers. */
  datatype LevelItem = LevelItem(symbol: SymbolId, layer: nat)

  /** One renderFeature call of the drawing phase. */
  datatype RenderCall = RenderCall(feature: FeatureId, layer: nat, selected: bool, drawMarker: bool)

  /**
   * drawMarker: vertex markers are drawn only while an edit session is open,
   * and then for every feature, or only for selected ones when the
   * marker-only-for-selection setting is on.
   */
  predicate DrawMarker(editing: bool, markerOnlyForSelection: bool, selected: bool)
  {
    editing && (!markerOnlyForSelection || selected)
  }

  lemma DrawMarkerCases(editing: bool, markerOnlyForSelection: bool, selected: bool)
    ensures !editing ==> !DrawMarker(editing, markerOnlyForSelection, selected)
    ensures editing && !markerOnlyForSelection ==> DrawMarker(editing, markerOnlyForSelection, selected)
    ensures editing && selected ==> DrawMarker(editing, markerOnlyForSelection, selected)
    ensures markerOnlyForSelection && !selected ==> !DrawMarker(editing, markerOnlyForSelection, selected)
  {
  }

  // ---------------------------------------------------------------------
  // 1. Buckets

  /** The feature goes into the bucket of symbol s. */
  predicate InBucket(f: Fetched, s: SymbolId)
  {
    f.hasGeometry && f.symbol == Some(s)
  }

  /** The ids of the fetched features that go into the bucket of s, in fetch order. */
  function Bucket(fetched: seq<Fetched>, s: SymbolId): (r: seq<FeatureId>)
    ensures |r| <= |fetched|
  {
    if fetched == [] then []
    else
      var f := fetched[|fetched| - 1];
      Bucket(fetched[..|fetched| - 1], s) + (if InBucket(f, s) then [f.id] else [])
  }

  /** The symbols that receive a bucket: those resolved for some feature with a geometry. */
  function BucketKeys(fetched: seq<Fetched>): set<SymbolId>
  {
    if fetched == [] then {}
    else
      var f := fetched[|fetched| - 1];
      BucketKeys(fetched[..|fetched| - 1]) + (if f.hasGeometry && f.symbol.Some? then {f.symbol.value} else {})
  }

  /** The fetch loop: buckets are created on first use and extended in fetch order. */
  method BucketFeatures(fetched: seq<Fetched>) returns (buckets: map<SymbolId, seq<FeatureId>>)
    ensures buckets.Keys == BucketKeys(fetched)
    ensures forall s :: s in buckets ==> buckets[s] == Bucket(fetched, s)
  {
    buckets := map[];
    var k := 0;
    while k < |fetched|
      invariant k <= |fetched|
      invariant buckets.Keys == BucketKeys(fetched[..k])
      invariant forall s :: s in buckets ==> buckets[s] == Bucket(fetched[..k], s)
      invariant forall s :: s !in buckets ==> Bucket(fetched[..k], s) == []
    {
      BucketStep(fetched, k);
      buckets := AddToBucket(buckets, fetched[k]);
      k := k + 1;
    }
    assert fetched[..k] == fetched;
  }

  /** One step of the fetch loop: a feature with a geometry and a symbol is appended to that symbol's bucket. */
  method AddToBucket(buckets: map<SymbolId, seq<FeatureId>>, f: Fetched) returns (next: map<SymbolId, seq<FeatureId>>)
    ensures next.Keys == buckets.Keys + (if f.hasGeometry && f.symbol.Some? then {f.symbol.value} else {})
    ensures forall s :: s in next ==>
      next[s] == (if s in buckets then buckets[s] else []) + (if InBucket(f, s) then [f.id] else [])
  {
    next := buckets;
    if f.hasGeometry {
      match f.symbol {
        case None =>
        case Some(s) =>
          if s !in next {
            next := next[s := []];
          }
          next := next[s := next[s] + [f.id]];
      }
    }
  }

  /** Taking one more fetched feature into account extends one bucket at most. */
  lemma BucketStep(fetched: seq<Fetched>, k: nat)
    requires k < |fetched|
    ensures BucketKeys(fetched[..k + 1]) == BucketKeys(fetched[..k]) +
      (if fetched[k].hasGeometry && fetched[k].symbol.Some? then {fetched[k].symbol.value} else {})
    ensures forall s :: (Bucket(fetched[..k + 1], s) ==
      Bucket(fetched[..k], s) + (if InBucket(fetched[k], s) then [fetched[k].id] else []))
  {
    assert fetched[..k + 1][..k] == fetched[..k];
  }

  /** A feature id is in the bucket of s exactly when some fetched feature with that id has a geometry and resolved to s. */
  lemma {:induction false} BucketMembership(fetched: seq<Fetched>, s: SymbolId, x: FeatureId)
    ensures x in Bucket(fetched, s) <==>
      exists i :: 0 <= i < |fetched| && fetched[i].id == x && InBucket(fetched[i], s)
  {
    if fetched != [] {
      var n := |fetched|;
      var front := fetched[..n - 1];
      BucketMembership(front, s, x);
      if x in Bucket(fetched, s) && x !in Bucket(front, s) {
        assert fetched[n - 1].id == x && InBucket(fetched[n - 1], s);
      }
      if exists i :: 0 <= i < n && fetched[i].id == x && InBucket(fetched[i], s) {
        var i :| 0 <= i < n && fetched[i].id == x && InBucket(fetched[i], s);
        if i < n - 1 {
          assert front[i] == fetched[i];
        }
      }
      forall i | 0 <= i < n - 1 && front[i].id == x && InBucket(front[i], s)
        ensures fetched[i].id == x && InBucket(fetched[i], s)
      {
        assert front[i] == fetched[i];
      }
    }
  }

  /** Each bucket keeps fetch order: the bucket of a fetch split in two is the first half's bucket followed by the second's. */
  lemma {:induction false} BucketKeepsFetchOrder(first: seq<Fetched>, second: seq<Fetched>, s: SymbolId)
    ensures Bucket(first + second, s) == Bucket(first, s) + Bucket(second, s)
    decreases |second|
  {
    if second == [] {
      assert first + second == first;
    } else {
      var n := |second|;
      assert (first + second)[..|first + second| - 1] == first + second[..n - 1];
      BucketKeepsFetchOrder(first, second[..n - 1], s);
    }
  }

  /** A symbol receives a bucket exactly when its bucket is non-empty. */
  lemma {:induction false} BucketKeysAreNonEmptyBuckets(fetched: seq<Fetched>, s: SymbolId)
    ensures s in BucketKeys(fetched) <==> Bucket(fetched, s) != []
  {
    if fetched != [] {
      BucketKeysAreNonEmptyBuckets(fetched[..|fetched| - 1], s);
    }
  }

  // ---------------------------------------------------------------------
  // 2. Levels

  /** Only passes in [0, 1000) place a symbol layer on a level. */
  predicate ValidPass(p: int)
  {
    0 <= p < 1000
  }

  /** A level item together with the pass it is placed on. */
  datatype Placed = Placed(item: LevelItem, pass: nat)

  /** The placed items of the first j layers of one symbol, in layer order. */
  function LayerItems(sym: Symbol, j: nat): seq<Placed>
    requires j <= |sym.passes|
  {
    if j == 0 then []
    else
      var p := sym.passes[j - 1];
      LayerItems(sym, j - 1) + (if ValidPass(p) then [Placed(LevelItem(sym.id, j - 1), p as nat)] else [])
  }

  /** The placed items of all symbols, in symbol-list order and then layer order. */
  function Items(symbols: seq<Symbol>): seq<Placed>
  {
    if symbols == [] then []
    else
      var sym := symbols[|symbols| - 1];
      Items(symbols[..|symbols| - 1]) + LayerItems(sym, |sym.passes|)
  }

  /** The items placed on level l, in the order they were placed. */
  function LevelOf(items: seq<Placed>, l: nat): seq<LevelItem>
  {
    if items == [] then []
    else
      var p := items[|items| - 1];
      LevelOf(items[..|items| - 1], l) + (if p.pass == l then [p.item] else [])
  }

  /** One more than the highest pass placed, or 0 when nothing is placed. */
  function LevelCount(items: seq<Placed>): nat
  {
    if items == [] then 0
    else
      var p := items[|items| - 1];
      var before := LevelCount(items[..|items| - 1]);
      if p.pass + 1 > before then p.pass + 1 else before
  }

  /** Placing one item: levels up to its pass are appended empty, and the item goes at the end of its level. */
  method PlaceItem(levels: seq<seq<LevelItem>>, item: LevelItem, pass: nat) returns (r: seq<seq<LevelItem>>)
    ensures |r| == if pass + 1 > |levels| then pass + 1 else |levels|
    ensures forall l :: 0 <= l < |r| ==>
      r[l] == (if l < |levels| then levels[l] else []) + (if l == pass then [item] else [])
  {
    r := levels;
    while pass >= |r|
      invariant |levels| <= |r| <= if pass + 1 > |levels| then pass + 1 else |levels|
      invariant forall l :: 0 <= l < |r| ==> r[l] == if l < |levels| then levels[l] else []
      decreases pass - |r|
    {
      r := r + [[]];
    }
    r := r[pass := r[pass] + [item]];
  }

  /** Appending one placed item to the items seen so far. */
  lemma PlacedStep(items: seq<Placed>, p: Placed, l: nat)
    ensures LevelOf(items + [p], l) == LevelOf(items, l) + (if p.pass == l then [p.item] else [])
    ensures LevelCount(items + [p]) == if p.pass + 1 > LevelCount(items) then p.pass + 1 else LevelCount(items)
  {
    assert (items + [p])[..|items|] == items;
  }

  /** No item sits on a level at or above the count. */
  lemma {:induction false} LevelOfBeyondCount(items: seq<Placed>, l: nat)
    requires l >= LevelCount(items)
    ensures LevelOf(items, l) == []
  {
    if items != [] {
      LevelOfBeyondCount(items[..|items| - 1], l);
    }
  }

  /** The levels built so far describe exactly the items placed so far. */
  predicate Describes(levels: seq<seq<LevelItem>>, items: seq<Placed>)
  {
    |levels| == LevelCount(items) && forall l :: 0 <= l < |levels| ==> levels[l] == LevelOf(items, l)
  }

  /** Placing one more valid layer keeps the levels describing the items. */
  lemma DescribesStep(levels: seq<seq<LevelItem>>, items: seq<Placed>, p: Placed, r: seq<seq<LevelItem>>)
    requires Describes(levels, items)
    requires |r| == if p.pass + 1 > |levels| then p.pass + 1 else |levels|
    requires forall l :: 0 <= l < |r| ==>
      r[l] == (if l < |levels| then levels[l] else []) + (if l == p.pass then [p.item] else [])
    ensures Describes(r, items + [p])
  {
    forall l | 0 <= l < |r|
      ensures r[l] == LevelOf(items + [p], l)
    {
      PlacedStep(items, p, l);
      if l >= |levels| {
        LevelOfBeyondCount(items, l);
      }
    }
    PlacedStep(items, p, 0);
  }

  /** The order-finding loops: every symbol layer with a valid pass is appended to its level. */
  method BuildLevels(symbols: seq<Symbol>) returns (levels: seq<seq<LevelItem>>)
    ensures |levels| == LevelCount(Items(symbols))
    ensures forall l :: 0 <= l < |levels| ==> levels[l] == LevelOf(Items(symbols), l)
  {
    levels := [];
    var i := 0;
    while i < |symbols|
      invariant i <= |symbols|
      invariant Describes(levels, Items(symbols[..i]))
    {
      var sym := symbols[i];
      assert symbols[..i + 1][..i] == symbols[..i];
      assert Items(symbols[..i]) + LayerItems(sym, 0) == Items(symbols[..i]);
      var j := 0;
      while j < |sym.passes|
        invariant j <= |sym.passes|
        invariant Describes(levels, Items(symbols[..i]) + LayerItems(sym, j))
      {
        var level := sym.passes[j];
        ghost var placed := Items(symbols[..i]) + LayerItems(sym, j);
        if ValidPass(level) {
          var p := Placed(LevelItem(sym.id, j), level as nat);
          var next := PlaceItem(levels, p.item, p.pass);
          DescribesStep(levels, placed, p, next);
          levels := next;
          assert placed + [p] == Items(symbols[..i]) + LayerItems(sym, j + 1);
        } else {
          assert placed == Items(symbols[..i]) + LayerItems(sym, j + 1);
        }
        j := j + 1;
      }
      assert Items(symbols[..i + 1]) == Items(symbols[..i]) + LayerItems(sym, j);
      i := i + 1;
    }
    assert symbols[..i] == symbols;
  }

  /** Splitting the placed items splits every level the same way. */
  lemma {:induction false} LevelOfSplit(first: seq<Placed>, second: seq<Placed>, l: nat)
    ensures LevelOf(first + second, l) == LevelOf(first, l) + LevelOf(second, l)
    decreases |second|
  {
    if second == [] {
      assert first + second == first;
    } else {
      var n := |second|;
      assert (first + second)[..|first + second| - 1] == first + second[..n - 1];
      LevelOfSplit(first, second[..n - 1], l);
    }
  }

  /** The items of a symbol list split in two are those of the first part followed by those of the second. */
  lemma {:induction false} ItemsSplit(first: seq<Symbol>, second: seq<Symbol>)
    ensures Items(first + second) == Items(first) + Items(second)
    decreases |second|
  {
    if second == [] {
      assert first + second == first;
    } else {
      var n := |second|;
      var sym := second[n - 1];
      var whole := first + second;
      assert whole[..|whole| - 1] == first + second[..n - 1];
      assert whole[|whole| - 1] == sym;
      assert Items(whole) == Items(first + second[..n - 1]) + LayerItems(sym, |sym.passes|);
      ItemsSplit(first, second[..n - 1]);
      assert Items(second) == Items(second[..n - 1]) + LayerItems(sym, |sym.passes|);
    }
  }

  /**
   * Within every level, the items of a symbol come before those of every
   * symbol later in the renderer's symbol list.
   */
  lemma LevelsFollowSymbolOrder(symbols: seq<Symbol>, k: nat, l: nat)
    requires k <= |symbols|
    ensures LevelOf(Items(symbols), l) == LevelOf(Items(symbols[..k]), l) + LevelOf(Items(symbols[k..]), l)
  {
    assert symbols == symbols[..k] + symbols[k..];
    ItemsSplit(symbols[..k], symbols[k..]);
    LevelOfSplit(Items(symbols[..k]), Items(symbols[k..]), l);
  }

  /** Within a level, the items of one symbol come in increasing layer order, all for that symbol. */
  lemma {:induction false} LevelFollowsLayerOrder(sym: Symbol, j: nat, l: nat)
    requires j <= |sym.passes|
    ensures forall a :: 0 <= a < |LevelOf(LayerItems(sym, j), l)| ==>
      LevelOf(LayerItems(sym, j), l)[a].symbol == sym.id && LevelOf(LayerItems(sym, j), l)[a].layer < j
    ensures forall a, b :: 0 <= a < b < |LevelOf(LayerItems(sym, j), l)| ==>
      LevelOf(LayerItems(sym, j), l)[a].layer < LevelOf(LayerItems(sym, j), l)[b].layer
  {
    if j > 0 {
      LevelFollowsLayerOrder(sym, j - 1, l);
      var p := sym.passes[j - 1];
      var tail := if ValidPass(p) then [Placed(LevelItem(sym.id, j - 1), p as nat)] else [];
      LevelOfSplit(LayerItems(sym, j - 1), tail, l);
      assert LevelOf(tail, l) == if ValidPass(p) && p == l then [LevelItem(sym.id, j - 1)] else [] by {
        if ValidPass(p) {
          assert tail[..0] == [];
        }
      }
    }
  }

  /** An item is placed exactly when its symbol has that layer with a valid pass, and it sits on that pass. */
  lemma {:induction false} LayerItemsMembership(sym: Symbol, j: nat, p: Placed)
    requires j <= |sym.passes|
    ensures p in LayerItems(sym, j) <==>
      p.item.symbol == sym.id && p.item.layer < j && ValidPass(sym.passes[p.item.layer]) &&
      p.pass == sym.passes[p.item.layer]
  {
    if j > 0 {
      LayerItemsMembership(sym, j - 1, p);
    }
  }

  /** A placed item comes from some symbol of the list that has that layer with that valid pass. */
  lemma {:induction false} ItemsMembership(symbols: seq<Symbol>, p: Placed)
    ensures p in Items(symbols) <==>
      exists i :: 0 <= i < |symbols| && p in LayerItems(symbols[i], |symbols[i].passes|)
  {
    if symbols != [] {
      var n := |symbols|;
      var front := symbols[..n - 1];
      var last := symbols[n - 1];
      ItemsMembership(front, p);
      assert Items(symbols) == Items(front) + LayerItems(last, |last.passes|);
      if p in Items(symbols) {
        if p in Items(front) {
          var i :| 0 <= i < |front| && p in LayerItems(front[i], |front[i].passes|);
          assert front[i] == symbols[i];
        } else {
          assert p in LayerItems(symbols[n - 1], |symbols[n - 1].passes|);
        }
      }
      if exists i :: 0 <= i < n && p in LayerItems(symbols[i], |symbols[i].passes|) {
        var i :| 0 <= i < n && p in LayerItems(symbols[i], |symbols[i].passes|);
        if i < n - 1 {
          assert front[i] == symbols[i];
        }
      }
    }
  }

  /** An item is on level l exactly when it was placed with pass l. */
  lemma {:induction false} LevelOfMembership(items: seq<Placed>, l: nat, item: LevelItem)
    ensures item in LevelOf(items, l) <==> Placed(item, l) in items
  {
    if items != [] {
      var n := |items|;
      LevelOfMembership(items[..n - 1], l, item);
      assert items == items[..n - 1] + [items[n - 1]];
    }
  }

  /**
   * The levels hold layer j of a symbol on level l exactly when that symbol
   * is in the renderer's list, has a layer j, and that layer's rendering
   * pass is l, which lies in [0, 1000).
   */
  lemma LevelsHoldValidLayers(symbols: seq<Symbol>, item: LevelItem, l: nat)
    ensures item in LevelOf(Items(symbols), l) <==>
      ValidPass(l) &&
      exists i :: 0 <= i < |symbols| && symbols[i].id == item.symbol &&
        item.layer < |symbols[i].passes| && symbols[i].passes[item.layer] == l
  {
    LevelOfMembership(Items(symbols), l, item);
    ItemsMembership(symbols, Placed(item, l));
    forall i | 0 <= i < |symbols|
      ensures Placed(item, l) in LayerItems(symbols[i], |symbols[i].passes|) <==>
        symbols[i].id == item.symbol && item.layer < |symbols[i].passes| &&
        ValidPass(symbols[i].passes[item.layer]) && symbols[i].passes[item.layer] == l
    {
      LayerItemsMembership(symbols[i], |symbols[i].passes|, Placed(item, l));
    }
  }

  /** A placed item lies on a level below the count, and the top level holds some item. */
  lemma {:induction false} LevelCountIsOnePastTopPass(items: seq<Placed>)
    ensures forall i :: 0 <= i < |items| ==> items[i].pass < LevelCount(items)
    ensures LevelCount(items) > 0 ==> exists i :: 0 <= i < |items| && items[i].pass == LevelCount(items) - 1
  {
    if items != [] {
      var n := |items|;
      var front := items[..n - 1];
      LevelCountIsOnePastTopPass(front);
      assert forall i :: 0 <= i < n - 1 ==> items[i] == front[i];
      if LevelCount(items) != LevelCount(front) {
        assert items[n - 1].pass == LevelCount(items) - 1;
      } else if LevelCount(items) > 0 {
        var i :| 0 <= i < n - 1 && front[i].pass == LevelCount(front) - 1;
        assert items[i].pass == LevelCount(items) - 1;
      }
    }
  }

  // ---------------------------------------------------------------------
  // 3. Drawing

  /** The calls for the features of one bucket drawn with one symbol layer. */
  function FeatureCalls(features: seq<FeatureId>, layer: nat, selection: set<FeatureId>,
                        editing: bool, markerOnlyForSelection: bool): (r: seq<RenderCall>)
    ensures |r| == |features|
  {
    if features == [] then []
    else
      var f := features[|features| - 1];
      var sel := f in selection;
      FeatureCalls(features[..|features| - 1], layer, selection, editing, markerOnlyForSelection)
        + [RenderCall(f, layer, sel, DrawMarker(editing, markerOnlyForSelection, sel))]
  }

  /** The calls for one level item: its symbol's bucket drawn with the item's layer, or none without a bucket. */
  function ItemCalls(item: LevelItem, buckets: map<SymbolId, seq<FeatureId>>, selection: set<FeatureId>,
                     editing: bool, markerOnlyForSelection: bool): seq<RenderCall>
  {
    if item.symbol in buckets
    then FeatureCalls(buckets[item.symbol], item.layer, selection, editing, markerOnlyForSelection)
    else []
  }

  /** The calls for one level: its items in order, each skipped when its symbol has no bucket. */
  function LevelCalls(level: seq<LevelItem>, buckets: map<SymbolId, seq<FeatureId>>, selection: set<FeatureId>,
                      editing: bool, markerOnlyForSelection: bool): seq<RenderCall>
  {
    if level == [] then []
    else
      LevelCalls(level[..|level| - 1], buckets, selection, editing, markerOnlyForSelection)
        + ItemCalls(level[|level| - 1], buckets, selection, editing, markerOnlyForSelection)
  }

  /** The calls for the levels in order. */
  function LevelsCalls(levels: seq<seq<LevelItem>>, buckets: map<SymbolId, seq<FeatureId>>, selection: set<FeatureId>,
                       editing: bool, markerOnlyForSelection: bool): seq<RenderCall>
  {
    if levels == [] then []
    else
      LevelsCalls(levels[..|levels| - 1], buckets, selection, editing, markerOnlyForSelection)
        + LevelCalls(levels[|levels| - 1], buckets, selection, editing, markerOnlyForSelection)
  }

  /** Draws one level item: every feature of its symbol's bucket with the item's layer. */
  method DrawItem(item: LevelItem, buckets: map<SymbolId, seq<FeatureId>>, selection: set<FeatureId>,
                  editing: bool, markerOnlyForSelection: bool) returns (calls: seq<RenderCall>)
    ensures calls == ItemCalls(item, buckets, selection, editing, markerOnlyForSelection)
  {
    calls := [];
    if item.symbol !in buckets {
      return;
    }
    var lst := buckets[item.symbol];
    var k := 0;
    while k < |lst|
      invariant k <= |lst|
      invariant calls == FeatureCalls(lst[..k], item.layer, selection, editing, markerOnlyForSelection)
    {
      assert lst[..k + 1][..k] == lst[..k];
      var sel := lst[k] in selection;
      var drawMarker := editing && (!markerOnlyForSelection || sel);
      calls := calls + [RenderCall(lst[k], item.layer, sel, drawMarker)];
      k := k + 1;
    }
    assert lst[..k] == lst;
  }

  /** Draws one level: its items in order. */
  method DrawLevel(level: seq<LevelItem>, buckets: map<SymbolId, seq<FeatureId>>, selection: set<FeatureId>,
                   editing: bool, markerOnlyForSelection: bool) returns (calls: seq<RenderCall>)
    ensures calls == LevelCalls(level, buckets, selection, editing, markerOnlyForSelection)
  {
    calls := [];
    var i := 0;
    while i < |level|
      invariant i <= |level|
      invariant calls == LevelCalls(level[..i], buckets, selection, editing, markerOnlyForSelection)
    {
      assert level[..i + 1][..i] == level[..i];
      var more := DrawItem(level[i], buckets, selection, editing, markerOnlyForSelection);
      calls := calls + more;
      i := i + 1;
    }
    assert level[..i] == level;
  }

  /** The drawing phase: levels in order, items of a level in order. */
  method DrawLevels(levels: seq<seq<LevelItem>>, buckets: map<SymbolId, seq<FeatureId>>, selection: set<FeatureId>,
                    editing: bool, markerOnlyForSelection: bool) returns (calls: seq<RenderCall>)
    ensures calls == LevelsCalls(levels, buckets, selection, editing, markerOnlyForSelection)
  {
    calls := [];
    var l := 0;
    while l < |levels|
      invariant l <= |levels|
      invariant calls == LevelsCalls(levels[..l], buckets, selection, editing, markerOnlyForSelection)
    {
      assert levels[..l + 1][..l] == levels[..l];
      var more := DrawLevel(levels[l], buckets, selection, editing, markerOnlyForSelection);
      calls := calls + more;
      l := l + 1;
    }
    assert levels[..l] == levels;
  }

  /** Each call of a bucket carries the feature's selection state and the matching marker decision. */
  lemma {:induction false} FeatureCallsMembership(features: seq<FeatureId>, layer: nat, selection: set<FeatureId>,
                                                  editing: bool, markerOnlyForSelection: bool, c: RenderCall)
    ensures c in FeatureCalls(features, layer, selection, editing, markerOnlyForSelection) <==>
      c.feature in features && c.layer == layer && c.selected == (c.feature in selection) &&
      c.drawMarker == DrawMarker(editing, markerOnlyForSelection, c.selected)
  {
    if features != [] {
      var n := |features|;
      FeatureCallsMembership(features[..n - 1], layer, selection, editing, markerOnlyForSelection, c);
      assert features == features[..n - 1] + [features[n - 1]];
    }
  }

  /** A call is made for a level exactly when one of its items has a bucket that the call belongs to. */
  lemma {:induction false} LevelCallsMembership(level: seq<LevelItem>, buckets: map<SymbolId, seq<FeatureId>>,
                                                selection: set<FeatureId>, editing: bool, markerOnlyForSelection: bool,
                                                c: RenderCall)
    ensures c in LevelCalls(level, buckets, selection, editing, markerOnlyForSelection) <==>
      exists i :: 0 <= i < |level| && c in ItemCalls(level[i], buckets, selection, editing, markerOnlyForSelection)
  {
    if level != [] {
      var n := |level|;
      var front := level[..n - 1];
      var own := ItemCalls(level[n - 1], buckets, selection, editing, markerOnlyForSelection);
      LevelCallsMembership(front, buckets, selection, editing, markerOnlyForSelection, c);
      assert LevelCalls(level, buckets, selection, editing, markerOnlyForSelection) ==
        LevelCalls(front, buckets, selection, editing, markerOnlyForSelection) + own;
      if c in LevelCalls(level, buckets, selection, editing, markerOnlyForSelection) {
        if c in LevelCalls(front, buckets, selection, editing, markerOnlyForSelection) {
          var i :| 0 <= i < |front| && c in ItemCalls(front[i], buckets, selection, editing, markerOnlyForSelection);
          assert front[i] == level[i];
        }
      }
      if exists i :: 0 <= i < n && c in ItemCalls(level[i], buckets, selection, editing, markerOnlyForSelection) {
        var i :| 0 <= i < n && c in ItemCalls(level[i], buckets, selection, editing, markerOnlyForSelection);
        if i < n - 1 {
          assert front[i] == level[i];
        }
      }
    }
  }

  /** A call is made exactly when some level holds an item whose bucket the call belongs to. */
  lemma {:induction false} LevelsCallsMembership(levels: seq<seq<LevelItem>>, buckets: map<SymbolId, seq<FeatureId>>,
                                                 selection: set<FeatureId>, editing: bool, markerOnlyForSelection: bool,
                                                 c: RenderCall)
    ensures c in LevelsCalls(levels, buckets, selection, editing, markerOnlyForSelection) <==>
      exists l :: 0 <= l < |levels| && c in LevelCalls(levels[l], buckets, selection, editing, markerOnlyForSelection)
  {
    if levels != [] {
      var n := |levels|;
      var front := levels[..n - 1];
      var own := LevelCalls(levels[n - 1], buckets, selection, editing, markerOnlyForSelection);
      LevelsCallsMembership(front, buckets, selection, editing, markerOnlyForSelection, c);
      assert LevelsCalls(levels, buckets, selection, editing, markerOnlyForSelection) ==
        LevelsCalls(front, buckets, selection, editing, markerOnlyForSelection) + own;
      if c in LevelsCalls(levels, buckets, selection, editing, markerOnlyForSelection) {
        if c in LevelsCalls(front, buckets, selection, editing, markerOnlyForSelection) {
          var l :| 0 <= l < |front| && c in LevelCalls(front[l], buckets, selection, editing, markerOnlyForSelection);
          assert front[l] == levels[l];
        }
      }
      if exists l :: 0 <= l < n && c in LevelCalls(levels[l], buckets, selection, editing, markerOnlyForSelection) {
        var l :| 0 <= l < n && c in LevelCalls(levels[l], buckets, selection, editing, markerOnlyForSelection);
        if l < n - 1 {
          assert front[l] == levels[l];
        }
      }
    }
  }
}
