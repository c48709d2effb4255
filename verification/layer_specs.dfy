/**
 * Reference definitions for the vector layer's bookkeeping: the display
 * field heuristic, selection toggling, and overlay removal.  The methods of
 * VectorLayer.Layer are proved to compute these; the lemmas here say what
 * the definitions mean.
 */
module LayerSpecs {
  import opened Strings

  type FeatureId = int

  /** The ids of a feature list, as a set. */
  function Ids(ids: seq<FeatureId>): (r: set<FeatureId>)
    ensures forall x :: x in r <==> x in ids
  {
    set x | x in ids
  }

  // ---------------------------------------------------------------------
  // setDisplayField
  // ---------------------------------------------------------------------

  /** The two kinds of field name the display field heuristic looks for. */
  datatype FieldKind = NameLike | IdLike

  /**
   * A field name of the kind: one containing "name" or "descrip", or one
   * containing "id".  The search is case sensitive (the heuristic passes
   * `false` where QString::indexOf expects a start position).
   */
  predicate OfKind(field: string, kind: FieldKind)
  {
    match kind
    case NameLike => IndexOf(field, "name") > -1 || IndexOf(field, "descrip") > -1
    case IdLike => IndexOf(field, "id") > -1
  }

  /**
   * The field the heuristic remembers after scanning `fields` in order: the
   * remembered name is only set while it is still empty.
   */
  function FirstOfKind(fields: seq<string>, kind: FieldKind): string
  {
    if fields == [] then ""
    else
      var found := FirstOfKind(fields[..|fields| - 1], kind);
      var f := fields[|fields| - 1];
      if found == "" && OfKind(f, kind) then f else found
  }

  /** A name of either kind is never empty, since it contains a non-empty word. */
  lemma OfKindIsNonEmpty(field: string, kind: FieldKind)
    requires OfKind(field, kind)
    ensures field != ""
  {
    IndexOfIsFirstOccurrence(field, "name");
    IndexOfIsFirstOccurrence(field, "descrip");
    IndexOfIsFirstOccurrence(field, "id");
  }

  /**
   * The remembered field is the first field of the kind, and it is empty
   * exactly when no field is of the kind.
   */
  lemma {:induction false} FirstOfKindIsFirst(fields: seq<string>, kind: FieldKind)
    ensures var r := FirstOfKind(fields, kind);
      (r == "" <==> forall j :: 0 <= j < |fields| ==> !OfKind(fields[j], kind)) &&
      (r != "" ==> exists i :: 0 <= i < |fields| && fields[i] == r && OfKind(r, kind) &&
                     forall j :: 0 <= j < i ==> !OfKind(fields[j], kind))
  {
    if fields != [] {
      var n := |fields|;
      var front := fields[..n - 1];
      var f := fields[n - 1];
      FirstOfKindIsFirst(front, kind);
      var found := FirstOfKind(front, kind);
      assert forall j :: 0 <= j < n - 1 ==> front[j] == fields[j];
      if found == "" && OfKind(f, kind) {
        OfKindIsNonEmpty(f, kind);
        assert fields[n - 1] == f;
      } else if found != "" {
        var i :| 0 <= i < n - 1 && front[i] == found && OfKind(found, kind) &&
                 forall j :: 0 <= j < i ==> !OfKind(front[j], kind);
        assert fields[i] == found;
      }
    }
  }

  /**
   * The display field setDisplayField settles on, given the current one and
   * the argument: a non-empty argument as it is; otherwise, with no fields,
   * the current one; otherwise the first name-like field, the first id-like
   * field, or the first field, in that order of preference.
   */
  function DisplayFieldChoice(fields: seq<string>, current: string, requested: string): string
  {
    if requested != "" then requested
    else if |fields| == 0 then current
    else if FirstOfKind(fields, NameLike) != "" then FirstOfKind(fields, NameLike)
    else if FirstOfKind(fields, IdLike) != "" then FirstOfKind(fields, IdLike)
    else fields[0]
  }

  /**
   * Without a requested name and with at least one field, the display field
   * becomes one of the fields; it is the first name-like field if there is
   * one, else the first id-like field if there is one, else the first field.
   */
  lemma DisplayFieldChoiceIsPreferredField(fields: seq<string>, current: string)
    requires |fields| > 0
    ensures DisplayFieldChoice(fields, current, "") in fields
    ensures (exists i :: 0 <= i < |fields| && OfKind(fields[i], NameLike)) ==>
      exists i :: 0 <= i < |fields| && fields[i] == DisplayFieldChoice(fields, current, "") &&
        OfKind(fields[i], NameLike) && forall j :: 0 <= j < i ==> !OfKind(fields[j], NameLike)
    ensures (forall j :: 0 <= j < |fields| ==> !OfKind(fields[j], NameLike)) &&
            (exists i :: 0 <= i < |fields| && OfKind(fields[i], IdLike)) ==>
      exists i :: 0 <= i < |fields| && fields[i] == DisplayFieldChoice(fields, current, "") &&
        OfKind(fields[i], IdLike) && forall j :: 0 <= j < i ==> !OfKind(fields[j], IdLike)
    ensures (forall j :: 0 <= j < |fields| ==> !OfKind(fields[j], NameLike) && !OfKind(fields[j], IdLike)) ==>
      DisplayFieldChoice(fields, current, "") == fields[0]
  {
    FirstOfKindIsFirst(fields, NameLike);
    FirstOfKindIsFirst(fields, IdLike);
  }

  // ---------------------------------------------------------------------
  // invertSelectionInRectangle
  // ---------------------------------------------------------------------

  /** The selection after toggling each id in turn: deselected when selected, selected otherwise. */
  function ToggleAll(selection: set<FeatureId>, ids: seq<FeatureId>): set<FeatureId>
  {
    if ids == [] then selection
    else
      var before := ToggleAll(selection, ids[..|ids| - 1]);
      var fid := ids[|ids| - 1];
      if fid in before then before - {fid} else before + {fid}
  }

  /** The ids occur at most once each. */
  predicate Distinct(ids: seq<FeatureId>)
  {
    forall i, j :: 0 <= i < j < |ids| ==> ids[i] != ids[j]
  }

  /**
   * When every feature comes up once, toggling them all gives the old
   * selection symmetric-differenced with the ids.
   */
  lemma {:induction false} ToggleAllIsSymmetricDifference(selection: set<FeatureId>, ids: seq<FeatureId>)
    requires Distinct(ids)
    ensures ToggleAll(selection, ids) == (selection - Ids(ids)) + (Ids(ids) - selection)
  {
    if ids != [] {
      var n := |ids|;
      var front := ids[..n - 1];
      var fid := ids[n - 1];
      assert Distinct(front);
      ToggleAllIsSymmetricDifference(selection, front);
      assert fid !in front;
      assert ids == front + [fid];
      assert Ids(ids) == Ids(front) + {fid};
    }
  }

  /** Toggling the same ids twice gives back the selection one started from. */
  lemma {:induction false} ToggleTwiceRestores(selection: set<FeatureId>, ids: seq<FeatureId>)
    requires Distinct(ids)
    ensures ToggleAll(ToggleAll(selection, ids), ids) == selection
  {
    ToggleAllIsSymmetricDifference(selection, ids);
    ToggleAllIsSymmetricDifference(ToggleAll(selection, ids), ids);
  }

  // ---------------------------------------------------------------------
  // removeOverlay / findOverlayByType
  // ---------------------------------------------------------------------

  /** A vector overlay, known to the layer by its type name. */
  datatype Overlay = Overlay(id: nat, typeName: string)

  /** The overlays whose type name is not `typeName`, in their order. */
  function Without(overlays: seq<Overlay>, typeName: string): seq<Overlay>
  {
    if overlays == [] then []
    else (if overlays[0].typeName == typeName then [] else [overlays[0]]) + Without(overlays[1..], typeName)
  }

  /** The removal from index i on decides about the overlay at i and goes on with the rest. */
  lemma WithoutStep(overlays: seq<Overlay>, i: nat, typeName: string)
    requires i < |overlays|
    ensures Without(overlays[i..], typeName) ==
      (if overlays[i].typeName == typeName then [] else [overlays[i]]) + Without(overlays[i + 1..], typeName)
  {
    assert overlays[i..][1..] == overlays[i + 1..];
  }

  /** An overlay survives the removal exactly when it was there and has another type name. */
  lemma {:induction false} WithoutMembership(overlays: seq<Overlay>, typeName: string, o: Overlay)
    ensures o in Without(overlays, typeName) <==> o in overlays && o.typeName != typeName
  {
    if overlays != [] {
      WithoutMembership(overlays[1..], typeName, o);
      assert overlays == [overlays[0]] + overlays[1..];
    }
  }

  /** Removal keeps every overlay of another type name, so it only shortens the list by the ones removed. */
  lemma {:induction false} WithoutKeepsOthers(overlays: seq<Overlay>, typeName: string)
    requires forall i :: 0 <= i < |overlays| ==> overlays[i].typeName != typeName
    ensures Without(overlays, typeName) == overlays
  {
    if overlays != [] {
      WithoutKeepsOthers(overlays[1..], typeName);
    }
  }

  /** Removing a type name twice is the same as removing it once. */
  lemma {:induction false} WithoutIsIdempotent(overlays: seq<Overlay>, typeName: string)
    ensures Without(Without(overlays, typeName), typeName) == Without(overlays, typeName)
  {
    var r := Without(overlays, typeName);
    forall i | 0 <= i < |r|
      ensures r[i].typeName != typeName
    {
      WithoutMembership(overlays, typeName, r[i]);
    }
    WithoutKeepsOthers(r, typeName);
  }

  /** The index of the first overlay with the type name, or |overlays| when there is none. */
  function FirstOfType(overlays: seq<Overlay>, typeName: string): (k: nat)
    ensures k <= |overlays|
    ensures k < |overlays| ==> overlays[k].typeName == typeName
    ensures forall j :: 0 <= j < k ==> overlays[j].typeName != typeName
  {
    if overlays == [] then 0
    else if overlays[0].typeName == typeName then 0
    else 1 + FirstOfType(overlays[1..], typeName)
  }

  /** After the removal no overlay of the type name is found. */
  lemma NothingFoundAfterRemoval(overlays: seq<Overlay>, typeName: string)
    ensures FirstOfType(Without(overlays, typeName), typeName) == |Without(overlays, typeName)|
  {
    var r := Without(overlays, typeName);
    var k := FirstOfType(r, typeName);
    if k < |r| {
      WithoutMembership(overlays, typeName, r[k]);
    }
  }
}
