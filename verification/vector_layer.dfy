/**
 * The state QgsVectorLayer keeps about its features and fields, and the
 * operations that update it: the selection set, the edit session (the edit
 * buffer, the read-only flag, the commit errors), the per-field settings
 * looked up by field name, the display field and the overlays.
 *
 * The data provider and the edit buffer are only seen through what the
 * layer asks of them: the provider's geometry type, capabilities and
 * feature count are fields of Provider, and whatever the edit buffer or the
 * edit utilities answer is a parameter of the operation that delegates to
 * them.  Feature iterators become the sequence of ids they yield.
 */
module VectorLayer {
  import opened Common
  import opened Strings
  import opened GeometryClass
  import opened LayerSpecs

  /** What the layer reads from its data provider. */
  datatype Provider = Provider(
    wkbType: nat,
    canEdit: bool,      // any of the editing capabilities
    canDelete: bool,    // the DeleteFeatures capability
    featureCount: int)

  /** The pending changes of an edit session, counted. */
  datatype EditBuffer = EditBuffer(addedCount: nat, deletedCount: nat)

  /** An edit session with no pending changes. */
  const EmptyBuffer := EditBuffer(0, 0)

  /** QgsVectorLayer::EditType; only LineEdit, the default, matters to the layer itself. */
  datatype EditType = LineEdit | OtherEditType(code: nat)

  /** The texts a checkbox field stores for checked and unchecked. */
  datatype CheckedState = CheckedState(checked: string, unchecked: string)

  /** The default checked state: "1" and "0". */
  const DefaultCheckedState := CheckedState("1", "0")

  /** What deleteSelectedFeatures does: return a value, or spin for ever on a feature the buffer refuses to delete. */
  datatype DeleteOutcome = Returned(ok: bool) | NeverReturns

  /** The message commitChanges records without a provider. */
  const NoProviderError := "ERROR: no provider"

  /** The message commitChanges records outside an edit session. */
  const NotEditableError := "ERROR: layer not editable"

  class Layer {
    var provider: Option<Provider>
    var readOnly: bool
    var editBuffer: Option<EditBuffer>
    var commitErrors: seq<string>
    var selected: set<FeatureId>
    var displayField: string
    var fields: seq<string>
    var editTypes: map<string, EditType>
    var fieldEditables: map<string, bool>
    var checkedStates: map<string, CheckedState>
    var aliases: map<string, string>
    var overlays: seq<Overlay>

    /** A layer over a provider (or none) with the given fields, not in an edit session, with nothing selected or configured. */
    constructor (provider: Option<Provider>, fields: seq<string>)
      ensures this.provider == provider && this.fields == fields
      ensures !readOnly && editBuffer.None? && commitErrors == [] && selected == {}
      ensures displayField == "" && overlays == []
      ensures editTypes == map[] && fieldEditables == map[] && checkedStates == map[] && aliases == map[]
    {
      this.provider := provider;
      this.fields := fields;
      readOnly := false;
      editBuffer := None;
      commitErrors := [];
      selected := {};
      displayField := "";
      editTypes := map[];
      fieldEditables := map[];
      checkedStates := map[];
      aliases := map[];
      overlays := [];
    }

    // -------------------------------------------------------------------
    // Geometry class
    // -------------------------------------------------------------------

    /** The WKB type code the provider reports, or None without a provider. */
    function ProviderType(): Option<nat>
      reads this
    {
      if provider.Some? then Some(provider.value.wkbType) else None
    }

    /** hasGeometryType, for this layer's provider. */
    predicate HasGeometry()
      reads this
    {
      HasGeometryType(ProviderType())
    }

    // -------------------------------------------------------------------
    // Selection
    // -------------------------------------------------------------------

    /** select(fid): adds one feature to the selection. */
    method Select(fid: FeatureId)
      modifies this`selected
      ensures selected == old(selected) + {fid}
    {
      selected := selected + {fid};
    }

    /** deselect(fid): takes one feature out of the selection. */
    method Deselect(fid: FeatureId)
      modifies this`selected
      ensures selected == old(selected) - {fid}
    {
      selected := selected - {fid};
    }

    /** removeSelection: nothing stays selected. */
    method RemoveSelection()
      modifies this`selected
      ensures selected == {}
    {
      if |selected| == 0 {
        return;
      }
      selected := {};
    }

    /** setSelectedFeatures: the selection becomes exactly the given ids. */
    method SetSelectedFeatures(ids: set<FeatureId>)
      modifies this`selected
      ensures selected == ids
    {
      selected := ids;
    }

    /** Selects each of the ids in turn. */
    method SelectEach(ids: seq<FeatureId>)
      modifies this`selected
      ensures selected == old(selected) + Ids(ids)
    {
      var k := 0;
      while k < |ids|
        invariant k <= |ids|
        invariant selected == old(selected) + Ids(ids[..k])
      {
        assert Ids(ids[..k + 1]) == Ids(ids[..k]) + {ids[k]} by {
          assert ids[..k + 1] == ids[..k] + [ids[k]];
        }
        Select(ids[k]);
        k := k + 1;
      }
      assert ids[..k] == ids;
    }

    /** Removes each of the ids from the selection, in no particular order. */
    method DeselectEach(ids: set<FeatureId>)
      modifies this`selected
      ensures selected == old(selected) - ids
    {
      var rest := ids;
      while rest != {}
        invariant rest <= ids
        invariant selected == old(selected) - (ids - rest)
        decreases |rest|
      {
        var fid := AnyMember(rest);
        Deselect(fid);
        rest := rest - {fid};
      }
    }

    /**
     * select(rect, lock): the features the iterator yields for the rectangle
     * are selected; without the lock they replace the selection, with it they
     * are added to it.
     */
    method SelectInRectangle(idsInRect: seq<FeatureId>, lock: bool)
      modifies this`selected
      ensures selected == (if lock then old(selected) else {}) + Ids(idsInRect)
    {
      if !lock {
        RemoveSelection();
      }
      SelectEach(idsInRect);
    }

    /**
     * invertSelection: every feature the unfiltered iterator yields is
     * selected, and then every previously selected id is removed.
     */
    method InvertSelection(allIds: seq<FeatureId>)
      modifies this`selected
      ensures selected == Ids(allIds) - old(selected)
    {
      var previous := selected;
      RemoveSelection();
      SelectEach(allIds);
      DeselectEach(previous);
    }

    /**
     * invertSelectionInRectangle: each feature the iterator yields for the
     * rectangle is deselected if selected and selected otherwise.
     */
    method InvertSelectionInRectangle(idsInRect: seq<FeatureId>)
      modifies this`selected
      ensures selected == ToggleAll(old(selected), idsInRect)
    {
      var k := 0;
      while k < |idsInRect|
        invariant k <= |idsInRect|
        invariant selected == ToggleAll(old(selected), idsInRect[..k])
      {
        assert idsInRect[..k + 1][..k] == idsInRect[..k];
        if idsInRect[k] in selected {
          Deselect(idsInRect[k]);
        } else {
          Select(idsInRect[k]);
        }
        k := k + 1;
      }
      assert idsInRect[..k] == idsInRect;
    }

    // -------------------------------------------------------------------
    // Edit session
    // -------------------------------------------------------------------

    /** isEditable: an edit session is underway and there is a provider. */
    predicate IsEditable()
      reads this
    {
      editBuffer.Some? && provider.Some?
    }

    /**
     * startEditing: refused, changing nothing, without a provider, without
     * an editing capability, on a read-only layer or when a session is
     * already underway; otherwise a session with no pending changes starts.
     */
    method StartEditing() returns (ok: bool)
      modifies this`editBuffer
      ensures ok <==> provider.Some? && provider.value.canEdit && !readOnly && old(editBuffer).None?
      ensures ok ==> editBuffer == Some(EmptyBuffer) && IsEditable()
      ensures ok ==> PendingFeatureCount() == provider.value.featureCount
      ensures !ok ==> editBuffer == old(editBuffer)
    {
      if provider.None? {
        return false;
      }
      if !provider.value.canEdit {
        return false;
      }
      if readOnly {
        return false;
      }
      if editBuffer.Some? {
        return false;
      }
      editBuffer := Some(EmptyBuffer);
      return true;
    }

    /** setReadOnly: refused when making the layer read-only during an edit session; otherwise sets the flag. */
    method SetReadOnly(readonly: bool) returns (ok: bool)
      modifies this`readOnly
      ensures ok <==> !(readonly && editBuffer.Some?)
      ensures readOnly == if ok then readonly else old(readOnly)
    {
      if readonly && editBuffer.Some? {
        return false;
      }
      readOnly := readonly;
      return true;
    }

    /**
     * commitChanges: the previous errors are cleared; without a provider or
     * outside an edit session one error message is recorded and nothing is
     * committed; otherwise the buffer's own result and messages are taken,
     * and the session ends exactly when the buffer committed.
     */
    method CommitChanges(bufferCommits: bool, bufferErrors: seq<string>) returns (ok: bool)
      modifies this`editBuffer, this`commitErrors
      ensures ok <==> provider.Some? && old(editBuffer).Some? && bufferCommits
      ensures provider.None? ==> commitErrors == [NoProviderError]
      ensures provider.Some? && old(editBuffer).None? ==> commitErrors == [NotEditableError]
      ensures provider.Some? && old(editBuffer).Some? ==> commitErrors == bufferErrors
      ensures editBuffer == if ok then None else old(editBuffer)
      ensures ok ==> PendingFeatureCount() == provider.value.featureCount
    {
      commitErrors := [];
      if provider.None? {
        commitErrors := commitErrors + [NoProviderError];
        return false;
      }
      if editBuffer.None? {
        commitErrors := commitErrors + [NotEditableError];
        return false;
      }
      commitErrors := commitErrors + bufferErrors;
      ok := bufferCommits;
      if ok {
        editBuffer := None;
      }
    }

    /**
     * rollBack(deleteBuffer): refused outside an edit session; otherwise the
     * pending changes are dropped, and the session ends only when asked to
     * delete the buffer.
     */
    method RollBack(deleteBuffer: bool) returns (ok: bool)
      modifies this`editBuffer
      ensures ok <==> old(editBuffer).Some?
      ensures ok && deleteBuffer ==> editBuffer.None?
      ensures ok && !deleteBuffer ==> editBuffer == Some(EmptyBuffer)
      ensures ok && provider.Some? ==> PendingFeatureCount() == provider.value.featureCount
      ensures !ok ==> editBuffer == old(editBuffer)
    {
      if editBuffer.None? {
        return false;
      }
      editBuffer := Some(EmptyBuffer);
      if deleteBuffer {
        editBuffer := None;
      }
      return true;
    }

    /**
     * pendingFeatureCount: the provider's count, corrected by the features
     * added and deleted in the edit session if there is one.  The provider
     * is used without a check.
     */
    function PendingFeatureCount(): (count: int)
      requires provider.Some?
      reads this
      ensures editBuffer.None? ==> count == provider.value.featureCount
      ensures editBuffer.Some? ==>
        count - provider.value.featureCount == editBuffer.value.addedCount - editBuffer.value.deletedCount
    {
      provider.value.featureCount +
        (if editBuffer.Some? then editBuffer.value.addedCount - editBuffer.value.deletedCount else 0)
    }

    // -------------------------------------------------------------------
    // Edit wrappers: each delegates to the edit buffer or the edit utilities
    // when editable, and answers a fixed value otherwise.
    // -------------------------------------------------------------------

    /**
     * addFeature, insertVertex, moveVertex, deleteVertex, changeGeometry,
     * changeAttributeValue, addAttribute and deleteAttribute: false outside
     * an edit session or without a provider, the delegate's answer otherwise.
     */
    function DelegatedEdit(delegated: bool): (r: bool)
      reads this
      ensures r ==> IsEditable()
      ensures IsEditable() ==> r == delegated
    {
      IsEditable() && delegated
    }

    /** addRing: 6 when not editable, the delegate's code otherwise. */
    function AddRing(delegated: int): (code: int)
      reads this
      ensures !IsEditable() ==> code == 6
      ensures IsEditable() ==> code == delegated
    {
      if !IsEditable() then 6 else delegated
    }

    /**
     * addPart: 7 when not editable, 4 with no selected feature, 5 with more
     * than one, and the delegate's code for the single selected feature.
     */
    function AddPart(delegated: int): (code: int)
      reads this
      ensures !IsEditable() ==> code == 7
      ensures IsEditable() && |selected| == 0 ==> code == 4
      ensures IsEditable() && |selected| > 1 ==> code == 5
      ensures IsEditable() && |selected| == 1 ==> code == delegated
    {
      if !IsEditable() then 7
      else if |selected| < 1 then 4
      else if |selected| > 1 then 5
      else delegated
    }

    /** translateFeature, splitFeatures and both addTopologicalPoints: -1 when not editable, the delegate's code otherwise. */
    function DelegatedEditCode(delegated: int): (code: int)
      reads this
      ensures !IsEditable() ==> code == -1
      ensures IsEditable() ==> code == delegated
    {
      if !IsEditable() then -1 else delegated
    }

    /**
     * deleteFeature: false outside an edit session (the provider is not
     * consulted); otherwise the buffer's answer, and a deleted feature
     * leaves the selection.
     */
    method DeleteFeature(fid: FeatureId, bufferDeletes: bool) returns (ok: bool)
      modifies this`selected
      ensures ok <==> editBuffer.Some? && bufferDeletes
      ensures selected == if ok then old(selected) - {fid} else old(selected)
    {
      if editBuffer.None? {
        return false;
      }
      ok := bufferDeletes;
      if ok {
        selected := selected - {fid};
      }
    }

    /**
     * addFeatures(features, makeSelected): false when not editable, changing
     * nothing; otherwise the buffer's answer, and when asked the selection
     * becomes the added features whatever the buffer answered.
     */
    method AddFeatures(ids: seq<FeatureId>, makeSelected: bool, bufferAdds: bool) returns (ok: bool)
      modifies this`selected
      ensures ok <==> IsEditable() && bufferAdds
      ensures selected == if IsEditable() && makeSelected then Ids(ids) else old(selected)
    {
      if editBuffer.None? || provider.None? {
        return false;
      }
      ok := bufferAdds;
      if makeSelected {
        selected := {};
        var k := 0;
        while k < |ids|
          invariant k <= |ids|
          invariant selected == Ids(ids[..k])
        {
          assert Ids(ids[..k + 1]) == Ids(ids[..k]) + {ids[k]} by {
            assert ids[..k + 1] == ids[..k] + [ids[k]];
          }
          selected := selected + {ids[k]};
          k := k + 1;
        }
        assert ids[..k] == ids;
      }
    }

    /**
     * deleteSelectedFeatures: false without the delete capability or when
     * not editable, true at once with nothing selected; otherwise it deletes
     * selected features one at a time until none is left.  A feature the
     * buffer refuses to delete stays selected, so the loop then never ends.
     * The provider is used without a check.
     */
    method DeleteSelectedFeatures(bufferDeletes: FeatureId -> bool) returns (outcome: DeleteOutcome)
      requires provider.Some?
      modifies this`selected
      ensures !provider.value.canDelete || !IsEditable() ==> outcome == Returned(false) && selected == old(selected)
      ensures provider.value.canDelete && IsEditable() ==>
        (outcome == NeverReturns <==> exists fid :: fid in old(selected) && !bufferDeletes(fid))
      ensures outcome == Returned(true) ==> selected == {}
      ensures selected <= old(selected)
    {
      if !provider.value.canDelete {
        return Returned(false);
      }
      if !IsEditable() {
        return Returned(false);
      }
      if |selected| == 0 {
        return Returned(true);
      }
      while |selected| > 0
        invariant selected <= old(selected)
        invariant forall fid :: fid in old(selected) && fid !in selected ==> bufferDeletes(fid)
        decreases |selected|
      {
        var fid := AnyMember(selected);
        var deleted := DeleteFeature(fid, bufferDeletes(fid));
        if !deleted {
          return NeverReturns;
        }
      }
      return Returned(true);
    }

    // -------------------------------------------------------------------
    // Per-field settings, keyed by field name
    // -------------------------------------------------------------------

    /** The index names one of the layer's fields. */
    predicate ValidField(idx: int)
      reads this
    {
      0 <= idx < |fields|
    }

    /** editType: the edit type stored for the field's name, LineEdit when there is none or the index is out of range. */
    function GetEditType(idx: int): (t: EditType)
      reads this
      ensures ValidField(idx) && fields[idx] in editTypes ==> t == editTypes[fields[idx]]
      ensures !(ValidField(idx) && fields[idx] in editTypes) ==> t == LineEdit
    {
      if ValidField(idx) && fields[idx] in editTypes then editTypes[fields[idx]] else LineEdit
    }

    /**
     * setEditType: stores the edit type under the field's name, so every
     * field of that name reads it back; an out-of-range index changes nothing.
     */
    method SetEditType(idx: int, t: EditType)
      modifies this`editTypes
      ensures ValidField(idx) ==> editTypes == old(editTypes)[fields[idx] := t]
      ensures !ValidField(idx) ==> editTypes == old(editTypes)
      ensures ValidField(idx) ==> forall j :: ValidField(j) && fields[j] == fields[idx] ==> GetEditType(j) == t
      ensures forall j :: ValidField(j) && (!ValidField(idx) || fields[j] != fields[idx]) ==>
        GetEditType(j) == old(GetEditType(j))
    {
      if ValidField(idx) {
        editTypes := editTypes[fields[idx] := t];
      }
    }

    /** checkedState: the pair stored for the field's name, ("1", "0") when there is none or the index is out of range. */
    function GetCheckedState(idx: int): (s: CheckedState)
      reads this
      ensures ValidField(idx) && fields[idx] in checkedStates ==> s == checkedStates[fields[idx]]
      ensures !(ValidField(idx) && fields[idx] in checkedStates) ==> s == DefaultCheckedState
    {
      if ValidField(idx) && fields[idx] in checkedStates then checkedStates[fields[idx]] else DefaultCheckedState
    }

    /** setCheckedState: stores the pair under the field's name; an out-of-range index changes nothing. */
    method SetCheckedState(idx: int, checked: string, unchecked: string)
      modifies this`checkedStates
      ensures ValidField(idx) ==> checkedStates == old(checkedStates)[fields[idx] := CheckedState(checked, unchecked)]
      ensures !ValidField(idx) ==> checkedStates == old(checkedStates)
      ensures ValidField(idx) ==> GetCheckedState(idx) == CheckedState(checked, unchecked)
    {
      if ValidField(idx) {
        checkedStates := checkedStates[fields[idx] := CheckedState(checked, unchecked)];
      }
    }

    /**
     * fieldEditable: false for an index out of range or a field with no
     * edit type; otherwise the stored flag, which is first created as false
     * when missing (a lookup through QMap's operator[]).
     */
    method FieldEditable(idx: int) returns (editable: bool)
      modifies this`fieldEditables
      ensures !(ValidField(idx) && fields[idx] in editTypes) ==> !editable && fieldEditables == old(fieldEditables)
      ensures ValidField(idx) && fields[idx] in editTypes ==>
        var name := fields[idx];
        && name in fieldEditables
        && editable == fieldEditables[name]
        && (name in old(fieldEditables) ==> fieldEditables == old(fieldEditables))
        && (name !in old(fieldEditables) ==> fieldEditables == old(fieldEditables)[name := false])
    {
      if ValidField(idx) && fields[idx] in editTypes {
        var name := fields[idx];
        if name !in fieldEditables {
          fieldEditables := fieldEditables[name := false];
        }
        editable := fieldEditables[name];
      } else {
        editable := false;
      }
    }

    /** setFieldEditable: stores the flag only for a field in range that has an edit type. */
    method SetFieldEditable(idx: int, editable: bool)
      modifies this`fieldEditables
      ensures ValidField(idx) && fields[idx] in editTypes ==>
        fieldEditables == old(fieldEditables)[fields[idx] := editable]
      ensures !(ValidField(idx) && fields[idx] in editTypes) ==> fieldEditables == old(fieldEditables)
    {
      if ValidField(idx) && fields[idx] in editTypes {
        fieldEditables := fieldEditables[fields[idx] := editable];
      }
    }

    /** attributeAlias: "" for an index out of range, otherwise the alias stored for the field's name or "". */
    function AttributeAlias(idx: int): (alias: string)
      reads this
      ensures !ValidField(idx) || fields[idx] !in aliases ==> alias == ""
      ensures ValidField(idx) && fields[idx] in aliases ==> alias == aliases[fields[idx]]
    {
      if !ValidField(idx) then ""
      else if fields[idx] in aliases then aliases[fields[idx]]
      else ""
    }

    /** addAttributeAlias: stores the alias under the field's name; an out-of-range index changes nothing. */
    method AddAttributeAlias(idx: int, alias: string)
      modifies this`aliases
      ensures ValidField(idx) ==> aliases == old(aliases)[fields[idx] := alias]
      ensures !ValidField(idx) ==> aliases == old(aliases)
      ensures ValidField(idx) ==> AttributeAlias(idx) == alias
    {
      if ValidField(idx) {
        aliases := aliases[fields[idx] := alias];
      }
    }

    /**
     * attributeDisplayName: the alias when it is not empty; otherwise the
     * field's name, or "" for an index out of range.
     */
    function AttributeDisplayName(idx: int): (name: string)
      reads this
      ensures AttributeAlias(idx) != "" ==> name == AttributeAlias(idx)
      ensures AttributeAlias(idx) == "" && ValidField(idx) ==> name == fields[idx]
      ensures !ValidField(idx) ==> name == ""
    {
      var alias := AttributeAlias(idx);
      if alias == "" && ValidField(idx) then fields[idx] else alias
    }

    /**
     * fieldNameIndex: the index of the first field whose name equals the
     * given one ignoring case, or -1 when there is none.
     */
    method FieldNameIndex(name: string) returns (idx: int)
      ensures -1 <= idx < |fields|
      ensures idx == -1 <==> forall j :: 0 <= j < |fields| ==> !EqualsIgnoringCase(fields[j], name)
      ensures idx >= 0 ==> EqualsIgnoringCase(fields[idx], name)
      ensures forall j :: 0 <= j < idx ==> !EqualsIgnoringCase(fields[j], name)
    {
      var k := 0;
      while k < |fields|
        invariant k <= |fields|
        invariant forall j :: 0 <= j < k ==> !EqualsIgnoringCase(fields[j], name)
      {
        if EqualsIgnoringCase(fields[k], name) {
          return k;
        }
        k := k + 1;
      }
      return -1;
    }

    // -------------------------------------------------------------------
    // Display field
    // -------------------------------------------------------------------

    /**
     * setDisplayField: nothing happens on a layer without a geometry type;
     * otherwise the display field becomes DisplayFieldChoice, found by one
     * scan over the fields that remembers the first name-like and the first
     * id-like field.
     */
    method SetDisplayField(requested: string)
      modifies this`displayField
      ensures displayField ==
        if HasGeometry() then DisplayFieldChoice(fields, old(displayField), requested) else old(displayField)
    {
      if !HasGeometry() {
        return;
      }
      if requested != "" {
        displayField := requested;
        return;
      }
      var idxName := "";
      var idxId := "";
      var k := 0;
      while k < |fields|
        invariant k <= |fields|
        invariant idxName == FirstOfKind(fields[..k], NameLike)
        invariant idxId == FirstOfKind(fields[..k], IdLike)
      {
        var f := fields[k];
        assert fields[..k + 1][..k] == fields[..k];
        if IndexOf(f, "name") > -1 {
          if idxName == "" {
            idxName := f;
          }
        }
        if IndexOf(f, "descrip") > -1 {
          if idxName == "" {
            idxName := f;
          }
        }
        if IndexOf(f, "id") > -1 {
          if idxId == "" {
            idxId := f;
          }
        }
        k := k + 1;
      }
      assert fields[..k] == fields;
      if |fields| == 0 {
        return;
      }
      if |idxName| > 0 {
        displayField := idxName;
      } else if |idxId| > 0 {
        displayField := idxId;
      } else {
        displayField := fields[0];
      }
    }

    // -------------------------------------------------------------------
    // Overlays
    // -------------------------------------------------------------------

    /** addOverlay: appends the overlay. */
    method AddOverlay(o: Overlay)
      modifies this`overlays
      ensures overlays == old(overlays) + [o]
    {
      overlays := overlays + [o];
    }

    /** removeOverlay: every overlay of the type name goes, scanning from the back; the others keep their order. */
    method RemoveOverlay(typeName: string)
      modifies this`overlays
      ensures overlays == Without(old(overlays), typeName)
    {
      ghost var original := overlays;
      var i := |overlays| - 1;
      while i >= 0
        invariant -1 <= i < |original|
        invariant overlays == original[..i + 1] + Without(original[i + 1..], typeName)
      {
        ghost var kept := Without(original[i + 1..], typeName);
        WithoutStep(original, i, typeName);
        assert original[..i + 1] == original[..i] + [original[i]];
        if overlays[i].typeName == typeName {
          RemoveAt(original[..i], original[i], kept);
          overlays := overlays[..i] + overlays[i + 1..];
        }
        i := i - 1;
      }
      assert original[..0] == [];
    }

    /** findOverlayByType: the first overlay of the type name, or None. */
    method FindOverlayByType(typeName: string) returns (found: Option<Overlay>)
      ensures found.None? <==> forall j :: 0 <= j < |overlays| ==> overlays[j].typeName != typeName
      ensures found.Some? ==> (found.value.typeName == typeName &&
        exists k :: 0 <= k < |overlays| && overlays[k] == found.value &&
          forall j :: 0 <= j < k ==> overlays[j].typeName != typeName)
      ensures found == if FirstOfType(overlays, typeName) < |overlays|
                       then Some(overlays[FirstOfType(overlays, typeName)]) else None
    {
      var k := 0;
      while k < |overlays|
        invariant k <= |overlays|
        invariant forall j :: 0 <= j < k ==> overlays[j].typeName != typeName
      {
        if overlays[k].typeName == typeName {
          FirstOfTypeIsTheFirst(overlays, typeName, k);
          return Some(overlays[k]);
        }
        k := k + 1;
      }
      FirstOfTypeIsTheFirst(overlays, typeName, k);
      return None;
    }
  }

  /** Removing the element between a prefix and a suffix leaves the two joined. */
  lemma RemoveAt<T>(prefix: seq<T>, x: T, suffix: seq<T>)
    ensures var s := prefix + [x] + suffix; s[..|prefix|] + s[|prefix| + 1..] == prefix + suffix
  {
    var s := prefix + [x] + suffix;
    assert s[..|prefix|] == prefix;
    assert s[|prefix| + 1..] == suffix;
  }

  /** FirstOfType answers the first index holding the type name (or the length when none does). */
  lemma FirstOfTypeIsTheFirst(overlays: seq<Overlay>, typeName: string, k: nat)
    requires k <= |overlays|
    requires k < |overlays| ==> overlays[k].typeName == typeName
    requires forall j :: 0 <= j < k ==> overlays[j].typeName != typeName
    ensures FirstOfType(overlays, typeName) == k
  {
  }

  /**
   * A whole edit session: a read-only flag cannot be set while editing,
   * a second startEditing is refused, and a successful commit ends the
   * session so that the layer accepts no more edits.  The pending feature
   * count is the provider's when the session opens and after it ends.
   */
  method EditSessionLifecycle(p: Provider, fields: seq<string>)
    returns (started: bool, restarted: bool, lockedWhileEditing: bool, committed: bool, editableAfter: bool,
             pendingAtStart: int, pendingAfter: int)
    requires p.canEdit
    ensures started && !restarted && !lockedWhileEditing && committed && !editableAfter
    ensures pendingAtStart == p.featureCount && pendingAfter == p.featureCount
  {
    var layer := new Layer(Some(p), fields);
    started := layer.StartEditing();
    pendingAtStart := layer.PendingFeatureCount();
    restarted := layer.StartEditing();
    lockedWhileEditing := layer.SetReadOnly(true);
    committed := layer.CommitChanges(true, []);
    pendingAfter := layer.PendingFeatureCount();
    editableAfter := layer.DelegatedEdit(true);
  }

  /**
   * Removing an overlay type and then looking it up finds nothing, while
   * overlays of other types are still found.
   */
  method RemoveThenFind(layer: Layer, typeName: string, other: string) returns (gone: Option<Overlay>, kept: Option<Overlay>)
    requires other != typeName
    modifies layer
    ensures gone.None?
    ensures kept.Some? <==> exists o :: o in old(layer.overlays) && o.typeName == other
  {
    layer.RemoveOverlay(typeName);
    forall o | o in layer.overlays
      ensures o.typeName != typeName
    {
      WithoutMembership(old(layer.overlays), typeName, o);
    }
    gone := layer.FindOverlayByType(typeName);
    kept := layer.FindOverlayByType(other);
    if kept.None? {
      forall o | o in old(layer.overlays) && o.typeName == other
        ensures false
      {
        WithoutMembership(old(layer.overlays), typeName, o);
      }
    } else {
      WithoutMembership(old(layer.overlays), typeName, kept.value);
    }
  }
}
