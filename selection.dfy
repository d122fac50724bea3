/**
 * Which scheme the grid has selected and whether its details panel is
 * open. Both scheme grids (the three.js grid and the fallback grid) keep
 * this state with the same click and close handlers; the fallback grid
 * also drops a selection whose scheme has disappeared.
 */
module Selection {
  import opened Wrappers
  import opened Values

  /** `{...scheme, id: scheme.id || index + 1}`: the clicked scheme with an id it can be found by. */
  function Selected(scheme: Value, index: nat): (r: Value)
    ensures r.Obj? && Truthy(Prop(r, "id"))
    ensures Truthy(Prop(scheme, "id")) ==> Prop(r, "id") == Prop(scheme, "id")
    ensures !Truthy(Prop(scheme, "id")) ==> Prop(r, "id") == Int(index + 1)
    ensures scheme.Obj? ==> forall k :: k != "id" ==> Prop(r, k) == Prop(scheme, k)
  {
    Obj(SetProp(ObjectEntries(scheme), "id", Or(Prop(scheme, "id"), Int(index + 1))))
  }

  /** `scheme.id === selected.id`. */
  predicate SameId(scheme: Value, selected: Value) {
    StrictEquals(Prop(scheme, "id"), Prop(selected, "id"))
  }

  /** `schemes.some(scheme => scheme.id === selected.id)`. */
  predicate Present(schemes: seq<Value>, selected: Value) {
    exists k :: 0 <= k < |schemes| && SameId(schemes[k], selected)
  }

  /** The selection and the panel flag after the fallback grid's effect has run on `schemes`. */
  function Reconciled(schemes: seq<Value>, selected: Option<Value>, isOpen: bool): (Option<Value>, bool) {
    if selected.Some? && !Present(schemes, selected.value) then (None, false) else (selected, isOpen)
  }

  /** After the effect the selection, if any, names a scheme of the list. */
  lemma ReconciledConsistent(schemes: seq<Value>, selected: Option<Value>, isOpen: bool)
    ensures var (s, _) := Reconciled(schemes, selected, isOpen); s.None? || Present(schemes, s.value)
  {}

  /** A selection still in the list is left alone, panel flag included. */
  lemma ReconcileKeepsPresent(schemes: seq<Value>, selected: Value, isOpen: bool)
    requires Present(schemes, selected)
    ensures Reconciled(schemes, Some(selected), isOpen) == (Some(selected), isOpen)
  {}

  /** Running the effect again changes nothing. */
  lemma ReconcileIdempotent(schemes: seq<Value>, selected: Option<Value>, isOpen: bool)
    ensures var (s, o) := Reconciled(schemes, selected, isOpen); Reconciled(schemes, s, o) == (s, o)
  {}

  /** A scheme with an id stays selected after a click, whatever the effect does next. */
  lemma ClickedSchemeWithIdSurvives(schemes: seq<Value>, index: nat, isOpen: bool)
    requires index < |schemes| && Truthy(Prop(schemes[index], "id"))
    ensures Reconciled(schemes, Some(Selected(schemes[index], index)), isOpen)
      == (Some(Selected(schemes[index], index)), isOpen)
  {
    var id := Prop(schemes[index], "id");
    assert StrictEquals(id, id) by {
      assert !id.NaN?;
    }
    assert SameId(schemes[index], Selected(schemes[index], index));
  }

  /**
   * A click on a scheme without an id selects it under `index + 1`; unless
   * some scheme carries that id, the fallback grid's effect clears the
   * selection and closes the panel straight away.
   */
  lemma ClickedSchemeWithoutIdDropped(schemes: seq<Value>, index: nat)
    requires index < |schemes| && !Truthy(Prop(schemes[index], "id"))
    requires forall k :: 0 <= k < |schemes| ==> !StrictEquals(Prop(schemes[k], "id"), Int(index + 1))
    ensures Reconciled(schemes, Some(Selected(schemes[index], index)), true) == (None, false)
  {
    var sel := Selected(schemes[index], index);
    assert Prop(sel, "id") == Int(index + 1);
    forall k | 0 <= k < |schemes| ensures !SameId(schemes[k], sel) {
      assert !StrictEquals(Prop(schemes[k], "id"), Int(index + 1));
    }
  }

  /** The smallest case: the only scheme of the list has no id, and its click is undone at once. */
  lemma IdlessClickUndone()
    ensures Reconciled([Obj([])], Some(Selected(Obj([]), 0)), true) == (None, false)
  {
    ClickedSchemeWithoutIdDropped([Obj([])], 0);
  }

  /** The id a click gives the scheme at `index`: its own when truthy, else `index + 1`. */
  function EffectiveId(scheme: Value, index: nat): (r: Value)
    ensures Truthy(r)
  {
    Or(Prop(scheme, "id"), Int(index + 1))
  }

  /** Some scheme of the list has, by the click's numbering, the selection's id. */
  predicate PresentByEffectiveId(schemes: seq<Value>, selected: Value) {
    exists k :: 0 <= k < |schemes| && StrictEquals(EffectiveId(schemes[k], k), Prop(selected, "id"))
  }

  /** The effect as evidently intended: it looks for the selection under the ids the click hands out. */
  function ReconciledIntended(schemes: seq<Value>, selected: Option<Value>, isOpen: bool): (Option<Value>, bool) {
    if selected.Some? && !PresentByEffectiveId(schemes, selected.value) then (None, false) else (selected, isOpen)
  }

  /** With the intended effect every click survives, ids or not. */
  lemma ClickSurvivesIntended(schemes: seq<Value>, index: nat, isOpen: bool)
    requires index < |schemes|
    ensures ReconciledIntended(schemes, Some(Selected(schemes[index], index)), isOpen)
      == (Some(Selected(schemes[index], index)), isOpen)
  {
    var id := EffectiveId(schemes[index], index);
    assert Prop(Selected(schemes[index], index), "id") == id;
    assert StrictEquals(id, id) by {
      assert !id.NaN?;
    }
  }

  /** When every scheme has an id, the intended effect is the written one. */
  lemma IntendedAgreesWithIds(schemes: seq<Value>, selected: Option<Value>, isOpen: bool)
    requires forall k :: 0 <= k < |schemes| ==> Truthy(Prop(schemes[k], "id"))
    ensures ReconciledIntended(schemes, selected, isOpen) == Reconciled(schemes, selected, isOpen)
  {
    if selected.Some? {
      assert PresentByEffectiveId(schemes, selected.value) <==> Present(schemes, selected.value) by {
        forall k | 0 <= k < |schemes| ensures EffectiveId(schemes[k], k) == Prop(schemes[k], "id") {}
      }
    }
  }

  /** The fallback grid shows its details panel only for a selected scheme with the panel open. */
  predicate FallbackPanelShown(selected: Option<Value>, isOpen: bool) {
    selected.Some? && isOpen
  }

  /** `selectedScheme` and the panel flag (`isDetailsOpen` / `isSidePanelOpen`). */
  class SelectionState {
    var selected: Option<Value>
    var isOpen: bool

    constructor()
      ensures selected == None && !isOpen
    {
      selected := None;
      isOpen := false;
    }

    /** `handleSchemeClick(scheme, index)`. */
    method HandleSchemeClick(scheme: Value, index: nat)
      modifies this
      ensures selected == Some(Selected(scheme, index)) && isOpen
    {
      var safeScheme := Obj(SetProp(ObjectEntries(scheme), "id", Or(Prop(scheme, "id"), Int(index + 1))));
      selected := Some(safeScheme);
      isOpen := true;
    }

    /** `handleClose` / `handleCloseSidePanel`: the panel closes, the selection stays. */
    method HandleClose()
      modifies this
      ensures !isOpen && selected == old(selected)
    {
      isOpen := false;
    }

    /** The fallback grid's effect when the scheme list changes. */
    method Reconcile(schemes: seq<Value>)
      modifies this
      ensures (selected, isOpen) == Reconciled(schemes, old(selected), old(isOpen))
    {
      if selected.Some? {
        var schemeExists := Present(schemes, selected.value);
        if !schemeExists {
          selected := None;
          isOpen := false;
        }
      }
    }
  }
}
