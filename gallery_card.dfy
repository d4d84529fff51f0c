/**
 * A card of the gallery view: when a drag may start, how a click is
 * dispatched, which relation cells it renders, the wrappers around it and its
 * class names.
 */
module GalleryCard {
  import opened Wrappers

  /** What `onDragStart` does. */
  datatype DragAction = PreventDrag | StartRecordDrag | NoDrag

  /** A drag never starts while something has keyboard focus or the card is being edited; otherwise only collections start a record drag. */
  function OnDragStart(focused: bool, editing: bool, isCollection: bool): (r: DragAction)
    ensures r == PreventDrag <==> focused || editing
    ensures r == StartRecordDrag <==> !focused && !editing && isCollection
  {
    if focused || editing then PreventDrag
    else if isCollection then StartRecordDrag
    else NoDrag
  }

  /** What `onClick` does. */
  datatype ClickAction = Ignore | OpenEvent | OpenConfig | OpenContext

  /**
   * The record ids held by the selection provider; a missing provider counts
   * as an empty selection.
   */
  function SelectedIds(selection: Option<seq<string>>): (r: seq<string>)
    ensures selection.None? ==> r == []
    ensures selection.Some? ==> r == selection.value
  {
    selection.GetOr([])
  }

  /**
   * `onClick`: ignored with the command key held over a non-empty selection,
   * or while clearing the selection is disabled. Otherwise button 0 opens the
   * record (in a new context with the command key, its configuration
   * without), button 2 opens the context menu, and other buttons do nothing.
   */
  function OnClick(button: int, withCommand: bool, selection: Option<seq<string>>, clearDisabled: bool): (r: ClickAction)
    ensures (withCommand && SelectedIds(selection) != []) || clearDisabled ==> r == Ignore
    ensures r == OpenEvent <==> button == 0 && withCommand && SelectedIds(selection) == [] && !clearDisabled
    ensures r == OpenConfig <==> button == 0 && !withCommand && !clearDisabled
    ensures r == OpenContext <==> button == 2 && !clearDisabled && !(withCommand && SelectedIds(selection) != [])
    ensures button != 0 && button != 2 ==> r == Ignore
  {
    var ids := SelectedIds(selection);
    if (withCommand && |ids| > 0) || clearDisabled then Ignore
    else if button == 0 then (if withCommand then OpenEvent else OpenConfig)
    else if button == 2 then OpenContext
    else Ignore
  }

  /** A relation of the record store. */
  datatype Relation = Relation(relationKey: string, name: string)

  /** `onCellClickHandler`: forwards the relation key and the record id only for a relation the store knows. */
  function CellClick(relations: map<string, Relation>, key: string, recordId: string): (r: Option<(string, string)>)
    ensures r.None? <==> key !in relations
    ensures r.Some? ==> r.value == (relations[key].relationKey, recordId)
  {
    if key in relations then Some((relations[key].relationKey, recordId)) else None
  }

  /** The props of one rendered cell. */
  datatype CellProps = CellProps(relationKey: string, tooltip: string, iconSize: int, noInplace: bool, editModeOn: bool)

  /** The cell for a known relation: the name cell has the larger icon and is the only one edited in place. */
  function CellFor(rel: Relation, isEditing: bool): (c: CellProps)
    ensures c.relationKey == rel.relationKey && c.tooltip == rel.name && c.editModeOn == isEditing
    ensures c.iconSize == 20 <==> rel.relationKey == "name"
    ensures c.iconSize == 16 <==> rel.relationKey != "name"
    ensures c.noInplace <==> rel.relationKey != "name"
  {
    var isName := rel.relationKey == "name";
    CellProps(rel.relationKey, rel.name, if isName then 20 else 16, !isName, isEditing)
  }

  /** The cells rendered for the visible relation keys; keys unknown to the store render nothing. */
  function VisibleCells(visible: seq<string>, relations: map<string, Relation>, isEditing: bool): (r: seq<CellProps>)
    ensures |r| <= |visible|
    ensures (forall i | 0 <= i < |visible| :: visible[i] in relations) ==> |r| == |visible|
    ensures forall c | c in r :: exists k | k in visible && k in relations :: c == CellFor(relations[k], isEditing)
    ensures forall k | k in visible && k in relations :: CellFor(relations[k], isEditing) in r
    ensures |visible| == 1 ==> r == (if visible[0] in relations then [CellFor(relations[visible[0]], isEditing)] else [])
  {
    if visible == [] then []
    else
      var rest := VisibleCells(visible[..|visible| - 1], relations, isEditing);
      var k := visible[|visible| - 1];
      assert visible == visible[..|visible| - 1] + [k];
      if k in relations then rest + [CellFor(relations[k], isEditing)] else rest
  }

  /** The cells of two runs of visible keys are the cells of each, in order: rendering keeps the order of the visible relations. */
  lemma {:induction false} VisibleCellsAppend(a: seq<string>, b: seq<string>, relations: map<string, Relation>, isEditing: bool)
    ensures VisibleCells(a + b, relations, isEditing) == VisibleCells(a, relations, isEditing) + VisibleCells(b, relations, isEditing)
    decreases |b|
  {
    if b == [] {
      assert a + b == a;
    } else {
      var b' := b[..|b| - 1];
      assert (a + b)[..|a + b| - 1] == a + b';
      assert (a + b)[|a + b| - 1] == b[|b| - 1];
      VisibleCellsAppend(a, b', relations, isEditing);
    }
  }

  /** The edit-mode icon's class names, shown only for an editable name with experimental features on. */
  function EditModeIcon(canEdit: bool, experimental: bool, isEditing: bool): (r: Option<string>)
    ensures r.Some? <==> canEdit && experimental
    ensures r.Some? ==> r.value == (if isEditing then "editMode enabled" else "editMode ")
  {
    if canEdit && experimental then Some("editMode " + (if isEditing then "enabled" else "")) else None
  }

  /** The wrappers around the card content and whether the card element is draggable. */
  datatype Wrapping = Wrapping(selectionTarget: bool, dropTarget: bool, draggable: bool)

  /** Non-inline cards are selection targets, and in collections also drop targets and draggable. */
  function Wrap(isInline: bool, isCollection: bool): (w: Wrapping)
    ensures w.selectionTarget <==> !isInline
    ensures w.dropTarget <==> !isInline && isCollection
    ensures w.draggable <==> isCollection && !isInline
  {
    var selectionTarget := !isInline;
    var dropTarget := !isInline && isCollection;
    Wrapping(selectionTarget, dropTarget, isCollection && !isInline)
  }

  /** The card's class names after the record's layout and card-size classes. */
  function ClassList(layoutClass: string, sizeClass: string, coverFit: bool, hasCover: bool): (r: seq<string>)
    ensures |r| >= 3 && r[..3] == ["card", layoutClass, sizeClass]
    ensures "coverFit" in r[3..] <==> coverFit
    ensures "withCover" in r[3..] <==> hasCover
    ensures |r| == 3 + (if coverFit then 1 else 0) + (if hasCover then 1 else 0)
    ensures coverFit && hasCover ==> r[3] == "coverFit" && r[4] == "withCover"
  {
    var extra := (if coverFit then ["coverFit"] else []) + (if hasCover then ["withCover"] else []);
    var cn := ["card", layoutClass, sizeClass] + extra;
    assert cn[3..] == extra;
    cn
  }
}
