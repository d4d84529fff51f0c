/**
 * The set (and collection) page: opening and closing its object, the latch
 * that marks it deleted, what the page shows, when it is read-only and what
 * its keyboard shortcuts do to the record selection.
 *
 * Backend calls are recorded in the page's logs (`openRequests`,
 * `closedPages`, `effects`): `C.ObjectOpen`, `Action.pageClose` and the
 * shortcut actions. The response of `C.ObjectOpen` is delivered by a separate
 * method.
 */
module SetPage {
  import opened Wrappers

  /** What the page body shows. */
  datatype Content = DeletedView | LoaderView | Blocks(readonly: bool)

  /** The body: the deleted view wins over the loader, which wins over the blocks. */
  function PageContent(isDeleted: bool, isLoading: bool, readonly: bool): (c: Content)
    ensures c == DeletedView <==> isDeleted
    ensures c == LoaderView <==> !isDeleted && isLoading
    ensures c.Blocks? <==> !isDeleted && !isLoading
    ensures c.Blocks? ==> c.readonly == readonly
  {
    if isDeleted then DeletedView
    else if isLoading then LoaderView
    else Blocks(readonly)
  }

  /**
   * The page is read-only when its root block is locked, its object is
   * archived, or the current participant cannot write; `rootLocked` is `None`
   * when the root block is not loaded.
   */
  function IsReadonly(rootLocked: Option<bool>, isArchived: bool, canWrite: bool): (r: bool)
    ensures r <==> rootLocked == Some(true) || isArchived || !canWrite
  {
    if rootLocked.Some? && rootLocked.value then true
    else if isArchived then true
    else !canWrite
  }

  /** Whether `close` closes object `id`: only an open object, and in a popup only when the popup shows another one. */
  function ClosesPage(id: string, isPopup: bool, matchId: Option<string>): (r: bool)
    ensures r <==> id != "" && (!isPopup || matchId != Some(id))
  {
    if id == "" then false
    else !isPopup || (isPopup && matchId != Some(id))
  }

  datatype Shortcut = SearchText | CreateObject | SelectAll | DeleteKey | History | OtherKey

  /** The action a shortcut triggers. */
  datatype Effect = FocusSearch | AddRecord | Archive(ids: seq<string>) | OpenHistory(rootId: string)

  /** The selection after a key press and the action it triggers. */
  datatype KeyResult = KeyResult(selection: seq<string>, effect: Option<Effect>)

  /**
   * `onKeyDown`: nothing happens for a page under a popup. Select-all and
   * delete act only without keyboard focus; delete also needs a selection and
   * no open menu, archives the selected ids and clears the selection;
   * select-all selects every record of the view. The create-object shortcut
   * looks the data view up on the refs object itself rather than on its
   * `current` entries, finds nothing and adds no record.
   */
  function KeyDown(key: Shortcut, blockedByPopup: bool, focused: bool, menuOpen: bool,
                   rootId: string, selected: seq<string>, recordIds: seq<string>): (r: KeyResult)
    ensures blockedByPopup ==> r == KeyResult(selected, None)
    ensures r.effect == Some(Archive(selected)) <==> !blockedByPopup && key == DeleteKey && !focused && selected != [] && !menuOpen
    ensures r.selection != selected ==> !blockedByPopup && !focused && (key == SelectAll || key == DeleteKey)
    ensures !blockedByPopup && !focused && key == SelectAll ==> r.selection == recordIds
    ensures r.effect == Some(Archive(selected)) ==> r.selection == []
    ensures focused && (key == SelectAll || key == DeleteKey) ==> r == KeyResult(selected, None)
    ensures key == CreateObject ==> r == KeyResult(selected, None)
    ensures !blockedByPopup && key == DeleteKey && (focused || selected == [] || menuOpen) ==> r == KeyResult(selected, None)
    ensures !blockedByPopup && key == SearchText ==> r == KeyResult(selected, Some(FocusSearch))
    ensures !blockedByPopup && key == History ==> r == KeyResult(selected, Some(OpenHistory(rootId)))
    ensures key == OtherKey ==> r == KeyResult(selected, None)
    ensures !blockedByPopup && !focused && key == SelectAll ==> r.effect == None
  {
    if blockedByPopup then KeyResult(selected, None)
    else
      match key
      case SearchText => KeyResult(selected, Some(FocusSearch))
      case CreateObject => KeyResult(selected, None)
      case History => KeyResult(selected, Some(OpenHistory(rootId)))
      case OtherKey => KeyResult(selected, None)
      case SelectAll => if !focused then KeyResult(recordIds, None) else KeyResult(selected, None)
      case DeleteKey =>
        if !focused && |selected| > 0 && !menuOpen then KeyResult([], Some(Archive(selected)))
        else KeyResult(selected, None)
  }

  /** The create-object shortcut, as written, never adds a record and never changes the selection. */
  lemma CreateObjectAddsNothing(blockedByPopup: bool, focused: bool, menuOpen: bool,
                                rootId: string, selected: seq<string>, recordIds: seq<string>)
    ensures KeyDown(CreateObject, blockedByPopup, focused, menuOpen, rootId, selected, recordIds) == KeyResult(selected, None)
    ensures KeyDown(CreateObject, blockedByPopup, focused, menuOpen, rootId, selected, recordIds).effect != Some(AddRecord)
  {
  }

  /**
   * The shortcuts with the create-object shortcut reaching the data view, as
   * evidently intended: it adds a record unless blocked by a popup.
   */
  function KeyDownIntended(key: Shortcut, blockedByPopup: bool, focused: bool, menuOpen: bool,
                           rootId: string, selected: seq<string>, recordIds: seq<string>): (r: KeyResult)
    ensures blockedByPopup ==> r == KeyResult(selected, None)
    ensures r.effect == Some(AddRecord) <==> !blockedByPopup && key == CreateObject
    ensures key == CreateObject ==> r.selection == selected
    ensures key != CreateObject ==> r == KeyDown(key, blockedByPopup, focused, menuOpen, rootId, selected, recordIds)
  {
    if !blockedByPopup && key == CreateObject then KeyResult(selected, Some(AddRecord))
    else KeyDown(key, blockedByPopup, focused, menuOpen, rootId, selected, recordIds)
  }

  /** The record selection of the selection provider. */
  class Selection {
    var ids: seq<string>

    constructor ()
      ensures ids == []
    {
      ids := [];
    }
  }

  class SetPageState {
    /** The id of the object this page has open, "" for none. */
    var idRef: string
    var isDeleted: bool
    var isLoading: bool
    /** The ids passed to `C.ObjectOpen`, in order. */
    var openRequests: seq<string>
    /** The ids passed to `Action.pageClose`, in order. */
    var closedPages: seq<string>
    /** The shortcut actions triggered, in order. */
    var effects: seq<Effect>

    constructor ()
      ensures idRef == "" && !isDeleted && !isLoading
      ensures openRequests == [] && closedPages == [] && effects == []
    {
      idRef := "";
      isDeleted := false;
      isLoading := false;
      openRequests := [];
      closedPages := [];
      effects := [];
    }

    /** `close`: closes the open object unless a popup still shows it. */
    method Close(isPopup: bool, matchId: Option<string>)
      modifies this`closedPages
      ensures closedPages == old(closedPages) + (if ClosesPage(idRef, isPopup, matchId) then [idRef] else [])
    {
      if ClosesPage(idRef, isPopup, matchId) {
        closedPages := closedPages + [idRef];
      }
    }

    /** `open`: a no-op for the object already open; otherwise closes the previous one and starts loading `rootId`. */
    method Open(rootId: string, isPopup: bool, matchId: Option<string>)
      modifies this`idRef, this`isDeleted, this`isLoading, this`openRequests, this`closedPages
      ensures old(idRef) == rootId ==> idRef == old(idRef) && isDeleted == old(isDeleted) && isLoading == old(isLoading)
                                       && openRequests == old(openRequests) && closedPages == old(closedPages)
      ensures old(idRef) != rootId ==> idRef == rootId && !isDeleted && isLoading
                                       && openRequests == old(openRequests) + [rootId]
                                       && closedPages == old(closedPages) + (if ClosesPage(old(idRef), isPopup, matchId) then [old(idRef)] else [])
    {
      if idRef == rootId {
        return;
      }
      Close(isPopup, matchId);
      idRef := rootId;
      isDeleted := false;
      isLoading := true;
      openRequests := openRequests + [rootId];
    }

    /** `checkDeleted`: once the page is marked deleted it stays so; a deleted object marks it. */
    method CheckDeleted(objectDeleted: bool) returns (deleted: bool)
      modifies this`isDeleted
      ensures deleted == (old(isDeleted) || objectDeleted)
      ensures isDeleted == deleted
      ensures old(isDeleted) ==> isDeleted
    {
      if isDeleted {
        return true;
      }
      if objectDeleted {
        isDeleted := true;
        return true;
      }
      return false;
    }

    /**
     * The response of `C.ObjectOpen`: loading ends; a failed open stops there,
     * otherwise a deleted object marks the page deleted. `ready` says whether
     * the page went on to refresh its header and controls.
     */
    method OnOpenResponse(openOk: bool, objectDeleted: bool) returns (ready: bool)
      modifies this`isLoading, this`isDeleted
      ensures !isLoading
      ensures isDeleted == (old(isDeleted) || (openOk && objectDeleted))
      ensures ready <==> openOk && !old(isDeleted) && !objectDeleted
    {
      isLoading := false;
      if !openOk {
        return false;
      }
      var deleted := CheckDeleted(objectDeleted);
      ready := !deleted;
    }

    /** `resize` schedules the cover placement only while not loading. */
    method Resize() returns (scheduled: bool)
      ensures scheduled <==> !isLoading
    {
      if isLoading {
        return false;
      }
      return true;
    }

    /**
     * `onKeyDown` applied to the selection provider, with the data view found
     * so that the create-object shortcut adds a record; `blockedByPopup` is
     * "not a popup while a popup is open".
     */
    method OnKeyDown(sel: Selection, key: Shortcut, blockedByPopup: bool, focused: bool, menuOpen: bool,
                     rootId: string, recordIds: seq<string>)
      modifies sel, this`effects
      ensures var r := KeyDownIntended(key, blockedByPopup, focused, menuOpen, rootId, old(sel.ids), recordIds);
              sel.ids == r.selection && effects == old(effects) + (if r.effect.Some? then [r.effect.value] else [])
    {
      var r := KeyDownIntended(key, blockedByPopup, focused, menuOpen, rootId, sel.ids, recordIds);
      sel.ids := r.selection;
      if r.effect.Some? {
        effects := effects + [r.effect.value];
      }
    }
  }

  /** Re-opening the object already open changes nothing, so repeated renders open it once. */
  method OpenTwice(page: SetPageState, rootId: string, isPopup: bool, matchId: Option<string>)
    modifies page
    ensures page.idRef == rootId
    ensures page.openRequests == old(page.openRequests) + (if old(page.idRef) == rootId then [] else [rootId])
  {
    page.Open(rootId, isPopup, matchId);
    page.Open(rootId, isPopup, matchId);
  }
}
