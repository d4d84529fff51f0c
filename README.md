# Anytype desktop client: settings library, members, set page, right sidebar, list and gallery views, widget content

A Dafny model of the decision logic of seven components of the Anytype
desktop client:

- **Library** (`library.dfy`): the settings library of object types and
  properties. It covers the container chosen from the page, the initial sort
  taken from stored preferences or the sort menu, and the sorts and filters of
  the subscription. It also covers the "my" and "system" sections split by the
  Delete restriction, the flattened list of headers and items with their row
  heights, the debounced filter rule, the stored sort preference and the
  choice of the first object to open.
- **Members** (`members.dfy`): the members page of a shared space. It covers
  the statuses listed, the comparator that orders owners, join requests and
  members, the permission menu, the confirmation that a permission change or
  removal raises, the stop-sharing rule and the member limit banner.
- **List view** (`list_view.dfy`): the list view of a data view. It covers
  load-more paging against the subscription's `{offset, total}` metadata, the
  `isRowLoaded` test, and what is rendered for inline and windowed lists.
- **Set page** (`set_page.dfy`): the set page's open/close/deleted state
  machine, read-only rule, content precedence, resize guard and keyboard
  shortcuts.
- **Right sidebar** (`sidebar_right.dfy`): the page component lookup, the
  class names, the one-step history of `setState` and the resize width.
- **Gallery card** (`gallery_card.dfy`): drag, click and cell-click gating,
  the rendered cells, the wrappers and the class names of a gallery card.
- **Widget content** (`widget.dfy`): the normalisation performed by the
  constructor of `BlockContentWidget`.

`js_values.dfy` models the JavaScript coercions these rely on (truthiness,
`Number`, `String`) for integers and NaN. `wrappers.dfy` holds an `Option`
type.

Values the components read from stores or helpers they call are inputs of
the model:

- `S.Block.isAllowed(restrictions, [Delete])` is a record's `deletable` flag.
- `U.Menu.getLibrarySortOptions` and `U.Data.typeSortKeys` are parameters.
- `U.Common.toCamelCase` is a function parameter.
- The reader and writer limits, the tier price, keyboard focus, open menus and
  popups are booleans or integers passed in.
- `translate(key)` is represented by the key itself.

Backend calls are recorded as values: `C.ObjectOpen`, `Action.pageClose`, the
space request and permission commands, `Action.archive` and the
subscriptions. They are not executed.

## Model

| member | source | states |
|---|---|---|
| Library.ContainerOf | src/ts/component/sidebar/page/settings/library.tsx:27-42 | the type container exactly for `settingsTypes`, the relation container exactly for `settingsRelations`, no container otherwise |
| Library.FindOption | src/ts/component/sidebar/page/settings/library.tsx:65 | the index of the first option with the current sort id, or none when no option has it |
| Library.LoadSorts | src/ts/component/sidebar/page/settings/library.tsx:64-82 | a single sort on the matching option's relation key in the current direction; without a match the three default sorts (orderId ascending with empty values last, uniqueKey in the custom type order, name ascending) |
| Library.LoadFilters | src/ts/component/sidebar/page/settings/library.tsx:84-101 | an `id In searchIds` filter comes first exactly when search ids exist (an empty list included); then the layout-Type and not-the-type-type filters for types, the layout-Relation filter for relations, nothing else for no container |
| Library.Keep | src/ts/component/sidebar/page/settings/library.tsx:152-156 | keeps exactly the records whose Delete permission matches, and nothing else; a single record is kept exactly when it matches |
| Library.KeepAppend | src/ts/component/sidebar/page/settings/library.tsx:152-156 | filtering distributes over concatenation, so the kept records stay in their original order |
| Library.KeepSplits | src/ts/component/sidebar/page/settings/library.tsx:149-158 | the deletable and the non-deletable records together are a permutation of all records |
| Library.GetSections | src/ts/component/sidebar/page/settings/library.tsx:129-159 | one section per non-empty group, "my" (deletable) before "system", each with its translated label or an empty one without a container, none empty |
| Library.SectionsConcat | src/ts/component/sidebar/page/settings/library.tsx:149-158 | the sections' children in order are the deletable records followed by the others |
| Library.SectionsPartition | src/ts/component/sidebar/page/settings/library.tsx:149-158 | every record appears in exactly one section, as often as in the input |
| Library.ItemRows | src/ts/component/sidebar/page/settings/library.tsx:177 | one item row per child, in order |
| Library.GetItems | src/ts/component/sidebar/page/settings/library.tsx:161-181 | the loop builds exactly the flattened rows: a header for each named section, marked first only at index 0, followed by its children |
| Library.FlattenLength | src/ts/component/sidebar/page/settings/library.tsx:161-181 | the row count is the number of children plus the number of named sections |
| Library.FlattenRecords | src/ts/component/sidebar/page/settings/library.tsx:161-181 | the item rows, in order, are the sections' children concatenated |
| Library.FlattenFirstFlag | src/ts/component/sidebar/page/settings/library.tsx:166-175 | a row is a first header exactly when it is row 0 and the first section is named |
| Library.ItemCount | src/ts/component/sidebar/page/settings/library.tsx:129-181 | every record of the subscription gets a row, plus one header per section when a container is set and none without |
| Library.RowHeight | src/ts/component/sidebar/page/settings/library.tsx:183-188 | 28 for an item, 34 for the first header, 38 for other headers |
| Library.RowHeightAt | src/ts/component/sidebar/page/settings/library.tsx:166-188 | the height of a row of the flattened list follows from its section and position |
| Library.FlattenHeight | src/ts/component/sidebar/page/settings/library.tsx:161-188 | the list's total height is 28 per record plus 38 per named section, less 4 when the first section is named |
| Library.HasId | src/ts/component/sidebar/page/settings/library.tsx:366 | some record carries the id |
| Library.OpenFirst | src/ts/component/sidebar/page/settings/library.tsx:361-371 | the first record is opened exactly when there are records and none of them is the routed object |
| Library.OpenFirstOverRecords | src/ts/component/sidebar/page/settings/library.tsx:361-371 | over the sections, the record opened is the first deletable record, or the first record when none is deletable, and only when the routed object is not among the records |
| Library.StorageGet | src/ts/component/sidebar/page/settings/library.tsx:343-347 | a missing entry reads as an empty one; a missing sort map is added empty; everything else is kept |
| Library.StoredPref | src/ts/component/sidebar/page/settings/library.tsx:45-46 | the stored sort for the container is returned exactly when the stored entry has one for it, and it is that entry |
| Library.FirstSortable | src/ts/component/sidebar/page/settings/library.tsx:49-50 | the first option marked as a sort option, or none when no option is |
| Library.RenderedList | src/ts/component/sidebar/page/settings/library.tsx:475-502 | the list is rendered exactly when there are rows, with one list row per row, threshold 30 and overscan 10 |
| Library.LibraryPage.constructor | src/ts/component/sidebar/page/settings/library.tsx:22-42 | the page starts sorted by last use, descending, with an empty filter and no search ids |
| Library.LibraryPage.InitSort | src/ts/component/sidebar/page/settings/library.tsx:44-60 | a stored preference wins; otherwise the first sortable option sets id and its default direction; with neither the sort is unchanged |
| Library.LibraryPage.OnSelect | src/ts/component/sidebar/page/settings/library.tsx:222-233 | the chosen sort is stored for the container, the rest of the stored entry is kept, and it becomes the current sort |
| Library.LibraryPage.Load | src/ts/component/sidebar/page/settings/library.tsx:62-112 | the subscription uses the sorts and filters of the current state |
| Library.LibraryPage.ApplyFilter | src/ts/component/sidebar/page/settings/library.tsx:190-198 | an unchanged value does nothing; a new value replaces the filter and starts a full-text search, or clears the search ids when empty |
| Library.LibraryPage.OnSearchResult | src/ts/component/sidebar/page/settings/library.tsx:121-123 | the ids found become the search ids |
| Library.LibraryPage.OnRelationAdded | src/ts/component/sidebar/page/settings/library.tsx:328-331 | a relation created from the add menu joins the running search's ids; without a search or without a relation id nothing changes |
| Library.LibraryPage.OnFilterClear | src/ts/component/sidebar/page/settings/library.tsx:200-203 | the search ids are dropped and the filter text is kept |
| Members.Statuses | src/ts/component/page/main/settings/space/share/members.tsx:37-41 | active participants always; joining ones exactly for the owner; no status twice |
| Members.Compare | src/ts/component/page/main/settings/space/share/members.tsx:43-56 | owners first, then join requests, then the rest; requests ordered by creation date; every other pair ties |
| Members.CompareIsRankOrder | src/ts/component/page/main/settings/space/share/members.tsx:43-56 | the comparator orders by group (owner, request, member), and inside the request group by date |
| Members.CompareNotAntisymmetric | src/ts/component/page/main/settings/space/share/members.tsx:53 | any two requests of the same group with the same creation date each compare greater than the other, so the comparator is not antisymmetric |
| Members.CompareFixed | src/ts/component/page/main/settings/space/share/members.tsx:43-56 | the comparator with equal dates tying: the same group order, and requests by date |
| Members.CompareFixedConsistent | src/ts/component/page/main/settings/space/share/members.tsx:43-56 | the corrected comparator is antisymmetric and transitive, so it is a consistent comparator |
| Members.CompareAgreesOffTies | src/ts/component/page/main/settings/space/share/members.tsx:43-56 | the corrected and the written comparator agree on every pair without equal request dates |
| Members.OrderedByGroup | src/ts/component/page/main/settings/space/share/members.tsx:43-56 | in a list sorted by the comparator, owners come before everyone else and requests before members |
| Members.SortedByCompareIsOrdered | src/ts/component/page/main/settings/space/share/members.tsx:43-56 | a list pairwise ordered by the written comparator is ordered by the corrected one, so the group order holds for it too |
| Members.ParticipantOptions | src/ts/component/page/main/settings/space/share/members.tsx:59-81 | reader and writer items, each disabled when its limit is not positive, then a divider, then the red remove item with id "remove", labelled "reject request" for a request and "remove member" otherwise |
| Members.CoercePermission | src/ts/component/page/main/settings/space/share/members.tsx:130 | `Number(v)` when it is a non-zero number, the reader permission otherwise |
| Members.OfferedPermissionKept | src/ts/component/page/main/settings/space/share/members.tsx:130 | a permission chosen from the menu, as a number or as its string, survives the coercion |
| Members.OnChangePermissions | src/ts/component/page/main/settings/space/share/members.tsx:95-157 | "remove" asks to decline a request or remove a member; any other value asks to approve the request or change the member's permissions to the coerced value |
| Members.Others | src/ts/component/page/main/settings/space/share/members.tsx:105 | exactly the participants other than the current one |
| Members.StopsSharing | src/ts/component/page/main/settings/space/share/members.tsx:105-110 | sharing stops after a removal exactly when no participant other than the current one remains |
| Members.ShowLimit | src/ts/component/page/main/settings/space/share/members.tsx:171-176 | the limit banner shows exactly for a shared space with no reader slots left on a paid tier |
| Members.MembersView.OnScroll | src/ts/component/page/main/settings/space/share/members.tsx:26-30 | a non-zero scroll position is remembered; zero keeps the previous one |
| ListView.LoadMoreRows | src/ts/component/block/dataview/view/list.tsx:37-48 | the offset advances by the page size, and that offset is both requested and written to the metadata; it is the offset after one press |
| ListView.LoadMoreTwice | src/ts/component/block/dataview/view/list.tsx:37-48 | two calls with no response in between request two successive pages, never the same one twice |
| ListView.IsRowLoaded | src/ts/component/block/dataview/view/list.tsx:69 | a row is loaded exactly when a non-empty id sits at its index |
| ListView.ShowLoadMore | src/ts/component/block/dataview/view/list.tsx:126-128 | the LoadMore button appears only inline, while the next page starts before the total |
| ListView.OffsetAfterStep | src/ts/component/block/dataview/view/list.tsx:37-48 | each press of LoadMore advances the offset after k presses to the offset after k + 1 |
| ListView.LoadMoreEventuallyHidden | src/ts/component/block/dataview/view/list.tsx:126-128 | with a positive page size, finitely many presses hide the button |
| ListView.Render | src/ts/component/block/dataview/view/list.tsx:33-133 | the empty view exactly without records; inline rows read-only without permission, or the windowed list sized by the total with threshold 10 and rows 32 high; the add row exactly with permission |
| ListView.RendersSelection | src/ts/component/block/dataview/view/list.tsx:25-30 | the selection is re-rendered exactly when it is not empty |
| SetPage.PageContent | src/ts/component/page/main/set.tsx:201-207 | the deleted view, else the loader, else the blocks |
| SetPage.IsReadonly | src/ts/component/page/main/set.tsx:168-181 | read-only exactly when the root is locked, the object archived or the participant cannot write |
| SetPage.ClosesPage | src/ts/component/page/main/set.tsx:92-104 | close only an open object, and in a popup only when the popup shows another object |
| SetPage.KeyDown | src/ts/component/page/main/set.tsx:114-166 | nothing under a popup; select-all and delete only without focus; delete archives and clears exactly the selection when it is non-empty and no menu is open, and otherwise changes nothing; select-all selects all records with no other action; search focuses the search and history opens the history, each keeping the selection; other keys do nothing; the create-object shortcut, as written, adds nothing |
| SetPage.CreateObjectAddsNothing | src/ts/component/page/main/set.tsx:122-140 | for every popup, focus, menu and selection state, the create-object shortcut adds no record and keeps the selection |
| SetPage.KeyDownIntended | src/ts/component/page/main/set.tsx:130-140 | with the data view found, the create-object shortcut adds a record exactly when not blocked by a popup and keeps the selection; under a popup nothing happens; every other shortcut acts as written |
| SetPage.SetPageState.constructor | src/ts/component/page/main/set.tsx:20 | no object open, not deleted, not loading, nothing requested |
| SetPage.SetPageState.Close | src/ts/component/page/main/set.tsx:92-104 | `pageClose` is issued for the open object exactly when `ClosesPage` holds |
| SetPage.SetPageState.Open | src/ts/component/page/main/set.tsx:55-64 | a no-op for the object already open; otherwise the previous object is closed, the new id recorded, the deleted flag cleared, loading set and the object requested |
| SetPage.OpenTwice | src/ts/component/page/main/set.tsx:55-58 | repeated opens of the same object request it at most once |
| SetPage.SetPageState.CheckDeleted | src/ts/component/page/main/set.tsx:40-53 | once deleted always deleted; a deleted object sets the flag |
| SetPage.SetPageState.OnOpenResponse | src/ts/component/page/main/set.tsx:65-82 | loading ends; a failed open stops; otherwise a deleted object marks the page deleted, and the page refreshes only if it is not deleted |
| SetPage.SetPageState.Resize | src/ts/component/page/main/set.tsx:183-199 | the cover is placed only when not loading |
| SetPage.SetPageState.OnKeyDown | src/ts/component/page/main/set.tsx:114-166 | the selection and the actions issued are those of `KeyDownIntended`: the written shortcuts, with create-object adding a record |
| SidebarRight.Component | src/ts/component/sidebar/right.tsx:22-48 | the four-entry table: each key names its component and any other id none |
| SidebarRight.PageName | src/ts/component/sidebar/right.tsx:46 | a falsy page is the empty name; a string page is itself |
| SidebarRight.ReplaceSlashes | src/ts/component/sidebar/right.tsx:47 | every '/' becomes '-', every other character is kept |
| SidebarRight.WithPreview | src/ts/component/sidebar/right.tsx:52 | preview exactly for the type page without `noPreview` |
| SidebarRight.RenderSidebar | src/ts/component/sidebar/right.tsx:46-161 | exactly the base classes, then `withPreview` and then `customScrollbar`, each exactly when its condition holds, and the page component exactly when the camel-cased id is in the table, with its element id and classes |
| SidebarRight.InitialState | src/ts/component/sidebar/right.tsx:36-44 | empty root and block ids, not read-only, preview on, no previous state |
| SidebarRight.NextState | src/ts/component/sidebar/right.tsx:130-137 | a new page keeps the given state and remembers the current one without its history, one level deep; the same page keeps the given state |
| SidebarRight.HistoryBounded | src/ts/component/sidebar/right.tsx:130-137 | any sequence of updates of history at most one deep leaves a history at most one deep |
| SidebarRight.FirstPageChange | src/ts/component/sidebar/right.tsx:130-137 | the first change to a page remembers exactly the initial state |
| SidebarRight.SidebarRightPanel.constructor | src/ts/component/sidebar/right.tsx:36-57 | the initial state and zero resize references |
| SidebarRight.SidebarRightPanel.SetState | src/ts/component/sidebar/right.tsx:130-137 | the state becomes `NextState` of the old one |
| SidebarRight.SidebarRightPanel.GetState | src/ts/component/sidebar/right.tsx:129 | a copy of the current state |
| SidebarRight.SidebarRightPanel.OnResizeStart | src/ts/component/sidebar/right.tsx:67-80 | the offset, pointer and width at the start of the drag are recorded |
| SidebarRight.SidebarRightPanel.OnResizeMove | src/ts/component/sidebar/right.tsx:91-112 | no width while animating or when it would not change; otherwise the width that keeps the right edge fixed and puts the left edge under the pointer |
| GalleryCard.OnDragStart | src/ts/component/block/dataview/view/gallery/card.tsx:54-63 | prevented exactly under focus or editing; otherwise a record drag exactly for collections |
| GalleryCard.SelectedIds | src/ts/component/block/dataview/view/gallery/card.tsx:75 | a missing selection provider is an empty selection |
| GalleryCard.OnClick | src/ts/component/block/dataview/view/gallery/card.tsx:65-83 | ignored with command over a selection or while clearing is disabled; otherwise button 0 opens the record or its configuration, button 2 the context menu, other buttons nothing |
| GalleryCard.CellClick | src/ts/component/block/dataview/view/gallery/card.tsx:85-95 | forwarded exactly for a known relation, with its key and the record id |
| GalleryCard.CellFor | src/ts/component/block/dataview/view/gallery/card.tsx:115-139 | icon size 20 and in-place editing exactly for the name relation, 16 otherwise |
| GalleryCard.VisibleCells | src/ts/component/block/dataview/view/gallery/card.tsx:109-141 | a cell exactly for each visible relation the store knows, none for unknown ones, one cell per key when all are known, and a single key gives its cell or nothing |
| GalleryCard.VisibleCellsAppend | src/ts/component/block/dataview/view/gallery/card.tsx:109-141 | the cells of two runs of keys are the cells of each in order, so cells follow the order of the visible relations |
| GalleryCard.EditModeIcon | src/ts/component/block/dataview/view/gallery/card.tsx:101-106 | the edit-mode icon exactly when the name is editable and experimental features are on, enabled while editing |
| GalleryCard.Wrap | src/ts/component/block/dataview/view/gallery/card.tsx:146-176 | a selection target exactly when not inline; a drop target and draggable exactly for a non-inline collection |
| GalleryCard.ClassList | src/ts/component/block/dataview/view/gallery/card.tsx:29-42 | the base classes, then `coverFit` exactly with cover-fit and `withCover` exactly with a cover |
| JsValues.ParseNumber | src/ts/model/content/widget.ts:13-14 | `Number` of the empty string is 0; a digit string, with an optional leading sign, gives its value; any other string gives NaN |
| JsValues.ToNumber | src/ts/model/content/widget.ts:13-14 | `Number(undefined)` is NaN, `Number(null)` is 0, `Number(true)` is 1 and `Number(false)` 0, a number is itself, a string is parsed by `ParseNumber` |
| JsValues.NumberOfStringRoundTrip | src/ts/model/content/widget.ts:13-15 | `Number(String(n))` is `n` for every integer |
| JsValues.NumberOfStringOfNumber | src/ts/model/content/widget.ts:13-15 | `Number(String(x))` is `x` for every number, NaN included |
| JsValues.Truthy | src/ts/model/content/widget.ts:13-17 | falsy exactly for undefined, null, false, 0, NaN and the empty string |
| JsValues.ToStr | src/ts/model/content/widget.ts:15 | `String(x)`: a string is itself, "undefined", "null", "true", "false" and "NaN" for those values, an integer its decimal spelling; the result is empty only for the empty string |
| JsValues.StringOrEmpty | src/ts/component/sidebar/right.tsx:46 | `String(x \|\| '')` is empty exactly for a falsy `x`, and `String(x)` otherwise |
| Widget.NumberOr | src/ts/model/content/widget.ts:13-14 | `Number(v) \|\| d`: the number when it is non-zero, the default for 0 and NaN |
| Widget.FromProps | src/ts/model/content/widget.ts:12-17 | layout falls back to Link and limit to 0 when missing, zero or non-numeric; viewId is the string form or ""; autoAdded is the truthiness; section falls back to Pin when falsy |
| Widget.FromPropsNormalized | src/ts/model/content/widget.ts:17 | a constructed section is truthy or Pin |
| Widget.RoundTrip | src/ts/model/content/widget.ts:12-17 | constructing from the props of a normalised content gives it back |
| Widget.Idempotent | src/ts/model/content/widget.ts:12-17 | normalising twice changes nothing |
| Widget.StringLimit | src/ts/model/content/widget.ts:14 | a limit given as a numeric string becomes that number |

## Left out

- Rendering: JSX, the virtualised list, cell measurement and the `frame`
  reference are left out. The model keeps what is rendered as data (rows,
  classes and flags).
- DOM access, jQuery, `raf` and event binding are left out: the card's `last`
  class marking, focusing inputs, the blur/mouseup handlers and
  `onResizeEnd`. Animation frames are not coalesced: each move is one frame.
- Backend commands and subscriptions are recorded, either as values returned
  (`Request`, `FilterEffect`, `Effect`) or as logs in the page objects. Their
  responses are method parameters.
- Analytics events, routing, and `U.Router.go` on unmount are left out.
- `onUpgrade`, `onMore` menu positioning, `onClick`/`onContext` in the
  library, and the set page's `onScroll` and event namespaces are left out.
  They only call other components.
- `onAdd` in the library is modelled only by its relation menu's
  `addCommand` (`Library.LibraryPage.OnRelationAdded`). Creating a type and
  opening the relation menu are left out. The `filter` it tests is the ref
  object, which is always truthy, so the model does not test it.
- Store lookups and helpers are inputs: `S.Block.isAllowed`,
  `U.Menu.getLibrarySortOptions`, `U.Data.typeSortKeys`,
  `U.Common.toCamelCase`, `U.Data.layoutClass`, `U.Data.cardSizeClass` and
  `translate`. Labels are their translation keys.
- `U.Menu.prepareForSelect` is not modelled: the permission menu is the list
  before that call.
- `Relation.cellId` is not modelled: cell element ids are left out of the
  gallery card's cells.
- Timing is left out: the keyboard debounce of `onFilterChange`, the
  onboarding timeout, and the interleaving of asynchronous callbacks. This
  includes the stale `isDeleted` that a pending `C.ObjectOpen` callback sees.
- SetPage.SetPageState.Open, SetPage.SetPageState.Resize,
  SetPage.SetPageState.CheckDeleted and
  SidebarRight.SidebarRightPanel.SetState apply each update at once. In the
  source, state set by a `useState` setter is seen only after the next
  render. So in the effect that runs `open(); resize(); checkDeleted();` for
  a new id, `resize()` still sees `isLoading` false and schedules the cover,
  and `checkDeleted()` reads the rendered `isDeleted`. The model's `Resize`
  after `Open` sees loading and schedules nothing. Likewise two `setState`
  calls between renders both compare against, and copy, the rendered sidebar
  state. The model compares the second call against the first update, so for
  two updates to the same new page it keeps the second exactly as given,
  where the source sets its `previous` to the rendered state.
- `Array.prototype.sort` itself is left out. The model proves properties of
  lists pairwise ordered by `CompareFixed`, and
  `Members.SortedByCompareIsOrdered` shows that a list pairwise ordered by
  `Compare` is such a list.
- SidebarRight.Component: `Components[id]` on an object literal also finds
  inherited keys such as "constructor" or "toString". The model gives none
  for them, as for every id outside the four-entry table.
- SetPage.SetPageState.OnKeyDown: follows the corrected
  `SetPage.KeyDownIntended`, where the create-object shortcut adds a record.
  The code as written adds none; `SetPage.KeyDown` models that.
- Enum constants are taken as `ParticipantPermissions` Reader 0, Writer 1,
  Owner 2; `WidgetLayout.Link` 0; `WidgetSection.Pin` 0; `I.SortId.LastUsed`
  "lastUsed"; `J.Constant.typeKey.type` "ot-objectType". The enum and constant
  files are not part of this model, so these values are assumed.
- JavaScript numbers are modelled as integers and NaN. Fractions, infinities,
  exponents, hexadecimal and whitespace in `Number(string)` are left out.
- `src/ts/component/menu/identity.tsx` is not modelled: it only opens the
  settings.
- There is no guard against requesting the same page twice, or discarding a
  stale response, in `loadMoreRows`. The model follows the code:
  `ListView.LoadMoreTwice` shows two calls requesting successive pages.
- `isRowLoaded` uses `!!records[index]`, so an empty-string record id counts
  as not loaded. The model keeps this.
- The resize uses the sidebar's left offset `ox`, not the recorded pointer
  `sx`. `sx` and `oy` are stored but never read.
- `onFilterClear` drops the search ids but keeps the filter text. The model
  keeps this.
- `setState` deletes `previous` from the current state object in place. That
  object is replaced at once, so only aliasing could observe the deletion,
  and the model works on values.
- The free-form `details` object of the sidebar state is left out.
- SidebarRight.HistoryBounded: holds for updates whose own history is at most
  one deep. A caller may hand in deeper chains for the same page; those are
  kept as given.

## Findings

| source | as written | input that shows it | evidently intended | confidence | as-written member | corrected member |
|---|---|---|---|---|---|---|
| src/ts/component/page/main/settings/space/share/members.tsx:53 | two join requests compare by `c1.createdDate < c2.createdDate ? -1 : 1`, so equal dates give 1 in both directions | any two join requests of the same group with equal createdDate, such as 7 and 7: `compare(a, b) == compare(b, a) == 1` | requests with equal dates tie (return 0), so the comparator is consistent and the sort order is defined | not executed | Members.CompareNotAntisymmetric | Members.CompareFixedConsistent |
| src/ts/component/page/main/set.tsx:122 | the create-object shortcut reads `blockRefs[dataview]`, but the refs object is `useRef({})` and the refs are stored in its `current` (line 238), so the lookup is undefined | the create-object shortcut on an open set, with no popup and no focus: no record is added | look the data view up in `blockRefs.current`, so the shortcut adds a record | not executed | SetPage.CreateObjectAddsNothing | SetPage.KeyDownIntended |
