/**
 * The right sidebar: which page component it shows for the page name kept in
 * the common store, the class names of its container, the one-step history
 * its `setState` keeps, and the width its resize handle sets.
 *
 * `U.Common.toCamelCase` is a parameter (`camel`); the page name arrives as
 * the raw store value and goes through `String(page || '')`.
 */
module SidebarRight {
  import opened Wrappers
  import opened JsValues

  /** The page components the sidebar knows. */
  datatype PageKind = TypePage | ObjectRelationPage | ObjectTableOfContentsPage | WidgetPage

  /** The key of each component in the `Components` table. */
  function ComponentKey(k: PageKind): string {
    match k
    case TypePage => "type"
    case ObjectRelationPage => "objectRelation"
    case ObjectTableOfContentsPage => "objectTableOfContents"
    case WidgetPage => "widget"
  }

  /** `Components[id]`: the component under key `id`, if any. */
  function Component(id: string): (r: Option<PageKind>)
    ensures r.Some? ==> ComponentKey(r.value) == id
    ensures forall k: PageKind :: ComponentKey(k) == id ==> r == Some(k)
  {
    if id == "type" then Some(TypePage)
    else if id == "objectRelation" then Some(ObjectRelationPage)
    else if id == "objectTableOfContents" then Some(ObjectTableOfContentsPage)
    else if id == "widget" then Some(WidgetPage)
    else None
  }

  /** `String(page || '')`: a falsy store value is the empty page name. */
  function PageName(v: JsValue): (r: string)
    ensures !Truthy(v) ==> r == ""
    ensures v.Str? ==> r == v.s
  {
    if Truthy(v) then ToStr(v) else ""
  }

  /** `s.replace(/\//g, '-')`. */
  function ReplaceSlashes(s: string): (r: string)
    ensures |r| == |s|
    ensures forall i | 0 <= i < |s| :: r[i] == (if s[i] == '/' then '-' else s[i])
  {
    if s == [] then []
    else ReplaceSlashes(s[..|s| - 1]) + [if s[|s| - 1] == '/' then '-' else s[|s| - 1]]
  }

  /** The preview layout is used for the type page unless the state turns it off. */
  function WithPreview(noPreview: bool, page: string): (r: bool)
    ensures r <==> !noPreview && page == "type"
  {
    !noPreview && page in ["type"]
  }

  /** The mounted page: its component, its element id and its class names. */
  datatype PageView = PageView(kind: PageKind, pageId: string, classes: seq<string>)

  /** The sidebar element: its class names and the page it mounts, if any. */
  datatype SidebarView = SidebarView(classes: seq<string>, page: Option<PageView>)

  /** The rendered sidebar for the store's page value, the state's `noPreview` and the platform. */
  function RenderSidebar(pageValue: JsValue, noPreview: bool, uxTypeName: string, isMac: bool,
                         camel: string -> string): (v: SidebarView)
    ensures |v.classes| >= 3 && v.classes[..3] == ["sidebar", "right", "space" + uxTypeName]
    ensures "withPreview" in v.classes <==> !noPreview && PageName(pageValue) == "type"
    ensures "customScrollbar" in v.classes <==> !isMac
    ensures |v.classes| == 3 + (if !noPreview && PageName(pageValue) == "type" then 1 else 0) + (if !isMac then 1 else 0)
    ensures !noPreview && PageName(pageValue) == "type" ==> v.classes[3] == "withPreview"
    ensures !isMac ==> v.classes[|v.classes| - 1] == "customScrollbar"
    ensures var id := camel(ReplaceSlashes(PageName(pageValue)));
            (v.page.Some? <==> Component(id).Some?)
            && (v.page.Some? ==> v.page.value == PageView(Component(id).value, camel("sidebarPage-" + id),
                                                          ["sidebarPage", camel("page-" + ReplaceSlashes(PageName(pageValue)))]))
  {
    var page := PageName(pageValue);
    var id := camel(ReplaceSlashes(page));
    var base := ["sidebar", "right", "space" + uxTypeName];
    assert ("space" + uxTypeName)[0] == 's';
    var cn := base + (if WithPreview(noPreview, page) then ["withPreview"] else [])
                   + (if !isMac then ["customScrollbar"] else []);
    var view := match Component(id)
                case Some(k) => Some(PageView(k, camel("sidebarPage-" + id), ["sidebarPage", camel("page-" + ReplaceSlashes(page))]))
                case None => None;
    SidebarView(cn, view)
  }

  /** `I.SidebarRightState`; `page` is absent in the initial state. */
  datatype SidebarState = SidebarState(page: Option<string>, rootId: string, blockId: string, readonly: bool,
                                       noPreview: bool, back: string, previous: Option<SidebarState>)

  /** The length of the chain of previous states. */
  function Depth(s: SidebarState): nat {
    match s.previous
    case None => 0
    case Some(p) => 1 + Depth(p)
  }

  /** The state the sidebar starts with. */
  function InitialState(): (s: SidebarState)
    ensures s.page.None? && s.rootId == "" && s.blockId == "" && s.back == ""
    ensures !s.readonly && !s.noPreview && s.previous.None? && Depth(s) == 0
  {
    SidebarState(None, "", "", false, false, "", None)
  }

  /**
   * `setState`: a state for another page remembers the current one, itself
   * stripped of its own previous state; a state for the same page is taken
   * as given.
   */
  function NextState(cur: SidebarState, n: SidebarState): (r: SidebarState)
    ensures r.(previous := n.previous) == n
    ensures n.page != cur.page ==> r.previous.Some? && r.previous.value.(previous := cur.previous) == cur
                                   && Depth(r) == 1
    ensures n.page == cur.page ==> r == n
  {
    if n.page != cur.page then n.(previous := Some(cur.(previous := None))) else n
  }

  /** The state after a sequence of `setState` calls. */
  function Apply(s: SidebarState, updates: seq<SidebarState>): SidebarState {
    if updates == [] then s else NextState(Apply(s, updates[..|updates| - 1]), updates[|updates| - 1])
  }

  /** When callers hand in states of history at most one deep, the history never grows beyond one step. */
  lemma {:induction false} HistoryBounded(s: SidebarState, updates: seq<SidebarState>)
    requires Depth(s) <= 1
    requires forall i | 0 <= i < |updates| :: Depth(updates[i]) <= 1
    ensures Depth(Apply(s, updates)) <= 1
  {
    if updates != [] {
      HistoryBounded(s, updates[..|updates| - 1]);
    }
  }

  /** Starting from the initial state, a single page change leaves exactly the initial state as history. */
  lemma FirstPageChange(n: SidebarState)
    requires n.page.Some?
    ensures Apply(InitialState(), [n]).previous == Some(InitialState())
  {
    assert [n][..0] == [];
  }

  class SidebarRightPanel {
    var state: SidebarState
    /** The sidebar's left and top offsets, the pointer at the start of a resize and the width then. */
    var ox: int
    var oy: int
    var sx: int
    var width: int

    constructor ()
      ensures state == InitialState() && ox == 0 && oy == 0 && sx == 0 && width == 0
    {
      state := InitialState();
      ox := 0;
      oy := 0;
      sx := 0;
      width := 0;
    }

    /** `setState` of the imperative handle. */
    method SetState(newState: SidebarState)
      modifies this`state
      ensures state == NextState(old(state), newState)
    {
      state := NextState(state, newState);
    }

    /** `getState` of the imperative handle: a copy of the state. */
    method GetState() returns (s: SidebarState)
      ensures s == state
    {
      s := state;
    }

    /** `onResizeStart`: records the sidebar's offset, the pointer and the current width. */
    method OnResizeStart(left: int, top: int, pageX: int, outerWidth: int)
      modifies this`ox, this`oy, this`sx, this`width
      ensures ox == left && oy == top && sx == pageX && width == outerWidth
    {
      ox := left;
      oy := top;
      sx := pageX;
      width := outerWidth;
    }

    /**
     * One animation frame of `onResizeMove`: nothing while the sidebar
     * animates or when the width would not change; otherwise the width that
     * puts the sidebar's left edge under the pointer, its right edge fixed.
     */
    method OnResizeMove(pageX: int, animating: bool) returns (newWidth: Option<int>)
      ensures newWidth.Some? <==> !animating && pageX != ox
      ensures newWidth.Some? ==> ox + width == pageX + newWidth.value
      ensures newWidth.Some? ==> newWidth.value != width
    {
      if animating {
        return None;
      }
      var w := width + ox - pageX;
      var d := w - width;
      if d != 0 {
        newWidth := Some(w);
      } else {
        newWidth := None;
      }
    }
  }
}
