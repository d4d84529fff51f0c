/**
 * The settings library sidebar: the list of object types or of relations
 * ("properties") of a space, split into the user's own entries and the
 * system ones, flattened into one virtualised row list.
 *
 * Store lookups are inputs: each record carries whether the delete
 * restriction allows deleting it, the sort options come from the menu helper,
 * and a translated label is represented by its translation key.
 */
module Library {
  import opened Wrappers

  /** The loader threshold of the list. */
  const LIMIT := 30
  const HEIGHT_ITEM := 28
  const HEIGHT_SECTION := 38
  const HEIGHT_SECTION_FIRST := 34

  /** The initial sort id of the page (the "last used" sort). */
  const SORT_LAST_USED := "lastUsed"
  /** The unique key of the type of types, excluded from the type list. */
  const TYPE_KEY_TYPE := "ot-objectType"

  /** Which container the page lists; the empty type string is `NoContainer`. */
  datatype ContainerType = TypeContainer | RelationContainer | NoContainer

  /** The container listed by a sidebar page id. */
  function ContainerOf(page: string): (t: ContainerType)
    ensures t == TypeContainer <==> page == "settingsTypes"
    ensures t == RelationContainer <==> page == "settingsRelations"
  {
    if page == "settingsTypes" then TypeContainer
    else if page == "settingsRelations" then RelationContainer
    else NoContainer
  }

  // ---------------------------------------------------------------------------
  // Sorts and filters of the subscription

  datatype SortType = Asc | Desc | Custom
  datatype EmptyType = EmptyStart | EmptyEnd

  /** A sort of the subscription: key, direction, placement of empty values, custom key order. */
  datatype Sort = Sort(relationKey: string, sortType: SortType, empty: Option<EmptyType>, customOrder: seq<string>)

  /** An entry of the library sort menu. */
  datatype SortOption = SortOption(id: string, relationKey: string, isSort: bool, defaultType: SortType)

  /** The three-key fallback order: manual order with empty values last, type keys in custom order, name. */
  function DefaultSorts(customOrder: seq<string>): seq<Sort> {
    [
      Sort("orderId", Asc, Some(EmptyEnd), []),
      Sort("uniqueKey", Custom, None, customOrder),
      Sort("name", Asc, None, [])
    ]
  }

  /** The index of the first option with id `id` (`options.find`). */
  function FindOption(options: seq<SortOption>, id: string): (r: Option<nat>)
    ensures r.Some? ==> r.value < |options| && options[r.value].id == id
    ensures r.Some? ==> forall j | 0 <= j < r.value :: options[j].id != id
    ensures r.None? ==> forall j | 0 <= j < |options| :: options[j].id != id
  {
    if options == [] then None
    else if options[0].id == id then Some(0)
    else
      match FindOption(options[1..], id)
      case Some(k) => Some(k + 1)
      case None => None
  }

  /** The sorts `load` subscribes with. */
  function LoadSorts(options: seq<SortOption>, sortId: string, sortType: SortType, customOrder: seq<string>): (r: seq<Sort>)
    ensures forall i | 0 <= i < |options| && options[i].id == sortId && (forall j | 0 <= j < i :: options[j].id != sortId) ::
              r == [Sort(options[i].relationKey, sortType, None, [])]
    ensures (forall i | 0 <= i < |options| :: options[i].id != sortId) ==> r == DefaultSorts(customOrder)
  {
    match FindOption(options, sortId)
    case Some(k) => [Sort(options[k].relationKey, sortType, None, [])]
    case None => DefaultSorts(customOrder)
  }

  datatype Condition = Equal | In | NotIn
  datatype Layout = TypeLayout | RelationLayout
  datatype FilterValue = Strings(items: seq<string>) | LayoutIs(layout: Layout)
  datatype Filter = Filter(relationKey: string, condition: Condition, value: FilterValue)

  /** The filters that select the entries of a container. */
  function ContainerFilters(t: ContainerType): seq<Filter> {
    match t
    case TypeContainer => [
      Filter("resolvedLayout", Equal, LayoutIs(TypeLayout)),
      Filter("uniqueKey", NotIn, Strings([TYPE_KEY_TYPE]))
    ]
    case RelationContainer => [Filter("resolvedLayout", Equal, LayoutIs(RelationLayout))]
    case NoContainer => []
  }

  /** The filters `load` subscribes with; `searchIds` are the ids of a full-text search, if one is active. */
  function LoadFilters(searchIds: Option<seq<string>>, t: ContainerType): (r: seq<Filter>)
    ensures (|r| > 0 && r[0].relationKey == "id") <==> searchIds.Some?
    ensures searchIds.Some? ==> r[0] == Filter("id", In, Strings(searchIds.value))
    ensures var rest := if searchIds.Some? then r[1..] else r;
            && (t == TypeContainer ==> rest == [Filter("resolvedLayout", Equal, LayoutIs(TypeLayout)),
                                                Filter("uniqueKey", NotIn, Strings([TYPE_KEY_TYPE]))])
            && (t == RelationContainer ==> rest == [Filter("resolvedLayout", Equal, LayoutIs(RelationLayout))])
            && (t == NoContainer ==> rest == [])
  {
    var search := if searchIds.Some? then [Filter("id", In, Strings(searchIds.value))] else [];
    search + ContainerFilters(t)
  }

  // ---------------------------------------------------------------------------
  // Sections and rows

  /** A library entry; `deletable` is whether its restrictions allow deleting it. */
  datatype Record = Record(id: string, deletable: bool)

  /** The records whose `deletable` flag is `d`, in their original order. */
  function Keep(records: seq<Record>, d: bool): (r: seq<Record>)
    ensures |r| <= |records|
    ensures forall i | 0 <= i < |r| :: r[i].deletable == d && r[i] in records
    ensures forall i | 0 <= i < |records| :: records[i].deletable == d ==> records[i] in r
    ensures |records| == 1 ==> r == (if records[0].deletable == d then records else [])
  {
    if records == [] then []
    else
      var rest := Keep(records[1..], d);
      if records[0].deletable == d then [records[0]] + rest else rest
  }

  /** Filtering distributes over concatenation, so the kept records stay in their original order. */
  lemma {:induction false} KeepAppend(a: seq<Record>, b: seq<Record>, d: bool)
    ensures Keep(a + b, d) == Keep(a, d) + Keep(b, d)
  {
    if a == [] {
      assert a + b == b;
    } else {
      assert (a + b)[0] == a[0];
      assert (a + b)[1..] == a[1..] + b;
      KeepAppend(a[1..], b, d);
    }
  }

  /** Every record is kept by exactly one of the two filters. */
  lemma {:induction false} KeepSplits(records: seq<Record>)
    ensures multiset(Keep(records, true)) + multiset(Keep(records, false)) == multiset(records)
    ensures |Keep(records, true)| + |Keep(records, false)| == |records|
  {
    if records != [] {
      KeepSplits(records[1..]);
      assert records == [records[0]] + records[1..];
    }
  }

  datatype Section = Section(id: string, name: string, children: seq<Record>)

  /** The translation keys of the "my" and "system" headings; an unknown container has none. */
  function Labels(t: ContainerType): (string, string) {
    match t
    case TypeContainer => ("commonMyTypes", "commonSystemTypes")
    case RelationContainer => ("commonMyRelations", "commonSystemRelations")
    case NoContainer => ("", "")
  }

  /** The non-empty sections among "my" (deletable) and "system" (the rest), in that order. */
  function GetSections(records: seq<Record>, t: ContainerType): (r: seq<Section>)
    ensures |r| == (if Keep(records, true) != [] then 1 else 0) + (if Keep(records, false) != [] then 1 else 0)
    ensures forall k | 0 <= k < |r| :: r[k].children != []
    ensures forall k | 0 <= k < |r| ::
              || (r[k] == Section("my", Labels(t).0, Keep(records, true)))
              || (r[k] == Section("system", Labels(t).1, Keep(records, false)))
    ensures |r| == 2 ==> r[0].id == "my" && r[1].id == "system"
    ensures Keep(records, true) != [] ==> r[0].id == "my"
  {
    var my := Section("my", Labels(t).0, Keep(records, true));
    var system := Section("system", Labels(t).1, Keep(records, false));
    (if my.children != [] then [my] else []) + (if system.children != [] then [system] else [])
  }

  /** A row of the list: a section heading or a record. */
  datatype Row = Header(id: string, name: string, isFirst: bool) | Item(record: Record)

  function ItemRows(children: seq<Record>): (r: seq<Row>)
    ensures |r| == |children| && forall i | 0 <= i < |r| :: r[i] == Item(children[i])
  {
    seq(|children|, i requires 0 <= i < |children| => Item(children[i]))
  }

  /** The rows of the section at position `idx`: its heading when it has a name, then its children. */
  function SectionRows(s: Section, idx: nat): seq<Row> {
    (if s.name != "" then [Header(s.id, s.name, idx == 0)] else []) + ItemRows(s.children)
  }

  /** The rows of all sections, section by section. */
  function Flatten(sections: seq<Section>): seq<Row> {
    if sections == [] then []
    else Flatten(sections[..|sections| - 1]) + SectionRows(sections[|sections| - 1], |sections| - 1)
  }

  /** The list rows: each named section's heading (only the first section's flagged first), then its children. */
  method GetItems(sections: seq<Section>) returns (items: seq<Row>)
    ensures items == Flatten(sections)
  {
    items := [];
    var idx := 0;
    while idx < |sections|
      invariant 0 <= idx <= |sections|
      invariant items == Flatten(sections[..idx])
    {
      var section := sections[idx];
      if section.name != "" {
        var item := Header(section.id, section.name, idx == 0);
        items := items + [item];
      }
      items := items + ItemRows(section.children);
      assert sections[..idx + 1][..idx] == sections[..idx];
      idx := idx + 1;
    }
    assert sections[..idx] == sections;
  }

  /** The number of children of all sections. */
  function ChildCount(sections: seq<Section>): nat {
    if sections == [] then 0 else ChildCount(sections[..|sections| - 1]) + |sections[|sections| - 1].children|
  }

  /** The number of sections with a name. */
  function NamedCount(sections: seq<Section>): nat {
    if sections == [] then 0
    else NamedCount(sections[..|sections| - 1]) + (if sections[|sections| - 1].name != "" then 1 else 0)
  }

  /** All children of all sections, section by section (the `reduce` of `openFirst`). */
  function Concat(sections: seq<Section>): seq<Record> {
    if sections == [] then [] else Concat(sections[..|sections| - 1]) + sections[|sections| - 1].children
  }

  /** The records of the item rows, in row order. */
  function RowRecords(rows: seq<Row>): seq<Record> {
    if rows == [] then []
    else (if rows[0].Item? then [rows[0].record] else []) + RowRecords(rows[1..])
  }

  lemma {:induction false} RowRecordsAppend(a: seq<Row>, b: seq<Row>)
    ensures RowRecords(a + b) == RowRecords(a) + RowRecords(b)
  {
    if a != [] {
      assert (a + b)[0] == a[0];
      assert (a + b)[1..] == a[1..] + b;
      RowRecordsAppend(a[1..], b);
    } else {
      assert a + b == b;
    }
  }

  lemma {:induction false} RowRecordsOfItems(children: seq<Record>)
    ensures RowRecords(ItemRows(children)) == children
  {
    if children != [] {
      assert ItemRows(children)[1..] == ItemRows(children[1..]);
      RowRecordsOfItems(children[1..]);
    }
  }

  /** The row count is the number of children plus one heading per named section. */
  lemma {:induction false} FlattenLength(sections: seq<Section>)
    ensures |Flatten(sections)| == ChildCount(sections) + NamedCount(sections)
  {
    if sections != [] {
      FlattenLength(sections[..|sections| - 1]);
    }
  }

  /** The item rows are exactly the children of the sections, in their original order. */
  lemma {:induction false} FlattenRecords(sections: seq<Section>)
    ensures RowRecords(Flatten(sections)) == Concat(sections)
  {
    if sections != [] {
      var n := |sections| - 1;
      var s := sections[n];
      FlattenRecords(sections[..n]);
      var head: seq<Row> := if s.name != "" then [Header(s.id, s.name, n == 0)] else [];
      RowRecordsAppend(Flatten(sections[..n]), head + ItemRows(s.children));
      RowRecordsAppend(head, ItemRows(s.children));
      RowRecordsOfItems(s.children);
      assert RowRecords(head) == [];
    }
  }

  /** A row is a heading flagged first exactly when it is row 0 and the first section has a name. */
  lemma {:induction false} FlattenFirstFlag(sections: seq<Section>, i: nat)
    requires i < |Flatten(sections)|
    ensures (Flatten(sections)[i].Header? && Flatten(sections)[i].isFirst) <==> (i == 0 && sections[0].name != "")
  {
    var n := |sections| - 1;
    var s := sections[n];
    var prefix := Flatten(sections[..n]);
    assert Flatten(sections) == prefix + SectionRows(s, n);
    if n == 0 {
      assert prefix == [];
    } else if i < |prefix| {
      FlattenFirstFlag(sections[..n], i);
    } else {
      var j := i - |prefix|;
      assert Flatten(sections)[i] == SectionRows(s, n)[j];
      if |prefix| == 0 {
        FlattenLength(sections[..n]);
        assert sections[..n] == [sections[0]] + sections[1..n];
        assert sections[..n][..0] == [];
        assert Flatten([sections[0]]) == SectionRows(sections[0], 0);
        assert sections[..1] == [sections[0]];
        FirstRowsEmpty(sections[..n]);
      }
    }
  }

  /** If a non-empty section list flattens to no rows, its first section has no name. */
  lemma {:induction false} FirstRowsEmpty(sections: seq<Section>)
    requires sections != [] && Flatten(sections) == []
    ensures sections[0].name == ""
  {
    var n := |sections| - 1;
    if n > 0 {
      assert Flatten(sections) == Flatten(sections[..n]) + SectionRows(sections[n], n);
      FirstRowsEmpty(sections[..n]);
    } else {
      assert Flatten(sections) == Flatten(sections[..0]) + SectionRows(sections[0], 0);
    }
  }

  /** The height of a row: 34 for the first heading, 38 for other headings, 28 for records. */
  function RowHeight(row: Row): (h: nat)
    ensures row.Item? ==> h == HEIGHT_ITEM
    ensures row.Header? ==> h == if row.isFirst then HEIGHT_SECTION_FIRST else HEIGHT_SECTION
  {
    if row.Header? then (if row.isFirst then HEIGHT_SECTION_FIRST else HEIGHT_SECTION) else HEIGHT_ITEM
  }

  /** The height of each row of the flattened list, by position. */
  lemma RowHeightAt(sections: seq<Section>, i: nat)
    requires i < |Flatten(sections)|
    ensures RowHeight(Flatten(sections)[i]) ==
            if i == 0 && sections[0].name != "" then HEIGHT_SECTION_FIRST
            else if Flatten(sections)[i].Header? then HEIGHT_SECTION
            else HEIGHT_ITEM
  {
    FlattenFirstFlag(sections, i);
  }

  function TotalHeight(rows: seq<Row>): nat {
    if rows == [] then 0 else RowHeight(rows[0]) + TotalHeight(rows[1..])
  }

  lemma {:induction false} TotalHeightAppend(a: seq<Row>, b: seq<Row>)
    ensures TotalHeight(a + b) == TotalHeight(a) + TotalHeight(b)
  {
    if a != [] {
      assert (a + b)[0] == a[0];
      assert (a + b)[1..] == a[1..] + b;
      TotalHeightAppend(a[1..], b);
    } else {
      assert a + b == b;
    }
  }

  lemma {:induction false} TotalHeightOfItems(children: seq<Record>)
    ensures TotalHeight(ItemRows(children)) == HEIGHT_ITEM * |children|
  {
    if children != [] {
      assert ItemRows(children)[1..] == ItemRows(children[1..]);
      TotalHeightOfItems(children[1..]);
    }
  }

  /** The height of the whole list: 28 per record, 38 per heading, 4 less when the first section is named. */
  lemma {:induction false} FlattenHeight(sections: seq<Section>)
    ensures TotalHeight(Flatten(sections)) ==
            HEIGHT_ITEM * ChildCount(sections) + HEIGHT_SECTION * NamedCount(sections)
            - (if sections != [] && sections[0].name != "" then HEIGHT_SECTION - HEIGHT_SECTION_FIRST else 0)
  {
    if sections != [] {
      var n := |sections| - 1;
      var s := sections[n];
      FlattenHeight(sections[..n]);
      var head: seq<Row> := if s.name != "" then [Header(s.id, s.name, n == 0)] else [];
      TotalHeightAppend(Flatten(sections[..n]), head + ItemRows(s.children));
      TotalHeightAppend(head, ItemRows(s.children));
      TotalHeightOfItems(s.children);
      if n > 0 {
        assert sections[..n][0] == sections[0];
        if s.name != "" {
          NamedAtLeastFirst(sections[..n]);
        }
      }
    }
  }

  /** A named first section is counted among the named ones. */
  lemma {:induction false} NamedAtLeastFirst(sections: seq<Section>)
    requires sections != []
    ensures sections[0].name != "" ==> NamedCount(sections) >= 1
  {
    var n := |sections| - 1;
    if n > 0 {
      assert sections[..n][0] == sections[0];
      NamedAtLeastFirst(sections[..n]);
    }
  }

  /** The children of the kept sections are the deletable records followed by the others. */
  lemma SectionsConcat(records: seq<Record>, t: ContainerType)
    ensures Concat(GetSections(records, t)) == Keep(records, true) + Keep(records, false)
  {
    var r := GetSections(records, t);
    if |r| == 2 {
      assert r[..1] == [r[0]];
      assert Concat(r[..1]) == Concat([]) + r[0].children;
    } else if |r| == 1 {
      assert Concat(r) == Concat([]) + r[0].children;
    }
  }

  /** Every record lands in exactly one kept section. */
  lemma SectionsPartition(records: seq<Record>, t: ContainerType)
    ensures multiset(Concat(GetSections(records, t))) == multiset(records)
  {
    SectionsConcat(records, t);
    KeepSplits(records);
  }

  /** The rows of the library list hold every record once, plus one heading per named kept section. */
  lemma ItemCount(records: seq<Record>, t: ContainerType)
    ensures |Flatten(GetSections(records, t))| == |records| + NamedCount(GetSections(records, t))
    ensures t != NoContainer ==> NamedCount(GetSections(records, t)) == |GetSections(records, t)|
    ensures t == NoContainer ==> NamedCount(GetSections(records, t)) == 0
  {
    var r := GetSections(records, t);
    FlattenLength(r);
    KeepSplits(records);
    if |r| == 2 {
      assert r[..1] == [r[0]];
      assert ChildCount(r[..1]) == ChildCount([]) + |r[0].children|;
      assert NamedCount(r[..1]) == NamedCount([]) + (if r[0].name != "" then 1 else 0);
    } else if |r| == 1 {
      assert ChildCount(r) == ChildCount([]) + |r[0].children|;
      assert NamedCount(r) == NamedCount([]) + (if r[0].name != "" then 1 else 0);
    }
  }

  // ---------------------------------------------------------------------------
  // Opening the first entry

  /** Whether a record with id `id` is in `records` (`records.find`). */
  function HasId(records: seq<Record>, id: string): (r: bool)
    ensures r <==> exists i | 0 <= i < |records| :: records[i].id == id
  {
    if records == [] then false else records[0].id == id || HasId(records[1..], id)
  }

  /** The record `openFirst` opens: none when the routed object is listed or nothing is, else the first listed. */
  function OpenFirst(sections: seq<Section>, routedId: Option<string>): (r: Option<Record>)
    ensures var all := Concat(sections);
            r.None? <==> all == [] || (routedId.Some? && exists i | 0 <= i < |all| :: all[i].id == routedId.value)
    ensures r.Some? ==> Concat(sections) != [] && r.value == Concat(sections)[0]
  {
    var all := Concat(sections);
    if all == [] || (routedId.Some? && HasId(all, routedId.value)) then None else Some(all[0])
  }

  /** Two lists with the same elements list the same ids. */
  lemma SameIds(a: seq<Record>, b: seq<Record>, id: string)
    requires multiset(a) == multiset(b)
    ensures HasId(a, id) == HasId(b, id)
  {
    if HasId(a, id) {
      var i :| 0 <= i < |a| && a[i].id == id;
      assert a[i] in multiset(b);
      var j :| 0 <= j < |b| && b[j] == a[i];
    }
    if HasId(b, id) {
      var i :| 0 <= i < |b| && b[i].id == id;
      assert b[i] in multiset(a);
      var j :| 0 <= j < |a| && a[j] == b[i];
    }
  }

  /** Over the library sections: nothing opens iff no records or the routed one is among them; else "my" comes first. */
  lemma OpenFirstOverRecords(records: seq<Record>, t: ContainerType, routedId: Option<string>)
    ensures var r := OpenFirst(GetSections(records, t), routedId);
            && (r.None? <==> records == [] || (routedId.Some? && HasId(records, routedId.value)))
            && (r.Some? ==> r.value == if Keep(records, true) != [] then Keep(records, true)[0] else Keep(records, false)[0])
  {
    var all := Concat(GetSections(records, t));
    SectionsConcat(records, t);
    SectionsPartition(records, t);
    assert |all| == |records| by {
      assert |multiset(all)| == |multiset(records)|;
    }
    if routedId.Some? {
      SameIds(all, records, routedId.value);
    }
  }

  // ---------------------------------------------------------------------------
  // Page state: sort choice, stored preference, search filter

  /** A stored sort preference. */
  datatype SortPref = SortPref(id: string, sortType: SortType)

  /** The persisted "settingsLibrary" entry: an optional sort map per container and any other keys. */
  datatype StoredLibrary = StoredLibrary(sort: Option<map<ContainerType, SortPref>>, other: map<string, string>)

  /** `storageGet`: the stored entry, or an empty one, always with a sort map. */
  function StorageGet(stored: Option<StoredLibrary>): (r: StoredLibrary)
    ensures r.sort.Some?
    ensures stored.None? ==> r == StoredLibrary(Some(map[]), map[])
    ensures stored.Some? ==> r.other == stored.value.other
    ensures stored.Some? && stored.value.sort.Some? ==> r == stored.value
    ensures stored.Some? && stored.value.sort.None? ==> r.sort == Some(map[])
  {
    var s := stored.GetOr(StoredLibrary(None, map[]));
    s.(sort := Some(s.sort.GetOr(map[])))
  }

  /** The stored sort preference of container `t`, if any. */
  function StoredPref(stored: Option<StoredLibrary>, t: ContainerType): (r: Option<SortPref>)
    ensures r.Some? ==> stored.Some? && stored.value.sort.Some? && t in stored.value.sort.value
                        && r.value == stored.value.sort.value[t]
    ensures stored.Some? && stored.value.sort.Some? && t in stored.value.sort.value ==> r == Some(stored.value.sort.value[t])
  {
    var sorts := StorageGet(stored).sort.value;
    if t in sorts then Some(sorts[t]) else None
  }

  /** The first menu option that is a sort. */
  function FirstSortable(options: seq<SortOption>): (r: Option<SortOption>)
    ensures r.Some? ==> r.value.isSort
    ensures r.Some? ==> exists i | 0 <= i < |options| :: options[i] == r.value && forall j | 0 <= j < i :: !options[j].isSort
    ensures r.None? ==> forall j | 0 <= j < |options| :: !options[j].isSort
  {
    if options == [] then None
    else if options[0].isSort then Some(options[0])
    else
      var r := FirstSortable(options[1..]);
      if r.Some? then
        assert exists i | 0 <= i < |options| :: options[i] == r.value && forall j | 0 <= j < i :: !options[j].isSort by {
          var i :| 0 <= i < |options[1..]| && options[1..][i] == r.value && forall j | 0 <= j < i :: !options[1..][j].isSort;
          assert options[i + 1] == r.value;
          assert forall j | 0 <= j < i + 1 :: !options[j].isSort by {
            forall j | 0 <= j < i + 1 ensures !options[j].isSort {
              if j > 0 { assert options[j] == options[1..][j - 1]; }
            }
          }
        }
        r
      else r
  }

  /** The props of the virtualised list: its row count, the loader threshold and the overscan. */
  datatype ListProps = ListProps(rowCount: nat, threshold: nat, overscan: nat)

  /** The list is rendered only when there are rows, with one list row per row and the page size as threshold. */
  function RenderedList(items: seq<Row>): (r: Option<ListProps>)
    ensures r.None? <==> items == []
    ensures r.Some? ==> r.value.rowCount == |items| && r.value.threshold == LIMIT && r.value.overscan == 10
  {
    if |items| > 0 then Some(ListProps(|items|, LIMIT, 10)) else None
  }

  datatype FilterEffect = Unchanged | Search(text: string) | SearchCleared

  class LibraryPage {
    const container: ContainerType
    var sortId: string
    var sortType: SortType
    /** The applied search text. */
    var filter: string
    /** The ids of the running full-text search, or `None` without one. */
    var searchIds: Option<seq<string>>
    /** The persisted "settingsLibrary" entry. */
    var stored: Option<StoredLibrary>

    constructor (page: string, stored: Option<StoredLibrary>)
      ensures container == ContainerOf(page) && this.stored == stored
      ensures sortId == SORT_LAST_USED && sortType == Desc && filter == "" && searchIds == None
    {
      container := ContainerOf(page);
      sortId := SORT_LAST_USED;
      sortType := Desc;
      filter := "";
      searchIds := None;
      this.stored := stored;
    }

    /**
     * `initSort`: a stored preference for the container wins; without one the
     * first sortable option of `options` (the sort menu) supplies id and
     * direction; with neither nothing changes.
     */
    method InitSort(options: seq<SortOption>)
      modifies this`sortId, this`sortType
      ensures var pref := StoredPref(stored, container);
              && (pref.Some? ==> sortId == pref.value.id && sortType == pref.value.sortType)
              && (pref.None? && FirstSortable(options).Some? ==>
                    sortId == FirstSortable(options).value.id && sortType == FirstSortable(options).value.defaultType)
              && (pref.None? && FirstSortable(options).None? ==> sortId == old(sortId) && sortType == old(sortType))
    {
      var storage := StorageGet(stored);
      var sort := if container in storage.sort.value then Some(storage.sort.value[container]) else None;
      if sort.None? {
        var first := FirstSortable(options);
        if first.Some? {
          sortId := first.value.id;
          sortType := first.value.defaultType;
        }
      }
      if sort.Some? {
        sortId := sort.value.id;
        sortType := sort.value.sortType;
      }
    }

    /** Choosing a sort in the menu: it is stored for the container and becomes the current sort. */
    method OnSelect(itemId: string, itemType: SortType, options: seq<SortOption>)
      modifies this`sortId, this`sortType, this`stored
      ensures var s := StorageGet(old(stored));
              stored == Some(s.(sort := Some(s.sort.value[container := SortPref(itemId, itemType)])))
      ensures sortId == itemId && sortType == itemType
    {
      var storage := StorageGet(stored);
      sortId := itemId;
      sortType := itemType;
      storage := storage.(sort := Some(storage.sort.value[container := SortPref(itemId, itemType)]));
      stored := Some(storage);
      InitSort(options);
    }

    /** The sorts and filters of the subscription `load` issues. */
    method Load(options: seq<SortOption>, customOrder: seq<string>) returns (sorts: seq<Sort>, filters: seq<Filter>)
      ensures sorts == LoadSorts(options, sortId, sortType, customOrder)
      ensures filters == LoadFilters(searchIds, container)
    {
      sorts := LoadSorts(options, sortId, sortType, customOrder);
      filters := LoadFilters(searchIds, container);
    }

    /**
     * The debounced part of `onFilterChange`: a value equal to the applied one
     * is ignored; a new one is applied and starts a full-text search, or clears
     * the search ids when empty.
     */
    method ApplyFilter(v: string) returns (effect: FilterEffect)
      modifies this`filter, this`searchIds
      ensures old(filter) == v ==> effect == Unchanged && filter == old(filter) && searchIds == old(searchIds)
      ensures old(filter) != v ==> filter == v
      ensures old(filter) != v && v != "" ==> effect == Search(v) && searchIds == old(searchIds)
      ensures old(filter) != v && v == "" ==> effect == SearchCleared && searchIds == None
    {
      effect := Unchanged;
      if filter != v {
        filter := v;
        if filter != "" {
          effect := Search(filter);
        } else {
          searchIds := None;
          effect := SearchCleared;
        }
      }
    }

    /**
     * The relation editor's `addCommand` after creating a relation from the
     * library: a new relation id is appended to a running search, so it stays
     * listed. The `filter` the command tests is the reference object itself,
     * always truthy, so the filter text plays no part.
     */
    method OnRelationAdded(relationId: string)
      modifies this`searchIds
      ensures relationId != "" && old(searchIds).Some? ==> searchIds == Some(old(searchIds).value + [relationId])
      ensures relationId == "" || old(searchIds).None? ==> searchIds == old(searchIds)
    {
      if relationId != "" && searchIds.Some? {
        searchIds := Some(searchIds.value + [relationId]);
      }
    }

    /** The search response: the ids found become the search ids. */
    method OnSearchResult(ids: seq<string>)
      modifies this`searchIds
      ensures searchIds == Some(ids)
    {
      searchIds := Some(ids);
    }

    /** Clearing the filter input drops the search ids but keeps the applied text. */
    method OnFilterClear()
      modifies this`searchIds
      ensures searchIds == None && filter == old(filter)
    {
      searchIds := None;
    }
  }
}
