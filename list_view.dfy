/**
 * The list view of a data view: what it renders for the loaded record ids and
 * the paging metadata `{offset, total}` of its subscription, and how "load
 * more" advances the offset.
 *
 * The windowing itself (which rows of the virtualised list are mounted) is
 * library code; the model keeps the row counts and the threshold handed to it.
 */
module ListView {

  /** Row height of the list. */
  const HEIGHT := 32
  /** Rows before the end of the loaded ones at which the loader asks for more. */
  const THRESHOLD := 10

  /** The paging metadata of the view's subscription (`S.Record.getMeta(subId, '')`). */
  class RecordMeta {
    var offset: int
    var total: int

    constructor (offset: int, total: int)
      ensures this.offset == offset && this.total == total
    {
      this.offset := offset;
      this.total := total;
    }
  }

  /**
   * `loadMoreRows`: the offset advances by the page size; the new offset is
   * requested from the data loader and written back into the metadata.
   * There is no guard against a second call for the same offset.
   */
  method LoadMoreRows(meta: RecordMeta, limit: int) returns (requested: int)
    modifies meta`offset
    ensures requested == old(meta.offset) + limit
    ensures meta.offset == requested && meta.total == old(meta.total)
    ensures requested == OffsetAfter(old(meta.offset), limit, 1)
  {
    var offset := meta.offset;
    offset := offset + limit;
    requested := offset;
    meta.offset := offset;
  }

  /** Two calls before any response request two different pages when the limit is not zero. */
  method LoadMoreTwice(meta: RecordMeta, limit: int) returns (first: int, second: int)
    modifies meta`offset
    ensures first == old(meta.offset) + limit && second == first + limit
    ensures limit != 0 ==> first != second
  {
    first := LoadMoreRows(meta, limit);
    second := LoadMoreRows(meta, limit);
  }

  /** `isRowLoaded`: a row is loaded when the loaded ids hold a non-empty id at its index. */
  function IsRowLoaded(records: seq<string>, index: int): (r: bool)
    ensures r <==> 0 <= index < |records| && records[index] != ""
  {
    if 0 <= index < |records| then records[index] != "" else false
  }

  /** The LoadMore button (inline views only) shows while the next page starts before the total. */
  function ShowLoadMore(isInline: bool, limit: int, offset: int, total: int): (r: bool)
    ensures r <==> isInline && offset + limit < total
  {
    isInline && limit + offset < total
  }

  /** The offset after `k` presses of LoadMore. */
  function OffsetAfter(offset: int, limit: int, k: nat): int {
    offset + k * limit
  }

  /** One more press after `k` presses is `k + 1` presses, as `LoadMoreRows` advances by one page each time. */
  lemma OffsetAfterStep(offset: int, limit: int, k: nat)
    ensures OffsetAfter(offset, limit, k) + limit == OffsetAfter(offset, limit, k + 1)
  {
    assert (k + 1) * limit == k * limit + limit;
  }

  /** With a positive page size, enough presses of LoadMore hide it. */
  lemma {:induction false} LoadMoreEventuallyHidden(offset: int, limit: int, total: int)
    requires limit > 0
    ensures exists k: nat :: !ShowLoadMore(true, limit, OffsetAfter(offset, limit, k), total)
    decreases total - offset
  {
    if offset + limit >= total {
      assert OffsetAfter(offset, limit, 0) == offset;
      assert !ShowLoadMore(true, limit, OffsetAfter(offset, limit, 0), total);
    } else {
      LoadMoreEventuallyHidden(offset + limit, limit, total);
      var k: nat :| !ShowLoadMore(true, limit, OffsetAfter(offset + limit, limit, k), total);
      assert OffsetAfter(offset, limit, k + 1) == OffsetAfter(offset + limit, limit, k) by {
        assert (k + 1) * limit == k * limit + limit;
      }
    }
  }

  /** The record area: inline rows, or the virtualised list under its infinite loader. */
  datatype Body =
    | InlineRows(ids: seq<string>, readonly: bool)
    | Windowed(loaderRowCount: int, threshold: int, listRowCount: int, rowHeight: int)

  /** What the view renders: the empty view, or the records with the optional add row and LoadMore button. */
  datatype ViewOutput = EmptyView | Content(body: Body, addRow: bool, loadMore: bool)

  /** The rendered view for the loaded ids, the permissions and the paging metadata. */
  function Render(records: seq<string>, isInline: bool, isAllowedObject: bool, limit: int, offset: int, total: int): (v: ViewOutput)
    ensures v == EmptyView <==> records == []
    ensures v.Content? ==> (v.body.InlineRows? <==> isInline)
    ensures v.Content? && v.body.InlineRows? ==> v.body == InlineRows(records, !isAllowedObject)
    ensures v.Content? && v.body.Windowed? ==> v.body == Windowed(total, THRESHOLD, |records|, HEIGHT)
    ensures v.Content? ==> (v.addRow <==> isAllowedObject)
    ensures v.Content? ==> (v.loadMore <==> isInline && offset + limit < total)
  {
    if |records| == 0 then EmptyView
    else
      var body := if isInline then InlineRows(records, !isAllowedObject) else Windowed(total, THRESHOLD, |records|, HEIGHT);
      Content(body, isAllowedObject, ShowLoadMore(isInline, limit, offset, total))
  }

  /** The selection is re-applied to the mounted rows after a render only when it is not empty. */
  function RendersSelection(selected: seq<string>): (r: bool)
    ensures r <==> selected != []
  {
    |selected| > 0
  }
}
