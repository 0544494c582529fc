/** Response pagination over a frozen list: one slice, `has_more` and `next_offset`. */
module Paging {
  import opened Wrappers

  datatype Page<T> = Page(items: seq<T>, total: nat, returned: nat, hasMore: bool, nextOffset: Option<nat>)

  /** Python's `list[lo:hi]` for non-negative bounds: both ends are clamped. */
  function Slice<T>(list: seq<T>, lo: nat, hi: nat): seq<T> {
    var from := Min(lo, |list|);
    list[from..Max(from, Min(hi, |list|))]
  }

  function PageOf<T>(list: seq<T>, offset: nat, size: nat): Page<T> {
    var items := Slice(list, offset, offset + size);
    var hasMore := offset + |items| < |list|;
    Page(items, |list|, |items|, hasMore, if hasMore then Some(offset + |items|) else None)
  }

  /**
  A page holds the elements from `offset` on, at most `size` of them and all of them
  otherwise; it says how many there are in the list and on the page, and announces the
  first element it leaves out, if any.
  */
  lemma PageIs<T>(list: seq<T>, offset: nat, size: nat)
    ensures var page := PageOf(list, offset, size);
            && page.total == |list| && page.returned == |page.items| <= size
            && (|page.items| == size || (offset < |list| && offset + |page.items| == |list|) || (offset >= |list| && page.items == []))
            && (forall i | 0 <= i < |page.items| :: offset + i < |list| && page.items[i] == list[offset + i])
            && (page.hasMore <==> offset + size < |list|)
            && (if page.hasMore then page.nextOffset == Some(offset + size) else page.nextOffset == None)
  {
    assert offset < |list| ==> Min(offset, |list|) == offset;
  }

  /** The contracts a caller collects by following `next_offset` from `offset`. */
  function Walk<T>(list: seq<T>, offset: nat, size: nat): seq<T>
    requires 1 <= size
    decreases |list| - offset
  {
    var page := PageOf(list, offset, size);
    page.items + if page.nextOffset.Some? then Walk(list, page.nextOffset.value, size) else []
  }

  /** Following `next_offset` yields each remaining element once and in order. */
  lemma {:induction false} WalkYieldsRest<T>(list: seq<T>, offset: nat, size: nat)
    requires 1 <= size && offset <= |list|
    ensures Walk(list, offset, size) == list[offset..]
    decreases |list| - offset
  {
    var page := PageOf(list, offset, size);
    if page.nextOffset.Some? {
      WalkYieldsRest(list, page.nextOffset.value, size);
      assert list[offset..] == list[offset..offset + size] + list[offset + size..];
    }
  }
}
