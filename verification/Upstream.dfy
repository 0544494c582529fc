/**
A paged filter endpoint and the adaptive collectors that read it
(`services/leveraged_screen_service.py`, `_collect_certificates` and
`_collect_warrants`, whose paging is the same code).
*/
module Upstream {
  import opened Wrappers
  import opened Paging

  datatype Response<T> = Response(items: seq<T>, total: Option<nat>)

  /**
  The endpoint serves slices of one list.  It may cap the requested page size at
  `cap`, and a response may or may not report the length of the list.
  */
  datatype Server<T> = Server(list: seq<T>, cap: nat, reports: nat -> bool) {
    function Fetch(offset: nat, limit: nat): Response<T> {
      Response(Slice(list, offset, offset + Min(cap, limit)),
               if reports(offset) then Some(|list|) else None)
    }
  }

  const FALLBACK_REQUEST_SIZE: nat := 500

  /** The catalog count when it is known and positive, the fallback otherwise. */
  function RequestSize(catalogCount: Option<nat>): (size: nat)
    ensures 1 <= size
  {
    if catalogCount.Some? && catalogCount.value > 0 then catalogCount.value else FALLBACK_REQUEST_SIZE
  }

  /** Consecutive slices of one list concatenate to a longer slice. */
  lemma SlicesJoin<T>(list: seq<T>, offset: nat, step: nat)
    ensures list[..Min(offset, |list|)] + Slice(list, offset, offset + step)
         == list[..Min(offset + step, |list|)]
  {
  }

  /**
  Nothing is lost and nothing is read twice: whatever page size is requested,
  however the server caps it, and whichever responses report the total, the
  collector stops with exactly the upstream list; only a server that serves no
  rows at all can withhold it.
  */
  method CollectProducts<T(==)>(server: Server<T>, requestSize: nat) returns (items: seq<T>, total: Option<nat>)
    requires 1 <= requestSize
    ensures items == server.list <==> server.cap >= 1 || server.list == []
    ensures server.cap == 0 ==> items == []
    ensures total.Some? ==> total.value == |server.list|
  {
    var first := server.Fetch(0, requestSize);
    items, total := first.items, first.total;
    var pageStep := |first.items|;
    assert first.items == server.list[..pageStep];
    if total.Some? && pageStep < total.value {
      if pageStep == 0 {
        return [], total;
      }
      var offset := pageStep;
      while offset < total.value
        invariant items == server.list[..Min(offset, |server.list|)]
      {
        var response := server.Fetch(offset, requestSize);
        SlicesJoin(server.list, offset, pageStep);
        items := items + response.items;
        offset := offset + pageStep;
      }
    } else {
      var offset := pageStep;
      while first.items != [] && pageStep > 0 && (total.None? || offset < total.value)
        invariant offset <= |server.list| && items == server.list[..offset]
        invariant pageStep == 0 ==> offset == 0
        invariant total.Some? ==> total.value == |server.list|
        decreases |server.list| - offset
      {
        var response := server.Fetch(offset, requestSize);
        var page := response.items;
        if page == [] {
          break;
        }
        SlicesJoin(server.list, offset, pageStep);
        items := items + page;
        if response.total.Some? {
          total := response.total;
        }
        offset := offset + |page|;
        if |page| < pageStep {
          break;
        }
      }
    }
    assert server.list[..|server.list|] == server.list;
  }
}
