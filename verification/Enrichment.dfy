/**
Progressive enrichment of a leveraged-product snapshot
(`services/leveraged_screen_service.py`, `LeveragedScreenService.enrich_snapshot`).

Every call authenticates the next batch of the structural list; a failed batch
leaves the cursor where it was.  Once every product has been attempted the list is
re-aged, globally ranked, and its head re-fetched once.

Times are integer milliseconds, prices are rationals.
*/
module Enrichment {
  import opened Wrappers
  import opened Order
  import opened Paging

  const BATCH_SIZE: nat := 300
  const FINAL_REFRESH_SIZE: nat := 25
  const STALE_AFTER_MS: int := 30_000

  // ---- data ----

  /** A trading-critical quote; `details` stands for the fields that are only copied. */
  datatype RawQuote = RawQuote(buy: Option<real>, sell: Option<real>, updated: Option<int>,
                               lastTrade: Option<int>, details: string)

  datatype Freshness = Freshness(observedAt: int, sourceAt: Option<int>, lastTradeAt: Option<int>,
                                 bidAskAge: Option<int>, lastTradeAge: Option<int>, isFresh: bool)

  datatype LiveQuote = LiveQuote(bid: Option<real>, ask: Option<real>, spread: Option<real>,
                                 details: string, freshness: Freshness)

  /** One row of the frozen structural snapshot. */
  datatype Product = Product(productType: string, orderBookId: string, issuer: string, name: string,
                             turnover: Option<real>, leverageDeviation: Option<real>)

  /** A row with `live_market_data` or `live_market_data_error`, and its retrieval stamp. */
  datatype Enriched = Enriched(product: Product, live: Option<LiveQuote>, failed: bool, retrievedAt: int)

  /** The answer to one authenticated batch: an exception, or one entry per requested path. */
  datatype Reply = Failed(code: string) | Answered(at: nat -> Option<RawQuote>)

  /** Clock readings of one call, in the order the code takes them. */
  datatype Clock = Clock(batchAt: nat -> int, rankAt: int, refreshAt: nat -> int, rerankAt: int)

  datatype Call = Call(batch: Reply, refresh: Reply, clock: Clock)

  // ---- quotes and freshness ----

  function Age(observedAt: int, sourceAt: Option<int>): Option<int> {
    if sourceAt.None? then None else Some(Max(0, observedAt - sourceAt.value))
  }

  predicate TwoWay(bid: Option<real>, ask: Option<real>) {
    bid.Some? && ask.Some? && bid.value > 0.0 && ask.value > 0.0 && ask.value >= bid.value
  }

  predicate Young(age: Option<int>) {
    age.Some? && age.value <= STALE_AFTER_MS
  }

  function Spread(bid: Option<real>, ask: Option<real>): Option<real> {
    if TwoWay(bid, ask) then
      Some((ask.value - bid.value) / ((bid.value + ask.value) / 2.0) * 100.0)
    else None
  }

  function CompactLiveQuote(raw: RawQuote, observedAt: int): LiveQuote {
    var age := Age(observedAt, raw.updated);
    LiveQuote(raw.buy, raw.sell, Spread(raw.buy, raw.sell), raw.details,
              Freshness(observedAt, raw.updated, raw.lastTrade, age, Age(observedAt, raw.lastTrade),
                        TwoWay(raw.buy, raw.sell) && Young(age)))
  }

  function RefreshQuote(q: LiveQuote, observedAt: int): LiveQuote {
    var f := q.freshness;
    var age := Age(observedAt, f.sourceAt);
    q.(freshness := f.(observedAt := observedAt,
                       bidAskAge := if f.sourceAt.Some? then age else f.bidAskAge,
                       lastTradeAge := if f.lastTradeAt.Some? then Age(observedAt, f.lastTradeAt)
                                       else f.lastTradeAge,
                       isFresh := TwoWay(q.bid, q.ask) && Young(age)))
  }

  function RefreshLiveFreshness(e: Enriched, observedAt: int): Enriched {
    if e.live.None? then e else e.(live := Some(RefreshQuote(e.live.value, observedAt)))
  }

  predicate IsFresh(e: Enriched) {
    e.live.Some? && e.live.value.freshness.isFresh
  }

  function ExecutionRank(e: Enriched, preferTarget: bool): Key {
    var bid := if e.live.Some? then e.live.value.bid else None;
    var ask := if e.live.Some? then e.live.value.ask else None;
    var age := if e.live.Some? then e.live.value.freshness.bidAskAge else None;
    var spread := if e.live.Some? then e.live.value.spread else None;
    var quality := if !TwoWay(bid, ask) then 2.0 else if Young(age) then 0.0 else 1.0;
    var turnover := if e.product.turnover.Some? then e.product.turnover.value else 0.0;
    [Num(quality)]
    + (if preferTarget then [OrInfinity(e.product.leverageDeviation)] else [])
    + [OrInfinity(spread),
       if age.Some? then Num(age.value as real) else Infinity,
       Num(-turnover),
       Text(e.product.productType), Text(e.product.issuer), Text(e.product.name),
       Text(e.product.orderBookId)]
  }

  function RankBy(preferTarget: bool): Enriched -> Key {
    (e: Enriched) => ExecutionRank(e, preferTarget)
  }

  // ---- specification of one call ----

  function EnrichOne(p: Product, quote: Option<RawQuote>, at: int): Enriched {
    if quote.None? then Enriched(p, None, true, at)
    else Enriched(p, Some(CompactLiveQuote(quote.value, at)), false, at)
  }

  function EnrichBatch(ps: seq<Product>, reply: nat -> Option<RawQuote>, at: nat -> int): seq<Enriched> {
    seq(|ps|, i requires 0 <= i < |ps| => EnrichOne(ps[i], reply(i), at(i)))
  }

  function SetFreshness(list: seq<Enriched>, at: int): seq<Enriched> {
    seq(|list|, i requires 0 <= i < |list| => RefreshLiveFreshness(list[i], at))
  }

  function Rerank(list: seq<Enriched>, at: int, preferTarget: bool): seq<Enriched> {
    StableSort(SetFreshness(list, at), RankBy(preferTarget))
  }

  /** The refreshed copy of a shortlisted row: its old error key, if any, is kept. */
  function Requote(e: Enriched, raw: RawQuote, at: int): Enriched {
    e.(live := Some(CompactLiveQuote(raw, at)), retrievedAt := at)
  }

  /** `refreshed_by_id` after the first `n` shortlisted rows. */
  function RefreshedById(shortlist: seq<Enriched>, n: nat, reply: nat -> Option<RawQuote>, at: nat -> int)
    : map<string, Enriched>
    requires n <= |shortlist|
  {
    if n == 0 then map[]
    else
      var before := RefreshedById(shortlist, n - 1, reply, at);
      var e := shortlist[n - 1];
      if reply(n - 1).None? then before
      else before[e.product.orderBookId := Requote(e, reply(n - 1).value, at(n - 1))]
  }

  function Substitute(list: seq<Enriched>, byId: map<string, Enriched>): seq<Enriched> {
    seq(|list|, i requires 0 <= i < |list| =>
      if list[i].product.orderBookId in byId then byId[list[i].product.orderBookId] else list[i])
  }

  function Shortlist(list: seq<Enriched>): seq<Enriched> {
    list[..Min(FINAL_REFRESH_SIZE, |list|)]
  }

  function RefreshHead(list: seq<Enriched>, reply: nat -> Option<RawQuote>, at: nat -> int): seq<Enriched> {
    Substitute(list, RefreshedById(Shortlist(list), |Shortlist(list)|, reply, at))
  }

  /** The mutable part of `_Snapshot` that `enrich_snapshot` updates. */
  datatype Progress = Progress(list: seq<Enriched>, next: nat, workerCalls: nat, refreshDone: bool)

  const START := Progress([], 0, 0, false)

  function Scan(ps: seq<Product>, s: Progress, call: Call): Progress {
    if s.next >= |ps| || call.batch.Failed? then s
    else
      var end := Min(|ps|, s.next + BATCH_SIZE);
      Progress(s.list + EnrichBatch(ps[s.next..end], call.batch.at, call.clock.batchAt),
               end, s.workerCalls + 1, s.refreshDone)
  }

  function Finish(ps: seq<Product>, prefer: bool, s: Progress, call: Call): Progress {
    if s.next < |ps| then s
    else
      var ranked := Rerank(s.list, call.clock.rankAt, prefer);
      if s.refreshDone || ranked == [] then s.(list := ranked)
      else if call.refresh.Failed? then s.(list := ranked, refreshDone := true)
      else
        s.(list := Rerank(RefreshHead(ranked, call.refresh.at, call.clock.refreshAt),
                          call.clock.rerankAt, prefer),
           refreshDone := true)
  }

  function EnrichStep(ps: seq<Product>, prefer: bool, s: Progress, call: Call): Progress {
    Finish(ps, prefer, Scan(ps, s, call), call)
  }

  function Run(ps: seq<Product>, prefer: bool, calls: seq<Call>): Progress {
    if calls == [] then START
    else EnrichStep(ps, prefer, Run(ps, prefer, calls[..|calls| - 1]), calls[|calls| - 1])
  }

  /** What the caller sees of a call: nothing until the whole universe has been attempted. */
  function Exposed(ps: seq<Product>, s: Progress, offset: nat, size: nat): Page<Enriched> {
    if s.next >= |ps| then PageOf(s.list, offset, size)
    else Page([], |ps|, 0, false, None)
  }

  // ---- the object ----

  class Snapshot {
    const underlyingId: string
    const direction: string
    const expiresAt: int
    const products: seq<Product>
    const preferTarget: bool
    var executionProducts: seq<Enriched>
    var executionNextIndex: nat
    var executionAuthWorkerCalls: nat
    var finalRefreshCompleted: bool

    ghost function State(): Progress
      reads this
    {
      Progress(executionProducts, executionNextIndex, executionAuthWorkerCalls, finalRefreshCompleted)
    }

    constructor (underlyingId: string, direction: string, expiresAt: int, products: seq<Product>, preferTarget: bool)
      ensures State() == START
      ensures this.underlyingId == underlyingId && this.direction == direction && this.expiresAt == expiresAt
      ensures this.products == products && this.preferTarget == preferTarget
    {
      this.underlyingId, this.direction, this.expiresAt := underlyingId, direction, expiresAt;
      this.products, this.preferTarget := products, preferTarget;
      executionProducts, executionNextIndex := [], 0;
      executionAuthWorkerCalls, finalRefreshCompleted := 0, false;
    }

    /** Attempt the next batch; a failed batch changes nothing. */
    method AttemptBatch(call: Call)
      modifies this
      ensures State() == Scan(products, old(State()), call)
    {
      if executionNextIndex < |products| {
        var start := executionNextIndex;
        var end := Min(|products|, start + BATCH_SIZE);
        var selected := products[start..end];
        if call.batch.Answered? {
          ghost var was := executionProducts;
          ghost var batch := EnrichBatch(selected, call.batch.at, call.clock.batchAt);
          for i := 0 to |selected|
            invariant executionProducts == was + batch[..i]
            invariant executionNextIndex == start && finalRefreshCompleted == old(finalRefreshCompleted)
            invariant executionAuthWorkerCalls == old(executionAuthWorkerCalls)
          {
            var quote := call.batch.at(i);
            if quote.None? {
              executionProducts := executionProducts
                + [Enriched(selected[i], None, true, call.clock.batchAt(i))];
            } else {
              var live := CompactLiveQuote(quote.value, call.clock.batchAt(i));
              executionProducts := executionProducts
                + [Enriched(selected[i], Some(live), false, call.clock.batchAt(i))];
            }
            assert batch[..i + 1] == batch[..i] + [batch[i]];
          }
          assert batch[..|selected|] == batch;
          executionNextIndex := end;
          executionAuthWorkerCalls := executionAuthWorkerCalls + 1;
        }
      }
    }

    /** Re-age every row at one observation time, then sort the list in place. */
    method RankAll(at: int)
      modifies this`executionProducts
      ensures executionProducts == Rerank(old(executionProducts), at, preferTarget)
    {
      ghost var was := executionProducts;
      for i := 0 to |executionProducts|
        invariant |executionProducts| == |was|
        invariant forall j | 0 <= j < i :: executionProducts[j] == RefreshLiveFreshness(was[j], at)
        invariant executionProducts[i..] == was[i..]
      {
        executionProducts := executionProducts[i := RefreshLiveFreshness(executionProducts[i], at)];
      }
      assert executionProducts == SetFreshness(was, at);
      executionProducts := StableSort(executionProducts, RankBy(preferTarget));
    }

    /** Re-fetch the head of the ranking and substitute it by order-book id. */
    method RefreshShortlist(call: Call)
      requires call.refresh.Answered?
      modifies this`executionProducts
      ensures executionProducts
           == RefreshHead(old(executionProducts), call.refresh.at, call.clock.refreshAt)
    {
      var shortlist := Shortlist(executionProducts);
      var byId: map<string, Enriched> := map[];
      for i := 0 to |shortlist|
        invariant byId == RefreshedById(shortlist, i, call.refresh.at, call.clock.refreshAt)
      {
        var quote := call.refresh.at(i);
        if quote.Some? {
          byId := byId[shortlist[i].product.orderBookId :=
            Requote(shortlist[i], quote.value, call.clock.refreshAt(i))];
        }
      }
      executionProducts := Substitute(executionProducts, byId);
    }

    /** One call on this snapshot, once it has been found and matches. */
    method Enrich(offset: nat, pageSize: nat, call: Call) returns (page: Page<Enriched>)
      modifies this
      ensures State() == EnrichStep(products, preferTarget, old(State()), call)
      ensures page == Exposed(products, State(), offset, pageSize)
    {
      AttemptBatch(call);
      if executionNextIndex < |products| {
        return Page([], |products|, 0, false, None);
      }
      RankAll(call.clock.rankAt);
      if !finalRefreshCompleted && executionProducts != [] {
        if call.refresh.Answered? {
          RefreshShortlist(call);
          RankAll(call.clock.rerankAt);
        }
        finalRefreshCompleted := true;
      }
      page := PageOf(executionProducts, offset, pageSize);
    }
  }

  /** Snapshots that have not expired, by id. */
  ghost predicate Purged(before: map<string, Snapshot>, now: int, after: map<string, Snapshot>) {
    && (forall id :: id in after <==> id in before && before[id].expiresAt > now)
    && (forall id | id in after :: after[id] == before[id])
  }

  class LeveragedScreenService {
    var snapshots: map<string, Snapshot>

    constructor ()
      ensures snapshots == map[]
    {
      snapshots := map[];
    }

    /** `_SnapshotStore.put`. */
    method Put(id: string, snapshot: Snapshot, now: int)
      modifies this
      ensures id in snapshots && snapshots[id] == snapshot
      ensures Purged(old(snapshots) - {id}, now, snapshots - {id})
    {
      snapshots := (map key | key in snapshots && snapshots[key].expiresAt > now :: snapshots[key])[id := snapshot];
    }

    /** `_SnapshotStore.get`. */
    method Get(id: string, now: int) returns (r: Result<Snapshot, string>)
      modifies this
      ensures Purged(old(snapshots), now, snapshots)
      ensures r.Ok? <==> id in snapshots
      ensures r.Ok? ==> r.value == snapshots[id]
    {
      snapshots := map key | key in snapshots && snapshots[key].expiresAt > now :: snapshots[key];
      r := if id in snapshots then Ok(snapshots[id]) else Err("snapshot_id was not found or has expired");
    }

    /** The call can be served: its arguments are in range and name a live, matching snapshot. */
    predicate Serves(id: string, underlyingId: string, direction: string, offset: int, pageSize: int, now: int)
      reads this
    {
      && offset >= 0 && pageSize >= 1 && id in snapshots && snapshots[id].expiresAt > now
      && snapshots[id].underlyingId == underlyingId && snapshots[id].direction == direction
    }

    /**
    A call that can be served moves its own snapshot by exactly one step and returns the
    page that step exposes; any other call is an error and moves no snapshot.
    */
    method EnrichSnapshot(id: string, underlyingId: string, direction: string, offset: int, pageSize: int, now: int,
                          call: Call) returns (r: Result<Page<Enriched>, string>)
      modifies this, snapshots.Values
      ensures r.Ok? <==> old(Serves(id, underlyingId, direction, offset, pageSize, now))
      ensures r.Ok? ==>
                var s := old(snapshots[id]);
                && s.State() == EnrichStep(s.products, s.preferTarget, old(snapshots[id].State()), call)
                && r.value == Exposed(s.products, s.State(), offset, pageSize)
      ensures forall key | key in old(snapshots) && (r.Err? || old(snapshots[key]) != old(snapshots[id])) ::
                old(snapshots[key]).State() == old(snapshots[key].State())
    {
      if offset < 0 {
        return Err("offset must be >= 0");
      }
      if pageSize < 1 {
        return Err("page_size must be at least 1");
      }
      var found := Get(id, now);
      if found.Err? {
        return Err(found.error);
      }
      if found.value.underlyingId != underlyingId || found.value.direction != direction {
        return Err("snapshot_id does not match the supplied underlying_order_book_id and direction");
      }
      var page := found.value.Enrich(offset, pageSize, call);
      r := Ok(page);
    }
  }
}
