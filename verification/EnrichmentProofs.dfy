/** What every run of `enrich_snapshot` calls keeps, and what a completed run returns. */
module EnrichmentProofs {
  import opened Wrappers
  import opened Order
  import opened Paging
  import opened Enrichment

  // ---- the cursor ----

  /** Calls whose batch was answered. */
  function Answers(calls: seq<Call>): nat {
    if calls == [] then 0
    else Answers(calls[..|calls| - 1]) + if calls[|calls| - 1].batch.Answered? then 1 else 0
  }

  function CeilDiv(n: nat, d: nat): nat
    requires d > 0
  {
    (n + d - 1) / d
  }

  lemma RerankShape(list: seq<Enriched>, at: int, prefer: bool)
    ensures |Rerank(list, at, prefer)| == |list|
    ensures multiset(Rerank(list, at, prefer)) == multiset(SetFreshness(list, at))
    ensures forall x | x in Rerank(list, at, prefer) :: x in SetFreshness(list, at)
  {
    SortSorts(SetFreshness(list, at), RankBy(prefer));
    SameElements(SetFreshness(list, at), Rerank(list, at, prefer));
  }

  lemma FinishShape(ps: seq<Product>, prefer: bool, s: Progress, call: Call)
    ensures var f := Finish(ps, prefer, s, call);
            |f.list| == |s.list| && f.next == s.next && f.workerCalls == s.workerCalls
  {
  }

  /**
  After any calls the cursor is `min(total, 300 * worker calls)`, the list is exactly
  that long, only answered batches count, and the scan is complete exactly when
  `ceil(total / 300)` batches have been answered, however many failed in between.
  */
  lemma {:induction false} CursorArithmetic(ps: seq<Product>, prefer: bool, calls: seq<Call>)
    ensures var s := Run(ps, prefer, calls);
            && s.next == |s.list| == Min(|ps|, 300 * s.workerCalls)
            && s.workerCalls == Min(CeilDiv(|ps|, 300), Answers(calls))
            && (s.next >= |ps| <==> Answers(calls) >= CeilDiv(|ps|, 300))
  {
    if calls != [] {
      var last := |calls| - 1;
      CursorArithmetic(ps, prefer, calls[..last]);
      var s := Run(ps, prefer, calls[..last]);
      FinishShape(ps, prefer, Scan(ps, s, calls[last]), calls[last]);
    }
  }

  function TheProduct(): Enriched -> Product {
    (e: Enriched) => e.product
  }

  function ProductsOf(list: seq<Enriched>): seq<Product> {
    Map(list, TheProduct())
  }

  /** Until the scan completes the list extends the structural prefix row by row. */
  lemma {:induction false} PrefixUntilComplete(ps: seq<Product>, prefer: bool, calls: seq<Call>)
    requires Run(ps, prefer, calls).next < |ps|
    ensures ProductsOf(Run(ps, prefer, calls).list) == ps[..Run(ps, prefer, calls).next]
  {
    if calls != [] {
      var last := |calls| - 1;
      CursorArithmetic(ps, prefer, calls);
      CursorArithmetic(ps, prefer, calls[..last]);
      PrefixUntilComplete(ps, prefer, calls[..last]);
      var s := Run(ps, prefer, calls[..last]);
      var call := calls[last];
      if call.batch.Answered? {
        var end := Min(|ps|, s.next + BATCH_SIZE);
        var batch := EnrichBatch(ps[s.next..end], call.batch.at, call.clock.batchAt);
        BatchShape(ps[s.next..end], call.batch.at, call.clock.batchAt);
        assert ProductsOf(s.list + batch) == ProductsOf(s.list) + ProductsOf(batch);
      }
    }
  }

  // ---- conservation ----

  ghost predicate DistinctIds(ps: seq<Product>) {
    forall i, j | 0 <= i < j < |ps| :: ps[i].orderBookId != ps[j].orderBookId
  }

  /** In this list an order-book id identifies the row. */
  ghost predicate IdDetermines(list: seq<Enriched>) {
    forall x, y | x in list && y in list && x.product.orderBookId == y.product.orderBookId :: x == y
  }

  lemma RerankConserves(list: seq<Enriched>, at: int, prefer: bool)
    ensures multiset(ProductsOf(Rerank(list, at, prefer))) == multiset(ProductsOf(list))
    ensures IdDetermines(list) ==> IdDetermines(Rerank(list, at, prefer))
  {
    RerankShape(list, at, prefer);
    MapPermutes(Rerank(list, at, prefer), SetFreshness(list, at), TheProduct());
    assert ProductsOf(SetFreshness(list, at)) == ProductsOf(list);
    if IdDetermines(list) {
      forall x, y | x in Rerank(list, at, prefer) && y in Rerank(list, at, prefer)
                    && x.product.orderBookId == y.product.orderBookId
        ensures x == y
      {
        var i :| 0 <= i < |list| && x == RefreshLiveFreshness(list[i], at);
        var j :| 0 <= j < |list| && y == RefreshLiveFreshness(list[j], at);
        assert list[i] in list && list[j] in list;
      }
    }
  }

  /** Every entry of `refreshed_by_id` is the latest answered shortlist row with that id. */
  lemma {:induction false} RefreshedEntry(shortlist: seq<Enriched>, n: nat, reply: nat -> Option<RawQuote>,
                                          at: nat -> int, id: string)
    requires n <= |shortlist|
    ensures var byId := RefreshedById(shortlist, n, reply, at);
            && (id in byId <==> exists k | 0 <= k < n :: shortlist[k].product.orderBookId == id && reply(k).Some?)
            && (id in byId ==> exists k | 0 <= k < n :: shortlist[k].product.orderBookId == id && reply(k).Some?
                                 && byId[id] == Requote(shortlist[k], reply(k).value, at(k)))
  {
    if n > 0 { RefreshedEntry(shortlist, n - 1, reply, at, id); }
  }

  /** No answered shortlist row shares its id with a structurally different row. */
  ghost predicate HeadIsUnambiguous(list: seq<Enriched>, reply: nat -> Option<RawQuote>) {
    forall k, e | 0 <= k < |Shortlist(list)| && reply(k).Some? && e in list
                  && e.product.orderBookId == list[k].product.orderBookId :: e.product == list[k].product
  }

  lemma SubstitutedRow(list: seq<Enriched>, reply: nat -> Option<RawQuote>, at: nat -> int, i: nat)
    returns (k: int)
    requires i < |list|
    ensures k == -1 ==> RefreshHead(list, reply, at)[i] == list[i]
    ensures k != -1 ==> 0 <= k < |Shortlist(list)| && reply(k).Some?
                        && list[k].product.orderBookId == list[i].product.orderBookId
                        && RefreshHead(list, reply, at)[i] == Requote(list[k], reply(k).value, at(k))
    ensures k == -1 <==> list[i].product.orderBookId
                           !in RefreshedById(Shortlist(list), |Shortlist(list)|, reply, at)
    ensures k == -1 ==> forall m | 0 <= m < |Shortlist(list)| && reply(m).Some? ::
                          list[m].product.orderBookId != list[i].product.orderBookId
  {
    var short := Shortlist(list);
    RefreshedEntry(short, |short|, reply, at, list[i].product.orderBookId);
    if list[i].product.orderBookId in RefreshedById(short, |short|, reply, at) {
      k :| 0 <= k < |short| && short[k].product.orderBookId == list[i].product.orderBookId && reply(k).Some?
           && RefreshedById(short, |short|, reply, at)[list[i].product.orderBookId]
              == Requote(short[k], reply(k).value, at(k));
    } else {
      k := -1;
      forall m | 0 <= m < |short| && reply(m).Some?
        ensures list[m].product.orderBookId != list[i].product.orderBookId
      {
        assert short[m].product.orderBookId == list[m].product.orderBookId;
      }
    }
  }

  /**
  The final refresh is keyed by order-book id alone, so it keeps the products
  exactly when no answered shortlist row shares its id with another product.
  */
  lemma RefreshConservesIff(list: seq<Enriched>, reply: nat -> Option<RawQuote>, at: nat -> int)
    ensures multiset(ProductsOf(RefreshHead(list, reply, at))) == multiset(ProductsOf(list))
       <==> HeadIsUnambiguous(list, reply)
  {
    var head := RefreshHead(list, reply, at);
    if HeadIsUnambiguous(list, reply) {
      forall i | 0 <= i < |list| ensures head[i].product == list[i].product {
        var k := SubstitutedRow(list, reply, at, i);
      }
      assert ProductsOf(head) == ProductsOf(list);
    } else {
      var k, j :| 0 <= k < |Shortlist(list)| && reply(k).Some? && 0 <= j < |list|
                  && list[j].product.orderBookId == list[k].product.orderBookId
                  && list[j].product != list[k].product;
      var kept := SubstitutedRow(list, reply, at, k);
      var lost := if head[k].product == list[k].product then list[j].product else list[k].product;
      forall i | 0 <= i < |list| ensures head[i].product != lost {
        var m := SubstitutedRow(list, reply, at, i);
        if list[i].product.orderBookId == lost.orderBookId { assert head[i] == head[k]; }
      }
      assert lost !in ProductsOf(head);
      assert lost in ProductsOf(list) by {
        assert ProductsOf(list)[j] == list[j].product && ProductsOf(list)[k] == list[k].product;
      }
      assert lost in multiset(ProductsOf(list)) && lost !in multiset(ProductsOf(head));
    }
  }

  /** Both sides occur: a certificate and a warrant sharing an id lose one of the two products. */
  lemma SharedIdLosesProduct() returns (list: seq<Enriched>, reply: nat -> Option<RawQuote>, at: nat -> int)
    ensures |list| == 2 && list[0].product != list[1].product
    ensures list[0].product.orderBookId == list[1].product.orderBookId
    ensures multiset(ProductsOf(RefreshHead(list, reply, at))) != multiset(ProductsOf(list))
  {
    var certificate := Product("certificate", "1", "A", "X", None, None);
    var warrant := certificate.(productType := "warrant");
    list := [Enriched(certificate, None, true, 0), Enriched(warrant, None, true, 0)];
    reply := (n: nat) => Some(RawQuote(None, None, None, None, ""));
    at := (n: nat) => 0;
    assert |certificate.productType| != |warrant.productType|;
    assert list[1] in list && |Shortlist(list)| == 2;
    assert !HeadIsUnambiguous(list, reply);
    RefreshConservesIff(list, reply, at);
  }

  lemma HeadKeepsIds(list: seq<Enriched>, reply: nat -> Option<RawQuote>, at: nat -> int)
    requires IdDetermines(list)
    ensures IdDetermines(RefreshHead(list, reply, at))
    ensures multiset(ProductsOf(RefreshHead(list, reply, at))) == multiset(ProductsOf(list))
  {
    forall k, e | 0 <= k < |Shortlist(list)| && e in list
                  && e.product.orderBookId == list[k].product.orderBookId
      ensures e.product == list[k].product
    {
      assert list[k] in list;
    }
    assert HeadIsUnambiguous(list, reply);
    RefreshConservesIff(list, reply, at);
    var head := RefreshHead(list, reply, at);
    forall x, y | x in head && y in head && x.product.orderBookId == y.product.orderBookId
      ensures x == y
    {
      var i :| 0 <= i < |list| && x == head[i];
      var j :| 0 <= j < |list| && y == head[j];
      var k := SubstitutedRow(list, reply, at, i);
      var m := SubstitutedRow(list, reply, at, j);
      assert list[i] in list && list[j] in list;
    }
  }

  /** Quote or error on every row; never both until the head has been re-fetched. */
  predicate Attempted(e: Enriched, refreshed: bool) {
    (e.live.Some? || e.failed) && (!refreshed ==> !(e.live.Some? && e.failed))
  }

  lemma RerankAttempted(list: seq<Enriched>, at: int, prefer: bool, refreshed: bool)
    requires forall e | e in list :: Attempted(e, refreshed)
    ensures forall e | e in Rerank(list, at, prefer) :: Attempted(e, refreshed)
  {
    RerankShape(list, at, prefer);
    forall e | e in Rerank(list, at, prefer) ensures Attempted(e, refreshed) {
      var i :| 0 <= i < |list| && e == RefreshLiveFreshness(list[i], at);
      assert list[i] in list;
    }
  }

  lemma HeadAttempted(list: seq<Enriched>, reply: nat -> Option<RawQuote>, at: nat -> int)
    requires forall e | e in list :: Attempted(e, false)
    ensures forall e | e in RefreshHead(list, reply, at) :: Attempted(e, true)
  {
    forall e | e in RefreshHead(list, reply, at) ensures Attempted(e, true) {
      var i :| 0 <= i < |list| && e == RefreshHead(list, reply, at)[i];
      var k := SubstitutedRow(list, reply, at, i);
      assert list[i] in list;
    }
  }

  ghost predicate Conserved(ps: seq<Product>, s: Progress) {
    && s.next <= |ps|
    && multiset(ProductsOf(s.list)) == multiset(ps[..s.next])
    && IdDetermines(s.list)
    && (s.refreshDone ==> s.next >= |ps|)
    && forall e | e in s.list :: Attempted(e, s.refreshDone)
  }

  lemma BatchShape(ps: seq<Product>, reply: nat -> Option<RawQuote>, at: nat -> int)
    ensures ProductsOf(EnrichBatch(ps, reply, at)) == ps
    ensures forall e | e in EnrichBatch(ps, reply, at) :: Attempted(e, false) && e.product in ps
  {
    var batch := EnrichBatch(ps, reply, at);
    forall i | 0 <= i < |ps| ensures batch[i].product == ps[i] && Attempted(batch[i], false) {
      assert batch[i] == EnrichOne(ps[i], reply(i), at(i));
    }
  }

  /** An attempted row comes from the structural prefix. */
  lemma OldRow(ps: seq<Product>, s: Progress, x: Enriched) returns (i: nat)
    requires Conserved(ps, s) && x in s.list
    ensures i < s.next && ps[i] == x.product
  {
    var j :| 0 <= j < |s.list| && s.list[j] == x;
    assert ProductsOf(s.list)[j] == x.product;
    SameElements(ProductsOf(s.list), ps[..s.next]);
    assert x.product in ps[..s.next];
    i :| 0 <= i < s.next && ps[..s.next][i] == x.product;
  }

  /** Where in the structural list a scanned row comes from. */
  lemma ScannedRow(ps: seq<Product>, s: Progress, call: Call, x: Enriched) returns (i: nat)
    requires Conserved(ps, s) && s.next < |ps| && call.batch.Answered?
    requires x in Scan(ps, s, call).list
    ensures i < |ps| && ps[i] == x.product
    ensures i < s.next ==> x in s.list
    ensures i >= s.next ==> i - s.next < Min(|ps|, s.next + BATCH_SIZE) - s.next
                            && x == EnrichOne(ps[i], call.batch.at(i - s.next), call.clock.batchAt(i - s.next))
  {
    if x in s.list {
      i := OldRow(ps, s, x);
    } else {
      var end := Min(|ps|, s.next + BATCH_SIZE);
      var batch := EnrichBatch(ps[s.next..end], call.batch.at, call.clock.batchAt);
      assert x in batch;
      var j :| 0 <= j < |batch| && batch[j] == x;
      assert batch[j] == EnrichOne(ps[s.next..end][j], call.batch.at(j), call.clock.batchAt(j));
      i := s.next + j;
    }
  }

  lemma ScanIdDetermines(ps: seq<Product>, s: Progress, call: Call)
    requires DistinctIds(ps) && Conserved(ps, s)
    requires s.next < |ps| && call.batch.Answered?
    ensures IdDetermines(Scan(ps, s, call).list)
  {
    var t := Scan(ps, s, call);
    forall x, y | x in t.list && y in t.list && x.product.orderBookId == y.product.orderBookId
      ensures x == y
    {
      var i := ScannedRow(ps, s, call, x);
      var j := ScannedRow(ps, s, call, y);
    }
  }

  lemma ScanConserves(ps: seq<Product>, s: Progress, call: Call)
    requires DistinctIds(ps) && Conserved(ps, s)
    requires s.next < |ps| && call.batch.Answered?
    ensures Conserved(ps, Scan(ps, s, call))
  {
    var end := Min(|ps|, s.next + BATCH_SIZE);
    var batch := EnrichBatch(ps[s.next..end], call.batch.at, call.clock.batchAt);
    BatchShape(ps[s.next..end], call.batch.at, call.clock.batchAt);
    assert ProductsOf(s.list + batch) == ProductsOf(s.list) + ProductsOf(batch);
    assert ps[..end] == ps[..s.next] + ps[s.next..end];
    ScanIdDetermines(ps, s, call);
  }

  lemma StepConserves(ps: seq<Product>, prefer: bool, s: Progress, call: Call)
    requires DistinctIds(ps) && Conserved(ps, s)
    ensures Conserved(ps, EnrichStep(ps, prefer, s, call))
  {
    if s.next < |ps| && call.batch.Answered? { ScanConserves(ps, s, call); }
    var m := Scan(ps, s, call);
    if m.next >= |ps| {
      var ranked := Rerank(m.list, call.clock.rankAt, prefer);
      RerankConserves(m.list, call.clock.rankAt, prefer);
      RerankAttempted(m.list, call.clock.rankAt, prefer, m.refreshDone);
      if !m.refreshDone && ranked != [] && call.refresh.Answered? {
        var head := RefreshHead(ranked, call.refresh.at, call.clock.refreshAt);
        HeadKeepsIds(ranked, call.refresh.at, call.clock.refreshAt);
        HeadAttempted(ranked, call.refresh.at, call.clock.refreshAt);
        RerankConserves(head, call.clock.rerankAt, prefer);
        RerankAttempted(head, call.clock.rerankAt, prefer, true);
      }
    }
  }

  /**
  With distinct ids, whatever upstream answers, the list is a permutation of the
  attempted structural rows and every row carries a quote or an error.
  */
  lemma {:induction false} RunConserves(ps: seq<Product>, prefer: bool, calls: seq<Call>)
    requires DistinctIds(ps)
    ensures Conserved(ps, Run(ps, prefer, calls))
  {
    if calls != [] {
      RunConserves(ps, prefer, calls[..|calls| - 1]);
      StepConserves(ps, prefer, Run(ps, prefer, calls[..|calls| - 1]), calls[|calls| - 1]);
    }
  }

  // ---- refinement of the one-pass specification ----

  function EnrichAt(quotes: string -> Option<RawQuote>, at: int): Product -> Enriched {
    (p: Product) => EnrichOne(p, quotes(p.orderBookId), at).(retrievedAt := 0)
  }

  /** Enrich everything at once, age it at one time, and sort. */
  function OnePass(ps: seq<Product>, prefer: bool, quotes: string -> Option<RawQuote>, at: int): seq<Enriched> {
    StableSort(Map(ps, EnrichAt(quotes, at)), RankBy(prefer))
  }

  /** The same row without its retrieval stamp. */
  function Unstamp(): Enriched -> Enriched {
    (e: Enriched) => e.(retrievedAt := 0)
  }

  /** The row's live data came from the oracle's quote for its id, at some time. */
  ghost predicate FromOracle(e: Enriched, quotes: string -> Option<RawQuote>) {
    var q := quotes(e.product.orderBookId);
    e.failed == q.None? &&
    if q.None? then e.live.None?
    else e.live.Some? && e.live.value == CompactLiveQuote(q.value, e.live.value.freshness.observedAt)
  }

  /** Re-aging a compacted quote is compacting it at the new time. */
  lemma ReagingIsCompacting(raw: RawQuote, t0: int, t1: int)
    ensures RefreshQuote(CompactLiveQuote(raw, t0), t1) == CompactLiveQuote(raw, t1)
  {
  }

  /** The upstream answers of this call agree with one fixed quote per id. */
  ghost predicate AnswersFrom(ps: seq<Product>, prefer: bool, s: Progress, call: Call,
                              quotes: string -> Option<RawQuote>) {
    && (call.batch.Answered? ==>
          forall i: nat | s.next + i < Min(|ps|, s.next + BATCH_SIZE) ::
            call.batch.at(i) == quotes(ps[s.next + i].orderBookId))
    && (call.refresh.Answered? ==>
          var ranked := Rerank(Scan(ps, s, call).list, call.clock.rankAt, prefer);
          forall k: nat | k < |Shortlist(ranked)| ::
            call.refresh.at(k) == quotes(ranked[k].product.orderBookId))
  }

  ghost predicate AllAnswerFrom(ps: seq<Product>, prefer: bool, calls: seq<Call>,
                                quotes: string -> Option<RawQuote>) {
    forall n | 0 <= n < |calls| :: AnswersFrom(ps, prefer, Run(ps, prefer, calls[..n]), calls[n], quotes)
  }

  /** When the last call of the run last looked at the clock to age the list. */
  function LastObserved(ps: seq<Product>, prefer: bool, calls: seq<Call>): int
    requires calls != []
  {
    var last := calls[|calls| - 1];
    var m := Scan(ps, Run(ps, prefer, calls[..|calls| - 1]), last);
    if !m.refreshDone && m.list != [] && last.refresh.Answered? then last.clock.rerankAt
    else last.clock.rankAt
  }

  lemma RerankFromOracle(list: seq<Enriched>, at: int, prefer: bool, quotes: string -> Option<RawQuote>)
    requires forall e | e in list :: FromOracle(e, quotes)
    ensures forall e | e in Rerank(list, at, prefer) :: FromOracle(e, quotes)
  {
    RerankShape(list, at, prefer);
    forall e | e in Rerank(list, at, prefer) ensures FromOracle(e, quotes) {
      var i :| 0 <= i < |list| && e == RefreshLiveFreshness(list[i], at);
      assert list[i] in list;
    }
  }

  lemma HeadFromOracle(list: seq<Enriched>, reply: nat -> Option<RawQuote>, at: nat -> int,
                       quotes: string -> Option<RawQuote>)
    requires forall e | e in list :: FromOracle(e, quotes)
    requires forall k: nat | k < |Shortlist(list)| :: reply(k) == quotes(list[k].product.orderBookId)
    ensures forall e | e in RefreshHead(list, reply, at) :: FromOracle(e, quotes)
  {
    forall e | e in RefreshHead(list, reply, at) ensures FromOracle(e, quotes) {
      var i :| 0 <= i < |list| && e == RefreshHead(list, reply, at)[i];
      var k := SubstitutedRow(list, reply, at, i);
      assert list[i] in list;
      if k != -1 { assert list[k] in list; }
    }
  }

  lemma ScannedFromOracle(ps: seq<Product>, prefer: bool, s: Progress, call: Call,
                          quotes: string -> Option<RawQuote>)
    requires s.next <= |ps|
    requires forall e | e in s.list :: FromOracle(e, quotes)
    requires AnswersFrom(ps, prefer, s, call, quotes)
    ensures forall e | e in Scan(ps, s, call).list :: FromOracle(e, quotes)
  {
  }

  lemma StepFromOracle(ps: seq<Product>, prefer: bool, s: Progress, call: Call, quotes: string -> Option<RawQuote>)
    requires s.next <= |ps|
    requires forall e | e in s.list :: FromOracle(e, quotes)
    requires AnswersFrom(ps, prefer, s, call, quotes)
    ensures forall e | e in EnrichStep(ps, prefer, s, call).list :: FromOracle(e, quotes)
  {
    var m := Scan(ps, s, call);
    ScannedFromOracle(ps, prefer, s, call, quotes);
    if m.next >= |ps| {
      var ranked := Rerank(m.list, call.clock.rankAt, prefer);
      RerankFromOracle(m.list, call.clock.rankAt, prefer, quotes);
      if !m.refreshDone && ranked != [] && call.refresh.Answered? {
        var head := RefreshHead(ranked, call.refresh.at, call.clock.refreshAt);
        HeadFromOracle(ranked, call.refresh.at, call.clock.refreshAt, quotes);
        RerankFromOracle(head, call.clock.rerankAt, prefer, quotes);
      }
    }
  }

  lemma {:induction false} RunFromOracle(ps: seq<Product>, prefer: bool, calls: seq<Call>,
                                         quotes: string -> Option<RawQuote>)
    requires AllAnswerFrom(ps, prefer, calls, quotes)
    ensures forall e | e in Run(ps, prefer, calls).list :: FromOracle(e, quotes)
  {
    if calls != [] {
      var last := |calls| - 1;
      forall n | 0 <= n < last
        ensures AnswersFrom(ps, prefer, Run(ps, prefer, calls[..last][..n]), calls[..last][n], quotes)
      {
        assert calls[..last][..n] == calls[..n];
        assert AnswersFrom(ps, prefer, Run(ps, prefer, calls[..n]), calls[n], quotes);
      }
      RunFromOracle(ps, prefer, calls[..last], quotes);
      CursorArithmetic(ps, prefer, calls[..last]);
      assert AnswersFrom(ps, prefer, Run(ps, prefer, calls[..last]), calls[last], quotes);
      StepFromOracle(ps, prefer, Run(ps, prefer, calls[..last]), calls[last], quotes);
    }
  }

  lemma EnrichAtProduct(p: Product, quotes: string -> Option<RawQuote>, at: int)
    ensures EnrichAt(quotes, at)(p).product == p
  {
  }

  /** The ranking key ends in the id, so it identifies the row of a universe with distinct ids. */
  lemma RankIdentifies(ps: seq<Product>, prefer: bool, quotes: string -> Option<RawQuote>, at: int)
    requires DistinctIds(ps)
    ensures KeyDetermines(Map(ps, EnrichAt(quotes, at)), RankBy(prefer))
  {
    var enriched := Map(ps, EnrichAt(quotes, at));
    forall x, y | x in enriched && y in enriched && RankBy(prefer)(x) == RankBy(prefer)(y) ensures x == y {
      var i :| 0 <= i < |ps| && x == enriched[i];
      var j :| 0 <= j < |ps| && y == enriched[j];
      var a, b := ExecutionRank(x, prefer), ExecutionRank(y, prefer);
      assert a[|a| - 1] == Text(x.product.orderBookId) && b[|b| - 1] == Text(y.product.orderBookId);
      EnrichAtProduct(ps[i], quotes, at);
      EnrichAtProduct(ps[j], quotes, at);
      assert x.product.orderBookId == y.product.orderBookId;
    }
  }

  lemma AgedRowIsEnriched(e: Enriched, at: int, quotes: string -> Option<RawQuote>)
    requires FromOracle(e, quotes)
    ensures RefreshLiveFreshness(e, at).(retrievedAt := 0) == EnrichAt(quotes, at)(e.product)
  {
  }

  lemma AgedIsEnriched(list: seq<Enriched>, at: int, quotes: string -> Option<RawQuote>)
    requires forall e | e in list :: FromOracle(e, quotes)
    ensures Map(SetFreshness(list, at), Unstamp()) == Map(ProductsOf(list), EnrichAt(quotes, at))
  {
    forall i | 0 <= i < |list|
      ensures SetFreshness(list, at)[i].(retrievedAt := 0) == EnrichAt(quotes, at)(list[i].product)
    {
      assert list[i] in list;
      AgedRowIsEnriched(list[i], at, quotes);
    }
  }

  /** A ranked list of oracle rows over a permutation of the products is the one-pass list. */
  lemma RerankIsOnePass(ps: seq<Product>, prefer: bool, list: seq<Enriched>, at: int,
                        quotes: string -> Option<RawQuote>)
    requires DistinctIds(ps)
    requires multiset(ProductsOf(list)) == multiset(ps)
    requires forall e | e in list :: FromOracle(e, quotes)
    ensures Map(Rerank(list, at, prefer), Unstamp()) == OnePass(ps, prefer, quotes, at)
  {
    var one := EnrichAt(quotes, at);
    UnstampKeepsRank(prefer);
    MapSort(SetFreshness(list, at), Unstamp(), RankBy(prefer));
    AgedIsEnriched(list, at, quotes);
    MapPermutes(ProductsOf(list), ps, one);
    RankIdentifies(ps, prefer, quotes, at);
    SortForgetsOrder(Map(ps, one), Map(ProductsOf(list), one), RankBy(prefer));
  }

  lemma UnstampKeepsRank(prefer: bool)
    ensures forall e :: RankBy(prefer)(Unstamp()(e)) == RankBy(prefer)(e)
  {
  }

  /**
  Progressive enrichment refines the one-pass specification: for every pattern of
  failed and answered batches and refreshes, the completed list is the whole
  universe enriched at once, aged at the last observation, and sorted.
  */
  lemma ProgressiveRefinesOnePass(ps: seq<Product>, prefer: bool, calls: seq<Call>,
                                  quotes: string -> Option<RawQuote>)
    requires DistinctIds(ps) && calls != []
    requires AllAnswerFrom(ps, prefer, calls, quotes)
    requires Answers(calls) >= CeilDiv(|ps|, BATCH_SIZE)
    ensures Map(Run(ps, prefer, calls).list, Unstamp())
         == OnePass(ps, prefer, quotes, LastObserved(ps, prefer, calls))
  {
    var last := |calls| - 1;
    var call := calls[last];
    var s := Run(ps, prefer, calls[..last]);
    CursorArithmetic(ps, prefer, calls);
    CursorArithmetic(ps, prefer, calls[..last]);
    RunConserves(ps, prefer, calls[..last]);
    forall n | 0 <= n < last
      ensures AnswersFrom(ps, prefer, Run(ps, prefer, calls[..last][..n]), calls[..last][n], quotes)
    {
      assert calls[..last][..n] == calls[..n];
      assert AnswersFrom(ps, prefer, Run(ps, prefer, calls[..n]), calls[n], quotes);
    }
    RunFromOracle(ps, prefer, calls[..last], quotes);
    assert AnswersFrom(ps, prefer, s, call, quotes);
    LastCallIsOnePass(ps, prefer, s, call, quotes);
  }

  lemma LastCallIsOnePass(ps: seq<Product>, prefer: bool, s: Progress, call: Call,
                          quotes: string -> Option<RawQuote>)
    requires DistinctIds(ps) && Conserved(ps, s)
    requires forall e | e in s.list :: FromOracle(e, quotes)
    requires AnswersFrom(ps, prefer, s, call, quotes)
    requires Scan(ps, s, call).next >= |ps|
    ensures var m := Scan(ps, s, call);
            var at := if !m.refreshDone && m.list != [] && call.refresh.Answered? then call.clock.rerankAt
                      else call.clock.rankAt;
            Map(EnrichStep(ps, prefer, s, call).list, Unstamp()) == OnePass(ps, prefer, quotes, at)
  {
    var m := Scan(ps, s, call);
    if s.next < |ps| { ScanConserves(ps, s, call); }
    assert ps[..m.next] == ps;
    ScannedFromOracle(ps, prefer, s, call, quotes);
    RerankIsOnePass(ps, prefer, m.list, call.clock.rankAt, quotes);
    var ranked := Rerank(m.list, call.clock.rankAt, prefer);
    RerankShape(m.list, call.clock.rankAt, prefer);
    if !m.refreshDone && ranked != [] && call.refresh.Answered? {
      var head := RefreshHead(ranked, call.refresh.at, call.clock.refreshAt);
      RerankConserves(m.list, call.clock.rankAt, prefer);
      RerankFromOracle(m.list, call.clock.rankAt, prefer, quotes);
      HeadKeepsIds(ranked, call.refresh.at, call.clock.refreshAt);
      HeadFromOracle(ranked, call.refresh.at, call.clock.refreshAt, quotes);
      RerankIsOnePass(ps, prefer, head, call.clock.rerankAt, quotes);
    }
  }

  // ---- the final refresh and later calls ----

  predicate RefreshAttempted(ps: seq<Product>, s: Progress, call: Call) {
    var m := Scan(ps, s, call);
    m.next >= |ps| && !m.refreshDone && m.list != []
  }

  function RefreshAttempts(ps: seq<Product>, prefer: bool, calls: seq<Call>): nat {
    if calls == [] then 0
    else
      var before := calls[..|calls| - 1];
      RefreshAttempts(ps, prefer, before)
      + if RefreshAttempted(ps, Run(ps, prefer, before), calls[|calls| - 1]) then 1 else 0
  }

  /** The head is re-fetched at most once in any run: by the call that completes the scan, if there are rows. */
  lemma {:induction false} RefreshesOnce(ps: seq<Product>, prefer: bool, calls: seq<Call>)
    ensures RefreshAttempts(ps, prefer, calls) == if Run(ps, prefer, calls).refreshDone then 1 else 0
    ensures calls != [] ==>
      (Run(ps, prefer, calls).refreshDone <==> Answers(calls) >= CeilDiv(|ps|, BATCH_SIZE) && ps != [])
  {
    CursorArithmetic(ps, prefer, calls);
    if calls != [] {
      var last := |calls| - 1;
      RefreshesOnce(ps, prefer, calls[..last]);
      CursorArithmetic(ps, prefer, calls[..last]);
      RerankShape(Scan(ps, Run(ps, prefer, calls[..last]), calls[last]).list, calls[last].clock.rankAt, prefer);
    }
  }

  /** All ages and flags of the list are those of one observation time. */
  ghost predicate AgedAt(list: seq<Enriched>, at: int) {
    forall e | e in list :: RefreshLiveFreshness(e, at) == e
  }

  lemma RerankAges(list: seq<Enriched>, at: int, prefer: bool)
    ensures AgedAt(Rerank(list, at, prefer), at)
  {
    RerankShape(list, at, prefer);
    forall e | e in Rerank(list, at, prefer) ensures RefreshLiveFreshness(e, at) == e {
      var i :| 0 <= i < |list| && e == RefreshLiveFreshness(list[i], at);
    }
  }

  lemma CompletedIsAged(ps: seq<Product>, prefer: bool, calls: seq<Call>)
    requires calls != [] && Run(ps, prefer, calls).next >= |ps|
    ensures AgedAt(Run(ps, prefer, calls).list, LastObserved(ps, prefer, calls))
  {
    var call := calls[|calls| - 1];
    var m := Scan(ps, Run(ps, prefer, calls[..|calls| - 1]), call);
    var ranked := Rerank(m.list, call.clock.rankAt, prefer);
    RerankShape(m.list, call.clock.rankAt, prefer);
    RerankAges(m.list, call.clock.rankAt, prefer);
    if !m.refreshDone && ranked != [] && call.refresh.Answered? {
      RerankAges(RefreshHead(ranked, call.refresh.at, call.clock.refreshAt), call.clock.rerankAt, prefer);
    }
  }

  /** Each later call reads the clock no earlier than the list was last aged. */
  ghost predicate ClockAdvances(ps: seq<Product>, prefer: bool, calls: seq<Call>, from: nat) {
    forall n | 1 <= from <= n < |calls| :: ClockAdvancesAt(ps, prefer, calls, n)
  }

  ghost predicate ClockAdvancesAt(ps: seq<Product>, prefer: bool, calls: seq<Call>, n: nat)
    requires 1 <= n < |calls|
  {
    LastObserved(ps, prefer, calls[..n]) <= calls[n].clock.rankAt
  }

  /** No row of `now` is fresh while the row with its id in `before` was stale. */
  ghost predicate NoFresher(before: seq<Enriched>, now: seq<Enriched>) {
    forall x, y | x in before && y in now && x.product.orderBookId == y.product.orderBookId && IsFresh(y) :: IsFresh(x)
  }

  /** Every row of `now` is a row of `before`, re-aged without becoming fresh. */
  ghost predicate OnlyReaged(before: seq<Enriched>, now: seq<Enriched>, at: int) {
    forall e | e in now :: exists x :: x in before && e == RefreshLiveFreshness(x, at) && (IsFresh(e) ==> IsFresh(x))
  }

  lemma NoFresherAfter(start: seq<Enriched>, before: seq<Enriched>, now: seq<Enriched>, at: int)
    requires NoFresher(start, before) && OnlyReaged(before, now, at)
    ensures NoFresher(start, now)
  {
  }

  lemma ClockAdvancedBefore(ps: seq<Product>, prefer: bool, calls: seq<Call>, from: nat)
    requires 1 <= from < |calls| && ClockAdvances(ps, prefer, calls, from)
    ensures ClockAdvances(ps, prefer, calls[..|calls| - 1], from)
    ensures LastObserved(ps, prefer, calls[..|calls| - 1]) <= calls[|calls| - 1].clock.rankAt
  {
    var prior := calls[..|calls| - 1];
    assert ClockAdvancesAt(ps, prefer, calls, |prior|);
    forall n | from <= n < |prior| ensures ClockAdvancesAt(ps, prefer, prior, n) {
      assert ClockAdvancesAt(ps, prefer, calls, n);
      assert prior[..n] == calls[..n];
    }
  }

  /**
  Across calls after completion no row turns from stale to fresh, although each
  of them re-ages and re-sorts the list.
  */
  lemma {:induction false} StaleStaysStale(ps: seq<Product>, prefer: bool, calls: seq<Call>, from: nat)
    requires DistinctIds(ps) && 1 <= from <= |calls|
    requires Run(ps, prefer, calls[..from]).next >= |ps|
    requires ClockAdvances(ps, prefer, calls, from)
    ensures NoFresher(Run(ps, prefer, calls[..from]).list, Run(ps, prefer, calls).list)
    decreases |calls|
  {
    if from == |calls| {
      RunConserves(ps, prefer, calls);
      assert calls[..from] == calls;
    } else {
      var prior := calls[..|calls| - 1];
      var call := calls[|calls| - 1];
      assert prior[..from] == calls[..from];
      ClockAdvancedBefore(ps, prefer, calls, from);
      StaleStaysStale(ps, prefer, prior, from);
      CompletedStays(ps, prefer, prior, from);
      CompletedIsAged(ps, prefer, prior);
      LaterCall(ps, prefer, Run(ps, prefer, prior), call, LastObserved(ps, prefer, prior));
      NoFresherAfter(Run(ps, prefer, calls[..from]).list, Run(ps, prefer, prior).list, Run(ps, prefer, calls).list,
                     call.clock.rankAt);
    }
  }

  lemma {:induction false} CompletedStays(ps: seq<Product>, prefer: bool, calls: seq<Call>, from: nat)
    requires 1 <= from <= |calls| && Run(ps, prefer, calls[..from]).next >= |ps|
    ensures Run(ps, prefer, calls).next >= |ps|
    ensures Run(ps, prefer, calls).refreshDone || Run(ps, prefer, calls).list == []
    decreases |calls|
  {
    RefreshesOnce(ps, prefer, calls);
    CursorArithmetic(ps, prefer, calls);
    if from < |calls| {
      assert calls[..|calls| - 1][..from] == calls[..from];
      CompletedStays(ps, prefer, calls[..|calls| - 1], from);
      CursorArithmetic(ps, prefer, calls[..|calls| - 1]);
    } else {
      assert calls[..from] == calls;
    }
  }

  /** A call after completion only re-ages rows; a fresh result was fresh before. */
  lemma LaterCall(ps: seq<Product>, prefer: bool, s: Progress, call: Call, at: int)
    requires s.next >= |ps| && (s.refreshDone || s.list == [])
    requires AgedAt(s.list, at) && at <= call.clock.rankAt
    ensures OnlyReaged(s.list, EnrichStep(ps, prefer, s, call).list, call.clock.rankAt)
  {
    RerankShape(s.list, call.clock.rankAt, prefer);
    forall e | e in EnrichStep(ps, prefer, s, call).list
      ensures exists x :: x in s.list && e == RefreshLiveFreshness(x, call.clock.rankAt) && (IsFresh(e) ==> IsFresh(x))
    {
      var i :| 0 <= i < |s.list| && e == RefreshLiveFreshness(s.list[i], call.clock.rankAt);
      assert s.list[i] in s.list;
      assert RefreshLiveFreshness(s.list[i], at) == s.list[i];
    }
  }
}
