/**
What the numbers in an enriched ranking mean, read off prices and stamps alone: which
rows carry a spread and which one, when a row is fresh, and which of two rows comes
first.  Relative spreads are compared by cross-multiplying prices.
*/
module RankingLaws {
  import opened Wrappers
  import opened Order
  import opened Paging
  import opened Prices
  import opened Enrichment
  import opened EnrichmentProofs
  import opened RankingPages

  // ---- what a row reports ----

  /** `age` is the time since the stamp, zero for a stamp in the future, absent without a stamp. */
  predicate IsAge(age: Option<int>, stamp: Option<int>, now: int) {
    && (age.Some? <==> stamp.Some?)
    && (stamp.Some? && stamp.value <= now ==> age.value == now - stamp.value)
    && (stamp.Some? && stamp.value > now ==> age.value == 0)
  }

  /**
  The spread is the difference of the prices in percent of their mean, and is there
  exactly for tradable prices; ages are those at the observation; and a quote is fresh
  exactly when it is tradable and stamped at most 30 seconds before.
  */
  ghost predicate Meaningful(q: LiveQuote) {
    var f := q.freshness;
    && IsSpread(q.spread, q.bid, q.ask)
    && IsAge(f.bidAskAge, f.sourceAt, f.observedAt) && IsAge(f.lastTradeAge, f.lastTradeAt, f.observedAt)
    && (f.isFresh <==> Tradable(q.bid, q.ask) && f.sourceAt.Some? && f.observedAt - f.sourceAt.value <= 30000)
  }

  ghost predicate MeaningfulRow(e: Enriched) {
    e.live.Some? ==> Meaningful(e.live.value)
  }

  lemma CompactIsMeaningful(raw: RawQuote, at: int)
    ensures Meaningful(CompactLiveQuote(raw, at))
    ensures var q := CompactLiveQuote(raw, at);
            && q.bid == raw.buy && q.ask == raw.sell && q.details == raw.details
            && q.freshness.sourceAt == raw.updated && q.freshness.lastTradeAt == raw.lastTrade
            && q.freshness.observedAt == at
  {
    if Tradable(raw.buy, raw.sell) { SpreadMeans(raw.buy.value, raw.sell.value); }
  }

  lemma RefreshIsMeaningful(e: Enriched, at: int)
    requires MeaningfulRow(e)
    ensures MeaningfulRow(RefreshLiveFreshness(e, at))
  {
  }

  lemma ScanIsMeaningful(ps: seq<Product>, s: Progress, call: Call)
    requires s.next <= |ps| && forall e | e in s.list :: MeaningfulRow(e)
    ensures forall e | e in Scan(ps, s, call).list :: MeaningfulRow(e)
  {
    if s.next < |ps| && call.batch.Answered? {
      var selected := ps[s.next..Min(|ps|, s.next + BATCH_SIZE)];
      var batch := EnrichBatch(selected, call.batch.at, call.clock.batchAt);
      forall e | e in batch ensures MeaningfulRow(e) {
        var i :| 0 <= i < |batch| && batch[i] == e;
        if call.batch.at(i).Some? { CompactIsMeaningful(call.batch.at(i).value, call.clock.batchAt(i)); }
      }
    }
  }

  lemma RerankIsMeaningful(list: seq<Enriched>, at: int, prefer: bool)
    requires forall e | e in list :: MeaningfulRow(e)
    ensures forall e | e in Rerank(list, at, prefer) :: MeaningfulRow(e)
  {
    RerankShape(list, at, prefer);
    forall e | e in Rerank(list, at, prefer) ensures MeaningfulRow(e) {
      var i :| 0 <= i < |list| && e == RefreshLiveFreshness(list[i], at);
      assert list[i] in list;
      RefreshIsMeaningful(list[i], at);
    }
  }

  lemma HeadIsMeaningful(list: seq<Enriched>, reply: nat -> Option<RawQuote>, at: nat -> int)
    requires forall e | e in list :: MeaningfulRow(e)
    ensures forall e | e in RefreshHead(list, reply, at) :: MeaningfulRow(e)
  {
    forall e | e in RefreshHead(list, reply, at) ensures MeaningfulRow(e) {
      var i :| 0 <= i < |list| && e == RefreshHead(list, reply, at)[i];
      var k := SubstitutedRow(list, reply, at, i);
      assert list[i] in list;
      if k != -1 { CompactIsMeaningful(reply(k).value, at(k)); }
    }
  }

  /** In every run every quote of every row means what it says. */
  lemma {:induction false} RunIsMeaningful(ps: seq<Product>, prefer: bool, calls: seq<Call>)
    ensures forall e | e in Run(ps, prefer, calls).list :: MeaningfulRow(e)
  {
    if calls != [] {
      var call := calls[|calls| - 1];
      var s := Run(ps, prefer, calls[..|calls| - 1]);
      var m := Scan(ps, s, call);
      RunIsMeaningful(ps, prefer, calls[..|calls| - 1]);
      CursorArithmetic(ps, prefer, calls[..|calls| - 1]);
      ScanIsMeaningful(ps, s, call);
      var ranked := Rerank(m.list, call.clock.rankAt, prefer);
      RerankIsMeaningful(m.list, call.clock.rankAt, prefer);
      if call.refresh.Answered? {
        HeadIsMeaningful(ranked, call.refresh.at, call.clock.refreshAt);
        RerankIsMeaningful(RefreshHead(ranked, call.refresh.at, call.clock.refreshAt), call.clock.rerankAt, prefer);
      }
    }
  }

  /**
  When upstream answers one quote per id, every row of a completed run carries that
  quote's prices, stamps and details, aged at the last observation; or none and an error.
  */
  lemma RowsCarryQuotes(ps: seq<Product>, prefer: bool, calls: seq<Call>, quotes: string -> Option<RawQuote>, e: Enriched)
    requires calls != [] && Run(ps, prefer, calls).next >= |ps| && e in Run(ps, prefer, calls).list
    requires AllAnswerFrom(ps, prefer, calls, quotes)
    ensures var q := quotes(e.product.orderBookId);
            if q.None? then e.live.None? && e.failed
            else
              && e.live.Some? && !e.failed && Meaningful(e.live.value)
              && e.live.value.bid == q.value.buy && e.live.value.ask == q.value.sell && e.live.value.details == q.value.details
              && e.live.value.freshness.sourceAt == q.value.updated && e.live.value.freshness.lastTradeAt == q.value.lastTrade
              && e.live.value.freshness.observedAt == LastObserved(ps, prefer, calls)
  {
    RunFromOracle(ps, prefer, calls, quotes);
    RunIsMeaningful(ps, prefer, calls);
    CompletedIsAged(ps, prefer, calls);
    var q := quotes(e.product.orderBookId);
    if q.Some? {
      CompactIsMeaningful(q.value, e.live.value.freshness.observedAt);
      AgedMeansObserved(e, LastObserved(ps, prefer, calls));
    }
  }

  lemma AgedMeansObserved(e: Enriched, at: int)
    requires RefreshLiveFreshness(e, at) == e && e.live.Some?
    ensures e.live.value.freshness.observedAt == at
  {
  }

  // ---- which row comes first ----

  function Bid(e: Enriched): Option<real> {
    if e.live.Some? then e.live.value.bid else None
  }

  function Ask(e: Enriched): Option<real> {
    if e.live.Some? then e.live.value.ask else None
  }

  /** 0 for a fresh tradable row, 1 for a stale tradable one, 2 for any other. */
  function Grade(e: Enriched, now: int): int {
    if !Tradable(Bid(e), Ask(e)) then 2
    else if Source(e).Some? && now - Source(e).value <= 30000 then 0
    else 1
  }

  /** Stamped more recently, as far as `now` can tell; unstamped last. */
  predicate Younger(x: Enriched, y: Enriched, now: int) {
    Source(x).Some? && (Source(y).None? || (Source(y).value < now && Source(y).value < Source(x).value))
  }

  function Turnover(e: Enriched): real {
    if e.product.turnover.Some? then e.product.turnover.value else 0.0
  }

  /** Type, issuer, name and id in dictionary order. */
  ghost predicate NamedBefore(p: Product, q: Product) {
    || DictionaryBefore(p.productType, q.productType)
    || (p.productType == q.productType &&
        (|| DictionaryBefore(p.issuer, q.issuer)
         || (p.issuer == q.issuer &&
             (|| DictionaryBefore(p.name, q.name)
              || (p.name == q.name && DictionaryBefore(p.orderBookId, q.orderBookId))))))
  }

  /**
  The ranking rule: grade, leverage deviation when a target was given, relative spread,
  age, larger turnover, names.
  */
  ghost predicate Before(x: Enriched, y: Enriched, now: int, prefer: bool) {
    || Grade(x, now) < Grade(y, now)
    || (Grade(x, now) == Grade(y, now) &&
        (|| (prefer && Smaller(x.product.leverageDeviation, y.product.leverageDeviation))
         || (!(prefer && Smaller(y.product.leverageDeviation, x.product.leverageDeviation)) &&
             (|| Tighter(Bid(x), Ask(x), Bid(y), Ask(y))
              || (!Tighter(Bid(y), Ask(y), Bid(x), Ask(x)) &&
                  (|| Younger(x, y, now)
                   || (!Younger(y, x, now) &&
                       (|| Turnover(x) > Turnover(y)
                        || (Turnover(x) == Turnover(y) && NamedBefore(x.product, y.product))))))))))
  }

  function SpreadOf(e: Enriched): Option<real> {
    if e.live.Some? then e.live.value.spread else None
  }

  lemma YoungerIsFirst(x: Enriched, y: Enriched, now: int)
    ensures CompareAtom(AgeAt(x, now), AgeAt(y, now)) < 0 <==> Younger(x, y, now)
    ensures CompareAtom(AgeAt(x, now), AgeAt(y, now)) > 0 <==> Younger(y, x, now)
  {
  }

  function Names(p: Product): Key {
    [Text(p.productType), Text(p.issuer), Text(p.name), Text(p.orderBookId)]
  }

  lemma NamesCompare(p: Product, q: Product)
    ensures CompareKey(Names(p), Names(q)) < 0 <==> NamedBefore(p, q)
  {
    var p3, q3: Key := [Text(p.orderBookId)], [Text(q.orderBookId)];
    var p2, q2 := [Text(p.name)] + p3, [Text(q.name)] + q3;
    var p1, q1 := [Text(p.issuer)] + p2, [Text(q.issuer)] + q2;
    assert Names(p) == [Text(p.productType)] + p1 && Names(q) == [Text(q.productType)] + q1;
    TextDecides(p.productType, q.productType, p1, q1);
    TextDecides(p.issuer, q.issuer, p2, q2);
    TextDecides(p.name, q.name, p3, q3);
    assert p3 == [Text(p.orderBookId)] + [] && q3 == [Text(q.orderBookId)] + [];
    TextDecides(p.orderBookId, q.orderBookId, [], []);
  }

  lemma TailsCompare(x: Enriched, y: Enriched)
    ensures (CompareKey(Tail(x), Tail(y)) < 0)
         == (Turnover(x) > Turnover(y) || (Turnover(x) == Turnover(y) && NamedBefore(x.product, y.product)))
  {
    NamesCompare(x.product, y.product);
    var p, q := x.product, y.product;
    TuplesCompare(Num(-Turnover(x)), Num(-Turnover(y)), Names(p), Names(q));
    assert Tail(x) == [Num(-Turnover(x))] + Names(p) && Tail(y) == [Num(-Turnover(y))] + Names(q);
  }

  /** Deviation (if it counts) and spread decide before the age. */
  lemma StructuresCompare(x: Enriched, y: Enriched, prefer: bool)
    requires MeaningfulRow(x) && MeaningfulRow(y)
    ensures (CompareKey(Structure(x, prefer), Structure(y, prefer)) < 0)
         == ((prefer && Smaller(x.product.leverageDeviation, y.product.leverageDeviation))
             || (!(prefer && Smaller(y.product.leverageDeviation, x.product.leverageDeviation)) && Tighter(Bid(x), Ask(x), Bid(y), Ask(y))))
    ensures CompareKey(Structure(x, prefer), Structure(y, prefer)) == -CompareKey(Structure(y, prefer), Structure(x, prefer))
  {
    var s, t: Key := [OrInfinity(SpreadOf(x))], [OrInfinity(SpreadOf(y))];
    KeyOrder(Structure(x, prefer), Structure(y, prefer));
    TuplesCompare(OrInfinity(SpreadOf(x)), OrInfinity(SpreadOf(y)), [], []);
    NumbersCompare(SpreadOf(x), SpreadOf(y));
    assert SpreadOf(x).Some? ==> x.live.Some?;
    TighterIsSmaller(Bid(x), Ask(x), SpreadOf(x), Bid(y), Ask(y), SpreadOf(y));
    NumbersCompare(x.product.leverageDeviation, y.product.leverageDeviation);
    if prefer {
      TuplesCompare(OrInfinity(x.product.leverageDeviation), OrInfinity(y.product.leverageDeviation), s, t);
    } else {
      assert Structure(x, prefer) == s && Structure(y, prefer) == t;
    }
  }

  /** Comparing two rows at a time is the ranking rule. */
  lemma RowsCompare(x: Enriched, y: Enriched, now: int, prefer: bool)
    requires MeaningfulRow(x) && MeaningfulRow(y)
    ensures CompareAt(x, y, now, prefer) < 0 <==> Before(x, y, now, prefer)
  {
    StructuresCompare(x, y, prefer);
    StructuresCompare(y, x, prefer);
    YoungerIsFirst(x, y, now);
    TailsCompare(x, y);
  }

  /**
  In every completed run each row comes before each later one by the ranking rule, at
  the last observation: fresh before stale before untradable, then by leverage deviation
  when a target was given, then by spread relative to the prices, age, turnover, names.
  */
  lemma RankedByRule(ps: seq<Product>, prefer: bool, calls: seq<Call>, list: seq<Enriched>, i: nat, j: nat)
    requires DistinctIds(ps) && calls != [] && Run(ps, prefer, calls).next >= |ps|
    requires list == Run(ps, prefer, calls).list && i < j < |list|
    ensures Before(list[i], list[j], LastObserved(ps, prefer, calls), prefer)
  {
    CompletedIsRanked(ps, prefer, calls);
    RunIsMeaningful(ps, prefer, calls);
    RankedRows(list, LastObserved(ps, prefer, calls), prefer, i, j);
  }

  lemma RankedRows(list: seq<Enriched>, t: int, prefer: bool, i: nat, j: nat)
    requires RankedAt(list, t, prefer) && i < j < |list| && forall e | e in list :: MeaningfulRow(e)
    ensures Before(list[i], list[j], t, prefer)
  {
    var x, y := list[i], list[j];
    assert x in list && y in list;
    RanksCompare(x, y, t, prefer);
    KeyOrder(RankBy(prefer)(x), RankBy(prefer)(y));
    TailsDiffer(x, y);
    RowsCompare(x, y, t, prefer);
  }

  // ---- the final refresh ----

  /** Only the first 25 rows are asked for again, and each takes the answer to its own question. */
  lemma OnlyHeadIsRefreshed(list: seq<Enriched>, reply: nat -> Option<RawQuote>, at: nat -> int, i: nat)
    requires UniqueRows(list) && i < |list|
    ensures var e := RefreshHead(list, reply, at)[i];
            if i < 25 && reply(i).Some? then
              && e.product == list[i].product && e.retrievedAt == at(i) && e.failed == list[i].failed && e.live.Some?
              && e.live.value.bid == reply(i).value.buy && e.live.value.ask == reply(i).value.sell
              && Source(e) == reply(i).value.updated
            else e == list[i]
  {
    var k := SubstitutedRow(list, reply, at, i);
  }

  /** The row reports the new quote of its product, or what it reported before, aged at `t`. */
  ghost predicate Takes(e: Enriched, was: Enriched, quote: Option<RawQuote>, t: int) {
    && e.product == was.product
    && (quote.None? ==>
          && e.live.Some? == was.live.Some?
          && (e.live.Some? ==>
                && e.live.value.bid == was.live.value.bid && e.live.value.ask == was.live.value.ask
                && Source(e) == Source(was) && e.live.value.freshness.observedAt == t))
    && (quote.Some? ==>
          && e.live.Some? && e.live.value.bid == quote.value.buy && e.live.value.ask == quote.value.sell
          && Source(e) == quote.value.updated && e.live.value.freshness.observedAt == t)
  }

  /** The row takes what its own row of the first ranking was answered, if that was among the first 25. */
  ghost predicate TakenFrom(e: Enriched, ranked: seq<Enriched>, reply: nat -> Option<RawQuote>, t: int) {
    exists i :: 0 <= i < |ranked| && Takes(e, ranked[i], if i < 25 then reply(i) else None, t)
  }

  lemma RerankedTakes(ranked: seq<Enriched>, reply: nat -> Option<RawQuote>, at: nat -> int, t: int, prefer: bool)
    requires UniqueRows(ranked)
    ensures forall e | e in Rerank(RefreshHead(ranked, reply, at), t, prefer) :: TakenFrom(e, ranked, reply, t)
  {
    var head := RefreshHead(ranked, reply, at);
    RerankShape(head, t, prefer);
    forall e | e in Rerank(head, t, prefer) ensures TakenFrom(e, ranked, reply, t) {
      var i :| 0 <= i < |head| && e == RefreshLiveFreshness(head[i], t);
      OnlyHeadIsRefreshed(ranked, reply, at, i);
      assert Takes(e, ranked[i], if i < 25 then reply(i) else None, t);
    }
  }

  /**
  The completing call ranks all rows at its first look at the clock, asks again for the
  first 25 of that ranking, and ranks the rows with the new quotes at its last look.
  */
  lemma HeadTakesNewQuotes(ps: seq<Product>, prefer: bool, before: seq<Call>, call: Call, list: seq<Enriched>)
    returns (ranked: seq<Enriched>)
    requires DistinctIds(ps) && ps != [] && call.refresh.Answered?
    requires Run(ps, prefer, before).next < |ps| <= Run(ps, prefer, before + [call]).next
    requires list == Run(ps, prefer, before + [call]).list
    ensures |ranked| == |ps| == |list|
    ensures forall i, j | 0 <= i < j < |ranked| :: Before(ranked[i], ranked[j], call.clock.rankAt, prefer)
    ensures forall e | e in list :: TakenFrom(e, ranked, call.refresh.at, call.clock.rerankAt)
    ensures forall i, j | 0 <= i < j < |list| :: Before(list[i], list[j], call.clock.rerankAt, prefer)
  {
    hide Before, TakenFrom, MeaningfulRow, Run, Scan, Rerank, RefreshHead, LastObserved, UniqueRows;
    var calls := before + [call];
    var m := Scan(ps, Run(ps, prefer, before), call);
    ScannedLast(ps, prefer, before, call);
    ranked := Rerank(m.list, call.clock.rankAt, prefer);
    CompletingStep(ps, prefer, before, call, m, ranked, list);
    FirstRanking(ps, m, call.clock.rankAt, prefer);
    forall i, j | 0 <= i < j < |ranked| ensures Before(ranked[i], ranked[j], call.clock.rankAt, prefer) {
      RankedRows(ranked, call.clock.rankAt, prefer, i, j);
    }
    RerankedTakes(ranked, call.refresh.at, call.clock.refreshAt, call.clock.rerankAt, prefer);
    forall i, j | 0 <= i < j < |list| ensures Before(list[i], list[j], call.clock.rerankAt, prefer) {
      RankedByRule(ps, prefer, calls, list, i, j);
    }
  }

  /** The list the completing call leaves, and when it last looked at the clock. */
  lemma CompletingStep(ps: seq<Product>, prefer: bool, before: seq<Call>, call: Call, m: Progress,
                       ranked: seq<Enriched>, list: seq<Enriched>)
    requires m == Scan(ps, Run(ps, prefer, before), call) && m.next == |ps| == |m.list| && !m.refreshDone
    requires ps != [] && call.refresh.Answered?
    requires ranked == Rerank(m.list, call.clock.rankAt, prefer) && list == Run(ps, prefer, before + [call]).list
    ensures |ranked| == |list| == |ps|
    ensures list == Rerank(RefreshHead(ranked, call.refresh.at, call.clock.refreshAt), call.clock.rerankAt, prefer)
    ensures LastObserved(ps, prefer, before + [call]) == call.clock.rerankAt
  {
    hide Scan, Rerank, RefreshHead;
    assert (before + [call])[..|before|] == before;
    RerankShape(m.list, call.clock.rankAt, prefer);
    var head := RefreshHead(ranked, call.refresh.at, call.clock.refreshAt);
    RerankShape(head, call.clock.rerankAt, prefer);
    HeadShape(ranked, call.refresh.at, call.clock.refreshAt);
  }

  lemma HeadShape(list: seq<Enriched>, reply: nat -> Option<RawQuote>, at: nat -> int)
    ensures |RefreshHead(list, reply, at)| == |list|
  {
  }

  /** What the last batch leaves to rank. */
  lemma ScannedLast(ps: seq<Product>, prefer: bool, before: seq<Call>, call: Call)
    requires DistinctIds(ps)
    requires Run(ps, prefer, before).next < |ps| <= Run(ps, prefer, before + [call]).next
    ensures var m := Scan(ps, Run(ps, prefer, before), call);
            && m.next == |ps| == |m.list| && !m.refreshDone && Conserved(ps, m)
            && forall e | e in m.list :: MeaningfulRow(e)
  {
    hide Meaningful;
    assert (before + [call])[..|before|] == before;
    RunConserves(ps, prefer, before);
    CursorArithmetic(ps, prefer, before);
    ScanConserves(ps, Run(ps, prefer, before), call);
    RunIsMeaningful(ps, prefer, before);
    ScanIsMeaningful(ps, Run(ps, prefer, before), call);
  }

  lemma FirstRanking(ps: seq<Product>, m: Progress, at: int, prefer: bool)
    requires DistinctIds(ps) && Conserved(ps, m) && m.next == |ps|
    requires forall e | e in m.list :: MeaningfulRow(e)
    ensures RankedAt(Rerank(m.list, at, prefer), at, prefer)
    ensures forall e | e in Rerank(m.list, at, prefer) :: MeaningfulRow(e)
  {
    var list := Rerank(m.list, at, prefer);
    RerankIsMeaningful(m.list, at, prefer);
    RerankConserves(m.list, at, prefer);
    RerankAges(m.list, at, prefer);
    assert ps[..m.next] == ps;
    RunIsUnique(ps, list);
    SortSorts(SetFreshness(m.list, at), RankBy(prefer));
    forall e | e in list ensures Stamped(e) {
      assert MeaningfulRow(e);
    }
  }

  // ---- on the snapshot's fields ----

  /**
  A new snapshot that is given all the calls: every quote it holds means what it says,
  and once all products have been attempted its list, and the page the last call
  returns, follow the ranking rule.
  */
  method EnrichAndRank(underlyingId: string, direction: string, expiresAt: int, ps: seq<Product>, prefer: bool,
                       calls: seq<Call>, offset: nat, size: nat) returns (s: Snapshot, page: Page<Enriched>)
    requires DistinctIds(ps) && calls != []
    ensures fresh(s) && s.State() == Run(ps, prefer, calls)
    ensures forall e | e in s.executionProducts :: e.live.Some? ==> Meaningful(e.live.value)
    ensures s.executionNextIndex < |ps| ==> page.items == []
    ensures s.executionNextIndex >= |ps| ==>
              && |s.executionProducts| == |ps|
              && page.items == s.executionProducts[Min(offset, |ps|)..Min(offset + size, |ps|)]
              && (forall i, j | 0 <= i < j < |s.executionProducts| ::
                    Before(s.executionProducts[i], s.executionProducts[j], LastObserved(ps, prefer, calls), prefer))
  {
    hide Meaningful, Before, EnrichStep;
    s := new Snapshot(underlyingId, direction, expiresAt, ps, prefer);
    page := Page([], |ps|, 0, false, None);
    for n := 0 to |calls|
      invariant fresh(s) && s.products == ps && s.preferTarget == prefer
      invariant s.State() == Run(ps, prefer, calls[..n])
      invariant n > 0 ==> page == Exposed(ps, s.State(), offset, size)
    {
      page := s.Enrich(offset, size, calls[n]);
      assert calls[..n + 1][..n] == calls[..n];
    }
    assert calls[..|calls|] == calls;
    RunIsMeaningful(ps, prefer, calls);
    CursorArithmetic(ps, prefer, calls);
    if s.executionNextIndex >= |ps| {
      forall i, j | 0 <= i < j < |s.executionProducts|
        ensures Before(s.executionProducts[i], s.executionProducts[j], LastObserved(ps, prefer, calls), prefer)
      {
        RankedByRule(ps, prefer, calls, s.executionProducts, i, j);
      }
    }
  }
}
