/**
Pages of a ranking that every call re-ages and re-sorts.

After completion each `enrich_snapshot` call sets the ages of all rows to its own clock
and sorts again before it slices a page, so a caller that follows `next_offset` takes
every page from a list ranked at another time.  What it gets depends on which rows
overtake others in between, and that depends on source stamps and call times only.
*/
module RankingPages {
  import opened Wrappers
  import opened Order
  import opened Paging
  import opened Enrichment
  import opened EnrichmentProofs

  // ---- the rank of a row as a function of time ----

  /** Best bid and ask are both there and in order. */
  predicate TwoSided(e: Enriched) {
    e.live.Some? && TwoWay(e.live.value.bid, e.live.value.ask)
  }

  function Source(e: Enriched): Option<int> {
    if e.live.Some? then e.live.value.freshness.sourceAt else None
  }

  /** A quote without a source stamp has no age. */
  predicate Stamped(e: Enriched) {
    e.live.Some? && Source(e).None? ==> e.live.value.freshness.bidAskAge.None?
  }

  predicate FreshAt(e: Enriched, t: int) {
    TwoSided(e) && Source(e).Some? && t - Source(e).value <= STALE_AFTER_MS
  }

  /** The row is fresh at `t0` and stale at `t1`. */
  predicate Lapses(e: Enriched, t0: int, t1: int) {
    FreshAt(e, t0) && !FreshAt(e, t1)
  }

  function QualityAt(e: Enriched, t: int): real {
    if !TwoSided(e) then 2.0 else if FreshAt(e, t) then 0.0 else 1.0
  }

  function AgeAt(e: Enriched, t: int): Atom {
    if Source(e).Some? then Num(Max(0, t - Source(e).value) as real) else Infinity
  }

  /** The part of the rank before the age that time does not change: leverage deviation and spread. */
  function Structure(e: Enriched, prefer: bool): Key {
    (if prefer then [OrInfinity(e.product.leverageDeviation)] else [])
    + [OrInfinity(if e.live.Some? then e.live.value.spread else None)]
  }

  function Tail(e: Enriched): Key {
    [Num(-(if e.product.turnover.Some? then e.product.turnover.value else 0.0)),
     Text(e.product.productType), Text(e.product.issuer), Text(e.product.name), Text(e.product.orderBookId)]
  }

  /** Comparing two rows as they rank at time `t`. */
  function CompareAt(x: Enriched, y: Enriched, t: int, prefer: bool): int {
    if QualityAt(x, t) != QualityAt(y, t) then (if QualityAt(x, t) < QualityAt(y, t) then -1 else 1)
    else if CompareKey(Structure(x, prefer), Structure(y, prefer)) != 0
    then CompareKey(Structure(x, prefer), Structure(y, prefer))
    else if CompareAtom(AgeAt(x, t), AgeAt(y, t)) != 0 then CompareAtom(AgeAt(x, t), AgeAt(y, t))
    else CompareKey(Tail(x), Tail(y))
  }

  lemma {:induction false} CompareParts(a: Key, b: Key, c: Key, d: Key)
    requires |a| == |c|
    ensures CompareKey(a + b, c + d) == if CompareKey(a, c) != 0 then CompareKey(a, c) else CompareKey(b, d)
  {
    if a == [] {
      assert a + b == b && c + d == d;
    } else {
      assert (a + b)[1..] == a[1..] + b && (c + d)[1..] == c[1..] + d;
      CompareParts(a[1..], b, c[1..], d);
    }
  }

  lemma RankParts(e: Enriched, t: int, prefer: bool)
    requires Stamped(e)
    ensures ExecutionRank(RefreshLiveFreshness(e, t), prefer)
         == [Num(QualityAt(e, t))] + (Structure(e, prefer) + ([AgeAt(e, t)] + Tail(e)))
  {
  }

  lemma RanksCompare(x: Enriched, y: Enriched, t: int, prefer: bool)
    requires Stamped(x) && Stamped(y)
    ensures CompareKey(RankBy(prefer)(RefreshLiveFreshness(x, t)), RankBy(prefer)(RefreshLiveFreshness(y, t)))
         == CompareAt(x, y, t, prefer)
  {
    RankParts(x, t, prefer);
    RankParts(y, t, prefer);
    CompareParts([Num(QualityAt(x, t))], Structure(x, prefer) + ([AgeAt(x, t)] + Tail(x)),
                 [Num(QualityAt(y, t))], Structure(y, prefer) + ([AgeAt(y, t)] + Tail(y)));
    CompareParts(Structure(x, prefer), [AgeAt(x, t)] + Tail(x), Structure(y, prefer), [AgeAt(y, t)] + Tail(y));
    CompareParts([AgeAt(x, t)], Tail(x), [AgeAt(y, t)], Tail(y));
  }

  // ---- overtaking ----

  /**
  `y`, ranked behind `x` at `t0`, comes before `x` at `t1`: `x` lapses past a row that is
  still fresh, or past a stale one with the better leverage deviation or spread; or both
  rank alike, both stamps lie in the future of `t0`, and `x` starts to age before `y`.
  */
  predicate Overtakes(x: Enriched, y: Enriched, t0: int, t1: int, prefer: bool) {
    || (Lapses(x, t0, t1) && FreshAt(y, t1))
    || (Lapses(x, t0, t1) && TwoSided(y) && !FreshAt(y, t0)
        && CompareKey(Structure(x, prefer), Structure(y, prefer)) > 0)
    || (QualityAt(x, t0) == QualityAt(y, t0) && QualityAt(x, t1) == QualityAt(y, t1)
        && CompareKey(Structure(x, prefer), Structure(y, prefer)) == 0
        && Source(x).Some? && Source(y).Some? && t0 <= Source(x).value < Source(y).value && Source(x).value < t1)
  }

  lemma TailsDiffer(x: Enriched, y: Enriched)
    requires x.product.orderBookId != y.product.orderBookId
    ensures CompareKey(Tail(x), Tail(y)) != 0
  {
    KeyOrder(Tail(x), Tail(y));
    assert Tail(x)[4] == Text(x.product.orderBookId) && Tail(y)[4] == Text(y.product.orderBookId);
  }

  /** Two rows change places between `t0` and `t1` exactly when the second overtakes the first. */
  lemma OvertakesExactly(x: Enriched, y: Enriched, t0: int, t1: int, prefer: bool)
    requires t0 <= t1 && x.product.orderBookId != y.product.orderBookId
    requires CompareAt(x, y, t0, prefer) <= 0
    ensures CompareAt(x, y, t1, prefer) > 0 <==> Overtakes(x, y, t0, t1, prefer)
  {
    TailsDiffer(x, y);
  }

  /** No row of the list overtakes one ranked before it. */
  ghost predicate NobodyOvertakes(list: seq<Enriched>, t0: int, t1: int, prefer: bool) {
    forall i, j | 0 <= i < j < |list| :: !Overtakes(list[i], list[j], t0, t1, prefer)
  }

  ghost predicate UniqueRows(list: seq<Enriched>) {
    forall i, j | 0 <= i < j < |list| :: list[i].product.orderBookId != list[j].product.orderBookId
  }

  /** A list as a call at time `t` leaves it. */
  ghost predicate RankedAt(list: seq<Enriched>, t: int, prefer: bool) {
    && Sorted(list, RankBy(prefer)) && AgedAt(list, t) && UniqueRows(list)
    && forall e | e in list :: Stamped(e)
  }

  lemma PairAt(list: seq<Enriched>, i: nat, j: nat, t0: int, t1: int, prefer: bool)
    requires RankedAt(list, t0, prefer) && t0 <= t1 && i < j < |list|
    ensures CompareKey(RankBy(prefer)(RefreshLiveFreshness(list[i], t1)), RankBy(prefer)(RefreshLiveFreshness(list[j], t1))) > 0
       <==> Overtakes(list[i], list[j], t0, t1, prefer)
  {
    var x, y := list[i], list[j];
    assert x in list && y in list;
    RanksCompare(x, y, t0, prefer);
    RanksCompare(x, y, t1, prefer);
    OvertakesExactly(x, y, t0, t1, prefer);
  }

  /** Re-aged in place the list is still sorted exactly when nobody overtakes. */
  lemma StillSortedIff(list: seq<Enriched>, t0: int, t1: int, prefer: bool)
    requires RankedAt(list, t0, prefer) && t0 <= t1
    ensures Sorted(SetFreshness(list, t1), RankBy(prefer)) <==> NobodyOvertakes(list, t0, t1, prefer)
  {
    var aged := SetFreshness(list, t1);
    forall i, j | 0 <= i < j < |list|
      ensures CompareKey(RankBy(prefer)(aged[i]), RankBy(prefer)(aged[j])) > 0
         <==> Overtakes(list[i], list[j], t0, t1, prefer)
    {
      PairAt(list, i, j, t0, t1, prefer);
    }
  }

  lemma RowsAreDetermined(list: seq<Enriched>, t: int, prefer: bool)
    requires UniqueRows(list)
    ensures KeyDetermines(SetFreshness(list, t), RankBy(prefer))
  {
    var aged := SetFreshness(list, t);
    forall x, y | x in aged && y in aged && RankBy(prefer)(x) == RankBy(prefer)(y) ensures x == y {
      var i :| 0 <= i < |list| && x == aged[i];
      var j :| 0 <= j < |list| && y == aged[j];
      var a, b := ExecutionRank(x, prefer), ExecutionRank(y, prefer);
      assert a[|a| - 1] == Text(x.product.orderBookId) && b[|b| - 1] == Text(y.product.orderBookId);
      assert list[i].product.orderBookId == list[j].product.orderBookId;
    }
  }

  /** A permutation of re-aged rows with the products of the list in place is the re-aged list. */
  lemma SameProductsSameRows(list: seq<Enriched>, now: seq<Enriched>, t: int)
    requires UniqueRows(list) && |now| == |list|
    requires forall x | x in now :: x in SetFreshness(list, t)
    requires ProductsOf(now) == ProductsOf(list)
    ensures now == SetFreshness(list, t)
  {
    forall k | 0 <= k < |list| ensures now[k] == SetFreshness(list, t)[k] {
      assert ProductsOf(now)[k] == now[k].product && ProductsOf(list)[k] == list[k].product;
      assert now[k] in now;
      var i :| 0 <= i < |list| && now[k] == SetFreshness(list, t)[i];
      assert list[i].product.orderBookId == list[k].product.orderBookId;
    }
  }

  /**
  The next call lists the products in the same order if and only if no row overtakes one
  ranked before it between the two clock readings.
  */
  lemma OrderKeptIff(list: seq<Enriched>, t0: int, t1: int, prefer: bool)
    requires RankedAt(list, t0, prefer) && t0 <= t1
    ensures ProductsOf(Rerank(list, t1, prefer)) == ProductsOf(list) <==> NobodyOvertakes(list, t0, t1, prefer)
  {
    var aged, now := SetFreshness(list, t1), Rerank(list, t1, prefer);
    StillSortedIff(list, t0, t1, prefer);
    RerankShape(list, t1, prefer);
    SortSorts(aged, RankBy(prefer));
    assert ProductsOf(aged) == ProductsOf(list);
    if NobodyOvertakes(list, t0, t1, prefer) {
      RowsAreDetermined(list, t1, prefer);
      SortedUnique(aged, now, RankBy(prefer));
    }
    if ProductsOf(now) == ProductsOf(list) {
      SameProductsSameRows(list, now, t1);
    }
  }

  // ---- pages from two successive rankings ----

  /** Wherever the caller changes from the first list to the second, it sees every element once. */
  ghost predicate Seamless<T>(a: seq<T>, b: seq<T>) {
    |a| == |b| && forall c | 0 <= c <= |a| :: multiset(a[..c] + b[c..]) == multiset(a)
  }

  lemma Cancels<T>(x: multiset<T>, y: multiset<T>, z: multiset<T>)
    requires x + z == y + z
    ensures x == y
  {
    assert x == (x + z) - z;
  }

  lemma SamePrefixes<T>(a: seq<T>, b: seq<T>, c: nat)
    requires Seamless(a, b) && multiset(a) == multiset(b) && c <= |a|
    ensures multiset(a[..c]) == multiset(b[..c])
  {
    assert b == b[..c] + b[c..];
    assert multiset(b) == multiset(b[..c]) + multiset(b[c..]);
    assert multiset(a[..c] + b[c..]) == multiset(a[..c]) + multiset(b[c..]);
    Cancels(multiset(a[..c]), multiset(b[..c]), multiset(b[c..]));
  }

  lemma SameNext<T>(a: seq<T>, b: seq<T>, c: nat)
    requires c < |a| && c < |b|
    requires multiset(a[..c]) == multiset(b[..c]) && multiset(a[..c + 1]) == multiset(b[..c + 1])
    ensures a[c] == b[c]
  {
    assert a[..c + 1] == a[..c] + [a[c]] && b[..c + 1] == b[..c] + [b[c]];
    assert multiset(a[..c + 1]) == multiset{a[c]} + multiset(a[..c]);
    assert multiset(b[..c + 1]) == multiset{b[c]} + multiset(b[..c]);
    Cancels(multiset{a[c]}, multiset{b[c]}, multiset(a[..c]));
    assert a[c] in multiset{b[c]};
  }

  lemma SeamlessIff<T>(a: seq<T>, b: seq<T>)
    requires multiset(a) == multiset(b)
    ensures Seamless(a, b) <==> a == b
  {
    if Seamless(a, b) {
      forall c | 0 <= c < |a| ensures a[c] == b[c] {
        SamePrefixes(a, b, c);
        SamePrefixes(a, b, c + 1);
        SameNext(a, b, c);
      }
    }
    if a == b {
      forall c | 0 <= c <= |a| ensures multiset(a[..c] + b[c..]) == multiset(a) {
        assert a[..c] + b[c..] == a;
      }
    }
  }

  /**
  A caller that took its first pages from one ranking and takes the rest from the next
  gets every product exactly once, wherever it changes over, if and only if no row
  overtakes one ranked before it in between.
  */
  lemma PagesJoinIff(list: seq<Enriched>, t0: int, t1: int, prefer: bool)
    requires RankedAt(list, t0, prefer) && t0 <= t1
    ensures Seamless(ProductsOf(list), ProductsOf(Rerank(list, t1, prefer))) <==> NobodyOvertakes(list, t0, t1, prefer)
  {
    OrderKeptIff(list, t0, t1, prefer);
    RerankConserves(list, t1, prefer);
    SeamlessIff(ProductsOf(list), ProductsOf(Rerank(list, t1, prefer)));
  }

  /** A row that keeps its freshness and was not stamped in the future is not overtaken. */
  lemma SteadyRowsKeepOrder(list: seq<Enriched>, t0: int, t1: int, prefer: bool)
    requires forall e | e in list :: !Lapses(e, t0, t1) && (Source(e).Some? ==> Source(e).value <= t0)
    ensures NobodyOvertakes(list, t0, t1, prefer)
  {
  }

  // ---- runs ----

  lemma EnrichedIsStamped(p: Product, quote: Option<RawQuote>, at: int)
    ensures Stamped(EnrichOne(p, quote, at))
  {
  }

  lemma ScanStamps(ps: seq<Product>, s: Progress, call: Call)
    requires s.next <= |ps| && forall e | e in s.list :: Stamped(e)
    ensures forall e | e in Scan(ps, s, call).list :: Stamped(e)
  {
    if s.next < |ps| && call.batch.Answered? {
      var selected := ps[s.next..Min(|ps|, s.next + BATCH_SIZE)];
      var batch := EnrichBatch(selected, call.batch.at, call.clock.batchAt);
      forall e | e in batch ensures Stamped(e) {
        var i :| 0 <= i < |batch| && batch[i] == e;
        EnrichedIsStamped(selected[i], call.batch.at(i), call.clock.batchAt(i));
      }
    }
  }

  lemma RerankStamps(list: seq<Enriched>, at: int, prefer: bool)
    requires forall e | e in list :: Stamped(e)
    ensures forall e | e in Rerank(list, at, prefer) :: Stamped(e)
  {
    RerankShape(list, at, prefer);
    forall e | e in Rerank(list, at, prefer) ensures Stamped(e) {
      var i :| 0 <= i < |list| && e == RefreshLiveFreshness(list[i], at);
      assert list[i] in list;
    }
  }

  lemma HeadStamps(list: seq<Enriched>, reply: nat -> Option<RawQuote>, at: nat -> int)
    requires forall e | e in list :: Stamped(e)
    ensures forall e | e in RefreshHead(list, reply, at) :: Stamped(e)
  {
    forall e | e in RefreshHead(list, reply, at) ensures Stamped(e) {
      var i :| 0 <= i < |list| && e == RefreshHead(list, reply, at)[i];
      var k := SubstitutedRow(list, reply, at, i);
      assert list[i] in list;
    }
  }

  /** Every row of every run was compacted from a quote, or has none. */
  lemma {:induction false} RunStamps(ps: seq<Product>, prefer: bool, calls: seq<Call>)
    ensures forall e | e in Run(ps, prefer, calls).list :: Stamped(e)
  {
    if calls != [] {
      var call := calls[|calls| - 1];
      var s := Run(ps, prefer, calls[..|calls| - 1]);
      var m := Scan(ps, s, call);
      RunStamps(ps, prefer, calls[..|calls| - 1]);
      CursorArithmetic(ps, prefer, calls[..|calls| - 1]);
      ScanStamps(ps, s, call);
      var ranked := Rerank(m.list, call.clock.rankAt, prefer);
      RerankStamps(m.list, call.clock.rankAt, prefer);
      if call.refresh.Answered? {
        HeadStamps(ranked, call.refresh.at, call.clock.refreshAt);
        RerankStamps(RefreshHead(ranked, call.refresh.at, call.clock.refreshAt), call.clock.rerankAt, prefer);
      }
    }
  }

  lemma {:induction false} AtMostOnce(s: seq<string>, v: string)
    requires forall i, j | 0 <= i < j < |s| :: s[i] != s[j]
    ensures multiset(s)[v] <= 1
  {
    if s != [] {
      AtMostOnce(s[1..], v);
      assert s == [s[0]] + s[1..];
      assert s[0] !in s[1..];
    }
  }

  lemma TwiceThere(s: seq<string>, i: nat, j: nat)
    requires i < j < |s| && s[i] == s[j]
    ensures multiset(s)[s[i]] >= 2
  {
    assert s == s[..j] + [s[j]] + s[j + 1..];
    assert s[..j][i] in multiset(s[..j]);
  }

  function IdOf(): Product -> string {
    (p: Product) => p.orderBookId
  }

  lemma RunIsUnique(ps: seq<Product>, list: seq<Enriched>)
    requires DistinctIds(ps) && multiset(ProductsOf(list)) == multiset(ps)
    ensures UniqueRows(list)
  {
    var a, b := Map(ProductsOf(list), IdOf()), Map(ps, IdOf());
    MapPermutes(ProductsOf(list), ps, IdOf());
    forall i, j | 0 <= i < j < |list| ensures list[i].product.orderBookId != list[j].product.orderBookId {
      assert a[i] == list[i].product.orderBookId && a[j] == list[j].product.orderBookId;
      if a[i] == a[j] {
        TwiceThere(a, i, j);
        AtMostOnce(b, a[i]);
      }
    }
  }

  /** A completed run leaves a list ranked at its last look at the clock. */
  lemma CompletedIsRanked(ps: seq<Product>, prefer: bool, calls: seq<Call>)
    requires DistinctIds(ps) && calls != [] && Run(ps, prefer, calls).next >= |ps|
    ensures RankedAt(Run(ps, prefer, calls).list, LastObserved(ps, prefer, calls), prefer)
  {
    var call := calls[|calls| - 1];
    var m := Scan(ps, Run(ps, prefer, calls[..|calls| - 1]), call);
    var ranked := Rerank(m.list, call.clock.rankAt, prefer);
    CompletedIsAged(ps, prefer, calls);
    RunConserves(ps, prefer, calls);
    assert ps[..Run(ps, prefer, calls).next] == ps;
    RunIsUnique(ps, Run(ps, prefer, calls).list);
    RunStamps(ps, prefer, calls);
    SortSorts(SetFreshness(m.list, call.clock.rankAt), RankBy(prefer));
    if call.refresh.Answered? {
      var head := RefreshHead(ranked, call.refresh.at, call.clock.refreshAt);
      SortSorts(SetFreshness(head, call.clock.rerankAt), RankBy(prefer));
    }
  }

  /** The state after a run and one more call. */
  lemma LaterCallReranks(ps: seq<Product>, prefer: bool, calls: seq<Call>, call: Call)
    requires calls != [] && Run(ps, prefer, calls).next >= |ps|
    ensures var n := Run(ps, prefer, calls + [call]);
            && n.list == Rerank(Run(ps, prefer, calls).list, call.clock.rankAt, prefer) && n.next >= |ps|
            && LastObserved(ps, prefer, calls + [call]) == call.clock.rankAt
  {
    assert (calls + [call])[..|calls|] == calls;
    assert calls[..|calls|] == calls;
    CompletedStays(ps, prefer, calls, |calls|);
    RerankShape(Run(ps, prefer, calls).list, call.clock.rankAt, prefer);
  }

  /** Before completion no call exposes a row, whatever page is asked for. */
  lemma NothingBeforeCompletion(ps: seq<Product>, prefer: bool, calls: seq<Call>, offset: nat, size: nat)
    ensures Answers(calls) < CeilDiv(|ps|, BATCH_SIZE) ==>
              Exposed(ps, Run(ps, prefer, calls), offset, size) == Page([], |ps|, 0, false, None)
    ensures Answers(calls) >= CeilDiv(|ps|, BATCH_SIZE) ==>
              var list := Run(ps, prefer, calls).list;
              |list| == |ps| && Exposed(ps, Run(ps, prefer, calls), offset, size) == PageOf(list, offset, size)
  {
    CursorArithmetic(ps, prefer, calls);
  }

  /**
  Over runs: take pages from a completed run up to any offset and the rest after one
  more call.  Every product is served exactly once at every change-over if and only if
  no row overtakes one ranked before it between the two clock readings.
  */
  lemma NextCallJoinsIff(ps: seq<Product>, prefer: bool, calls: seq<Call>, call: Call, before: seq<Enriched>, after: seq<Enriched>)
    requires DistinctIds(ps) && calls != [] && Run(ps, prefer, calls).next >= |ps|
    requires LastObserved(ps, prefer, calls) <= call.clock.rankAt
    requires before == Run(ps, prefer, calls).list && after == Run(ps, prefer, calls + [call]).list
    ensures Seamless(ProductsOf(before), ProductsOf(after))
       <==> NobodyOvertakes(before, LastObserved(ps, prefer, calls), call.clock.rankAt, prefer)
  {
    CompletedIsRanked(ps, prefer, calls);
    LaterCallReranks(ps, prefer, calls, call);
    PagesJoinIff(before, LastObserved(ps, prefer, calls), call.clock.rankAt, prefer);
  }

  // ---- following the next offset ----

  /** The rows a caller collects that takes each page from the next of these rankings. */
  function WalkThrough<T>(rankings: seq<seq<T>>, offset: nat, size: nat): seq<T>
    requires rankings != []
  {
    var page := PageOf(rankings[0], offset, size);
    page.items
    + if page.nextOffset.Some? && |rankings| > 1 then WalkThrough(rankings[1..], page.nextOffset.value, size) else []
  }

  /** The last of these pages has no next offset. */
  predicate Finishes<T>(rankings: seq<seq<T>>, offset: nat, size: nat)
    requires rankings != []
  {
    var page := PageOf(rankings[0], offset, size);
    page.nextOffset.None? || (|rankings| > 1 && Finishes(rankings[1..], page.nextOffset.value, size))
  }

  lemma MapSlice<A, B>(list: seq<A>, f: A -> B, a: nat, b: nat)
    requires a <= b <= |list|
    ensures Map(list[a..b], f) == Map(list, f)[a..b]
  {
  }

  lemma PageTakes<A, B>(list: seq<A>, f: A -> B, offset: nat, size: nat)
    requires 1 <= size && offset <= |list|
    ensures var page := PageOf(list, offset, size);
            && offset + |page.items| <= |list| && Map(page.items, f) == Map(list, f)[offset..offset + |page.items|]
            && (if page.nextOffset.Some? then page.nextOffset.value == offset + |page.items| else offset + |page.items| == |list|)
  {
    var end := Min(offset + size, |list|);
    assert PageOf(list, offset, size).items == list[offset..end];
    MapSlice(list, f, offset, end);
  }

  /** Rankings with the same elements in the same places are walked as one list. */
  lemma {:induction false} WalkThroughCovers<A, B>(rankings: seq<seq<A>>, f: A -> B, offset: nat, size: nat)
    requires rankings != [] && 1 <= size && offset <= |rankings[0]| && Finishes(rankings, offset, size)
    requires forall k | 0 <= k < |rankings| :: Map(rankings[k], f) == Map(rankings[0], f)
    ensures Map(WalkThrough(rankings, offset, size), f) == Map(rankings[0], f)[offset..]
  {
    var page := PageOf(rankings[0], offset, size);
    PageTakes(rankings[0], f, offset, size);
    if page.nextOffset.Some? {
      var rest := rankings[1..];
      assert |Map(rankings[1], f)| == |Map(rankings[0], f)|;
      forall k | 0 <= k < |rest| ensures Map(rest[k], f) == Map(rest[0], f) {
        assert rest[k] == rankings[k + 1] && rest[0] == rankings[1];
      }
      WalkThroughCovers(rest, f, page.nextOffset.value, size);
      MapAppends(page.items, WalkThrough(rest, page.nextOffset.value, size), f);
    }
  }

  /** The list, and what it becomes at each of these later clock readings. */
  function Reranked(list: seq<Enriched>, times: seq<int>, prefer: bool): (r: seq<seq<Enriched>>)
    ensures |r| == |times| + 1 && r[0] == list
    decreases |times|
  {
    [list] + if times == [] then [] else Reranked(Rerank(list, times[0], prefer), times[1..], prefer)
  }

  predicate Advances(t: int, times: seq<int>)
    decreases |times|
  {
    times == [] || (t <= times[0] && Advances(times[0], times[1..]))
  }

  /** Between no two successive clock readings does a row overtake another. */
  ghost predicate NobodyEverOvertakes(list: seq<Enriched>, t: int, times: seq<int>, prefer: bool)
    decreases |times|
  {
    times != [] ==>
      && NobodyOvertakes(list, t, times[0], prefer)
      && NobodyEverOvertakes(Rerank(list, times[0], prefer), times[0], times[1..], prefer)
  }

  /** Reranking leaves a ranked list. */
  lemma RerankIsRanked(list: seq<Enriched>, t0: int, t1: int, prefer: bool)
    requires RankedAt(list, t0, prefer)
    ensures RankedAt(Rerank(list, t1, prefer), t1, prefer)
  {
    var now := Rerank(list, t1, prefer);
    SortSorts(SetFreshness(list, t1), RankBy(prefer));
    RerankAges(list, t1, prefer);
    RerankStamps(list, t1, prefer);
    RerankConserves(list, t1, prefer);
    SameIdsUnique(list, now);
  }

  lemma SameIdsUnique(list: seq<Enriched>, now: seq<Enriched>)
    requires UniqueRows(list) && multiset(ProductsOf(now)) == multiset(ProductsOf(list))
    ensures UniqueRows(now)
  {
    assert DistinctIds(ProductsOf(list));
    RunIsUnique(ProductsOf(list), now);
  }

  lemma {:induction false} SameProductsThroughout(list: seq<Enriched>, t: int, times: seq<int>, prefer: bool, k: nat)
    requires RankedAt(list, t, prefer) && Advances(t, times) && NobodyEverOvertakes(list, t, times, prefer)
    requires k <= |times|
    ensures ProductsOf(Reranked(list, times, prefer)[k]) == ProductsOf(list)
    decreases k
  {
    if k > 0 {
      var next := Rerank(list, times[0], prefer);
      OrderKeptIff(list, t, times[0], prefer);
      RerankIsRanked(list, t, times[0], prefer);
      SameProductsThroughout(next, times[0], times[1..], prefer, k - 1);
      assert Reranked(list, times, prefer)[k] == Reranked(next, times[1..], prefer)[k - 1];
    }
  }

  /**
  Following `next_offset` over successive calls: while nobody overtakes, the pages
  followed to the end list the products of the first page's ranking exactly once and in
  its order, although every page comes from a list ranked anew.
  */
  lemma FollowCovers(list: seq<Enriched>, t: int, times: seq<int>, prefer: bool, size: nat)
    requires RankedAt(list, t, prefer) && Advances(t, times) && NobodyEverOvertakes(list, t, times, prefer)
    requires 1 <= size && Finishes(Reranked(list, times, prefer), 0, size)
    ensures ProductsOf(WalkThrough(Reranked(list, times, prefer), 0, size)) == ProductsOf(list)
  {
    var rankings := Reranked(list, times, prefer);
    forall k | 0 <= k < |rankings| ensures Map(rankings[k], TheProduct()) == Map(rankings[0], TheProduct()) {
      SameProductsThroughout(list, t, times, prefer, k);
    }
    WalkThroughCovers(rankings, TheProduct(), 0, size);
    assert ProductsOf(list)[0..] == ProductsOf(list);
  }

  // ---- what a caller can know ----

  /** No row lapses from `t` to `end`, and no stamp lies in the future of `t`. */
  ghost predicate Steady(list: seq<Enriched>, t: int, end: int) {
    forall e | e in list :: !Lapses(e, t, end) && (Source(e).Some? ==> Source(e).value <= t)
  }

  lemma SteadyAfterRerank(list: seq<Enriched>, t: int, now: int, end: int, prefer: bool)
    requires Steady(list, t, end) && t <= now <= end
    ensures NobodyOvertakes(list, t, now, prefer) && Steady(Rerank(list, now, prefer), now, end)
  {
    RerankShape(list, now, prefer);
    forall e | e in Rerank(list, now, prefer)
      ensures !Lapses(e, now, end) && (Source(e).Some? ==> Source(e).value <= now)
    {
      var i :| 0 <= i < |list| && e == RefreshLiveFreshness(list[i], now);
      assert list[i] in list;
    }
    assert forall e | e in list :: !Lapses(e, t, now);
    SteadyRowsKeepOrder(list, t, now, prefer);
  }

  /**
  It is enough that no row of the first list is fresh then and stale at the last call,
  and that no stamp lies in its future: then nobody ever overtakes.
  */
  lemma {:induction false} SteadyNobodyOvertakes(list: seq<Enriched>, t: int, times: seq<int>, end: int, prefer: bool)
    requires Steady(list, t, end) && Advances(t, times) && forall k | 0 <= k < |times| :: times[k] <= end
    ensures NobodyEverOvertakes(list, t, times, prefer)
    decreases |times|
  {
    if times != [] {
      SteadyAfterRerank(list, t, times[0], end, prefer);
      SteadyNobodyOvertakes(Rerank(list, times[0], prefer), times[0], times[1..], end, prefer);
    }
  }

  // ---- walks over runs ----

  function Times(more: seq<Call>): seq<int> {
    seq(|more|, k requires 0 <= k < |more| => more[k].clock.rankAt)
  }

  lemma {:induction false} NextReranked(list: seq<Enriched>, times: seq<int>, prefer: bool, k: nat)
    requires 1 <= k <= |times|
    ensures Reranked(list, times, prefer)[k] == Rerank(Reranked(list, times, prefer)[k - 1], times[k - 1], prefer)
    decreases k
  {
    var next := Reranked(Rerank(list, times[0], prefer), times[1..], prefer);
    assert Reranked(list, times, prefer) == [list] + next;
    if k > 1 { NextReranked(Rerank(list, times[0], prefer), times[1..], prefer, k - 1); }
  }

  /** One more of the further calls. */
  lemma OneMoreCall(calls: seq<Call>, more: seq<Call>, k: nat)
    requires 1 <= k <= |more|
    ensures calls + more[..k] == (calls + more[..k - 1]) + [more[k - 1]]
  {
  }

  /** After completion the list after `k` further calls is the `k`-th re-ranking. */
  lemma {:induction false} LaterLists(ps: seq<Product>, prefer: bool, calls: seq<Call>, list: seq<Enriched>, more: seq<Call>,
                                      k: nat)
    requires calls != [] && Run(ps, prefer, calls).next >= |ps| && k <= |more|
    requires list == Run(ps, prefer, calls).list
    ensures Run(ps, prefer, calls + more[..k]).next >= |ps|
    ensures Run(ps, prefer, calls + more[..k]).list == Reranked(list, Times(more), prefer)[k]
    decreases k
  {
    if k == 0 {
      assert calls + more[..0] == calls;
    } else {
      LaterLists(ps, prefer, calls, list, more, k - 1);
      OneMoreCall(calls, more, k);
      LaterListsStep(ps, prefer, calls + more[..k - 1], more[k - 1], calls + more[..k],
                     Reranked(list, Times(more), prefer)[k - 1]);
      NextReranked(list, Times(more), prefer, k);
    }
  }

  lemma LaterListsStep(ps: seq<Product>, prefer: bool, earlier: seq<Call>, call: Call, now: seq<Call>, list: seq<Enriched>)
    requires earlier != [] && Run(ps, prefer, earlier).next >= |ps| && Run(ps, prefer, earlier).list == list
    requires now == earlier + [call]
    ensures Run(ps, prefer, now).next >= |ps|
    ensures Run(ps, prefer, now).list == Rerank(list, call.clock.rankAt, prefer)
  {
    LaterCallReranks(ps, prefer, earlier, call);
  }

  /** The pages that those calls expose. */
  lemma LaterCallsExpose(ps: seq<Product>, prefer: bool, calls: seq<Call>, list: seq<Enriched>, more: seq<Call>, k: nat,
                         offset: nat, size: nat)
    requires calls != [] && Run(ps, prefer, calls).next >= |ps| && k <= |more|
    requires list == Run(ps, prefer, calls).list
    ensures Exposed(ps, Run(ps, prefer, calls + more[..k]), offset, size)
         == PageOf(Reranked(list, Times(more), prefer)[k], offset, size)
  {
    LaterLists(ps, prefer, calls, list, more, k);
  }

  /**
  A caller of a completed snapshot that follows `next_offset` call by call gets every
  product exactly once, if no row overtakes another between the calls.
  */
  lemma CompletedWalkCovers(ps: seq<Product>, prefer: bool, calls: seq<Call>, more: seq<Call>, size: nat, list: seq<Enriched>)
    requires DistinctIds(ps) && calls != [] && Run(ps, prefer, calls).next >= |ps| && 1 <= size
    requires list == Run(ps, prefer, calls).list
    requires Advances(LastObserved(ps, prefer, calls), Times(more))
    requires NobodyEverOvertakes(list, LastObserved(ps, prefer, calls), Times(more), prefer)
    requires Finishes(Reranked(list, Times(more), prefer), 0, size)
    ensures multiset(ProductsOf(WalkThrough(Reranked(list, Times(more), prefer), 0, size))) == multiset(ps)
  {
    CompletedIsRanked(ps, prefer, calls);
    FollowCovers(list, LastObserved(ps, prefer, calls), Times(more), prefer, size);
    RunConserves(ps, prefer, calls);
    assert ps[..Run(ps, prefer, calls).next] == ps;
  }

  // ---- the other side occurs ----

  lemma RerankTwo(x: Enriched, y: Enriched, t: int, prefer: bool)
    requires Stamped(x) && Stamped(y)
    ensures Rerank([x, y], t, prefer)
         == if CompareAt(x, y, t, prefer) <= 0 then [RefreshLiveFreshness(x, t), RefreshLiveFreshness(y, t)]
            else [RefreshLiveFreshness(y, t), RefreshLiveFreshness(x, t)]
  {
    var a, b, key := RefreshLiveFreshness(x, t), RefreshLiveFreshness(y, t), RankBy(prefer);
    RanksCompare(x, y, t, prefer);
    assert SetFreshness([x, y], t) == [a, b];
    assert StableSort([b], key) == [b] by { assert [b][1..] == []; }
    assert [a, b][1..] == [b];
    assert Insert(a, [b], key) == if CompareKey(key(a), key(b)) <= 0 then [a, b] else [b, a] by {
      assert [b][1..] == [];
    }
  }

  const WIDE := RawQuote(Some(100.0), Some(102.0), Some(10000), None, "")
  const NARROW := RawQuote(Some(100.0), Some(101.0), Some(0), None, "")
  const FIRST := Product("certificate", "1", "I", "A", None, None)
  const SECOND := Product("certificate", "2", "I", "B", None, None)

  /** A call whose batch is answered, whose refresh fails, and that ranks at `t`. */
  function QuotedAt(t: int): Call {
    Call(Answered((i: nat) => if i == 0 then Some(WIDE) else Some(NARROW)), Reply.Failed(""),
         Clock((i: nat) => 0, t, (i: nat) => 0, 0))
  }

  /** The list after a completing call at `t` on these two rows, when `x` still ranks first. */
  lemma FirstRanking(x: Enriched, y: Enriched, t: int)
    requires x == EnrichOne(FIRST, Some(WIDE), 0) && y == EnrichOne(SECOND, Some(NARROW), 0)
    requires CompareAt(x, y, t, false) <= 0
    ensures Run([FIRST, SECOND], false, [QuotedAt(t)])
         == Progress([RefreshLiveFreshness(x, t), RefreshLiveFreshness(y, t)], 2, 1, true)
  {
    var ps, call := [FIRST, SECOND], QuotedAt(t);
    assert ps[0..2] == ps;
    assert EnrichBatch(ps, call.batch.at, call.clock.batchAt) == [x, y];
    assert Scan(ps, START, call) == Progress([x, y], 2, 1, false) by { assert START.list + [x, y] == [x, y]; }
    RerankTwo(x, y, t, false);
    assert [call][..|[call]| - 1] == [];
    assert Run(ps, false, []) == START;
  }

  /**
  Two products, one fresh with the wider spread and one stale with the narrower: the
  call at 35 s serves the fresh one as page one; by the call at 45 s it has lapsed and
  ranks second, so page two serves it again.  The other product is never served.
  */
  lemma LapsedRowIsServedTwice()
    ensures DistinctIds([FIRST, SECOND])
    ensures var first := Exposed([FIRST, SECOND], Run([FIRST, SECOND], false, [QuotedAt(35000)]), 0, 1);
            first.nextOffset == Some(1) && ProductsOf(first.items) == [FIRST]
    ensures var second := Exposed([FIRST, SECOND], Run([FIRST, SECOND], false, [QuotedAt(35000), QuotedAt(45000)]), 1, 1);
            second.nextOffset == None && ProductsOf(second.items) == [FIRST]
  {
    var ps, one, two := [FIRST, SECOND], QuotedAt(35000), QuotedAt(45000);
    assert FIRST.orderBookId[0] != SECOND.orderBookId[0];
    var x, y := EnrichOne(FIRST, Some(WIDE), 0), EnrichOne(SECOND, Some(NARROW), 0);
    LapsedRanks(x, y, WIDE, NARROW);
    FirstRanking(x, y, 35000);
    var x1, y1 := RefreshLiveFreshness(x, 35000), RefreshLiveFreshness(y, 35000);
    assert [one] + [two] == [one, two];
    LaterCallReranks(ps, false, [one], two);
    RerankTwo(x1, y1, 45000, false);
  }

  lemma LapsedRanks(x: Enriched, y: Enriched, wide: RawQuote, narrow: RawQuote)
    requires wide == RawQuote(Some(100.0), Some(102.0), Some(10000), None, "")
    requires narrow == RawQuote(Some(100.0), Some(101.0), Some(0), None, "")
    requires x == EnrichOne(x.product, Some(wide), 0) && y == EnrichOne(y.product, Some(narrow), 0)
    requires x.product.orderBookId == "1" && y.product.orderBookId == "2"
    ensures CompareAt(x, y, 35000, false) < 0
    ensures CompareAt(RefreshLiveFreshness(x, 35000), RefreshLiveFreshness(y, 35000), 45000, false) > 0
  {
    assert Spread(wide.buy, wide.sell).value > Spread(narrow.buy, narrow.sell).value by {
      assert (102.0 - 100.0) / ((100.0 + 102.0) / 2.0) * 100.0 > (101.0 - 100.0) / ((100.0 + 101.0) / 2.0) * 100.0;
    }
  }
}
