/**
Structural option chains: scan, first-occurrence dedupe, filter, sort, and the
snapshot and market-ranking stores (`services/options_screen_service.py`).
*/
module Options {
  import opened Wrappers
  import opened Order
  import opened Paging
  import opened Prices

  const MATRIX_PAGE_SIZE: nat := 100

  // ---- scanning one expiry ----

  /** One side of a matched row; a side without an order-book id is skipped. */
  datatype Side = Side(orderBookId: Option<string>, name: Option<string>, strike: Option<real>)

  datatype MatchedRow = MatchedRow(call: Option<Side>, put: Option<Side>)

  datatype Contract = Contract(orderBookId: string, name: Option<string>, callIndicator: string,
                               strike: Option<real>, expiry: string, optionType: string)

  function SideContract(side: Option<Side>, indicator: string, optionType: string, expiry: string): seq<Contract> {
    if side.None? || side.value.orderBookId.None? then []
    else [Contract(side.value.orderBookId.value, side.value.name, indicator, side.value.strike, expiry, optionType)]
  }

  function Flatten(rows: seq<MatchedRow>, optionType: string, expiry: string): seq<Contract> {
    if rows == [] then []
    else SideContract(rows[0].call, "CALL", optionType, expiry)
         + SideContract(rows[0].put, "PUT", optionType, expiry)
         + Flatten(rows[1..], optionType, expiry)
  }

  lemma {:induction false} FlattenAppends(a: seq<MatchedRow>, b: seq<MatchedRow>, optionType: string, expiry: string)
    ensures Flatten(a + b, optionType, expiry) == Flatten(a, optionType, expiry) + Flatten(b, optionType, expiry)
  {
    if a == [] {
      assert a + b == b;
    } else {
      assert (a + b)[1..] == a[1..] + b;
      FlattenAppends(a[1..], b, optionType, expiry);
    }
  }

  /** `c` is the contract of one side of one of the rows: the call or the put. */
  ghost predicate InRows(c: Contract, rows: seq<MatchedRow>, optionType: string, expiry: string) {
    exists i | 0 <= i < |rows| :: IsSide(c, rows[i], optionType, expiry)
  }

  predicate IsSide(c: Contract, row: MatchedRow, optionType: string, expiry: string) {
    && c.optionType == optionType && c.expiry == expiry
    && (|| (c.callIndicator == "CALL" && row.call == Some(Side(Some(c.orderBookId), c.name, c.strike)))
        || (c.callIndicator == "PUT" && row.put == Some(Side(Some(c.orderBookId), c.name, c.strike))))
  }

  /** A scan yields exactly the identified sides of its rows. */
  lemma {:induction false} FlattenMembers(rows: seq<MatchedRow>, optionType: string, expiry: string, c: Contract)
    ensures c in Flatten(rows, optionType, expiry) <==> InRows(c, rows, optionType, expiry)
  {
    if rows != [] {
      FlattenMembers(rows[1..], optionType, expiry, c);
      SideOfRow(rows[0], optionType, expiry, c);
      if InRows(c, rows[1..], optionType, expiry) {
        var i :| 0 <= i < |rows[1..]| && IsSide(c, rows[1..][i], optionType, expiry);
        assert IsSide(c, rows[i + 1], optionType, expiry);
      }
      if InRows(c, rows, optionType, expiry) {
        var i :| 0 <= i < |rows| && IsSide(c, rows[i], optionType, expiry);
        assert i > 0 ==> rows[1..][i - 1] == rows[i];
      }
    }
  }

  lemma SideOfRow(row: MatchedRow, optionType: string, expiry: string, c: Contract)
    ensures c in SideContract(row.call, "CALL", optionType, expiry) + SideContract(row.put, "PUT", optionType, expiry)
       <==> IsSide(c, row, optionType, expiry)
  {
    assert "CALL"[0] != "PUT"[0];
  }

  /** The matrix endpoint for one option type and expiry: slices of `rows`, and a claimed total (0 when absent). */
  datatype Matrix = Matrix(rows: seq<MatchedRow>, cap: nat, total: nat)

  /**
  The rows the scan reaches: it reads pages of the requested size until a page is
  short or the claimed total has been passed, so a claimed total that ends on an
  earlier page, or a server that caps its pages below the requested size, cuts it.
  */
  predicate ScanComplete(m: Matrix) {
    if m.cap < 100 then |m.rows| <= m.cap
    else m.total == 0 || |m.rows| <= 100 * PagesFor(m.total)
  }

  function PagesFor(total: nat): nat {
    (total + 99) / 100
  }

  lemma PageFlattens(m: Matrix, offset: nat, optionType: string, expiry: string)
    requires offset <= |m.rows|
    ensures var rows := Slice(m.rows, offset, offset + Min(m.cap, MATRIX_PAGE_SIZE));
            && |rows| == Min(Min(m.cap, MATRIX_PAGE_SIZE), |m.rows| - offset)
            && Flatten(m.rows[..offset + |rows|], optionType, expiry)
               == Flatten(m.rows[..offset], optionType, expiry) + Flatten(rows, optionType, expiry)
  {
    var rows := Slice(m.rows, offset, offset + Min(m.cap, MATRIX_PAGE_SIZE));
    FlattenAppends(m.rows[..offset], rows, optionType, expiry);
    assert m.rows[..offset + |rows|] == m.rows[..offset] + rows;
  }

  method ScanExpiry(m: Matrix, optionType: string, expiry: string) returns (contracts: seq<Contract>, rowsScanned: nat)
    ensures rowsScanned <= |m.rows| && contracts == Flatten(m.rows[..rowsScanned], optionType, expiry)
    ensures rowsScanned == |m.rows| <==> ScanComplete(m)
  {
    contracts, rowsScanned := [], 0;
    ghost var pages: nat := 0;
    var offset := 0;
    while true
      invariant offset == rowsScanned == MATRIX_PAGE_SIZE * pages <= |m.rows|
      invariant contracts == Flatten(m.rows[..offset], optionType, expiry)
      invariant pages > 0 ==> m.cap >= MATRIX_PAGE_SIZE && (m.total == 0 || offset < m.total)
      decreases |m.rows| - offset
    {
      var rows := Slice(m.rows, offset, offset + Min(m.cap, MATRIX_PAGE_SIZE));
      PageFlattens(m, offset, optionType, expiry);
      rowsScanned := rowsScanned + |rows|;
      contracts := contracts + Flatten(rows, optionType, expiry);
      offset := offset + |rows|;
      if rows == [] || |rows| < MATRIX_PAGE_SIZE || (m.total != 0 && offset >= m.total) {
        ScanStops(m, pages, |rows|);
        break;
      }
      pages := pages + 1;
    }
  }

  /** The page on which the loop stops is the last one exactly when the scan is complete. */
  lemma ScanStops(m: Matrix, pages: nat, got: nat)
    requires MATRIX_PAGE_SIZE * pages <= |m.rows|
    requires got == Min(Min(m.cap, MATRIX_PAGE_SIZE), |m.rows| - MATRIX_PAGE_SIZE * pages)
    requires pages > 0 ==> m.cap >= MATRIX_PAGE_SIZE && (m.total == 0 || MATRIX_PAGE_SIZE * pages < m.total)
    requires got < MATRIX_PAGE_SIZE || (m.total != 0 && MATRIX_PAGE_SIZE * pages + got >= m.total)
    ensures MATRIX_PAGE_SIZE * pages + got == |m.rows| <==> ScanComplete(m)
  {
  }

  // ---- dedupe, filter, sort ----

  /** Whether position `i` holds the first occurrence of its id. */
  predicate IsFirst(all: seq<Contract>, i: nat)
    requires i < |all|
  {
    forall j | 0 <= j < i :: all[j].orderBookId != all[i].orderBookId
  }

  /** First occurrences, in order. */
  function Deduped(all: seq<Contract>): seq<Contract> {
    if all == [] then []
    else
      var last := |all| - 1;
      Deduped(all[..last]) + if IsFirst(all, last) then [all[last]] else []
  }

  /** The kept contracts are exactly the first occurrences. */
  lemma {:induction false} DedupedMembers(all: seq<Contract>, c: Contract)
    ensures c in Deduped(all) <==> exists i :: 0 <= i < |all| && all[i] == c && IsFirst(all, i)
  {
    if all != [] {
      var last := |all| - 1;
      var init := all[..last];
      DedupedMembers(init, c);
      if i :| 0 <= i < |init| && init[i] == c && IsFirst(init, i) {
        assert all[i] == c && IsFirst(all, i);
      }
      if i :| 0 <= i < last && all[i] == c && IsFirst(all, i) {
        assert init[i] == c && IsFirst(init, i);
      }
    }
  }

  /** No id of the scan is lost. */
  lemma {:induction false} DedupedCovers(all: seq<Contract>, i: nat)
    requires i < |all|
    ensures exists c :: c in Deduped(all) && c.orderBookId == all[i].orderBookId
    decreases i
  {
    if IsFirst(all, i) {
      DedupedMembers(all, all[i]);
    } else {
      var j :| 0 <= j < i && all[j].orderBookId == all[i].orderBookId;
      DedupedCovers(all, j);
    }
  }

  function IdOf(): Contract -> string {
    (c: Contract) => c.orderBookId
  }

  /** Every order-book id occurs at most once in the list. */
  ghost predicate UniqueIds(list: seq<Contract>) {
    forall id :: multiset(Map(list, IdOf()))[id] <= 1
  }

  lemma {:induction false} DedupedUnique(all: seq<Contract>)
    ensures UniqueIds(Deduped(all))
  {
    if all != [] {
      var last := |all| - 1;
      var init := all[..last];
      DedupedUnique(init);
      if IsFirst(all, last) {
        NewId(all);
        MapAppends(Deduped(init), [all[last]], IdOf());
        assert Map([all[last]], IdOf()) == [all[last].orderBookId];
      } else {
        assert Deduped(all) == Deduped(init);
      }
    }
  }

  /** The id of a first occurrence is not among the ids kept before it. */
  lemma NewId(all: seq<Contract>)
    requires all != [] && IsFirst(all, |all| - 1)
    ensures all[|all| - 1].orderBookId !in multiset(Map(Deduped(all[..|all| - 1]), IdOf()))
  {
    var init := all[..|all| - 1];
    var ids := Map(Deduped(init), IdOf());
    forall k | 0 <= k < |ids| ensures ids[k] != all[|all| - 1].orderBookId {
      var c := Deduped(init)[k];
      DedupedMembers(init, c);
      var i :| 0 <= i < |init| && init[i] == c && IsFirst(init, i);
    }
  }

  /** `dict.setdefault` keyed by order-book id keeps the first contract of every id. */
  method Dedupe(all: seq<Contract>) returns (kept: seq<Contract>)
    ensures kept == Deduped(all)
  {
    var seen: set<string> := {};
    kept := [];
    for i := 0 to |all|
      invariant seen == set j | 0 <= j < i :: all[j].orderBookId
      invariant kept == Deduped(all[..i])
    {
      assert all[..i + 1][..i] == all[..i];
      if all[i].orderBookId !in seen {
        seen := seen + {all[i].orderBookId};
        kept := kept + [all[i]];
      }
    }
    assert all[..|all|] == all;
  }

  datatype Spec = Spec(callIndicators: set<string>, minStrike: Option<real>, maxStrike: Option<real>)

  predicate Matches(c: Contract, spec: Spec) {
    && (spec.callIndicators == {} || c.callIndicator in spec.callIndicators)
    && (spec.minStrike.Some? ==> c.strike.Some? && c.strike.value >= spec.minStrike.value)
    && (spec.maxStrike.Some? ==> c.strike.Some? && c.strike.value <= spec.maxStrike.value)
  }

  function Matching(all: seq<Contract>, spec: Spec): seq<Contract> {
    if all == [] then []
    else (if Matches(all[0], spec) then [all[0]] else []) + Matching(all[1..], spec)
  }

  lemma {:induction false} MatchingMembers(all: seq<Contract>, spec: Spec)
    ensures forall c :: c in Matching(all, spec) <==> c in all && Matches(c, spec)
  {
    if all != [] {
      MatchingMembers(all[1..], spec);
      assert all == [all[0]] + all[1..];
    }
  }

  lemma {:induction false} MatchingIds(all: seq<Contract>, spec: Spec)
    ensures multiset(Map(Matching(all, spec), IdOf())) <= multiset(Map(all, IdOf()))
  {
    if all != [] {
      var rest := Matching(all[1..], spec);
      MatchingIds(all[1..], spec);
      MapAppends([all[0]], all[1..], IdOf());
      MapAppends([all[0]], rest, IdOf());
      assert all == [all[0]] + all[1..];
      assert !Matches(all[0], spec) ==> Matching(all, spec) == rest;
    }
  }

  function TextOf(s: Option<string>): Atom {
    Text(if s.Some? then s.value else "")
  }

  function StrikeOf(c: Contract): Atom {
    if c.strike.Some? then Num(c.strike.value) else Infinity
  }

  function StructuralRank(): Contract -> Key {
    (c: Contract) => [Text(c.expiry), Text(c.optionType), StrikeOf(c), Text(c.callIndicator), TextOf(c.name)]
  }

  function Chain(all: seq<Contract>, spec: Spec): seq<Contract> {
    StableSort(Matching(Deduped(all), spec), StructuralRank())
  }

  function NameOf(c: Contract): string {
    match c.name
    case Some(name) => name
    case None => ""
  }

  /** Expiry, option type, strike (absent last), call indicator and name. */
  ghost predicate ContractBefore(x: Contract, y: Contract) {
    || DictionaryBefore(x.expiry, y.expiry)
    || (x.expiry == y.expiry &&
        (|| DictionaryBefore(x.optionType, y.optionType)
         || (x.optionType == y.optionType &&
             (|| Smaller(x.strike, y.strike)
              || (x.strike == y.strike && SideBefore(x, y))))))
  }

  ghost predicate SideBefore(x: Contract, y: Contract) {
    || DictionaryBefore(x.callIndicator, y.callIndicator)
    || (x.callIndicator == y.callIndicator && DictionaryBefore(NameOf(x), NameOf(y)))
  }

  /** Comparing structural ranks is the structural order. */
  lemma ContractsCompare(x: Contract, y: Contract)
    ensures CompareKey(StructuralRank()(x), StructuralRank()(y)) < 0 <==> ContractBefore(x, y)
  {
    var p4, q4: Key := [Text(NameOf(x))] + [], [Text(NameOf(y))] + [];
    var p3, q3 := [Text(x.callIndicator)] + p4, [Text(y.callIndicator)] + q4;
    var p2, q2 := [OrInfinity(x.strike)] + p3, [OrInfinity(y.strike)] + q3;
    var p1, q1 := [Text(x.optionType)] + p2, [Text(y.optionType)] + q2;
    assert StructuralRank()(x) == [Text(x.expiry)] + p1 && StructuralRank()(y) == [Text(y.expiry)] + q1;
    TextDecides(x.expiry, y.expiry, p1, q1);
    TextDecides(x.optionType, y.optionType, p2, q2);
    NumberDecides(x.strike, y.strike, p3, q3);
    TextDecides(x.callIndicator, y.callIndicator, p4, q4);
    TextDecides(NameOf(x), NameOf(y), [], []);
  }

  /** No later contract of a sorted list belongs before an earlier one. */
  lemma RankedContracts(list: seq<Contract>)
    requires Sorted(list, StructuralRank())
    ensures forall i, j | 0 <= i < j < |list| :: !ContractBefore(list[j], list[i])
  {
    forall i, j | 0 <= i < j < |list| ensures !ContractBefore(list[j], list[i]) {
      ContractsCompare(list[j], list[i]);
      KeyOrder(StructuralRank()(list[i]), StructuralRank()(list[j]));
    }
  }

  /** The frozen chain holds exactly the matching first occurrences, each once, sorted,
      equally ranked ones in scan order. */
  lemma ChainIsEligible(all: seq<Contract>, spec: Spec)
    ensures Sorted(Chain(all, spec), StructuralRank())
    ensures forall c :: c in Chain(all, spec) <==>
              && (spec.callIndicators == {} || c.callIndicator in spec.callIndicators)
              && (spec.minStrike.Some? ==> c.strike.Some? && spec.minStrike.value <= c.strike.value)
              && (spec.maxStrike.Some? ==> c.strike.Some? && c.strike.value <= spec.maxStrike.value)
              && exists i :: 0 <= i < |all| && all[i] == c && IsFirst(all, i)
    ensures forall i, j | 0 <= i < j < |Chain(all, spec)| :: !ContractBefore(Chain(all, spec)[j], Chain(all, spec)[i])
    ensures UniqueIds(Chain(all, spec))
    ensures forall k :: WithKey(Chain(all, spec), StructuralRank(), k)
                     == WithKey(Matching(Deduped(all), spec), StructuralRank(), k)
  {
    forall k
      ensures WithKey(Chain(all, spec), StructuralRank(), k)
           == WithKey(Matching(Deduped(all), spec), StructuralRank(), k)
    {
      SortIsStable(Matching(Deduped(all), spec), StructuralRank(), k);
    }
    var kept := Matching(Deduped(all), spec);
    MatchingMembers(Deduped(all), spec);
    MatchingIds(Deduped(all), spec);
    DedupedUnique(all);
    SortSorts(kept, StructuralRank());
    RankedContracts(Chain(all, spec));
    SameElements(kept, Chain(all, spec));
    MapPermutes(kept, Chain(all, spec), IdOf());
    forall c
      ensures c in Chain(all, spec) <==>
              Matches(c, spec) && exists i :: 0 <= i < |all| && all[i] == c && IsFirst(all, i)
    {
      DedupedMembers(all, c);
    }
  }

  /** One (option type, expiry) pair to scan. */
  datatype ScanPair = ScanPair(matrix: Matrix, optionType: string, expiry: string)

  /** Every contract of every pair, in pair order. */
  function AllContracts(pairs: seq<ScanPair>): seq<Contract> {
    if pairs == [] then []
    else
      var last := pairs[|pairs| - 1];
      AllContracts(pairs[..|pairs| - 1]) + Flatten(last.matrix.rows, last.optionType, last.expiry)
  }

  function RowCount(pairs: seq<ScanPair>): nat {
    if pairs == [] then 0 else RowCount(pairs[..|pairs| - 1]) + |pairs[|pairs| - 1].matrix.rows|
  }

  predicate AllComplete(pairs: seq<ScanPair>) {
    forall i | 0 <= i < |pairs| :: ScanComplete(pairs[i].matrix)
  }

  lemma OneMorePair(pairs: seq<ScanPair>, i: nat)
    requires i < |pairs|
    ensures AllComplete(pairs[..i + 1]) <==> AllComplete(pairs[..i]) && ScanComplete(pairs[i].matrix)
    ensures RowCount(pairs[..i + 1]) == RowCount(pairs[..i]) + |pairs[i].matrix.rows|
    ensures AllContracts(pairs[..i + 1])
         == AllContracts(pairs[..i]) + Flatten(pairs[i].matrix.rows, pairs[i].optionType, pairs[i].expiry)
  {
    assert pairs[..i + 1][..i] == pairs[..i];
  }

  method ScanPairs(pairs: seq<ScanPair>) returns (all: seq<Contract>, rowsScanned: nat)
    ensures AllComplete(pairs) ==> all == AllContracts(pairs)
    ensures rowsScanned <= RowCount(pairs)
    ensures rowsScanned == RowCount(pairs) <==> AllComplete(pairs)
  {
    all, rowsScanned := [], 0;
    for i := 0 to |pairs|
      invariant AllComplete(pairs[..i]) ==> all == AllContracts(pairs[..i])
      invariant rowsScanned <= RowCount(pairs[..i])
      invariant rowsScanned == RowCount(pairs[..i]) <==> AllComplete(pairs[..i])
    {
      var matrix := pairs[i].matrix;
      var contracts, rows := ScanExpiry(matrix, pairs[i].optionType, pairs[i].expiry);
      OneMorePair(pairs, i);
      assert matrix.rows[..|matrix.rows|] == matrix.rows;
      all := all + contracts;
      rowsScanned := rowsScanned + rows;
    }
    assert pairs[..|pairs|] == pairs;
  }

  method Filter(all: seq<Contract>, spec: Spec) returns (kept: seq<Contract>)
    ensures kept == Matching(all, spec)
  {
    kept := [];
    assert all[0..] == all;
    for i := 0 to |all|
      invariant kept + Matching(all[i..], spec) == Matching(all, spec)
    {
      assert all[i..][1..] == all[i + 1..];
      if Matches(all[i], spec) {
        kept := kept + [all[i]];
      }
    }
  }

  /**
  The structural screen: when every scan is complete the frozen chain is the one of
  every upstream contract, and the row count tells whether a row was missed.
  */
  method ScreenChain(pairs: seq<ScanPair>, spec: Spec) returns (chain: seq<Contract>, rowsScanned: nat)
    ensures AllComplete(pairs) ==> chain == Chain(AllContracts(pairs), spec)
    ensures rowsScanned == RowCount(pairs) <==> AllComplete(pairs)
    ensures Sorted(chain, StructuralRank()) && UniqueIds(chain)
    ensures forall i, j | 0 <= i < j < |chain| :: !ContractBefore(chain[j], chain[i])
  {
    hide ContractBefore, Matches;
    var all;
    all, rowsScanned := ScanPairs(pairs);
    var deduped := Dedupe(all);
    var eligible := Filter(deduped, spec);
    chain := StableSort(eligible, StructuralRank());
    ChainIsEligible(all, spec);
  }

  // ---- stores and the cached market ranking ----

  datatype MarketQuote = MarketQuote(bid: Option<real>, ask: Option<real>, turnover: Option<real>)

  /** The answer for one contract: data, a 404, or any other error (which aborts the call). */
  datatype Info = Found(quote: MarketQuote) | NotFound | Raises

  datatype OptionRow = OptionRow(contract: Contract, quote: Option<MarketQuote>)

  datatype ChainSnapshot = ChainSnapshot(underlyingId: string, contracts: seq<Contract>, expiresAt: int)

  datatype MarketSnapshot = MarketSnapshot(rows: seq<OptionRow>, expiresAt: int)

  function QuoteSpread(q: MarketQuote): Option<real> {
    if q.bid.None? || q.ask.None? || q.bid.value <= 0.0 || q.ask.value <= 0.0 || q.ask.value < q.bid.value then None
    else Some((q.ask.value - q.bid.value) / ((q.bid.value + q.ask.value) / 2.0) * 100.0)
  }

  function MarketRank(): OptionRow -> Key {
    (row: OptionRow) =>
      var q := if row.quote.Some? then row.quote.value else MarketQuote(None, None, None);
      var spread := QuoteSpread(q);
      var twoWay := q.bid.Some? && q.ask.Some? && q.bid.value > 0.0 && q.ask.value > 0.0;
      [Num(if twoWay then 0.0 else 1.0),
       if spread.Some? then Num(spread.value) else Infinity,
       Num(-(if q.turnover.Some? then q.turnover.value else 0.0)),
       Text(row.contract.expiry), StrikeOf(row.contract), Text(row.contract.callIndicator),
       TextOf(row.contract.name), Text(row.contract.orderBookId)]
  }

  function BidOf(row: OptionRow): Option<real> {
    if row.quote.Some? then row.quote.value.bid else None
  }

  function AskOf(row: OptionRow): Option<real> {
    if row.quote.Some? then row.quote.value.ask else None
  }

  /** 0 for two positive prices, 1 otherwise. */
  function Grade(row: OptionRow): int {
    if BidOf(row).Some? && AskOf(row).Some? && BidOf(row).value > 0.0 && AskOf(row).value > 0.0 then 0 else 1
  }

  function TurnoverOf(row: OptionRow): real {
    if row.quote.Some? && row.quote.value.turnover.Some? then row.quote.value.turnover.value else 0.0
  }

  /** Expiry, strike (absent last), call indicator, name and id. */
  ghost predicate ListedBefore(x: Contract, y: Contract) {
    || DictionaryBefore(x.expiry, y.expiry)
    || (x.expiry == y.expiry &&
        (|| Smaller(x.strike, y.strike)
         || (x.strike == y.strike && (SideBefore(x, y) || (SameSide(x, y) && DictionaryBefore(x.orderBookId, y.orderBookId))))))
  }

  predicate SameSide(x: Contract, y: Contract) {
    x.callIndicator == y.callIndicator && NameOf(x) == NameOf(y)
  }

  /** Quoted on both sides first, then the smaller relative spread, the larger turnover, and the contract. */
  ghost predicate RowBefore(x: OptionRow, y: OptionRow) {
    || Grade(x) < Grade(y)
    || (Grade(x) == Grade(y) &&
        (|| Tighter(BidOf(x), AskOf(x), BidOf(y), AskOf(y))
         || (!Tighter(BidOf(y), AskOf(y), BidOf(x), AskOf(x)) &&
             (|| TurnoverOf(x) > TurnoverOf(y)
              || (TurnoverOf(x) == TurnoverOf(y) && ListedBefore(x.contract, y.contract))))))
  }

  function SpreadOf(row: OptionRow): Option<real> {
    if row.quote.Some? then QuoteSpread(row.quote.value) else None
  }

  lemma SpreadIs(row: OptionRow)
    ensures IsSpread(SpreadOf(row), BidOf(row), AskOf(row))
  {
    if Tradable(BidOf(row), AskOf(row)) { SpreadMeans(BidOf(row).value, AskOf(row).value); }
  }

  function Listing(c: Contract): Key {
    [Text(c.expiry), OrInfinity(c.strike), Text(c.callIndicator), Text(NameOf(c)), Text(c.orderBookId)]
  }

  lemma ListingsCompare(x: Contract, y: Contract)
    ensures CompareKey(Listing(x), Listing(y)) < 0 <==> ListedBefore(x, y)
  {
    var p4, q4: Key := [Text(x.orderBookId)] + [], [Text(y.orderBookId)] + [];
    var p3, q3 := [Text(NameOf(x))] + p4, [Text(NameOf(y))] + q4;
    var p2, q2 := [Text(x.callIndicator)] + p3, [Text(y.callIndicator)] + q3;
    var p1, q1 := [OrInfinity(x.strike)] + p2, [OrInfinity(y.strike)] + q2;
    assert Listing(x) == [Text(x.expiry)] + p1 && Listing(y) == [Text(y.expiry)] + q1;
    TextDecides(x.expiry, y.expiry, p1, q1);
    NumberDecides(x.strike, y.strike, p2, q2);
    TextDecides(x.callIndicator, y.callIndicator, p3, q3);
    TextDecides(NameOf(x), NameOf(y), p4, q4);
    TextDecides(x.orderBookId, y.orderBookId, [], []);
  }

  lemma MarketRankParts(row: OptionRow)
    ensures MarketRank()(row)
         == [Num(Grade(row) as real)] + ([OrInfinity(SpreadOf(row))] + ([Num(-TurnoverOf(row))] + Listing(row.contract)))
  {
  }

  /** Comparing market ranks is the ranking rule. */
  lemma RowsCompare(x: OptionRow, y: OptionRow)
    ensures CompareKey(MarketRank()(x), MarketRank()(y)) < 0 <==> RowBefore(x, y)
  {
    hide Listing, ListedBefore, SpreadOf, Tighter, IsSpread;
    MarketRankParts(x);
    MarketRankParts(y);
    var p3, q3 := [Num(-TurnoverOf(x))] + Listing(x.contract), [Num(-TurnoverOf(y))] + Listing(y.contract);
    TuplesCompare(Num(Grade(x) as real), Num(Grade(y) as real), [OrInfinity(SpreadOf(x))] + p3, [OrInfinity(SpreadOf(y))] + q3);
    TuplesCompare(OrInfinity(SpreadOf(x)), OrInfinity(SpreadOf(y)), p3, q3);
    NumbersCompare(SpreadOf(x), SpreadOf(y));
    TuplesCompare(Num(-TurnoverOf(x)), Num(-TurnoverOf(y)), Listing(x.contract), Listing(y.contract));
    ListingsCompare(x.contract, y.contract);
    SpreadIs(x);
    SpreadIs(y);
    TighterIsSmaller(BidOf(x), AskOf(x), SpreadOf(x), BidOf(y), AskOf(y), SpreadOf(y));
    TighterIsSmaller(BidOf(y), AskOf(y), SpreadOf(y), BidOf(x), AskOf(x), SpreadOf(x));
  }

  function ContractOf(): OptionRow -> Contract {
    (row: OptionRow) => row.contract
  }

  /** The ranking ranks exactly the contracts of the chain. */
  ghost predicate Ranks(rows: seq<OptionRow>, contracts: seq<Contract>) {
    Sorted(rows, MarketRank()) && multiset(Map(rows, ContractOf())) == multiset(contracts)
  }

  /** In a ranking of a chain no later row belongs before an earlier one. */
  lemma RankingFollowsRule(rows: seq<OptionRow>, contracts: seq<Contract>)
    requires Ranks(rows, contracts)
    ensures forall i, j | 0 <= i < j < |rows| :: !RowBefore(rows[j], rows[i])
  {
    forall i, j | 0 <= i < j < |rows| ensures !RowBefore(rows[j], rows[i]) {
      RowsCompare(rows[j], rows[i]);
      KeyOrder(MarketRank()(rows[i]), MarketRank()(rows[j]));
    }
  }

  method BuildRanking(contracts: seq<Contract>, info: string -> Info) returns (r: Result<seq<OptionRow>, string>)
    ensures r.Ok? <==> forall c | c in contracts :: !info(c.orderBookId).Raises?
    ensures r.Ok? ==> Ranks(r.value, contracts)
    ensures r.Ok? ==> forall i, j | 0 <= i < j < |r.value| :: !RowBefore(r.value[j], r.value[i])
    ensures r.Ok? ==> forall row | row in r.value ::
      row.quote == match info(row.contract.orderBookId) case Found(q) => Some(q) case _ => None
  {
    var rows: seq<OptionRow> := [];
    for i := 0 to |contracts|
      invariant Map(rows, ContractOf()) == contracts[..i]
      invariant forall j | 0 <= j < i :: !info(contracts[j].orderBookId).Raises?
      invariant forall row | row in rows ::
        row.quote == match info(row.contract.orderBookId) case Found(q) => Some(q) case _ => None
    {
      var c := contracts[i];
      var row := OptionRow(c, None);
      match info(c.orderBookId) {
        case Found(q) => row := OptionRow(c, Some(q));
        case NotFound =>
        case Raises =>
          assert c in contracts;
          return Err("upstream_unavailable");
      }
      MapAppends(rows, [row], ContractOf());
      assert Map([row], ContractOf()) == [c];
      rows := rows + [row];
    }
    assert contracts[..|contracts|] == contracts;
    var ranked := StableSort(rows, MarketRank());
    SortSorts(rows, MarketRank());
    SameElements(rows, ranked);
    MapPermutes(rows, ranked, ContractOf());
    RankingFollowsRule(ranked, contracts);
    r := Ok(ranked);
  }

  function Unexpired<S>(data: map<string, S>, expiry: S -> int, now: int): map<string, S> {
    map id | id in data && expiry(data[id]) > now :: data[id]
  }

  function ChainExpiry(): ChainSnapshot -> int {
    (s: ChainSnapshot) => s.expiresAt
  }

  function MarketExpiry(): MarketSnapshot -> int {
    (s: MarketSnapshot) => s.expiresAt
  }

  class OptionsScreenService {
    var chains: map<string, ChainSnapshot>
    var rankings: map<string, MarketSnapshot>
    /** Every chain ever stored, by its (never reused) snapshot id. */
    ghost var frozen: map<string, ChainSnapshot>

    /** A cached ranking ranks the chain it was built from and expires with it. */
    ghost predicate Valid()
      reads this
    {
      && (forall id | id in chains :: id in frozen && frozen[id] == chains[id])
      && (forall id | id in rankings ::
            && id in frozen
            && rankings[id].expiresAt == frozen[id].expiresAt
            && Ranks(rankings[id].rows, frozen[id].contracts))
    }

    constructor ()
      ensures Valid() && frozen == map[]
    {
      chains, rankings, frozen := map[], map[], map[];
    }

    method PutChain(id: string, chain: ChainSnapshot, now: int)
      requires Valid() && id !in frozen
      modifies this
      ensures Valid() && frozen == old(frozen)[id := chain]
      ensures rankings == old(rankings)
    {
      chains := Unexpired(chains, ChainExpiry(), now)[id := chain];
      frozen := frozen[id := chain];
    }

    /**
    One page of the market ranking: from the cache while it is unexpired, from a
    new ranking otherwise.  Whatever is returned ranks exactly the frozen chain.
    */
    method MarketPage(id: string, underlyingId: string, offset: int, pageSize: int, now: int, later: int,
                      stored: int, info: string -> Info)
      returns (r: Result<Page<OptionRow>, string>, ghost rows: seq<OptionRow>)
      requires Valid() && now <= later <= stored
      modifies this`chains, this`rankings
      ensures Valid()
      ensures r.Ok? ==> offset >= 0 && pageSize >= 1 && r.value == PageOf(rows, offset, pageSize)
      ensures r.Ok? ==> id in frozen && frozen[id].expiresAt > now && frozen[id].underlyingId == underlyingId
                        && Ranks(rows, frozen[id].contracts)
      ensures offset >= 0 && pageSize >= 1 && id in old(chains) && old(chains)[id].underlyingId == underlyingId
              && id in old(rankings) && old(rankings)[id].expiresAt > later ==>
        r.Ok? && rows == old(rankings)[id].rows && id in chains && id in rankings && rankings[id] == old(rankings)[id]
      ensures r.Ok? ==> forall key | key in rankings :: rankings[key].expiresAt > later || key == id
      ensures frozen == old(frozen)
    {
      rows := [];
      if offset < 0 || pageSize < 1 {
        return Err("offset must be >= 0 and page_size must be >= 1"), [];
      }
      chains := Unexpired(chains, ChainExpiry(), now);
      if id !in chains || chains[id].underlyingId != underlyingId {
        return Err("snapshot_id was not found or does not match"), [];
      }
      rankings := Unexpired(rankings, MarketExpiry(), later);
      if id !in rankings {
        var built := BuildRanking(chains[id].contracts, info);
        if built.Err? {
          return Err(built.error), [];
        }
        rankings := Unexpired(rankings, MarketExpiry(), stored)[id := MarketSnapshot(built.value, chains[id].expiresAt)];
      }
      rows := rankings[id].rows;
      r := Ok(PageOf(rankings[id].rows, offset, pageSize));
    }
  }

  /** Following `next_offset` over one cached ranking lists every contract of the chain exactly once. */
  lemma RankingPagesCoverChain(rows: seq<OptionRow>, contracts: seq<Contract>, size: nat)
    requires 1 <= size && Ranks(rows, contracts)
    ensures multiset(Map(Walk(rows, 0, size), ContractOf())) == multiset(contracts)
    ensures UniqueIds(contracts) ==> UniqueIds(Map(Walk(rows, 0, size), ContractOf()))
  {
    WalkYieldsRest(rows, 0, size);
    assert rows[0..] == rows;
    MapPermutes(Map(rows, ContractOf()), contracts, IdOf());
  }
}
