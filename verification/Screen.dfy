/**
Structural screening of leveraged products: the local catalog fast path and the
upstream feed path (`services/leveraged_screen_service.py`,
`LeveragedScreenService.screen`).
*/
module Screen {
  import opened Wrappers
  import opened Order
  import opened Paging
  import opened Prices
  import opened Upstream
  import opened Catalog

  datatype Candidate = Candidate(productType: ProductType, orderBookId: Option<string>, name: Option<string>,
                                 issuer: Option<string>, subType: Option<string>, leverage: Option<real>,
                                 stopLoss: Option<real>, discoveryBid: Option<real>, discoveryAsk: Option<real>,
                                 spread: Option<real>, turnover: Option<real>)

  /** `issuers` and `subTypes` are normalised; an empty set does not filter. */
  datatype ScreenFilters = ScreenFilters(issuers: set<string>, subTypes: set<string>, minLeverage: Option<real>,
                                         maxLeverage: Option<real>, requireTwoWay: bool,
                                         maxSpread: Option<real>, minTurnover: Option<real>)

  datatype Suitability = Suitability(targetLeverage: Option<real>, maxDeviation: Option<real>,
                                     minStopLossBuffer: Option<real>)

  datatype Direction = Long | Short {
    function Text(): string {
      if Long? then "long" else "short"
    }
  }

  datatype Request = Request(underlyingId: string, direction: Direction, types: set<ProductType>,
                             filters: ScreenFilters, suitability: Suitability)

  function DiscoverySpread(bid: Option<real>, ask: Option<real>): Option<real> {
    if bid.None? || ask.None? || bid.value <= 0.0 || ask.value <= 0.0 || ask.value < bid.value then None
    else Some((ask.value - bid.value) / ((bid.value + ask.value) / 2.0) * 100.0)
  }

  function NormalizeCandidate(item: Item, productType: ProductType): Candidate {
    Candidate(productType, item.orderBookId, item.name, item.issuer, item.subType, item.leverage, item.stopLoss,
              item.buyPrice, item.sellPrice, DiscoverySpread(item.buyPrice, item.sellPrice), item.totalValueTraded)
  }

  function CatalogCandidate(row: Row): Candidate {
    Candidate(row.productType, Some(row.orderBookId), Some(row.name), Some(row.issuer), row.subType, row.leverage,
              row.stopLoss, None, None, None, None)
  }

  /** Whether the catalog may answer: no filter needs a field it does not hold reliably. */
  predicate CatalogCanSatisfy(f: ScreenFilters, s: Suitability) {
    !(f.requireTwoWay || f.maxSpread.Some? || f.minTurnover.Some? || f.minLeverage.Some? || f.maxLeverage.Some?
      || s.targetLeverage.Some? || s.minStopLossBuffer.Some?)
  }

  predicate HasTwoWay(c: Candidate) {
    c.discoveryBid.Some? && c.discoveryAsk.Some? && c.discoveryBid.value > 0.0 && c.discoveryAsk.value > 0.0
  }

  /** `fold` is the string normalisation (`strip` and `casefold`). */
  predicate MatchesFilters(c: Candidate, f: ScreenFilters, fold: string -> string) {
    && (f.issuers == {} || fold(OrEmpty(c.issuer)) in f.issuers)
    && (f.subTypes == {} || fold(OrEmpty(c.subType)) in f.subTypes)
    && (f.minLeverage.Some? ==> c.leverage.Some? && c.leverage.value >= f.minLeverage.value)
    && (f.maxLeverage.Some? ==> c.leverage.Some? && c.leverage.value <= f.maxLeverage.value)
    && (f.requireTwoWay ==> HasTwoWay(c))
    && (f.maxSpread.Some? ==> c.spread.Some? && c.spread.value <= f.maxSpread.value)
    && (f.minTurnover.Some? ==> c.turnover.Some? && c.turnover.value >= f.minTurnover.value)
  }

  function Abs(x: real): real {
    if x < 0.0 then -x else x
  }

  function StopLossBuffer(direction: Direction, price: real, stopLoss: real): real
    requires price > 0.0
  {
    (if direction == Long then price - stopLoss else stopLoss - price) / price * 100.0
  }

  /** What `_apply_suitability` keeps; `price` is the live reference price of the underlying. */
  predicate Suits(c: Candidate, direction: Direction, s: Suitability, price: Option<real>) {
    && (s.targetLeverage.Some? ==>
          c.leverage.Some? && Abs(c.leverage.value - s.targetLeverage.value)
                              <= if s.maxDeviation.Some? then s.maxDeviation.value else 0.0)
    && (s.minStopLossBuffer.Some? ==>
          && price.Some? && price.value > 0.0 && c.stopLoss.Some? && c.stopLoss.value > 0.0
          && StopLossBuffer(direction, price.value, c.stopLoss.value) >= s.minStopLossBuffer.value)
  }

  /** The candidate passes the filters and the suitability criteria. */
  predicate Passes(c: Candidate, req: Request, price: Option<real>, fold: string -> string) {
    MatchesFilters(c, req.filters, fold) && Suits(c, req.direction, req.suitability, price)
  }

  function Identity(c: Candidate): (ProductType, Option<string>) {
    (c.productType, c.orderBookId)
  }

  function CandidateRank(): Candidate -> Key {
    (c: Candidate) =>
      [Num(if HasTwoWay(c) then 0.0 else 1.0),
       if c.spread.Some? then Num(c.spread.value) else Infinity,
       Num(-(if c.turnover.Some? then c.turnover.value else 0.0)),
       Text(if c.productType.Certificate? then "certificate" else "warrant"),
       Text(OrEmpty(c.issuer)), Text(OrEmpty(c.name)), Text(OrEmpty(c.orderBookId))]
  }

  // ---- the specification both paths are compared with ----

  predicate Related(item: Item, req: Request) {
    item.underlyingId == Some(req.underlyingId) && item.direction == Some(req.direction.Text())
  }

  /** The feed: the complete upstream list of each family. */
  datatype Feed = Feed(certificates: seq<Item>, warrants: seq<Item>) {
    function Items(t: ProductType): seq<Item> {
      if t.Certificate? then certificates else warrants
    }
  }

  /** What the caller asked for: every related upstream item that passes filters and suitability. */
  ghost predicate Wanted(feed: Feed, req: Request, price: Option<real>, fold: string -> string,
                         key: (ProductType, Option<string>)) {
    key.0 in req.types &&
    exists item :: item in feed.Items(key.0) && Related(item, req) && item.orderBookId == key.1
      && Passes(NormalizeCandidate(item, key.0), req, price, fold)
  }

  /**
  The rows upstream returns for one family: only related rows, and every related row
  that passes the local filters (it may push some of the filters down).
  */
  ghost predicate PushedDown(rows: seq<Item>, feed: Feed, req: Request, t: ProductType, fold: string -> string) {
    && (forall item | item in rows :: item in feed.Items(t) && Related(item, req))
    && (forall item | item in feed.Items(t) && Related(item, req)
                      && MatchesFilters(NormalizeCandidate(item, t), req.filters, fold) :: item in rows)
  }

  // ---- what was asked for, read off the item ----

  lemma DiscoverySpreadIs(bid: Option<real>, ask: Option<real>)
    ensures IsSpread(DiscoverySpread(bid, ask), bid, ask)
  {
    if Tradable(bid, ask) { SpreadMeans(bid.value, ask.value); }
  }

  /** Every filter, on the item's own fields. */
  predicate FiltersAsked(item: Item, f: ScreenFilters, fold: string -> string) {
    && (f.issuers == {} || fold(match item.issuer case Some(issuer) => issuer case None => "") in f.issuers)
    && (f.subTypes == {} || fold(match item.subType case Some(subType) => subType case None => "") in f.subTypes)
    && (f.minLeverage.Some? ==> item.leverage.Some? && f.minLeverage.value <= item.leverage.value)
    && (f.maxLeverage.Some? ==> item.leverage.Some? && item.leverage.value <= f.maxLeverage.value)
    && (f.requireTwoWay ==>
          item.buyPrice.Some? && item.sellPrice.Some? && item.buyPrice.value > 0.0 && item.sellPrice.value > 0.0)
    && (f.maxSpread.Some? ==>
          Tradable(item.buyPrice, item.sellPrice) && Within(item.buyPrice.value, item.sellPrice.value, f.maxSpread.value))
    && (f.minTurnover.Some? ==> item.totalValueTraded.Some? && f.minTurnover.value <= item.totalValueTraded.value)
  }

  /** Every suitability criterion, on the item's own fields and the price of the underlying. */
  predicate SuitabilityAsked(item: Item, direction: Direction, s: Suitability, price: Option<real>) {
    && (s.targetLeverage.Some? ==>
          item.leverage.Some? && Near(item.leverage.value, s.targetLeverage.value,
                                      match s.maxDeviation case Some(deviation) => deviation case None => 0.0))
    && (s.minStopLossBuffer.Some? ==>
          && price.Some? && price.value > 0.0 && item.stopLoss.Some? && item.stopLoss.value > 0.0
          && Buffered(direction, price.value, item.stopLoss.value, s.minStopLossBuffer.value))
  }

  predicate Asked(item: Item, req: Request, price: Option<real>, fold: string -> string) {
    FiltersAsked(item, req.filters, fold) && SuitabilityAsked(item, req.direction, req.suitability, price)
  }

  /** The prices are at most `percent` of their mean apart. */
  predicate Within(bid: real, ask: real, percent: real) {
    200.0 * (ask - bid) <= percent * (bid + ask)
  }

  predicate Near(x: real, target: real, deviation: real) {
    target - deviation <= x <= target + deviation
  }

  /** The stop loss is at least `percent` of the price away, below it for a long position, above it for a short one. */
  predicate Buffered(direction: Direction, price: real, stopLoss: real, percent: real) {
    match direction
    case Long => 100.0 * (price - stopLoss) >= percent * price
    case Short => 100.0 * (stopLoss - price) >= percent * price
  }

  lemma SpreadWithin(bid: real, ask: real, spread: real, percent: real)
    requires 0.0 < bid <= ask && spread * (bid + ask) == 200.0 * (ask - bid)
    ensures spread <= percent <==> Within(bid, ask, percent)
  {
    var m := bid + ask;
    Scales(percent, spread, m);
    assert spread * m == 200.0 * (ask - bid);
  }

  lemma BufferIsBuffered(direction: Direction, price: real, stopLoss: real, percent: real)
    requires price > 0.0
    ensures StopLossBuffer(direction, price, stopLoss) >= percent <==> Buffered(direction, price, stopLoss, percent)
  {
    var distance := if direction == Long then price - stopLoss else stopLoss - price;
    var share := distance / price;
    assert share * price == distance;
    assert share * 100.0 * price == 100.0 * distance;
    Scales(share * 100.0, percent, price);
  }

  lemma MatchesIsAsked(item: Item, t: ProductType, f: ScreenFilters, fold: string -> string)
    ensures MatchesFilters(NormalizeCandidate(item, t), f, fold) <==> FiltersAsked(item, f, fold)
  {
    hide DiscoverySpread, Within;
    var c := NormalizeCandidate(item, t);
    DiscoverySpreadIs(item.buyPrice, item.sellPrice);
    if f.maxSpread.Some? && c.spread.Some? {
      SpreadWithin(item.buyPrice.value, item.sellPrice.value, c.spread.value, f.maxSpread.value);
    }
  }

  lemma SuitsIsAsked(item: Item, t: ProductType, direction: Direction, s: Suitability, price: Option<real>)
    ensures Suits(NormalizeCandidate(item, t), direction, s, price) <==> SuitabilityAsked(item, direction, s, price)
  {
    hide DiscoverySpread, StopLossBuffer, Buffered;
    if s.minStopLossBuffer.Some? && price.Some? && price.value > 0.0 && item.stopLoss.Some? {
      BufferIsBuffered(direction, price.value, item.stopLoss.value, s.minStopLossBuffer.value);
    }
  }

  /** The filters and criteria the code evaluates on a candidate are those asked of its item. */
  lemma PassesIsAsked(item: Item, t: ProductType, req: Request, price: Option<real>, fold: string -> string)
    ensures Passes(NormalizeCandidate(item, t), req, price, fold) <==> Asked(item, req, price, fold)
  {
    hide MatchesFilters, Suits, FiltersAsked, SuitabilityAsked;
    MatchesIsAsked(item, t, req.filters, fold);
    SuitsIsAsked(item, t, req.direction, req.suitability, price);
  }

  /** A candidate is wanted exactly when an upstream item of its family, underlying and direction was asked for. */
  lemma WantedIsAsked(feed: Feed, req: Request, price: Option<real>, fold: string -> string, key: (ProductType, Option<string>))
    ensures Wanted(feed, req, price, fold, key) <==>
              && key.0 in req.types
              && exists item | item in (if key.0 == Certificate then feed.certificates else feed.warrants) ::
                   && item.underlyingId == Some(req.underlyingId)
                   && item.direction == Some(match req.direction case Long => "long" case Short => "short")
                   && item.orderBookId == key.1 && Asked(item, req, price, fold)
  {
    hide Passes, Asked;
    forall item, t ensures Passes(NormalizeCandidate(item, t), req, price, fold) <==> Asked(item, req, price, fold) {
      PassesIsAsked(item, t, req, price, fold);
    }
  }

  /** The candidate reports the item's fields; a catalog copy has no prices and no turnover. */
  predicate Reports(c: Candidate, item: Item, fromCatalog: bool) {
    && c.orderBookId == item.orderBookId && c.subType == item.subType
    && c.leverage == item.leverage && c.stopLoss == item.stopLoss
    && (item.name.Some? ==> c.name == item.name) && (item.issuer.Some? ==> c.issuer == item.issuer)
    && (if fromCatalog then c.discoveryBid == None && c.discoveryAsk == None && c.spread == None && c.turnover == None
        else
          && c.name == item.name && c.issuer == item.issuer
          && c.discoveryBid == item.buyPrice && c.discoveryAsk == item.sellPrice
          && IsSpread(c.spread, item.buyPrice, item.sellPrice) && c.turnover == item.totalValueTraded)
  }

  /** Some item of the candidate's family is what it reports. */
  ghost predicate Known(c: Candidate, feed: Feed, fromCatalog: bool) {
    exists item | item in (if c.productType == Certificate then feed.certificates else feed.warrants) ::
      Reports(c, item, fromCatalog)
  }

  lemma FeedCandidatesAreKnown(rows: seq<Item>, feed: Feed, req: Request, t: ProductType, fold: string -> string)
    requires PushedDown(rows, feed, req, t, fold)
    ensures forall c | c in FeedCandidates(rows, t) :: Known(c, feed, false)
  {
    forall c | c in FeedCandidates(rows, t) ensures Known(c, feed, false) {
      FeedCandidateOf(rows, t, c);
      var item :| item in rows && c == NormalizeCandidate(item, t);
      DiscoverySpreadIs(item.buyPrice, item.sellPrice);
      assert item in feed.Items(t) && Reports(c, item, false);
    }
  }

  lemma CatalogCandidatesAreKnown(rows: seq<Row>, feed: Feed, req: Request)
    requires Mirrors(rows, feed)
    ensures forall c | c in RowCandidates(Found(rows, req)) :: Known(c, feed, true)
  {
    forall c | c in RowCandidates(Found(rows, req)) ensures Known(c, feed, true) {
      RowCandidateOf(Found(rows, req), c);
      var row :| row in Found(rows, req) && c == CatalogCandidate(row);
      LimitIsCount(rows, req.underlyingId, Some(req.direction.Text()), req.types);
      assert row in rows && IsDecimal(row.orderBookId) && !IsBlank(row.name);
      SnapshotRowOf(feed, row);
      var item :| item in feed.Items(row.productType) && row == NormalizeItem(item, row.productType);
      assert Reports(c, item, true);
    }
  }

  // ---- which candidate comes first ----

  /** 0 for two positive prices, 1 otherwise. */
  function Grade(c: Candidate): int {
    if c.discoveryBid.Some? && c.discoveryAsk.Some? && c.discoveryBid.value > 0.0 && c.discoveryAsk.value > 0.0 then 0 else 1
  }

  function TurnoverOf(c: Candidate): real {
    match c.turnover
    case Some(turnover) => turnover
    case None => 0.0
  }

  function TypeName(c: Candidate): string {
    match c.productType
    case Certificate => "certificate"
    case Warrant => "warrant"
  }

  function TextOf(text: Option<string>): string {
    match text
    case Some(t) => t
    case None => ""
  }

  /** Type, issuer, name and id in dictionary order. */
  ghost predicate NamedBefore(x: Candidate, y: Candidate) {
    || DictionaryBefore(TypeName(x), TypeName(y))
    || (TypeName(x) == TypeName(y) &&
        (|| DictionaryBefore(TextOf(x.issuer), TextOf(y.issuer))
         || (TextOf(x.issuer) == TextOf(y.issuer) &&
             (|| DictionaryBefore(TextOf(x.name), TextOf(y.name))
              || (TextOf(x.name) == TextOf(y.name) && DictionaryBefore(TextOf(x.orderBookId), TextOf(y.orderBookId)))))))
  }

  /** Quoted on both sides first, then the smaller spread, the larger turnover, the names. */
  ghost predicate CandidateBefore(x: Candidate, y: Candidate) {
    || Grade(x) < Grade(y)
    || (Grade(x) == Grade(y) &&
        (|| Smaller(x.spread, y.spread)
         || (x.spread == y.spread &&
             (|| TurnoverOf(x) > TurnoverOf(y)
              || (TurnoverOf(x) == TurnoverOf(y) && NamedBefore(x, y))))))
  }

  function Names(c: Candidate): Key {
    [Text(TypeName(c)), Text(TextOf(c.issuer)), Text(TextOf(c.name)), Text(TextOf(c.orderBookId))]
  }

  lemma NamesCompare(x: Candidate, y: Candidate)
    ensures CompareKey(Names(x), Names(y)) < 0 <==> NamedBefore(x, y)
  {
    var p3, q3: Key := [Text(TextOf(x.orderBookId))] + [], [Text(TextOf(y.orderBookId))] + [];
    var p2, q2 := [Text(TextOf(x.name))] + p3, [Text(TextOf(y.name))] + q3;
    var p1, q1 := [Text(TextOf(x.issuer))] + p2, [Text(TextOf(y.issuer))] + q2;
    assert Names(x) == [Text(TypeName(x))] + p1 && Names(y) == [Text(TypeName(y))] + q1;
    TextDecides(TypeName(x), TypeName(y), p1, q1);
    TextDecides(TextOf(x.issuer), TextOf(y.issuer), p2, q2);
    TextDecides(TextOf(x.name), TextOf(y.name), p3, q3);
    TextDecides(TextOf(x.orderBookId), TextOf(y.orderBookId), [], []);
  }

  /** Comparing ranks is the ranking rule. */
  lemma CandidatesCompare(x: Candidate, y: Candidate)
    ensures CompareKey(CandidateRank()(x), CandidateRank()(y)) < 0 <==> CandidateBefore(x, y)
  {
    hide Names, NamedBefore, TypeName, TextOf;
    RankParts(x);
    RankParts(y);
    TuplesCompare(Num(Grade(x) as real), Num(Grade(y) as real),
                  [OrInfinity(x.spread)] + ([Num(-TurnoverOf(x))] + Names(x)), [OrInfinity(y.spread)] + ([Num(-TurnoverOf(y))] + Names(y)));
    TuplesCompare(OrInfinity(x.spread), OrInfinity(y.spread), [Num(-TurnoverOf(x))] + Names(x), [Num(-TurnoverOf(y))] + Names(y));
    TuplesCompare(Num(-TurnoverOf(x)), Num(-TurnoverOf(y)), Names(x), Names(y));
    NumbersCompare(x.spread, y.spread);
    AtomOrder(OrInfinity(x.spread), OrInfinity(y.spread));
    NamesCompare(x, y);
  }

  lemma RankParts(c: Candidate)
    ensures CandidateRank()(c)
         == [Num(Grade(c) as real)] + ([OrInfinity(c.spread)] + ([Num(-TurnoverOf(c))] + Names(c)))
  {
  }

  /** No later candidate of a ranked list belongs before an earlier one. */
  lemma RankedCandidates(list: seq<Candidate>)
    requires Sorted(list, CandidateRank())
    ensures forall i, j | 0 <= i < j < |list| :: !CandidateBefore(list[j], list[i])
  {
    forall i, j | 0 <= i < j < |list| ensures !CandidateBefore(list[j], list[i]) {
      CandidatesCompare(list[j], list[i]);
      KeyOrder(CandidateRank()(list[i]), CandidateRank()(list[j]));
    }
  }

  // ---- filtering ----

  method Eligible(all: seq<Candidate>, req: Request, price: Option<real>, fold: string -> string)
    returns (kept: seq<Candidate>)
    ensures forall c :: c in kept <==> c in all && Passes(c, req, price, fold)
  {
    kept := [];
    for i := 0 to |all|
      invariant forall c :: c in kept <==> c in all[..i] && Passes(c, req, price, fold)
    {
      assert all[..i + 1] == all[..i] + [all[i]];
      if Passes(all[i], req, price, fold) {
        kept := kept + [all[i]];
      }
    }
    assert all[..|all|] == all;
  }

  function FeedCandidates(items: seq<Item>, t: ProductType): seq<Candidate> {
    seq(|items|, i requires 0 <= i < |items| => NormalizeCandidate(items[i], t))
  }

  function RowCandidates(rows: seq<Row>): seq<Candidate> {
    seq(|rows|, i requires 0 <= i < |rows| => CatalogCandidate(rows[i]))
  }

  /** A candidate with this identity passes. */
  ghost predicate Delivers(all: seq<Candidate>, req: Request, price: Option<real>, fold: string -> string,
                           key: (ProductType, Option<string>)) {
    exists c :: c in all && Passes(c, req, price, fold) && Identity(c) == key
  }

  ghost predicate Lists(products: seq<Candidate>, key: (ProductType, Option<string>)) {
    exists c :: c in products && Identity(c) == key
  }

  lemma FeedCandidateOf(items: seq<Item>, t: ProductType, c: Candidate)
    ensures c in FeedCandidates(items, t) <==> exists item :: item in items && c == NormalizeCandidate(item, t)
  {
    var cs := FeedCandidates(items, t);
    if c in cs {
      var i :| 0 <= i < |items| && c == cs[i];
      assert items[i] in items;
    }
    if item :| item in items && c == NormalizeCandidate(item, t) {
      var i :| 0 <= i < |items| && items[i] == item;
      assert cs[i] == c;
    }
  }

  lemma RowCandidateOf(rows: seq<Row>, c: Candidate)
    ensures c in RowCandidates(rows) <==> exists row :: row in rows && c == CatalogCandidate(row)
  {
    var cs := RowCandidates(rows);
    if c in cs {
      var i :| 0 <= i < |rows| && c == cs[i];
      assert rows[i] in rows;
    }
    if row :| row in rows && c == CatalogCandidate(row) {
      var i :| 0 <= i < |rows| && rows[i] == row;
      assert cs[i] == c;
    }
  }

  /** For an accepted request the catalog copy of an item passes the filters exactly when the item does. */
  lemma CatalogCopyMatches(item: Item, t: ProductType, req: Request, price: Option<real>, fold: string -> string)
    requires CatalogCanSatisfy(req.filters, req.suitability)
    ensures Passes(CatalogCandidate(NormalizeItem(item, t)), req, price, fold)
       <==> Passes(NormalizeCandidate(item, t), req, price, fold)
  {
  }

  /** Why the guard is there: on a price or turnover filter every catalog copy would be a false negative. */
  lemma GuardedFiltersRejectCatalog(row: Row, f: ScreenFilters, fold: string -> string)
    requires f.requireTwoWay || f.maxSpread.Some? || f.minTurnover.Some?
    ensures !MatchesFilters(CatalogCandidate(row), f, fold)
  {
  }

  lemma SnapshotRowOf(feed: Feed, row: Row)
    ensures row in SnapshotRows(feed.certificates, feed.warrants)
       <==> exists item :: item in feed.Items(row.productType) && row == NormalizeItem(item, row.productType)
  {
    var a := NormalizeAll(feed.certificates, Certificate);
    var b := NormalizeAll(feed.warrants, Warrant);
    if row in a + b {
      var i :| 0 <= i < |a + b| && (a + b)[i] == row;
      if i < |a| {
        assert feed.certificates[i] in feed.Items(row.productType);
      } else {
        assert feed.warrants[i - |a|] in feed.Items(row.productType);
      }
    }
    if item :| item in feed.Items(row.productType) && row == NormalizeItem(item, row.productType) {
      var i :| 0 <= i < |feed.Items(row.productType)| && feed.Items(row.productType)[i] == item;
      assert row.productType.Certificate? ==> a[i] == row;
      assert row.productType.Warrant? ==> b[i] == row;
    }
  }

  /** The catalog rows of a request, in query order. */
  function Found(rows: seq<Row>, req: Request): seq<Row> {
    Ordered(Selected(rows, req.underlyingId, Some(req.direction.Text()), req.types))
  }

  /** The catalog was refreshed from this feed. */
  ghost predicate Mirrors(rows: seq<Row>, feed: Feed) {
    rows == SnapshotRows(feed.certificates, feed.warrants) && ValidRows(rows)
  }

  /** A kept catalog candidate is a wanted item, and conversely. */
  lemma CatalogPathAgrees(rows: seq<Row>, feed: Feed, req: Request, price: Option<real>, fold: string -> string,
                          key: (ProductType, Option<string>))
    requires Mirrors(rows, feed) && req.types != {}
    requires CatalogCanSatisfy(req.filters, req.suitability)
    ensures Wanted(feed, req, price, fold, key) <==> Delivers(RowCandidates(Found(rows, req)), req, price, fold, key)
  {
    var found := Found(rows, req);
    LimitIsCount(rows, req.underlyingId, Some(req.direction.Text()), req.types);
    if c :| c in RowCandidates(found) && Passes(c, req, price, fold) && Identity(c) == key {
      RowCandidateOf(found, c);
      var row :| row in found && c == CatalogCandidate(row);
      SnapshotRowOf(feed, row);
      var item :| item in feed.Items(row.productType) && row == NormalizeItem(item, row.productType);
      CatalogCopyMatches(item, row.productType, req, price, fold);
      assert IsDecimal(row.orderBookId);
      assert |req.direction.Text()| > 0;
    }
    if Wanted(feed, req, price, fold, key) {
      var item :| item in feed.Items(key.0) && Related(item, req) && item.orderBookId == key.1
                  && Passes(NormalizeCandidate(item, key.0), req, price, fold);
      var row := NormalizeItem(item, key.0);
      SnapshotRowOf(feed, row);
      CatalogCopyMatches(item, key.0, req, price, fold);
      RowCandidateOf(found, CatalogCandidate(row));
      assert row in rows && IsDecimal(row.orderBookId);
    }
  }

  /** A kept feed candidate is a wanted item of its family, and conversely. */
  lemma FeedPathAgrees(rows: seq<Item>, feed: Feed, req: Request, t: ProductType, price: Option<real>,
                       fold: string -> string, key: (ProductType, Option<string>))
    requires PushedDown(rows, feed, req, t, fold) && t in req.types
    ensures key.0 == t && Wanted(feed, req, price, fold, key) <==> Delivers(FeedCandidates(rows, t), req, price, fold, key)
  {
    if c :| c in FeedCandidates(rows, t) && Passes(c, req, price, fold) && Identity(c) == key {
      FeedCandidateOf(rows, t, c);
    }
    if key.0 == t && Wanted(feed, req, price, fold, key) {
      var item :| item in feed.Items(t) && Related(item, req) && item.orderBookId == key.1
                  && Passes(NormalizeCandidate(item, t), req, price, fold);
      FeedCandidateOf(rows, t, NormalizeCandidate(item, t));
    }
  }

  /** One family's endpoint answers this request with `PushedDown` rows and serves at least one row per page. */
  ghost predicate Serves(server: Server<Item>, feed: Feed, req: Request, t: ProductType, fold: string -> string) {
    server.cap >= 1 && PushedDown(server.list, feed, req, t, fold)
  }

  /** The request filters on nothing but what the catalog holds reliably. */
  predicate Structural(req: Request) {
    && !req.filters.requireTwoWay && req.filters.maxSpread == None && req.filters.minTurnover == None
    && req.filters.minLeverage == None && req.filters.maxLeverage == None
    && req.suitability.targetLeverage == None && req.suitability.minStopLossBuffer == None
  }

  lemma FoundCount(rows: seq<Row>, req: Request)
    ensures |Found(rows, req)| == |Selected(rows, req.underlyingId, Some(req.direction.Text()), req.types)|
  {
  }

  class LeveragedScreenService {
    var catalog: InstrumentCatalog?

    constructor (catalog: InstrumentCatalog?)
      ensures this.catalog == catalog
    {
      this.catalog := catalog;
    }

    method RequestSizeFor(req: Request, t: ProductType) returns (size: nat)
      ensures 1 <= size
    {
      var count: Option<nat> := None;
      if catalog != null {
        var counted := catalog.CountByUnderlying(req.underlyingId, Some(req.direction.Text()), {t});
        if counted.Ok? {
          count := Some(counted.value);
        }
      }
      size := RequestSize(count);
    }

    /** Catalog rows for an acceptable request; empty when the catalog cannot, need not or fails to answer. */
    method CatalogRows(req: Request, fails: bool) returns (rows: seq<Row>)
      ensures catalog == null || fails || !CatalogCanSatisfy(req.filters, req.suitability) ==> rows == []
      ensures rows != [] ==> rows == Found(catalog.rows, req)
      ensures catalog != null && !fails && Structural(req) && IsDecimal(req.underlyingId) ==> rows == Found(catalog.rows, req)
    {
      rows := [];
      FoundCount(if catalog != null then catalog.rows else [], req);
      if catalog != null && !fails && CatalogCanSatisfy(req.filters, req.suitability) {
        var count := catalog.CountByUnderlying(req.underlyingId, Some(req.direction.Text()), req.types);
        if count.Ok? && count.value > 0 {
          var found := catalog.FindByUnderlying(req.underlyingId, Some(req.direction.Text()), req.types, count.value);
          LimitIsCount(catalog.rows, req.underlyingId, Some(req.direction.Text()), req.types);
          if found.Ok? {
            rows := found.value;
          }
        }
      }
    }

    /**
    The eligible products.  Whether the answer comes from a catalog that mirrors the
    feed or from the paged feed itself, it is sorted and contains exactly the wanted
    (product type, order-book id) pairs; from the feed without those of a family whose
    collector raised.  A stop-loss criterion without a reference price is an error.
    */
    method ScreenProducts(req: Request, feed: Feed, certificates: Server<Item>, warrants: Server<Item>,
                          failed: set<ProductType>, catalogFails: bool, price: Option<real>, fold: string -> string)
      returns (r: Result<seq<Candidate>, string>, fromCatalog: bool)
      requires req.types != {}
      requires Certificate !in failed ==> Serves(certificates, feed, req, Certificate, fold)
      requires Warrant !in failed ==> Serves(warrants, feed, req, Warrant, fold)
      requires catalog != null ==> Mirrors(catalog.rows, feed)
      ensures r.Err? <==> req.suitability.minStopLossBuffer.Some? && price.None?
      ensures fromCatalog ==> catalog != null && !catalogFails && CatalogCanSatisfy(req.filters, req.suitability)
      ensures fromCatalog ==> Structural(req)
      ensures catalog != null && !catalogFails && Structural(req) && IsDecimal(req.underlyingId) ==>
                (fromCatalog <==> Found(catalog.rows, req) != [])
      ensures r.Ok? ==> forall key ::
                (Wanted(feed, req, price, fold, key) && (fromCatalog || key.0 !in failed)) <==> Lists(r.value, key)
      ensures r.Ok? ==> Sorted(r.value, CandidateRank())
      ensures r.Ok? ==> forall c | c in r.value :: Known(c, feed, fromCatalog)
      ensures r.Ok? ==> forall i, j | 0 <= i < j < |r.value| :: !CandidateBefore(r.value[j], r.value[i])
    {
      hide Passes, CandidateBefore, Known, Related, NamedBefore;
      var all: seq<Candidate>;
      var rows := CatalogRows(req, catalogFails);
      fromCatalog := rows != [];
      if fromCatalog {
        all := RowCandidates(rows);
        forall key
          ensures Wanted(feed, req, price, fold, key) <==> Delivers(all, req, price, fold, key)
        {
          CatalogPathAgrees(catalog.rows, feed, req, price, fold, key);
        }
        CatalogCandidatesAreKnown(catalog.rows, feed, req);
      } else {
        all := FeedProducts(req, feed, certificates, warrants, failed, price, fold);
      }
      if req.suitability.minStopLossBuffer.Some? && price.None? {
        return Err("authenticated underlying quote did not contain a usable reference price"), fromCatalog;
      }
      var kept := Eligible(all, req, price, fold);
      var products := StableSort(kept, CandidateRank());
      SortSorts(kept, CandidateRank());
      SameElements(kept, products);
      RankedCandidates(products);
      forall key ensures Delivers(all, req, price, fold, key) <==> Lists(products, key) {
        KeptIdentities(all, kept, products, req, price, fold, key);
      }
      r := Ok(products);
    }

    /** What the collectors that do not raise return. */
    method FeedProducts(req: Request, feed: Feed, certificates: Server<Item>, warrants: Server<Item>,
                        failed: set<ProductType>, price: Option<real>, fold: string -> string)
      returns (all: seq<Candidate>)
      requires Certificate !in failed ==> Serves(certificates, feed, req, Certificate, fold)
      requires Warrant !in failed ==> Serves(warrants, feed, req, Warrant, fold)
      ensures forall key :: (Wanted(feed, req, price, fold, key) && key.0 !in failed) <==> Delivers(all, req, price, fold, key)
      ensures forall c | c in all :: Known(c, feed, false)
    {
      hide Known, Passes;
      var cs: seq<Candidate> := [];
      var ws: seq<Candidate> := [];
      if Certificate in req.types && Certificate !in failed {
        var size := RequestSizeFor(req, Certificate);
        var items, _ := CollectProducts(certificates, size);
        cs := FeedCandidates(items, Certificate);
        FeedCandidatesAreKnown(items, feed, req, Certificate, fold);
      }
      if Warrant in req.types && Warrant !in failed {
        var size := RequestSizeFor(req, Warrant);
        var items, _ := CollectProducts(warrants, size);
        ws := FeedCandidates(items, Warrant);
        FeedCandidatesAreKnown(items, feed, req, Warrant, fold);
      }
      all := cs + ws;
      forall key
        ensures (Wanted(feed, req, price, fold, key) && key.0 !in failed) <==> Delivers(all, req, price, fold, key)
      {
        if Certificate in req.types && Certificate !in failed {
          FeedPathAgrees(certificates.list, feed, req, Certificate, price, fold, key);
        }
        if Warrant in req.types && Warrant !in failed {
          FeedPathAgrees(warrants.list, feed, req, Warrant, price, fold, key);
        }
        EitherFamily(cs, ws, req, price, fold, key);
      }
    }
  }

  lemma KeptIdentities(all: seq<Candidate>, kept: seq<Candidate>, products: seq<Candidate>, req: Request,
                       price: Option<real>, fold: string -> string, key: (ProductType, Option<string>))
    requires forall c :: c in kept <==> c in all && Passes(c, req, price, fold)
    requires forall c :: c in products <==> c in kept
    ensures Delivers(all, req, price, fold, key) <==> Lists(products, key)
  {
    if c :| c in all && Passes(c, req, price, fold) && Identity(c) == key {
      assert c in products;
    }
    if c :| c in products && Identity(c) == key {
      assert c in kept;
    }
  }

  lemma EitherFamily(cs: seq<Candidate>, ws: seq<Candidate>, req: Request, price: Option<real>, fold: string -> string,
                     key: (ProductType, Option<string>))
    ensures Delivers(cs + ws, req, price, fold, key)
       <==> Delivers(cs, req, price, fold, key) || Delivers(ws, req, price, fold, key)
  {
    if c :| c in cs && Passes(c, req, price, fold) && Identity(c) == key {
      assert c in cs + ws;
    }
    if c :| c in ws && Passes(c, req, price, fold) && Identity(c) == key {
      assert c in cs + ws;
    }
  }
}
