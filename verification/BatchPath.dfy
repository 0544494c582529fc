/**
One authenticated market-data batch through every layer: the service builds paths,
the client delegates them, the broker asks a worker, the worker fetches them
concurrently, and the answers come back.  Result i belongs to path i throughout, so
the strict zip of the caller never fails.

Times are seconds of a monotonic clock.
*/
module BatchPath {
  import opened Wrappers
  import opened Enrichment
  import opened RankingLaws

  type Path = string

  const BACKOFF_SECONDS := 60
  const HTTP_OK := 200
  const HTTP_UNAUTHORIZED := 401

  /** A projected quote document; `recognized` is whether the quote has a known field. */
  datatype Payload = Payload(quote: Option<RawQuote>, recognized: bool)

  datatype Body = Unparsable | Forbidden | Shapeless | Mapping(payload: Payload)

  datatype Response = Response(status: nat, body: Body)

  // ---- the worker's client ----

  /**
  `request_authenticated_batch`: the requests complete in any `order`, and the result
  list still follows the paths.  A request that fails in transport has no response.
  */
  method RequestAuthenticatedBatch(paths: seq<Path>, upstream: (nat, Path) -> Option<Response>, order: seq<nat>)
    returns (responses: seq<Option<Response>>)
    requires forall i | 0 <= i < |paths| :: i in order
    ensures |responses| == |paths|
    ensures forall i | 0 <= i < |paths| :: responses[i] == upstream(i, paths[i])
  {
    var slots := new Option<Response>[|paths|](_ => None);
    for k := 0 to |order|
      invariant forall i | 0 <= i < |paths| :: i in order[..k] ==> slots[i] == upstream(i, paths[i])
    {
      if order[k] < |paths| {
        slots[order[k]] := upstream(order[k], paths[order[k]]);
      }
      assert order[..k + 1] == order[..k] + [order[k]];
    }
    assert order[..|order|] == order;
    responses := slots[..];
  }

  // ---- the worker ----

  datatype Operation = Done(items: seq<Option<Payload>>) | Expired | Unsafe

  /** A response that ends the whole batch. */
  predicate Trips(r: Option<Response>) {
    r.Some? && (r.value.status == HTTP_UNAUTHORIZED || (r.value.status == HTTP_OK && r.value.body.Forbidden?))
  }

  function Projected(r: Option<Response>): Option<Payload> {
    if r.Some? && r.value.status == HTTP_OK && r.value.body.Mapping? then Some(r.value.body.payload) else None
  }

  /** The first response that ends the batch decides how. */
  ghost predicate TrippedBy(responses: seq<Option<Response>>, i: nat, expired: bool) {
    && i < |responses| && Trips(responses[i])
    && (forall j | 0 <= j < i :: !Trips(responses[j]))
    && (expired <==> responses[i].value.status == HTTP_UNAUTHORIZED)
  }

  /** `_market_batch_operation`, from the responses on. */
  method MarketBatchOperation(responses: seq<Option<Response>>) returns (result: Operation)
    ensures result.Done? <==> forall i | 0 <= i < |responses| :: !Trips(responses[i])
    ensures result.Done? ==> |result.items| == |responses|
    ensures result.Done? ==> forall i | 0 <= i < |responses| :: result.items[i] == Projected(responses[i])
    ensures !result.Done? ==> exists i: nat :: TrippedBy(responses, i, result.Expired?)
  {
    var items: seq<Option<Payload>> := [];
    while |items| < |responses|
      invariant |items| <= |responses|
      invariant forall i | 0 <= i < |items| :: !Trips(responses[i]) && items[i] == Projected(responses[i])
      decreases |responses| - |items|
    {
      var r := responses[|items|];
      if r.None? {
        items := items + [None];
        continue;
      }
      if r.value.status == HTTP_UNAUTHORIZED {
        assert TrippedBy(responses, |items|, true);
        return Expired;
      }
      if r.value.status != HTTP_OK {
        items := items + [None];
        continue;
      }
      match r.value.body {
        case Unparsable => items := items + [None];
        case Forbidden =>
          result := Unsafe;
          assert TrippedBy(responses, |items|, result.Expired?);
          return;
        case Shapeless => items := items + [None];
        case Mapping(payload) => items := items + [Some(payload)];
      }
    }
    result := Done(items);
  }

  // ---- the broker ----

  datatype Item = Null | Document(payload: Payload) | Other

  /** What comes back over the pipe.  Nothing is assumed about what a worker puts in a frame. */
  datatype Answer =
    | NotAsked                    // disconnect pending, or no connected worker
    | Broken                      // the command failed
    | Success(items: seq<Item>)
    | Mistyped                    // a result that is not a list
    | Refused(sessionMissing: bool)

  datatype Delegated = Unavailable | Rejected | Items(items: seq<Option<Payload>>)

  function Decode(item: Item): Option<Payload> {
    if item.Document? then Some(item.payload) else None
  }

  predicate WellFormed(answer: Answer, n: nat) {
    answer.Success? && |answer.items| == n && forall i | 0 <= i < n :: !answer.items[i].Other?
  }

  class BatchDelegate {
    /** `_market_auth_backoff_until` for the one endpoint family of batches. */
    var backoffUntil: Option<int>

    constructor ()
      ensures backoffUntil == None
    {
      backoffUntil := None;
    }

    /** `market_data_batch`: `now` is read before the command, `later` after it. */
    method MarketDataBatch(paths: seq<Path>, approved: bool, now: int, answer: Answer, later: int)
      returns (result: Delegated)
      modifies this
      ensures result.Items? ==> |result.items| == |paths|
      ensures paths != [] ==>
                (result.Items? <==>
                 approved && (old(backoffUntil).Some? ==> old(backoffUntil).value <= now) && WellFormed(answer, |paths|))
      ensures result.Items? && paths != [] ==>
                backoffUntil == None && forall i | 0 <= i < |paths| :: result.items[i] == Decode(answer.items[i])
      ensures paths == [] ==> result == Items([])
      ensures result.Rejected? ==> answer.Mistyped? || (answer.Success? && !WellFormed(answer, |paths|))
      ensures (old(backoffUntil).Some? && old(backoffUntil).value > now) || paths == [] || !approved ==>
                backoffUntil == old(backoffUntil)
      ensures paths != [] && approved && (old(backoffUntil).Some? ==> old(backoffUntil).value <= now) ==>
                backoffUntil ==
                if answer.Broken? || answer == Refused(false) then Some(later + 60) else None
    {
      if paths == [] {
        return Items([]);
      }
      if !approved {
        return Unavailable;
      }
      if backoffUntil.Some? {
        if backoffUntil.value > now {
          return Unavailable;
        }
        backoffUntil := None;
      }
      match answer
      case NotAsked => result := Unavailable;
      case Broken =>
        backoffUntil := Some(later + BACKOFF_SECONDS);
        result := Unavailable;
      case Mistyped => result := Rejected;
      case Refused(sessionMissing) =>
        if !sessionMissing {
          backoffUntil := Some(later + BACKOFF_SECONDS);
        }
        result := Unavailable;
      case Success(items) =>
        if |items| != |paths| || exists i | 0 <= i < |items| :: items[i].Other? {
          return Rejected;
        }
        backoffUntil := None;
        result := Items(seq(|items|, i requires 0 <= i < |items| => Decode(items[i])));
    }
  }

  // ---- the client and the service ----

  datatype Batch<T> = AuthRequired | UpstreamError | Escapes | Aligned(items: seq<T>)

  /** `get_authenticated_market_data_batch` with the broker as its delegate. */
  method GetAuthenticatedMarketDataBatch(paths: seq<Path>, approved: bool, delegated: Delegated)
    returns (batch: Batch<Option<Payload>>)
    ensures batch.Aligned? ==> |batch.items| == |paths|
    ensures batch.Aligned? <==> paths == [] || (approved && delegated.Items? && |delegated.items| == |paths|)
    ensures batch.Aligned? && paths != [] ==> batch.items == delegated.items
    ensures batch.AuthRequired? <==> paths != [] && (!approved || delegated.Unavailable?)
    ensures batch.Escapes? <==> paths != [] && approved && delegated.Rejected?
  {
    if paths == [] {
      return Aligned([]);
    }
    if !approved {
      return AuthRequired;
    }
    match delegated
    case Unavailable => batch := AuthRequired;
    case Rejected => batch := Escapes;
    case Items(items) =>
      if |items| != |paths| {
        return UpstreamError;
      }
      batch := Aligned(items);
  }

  /** What `get_authenticated_market_data_batch` does with one request when there is no delegate. */
  datatype Single = Missing | NotFoundOrApiError | NoSession | NotMapping | Got(payload: Payload)

  /** The same method without a delegate: one request after the other. */
  method GetOneByOne(paths: seq<Path>, get: (nat, Path) -> Single) returns (batch: Batch<Option<Payload>>)
    ensures batch.Aligned? ==> |batch.items| == |paths|
    ensures batch.Aligned? ==>
              forall i | 0 <= i < |paths| :: var g := get(i, paths[i]);
                batch.items[i] == (if g.Got? then Some(g.payload) else None) && !g.NoSession? && !g.NotMapping?
    ensures (forall i | 0 <= i < |paths| :: !get(i, paths[i]).NoSession? && !get(i, paths[i]).NotMapping?) ==> batch.Aligned?
  {
    var items: seq<Option<Payload>> := [];
    while |items| < |paths|
      invariant |items| <= |paths|
      invariant forall i | 0 <= i < |items| :: var g := get(i, paths[i]);
                  items[i] == (if g.Got? then Some(g.payload) else None) && !g.NoSession? && !g.NotMapping?
      decreases |paths| - |items|
    {
      match get(|items|, paths[|items|]) {
        case NoSession => return AuthRequired;
        case NotMapping => return UpstreamError;
        case Got(payload) => items := items + [Some(payload)];
        case _ => items := items + [None];
      }
    }
    batch := Aligned(items);
  }

  function QuoteIn(payload: Option<Payload>): Option<RawQuote> {
    if payload.Some? && payload.value.recognized then payload.value.quote else None
  }

  function PathOf(id: string): Path {
    "/_api/trading-critical/rest/marketdata/" + id
  }

  /** `get_authenticated_market_data_quotes`, from the payloads on. */
  method Quotes(payloads: seq<Option<Payload>>) returns (quotes: seq<Option<RawQuote>>)
    ensures |quotes| == |payloads|
    ensures forall i | 0 <= i < |payloads| :: quotes[i] == QuoteIn(payloads[i])
  {
    quotes := [];
    while |quotes| < |payloads|
      invariant |quotes| <= |payloads|
      invariant forall i | 0 <= i < |quotes| :: quotes[i] == QuoteIn(payloads[i])
      decreases |payloads| - |quotes|
    {
      var payload := payloads[|quotes|];
      if payload.None? || payload.value.quote.None? || !payload.value.recognized {
        quotes := quotes + [None];
      } else {
        quotes := quotes + [payload.value.quote];
      }
    }
  }

  // ---- what the upstream holds ----

  /** The order-book id that a path names: what follows the endpoint. */
  function IdIn(path: Path): Option<string> {
    var endpoint := "/_api/trading-critical/rest/marketdata/";
    if endpoint <= path then Some(path[|endpoint|..]) else None
  }

  /** Every id has its own path, and the path names it. */
  lemma PathNamesId(id: string, other: string)
    ensures IdIn(PathOf(id)) == Some(id)
    ensures PathOf(id) == PathOf(other) <==> id == other
  {
    var endpoint := "/_api/trading-critical/rest/marketdata/";
    assert PathOf(id)[|endpoint|..] == id && PathOf(other)[|endpoint|..] == other;
  }

  /**
  The upstream answers a path by the id it names with what it holds for that id, except
  for the requests that are lost in transport.
  */
  ghost predicate AnswersById(upstream: (nat, Path) -> Option<Response>, held: string -> Response, lost: iset<nat>) {
    forall i: nat, path: Path | IdIn(path).Some? ::
      upstream(i, path) == if i in lost then None else Some(held(IdIn(path).value))
  }

  /** The quote in a response: a 200 whose document has a quote with a known field. */
  function QuoteHeld(r: Response): Option<RawQuote> {
    match r
    case Response(200, Mapping(Payload(quote, true))) => quote
    case _ => None
  }

  lemma FetchedIsHeld(id: string, i: nat, upstream: (nat, Path) -> Option<Response>, held: string -> Response, lost: iset<nat>)
    requires AnswersById(upstream, held, lost)
    ensures Fetched(id, i, upstream) == if i in lost then None else QuoteHeld(held(id))
    ensures Trips(upstream(i, PathOf(id))) <==> i !in lost && Ending(held(id))
  {
    PathNamesId(id, id);
    assert upstream(i, PathOf(id)) == if i in lost then None else Some(held(id));
  }

  /** A response that ends its whole batch: unauthorised, or a document that must not be passed on. */
  predicate Ending(r: Response) {
    r.status == 401 || r == Response(200, Forbidden)
  }

  /** The i-th response is the first that ends the batch. */
  ghost predicate EndsFirst(ids: seq<string>, held: string -> Response, lost: iset<nat>, i: nat) {
    && i < |ids| && i !in lost && Ending(held(ids[i]))
    && forall j | 0 <= j < i :: j in lost || !Ending(held(ids[j]))
  }

  // ---- all layers ----

  /** The quote the upstream holds for the i-th id, if it answered with one. */
  function Fetched(id: string, i: nat, upstream: (nat, Path) -> Option<Response>): Option<RawQuote> {
    QuoteIn(Projected(upstream(i, PathOf(id))))
  }

  /** How the worker's frame decodes on the broker's side. */
  function Framed(result: Operation): Answer {
    match result
    case Done(items) =>
      Success(seq(|items|, i requires 0 <= i < |items| => if items[i].None? then Null else Document(items[i].value)))
    case Expired => Refused(true)
    case Unsafe => Refused(false)
  }

  /** What else can happen to a batch between the broker and the responses. */
  datatype Trouble =
    | DisconnectPending     // the broker's gate, or no connected worker
    | CommandFails          // spawn, pipe, timeout or bad frame
    | SessionMissing        // no stored session, or it did not validate
    | CommandRejected       // malformed paths, or a path the worker does not allow
    | RequestUnauthorized   // the client raises an authentication error
    | RequestRaises         // the client raises anything else

  /** The broker's answer: the worker's frame unless something went wrong before it. */
  function Answered(trouble: Option<Trouble>, result: Operation): Answer {
    match trouble
    case None => Framed(result)
    case Some(DisconnectPending) => NotAsked
    case Some(CommandFails) => Broken
    case Some(SessionMissing) => Refused(true)
    case Some(RequestUnauthorized) => Refused(true)
    case Some(CommandRejected) => Refused(false)
    case Some(RequestRaises) => Refused(false)
  }

  /**
  The whole path with a worker that answers as it should: for every list of ids, every
  upstream, every completion order and whatever goes wrong on the way, the caller gets
  an error or exactly one quote per id, the i-th being the one the upstream holds for
  the i-th id; and it gets the quotes exactly when the paths are approved, no backoff
  runs, nothing goes wrong, and no response is unauthorised or unsafe.  A command that
  fails or is rejected starts a backoff of a minute; one that finds no session does not.
  */
  method AuthenticatedQuotes(broker: BatchDelegate, ids: seq<string>, approved: bool, now: int, later: int,
                             trouble: Option<Trouble>, upstream: (nat, Path) -> Option<Response>, order: seq<nat>,
                             ghost held: string -> Response, ghost lost: iset<nat>)
    returns (batch: Batch<Option<RawQuote>>)
    requires forall i | 0 <= i < |ids| :: i in order
    modifies broker
    ensures batch.Aligned? ==> |batch.items| == |ids|
    ensures batch.Aligned? ==> forall i | 0 <= i < |ids| :: batch.items[i] == Fetched(ids[i], i, upstream)
    ensures !batch.Escapes? && !batch.UpstreamError?
    ensures ids != [] ==>
              (batch.Aligned? <==>
               approved && (old(broker.backoffUntil).Some? ==> old(broker.backoffUntil).value <= now) && trouble.None?
               && forall i | 0 <= i < |ids| :: !Trips(upstream(i, PathOf(ids[i]))))
    ensures AnswersById(upstream, held, lost) && batch.Aligned? ==>
              forall i | 0 <= i < |ids| :: batch.items[i] == if i in lost then None else QuoteHeld(held(ids[i]))
    ensures AnswersById(upstream, held, lost) && ids != [] ==>
              (batch.Aligned? <==>
               approved && (old(broker.backoffUntil).Some? ==> old(broker.backoffUntil).value <= now) && trouble.None?
               && forall i | 0 <= i < |ids| :: i in lost || !Ending(held(ids[i])))
    ensures batch.Aligned? && ids != [] ==> broker.backoffUntil == None
    ensures ids != [] && approved && (old(broker.backoffUntil).Some? ==> old(broker.backoffUntil).value <= now) ==>
              match trouble
              case Some(CommandFails) => broker.backoffUntil == Some(later + 60)
              case Some(CommandRejected) => broker.backoffUntil == Some(later + 60)
              case Some(RequestRaises) => broker.backoffUntil == Some(later + 60)
              case Some(DisconnectPending) => broker.backoffUntil == None
              case Some(SessionMissing) => broker.backoffUntil == None
              case Some(RequestUnauthorized) => broker.backoffUntil == None
              case None =>
                AnswersById(upstream, held, lost) ==>
                  && (batch.Aligned? ==> broker.backoffUntil == None)
                  && forall i: nat | EndsFirst(ids, held, lost, i) ::
                       broker.backoffUntil == if held(ids[i]).status == 401 then None else Some(later + 60)
  {
    var paths := seq(|ids|, i requires 0 <= i < |ids| => PathOf(ids[i]));
    var responses := RequestAuthenticatedBatch(paths, upstream, order);
    var result := MarketBatchOperation(responses);
    var delegated := broker.MarketDataBatch(paths, approved, now, Answered(trouble, result), later);
    var payloads := GetAuthenticatedMarketDataBatch(paths, approved, delegated);
    match payloads {
      case AuthRequired => batch := AuthRequired;
      case UpstreamError => batch := UpstreamError;
      case Escapes => batch := Escapes;
      case Aligned(items) =>
        var quotes := Quotes(items);
        batch := Aligned(quotes);
    }
    if AnswersById(upstream, held, lost) {
      forall i | 0 <= i < |ids|
        ensures Fetched(ids[i], i, upstream) == if i in lost then None else QuoteHeld(held(ids[i]))
        ensures Trips(upstream(i, PathOf(ids[i]))) <==> i !in lost && Ending(held(ids[i]))
      {
        FetchedIsHeld(ids[i], i, upstream, held, lost);
      }
      if !result.Done? {
        ghost var first: nat :| TrippedBy(responses, first, result.Expired?);
        assert responses[first] == upstream(first, PathOf(ids[first])) == Some(held(ids[first]));
        forall i: nat | EndsFirst(ids, held, lost, i) ensures i == first {
          assert responses[i] == upstream(i, PathOf(ids[i])) && Trips(responses[i]);
        }
      }
    }
  }

  /** Even a worker that answers anything at all gets no misaligned list past the broker and the client. */
  method AnyFrameIsAligned(broker: BatchDelegate, ids: seq<string>, approved: bool, now: int, answer: Answer, later: int)
    returns (batch: Batch<Option<RawQuote>>)
    modifies broker
    ensures batch.Aligned? ==> |batch.items| == |ids|
    ensures batch.Aligned? && ids != [] ==>
              WellFormed(answer, |ids|) && forall i | 0 <= i < |ids| :: batch.items[i] == QuoteIn(Decode(answer.items[i]))
  {
    var paths := seq(|ids|, i requires 0 <= i < |ids| => PathOf(ids[i]));
    var delegated := broker.MarketDataBatch(paths, approved, now, answer, later);
    var payloads := GetAuthenticatedMarketDataBatch(paths, approved, delegated);
    match payloads
    case AuthRequired => batch := AuthRequired;
    case UpstreamError => batch := UpstreamError;
    case Escapes => batch := Escapes;
    case Aligned(items) =>
      var quotes := Quotes(items);
      batch := Aligned(quotes);
  }

  /** The reply that the enrichment of a snapshot sees; none when a rejected frame raises through the call. */
  function AsReply(batch: Batch<Option<RawQuote>>): (reply: Option<Reply>)
    ensures reply.None? <==> batch.Escapes?
    ensures batch.Aligned? <==> reply.Some? && reply.value.Answered?
    ensures batch.Aligned? ==> forall i: nat | i < |batch.items| :: reply.value.at(i) == batch.items[i]
  {
    match batch
    case AuthRequired => Some(Failed("auth_required"))
    case UpstreamError => Some(Failed("upstream_unavailable"))
    case Escapes => None
    case Aligned(items) => Some(Reply.Answered((i: nat) => if i < |items| then items[i] else None))
  }

  /**
  One batch of a snapshot, end to end: it is answered exactly when the paths are approved,
  no backoff runs, nothing goes wrong and no response ends the batch; and then the rows
  that enrichment appends carry, product by product, the prices and stamps the upstream
  holds for that product's id, or an error where it holds none.
  */
  method EnrichThroughLayers(broker: BatchDelegate, ps: seq<Product>, approved: bool, now: int, later: int,
                             trouble: Option<Trouble>, upstream: (nat, Path) -> Option<Response>, order: seq<nat>,
                             at: nat -> int, ghost held: string -> Response, ghost lost: iset<nat>)
    returns (reply: Reply, rows: seq<Enriched>)
    requires forall i | 0 <= i < |ps| :: i in order
    modifies broker
    ensures reply.Answered? ==> rows == EnrichBatch(ps, reply.at, at)
    ensures reply.Answered? ==>
              |rows| == |ps| && forall i | 0 <= i < |ps| ::
                rows[i] == EnrichOne(ps[i], Fetched(ps[i].orderBookId, i, upstream), at(i))
    ensures reply.Failed? ==> rows == []
    ensures AnswersById(upstream, held, lost) && ps != [] ==>
              (reply.Answered? <==>
               approved && (old(broker.backoffUntil).Some? ==> old(broker.backoffUntil).value <= now) && trouble.None?
               && forall i | 0 <= i < |ps| :: i in lost || !Ending(held(ps[i].orderBookId)))
    ensures AnswersById(upstream, held, lost) && reply.Answered? ==>
              forall i | 0 <= i < |ps| ::
                Carries(rows[i], ps[i], if i in lost then None else QuoteHeld(held(ps[i].orderBookId)), at(i))
  {
    var ids := seq(|ps|, i requires 0 <= i < |ps| => ps[i].orderBookId);
    var batch := AuthenticatedQuotes(broker, ids, approved, now, later, trouble, upstream, order, held, lost);
    reply := AsReply(batch).value;
    rows := if reply.Answered? then EnrichBatch(ps, reply.at, at) else [];
    if AnswersById(upstream, held, lost) {
      forall i | 0 <= i < |ps|
        ensures Fetched(ps[i].orderBookId, i, upstream) == if i in lost then None else QuoteHeld(held(ps[i].orderBookId))
      {
        FetchedIsHeld(ps[i].orderBookId, i, upstream, held, lost);
      }
      if reply.Answered? {
        forall i | 0 <= i < |ps|
          ensures Carries(rows[i], ps[i], if i in lost then None else QuoteHeld(held(ps[i].orderBookId)), at(i))
        {
          EnrichedCarries(ps[i], if i in lost then None else QuoteHeld(held(ps[i].orderBookId)), at(i));
        }
      }
    }
  }

  /** The row reports the quote of its product as it is at the observation, or an error without one. */
  ghost predicate Carries(e: Enriched, p: Product, quote: Option<RawQuote>, at: int) {
    && e.product == p && e.retrievedAt == at && e.failed == quote.None? && e.live.Some? == quote.Some?
    && (quote.Some? ==>
          && e.live.value.bid == quote.value.buy && e.live.value.ask == quote.value.sell
          && e.live.value.details == quote.value.details
          && e.live.value.freshness.sourceAt == quote.value.updated
          && e.live.value.freshness.lastTradeAt == quote.value.lastTrade
          && e.live.value.freshness.observedAt == at && Meaningful(e.live.value))
  }

  lemma EnrichedCarries(p: Product, quote: Option<RawQuote>, at: int)
    ensures Carries(EnrichOne(p, quote, at), p, quote, at)
  {
    if quote.Some? { CompactIsMeaningful(quote.value, at); }
  }
}
