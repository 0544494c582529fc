# Verification of the Avanza MCP server

A Dafny model of the parts of the server where several steps have to fit together, with proofs about every
input, every run or every interleaving:

- **Session protocol.** The broker that owns the authentication workers behind its locks, the pipe protocol to each
  worker, the browser state machine inside one process, the BankID attempt, and the three kinds of workers
  (`Broker`, `AuthProcessBroker`, `BrokerProofs`, `BrokerLaws`, `WorkerPipe`, `Browser`, `BrowserAuth`, `BrowserProofs`,
  `BrowserLaws`, `BankId`, `BankIdLaws`, `Daemon`, `Workers`).
- **Screening and ranking.** Progressive enrichment of a frozen universe of leveraged products and the pages served
  from a ranking that every call makes anew, the catalog and its refresh, the catalog fast path against the feed,
  adaptive paging, option chains and their cached rankings, and the alignment of quote batches through every layer
  (`Enrichment`, `EnrichmentProofs`, `RankingPages`, `RankingLaws`, `Upstream`, `Catalog`, `Screen`, `Options`,
  `BatchPath`, with `Order`, `Prices`, `Paging` and `Wrappers` below them).
- **Client.** The request governor and the order-depth event stream (`Governor`, `Sse`).

Concurrent code is a step system: one event runs one task from an await to its next await, events that are not enabled
change nothing, and a run is any sequence of events. Each class of such an object holds the original's fields; its
`Handle` runs one event in place and has exactly the effect of the step, and a replaying method states the theorems
about all runs on the fields. What the steps compute is read off the events, prices, stamps and clock readings alone:
histories say what a field holds after any run, and whole flows say that an operation that is answered well completes.
Upstream services, stores, clocks and users answer through parameters. Helper lemmas stand beside the operation
they are about.

`dafny verify dfyconfig.toml` checks the whole project.

## Where the code differs from the plain statement

- The final refresh of an enrichment is keyed by order-book id alone. `RefreshConservesIff` gives the exact condition
  under which it keeps every product and `SharedIdLosesProduct` an input that loses one.
- Every page of a completed enrichment comes from a list that its own call has re-aged and re-sorted. A row that turns
  stale between two calls can be served twice and another never (`LapsedRowIsServedTwice`); `OrderKeptIff` and
  `PagesJoinIff` say exactly when that cannot happen, from source stamps and call times.
- The catalog collector reads at most two pages of an upstream that caps its pages below 100 rows: it rejects a longer
  list that reports its length and silently cuts one that never does (`CollectFamily`). The adaptive collectors of the
  screening service accept any cap (`CollectProducts`).
- The option scan is reported as complete in every response; `ScanExpiry` and `ScreenChain` say exactly when it is.
- The event-stream reader strips the event name, accepts an event without data, and dispatches a block that the end of
  the stream leaves unterminated. `AgreesWithStandardIff` and `AgreesAsReceivedIff` state exactly when it agrees with
  section 9.2.6 of the WHATWG HTML Standard.
- Store writes run in threads. A call cancelled while it saves leaves the lock although its save may land later and can
  undo a disconnect (`CancelledSaveUndoesDisconnect`); `DisconnectWins` is an equivalence with the absence of such saves.
- In a one-process browser session, state and session are not equivalent: `cancel` leaves an installed session in
  place and a failed disconnect page reports `connected`. The theorems speak of the session and the store.

## Model

| member | source | states |
|---|---|---|
| Order.KeyOrder | src/avanza_mcp/services/leveraged_screen_service.py:303-345 | Ranking tuples compare as equal only when they are equal, and comparison is antisymmetric |
| Order.KeyTransitive | src/avanza_mcp/services/leveraged_screen_service.py:303-345 | Ranking tuples of numbers, infinity and texts are transitively ordered |
| Order.TextsCompare | src/avanza_mcp/services/leveraged_screen_service.py:303-345 | Texts compare in dictionary order, read off the first difference |
| Order.SortSorts | src/avanza_mcp/services/leveraged_screen_service.py:1209-1216 | `list.sort` yields a sorted permutation |
| Order.SortIsStable | src/avanza_mcp/services/options_screen_service.py:665-677 | Elements with equal keys keep their incoming order |
| Order.SortedUnique | src/avanza_mcp/services/leveraged_screen_service.py:1209-1216 | Two sorted arrangements of the same elements are one list when keys identify elements |
| Order.SortForgetsOrder | src/avanza_mcp/services/leveraged_screen_service.py:1209-1268 | With identifying keys the result of a sort does not depend on the order before it |
| Paging.WalkYieldsRest | src/avanza_mcp/services/leveraged_screen_service.py:683-742 | Over one frozen list, following `next_offset` lists every remaining element exactly once, for any page size of at least 1 |
| Paging.PageIs | src/avanza_mcp/services/leveraged_screen_service.py:683-742 | What a page holds, counts and announces: the elements from its offset on, at most its size, and the next offset exactly when something is left out |
| Prices.TighterIsSmaller | src/avanza_mcp/services/leveraged_screen_service.py:63-68 | One relative spread is smaller than another exactly when its price difference, cross-multiplied with the sums of the prices, is |
| Upstream.RequestSize | src/avanza_mcp/services/leveraged_screen_service.py:755-772 | The requested page size is at least 1 whatever the catalog counts |
| Upstream.CollectProducts | src/avanza_mcp/services/leveraged_screen_service.py:799-843 | The collector stops with exactly the upstream list if and only if the server serves rows at all or the list is empty, for every request size, cap, length and reporting pattern |
| Catalog.WithRateLimitRetry | src/avanza_mcp/instrument_catalog.py:568-588 | Succeeds exactly when one of four attempts answers after rate limits only; before each of at most three retries sleeps the seconds asked for, kept between 1 and 60, or 5, 10 and 15 seconds |
| Catalog.FetchPage | src/avanza_mcp/instrument_catalog.py:590-616 | A page is fetched exactly when it is eventually served |
| Catalog.FullPages | src/avanza_mcp/instrument_catalog.py:627-631 | After a full first page of a list of known length the whole list is read, or a page fails |
| Catalog.PagesInTurn | src/avanza_mcp/instrument_catalog.py:632-645 | Page by page the list is read as far as page sizes below 100 allow, which is exactly two pages |
| Catalog.CollectFamily | src/avanza_mcp/instrument_catalog.py:618-651 | The result is a prefix; the whole list or an error when its length is reported; with readable pages the whole list exactly when the pages are full or two suffice, and a cut list when the length is never reported |
| Catalog.ValidateRows | src/avanza_mcp/instrument_catalog.py:181-193 | Accepts exactly the row lists with decimal ids, non-blank names and unique (type, id) keys |
| Catalog.InstrumentCatalog.ReplaceAll | src/avanza_mcp/instrument_catalog.py:195-309 | All or nothing: installs the rows with matching counts if they are valid and no statement raises, otherwise table and metadata are those of before |
| Catalog.InstrumentCatalog.Rewrite | src/avanza_mcp/instrument_catalog.py:213-299 | The statements inside the transaction and when they all succeed |
| Catalog.InstrumentCatalog.FindByUnderlying | src/avanza_mcp/instrument_catalog.py:349-391 | Rows of that underlying, direction and types only, all of them unless the limit cuts, certificates first and then by issuer and name in dictionary order; or the two argument errors |
| Catalog.InstrumentCatalog.CountByUnderlying | src/avanza_mcp/instrument_catalog.py:393-429 | Counts exactly the rows that the query with the same arguments selects |
| Catalog.LimitIsCount | src/avanza_mcp/services/leveraged_screen_service.py:976-989 | With the limit set to the count no selected row is cut off, and the result is exactly the matching rows |
| Catalog.SnapshotCounts | src/avanza_mcp/instrument_catalog.py:702-723 | The two family counts of a normalised snapshot are the lengths of the two upstream lists |
| Catalog.SnapshotDescribes | src/avanza_mcp/instrument_catalog.py:702-723 | A snapshot describes the two upstream lists row by row, field by field, certificates first |
| Catalog.OrderedRows | src/avanza_mcp/instrument_catalog.py:349-391 | In a query result no row belongs before an earlier one by type, issuer and name |
| Catalog.Refresh | src/avanza_mcp/instrument_catalog.py:725-731 | A refresh installs a valid snapshot with matching counts or changes nothing; it installs the two complete upstream lists when their lengths are reported, and exactly when the pages suffice, the rows are valid and no statement raises |
| Screen.Eligible | src/avanza_mcp/services/leveraged_screen_service.py:399-441 | Keeps exactly the candidates that pass filters and suitability |
| Screen.CatalogCopyMatches | src/avanza_mcp/services/leveraged_screen_service.py:104-147 | For a request the catalog may answer, the catalog copy of a row passes filters and suitability exactly when the feed row does |
| Screen.GuardedFiltersRejectCatalog | src/avanza_mcp/services/leveraged_screen_service.py:132-147 | On a quote or turnover filter every catalog copy would be rejected, so the guard is needed |
| Screen.CatalogPathAgrees | src/avanza_mcp/services/leveraged_screen_service.py:966-995 | The catalog path yields exactly the wanted (type, id) pairs of the feed the catalog mirrors |
| Screen.FeedPathAgrees | src/avanza_mcp/services/leveraged_screen_service.py:1004-1058 | The feed path yields exactly the wanted pairs although upstream may push filters down |
| Screen.PassesIsAsked | src/avanza_mcp/services/leveraged_screen_service.py:399-441 | What filters and suitability decide on a candidate is what was asked of its item: leverage, turnover, spread and stop-loss distance by cross-multiplied prices, below for long and above for short |
| Screen.WantedIsAsked | src/avanza_mcp/services/leveraged_screen_service.py:937-1094 | A pair is wanted exactly when an upstream item of its family, underlying and direction was asked for |
| Screen.RankedCandidates | src/avanza_mcp/services/leveraged_screen_service.py:289-301 | In a ranked list no candidate belongs before an earlier one: two-sided quotes, smaller spread, larger turnover, names |
| Screen.LeveragedScreenService.RequestSizeFor | src/avanza_mcp/services/leveraged_screen_service.py:755-772 | The page size asked of one family is at least 1 |
| Screen.LeveragedScreenService.CatalogRows | src/avanza_mcp/services/leveraged_screen_service.py:966-991 | Catalog rows are used exactly for requests with structural filters only that the catalog does not fail on, and then all of them |
| Screen.LeveragedScreenService.FeedProducts | src/avanza_mcp/services/leveraged_screen_service.py:1004-1048 | The products collected from the feed contain exactly the wanted pairs of the families whose collector did not raise |
| Screen.LeveragedScreenService.ScreenProducts | src/avanza_mcp/services/leveraged_screen_service.py:937-1094 | Whichever path answers, the list contains exactly the wanted pairs (see `WantedIsAsked`), from the feed without families whose collector raised; every candidate reports the fields of an upstream item; no later one belongs before an earlier one; when the catalog answers; and the only error |
| Enrichment.Snapshot.AttemptBatch | src/avanza_mcp/services/leveraged_screen_service.py:1151-1202 | One batch: a failed batch changes nothing, an answered one appends a quote or an error per product and advances the cursor |
| Enrichment.Snapshot.RankAll | src/avanza_mcp/services/leveraged_screen_service.py:1206-1216 | Re-ages every row at one time and sorts the list in place |
| Enrichment.Snapshot.RefreshShortlist | src/avanza_mcp/services/leveraged_screen_service.py:1218-1255 | Substitutes answered shortlist rows by order-book id |
| Enrichment.Snapshot.Enrich | src/avanza_mcp/services/leveraged_screen_service.py:1145-1380 | A call that found its snapshot moves it by one step and returns the page that step exposes; `RankingLaws.EnrichAndRank` says on the same fields what the rows report and how they are ordered |
| Enrichment.LeveragedScreenService.Put | src/avanza_mcp/services/leveraged_screen_service.py:654-662 | Storing a snapshot drops exactly the expired ones |
| Enrichment.LeveragedScreenService.Get | src/avanza_mcp/services/leveraged_screen_service.py:664-677 | Finds exactly the snapshots that have not expired and drops the others |
| Enrichment.LeveragedScreenService.EnrichSnapshot | src/avanza_mcp/services/leveraged_screen_service.py:1122-1380 | Exactly the calls with arguments in range that name a live, matching snapshot are served; they move that snapshot alone, any other call moves none |
| EnrichmentProofs.CursorArithmetic | src/avanza_mcp/services/leveraged_screen_service.py:1145-1204 | After any calls the cursor is min(total, 300 * worker calls), the list is that long, and the scan completes after exactly ceil(total / 300) answered batches |
| EnrichmentProofs.PrefixUntilComplete | src/avanza_mcp/services/leveraged_screen_service.py:1151-1200 | Until completion the list extends the structural prefix product by product |
| EnrichmentProofs.RefreshConservesIff | src/avanza_mcp/services/leveraged_screen_service.py:1239-1255 | The final refresh keeps the products if and only if no answered shortlist row shares its id with another product |
| EnrichmentProofs.SharedIdLosesProduct | src/avanza_mcp/services/leveraged_screen_service.py:1252-1255 | An input on which the refresh loses a product |
| EnrichmentProofs.RunConserves | src/avanza_mcp/services/leveraged_screen_service.py:1182-1268 | With distinct ids the list stays a permutation of the attempted products and each carries a quote or an error, exactly one of them until the refresh |
| EnrichmentProofs.ReagingIsCompacting | src/avanza_mcp/services/leveraged_screen_service.py:177-261 | Re-aging a compacted quote equals compacting it at the new time |
| EnrichmentProofs.RankIdentifies | src/avanza_mcp/services/leveraged_screen_service.py:303-345 | The execution rank identifies the product in a universe with distinct ids |
| EnrichmentProofs.ProgressiveRefinesOnePass | src/avanza_mcp/services/leveraged_screen_service.py:1156-1268 | For every pattern of failed batches and refreshes the completed list is the whole universe enriched at once, aged at the last observation and sorted; what its rows report and which comes first is `RankingLaws.RowsCarryQuotes` and `RankingLaws.RankedByRule` |
| EnrichmentProofs.RefreshesOnce | src/avanza_mcp/services/leveraged_screen_service.py:1218-1274 | The head is re-fetched at most once per run, by the call that completes the scan |
| EnrichmentProofs.StaleStaysStale | src/avanza_mcp/services/leveraged_screen_service.py:231-261 | Across later calls with an advancing clock no product turns from stale to fresh |
| RankingLaws.RunIsMeaningful | src/avanza_mcp/services/leveraged_screen_service.py:63-261 | In every run a quote has a spread exactly for 0 < bid <= ask, and it is the difference in percent of the mean; ages are those at the observation; fresh means tradable and stamped at most 30 seconds before |
| RankingLaws.RowsCarryQuotes | src/avanza_mcp/services/leveraged_screen_service.py:1151-1268 | After completion every row carries prices, stamps and details of its own product's quote, aged at the last observation, or an error |
| RankingLaws.RankedByRule | src/avanza_mcp/services/leveraged_screen_service.py:303-345 | In every completed run each row comes before each later one: fresh, stale, untradable; leverage deviation when a target was given; smaller relative spread by cross-multiplied prices; age; turnover; names |
| RankingLaws.OnlyHeadIsRefreshed | src/avanza_mcp/services/leveraged_screen_service.py:1218-1255 | Exactly the first 25 rows are asked for again and each takes the answer to its own question |
| RankingLaws.HeadTakesNewQuotes | src/avanza_mcp/services/leveraged_screen_service.py:1204-1268 | The completing call ranks all rows, asks again for the first 25 of that ranking and ranks the rows with their new quotes |
| RankingLaws.EnrichAndRank | src/avanza_mcp/services/leveraged_screen_service.py:1122-1380 | A new snapshot that is given any calls: what its quotes mean, how its list is ordered, and which slice of it the last call returns |
| RankingPages.NothingBeforeCompletion | src/avanza_mcp/services/leveraged_screen_service.py:1346-1356 | No call exposes a row before exactly ceil(total / 300) batches have been answered; every later call exposes the asked slice of the full ranking |
| RankingPages.OvertakesExactly | src/avanza_mcp/services/leveraged_screen_service.py:303-345 | Two rows change places between two clock readings exactly when one lapses past the other, or starts to age before it, read off source stamps and times alone |
| RankingPages.OrderKeptIff | src/avanza_mcp/services/leveraged_screen_service.py:1204-1216 | The next call lists the products in the same order if and only if no row overtakes one ranked before it |
| RankingPages.PagesJoinIff | src/avanza_mcp/services/leveraged_screen_service.py:1204-1380 | Pages from one ranking and the rest from the next serve every product once at every change-over if and only if no row overtakes in between |
| RankingPages.NextCallJoinsIff | src/avanza_mcp/services/leveraged_screen_service.py:1204-1380 | The same over runs: the list after a completed run and after one more call |
| RankingPages.SteadyNobodyOvertakes | src/avanza_mcp/services/leveraged_screen_service.py:231-261 | Nobody overtakes over any number of calls if no row lapses in that time and no stamp lies in the future |
| RankingPages.FollowCovers | src/avanza_mcp/services/leveraged_screen_service.py:1204-1380 | While nobody overtakes, following `next_offset` call by call lists the products exactly once in the first page's order, although each page comes from a list ranked anew |
| RankingPages.LaterCallsExpose | src/avanza_mcp/services/leveraged_screen_service.py:1204-1380 | After completion the pages exposed by further calls are pages of the successive re-rankings |
| RankingPages.CompletedWalkCovers | src/avanza_mcp/services/leveraged_screen_service.py:1204-1380 | A caller of a completed snapshot that follows `next_offset` call by call gets every product exactly once while nobody overtakes |
| RankingPages.LapsedRowIsServedTwice | src/avanza_mcp/services/leveraged_screen_service.py:1204-1216 | A run on which a caller that follows `next_offset` gets one product twice and another never |
| Options.ScanExpiry | src/avanza_mcp/services/options_screen_service.py:567-605 | The scan returns the flattened scanned rows, and all rows if and only if neither a server cap nor a too small total cuts it |
| Options.FlattenMembers | src/avanza_mcp/services/options_screen_service.py:567-605 | A scan yields exactly the identified call and put sides of its rows with their name, strike and indicator |
| Options.DedupedMembers | src/avanza_mcp/services/options_screen_service.py:650-653 | The kept contracts are exactly the first occurrences |
| Options.DedupedCovers | src/avanza_mcp/services/options_screen_service.py:650-653 | No scanned id is lost by the dedupe |
| Options.DedupedUnique | src/avanza_mcp/services/options_screen_service.py:650-653 | No id occurs twice after the dedupe |
| Options.Dedupe | src/avanza_mcp/services/options_screen_service.py:650-653 | The dictionary loop computes the first-occurrence dedupe |
| Options.ChainIsEligible | src/avanza_mcp/services/options_screen_service.py:650-677 | The frozen chain holds exactly the first occurrences with an asked indicator and strike, each id once, ordered by expiry, option type, strike, indicator and name, ties in scan order |
| Options.Filter | src/avanza_mcp/services/options_screen_service.py:655-659 | The filter loop keeps exactly the matching contracts, in order |
| Options.ScanPairs | src/avanza_mcp/services/options_screen_service.py:629-648 | All pairs are scanned in order, and the row count tells whether a row was missed |
| Options.ScreenChain | src/avanza_mcp/services/options_screen_service.py:607-677 | The screened chain is the chain of every upstream contract whenever every scan is complete, and no later contract belongs before an earlier one |
| Options.BuildRanking | src/avanza_mcp/services/options_screen_service.py:721-797 | A market ranking is an arrangement of exactly the chain's contracts with their quotes, two-sided quotes first, then the smaller relative spread, the larger turnover and the contract, unless an answer raises |
| Options.RankingFollowsRule | src/avanza_mcp/services/options_screen_service.py:261-285 | In a cached ranking no later row belongs before an earlier one |
| Options.OptionsScreenService.PutChain | src/avanza_mcp/services/options_screen_service.py:397-403 | Storing a chain keeps cached rankings tied to the chains they rank |
| Options.OptionsScreenService.MarketPage | src/avanza_mcp/services/options_screen_service.py:766-829 | A page comes from a ranking of exactly the frozen chain, from the cache while it lives, and never after the source chain expired |
| Options.RankingPagesCoverChain | src/avanza_mcp/services/options_screen_service.py:825-829 | Following `next_offset` over one cached ranking lists each contract of the chain exactly once |
| BatchPath.RequestAuthenticatedBatch | src/avanza_mcp/client/base.py:601-648 | In whatever order the concurrent requests complete, response i answers path i |
| BatchPath.MarketBatchOperation | src/avanza_mcp/auth/worker.py:619-673 | A batch succeeds exactly when no response is unauthorised or unsafe, the first such response decides how it fails, and item i is the projection of response i |
| BatchPath.BatchDelegate.MarketDataBatch | src/avanza_mcp/auth/broker.py:358-422 | Only well-formed results of the right length pass, item i decodes item i, and exactly when the failure backoff is set, cleared or left alone |
| BatchPath.GetAuthenticatedMarketDataBatch | src/avanza_mcp/client/base.py:925-958 | The delegate's list is passed on exactly when it has one item per path; which error otherwise |
| BatchPath.GetOneByOne | src/avanza_mcp/client/base.py:960-974 | The fallback without a delegate is aligned too |
| BatchPath.Quotes | src/avanza_mcp/services/market_data_service.py:181-200 | Quote i is the recognised quote of payload i |
| BatchPath.PathNamesId | src/avanza_mcp/client/endpoints.py:85-88 | Every id has its own path, and the path names it |
| BatchPath.AuthenticatedQuotes | src/avanza_mcp/services/market_data_service.py:181-200 | Through all layers, whatever goes wrong on the way, the caller gets an error or exactly one quote per id, the i-th being the one an upstream that answers a path by the id it names holds for the i-th id; exactly when it gets the quotes; and which failures start the one-minute backoff |
| BatchPath.AnyFrameIsAligned | src/avanza_mcp/auth/broker.py:406-415 | Even an arbitrary frame from the worker yields no misaligned list |
| BatchPath.AsReply | src/avanza_mcp/services/leveraged_screen_service.py:1162-1172 | What enrichment sees is answered exactly when the batch is aligned, entry by entry, and nothing when a rejected frame raises |
| BatchPath.EnrichThroughLayers | src/avanza_mcp/services/leveraged_screen_service.py:1162-1200 | The strict zip never fails: exactly when nothing goes wrong a batch is answered, and then every row carries the prices and stamps upstream holds for its own product, or an error |
| Governor.AvanzaClient.NoteLimit | src/avanza_mcp/client/base.py:489-501 | Noting a 429 moves the cooldown, and nothing else, to the later of what it was and now plus the given seconds or the configured cooldown |
| Governor.RunIsSpaced | src/avanza_mcp/client/base.py:467-487 | Consecutive starts are an interval apart and the next start is held back from the last one |
| Governor.InFlightBounded | src/avanza_mcp/client/base.py:503-522 | In every run with cancellations at most `max_in_flight_requests` requests are in flight and only the sleeping task holds the pacing lock |
| Governor.StartsSpread | src/avanza_mcp/client/base.py:467-487 | Starts i and j of any run are at least (j - i) intervals apart |
| Governor.RateBound | src/avanza_mcp/client/base.py:467-487 | Any window W holds at most floor(W / interval) + 1 starts |
| Governor.CooldownHolds | src/avanza_mcp/client/base.py:467-501 | The cooldown never moves back and no later start precedes a cooldown already noted; which cooldown that is, `RateLimitHolds` and `RemembersHistory` say from the events |
| Governor.RateLimitHolds | src/avanza_mcp/client/base.py:489-501 | After a 429 at any point of any run no request starts before the time it was noted plus the seconds it gave, or plus the configured cooldown |
| Governor.RemembersHistory | src/avanza_mcp/client/base.py:467-501 | The two times the governor keeps are the latest end of a 429 of the history and the last start plus interval and jitter |
| Governor.StartsIffDue | src/avanza_mcp/client/base.py:467-487 | A task that looks at the clock starts if and only if every 429 so far and the pacing of the last start have passed; otherwise it sleeps holding the pacing lock |
| Governor.RequestRuns | src/avanza_mcp/client/base.py:503-522 | Progress: with the pacing lock free, a slot left and every hold passed, an arriving task is admitted, starts and leaves |
| Governor.HeldTaskStarts | src/avanza_mcp/client/base.py:467-487 | A task that was held back starts when it wakes after the last hold |
| Governor.AvanzaClient.Replay | src/avanza_mcp/client/base.py:467-522 | A client that runs any events: its starts are an interval apart, in-flight requests are bounded, it remembers exactly the latest 429 and the last start, and no start after a 429 precedes its time plus the given seconds or the cooldown |
| Sse.ReadLine | src/avanza_mcp/client/base.py:893-903 | One line of an open block updates event and data as the block's declarative reading does |
| Sse.LineMeans | src/avanza_mcp/client/base.py:893-900 | A line is a comment exactly when it starts with a colon; otherwise its field and value are what stands before the first colon and after it without one leading space |
| Sse.StripMeans | src/avanza_mcp/client/base.py:901-903 | Stripping removes white space at both ends and nothing else |
| Sse.LastEventWins | src/avanza_mcp/client/base.py:893-903 | The last event line of a block names its event |
| Sse.DataInOrder | src/avanza_mcp/client/base.py:893-903 | Each data line adds its value after the earlier ones; no other line adds any |
| Sse.ReadStream | src/avanza_mcp/client/base.py:883-907 | The line loop equals the declarative block parser |
| Sse.ReadOrderDepth | src/avanza_mcp/client/base.py:838-907 | The client's instance of the reader, for the event name ORDER_DEPTH |
| Sse.ParseInvertsSerialize | src/avanza_mcp/client/base.py:838-849 | Reading a serialised event list yields its first wanted event with its data lines joined by LF |
| Sse.AgreesWithStandardIff | src/avanza_mcp/client/base.py:883-907 | With the last block terminated, the reader agrees with the WHATWG standard exactly when the snapshot's block names the event exactly and carries data |
| Sse.AgreesAsReceivedIff | src/avanza_mcp/client/base.py:883-907 | On the stream as received the reader agrees with the standard exactly when there is no snapshot, or its block conforms and is not the unterminated last one |
| Sse.ProjectLevels | src/avanza_mcp/client/base.py:138-223 | At most `max_levels` levels; every side is complete and positive or absent; accepts exactly such input |
| BrowserObject.BrowserAuth.RestoreStored | src/avanza_mcp/auth/browser.py:240-258 | An invalid stored session is deleted; a validated one is saved and only then installed, and is in the fields and the store afterwards; a failed write leaves the session as it was |
| BrowserObject.BrowserAuth.Approve | src/avanza_mcp/auth/browser.py:309-320 | Approving creates a new current attempt and starts it outside the lock |
| BrowserObject.BrowserAuth.ApproveStarted | src/avanza_mcp/auth/browser.py:321-349 | A started or failed attempt counts only while it is still the current one |
| BrowserObject.BrowserAuth.Poll | src/avanza_mcp/auth/browser.py:351-388 | Polling collects for the attempt that is current when it looks |
| BrowserObject.BrowserAuth.FinishAttempt | src/avanza_mcp/auth/browser.py:479-515 | An attempt that is no longer current changes nothing; otherwise its session is saved before it is installed: after a successful save the fields hold it, the attempt is over and the state is connected, after a failed one there is no session |
| BrowserObject.BrowserAuth.Disconnect | src/avanza_mcp/auth/browser.py:405-420 | Session and attempt are forgotten before the stored session is touched |
| BrowserObject.BrowserAuth.FinishDisconnect | src/avanza_mcp/auth/browser.py:421-426 | Whatever the delete answers, the session stays forgotten |
| BrowserObject.BrowserAuth.InvalidateSession | src/avanza_mcp/auth/browser.py:195-200 | The session is forgotten before the stored one is touched |
| BrowserObject.BrowserAuth.EvictSession | src/avanza_mcp/auth/browser.py:541-560 | An idle session leaves memory and stays stored |
| BrowserObject.BrowserAuth.Cancel | src/avanza_mcp/auth/browser.py:390-403 | Cancelling drops the attempt and keeps an installed session |
| BrowserObject.BrowserAuth.KeepConnected | src/avanza_mcp/auth/browser.py:453-459 | Only an installed session is reported as connected |
| BrowserObject.BrowserAuth.CancelCall | src/avanza_mcp/auth/browser.py:209-258 | A cancelled call leaves the lock; a store write it was waiting for stays on its way |
| BrowserObject.BrowserAuth.DisconnectAndReplay | src/avanza_mcp/auth/browser.py:309-451 | The object that runs any events around a successful disconnect: until an approval creates an attempt its session and its store are empty and nothing was installed or saved |
| BrowserObject.BrowserAuth.SettleAttempt | src/avanza_mcp/auth/browser.py:494-507 | Settling leaves exactly the collected session, no attempt and the outcome |
| BrowserObject.BrowserAuth.Replay | src/avanza_mcp/auth/browser.py:209-560 | The object that runs any events: session, attempt and store end as the history tells |
| BrowserObject.BrowserAuth.CompleteLogin | src/avanza_mcp/auth/browser.py:351-515 | Any run, a poll that collects a session and any other calls around it: exactly when its attempt is still current at the lock, and the save succeeds, the fields hold the session, connected, no attempt, and the store holds it too |
| BrowserObject.BrowserAuth.CompleteRestore | src/avanza_mcp/auth/browser.py:209-258 | Any run and a restore with nobody logged in: the fields and the store end with what upstream says about the stored session |
| BrowserLaws.HistoryTells | src/avanza_mcp/auth/browser.py:209-560 | After every run the session is the last installed one unless a disconnect, invalidation, eviction, failed save or unsuccessful attempt ended it; the same for attempt and store |
| BrowserLaws.LoginCompletes | src/avanza_mcp/auth/browser.py:351-515 | In any run a session collected for an attempt that is still current when the poll gets the lock, and is saved, is installed and stored, whatever other calls do in between |
| BrowserLaws.SavedIsInstalled | src/avanza_mcp/auth/browser.py:494-507 | A saved session is installed; a failed save leaves no session |
| BrowserLaws.RestoreCompletes | src/avanza_mcp/auth/browser.py:209-258 | A whole restore ends with the validated session installed and stored, or with the invalid one deleted |
| BrowserLaws.RestoreFails | src/avanza_mcp/auth/browser.py:209-258 | A restore that cannot load or validate fails and changes nothing else |
| BrowserLaws.WholeLogin | src/avanza_mcp/auth/browser.py:260-388 | From any reachable state at rest, opening the page, approving and polling ends logged in, with one attempt, save and installation in the history |
| BrowserLaws.EvictionIsUndone | src/avanza_mcp/auth/browser.py:172-193 | After an eviction the next account read restores the stored session |
| BrowserLaws.AttemptTimesOut | src/avanza_mcp/auth/browser.py:517-539 | The timer of the current attempt ends it without a session; an old timer changes nothing |
| BrowserLaws.WholeDisconnection | src/avanza_mcp/auth/browser.py:405-451 | A disconnect at rest forgets session and attempt and deletes what is stored, or says that it failed to |
| BrowserLaws.WholeInvalidation | src/avanza_mcp/auth/browser.py:195-207 | An invalidation forgets the session and the stored one and keeps a running attempt |
| BrowserLaws.IdleDisconnectRestoresFirst | src/avanza_mcp/auth/browser.py:405-420 | A disconnect of an idle process restores the stored session before it goes on |
| BrowserLaws.CancelledWriteStays | src/avanza_mcp/auth/browser.py:209-258 | A cancelled call changes nothing but the lock, and exactly the store write it waited for stays on its way |
| BrowserProofs.RunKeepsInv | src/avanza_mcp/auth/browser.py:209-258 | The lock is held by exactly the call suspended inside it, and what that call relies on holds in every run, calls cancelled inside the lock included |
| BrowserProofs.DisconnectQuiets | src/avanza_mcp/auth/browser.py:405-451 | A disconnect whose delete succeeded leaves no session, no stored session and no call able to store one |
| BrowserProofs.DisconnectWins | src/avanza_mcp/auth/browser.py:309-451 | After it, in any interleaving until an approval creates a new attempt, nothing is installed, saved or stored if and only if no save of a call cancelled earlier is still on its way to the store |
| BrowserProofs.CancelledSaveUndoesDisconnect | src/avanza_mcp/auth/browser.py:209-258 | A run on which a restore cancelled while it saves undoes a later disconnect |
| BrowserProofs.ReplacedStaysOut | src/avanza_mcp/auth/browser.py:479-507 | A replaced attempt never becomes current again, and never installs or saves a session if and only if no save it started before its call was cancelled is still on its way |
| BankId.BankIDClient.Request | src/avanza_mcp/client/bankid.py:325-367 | A request is refused or sent with the timeout bounded by the attempt |
| BankId.CancelIsFinal | src/avanza_mcp/client/bankid.py:197-222 | Once cancelled, no pending or later call returns a value or a session in any interleaving |
| BankId.RequestsEndByDeadline | src/avanza_mcp/client/bankid.py:325-367 | Every attempt-bounded request ends by the attempt deadline and within the request timeout |
| BankId.TimelyStep | src/avanza_mcp/client/bankid.py:143-158 | The deadline, once set, never moves |
| BankId.CleanupOutlastsStale | src/avanza_mcp/client/bankid.py:197-262 | A cancel that takes effect, or a logout, does not return or raise in any run before every call that was in flight at its start has ended |
| BankIdLaws.VerifiedIff | src/avanza_mcp/client/bankid.py:264-323 | A session is handed out exactly for an answer that shows a verified customer to a call that asks for it, while nothing is cancelled or closed |
| BankIdLaws.SessionsAreVerified | src/avanza_mcp/client/bankid.py:264-323 | In every run every session handed out comes from such an answer |
| BankIdLaws.RequestsEndInTime | src/avanza_mcp/client/bankid.py:325-367 | Every request is sent with exactly its own timeout or what is left of the attempt, whichever ends first |
| BankIdLaws.TimeoutFires | src/avanza_mcp/client/bankid.py:325-367 | A timeout raises when that time is over and not before |
| BankIdLaws.CleanupNamesInFlight | src/avanza_mcp/client/bankid.py:197-262 | A cleanup waits for exactly the calls whose requests are in flight, and tells upstream if there is a transaction |
| BankIdLaws.WholeLogin | src/avanza_mcp/client/bankid.py:143-182 | Starting, polling to completion and showing a verified customer, at once or after selecting the single customer, hands out the session |
| BankIdLaws.WholeCancel | src/avanza_mcp/client/bankid.py:197-262 | A cancel or logout at rest tells upstream and then its caller |
| BankId.BankIDClient.CancelAndReplay | src/avanza_mcp/client/bankid.py:143-367 | A client that runs any events: nothing logged after a cancel gives a value or a session, and bounded requests end by the deadline |
| WorkerPipe.WorkerSlot.RetireUncertainWorker | src/avanza_mcp/auth/broker.py:691-707 | Retiring clears the slot that holds the worker |
| WorkerPipe.WorkerSlot.WriteCommand | src/avanza_mcp/auth/broker.py:709-722 | Writing a command leaves exactly one frame outstanding |
| WorkerPipe.WorkerSlot.ReadFrame | src/avanza_mcp/auth/broker.py:723-743 | A read frame is returned or its worker is retired |
| WorkerPipe.WorkerSlot.LiveProcess | src/avanza_mcp/auth/broker.py:591-598 | A dead process leaves the slot, a live one is used |
| WorkerPipe.RunKeepsInv | src/avanza_mcp/auth/broker.py:570-589 | The invariant behind it, over every run with repeated cancellations, timeouts, closed pipes and bad frames |
| WorkerPipe.NoStaleFrame | src/avanza_mcp/auth/broker.py:691-743 | Every frame a call reads answers the command it wrote, and a worker in a slot whose lock is free owes no frame |
| WorkerPipe.UncertainNeverReturns | src/avanza_mcp/auth/broker.py:691-743 | A worker whose answer failed or was invalid is never in the slot, used by a call or sent a command again, in any later run |
| WorkerPipe.FrameIsRead | src/avanza_mcp/auth/broker.py:723-743 | A frame that has arrived is read and recorded for its command; an invalid one retires the worker |
| WorkerPipe.RoundTrip | src/avanza_mcp/auth/broker.py:709-743 | A call that finds the lock free gets the frame for its own command from the slot's worker or a new one, and leaves the worker in the slot and the lock free |
| WorkerPipe.WorkerSlot.Replay | src/avanza_mcp/auth/broker.py:691-743 | A slot that runs any events: every frame read answers its own command, and a worker in the slot owes nothing while the lock is free |
| BrokerObject.AuthProcessBroker.Enter | src/avanza_mcp/auth/broker.py:251-263 | Entering an operation, with the gate for a pending disconnect |
| BrokerObject.AuthProcessBroker.StopMarketDaemon | src/avanza_mcp/auth/broker.py:600-606 | Taking the market worker out of its slot |
| BrokerObject.AuthProcessBroker.StartWorker | src/avanza_mcp/auth/broker.py:514-526 | Starting a once or UI worker unless a UI worker is live |
| BrokerObject.AuthProcessBroker.PersistentMarketCommand | src/avanza_mcp/auth/broker.py:570-577 | Using the live market worker or clearing a dead one |
| BrokerObject.AuthProcessBroker.SpawnMarketDaemon | src/avanza_mcp/auth/broker.py:573-577 | The spawned market worker enters the slot |
| BrokerProofs.RunKeepsInv | src/avanza_mcp/auth/broker.py:251-263 | Locks, slots, running commands and the disconnect gate stay consistent in every run, lingering workers included |
| BrokerProofs.Exclusion | src/avanza_mcp/auth/broker.py:117-125 | While a disconnect UI is live no gated call is past its check and no other worker executes a command or holds material, an awaited account worker excludes market commands, and the two locks nest so that they cannot deadlock |
| BrokerProofs.DeletionQuiets | src/avanza_mcp/auth/broker.py:563-613 | When a disconnect UI worker deletes the stored session no other alive worker has material it could write back |
| BrokerProofs.DeletedStaysDeleted | src/avanza_mcp/auth/broker.py:117-125 | After that the store stays empty and no worker saves a session, in any interleaving with cancellations, timeouts and lingering workers, until somebody logs in |
| BrokerLaws.HistoryTells | src/avanza_mcp/auth/broker.py:117-131 | After every run the store holds what a worker wrote last |
| BrokerLaws.StepWrites | src/avanza_mcp/auth/worker.py:688-811 | Exactly which worker steps write to the store, what they write and what the history records |
| BrokerLaws.WholeAccountRead | src/avanza_mcp/auth/broker.py:251-276 | An account read at rest runs one worker, which loads the stored session, saves the refreshed one and is dead afterwards |
| BrokerLaws.WholeLogin | src/avanza_mcp/auth/broker.py:106-115 | A login through the UI worker stores its session |
| BrokerLaws.WholeDisconnect | src/avanza_mcp/auth/broker.py:117-131 | The disconnect UI worker deletes the stored session, and while it is live account and market reads are refused without a worker |
| BrokerLaws.WholeMarketRead | src/avanza_mcp/auth/broker.py:570-589 | A market read at rest starts a market worker and keeps it in the slot |
| BrokerLaws.MarketWorkerIsReused | src/avanza_mcp/auth/broker.py:570-598 | The next market read uses that worker and starts no other |
| BrokerLaws.MarketWorkerIsStopped | src/avanza_mcp/auth/broker.py:600-611 | Any other operation first takes the market worker out of its slot and ends it |
| BrokerLaws.FailedWorkerIsRetired | src/avanza_mcp/auth/broker.py:691-707 | A worker whose answer fails to come leaves its slot at once and is dead when its end has been awaited |
| BrokerObject.AuthProcessBroker.Replay | src/avanza_mcp/auth/broker.py:90-131 | The object that runs any events: its store ends as the workers' writes tell |
| BrokerObject.AuthProcessBroker.DeleteAndReplay | src/avanza_mcp/auth/broker.py:117-125 | The object that runs any events around a deletion: until somebody logs in its store is empty and nothing was saved |
| Daemon.Answer | src/avanza_mcp/auth/worker.py:1083-1140 | One command line, command by command: its frame, that only a successful account read and in memory-only mode a successful market read count as use, and what ends the daemon |
| Daemon.FirstSeen | src/avanza_mcp/auth/worker.py:1054-1061 | The start of the unbroken stretch of turns that saw the current session |
| Daemon.Observe | src/avanza_mcp/auth/worker.py:1054-1061 | Both timers start at the first sighting of a session and are dropped when there is none |
| Daemon.RunDaemon | src/avanza_mcp/auth/worker.py:1032-1148 | The loop dispatches and emits exactly the history of its turns up to the first reason to stop, with both timers read off the history, and disconnects exactly a session that is left |
| Daemon.StartDaemon | src/avanza_mcp/auth/worker.py:1032-1035 | Exactly the two daemon modes are served; any other gets one refusal |
| Daemon.LastUseIsLatest | src/avanza_mcp/auth/worker.py:1043-1061 | Last use is the latest successful account read, or market read in memory-only mode, of the session, or its first sighting |
| Daemon.Lifetimes | src/avanza_mcp/auth/worker.py:1009-1029 | Every dispatched command found no session, or one used within two hours and seen within sixteen (memory-only) or used within five minutes (one-shot), and is answered by exactly one frame |
| Daemon.OneShotLifetime | src/avanza_mcp/auth/worker.py:1009-1070 | A one-shot session is used only within five minutes of being first seen |
| Daemon.OneShotOnce | src/avanza_mcp/auth/worker.py:1110-1122 | A one-shot daemon emits at most one successful account frame, as its last |
| Daemon.IdleReadsNeverExtend | src/avanza_mcp/auth/worker.py:1123-1146 | Replacing silence, garbage, browser pages, status and health probes, order-depth reads, unknown actions and refused or failed reads by one another never changes when the daemon ends |
| Daemon.OrderDepthIsSilence | src/avanza_mcp/auth/worker.py:1137-1148 | One order-depth read, probe or failed read might as well not have been there |
| Daemon.EndsExactly | src/avanza_mcp/auth/worker.py:1009-1148 | Everything that ends a daemon: the parent, two hours or five minutes without use, sixteen hours, the end of the input, a shutdown, the one-shot account read; it goes through exactly the turns before |
| Daemon.UsesExtend | src/avanza_mcp/auth/worker.py:1110-1136 | A use keeps a memory-only session from its own completion on |
| Daemon.SessionsAtEnd | src/avanza_mcp/auth/worker.py:1044-1148 | Which session a daemon that ends disconnects |
| Workers.RunOnce | src/avanza_mcp/auth/worker.py:688-811 | Case by case over loading, validation and outcomes: the one frame, the operations, the saves and the deletes of a read, and the same record with its own report for a health probe |
| Workers.LoadValidatedMarketSession | src/avanza_mcp/auth/worker.py:866-890 | Yields a session exactly when one is stored, verified and, where changed, saved; which writes happen and which code is reported |
| Workers.MarketDaemon.EnsureSession | src/avanza_mcp/auth/worker.py:904-939 | A session verified less than 15 minutes before is kept untouched, otherwise exactly a verified one is installed with the time of its check or nothing is held and the reason is told; session holder and client come and go together |
| Workers.MarketDaemon.Operate | src/avanza_mcp/auth/worker.py:980-985 | An expired session leaves its holder, any other outcome keeps it |
| Workers.MarketDaemon.Handle | src/avanza_mcp/auth/worker.py:955-1003 | One line has exactly the specified frame, operations and effect on the held session |
| Workers.MarketDaemon.Serve | src/avanza_mcp/auth/worker.py:941-1003 | The loop answers exactly the lines up to the first shutdown, one frame each, with the operations of the specification |
| Workers.HeldIsVerified | src/avanza_mcp/auth/worker.py:904-939 | In every run a held session was verified at the recorded time by a check of one of the lines |
| Workers.ServedByLine | src/avanza_mcp/auth/worker.py:941-1003 | Line i of a sequence is answered from what the lines before it left |
| Workers.LinesAreServed | src/avanza_mcp/auth/worker.py:955-1003 | In every command sequence a line is answered by one frame after at most two operations, the second on a session its forced check has just verified, and a payload comes from the operation that ran last |
| Workers.ReadsUseHeldOrChecked | src/avanza_mcp/auth/worker.py:904-985 | A market read uses a session verified less than 15 minutes before without looking at the store, otherwise the one its own check verifies, or is refused with that check's reason |
| Workers.ExpiryIsRetriedOnce | src/avanza_mcp/auth/worker.py:986-1000 | An expired operation is repeated once with the session a forced check verifies; its outcome or the check's reason is told |
| Workers.VerifiedIsHeld | src/avanza_mcp/auth/worker.py:904-985 | A verified session that is not found expired is held for the next line with the time of its verification |
| Workers.UsesAreVerified | src/avanza_mcp/auth/worker.py:904-985 | Over any command sequence every operation uses a session that a check of this or an earlier line verified less than 15 minutes before the operation's own check |

## Left out

- HTTP, TLS, cookies, subprocess creation, keyring backends, file locks, SQL text, full-text search and JSON decoding: replaced by answers that may also fail.
- Overlapping `enrich_snapshot` calls on one snapshot: there is no lock across its await, so calls on one snapshot are taken one after the other.
- Overlapping rebuilds of one market ranking, and calls racing `aclose`: outside the runs considered.
- `status` and `health_status` of the broker: they are not gated, so they are not part of the cross-process runs.
- Oversize frames: `readline` raises an error that `_command` does not catch; frames are taken to fit the pipe limit.
- A failed or cancelled spawn is taken to leave no child, in the broker model.
- A second cancellation of one broker call while it waits for a once or market worker that was sent a command to end.
- The memory-only mode of the broker: its daemon slot follows the same pipe protocol as the market slot.
- The connect UI's own disconnect button across processes: only the disconnect UI removes a stored session in the broker model.
- Error codes, messages, the QR image and the loopback listener's HTTP routes of the browser flow.
- Governor.StartsSpread: a start is the moment `_pace_request_start` returns; the request itself is sent after it.
- Workers.RunOnce: the `status` action, which is the browser model's `restore`, and the diagnostic code of a failed health probe.
- Catalog.InstrumentCatalog.FindByUnderlying: the case-insensitive collation of its order.
- Sse.ReadStream: the data's JSON is not decoded.
- Enrichment.LeveragedScreenService.EnrichSnapshot: a batch whose frame the broker rejects raises through the call; a worker that answers as modelled sends no such frame.
- Enrichment.Snapshot.Enrich: prices are rationals; rounding of spreads and ages, not-a-number and time zones are not modelled.
- Upstream.CollectProducts: a list that changes between pages.
- Forum client and forum daemon, account projections, endpoint expressions, diagnostic whitelists, response models, prompts and tool texts: the same shapes as above or long, shallow case lists.
