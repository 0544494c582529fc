/**
The local instrument catalog and its refresh (`instrument_catalog.py`).

The SQLite file is a table of rows with a primary key plus a metadata record; a
transaction rewrites both in place and is then committed or rolled back.  Any statement
of `replace_all` may fail, and any attempt to read an upstream page may be rate
limited or fail.
*/
module Catalog {
  import opened Wrappers
  import opened Order
  import opened Paging
  import opened Upstream

  const PAGE_SIZE: nat := 100
  const RATE_LIMIT_ATTEMPTS: nat := 4
  const RATE_LIMIT_FALLBACK_SECONDS: nat := 5
  const MAX_RATE_LIMIT_DELAY_SECONDS: nat := 60

  // ---- one page, with retries ----

  datatype Attempt = Served | RateLimited(retryAfter: Option<nat>) | Broken(reason: string)

  function RetryDelay(attempt: nat, retryAfter: Option<nat>): int {
    var delay := if retryAfter.Some? then retryAfter.value else RATE_LIMIT_FALLBACK_SECONDS * (attempt + 1);
    Max(1, Min(delay, MAX_RATE_LIMIT_DELAY_SECONDS))
  }

  /** The page is served: one of the first four attempts answers and all earlier ones were rate limited. */
  ghost predicate EventuallyServed(attempts: nat -> Attempt) {
    exists k: nat :: k < 4 && attempts(k).Served? && forall i: nat | i < k :: attempts(i).RateLimited?
  }

  /**
  Retry on explicit rate limiting only, at most three times, sleeping between one
  second and a minute before each retry.
  */
  method WithRateLimitRetry(attempts: nat -> Attempt) returns (r: Result<(), string>, slept: seq<int>)
    ensures r.Ok? <==> EventuallyServed(attempts)
    ensures |slept| <= 3
    ensures forall i: nat | i < |slept| :: attempts(i).RateLimited? && 1 <= slept[i] <= 60
    ensures forall i: nat | i < |slept| ::
              match attempts(i).retryAfter
              case Some(seconds) => slept[i] == if seconds < 1 then 1 else if seconds > 60 then 60 else seconds
              case None => slept[i] == 5 * (i + 1)
    ensures r.Err? ==> attempts(|slept|).Broken? || (|slept| == 3 && attempts(3).RateLimited?)
  {
    slept := [];
    for attempt := 0 to RATE_LIMIT_ATTEMPTS
      invariant |slept| == attempt
      invariant forall i: nat | i < attempt :: attempts(i).RateLimited? && slept[i] == RetryDelay(i, attempts(i).retryAfter)
      invariant attempt < RATE_LIMIT_ATTEMPTS
    {
      match attempts(attempt)
      case Served =>
        return Ok(()), slept;
      case Broken(reason) =>
        return Err(reason), slept;
      case RateLimited(retryAfter) =>
        if attempt + 1 >= RATE_LIMIT_ATTEMPTS {
          return Err("rate_limited"), slept;
        }
        slept := slept + [RetryDelay(attempt, retryAfter)];
    }
    assert false;
    r := Err("unreachable rate-limit retry state");
  }

  /** An upstream family list whose pages may fail: attempt `k` at `offset` ends as `outcome(offset, k)`. */
  datatype Family<T> = Family(server: Server<T>, outcome: (nat, nat) -> Attempt)

  function AttemptsAt<T>(family: Family<T>, offset: nat): nat -> Attempt {
    (k: nat) => family.outcome(offset, k)
  }

  method FetchPage<T>(family: Family<T>, offset: nat) returns (r: Result<Response<T>, string>)
    ensures r.Ok? <==> EventuallyServed(AttemptsAt(family, offset))
    ensures r.Ok? ==> r.value == family.server.Fetch(offset, 100)
  {
    var served, _ := WithRateLimitRetry(AttemptsAt(family, offset));
    match served
    case Ok(_) => r := Ok(family.server.Fetch(offset, PAGE_SIZE));
    case Err(e) => r := Err(e);
  }

  /** The page sizes with which `_collect_family` can read the whole list. */
  predicate Collectable<T>(server: Server<T>) {
    server.cap >= 100 || |server.list| <= 2 * server.cap
  }

  ghost predicate AllServed<T>(family: Family<T>) {
    forall offset: nat :: EventuallyServed(AttemptsAt(family, offset))
  }

  /** No response reports the length of the list. */
  ghost predicate NeverReports<T>(server: Server<T>) {
    forall offset: nat :: !server.reports(offset)
  }

  /** How far a family is read when every page can be. */
  function Reach<T>(server: Server<T>): nat {
    if server.cap >= PAGE_SIZE then |server.list| else Min(2 * server.cap, |server.list|)
  }

  /** The pages after a full first page of a list whose length is known. */
  method FullPages<T(==)>(family: Family<T>, total: nat) returns (r: Result<seq<T>, string>)
    requires family.server.cap >= PAGE_SIZE && total == |family.server.list| >= PAGE_SIZE
    ensures r.Ok? ==> r.value == family.server.list
    ensures AllServed(family) ==> r.Ok?
  {
    var list := family.server.list;
    var items := list[..PAGE_SIZE];
    var offset := PAGE_SIZE;
    while offset < total
      invariant items == list[..Min(offset, |list|)]
    {
      var response := FetchPage(family, offset);
      if response.Err? {
        return Err(response.error);
      }
      SlicesJoin(list, offset, PAGE_SIZE);
      items := items + response.value.items;
      offset := offset + PAGE_SIZE;
    }
    assert list[..|list|] == list;
    r := Ok(items);
  }

  /** The pages after the first one, one after the other until a short one. */
  method PagesInTurn<T(==)>(family: Family<T>, first: Response<T>) returns (r: Result<(seq<T>, Option<nat>), string>)
    requires first == family.server.Fetch(0, PAGE_SIZE) && (first.total.Some? ==> |first.items| != PAGE_SIZE)
    ensures r.Ok? ==> r.value.0 <= family.server.list && (r.value.1.Some? ==> r.value.1.value == |family.server.list|)
    ensures r.Ok? && family.server.reports(0) ==> r.value.1.Some?
    ensures r.Ok? && NeverReports(family.server) ==> r.value.1.None?
    ensures AllServed(family) ==> r.Ok? && r.value.0 == family.server.list[..Reach(family.server)]
  {
    var list, step := family.server.list, Min(family.server.cap, PAGE_SIZE);
    var items, total := first.items, first.total;
    var offset, page := |items|, items;
    assert items == list[..offset];
    while page != [] && (total.None? || offset < total.value)
      invariant offset <= |list| && items == list[..offset]
      invariant family.server.reports(0) ==> total.Some?
      invariant total.Some? ==> total.value == |list|
      invariant NeverReports(family.server) ==> total.None?
      invariant page == [] ==> offset == 0 == Reach(family.server)
      invariant offset == |page| == Min(step, |list|) || family.server.cap >= PAGE_SIZE
      decreases |list| - offset
    {
      var response := FetchPage(family, offset);
      if response.Err? {
        return Err(response.error);
      }
      page := response.value.items;
      if page == [] {
        break;
      }
      SlicesJoin(list, offset, step);
      items := items + page;
      if response.value.total.Some? {
        total := response.value.total;
      }
      offset := offset + |page|;
      if |page| < PAGE_SIZE {
        break;
      }
    }
    r := Ok((items, total));
  }

  /**
  One family.  The result is a prefix of the list, and all of it or an error when the
  first page reports the list's length.  With every page readable it is the whole list
  exactly when the server serves full pages or the list fits in two of its pages; a
  longer list that never reports its length is silently cut after two pages.
  */
  method CollectFamily<T(==)>(family: Family<T>) returns (r: Result<(seq<T>, Option<nat>), string>)
    ensures r.Ok? ==> r.value.0 <= family.server.list
    ensures r.Ok? && family.server.reports(0) ==> r.value.0 == family.server.list
    ensures AllServed(family) ==> (r.Ok? && r.value.0 == family.server.list <==> Collectable(family.server))
    ensures AllServed(family) && NeverReports(family.server) && !Collectable(family.server) ==>
              r.Ok? && r.value.0 == family.server.list[..2 * family.server.cap]
    ensures !EventuallyServed(AttemptsAt(family, 0)) ==> r.Err?
  {
    var first := FetchPage(family, 0);
    if first.Err? {
      return Err(first.error);
    }
    var items: seq<T>, total: Option<nat> := [], first.value.total;
    if total.Some? && |first.value.items| == PAGE_SIZE {
      var full := FullPages(family, total.value);
      if full.Err? {
        return Err(full.error);
      }
      items := full.value;
    } else {
      var read := PagesInTurn(family, first.value);
      if read.Err? {
        return Err(read.error);
      }
      items, total := read.value.0, read.value.1;
    }
    if total.Some? && |items| != total.value {
      return Err("Incomplete catalog fetch");
    }
    r := Ok((items, total));
  }

  // ---- rows ----

  datatype ProductType = Certificate | Warrant

  /** An upstream filter row; absent JSON fields are `None`. */
  datatype Item = Item(orderBookId: Option<string>, name: Option<string>, direction: Option<string>,
                       issuer: Option<string>, subType: Option<string>, underlyingId: Option<string>,
                       leverage: Option<real>, stopLoss: Option<real>, buyPrice: Option<real>,
                       sellPrice: Option<real>, totalValueTraded: Option<real>)

  /** A structural catalog row; it carries no prices and no turnover. */
  datatype Row = Row(productType: ProductType, orderBookId: string, name: string, direction: string,
                     issuer: string, subType: Option<string>, underlyingId: Option<string>,
                     leverage: Option<real>, stopLoss: Option<real>)

  function OrEmpty(s: Option<string>): string {
    if s.Some? then s.value else ""
  }

  function NormalizeItem(item: Item, productType: ProductType): Row {
    Row(productType, OrEmpty(item.orderBookId), OrEmpty(item.name), OrEmpty(item.direction),
        OrEmpty(item.issuer), item.subType, item.underlyingId, item.leverage, item.stopLoss)
  }

  /** The row of an item: its structural fields as they are, and an empty text where a mandatory one is absent. */
  predicate Describes(row: Row, item: Item, productType: ProductType) {
    && row.productType == productType
    && (match item.orderBookId case Some(id) => row.orderBookId == id case None => row.orderBookId == "")
    && (match item.name case Some(name) => row.name == name case None => row.name == "")
    && (match item.direction case Some(direction) => row.direction == direction case None => row.direction == "")
    && (match item.issuer case Some(issuer) => row.issuer == issuer case None => row.issuer == "")
    && row.subType == item.subType && row.underlyingId == item.underlyingId
    && row.leverage == item.leverage && row.stopLoss == item.stopLoss
  }

  predicate IsDecimal(id: string) {
    id != "" && forall c | c in id :: '0' <= c <= '9'
  }

  predicate IsBlank(s: string) {
    forall c | c in s :: IsSpace(c)
  }

  function RowKey(row: Row): (ProductType, string) {
    (row.productType, row.orderBookId)
  }

  predicate UniqueKeys(rows: seq<Row>) {
    forall i, j | 0 <= i < j < |rows| :: RowKey(rows[i]) != RowKey(rows[j])
  }

  predicate ValidRows(rows: seq<Row>) {
    && (forall row | row in rows :: IsDecimal(row.orderBookId) && !IsBlank(row.name))
    && UniqueKeys(rows)
  }

  method ValidateRows(rows: seq<Row>) returns (r: Result<(), string>)
    ensures r.Ok? <==> ValidRows(rows)
    ensures r.Ok? <==>
            && (forall row | row in rows ::
                  row.orderBookId != "" && (forall c | c in row.orderBookId :: '0' <= c <= '9')
                  && exists c :: c in row.name && !IsSpace(c))
            && (forall i, j | 0 <= i < j < |rows| ::
                  rows[i].productType != rows[j].productType || rows[i].orderBookId != rows[j].orderBookId)
  {
    var seen: set<(ProductType, string)> := {};
    for i := 0 to |rows|
      invariant forall j | 0 <= j < i :: IsDecimal(rows[j].orderBookId) && !IsBlank(rows[j].name)
      invariant seen == set j | 0 <= j < i :: RowKey(rows[j])
      invariant UniqueKeys(rows[..i])
    {
      var row := rows[i];
      if !IsDecimal(row.orderBookId) {
        assert row in rows;
        return Err("Catalog order_book_id must contain only ASCII numeric digits");
      }
      if IsBlank(row.name) {
        assert row in rows;
        return Err("Catalog instrument name must not be empty");
      }
      if RowKey(row) in seen {
        return Err("Duplicate catalog instrument");
      }
      seen := seen + {RowKey(row)};
    }
    assert rows[..|rows|] == rows;
    r := Ok(());
  }

  // ---- the catalog file ----

  datatype Meta = Meta(refreshedAt: int, rowCount: nat, certificateCount: nat, warrantCount: nat)

  function OfType(rows: seq<Row>, productType: ProductType): seq<Row> {
    if rows == [] then []
    else (if rows[0].productType == productType then [rows[0]] else []) + OfType(rows[1..], productType)
  }

  /** The metadata of a table: its counts are the counts of its rows. */
  function MetaOf(rows: seq<Row>, refreshedAt: int): Meta {
    Meta(refreshedAt, |rows|, |OfType(rows, Certificate)|, |OfType(rows, Warrant)|)
  }

  /** Where a transaction may raise. */
  datatype Statement = Connect | Schema | Begin | DeleteRows | InsertRow(index: nat) | FullText | Metadata | Commit

  class InstrumentCatalog {
    var rows: seq<Row>
    var meta: Option<Meta>
    /** What the file holds outside a transaction. */
    var committed: (seq<Row>, Option<Meta>)

    /** No transaction is open, keys are unique, and the metadata, once written, counts the rows. */
    ghost predicate Valid()
      reads this
    {
      && committed == (rows, meta) && UniqueKeys(rows)
      && (if meta.None? then rows == [] else meta.value == MetaOf(rows, meta.value.refreshedAt))
    }

    constructor ()
      ensures Valid() && rows == [] && meta == None
    {
      rows, meta, committed := [], None, ([], None);
    }

    method Commit()
      modifies this`committed
      ensures committed == (rows, meta)
    {
      committed := (rows, meta);
    }

    method Rollback()
      modifies this`rows, this`meta
      ensures (rows, meta) == committed
    {
      rows, meta := committed.0, committed.1;
    }

    /**
    Replace everything or nothing: the new table is committed only if the rows are
    valid and no statement raises; otherwise the old table and metadata remain.
    */
    method ReplaceAll(newRows: seq<Row>, refreshedAt: int, raises: Statement -> bool) returns (r: Result<Meta, string>)
      requires Valid()
      modifies this
      ensures Valid()
      ensures r.Ok? <==> ValidRows(newRows) && !AnyRaises(raises, |newRows|)
      ensures r.Ok? ==> rows == newRows && meta == Some(r.value) && r.value == MetaOf(newRows, refreshedAt)
      ensures r.Err? ==> rows == old(rows) && meta == old(meta)
    {
      var valid := ValidateRows(newRows);
      if valid.Err? {
        return Err(valid.error);
      }
      if raises(Connect) {
        return Err("sqlite error");
      }
      var done := Rewrite(newRows, refreshedAt, raises);
      if done && !raises(Statement.Commit) {
        Commit();
        r := Ok(MetaOf(newRows, refreshedAt));
      } else {
        Rollback();
        r := Err("sqlite error");
      }
    }

    /** The statements of the transaction; when one raises, the table is left half rewritten. */
    method Rewrite(newRows: seq<Row>, refreshedAt: int, raises: Statement -> bool) returns (done: bool)
      modifies this`rows, this`meta
      ensures done <==>
              && !raises(Schema) && !raises(Begin) && !raises(DeleteRows) && !raises(FullText) && !raises(Metadata)
              && forall i: nat | i < |newRows| :: !raises(InsertRow(i))
      ensures done ==> rows == newRows && meta == Some(MetaOf(newRows, refreshedAt))
    {
      if raises(Schema) || raises(Begin) || raises(DeleteRows) {
        return false;
      }
      rows := [];
      for i := 0 to |newRows|
        invariant rows == newRows[..i]
        invariant forall j: nat | j < i :: !raises(InsertRow(j))
      {
        if raises(InsertRow(i)) {
          return false;
        }
        rows := rows + [newRows[i]];
      }
      if raises(FullText) || raises(Metadata) {
        return false;
      }
      meta := Some(MetaOf(newRows, refreshedAt));
      done := true;
    }

    /** Rows of one underlying, in one direction if one is given, ordered, at most `limit` of them. */
    method FindByUnderlying(underlyingId: string, direction: Option<string>, types: set<ProductType>, limit: nat)
      returns (r: Result<seq<Row>, string>)
      ensures r.Ok? <==> IsDecimal(underlyingId) && limit >= 1
      ensures r.Ok? ==>
                var all := Ordered(Selected(rows, underlyingId, direction, types));
                r.value == all[..Min(limit, |all|)]
      ensures r.Ok? ==> |r.value| <= limit && forall row | row in r.value ::
                row in rows && row.underlyingId == Some(underlyingId)
                && (direction.Some? ==> row.direction == direction.value) && (types == {} || row.productType in types)
      ensures r.Ok? && |r.value| < limit ==> forall row |
                row in rows && row.underlyingId == Some(underlyingId)
                && (direction.Some? ==> row.direction == direction.value) && (types == {} || row.productType in types)
                :: row in r.value
      ensures r.Ok? ==> forall i, j | 0 <= i < j < |r.value| :: !RowBefore(r.value[j], r.value[i])
    {
      if !IsDecimal(underlyingId) {
        return Err("underlying_order_book_id must contain only ASCII numeric digits");
      }
      if limit < 1 {
        return Err("limit must be at least 1");
      }
      var all := Ordered(Selected(rows, underlyingId, direction, types));
      LimitIsCount(rows, underlyingId, direction, types);
      OrderedRows(Selected(rows, underlyingId, direction, types));
      var first := all[..Min(limit, |all|)];
      assert |all| < limit ==> first == all;
      assert forall row | row in first :: row in all;
      r := Ok(first);
    }

    method CountByUnderlying(underlyingId: string, direction: Option<string>, types: set<ProductType>)
      returns (r: Result<nat, string>)
      ensures r.Ok? <==> IsDecimal(underlyingId)
      ensures r.Ok? ==> r.value == |Selected(rows, underlyingId, direction, types)|
    {
      if !IsDecimal(underlyingId) {
        return Err("underlying_order_book_id must contain only ASCII numeric digits");
      }
      r := Ok(|Selected(rows, underlyingId, direction, types)|);
    }
  }

  ghost predicate AnyRaises(raises: Statement -> bool, n: nat) {
    || raises(Connect) || raises(Schema) || raises(Begin) || raises(DeleteRows)
    || raises(FullText) || raises(Metadata) || raises(Commit)
    || exists i: nat :: i < n && raises(InsertRow(i))
  }

  predicate Selects(row: Row, underlyingId: string, direction: Option<string>, types: set<ProductType>) {
    && row.underlyingId == Some(underlyingId) && (direction.Some? ==> row.direction == direction.value)
    && (types == {} || row.productType in types)
  }

  function Selected(rows: seq<Row>, underlyingId: string, direction: Option<string>, types: set<ProductType>): seq<Row> {
    if rows == [] then []
    else
      (if Selects(rows[0], underlyingId, direction, types) then [rows[0]] else [])
      + Selected(rows[1..], underlyingId, direction, types)
  }

  lemma {:induction false} SelectedRows(rows: seq<Row>, underlyingId: string, direction: Option<string>, types: set<ProductType>)
    ensures forall row :: row in Selected(rows, underlyingId, direction, types) <==>
      row in rows && Selects(row, underlyingId, direction, types)
  {
    if rows != [] {
      SelectedRows(rows[1..], underlyingId, direction, types);
      assert rows == [rows[0]] + rows[1..];
    }
  }

  function CatalogOrder(): Row -> Key {
    (row: Row) => [Num(if row.productType.Certificate? then 0.0 else 1.0), Text(row.issuer), Text(row.name)]
  }

  function Ordered(rows: seq<Row>): seq<Row> {
    StableSort(rows, CatalogOrder())
  }

  /** Certificates first, then issuer and name in dictionary order. */
  ghost predicate RowBefore(x: Row, y: Row) {
    || (x.productType == Certificate && y.productType == Warrant)
    || (x.productType == y.productType &&
        (DictionaryBefore(x.issuer, y.issuer) || (x.issuer == y.issuer && DictionaryBefore(x.name, y.name))))
  }

  lemma RowsCompare(x: Row, y: Row)
    ensures CompareKey(CatalogOrder()(x), CatalogOrder()(y)) < 0 <==> RowBefore(x, y)
  {
    var p, q: Key := [Text(x.name)] + [], [Text(y.name)] + [];
    assert CatalogOrder()(x) == [CatalogOrder()(x)[0]] + ([Text(x.issuer)] + p);
    assert CatalogOrder()(y) == [CatalogOrder()(y)[0]] + ([Text(y.issuer)] + q);
    TuplesCompare(CatalogOrder()(x)[0], CatalogOrder()(y)[0], [Text(x.issuer)] + p, [Text(y.issuer)] + q);
    TextDecides(x.issuer, y.issuer, p, q);
    TextDecides(x.name, y.name, [], []);
  }

  /** No later row belongs before an earlier one. */
  lemma OrderedRows(rows: seq<Row>)
    ensures forall i, j | 0 <= i < j < |Ordered(rows)| :: !RowBefore(Ordered(rows)[j], Ordered(rows)[i])
  {
    SortSorts(rows, CatalogOrder());
    forall i, j | 0 <= i < j < |Ordered(rows)| ensures !RowBefore(Ordered(rows)[j], Ordered(rows)[i]) {
      var x, y := Ordered(rows)[i], Ordered(rows)[j];
      RowsCompare(y, x);
      KeyOrder(CatalogOrder()(x), CatalogOrder()(y));
    }
  }

  /** With `limit` set to the count, the ordered query returns every selected row. */
  lemma LimitIsCount(rows: seq<Row>, underlyingId: string, direction: Option<string>, types: set<ProductType>)
    ensures var picked := Selected(rows, underlyingId, direction, types);
            Ordered(picked)[..Min(|picked|, |Ordered(picked)|)] == Ordered(picked)
    ensures forall row :: row in Ordered(Selected(rows, underlyingId, direction, types)) <==>
      row in rows && Selects(row, underlyingId, direction, types)
  {
    var picked := Selected(rows, underlyingId, direction, types);
    SortSorts(picked, CatalogOrder());
    SameElements(picked, Ordered(picked));
    SelectedRows(rows, underlyingId, direction, types);
  }

  // ---- refresh ----

  function NormalizeAll(items: seq<Item>, productType: ProductType): seq<Row> {
    seq(|items|, i requires 0 <= i < |items| => NormalizeItem(items[i], productType))
  }

  /** The rows of a complete upstream snapshot. */
  function SnapshotRows(certificates: seq<Item>, warrants: seq<Item>): seq<Row> {
    NormalizeAll(certificates, Certificate) + NormalizeAll(warrants, Warrant)
  }

  /** A snapshot describes the two lists row by row, certificates first. */
  lemma SnapshotDescribes(certificates: seq<Item>, warrants: seq<Item>)
    ensures var rows := SnapshotRows(certificates, warrants);
            && |rows| == |certificates| + |warrants|
            && (forall i | 0 <= i < |certificates| :: Describes(rows[i], certificates[i], Certificate))
            && (forall i | 0 <= i < |warrants| :: Describes(rows[|certificates| + i], warrants[i], Warrant))
  {
    forall item: Item, t: ProductType ensures Describes(NormalizeItem(item, t), item, t) {
    }
  }

  /**
  A refresh installs a snapshot with unique keys and counts that match, or changes
  nothing.  What it installs are the two complete lists whenever their lengths are
  reported; and with every page readable it installs them exactly when the pages are
  large enough, the snapshot is non-empty and valid, and no statement raises.
  */
  method Refresh(catalog: InstrumentCatalog, certificates: Family<Item>, warrants: Family<Item>, now: int,
                 raises: Statement -> bool) returns (r: Result<Meta, string>)
    requires catalog.Valid()
    modifies catalog
    ensures catalog.Valid()
    ensures r.Err? ==> catalog.rows == old(catalog.rows) && catalog.meta == old(catalog.meta)
    ensures r.Ok? ==>
      catalog.rows != [] && ValidRows(catalog.rows) && catalog.meta == Some(r.value) && r.value == MetaOf(catalog.rows, now)
    ensures r.Ok? && certificates.server.reports(0) && warrants.server.reports(0) ==>
      Complete(catalog.rows, r.value, certificates.server.list, warrants.server.list, now)
    ensures AllServed(certificates) && AllServed(warrants) ==>
      (r.Ok? && Complete(catalog.rows, r.value, certificates.server.list, warrants.server.list, now) <==>
        && Collectable(certificates.server) && Collectable(warrants.server)
        && SnapshotRows(certificates.server.list, warrants.server.list) != []
        && ValidRows(SnapshotRows(certificates.server.list, warrants.server.list))
        && !AnyRaises(raises, |SnapshotRows(certificates.server.list, warrants.server.list)|))
  {
    var c := CollectFamily(certificates);
    var w := CollectFamily(warrants);
    if c.Err? {
      return Err(c.error);
    }
    if w.Err? {
      return Err(w.error);
    }
    var rows := SnapshotRows(c.value.0, w.value.0);
    if rows == [] {
      return Err("Refusing to replace the instrument catalog with an empty snapshot");
    }
    SnapshotCounts(c.value.0, w.value.0);
    r := catalog.ReplaceAll(rows, now, raises);
  }

  /** The table is the snapshot of exactly these two lists, and the metadata counts them. */
  ghost predicate Complete(rows: seq<Row>, meta: Meta, certificates: seq<Item>, warrants: seq<Item>, now: int) {
    && rows == SnapshotRows(certificates, warrants)
    && meta == Meta(now, |certificates| + |warrants|, |certificates|, |warrants|)
  }

  lemma {:induction false} OneTypeCount(rows: seq<Row>, productType: ProductType)
    requires forall row | row in rows :: row.productType == productType
    ensures forall t :: OfType(rows, t) == if t == productType then rows else []
  {
    if rows != [] {
      assert rows[0] in rows;
      forall row | row in rows[1..] ensures row in rows {}
      OneTypeCount(rows[1..], productType);
      assert rows == [rows[0]] + rows[1..];
    }
  }

  lemma {:induction false} OfTypeAppends(a: seq<Row>, b: seq<Row>, productType: ProductType)
    ensures OfType(a + b, productType) == OfType(a, productType) + OfType(b, productType)
  {
    if a == [] {
      assert a + b == b;
    } else {
      var head := if a[0].productType == productType then [a[0]] else [];
      var rest := OfType(a[1..], productType);
      OfTypeAppends(a[1..], b, productType);
      assert (a + b)[0] == a[0] && (a + b)[1..] == a[1..] + b;
      assert OfType(a + b, productType) == head + (rest + OfType(b, productType));
      assert head + (rest + OfType(b, productType)) == head + rest + OfType(b, productType);
    }
  }

  lemma SnapshotCounts(certificates: seq<Item>, warrants: seq<Item>)
    ensures |OfType(SnapshotRows(certificates, warrants), Certificate)| == |certificates|
    ensures |OfType(SnapshotRows(certificates, warrants), Warrant)| == |warrants|
  {
    var a, b := NormalizeAll(certificates, Certificate), NormalizeAll(warrants, Warrant);
    OneTypeCount(a, Certificate);
    OneTypeCount(b, Warrant);
    OfTypeAppends(a, b, Certificate);
    OfTypeAppends(a, b, Warrant);
  }
}
