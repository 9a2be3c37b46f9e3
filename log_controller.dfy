/** `getLogs` of controllers/log.controller.js: clamps the page and the page
    size, forwards the supplied filters to `searchLogs` and maps its answer
    onto the HTTP response. */
module LogController {
  import opened Wrappers
  import opened LogModel
  import opened LogSearch
  import opened Logger

  /** `req.query`, with `page`, `limit`, `from` and `to` already parsed to integers. */
  datatype LogQuery = LogQuery(
    severity: Option<string>,
    event: Option<string>,
    user: Option<string>,
    from: Option<int>,
    to: Option<int>,
    page: Option<int>,
    limit: Option<int>)

  datatype LogsResponse =
    | Ok200(totalItems: nat, pages: nat, currentPage: int, data: seq<LogEntry>)
    | Err500(message: string)

  /** `Math.max(1, page)` with `page` defaulting to 1. */
  function PageNum(page: Option<int>): (p: int)
    ensures p >= 1
    ensures page.None? ==> p == 1
    ensures page.Some? && page.value >= 1 ==> p == page.value
    ensures page.Some? && page.value < 1 ==> p == 1
  {
    var v := if page.Some? then page.value else 1;
    if v < 1 then 1 else v
  }

  /** `Math.min(100, Math.max(1, limit))` with `limit` defaulting to 20. */
  function LimitNum(limit: Option<int>): (l: int)
    ensures 1 <= l <= 100
    ensures limit.None? ==> l == 20
    ensures limit.Some? && 1 <= limit.value <= 100 ==> l == limit.value
    ensures limit.Some? && limit.value > 100 ==> l == 100
    ensures limit.Some? && limit.value < 1 ==> l == 1
  {
    var v := if limit.Some? then limit.value else 20;
    if v > 100 then 100 else if v < 1 then 1 else v
  }

  /** The filters object: a query field is copied only when it is truthy. */
  function ForwardedFilters(q: LogQuery): (f: Filters)
    ensures f.severity.Some? <==> Given(q.severity)
    ensures f.event.Some? <==> Given(q.event)
    ensures f.user.Some? <==> Given(q.user)
    ensures f.from == q.from && f.to == q.to
  {
    Filters(
      if Given(q.severity) then q.severity else None,
      if Given(q.event) then q.event else None,
      if Given(q.user) then q.user else None,
      q.from,
      q.to)
  }

  /** The 200 response `getLogs` sends when the store answers. */
  function ResponseFor(entries: seq<LogEntry>, q: LogQuery): (resp: LogsResponse)
    ensures resp.Ok200?
    ensures |resp.data| <= LimitNum(q.limit) <= 100
    ensures resp.currentPage == PageNum(q.page)
    ensures forall e :: e in resp.data ==> e in entries && Matches(e, ForwardedFilters(q))
    ensures resp.totalItems == |Matching(entries, ForwardedFilters(q))|
    ensures resp.pages == CeilDiv(resp.totalItems, LimitNum(q.limit))
    ensures resp.data == PageSlice(Ordered(entries, ForwardedFilters(q)), Skip(PageNum(q.page), LimitNum(q.limit)), LimitNum(q.limit))
  {
    var r := Search(entries, ForwardedFilters(q), PageNum(q.page), LimitNum(q.limit)).value;
    Ok200(r.pagination.totalItems, r.pagination.totalPages, r.pagination.currentPage, r.data)
  }

  /** The handler. Only the `searchLogs` call can throw here; its failure
      becomes a 500 with `success: false`. */
  method GetLogs(store: LogStore, q: LogQuery, storeFails: bool) returns (resp: LogsResponse)
    ensures storeFails ==> resp == Err500("Failed to retrieve logs")
    ensures !storeFails ==> resp == ResponseFor(store.entries, q)
  {
    var pageNum := if q.page.Some? then q.page.value else 1;
    if pageNum < 1 {
      pageNum := 1;
    }
    var limitNum := if q.limit.Some? then q.limit.value else 20;
    if limitNum < 1 {
      limitNum := 1;
    }
    if limitNum > 100 {
      limitNum := 100;
    }
    var filters := NoFilters;
    if Given(q.severity) {
      filters := filters.(severity := q.severity);
    }
    if Given(q.event) {
      filters := filters.(event := q.event);
    }
    if Given(q.user) {
      filters := filters.(user := q.user);
    }
    if q.from.Some? {
      filters := filters.(from := q.from);
    }
    if q.to.Some? {
      filters := filters.(to := q.to);
    }
    assert filters == ForwardedFilters(q);
    assert pageNum == PageNum(q.page) && limitNum == LimitNum(q.limit);
    var result := store.SearchLogs(filters, pageNum, limitNum, storeFails);
    if result.Failure? {
      return Err500("Failed to retrieve logs");
    }
    var r := result.value;
    resp := Ok200(r.pagination.totalItems, r.pagination.totalPages, r.pagination.currentPage, r.data);
  }

  /** Dropping the falsy query fields changes nothing: `searchLogs` itself
      ignores them, so forwarding only the supplied ones keeps the meaning of
      the query. */
  lemma ForwardingKeepsMeaning(q: LogQuery, e: LogEntry)
    ensures Matches(e, ForwardedFilters(q)) <==> Matches(e, Filters(q.severity, q.event, q.user, q.from, q.to))
  {
  }

  /** The clamps at their edges: 500 becomes 100, 0 and negatives become 1. */
  lemma ClampEdges(n: int)
    requires n <= 0
    ensures LimitNum(Some(500)) == 100
    ensures LimitNum(Some(n)) == 1 && PageNum(Some(n)) == 1
  {
  }

  /** `GET /logs?type=error&limit=10&page=1` over 25 stored error records
      answers totalItems 25, pages 3, currentPage 1 and ten records. */
  lemma TwentyFiveErrors(entries: seq<LogEntry>, q: LogQuery)
    requires q.severity == Some("error") && q.page == Some(1) && q.limit == Some(10)
    requires |Matching(entries, ForwardedFilters(q))| == 25
    ensures ResponseFor(entries, q) == Ok200(25, 3, 1, ResponseFor(entries, q).data)
    ensures |ResponseFor(entries, q).data| == 10
  {
    TwentyFiveMatchesTenPerPage(entries, ForwardedFilters(q));
  }
}
